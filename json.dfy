/**
 * JSON values, as `JSON.parse` hands them to the proxy. A key that is absent
 * from a parsed object and an explicit `null` behave alike under the checks the
 * proxy makes (`typeof x !== "number"`, `x ?? null`), so both are `Null` here.
 */
module JsonValues {

  datatype Json =
    | Null
    | Bool(b: bool)
    | Num(n: int)
    | Str(s: string)
    | Arr(elems: seq<Json>)
    | Obj(fields: map<string, Json>)
}
