/**
 * The structural check `isCharacterDescription` that a cached value must pass
 * before it is reused: an object with every required top-level key, whose
 * `pose` is an object with every required pose key. Only presence is checked.
 */
module CharacterDescriptions {
  import opened JsonValues

  const REQUIRED_KEYS: seq<string> := [
    "character_id",
    "one_line_summary",
    "pose",
    "art_style",
    "body_base",
    "head_and_face",
    "hair",
    "outfit",
    "equipment_and_props",
    "color_palette",
    "rendering_constraints"
  ]

  const REQUIRED_POSE_KEYS: seq<string> := [
    "overall_pose",
    "action",
    "motion_state",
    "is_airborne",
    "movement_direction",
    "speed_or_intensity",
    "ground_contact_points",
    "weight_shift_and_balance",
    "body_orientation",
    "head_orientation",
    "gaze_direction",
    "arm_positions",
    "leg_positions",
    "facial_expression",
    "camera_movement_or_zoom"
  ]

  /** `keys.every((k) => k in fields)`, scanning the list from the front. */
  function AllPresent(keys: seq<string>, fields: map<string, Json>): (b: bool)
    ensures b <==> forall i :: 0 <= i < |keys| ==> keys[i] in fields
  {
    if keys == [] then true
    else keys[0] in fields && AllPresent(keys[1..], fields)
  }

  /** The object test `typeof v === "object" && v !== null && !Array.isArray(v)`. */
  predicate IsObject(v: Json): (b: bool)
    ensures b <==> !(v.Null? || v.Arr? || v.Bool? || v.Num? || v.Str?)
  {
    v.Obj?
  }

  function IsCharacterDescription(v: Json): (b: bool)
    ensures b <==>
      && v.Obj?
      && (forall k :: k in REQUIRED_KEYS ==> k in v.fields)
      && "pose" in v.fields
      && v.fields["pose"].Obj?
      && (forall k :: k in REQUIRED_POSE_KEYS ==> k in v.fields["pose"].fields)
  {
    if !IsObject(v) then false
    else if !AllPresent(REQUIRED_KEYS, v.fields) then false
    else
      assert REQUIRED_KEYS[2] == "pose";
      var pose := v.fields["pose"];
      IsObject(pose) && AllPresent(REQUIRED_POSE_KEYS, pose.fields)
  }

  /** The verdict depends on which keys are present, never on the values under them. */
  lemma VerdictIgnoresValues(a: map<string, Json>, b: map<string, Json>)
    requires a.Keys == b.Keys
    requires "pose" in a ==> (a["pose"].Obj? <==> b["pose"].Obj?)
    requires "pose" in a && a["pose"].Obj? ==> a["pose"].fields.Keys == b["pose"].fields.Keys
    ensures IsCharacterDescription(Obj(a)) == IsCharacterDescription(Obj(b))
  {
  }

  /** A description with every required key, all holding `null` except `pose`. */
  function Skeleton(): (v: Json)
    ensures v.Obj? && v.fields.Keys == set k | k in REQUIRED_KEYS
  {
    Obj(map k | k in REQUIRED_KEYS :: if k == "pose" then Obj(map p | p in REQUIRED_POSE_KEYS :: Null) else Null)
  }

  /** Null-valued fields pass: types and emptiness are not checked. */
  lemma SkeletonPasses()
    ensures IsCharacterDescription(Skeleton())
  {
  }

  /** A pose that lacks `gaze_direction` fails, whatever else it holds. */
  lemma MissingGazeFails(v: Json)
    requires v.Obj? && "pose" in v.fields && v.fields["pose"].Obj?
    requires "gaze_direction" !in v.fields["pose"].fields
    ensures !IsCharacterDescription(v)
  {
  }
}
