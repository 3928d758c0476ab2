/**
 * The cache directory as a map from file path to file contents, and the
 * proxy's operations on it as functions: what `readCache`, `invalidateCache`,
 * `writeCache` and the hit / miss / validate / store protocol of the two
 * cached operations do to the files and what they return.
 */
module CacheProtocol {
  import opened Wrappers
  import opened JsonValues
  import opened CharacterDescriptions
  import opened CacheKeys

  /**
   * A cache file once read and parsed: `Corrupt` when it cannot be read or
   * parsed (or parses to something that is not an object), otherwise the two
   * fields of a cache entry, either of which may hold any JSON value.
   */
  datatype FileContents = Corrupt | Entry(createdAtMs: Json, value: Json)

  type Files = map<string, FileContents>

  datatype Error = TargetError(reason: string) | UnreadableFile(filePath: string)

  const CACHE_TTL_MINUTES := 60

  /** The TTL used when the options give none. */
  function DefaultTtlMs(): (ms: int)
    ensures ms == 3_600_000
  {
    CACHE_TTL_MINUTES * 60 * 1000
  }

  /** The file at `path` has a numeric timestamp older than `ttl` at `now`. */
  predicate Expired(files: Files, path: string, now: int, ttl: int) {
    && path in files
    && files[path].Entry?
    && files[path].createdAtMs.Num?
    && now - files[path].createdAtMs.n > ttl
  }

  /** The file at `path` has a numeric timestamp at most `ttl` old and a non-null value. */
  predicate Fresh(files: Files, path: string, now: int, ttl: int) {
    && path in files
    && files[path].Entry?
    && files[path].createdAtMs.Num?
    && now - files[path].createdAtMs.n <= ttl
    && files[path].value != Null
  }

  /** A fresh entry that also passes the structural check: a cache hit. */
  predicate Usable(files: Files, path: string, now: int, ttl: int) {
    Fresh(files, path, now, ttl) && IsCharacterDescription(files[path].value)
  }

  /** An entry the protocol deletes before going to the target: expired, or fresh but invalid. */
  predicate Discarded(files: Files, path: string, now: int, ttl: int) {
    Expired(files, path, now, ttl) || (Fresh(files, path, now, ttl) && !IsCharacterDescription(files[path].value))
  }

  /** Files agree everywhere except possibly at the paths in `except`. */
  ghost predicate SameElsewhere(a: Files, b: Files, except: set<string>) {
    forall q :: q !in except ==> (q in a <==> q in b) && (q in a ==> a[q] == b[q])
  }

  datatype Lookup = Lookup(files: Files, cached: Option<Json>)

  /**
   * `readCache`: a value comes back exactly when the entry is fresh; the only
   * change to the files is the removal of an expired entry.
   */
  function Read(files: Files, path: string, now: int, ttl: int): (r: Lookup)
    ensures r.cached.Some? <==> Fresh(files, path, now, ttl)
    ensures r.cached.Some? ==> r.cached.value == files[path].value
    ensures r.files == if Expired(files, path, now, ttl) then files - {path} else files
  {
    if path !in files then Lookup(files, None)
    else match files[path]
      case Corrupt => Lookup(files, None)
      case Entry(createdAtMs, value) =>
        if !createdAtMs.Num? then Lookup(files, None)
        else
          var ageMs := now - createdAtMs.n;
          if ageMs > ttl then Lookup(files - {path}, None)
          else if value == Null then Lookup(files, None)
          else Lookup(files, Some(value))
  }

  /** `invalidateCache`: the file at `path` is gone, present or not before; nothing else changes. */
  function Invalidate(files: Files, path: string): (r: Files)
    ensures path !in r
    ensures SameElsewhere(files, r, {path})
    ensures path !in files ==> r == files
  {
    files - {path}
  }

  /**
   * `writeCache`: stage the entry in `path + ".tmp"`, then rename it over
   * `path`. Afterwards `path` holds the new entry, the staging file is gone,
   * and every other file is as it was.
   */
  function Write(files: Files, path: string, now: int, value: Json): (r: Files)
    ensures path in r && r[path] == Entry(Num(now), value)
    ensures path + ".tmp" !in r
    ensures SameElsewhere(files, r, {path, path + ".tmp"})
  {
    var tmpPath := path + ".tmp";
    var staged := files[tmpPath := Entry(Num(now), value)];
    (staged - {tmpPath})[path := staged[tmpPath]]
  }

  /** A write replaces whatever was at `path`, so deleting it first makes no difference. */
  lemma WriteOverwrites(files: Files, path: string, now: int, value: Json)
    ensures Write(files - {path}, path, now, value) == Write(files, path, now, value)
  {
  }

  datatype Served = Served(files: Files, targetCalled: bool, result: Result<Json, Error>)

  /**
   * One call of `describeFromBase64` or `updatePoseDescription` for the cache
   * file `path`: the lookup at `readNow`, the reply `reply` of the wrapped
   * target if it is consulted, and the store at `writeNow`.
   */
  function Serve(files: Files, path: string, readNow: int, writeNow: int, ttl: int,
                 reply: Result<Json, Error>): (s: Served)
    ensures !s.targetCalled <==> Usable(files, path, readNow, ttl)
    ensures !s.targetCalled ==> s.files == files && s.result == Success(files[path].value)
    ensures s.targetCalled ==> s.result == reply
    ensures s.targetCalled && reply.Success? ==> s.files == Write(files, path, writeNow, reply.value)
    ensures s.targetCalled && reply.Failure? ==>
              s.files == if Discarded(files, path, readNow, ttl) then files - {path} else files
  {
    var lookup := Read(files, path, readNow, ttl);
    if lookup.cached.Some? && IsCharacterDescription(lookup.cached.value) then
      Served(lookup.files, false, Success(lookup.cached.value))
    else
      var cleared := if lookup.cached.Some? then Invalidate(lookup.files, path) else lookup.files;
      if reply.Failure? then Served(cleared, true, reply)
      else
        WriteOverwrites(files, path, writeNow, reply.value);
        Served(Write(cleared, path, writeNow, reply.value), true, reply)
  }

  /** The age test is strict: an entry exactly `ttl` old is served, one a millisecond older is evicted. */
  lemma ReadAtTtlBoundary(files: Files, path: string, createdAtMs: int, value: Json, ttl: int)
    requires path in files && files[path] == Entry(Num(createdAtMs), value) && value != Null
    ensures Read(files, path, createdAtMs + ttl, ttl) == Lookup(files, Some(value))
    ensures Read(files, path, createdAtMs + ttl + 1, ttl) == Lookup(files - {path}, None)
  {
  }

  /**
   * An unreadable entry, one without a numeric timestamp, and a fresh one
   * holding `null` all read as a miss and stay on disk.
   */
  lemma ReadKeepsUnusable(files: Files, path: string, now: int, ttl: int)
    requires path in files
    requires || files[path] == Corrupt
             || !files[path].createdAtMs.Num?
             || (now - files[path].createdAtMs.n <= ttl && files[path].value == Null)
    ensures Read(files, path, now, ttl) == Lookup(files, None)
  {
  }

  /** What `writeCache` stores, `readCache` hands back while it is fresh. */
  lemma WriteThenRead(files: Files, path: string, writtenAt: int, value: Json, now: int, ttl: int)
    requires value != Null && now - writtenAt <= ttl
    ensures var written := Write(files, path, writtenAt, value);
            Read(written, path, now, ttl) == Lookup(written, Some(value))
  {
  }

  /**
   * A corrupt file is replaced by the target's answer, and left in place when
   * the target fails; an entry that parses but fails the structural check is
   * deleted even when the target fails.
   */
  lemma SelfHealing(files: Files, path: string, readNow: int, writeNow: int, ttl: int,
                    value: Json, error: Error)
    ensures files[path := Corrupt] == Serve(files[path := Corrupt], path, readNow, writeNow, ttl, Failure(error)).files
    ensures var s := Serve(files[path := Corrupt], path, readNow, writeNow, ttl, Success(value));
            s.targetCalled && s.files[path] == Entry(Num(writeNow), value) && s.result == Success(value)
    ensures Fresh(files, path, readNow, ttl) && !IsCharacterDescription(files[path].value) ==>
              path !in Serve(files, path, readNow, writeNow, ttl, Failure(error)).files
  {
  }

  /**
   * Two calls for the same key, the second within the TTL of the first's
   * store: one target call, and both return the target's answer even if the
   * target would answer the second call differently.
   */
  lemma TwoCallsOneTargetCall(files: Files, path: string, ttl: int,
                              readNow1: int, writeNow1: int, value: Json,
                              readNow2: int, writeNow2: int, reply2: Result<Json, Error>)
    requires !Usable(files, path, readNow1, ttl)
    requires IsCharacterDescription(value)
    requires readNow2 - writeNow1 <= ttl
    ensures var s1 := Serve(files, path, readNow1, writeNow1, ttl, Success(value));
            var s2 := Serve(s1.files, path, readNow2, writeNow2, ttl, reply2);
            && s1.targetCalled && !s2.targetCalled
            && s1.result == Success(value) && s2.result == Success(value)
            && s2.files == s1.files
  {
  }

  /** No staging file of any key in `cacheDir` is present. */
  ghost predicate TmpFree(files: Files, cacheDir: string) {
    forall k :: TmpPath(cacheDir, k) !in files
  }

  /** A call for one key leaves the cache file of every other key as it was. */
  lemma ServeTouchesOnlyItsKey(files: Files, cacheDir: string, key: string, other: string,
                               readNow: int, writeNow: int, ttl: int, reply: Result<Json, Error>)
    requires key != other
    ensures var s := Serve(files, CachePath(cacheDir, key), readNow, writeNow, ttl, reply);
            var q := CachePath(cacheDir, other);
            (q in s.files <==> q in files) && (q in files ==> s.files[q] == files[q])
  {
    var path := CachePath(cacheDir, key);
    var s := Serve(files, path, readNow, writeNow, ttl, reply);
    CachePathInjective(cacheDir, key, other);
    TmpPathIsNoCachePath(cacheDir, key, other);
    assert SameElsewhere(files, s.files, {path, path + ".tmp"});
  }

  /** A call never leaves a staging file behind where there was none. */
  lemma ServeKeepsTmpFree(files: Files, cacheDir: string, key: string,
                          readNow: int, writeNow: int, ttl: int, reply: Result<Json, Error>)
    requires TmpFree(files, cacheDir)
    ensures TmpFree(Serve(files, CachePath(cacheDir, key), readNow, writeNow, ttl, reply).files, cacheDir)
  {
    var path := CachePath(cacheDir, key);
    var s := Serve(files, path, readNow, writeNow, ttl, reply);
    forall k
      ensures TmpPath(cacheDir, k) !in s.files
    {
      TmpPathIsNoCachePath(cacheDir, k, key);
      assert SameElsewhere(files, s.files, {path, path + ".tmp"});
    }
  }
}
