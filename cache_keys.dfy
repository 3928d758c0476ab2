/**
 * Cache keys and cache file paths. SHA-256 and `JSON.stringify` are
 * uninterpreted: they are passed in as function values, and the properties
 * that need more of them (injectivity, hex-only digests) say so in `requires`.
 */
module CacheKeys {
  import opened JsonValues

  const DESCRIBE_TAG := "describeFromBase64|img="
  const UPDATE_POSE_TAG := "updatePoseDescription|desc="
  const PROMPT_TAG := "|prompt="

  /** `path.join(cacheDir, key + ".json")`, for keys that need no normalisation. */
  function CachePath(cacheDir: string, key: string): (p: string)
    ensures |p| == |cacheDir| + |key| + 6
    ensures p[..|cacheDir| + 1] == cacheDir + "/" && p[|cacheDir| + 1..|p| - 5] == key
    ensures p[|p| - 5..] == ".json"
  {
    cacheDir + "/" + key + ".json"
  }

  /** The staging file that `writeCache` renames into place. */
  function TmpPath(cacheDir: string, key: string): (p: string)
    ensures |p| == |CachePath(cacheDir, key)| + 4
    ensures p[..|p| - 4] == CachePath(cacheDir, key) && p[|p| - 4..] == ".tmp"
  {
    CachePath(cacheDir, key) + ".tmp"
  }

  /**
   * The key of `describeFromBase64`. A hex digest has no `/` or `.`, so it
   * names a file directly inside the cache directory.
   */
  function DescribeKey(sha256: string -> string, base64Image: string): (key: string)
    ensures HexDigests(sha256) ==> IsHex(key)
  {
    sha256(DESCRIBE_TAG + sha256(base64Image))
  }

  /** The key of `updatePoseDescription`; like the describe key, a hex digest when the hash yields one. */
  function UpdatePoseKey(sha256: string -> string, stringify: Json -> string, description: Json, posePrompt: string): (key: string)
    ensures HexDigests(sha256) ==> IsHex(key)
  {
    sha256(UPDATE_POSE_TAG + sha256(stringify(description)) + PROMPT_TAG + sha256(posePrompt))
  }

  ghost predicate Injective(sha256: string -> string) {
    forall a, b :: sha256(a) == sha256(b) ==> a == b
  }

  predicate IsHex(h: string) {
    forall i :: 0 <= i < |h| ==> h[i] in "0123456789abcdef"
  }

  /** `digest("hex")` yields lower-case hex digits only. */
  ghost predicate HexDigests(sha256: string -> string) {
    forall s :: IsHex(sha256(s))
  }

  /** Distinct keys have distinct cache files. */
  lemma CachePathInjective(cacheDir: string, k1: string, k2: string)
    ensures CachePath(cacheDir, k1) == CachePath(cacheDir, k2) ==> k1 == k2
  {
    if CachePath(cacheDir, k1) == CachePath(cacheDir, k2) {
      var p := CachePath(cacheDir, k1);
      assert k1 == p[|cacheDir| + 1 .. |p| - 5];
      assert k2 == p[|cacheDir| + 1 .. |p| - 5];
    }
  }

  /** A staging file is never the cache file of any key: one ends in `.tmp`, the other in `.json`. */
  lemma TmpPathIsNoCachePath(cacheDir: string, k1: string, k2: string)
    ensures TmpPath(cacheDir, k1) != CachePath(cacheDir, k2)
  {
    var t, c := TmpPath(cacheDir, k1), CachePath(cacheDir, k2);
    assert t[|t| - 1] == 'p';
    assert c[|c| - 1] == 'n';
  }

  /** Under an injective hash, different images get different keys. */
  lemma DescribeKeyInjective(sha256: string -> string, image1: string, image2: string)
    requires Injective(sha256)
    ensures DescribeKey(sha256, image1) == DescribeKey(sha256, image2) ==> image1 == image2
  {
    if DescribeKey(sha256, image1) == DescribeKey(sha256, image2) {
      var s1, s2 := DESCRIBE_TAG + sha256(image1), DESCRIBE_TAG + sha256(image2);
      assert s1 == s2;
      assert sha256(image1) == s1[|DESCRIBE_TAG|..];
      assert sha256(image2) == s2[|DESCRIBE_TAG|..];
    }
  }

  /** Under an injective hash, a describe key is never a pose-update key: the tags differ. */
  lemma KeysOfTheTwoOperationsDiffer(sha256: string -> string, stringify: Json -> string,
                                     base64Image: string, description: Json, posePrompt: string)
    requires Injective(sha256)
    ensures DescribeKey(sha256, base64Image) != UpdatePoseKey(sha256, stringify, description, posePrompt)
  {
    var s1 := DESCRIBE_TAG + sha256(base64Image);
    var s2 := UPDATE_POSE_TAG + sha256(stringify(description)) + PROMPT_TAG + sha256(posePrompt);
    assert s1[0] == 'd';
    assert s2[0] == 'u';
  }

  /** A hex digest cannot contain the `|` that opens `|prompt=`, so the split point is unique. */
  lemma SplitAtPromptTag(h1: string, t1: string, h2: string, t2: string)
    requires IsHex(h1) && IsHex(h2)
    requires h1 + PROMPT_TAG + t1 == h2 + PROMPT_TAG + t2
    ensures h1 == h2 && t1 == t2
  {
    var s := h1 + PROMPT_TAG + t1;
    assert |h1| == |h2| by {
      var i := if |h1| <= |h2| then |h1| else |h2|;
      assert s[i] == (h2 + PROMPT_TAG + t2)[i];
    }
    assert h1 == s[..|h1|];
    assert h2 == s[..|h1|];
    assert t1 == s[|h1| + |PROMPT_TAG|..];
    assert t2 == s[|h1| + |PROMPT_TAG|..];
  }

  /** The pre-hash string of `updatePoseDescription` determines both digests in it. */
  lemma PoseStringDeterminesDigests(h1: string, t1: string, h2: string, t2: string)
    requires IsHex(h1) && IsHex(h2)
    ensures UPDATE_POSE_TAG + h1 + PROMPT_TAG + t1 == UPDATE_POSE_TAG + h2 + PROMPT_TAG + t2
            ==> h1 == h2 && t1 == t2
  {
    var s1 := UPDATE_POSE_TAG + h1 + PROMPT_TAG + t1;
    var s2 := UPDATE_POSE_TAG + h2 + PROMPT_TAG + t2;
    if s1 == s2 {
      assert h1 + PROMPT_TAG + t1 == s1[|UPDATE_POSE_TAG|..];
      assert h2 + PROMPT_TAG + t2 == s2[|UPDATE_POSE_TAG|..];
      SplitAtPromptTag(h1, t1, h2, t2);
    }
  }

  /**
   * Under an injective hex hash, different (serialised description, prompt)
   * pairs get different keys.
   */
  lemma UpdatePoseKeyInjective(sha256: string -> string, stringify: Json -> string,
                               d1: Json, p1: string, d2: Json, p2: string)
    requires Injective(sha256) && HexDigests(sha256)
    ensures UpdatePoseKey(sha256, stringify, d1, p1) == UpdatePoseKey(sha256, stringify, d2, p2)
            ==> stringify(d1) == stringify(d2) && p1 == p2
  {
    var h1, t1 := sha256(stringify(d1)), sha256(p1);
    var h2, t2 := sha256(stringify(d2)), sha256(p2);
    PoseStringDeterminesDigests(h1, t1, h2, t2);
  }
}
