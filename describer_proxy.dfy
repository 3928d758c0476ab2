/**
 * `CachingCharacterImageDescriberProxy`: the describer wrapped in a
 * content-addressed, time-expiring file cache. The cache directory is the
 * object's `files` map; the clock readings and the wrapped target's reply are
 * inputs of each call; `targetCalls` records which calls reached the target.
 */
module DescriberProxy {
  import opened Wrappers
  import opened JsonValues
  import opened CharacterDescriptions
  import opened CacheKeys
  import opened CacheProtocol

  const CACHE_SUBDIR := "character-image-describer"

  datatype ProxyOptions = ProxyOptions(cacheTtlMs: Option<int>, cacheRootDir: Option<string>)

  datatype TargetCall =
    | DescribeCall(base64Image: string)
    | UpdatePoseCall(description: Json, posePrompt: string)

  class CachingProxy {
    const cacheDir: string
    const cacheTtlMs: int
    const sha256: string -> string
    const stringify: Json -> string

    /** The cache files on disk, by path. */
    var files: Files
    /** Whether the cache directory has been created. */
    var dirExists: bool
    /** The calls forwarded to the wrapped target, oldest first. */
    ghost var targetCalls: seq<TargetCall>

    /**
     * The cache root defaults to `<projectRoot>/cache` and the TTL to 60
     * minutes; `disk` and `diskHasDir` are the file system as the proxy finds it.
     */
    constructor (options: ProxyOptions, projectRoot: string,
                 sha256: string -> string, stringify: Json -> string,
                 disk: Files, diskHasDir: bool)
      ensures cacheDir == options.cacheRootDir.GetOr(projectRoot + "/cache") + "/" + CACHE_SUBDIR
      ensures cacheTtlMs == options.cacheTtlMs.GetOr(DefaultTtlMs())
      ensures this.sha256 == sha256 && this.stringify == stringify
      ensures files == disk && dirExists == diskHasDir && targetCalls == []
    {
      var cacheRoot := options.cacheRootDir.GetOr(projectRoot + "/cache");
      cacheDir := cacheRoot + "/" + CACHE_SUBDIR;
      cacheTtlMs := options.cacheTtlMs.GetOr(CACHE_TTL_MINUTES * 60 * 1000);
      this.sha256 := sha256;
      this.stringify := stringify;
      files := disk;
      dirExists := diskHasDir;
      targetCalls := [];
    }

    /** Delete the key's file; a file that is already absent is not an error. */
    method InvalidateCache(key: string)
      modifies this`files
      ensures files == Invalidate(old(files), CachePath(cacheDir, key))
    {
      var cachePath := CachePath(cacheDir, key);
      if cachePath in files {
        files := files - {cachePath};
      }
    }

    method ReadCache(key: string, now: int) returns (cached: Option<Json>)
      modifies this`files
      ensures Lookup(files, cached) == Read(old(files), CachePath(cacheDir, key), now, cacheTtlMs)
    {
      var cachePath := CachePath(cacheDir, key);
      if cachePath !in files {
        return None;
      }
      var entry := files[cachePath];
      if entry.Corrupt? || !entry.createdAtMs.Num? {
        return None;
      }
      var ageMs := now - entry.createdAtMs.n;
      if ageMs > cacheTtlMs {
        files := files - {cachePath};
        return None;
      }
      if entry.value == Null {
        return None;
      }
      return Some(entry.value);
    }

    method WriteCache(key: string, value: Json, now: int)
      modifies this`files, this`dirExists
      ensures dirExists
      ensures files == Write(old(files), CachePath(cacheDir, key), now, value)
    {
      dirExists := true;
      var cachePath := CachePath(cacheDir, key);
      var tmpPath := cachePath + ".tmp";
      files := files[tmpPath := Entry(Num(now), value)];
      var staged := files[tmpPath];
      files := (files - {tmpPath})[cachePath := staged];
    }

    /** The hit / miss / validate / store protocol shared by the two cached operations. */
    method ServeFromCache(key: string, call: TargetCall, readNow: int, writeNow: int,
                          reply: Result<Json, Error>) returns (r: Result<Json, Error>)
      modifies this`files, this`dirExists, this`targetCalls
      ensures var s := Serve(old(files), CachePath(cacheDir, key), readNow, writeNow, cacheTtlMs, reply);
              && files == s.files && r == s.result
              && targetCalls == old(targetCalls) + (if s.targetCalled then [call] else [])
              && dirExists == (old(dirExists) || (s.targetCalled && reply.Success?))
      ensures old(TmpFree(files, cacheDir)) ==> TmpFree(files, cacheDir)
    {
      ghost var before := files;
      if TmpFree(before, cacheDir) {
        ServeKeepsTmpFree(before, cacheDir, key, readNow, writeNow, cacheTtlMs, reply);
      }
      var cached := ReadCache(key, readNow);
      if cached.Some? {
        if IsCharacterDescription(cached.value) {
          return Success(cached.value);
        }
        InvalidateCache(key);
      }
      targetCalls := targetCalls + [call];
      if reply.Failure? {
        return reply;
      }
      WriteCache(key, reply.value, writeNow);
      return reply;
    }

    /** `reply` is what the wrapped target answers for `base64Image`, if it is asked. */
    method DescribeFromBase64(base64Image: string, readNow: int, writeNow: int,
                              reply: Result<Json, Error>) returns (r: Result<Json, Error>)
      modifies this`files, this`dirExists, this`targetCalls
      ensures var s := Serve(old(files), CachePath(cacheDir, DescribeKey(sha256, base64Image)),
                             readNow, writeNow, cacheTtlMs, reply);
              && files == s.files && r == s.result
              && targetCalls == old(targetCalls) + (if s.targetCalled then [DescribeCall(base64Image)] else [])
              && dirExists == (old(dirExists) || (s.targetCalled && reply.Success?))
      ensures old(TmpFree(files, cacheDir)) ==> TmpFree(files, cacheDir)
    {
      var key := DescribeKey(sha256, base64Image);
      r := ServeFromCache(key, DescribeCall(base64Image), readNow, writeNow, reply);
    }

    /**
     * Reads the image at `filePath` from `imageFiles` (path to base64 text)
     * and describes it; an unreadable path fails before the cache is touched.
     */
    method DescribeFromPath(filePath: string, imageFiles: map<string, string>, readNow: int, writeNow: int,
                            reply: Result<Json, Error>) returns (r: Result<Json, Error>)
      modifies this`files, this`dirExists, this`targetCalls
      ensures filePath !in imageFiles ==>
                && r == Failure(UnreadableFile(filePath))
                && files == old(files) && dirExists == old(dirExists) && targetCalls == old(targetCalls)
      ensures filePath in imageFiles ==>
                var s := Serve(old(files), CachePath(cacheDir, DescribeKey(sha256, imageFiles[filePath])),
                               readNow, writeNow, cacheTtlMs, reply);
                && files == s.files && r == s.result
                && targetCalls == old(targetCalls) + (if s.targetCalled then [DescribeCall(imageFiles[filePath])] else [])
                && dirExists == (old(dirExists) || (s.targetCalled && reply.Success?))
      ensures old(TmpFree(files, cacheDir)) ==> TmpFree(files, cacheDir)
    {
      if filePath !in imageFiles {
        return Failure(UnreadableFile(filePath));
      }
      r := DescribeFromBase64(imageFiles[filePath], readNow, writeNow, reply);
    }

    /** `reply` is what the wrapped target answers for this description and prompt, if it is asked. */
    method UpdatePoseDescription(description: Json, posePrompt: string, readNow: int, writeNow: int,
                                 reply: Result<Json, Error>) returns (r: Result<Json, Error>)
      modifies this`files, this`dirExists, this`targetCalls
      ensures var s := Serve(old(files), CachePath(cacheDir, UpdatePoseKey(sha256, stringify, description, posePrompt)),
                             readNow, writeNow, cacheTtlMs, reply);
              && files == s.files && r == s.result
              && targetCalls == old(targetCalls) + (if s.targetCalled then [UpdatePoseCall(description, posePrompt)] else [])
              && dirExists == (old(dirExists) || (s.targetCalled && reply.Success?))
      ensures old(TmpFree(files, cacheDir)) ==> TmpFree(files, cacheDir)
    {
      var key := UpdatePoseKey(sha256, stringify, description, posePrompt);
      r := ServeFromCache(key, UpdatePoseCall(description, posePrompt), readNow, writeNow, reply);
    }
  }

  /**
   * Describing the same image twice, the cache holding no usable entry at
   * first and the second call coming within the TTL of the first's store:
   * the target is asked once, and both calls return its answer.
   */
  method DescribeSameImageTwice(proxy: CachingProxy, base64Image: string,
                                readNow1: int, writeNow1: int, value: Json,
                                readNow2: int, writeNow2: int, reply2: Result<Json, Error>)
    returns (r1: Result<Json, Error>, r2: Result<Json, Error>)
    requires !Usable(proxy.files, CachePath(proxy.cacheDir, DescribeKey(proxy.sha256, base64Image)), readNow1, proxy.cacheTtlMs)
    requires IsCharacterDescription(value)
    requires readNow2 - writeNow1 <= proxy.cacheTtlMs
    modifies proxy
    ensures r1 == Success(value) && r2 == Success(value)
    ensures proxy.targetCalls == old(proxy.targetCalls) + [DescribeCall(base64Image)]
  {
    TwoCallsOneTargetCall(proxy.files, CachePath(proxy.cacheDir, DescribeKey(proxy.sha256, base64Image)),
                          proxy.cacheTtlMs, readNow1, writeNow1, value, readNow2, writeNow2, reply2);
    r1 := proxy.DescribeFromBase64(base64Image, readNow1, writeNow1, Success(value));
    r2 := proxy.DescribeFromBase64(base64Image, readNow2, writeNow2, reply2);
  }
}
