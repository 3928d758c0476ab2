# Caching character-image-describer proxy, in Dafny

This project models `CachingCharacterImageDescriberProxy`, the caching layer that sits in front of the
character-image describer. The cache is content-addressed and time-expiring. The proxy:

- derives a key for each call by hashing the operation's name together with digests of its inputs;
- keeps one JSON file per key, `<key>.json`, holding `{createdAtMs, value}`;
- reuses a cached value only if the entry is no older than the TTL (60 minutes by default) and the value
  passes the structural check `isCharacterDescription`;
- otherwise asks the wrapped target and stores its answer, writing a `.tmp` file and renaming it over the
  cache file.

Module by module:

- `JsonValues` (json.dfy): parsed JSON values.
- `CharacterDescriptions` (character_description.dfy): the structural check. It needs the 11 required
  top-level keys and the 15 required pose keys, and checks only that they are present.
- `CacheKeys` (cache_keys.dfy): cache keys and cache file paths. SHA-256 and `JSON.stringify` are passed
  in as uninterpreted functions.
- `CacheProtocol` (cache_protocol.dfy): the cache directory as a `map` from path to `FileContents`
  (`Corrupt | Entry(createdAtMs, value)`). `readCache`, `invalidateCache`, `writeCache` and the
  hit / miss / validate / store protocol are written as functions over it.
- `DescriberProxy` (describer_proxy.dfy): the class. Its fields are the cache directory, the TTL, the hash,
  the serialiser, the file map, a "directory exists" flag and a ghost log of target calls. Each of its
  imperative methods states its new state through the `CacheProtocol` functions.

The clock, the wrapped target and the image file system are not modelled as behaviour. They are inputs:

- Each cached operation takes two clock readings: `readNow` for the lookup and `writeNow` for the store.
  The source reads `Date.now()` once in `readCache` and again in `writeCache`, after awaiting the target.
- Each cached operation takes `reply`, the answer the target would give. It is used only if the target is
  asked. A `Failure` reply models the target throwing.
- `describeFromPath` takes `imageFiles`, a map from path to the file's base64 text.

Two conventions in `FileContents`:

- A file that cannot be read or parsed is `Corrupt`. So is a file that parses to something other than an
  object: the source treats it the same way, returning `null` and leaving the file alone.
- A missing `createdAtMs` or `value` is `Null`. Under `typeof … !== "number"` and `?? null` a missing
  field and `null` behave alike.

## Which stale files are deleted

One might expect every failed validation step to delete the stale file. The code does not, and the
model follows the code:

- `readCache` deletes only expired entries (code/character-image-describer-proxy.ts:68-74).
- A file that is unreadable, unparseable, carries a non-numeric `createdAtMs` or holds a `null` value
  just reads as a miss (:65, :77, :78-80). It stays on disk until a successful call overwrites it.
- If the target then fails, such a file survives the call (`CacheProtocol.SelfHealing`).
- An entry that parses but fails `isCharacterDescription` is deleted explicitly (:146, :170).

## Model

| member | source | states |
|---|---|---|
| `CharacterDescriptions.AllPresent` | code/character-image-describer-proxy.ts:113 | The key-list `every` is true exactly when every listed key is a key of the object. |
| `CharacterDescriptions.IsObject` | code/character-image-describer-proxy.ts:94-95 | True exactly for a value that is not `null`, not an array and not a primitive: what `typeof v === "object" && v !== null && !Array.isArray(v)` accepts. |
| `CharacterDescriptions.IsCharacterDescription` | code/character-image-describer-proxy.ts:93-137 | True iff the value is a non-null, non-array object with all 11 required keys, and its `pose` is such an object with all 15 required pose keys. |
| `CharacterDescriptions.VerdictIgnoresValues` | code/character-image-describer-proxy.ts:113-136 | Two objects with the same keys and the same pose keys get the same verdict, whatever the values: only presence is checked. |
| `CharacterDescriptions.SkeletonPasses` | code/character-image-describer-proxy.ts:99-136 | An object whose required fields all hold `null`, apart from a `pose` whose pose fields all hold `null`, passes: neither type nor emptiness is checked. |
| `CharacterDescriptions.MissingGazeFails` | code/character-image-describer-proxy.ts:118-136 | An object whose pose object lacks `gaze_direction` fails, whatever else it holds. |
| `CacheKeys.CachePath` | code/character-image-describer-proxy.ts:45-47 | The path is the cache directory, a `/`, the key and `.json`, and the key can be read back from between them. |
| `CacheKeys.TmpPath` | code/character-image-describer-proxy.ts:86 | The staging path is the key's cache path followed by `.tmp`. |
| `CacheKeys.DescribeKey` | code/character-image-describer-proxy.ts:140-141 | The key is the digest of the `DESCRIBE_TAG` prefix followed by the image's digest; it is hex when the hash yields hex, so it names a file directly inside the cache directory. |
| `CacheKeys.UpdatePoseKey` | code/character-image-describer-proxy.ts:163-165 | The key is the digest of the `UPDATE_POSE_TAG` prefix, the digest of the serialised description, `PROMPT_TAG` and the prompt's digest; it is hex when the hash yields hex. |
| `CacheKeys.CachePathInjective` | code/character-image-describer-proxy.ts:45-47 | Two keys with the same cache file are equal. |
| `CacheKeys.TmpPathIsNoCachePath` | code/character-image-describer-proxy.ts:85-86 | No key's staging file `<key>.json.tmp` is the cache file of any key. |
| `CacheKeys.DescribeKeyInjective` | code/character-image-describer-proxy.ts:140-141 | If the hash is injective, equal `describeFromBase64` keys come from equal images. |
| `CacheKeys.KeysOfTheTwoOperationsDiffer` | code/character-image-describer-proxy.ts:139-165 | If the hash is injective, no `describeFromBase64` key equals an `updatePoseDescription` key, because the pre-hash strings begin differently. |
| `CacheKeys.UpdatePoseKeyInjective` | code/character-image-describer-proxy.ts:163-165 | If the hash is injective and yields hex digits, equal `updatePoseDescription` keys come from equal serialised descriptions and equal prompts. |
| `CacheProtocol.DefaultTtlMs` | code/character-image-describer-proxy.ts:33-34 | The default TTL, 60 minutes of 60 000 ms, is 3 600 000 ms. |
| `CacheProtocol.Read` | code/character-image-describer-proxy.ts:58-81 | A value comes back iff the entry has a numeric timestamp at most `ttl` old and a non-null value, and it is that value. The files change only when the entry is expired (age `> ttl`), and then only by losing that entry. |
| `CacheProtocol.ReadAtTtlBoundary` | code/character-image-describer-proxy.ts:67-75 | An entry exactly `ttl` old is returned unchanged. One a millisecond older is deleted and reads as a miss. |
| `CacheProtocol.ReadKeepsUnusable` | code/character-image-describer-proxy.ts:60-80 | A corrupt entry, one without a numeric timestamp, and a fresh one holding `null` read as a miss and are not deleted. |
| `CacheProtocol.Invalidate` | code/character-image-describer-proxy.ts:49-56 | Afterwards the key's file is absent. Every other file is unchanged. An already-absent file changes nothing. |
| `CacheProtocol.Write` | code/character-image-describer-proxy.ts:83-91 | Afterwards the cache file holds `Entry(Num(now), value)` and no staging file remains. Every other file is unchanged. |
| `CacheProtocol.WriteOverwrites` | code/character-image-describer-proxy.ts:83-91 | Deleting the cache file before a write does not change the result of the write. |
| `CacheProtocol.WriteThenRead` | code/character-image-describer-proxy.ts:58-91 | A non-null value that was written reads back unchanged while it is at most `ttl` old. |
| `CacheProtocol.Serve` | code/character-image-describer-proxy.ts:139-152 | The target is skipped iff the entry is fresh and passes `isCharacterDescription`; a hit returns the cached value and leaves the files unchanged. On a miss the target's reply is returned unchanged. A successful reply is written over the key's file. After a failed reply the files are as after the read/invalidate phase: the entry is deleted iff it was expired or fresh but invalid. |
| `CacheProtocol.SelfHealing` | code/character-image-describer-proxy.ts:143-151 | A corrupt file is replaced by a successful reply and is kept when the target fails. A fresh but invalid entry is deleted even when the target fails. |
| `CacheProtocol.TwoCallsOneTargetCall` | code/character-image-describer-proxy.ts:139-152 | Two calls for one key, starting with no usable entry, the second within `ttl` of the first's store, with a valid first answer: only the first reaches the target, both return that answer, and the second changes nothing. |
| `CacheProtocol.ServeTouchesOnlyItsKey` | code/character-image-describer-proxy.ts:45-91 | A call for one key leaves the cache file of every other key as it was. |
| `CacheProtocol.ServeKeepsTmpFree` | code/character-image-describer-proxy.ts:83-91 | If no key's staging file exists before a call, none exists after it. |
| `DescriberProxy.CachingProxy.constructor` | code/character-image-describer-proxy.ts:24-35 | The cache directory is `<root>/character-image-describer`, where the root defaults to `<projectRoot>/cache`. The TTL is the option if given, else 3 600 000 ms. The file system is as found and no call has reached the target. |
| `DescriberProxy.CachingProxy.InvalidateCache` | code/character-image-describer-proxy.ts:49-56 | The new file map is `Invalidate` of the old one. There is no failure outcome. |
| `DescriberProxy.CachingProxy.ReadCache` | code/character-image-describer-proxy.ts:58-81 | The returned value and the new file map are those of `Read` at `now` with the proxy's TTL. |
| `DescriberProxy.CachingProxy.WriteCache` | code/character-image-describer-proxy.ts:83-91 | The directory exists afterwards. The new file map is `Write` of the old one at `now`, done as a staging write followed by a rename. |
| `DescriberProxy.CachingProxy.ServeFromCache` | code/character-image-describer-proxy.ts:143-151 | The files and the result are those of `Serve`. A call is logged iff `Serve` consults the target. The directory is created iff a reply is stored. A staging-file-free cache stays free of staging files. |
| `DescriberProxy.CachingProxy.DescribeFromBase64` | code/character-image-describer-proxy.ts:139-152 | Runs `Serve` on the cache file of the image's key, and logs `DescribeCall(image)` exactly when the target is consulted. |
| `DescriberProxy.CachingProxy.DescribeFromPath` | code/character-image-describer-proxy.ts:154-157 | An unreadable path fails with `UnreadableFile` and changes nothing. Otherwise it behaves like `DescribeFromBase64` on the file's base64 text. |
| `DescriberProxy.CachingProxy.UpdatePoseDescription` | code/character-image-describer-proxy.ts:159-176 | Runs `Serve` on the cache file of the (description, prompt) key, and logs `UpdatePoseCall` exactly when the target is consulted. |
| `DescriberProxy.DescribeSameImageTwice` | code/character-image-describer-proxy.ts:139-152 | Describing one image twice on the proxy, under the conditions of `TwoCallsOneTargetCall`, logs exactly one target call and returns the first answer twice. |

Keys are deterministic by construction: `DescribeKey` and `UpdatePoseKey` are functions of their inputs
and of the hash.

## Left out

- The OpenAI-backed modules (describer, image generator, variant generator), the dependency container and
  the command-line executors are not part of this model. The wrapped target is represented only by its reply.
- SHA-256 and `JSON.stringify` are uninterpreted functions. `JSON.stringify`/`JSON.parse` of the entry
  text is not modelled: a file holds the parsed entry, so a written entry is assumed to parse back as written.
- CacheKeys.UpdatePoseKey: `JSON.stringify(description)` depends on the insertion order of object keys,
  but `Obj` is an unordered map, so the uninterpreted `stringify` sees no order. Two descriptions that
  differ only in field order therefore share one key and one cache entry in the model, while in the
  source they get two keys and two cache files.
- JavaScript numbers are doubles; JSON numbers here are integers. NaN, infinities and fractional
  timestamps are not modelled.
- `path.join` normalisation of the cache directory and the `import.meta.url` lookup of the project root
  are not modelled. Paths are joined with `/`, and the project root is a constructor argument. Keys are
  hex digests, so the key part of a path needs no normalisation.
- File-system errors are not modelled, except that an unreadable cache file is `Corrupt`. The model has no
  failing write or rename (the source lets those errors reach the caller). It has no failing unlink of an
  expired entry (the source ignores that error and the file stays).
- `fs.mkdirSync(…, {recursive: true})` is only the `dirExists` flag. Files are not tied to the directory.
- Crash atomicity of the rename and the race between concurrent writers cannot be expressed in a sequential
  model. Write-then-rename is two successive updates of the file map.
- JavaScript's `in` also finds inherited properties of `Object.prototype`. None of the required keys is one
  of those, so key presence is map membership.
- No pose-merge or template-normaliser routine appears in the modelled code, so none is modelled.
