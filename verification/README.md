# get-files-matching-glob, modelled in Dafny

The repository is a small memoising layer in front of the `glob` matcher.
It keeps a process-wide cache from a glob pattern to the files that
`glob.sync` found for it. A per-call `useCache` switch turns the cache on
or off. The repository holds three divergent orchestrators, and each one
is modelled as written:

- the **root** `getFilesMatchingGlob(pattern, useCache = true)`.
  It validates the pattern, then `useCache`. It puts a `{}` placeholder
  under the pattern and returns a non-empty entry as a hit. Otherwise it
  calls the matcher, stores the result (an empty result too) and throws
  when the result is empty.
- the **legacy** `getFilesMatchingGlobPattern(globPattern)`. It works the
  same way but always caches and returns a hit wrapped as `{cached: entry}`.
- the **refactored** `src/getFilesMatchingGlob`. It is built from a
  validator (`_validateCacheArgs`), a reader (`_maybeGetCachedOutput`) and
  a writer (`_maybeSetCachedOutput`) that share one cache.

The cache is an immutable `map<string, JsValue>` threaded through pure
functions. The matcher is a function parameter `string -> seq<string>`.
Every orchestrator returns a `Call`: the outcome (a value, or the message
of the thrown Error), the cache afterwards, and whether the matcher was
consulted. `Sessions` runs sequences of calls on one cache and counts the
matcher calls. This is how memoisation (or its absence) is stated.

Files: `js_values.dfy` (JavaScript values, truthiness, lodash `_.isEmpty`
and `_.isPlainObject`, messages), `validate_cache_args.dfy`,
`cache_reader.dfy`, `cache_writer.dfy`, `root_variant.dfy`,
`legacy_variant.dfy`, `refactored_variant.dfy`, `sessions.dfy`.

Some behaviour is easy to misread in the code; the model follows the code:

- The root and legacy orchestrators do cache an empty match result, as
  `[]`. lodash treats `[]` as empty, so it is retried on the next call.
- The reader tests truthiness, not emptiness. A stored `[]` is truthy,
  so the reader returns it.
- The writer returns `undefined` after a store, not `true`.
- The legacy orchestrator wraps hits as `{cached: entry}`.
- The refactored orchestrator returns a read only when it is a plain
  object (see Findings).
- A JavaScript default parameter also replaces an explicit `undefined`.
  So `useCache = undefined` means `true` in the root and refactored
  orchestrators (`JsValues.UseCacheOrDefault`).

## Model

| member | source | states |
|---|---|---|
| JsValues.FalsyValues | src/_maybeGetCachedOutput.js:8 | the reader's `!_.get(...)` test treats exactly `undefined`, `null`, `false`, `0` and `''` as a miss |
| JsValues.EmptyValues | getFilesMatchingGlob.js:29 | lodash `_.isEmpty` holds of a string, Array or object iff it is the empty one of its kind, and of every boolean, number, `null` and `undefined` |
| JsValues.PlainObjects | src/getFilesMatchingGlob.js:19 | lodash `_.isPlainObject` never holds of an Array or `null`, and a plain object is always truthy |
| JsValues.TruthinessIsNotEmptiness | getFilesMatchingGlobPattern.js:25 | every falsy value is empty, but not conversely: `[]` and non-zero numbers are truthy yet empty, so the reader's hit test and the root and legacy hit test differ |
| JsValues.UseCacheOrDefault | getFilesMatchingGlob.js:16 | an omitted or `undefined` useCache becomes `true`; any other argument is kept as passed, including non-booleans, which validation then rejects |
| JsValues.MatchOutcome | getFilesMatchingGlob.js:42-46 | a matcher result is returned iff it is non-empty; an empty one becomes the NoFiles error for that pattern |
| JsValues.NoFilesMessage | getFilesMatchingGlob.js:43 | the NoFiles message is the fixed prefix followed by the pattern verbatim |
| JsValues.NoFilesMessageInjective | getFilesMatchingGlob.js:43 | two patterns with the same NoFiles message are the same pattern |
| JsValues.NoFilesMessageIsNotArgumentError | getFilesMatchingGlob.js:17-44 | a NoFiles error can never be mistaken for one of the three argument errors |
| Validator.ValidateCacheArgs | src/_validateCacheArgs.js:1-13 | passes (returning `undefined`) iff every present field has its type; otherwise throws the message of the first failing field in the order pattern, useCache, output |
| Validator.FirstFailure | src/_validateCacheArgs.js:2-12 | an ordered list of checks passes iff every check passes, and otherwise fails with the message of a failing check |
| Validator.ValidateIsFirstFailure | src/_validateCacheArgs.js:2-12 | the validator equals running the three checks in the order pattern, useCache, output and stopping at the first failure |
| Validator.AbsentFieldsPass | src/_validateCacheArgs.js:1-13 | an argument object with no own fields passes, and removing a field never turns a pass into a failure |
| CacheReader.ReaderArgs | src/_maybeGetCachedOutput.js:6 | the reader passes its own `pattern` and `useCache` to the validator as present fields, even when they are `undefined`: validation passes iff the pattern is a string and useCache a boolean, and a bad pattern is reported first |
| CacheReader.MaybeGetCachedOutput | src/_maybeGetCachedOutput.js:5-13 | validation errors propagate (pattern first); with caching off the result is `null`; with caching on a truthy entry is returned exactly and a missing or falsy one reads as `null`; any non-null result is the entry stored under the pattern |
| CacheReader.ReadIsNullOrTruthy | src/_maybeGetCachedOutput.js:8-12 | a successful read is `null` or a truthy value |
| CacheWriter.WriterArgs | src/_maybeSetCachedOutput.js:5 | the writer passes its own pattern, output and useCache to the validator as present fields: validation passes iff they are a string, an Array and a boolean, and otherwise reports pattern, then useCache, then output |
| CacheWriter.MaybeSetCachedOutput | src/_maybeSetCachedOutput.js:4-12 | validation errors leave the cache unchanged; with caching off it returns `false` and the cache is unchanged; with caching on it returns `undefined` and the entry is the output; other keys keep their entries; only Arrays are stored |
| CacheWriter.WriteIsIdempotent | src/_maybeSetCachedOutput.js:11 | writing the same pattern and output twice equals writing it once |
| CacheWriter.LastWriteWins | src/_maybeSetCachedOutput.js:11 | a second write for a pattern overwrites the first |
| CacheWriter.ReadAfterWrite | src/_maybeSetCachedOutput.js:7-11 | after a write with caching on the reader returns the output; a write with caching off, or under another key, changes no read |
| RootVariant.GetFilesMatchingGlob | getFilesMatchingGlob.js:16-47 | pattern errors come before useCache errors and change nothing; caching on leaves the pattern as a key even when the call throws; a non-empty entry is returned without the matcher; otherwise the matcher's result is returned or turned into the NoFiles error and, with caching on, stored; caching off changes nothing in the cache; no other key changes |
| RootVariant.CallKeepsShape | getFilesMatchingGlob.js:25-40 | entries stay either the `{}` placeholder or a matcher result, and every successful outcome is a non-empty Array |
| RootVariant.HitWinsOverGroundTruth | getFilesMatchingGlob.js:29-31 | after a successful call, the next call for the pattern returns the same value without the matcher, whatever the matcher answers now |
| RootVariant.BypassLaw | getFilesMatchingGlob.js:25-40 | with caching off each call returns the matcher's current answer and the cache never changes |
| RootVariant.EmptyResultIsRetried | getFilesMatchingGlob.js:29-44 | an empty match throws, is stored as `[]`, and the next call consults the matcher again |
| LegacyVariant.Wrapped | getFilesMatchingGlobPattern.js:26 | a hit is returned as a plain object whose only key `cached` holds the entry |
| LegacyVariant.WrappedIsNotEmpty | getFilesMatchingGlobPattern.js:26 | the wrapper is never empty to lodash, whatever entry it wraps |
| LegacyVariant.GetFilesMatchingGlobPattern | getFilesMatchingGlobPattern.js:15-41 | a non-string pattern throws before any cache access; every validated call leaves the pattern as a key; a non-empty entry is returned wrapped without the matcher; on a miss the matcher result is stored unconditionally, an empty one throws NoFiles and a non-empty one is returned bare; no other key changes |
| LegacyVariant.SecondCallIsWrapped | getFilesMatchingGlobPattern.js:25-40 | after a successful miss, the next call returns the same files wrapped, so a hit and a miss return differently shaped values |
| RefactoredVariant.MatchAndStore | src/getFilesMatchingGlob.js:24-32 | the matcher is consulted; an empty result throws NoFiles and leaves the cache unchanged; a non-empty one is returned and stored iff caching is on |
| RefactoredVariant.GetFilesMatchingGlob | src/getFilesMatchingGlob.js:16-33 | the reader's validation errors propagate before the matcher; a plain-object read is returned as is; any other read falls through to the matcher; an empty result never reaches the writer; a non-empty one is stored iff caching is on |
| RefactoredVariant.WriterFilledNeverShortCircuits | src/getFilesMatchingGlob.js:19-21 | on a cache whose entries are all Arrays, every validated call consults the matcher, and the cache keeps only Arrays |
| RefactoredVariant.WrittenEntryIsNeverServed | src/getFilesMatchingGlob.js:17-32 | after a call stores its files, the next call for the same pattern consults the matcher and returns its new answer instead of the stored one |
| RefactoredVariant.GetFilesMatchingGlobIntended | src/getFilesMatchingGlob.js:16-33 | the intended reading: a truthy entry is returned without the matcher; otherwise the matcher decides the outcome; a success is stored when caching is on; every thrown error, the NoFiles error included, leaves the cache unchanged |
| RefactoredVariant.IntendedServesWrittenEntry | src/getFilesMatchingGlob.js:7-8 | with the intended reading, a stored result is returned on the next call whatever the matcher answers now |
| RefactoredVariant.ReadingsAgreeOnMiss | src/getFilesMatchingGlob.js:17-24 | both readings agree when the pattern is absent from the cache or caching is off |
| Sessions.Run | getFilesMatchingGlob.js:4 | a session yields one outcome per request and at most one matcher call per request |
| Sessions.RootHitIsStable | getFilesMatchingGlob.js:29-31 | once a root entry is non-empty, every later call returns it, changes nothing and never consults the matcher |
| Sessions.RootMemoises | getFilesMatchingGlob.js:25-46 | repeated root calls for a pattern with matches consult the matcher at most once and all return the same value |
| Sessions.RootRetriesEmpty | getFilesMatchingGlob.js:38-44 | repeated root calls for a pattern without matches each consult the matcher and each throw NoFiles |
| Sessions.LegacyHitIsStable | getFilesMatchingGlobPattern.js:25-27 | once a legacy entry is non-empty, every later call returns it wrapped and never consults the matcher |
| Sessions.LegacyMemoises | getFilesMatchingGlobPattern.js:20-40 | repeated legacy calls consult the matcher once; the first returns the files bare, the rest return them wrapped |
| Sessions.RefactoredNeverMemoises | src/getFilesMatchingGlob.js:17-32 | on a writer-filled cache, n refactored calls consult the matcher n times |
| Sessions.IntendedHitIsStable | src/_maybeGetCachedOutput.js:8-12 | with the intended reading, a truthy entry is served on every later call without the matcher |
| Sessions.IntendedMemoises | src/getFilesMatchingGlob.js:7-8 | with the intended reading, repeated calls starting from a cache without the pattern consult the matcher exactly once and all return its files |
| Sessions.RootKeysGrow | getFilesMatchingGlob.js:25-40 | the root cache never loses a key, and every validated caching-on request leaves its pattern as a key, whether it returned or threw |
| Sessions.RootBypassSession | getFilesMatchingGlob.js:25-40 | a session of caching-off root requests leaves the cache unchanged and consults the matcher once per request |

## Findings

| source | as written | input that shows it | evidently intended | confidence | as-written member | corrected member |
|---|---|---|---|---|---|---|
| src/getFilesMatchingGlob.js:19-21 | a read is returned only if `_.isPlainObject(output)`, but the writer stores only Arrays | call with `"p"` while the matcher answers `["a.js"]`, then call again while it answers `["b.js"]`: the second call returns `["b.js"]`, not the cached `["a.js"]` | return any non-null read, as the doc comment at lines 7-8 says ("If there's cached data, returns it") | medium, not executed | RefactoredVariant.WrittenEntryIsNeverServed | RefactoredVariant.GetFilesMatchingGlobIntended |

`RefactoredVariant.GetFilesMatchingGlob` is the code as written.
`Sessions.RefactoredNeverMemoises` shows that it never saves a matcher
call on a writer-filled cache. `Sessions.IntendedMemoises` proves that the
corrected reading saves every matcher call after the first.

## Left out

- `glob.sync` and the filesystem are the `Matcher` parameter. It is total. A matcher that throws is not modelled.
- lodash `_.get` path syntax (dots and brackets in a pattern) is not modelled. The reader looks the pattern up as one key.
- The JavaScript prototype chain is not modelled. In the source, a pattern such as `__proto__` or `toString` can reach inherited properties. The model treats every pattern as an ordinary own key.
- Values are not all modelled. Arrays hold strings only; `NaN`, functions, symbols and class instances are left out. The modelled values cover everything the callers pass.
- Reference identity (`strictEqual`) is modelled as value equality.
- `src/_globCache.js` is not part of this model. Its cache is a map passed in, initially whatever the caller supplies (empty in a fresh process).
- Module-global mutation and the `rewire` test harness are modelled by passing the cache in and returning it.
- Errors keep only their message string. Error objects and stack traces are left out.
- Concurrency is not modelled. The code is synchronous and single-threaded.
- LegacyVariant.GetFilesMatchingGlobPattern: takes no second argument. The source ignores it, so no lemma states that independence.
- CacheReader.MaybeGetCachedOutput: "never modifies the cache" has no contract clause. The reader returns only an outcome, so the point holds by construction.
