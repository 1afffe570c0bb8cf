/**
 The refactored orchestrator (src/getFilesMatchingGlob.js): the reader
 validates `pattern` and `useCache` and looks the pattern up; a plain-object
 read is returned as is; otherwise the matcher runs, an empty result throws
 before the writer is reached, and a non-empty one goes through the writer
 (a no-op when caching is off) and is returned.

 Its doc comment promises that cached data is returned, but the writer
 only ever stores Arrays and an Array is not a plain object, so a cache
 the writer filled never short-circuits the matcher.
 `GetFilesMatchingGlob` is the code as written; `GetFilesMatchingGlobIntended`
 returns any non-null read, which is what the doc comment describes.
 */
module RefactoredVariant {
  import opened JsValues
  import opened Validator
  import opened CacheReader
  import opened CacheWriter

  /** The reader's output makes the as-written orchestrator return early:
      caching on and a plain object stored under the pattern. */
  predicate ServesFromCache(cache: Cache, p: string, useCache: bool) {
    useCache && p in cache && IsPlainObject(cache[p])
  }

  /** Every entry is an Array, as in any cache filled only by the writer. */
  predicate WriterFilled(cache: Cache) {
    forall k :: k in cache ==> cache[k].Arr?
  }

  /** The tail shared by both readings: consult the matcher, throw on an
      empty result before the writer is reached, else write and return. */
  function MatchAndStore(cache: Cache, p: string, useCache: bool, glob: Matcher): (r: Call)
    ensures r.matcherCalled
    ensures r.outcome == MatchOutcome(p, glob(p))
    ensures |glob(p)| == 0 ==> r.cache == cache
    ensures |glob(p)| > 0 && useCache ==> r.cache == cache[p := Arr(glob(p))]
    ensures !useCache ==> r.cache == cache
  {
    var files := glob(p);
    if |files| == 0 then
      Call(Err(NoFilesMessage(p)), cache, true)
    else
      var w := MaybeSetCachedOutput(cache, Str(p), Arr(files), Bool(useCache));
      match w.outcome
      case Err(m) => Call(Err(m), w.cache, true)
      case Ok(_) => Call(Ok(Arr(files)), w.cache, true)
  }

  /** `getFilesMatchingGlob(pattern, useCache = true)` of the refactored
      layout, as written. */
  function GetFilesMatchingGlob(cache: Cache, pattern: JsValue, useCacheArg: JsValue, glob: Matcher): (r: Call)
    // the reader's validation errors propagate, pattern first, before the matcher
    ensures !pattern.Str? ==> r == Call(Err(PatternMessage), cache, false)
    ensures pattern.Str? && !UseCacheOrDefault(useCacheArg).Bool? ==> r == Call(Err(UseCacheMessage), cache, false)
    // a plain object read is returned as is, without the matcher
    ensures pattern.Str? && UseCacheOrDefault(useCacheArg).Bool? &&
            ServesFromCache(cache, pattern.s, UseCacheOrDefault(useCacheArg).b) ==>
              r == Call(Ok(cache[pattern.s]), cache, false)
    // any other read (an Array, null) falls through to the matcher
    ensures pattern.Str? && UseCacheOrDefault(useCacheArg).Bool? &&
            !ServesFromCache(cache, pattern.s, UseCacheOrDefault(useCacheArg).b) ==>
              && r.matcherCalled
              && r.outcome == MatchOutcome(pattern.s, glob(pattern.s))
    // an empty result leaves the cache alone: the writer is never reached
    ensures r.matcherCalled && r.outcome.Err? ==> r.cache == cache
    // a non-empty result is stored under the pattern iff caching is on
    ensures r.matcherCalled && r.outcome.Ok? ==>
              && pattern.Str?
              && (UseCacheOrDefault(useCacheArg) == Bool(true) ==> r.cache == cache[pattern.s := Arr(glob(pattern.s))])
              && (UseCacheOrDefault(useCacheArg) == Bool(false) ==> r.cache == cache)
    ensures !r.matcherCalled ==> r.cache == cache
  {
    var useCache := UseCacheOrDefault(useCacheArg);
    var read := MaybeGetCachedOutput(cache, pattern, useCache);
    if read.Err? then
      Call(read, cache, false)
    else if IsPlainObject(read.value) then
      Call(read, cache, false)
    else
      MatchAndStore(cache, pattern.s, useCache.b, glob)
  }

  /** On a writer-filled cache the early return is unreachable: every call
      that passes validation consults the matcher, and the cache stays
      writer-filled. */
  lemma WriterFilledNeverShortCircuits(cache: Cache, pattern: JsValue, useCacheArg: JsValue, glob: Matcher)
    requires WriterFilled(cache)
    ensures var r := GetFilesMatchingGlob(cache, pattern, useCacheArg, glob);
            && WriterFilled(r.cache)
            && (pattern.Str? && UseCacheOrDefault(useCacheArg).Bool? ==> r.matcherCalled)
  {
  }

  /** The divergence from the doc comment: after a successful call has
      stored its files, the next call for the same pattern still consults
      the matcher and returns its current answer instead of the cached one. */
  lemma WrittenEntryIsNeverServed(p: string, g1: Matcher, g2: Matcher)
    requires |g1(p)| > 0 && g2(p) != g1(p)
    ensures var first := GetFilesMatchingGlob(map[], Str(p), Undefined, g1);
            var second := GetFilesMatchingGlob(first.cache, Str(p), Undefined, g2);
            && first.cache == map[p := Arr(g1(p))]
            && second.matcherCalled
            && second.outcome == MatchOutcome(p, g2(p))
            && second.outcome != first.outcome
  {
  }

  /** The orchestrator as its doc comment describes it: any read other than
      `null` is cached data and is returned without the matcher. */
  function GetFilesMatchingGlobIntended(cache: Cache, pattern: JsValue, useCacheArg: JsValue, glob: Matcher): (r: Call)
    ensures !pattern.Str? ==> r == Call(Err(PatternMessage), cache, false)
    ensures pattern.Str? && !UseCacheOrDefault(useCacheArg).Bool? ==> r == Call(Err(UseCacheMessage), cache, false)
    // caching on and a truthy entry: exactly that entry, without the matcher
    ensures pattern.Str? && UseCacheOrDefault(useCacheArg) == Bool(true) &&
            pattern.s in cache && Truthy(cache[pattern.s]) ==>
              r == Call(Ok(cache[pattern.s]), cache, false)
    // otherwise the matcher decides the outcome
    ensures pattern.Str? && UseCacheOrDefault(useCacheArg).Bool? &&
            !(UseCacheOrDefault(useCacheArg).b && pattern.s in cache && Truthy(cache[pattern.s])) ==>
              && r.matcherCalled
              && r.outcome == MatchOutcome(pattern.s, glob(pattern.s))
    ensures r.matcherCalled && r.outcome.Ok? && UseCacheOrDefault(useCacheArg) == Bool(true) ==>
              pattern.Str? && r.cache == cache[pattern.s := Arr(glob(pattern.s))]
    ensures UseCacheOrDefault(useCacheArg) != Bool(true) ==> r.cache == cache
    // a thrown error (validation or NoFiles) never reaches the writer
    ensures r.outcome.Err? ==> r.cache == cache
  {
    var useCache := UseCacheOrDefault(useCacheArg);
    var read := MaybeGetCachedOutput(cache, pattern, useCache);
    if read.Err? then
      Call(read, cache, false)
    else if read.value != Null then
      Call(read, cache, false)
    else
      MatchAndStore(cache, pattern.s, useCache.b, glob)
  }

  /** With the intended reading, a stored result is served on the next call
      whatever the matcher answers now. */
  lemma IntendedServesWrittenEntry(cache: Cache, p: string, g1: Matcher, g2: Matcher)
    requires |g1(p)| > 0
    ensures var first := GetFilesMatchingGlobIntended(cache, Str(p), Undefined, g1);
            var second := GetFilesMatchingGlobIntended(first.cache, Str(p), Undefined, g2);
            && first.outcome.Ok?
            && second == Call(first.outcome, first.cache, false)
  {
  }

  /** Both readings agree whenever the as-written one does not short-circuit
      on a plain object and the intended one finds nothing cached. */
  lemma ReadingsAgreeOnMiss(cache: Cache, pattern: JsValue, useCacheArg: JsValue, glob: Matcher)
    requires !pattern.Str? || pattern.s !in cache || UseCacheOrDefault(useCacheArg) != Bool(true)
    ensures GetFilesMatchingGlob(cache, pattern, useCacheArg, glob)
              == GetFilesMatchingGlobIntended(cache, pattern, useCacheArg, glob)
  {
  }
}
