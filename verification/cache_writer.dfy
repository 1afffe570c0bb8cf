/**
 The cache writer of the refactored layout (src/_maybeSetCachedOutput.js):
 validates `{pattern, output, useCache}`, returns `false` without touching
 the cache when caching is off, and otherwise stores the output under the
 pattern, overwriting any previous entry, and returns `undefined`.
 */
module CacheWriter {
  import opened JsValues
  import opened Validator
  import opened CacheReader

  /** The outcome of a writer call together with the cache afterwards. */
  datatype Step = Step(outcome: Outcome, cache: Cache)

  /** The argument object `{pattern, output, useCache}` of the writer. */
  function WriterArgs(pattern: JsValue, output: JsValue, useCache: JsValue): (a: CacheArgs)
    ensures a.pattern.Present? && a.useCache.Present? && a.output.Present?
    // the validator judges the writer's own arguments: pattern, useCache, output
    ensures ValidateCacheArgs(a).Ok? <==> pattern.Str? && useCache.Bool? && output.Arr?
    ensures !pattern.Str? ==> ValidateCacheArgs(a) == Err(PatternMessage)
    ensures pattern.Str? && !useCache.Bool? ==> ValidateCacheArgs(a) == Err(UseCacheMessage)
    ensures pattern.Str? && useCache.Bool? && !output.Arr? ==> ValidateCacheArgs(a) == Err(OutputMessage)
  {
    CacheArgs(Present(pattern), Present(useCache), Present(output))
  }

  /** `_maybeSetCachedOutput(pattern, output, useCache)`. */
  function MaybeSetCachedOutput(cache: Cache, pattern: JsValue, output: JsValue, useCache: JsValue): (r: Step)
    // the validator runs before any mutation; its error leaves the cache alone
    ensures ValidateCacheArgs(WriterArgs(pattern, output, useCache)).Err? ==>
              r == Step(ValidateCacheArgs(WriterArgs(pattern, output, useCache)), cache)
    ensures !pattern.Str? ==> r.outcome == Err(PatternMessage)
    ensures pattern.Str? && !useCache.Bool? ==> r.outcome == Err(UseCacheMessage)
    ensures pattern.Str? && useCache.Bool? && !output.Arr? ==> r.outcome == Err(OutputMessage)
    // caching off: returns false, cache unchanged
    ensures pattern.Str? && output.Arr? && useCache == Bool(false) ==> r == Step(Ok(Bool(false)), cache)
    // caching on: returns undefined (not true), and the entry is the output
    ensures pattern.Str? && output.Arr? && useCache == Bool(true) ==>
              && r.outcome == Ok(Undefined)
              && pattern.s in r.cache && r.cache[pattern.s] == output
              && r.cache.Keys == cache.Keys + {pattern.s}
    // every other key keeps its entry
    ensures forall k :: k in cache && (!pattern.Str? || k != pattern.s) ==> k in r.cache && r.cache[k] == cache[k]
    // only Arrays are ever stored
    ensures forall k :: k in r.cache && k !in cache ==> r.cache[k].Arr?
  {
    var check := ValidateCacheArgs(WriterArgs(pattern, output, useCache));
    if check.Err? then
      Step(check, cache)
    else if useCache == Bool(false) then
      Step(Ok(Bool(false)), cache)
    else
      Step(Ok(Undefined), cache[pattern.s := output])
  }

  /** Writing the same pattern and output twice gives the same cache and
      outcome as writing it once. */
  lemma WriteIsIdempotent(cache: Cache, pattern: JsValue, output: JsValue, useCache: JsValue)
    ensures var once := MaybeSetCachedOutput(cache, pattern, output, useCache);
            MaybeSetCachedOutput(once.cache, pattern, output, useCache) == once
  {
  }

  /** A later write of the same pattern overwrites the earlier one. */
  lemma LastWriteWins(cache: Cache, p: string, out1: seq<string>, out2: seq<string>)
    ensures var first := MaybeSetCachedOutput(cache, Str(p), Arr(out1), Bool(true));
            MaybeSetCachedOutput(first.cache, Str(p), Arr(out2), Bool(true))
              == MaybeSetCachedOutput(cache, Str(p), Arr(out2), Bool(true))
  {
  }

  /** Reading after a write with caching on gives back the stored output;
      a write with caching off leaves every read as it was. */
  lemma ReadAfterWrite(cache: Cache, p: string, output: seq<string>, useCache: bool, q: string)
    ensures var w := MaybeSetCachedOutput(cache, Str(p), Arr(output), Bool(useCache));
            && (useCache ==> MaybeGetCachedOutput(w.cache, Str(p), Bool(true)) == Ok(Arr(output)))
            && (!useCache ==> MaybeGetCachedOutput(w.cache, Str(q), Bool(true)) == MaybeGetCachedOutput(cache, Str(q), Bool(true)))
            && (q != p ==> MaybeGetCachedOutput(w.cache, Str(q), Bool(true)) == MaybeGetCachedOutput(cache, Str(q), Bool(true)))
  {
  }
}
