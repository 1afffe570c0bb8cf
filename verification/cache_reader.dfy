/**
 The cache reader of the refactored layout (src/_maybeGetCachedOutput.js):
 validates `{pattern, useCache}`, then returns the stored value for the
 pattern when caching is on and that value is truthy, and `null` otherwise.
 The reader returns only an outcome, so it cannot modify the cache.
 */
module CacheReader {
  import opened JsValues
  import opened Validator

  /** The argument object the reader builds with the shorthand
      `{pattern, useCache}`: both keys are own properties even when their
      values are `undefined`. */
  function ReaderArgs(pattern: JsValue, useCache: JsValue): (a: CacheArgs)
    ensures a.pattern.Present? && a.useCache.Present? && a.output.Absent?
    // the validator judges the reader's own arguments, pattern first
    ensures ValidateCacheArgs(a).Ok? <==> pattern.Str? && useCache.Bool?
    ensures !pattern.Str? ==> ValidateCacheArgs(a) == Err(PatternMessage)
    ensures pattern.Str? && !useCache.Bool? ==> ValidateCacheArgs(a) == Err(UseCacheMessage)
  {
    CacheArgs(Present(pattern), Present(useCache), Absent)
  }

  /** `_maybeGetCachedOutput(pattern, useCache)`, with lodash's `_.get`
      taken as a direct key lookup (a missing key reads as `undefined`). */
  function MaybeGetCachedOutput(cache: Cache, pattern: JsValue, useCache: JsValue): (r: Outcome)
    // the validator runs first and its error propagates
    ensures ValidateCacheArgs(ReaderArgs(pattern, useCache)).Err? ==>
              r == ValidateCacheArgs(ReaderArgs(pattern, useCache))
    ensures !pattern.Str? ==> r == Err(PatternMessage)
    ensures pattern.Str? && !useCache.Bool? ==> r == Err(UseCacheMessage)
    ensures pattern.Str? && useCache.Bool? ==> r.Ok?
    // caching off: null whatever the cache holds
    ensures pattern.Str? && useCache == Bool(false) ==> r == Ok(Null)
    // caching on: a hit is exactly the stored value
    ensures pattern.Str? && useCache == Bool(true) && pattern.s in cache && Truthy(cache[pattern.s]) ==>
              r == Ok(cache[pattern.s])
    // caching on: a missing or falsy entry reads as null
    ensures pattern.Str? && useCache == Bool(true) && (pattern.s !in cache || !Truthy(cache[pattern.s])) ==>
              r == Ok(Null)
    // anything other than null came out of the cache under this very key
    ensures r.Ok? && r.value != Null ==> pattern.Str? && pattern.s in cache && r.value == cache[pattern.s]
  {
    var check := ValidateCacheArgs(ReaderArgs(pattern, useCache));
    if check.Err? then
      check
    else if useCache == Bool(false) || !(pattern.s in cache && Truthy(cache[pattern.s])) then
      Ok(Null)
    else
      Ok(cache[pattern.s])
  }

  /** A non-null read is always truthy: the reader never hands back a
      falsy stored value, so `null` stands for every miss. */
  lemma ReadIsNullOrTruthy(cache: Cache, pattern: JsValue, useCache: JsValue)
    requires MaybeGetCachedOutput(cache, pattern, useCache).Ok?
    ensures var v := MaybeGetCachedOutput(cache, pattern, useCache).value;
            v == Null || Truthy(v)
  {
  }
}
