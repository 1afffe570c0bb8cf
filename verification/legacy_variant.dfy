/**
 The legacy orchestrator (getFilesMatchingGlobPattern.js): the same eager
 placeholder and store-then-throw logic as the root file, but with no
 `useCache` switch (caching is always on, and a second argument is never
 read) and with every cache hit wrapped as `{cached: entry}`.
 */
module LegacyVariant {
  import opened JsValues

  /** The wrapper `{ cached: entry }` a cache hit is returned in. */
  function Wrapped(entry: JsValue): (w: JsValue)
    ensures IsPlainObject(w)
    ensures w.props.Keys == {"cached"} && w.props["cached"] == entry
  {
    Obj(map["cached" := entry])
  }

  /** The wrapper is never empty to lodash, whatever it wraps, so a
      wrapped value stored back in the cache would count as a hit. */
  lemma WrappedIsNotEmpty(entry: JsValue)
    ensures !IsEmpty(Wrapped(entry))
  {
  }

  /** `getFilesMatchingGlobPattern(globPattern)` on an explicit cache and matcher. */
  function GetFilesMatchingGlobPattern(cache: Cache, globPattern: JsValue, glob: Matcher): (r: Call)
    // a non-string pattern is rejected before any cache access
    ensures !globPattern.Str? ==> r == Call(Err(PatternMessage), cache, false)
    // every call that passes validation leaves the pattern as a key
    ensures globPattern.Str? ==> globPattern.s in r.cache && r.cache.Keys == cache.Keys + {globPattern.s}
    // a non-empty entry comes back wrapped, without consulting the matcher
    ensures globPattern.Str? && IsHit(cache, globPattern.s) ==>
              r == Call(Ok(Wrapped(cache[globPattern.s])), cache, false)
    // on a miss the matcher result is stored unconditionally, empty or not
    ensures globPattern.Str? && !IsHit(cache, globPattern.s) ==>
              && r.matcherCalled
              && r.cache == cache[globPattern.s := Arr(glob(globPattern.s))]
    // an empty result throws the NoFiles error
    ensures globPattern.Str? && !IsHit(cache, globPattern.s) && |glob(globPattern.s)| == 0 ==>
              r.outcome == Err(NoFilesMessage(globPattern.s))
    // a non-empty result is returned unwrapped
    ensures globPattern.Str? && !IsHit(cache, globPattern.s) && |glob(globPattern.s)| > 0 ==>
              r.outcome == Ok(Arr(glob(globPattern.s)))
    // no other key is touched
    ensures forall k :: k in cache && (!globPattern.Str? || k != globPattern.s) ==> k in r.cache && r.cache[k] == cache[k]
  {
    if !globPattern.Str? then
      Call(Err(PatternMessage), cache, false)
    else
      var p := globPattern.s;
      var placed := if p !in cache then cache[p := EmptyObject] else cache;
      if !IsEmpty(placed[p]) then
        Call(Ok(Wrapped(placed[p])), placed, false)
      else
        var files := glob(p);
        var stored := placed[p := Arr(files)];
        if |files| == 0 then
          Call(Err(NoFilesMessage(p)), stored, true)
        else
          Call(Ok(Arr(files)), stored, true)
  }

  /** After a successful miss, the next call for the same pattern returns
      the same files wrapped as `{cached: files}`, whatever the matcher
      answers now: a hit and a miss return differently shaped values. */
  lemma SecondCallIsWrapped(cache: Cache, p: string, g1: Matcher, g2: Matcher)
    requires |g1(p)| > 0 && !IsHit(cache, p)
    ensures var first := GetFilesMatchingGlobPattern(cache, Str(p), g1);
            var second := GetFilesMatchingGlobPattern(first.cache, Str(p), g2);
            && first.outcome == Ok(Arr(g1(p)))
            && second == Call(Ok(Wrapped(Arr(g1(p)))), first.cache, false)
            && second.outcome != first.outcome
  {
  }
}
