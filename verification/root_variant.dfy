/**
 The root orchestrator (getFilesMatchingGlob.js): validates the pattern and
 then `useCache`, eagerly creates a `{}` placeholder entry, returns a
 non-empty entry as a hit, and otherwise consults the matcher, stores its
 result (empty or not) and throws when it is empty.
 */
module RootVariant {
  import opened JsValues

  /** The arguments passed validation: a string pattern and, after the
      default is applied, a boolean `useCache`. */
  predicate ValidArgs(pattern: JsValue, useCacheArg: JsValue) {
    pattern.Str? && UseCacheOrDefault(useCacheArg).Bool?
  }

  /** `getFilesMatchingGlob(pattern, useCache = true)` of the root file, on
      an explicit cache and matcher. */
  function GetFilesMatchingGlob(cache: Cache, pattern: JsValue, useCacheArg: JsValue, glob: Matcher): (r: Call)
    // a non-string pattern is rejected first, before any cache access
    ensures !pattern.Str? ==> r == Call(Err(PatternMessage), cache, false)
    // then a non-boolean useCache (an explicit undefined takes the default)
    ensures pattern.Str? && !UseCacheOrDefault(useCacheArg).Bool? ==> r == Call(Err(UseCacheMessage), cache, false)
    // caching on: the pattern is a key afterwards, even when the call throws
    ensures ValidArgs(pattern, useCacheArg) && UseCacheOrDefault(useCacheArg) == Bool(true) ==>
              pattern.s in r.cache && r.cache.Keys == cache.Keys + {pattern.s}
    // caching on and a non-empty entry: that entry, untouched cache, no matcher
    ensures ValidArgs(pattern, useCacheArg) && UseCacheOrDefault(useCacheArg) == Bool(true) && IsHit(cache, pattern.s) ==>
              r == Call(Ok(cache[pattern.s]), cache, false)
    // caching on and no usable entry: the matcher's result, stored as is
    ensures ValidArgs(pattern, useCacheArg) && UseCacheOrDefault(useCacheArg) == Bool(true) && !IsHit(cache, pattern.s) ==>
              && r.matcherCalled
              && r.outcome == MatchOutcome(pattern.s, glob(pattern.s))
              && r.cache == cache[pattern.s := Arr(glob(pattern.s))]
    // caching off: the matcher is always consulted and the cache is identical
    ensures ValidArgs(pattern, useCacheArg) && UseCacheOrDefault(useCacheArg) == Bool(false) ==>
              r == Call(MatchOutcome(pattern.s, glob(pattern.s)), cache, true)
    // no other key is touched
    ensures forall k :: k in cache && (!pattern.Str? || k != pattern.s) ==> k in r.cache && r.cache[k] == cache[k]
  {
    if !pattern.Str? then
      Call(Err(PatternMessage), cache, false)
    else
      var useCache := UseCacheOrDefault(useCacheArg);
      if !useCache.Bool? then
        Call(Err(UseCacheMessage), cache, false)
      else
        var p := pattern.s;
        var on := useCache.b;
        var placed := if on && p !in cache then cache[p := EmptyObject] else cache;
        if on && !IsEmpty(placed[p]) then
          Call(Ok(placed[p]), placed, false)
        else
          var files := glob(p);
          var stored := if on then placed[p := Arr(files)] else placed;
          if |files| == 0 then
            Call(Err(NoFilesMessage(p)), stored, true)
          else
            Call(Ok(Arr(files)), stored, true)
  }

  /** The entries a root cache can hold: the `{}` placeholder or a matcher
      result. */
  predicate WellShaped(cache: Cache) {
    forall k :: k in cache ==> cache[k] == EmptyObject || cache[k].Arr?
  }

  /** Calls keep the cache well shaped, and on such a cache every successful
      outcome is a non-empty Array: the placeholder is never returned. */
  lemma CallKeepsShape(cache: Cache, pattern: JsValue, useCacheArg: JsValue, glob: Matcher)
    requires WellShaped(cache)
    ensures var r := GetFilesMatchingGlob(cache, pattern, useCacheArg, glob);
            && WellShaped(r.cache)
            && (r.outcome.Ok? ==> r.outcome.value.Arr? && |r.outcome.value.items| > 0)
  {
  }

  /** Cache hit beats ground truth: once a call with caching on succeeds,
      the next call for the same pattern returns the same files without
      consulting the matcher, even when the matcher now answers differently. */
  lemma HitWinsOverGroundTruth(cache: Cache, p: string, g1: Matcher, g2: Matcher)
    requires |g1(p)| > 0
    ensures var first := GetFilesMatchingGlob(cache, Str(p), Undefined, g1);
            var second := GetFilesMatchingGlob(first.cache, Str(p), Bool(true), g2);
            && first.outcome.Ok?
            && second == Call(first.outcome, first.cache, false)
  {
  }

  /** Bypass law: with caching off, two calls return whatever the matcher
      answers each time and never create an entry. */
  lemma BypassLaw(cache: Cache, p: string, g1: Matcher, g2: Matcher)
    ensures var first := GetFilesMatchingGlob(cache, Str(p), Bool(false), g1);
            var second := GetFilesMatchingGlob(first.cache, Str(p), Bool(false), g2);
            && first.outcome == MatchOutcome(p, g1(p))
            && second.outcome == MatchOutcome(p, g2(p))
            && second.cache == cache
            && (p !in cache ==> p !in second.cache)
  {
  }

  /** An empty match is stored as `[]`, which lodash treats as empty, so the
      next call with caching on consults the matcher again. */
  lemma EmptyResultIsRetried(cache: Cache, p: string, g1: Matcher, g2: Matcher)
    requires |g1(p)| == 0 && !IsHit(cache, p)
    ensures var first := GetFilesMatchingGlob(cache, Str(p), Bool(true), g1);
            var second := GetFilesMatchingGlob(first.cache, Str(p), Bool(true), g2);
            && first.outcome == Err(NoFilesMessage(p))
            && first.cache[p] == Arr([])
            && second.matcherCalled
            && second.outcome == MatchOutcome(p, g2(p))
  {
  }
}
