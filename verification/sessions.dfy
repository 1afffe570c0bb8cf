/**
 Sequences of calls against one process-wide cache. A session threads the
 cache from each call to the next and counts how often the glob matcher
 was consulted, which is what the cache exists to save.
 */
module Sessions {
  import opened JsValues
  import RootVariant
  import LegacyVariant
  import RefactoredVariant

  /** Which orchestrator answers the calls of a session. */
  datatype Variant = Root | Legacy | Refactored | RefactoredIntended

  /** The arguments of one call; the legacy orchestrator never reads `useCache`. */
  datatype Request = Request(pattern: JsValue, useCache: JsValue)

  datatype Session = Session(outcomes: seq<Outcome>, cache: Cache, matcherCalls: nat)

  function Invoke(v: Variant, cache: Cache, req: Request, glob: Matcher): Call {
    match v
    case Root => RootVariant.GetFilesMatchingGlob(cache, req.pattern, req.useCache, glob)
    case Legacy => LegacyVariant.GetFilesMatchingGlobPattern(cache, req.pattern, glob)
    case Refactored => RefactoredVariant.GetFilesMatchingGlob(cache, req.pattern, req.useCache, glob)
    case RefactoredIntended => RefactoredVariant.GetFilesMatchingGlobIntended(cache, req.pattern, req.useCache, glob)
  }

  /** Runs the requests in order, each on the cache the previous one left. */
  function Run(v: Variant, cache: Cache, reqs: seq<Request>, glob: Matcher): (s: Session)
    ensures |s.outcomes| == |reqs|
    ensures s.matcherCalls <= |reqs|
    decreases |reqs|
  {
    if |reqs| == 0 then
      Session([], cache, 0)
    else
      var c := Invoke(v, cache, reqs[0], glob);
      var rest := Run(v, c.cache, reqs[1..], glob);
      Session([c.outcome] + rest.outcomes, rest.cache, rest.matcherCalls + if c.matcherCalled then 1 else 0)
  }

  /** `n` calls for the same pattern with the default `useCache`. */
  function Repeat(p: string, n: nat): seq<Request> {
    seq(n, _ => Request(Str(p), Undefined))
  }

  lemma RepeatTail(p: string, n: nat)
    requires n > 0
    ensures Repeat(p, n)[1..] == Repeat(p, n - 1)
  {
  }

  /** A root cache holding a non-empty entry serves every later call for
      that pattern from the cache: no matcher call, no change. */
  lemma {:induction false} RootHitIsStable(cache: Cache, p: string, n: nat, glob: Matcher)
    requires IsHit(cache, p)
    ensures var s := Run(Root, cache, Repeat(p, n), glob);
            && s.matcherCalls == 0
            && s.cache == cache
            && forall i :: 0 <= i < n ==> s.outcomes[i] == Ok(cache[p])
  {
    if n > 0 {
      RepeatTail(p, n);
      RootHitIsStable(cache, p, n - 1, glob);
    }
  }

  /** Memoisation of the root orchestrator: `n` calls for a pattern the
      matcher finds files for consult the matcher at most once, and every
      call returns what the first one returned. */
  lemma {:induction false} RootMemoises(cache: Cache, p: string, n: nat, glob: Matcher)
    requires n > 0 && |glob(p)| > 0
    ensures var s := Run(Root, cache, Repeat(p, n), glob);
            && s.matcherCalls == (if IsHit(cache, p) then 0 else 1)
            && forall i :: 0 <= i < n ==> s.outcomes[i] == s.outcomes[0] && s.outcomes[i].Ok?
  {
    if IsHit(cache, p) {
      RootHitIsStable(cache, p, n, glob);
    } else {
      var first := Invoke(Root, cache, Request(Str(p), Undefined), glob);
      assert first.cache[p] == Arr(glob(p));
      RepeatTail(p, n);
      RootHitIsStable(first.cache, p, n - 1, glob);
    }
  }

  /** An empty match is never memoised by the root orchestrator: each of
      `n` calls consults the matcher and throws the NoFiles error. */
  lemma {:induction false} RootRetriesEmpty(cache: Cache, p: string, n: nat, glob: Matcher)
    requires |glob(p)| == 0 && !IsHit(cache, p)
    ensures var s := Run(Root, cache, Repeat(p, n), glob);
            && s.matcherCalls == n
            && forall i :: 0 <= i < n ==> s.outcomes[i] == Err(NoFilesMessage(p))
    decreases n
  {
    if n > 0 {
      var first := Invoke(Root, cache, Request(Str(p), Undefined), glob);
      assert !IsHit(first.cache, p);
      RepeatTail(p, n);
      RootRetriesEmpty(first.cache, p, n - 1, glob);
    }
  }

  /** A legacy cache holding a non-empty entry serves every later call for
      that pattern wrapped as `{cached: entry}`. */
  lemma {:induction false} LegacyHitIsStable(cache: Cache, p: string, n: nat, glob: Matcher)
    requires IsHit(cache, p)
    ensures var s := Run(Legacy, cache, Repeat(p, n), glob);
            && s.matcherCalls == 0
            && s.cache == cache
            && forall i :: 0 <= i < n ==> s.outcomes[i] == Ok(LegacyVariant.Wrapped(cache[p]))
  {
    if n > 0 {
      RepeatTail(p, n);
      LegacyHitIsStable(cache, p, n - 1, glob);
    }
  }

  /** Memoisation of the legacy orchestrator: on a miss the first call
      returns the files bare and consults the matcher; every later call
      returns them wrapped, with no further matcher call. */
  lemma {:induction false} LegacyMemoises(cache: Cache, p: string, n: nat, glob: Matcher)
    requires n > 0 && |glob(p)| > 0 && !IsHit(cache, p)
    ensures var s := Run(Legacy, cache, Repeat(p, n), glob);
            && s.matcherCalls == 1
            && s.outcomes[0] == Ok(Arr(glob(p)))
            && forall i :: 1 <= i < n ==> s.outcomes[i] == Ok(LegacyVariant.Wrapped(Arr(glob(p))))
  {
    var first := Invoke(Legacy, cache, Request(Str(p), Undefined), glob);
    assert first.cache[p] == Arr(glob(p));
    RepeatTail(p, n);
    LegacyHitIsStable(first.cache, p, n - 1, glob);
  }

  /** The as-written refactored orchestrator never memoises on a cache the
      writer filled: each of `n` calls consults the matcher. */
  lemma {:induction false} RefactoredNeverMemoises(cache: Cache, p: string, n: nat, glob: Matcher)
    requires RefactoredVariant.WriterFilled(cache)
    ensures var s := Run(Refactored, cache, Repeat(p, n), glob);
            && s.matcherCalls == n
            && RefactoredVariant.WriterFilled(s.cache)
    decreases n
  {
    if n > 0 {
      var first := Invoke(Refactored, cache, Request(Str(p), Undefined), glob);
      RefactoredVariant.WriterFilledNeverShortCircuits(cache, Str(p), Undefined, glob);
      RepeatTail(p, n);
      RefactoredNeverMemoises(first.cache, p, n - 1, glob);
    }
  }

  /** A truthy entry is served by the intended refactored reading on every
      later call for that pattern. */
  lemma {:induction false} IntendedHitIsStable(cache: Cache, p: string, n: nat, glob: Matcher)
    requires p in cache && Truthy(cache[p])
    ensures var s := Run(RefactoredIntended, cache, Repeat(p, n), glob);
            && s.matcherCalls == 0
            && s.cache == cache
            && forall i :: 0 <= i < n ==> s.outcomes[i] == Ok(cache[p])
  {
    if n > 0 {
      RepeatTail(p, n);
      IntendedHitIsStable(cache, p, n - 1, glob);
    }
  }

  /** Memoisation of the intended refactored reading: starting from a cache
      without the pattern, `n` calls consult the matcher exactly once. */
  lemma {:induction false} IntendedMemoises(cache: Cache, p: string, n: nat, glob: Matcher)
    requires n > 0 && |glob(p)| > 0 && p !in cache
    ensures var s := Run(RefactoredIntended, cache, Repeat(p, n), glob);
            && s.matcherCalls == 1
            && forall i :: 0 <= i < n ==> s.outcomes[i] == Ok(Arr(glob(p)))
  {
    var first := Invoke(RefactoredIntended, cache, Request(Str(p), Undefined), glob);
    assert first.cache[p] == Arr(glob(p));
    RepeatTail(p, n);
    IntendedHitIsStable(first.cache, p, n - 1, glob);
  }

  /** A root request that passes validation with caching on. */
  predicate CachingRequest(req: Request) {
    RootVariant.ValidArgs(req.pattern, req.useCache) && UseCacheOrDefault(req.useCache) == Bool(true)
  }

  /** The root cache only grows: no key is ever removed, and every pattern
      of a request that passed validation with caching on is a key at the
      end of the session, whether its call returned or threw. */
  lemma {:induction false} RootKeysGrow(cache: Cache, reqs: seq<Request>, glob: Matcher)
    ensures var s := Run(Root, cache, reqs, glob);
            && cache.Keys <= s.cache.Keys
            && forall i :: 0 <= i < |reqs| && CachingRequest(reqs[i]) ==> reqs[i].pattern.s in s.cache
    decreases |reqs|
  {
    if |reqs| > 0 {
      var c := Invoke(Root, cache, reqs[0], glob);
      RootKeysGrow(c.cache, reqs[1..], glob);
      var s := Run(Root, cache, reqs, glob);
      forall i | 0 <= i < |reqs| && CachingRequest(reqs[i])
        ensures reqs[i].pattern.s in s.cache
      {
        if i > 0 {
          assert reqs[i] == reqs[1..][i - 1];
        }
      }
    }
  }

  /** Bypass over a whole session: when every root request passes
      validation with caching off, the cache ends as it began and the
      matcher is consulted once per request. */
  lemma {:induction false} RootBypassSession(cache: Cache, reqs: seq<Request>, glob: Matcher)
    requires forall i :: 0 <= i < |reqs| ==> reqs[i].pattern.Str? && reqs[i].useCache == Bool(false)
    ensures var s := Run(Root, cache, reqs, glob);
            && s.cache == cache
            && s.matcherCalls == |reqs|
    decreases |reqs|
  {
    if |reqs| > 0 {
      assert forall i :: 0 <= i < |reqs| - 1 ==> reqs[1..][i] == reqs[i + 1];
      RootBypassSession(cache, reqs[1..], glob);
    }
  }
}
