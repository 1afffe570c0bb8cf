/**
 The argument validator shared by the cache reader and writer
 (src/_validateCacheArgs.js). Each field of the argument object is
 optional and checked only when it is an own property; the checks run in
 the fixed order pattern, useCache, output, and the first failure throws.
 */
module Validator {
  import opened JsValues

  /** The argument object `{pattern, useCache, output}` with each field
      present or absent as an own property. */
  datatype CacheArgs = CacheArgs(pattern: Field, useCache: Field, output: Field)

  /** `typeof(args.pattern) === 'string'` whenever `pattern` is present. */
  predicate PatternOk(args: CacheArgs) {
    args.pattern.Present? ==> args.pattern.v.Str?
  }

  /** `typeof(args.useCache) === 'boolean'` whenever `useCache` is present. */
  predicate UseCacheOk(args: CacheArgs) {
    args.useCache.Present? ==> args.useCache.v.Bool?
  }

  /** `Array.isArray(args.output)` whenever `output` is present. */
  predicate OutputOk(args: CacheArgs) {
    args.output.Present? ==> args.output.v.Arr?
  }

  predicate Valid(args: CacheArgs) {
    PatternOk(args) && UseCacheOk(args) && OutputOk(args)
  }

  /** Throws the message of the first failing check; on success returns
      `undefined` and has no other effect. */
  function ValidateCacheArgs(args: CacheArgs): (r: Outcome)
    ensures r.Ok? <==> Valid(args)
    ensures r.Ok? ==> r.value == Undefined
    ensures !PatternOk(args) ==> r == Err(PatternMessage)
    ensures PatternOk(args) && !UseCacheOk(args) ==> r == Err(UseCacheMessage)
    ensures PatternOk(args) && UseCacheOk(args) && !OutputOk(args) ==> r == Err(OutputMessage)
  {
    if args.pattern.Present? && !args.pattern.v.Str? then
      Err(PatternMessage)
    else if args.useCache.Present? && !args.useCache.v.Bool? then
      Err(UseCacheMessage)
    else if args.output.Present? && !args.output.v.Arr? then
      Err(OutputMessage)
    else
      Ok(Undefined)
  }

  /** A reference reading of the validator: the ordered list of checks,
      each a verdict and the message it throws. */
  function Checks(args: CacheArgs): seq<(bool, string)> {
    [(PatternOk(args), PatternMessage),
     (UseCacheOk(args), UseCacheMessage),
     (OutputOk(args), OutputMessage)]
  }

  /** Runs a list of checks in order and stops at the first failure. */
  function FirstFailure(checks: seq<(bool, string)>): (r: Outcome)
    ensures r.Ok? <==> forall i :: 0 <= i < |checks| ==> checks[i].0
    ensures r.Err? ==> exists i :: 0 <= i < |checks| && !checks[i].0 && r.msg == checks[i].1
  {
    if |checks| == 0 then Ok(Undefined)
    else if !checks[0].0 then Err(checks[0].1)
    else
      var rest := FirstFailure(checks[1..]);
      assert forall i :: 1 <= i < |checks| ==> checks[i] == checks[1..][i - 1];
      rest
  }

  /** The validator is exactly "run the checks pattern, useCache, output
      in this order and throw the first failure". */
  lemma ValidateIsFirstFailure(args: CacheArgs)
    ensures ValidateCacheArgs(args) == FirstFailure(Checks(args))
  {
    var cs := Checks(args);
    var tail1 := [(UseCacheOk(args), UseCacheMessage), (OutputOk(args), OutputMessage)];
    var tail2 := [(OutputOk(args), OutputMessage)];
    assert cs[1..] == tail1 && tail1[1..] == tail2 && tail2[1..] == [];
    if PatternOk(args) {
      assert FirstFailure(cs) == FirstFailure(tail1);
      if UseCacheOk(args) {
        assert FirstFailure(tail1) == FirstFailure(tail2);
        if OutputOk(args) {
          assert FirstFailure(tail2) == FirstFailure([]);
        }
      }
    }
  }

  /** Absent fields are never checked: an argument object with no own
      properties always passes, and removing a field never turns a pass
      into a failure. */
  lemma AbsentFieldsPass(args: CacheArgs)
    ensures ValidateCacheArgs(CacheArgs(Absent, Absent, Absent)) == Ok(Undefined)
    ensures ValidateCacheArgs(args).Ok? ==> ValidateCacheArgs(args.(pattern := Absent)).Ok?
    ensures ValidateCacheArgs(args).Ok? ==> ValidateCacheArgs(args.(useCache := Absent)).Ok?
    ensures ValidateCacheArgs(args).Ok? ==> ValidateCacheArgs(args.(output := Absent)).Ok?
  {
  }
}
