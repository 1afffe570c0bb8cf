/**
 The dynamically typed JavaScript values that reach the glob cache, the
 lodash predicates the cache logic consults, and the shapes shared by the
 three orchestrators: the cache itself, the outcome of a call and the
 external glob matcher.
 */
module JsValues {

  /** A JavaScript value, as far as the cache logic can tell values apart.
      `Arr` is an Array of strings (what the glob matcher produces);
      `Obj` is a plain object with its own enumerable properties. */
  datatype JsValue =
    | Undefined
    | Null
    | Bool(b: bool)
    | Num(x: real)
    | Str(s: string)
    | Arr(items: seq<string>)
    | Obj(props: map<string, JsValue>)

  /** The object literal `{}`, used as a placeholder cache entry. */
  const EmptyObject: JsValue := Obj(map[])

  /** JavaScript truthiness: `undefined`, `null`, `false`, `0` and `''`
      are falsy; every Array and every object is truthy. */
  predicate Truthy(v: JsValue) {
    match v
    case Undefined => false
    case Null => false
    case Bool(b) => b
    case Num(x) => x != 0.0
    case Str(s) => |s| > 0
    case Arr(_) => true
    case Obj(_) => true
  }

  /** lodash `_.isEmpty`: strings and Arrays are empty when they have no
      elements, objects when they have no own keys; every other value
      (booleans and numbers included) counts as empty. */
  predicate IsEmpty(v: JsValue) {
    match v
    case Str(s) => |s| == 0
    case Arr(items) => |items| == 0
    case Obj(props) => |props| == 0
    case _ => true
  }

  /** lodash `_.isPlainObject`: true only of objects, never of Arrays or `null`. */
  predicate IsPlainObject(v: JsValue) {
    v.Obj?
  }

  /** Exactly five values are falsy. */
  lemma FalsyValues(v: JsValue)
    ensures !Truthy(v) <==> v == Undefined || v == Null || v == Bool(false) || v == Num(0.0) || v == Str("")
  {
  }

  /** lodash emptiness by kind: a string, Array or object is empty iff it
      is the empty one of its kind; every other value is empty. */
  lemma EmptyValues(v: JsValue)
    ensures v.Str? ==> (IsEmpty(v) <==> v == Str(""))
    ensures v.Arr? ==> (IsEmpty(v) <==> v == Arr([]))
    ensures v.Obj? ==> (IsEmpty(v) <==> v.props == map[])
    ensures v.Undefined? || v.Null? || v.Bool? || v.Num? ==> IsEmpty(v)
  {
  }

  /** A plain object is always truthy, and neither an Array nor `null` is one. */
  lemma PlainObjects(v: JsValue)
    ensures IsPlainObject(v) ==> Truthy(v)
    ensures v.Arr? || v.Null? ==> !IsPlainObject(v)
  {
  }

  /** Truthiness (the refactored reader's test) and lodash emptiness (the
      root and legacy hit test) differ: every falsy value is empty, but the
      empty Array and non-zero numbers are truthy and empty at once. */
  lemma TruthinessIsNotEmptiness(v: JsValue)
    ensures !Truthy(v) ==> IsEmpty(v)
    ensures Truthy(Arr([])) && IsEmpty(Arr([]))
    ensures Truthy(Num(1.0)) && IsEmpty(Num(1.0))
  {
  }

  /** A JavaScript default parameter `useCache = true`: the default replaces
      an omitted argument and an explicit `undefined` alike. */
  function UseCacheOrDefault(arg: JsValue): (v: JsValue)
    ensures arg != Undefined ==> v == arg
    ensures v != Undefined
    ensures arg == Undefined ==> Truthy(v) && v.Bool?
  {
    if arg.Undefined? then Bool(true) else arg
  }

  /** Whether an argument object has a field as an own property. */
  datatype Field = Absent | Present(v: JsValue)

  /** The process-wide cache, keyed by the verbatim glob pattern. */
  type Cache = map<string, JsValue>

  /** The external glob matcher: pattern to ordered list of matching paths. */
  type Matcher = string -> seq<string>

  /** What a call returns, or the message of the Error it throws. */
  datatype Outcome = Ok(value: JsValue) | Err(msg: string)

  /** One call of an orchestrator: its outcome, the cache afterwards, and
      whether the glob matcher was consulted. */
  datatype Call = Call(outcome: Outcome, cache: Cache, matcherCalled: bool)

  /** The root and legacy orchestrators' notion of a cache hit: an entry
      for the pattern that lodash does not consider empty. */
  predicate IsHit(cache: Cache, p: string) {
    p in cache && !IsEmpty(cache[p])
  }

  /** The outcome of consulting the matcher: the files, or the NoFiles error. */
  function MatchOutcome(p: string, files: seq<string>): (o: Outcome)
    ensures o.Ok? <==> |files| > 0
    ensures o.Ok? ==> o.value == Arr(files)
    ensures o.Err? ==> o.msg == NoFilesMessage(p)
  {
    if |files| == 0 then Err(NoFilesMessage(p)) else Ok(Arr(files))
  }

  const PatternMessage: string := "The glob pattern argument must be a string"
  const UseCacheMessage: string := "The useCache argument must be a boolean"
  const OutputMessage: string := "The output argument must be an Array"
  const NoFilesPrefix: string := "No files were found with the following pattern: "

  /** The message thrown when the matcher finds nothing; the pattern is
      interpolated verbatim at the end. */
  function NoFilesMessage(pattern: string): (m: string)
    ensures |m| == |NoFilesPrefix| + |pattern|
    ensures m[..|NoFilesPrefix|] == NoFilesPrefix
    ensures m[|NoFilesPrefix|..] == pattern
  {
    NoFilesPrefix + pattern
  }

  /** The NoFiles message determines the pattern it was built from. */
  lemma NoFilesMessageInjective(p: string, q: string)
    requires NoFilesMessage(p) == NoFilesMessage(q)
    ensures p == q
  {
  }

  /** No NoFiles message is one of the fixed argument-error messages. */
  lemma NoFilesMessageIsNotArgumentError(p: string)
    ensures NoFilesMessage(p) != PatternMessage
    ensures NoFilesMessage(p) != UseCacheMessage
    ensures NoFilesMessage(p) != OutputMessage
  {
  }
}
