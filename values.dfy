/**
 * The JavaScript values the error, decoding and event layers pass around.
 *
 * Prototype and symbol markers are explicit fields: a tagged error carries the
 * class-level error marker, its `_tag`, its prototype name and the classes it is
 * an instance of; a class value carries the marker and its static `__tag__`.
 */
module Values {
  import opened Wrappers
  import opened ErrorCodes

  /** Prefix of every tagged-error tag. */
  const ErrorPrefix: string := "@error/"

  /** Identity of a class, used for `instanceof`. */
  type ClassId = string

  /**
   * A schema parse issue, abstracted to what the two formatters produce from it:
   * the tree rendering (a string) and the array rendering (a value).
   */
  datatype Issue = Issue(tree: string, entries: Value)

  /** A class value: its identity, whether it carries the error marker, and its static `__tag__`. */
  datatype ClassInfo = ClassInfo(id: ClassId, marker: bool, classTag: Value)

  /** Which class of the tagged-error family built an instance, with that class's own fields. */
  datatype Variant =
    | Generic                      // a class made by the factory, no fields of its own
    | SchemaParse(issue: Issue)    // SchemaParseError, with its `issue`
    | Unknown(context: Value)      // UnknownError, with the `data` option its data() decodes

  /**
   * An instance of a tagged-error class. `cause` and `payload` are `Undefined` when absent;
   * `payload` is the encoded data held in the instance's internals.
   */
  datatype TaggedError = TaggedError(
    classIds: set<ClassId>,
    marker: bool,
    tag: string,
    protoName: string,
    code: ErrorCode,
    message: string,
    cause: Value,
    hasSchema: bool,
    payload: Value,
    variant: Variant)

  /** The cause of a failed runtime exit (composite causes are not modelled). */
  datatype Cause = Fail(error: Value) | Die(defect: Value) | Interrupt | Empty

  /** The exit of running an effect. */
  datatype Exit = ExitSuccess(value: Value) | ExitFailure(cause: Cause)

  datatype Value =
    | Undefined
    | Null
    | Bool(b: bool)
    | Num(n: int)
    | Str(s: string)
    | Record(fields: map<string, Value>)                          // a plain object
    | Func(name: string)                                          // a function that is not a class
    | ClassRef(cls: ClassInfo)                                    // a class value
    | PlainError(name: string, message: string, ownCause: Option<Value>)  // Error, TypeError, ReferenceError
    | ParseError(issue: Issue)                                    // the schema library's ParseError
    | Tagged(err: TaggedError)                                    // a tagged-error instance
    | ExitValue(exit: Exit)                                       // an Exit object

  /** `isNullOrUndefined`. */
  predicate IsNullish(v: Value) {
    v.Undefined? || v.Null?
  }

  /** `isObject`: any non-null object or function. */
  predicate IsObject(v: Value)
    ensures IsObject(v) ==> Truthy(v) && !IsNullish(v)
  {
    !(v.Undefined? || v.Null? || v.Bool? || v.Num? || v.Str?)
  }

  /** JavaScript truthiness. */
  predicate Truthy(v: Value)
    ensures IsNullish(v) ==> !Truthy(v)
    ensures v.Str? ==> (Truthy(v) <==> v.s != "")
  {
    match v
    case Undefined => false
    case Null => false
    case Bool(b) => b
    case Num(n) => n != 0
    case Str(s) => s != ""
    case _ => true
  }

  /** `value instanceof Error`. */
  predicate IsErrorInstance(v: Value) {
    v.PlainError? || v.ParseError? || v.Tagged?
  }

  /**
   * `isError` of the type-guard library: the object's `Symbol.toStringTag` reads `Error`.
   * A tagged error overrides that tag with its `_tag`, so it does not report as an Error.
   */
  predicate ReportsErrorType(v: Value) {
    v.PlainError? || v.ParseError?
  }

  /** A record field, `undefined` when missing. */
  function Field(v: Value, key: string): (r: Value)
    ensures r != Undefined ==> v.Record? && key in v.fields && v.fields[key] == r
  {
    if v.Record? && key in v.fields then v.fields[key] else Undefined
  }

  /**
   * Lodash `defaultTo` (and `??`) on values. Numbers are integers here, so `defaultTo`'s
   * fallback for `NaN` never arises.
   */
  function DefaultTo(v: Value, default: Value): (r: Value)
    ensures !IsNullish(v) ==> r == v
    ensures IsNullish(v) ==> r == default
  {
    if IsNullish(v) then default else v
  }

  /** An optional string as a JavaScript argument: a string, or `undefined`. */
  function StrOrUndefined(s: Option<string>): (v: Value)
    ensures s.None? <==> v == Undefined
    ensures s.Some? ==> v == Str(s.value)
  {
    match s
    case Some(x) => Str(x)
    case None => Undefined
  }

  /**
   * The string form `Inspectable.toStringUnknown` gives a thrown value: strings as they are,
   * primitives by name; objects have a JSON rendering that is not modelled (a fixed placeholder).
   */
  function Render(v: Value): (s: string)
    ensures v.Str? ==> s == v.s
    ensures !v.Str? ==> s != ""
  {
    match v
    case Str(s) => s
    case Undefined => "undefined"
    case Null => "null"
    case Bool(b) => if b then "true" else "false"
    case Num(n) => if n < 0 then "-" + Digits(-n) else Digits(n)
    case _ => "[object]"
  }

  /** Decimal digits of a natural number. */
  function Digits(n: nat): (s: string)
    ensures |s| > 0
    decreases n
  {
    var d := [(('0' as int) + n % 10) as char];
    if n < 10 then d else Digits(n / 10) + d
  }

  /** A schema, reduced to its decoding (encoded to type) and encoding (type to encoded) functions. */
  datatype Codec = Codec(decode: Value -> Result<Value, Issue>, encode: Value -> Result<Value, Issue>)

  /** A schema failure as the effect fails with it: the library's ParseError carrying the issue. */
  function AsParseFailure<T>(r: Result<T, Issue>): (q: Result<T, Value>)
    ensures r.Success? <==> q.Success?
    ensures r.Success? ==> q.value == r.value
    ensures r.Failure? ==> q.error == ParseError(r.error)
  {
    match r
    case Success(v) => Success(v)
    case Failure(i) => Failure(ParseError(i))
  }

  /** `s` starts with `p`. */
  predicate StartsWith(s: string, p: string) {
    |p| <= |s| && s[..|p|] == p
  }
}
