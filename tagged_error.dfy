/**
 * The tagged-error factory: class definition (`TaggedError(tag)(defaults)`), constructor
 * argument resolution, `toString`, `toJSON`, `data`, `update` and the static `make`.
 */
module TaggedErrors {
  import opened Wrappers
  import opened ErrorCodes
  import opened Values
  import opened ErrorIs

  /** A tagged-error class: its class value, tag, prototype name and factory defaults. */
  datatype ErrorClass = ErrorClass(
    info: ClassInfo,
    tag: string,
    protoName: string,
    defaultCode: ErrorCode,
    defaultMessage: string,
    hasSchema: bool)

  /** What every class made by the factory looks like: marked, prefixed, and tagged the same three ways. */
  predicate WellFormedClass(c: ErrorClass) {
    c.info.marker && StartsWith(c.tag, ErrorPrefix) &&
    c.protoName == c.tag && c.info.classTag == Str(c.tag)
  }

  /** `TaggedError(tag)({code, message, schema?})`, for a class whose identity is `id`. */
  function DefineErrorClass(id: ClassId, tag: string, code: ErrorCode, message: string, hasSchema: bool): (c: ErrorClass)
    ensures WellFormedClass(c)
    ensures c.info.id == id && c.defaultCode == code && c.defaultMessage == message && c.hasSchema == hasSchema
  {
    var resolved := ErrorPrefix + tag;
    assert resolved[..|ErrorPrefix|] == ErrorPrefix;
    ErrorClass(ClassInfo(id, true, Str(resolved)), resolved, resolved, code, message, hasSchema)
  }

  /** The class made by `TaggedError(tag)` carries `@error/` + tag as `_tag`, prototype name and `__tag__`. */
  lemma FactoryPrefixesTag(id: ClassId, tag: string, code: ErrorCode, message: string, hasSchema: bool)
    ensures var c := DefineErrorClass(id, tag, code, message, hasSchema);
      c.tag == ErrorPrefix + tag && c.protoName == ErrorPrefix + tag &&
      c.info.classTag == Str(ErrorPrefix + tag) && c.info.marker
  {
  }

  /** An instance of a class made from an unprefixed tag matches that tag, and the prefixed one. */
  lemma InstanceMatchesOwnTag(tag: string, e: TaggedError)
    requires tag != "" && !StartsWith(tag, ErrorPrefix)
    requires e.marker && e.tag == ErrorPrefix + tag && e.protoName == e.tag
    ensures IsTaggedError(TagQuery(tag), Tagged(e))
    ensures IsTaggedError(TagQuery(ErrorPrefix + tag), Tagged(e))
  {
    assert e.tag[..|ErrorPrefix|] == ErrorPrefix;
  }

  /** The options bag `{code?, cause?}`; `cause` is `Undefined` when absent. */
  datatype Options = Options(code: Option<ErrorCode>, cause: Value)

  /** The options bag as a JavaScript object. */
  function OptionsValue(o: Options): Value {
    var withCause := map["cause" := o.cause];
    match o.code
    case Some(c) => Record(withCause["code" := Str(CodeString(c))])
    case None => Record(withCause)
  }

  /** An options argument as the source's types allow it: a `code` field, when set, names a code. */
  predicate OptionsWellTyped(v: Value) {
    var c := Field(v, "code");
    IsNullish(c) || (c.Str? && FromString(c.s).Some?)
  }

  /**
   * The options that `defu(arg, {code: undefined, cause: undefined})` leaves set: only a plain
   * object contributes, and only its non-nullish `code` and `cause`.
   */
  function ReadOptions(v: Value): (o: Options)
    ensures !v.Record? ==> o == Options(None, Undefined)
    ensures !IsNullish(o.cause) ==> o.cause == Field(v, "cause")
  {
    var c := Field(v, "code");
    Options(if c.Str? then FromString(c.s) else None, DefaultTo(Field(v, "cause"), Undefined))
  }

  /** Writing an options bag and reading it back gives the same bag (a `null` cause reads as absent). */
  lemma ReadOptionsRoundTrip(o: Options)
    requires o.cause != Null
    ensures OptionsWellTyped(OptionsValue(o))
    ensures ReadOptions(OptionsValue(o)) == o
  {
    if o.code.Some? {
      CodeStringRoundTrip(o.code.value);
    }
  }

  /** Every options bag the model writes is well typed, and reads back with a `null` cause as absent. */
  lemma OptionsValueWellTyped(o: Options)
    ensures OptionsWellTyped(OptionsValue(o))
    ensures ReadOptions(OptionsValue(o)) == Options(o.code, DefaultTo(o.cause, Undefined))
  {
    if o.code.Some? {
      CodeStringRoundTrip(o.code.value);
    }
  }

  /** A message argument: a string, or nullish for the default. */
  predicate MessageArg(v: Value) {
    v.Str? || IsNullish(v)
  }

  /** `(arg ?? default) as string` for a message argument. */
  function MessageOr(v: Value, default: string): (m: string)
    requires MessageArg(v)
    ensures IsNullish(v) ==> m == default
    ensures v.Str? ==> m == v.s
  {
    if IsNullish(v) then default else v.s
  }

  /**
   * The argument lists the constructor's signature admits: `(data, message?, options?)` with an
   * object-like first argument, or `(message?, options?)` otherwise.
   */
  predicate WellTypedArgs(a1: Value, a2: Value, a3: Value) {
    if IsObject(a1) then MessageArg(a2) && OptionsWellTyped(a3)
    else MessageArg(a1) && OptionsWellTyped(a2)
  }

  /**
   * `new C(a1, a2, a3)` for a class `c` of the factory: an object-like first argument is the
   * payload and the message and options follow it; otherwise there is no payload and the
   * message and options come first. Code and cause come from the options, else the defaults.
   */
  function Construct(c: ErrorClass, a1: Value, a2: Value, a3: Value): (e: TaggedError)
    requires WellTypedArgs(a1, a2, a3)
    ensures e.classIds == {c.info.id} && e.marker == c.info.marker && e.tag == c.tag
    ensures e.protoName == c.protoName && e.hasSchema == c.hasSchema && e.variant == Generic
    ensures IsObject(e.payload) <==> IsObject(a1)
    ensures WellFormedClass(c) ==>
      IsTaggedError(ClassQuery(c.info), Tagged(e)) && IsTaggedError(TagQuery(c.tag), Tagged(e))
  {
    var payload := if IsObject(a1) then a1 else Undefined;
    var message := if IsObject(a1) then MessageOr(a2, c.defaultMessage) else MessageOr(a1, c.defaultMessage);
    var opts := if IsObject(a1) then ReadOptions(a3) else ReadOptions(a2);
    TaggedError({c.info.id}, c.info.marker, c.tag, c.protoName,
                opts.code.GetOr(c.defaultCode), message, opts.cause, c.hasSchema, payload, Generic)
  }

  /** Reference construction with a payload: `(data, message?, options?)` read positionally. */
  function WithPayload(c: ErrorClass, data: Value, message: Option<string>, o: Options): TaggedError {
    TaggedError({c.info.id}, c.info.marker, c.tag, c.protoName,
                o.code.GetOr(c.defaultCode), message.GetOr(c.defaultMessage), o.cause, c.hasSchema, data, Generic)
  }

  /** Reference construction without a payload: `(message?, options?)`. */
  function WithMessage(c: ErrorClass, message: Option<string>, o: Options): TaggedError {
    TaggedError({c.info.id}, c.info.marker, c.tag, c.protoName,
                o.code.GetOr(c.defaultCode), message.GetOr(c.defaultMessage), o.cause, c.hasSchema, Undefined, Generic)
  }

  /** An object-like first argument becomes the payload; message and options are the next two arguments. */
  lemma ObjectFirstArgumentIsPayload(c: ErrorClass, data: Value, message: Option<string>, o: Options)
    requires IsObject(data) && o.cause != Null
    ensures WellTypedArgs(data, StrOrUndefined(message), OptionsValue(o))
    ensures Construct(c, data, StrOrUndefined(message), OptionsValue(o)) == WithPayload(c, data, message, o)
  {
    ReadOptionsRoundTrip(o);
  }

  /** Otherwise there is no payload; the message is the first argument and the options the second. */
  lemma MessageFirstArgument(c: ErrorClass, message: Option<string>, o: Options, ignored: Value)
    requires o.cause != Null
    ensures WellTypedArgs(StrOrUndefined(message), OptionsValue(o), ignored)
    ensures Construct(c, StrOrUndefined(message), OptionsValue(o), ignored) == WithMessage(c, message, o)
  {
    ReadOptionsRoundTrip(o);
  }

  /**
   * The positional reading is ambiguous: a payload that is not object-like is read as the
   * message, and then the message and options that follow are not read at all.
   */
  lemma NonObjectPayloadDropsArguments(c: ErrorClass, message: string, o: Options)
    requires o.cause != Null
    ensures WellTypedArgs(Undefined, Str(message), OptionsValue(o))
    ensures Construct(c, Undefined, Str(message), OptionsValue(o)) == WithMessage(c, None, Options(None, Undefined))
  {
    ReadOptionsRoundTrip(o);
  }

  /** `toString()`: `<tag> [code]: message`. */
  function ToString(e: TaggedError): (s: string)
    ensures |s| > |e.tag| + 1 && s[..|e.tag| + 2] == "<" + e.tag + ">"
    ensures |s| >= |e.message| && s[|s| - |e.message|..] == e.message
  {
    "<" + e.tag + "> [" + CodeString(e.code) + "]: " + e.message
  }

  /** The code and message a rendering carries. */
  datatype Rendered = Rendered(code: ErrorCode, message: string)

  /** The first position of `x` in `s`. */
  function IndexOf(s: string, x: char): (r: Option<nat>)
    ensures r.None? ==> x !in s
    ensures r.Some? ==> r.value < |s| && s[r.value] == x && x !in s[..r.value]
  {
    if |s| == 0 then None
    else if s[0] == x then Some(0)
    else match IndexOf(s[1..], x)
      case None => None
      case Some(k) => assert s[1..][..k] == s[1..k + 1]; Some(k + 1)
  }

  /** Reads the code and message back from a rendering of an error with tag `tag`. */
  function ParseRendered(s: string, tag: string): Option<Rendered> {
    var p := "<" + tag + "> [";
    if !StartsWith(s, p) then None
    else
      var r := s[|p|..];
      match IndexOf(r, ']')
      case None => None
      case Some(k) =>
        if StartsWith(r[k..], "]: ") && FromString(r[..k]).Some?
        then Some(Rendered(FromString(r[..k]).value, r[k + 3..]))
        else None
  }

  /** The rendering determines the error's code and message: `ParseRendered` inverts `ToString`. */
  lemma ToStringParses(e: TaggedError)
    ensures ParseRendered(ToString(e), e.tag) == Some(Rendered(e.code, e.message))
  {
    var p := "<" + e.tag + "> [";
    var cs := CodeString(e.code);
    var r := cs + "]: " + e.message;
    var s := ToString(e);
    assert s == p + r;
    assert s[..|p|] == p;
    assert s[|p|..] == r;
    CodeStringHasNoBracket(e.code);
    assert r[|cs|] == ']';
    assert r[..|cs|] == cs;
    var k := IndexOf(r, ']').value;
    assert k == |cs|;
    assert r[k..][..3] == "]: ";
    assert r[k + 3..] == e.message;
    CodeStringRoundTrip(e.code);
  }

  /** The JSON form of a cause: `{name, message}` for an Error instance, the cause itself otherwise. */
  function SerializeCause(c: Value): (r: Value)
    ensures !IsErrorInstance(c) ==> r == c
    ensures IsErrorInstance(c) ==> r.Record? && r.fields.Keys == {"name", "message"}
    ensures c.PlainError? ==> r.fields["name"] == Str(c.name) && r.fields["message"] == Str(c.message)
    ensures c.Tagged? ==> r.fields["name"] == Str(c.err.protoName) && r.fields["message"] == Str(c.err.message)
    ensures c.ParseError? ==> r.fields["name"] == Str("ParseError") && r.fields["message"] == Str(c.issue.tree)
  {
    match c
    case PlainError(name, message, _) => Record(map["name" := Str(name), "message" := Str(message)])
    case ParseError(issue) => Record(map["name" := Str("ParseError"), "message" := Str(issue.tree)])
    case Tagged(t) => Record(map["name" := Str(t.protoName), "message" := Str(t.message)])
    case _ => c
  }

  /**
   * `data()`: no data without a schema or a payload, otherwise the decoded payload; a decode
   * failure fails with the library's ParseError.
   */
  function Data(e: TaggedError, schema: Codec): (r: Result<Option<Value>, Value>)
    ensures (r.Success? && r.value.None?) <==> (!e.hasSchema || IsNullish(e.payload))
    ensures r.Success? && r.value.Some? ==> schema.decode(e.payload) == Success(r.value.value)
    ensures r.Failure? ==> schema.decode(e.payload).Failure? && r.error == ParseError(schema.decode(e.payload).error)
  {
    if !e.hasSchema || IsNullish(e.payload) then Success(None)
    else match schema.decode(e.payload)
      case Success(d) => Success(Some(d))
      case Failure(i) => Failure(ParseError(i))
  }

  /** The keys of `toJSON()` (the stack trace is not modelled). */
  const JsonKeys: set<string> := {"_tag", "code", "message", "cause", "data"}

  /**
   * `toJSON()`: tag, code, message, serialised cause and the payload decoded then re-encoded
   * (undefined without schema or payload); a schema failure makes it throw.
   */
  function ToJson(e: TaggedError, schema: Codec): (r: Result<Value, Issue>)
    ensures r.Success? ==> r.value.Record? && r.value.fields.Keys == JsonKeys
    ensures r.Success? ==> Field(r.value, "_tag") == Str(e.tag) && Field(r.value, "code") == Str(CodeString(e.code))
    ensures r.Success? ==> Field(r.value, "message") == Str(e.message)
    ensures r.Success? ==> r.value.fields["cause"] == SerializeCause(e.cause)
    ensures (!e.hasSchema || IsNullish(e.payload)) ==> r.Success? && r.value.fields["data"] == Undefined
  {
    var data: Result<Value, Issue> :=
      if !e.hasSchema || IsNullish(e.payload) then Success(Undefined)
      else match schema.decode(e.payload)
        case Failure(i) => Failure(i)
        case Success(d) => schema.encode(d);
    match data
    case Failure(i) => Failure(i)
    case Success(dv) =>
      Success(Record(map["_tag" := Str(e.tag), "code" := Str(CodeString(e.code)), "message" := Str(e.message),
                         "cause" := SerializeCause(e.cause), "data" := dv]))
  }

  /** `toJSON().data` is the encoding of what `data()` yields, and undefined exactly when `data()` yields none. */
  lemma JsonDataIsEncodedData(e: TaggedError, schema: Codec)
    ensures Data(e, schema) == Success(None) ==> ToJson(e, schema).Success? && ToJson(e, schema).value.fields["data"] == Undefined
    ensures Data(e, schema).Success? && Data(e, schema).value.Some? ==>
      (ToJson(e, schema).Success? <==> schema.encode(Data(e, schema).value.value).Success?)
    ensures Data(e, schema).Success? && Data(e, schema).value.Some? && ToJson(e, schema).Success? ==>
      ToJson(e, schema).value.fields["data"] == schema.encode(Data(e, schema).value.value).value
    ensures Data(e, schema).Failure? ==> ToJson(e, schema).Failure?
  {
  }

  /**
   * `update(updater)`: a no-op without schema, without payload, or when the updater is not a
   * function; otherwise the payload is replaced by the patched one. Nothing else changes.
   */
  function Updated(e: TaggedError, updater: Option<Value -> Value>): (r: TaggedError)
    ensures r == e.(payload := r.payload)
    ensures (!e.hasSchema || IsNullish(e.payload) || updater.None?) ==> r == e
    ensures (e.hasSchema && !IsNullish(e.payload) && updater.Some?) ==> r.payload == updater.value(e.payload)
  {
    if !e.hasSchema || IsNullish(e.payload) || updater.None? then e
    else e.(payload := updater.value(e.payload))
  }

  /**
   * An error object. The constructor fixes the class markers, code, message and cause (all
   * readonly); `update` replaces the payload held in the object's internals in place.
   */
  class ErrorObject {
    const classIds: set<ClassId>
    const marker: bool
    const tag: string
    const protoName: string
    const code: ErrorCode
    const message: string
    const cause: Value
    const hasSchema: bool
    const variant: Variant
    var payload: Value

    /** The object's current state as a value. */
    function Snapshot(): TaggedError
      reads this
    {
      TaggedError(classIds, marker, tag, protoName, code, message, cause, hasSchema, payload, variant)
    }

    /** `new C(a1, a2, a3)`. */
    constructor (c: ErrorClass, a1: Value, a2: Value, a3: Value)
      requires WellTypedArgs(a1, a2, a3)
      ensures Snapshot() == Construct(c, a1, a2, a3)
    {
      var e := Construct(c, a1, a2, a3);
      classIds := e.classIds;
      marker := e.marker;
      tag := e.tag;
      protoName := e.protoName;
      code := e.code;
      message := e.message;
      cause := e.cause;
      hasSchema := e.hasSchema;
      variant := e.variant;
      payload := e.payload;
    }

    /** `update(updater)`: replaces the payload in place when there is a schema, a payload and an updater. */
    method Update(updater: Option<Value -> Value>)
      modifies this
      ensures Snapshot() == Updated(old(Snapshot()), updater)
    {
      if hasSchema && !IsNullish(payload) && updater.Some? {
        payload := updater.value(payload);
      }
    }
  }

  /** `make` options as its signature admits them: a plain object with a string message, if any, and a well-typed code. */
  predicate MakeOptionsWellTyped(o: Value) {
    o.Record? && MessageArg(Field(o, "message")) && OptionsWellTyped(o)
  }

  /**
   * Static `make(options)`: `options.data`, when present and object-like, is passed as the first
   * constructor argument, followed by the message and the other options; otherwise the error
   * is built from the message and the options without `message`.
   */
  function Make(c: ErrorClass, o: Value): (e: TaggedError)
    requires MakeOptionsWellTyped(o)
    ensures IsObject(Field(o, "data")) ==> e.payload == Field(o, "data")
    ensures !IsObject(Field(o, "data")) ==> e.payload == Undefined
    ensures e.message == MessageOr(Field(o, "message"), c.defaultMessage)
    ensures e.code == ReadOptions(o).code.GetOr(c.defaultCode) && e.cause == ReadOptions(o).cause
  {
    var f := o.fields;
    if "data" in f && IsObject(f["data"]) then
      var rest := Record(f - {"data", "message"});
      assert Field(rest, "code") == Field(o, "code") && Field(rest, "cause") == Field(o, "cause");
      Construct(c, f["data"], Field(o, "message"), rest)
    else
      var rest := Record(f - {"message"});
      assert Field(rest, "code") == Field(o, "code") && Field(rest, "cause") == Field(o, "cause");
      Construct(c, Field(o, "message"), rest, Undefined)
  }
}
