/** `toUnknownError` and `toKnownErrorOrConvertUnknown`: normalising anything thrown into a tagged error. */
module ErrorConversion {
  import opened Wrappers
  import opened ErrorCodes
  import opened Values
  import opened ErrorIs
  import opened ErrorCause
  import opened TaggedErrors
  import opened SchemaParseErrors
  import opened UnknownErrors

  /** `err.message` of a value recognised as a tagged error (a class value has none). */
  function TaggedMessage(v: Value): Option<string> {
    if v.Tagged? then Some(v.err.message) else None
  }

  /** `err.code` of a value recognised as a tagged error (a class value has none). */
  function TaggedCode(v: Value): Option<ErrorCode> {
    if v.Tagged? then Some(v.err.code) else None
  }

  /** The `data` option as its type admits it: a record, or absent. */
  predicate DataOption(data: Value) {
    IsNullish(data) || data.Record?
  }

  /**
   * `toUnknownError(message?, {code?, data?})(err)`. A tagged error keeps its own message and
   * code unless others are supplied, and the data defaults to `{}`; anything else gets the
   * supplied message and code. The cause is the inferred one, and for a value with no
   * inferable cause, a fresh Error holding the value's string form.
   */
  function ToUnknownError(message: Option<string>, code: Option<ErrorCode>, data: Value, err: Value): (e: TaggedError)
    requires DataOption(data)
    ensures IsTaggedError(ClassQuery(UnknownClass.info), Tagged(e)) && IsTaggedError(TagQuery("unknown"), Tagged(e))
    ensures !IsNullish(e.cause)
    ensures IsTaggedError(AnyTag, err) ==>
      e.message == message.GetOr(TaggedMessage(err).GetOr(Message(E_UNKNOWN_ERROR))) &&
      e.code == code.GetOr(TaggedCode(err).GetOr(E_UNKNOWN_ERROR)) &&
      e.cause == InferCause(err) &&
      e.variant == Unknown(DefaultTo(data, Record(map[])))
    ensures !IsTaggedError(AnyTag, err) ==>
      e.message == message.GetOr(Message(E_UNKNOWN_ERROR)) &&
      e.code == code.GetOr(E_UNKNOWN_ERROR) &&
      IsErrorInstance(e.cause) &&
      e.variant == Unknown(DefaultTo(data, Undefined))
    ensures !IsTaggedError(AnyTag, err) && IsErrorInstance(err) ==> e.cause == InferCause(err)
    ensures !IsTaggedError(AnyTag, err) && !IsErrorInstance(err) ==> e.cause == PlainError("Error", Render(err), None)
  {
    // defu drops a nullish `data` option
    var resolvedData := DefaultTo(data, Undefined);
    if IsTaggedError(AnyTag, err) then FromTagged(message, code, resolvedData, err)
    else FromUntagged(message, code, resolvedData, err)
  }

  /** The tagged-error branch of `toUnknownError`. */
  function FromTagged(message: Option<string>, code: Option<ErrorCode>, data: Value, err: Value): (e: TaggedError)
    requires IsTaggedError(AnyTag, err)
    ensures IsTaggedError(ClassQuery(UnknownClass.info), Tagged(e)) && IsTaggedError(TagQuery("unknown"), Tagged(e))
    ensures !IsNullish(e.cause) && e.cause == InferCause(err)
    ensures e.message == message.GetOr(TaggedMessage(err).GetOr(Message(E_UNKNOWN_ERROR)))
    ensures e.code == code.GetOr(TaggedCode(err).GetOr(E_UNKNOWN_ERROR))
    ensures e.variant == Unknown(DefaultTo(data, Record(map[])))
  {
    var m := if message.Some? then message else TaggedMessage(err);
    var c := if code.Some? then code else TaggedCode(err);
    var o := UnknownOptions(c, InferCause(err), DefaultTo(data, Record(map[])));
    var e := UnknownErrors.New(m, o);
    assert e.message == m.GetOr(Message(E_UNKNOWN_ERROR));
    assert e.code == c.GetOr(E_UNKNOWN_ERROR);
    assert e.cause == DefaultTo(o.cause, Undefined);
    e
  }

  /** The branch of `toUnknownError` for anything that is not a tagged error. */
  function FromUntagged(message: Option<string>, code: Option<ErrorCode>, data: Value, err: Value): (e: TaggedError)
    requires !IsTaggedError(AnyTag, err)
    ensures IsTaggedError(ClassQuery(UnknownClass.info), Tagged(e)) && IsTaggedError(TagQuery("unknown"), Tagged(e))
    ensures e.message == message.GetOr(Message(E_UNKNOWN_ERROR))
    ensures e.code == code.GetOr(E_UNKNOWN_ERROR)
    ensures !IsNullish(e.cause) && IsErrorInstance(e.cause)
    ensures e.variant == Unknown(data)
    ensures IsErrorInstance(err) ==> e.cause == InferCause(err)
    ensures !IsErrorInstance(err) ==> e.cause == PlainError("Error", Render(err), None)
  {
    UntaggedCauseIsError(err);
    var cause := DefaultTo(InferCause(err), PlainError("Error", Render(err), None));
    var e := UnknownErrors.New(message, UnknownOptions(code, cause, data));
    assert e.cause == cause;
    e
  }

  /** A tagged error converted to an UnknownError keeps its data available: `data()` yields the data, or `{}`. */
  lemma ConvertedTaggedErrorHasData(message: Option<string>, code: Option<ErrorCode>, data: Value, err: Value)
    requires DataOption(data) && IsTaggedError(AnyTag, err)
    ensures UnknownErrors.Data(ToUnknownError(message, code, data, err)) == Success(Some(DefaultTo(data, Record(map[]))))
  {
  }

  /**
   * `toKnownErrorOrConvertUnknown(err)`: a tagged error as it is, a raw ParseError as a
   * SchemaParseError caused by it, anything else through `toUnknownError()`.
   */
  function ToKnown(err: Value): (r: Value)
    ensures IsTaggedError(AnyTag, r)
    ensures IsTaggedError(AnyTag, err) ==> r == err
    ensures !IsTaggedError(AnyTag, err) && err.ParseError? ==>
      r == Tagged(FromParseError(Undefined, None, None, err)) && r.err.cause == err
    ensures !IsTaggedError(AnyTag, err) && !err.ParseError? ==>
      r == Tagged(ToUnknownError(None, None, Undefined, err))
  {
    if IsTaggedError(AnyTag, err) then err
    else if err.ParseError? then Tagged(FromParseError(Undefined, None, None, err))
    else Tagged(ToUnknownError(None, None, Undefined, err))
  }

  /** Converting twice is converting once. */
  lemma ToKnownIdempotent(err: Value)
    ensures ToKnown(ToKnown(err)) == ToKnown(err)
  {
  }

  /** Every converted value is a tagged error of a known class, unless it was already tagged. */
  lemma ToKnownClass(err: Value)
    requires !IsTaggedError(AnyTag, err)
    ensures ToKnown(err).Tagged?
    ensures ToKnown(err).err.tag == ErrorPrefix + "schema_parse" || ToKnown(err).err.tag == ErrorPrefix + "unknown"
    ensures ToKnown(err).err.tag == ErrorPrefix + "schema_parse" <==> err.ParseError?
  {
    assert ErrorPrefix + "schema_parse" != ErrorPrefix + "unknown" by {
      assert (ErrorPrefix + "schema_parse")[|ErrorPrefix|] != (ErrorPrefix + "unknown")[|ErrorPrefix|];
    }
  }
}
