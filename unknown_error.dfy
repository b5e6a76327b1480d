/** `UnknownError` (tag `@error/unknown`): no schema, and a `data()` of its own over the `data` option. */
module UnknownErrors {
  import opened Wrappers
  import opened ErrorCodes
  import opened Values
  import opened ErrorIs
  import opened StructSchemas
  import opened TaggedErrors
  import SchemaParseErrors

  /** The class: code `E_UNKNOWN_ERROR`, its metadata message, and no schema. */
  const UnknownClass: ErrorClass :=
    DefineErrorClass("UnknownError", "unknown", E_UNKNOWN_ERROR, Message(E_UNKNOWN_ERROR), false)

  /** The constructor's options: the base options plus an optional `data` record (`Undefined` when absent). */
  datatype UnknownOptions = UnknownOptions(code: Option<ErrorCode>, cause: Value, data: Value)

  /**
   * `new UnknownError(message?, options?)`: `data` is split off the options, the rest go to the
   * base constructor as its second argument, and the instance keeps `data` for its `data()`.
   */
  function New(message: Option<string>, o: UnknownOptions): (e: TaggedError)
    ensures e.tag == ErrorPrefix + "unknown" && !e.hasSchema
    ensures e.payload == Undefined && e.variant == Unknown(o.data)
    ensures e.code == o.code.GetOr(E_UNKNOWN_ERROR)
    ensures e.message == message.GetOr(Message(E_UNKNOWN_ERROR))
    ensures e.cause == DefaultTo(o.cause, Undefined)
    ensures IsTaggedError(ClassQuery(UnknownClass.info), Tagged(e))
    ensures IsTaggedError(TagQuery("unknown"), Tagged(e))
  {
    var rest := Options(o.code, o.cause);
    OptionsValueWellTyped(rest);
    var e := Construct(UnknownClass, StrOrUndefined(message), OptionsValue(rest), Undefined).(variant := Unknown(o.data));
    assert "unknown"[0] != ErrorPrefix[0];
    InstanceMatchesOwnTag("unknown", e);
    e
  }

  /** The message a decode failure of the `data` option would carry. */
  const DataContextMessage: string := "Unexpected error while decoding data context for unknown error."

  /**
   * The overridden `data()`: none for nullish or non-object data, otherwise the data decoded
   * with `Schema.Object`, a failure becoming a SchemaParseError.
   */
  function Data(e: TaggedError): (r: Result<Option<Value>, Value>)
    requires e.variant.Unknown?
    ensures r.Success?
    ensures r.value.None? <==> !IsObject(e.variant.context)
    ensures r.value.Some? ==> r.value.value == e.variant.context
  {
    var data := e.variant.context;
    if IsNullish(data) || !IsObject(data) then Success(None)
    else
      var context := Record(map["error" := Str(CodeString(E_UNKNOWN_ERROR)), "context" := data]);
      match SchemaParseErrors.ToSchemaParseError(Some(DataContextMessage), context, AsParseFailure(ObjectSchema().decode(data)))
      case Success(d) => Success(Some(d))
      case Failure(err) => Failure(err)
  }

  /** The `data` option never becomes a payload: `update` does nothing and `toJSON().data` is undefined. */
  lemma DataIsNotPayload(message: Option<string>, o: UnknownOptions, updater: Option<Value -> Value>, schema: Codec)
    ensures TaggedErrors.Updated(New(message, o), updater) == New(message, o)
    ensures TaggedErrors.Data(New(message, o), schema) == Success(None)
    ensures ToJson(New(message, o), schema).Success? && ToJson(New(message, o), schema).value.fields["data"] == Undefined
  {
  }
}
