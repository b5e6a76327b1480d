/** `EventDispatchError` and `EventHandlerError`, and their `fromUnknownError` converters. */
module EventErrors {
  import opened Wrappers
  import opened ErrorCodes
  import opened Values
  import opened ErrorIs
  import opened StructSchemas
  import opened ErrorCause
  import opened TaggedErrors

  /** EventDispatchError: code `E_EVENT_DISPATCH`, its metadata message, payload `{event, data?}`. */
  const DispatchClass: ErrorClass :=
    DefineErrorClass("EventDispatchError", "event_dispatch", E_EVENT_DISPATCH, Message(E_EVENT_DISPATCH), true)

  /** EventHandlerError: code `E_EVENT_HANDLER`, its metadata message, payload `{event, handler, data?}`. */
  const HandlerClass: ErrorClass :=
    DefineErrorClass("EventHandlerError", "event_handler", E_EVENT_HANDLER, Message(E_EVENT_HANDLER), true)

  function DispatchSchema(): Codec {
    StructCodec(EventDispatchFields)
  }

  function HandlerSchema(): Codec {
    StructCodec(EventHandlerFields)
  }

  /**
   * `fromUnknownError(data, message?, {code?})(error)` of a class with a schema: the data is the
   * payload, and the cause is the one inferred from the error.
   */
  function FromUnknownError(c: ErrorClass, data: Value, message: Option<string>, code: Option<ErrorCode>, error: Value): (e: TaggedError)
    requires data.Record?
    ensures e.payload == data && e.cause == InferCause(error)
    ensures e.message == message.GetOr(c.defaultMessage) && e.code == code.GetOr(c.defaultCode)
    ensures e.tag == c.tag && e.hasSchema == c.hasSchema
    ensures WellFormedClass(c) ==> IsTaggedError(ClassQuery(c.info), Tagged(e))
  {
    var o := Options(code, InferCause(error));
    OptionsValueWellTyped(o);
    Construct(c, data, StrOrUndefined(message), OptionsValue(o))
  }

  /** `EventDispatchError.fromUnknownError`. */
  function DispatchFromUnknownError(data: Value, message: Option<string>, code: Option<ErrorCode>, error: Value): (e: TaggedError)
    requires data.Record?
    ensures e == FromUnknownError(DispatchClass, data, message, code, error)
    ensures e.tag == ErrorPrefix + "event_dispatch" && e.code == code.GetOr(E_EVENT_DISPATCH)
    ensures e.message == message.GetOr(Message(E_EVENT_DISPATCH))
    ensures IsTaggedError(ClassQuery(DispatchClass.info), Tagged(e))
  {
    FromUnknownError(DispatchClass, data, message, code, error)
  }

  /** `EventHandlerError.fromUnknownError`. */
  function HandlerFromUnknownError(data: Value, message: Option<string>, code: Option<ErrorCode>, error: Value): (e: TaggedError)
    requires data.Record?
    ensures e == FromUnknownError(HandlerClass, data, message, code, error)
    ensures e.tag == ErrorPrefix + "event_handler" && e.code == code.GetOr(E_EVENT_HANDLER)
    ensures e.message == message.GetOr(Message(E_EVENT_HANDLER))
    ensures IsTaggedError(ClassQuery(HandlerClass.info), Tagged(e))
  {
    FromUnknownError(HandlerClass, data, message, code, error)
  }

  /**
   * The payload's shape decides `data()`: it yields the payload (minus undeclared keys) exactly
   * when the payload fits the class's struct, and fails with a ParseError otherwise.
   */
  lemma FromUnknownErrorData(fields: seq<StructField>, c: ErrorClass, data: Value, message: Option<string>, code: Option<ErrorCode>, error: Value)
    requires data.Record? && c.hasSchema
    ensures var e := FromUnknownError(c, data, message, code, error);
      (Data(e, StructCodec(fields)).Success? <==> Conforms(fields, data)) &&
      (Conforms(fields, data) ==> Data(e, StructCodec(fields)) == Success(Some(Restrict(fields, data))))
  {
  }

  /** A dispatch payload `{event, data}` with a string event always fits, and is kept whole. */
  lemma DispatchPayloadFits(event: string, data: Value)
    ensures var p := Record(map["event" := Str(event), "data" := data]);
      DecodeStruct(EventDispatchFields, p) == Success(p)
  {
    var p := Record(map["event" := Str(event), "data" := data]);
    assert Field(p, "event") == Str(event);
    assert Names(EventDispatchFields) == {"event", "data"} by {
      assert EventDispatchFields[0].name == "event" && EventDispatchFields[1].name == "data";
    }
    assert Restrict(EventDispatchFields, p).fields.Keys == p.fields.Keys;
    assert Restrict(EventDispatchFields, p) == p;
  }

  /** A handler payload `{event, handler}` with string fields always fits, and is kept whole. */
  lemma HandlerPayloadFits(event: string, handler: string)
    ensures var p := Record(map["event" := Str(event), "handler" := Str(handler)]);
      DecodeStruct(EventHandlerFields, p) == Success(p)
  {
    var p := Record(map["event" := Str(event), "handler" := Str(handler)]);
    assert Field(p, "event") == Str(event) && Field(p, "handler") == Str(handler);
    assert Names(EventHandlerFields) == {"event", "handler", "data"} by {
      assert EventHandlerFields[0].name == "event" && EventHandlerFields[1].name == "handler";
      assert EventHandlerFields[2].name == "data";
    }
    assert Restrict(EventHandlerFields, p).fields.Keys == p.fields.Keys;
    assert Restrict(EventHandlerFields, p) == p;
  }
}
