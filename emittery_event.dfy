/** `EmitteryEvent(tag)(options?)`: an event class with validate-then-publish `dispatch` and `handle`. */
module EmitteryEvents {
  import opened Wrappers
  import opened ErrorCodes
  import opened Values
  import opened StructSchemas
  import opened SchemaParseErrors
  import opened EventErrors
  import opened EventBus

  /** Prefix of every event tag. */
  const EventPrefix: string := "@event/"

  function DecodeMessage(tag: string): string {
    "Unexpected error occurred while decoding event data for event '" + tag + "'."
  }

  function DispatchMessage(tag: string): string {
    "Unexpected error occurred while dispatching event '" + tag + "'."
  }

  /**
   * What `dispatch(data)` publishes: undefined data as it is, without decoding; other data
   * decoded, a failure being a SchemaParseError whose data is the raw input.
   */
  function EventData(schema: Codec, tag: string, data: Value): (r: Result<Value, Value>)
    ensures data == Undefined ==> r == Success(Undefined)
    ensures data != Undefined ==> (r.Success? <==> schema.decode(data).Success?)
    ensures data != Undefined && r.Success? ==> r.value == schema.decode(data).value
    ensures data != Undefined && r.Failure? ==>
      r.error == Tagged(FromParseError(data, Some(DecodeMessage(tag)), None, ParseError(schema.decode(data).error)))
  {
    if data == Undefined then Success(Undefined)
    else ToSchemaParseError(Some(DecodeMessage(tag)), data, AsParseFailure(schema.decode(data)))
  }

  /** The error a rejected emit fails with: an EventDispatchError about the event and the published data. */
  function DispatchFailure(tag: string, published: Value, rejection: Value): (e: Value)
    ensures e.Tagged? && e.err.tag == ErrorPrefix + "event_dispatch"
    ensures e.err.payload == Record(map["event" := Str(tag), "data" := published])
    ensures e.err.message == DispatchMessage(tag) && e.err.code == E_EVENT_DISPATCH
  {
    Tagged(DispatchFromUnknownError(Record(map["event" := Str(tag), "data" := published]), Some(DispatchMessage(tag)), None, rejection))
  }

  /** `handler.name || '[anonymous]'`. */
  function HandlerName(h: Handler): (r: string)
    ensures r != ""
    ensures h.name != "" ==> r == h.name
    ensures r == HandlerLabel(h, "")
  {
    if h.name != "" then h.name else "[anonymous]"
  }

  /** `handler.name || id || '[anonymous]'`. */
  function HandlerLabel(h: Handler, id: string): (r: string)
    ensures r != ""
    ensures r == h.name || r == id || r == "[anonymous]"
    ensures h.name != "" ==> r == h.name
  {
    if h.name != "" then h.name else if id != "" then id else "[anonymous]"
  }

  function HandleMessage(tag: string, h: Handler, id: string): string {
    "Unexpected error occurred while handling event '" + tag + "' with handler '" + HandlerLabel(h, id) + "'."
  }

  /** The options of `handle`, as given. */
  datatype HandleOptions = HandleOptions(id: Option<string>, once: Option<bool>)

  /** The options after `defu(options, {id: nanoid(), once: false})`. */
  datatype ResolvedOptions = ResolvedOptions(id: string, once: bool)

  /** Missing options take a fresh id and `once = false`; given ones are kept. */
  function ResolveOptions(o: HandleOptions, freshId: string): (r: ResolvedOptions)
    ensures o.id.Some? ==> r.id == o.id.value
    ensures o.id.None? ==> r.id == freshId
    ensures r.once <==> o.once == Some(true)
  {
    ResolvedOptions(o.id.GetOr(freshId), o.once.GetOr(false))
  }

  /** The error a failed registration becomes: an EventHandlerError naming the event and the handler. */
  function HandleFailure(tag: string, h: Handler, id: string, error: Value): (e: Value)
    ensures e.Tagged? && e.err.tag == ErrorPrefix + "event_handler"
    ensures e.err.payload == Record(map["event" := Str(tag), "handler" := Str(HandlerName(h))])
    ensures e.err.message == HandleMessage(tag, h, id) && e.err.code == E_EVENT_HANDLER
  {
    Tagged(HandlerFromUnknownError(Record(map["event" := Str(tag), "handler" := Str(HandlerName(h))]), Some(HandleMessage(tag, h, id)), None, error))
  }

  /** An event class: its `@event/` tag, its schema (default `Schema.Never`) and its bus (default the global one). */
  class EmitteryEvent {
    const tag: string
    const schema: Codec
    const bus: Bus

    /** `new (EmitteryEvent(name)({schema?, emittery?}))()`. */
    constructor (name: string, schema: Option<Codec>, bus: Option<Bus>, globalBus: Bus)
      ensures tag == EventPrefix + name
      ensures this.schema == schema.GetOr(NeverSchema())
      ensures this.bus == (if bus.Some? then bus.value else globalBus)
    {
      tag := EventPrefix + name;
      this.schema := schema.GetOr(NeverSchema());
      this.bus := if bus.Some? then bus.value else globalBus;
    }

    /**
     * `dispatch(data)`: the published value is put in a cell (undefined, or the decoded data),
     * then emitted; a decode failure emits nothing, an emit failure is wrapped.
     */
    method Dispatch(data: Value) returns (failure: Option<Value>)
      modifies bus
      ensures EventData(schema, tag, data).Failure? ==>
        failure == Some(EventData(schema, tag, data).error) && unchanged(bus)
      ensures EventData(schema, tag, data).Success? ==>
        var published := EventData(schema, tag, data).value;
        bus.deliveries == old(bus.deliveries) + DeliveriesOf(old(bus.Registered(tag)), tag, published) &&
        bus.listeners == old(bus.listeners) && bus.nextToken == old(bus.nextToken) &&
        match FirstRejection(old(bus.Registered(tag)), published)
        case None => failure.None?
        case Some(rejection) => failure == Some(DispatchFailure(tag, published, rejection))
    {
      var eventData: Value := Undefined;
      if data != Undefined {
        var decoded := ToSchemaParseError(Some(DecodeMessage(tag)), data, AsParseFailure(schema.decode(data)));
        if decoded.Failure? {
          return Some(decoded.error);
        }
        eventData := decoded.value;
      }
      var rejected := bus.Emit(tag, eventData);
      if rejected.Some? {
        return Some(DispatchFailure(tag, eventData, rejected.value));
      }
      failure := None;
    }

    /**
     * `handle(handler, options?)`: registers the handler on the bus and returns the token its
     * unsubscribe function removes; a registration that throws `registrationError` is wrapped.
     */
    method Handle(handler: Handler, options: HandleOptions, freshId: string, registrationError: Option<Value>)
      returns (r: Result<nat, Value>)
      requires bus.Valid()
      modifies bus
      ensures bus.Valid()
      ensures registrationError.None? ==>
        r == Success(old(bus.nextToken)) &&
        bus.listeners == old(bus.listeners)[tag := old(bus.Registered(tag)) + [Listener(old(bus.nextToken), handler)]] &&
        bus.deliveries == old(bus.deliveries)
      ensures registrationError.Some? ==>
        unchanged(bus) &&
        r == Failure(HandleFailure(tag, handler, ResolveOptions(options, freshId).id, registrationError.value))
    {
      var resolved := ResolveOptions(options, freshId);
      if registrationError.Some? {
        return Failure(HandleFailure(tag, handler, resolved.id, registrationError.value));
      }
      var token := bus.On(tag, handler);
      r := Success(token);
    }
  }

  /** Undefined data is published as it is, whatever the schema, even `Schema.Never`. */
  lemma UndefinedSkipsDecoding(schema: Codec, tag: string)
    ensures EventData(schema, tag, Undefined) == Success(Undefined)
    ensures EventData(NeverSchema(), tag, Undefined).Success?
  {
  }

  /** With the default schema every defined payload is rejected, so nothing is ever published for it. */
  lemma DefaultSchemaRejectsData(tag: string, data: Value)
    requires data != Undefined
    ensures EventData(NeverSchema(), tag, data).Failure?
  {
  }

  /** A counter broadcast with an undeclared `extra` key. */
  function CounterBroadcast(): Value {
    Record(map["id" := Str("counter_one"), "count" := Num(3), "extra" := Bool(true)])
  }

  /** The broadcast fits the counter schema. */
  lemma CounterBroadcastConforms()
    ensures Conforms(CounterEventFields, CounterBroadcast())
  {
    var raw := CounterBroadcast();
    assert Field(raw, "id") == Str("counter_one") && Field(raw, "count") == Num(3);
  }

  /** Decoding keeps only the declared `id` and `count`. */
  lemma CounterBroadcastRestricted()
    ensures Restrict(CounterEventFields, CounterBroadcast()) ==
      Record(map["id" := Str("counter_one"), "count" := Num(3)])
  {
    assert Names(CounterEventFields) == {"id", "count"} by {
      assert CounterEventFields[0].name == "id" && CounterEventFields[1].name == "count";
    }
    var d := Restrict(CounterEventFields, CounterBroadcast());
    assert d.fields.Keys == {"id", "count"};
  }

  /**
   * The bus receives the decoded value, not the raw input: the counter broadcast is published
   * without the key its schema does not declare.
   */
  lemma PublishesDecodedValue(tag: string)
    ensures EventData(StructCodec(CounterEventFields), tag, CounterBroadcast()) ==
      Success(Record(map["id" := Str("counter_one"), "count" := Num(3)]))
  {
    CounterBroadcastConforms();
    CounterBroadcastRestricted();
  }

  /** The handler field of the error is the function name, or `[anonymous]` for an unnamed handler. */
  lemma AnonymousHandlerNamed(reject: Value -> Option<Value>, tag: string, id: string, error: Value)
    ensures Field(HandleFailure(tag, Handler("", reject), id, error).err.payload, "handler") == Str("[anonymous]")
    ensures id != "" ==> HandlerLabel(Handler("", reject), id) == id
    ensures id == "" ==> HandlerLabel(Handler("", reject), id) == "[anonymous]"
  {
  }
}
