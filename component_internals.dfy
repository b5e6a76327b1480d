/**
 * `useReactComponentInternals`: decoded props, a lazily decoded local state with its cached
 * encoding, `updateLocalState`, and the props with the `state` view attached.
 */
module ComponentInternals {
  import opened Wrappers
  import opened Values
  import opened SchemaParseErrors
  import opened StoreCycle
  import opened ComponentProps

  /** The props options: schema, raw value, optional modifier and optional recovery callback. */
  datatype PropsOptions = PropsOptions(
    schema: Codec,
    value: Value,
    modifier: Option<Value -> Value>,
    recovery: Option<(Value, Value) -> Option<Value>>)

  /** The initial state: an encoded value, or a function of the decoded props giving one. */
  datatype InitialState = InitialValue(value: Value) | InitialFn(f: Value -> Value)

  /** The state options: the state schema and the initial state. */
  datatype StateOptions = StateOptions(schema: Codec, initial: InitialState)

  const LazyStateMessage: string := "Unexpected error occurred while decoding the initial state of the component local state."

  /**
   * The props option object, which is what a props decode failure carries as data (its schema
   * and callbacks are left out of the value).
   */
  function PropsOptionValue(o: PropsOptions): Value {
    Record(map["value" := o.value])
  }

  /**
   * The props: decoded from `options.props.value`, handed to `onSchemaParseError` on failure
   * (whose `Some(v)` replaces the decoding and whose `None` re-raises), then modified; unlike
   * `useComponentProps`, a failure carries the props option object as its data, not the raw value.
   */
  function InternalsProps(o: PropsOptions): (r: Result<Value, Value>)
    ensures o.schema.decode(o.value).Success? ==> r == Success(ApplyModifier(o.modifier, o.schema.decode(o.value).value))
    ensures o.schema.decode(o.value).Failure? ==>
      var err := SchemaFailure(PropsMessage, PropsOptionValue(o), o.schema.decode(o.value).error);
      (o.recovery.None? ==> r == Failure(err)) &&
      (o.recovery.Some? && o.recovery.value(o.value, err).None? ==> r == Failure(err)) &&
      (o.recovery.Some? && o.recovery.value(o.value, err).Some? ==>
        r == Success(ApplyModifier(o.modifier, o.recovery.value(o.value, err).value)))
    ensures r.Failure? ==>
      o.schema.decode(o.value).Failure? && IsSchemaParseFailure(r.error) &&
      r.error.err.payload == Payload(o.schema.decode(o.value).error.tree, PropsOptionValue(o))
  {
    var r := DecodeProps(o.schema, o.value, PropsOptionValue(o), o.modifier, o.recovery);
    if r.Failure? then
      FailureIsSchemaParseError(o.schema, o.value, PropsOptionValue(o), o.modifier, o.recovery);
      r
    else r
  }

  /** The initial encoded state: none without state options, `initial(props)` for a function, else `initial`. */
  function InitialEncoded(state: Option<StateOptions>, props: Value): (r: Value)
    ensures state.None? ==> r == Undefined
    ensures state.Some? && state.value.initial.InitialFn? ==> r == state.value.initial.f(props)
    ensures state.Some? && state.value.initial.InitialValue? ==> r == state.value.initial.value
  {
    match state
    case None => Undefined
    case Some(s) =>
      match s.initial
      case InitialFn(f) => f(props)
      case InitialValue(v) => v
  }

  /** The lazy local state: undefined without state options or encoding, else the decoding. */
  function LazyState(state: Option<StateOptions>, encoded: Value): (r: Result<Value, Value>)
    ensures state.None? || IsNullish(encoded) ==> r == Success(Undefined)
    ensures state.Some? && !IsNullish(encoded) ==>
      (r.Success? <==> state.value.schema.decode(encoded).Success?) &&
      (r.Success? ==> r.value == state.value.schema.decode(encoded).value) &&
      (r.Failure? ==> r.error == SchemaFailure(LazyStateMessage, encoded, state.value.schema.decode(encoded).error))
  {
    if state.None? || IsNullish(encoded) then Success(Undefined)
    else match state.value.schema.decode(encoded)
      case Success(v) => Success(v)
      case Failure(i) => Failure(SchemaFailure(LazyStateMessage, encoded, i))
  }

  /** The local state's decoding fits its cache from the start. */
  lemma LazyStateConsistent(state: Option<StateOptions>, encoded: Value)
    requires state.Some? && LazyState(state, encoded).Success?
    ensures Consistent(state.value.schema, encoded, LazyState(state, encoded).value)
  {
  }

  /** The internals of one component. */
  class Internals {
    const props: Value
    const state: Option<StateOptions>
    var encoded: Value
    var localState: Value

    /** Mounting: decode the props, compute the initial encoding, decode the lazy state. */
    constructor (options: PropsOptions, state: Option<StateOptions>)
      requires InternalsProps(options).Success?
      requires LazyState(state, InitialEncoded(state, InternalsProps(options).value)).Success?
      ensures props == InternalsProps(options).value && this.state == state
      ensures encoded == InitialEncoded(state, props)
      ensures localState == LazyState(state, encoded).value
    {
      var p := InternalsProps(options).value;
      props := p;
      this.state := state;
      encoded := InitialEncoded(state, p);
      localState := LazyState(state, InitialEncoded(state, p)).value;
    }

    /** `updateLocalState(updater)`: the same cycle as the local store, over the local state. */
    method UpdateLocalState(patch: Value -> Value) returns (failure: Option<Value>)
      modifies this
      ensures state.None? ==> encoded == old(encoded) && localState == old(localState) && failure.None?
      ensures state.Some? ==>
        Cycle(encoded, localState, failure) ==
        UpdateCycle(state.value.schema, !IsNullish(old(localState)), old(encoded), old(localState), patch)
    {
      if IsNullish(localState) || state.None? {
        return None;
      }
      var schema := state.value.schema;
      var base: Value;
      if IsNullish(encoded) {
        var r := schema.encode(localState);
        if r.Failure? {
          return Some(SchemaFailure(EncodeMessage, localState, r.error));
        }
        base := r.value;
      } else {
        base := encoded;
      }
      var updated := patch(base);
      encoded := updated;
      var d := schema.decode(updated);
      if d.Failure? {
        return Some(SchemaFailure(DecodeMessage, localState, d.error));
      }
      localState := d.value;
      failure := None;
    }

    /** `composedProps`: the `state` view is attached only with state options and a truthy local state. */
    function ComposedProps(): (p: Props)
      reads this
      ensures p.value == props
      ensures p.view.Some? <==> state.Some? && Truthy(localState)
      ensures p.view.Some? ==> p.view.value == View("value", localState)
      ensures p.view.Some? ==> Get(p.view.value, "value") == Entry(localState) && Get(p.view.value, "update") == UpdateFunction
    {
      if state.Some? && Truthy(localState) then Props(props, Some(View("value", localState)))
      else Props(props, None)
    }
  }
}
