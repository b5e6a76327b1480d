/**
 * Props decoding with recovery and modifier, and the `store` view attached to decoded props
 * (`useComponentProps`; the same decoding serves `useReactComponentInternals`).
 */
module ComponentProps {
  import opened Wrappers
  import opened Values
  import opened SchemaParseErrors
  import opened StoreCycle

  const PropsMessage: string := "Unexpected error occurred while decoding component props."

  /** `defaultTo(modifier, props => props)` applied to the decoded props (deep cloning is the identity on values). */
  function ApplyModifier(modifier: Option<Value -> Value>, v: Value): (r: Value)
    ensures modifier.None? ==> r == v
    ensures modifier.Some? ==> r == modifier.value(v)
  {
    match modifier
    case None => v
    case Some(f) => f(v)
  }

  /** The `_tag` check of `catchTag('@error/schema_parse', ...)`. */
  predicate IsSchemaParseFailure(err: Value) {
    err.Tagged? && err.err.tag == ErrorPrefix + "schema_parse"
  }

  /**
   * The decoded props: the raw props decoded (a failure being a SchemaParseError whose data is
   * `context`), a failure handed to the recovery callback, whose `Some(v)` replaces the
   * decoding and whose `None` fails with the same error; then the modifier.
   */
  function DecodeProps(schema: Codec, raw: Value, context: Value, modifier: Option<Value -> Value>,
                       recovery: Option<(Value, Value) -> Option<Value>>): (r: Result<Value, Value>)
    ensures schema.decode(raw).Success? ==> r == Success(ApplyModifier(modifier, schema.decode(raw).value))
    ensures schema.decode(raw).Failure? ==>
      var err := SchemaFailure(PropsMessage, context, schema.decode(raw).error);
      (recovery.None? ==> r == Failure(err)) &&
      (recovery.Some? && recovery.value(raw, err).None? ==> r == Failure(err)) &&
      (recovery.Some? && recovery.value(raw, err).Some? ==> r == Success(ApplyModifier(modifier, recovery.value(raw, err).value)))
  {
    var decoded := ToSchemaParseError(Some(PropsMessage), context, AsParseFailure(schema.decode(raw)));
    var recovered: Result<Value, Value> :=
      match decoded
      case Success(v) => Success(v)
      case Failure(err) =>
        if !IsSchemaParseFailure(err) then Failure(err)
        else match recovery
          case None => Failure(err)
          case Some(f) =>
            match f(raw, err)
            case Some(v) => Success(v)
            case None => Failure(err);
    match recovered
    case Success(v) => Success(ApplyModifier(modifier, v))
    case Failure(e) => Failure(e)
  }

  /** The recovery callback is consulted only when decoding fails. */
  lemma RecoveryOnlyOnFailure(schema: Codec, raw: Value, context: Value, modifier: Option<Value -> Value>,
                              r1: Option<(Value, Value) -> Option<Value>>, r2: Option<(Value, Value) -> Option<Value>>)
    requires schema.decode(raw).Success?
    ensures DecodeProps(schema, raw, context, modifier, r1) == DecodeProps(schema, raw, context, modifier, r2)
  {
  }

  /** A callback that declines every failure behaves as no callback at all. */
  lemma DecliningRecoveryIsNoRecovery(schema: Codec, raw: Value, context: Value, modifier: Option<Value -> Value>)
    ensures DecodeProps(schema, raw, context, modifier, Some((p: Value, e: Value) => None)) ==
            DecodeProps(schema, raw, context, modifier, None)
  {
  }

  /** Without a modifier the props are exactly the decoding: the identity is the default modifier. */
  lemma IdentityIsDefaultModifier(schema: Codec, raw: Value, context: Value, recovery: Option<(Value, Value) -> Option<Value>>)
    ensures DecodeProps(schema, raw, context, None, recovery) == DecodeProps(schema, raw, context, Some((v: Value) => v), recovery)
  {
  }

  /** Every failure is a SchemaParseError about the decode issue, with `context` as its data. */
  lemma FailureIsSchemaParseError(schema: Codec, raw: Value, context: Value, modifier: Option<Value -> Value>,
                                  recovery: Option<(Value, Value) -> Option<Value>>)
    requires DecodeProps(schema, raw, context, modifier, recovery).Failure?
    ensures schema.decode(raw).Failure?
    ensures var e := DecodeProps(schema, raw, context, modifier, recovery).error;
      IsSchemaParseFailure(e) && e.err.cause == ParseError(schema.decode(raw).error) &&
      e.err.payload == Payload(schema.decode(raw).error.tree, context)
  {
  }

  /** What reading a key of a state view gives: a value, the update function, or undefined. */
  datatype ViewEntry = Entry(value: Value) | UpdateFunction | NoEntry

  /** A proxy over a component's state: `valueKey` reads the state, `update` the update function. */
  datatype View = View(valueKey: string, value: Value)

  /** The proxy's `get` trap. */
  function Get(v: View, key: string): (r: ViewEntry)
    requires v.valueKey != "update"
    ensures key == v.valueKey <==> r == Entry(v.value)
    ensures key == "update" <==> r == UpdateFunction
    ensures r == NoEntry <==> key != v.valueKey && key != "update"
  {
    if key == v.valueKey then Entry(v.value)
    else if key == "update" then UpdateFunction
    else NoEntry
  }

  /** Decoded props with the state view attached, if any. */
  datatype Props = Props(value: Value, view: Option<View>)

  /** A store passed to `useComponentProps`: its current state (the update function is opaque). */
  datatype StoreArg = StoreArg(state: Value)

  /** The `store` view is attached only when a store is given and its state is truthy. */
  function AttachStore(props: Value, store: Option<StoreArg>): (p: Props)
    ensures p.value == props
    ensures p.view.Some? <==> store.Some? && Truthy(store.value.state)
    ensures p.view.Some? ==> p.view.value == View("state", store.value.state)
    ensures p.view.Some? ==> Get(p.view.value, "state") == Entry(store.value.state) && Get(p.view.value, "update") == UpdateFunction
  {
    if store.Some? && Truthy(store.value.state) then Props(props, Some(View("state", store.value.state)))
    else Props(props, None)
  }

  /** `useComponentProps(options)`: the raw props are also the data of a decode failure. */
  function UseComponentProps(schema: Codec, raw: Value, store: Option<StoreArg>, modifier: Option<Value -> Value>,
                             recovery: Option<(Value, Value) -> Option<Value>>): (r: Result<Props, Value>)
    ensures r.Success? <==> DecodeProps(schema, raw, raw, modifier, recovery).Success?
    ensures r.Success? ==> r.value == AttachStore(DecodeProps(schema, raw, raw, modifier, recovery).value, store)
    ensures r.Failure? ==> r.error == DecodeProps(schema, raw, raw, modifier, recovery).error
  {
    match DecodeProps(schema, raw, raw, modifier, recovery)
    case Success(p) => Success(AttachStore(p, store))
    case Failure(e) => Failure(e)
  }
}
