/** `useComponentLocalStore`: a component's validated local store. */
module LocalStores {
  import opened Wrappers
  import opened Values
  import opened SchemaParseErrors
  import opened StoreCycle

  /** The hook's options: the store schema and the initial encoded value. */
  datatype StoreOptions = StoreOptions(schema: Codec, initial: Value)

  const InitialMessage: string := "Unexpected error occurred while decoding the initial state of the component local store."

  /** The initial store: nothing without options, else the decoded initial value; a failure is a SchemaParseError. */
  function InitialStore(options: Option<StoreOptions>): (r: Result<Value, Value>)
    ensures options.None? ==> r == Success(Undefined)
    ensures options.Some? ==> (r.Success? <==> options.value.schema.decode(options.value.initial).Success?)
    ensures options.Some? && r.Success? ==> r.value == options.value.schema.decode(options.value.initial).value
    ensures options.Some? && r.Failure? ==>
      r.error == SchemaFailure(InitialMessage, options.value.initial, options.value.schema.decode(options.value.initial).error)
  {
    match options
    case None => Success(Undefined)
    case Some(o) =>
      match o.schema.decode(o.initial)
      case Success(v) => Success(v)
      case Failure(i) => Failure(SchemaFailure(InitialMessage, o.initial, i))
  }

  /** The store of one component: the cached encoding in a ref, and the visible store in state. */
  class LocalStore {
    const options: Option<StoreOptions>
    var encoded: Value
    var store: Value

    /** Mounting: the cache starts as the initial encoding, the store as its decoding. */
    constructor (options: Option<StoreOptions>)
      requires InitialStore(options).Success?
      ensures this.options == options
      ensures encoded == (if options.Some? then options.value.initial else Undefined)
      ensures store == InitialStore(options).value
      ensures options.Some? ==> Consistent(options.value.schema, encoded, store)
    {
      this.options := options;
      encoded := if options.Some? then options.value.initial else Undefined;
      store := InitialStore(options).value;
    }

    /**
     * `updateStore(updater)`: one pass of the update cycle, returning the error the effect
     * fails with, if any.
     */
    method UpdateStore(patch: Value -> Value) returns (failure: Option<Value>)
      modifies this
      ensures options.None? ==> encoded == old(encoded) && store == old(store) && failure.None?
      ensures options.Some? ==>
        Cycle(encoded, store, failure) ==
        UpdateCycle(options.value.schema, !IsNullish(old(store)), old(encoded), old(store), patch)
    {
      if IsNullish(store) || options.None? {
        return None;
      }
      var schema := options.value.schema;
      var base: Value;
      if IsNullish(encoded) {
        var r := schema.encode(store);
        if r.Failure? {
          return Some(SchemaFailure(EncodeMessage, store, r.error));
        }
        base := r.value;
      } else {
        base := encoded;
      }
      var updated := patch(base);
      encoded := updated;
      var d := schema.decode(updated);
      if d.Failure? {
        return Some(SchemaFailure(DecodeMessage, store, d.error));
      }
      store := d.value;
      failure := None;
    }
  }
}
