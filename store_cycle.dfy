/**
 * The update cycle shared by the component local store and the component local state: a
 * visible decoded value and a cached encoded snapshot, changed by a patch on the encoding.
 */
module StoreCycle {
  import opened Wrappers
  import opened Values
  import opened StructSchemas
  import opened SchemaParseErrors

  const EncodeMessage: string := "Unexpected error occurred while encoding the store."
  const DecodeMessage: string := "Unexpected error occurred while decoding the updated store."

  /** A schema failure raised by the cycle, as `toSchemaParseError(message, data)` converts it. */
  function SchemaFailure(message: string, data: Value, issue: Issue): Value {
    Tagged(FromParseError(data, Some(message), None, ParseError(issue)))
  }

  /** The state after one update: the cache, the visible value, and the error the update failed with, if any. */
  datatype Cycle = Cycle(encoded: Value, visible: Value, failure: Option<Value>)

  /**
   * One update with patch `patch`. It does nothing unless `active` (a visible value and
   * options exist). The base is the cache, or the encoded visible value when the cache is
   * nullish. The patched base is written to the cache and then decoded; only a successful
   * decode replaces the visible value. Failures carry the visible value as their data.
   */
  function UpdateCycle(schema: Codec, active: bool, encoded: Value, visible: Value, patch: Value -> Value): (c: Cycle)
    ensures !active ==> c == Cycle(encoded, visible, None)
    ensures c.failure.None? && active ==> schema.decode(c.encoded) == Success(c.visible)
    ensures c.failure.Some? ==> c.visible == visible && c.failure.value.Tagged? && c.failure.value.err.cause.ParseError?
    ensures c.failure.Some? ==> c.failure.value.err.variant.SchemaParse? && c.failure.value.err.payload == Payload(c.failure.value.err.variant.issue.tree, visible)
  {
    if !active then Cycle(encoded, visible, None)
    else
      var base := if IsNullish(encoded) then schema.encode(visible) else Success(encoded);
      match base
      case Failure(i) => Cycle(encoded, visible, Some(SchemaFailure(EncodeMessage, visible, i)))
      case Success(b) =>
        var updated := patch(b);
        match schema.decode(updated)
        case Failure(i) => Cycle(updated, visible, Some(SchemaFailure(DecodeMessage, visible, i)))
        case Success(v) => Cycle(updated, v, None)
  }

  /** The patch applies to the cache when there is one, and to the encoded visible value otherwise. */
  function PatchBase(schema: Codec, encoded: Value, visible: Value): (r: Result<Value, Issue>)
    ensures IsNullish(encoded) ==> r == schema.encode(visible)
    ensures !IsNullish(encoded) && Consistent(schema, encoded, visible) ==>
      r.Success? && schema.decode(r.value) == Success(visible)
  {
    if IsNullish(encoded) then schema.encode(visible) else Success(encoded)
  }

  /** The cache agrees with the visible value: it is empty, or it decodes to the visible value. */
  predicate Consistent(schema: Codec, encoded: Value, visible: Value) {
    IsNullish(encoded) || schema.decode(encoded) == Success(visible)
  }

  /**
   * An accepted patch sets the cache to the patched base and the visible value to its decoding,
   * and leaves the two consistent.
   */
  lemma AcceptedPatch(schema: Codec, encoded: Value, visible: Value, patch: Value -> Value)
    requires PatchBase(schema, encoded, visible).Success?
    requires schema.decode(patch(PatchBase(schema, encoded, visible).value)).Success?
    ensures var updated := patch(PatchBase(schema, encoded, visible).value);
      UpdateCycle(schema, true, encoded, visible, patch) == Cycle(updated, schema.decode(updated).value, None) &&
      Consistent(schema, updated, schema.decode(updated).value)
  {
  }

  /**
   * A rejected patch leaves the visible value alone but the cache holds the rejected encoding,
   * and the error is a SchemaParseError with the decode message whose data is the visible value.
   */
  lemma RejectedPatchKeepsRejectedEncoding(schema: Codec, encoded: Value, visible: Value, patch: Value -> Value)
    requires PatchBase(schema, encoded, visible).Success?
    requires schema.decode(patch(PatchBase(schema, encoded, visible).value)).Failure?
    ensures var updated := patch(PatchBase(schema, encoded, visible).value);
      var c := UpdateCycle(schema, true, encoded, visible, patch);
      c.encoded == updated && c.visible == visible &&
      c.failure == Some(SchemaFailure(DecodeMessage, visible, schema.decode(updated).error))
  {
  }

  /** When the visible value cannot be encoded, nothing changes and the error carries the encode message. */
  lemma EncodeFailureChangesNothing(schema: Codec, visible: Value, patch: Value -> Value, encoded: Value)
    requires IsNullish(encoded) && schema.encode(visible).Failure?
    ensures UpdateCycle(schema, true, encoded, visible, patch) ==
      Cycle(encoded, visible, Some(SchemaFailure(EncodeMessage, visible, schema.encode(visible).error)))
  {
  }

  /** The counter's local state `{count: 1}`, cached. */
  const CounterOne: Value := Record(map["count" := Num(1)])

  /** A patch that writes a string where the counter's schema wants a number. */
  function BreakCount(v: Value): Value {
    if v.Record? then Record(v.fields["count" := Str("one")]) else v
  }

  /**
   * Writing the cache before decoding breaks the agreement of cache and visible value: with the
   * counter schema, one rejected patch leaves a cache that no longer decodes to what is shown,
   * and the next patch is applied to that rejected encoding.
   */
  lemma RejectedPatchBreaksConsistency()
    ensures Consistent(StructCodec(CounterStateFields), CounterOne, CounterOne)
    ensures var c := UpdateCycle(StructCodec(CounterStateFields), true, CounterOne, CounterOne, BreakCount);
      c.failure.Some? && c.visible == CounterOne &&
      !Consistent(StructCodec(CounterStateFields), c.encoded, c.visible) &&
      PatchBase(StructCodec(CounterStateFields), c.encoded, c.visible) == Success(BreakCount(CounterOne))
  {
    CounterOneDecodes();
    BrokenCountRejected();
    assert BreakCount(CounterOne) != Undefined && BreakCount(CounterOne) != Null;
  }

  /** `{count: 1}` fits the counter schema and decodes to itself. */
  lemma CounterOneDecodes()
    ensures DecodeStruct(CounterStateFields, CounterOne) == Success(CounterOne)
  {
    var fields := CounterStateFields;
    assert Names(fields) == {"count"} by {
      assert fields[0].name == "count";
    }
    assert Conforms(fields, CounterOne) by {
      assert Field(CounterOne, "count") == Num(1);
    }
    assert Restrict(fields, CounterOne).fields.Keys == CounterOne.fields.Keys;
    assert Restrict(fields, CounterOne) == CounterOne;
  }

  /** `{count: 'one'}` does not fit the counter schema. */
  lemma BrokenCountRejected()
    ensures DecodeStruct(CounterStateFields, BreakCount(CounterOne)).Failure?
  {
    var fields := CounterStateFields;
    var broken := BreakCount(CounterOne);
    assert Field(broken, "count") == Str("one");
    assert !KindAccepts(fields[0].kind, fields[0].name in broken.fields, Field(broken, fields[0].name));
  }
}
