/**
 * The concrete schemas the core declares itself: the payload structs of the built-in
 * errors, `Schema.Object`, `Schema.Never`, and the struct schemas of the welcome
 * counter used as scenarios. Every field kind here decodes and encodes to the same
 * value, so a struct codec decodes and encodes by the same rule: the input must be a
 * plain object whose declared fields have the declared kinds, and the output keeps
 * only the declared keys.
 */
module StructSchemas {
  import opened Wrappers
  import opened Values

  datatype FieldKind =
    | Text                          // Schema.String
    | Number                        // Schema.Number
    | Literal(options: set<string>) // Schema.Literal(...)
    | OptionalUnknown               // Schema.optional(Schema.Unknown)
    | ExitField                     // Schema.ExitFromSelf(...)

  datatype StructField = StructField(name: string, kind: FieldKind)

  /** A field value has the field's kind (`present` says whether the key exists). */
  predicate KindAccepts(k: FieldKind, present: bool, v: Value) {
    match k
    case Text => present && v.Str?
    case Number => present && v.Num?
    case Literal(opts) => present && v.Str? && v.s in opts
    case OptionalUnknown => true
    case ExitField => present && v.ExitValue?
  }

  /** The declared keys. */
  function Names(fields: seq<StructField>): (ns: set<string>)
    ensures forall i :: 0 <= i < |fields| ==> fields[i].name in ns
    ensures forall n :: n in ns ==> exists i :: 0 <= i < |fields| && fields[i].name == n
  {
    set i | 0 <= i < |fields| :: fields[i].name
  }

  /** The value is a plain object whose declared fields all have their declared kinds. */
  predicate Conforms(fields: seq<StructField>, v: Value) {
    v.Record? &&
    forall i :: 0 <= i < |fields| ==>
      KindAccepts(fields[i].kind, fields[i].name in v.fields, Field(v, fields[i].name))
  }

  /** The issue a non-conforming value is rejected with. */
  function StructIssue(v: Value): Issue {
    Issue("Expected a value of the declared struct", v)
  }

  /** The value with every undeclared key dropped. */
  function Restrict(fields: seq<StructField>, v: Value): (r: Value)
    requires v.Record?
    ensures r.Record? && r.fields.Keys == v.fields.Keys * Names(fields)
    ensures forall k :: k in r.fields ==> r.fields[k] == v.fields[k]
  {
    var ns := Names(fields);
    Record(map k | k in v.fields && k in ns :: v.fields[k])
  }

  /** Decoding (and, for these field kinds, encoding) against a struct. */
  function DecodeStruct(fields: seq<StructField>, v: Value): (r: Result<Value, Issue>)
    ensures r.Success? <==> Conforms(fields, v)
    ensures r.Success? ==> r.value.Record? && r.value.fields.Keys <= Names(fields)
    ensures r.Success? ==> r.value == Restrict(fields, v)
  {
    if Conforms(fields, v) then Success(Restrict(fields, v)) else Failure(StructIssue(v))
  }

  function StructCodec(fields: seq<StructField>): Codec {
    Codec((v: Value) => DecodeStruct(fields, v), (v: Value) => DecodeStruct(fields, v))
  }

  /** A conforming object is kept, minus undeclared keys, and what decoding yields decodes to itself. */
  lemma {:induction false} DecodeStructIdempotent(fields: seq<StructField>, v: Value)
    requires DecodeStruct(fields, v).Success?
    ensures DecodeStruct(fields, DecodeStruct(fields, v).value) == DecodeStruct(fields, v)
  {
    var d := Restrict(fields, v);
    forall i | 0 <= i < |fields|
      ensures KindAccepts(fields[i].kind, fields[i].name in d.fields, Field(d, fields[i].name))
    {
      var n := fields[i].name;
      assert n in Names(fields);
      assert (n in d.fields) == (n in v.fields);
      assert Field(d, n) == Field(v, n);
    }
    assert Conforms(fields, d);
    var dd := Restrict(fields, d);
    assert dd.fields.Keys == d.fields.Keys;
    assert dd == d;
  }

  /** A codec obeys the round-trip law: whatever decodes re-encodes, and the encoding decodes back to it. */
  ghost predicate Lawful(c: Codec) {
    forall v: Value :: c.decode(v).Success? ==>
      c.encode(c.decode(v).value).Success? &&
      c.decode(c.encode(c.decode(v).value).value) == c.decode(v)
  }

  /** Every struct codec obeys the round-trip law. */
  lemma StructCodecLawful(fields: seq<StructField>)
    ensures Lawful(StructCodec(fields))
  {
    var c := StructCodec(fields);
    forall v: Value | c.decode(v).Success?
      ensures c.encode(c.decode(v).value).Success? &&
              c.decode(c.encode(c.decode(v).value).value) == c.decode(v)
    {
      DecodeStructIdempotent(fields, v);
      var d := DecodeStruct(fields, v).value;
      DecodeStructIdempotent(fields, d);
    }
  }

  /** `Schema.Object`: any object decodes to itself. */
  function ObjectSchema(): Codec {
    Codec(
      (v: Value) => if IsObject(v) then Success(v) else Failure(Issue("Expected object", v)),
      (v: Value) => if IsObject(v) then Success(v) else Failure(Issue("Expected object", v)))
  }

  /** `Schema.Never`: nothing decodes. */
  function NeverSchema(): Codec {
    Codec(
      (v: Value) => Failure(Issue("Expected never", v)),
      (v: Value) => Failure(Issue("Expected never", v)))
  }

  /** Payload of SchemaParseError: `{issue: string, data?: unknown}`. */
  const SchemaParseFields: seq<StructField> :=
    [StructField("issue", Text), StructField("data", OptionalUnknown)]

  /** Payload of EventDispatchError: `{event: string, data?: unknown}`. */
  const EventDispatchFields: seq<StructField> :=
    [StructField("event", Text), StructField("data", OptionalUnknown)]

  /** Payload of EventHandlerError: `{event: string, handler: string, data?: unknown}`. */
  const EventHandlerFields: seq<StructField> :=
    [StructField("event", Text), StructField("handler", Text), StructField("data", OptionalUnknown)]

  /** Payload of UnexpectedRuntimeExitResultError: `{result: Exit}`. */
  const UnexpectedExitFields: seq<StructField> := [StructField("result", ExitField)]

  /** The welcome counter's broadcast event: `{id: 'counter_one' | 'counter_two', count: number}`. */
  const CounterEventFields: seq<StructField> :=
    [StructField("id", Literal({"counter_one", "counter_two"})), StructField("count", Number)]

  /** The welcome counter button's local state: `{count: number}`. */
  const CounterStateFields: seq<StructField> := [StructField("count", Number)]
}
