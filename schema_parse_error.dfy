/**
 * `SchemaParseError` (tag `@error/schema_parse`), its `fromParseError`, its overridden
 * `toString`/`toJSON`, and the `toSchemaParseError` combinator that turns a schema
 * failure of an effect into one.
 */
module SchemaParseErrors {
  import opened Wrappers
  import opened ErrorCodes
  import opened Values
  import opened ErrorIs
  import opened StructSchemas
  import opened TaggedErrors

  /** The class: code `E_SCHEMA_PARSE_ERROR`, its metadata message, and the `{issue, data?}` schema. */
  const SchemaParseClass: ErrorClass :=
    DefineErrorClass("SchemaParseError", "schema_parse", E_SCHEMA_PARSE_ERROR, Message(E_SCHEMA_PARSE_ERROR), true)

  function PayloadSchema(): Codec {
    StructCodec(SchemaParseFields)
  }

  /** The payload that records an issue rendering and the offending data. */
  function Payload(tree: string, data: Value): Value {
    Record(map["issue" := Str(tree), "data" := data])
  }

  /** The draft update that writes the tree rendering into the payload's `issue`. */
  function SetIssue(tree: string): Value -> Value {
    (d: Value) => if d.Record? then Record(d.fields["issue" := Str(tree)]) else d
  }

  /**
   * `new SchemaParseError(issue, data?, message?, options?)`: constructed with payload
   * `{issue: '', data}`, then updated so that `issue` holds the tree rendering.
   */
  function New(issue: Issue, data: Value, message: Option<string>, o: Options): (e: TaggedError)
    ensures e.payload == Payload(issue.tree, data)
    ensures e.variant == SchemaParse(issue) && e.hasSchema
    ensures e.tag == ErrorPrefix + "schema_parse"
    ensures e.code == o.code.GetOr(E_SCHEMA_PARSE_ERROR)
    ensures e.message == message.GetOr(Message(E_SCHEMA_PARSE_ERROR))
    ensures e.cause == DefaultTo(o.cause, Undefined)
    ensures IsTaggedError(ClassQuery(SchemaParseClass.info), Tagged(e))
    ensures IsTaggedError(TagQuery("schema_parse"), Tagged(e))
  {
    OptionsValueWellTyped(o);
    var initial := Payload("", data);
    var base := Construct(SchemaParseClass, initial, StrOrUndefined(message), OptionsValue(o));
    assert SetIssue(issue.tree)(initial).fields == map["issue" := Str(issue.tree), "data" := data];
    var e := Updated(base, Some(SetIssue(issue.tree))).(variant := SchemaParse(issue));
    assert "schema_parse"[0] != ErrorPrefix[0];
    InstanceMatchesOwnTag("schema_parse", e);
    e
  }

  /** `SchemaParseError.fromParseError(data?, message?, options?)(error)`: the parse error becomes the cause. */
  function FromParseError(data: Value, message: Option<string>, code: Option<ErrorCode>, error: Value): (e: TaggedError)
    requires error.ParseError?
    ensures e == New(error.issue, data, message, Options(code, error))
    ensures e.cause == error && e.variant == SchemaParse(error.issue)
  {
    New(error.issue, data, message, Options(code, error))
  }

  /** The overridden `toString`: the base rendering, a newline, and the issue's tree rendering. */
  function ToString(e: TaggedError): (s: string)
    requires e.variant.SchemaParse?
    ensures |s| > |TaggedErrors.ToString(e)| && s[..|TaggedErrors.ToString(e)|] == TaggedErrors.ToString(e)
    ensures s[|TaggedErrors.ToString(e)|] == '\n' && s[|TaggedErrors.ToString(e)| + 1..] == e.variant.issue.tree
  {
    TaggedErrors.ToString(e) + "\n" + e.variant.issue.tree
  }

  /** The rendering still reads back, with the tree rendering as a second line of the message. */
  lemma ToStringParses(e: TaggedError)
    requires e.variant.SchemaParse?
    ensures ParseRendered(ToString(e), e.tag) == Some(Rendered(e.code, e.message + "\n" + e.variant.issue.tree))
  {
    var e' := e.(message := e.message + "\n" + e.variant.issue.tree);
    TaggedErrors.ToStringParses(e');
    assert TaggedErrors.ToString(e') == ToString(e);
  }

  /** The overridden `toJSON`: the base JSON plus `issue`, the array rendering of the issue. */
  function ToJson(e: TaggedError): (r: Result<Value, Issue>)
    requires e.variant.SchemaParse?
    ensures r.Success? <==> TaggedErrors.ToJson(e, PayloadSchema()).Success?
    ensures r.Success? ==> r.value.Record? && r.value.fields.Keys == JsonKeys + {"issue"}
    ensures r.Success? ==> r.value.fields["issue"] == e.variant.issue.entries
  {
    match TaggedErrors.ToJson(e, PayloadSchema())
    case Failure(i) => Failure(i)
    case Success(j) => Success(Record(j.fields["issue" := e.variant.issue.entries]))
  }

  /**
   * An error built by `New` always serialises: its payload fits the schema, so `data()` yields
   * the payload and `toJSON().data` is the payload again.
   */
  lemma NewSerialises(issue: Issue, data: Value, message: Option<string>, o: Options)
    ensures var e := New(issue, data, message, o);
      Data(e, PayloadSchema()) == Success(Some(e.payload)) &&
      ToJson(e).Success? && ToJson(e).value.fields["data"] == e.payload &&
      ToJson(e).value.fields["issue"] == issue.entries &&
      ToJson(e).value.fields["message"] == Str(e.message)
  {
    var e := New(issue, data, message, o);
    PayloadDecodes(issue.tree, data);
    assert PayloadSchema().decode(e.payload) == Success(e.payload);
    assert PayloadSchema().encode(e.payload) == Success(e.payload);
  }

  /** A payload of this shape fits the schema and decodes to itself. */
  lemma PayloadDecodes(tree: string, data: Value)
    ensures DecodeStruct(SchemaParseFields, Payload(tree, data)) == Success(Payload(tree, data))
  {
    var p := Payload(tree, data);
    assert Conforms(SchemaParseFields, p) by {
      assert Field(p, "issue") == Str(tree);
    }
    var d := Restrict(SchemaParseFields, p);
    assert Names(SchemaParseFields) == {"issue", "data"} by {
      assert SchemaParseFields[0].name == "issue" && SchemaParseFields[1].name == "data";
    }
    assert d.fields.Keys == p.fields.Keys;
    assert d == p;
  }

  /**
   * `toSchemaParseError(message?, data?)`: a failure with a ParseError becomes a
   * SchemaParseError carrying the issue, the data and the message; success and other
   * failures pass through.
   */
  function ToSchemaParseError<A>(message: Option<string>, data: Value, r: Result<A, Value>): (q: Result<A, Value>)
    ensures r.Success? ==> q == r
    ensures r.Failure? && !r.error.ParseError? ==> q == r
    ensures r.Failure? && r.error.ParseError? ==>
      q == Failure(Tagged(FromParseError(data, message, None, r.error)))
  {
    match r
    case Failure(err) => if err.ParseError? then Failure(Tagged(FromParseError(data, message, None, err))) else r
    case Success(_) => r
  }

  /** A schema result turned into an effect failure and converted fails with a SchemaParseError about its issue. */
  lemma SchemaFailureBecomesSchemaParseError<A>(message: Option<string>, data: Value, r: Result<A, Issue>)
    requires r.Failure?
    ensures var q := ToSchemaParseError(message, data, AsParseFailure(r));
      q.Failure? && q.error.Tagged? && q.error.err.variant == SchemaParse(r.error) &&
      q.error.err.payload == Payload(r.error.tree, data) && q.error.err.cause == ParseError(r.error)
  {
  }
}
