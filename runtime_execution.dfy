/**
 * `UnexpectedRuntimeExitResultError`, `handleRuntimeExitResult` and the defect handling of
 * `manageEffect`, over the exit an effect finished with.
 */
module RuntimeExecution {
  import opened Wrappers
  import opened ErrorCodes
  import opened Values
  import opened ErrorIs
  import opened StructSchemas
  import opened TaggedErrors
  import opened ErrorConversion

  /** The class: code `E_UNEXPECTED_RUNTIME_EXIT_RESULT`, its metadata message, payload `{result: Exit}`. */
  const UnexpectedExitClass: ErrorClass :=
    DefineErrorClass("UnexpectedRuntimeExitResultError", "unexpected_runtime_exit_result",
                     E_UNEXPECTED_RUNTIME_EXIT_RESULT, Message(E_UNEXPECTED_RUNTIME_EXIT_RESULT), true)

  /** `new UnexpectedRuntimeExitResultError({result: exit})`. */
  function UnexpectedExit(exit: Exit): (e: TaggedError)
    ensures e.payload == Record(map["result" := ExitValue(exit)])
    ensures e.code == E_UNEXPECTED_RUNTIME_EXIT_RESULT && e.message == Message(E_UNEXPECTED_RUNTIME_EXIT_RESULT)
    ensures IsTaggedError(ClassQuery(UnexpectedExitClass.info), Tagged(e))
  {
    assert OptionsWellTyped(Undefined);
    Construct(UnexpectedExitClass, Record(map["result" := ExitValue(exit)]), Undefined, Undefined)
  }

  /** Its `data()` gives back the exit it was built from. */
  lemma UnexpectedExitData(exit: Exit)
    ensures Data(UnexpectedExit(exit), StructCodec(UnexpectedExitFields)) == Success(Some(Record(map["result" := ExitValue(exit)])))
  {
    var p := Record(map["result" := ExitValue(exit)]);
    assert Field(p, "result") == ExitValue(exit);
    assert Names(UnexpectedExitFields) == {"result"} by {
      assert UnexpectedExitFields[0].name == "result";
    }
    assert Restrict(UnexpectedExitFields, p).fields.Keys == p.fields.Keys;
    assert Restrict(UnexpectedExitFields, p) == p;
  }

  /** What running to completion does: return a value or throw one. */
  datatype Outcome = Returned(value: Value) | Thrown(error: Value)

  /**
   * `handleRuntimeExitResult(exit)`: a failure throws its error as it is (checked first), a defect
   * throws it converted to a known error, success returns the value, and any other exit throws an
   * UnexpectedRuntimeExitResultError about the exit.
   */
  function HandleRuntimeExitResult(exit: Exit): (o: Outcome)
    ensures o.Returned? <==> exit.ExitSuccess?
    ensures o.Returned? ==> o.value == exit.value
    ensures exit.ExitFailure? && exit.cause.Fail? ==> o == Thrown(exit.cause.error)
    ensures exit.ExitFailure? && exit.cause.Die? ==> o.Thrown? && o.error == ToKnown(exit.cause.defect) && IsTaggedError(AnyTag, o.error)
    ensures exit.ExitFailure? && !exit.cause.Fail? && !exit.cause.Die? ==>
      o == Thrown(Tagged(UnexpectedExit(exit))) && IsTaggedError(TagQuery("unexpected_runtime_exit_result"), o.error)
  {
    if exit.ExitFailure? && exit.cause.Fail? then Thrown(exit.cause.error)
    else if exit.ExitFailure? && exit.cause.Die? then Thrown(ToKnown(exit.cause.defect))
    else if exit.ExitSuccess? then Returned(exit.value)
    else
      var e := UnexpectedExit(exit);
      assert "unexpected_runtime_exit_result"[0] != ErrorPrefix[0];
      InstanceMatchesOwnTag("unexpected_runtime_exit_result", e);
      Thrown(Tagged(e))
  }

  /** Whatever is thrown is a tagged error, except a failure's own error, which is thrown unchanged. */
  lemma ThrownIsTaggedUnlessFailure(exit: Exit)
    requires HandleRuntimeExitResult(exit).Thrown?
    requires !(exit.ExitFailure? && exit.cause.Fail?)
    ensures IsTaggedError(AnyTag, HandleRuntimeExitResult(exit).error)
  {
  }

  /** `catchAllDefect(defect => fail(toKnownErrorOrConvertUnknown(defect)))` on the exit of the managed effect. */
  function ManageEffect(exit: Exit): (r: Exit)
    ensures !(r.ExitFailure? && r.cause.Die?)
    ensures exit.ExitFailure? && exit.cause.Die? ==> r == ExitFailure(Fail(ToKnown(exit.cause.defect)))
    ensures !(exit.ExitFailure? && exit.cause.Die?) ==> r == exit
  {
    if exit.ExitFailure? && exit.cause.Die? then ExitFailure(Fail(ToKnown(exit.cause.defect))) else exit
  }

  /**
   * Managing the effect first does not change what the handler does: a defect becomes a failure
   * carrying exactly the known error the handler would have thrown for it.
   */
  lemma ManagedOutcomeAgrees(exit: Exit)
    ensures HandleRuntimeExitResult(ManageEffect(exit)) == HandleRuntimeExitResult(exit)
  {
  }

  /** The error a cause's tap reads from its cell: a failure's error, a defect, or nothing. */
  function TappedError(cause: Cause): Value {
    match cause
    case Fail(e) => e
    case Die(d) => d
    case _ => Undefined
  }

  /**
   * The `tapErrorCause` step of `manageEffect`: the cause is put in a cell, a defect is replaced
   * there by a failure with the defect, the cell is read back as a failure, and its error is
   * what gets logged, converted to a known error unless it is one.
   */
  method LoggedError(cause: Cause) returns (logged: Value)
    ensures IsTaggedError(AnyTag, logged)
    ensures logged == ToKnown(TappedError(cause))
    ensures IsTaggedError(AnyTag, TappedError(cause)) ==> logged == TappedError(cause)
  {
    var causeRef := cause;
    if cause.Die? {
      causeRef := Fail(cause.defect);
    }
    // any other cause has no `error`, so the read gives undefined
    var error := if causeRef.Fail? then causeRef.error else Undefined;
    if IsTaggedError(AnyTag, error) {
      logged := error;
    } else {
      logged := ToKnown(error);
    }
  }
}
