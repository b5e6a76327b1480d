/** `inferCauseFromUnknownError`: the cause worth recording for a thrown value. */
module ErrorCause {
  import opened Wrappers
  import opened Values
  import opened ErrorIs

  /**
   * A tagged error (or tagged-error class) gives its cause, or itself when it has none; another
   * Error instance gives its own `cause` when that reports as an Error, or itself; anything
   * else has no cause.
   */
  function InferCause(v: Value): (r: Value)
    ensures r == Undefined <==> !(IsErrorInstance(v) || IsTaggedError(AnyTag, v))
    ensures IsTaggedError(AnyTag, v) && v.Tagged? ==> r == DefaultTo(v.err.cause, v)
    ensures IsTaggedError(AnyTag, v) && v.ClassRef? ==> r == v
    ensures !IsTaggedError(AnyTag, v) && IsErrorInstance(v) ==> r == v || ReportsErrorType(r)
  {
    if IsTaggedError(AnyTag, v) then
      // a class value has no `cause`, so it is its own cause
      if v.Tagged? then DefaultTo(v.err.cause, v) else v
    else match v
      case PlainError(_, _, own) =>
        if own.Some? && ReportsErrorType(own.value) then own.value else v
      case ParseError(_) => v
      case Tagged(e) =>
        // an unmarked instance still has its own `cause` property
        if ReportsErrorType(e.cause) then e.cause else v
      case _ => Undefined
  }

  /** A plain Error whose `cause` is an Error yields that cause; otherwise it is its own cause. */
  lemma PlainErrorCause(name: string, message: string, own: Option<Value>)
    ensures own.Some? && ReportsErrorType(own.value) ==> InferCause(PlainError(name, message, own)) == own.value
    ensures !(own.Some? && ReportsErrorType(own.value)) ==> InferCause(PlainError(name, message, own)) == PlainError(name, message, own)
  {
    assert !IsTaggedError(AnyTag, PlainError(name, message, own));
  }

  /** A tagged error without a cause is its own cause; with one, the cause is passed through. */
  lemma TaggedErrorCause(e: TaggedError)
    requires e.marker
    ensures IsNullish(e.cause) ==> InferCause(Tagged(e)) == Tagged(e)
    ensures !IsNullish(e.cause) ==> InferCause(Tagged(e)) == e.cause
  {
  }

  /**
   * For anything that is not a tagged error the inferred cause is, when present, an Error
   * instance, and reading the cause of that again changes nothing when it has no Error cause
   * of its own.
   */
  lemma UntaggedCauseIsError(v: Value)
    requires !IsTaggedError(AnyTag, v)
    ensures InferCause(v) == Undefined || IsErrorInstance(InferCause(v))
    ensures InferCause(v).ParseError? ==> InferCause(InferCause(v)) == InferCause(v)
  {
  }
}
