/** `isTaggedError`: recognising tagged errors generically, by tag, or by class. */
module ErrorIs {
  import opened Values

  /** The argument of `isTaggedError`: nothing, a tag, or a tagged-error class. */
  datatype Query = AnyTag | TagQuery(tag: string) | ClassQuery(cls: ClassInfo)

  /** A tag query is prefixed with `@error/` unless it already carries the prefix. */
  function Normalise(t: string): (n: string)
    ensures StartsWith(n, ErrorPrefix)
    ensures StartsWith(t, ErrorPrefix) ==> n == t
    ensures !StartsWith(t, ErrorPrefix) ==> n == ErrorPrefix + t
  {
    if StartsWith(t, ErrorPrefix) then t else ErrorPrefix + t
  }

  /** The value's constructor (the class itself for a class value) carries the error marker. */
  predicate Marked(v: Value) {
    match v
    case Tagged(e) => e.marker
    case ClassRef(c) => c.marker
    case _ => false
  }

  /** The predicate `isTaggedError(q)` applied to `v`. */
  predicate IsTaggedError(q: Query, v: Value)
    ensures IsTaggedError(q, v) ==> (IsObject(v) || v.ClassRef?) && Marked(v)
    ensures q.AnyTag? ==> (IsTaggedError(q, v) <==> (IsObject(v) || v.ClassRef?) && Marked(v))
  {
    if !IsObject(v) && !v.ClassRef? then false
    else if !Marked(v) then false
    else match q
      // a missing argument and the empty string are both falsy
      case AnyTag => true
      case TagQuery(t) =>
        if t == "" then true
        else if v.ClassRef? then v.cls.classTag == Str(Normalise(t))
        else v.Tagged? && StartsWith(v.err.tag, ErrorPrefix) && v.err.protoName == Normalise(t)
      case ClassQuery(c) => v.Tagged? && c.id in v.err.classIds
  }

  /** A value that is neither an object nor a class is never a tagged error. */
  lemma PrimitiveNeverTagged(q: Query, v: Value)
    requires !IsObject(v)
    ensures !IsTaggedError(q, v)
  {
  }

  /** Without the class-level marker the answer is no, whatever the query. */
  lemma UnmarkedNeverTagged(q: Query, v: Value)
    requires !Marked(v)
    ensures !IsTaggedError(q, v)
  {
  }

  /** With no argument exactly the marked values are accepted. */
  lemma AnyTagIsMarker(v: Value)
    ensures IsTaggedError(AnyTag, v) <==> Marked(v)
  {
  }

  /** `t` and `@error/t` are the same query, for a non-empty `t` without the prefix. */
  lemma PrefixedQueryEquivalent(t: string, v: Value)
    requires t != "" && !StartsWith(t, ErrorPrefix)
    ensures IsTaggedError(TagQuery(t), v) == IsTaggedError(TagQuery(ErrorPrefix + t), v)
  {
    var p := ErrorPrefix + t;
    assert p[..|ErrorPrefix|] == ErrorPrefix;
    assert Normalise(p) == p;
  }

  /** A marked instance matches a non-empty tag iff its `_tag` carries the prefix and its prototype name is the normalised tag. */
  lemma InstanceTagMatch(t: string, e: TaggedError)
    requires e.marker && t != ""
    ensures IsTaggedError(TagQuery(t), Tagged(e)) <==>
              StartsWith(e.tag, ErrorPrefix) && e.protoName == Normalise(t)
  {
  }

  /** A marked class matches a non-empty tag iff its `__tag__` is the normalised tag. */
  lemma ClassTagMatch(t: string, c: ClassInfo)
    requires c.marker && t != ""
    ensures IsTaggedError(TagQuery(t), ClassRef(c)) <==> c.classTag == Str(Normalise(t))
  {
  }

  /** Given a class, the answer is `instanceof` membership: never for a class value itself. */
  lemma ClassQueryIsInstanceOf(c: ClassInfo, v: Value)
    ensures IsTaggedError(ClassQuery(c), v) <==> Marked(v) && v.Tagged? && c.id in v.err.classIds
  {
  }

  /** The empty tag is falsy, so it accepts every marked value like a missing argument. */
  lemma EmptyTagActsAsNoArgument(v: Value)
    ensures IsTaggedError(TagQuery(""), v) == IsTaggedError(AnyTag, v)
  {
  }
}
