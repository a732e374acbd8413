/** What `_base_or`, `Unknown.__or__`, `Union.__or__` and `Optional.__or__`
    promise, stated about `Merge`. None of the global laws (commutativity,
    idempotence) holds; the counterexamples are proved at the end. */
module BasicLaws {
  import opened Schemas
  import opened Algebra

  /** A variant whose own `__or__` ends in `_base_or` and whose content is not
      `None`: a non-null Atomic, an Array, a Record, a DynamicRecord or a
      UniformRecord. */
  predicate Fallback(a: Schema) {
    !IsUnionLike(a) && !HasNullContent(a)
  }

  /** Two operands for which `a | b` has no class-specific rule. */
  predicate NoOwnRule(a: Schema, b: Schema) {
    !(a.Array? && b.Array?) && !(IsRecordLike(a) && IsRecordLike(b))
    && !(a.UniformRecord? && b.UniformRecord?)
  }

  /** `Unknown() | e` is `e`, whatever `e` is. */
  lemma UnknownIsLeftIdentity(cfg: Settings, e: Schema)
    ensures Merge(cfg, Unknown, e) == Ok(e)
  {
  }

  /** `a | Unknown()` is `a` for every variant except a plain Union, which adds
      `Unknown()` as a member like any other operand. */
  lemma UnknownOnTheRight(cfg: Settings, a: Schema)
    ensures a.Union? ==> Merge(cfg, a, Unknown) == Ok(Union(a.members + {Unknown}))
    ensures !a.Union? ==> Merge(cfg, a, Unknown) == Ok(a)
  {
  }

  /** The fallback returns its left operand when the right one equals it or is
      `Unknown()`. */
  lemma FallbackKeepsLeft(cfg: Settings, a: Schema, e: Schema)
    requires !IsUnionLike(a) && (e == a || e.Unknown?)
    ensures BaseOr(cfg, a, e) == Ok(a)
  {
  }

  /** `Atomic(None) | y`: null with null stays null, an Optional is returned
      as it is, anything else (a plain Union included) is wrapped in Optional. */
  lemma NullOnTheLeft(cfg: Settings, y: Schema)
    ensures HasNullContent(y) ==> Merge(cfg, Null, y) == Ok(Null)
    ensures y.Optional? ==> Merge(cfg, Null, y) == Ok(y)
    ensures !HasNullContent(y) && !y.Optional? ==> Merge(cfg, Null, y) == Ok(Optional(y))
  {
  }

  /** A non-null fallback operand merged with a null right operand becomes
      Optional. */
  lemma NullOnTheRight(cfg: Settings, a: Schema)
    requires Fallback(a)
    ensures Merge(cfg, a, Null) == Ok(Optional(a))
  {
  }

  /** A non-null non-Union `a` merged with a Union swaps to `u | a`: a plain
      Union gains `a` as a member, `Optional(p)` becomes `Optional(p | a)`
      (or stays as it is when `a` is its payload). */
  lemma FallbackSwapsIntoUnion(cfg: Settings, a: Schema, u: Schema)
    requires Fallback(a) && IsUnionLike(u)
    ensures Merge(cfg, a, u) == Merge(cfg, u, a)
    ensures u.Union? ==> Merge(cfg, a, u) == Ok(Union(u.members + {a}))
    ensures u.Optional? && u.payload == a ==> Merge(cfg, a, u) == Ok(u)
    ensures u.Optional? && u.payload != a ==>
      Merge(cfg, a, u) == (match Merge(cfg, u.payload, a)
                           case Ok(m) => Ok(Optional(m))
                           case Err(e) => Err(e))
  {
    assert BaseOr(cfg, a, u) == Merge(cfg, u, a);
  }

  /** Two distinct non-null, non-Union operands without a class-specific rule
      form the two-member Union, in either order. */
  lemma DistinctFormUnion(cfg: Settings, a: Schema, b: Schema)
    requires Fallback(a) && Fallback(b) && NoOwnRule(a, b) && a != b
    ensures Merge(cfg, a, b) == Ok(Union({a, b}))
    ensures Merge(cfg, b, a) == Merge(cfg, a, b)
  {
    assert {b, a} == {a, b};
  }

  /** `Union(s) | e` for a non-Union `e` is set insertion: no recursive merge,
      no special case for null or Unknown, and an existing member is not
      added twice. */
  lemma UnionInsertion(cfg: Settings, s: set<Schema>, e: Schema)
    requires !IsUnionLike(e)
    ensures Merge(cfg, Union(s), e) == Ok(Union(s + {e}))
    ensures e in s ==> Merge(cfg, Union(s), e) == Ok(Union(s))
  {
    if e in s {
      assert s + {e} == s;
    }
  }

  /** A plain Union merged with a Union or an Optional raises TypeError, except
      for a Union with no members at all. */
  lemma UnionOperandRaises(cfg: Settings, s: set<Schema>, u: Schema)
    requires IsUnionLike(u)
    ensures u.Union? && u.members == {} ==> Merge(cfg, Union(s), u) == Ok(Union(s))
    ensures u.Optional? || u.members != {} ==> Merge(cfg, Union(s), u) == Err(TypeError)
  {
  }

  /** `Optional(x) | e` keeps `Optional(x)` when `e` has null content, equals
      it, or equals `x`. */
  lemma OptionalAbsorbs(cfg: Settings, x: Schema, e: Schema)
    requires HasNullContent(e) || e == Optional(x) || e == x
    ensures Merge(cfg, Optional(x), e) == Ok(Optional(x))
  {
  }

  /** Otherwise the payload is merged with the other side's payload (for an
      Optional) or with the operand itself, and the result is re-wrapped. */
  lemma OptionalMergesPayload(cfg: Settings, x: Schema, e: Schema)
    requires !HasNullContent(e) && e != Optional(x) && e != x
    ensures var inner := if e.Optional? then e.payload else e;
      Merge(cfg, Optional(x), e) == (match Merge(cfg, x, inner)
                                     case Ok(m) => Ok(Optional(m))
                                     case Err(err) => Err(err))
  {
  }

  /** The cases of `tests/test_schema_objs.py` that involve only Atomic,
      Optional and Union. */
  lemma BasicOracles(cfg: Settings)
    ensures Merge(cfg, IntS, FloatS) == Ok(Union({IntS, FloatS}))
    ensures Merge(cfg, FloatS, IntS) == Ok(Union({IntS, FloatS}))
    ensures Merge(cfg, Union({FloatS, IntS}), IntS) == Ok(Union({IntS, FloatS}))
    ensures Merge(cfg, Null, IntS) == Ok(Optional(IntS))
    ensures Merge(cfg, Optional(IntS), IntS) == Ok(Optional(IntS))
    ensures Merge(cfg, Optional(FloatS), IntS) == Ok(Optional(Union({FloatS, IntS})))
    ensures Merge(cfg, Optional(FloatS), Optional(IntS)) == Ok(Optional(Union({FloatS, IntS})))
    ensures Merge(cfg, IntS, Optional(FloatS)) == Ok(Optional(Union({FloatS, IntS})))
    ensures Merge(cfg, IntS, Union({FloatS, IntS})) == Ok(Union({IntS, FloatS}))
  {
    assert {FloatS, IntS} == {IntS, FloatS};
    assert {FloatS, IntS} + {IntS} == {IntS, FloatS};
  }

  /** `|` is not commutative: a Union absorbs null as a third member, while
      null on the left wraps the Union in Optional. */
  lemma NullAndUnionDoNotCommute(cfg: Settings)
    ensures Merge(cfg, Union({IntS, FloatS}), Null) == Ok(Union({IntS, FloatS, Null}))
    ensures Merge(cfg, Null, Union({IntS, FloatS})) == Ok(Optional(Union({IntS, FloatS})))
    ensures Merge(cfg, Union({IntS, FloatS}), Null) != Merge(cfg, Null, Union({IntS, FloatS}))
  {
    assert {IntS, FloatS} + {Null} == {IntS, FloatS, Null};
  }

  /** `|` is not idempotent on Unions: `u | u` raises for any non-empty Union. */
  lemma UnionSelfMergeRaises(cfg: Settings, s: set<Schema>)
    requires s != {}
    ensures Merge(cfg, Union(s), Union(s)) == Err(TypeError)
  {
  }
}
