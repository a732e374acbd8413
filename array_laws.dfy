/** What `Array.__or__` promises: the contents of two Arrays are merged,
    anything else goes through the fallback. */
module ArrayLaws {
  import opened Schemas
  import opened Algebra

  /** `Array(x) | Array(y)` is `Array(x | y)`, and raises when `x | y` does. */
  lemma ArrayPointwise(cfg: Settings, x: Schema, y: Schema)
    ensures Merge(cfg, Array(x), Array(y)).Ok? <==> Merge(cfg, x, y).Ok?
    ensures Merge(cfg, x, y).Ok? ==> Merge(cfg, Array(x), Array(y)) == Ok(Array(Merge(cfg, x, y).value))
  {
  }

  /** An Array of nothing seen yet takes the other Array's content. */
  lemma UnknownContentIsNeutral(cfg: Settings, y: Schema)
    ensures Merge(cfg, Array(Unknown), Array(y)) == Ok(Array(y))
  {
  }

  /** Merging an Array with itself returns it exactly when its content merges
      with itself to the same content. */
  lemma ArraySelfMerge(cfg: Settings, x: Schema)
    ensures Merge(cfg, Array(x), Array(x)) == Ok(Array(x)) <==> Merge(cfg, x, x) == Ok(x)
  {
  }

  /** Non-Array right operands: `Unknown` leaves the Array as it is, null makes
      it Optional, a Union operand swaps, any other variant forms a two-member
      Union. */
  lemma ArrayFallback(cfg: Settings, x: Schema, e: Schema)
    requires !e.Array?
    ensures e.Unknown? ==> Merge(cfg, Array(x), e) == Ok(Array(x))
    ensures e == Null ==> Merge(cfg, Array(x), e) == Ok(Optional(Array(x)))
    ensures IsUnionLike(e) ==> Merge(cfg, Array(x), e) == Merge(cfg, e, Array(x))
    ensures !HasNullContent(e) && !IsUnionLike(e) ==> Merge(cfg, Array(x), e) == Ok(Union({Array(x), e}))
  {
  }

  /** The Array cases of `tests/test_schema_objs.py`. */
  lemma ArrayOracles(cfg: Settings)
    ensures var fl := Atomic(Some(Float));
      && Merge(cfg, Array(fl), Array(Optional(fl))) == Ok(Array(Optional(fl)))
      && Merge(cfg, Array(Unknown), Array(fl)) == Ok(Array(fl))
      && Merge(cfg, Array(fl), Array(fl)) == Ok(Array(fl))
      && Merge(cfg, Array(fl), Atomic(Some(Int))) == Ok(Union({Array(fl), Atomic(Some(Int))}))
  {
  }
}
