/** Shape invariants every schema the fitter builds satisfies, and that every
    successful merge keeps; and the self-merge law for schemas without Unions
    or DynamicRecords. */
module Invariants {
  import opened Schemas
  import opened Algebra
  import opened Reduction
  import opened RecordLaws

  /** - a Union has at least two members, none of them a Union or an Optional;
      - an Optional wraps a payload that is neither null, `Unknown()` nor
        another Optional;
      - a DynamicRecord counts exactly its field keys, each at least once. */
  predicate WellFormed(s: Schema)
    decreases s
  {
    match s
    case Unknown => true
    case Atomic(_) => true
    case Array(x) => WellFormed(x)
    case Record(f) => forall k :: k in f ==> WellFormed(f[k])
    case DynamicRecord(f, c) =>
      && c.Keys == f.Keys
      && (forall k :: k in c ==> c[k] >= 1)
      && (forall k :: k in f ==> WellFormed(f[k]))
    case UniformRecord(x) => WellFormed(x)
    case Union(ms) => |ms| >= 2 && forall m :: m in ms ==> !IsUnionLike(m) && WellFormed(m)
    case Optional(x) => !HasNullContent(x) && !x.Optional? && WellFormed(x)
  }

  /** Neither null, `Unknown()` nor Optional. */
  predicate Plain(s: Schema) {
    !HasNullContent(s) && !s.Optional?
  }

  /** Two operands that are neither null, `Unknown()` nor Optional merge into
      a schema that is none of these either: only a null or Optional operand
      makes a result Optional. */
  lemma PlainOperandsGivePlainResult(cfg: Settings, a: Schema, b: Schema)
    requires Plain(a) && Plain(b) && Merge(cfg, a, b).Ok?
    ensures Plain(Merge(cfg, a, b).value)
  {
    if !IsUnionLike(a) && IsUnionLike(b) {
      assert Merge(cfg, a, b) == Merge(cfg, b, a) by {
        if a.Record? && b.DynamicRecord? {
        } else if IsRecordLike(a) && IsRecordLike(b) {
        }
      }
    }
  }

  /** Merging well-formed schemas, when it does not raise, gives a well-formed
      schema. */
  lemma {:induction false} MergeKeepsWellFormed(cfg: Settings, a: Schema, b: Schema)
    requires WellFormed(a) && WellFormed(b) && Merge(cfg, a, b).Ok?
    ensures WellFormed(Merge(cfg, a, b).value)
    decreases Size(a) + Size(b), SwapRank(a, b), 2
  {
    match a
    case Unknown =>
    case Atomic(_) =>
      BaseOrKeepsWellFormed(cfg, a, b);
    case Array(x) =>
      if b.Array? {
        MergeKeepsWellFormed(cfg, x, b.content);
      } else {
        BaseOrKeepsWellFormed(cfg, a, b);
      }
    case Record(f) =>
      if b.DynamicRecord? {
        MergeKeepsWellFormed(cfg, b, a);
      } else if b.Record? && (f.Keys == b.fields.Keys || cfg.mode == Kind) {
        MergedFieldsKeepWellFormed(cfg, a, b);
      } else {
        BaseOrKeepsWellFormed(cfg, a, b);
      }
    case DynamicRecord(_, _) =>
      if IsRecordLike(b) {
        DynamicMergeKeepsWellFormed(cfg, a, b);
      } else {
        BaseOrKeepsWellFormed(cfg, a, b);
      }
    case UniformRecord(x) =>
      if b.UniformRecord? {
        MergeKeepsWellFormed(cfg, x, b.content);
      } else {
        BaseOrKeepsWellFormed(cfg, a, b);
      }
    case Union(_) =>
      UnionMergeKeepsWellFormed(cfg, a, b);
    case Optional(_) =>
      OptionalMergeKeepsWellFormed(cfg, a, b);
  }

  /** A DynamicRecord merged with a Record or a DynamicRecord: the counter
      has exactly the keys of the merged fields. */
  lemma {:induction false} DynamicMergeKeepsWellFormed(cfg: Settings, a: Schema, b: Schema)
    requires a.DynamicRecord? && IsRecordLike(b)
    requires WellFormed(a) && WellFormed(b) && Merge(cfg, a, b).Ok?
    ensures WellFormed(Merge(cfg, a, b).value)
    decreases Size(a) + Size(b), SwapRank(a, b), 1
  {
    MergedFieldsKeepWellFormed(cfg, a, b);
    var r := Merge(cfg, a, b).value;
    assert r.fields.Keys == a.fields.Keys + b.fields.Keys;
    if b.DynamicRecord? {
      assert r.counts.Keys == r.fields.Keys by {
        forall k ensures k in r.counts <==> k in r.fields {
          assert k in r.counts <==> Count(a.counts, k) + Count(b.counts, k) > 0;
        }
      }
    }
  }

  /** A Union absorbs its right operand, and stays one of at least two
      members. */
  lemma UnionMergeKeepsWellFormed(cfg: Settings, a: Schema, b: Schema)
    requires a.Union? && WellFormed(a) && WellFormed(b) && Merge(cfg, a, b).Ok?
    ensures WellFormed(Merge(cfg, a, b).value)
  {
    var s, r := a.members, Merge(cfg, a, b).value;
    if !b.Union? {
      assert r == Union(s + {b});
      if b in s {
        assert s + {b} == s;
      } else {
        assert |s + {b}| == |s| + 1;
      }
    }
  }

  /** An Optional merges its payload and keeps it plain. */
  lemma {:induction false} OptionalMergeKeepsWellFormed(cfg: Settings, a: Schema, b: Schema)
    requires a.Optional? && WellFormed(a) && WellFormed(b) && Merge(cfg, a, b).Ok?
    ensures WellFormed(Merge(cfg, a, b).value)
    decreases Size(a) + Size(b), SwapRank(a, b), 0
  {
    var x := a.payload;
    if !(HasNullContent(b) || a == b || x == b) {
      var inner := if b.Optional? then b.payload else b;
      MergeKeepsWellFormed(cfg, x, inner);
      PlainOperandsGivePlainResult(cfg, x, inner);
    }
  }

  lemma {:induction false} BaseOrKeepsWellFormed(cfg: Settings, a: Schema, e: Schema)
    requires !IsUnionLike(a) && WellFormed(a) && WellFormed(e) && BaseOr(cfg, a, e).Ok?
    ensures WellFormed(BaseOr(cfg, a, e).value)
    decreases Size(a) + Size(e), SwapRank(a, e), 0
  {
    if a == e || e.Unknown? || HasNullContent(a) || HasNullContent(e) {
    } else if IsUnionLike(e) {
      MergeKeepsWellFormed(cfg, e, a);
    } else {
      assert |{a, e}| == 2;
    }
  }

  lemma {:induction false} MergedFieldsKeepWellFormed(cfg: Settings, a: Schema, b: Schema)
    requires IsRecordLike(a) && IsRecordLike(b) && WellFormed(a) && WellFormed(b)
    requires MergedFields(cfg, a, b).Ok?
    ensures var m := MergedFields(cfg, a, b).value;
      m.Keys == a.fields.Keys + b.fields.Keys && forall k :: k in m ==> WellFormed(m[k])
    decreases Size(a) + Size(b), SwapRank(a, b), 0
  {
    FieldsSmaller(a);
    FieldsSmaller(b);
    var f, g := a.fields, b.fields;
    var outcomes := map k | k in f.Keys + g.Keys ::
      if k in f && k in g then Merge(cfg, f[k], g[k])
      else if k in f then Ok(f[k])
      else Ok(g[k]);
    assert MergedFields(cfg, a, b) == AllOk(outcomes);
    var m := MergedFields(cfg, a, b).value;
    forall k | k in m
      ensures WellFormed(m[k])
    {
      assert outcomes[k] == Ok(m[k]);
      if k in f && k in g {
        MergeKeepsWellFormed(cfg, f[k], g[k]);
      }
    }
  }

  /** Folding well-formed schemas, when it does not raise, gives a well-formed
      schema. */
  lemma {:induction false} FoldKeepsWellFormed(cfg: Settings, acc: Schema, rest: seq<Schema>)
    requires WellFormed(acc) && forall i :: 0 <= i < |rest| ==> WellFormed(rest[i])
    requires FoldFrom(cfg, acc, rest).Ok?
    ensures WellFormed(FoldFrom(cfg, acc, rest).value)
    decreases |rest|
  {
    if rest != [] {
      MergeKeepsWellFormed(cfg, acc, rest[0]);
      FoldKeepsWellFormed(cfg, Merge(cfg, acc, rest[0]).value, rest[1..]);
    }
  }

  lemma ReduceKeepsWellFormed(cfg: Settings, it: Iterable)
    requires forall i :: 0 <= i < |it.items| ==> WellFormed(it.items[i])
    requires ReduceSchema(cfg, it).Ok?
    ensures WellFormed(ReduceSchema(cfg, it).value)
  {
    if it.items != [] {
      FoldKeepsWellFormed(cfg, it.items[0], it.items[1..]);
    }
  }

  /** No Union and no DynamicRecord outside an Optional. */
  predicate SelfMergeable(s: Schema)
    decreases s
  {
    match s
    case Unknown => true
    case Atomic(_) => true
    case Optional(_) => true
    case Array(x) => SelfMergeable(x)
    case UniformRecord(x) => SelfMergeable(x)
    case Record(f) => forall k :: k in f ==> SelfMergeable(f[k])
    case DynamicRecord(_, _) => false
    case Union(_) => false
  }

  /** `s | s` is `s` when `s` has no Union and no DynamicRecord outside an
      Optional (a Union raises and a DynamicRecord doubles its counts). */
  lemma {:induction false} SelfMergeIsIdentity(cfg: Settings, s: Schema)
    requires SelfMergeable(s)
    ensures Merge(cfg, s, s) == Ok(s)
    decreases s
  {
    match s
    case Unknown =>
    case Atomic(_) =>
    case Optional(_) =>
    case Array(x) =>
      SelfMergeIsIdentity(cfg, x);
    case UniformRecord(x) =>
      SelfMergeIsIdentity(cfg, x);
    case Record(f) =>
      forall k | k in f
        ensures Merge(cfg, f[k], f[k]) == Ok(f[k])
      {
        SelfMergeIsIdentity(cfg, f[k]);
      }
      SameKeysMergePointwise(cfg, f, f);
      assert Merge(cfg, s, s).value.fields == f;
  }

  /** Folding copies of a self-mergeable schema gives it back: `Union.set` of
      three copies of the nested Record of `tests/test_schema_objs.py`. */
  lemma {:induction false} FoldOfCopies(cfg: Settings, s: Schema, n: nat)
    requires SelfMergeable(s)
    ensures FoldFrom(cfg, s, seq(n, _ => s)) == Ok(s)
    decreases n
  {
    if n > 0 {
      SelfMergeIsIdentity(cfg, s);
      assert seq(n, _ => s)[1..] == seq(n - 1, _ => s);
      FoldOfCopies(cfg, s, n - 1);
    }
  }

  lemma NestedRecordOracle(cfg: Settings)
    ensures var c := Record(map["a" := IntS, "b" := Array(FloatS),
                                "c" := Record(map["a" := Atomic(Some(Str)), "b" := Optional(IntS)])]);
      UnionSet(cfg, [c, c, c]) == Ok(c)
  {
    var c := Record(map["a" := IntS, "b" := Array(FloatS),
                        "c" := Record(map["a" := Atomic(Some(Str)), "b" := Optional(IntS)])]);
    assert [c, c, c][1..] == seq(2, _ => c);
    FoldOfCopies(cfg, c, 2);
  }
}
