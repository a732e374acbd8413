/** What the `__or__` methods of `Record`, `DynamicRecord` and `UniformRecord`
    promise, stated about `Merge`, in both equivalence modes. */
module RecordLaws {
  import opened Schemas
  import opened Algebra

  /** `m` is the field map built from `f` (left) and `g` (right): every key of
      either side, shared keys merged left to right, one-sided keys copied. */
  ghost predicate FieldsMerged(cfg: Settings, f: map<string, Schema>, g: map<string, Schema>, m: map<string, Schema>) {
    && m.Keys == f.Keys + g.Keys
    && (forall k :: k in f && k in g ==> Merge(cfg, f[k], g[k]) == Ok(m[k]))
    && (forall k :: k in f && k !in g ==> m[k] == f[k])
    && (forall k :: k !in f && k in g ==> m[k] == g[k])
  }

  /** Every shared field merges without raising. */
  ghost predicate SharedFieldsMerge(cfg: Settings, f: map<string, Schema>, g: map<string, Schema>) {
    forall k :: k in f && k in g ==> Merge(cfg, f[k], g[k]).Ok?
  }

  lemma MergedFieldsMeaning(cfg: Settings, a: Schema, b: Schema)
    requires IsRecordLike(a) && IsRecordLike(b)
    ensures MergedFields(cfg, a, b).Ok? <==> SharedFieldsMerge(cfg, a.fields, b.fields)
    ensures MergedFields(cfg, a, b).Ok? ==> FieldsMerged(cfg, a.fields, b.fields, MergedFields(cfg, a, b).value)
  {
    var f, g := a.fields, b.fields;
    var m := map k | k in f.Keys + g.Keys ::
      if k in f && k in g then Merge(cfg, f[k], g[k])
      else if k in f then Ok(f[k])
      else Ok(g[k]);
    assert MergedFields(cfg, a, b) == AllOk(m);
    if SharedFieldsMerge(cfg, f, g) {
      forall k | k in m
        ensures m[k].Ok?
      {
      }
    } else {
      var k :| k in f && k in g && !Merge(cfg, f[k], g[k]).Ok?;
      assert !m[k].Ok?;
    }
  }

  /** Record | Record with identical key sets is a Record with those keys,
      each field the merge of the two fields. */
  lemma SameKeysMergePointwise(cfg: Settings, f: map<string, Schema>, g: map<string, Schema>)
    requires f.Keys == g.Keys
    ensures Merge(cfg, Record(f), Record(g)).Ok? <==> SharedFieldsMerge(cfg, f, g)
    ensures Merge(cfg, Record(f), Record(g)).Ok? ==>
      var r := Merge(cfg, Record(f), Record(g)).value;
      r.Record? && r.fields.Keys == f.Keys && forall k :: k in f ==> Merge(cfg, f[k], g[k]) == Ok(r.fields[k])
  {
    MergedFieldsMeaning(cfg, Record(f), Record(g));
  }

  /** In kind mode, Records with different key sets merge into a DynamicRecord
      over the union of the keys, counting 2 for a shared key and 1 for a key
      of one side only. */
  lemma KindModeDifferingKeys(cfg: Settings, f: map<string, Schema>, g: map<string, Schema>)
    requires cfg.mode == Kind && f.Keys != g.Keys
    ensures Merge(cfg, Record(f), Record(g)).Ok? <==> SharedFieldsMerge(cfg, f, g)
    ensures Merge(cfg, Record(f), Record(g)).Ok? ==>
      var r := Merge(cfg, Record(f), Record(g)).value;
      && r.DynamicRecord?
      && FieldsMerged(cfg, f, g, r.fields)
      && r.counts.Keys == f.Keys + g.Keys
      && forall k :: k in r.counts ==> r.counts[k] == (if k in f && k in g then 2 else 1)
  {
    MergedFieldsMeaning(cfg, Record(f), Record(g));
  }

  /** In label mode, Records with different key sets stay apart: the fallback
      forms the two-member Union. */
  lemma LabelModeDifferingKeys(cfg: Settings, f: map<string, Schema>, g: map<string, Schema>)
    requires cfg.mode == Label && f.Keys != g.Keys
    ensures Merge(cfg, Record(f), Record(g)) == Ok(Union({Record(f), Record(g)}))
  {
  }

  /** `DynamicRecord | Record`: fields merged with the DynamicRecord on the
      left, and one more occurrence for each key of the Record; the counts of
      the other keys do not change. */
  lemma DynamicPlusRecord(cfg: Settings, d: Schema, g: map<string, Schema>)
    requires d.DynamicRecord?
    ensures Merge(cfg, d, Record(g)).Ok? <==> SharedFieldsMerge(cfg, d.fields, g)
    ensures Merge(cfg, d, Record(g)).Ok? ==>
      var r := Merge(cfg, d, Record(g)).value;
      && r.DynamicRecord?
      && FieldsMerged(cfg, d.fields, g, r.fields)
      && r.counts.Keys == d.counts.Keys + g.Keys
      && forall k :: Count(r.counts, k) == Count(d.counts, k) + (if k in g then 1 else 0)
  {
    MergedFieldsMeaning(cfg, d, Record(g));
  }

  /** `Record | DynamicRecord` delegates to `DynamicRecord | Record`, so the
      result is a DynamicRecord in either mode. */
  lemma RecordDelegatesToDynamic(cfg: Settings, f: map<string, Schema>, d: Schema)
    requires d.DynamicRecord?
    ensures Merge(cfg, Record(f), d) == Merge(cfg, d, Record(f))
    ensures Merge(cfg, Record(f), d).Ok? ==> Merge(cfg, Record(f), d).value.DynamicRecord?
  {
    DynamicPlusRecord(cfg, d, f);
  }

  /** `DynamicRecord | DynamicRecord` merges the fields and adds the counters
      key by key. */
  lemma DynamicPlusDynamic(cfg: Settings, d: Schema, e: Schema)
    requires d.DynamicRecord? && e.DynamicRecord?
    ensures Merge(cfg, d, e).Ok? <==> SharedFieldsMerge(cfg, d.fields, e.fields)
    ensures Merge(cfg, d, e).Ok? ==>
      var r := Merge(cfg, d, e).value;
      && r.DynamicRecord?
      && FieldsMerged(cfg, d.fields, e.fields, r.fields)
      && forall k :: Count(r.counts, k) == Count(d.counts, k) + Count(e.counts, k)
  {
    MergedFieldsMeaning(cfg, d, e);
  }

  /** There is no equality short-cut: merging a DynamicRecord with itself
      doubles every count, so the result differs whenever there is a key. */
  lemma DynamicSelfMergeDoubles(cfg: Settings, d: Schema)
    requires d.DynamicRecord? && forall k :: k in d.counts ==> d.counts[k] > 0
    requires Merge(cfg, d, d).Ok?
    ensures Merge(cfg, d, d).value.counts == map k | k in d.counts :: 2 * d.counts[k]
    ensures d.counts != map[] ==> Merge(cfg, d, d).value != d
  {
    var r := Merge(cfg, d, d).value;
    DynamicPlusDynamic(cfg, d, d);
    var doubled := map k | k in d.counts :: 2 * d.counts[k];
    forall k | k in r.counts
      ensures k in doubled && r.counts[k] == doubled[k]
    {
      assert Count(r.counts, k) == 2 * Count(d.counts, k);
    }
    forall k | k in doubled
      ensures k in r.counts
    {
      assert Count(r.counts, k) == 2 * Count(d.counts, k);
    }
    assert r.counts == doubled;
    if d.counts != map[] {
      var k :| k in d.counts;
      assert r.counts[k] != d.counts[k];
    }
  }

  /** `UniformRecord(x) | UniformRecord(y)` is `UniformRecord(x | y)`; any
      other right operand goes through the fallback. */
  lemma UniformRecordPointwise(cfg: Settings, x: Schema, e: Schema)
    ensures e.UniformRecord? ==>
      Merge(cfg, UniformRecord(x), e) == (match Merge(cfg, x, e.content)
                                          case Ok(m) => Ok(UniformRecord(m))
                                          case Err(err) => Err(err))
    ensures !e.UniformRecord? ==> Merge(cfg, UniformRecord(x), e) == BaseOr(cfg, UniformRecord(x), e)
  {
  }

  /** The record cases of `tests/test_schema_objs.py` (kind mode). */
  lemma RecordOracles(cfg: Settings)
    requires cfg.mode == Kind
    ensures var i, fl := Atomic(Some(Int)), Atomic(Some(Float));
      && Merge(cfg, Record(map["a" := i, "b" := fl]), Record(map["a" := i, "b" := fl]))
         == Ok(Record(map["a" := i, "b" := fl]))
      && Merge(cfg, Record(map["a" := i, "b" := fl]), Record(map["a" := Null, "b" := fl]))
         == Ok(Record(map["a" := Optional(i), "b" := fl]))
      && Merge(cfg, Record(map["a" := i, "b" := fl]), Record(map["a" := i]))
         == Ok(DynamicRecord(map["a" := i, "b" := fl], map["a" := 2, "b" := 1]))
  {
    var i, fl := Atomic(Some(Int)), Atomic(Some(Float));
    var ab := map["a" := i, "b" := fl];
    assert Merge(cfg, Record(ab), Record(ab)) == Ok(Record(ab)) by {
      SameKeysMergePointwise(cfg, ab, ab);
      var r1 := Merge(cfg, Record(ab), Record(ab)).value;
      assert r1.fields == ab;
    }
    var an := map["a" := Null, "b" := fl];
    assert Merge(cfg, Record(ab), Record(an)) == Ok(Record(map["a" := Optional(i), "b" := fl])) by {
      SameKeysMergePointwise(cfg, ab, an);
      var r2 := Merge(cfg, Record(ab), Record(an)).value;
      assert r2.fields == map["a" := Optional(i), "b" := fl];
    }
    var a := map["a" := i];
    assert Merge(cfg, Record(ab), Record(a)) == Ok(DynamicRecord(ab, map["a" := 2, "b" := 1])) by {
      assert "b" !in a.Keys;
      KindModeDifferingKeys(cfg, ab, a);
      var r3 := Merge(cfg, Record(ab), Record(a)).value;
      assert r3.fields == ab;
      assert r3.counts == map["a" := 2, "b" := 1];
    }
  }
}
