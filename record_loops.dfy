/** The loops behind the record merges and `Union.__or__`, as the source
    writes them: a result dict filled key by key, a field map updated in place,
    a counter incremented key by key, a copied member set extended. Each method
    is proved to compute the function `Merge` uses for the same step, so the
    laws proved about `Merge` hold of these loops too. */
module RecordLoops {
  import opened Schemas
  import opened Algebra
  import opened RecordLaws

  /** The part of `FieldsMerged` that concerns the keys in `done`. */
  ghost predicate MergedOn(cfg: Settings, f: map<string, Schema>, g: map<string, Schema>,
                           done: set<string>, m: map<string, Schema>) {
    && m.Keys == done
    && (forall k :: k in done && k in f && k in g ==> Merge(cfg, f[k], g[k]) == Ok(m[k]))
    && (forall k :: k in done && k in f && k !in g ==> m[k] == f[k])
    && (forall k :: k in done && k !in f && k in g ==> m[k] == g[k])
  }

  /** Two field maps that both satisfy `FieldsMerged` are the same map. */
  lemma FieldsMergedUnique(cfg: Settings, f: map<string, Schema>, g: map<string, Schema>,
                           m: map<string, Schema>, n: map<string, Schema>)
    requires FieldsMerged(cfg, f, g, m) && FieldsMerged(cfg, f, g, n)
    ensures m == n
  {
    forall k | k in m
      ensures m[k] == n[k]
    {
      if k in f && k in g {
        assert Ok(m[k]) == Ok(n[k]);
      }
    }
  }

  /** `DynamicRecord.__merge_common_fields`: one pass over the union of the
      keys, merging a shared field, copying a one-sided one. A merge that
      raises aborts the pass. */
  method MergeCommonFields(cfg: Settings, a: Schema, b: Schema) returns (r: Result<map<string, Schema>>)
    requires IsRecordLike(a) && IsRecordLike(b)
    ensures r == MergedFields(cfg, a, b)
  {
    var f, g := a.fields, b.fields;
    var allKeys := f.Keys + g.Keys;
    var todo := allKeys;
    var result: map<string, Schema> := map[];
    while todo != {}
      invariant todo <= allKeys
      invariant MergedOn(cfg, f, g, allKeys - todo, result)
      decreases todo
    {
      var k :| k in todo;
      if k in f && k in g {
        var merged := Merge(cfg, f[k], g[k]);
        if merged.Err? {
          MergedFieldsMeaning(cfg, a, b);
          return Err(merged.error);
        }
        result := result[k := merged.value];
      } else if k in f {
        result := result[k := f[k]];
      } else {
        result := result[k := g[k]];
      }
      todo := todo - {k};
    }
    assert FieldsMerged(cfg, f, g, result);
    MergedFieldsMeaning(cfg, a, b);
    FieldsMergedUnique(cfg, f, g, result, MergedFields(cfg, a, b).value);
    r := Ok(result);
  }

  /** `Record.merge_label_equal_fields`: on equal key sets, every field of the
      left copy is replaced in place by its merge with the right field. */
  method MergeLabelEqualFields(cfg: Settings, a: Schema, b: Schema) returns (r: Result<map<string, Schema>>)
    requires a.Record? && b.Record? && a.fields.Keys == b.fields.Keys
    ensures r == MergedFields(cfg, a, b)
  {
    var f, g := a.fields, b.fields;
    var content := f;
    var todo := f.Keys;
    while todo != {}
      invariant todo <= f.Keys && content.Keys == f.Keys
      invariant forall k :: k in todo ==> content[k] == f[k]
      invariant forall k :: k in f && k !in todo ==> Merge(cfg, f[k], g[k]) == Ok(content[k])
      decreases todo
    {
      var k :| k in todo;
      var merged := Merge(cfg, content[k], g[k]);
      if merged.Err? {
        MergedFieldsMeaning(cfg, a, b);
        return Err(merged.error);
      }
      content := content[k := merged.value];
      todo := todo - {k};
    }
    assert FieldsMerged(cfg, f, g, content);
    MergedFieldsMeaning(cfg, a, b);
    FieldsMergedUnique(cfg, f, g, content, MergedFields(cfg, a, b).value);
    r := Ok(content);
  }

  /** `counter[key] += 1` for every key, on a `Counter` (a missing key counts
      0). */
  method IncrementKeys(counter: map<string, nat>, keys: set<string>) returns (c: map<string, nat>)
    ensures c == IncrementCounts(counter, keys)
  {
    c := counter;
    var todo := keys;
    while todo != {}
      invariant todo <= keys
      invariant c.Keys == counter.Keys + (keys - todo)
      invariant forall k :: Count(c, k) == Count(counter, k) + (if k in keys - todo then 1 else 0)
      decreases todo
    {
      var k :| k in todo;
      c := c[k := Count(c, k) + 1];
      todo := todo - {k};
    }
    var spec := IncrementCounts(counter, keys);
    forall k | k in c
      ensures c[k] == spec[k]
    {
      assert Count(c, k) == Count(spec, k);
    }
  }

  /** The counter `merge_records_as_dynamic_record` builds, from an empty
      `Counter`, one increment per key of the left Record and then one per
      key of the right Record, is the counter `Merge` uses. */
  lemma CountKeysByIncrements(left: set<string>, right: set<string>)
    ensures IncrementCounts(IncrementCounts(map[], left), right) == CountKeys(left, right)
  {
    var c := IncrementCounts(IncrementCounts(map[], left), right);
    var spec := CountKeys(left, right);
    forall k | k in c
      ensures c[k] == spec[k]
    {
      assert Count(c, k) == Count(spec, k);
    }
  }

  /** `DynamicRecord.merge_records_as_dynamic_record`: the common-fields
      pass, then the counter loops. In kind mode, on different key sets, this
      is `Record | Record`. */
  method MergeRecordsAsDynamic(cfg: Settings, a: Schema, b: Schema) returns (r: Result<Schema>)
    requires a.Record? && b.Record?
    ensures r.Ok? <==> MergedFields(cfg, a, b).Ok?
    ensures r.Ok? ==> r.value == DynamicRecord(MergedFields(cfg, a, b).value, CountKeys(a.fields.Keys, b.fields.Keys))
    ensures cfg.mode == Kind && a.fields.Keys != b.fields.Keys ==> r == Merge(cfg, a, b)
  {
    var resultDict :- MergeCommonFields(cfg, a, b);
    var counter := IncrementKeys(map[], a.fields.Keys);
    counter := IncrementKeys(counter, b.fields.Keys);
    CountKeysByIncrements(a.fields.Keys, b.fields.Keys);
    r := Ok(DynamicRecord(resultDict, counter));
  }

  /** `DynamicRecord.merge_dynamic_n_normal_records`: the common-fields pass,
      then one increment of the left counter per key of the Record. This is
      `DynamicRecord | Record`. */
  method MergeDynamicWithRecord(cfg: Settings, d: Schema, b: Schema) returns (r: Result<Schema>)
    requires d.DynamicRecord? && b.Record?
    ensures r == Merge(cfg, d, b)
  {
    var resultDict :- MergeCommonFields(cfg, d, b);
    var counter := IncrementKeys(d.counts, b.fields.Keys);
    r := Ok(DynamicRecord(resultDict, counter));
  }

  /** `DynamicRecord.merge_dynamic_records`: the common-fields pass, then the
      sum of the two counters. This is `DynamicRecord | DynamicRecord`. */
  method MergeDynamicRecords(cfg: Settings, d: Schema, e: Schema) returns (r: Result<Schema>)
    requires d.DynamicRecord? && e.DynamicRecord?
    ensures r == Merge(cfg, d, e)
  {
    var resultDict :- MergeCommonFields(cfg, d, e);
    r := Ok(DynamicRecord(resultDict, AddCounts(d.counts, e.counts)));
  }

  /** `Union.__or__` on a plain Union: a copy of the member set, extended by a
      non-Union operand; for a Union operand (an Optional's members being its
      payload and null) each member is `|=`-ed into the copy, which raises on
      the first member. */
  method UnionWith(s: set<Schema>, e: Schema) returns (r: Result<Schema>)
    ensures r == UnionOr(s, e)
  {
    var newSet := s;
    if IsUnionLike(e) {
      var members := if e.Union? then e.members else {Null, e.payload};
      var rest, raised := members, false;
      while rest != {} && !raised
        invariant rest <= members
        invariant raised <==> rest != members
        decreases rest
      {
        var element :| element in rest;
        // `new_set |= element`: a set cannot be or-ed with a schema
        raised := true;
        rest := rest - {element};
      }
      if raised {
        return Err(TypeError);
      }
      return Ok(Union(newSet));
    }
    newSet := newSet + {e};
    r := Ok(Union(newSet));
  }
}
