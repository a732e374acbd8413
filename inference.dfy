/** `InferenceEngine.get_schema`: the schema of a batch of documents, as the
    fold of their fits in input order. */
module Inference {
  import opened Schemas
  import opened Algebra
  import opened RecordLaws
  import opened Reduction
  import opened Invariants
  import opened Fitter
  import opened FitExamples

  predicate AllValid(docs: seq<Json>) {
    forall i :: 0 <= i < |docs| ==> ValidJson(docs[i])
  }

  /** `get_schema(json_batch)`: `reduce_schema(map(fit, json_batch))`. The
      `map` object is lazy and always true, so an empty batch reaches
      `functools.reduce` and raises TypeError instead of giving
      `Unknown()`. */
  function GetSchema(cfg: Settings, docs: seq<Json>): (r: Result<Schema>)
    requires AllValid(docs)
    ensures docs == [] ==> r == Err(TypeError)
    ensures r.Ok? ==> forall i :: 0 <= i < |docs| ==> Fit(cfg, docs[i]).Ok?
    ensures r.Err? ==> r.error == TypeError
  {
    var fits :- FitAll(cfg, docs);
    ReduceSchema(cfg, Lazy(fits))
  }

  /** On a non-empty batch whose documents all fit, the schema is the left
      fold `((fit(d1) | fit(d2)) | fit(d3)) ...`, the same as `Union.set` of
      the list of fits. */
  lemma GetSchemaIsLeftFoldOfFits(cfg: Settings, docs: seq<Json>)
    requires AllValid(docs) && docs != []
    requires forall i :: 0 <= i < |docs| ==> Fit(cfg, docs[i]).Ok?
    ensures var fits := FitAll(cfg, docs).value;
      && |fits| == |docs|
      && (forall i :: 0 <= i < |docs| ==> Fit(cfg, docs[i]) == Ok(fits[i]))
      && GetSchema(cfg, docs) == UnionSet(cfg, fits) == SnocFold(cfg, fits)
  {
    var fits := FitAll(cfg, docs).value;
    LazyAgreesWhenNonEmpty(cfg, fits);
    ReduceIsLeftFold(cfg, fits);
  }

  /** One more document merges its fit into the schema so far. */
  lemma GetSchemaSnoc(cfg: Settings, docs: seq<Json>, d: Json)
    requires AllValid(docs) && docs != [] && ValidJson(d)
    ensures AllValid(docs + [d])
    ensures Fit(cfg, d).Ok? ==> GetSchema(cfg, docs + [d]) == MergeInto(cfg, GetSchema(cfg, docs), Fit(cfg, d).value)
    ensures Fit(cfg, d).Err? ==> GetSchema(cfg, docs + [d]).Err?
  {
    var all := docs + [d];
    assert all[..|all| - 1] == docs;
    var fa := FitAll(cfg, all);
    if fa.Ok? {
      var fits := FitAll(cfg, docs).value;
      assert fa.value == fits + [Fit(cfg, d).value];
      UnionSetSnoc(cfg, fits, Fit(cfg, d).value);
      LazyAgreesWhenNonEmpty(cfg, fits);
      LazyAgreesWhenNonEmpty(cfg, fa.value);
    } else if Fit(cfg, d).Ok? {
      assert !FitAll(cfg, docs).Ok?;
    }
  }

  /** Every schema `get_schema` returns is well formed. */
  lemma GetSchemaIsWellFormed(cfg: Settings, docs: seq<Json>)
    requires AllValid(docs) && GetSchema(cfg, docs).Ok?
    ensures WellFormed(GetSchema(cfg, docs).value)
  {
    var fits := FitAll(cfg, docs).value;
    forall i | 0 <= i < |fits|
      ensures WellFormed(fits[i])
    {
      FitIsWellFormed(cfg, docs[i]);
    }
    ReduceKeepsWellFormed(cfg, Lazy(fits));
  }

  /** A batch whose documents fit to the non-empty `fits` has the fold of
      `fits` as its schema. */
  lemma GetSchemaIs(cfg: Settings, docs: seq<Json>, fits: seq<Schema>)
    requires AllValid(docs) && FitAll(cfg, docs) == Ok(fits) && fits != []
    ensures GetSchema(cfg, docs) == UnionSet(cfg, fits)
  {
    LazyAgreesWhenNonEmpty(cfg, fits);
  }

  lemma FitDocA(cfg: Settings, n: int)
    ensures Fit(cfg, JObject(["a"], [JInt(n)])) == Ok(RecA)
  {
    var keys, values := ["a"], [JInt(n)];
    var r := FitFields(cfg, keys, values);
    assert Fit(cfg, values[0]) == Ok(IntS);
    assert r.value["a"] == IntS;
    assert r.value == RecA.fields;
    assert FieldValues(RecA.fields, keys) == [IntS];
  }

  /** `{'a': int, 'b': int} | {'a': int}` in kind mode. */
  lemma RecIntIntThenRecA(cfg: Settings)
    requires cfg.mode == Kind
    ensures Merge(cfg, RecIntInt, RecA) == Ok(DynamicRecord(RecIntInt.fields, map["a" := 2, "b" := 1]))
  {
    var f, g := RecIntInt.fields, RecA.fields;
    assert "b" !in g;
    KindModeDifferingKeys(cfg, f, g);
    var r := Merge(cfg, RecIntInt, RecA).value;
    assert r.fields == f;
    assert r.counts == map["a" := 2, "b" := 1];
  }

  lemma ScenarioFold(cfg: Settings)
    requires cfg.mode == Kind
    ensures MergeInto(cfg, Merge(cfg, RecIntInt, RecIntInt), RecA)
         == Ok(DynamicRecord(map["a" := IntS, "b" := IntS], map["a" := 2, "b" := 1]))
  {
    MergeTwoFieldRecords(cfg, "a", "b", IntS, IntS, IntS, IntS, IntS, IntS);
    RecIntIntThenRecA(cfg);
  }

  /** The batch `{'a': 1, 'b': 2}`, `{'a': 1, 'b': 5}`, `{'a': 1}` in kind
      mode, for any int values. The first two Records have the same keys and
      merge into one Record, so the counter sees two records, not three:
      `'a'` counted twice and `'b'` once, although `'a'` occurs in all three
      documents and `'b'` in two. */
  lemma ThreeDocumentBatch(cfg: Settings, n1: int, n2: int, n3: int, n4: int, n5: int)
    requires cfg.mode == Kind
    ensures var batch := [AB(JInt(n1), JInt(n2)), AB(JInt(n3), JInt(n4)), JObject(["a"], [JInt(n5)])];
      AllValid(batch)
      && GetSchema(cfg, batch) == Ok(DynamicRecord(map["a" := IntS, "b" := IntS], map["a" := 2, "b" := 1]))
  {
    var docs := [AB(JInt(n1), JInt(n2)), AB(JInt(n3), JInt(n4)), JObject(["a"], [JInt(n5)])];
    var fits := [RecIntInt, RecIntInt, RecA];
    assert AllValid(docs);
    assert FitAll(cfg, docs) == Ok(fits) by {
      forall i | 0 <= i < 3
        ensures Fit(cfg, docs[i]) == Ok(fits[i])
      {
        if i == 0 { FitDictOracle(cfg, n1, n2); }
        else if i == 1 { FitDictOracle(cfg, n3, n4); }
        else { FitDocA(cfg, n5); }
      }
      FitAllIs(cfg, docs, fits);
    }
    assert GetSchema(cfg, docs) == UnionSet(cfg, fits) by {
      GetSchemaIs(cfg, docs, fits);
    }
    assert UnionSet(cfg, fits) == MergeInto(cfg, Merge(cfg, RecIntInt, RecIntInt), RecA) by {
      FoldOfThree(cfg, RecIntInt, RecIntInt, RecA);
    }
    ScenarioFold(cfg);
  }
}
