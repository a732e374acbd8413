/** The cases of `tests/test_schema_fitter.py`, and a document the fitter
    cannot summarise. */
module FitExamples {
  import opened Schemas
  import opened Algebra
  import opened Reduction
  import opened RecordLaws
  import opened Fitter

  /** `FitAll` of a list whose elements fit to `expected`, one by one. */
  lemma FitAllIs(cfg: Settings, items: seq<Json>, expected: seq<Schema>)
    requires forall i :: 0 <= i < |items| ==> ValidJson(items[i])
    requires |expected| == |items| && forall i :: 0 <= i < |items| ==> Fit(cfg, items[i]) == Ok(expected[i])
    ensures FitAll(cfg, items) == Ok(expected)
  {
    assert FitAll(cfg, items).value == expected;
  }

  /** `FitFields` of a two-key dict whose values fit to `s1` and `s2`. */
  lemma FitTwoFields(cfg: Settings, k1: string, k2: string, v1: Json, v2: Json, s1: Schema, s2: Schema)
    requires k1 != k2 && ValidJson(v1) && ValidJson(v2)
    requires Fit(cfg, v1) == Ok(s1) && Fit(cfg, v2) == Ok(s2)
    ensures FitFields(cfg, [k1, k2], [v1, v2]) == Ok(map[k1 := s1, k2 := s2])
  {
    var keys, values := [k1, k2], [v1, v2];
    assert DistinctKeys(keys);
    var r := FitFields(cfg, keys, values);
    assert Fit(cfg, values[0]).Ok? && Fit(cfg, values[1]).Ok?;
    var m := r.value;
    assert m[k1] == s1 && m[k2] == s2 by {
      assert Fit(cfg, values[0]) == Ok(m[keys[0]]);
      assert Fit(cfg, values[1]) == Ok(m[keys[1]]);
    }
    assert m.Keys == {k1, k2};
    assert m == map[k1 := s1, k2 := s2];
  }

  /** Two Records over the same two keys merge field by field. */
  lemma MergeTwoFieldRecords(cfg: Settings, k1: string, k2: string, a1: Schema, a2: Schema,
                             b1: Schema, b2: Schema, c1: Schema, c2: Schema)
    requires k1 != k2
    requires Merge(cfg, a1, b1) == Ok(c1) && Merge(cfg, a2, b2) == Ok(c2)
    ensures Merge(cfg, Record(map[k1 := a1, k2 := a2]), Record(map[k1 := b1, k2 := b2]))
         == Ok(Record(map[k1 := c1, k2 := c2]))
  {
    var f, g := map[k1 := a1, k2 := a2], map[k1 := b1, k2 := b2];
    assert f.Keys == g.Keys;
    assert SharedFieldsMerge(cfg, f, g);
    SameKeysMergePointwise(cfg, f, g);
    var m := Merge(cfg, Record(f), Record(g)).value.fields;
    assert Merge(cfg, f[k1], g[k1]) == Ok(m[k1]);
    assert Merge(cfg, f[k2], g[k2]) == Ok(m[k2]);
    assert m == map[k1 := c1, k2 := c2];
  }

  /** A list whose elements fit to `fits` and whose fold is `c` fits to
      `Array(c)`. */
  lemma FitArrayIs(cfg: Settings, items: seq<Json>, fits: seq<Schema>, c: Schema)
    requires ValidJson(JArray(items))
    requires FitAll(cfg, items) == Ok(fits) && UnionSet(cfg, fits) == Ok(c)
    ensures Fit(cfg, JArray(items)) == Ok(Array(c))
  {
  }

  /** A one-element list fits to the Array of its element's schema. */
  lemma FitSingletonList(cfg: Settings, x: Json, sx: Schema)
    requires ValidJson(x) && Fit(cfg, x) == Ok(sx)
    ensures Fit(cfg, JArray([x])) == Ok(Array(sx))
  {
    FitAllIs(cfg, [x], [sx]);
  }

  /** A two-element list fits to the Array of the fold of its elements'
      schemas. */
  lemma FitListOfTwo(cfg: Settings, x: Json, y: Json, sx: Schema, sy: Schema, c: Schema)
    requires ValidJson(x) && ValidJson(y) && Fit(cfg, x) == Ok(sx) && Fit(cfg, y) == Ok(sy)
    requires UnionSet(cfg, [sx, sy]) == Ok(c)
    ensures Fit(cfg, JArray([x, y])) == Ok(Array(c))
  {
    var items, fits := [x, y], [sx, sy];
    assert ValidJson(JArray(items));
    assert FitAll(cfg, items) == Ok(fits) by {
      FitAllIs(cfg, items, fits);
    }
    FitArrayIs(cfg, items, fits, c);
  }

  /** A three-element list fits to the Array of the left fold of its
      elements' schemas. */
  lemma FitListOfThree(cfg: Settings, x: Json, y: Json, z: Json, sx: Schema, sy: Schema, sz: Schema, c: Schema)
    requires ValidJson(x) && ValidJson(y) && ValidJson(z)
    requires Fit(cfg, x) == Ok(sx) && Fit(cfg, y) == Ok(sy) && Fit(cfg, z) == Ok(sz)
    requires UnionSet(cfg, [sx, sy, sz]) == Ok(c)
    ensures Fit(cfg, JArray([x, y, z])) == Ok(Array(c))
  {
    var items, fits := [x, y, z], [sx, sy, sz];
    assert ValidJson(JArray(items));
    assert FitAll(cfg, items) == Ok(fits) by {
      FitAllIs(cfg, items, fits);
    }
    FitArrayIs(cfg, items, fits, c);
  }

  /** A two-key dict whose values fit to `s1` and `s2`, whose merge is
      neither a Record nor an Array, fits to the Record of the two, whether
      or not `unify_records` is on. */
  lemma FitTwoKeyDictKept(cfg: Settings, k1: string, k2: string, v1: Json, v2: Json, s1: Schema, s2: Schema, c: Schema)
    requires k1 != k2 && ValidJson(v1) && ValidJson(v2)
    requires Fit(cfg, v1) == Ok(s1) && Fit(cfg, v2) == Ok(s2)
    requires Merge(cfg, s1, s2) == Ok(c) && !IsRecordLike(c) && !c.Array?
    ensures Fit(cfg, JObject([k1, k2], [v1, v2])) == Ok(Record(map[k1 := s1, k2 := s2]))
  {
    FitTwoFields(cfg, k1, k2, v1, v2, s1, s2);
    assert FieldValues(map[k1 := s1, k2 := s2], [k1, k2]) == [s1, s2];
    FoldOfTwo(cfg, s1, s2);
  }

  /** The dict `{'a': a, 'b': b}`. */
  function AB(a: Json, b: Json): (j: Json)
    ensures ValidJson(a) && ValidJson(b) ==> ValidJson(j)
  {
    JObject(["a", "b"], [a, b])
  }

  /** `fit(1)`, `fit(1.2)`, `fit([1])` and `fit([])`, for every int and every
      float. */
  lemma FitListOracles(cfg: Settings, n: int, x: real)
    ensures Fit(cfg, JInt(n)) == Ok(IntS)
    ensures Fit(cfg, JFloat(x)) == Ok(FloatS)
    ensures Fit(cfg, JArray([JInt(n)])) == Ok(Array(IntS))
    ensures Fit(cfg, JArray([])) == Ok(Array(Unknown))
  {
    FitSingletonList(cfg, JInt(n), IntS);
  }

  /** The two lists where the place of `None` decides between Optional and a
      three-member Union: `fit([1, None])` and `fit([1, 1.2, None])`. */
  lemma FitNullPlacementOracles(cfg: Settings, n: int, x: real)
    ensures Fit(cfg, JArray([JInt(n), JNull])) == Ok(Array(Optional(IntS)))
    ensures Fit(cfg, JArray([JInt(n), JFloat(x), JNull])) == Ok(Array(Union({IntS, FloatS, Null})))
  {
    assert Fit(cfg, JArray([JInt(n), JNull])) == Ok(Array(Optional(IntS))) by {
      assert UnionSet(cfg, [IntS, Null]) == Ok(Optional(IntS)) by {
        FoldOfTwo(cfg, IntS, Null);
      }
      FitListOfTwo(cfg, JInt(n), JNull, IntS, Null, Optional(IntS));
    }
    var u3 := Union({IntS, FloatS, Null});
    assert UnionSet(cfg, [IntS, FloatS, Null]) == Ok(u3) by {
      var u := Union({IntS, FloatS});
      assert Merge(cfg, IntS, FloatS) == Ok(u);
      assert Merge(cfg, u, Null) == Ok(u3) by {
        assert {IntS, FloatS} + {Null} == {IntS, FloatS, Null};
      }
      FoldOfThree(cfg, IntS, FloatS, Null);
    }
    FitListOfThree(cfg, JInt(n), JFloat(x), JNull, IntS, FloatS, Null, u3);
  }

  const RecIntInt: Schema := Record(map["a" := IntS, "b" := IntS])
  const RecIntNull: Schema := Record(map["a" := IntS, "b" := Null])
  const RecIntOpt: Schema := Record(map["a" := IntS, "b" := Optional(IntS)])

  /** `fit({'a': 1, 'b': 2})`, for any two ints, is the Record of two ints
      under either setting of `unify_records`: the union of its values is
      `int`, neither a Record nor an Array. */
  lemma FitDictOracle(cfg: Settings, n1: int, n2: int)
    ensures Fit(cfg, AB(JInt(n1), JInt(n2))) == Ok(RecIntInt)
  {
    assert Merge(cfg, IntS, IntS) == Ok(IntS);
    FitTwoKeyDictKept(cfg, "a", "b", JInt(n1), JInt(n2), IntS, IntS, IntS);
  }

  /** `{'a': 34, 'b': None}` fits to `{a: int, b: None}`. */
  lemma FitDictWithNullOracle(cfg: Settings, n: int)
    ensures Fit(cfg, AB(JInt(n), JNull)) == Ok(RecIntNull)
  {
    assert Merge(cfg, IntS, Null) == Ok(Optional(IntS));
    FitTwoKeyDictKept(cfg, "a", "b", JInt(n), JNull, IntS, Null, Optional(IntS));
  }

  /** `fit([{'a': 1, 'b': 2}, {'a': 1, 'b': 5}])`. */
  lemma FitListOfDictsOracle(cfg: Settings, n1: int, n2: int, n3: int, n4: int)
    ensures Fit(cfg, JArray([AB(JInt(n1), JInt(n2)), AB(JInt(n3), JInt(n4))])) == Ok(Array(RecIntInt))
  {
    FitDictOracle(cfg, n1, n2);
    FitDictOracle(cfg, n3, n4);
    assert UnionSet(cfg, [RecIntInt, RecIntInt]) == Ok(RecIntInt) by {
      MergeTwoFieldRecords(cfg, "a", "b", IntS, IntS, IntS, IntS, IntS, IntS);
      FoldOfTwo(cfg, RecIntInt, RecIntInt);
    }
    FitListOfTwo(cfg, AB(JInt(n1), JInt(n2)), AB(JInt(n3), JInt(n4)), RecIntInt, RecIntInt, RecIntInt);
  }

  lemma MergeInnerRecords(cfg: Settings)
    ensures Merge(cfg, RecIntInt, RecIntNull) == Ok(RecIntOpt)
  {
    MergeTwoFieldRecords(cfg, "a", "b", IntS, IntS, IntS, Null, IntS, Optional(IntS));
  }

  /** With `unify_records` on, `{'1': 1, '2': 2}` stays a Record: the union
      of its values is `int`. */
  lemma FitUnifyKeepsScalarDict(cfg: Settings, n1: int, n2: int)
    requires cfg.unifyRecords
    ensures Fit(cfg, JObject(["1", "2"], [JInt(n1), JInt(n2)])) == Ok(Record(map["1" := IntS, "2" := IntS]))
  {
    assert Merge(cfg, IntS, IntS) == Ok(IntS);
    FitTwoKeyDictKept(cfg, "1", "2", JInt(n1), JInt(n2), IntS, IntS, IntS);
  }

  /** A two-key dict whose values fit to `s1` and `s2` becomes, with
      `unify_records` on, `try_unify_dict` of that Record. */
  lemma FitTwoKeyDictUnified(cfg: Settings, k1: string, k2: string, v1: Json, v2: Json, s1: Schema, s2: Schema)
    requires cfg.unifyRecords && k1 != k2 && ValidJson(v1) && ValidJson(v2)
    requires Fit(cfg, v1) == Ok(s1) && Fit(cfg, v2) == Ok(s2)
    ensures IsKeyOrder([k1, k2], map[k1 := s1, k2 := s2])
    ensures Fit(cfg, JObject([k1, k2], [v1, v2])) == TryUnifyDict(cfg, Record(map[k1 := s1, k2 := s2]), [k1, k2])
  {
    FitTwoFields(cfg, k1, k2, v1, v2, s1, s2);
  }

  /** `try_unify_dict` of a two-field Record whose values merge into a Record,
      a DynamicRecord or an Array. */
  lemma UnifyTwoFields(cfg: Settings, k1: string, k2: string, s1: Schema, s2: Schema, c: Schema)
    requires k1 != k2 && Merge(cfg, s1, s2) == Ok(c) && (IsRecordLike(c) || c.Array?)
    ensures IsKeyOrder([k1, k2], map[k1 := s1, k2 := s2])
    ensures TryUnifyDict(cfg, Record(map[k1 := s1, k2 := s2]), [k1, k2]) == Ok(UniformRecord(c))
  {
    assert FieldValues(map[k1 := s1, k2 := s2], [k1, k2]) == [s1, s2];
    FoldOfTwo(cfg, s1, s2);
  }

  /** With `unify_records` on, a two-key dict whose values fit to schemas that
      merge into a Record, a DynamicRecord or an Array collapses to `UniformRecord` of that
      merge. */
  lemma CollapseTwoKeyDict(cfg: Settings, k1: string, k2: string, v1: Json, v2: Json, s1: Schema, s2: Schema, c: Schema)
    requires cfg.unifyRecords && k1 != k2 && ValidJson(v1) && ValidJson(v2)
    requires Fit(cfg, v1) == Ok(s1) && Fit(cfg, v2) == Ok(s2)
    requires Merge(cfg, s1, s2) == Ok(c) && (IsRecordLike(c) || c.Array?)
    ensures Fit(cfg, JObject([k1, k2], [v1, v2])) == Ok(UniformRecord(c))
  {
    FitTwoKeyDictUnified(cfg, k1, k2, v1, v2, s1, s2);
    UnifyTwoFields(cfg, k1, k2, s1, s2, c);
  }

  /** With `unify_records` on, a dict of two dicts with the same keys
      collapses to `UniformRecord` of their merge:
      `{'1': {'a': 5, 'b': 6}, '2': {'a': 34, 'b': None}}`. */
  lemma FitUnifyDictOfDicts(cfg: Settings, n1: int, n2: int, n3: int)
    requires cfg.unifyRecords
    ensures Fit(cfg, JObject(["1", "2"], [AB(JInt(n1), JInt(n2)), AB(JInt(n3), JNull)])) == Ok(UniformRecord(RecIntOpt))
  {
    FitDictOracle(cfg, n1, n2);
    FitDictWithNullOracle(cfg, n3);
    MergeInnerRecords(cfg);
    CollapseTwoKeyDict(cfg, "1", "2", AB(JInt(n1), JInt(n2)), AB(JInt(n3), JNull), RecIntInt, RecIntNull, RecIntOpt);
  }

  /** A two-key dict of one-element lists collapses, with `unify_records` on,
      to `UniformRecord` of the Array of the merged elements, when that merge
      is a Record or an Array. */
  lemma CollapseDictOfSingletonLists(cfg: Settings, k1: string, k2: string, x1: Json, x2: Json,
                                     s1: Schema, s2: Schema, c: Schema)
    requires cfg.unifyRecords && k1 != k2 && ValidJson(x1) && ValidJson(x2)
    requires Fit(cfg, x1) == Ok(s1) && Fit(cfg, x2) == Ok(s2)
    requires Merge(cfg, s1, s2) == Ok(c)
    ensures Fit(cfg, JObject([k1, k2], [JArray([x1]), JArray([x2])])) == Ok(UniformRecord(Array(c)))
  {
    FitSingletonList(cfg, x1, s1);
    FitSingletonList(cfg, x2, s2);
    assert Merge(cfg, Array(s1), Array(s2)) == Ok(Array(c));
    CollapseTwoKeyDict(cfg, k1, k2, JArray([x1]), JArray([x2]), Array(s1), Array(s2), Array(c));
  }

  /** With `unify_records` on, a dict of two lists of such dicts collapses to
      `UniformRecord` of an Array:
      `{'1': [{'a': 5, 'b': 6}], '2': [{'a': 34, 'b': None}]}`. */
  lemma FitUnifyDictOfLists(cfg: Settings, n1: int, n2: int, n3: int)
    requires cfg.unifyRecords
    ensures Fit(cfg, JObject(["1", "2"], [JArray([AB(JInt(n1), JInt(n2))]), JArray([AB(JInt(n3), JNull)])]))
         == Ok(UniformRecord(Array(RecIntOpt)))
  {
    FitDictOracle(cfg, n1, n2);
    FitDictWithNullOracle(cfg, n3);
    MergeInnerRecords(cfg);
    CollapseDictOfSingletonLists(cfg, "1", "2", AB(JInt(n1), JInt(n2)), AB(JInt(n3), JNull), RecIntInt, RecIntNull, RecIntOpt);
  }

  /** `fit([1, 1.2])` is the Array of the Union of int and float. */
  lemma FitIntFloatList(cfg: Settings, n: int, x: real)
    ensures Fit(cfg, JArray([JInt(n), JFloat(x)])) == Ok(Array(Union({IntS, FloatS})))
  {
    var u := Union({IntS, FloatS});
    assert UnionSet(cfg, [IntS, FloatS]) == Ok(u) by {
      FoldOfTwo(cfg, IntS, FloatS);
    }
    FitListOfTwo(cfg, JInt(n), JFloat(x), IntS, FloatS, u);
  }

  /** `fit([[1, 1.2], [1, 1.2]])` raises: both inner lists fit to
      `Array(Union({int, float}))`, and merging them merges a Union with a
      Union. */
  lemma NestedUnionsRaise(cfg: Settings, n: int, x: real)
    ensures var inner := JArray([JInt(n), JFloat(x)]);
      Fit(cfg, JArray([inner, inner])) == Err(TypeError)
  {
    var inner := JArray([JInt(n), JFloat(x)]);
    var u := Union({IntS, FloatS});
    FitIntFloatList(cfg, n, x);
    var items, fits := [inner, inner], [Array(u), Array(u)];
    assert ValidJson(JArray(items));
    assert FitAll(cfg, items) == Ok(fits) by {
      FitAllIs(cfg, items, fits);
    }
    assert UnionSet(cfg, fits) == Err(TypeError) by {
      FoldOfTwo(cfg, Array(u), Array(u));
    }
  }
}
