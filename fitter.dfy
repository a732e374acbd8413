/** `fit`: one decoded JSON document to its schema, and `try_unify_dict`, the
    optional collapse of a Record into a UniformRecord. */
module Fitter {
  import opened Schemas
  import opened Algebra
  import opened Reduction
  import opened Invariants

  /** A JSON value (section 3 of RFC 8259) as Python decodes it. A number is an
      `int` or a `float` according to its spelling. An object keeps its keys
      in insertion order: `keys[i]` maps to `values[i]`. */
  datatype Json =
    | JNull
    | JBool(b: bool)
    | JInt(i: int)
    | JFloat(x: real)
    | JStr(s: string)
    | JArray(items: seq<Json>)
    | JObject(keys: seq<string>, values: seq<Json>)

  predicate DistinctKeys(keys: seq<string>) {
    forall i, j :: 0 <= i < j < |keys| ==> keys[i] != keys[j]
  }

  /** Every object is a Python dict: one value per key, no key twice. */
  predicate ValidJson(j: Json)
    decreases j
  {
    match j
    case JArray(items) => forall i :: 0 <= i < |items| ==> ValidJson(items[i])
    case JObject(keys, values) =>
      |keys| == |values| && DistinctKeys(keys) && forall i :: 0 <= i < |values| ==> ValidJson(values[i])
    case _ => true
  }

  /** `fit(data)`. */
  function Fit(cfg: Settings, j: Json): (r: Result<Schema>)
    requires ValidJson(j)
    ensures r.Ok? && j.JArray? ==> r.value.Array?
    ensures r.Ok? && j.JObject? ==> r.value.Record? || r.value.UniformRecord?
    ensures r.Err? ==> r.error == TypeError
    decreases j, 1
  {
    match j
    case JNull => Ok(Null)
    case JBool(_) => Ok(Atomic(Some(Bool)))
    case JInt(_) => Ok(Atomic(Some(Int)))
    case JFloat(_) => Ok(Atomic(Some(Float)))
    case JStr(_) => Ok(Atomic(Some(Str)))
    case JArray(items) =>
      var fits :- FitAll(cfg, items);
      var content :- UnionSet(cfg, fits);
      Ok(Array(content))
    case JObject(keys, values) =>
      var fields :- FitFields(cfg, keys, values);
      if cfg.unifyRecords then TryUnifyDict(cfg, Record(fields), keys) else Ok(Record(fields))
  }

  /** `[fit(e) for e in data]`: every element fitted, in order. */
  function FitAll(cfg: Settings, items: seq<Json>): (r: Result<seq<Schema>>)
    requires forall i :: 0 <= i < |items| ==> ValidJson(items[i])
    ensures r.Ok? ==> |r.value| == |items| && forall i :: 0 <= i < |items| ==> Fit(cfg, items[i]) == Ok(r.value[i])
    ensures r.Ok? <==> forall i :: 0 <= i < |items| ==> Fit(cfg, items[i]).Ok?
    ensures r.Err? ==> r.error == TypeError
    decreases items, 0
  {
    if items == [] then Ok([])
    else
      var n := |items| - 1;
      var init :- FitAll(cfg, items[..n]);
      var last :- Fit(cfg, items[n]);
      Ok(init + [last])
  }

  /** `schema_content[key] = fit(data[key])` for every key: the field map of
      the Record, with the keys of the dict. */
  function FitFields(cfg: Settings, keys: seq<string>, values: seq<Json>): (r: Result<map<string, Schema>>)
    requires |keys| == |values| && DistinctKeys(keys)
    requires forall i :: 0 <= i < |values| ==> ValidJson(values[i])
    ensures r.Ok? ==> IsKeyOrder(keys, r.value) && forall i :: 0 <= i < |keys| ==> Fit(cfg, values[i]) == Ok(r.value[keys[i]])
    ensures r.Ok? <==> forall i :: 0 <= i < |values| ==> Fit(cfg, values[i]).Ok?
    ensures r.Err? ==> r.error == TypeError
    decreases values, 1
  {
    var fits :- FitAll(cfg, values);
    Ok(Zip(keys, fits))
  }

  /** The dict with `keys[i]` mapped to `vs[i]`. */
  function Zip(keys: seq<string>, vs: seq<Schema>): (m: map<string, Schema>)
    requires |keys| == |vs| && DistinctKeys(keys)
    ensures forall i :: 0 <= i < |keys| ==> keys[i] in m && m[keys[i]] == vs[i]
    ensures forall k :: k in m ==> k in keys
    decreases |keys|
  {
    if keys == [] then map[]
    else
      var n := |keys| - 1;
      var m := Zip(keys[..n], vs[..n]);
      ZipStep(keys, vs, n, m);
      m[keys[n] := vs[n]]
  }

  lemma ZipStep(keys: seq<string>, vs: seq<Schema>, n: nat, m: map<string, Schema>)
    requires |keys| == |vs| == n + 1 && DistinctKeys(keys)
    requires forall i :: 0 <= i < n ==> keys[..n][i] in m && m[keys[..n][i]] == vs[..n][i]
    requires forall k :: k in m ==> k in keys[..n]
    ensures var z := m[keys[n] := vs[n]];
      && (forall i :: 0 <= i < |keys| ==> keys[i] in z && z[keys[i]] == vs[i])
      && (forall k :: k in z ==> k in keys)
  {
    var z := m[keys[n] := vs[n]];
    forall i | 0 <= i < |keys|
      ensures keys[i] in z && z[keys[i]] == vs[i]
    {
      if i < n {
        assert keys[..n][i] == keys[i] && vs[..n][i] == vs[i];
      }
    }
    forall k | k in z
      ensures k in keys
    {
      if k != keys[n] {
        var j :| 0 <= j < n && keys[..n][j] == k;
        assert keys[j] == k;
      }
    }
  }

  /** `try_unify_dict`: the uniform collapse of the Record when the union of
      its values is a Record (a DynamicRecord included) or an Array,
      otherwise the Record itself. */
  function TryUnifyDict(cfg: Settings, dict: Schema, order: seq<string>): (r: Result<Schema>)
    requires dict.Record? && IsKeyOrder(order, dict.fields)
    ensures r.Ok? ==> r.value == dict || r.value.UniformRecord?
    ensures r.Err? ==> r.error == TypeError
  {
    var uniform :- ToUniformDict(cfg, dict, order);
    if IsRecordLike(uniform.content) || uniform.content.Array? then Ok(uniform) else Ok(dict)
  }

  /** The loop of `fit` over the keys of a dict, filling `schema_content`. */
  method FitDictFields(cfg: Settings, keys: seq<string>, values: seq<Json>) returns (r: Result<map<string, Schema>>)
    requires |keys| == |values| && DistinctKeys(keys)
    requires forall i :: 0 <= i < |values| ==> ValidJson(values[i])
    ensures r == FitFields(cfg, keys, values)
  {
    var content: map<string, Schema> := map[];
    var i := 0;
    while i < |values|
      invariant 0 <= i <= |values|
      invariant forall j :: 0 <= j < i ==> keys[j] in content && Fit(cfg, values[j]) == Ok(content[keys[j]])
      invariant forall k :: k in content ==> k in keys[..i]
    {
      var v := Fit(cfg, values[i]);
      if v.Err? {
        return Err(v.error);
      }
      content := content[keys[i] := v.value];
      i := i + 1;
    }
    FitFieldsIs(cfg, keys, values, content);
    r := Ok(content);
  }

  /** A map that holds the fit of every value under its key, and no other
      key, is what `FitFields` gives. */
  lemma FitFieldsIs(cfg: Settings, keys: seq<string>, values: seq<Json>, m: map<string, Schema>)
    requires |keys| == |values| && DistinctKeys(keys)
    requires forall i :: 0 <= i < |values| ==> ValidJson(values[i])
    requires forall i :: 0 <= i < |keys| ==> keys[i] in m && Fit(cfg, values[i]) == Ok(m[keys[i]])
    requires forall k :: k in m ==> k in keys
    ensures FitFields(cfg, keys, values) == Ok(m)
  {
    var r := FitFields(cfg, keys, values);
    assert r.Ok?;
    forall k | k in m
      ensures k in r.value && r.value[k] == m[k]
    {
      var i :| 0 <= i < |keys| && keys[i] == k;
      assert Fit(cfg, values[i]) == Ok(r.value[keys[i]]);
    }
    assert r.value.Keys == m.Keys by {
      assert forall k :: k in r.value ==> k in keys;
    }
    assert r.value == m;
  }

  /** A scalar fits to `Atomic` of its Python type; `None` to the null
      schema. */
  lemma FitScalars(cfg: Settings, b: bool, n: int, x: real, s: string)
    ensures Fit(cfg, JNull) == Ok(Null)
    ensures Fit(cfg, JBool(b)) == Ok(Atomic(Some(Bool)))
    ensures Fit(cfg, JInt(n)) == Ok(Atomic(Some(Int)))
    ensures Fit(cfg, JFloat(x)) == Ok(Atomic(Some(Float)))
    ensures Fit(cfg, JStr(s)) == Ok(Atomic(Some(Str)))
  {
  }

  /** A list fits to the Array of the left fold of its elements' fits; `[]`
      to `Array(Unknown())`. */
  lemma FitList(cfg: Settings, items: seq<Json>)
    requires ValidJson(JArray(items))
    ensures Fit(cfg, JArray([])) == Ok(Array(Unknown))
    ensures Fit(cfg, JArray(items)).Ok? <==>
      (forall i :: 0 <= i < |items| ==> Fit(cfg, items[i]).Ok?) && UnionSet(cfg, FitAll(cfg, items).value).Ok?
    ensures Fit(cfg, JArray(items)).Ok? ==>
      Fit(cfg, JArray(items)).value == Array(UnionSet(cfg, FitAll(cfg, items).value).value)
  {
  }

  /** With `unify_records` off, a dict fits to a Record with the same keys,
      each value fitted. */
  lemma FitDictWithoutUnify(cfg: Settings, keys: seq<string>, values: seq<Json>)
    requires !cfg.unifyRecords && ValidJson(JObject(keys, values))
    ensures Fit(cfg, JObject(keys, values)).Ok? <==> forall i :: 0 <= i < |values| ==> Fit(cfg, values[i]).Ok?
    ensures Fit(cfg, JObject(keys, values)).Ok? ==>
      var r := Fit(cfg, JObject(keys, values)).value;
      && r.Record?
      && (forall k :: k in r.fields <==> k in keys)
      && forall i :: 0 <= i < |keys| ==> Fit(cfg, values[i]) == Ok(r.fields[keys[i]])
  {
  }

  /** `try_unify_dict` replaces the Record exactly when the union of its values
      is a Record or an Array. */
  lemma UnifyCollapsesExactlyOnUniformShape(cfg: Settings, dict: Schema, order: seq<string>)
    requires dict.Record? && IsKeyOrder(order, dict.fields)
    requires ToUniformDict(cfg, dict, order).Ok?
    ensures var c := ToUniformDict(cfg, dict, order).value.content;
      TryUnifyDict(cfg, dict, order).Ok?
      && (TryUnifyDict(cfg, dict, order).value != dict <==> IsRecordLike(c) || c.Array?)
      && (TryUnifyDict(cfg, dict, order).value != dict ==> TryUnifyDict(cfg, dict, order).value == UniformRecord(c))
  {
  }

  /** Every schema `fit` returns is well formed. */
  lemma {:induction false} FitIsWellFormed(cfg: Settings, j: Json)
    requires ValidJson(j) && Fit(cfg, j).Ok?
    ensures WellFormed(Fit(cfg, j).value)
    decreases j, 1
  {
    match j
    case JArray(_) => ListFitIsWellFormed(cfg, j);
    case JObject(_, _) => DictFitIsWellFormed(cfg, j);
    case _ =>
  }

  lemma {:induction false} ListFitIsWellFormed(cfg: Settings, j: Json)
    requires j.JArray? && ValidJson(j) && Fit(cfg, j).Ok?
    ensures WellFormed(Fit(cfg, j).value)
    decreases j, 0
  {
    var items := j.items;
    var fits := FitAll(cfg, items).value;
    forall i | 0 <= i < |fits|
      ensures WellFormed(fits[i])
    {
      FitIsWellFormed(cfg, items[i]);
    }
    ReduceKeepsWellFormed(cfg, List(fits));
  }

  lemma {:induction false} DictFitIsWellFormed(cfg: Settings, j: Json)
    requires j.JObject? && ValidJson(j) && Fit(cfg, j).Ok?
    ensures WellFormed(Fit(cfg, j).value)
    decreases j, 0
  {
    var keys, values := j.keys, j.values;
    var fields := FitFields(cfg, keys, values).value;
    forall k | k in fields
      ensures WellFormed(fields[k])
    {
      var i :| 0 <= i < |keys| && keys[i] == k;
      FitIsWellFormed(cfg, values[i]);
    }
    if cfg.unifyRecords {
      var vs := FieldValues(fields, keys);
      if UnionSet(cfg, vs).Ok? {
        ReduceKeepsWellFormed(cfg, List(vs));
      }
    }
  }
}
