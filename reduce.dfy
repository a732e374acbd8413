/** The fold of schemas: `Union.set` and `reduce_schema`, which are the same
    code, and `Record.to_uniform_dict`, which folds a Record's values. */
module Reduction {
  import opened Schemas
  import opened Algebra
  import opened RecordLaws

  /** What is handed to the fold. A Python `list` is false when empty; the lazy
      `map` object `get_schema` passes is true even when it yields nothing. */
  datatype Iterable = List(items: seq<Schema>) | Lazy(items: seq<Schema>)

  /** `if json_schemas:` */
  predicate Truthy(it: Iterable) {
    it.Lazy? || it.items != []
  }

  /** `functools.reduce(lambda a, b: a | b, ...)` after it has taken its first
      element as the accumulator: `((acc | rest[0]) | rest[1]) | ...`. The
      first merge that raises ends the fold. */
  function FoldFrom(cfg: Settings, acc: Schema, rest: seq<Schema>): (r: Result<Schema>)
    ensures r.Err? ==> r.error == TypeError
    decreases |rest|
  {
    if rest == [] then Ok(acc)
    else
      var next :- Merge(cfg, acc, rest[0]);
      FoldFrom(cfg, next, rest[1..])
  }

  /** `reduce_schema` (and `Union.set`): `Unknown()` for a false iterable,
      otherwise `functools.reduce`, which raises TypeError on an iterable that
      yields nothing. */
  function ReduceSchema(cfg: Settings, it: Iterable): (r: Result<Schema>)
    ensures r.Err? ==> r.error == TypeError
  {
    if !Truthy(it) then Ok(Unknown)
    else if it.items == [] then Err(TypeError)
    else FoldFrom(cfg, it.items[0], it.items[1..])
  }

  /** `Union.set(json_schemas)` on a list. */
  function UnionSet(cfg: Settings, xs: seq<Schema>): (r: Result<Schema>)
    ensures xs == [] ==> r == Ok(Unknown)
    ensures |xs| == 1 ==> r == Ok(xs[0])
    ensures r.Err? ==> r.error == TypeError
  {
    ReduceSchema(cfg, List(xs))
  }

  /** Reference definition of the left fold, by its last step:
      `fold(xs + [y]) = fold(xs) | y`. */
  function SnocFold(cfg: Settings, xs: seq<Schema>): (r: Result<Schema>)
    requires xs != []
    ensures |xs| == 1 ==> r == Ok(xs[0])
    ensures r.Err? ==> r.error == TypeError
    decreases |xs|
  {
    if |xs| == 1 then Ok(xs[0])
    else
      MergeInto(cfg, SnocFold(cfg, xs[..|xs| - 1]), xs[|xs| - 1])
  }

  /** One more step of a fold: merge `y` into a result, or pass an exception
      on. */
  function MergeInto(cfg: Settings, acc: Result<Schema>, y: Schema): Result<Schema> {
    var s :- acc;
    Merge(cfg, s, y)
  }

  /** Extending the folded sequence by one schema merges it into the result. */
  lemma {:induction false} FoldFromSnoc(cfg: Settings, acc: Schema, rest: seq<Schema>, y: Schema)
    ensures FoldFrom(cfg, acc, rest + [y]) == MergeInto(cfg, FoldFrom(cfg, acc, rest), y)
    decreases |rest|
  {
    if rest == [] {
      assert [] + [y] == [y];
      assert [y][1..] == [];
    } else {
      assert (rest + [y])[0] == rest[0];
      assert (rest + [y])[1..] == rest[1..] + [y];
      var next := Merge(cfg, acc, rest[0]);
      if next.Ok? {
        FoldFromSnoc(cfg, next.value, rest[1..], y);
      }
    }
  }

  /** On a non-empty list the fold is the left fold `((s1 | s2) | s3) ...`. */
  lemma {:induction false} ReduceIsLeftFold(cfg: Settings, xs: seq<Schema>)
    requires xs != []
    ensures UnionSet(cfg, xs) == SnocFold(cfg, xs)
    decreases |xs|
  {
    if |xs| > 1 {
      var init, y := xs[..|xs| - 1], xs[|xs| - 1];
      assert xs == init + [y];
      assert init[1..] + [y] == xs[1..];
      FoldFromSnoc(cfg, xs[0], init[1..], y);
      ReduceIsLeftFold(cfg, init);
    }
  }

  /** Every list, empty or not: folding `xs + [y]` is folding `xs` and then
      merging `y` in, because `Unknown() | y` is `y`. */
  lemma UnionSetSnoc(cfg: Settings, xs: seq<Schema>, y: Schema)
    ensures UnionSet(cfg, xs + [y]) == MergeInto(cfg, UnionSet(cfg, xs), y)
  {
    if xs == [] {
      assert [] + [y] == [y];
      assert [y][1..] == [];
    } else {
      assert (xs + [y])[1..] == xs[1..] + [y];
      FoldFromSnoc(cfg, xs[0], xs[1..], y);
    }
  }

  /** A fold that succeeds on `xs + [y]` succeeded on `xs`. */
  lemma UnionSetPrefixOk(cfg: Settings, xs: seq<Schema>, y: Schema)
    requires UnionSet(cfg, xs + [y]).Ok?
    ensures UnionSet(cfg, xs).Ok?
  {
    UnionSetSnoc(cfg, xs, y);
  }

  /** Empty input: `Unknown()` for a list, TypeError for a lazy iterable. One
      element: that element, unchanged, for both. */
  lemma ReduceEmptyAndSingleton(cfg: Settings, x: Schema)
    ensures ReduceSchema(cfg, List([])) == Ok(Unknown)
    ensures ReduceSchema(cfg, Lazy([])) == Err(TypeError)
    ensures ReduceSchema(cfg, List([x])) == Ok(x)
    ensures ReduceSchema(cfg, Lazy([x])) == Ok(x)
  {
  }

  /** A list and a lazy iterable with the same non-empty contents fold alike. */
  lemma LazyAgreesWhenNonEmpty(cfg: Settings, xs: seq<Schema>)
    requires xs != []
    ensures ReduceSchema(cfg, Lazy(xs)) == ReduceSchema(cfg, List(xs))
  {
  }

  /** Folds of two and three schemas, spelled out. */
  lemma FoldOfTwo(cfg: Settings, x: Schema, y: Schema)
    ensures UnionSet(cfg, [x, y]) == Merge(cfg, x, y)
  {
    assert [x, y][1..] == [] + [y];
    FoldFromSnoc(cfg, x, [], y);
  }

  lemma FoldOfThree(cfg: Settings, x: Schema, y: Schema, z: Schema)
    ensures UnionSet(cfg, [x, y, z]) == MergeInto(cfg, Merge(cfg, x, y), z)
  {
    assert [x, y, z][1..] == [y] + [z];
    FoldFromSnoc(cfg, x, [y], z);
    FoldOfTwo(cfg, x, y);
  }

  /** The same three schemas folded in two orders give different schemas: null
      last is absorbed as a Union member, null first wraps the Union in
      Optional. */
  lemma ReduceIsOrderDependent(cfg: Settings)
    ensures UnionSet(cfg, [IntS, FloatS, Null]) == Ok(Union({IntS, FloatS, Null}))
    ensures UnionSet(cfg, [Null, IntS, FloatS]) == Ok(Optional(Union({IntS, FloatS})))
  {
    FoldOfThree(cfg, IntS, FloatS, Null);
    FoldOfThree(cfg, Null, IntS, FloatS);
    assert {IntS, FloatS} + {Null} == {IntS, FloatS, Null};
  }

  const RecA: Schema := Record(map["a" := IntS])
  const RecAB: Schema := Record(map["a" := IntS, "b" := FloatS])
  const DynAB: Schema := DynamicRecord(map["a" := IntS, "b" := FloatS], map["a" := 2, "b" := 1])

  /** `{'a': int} | {'a': int, 'b': float}` in kind mode. */
  lemma RecAThenRecAB(cfg: Settings)
    requires cfg.mode == Kind
    ensures Merge(cfg, RecA, RecAB) == Ok(DynAB)
  {
    var fa, fab := RecA.fields, RecAB.fields;
    assert "b" !in fa;
    KindModeDifferingKeys(cfg, fa, fab);
    var r := Merge(cfg, RecA, RecAB).value;
    assert r.fields == fab;
    assert r.counts == map["a" := 2, "b" := 1];
  }

  /** The scalar and list cases of `test_set` (kind mode). */
  lemma ReduceOracles(cfg: Settings)
    requires cfg.mode == Kind
    ensures UnionSet(cfg, []) == Ok(Unknown)
    ensures UnionSet(cfg, [IntS, FloatS]) == Ok(Union({IntS, FloatS}))
    ensures UnionSet(cfg, [IntS, Null]) == Ok(Optional(IntS))
    ensures UnionSet(cfg, [Array(IntS), Array(FloatS), RecAB]) == Ok(Union({Array(Union({IntS, FloatS})), RecAB}))
  {
    FoldOfTwo(cfg, IntS, FloatS);
    FoldOfTwo(cfg, IntS, Null);
    FoldOfThree(cfg, Array(IntS), Array(FloatS), RecAB);
    assert Merge(cfg, Array(IntS), Array(FloatS)) == Ok(Array(Union({IntS, FloatS})));
    assert Merge(cfg, Array(Union({IntS, FloatS})), RecAB) == BaseOr(cfg, Array(Union({IntS, FloatS})), RecAB);
    assert Array(Union({IntS, FloatS})) != RecAB;
  }

  /** The record cases of `test_set` (kind mode): Records with different keys
      fold into a DynamicRecord, and a leading null makes the result
      Optional. */
  lemma ReduceRecordOracles(cfg: Settings)
    requires cfg.mode == Kind
    ensures UnionSet(cfg, [RecA, RecAB]) == Ok(DynAB)
    ensures UnionSet(cfg, [Null, RecA]) == Ok(Optional(RecA))
    ensures UnionSet(cfg, [Null, RecA, RecAB]) == Ok(Optional(DynAB))
  {
    RecAThenRecAB(cfg);
    FoldOfTwo(cfg, RecA, RecAB);
    FoldOfTwo(cfg, Null, RecA);
    FoldOfThree(cfg, Null, RecA, RecAB);
  }

  /** `schemas` lists the values of `fields` in the order of `order`. */
  function FieldValues(fields: map<string, Schema>, order: seq<string>): (vs: seq<Schema>)
    requires forall i :: 0 <= i < |order| ==> order[i] in fields
    ensures |vs| == |order| && forall i :: 0 <= i < |order| ==> vs[i] == fields[order[i]]
  {
    if order == [] then [] else [fields[order[0]]] + FieldValues(fields, order[1..])
  }

  /** `order` lists every key of `fields` exactly once: the insertion order of
      the Python dict. */
  predicate IsKeyOrder(order: seq<string>, fields: map<string, Schema>) {
    && (forall i, j :: 0 <= i < j < |order| ==> order[i] != order[j])
    && (forall i :: 0 <= i < |order| ==> order[i] in fields)
    && (forall k :: k in fields ==> k in order)
  }

  /** `Record.to_uniform_dict`: `UniformRecord(Union.set(values))`, the values
      taken in the dict's key order. */
  function ToUniformDict(cfg: Settings, r: Schema, order: seq<string>): (u: Result<Schema>)
    requires IsRecordLike(r) && IsKeyOrder(order, r.fields)
    ensures u.Ok? ==> u.value.UniformRecord?
  {
    var content :- UnionSet(cfg, FieldValues(r.fields, order));
    Ok(UniformRecord(content))
  }

  /** An empty Record collapses to `UniformRecord(Unknown())`; a one-field
      Record to `UniformRecord` of its only value; and the collapse of
      `{'a': int, 'b': float}` is `UniformRecord(Union({int, float}))`. */
  lemma ToUniformDictCases(cfg: Settings, k: string, v: Schema)
    ensures ToUniformDict(cfg, Record(map[]), []) == Ok(UniformRecord(Unknown))
    ensures ToUniformDict(cfg, Record(map[k := v]), [k]) == Ok(UniformRecord(v))
    ensures ToUniformDict(cfg, RecAB, ["a", "b"]) == Ok(UniformRecord(Union({IntS, FloatS})))
  {
    assert FieldValues(map[k := v], [k]) == [v];
    assert FieldValues(RecAB.fields, ["a", "b"]) == [IntS, FloatS];
    FoldOfTwo(cfg, IntS, FloatS);
  }
}
