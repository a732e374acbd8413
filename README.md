# Schema inference algebra of jsonschema_inference

This project models the part of jsonschema_inference that turns many decoded
JSON documents into one schema:

- the schema variants `Unknown`, `Atomic`, `Array`, `Record`,
  `DynamicRecord` (a field map plus a per-key occurrence counter),
  `UniformRecord`, `Union` and `Optional`;
- the merge operator `|` (`Algebra.Merge`). It dispatches on the class of the
  left operand exactly as the Python `__or__` methods do, and falls back to
  `_base_or`;
- the fold `Union.set` / `reduce_schema` (module `Reduction`);
- the fitter `fit` and `try_unify_dict` (module `Fitter`);
- `InferenceEngine.get_schema` (module `Inference`) and
  `_batchwise_generator` (module `Batching`);
- the `Config` object with its `init`, its two properties and the
  module-level instance (module `Configuration`).

The settings the algebra reads (`unify_records`, `equivalence_mode`) are
passed to every operation as a `Settings` value. `Configuration.Config.Current`
produces that value from the class.

Besides the main algebra there are three kind-mode-only copies. These copies
(`src/jsonschema_inference/schema/objs.py`,
`src/jsonschema_inference/schema/objs/records.py` and the old-name copy
`common/schema/objs.py`, where `Simple`, `List`, `Dict`, `DynamicDict` and
`UniformDict` stand for `Atomic`, `Array`, `Record`, `DynamicRecord` and
`UniformRecord`) are `Merge` with the mode set to `Kind`. The three copies
of `get_schema` are one function, `Inference.GetSchema`.

Behaviour of the code that the model keeps as written:

- `_content is None` holds for both `Atomic(None)` and `Unknown()`.
- A plain `Union` merged with a non-empty `Union` or with an `Optional`
  raises TypeError, because `set |= schema` is not defined in Python. The
  model returns `Err(TypeError)` there. As a consequence,
  `fit([[1, 1.2], [1, 1.2]])` raises (`FitExamples.NestedUnionsRaise`).
- `|` is neither commutative nor idempotent, and folds depend on order
  (`BasicLaws.NullAndUnionDoNotCommute`,
  `BasicLaws.UnionSelfMergeRaises`,
  `RecordLaws.DynamicSelfMergeDoubles`,
  `Reduction.ReduceIsOrderDependent`).
- `get_schema` hands a lazy `map` object to the fold. That object is always
  true, so an empty batch raises TypeError instead of giving `Unknown()`.
- The key counter of a DynamicRecord does not count occurrences per
  document. A leading run of Records with the same key set first merges into
  one Record, which is then counted once. For the batch `{'a': 1, 'b': 2}`,
  `{'a': 1, 'b': 5}`, `{'a': 1}` in kind mode, the counter is
  `{'a': 2, 'b': 1}`, not `{'a': 3, 'b': 2}` (`Inference.ThreeDocumentBatch`,
  `RecordFolds.CountsMissTheAgreeingPrefix`).
- `_batchwise_generator` with `batch_size == 0` raises ZeroDivisionError
  only once there is a first element. With a negative size, Python's floored
  `%` never equals `batch_size - 1`, so the whole input comes out as one
  batch.
- `init` writes `_unify_records` before it checks the mode. A rejected mode
  therefore leaves the new `unify_records` next to the old mode.

## Model

| member | source | states |
|---|---|---|
| Algebra.CountKeys | jsonschema_inference/schema/objs/records.py:110-117 | the counter built for two Records has every key of either side, with count 2 for a shared key and 1 for a one-sided key |
| Algebra.IncrementCounts | jsonschema_inference/schema/objs/records.py:99-100 | adding 1 per key of the Record: those keys gain exactly one, every other count is unchanged, and the key set grows by those keys |
| Algebra.AddCounts | jsonschema_inference/schema/objs/records.py:106-107 | `Counter +`: counts add per key, and a key is kept exactly when its sum is positive |
| Algebra.Merge | jsonschema_inference/schema/objs/basic.py:119-122 | the only exception `\|` can raise is the TypeError of or-ing a member set with a Union |
| Algebra.BaseOr | jsonschema_inference/schema/objs/basic.py:34-54 | `_base_or` raises nothing but TypeError; its branches (equal or `Unknown()` operand, null on either side, a Union operand swapped in, the two-member Union) are stated by the `BasicLaws` lemmas |
| Algebra.MergedFields | jsonschema_inference/schema/objs/records.py:119-132 | `__merge_common_fields` gives a field map over exactly the union of both key sets, or TypeError; `RecordLaws.MergedFieldsMeaning` states the value of each field |
| Algebra.UnionOr | jsonschema_inference/schema/objs/basic.py:117-127 | `Union.__or__`, when it succeeds, gives a Union that keeps every original member |
| BasicLaws.UnknownIsLeftIdentity | jsonschema_inference/schema/objs/basic.py:87-88 | `Unknown() \| e` is `e` for every `e` |
| BasicLaws.UnknownOnTheRight | jsonschema_inference/schema/objs/basic.py:37-38 | `a \| Unknown()` is `a`, except that a plain Union takes `Unknown()` in as a member |
| BasicLaws.FallbackKeepsLeft | jsonschema_inference/schema/objs/basic.py:37-38 | the fallback returns its left operand when the right one equals it or is `Unknown()` |
| BasicLaws.NullOnTheLeft | jsonschema_inference/schema/objs/basic.py:40-47 | `Atomic(None) \| y` is null for null-content `y`, `y` for an Optional, and `Optional(y)` otherwise, a plain Union included; also common/schema/objs.py:63-70: the same rule in the old-name copy |
| BasicLaws.NullOnTheRight | jsonschema_inference/schema/objs/basic.py:48-49 | a non-null fallback operand merged with null gives `Optional(a)` |
| BasicLaws.FallbackSwapsIntoUnion | jsonschema_inference/schema/objs/basic.py:50-52 | with a Union operand the fallback swaps to `u \| a`: a plain Union gains `a`, and `Optional(p)` becomes `Optional(p \| a)` or stays as it is when `p == a` |
| BasicLaws.DistinctFormUnion | jsonschema_inference/schema/objs/basic.py:53-54 | two distinct non-null operands with no own rule form `Union({a, b})`, in either order; also src/jsonschema_inference/schema/objs.py:44-64: the same fallback in the kind-only copy |
| BasicLaws.UnionInsertion | jsonschema_inference/schema/objs/basic.py:124-127 | `Union(s) \| e` for a non-Union `e` is `Union(s + {e})`, plain set insertion with no merge; also common/schema/objs.py:160-170: the same insertion in the old-name copy |
| BasicLaws.UnionOperandRaises | jsonschema_inference/schema/objs/basic.py:119-123 | a plain Union merged with a non-empty Union or an Optional raises TypeError; an empty Union operand leaves it unchanged |
| BasicLaws.OptionalAbsorbs | jsonschema_inference/schema/objs/basic.py:144-145 | `Optional(x) \| e` is `Optional(x)` when `e` has null content, equals it, or equals `x` |
| BasicLaws.OptionalMergesPayload | jsonschema_inference/schema/objs/basic.py:146-155 | otherwise the payload is merged with the other side's payload (or with `e` itself) and wrapped in Optional, raising when that merge raises; also common/schema/objs.py:184-198: the same rule in the old-name copy |
| BasicLaws.BasicOracles | tests/test_schema_objs.py:105-125 | the Atomic, Union and Optional cases of the merge tests |
| BasicLaws.NullAndUnionDoNotCommute | jsonschema_inference/schema/objs/basic.py:40-47 | `Union({int, float}) \| null` and `null \| Union({int, float})` differ |
| BasicLaws.UnionSelfMergeRaises | jsonschema_inference/schema/objs/basic.py:119-123 | `u \| u` raises for every non-empty Union |
| ArrayLaws.ArrayPointwise | src/jsonschema_inference/schema/objs/array.py:24-28 | `Array(x) \| Array(y)` succeeds exactly when `x \| y` does, and is then `Array(x \| y)`; also common/schema/objs.py:117-123: the same rule for `List` |
| ArrayLaws.UnknownContentIsNeutral | src/jsonschema_inference/schema/objs/array.py:24-28 | `Array(Unknown()) \| Array(y)` is `Array(y)` |
| ArrayLaws.ArraySelfMerge | src/jsonschema_inference/schema/objs/array.py:24-28 | `Array(x) \| Array(x)` is `Array(x)` exactly when `x \| x` is `x` |
| ArrayLaws.ArrayFallback | src/jsonschema_inference/schema/objs/array.py:29-30 | with a non-Array operand: `Unknown()` keeps the Array, null gives `Optional(Array)`, a Union swaps, anything else forms a two-member Union |
| ArrayLaws.ArrayOracles | tests/test_schema_objs.py:101-130 | the Array cases of the merge tests, `Array(float) \| Array(Optional(float))` included |
| RecordLaws.MergedFieldsMeaning | jsonschema_inference/schema/objs/records.py:119-132 | the common-fields pass succeeds exactly when every shared field merges; its keys are the union of both key sets, shared fields merged, one-sided fields copied |
| RecordLaws.SameKeysMergePointwise | jsonschema_inference/schema/objs/records.py:40-45 | Records with equal key sets merge into a Record with those keys, field by field, and raise exactly when a field merge raises; also src/jsonschema_inference/schema/objs/records.py:42-45: the same rule in the kind-only copy |
| RecordLaws.KindModeDifferingKeys | jsonschema_inference/schema/objs/records.py:46-49 | in kind mode, differing key sets give a DynamicRecord over the merged fields with counts 2 for shared keys and 1 for the others; also src/jsonschema_inference/schema/objs/records.py:46-61: the kind-only copy does the same whatever the configuration; also src/jsonschema_inference/schema/objs.py:215-230: the monolithic copy does the same; also common/schema/objs.py:228-243: the old-name copy does the same for `Dict` |
| RecordLaws.LabelModeDifferingKeys | jsonschema_inference/schema/objs/records.py:50-51 | in label mode, differing key sets give `Union({a, b})` |
| RecordLaws.DynamicPlusRecord | jsonschema_inference/schema/objs/records.py:89-101 | `DynamicRecord \| Record` merges the fields and adds 1 to the count of each key of the Record, leaving other counts unchanged; also src/jsonschema_inference/schema/objs/records.py:103-116: the same rule in the kind-only copy; also common/schema/objs.py:290-303: the same rule for `DynamicDict \| Dict` |
| RecordLaws.RecordDelegatesToDynamic | jsonschema_inference/schema/objs/records.py:38-39 | `Record \| DynamicRecord` equals `DynamicRecord \| Record` and is a DynamicRecord; also src/jsonschema_inference/schema/objs.py:206-207: the same delegation in the monolithic copy |
| RecordLaws.DynamicPlusDynamic | jsonschema_inference/schema/objs/records.py:85-88 | `DynamicRecord \| DynamicRecord` merges the fields and adds the counters; also src/jsonschema_inference/schema/objs.py:259-271: the same rule in the monolithic copy |
| RecordLaws.DynamicSelfMergeDoubles | jsonschema_inference/schema/objs/records.py:103-107 | merging a DynamicRecord with itself doubles every count, so the result differs from it |
| RecordLaws.UniformRecordPointwise | jsonschema_inference/schema/objs/records.py:151-157 | `UniformRecord(x) \| UniformRecord(y)` is `UniformRecord(x \| y)`; any other operand goes through the fallback; also common/schema/objs.py:324-330: the same rule for `UniformDict` |
| RecordLaws.RecordOracles | tests/test_schema_objs.py:131-138 | the record cases of the merge tests |
| RecordLoops.MergeCommonFields | jsonschema_inference/schema/objs/records.py:119-132 | the loop over the union of keys computes the common-fields map, or raises when a shared field does |
| RecordLoops.MergeLabelEqualFields | jsonschema_inference/schema/objs/records.py:55-59 | the in-place loop over the keys of equal-key Records gives the common-fields map |
| RecordLoops.IncrementKeys | jsonschema_inference/schema/objs/records.py:99-100 | the increment loop over a Counter gives `IncrementCounts` |
| RecordLoops.CountKeysByIncrements | jsonschema_inference/schema/objs/records.py:111-116 | two increment passes from an empty Counter give the 2/1 counter |
| RecordLoops.MergeRecordsAsDynamic | jsonschema_inference/schema/objs/records.py:109-117 | the DynamicRecord of two Records: merged fields and the 2/1 counter; it is `\|` on Records with differing keys in kind mode |
| RecordLoops.MergeDynamicWithRecord | jsonschema_inference/schema/objs/records.py:96-101 | the in-place counter update gives `DynamicRecord \| Record` |
| RecordLoops.MergeDynamicRecords | jsonschema_inference/schema/objs/records.py:103-107 | the common-fields pass and counter sum give `DynamicRecord \| DynamicRecord` |
| RecordLoops.UnionWith | jsonschema_inference/schema/objs/basic.py:117-127 | the copy-and-add loop of `Union.__or__`, raising on a member of a Union operand |
| Reduction.FoldFrom | jsonschema_inference/schema/inference/reduce.py:9 | `reduce(lambda a, b: a \| b, …)` from a start value raises only TypeError; its step law is `FoldFromSnoc` |
| Reduction.ReduceSchema | jsonschema_inference/schema/inference/reduce.py:7-12 | `reduce_schema` raises only TypeError; `ReduceEmptyAndSingleton` and `LazyAgreesWhenNonEmpty` state its truthiness cases |
| Reduction.UnionSet | jsonschema_inference/schema/objs/basic.py:96-101 | `Union.set` of an empty list is `Unknown()`, of one schema that schema, and it raises only TypeError |
| Reduction.SnocFold | jsonschema_inference/schema/inference/reduce.py:9 | the reference left fold, defined by its last step: one schema folds to itself and only TypeError is raised; `ReduceIsLeftFold` proves the fold equal to it |
| Reduction.FoldFromSnoc | jsonschema_inference/schema/inference/reduce.py:9 | one more element merges into the fold, and an exception passes through |
| Reduction.ReduceIsLeftFold | jsonschema_inference/schema/inference/reduce.py:9 | on a non-empty list the fold is `((s1 \| s2) \| s3) ...` |
| Reduction.UnionSetSnoc | jsonschema_inference/schema/objs/basic.py:95-101 | `Union.set(xs + [y])` merges `y` into `Union.set(xs)`, for empty `xs` too |
| Reduction.UnionSetPrefixOk | jsonschema_inference/schema/objs/basic.py:97-98 | a fold that succeeds succeeded on every prefix |
| Reduction.ReduceEmptyAndSingleton | jsonschema_inference/schema/inference/reduce.py:7-12 | an empty list gives `Unknown()`, an empty lazy iterable raises TypeError, a single element comes back unchanged; also src/jsonschema_inference/schema/objs.py:126-131: the same for `Union.set` of the monolithic copy |
| Reduction.LazyAgreesWhenNonEmpty | jsonschema_inference/schema/inference/reduce.py:8-9 | a lazy iterable and a list with the same non-empty contents fold alike |
| Reduction.FoldOfTwo | jsonschema_inference/schema/objs/basic.py:98 | the fold of two schemas is their merge |
| Reduction.FoldOfThree | jsonschema_inference/schema/objs/basic.py:98 | the fold of three schemas merges the third into the merge of the first two |
| Reduction.ReduceIsOrderDependent | jsonschema_inference/schema/objs/basic.py:95-101 | `[int, float, None]` and `[None, int, float]` fold to different schemas |
| Reduction.RecAThenRecAB | jsonschema_inference/schema/objs/records.py:46-49 | `{'a': int} \| {'a': int, 'b': float}` in kind mode is the DynamicRecord with counts a:2, b:1 |
| Reduction.ReduceOracles | tests/test_schema_objs.py:144-148 | the scalar and list cases of `test_set`: the empty list gives `Unknown()`, int and float give their Union, int and null give `Optional(int)`, two Arrays and a Record give a Union of the merged Array and the Record |
| Reduction.ReduceRecordOracles | tests/test_schema_objs.py:156-164 | the record cases of `test_set`: two Records with different keys give a DynamicRecord counting `a` twice and `b` once; a leading null makes the result Optional |
| Reduction.FieldValues | jsonschema_inference/schema/objs/records.py:62 | the values of a Record listed in key order |
| Reduction.ToUniformDict | jsonschema_inference/schema/objs/records.py:61-64 | `to_uniform_dict` gives a UniformRecord or raises |
| Reduction.ToUniformDictCases | tests/test_schema_objs.py:167-169 | an empty Record gives `UniformRecord(Unknown())`, a one-field Record the field's schema, `{a: int, b: float}` the Union of both |
| RecordFolds.SameKeysPrefix | jsonschema_inference/schema/objs/records.py:43-45 | the longest run of Records that share the first key set |
| RecordFolds.KindFoldOfRecords | jsonschema_inference/schema/objs/records.py:84-117 | in kind mode a fold of Records is a Record while the key sets agree, and otherwise a DynamicRecord over all keys whose counter counts the agreeing run once |
| RecordFolds.CountsMissTheAgreeingPrefix | jsonschema_inference/schema/objs/records.py:96-117 | the counter equals the per-document occurrences minus those of the agreeing run beyond its first Record |
| RecordFolds.CountsAreOccurrencesWhenSecondDiffers | jsonschema_inference/schema/objs/records.py:96-117 | when the second Record already differs, the counter is the per-document occurrence count |
| Invariants.PlainOperandsGivePlainResult | jsonschema_inference/schema/objs/basic.py:34-54 | merging operands that are neither null, `Unknown()` nor Optional never gives one of those |
| Invariants.MergeKeepsWellFormed | jsonschema_inference/schema/objs/basic.py:117-155 | merging well-formed schemas gives a well-formed schema: Unions of at least two non-Union members, non-null Optional payloads, DynamicRecord counters over exactly the field keys, each at least 1 |
| Invariants.BaseOrKeepsWellFormed | jsonschema_inference/schema/objs/basic.py:34-54 | the fallback keeps schemas well formed |
| Invariants.MergedFieldsKeepWellFormed | jsonschema_inference/schema/objs/records.py:119-132 | the common-fields pass keeps every field well formed |
| Invariants.FoldKeepsWellFormed | jsonschema_inference/schema/inference/reduce.py:9 | folding well-formed schemas gives a well-formed schema |
| Invariants.ReduceKeepsWellFormed | jsonschema_inference/schema/inference/reduce.py:7-12 | `reduce_schema` of well-formed schemas is well formed |
| Invariants.SelfMergeIsIdentity | jsonschema_inference/schema/objs/basic.py:37-38 | `s \| s` is `s` when `s` has no Union and no DynamicRecord outside an Optional |
| Invariants.FoldOfCopies | jsonschema_inference/schema/objs/basic.py:95-101 | folding copies of such a schema gives it back |
| Invariants.NestedRecordOracle | tests/test_schema_objs.py:149-150 | `Union.set` of three copies of a nested Record is that Record |
| Fitter.Fit | src/jsonschema_inference/schema/fitter.py:5-21 | `fit` raises only TypeError; a list fits to an Array, and a dict to a Record or (after `try_unify_dict`) a UniformRecord |
| Fitter.TryUnifyDict | src/jsonschema_inference/schema/fitter.py:24-30 | `try_unify_dict` returns the Record unchanged or a UniformRecord, or raises TypeError |
| Fitter.FitAll | src/jsonschema_inference/schema/fitter.py:16 | fitting a list of values succeeds exactly when every element fits, and gives their fits in order |
| Fitter.FitFields | src/jsonschema_inference/schema/fitter.py:7-11 | the field map of a dict has its keys in insertion order, each mapped to the fit of its value |
| Fitter.FitDictFields | src/jsonschema_inference/schema/fitter.py:7-11 | the loop over the keys of a dict builds that field map |
| Fitter.FitScalars | src/jsonschema_inference/schema/fitter.py:17-20 | `None` fits to null, and bool, int, float and str to distinct `Atomic` types |
| Fitter.FitList | src/jsonschema_inference/schema/fitter.py:15-16 | a list fits to the Array of the left fold of its elements' fits, `[]` to `Array(Unknown())` |
| Fitter.FitDictWithoutUnify | src/jsonschema_inference/schema/fitter.py:6-14 | with `unify_records` off a dict fits to a Record with the same keys, each value fitted |
| Fitter.UnifyCollapsesExactlyOnUniformShape | src/jsonschema_inference/schema/fitter.py:24-30 | `try_unify_dict` replaces the Record exactly when the union of its values is a Record, DynamicRecord or Array |
| Fitter.FitIsWellFormed | src/jsonschema_inference/schema/fitter.py:5-21 | every schema `fit` returns is well formed |
| FitExamples.FitListOracles | tests/test_schema_fitter.py:6-15 | for every int and float: `fit(1)` is `Atomic(int)`, `fit(1.2)` is `Atomic(float)`, `fit([1])` is `Array(Atomic(int))`, and `fit([])` is `Array(Unknown())` (lines 6-8 and 15) |
| FitExamples.FitNullPlacementOracles | tests/test_schema_fitter.py:10-12 | `fit([1, None])` is `Array(Optional(int))`, while `fit([1, 1.2, None])` keeps null as a third Union member |
| FitExamples.FitDictOracle | tests/test_schema_fitter.py:9 | `fit({'a': 1, 'b': 2})` is the Record of two ints, for every pair of ints |
| FitExamples.FitDictWithNullOracle | tests/test_schema_fitter.py:21-24 | `fit({'a': 34, 'b': None})` is the Record of an int and null, with unification on or off |
| FitExamples.FitListOfDictsOracle | tests/test_schema_fitter.py:13-14 | a list of two such dicts fits to the Array of that Record |
| FitExamples.MergeInnerRecords | tests/test_schema_fitter.py:21-24 | `{a: int, b: int} \| {a: int, b: None}` is `{a: int, b: Optional(int)}` |
| FitExamples.FitUnifyKeepsScalarDict | tests/test_schema_fitter.py:19-20 | with unification on, a dict of ints stays a Record |
| FitExamples.CollapseTwoKeyDict | src/jsonschema_inference/schema/fitter.py:13-14 | with unification on, a two-key dict whose values merge to a Record, a DynamicRecord or an Array fits to a UniformRecord of that merge |
| FitExamples.FitUnifyDictOfDicts | tests/test_schema_fitter.py:21-24 | a dict of two dicts collapses to `UniformRecord({a: int, b: Optional(int)})` |
| FitExamples.FitUnifyDictOfLists | tests/test_schema_fitter.py:25-28 | a dict of two lists of dicts collapses to a UniformRecord of an Array |
| FitExamples.FitIntFloatList | src/jsonschema_inference/schema/fitter.py:15-16 | a list of an int and a float fits to the Array of their two-member Union |
| FitExamples.NestedUnionsRaise | src/jsonschema_inference/schema/fitter.py:15-16 | `fit([[1, 1.2], [1, 1.2]])` raises TypeError, because both inner Arrays hold a Union |
| Inference.GetSchema | jsonschema_inference/schema/inference/base.py:14-16 | `get_schema` raises TypeError on an empty batch, and succeeds only when every document fits; also common/schema/inference/base.py:13-15: the old-name copy, with unification on |
| Inference.GetSchemaIsLeftFoldOfFits | jsonschema_inference/schema/inference/base.py:14-16 | on a non-empty batch the schema is the left fold of the documents' fits, in input order; also src/jsonschema_inference/schema/inference/base.py:13-15: the same, `Union.set` over the fits |
| Inference.GetSchemaSnoc | jsonschema_inference/schema/inference/base.py:14-16 | one more document merges its fit into the schema so far |
| Inference.GetSchemaIsWellFormed | jsonschema_inference/schema/inference/base.py:14-16 | every schema `get_schema` returns is well formed |
| Inference.ThreeDocumentBatch | jsonschema_inference/schema/inference/base.py:14-16 | the batch `{a:1,b:2}`, `{a:1,b:5}`, `{a:1}` in kind mode, for any int values, gives a DynamicRecord over `a` and `b` with counts a:2, b:1 |
| Batching.PyMod | jsonschema_inference/schema/inference/base.py:23 | Python's `%`: the remainder lies between 0 and the divisor, has the divisor's sign, and differs from `i` by a multiple of it |
| Batching.Batches | jsonschema_inference/schema/inference/base.py:19-28 | the generator raises exactly for a zero size and non-empty input, with ZeroDivisionError; every batch is non-empty |
| Batching.FlattenChunks | jsonschema_inference/schema/inference/base.py:19-28 | the chunks concatenate to the input |
| Batching.ChunksCount | jsonschema_inference/schema/inference/base.py:20-28 | there are ceil(n / size) chunks |
| Batching.ChunksFull | jsonschema_inference/schema/inference/base.py:21-26 | every chunk but the last holds exactly `size` elements |
| Batching.ChunksLast | jsonschema_inference/schema/inference/base.py:27-28 | the last chunk holds `n % size` elements, or `size` when that is 0 |
| Batching.BatchesMeaning | jsonschema_inference/schema/inference/base.py:19-28 | for a non-zero size: the batches concatenate to the input, empty input yields none, a negative size yields one batch, and for a positive size the count, fullness and a short last batch exactly when the size does not divide n; also src/jsonschema_inference/schema/inference/base.py:18-27: the same generator in the kind-only copy; also common/schema/inference/base.py:18-27: the same generator in the old-name copy |
| Batching.DefaultBatchSize | jsonschema_inference/schema/inference/base.py:19-28 | with the default `batch_size=100` the batches concatenate to the input, there are ceil(n / 100) of them, all but the last hold 100 elements and the last holds 1 to 100 |
| Batching.Batchwise | jsonschema_inference/schema/inference/base.py:19-28 | the append-and-reset loop yields exactly `Batches` |
| Configuration.Config.constructor | jsonschema_inference/config.py:14-17 | the defaults are `unify_records=True` and `equivalence_mode='kind'` |
| Configuration.Config.Init | jsonschema_inference/config.py:19-22 | `unify_records` is always overwritten, by `True` when left out; the mode (by default `kind`) is set exactly when it is `kind` or `label`, and otherwise AssertionError leaves it unchanged |
| Configuration.Config.Current | jsonschema_inference/config.py:24-30 | the properties, as the settings the algebra reads |
| Configuration.NewConfig | jsonschema_inference/config.py:14-17 | `Config(u, m)` (by default `True` and `kind`) is a fresh instance with exactly those values, or AssertionError for any other mode |
| Configuration.DefaultsAreKindWithUnify | jsonschema_inference/config.py:33 | the module-level `config` gives unification on and kind mode |
| Configuration.InitDefaultArguments | jsonschema_inference/config.py:19-22 | `init(equivalence_mode='label')` after `init(False, 'kind')` sets `unify_records` back to `True`, and `init()` restores both defaults |
| Configuration.FailedInitThroughAlias | jsonschema_inference/config.py:33-34 | a rejected `init` on the shared instance is seen through every reference: new `unify_records`, old mode |

## Left out

- Python's `==` on schemas is asymmetric (`isinstance(self, type(e))`) and ignores DynamicRecord counters. The model uses structural equality, so an Optional and a Union with the same members, or two DynamicRecords with the same fields and different counters, are different here.
- `__hash__` and `__repr__` are text rendering and hashing, and are not modelled.
- `copy.deepcopy` is not needed: all schema values are immutable in the model, so no aliasing between operands and results exists.
- `get_schema` is lazy: `map` fits a document only when the fold asks for it. The model fits all documents first. Both orders end in TypeError when anything fails, so only which document raises first is not captured.
- The `unify_callback` fitter used by the tests and by `common/schema/inference/base.py` is not part of this model; `fit` reads `unify_records` instead.
- `src/jsonschema_inference/config.py` holds only a docstring and is not part of this model; the configuration is that of `jsonschema_inference/config.py`.
- The `check_content` assertions (an Array, UniformRecord or Union whose content is not a schema) cannot fail in the model, because its types enforce them.
- A dict with a repeated key cannot exist in Python; `Fitter.ValidJson` requires distinct keys instead of modelling the loss of a duplicate.
- Counter counts are natural numbers; negative counts never arise from the modelled operations.
- Floats are exact reals, and JSON numbers that Python decodes as `int` or `float` are distinct constructors.
- The module-level `init` is modelled as a call on one shared `Config` instance reached through two references, not as a Python module global.
- `jsonschema_inference/inference/api.py` (HTTP, filters, persistence), the CLI, remote execution, thread pools and file I/O are outside the algebra and not modelled.
