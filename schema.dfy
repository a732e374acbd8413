/** The schema values of the inference algebra, the configuration snapshot the
    algebra reads, and the outcome of an operation that can raise. */
module Schemas {

  datatype Option<+T> = None | Some(value: T)

  /** The Python scalar types a decoded JSON document can hold besides `None`:
      `bool`, `int`, `float` and `str` are distinct tags. */
  datatype Prim = Bool | Int | Float | Str

  /** `equivalence_mode`: what happens when two Records have different key sets. */
  datatype Mode = Kind | Label

  /** The two configuration values, as read by the fitter and the merge. */
  datatype Settings = Settings(unifyRecords: bool, mode: Mode)

  /** The defaults of the configuration object. */
  const DefaultSettings := Settings(true, Kind)

  /** One schema variant per schema class. `Atomic(None)` is the null schema.
      A DynamicRecord keeps its field map and its per-key occurrence counter. */
  datatype Schema =
    | Unknown
    | Atomic(kind: Option<Prim>)
    | Array(content: Schema)
    | Record(fields: map<string, Schema>)
    | DynamicRecord(fields: map<string, Schema>, counts: map<string, nat>)
    | UniformRecord(content: Schema)
    | Union(members: set<Schema>)
    | Optional(payload: Schema)

  /** The Python exceptions the core raises. */
  datatype Error = TypeError | ZeroDivisionError | AssertionError

  datatype Result<+T> = Ok(value: T) | Err(error: Error) {
    predicate IsFailure() { Err? }
    function PropagateFailure<U>(): Result<U> requires Err? { Err(error) }
    function Extract(): T requires Ok? { value }
  }

  const Null: Schema := Atomic(None)
  const IntS: Schema := Atomic(Some(Int))
  const FloatS: Schema := Atomic(Some(Float))

  /** `_content is None`: true of the null schema and of `Unknown`. */
  predicate HasNullContent(s: Schema) {
    s == Null || s.Unknown?
  }

  /** `isinstance(s, Union)`: `Optional` is a subclass of `Union`. */
  predicate IsUnionLike(s: Schema) {
    s.Union? || s.Optional?
  }

  /** `isinstance(s, Record)`: `DynamicRecord` is a subclass of `Record`. */
  predicate IsRecordLike(s: Schema) {
    s.Record? || s.DynamicRecord?
  }

  /** Number of `Schema` nodes, counting a Union as one node (the merge never
      descends into Union members). Used only to prove that merging terminates. */
  ghost function Size(s: Schema): nat
    decreases s
  {
    match s
    case Record(f) => 1 + FieldsSize(s, f.Keys)
    case DynamicRecord(f, _) => 1 + FieldsSize(s, f.Keys)
    case Array(x) => 1 + Size(x)
    case UniformRecord(x) => 1 + Size(x)
    case Optional(x) => 1 + Size(x)
    case _ => 1
  }

  ghost function PickKey(ks: set<string>): string
    requires ks != {}
  {
    var k :| k in ks; k
  }

  ghost function FieldsSize(owner: Schema, ks: set<string>): nat
    requires IsRecordLike(owner) && ks <= owner.fields.Keys
    decreases owner, ks
  {
    if ks == {} then 0
    else
      var k := PickKey(ks);
      Size(owner.fields[k]) + FieldsSize(owner, ks - {k})
  }

  lemma {:induction false} FieldsSizeBound(owner: Schema, ks: set<string>, k: string)
    requires IsRecordLike(owner) && ks <= owner.fields.Keys && k in ks
    ensures Size(owner.fields[k]) <= FieldsSize(owner, ks)
    decreases ks
  {
    var k' := PickKey(ks);
    if k != k' {
      FieldsSizeBound(owner, ks - {k'}, k);
    }
  }

  /** Every field of a record-like schema is smaller than the record. */
  lemma FieldsSmaller(s: Schema)
    ensures IsRecordLike(s) ==> forall k :: k in s.fields ==> Size(s.fields[k]) < Size(s)
  {
    if IsRecordLike(s) {
      forall k | k in s.fields
        ensures Size(s.fields[k]) < Size(s)
      {
        FieldsSizeBound(s, s.fields.Keys, k);
      }
    }
  }
}
