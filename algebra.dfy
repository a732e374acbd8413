/** The merge operator `|` of the schema classes. `Merge(cfg, a, b)` is
    `a | b`: it dispatches on the class of the LEFT operand, as each class's
    `__or__` does, and falls back to `_base_or` (`BaseOr`). The configuration is
    a parameter; only its equivalence mode is read here. A merge that Python
    aborts with an exception is `Err(TypeError)`. */
module Algebra {
  import opened Schemas

  /** Occurrences of `k` in a counter; a missing key counts 0, as in `Counter`. */
  function Count(c: map<string, nat>, k: string): nat {
    if k in c then c[k] else 0
  }

  /** The counter `merge_records_as_dynamic_record` builds: one increment per key
      of each of the two Records. */
  function CountKeys(left: set<string>, right: set<string>): (c: map<string, nat>)
    ensures c.Keys == left + right
    ensures forall k :: k in c ==> c[k] == (if k in left && k in right then 2 else 1)
  {
    map k | k in left + right :: (if k in left then 1 else 0) + (if k in right then 1 else 0)
  }

  /** `old._key_counter[key] += 1` for every key of the Record operand. */
  function IncrementCounts(c: map<string, nat>, keys: set<string>): (r: map<string, nat>)
    ensures r.Keys == c.Keys + keys
    ensures forall k :: Count(r, k) == Count(c, k) + (if k in keys then 1 else 0)
  {
    map k | k in c.Keys + keys :: Count(c, k) + (if k in keys then 1 else 0)
  }

  /** `Counter.__add__`: counts add per key, and a key whose sum is not positive
      is dropped. */
  function AddCounts(c: map<string, nat>, d: map<string, nat>): (r: map<string, nat>)
    ensures forall k :: Count(r, k) == Count(c, k) + Count(d, k)
    ensures forall k :: k in r <==> Count(c, k) + Count(d, k) > 0
  {
    map k | k in c.Keys + d.Keys && Count(c, k) + Count(d, k) > 0 :: Count(c, k) + Count(d, k)
  }

  /** Tie-break for the two delegations that swap the operands without making
      them smaller: `Record | DynamicRecord` and a non-Union `a | Union`. */
  ghost function SwapRank(a: Schema, b: Schema): nat {
    if (a.Record? && b.DynamicRecord?) || (!IsUnionLike(a) && IsUnionLike(b)) then 1 else 0
  }

  /** `a | b`. */
  function Merge(cfg: Settings, a: Schema, b: Schema): (r: Result<Schema>)
    ensures r.Err? ==> r.error == TypeError
    decreases Size(a) + Size(b), SwapRank(a, b), 1
  {
    match a
    case Unknown => Ok(b)
    case Atomic(_) => BaseOr(cfg, a, b)
    case Array(x) =>
      if b.Array? then
        var m :- Merge(cfg, x, b.content);
        Ok(Array(m))
      else BaseOr(cfg, a, b)
    case Record(f) =>
      if b.DynamicRecord? then Merge(cfg, b, a)
      else if b.Record? then
        if f.Keys == b.fields.Keys then
          var m :- MergedFields(cfg, a, b);
          Ok(Record(m))
        else if cfg.mode == Kind then
          var m :- MergedFields(cfg, a, b);
          Ok(DynamicRecord(m, CountKeys(f.Keys, b.fields.Keys)))
        else BaseOr(cfg, a, b)
      else BaseOr(cfg, a, b)
    case DynamicRecord(_, c) =>
      if b.DynamicRecord? then
        var m :- MergedFields(cfg, a, b);
        Ok(DynamicRecord(m, AddCounts(c, b.counts)))
      else if b.Record? then
        var m :- MergedFields(cfg, a, b);
        Ok(DynamicRecord(m, IncrementCounts(c, b.fields.Keys)))
      else BaseOr(cfg, a, b)
    case UniformRecord(x) =>
      if b.UniformRecord? then
        var m :- Merge(cfg, x, b.content);
        Ok(UniformRecord(m))
      else BaseOr(cfg, a, b)
    case Union(s) => UnionOr(s, b)
    case Optional(x) =>
      if HasNullContent(b) || a == b || x == b then Ok(a)
      else if b.Optional? then
        var m :- Merge(cfg, x, b.payload);
        Ok(Optional(m))
      else
        var m :- Merge(cfg, x, b);
        Ok(Optional(m))
  }

  /** `JsonSchema._base_or`, the fallback of every class whose own `__or__`
      does not handle the right operand: Atomic, Array, Record, DynamicRecord
      and UniformRecord (never a Union or an Optional). */
  function BaseOr(cfg: Settings, a: Schema, e: Schema): (r: Result<Schema>)
    requires !IsUnionLike(a)
    ensures r.Err? ==> r.error == TypeError
    decreases Size(a) + Size(e), SwapRank(a, e), 0
  {
    if a == e || e.Unknown? then Ok(a)
    else if HasNullContent(a) then
      if HasNullContent(e) then Ok(a)
      else if e.Optional? then Ok(e)
      else Ok(Optional(e))
    else if HasNullContent(e) then Ok(Optional(a))
    else if IsUnionLike(e) then Merge(cfg, e, a)
    else Ok(Union({a, e}))
  }

  /** `Union.__or__` on a plain Union: a non-Union operand is added to a copy
      of the member set. For a Union operand every member is `|=`-ed into a
      Python set, which raises TypeError; only an empty member set gets
      through the loop. An Optional's member set is never empty. */
  function UnionOr(s: set<Schema>, e: Schema): (r: Result<Schema>)
    ensures r.Ok? ==> r.value.Union? && s <= r.value.members
  {
    if e.Union? then
      if e.members == {} then Ok(Union(s)) else Err(TypeError)
    else if e.Optional? then Err(TypeError)
    else Ok(Union(s + {e}))
  }

  /** The field map of two record-like operands: every key of either side, the
      shared keys merged left to right, the one-sided keys copied. This is
      `__merge_common_fields`, and on equal key sets `merge_label_equal_fields`.
      It fails when one of the shared-field merges fails. */
  function MergedFields(cfg: Settings, a: Schema, b: Schema): (r: Result<map<string, Schema>>)
    requires IsRecordLike(a) && IsRecordLike(b)
    ensures r.Ok? ==> r.value.Keys == a.fields.Keys + b.fields.Keys
    ensures r.Err? ==> r.error == TypeError
    decreases Size(a) + Size(b), SwapRank(a, b), 0
  {
    FieldsSmaller(a);
    FieldsSmaller(b);
    AllOk(map k | k in a.fields.Keys + b.fields.Keys ::
      if k in a.fields && k in b.fields then Merge(cfg, a.fields[k], b.fields[k])
      else if k in a.fields then Ok(a.fields[k])
      else Ok(b.fields[k]))
  }

  /** A map of outcomes is a success exactly when every entry is. */
  function AllOk(m: map<string, Result<Schema>>): (r: Result<map<string, Schema>>)
    ensures r.Ok? <==> forall k :: k in m ==> m[k].Ok?
    ensures r.Ok? ==> r.value.Keys == m.Keys && forall k :: k in m ==> m[k] == Ok(r.value[k])
    ensures r.Err? ==> r.error == TypeError
  {
    if forall k :: k in m ==> m[k].Ok? then Ok(map k | k in m :: m[k].value) else Err(TypeError)
  }
}
