/** What folding a list of Records gives in kind mode: a Record while the key
    sets agree with the first one, a DynamicRecord from the first Record whose
    key set differs. The counter of that DynamicRecord counts the whole
    agreeing prefix as ONE record, so it is the number of records holding a
    key only when the prefix has length one. */
module RecordFolds {
  import opened Schemas
  import opened Algebra
  import opened RecordLaws
  import opened Reduction

  predicate AllRecords(rs: seq<Schema>) {
    forall i :: 0 <= i < |rs| ==> rs[i].Record?
  }

  /** Length of the longest prefix of `rs` whose Records have the key set of
      the first one. */
  function SameKeysPrefix(rs: seq<Schema>): (p: nat)
    requires rs != [] && AllRecords(rs)
    ensures 1 <= p <= |rs|
    ensures forall i :: 0 <= i < p ==> rs[i].fields.Keys == rs[0].fields.Keys
    ensures p < |rs| ==> rs[p].fields.Keys != rs[0].fields.Keys
    decreases |rs|
  {
    if |rs| == 1 then 1
    else
      var p := SameKeysPrefix(rs[..|rs| - 1]);
      if p == |rs| - 1 && rs[|rs| - 1].fields.Keys == rs[0].fields.Keys then |rs| else p
  }

  /** Number of Records in `rs` that have the key `k`. */
  function Occurrences(rs: seq<Schema>, k: string): nat
    requires AllRecords(rs)
    decreases |rs|
  {
    if rs == [] then 0
    else Occurrences(rs[..|rs| - 1], k) + (if k in rs[|rs| - 1].fields then 1 else 0)
  }

  /** Every key of some Record of `rs`. */
  function AllKeys(rs: seq<Schema>): set<string>
    requires AllRecords(rs)
    decreases |rs|
  {
    if rs == [] then {} else AllKeys(rs[..|rs| - 1]) + rs[|rs| - 1].fields.Keys
  }

  lemma {:induction false} OccurrencesAppend(s: seq<Schema>, t: seq<Schema>, k: string)
    requires AllRecords(s) && AllRecords(t)
    ensures AllRecords(s + t)
    ensures Occurrences(s + t, k) == Occurrences(s, k) + Occurrences(t, k)
    decreases |t|
  {
    if t == [] {
      assert s + t == s;
    } else {
      var u := s + t;
      assert u[..|u| - 1] == s + t[..|t| - 1];
      OccurrencesAppend(s, t[..|t| - 1], k);
    }
  }

  /** A run of `n` Records with the key set `keys` holds `k` in `n` of them or
      in none. */
  lemma {:induction false} OccurrencesOfSameKeys(rs: seq<Schema>, keys: set<string>, k: string)
    requires AllRecords(rs) && forall i :: 0 <= i < |rs| ==> rs[i].fields.Keys == keys
    ensures Occurrences(rs, k) == if k in keys then |rs| else 0
    decreases |rs|
  {
    if rs != [] {
      OccurrencesOfSameKeys(rs[..|rs| - 1], keys, k);
    }
  }

  /** What the fold of the Records `rs` in kind mode is: a Record over the
      common key set while all key sets agree; otherwise a DynamicRecord over
      every key, whose count for `k` is one for the agreeing prefix (if its
      key set has `k`) plus one per later Record holding `k`. */
  ghost predicate KindFoldShape(rs: seq<Schema>, r: Schema)
    requires rs != [] && AllRecords(rs)
  {
    var p := SameKeysPrefix(rs);
    && (p == |rs| ==> r.Record? && r.fields.Keys == rs[0].fields.Keys == AllKeys(rs))
    && (p < |rs| ==>
          && r.DynamicRecord?
          && r.fields.Keys == AllKeys(rs)
          && forall k :: Count(r.counts, k) == (if k in rs[0].fields then 1 else 0) + Occurrences(rs[p..], k))
  }

  /** A Record with the key set of the agreeing run extends the run. */
  lemma StepWithinRun(cfg: Settings, rs: seq<Schema>, a: Schema, r: Schema)
    requires |rs| >= 2 && AllRecords(rs)
    requires SameKeysPrefix(rs[..|rs| - 1]) == |rs| - 1 && rs[|rs| - 1].fields.Keys == rs[0].fields.Keys
    requires KindFoldShape(rs[..|rs| - 1], a)
    requires Merge(cfg, a, rs[|rs| - 1]) == Ok(r)
    ensures KindFoldShape(rs, r)
  {
    var init, y := rs[..|rs| - 1], rs[|rs| - 1];
    assert init[0] == rs[0];
    SameKeysMergePointwise(cfg, a.fields, y.fields);
  }

  /** The first Record whose key set differs turns the Record into a
      DynamicRecord counting the run once and that Record once. */
  lemma StepLeavingRun(cfg: Settings, rs: seq<Schema>, a: Schema, r: Schema)
    requires cfg.mode == Kind && |rs| >= 2 && AllRecords(rs)
    requires SameKeysPrefix(rs[..|rs| - 1]) == |rs| - 1 && rs[|rs| - 1].fields.Keys != rs[0].fields.Keys
    requires KindFoldShape(rs[..|rs| - 1], a)
    requires Merge(cfg, a, rs[|rs| - 1]) == Ok(r)
    ensures KindFoldShape(rs, r)
  {
    var n, init, y := |rs|, rs[..|rs| - 1], rs[|rs| - 1];
    assert init[0] == rs[0];
    KindModeDifferingKeys(cfg, a.fields, y.fields);
    assert rs[n - 1..] == [y];
    assert [y][..0] == [];
    forall k
      ensures Count(r.counts, k) == (if k in rs[0].fields then 1 else 0) + Occurrences(rs[n - 1..], k)
    {
    }
  }

  /** The suffix from `p` without its last element is the suffix from `p` of
      the list without its last element. */
  lemma SuffixOfInit<T>(s: seq<T>, p: nat)
    requires p < |s|
    ensures var t := s[p..]; t[..|t| - 1] == s[..|s| - 1][p..] && t[|t| - 1] == s[|s| - 1]
  {
  }

  /** After the run, every Record adds one to the count of each of its
      keys. */
  lemma StepAfterRun(cfg: Settings, rs: seq<Schema>, a: Schema, r: Schema)
    requires |rs| >= 2 && AllRecords(rs)
    requires SameKeysPrefix(rs[..|rs| - 1]) < |rs| - 1
    requires KindFoldShape(rs[..|rs| - 1], a)
    requires Merge(cfg, a, rs[|rs| - 1]) == Ok(r)
    ensures KindFoldShape(rs, r)
  {
    var init, y := rs[..|rs| - 1], rs[|rs| - 1];
    assert init[0] == rs[0];
    var p0 := SameKeysPrefix(init);
    assert SameKeysPrefix(rs) == p0;
    assert AllKeys(rs) == AllKeys(init) + y.fields.Keys;
    assert y == Record(y.fields);
    DynamicPlusRecord(cfg, a, y.fields);
    var tail := rs[p0..];
    SuffixOfInit(rs, p0);
    forall k
      ensures Count(r.counts, k) == (if k in rs[0].fields then 1 else 0) + Occurrences(tail, k)
    {
      assert Occurrences(tail, k) == Occurrences(init[p0..], k) + (if k in y.fields then 1 else 0);
    }
  }

  /** The fold of Records in kind mode, when no field merge raises, has the
      shape `KindFoldShape` describes. */
  lemma {:induction false} KindFoldOfRecords(cfg: Settings, rs: seq<Schema>)
    requires cfg.mode == Kind && rs != [] && AllRecords(rs)
    requires UnionSet(cfg, rs).Ok?
    ensures var r, p := UnionSet(cfg, rs).value, SameKeysPrefix(rs);
      && (p == |rs| ==> r.Record? && r.fields.Keys == rs[0].fields.Keys == AllKeys(rs))
      && (p < |rs| ==>
            && r.DynamicRecord?
            && r.fields.Keys == AllKeys(rs)
            && forall k :: Count(r.counts, k) == (if k in rs[0].fields then 1 else 0) + Occurrences(rs[p..], k))
    decreases |rs|
  {
    var n := |rs|;
    if n == 1 {
      assert rs[..0] == [];
      return;
    }
    var init, y := rs[..n - 1], rs[n - 1];
    assert rs == init + [y];
    UnionSetSnoc(cfg, init, y);
    KindFoldOfRecords(cfg, init);
    var a := UnionSet(cfg, init).value;
    var r := UnionSet(cfg, rs).value;
    assert Merge(cfg, a, y) == Ok(r);
    var p0 := SameKeysPrefix(init);
    if p0 < n - 1 {
      StepAfterRun(cfg, rs, a, r);
    } else if y.fields.Keys == rs[0].fields.Keys {
      StepWithinRun(cfg, rs, a, r);
    } else {
      StepLeavingRun(cfg, rs, a, r);
    }
    assert KindFoldShape(rs, r);
  }

  /** The same statement with the prefix made explicit: the counter falls
      short of the number of Records holding `k` by the length of the
      agreeing prefix minus one (when its key set has `k`). */
  lemma CountsMissTheAgreeingPrefix(cfg: Settings, rs: seq<Schema>, k: string)
    requires cfg.mode == Kind && rs != [] && AllRecords(rs)
    requires UnionSet(cfg, rs).Ok? && SameKeysPrefix(rs) < |rs|
    ensures var r, p := UnionSet(cfg, rs).value, SameKeysPrefix(rs);
      r.DynamicRecord? && Count(r.counts, k) + (if k in rs[0].fields then p - 1 else 0) == Occurrences(rs, k)
  {
    var p := SameKeysPrefix(rs);
    KindFoldOfRecords(cfg, rs);
    assert rs == rs[..p] + rs[p..];
    OccurrencesAppend(rs[..p], rs[p..], k);
    OccurrencesOfSameKeys(rs[..p], rs[0].fields.Keys, k);
  }

  /** When the second Record already has a different key set, the counter is
      exactly the number of Records holding each key. */
  lemma CountsAreOccurrencesWhenSecondDiffers(cfg: Settings, rs: seq<Schema>, k: string)
    requires cfg.mode == Kind && |rs| >= 2 && AllRecords(rs)
    requires rs[1].fields.Keys != rs[0].fields.Keys
    requires UnionSet(cfg, rs).Ok?
    ensures UnionSet(cfg, rs).value.DynamicRecord?
    ensures Count(UnionSet(cfg, rs).value.counts, k) == Occurrences(rs, k)
  {
    assert SameKeysPrefix(rs) == 1;
    CountsMissTheAgreeingPrefix(cfg, rs, k);
  }
}
