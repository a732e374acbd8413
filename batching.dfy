/** `InferenceEngine._batchwise_generator`: a stream cut into consecutive
    batches of `batch_size` elements, the last one possibly shorter. The
    test `i % batch_size == batch_size - 1` is Python's, so a zero size
    raises on the first element and a negative size never closes a batch. */
module Batching {
  import opened Schemas

  function Abs(x: int): nat { if x < 0 then -x else x }

  lemma {:induction false} MulAtLeast(k: nat, c: nat)
    requires k >= 1
    ensures k * c >= c
    decreases k
  {
    if k > 1 {
      MulAtLeast(k - 1, c);
      assert k * c == (k - 1) * c + c;
    }
  }

  /** Quotient and remainder are determined by `x == q * b + r`,
      `0 <= r < |b|`. */
  lemma ModUnique(x: int, b: int, q: int, r: int)
    requires b != 0 && x == q * b + r && 0 <= r < Abs(b)
    ensures x % b == r && x / b == q
  {
    var q0, r0 := x / b, x % b;
    assert x == q0 * b + r0;
    var k := q - q0;
    assert k * b == r0 - r;
    if k != 0 {
      MulAtLeast(Abs(k), Abs(b));
    }
  }

  /** Python's `i % b`: the remainder has the sign of the divisor. */
  function PyMod(i: int, b: int): (r: int)
    requires b != 0
    ensures b > 0 ==> r == i % b
    ensures b < 0 ==> b < r <= 0
    ensures (i - r) % b == 0
  {
    ModUnique(i - i % b, b, i / b, 0);
    var e := i % b;
    if b > 0 || e == 0 then e
    else
      ModUnique(i - (e + b), b, i / b - 1, 0);
      e + b
  }

  /** The batches concatenated, in order. */
  function Flatten<T>(bs: seq<seq<T>>): seq<T> {
    if bs == [] then [] else bs[0] + Flatten(bs[1..])
  }

  /** Consecutive slices of `b` elements, the last one holding the rest. */
  function Chunks<T>(s: seq<T>, b: nat): (cs: seq<seq<T>>)
    requires b > 0
    ensures forall k :: 0 <= k < |cs| ==> cs[k] != []
    decreases |s|
  {
    if s == [] then []
    else if |s| <= b then [s]
    else [s[..b]] + Chunks(s[b..], b)
  }

  /** What `list(_batchwise_generator(gen, batch_size))` gives, or the
      exception it raises: ZeroDivisionError on `i % 0` as soon as there is a
      first element; for a negative size `i % batch_size` is never
      `batch_size - 1`, so everything comes out as one batch. */
  function Batches<T>(gen: seq<T>, batchSize: int := 100): (r: Result<seq<seq<T>>>)
    ensures r.Err? <==> gen != [] && batchSize == 0
    ensures r.Err? ==> r.error == ZeroDivisionError
    ensures r.Ok? ==> forall k :: 0 <= k < |r.value| ==> r.value[k] != []
  {
    if gen == [] then Ok([])
    else if batchSize == 0 then Err(ZeroDivisionError)
    else if batchSize < 0 then Ok([gen])
    else Ok(Chunks(gen, batchSize))
  }

  /** Concatenating the chunks gives the input back. */
  lemma {:induction false} FlattenChunks<T>(s: seq<T>, b: nat)
    requires b > 0
    ensures Flatten(Chunks(s, b)) == s
    decreases |s|
  {
    if |s| > b {
      var cs := Chunks(s, b);
      assert cs[1..] == Chunks(s[b..], b);
      FlattenChunks(s[b..], b);
      assert s == s[..b] + s[b..];
    } else if s != [] {
      assert Chunks(s, b)[1..] == [];
    }
  }

  /** Cutting a prefix whose length is a multiple of `b` does not move the
      batch boundaries of what follows. */
  lemma {:induction false} ChunksAppend<T>(s: seq<T>, t: seq<T>, b: nat)
    requires b > 0 && |s| % b == 0
    ensures Chunks(s + t, b) == Chunks(s, b) + Chunks(t, b)
    decreases |s|
  {
    if s == [] {
      assert s + t == t;
    } else {
      if |s| < b {
        ModUnique(|s|, b, 0, |s|);
      }
      if |s| == b {
        if t == [] {
          assert s + t == s;
        } else {
          assert (s + t)[..b] == s && (s + t)[b..] == t;
        }
      } else {
        assert (s + t)[..b] == s[..b] && (s + t)[b..] == s[b..] + t;
        ModUnique(|s| - b, b, |s| / b - 1, 0);
        ChunksAppend(s[b..], t, b);
      }
    }
  }

  /** There are ceil(|s| / b) chunks. */
  lemma {:induction false} ChunksCount<T>(s: seq<T>, b: nat)
    requires b > 0
    ensures |Chunks(s, b)| == (|s| + b - 1) / b
    decreases |s|
  {
    if s == [] {
      ModUnique(b - 1, b, 0, b - 1);
    } else if |s| <= b {
      ModUnique(|s| + b - 1, b, 1, |s| - 1);
    } else {
      var rest := s[b..];
      ChunksCount(rest, b);
      assert Chunks(s, b)[1..] == Chunks(rest, b);
      var x := |rest| + b - 1;
      ModUnique(x + b, b, x / b + 1, x % b);
    }
  }

  /** Every chunk but the last holds exactly `b` elements. */
  lemma {:induction false} ChunksFull<T>(s: seq<T>, b: nat)
    requires b > 0
    ensures var cs := Chunks(s, b);
      forall k :: 0 <= k < |cs| - 1 ==> |cs[k]| == b
    decreases |s|
  {
    if |s| > b {
      var cs, rest := Chunks(s, b), s[b..];
      ChunksFull(rest, b);
      forall k | 0 <= k < |cs| - 1
        ensures |cs[k]| == b
      {
        if k > 0 {
          assert cs[k] == Chunks(rest, b)[k - 1];
        }
      }
    }
  }

  /** The last chunk holds the remainder of `|s|` by `b`, or `b` when there
      is none. */
  lemma {:induction false} ChunksLast<T>(s: seq<T>, b: nat)
    requires b > 0 && s != []
    ensures var cs := Chunks(s, b);
      cs != [] && |cs[|cs| - 1]| == if |s| % b == 0 then b else |s| % b
    decreases |s|
  {
    if |s| == b {
      ModUnique(|s|, b, 1, 0);
    } else if |s| < b {
      ModUnique(|s|, b, 0, |s|);
    } else {
      var cs, rest := Chunks(s, b), s[b..];
      ChunksLast(rest, b);
      assert cs[|cs| - 1] == Chunks(rest, b)[|Chunks(rest, b)| - 1];
      ModUnique(|s|, b, |rest| / b + 1, |rest| % b);
    }
  }

  /** The properties of the generator, for every input and every non-zero
      size: the batches concatenate to the input; all but the last are full
      (for a positive size); the last is short exactly when the size does not
      divide the input's length; there are ceil(n / size) of them; and empty
      input yields nothing. */
  lemma BatchesMeaning<T>(gen: seq<T>, batchSize: int)
    requires batchSize != 0
    ensures Batches(gen, batchSize).Ok?
    ensures Flatten(Batches(gen, batchSize).value) == gen
    ensures gen == [] <==> Batches(gen, batchSize).value == []
    ensures batchSize < 0 && gen != [] ==> Batches(gen, batchSize).value == [gen]
    ensures batchSize > 0 ==>
      var bs := Batches(gen, batchSize).value;
      && |bs| == (|gen| + batchSize - 1) / batchSize
      && (forall k :: 0 <= k < |bs| - 1 ==> |bs[k]| == batchSize)
      && (bs != [] ==> (|bs[|bs| - 1]| < batchSize <==> |gen| % batchSize != 0))
  {
    if gen != [] {
      if batchSize < 0 {
        assert [gen][1..] == [];
      } else {
        FlattenChunks(gen, batchSize);
        ChunksCount(gen, batchSize);
        ChunksFull(gen, batchSize);
        ChunksLast(gen, batchSize);
      }
    }
  }

  /** With the default size of 100 the batches are the input in slices of
      100, all full but the last, and there are ceil(n / 100) of them. */
  lemma DefaultBatchSize<T>(gen: seq<T>)
    ensures Batches(gen).Ok? && Flatten(Batches(gen).value) == gen
    ensures var bs := Batches(gen).value;
      && |bs| == (|gen| + 99) / 100
      && (forall k :: 0 <= k < |bs| - 1 ==> |bs[k]| == 100)
      && (bs != [] ==> 1 <= |bs[|bs| - 1]| <= 100)
  {
    BatchesMeaning(gen, 100);
    if gen != [] {
      ChunksLast(gen, 100);
    }
  }

  /** The generator drained into a list: `batch` is the buffer it appends to
      and resets; `batches` collects what it yields. */
  method Batchwise<T>(gen: seq<T>, batchSize: int := 100) returns (r: Result<seq<seq<T>>>)
    ensures r == Batches(gen, batchSize)
  {
    var batches: seq<seq<T>> := [];
    var batch: seq<T> := [];
    var i := 0;
    while i < |gen|
      invariant 0 <= i <= |gen|
      invariant batchSize == 0 ==> i == 0 && batch == [] && batches == []
      invariant batchSize < 0 ==> batches == [] && batch == gen[..i]
      invariant batchSize > 0 ==>
        && |batch| == i % batchSize
        && batch == gen[i - |batch|..i]
        && batches == Chunks(gen[..i - |batch|], batchSize)
    {
      batch := batch + [gen[i]];
      if batchSize == 0 {
        return Err(ZeroDivisionError);
      }
      if PyMod(i, batchSize) == batchSize - 1 {
        ClosingBatch(gen, i, batch, batches, batchSize);
        batches := batches + [batch];
        batch := [];
      } else if batchSize > 0 {
        KeepingBatch(gen, i, batch, batches, batchSize);
      } else {
        assert gen[..i] + [gen[i]] == gen[..i + 1];
      }
      i := i + 1;
    }
    assert gen[..i] == gen;
    if batchSize != 0 {
      LastBatch(gen, batch, batches, batchSize);
    }
    if batch != [] {
      batches := batches + [batch];
    }
    r := Ok(batches);
  }

  /** The end of `Batchwise`: the buffer, when not empty, is the last
      batch. */
  lemma LastBatch<T>(gen: seq<T>, batch: seq<T>, batches: seq<seq<T>>, b: int)
    requires b != 0
    requires b < 0 ==> batches == [] && batch == gen
    requires b > 0 ==>
      && |batch| == |gen| % b
      && batch == gen[|gen| - |batch|..]
      && batches == Chunks(gen[..|gen| - |batch|], b)
    ensures Batches(gen, b) == Ok(if batch != [] then batches + [batch] else batches)
  {
    if b > 0 && batch != [] {
      var done := gen[..|gen| - |batch|];
      assert gen == done + batch;
      ModUnique(|done|, b, |gen| / b, 0);
      ChunksAppend(done, batch, b);
      assert Chunks(batch, b) == [batch];
    } else if b > 0 {
      assert gen[..|gen|] == gen;
      assert batches == Chunks(gen, b);
    } else {
      assert [] + [gen] == [gen];
    }
  }

  /** Below `b - 1` the remainder moves up by one. */
  lemma ModStep(i: nat, b: int)
    requires b > 0 && i % b != b - 1
    ensures (i + 1) % b == i % b + 1
  {
    var q, r := i / b, i % b;
    assert i == q * b + r && 0 <= r < b - 1;
    ModUnique(i + 1, b, q, r + 1);
  }

  /** The step of `Batchwise` that only appends to the buffer, for a
      positive size. */
  lemma KeepingBatch<T>(gen: seq<T>, i: nat, batch: seq<T>, batches: seq<seq<T>>, b: int)
    requires i < |gen| && b > 0 && i % b != b - 1
    requires |batch| == i % b + 1
    requires batch == gen[i + 1 - |batch|..i] + [gen[i]]
    requires batches == Chunks(gen[..i + 1 - |batch|], b)
    ensures |batch| == (i + 1) % b
    ensures batch == gen[i + 1 - |batch|..i + 1]
    ensures batches == Chunks(gen[..i + 1 - |batch|], b)
  {
    ModStep(i, b);
    assert gen[i + 1 - |batch|..i] + [gen[i]] == gen[i + 1 - |batch|..i + 1];
  }

  /** The step of `Batchwise` that yields a full batch. */
  lemma ClosingBatch<T>(gen: seq<T>, i: nat, batch: seq<T>, batches: seq<seq<T>>, b: int)
    requires i < |gen| && b != 0 && PyMod(i, b) == b - 1
    requires b > 0 ==>
      && |batch| == i % b + 1
      && batch == gen[i + 1 - |batch|..i + 1]
      && batches == Chunks(gen[..i + 1 - |batch|], b)
    ensures b > 0 && (i + 1) % b == 0
    ensures batches + [batch] == Chunks(gen[..i + 1], b)
  {
    ModUnique(i + 1, b, i / b + 1, 0);
    var done := gen[..i + 1 - |batch|];
    assert gen[..i + 1] == done + batch;
    ModUnique(|done|, b, i / b, 0);
    ChunksAppend(done, batch, b);
  }
}
