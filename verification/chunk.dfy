/** The batch partition both queues use: lodash's `_.chunk(array, size)`.
    A size below 1 yields no batches at all; otherwise the array is cut, front
    to back, into pieces of `size` items, the last piece holding the rest. */
module Chunking {
  import opened Arith

  /** The concatenation of a sequence of batches. */
  function Flatten<T>(bs: seq<seq<T>>): seq<T> {
    if |bs| == 0 then [] else bs[0] + Flatten(bs[1..])
  }

  lemma {:induction false} FlattenAppend<T>(a: seq<seq<T>>, b: seq<seq<T>>)
    ensures Flatten(a + b) == Flatten(a) + Flatten(b)
  {
    if |a| == 0 {
      assert a + b == b;
    } else {
      assert (a + b)[0] == a[0];
      assert (a + b)[1..] == a[1..] + b;
      FlattenAppend(a[1..], b);
    }
  }

  /** Every batch but the last holds exactly size items; the last holds 1 to size. */
  predicate WellSized<T>(bs: seq<seq<T>>, size: int) {
    (forall i :: 0 <= i < |bs| - 1 ==> |bs[i]| == size) &&
    (|bs| > 0 ==> 1 <= |bs[|bs| - 1]| <= size)
  }

  /** The recursion of `_.chunk(xs, size)`: the first size items, then the rest. */
  function Cut<T>(xs: seq<T>, size: int): seq<seq<T>>
    decreases |xs|
  {
    if size < 1 || |xs| == 0 then []
    else if |xs| <= size then [xs]
    else [xs[..size]] + Cut(xs[size..], size)
  }

  lemma {:induction false} CutFacts<T>(xs: seq<T>, size: int)
    ensures size < 1 ==> Cut(xs, size) == []
    ensures size >= 1 ==> Flatten(Cut(xs, size)) == xs
    ensures WellSized(Cut(xs, size), size)
    decreases |xs|
  {
    if size >= 1 && |xs| > size {
      var rest := Cut(xs[size..], size);
      CutFacts(xs[size..], size);
      assert xs[..size] + xs[size..] == xs;
      var bs := [xs[..size]] + rest;
      assert bs[1..] == rest;
      forall i | 0 <= i < |bs| - 1
        ensures |bs[i]| == size
      {
        if i > 0 {
          assert bs[i] == rest[i - 1];
        }
      }
    }
  }

  /** `_.chunk(xs, size)`. */
  function Chunk<T>(xs: seq<T>, size: int): (bs: seq<seq<T>>)
    ensures size < 1 ==> bs == []
    ensures size >= 1 ==> Flatten(bs) == xs
    ensures WellSized(bs, size)
  {
    CutFacts(xs, size);
    Cut(xs, size)
  }

  /** There are ceil(n / size) batches, none exactly when there is nothing to cut. */
  lemma {:induction false} ChunkCount<T>(xs: seq<T>, size: int)
    requires size >= 1
    ensures |Chunk(xs, size)| == (|xs| + size - 1) / size
    ensures |Chunk(xs, size)| == 0 <==> |xs| == 0
    decreases |xs|
  {
    if |xs| == 0 {
      DivModUnique(size - 1, size, 0, size - 1);
    } else if |xs| <= size {
      DivModUnique(|xs| + size - 1, size, 1, |xs| - 1);
    } else {
      ChunkCount(xs[size..], size);
      CeilStep(|xs| - size, size);
    }
  }

  /** One more full batch adds one to the batch count ceil(n / size). */
  lemma CeilStep(n: nat, size: int)
    requires size >= 1
    ensures (n + size + size - 1) / size == (n + size - 1) / size + 1
  {
    var m := n + size - 1;
    DivModUnique(m + size, size, m / size + 1, m % size);
  }

  /** Batch i is the slice of xs from i * size up to (i + 1) * size, cut at the end of xs. */
  lemma {:induction false} ChunkSlice<T>(xs: seq<T>, size: int, i: nat)
    requires size >= 1 && i < |Chunk(xs, size)|
    ensures i * size < |xs|
    ensures Chunk(xs, size)[i] == xs[i * size .. Min((i + 1) * size, |xs|)]
    decreases |xs|
  {
    var bs := Chunk(xs, size);
    if |xs| <= size {
      assert i == 0;
      assert bs[0] == xs;
      assert Min(size, |xs|) == |xs|;
    } else if i == 0 {
      assert bs[0] == xs[..size];
    } else {
      var rest := xs[size..];
      assert bs[i] == Chunk(rest, size)[i - 1];
      ChunkSlice(rest, size, i - 1);
      var lo, hi := (i - 1) * size, Min(i * size, |rest|);
      SliceShift(|xs|, size, i);
      assert lo < hi <= |rest|;
      SliceOfSuffixAt(xs, size, lo, hi, i * size, Min((i + 1) * size, |xs|));
    }
  }

  lemma SliceOfSuffixAt<T>(xs: seq<T>, k: nat, lo: nat, hi: nat, a: nat, b: nat)
    requires k <= |xs| && lo <= hi <= |xs| - k && a == k + lo && b == k + hi
    ensures xs[k..][lo..hi] == xs[a..b]
  {
  }

  lemma SliceShift(n: int, size: int, i: nat)
    requires size >= 1 && i >= 1 && n > size
    ensures (i - 1) * size + size == i * size && (i - 1) * size >= 0
    ensures Min(i * size, n - size) + size == Min((i + 1) * size, n)
  {
    MulAtLeast(i, size);
    assert (i + 1) * size == i * size + size;
    assert (i - 1) * size == i * size - size;
  }

  lemma {:induction false} FlattenUniform<T>(bs: seq<seq<T>>, size: int)
    requires forall j :: 0 <= j < |bs| ==> |bs[j]| == size
    ensures |Flatten(bs)| == |bs| * size
  {
    if |bs| > 0 {
      FlattenUniform(bs[1..], size);
      assert |bs| * size == size + (|bs| - 1) * size;
    }
  }

  /** The batches before batch i hold exactly the first i * size items. */
  lemma ChunkPrefix<T>(xs: seq<T>, size: int, i: nat)
    requires size >= 1 && i <= |Chunk(xs, size)|
    ensures i * size <= |xs| || i == |Chunk(xs, size)|
    ensures i < |Chunk(xs, size)| ==> Flatten(Chunk(xs, size)[..i]) == xs[..i * size]
  {
    var bs := Chunk(xs, size);
    if i < |bs| {
      assert bs == bs[..i] + bs[i..];
      FlattenAppend(bs[..i], bs[i..]);
      FlattenUniform(bs[..i], size);
      assert Flatten(bs[..i]) + Flatten(bs[i..]) == xs;
    }
  }

  /** Chunking the queue with one more item appended: the new item lands in
      the last batch if it has room, and alone in a new batch otherwise. */
  lemma ChunkSnoc<T>(xs: seq<T>, x: T, size: int)
    requires size >= 1
    ensures var bs := Chunk(xs, size);
            Chunk(xs + [x], size) ==
              if |bs| > 0 && |bs[|bs| - 1]| < size
              then bs[..|bs| - 1] + [bs[|bs| - 1] + [x]]
              else bs + [[x]]
  {
    CutSnoc(xs, x, size);
  }

  /** ChunkSnoc for the recursion itself. */
  lemma {:induction false} CutSnoc<T>(xs: seq<T>, x: T, size: int)
    requires size >= 1
    ensures var bs := Cut(xs, size);
            Cut(xs + [x], size) ==
              if |bs| > 0 && |bs[|bs| - 1]| < size
              then bs[..|bs| - 1] + [bs[|bs| - 1] + [x]]
              else bs + [[x]]
    decreases |xs|
  {
    var bs := Cut(xs, size);
    var ys := xs + [x];
    if |xs| == 0 {
      assert ys == [x];
    } else if |xs| < size {
      assert bs == [xs];
    } else if |xs| == size {
      assert ys[..size] == xs;
      assert ys[size..] == [x];
    } else {
      assert ys[..size] == xs[..size];
      assert ys[size..] == xs[size..] + [x];
      var rest := Cut(xs[size..], size);
      var rest' := Cut(xs[size..] + [x], size);
      assert Cut(ys, size) == [xs[..size]] + rest';
      CutSnoc(xs[size..], x, size);
      var n := |rest|;
      assert n > 0 && |bs| == n + 1;
      assert bs[n] == rest[n - 1];
      if |rest[n - 1]| < size {
        assert bs[..n] == [xs[..size]] + rest[..n - 1];
      }
    }
  }
}
