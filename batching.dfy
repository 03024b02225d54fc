/**
 * Cutting a sequence of records into consecutive batches of a fixed size, the last one
 * possibly shorter. This is the reference definition the indexing loop is proved against:
 * the loop pushes records into a batch and flushes it when it holds `BatchSize` records or when
 * the last record has been pushed.
 */
module Batching {

  /** `batchSize` in both indexing loops: at most this many records per upsert request. */
  const BatchSize: nat := 100

  function Batches<T>(xs: seq<T>): (bs: seq<seq<T>>)
    ensures bs == [] <==> xs == []
    decreases |xs|
  {
    if |xs| == 0 then []
    else if |xs| <= BatchSize then [xs]
    else [xs[..BatchSize]] + Batches(xs[BatchSize..])
  }

  /** Number of batches needed for `n` items: the ceiling of n / BatchSize. */
  function CeilDiv(n: nat): nat
  {
    (n + BatchSize - 1) / BatchSize
  }

  function Flatten<T>(bs: seq<seq<T>>): seq<T>
  {
    if bs == [] then [] else bs[0] + Flatten(bs[1..])
  }

  lemma {:induction false} BatchesCount<T>(xs: seq<T>)
    ensures |Batches(xs)| == CeilDiv(|xs|)
    decreases |xs|
  {
    if |xs| > BatchSize {
      BatchesCount(xs[BatchSize..]);
      assert CeilDiv(|xs|) == CeilDiv(|xs| - BatchSize) + 1 by {
        assert |xs| + BatchSize - 1 == (|xs| - BatchSize + BatchSize - 1) + BatchSize;
      }
    } else if |xs| > 0 {
      assert CeilDiv(|xs|) == 1 by {
        assert BatchSize <= |xs| + BatchSize - 1 < 2 * BatchSize;
      }
    }
  }

  /** Every batch is non-empty and holds at most `BatchSize` items; all but the last hold exactly `BatchSize`. */
  lemma {:induction false} BatchesSizes<T>(xs: seq<T>)
    ensures forall k :: 0 <= k < |Batches(xs)| ==> 0 < |Batches(xs)[k]| <= BatchSize
    ensures forall k :: 0 <= k < |Batches(xs)| - 1 ==> |Batches(xs)[k]| == BatchSize
    decreases |xs|
  {
    if |xs| > BatchSize {
      BatchesSizes(xs[BatchSize..]);
      var bs := Batches(xs);
      assert bs == [xs[..BatchSize]] + Batches(xs[BatchSize..]);
      forall k | 1 <= k < |bs|
        ensures bs[k] == Batches(xs[BatchSize..])[k - 1]
      {
      }
    }
  }

  /** The batches, concatenated, are the input: no item is dropped, duplicated or reordered. */
  lemma {:induction false} BatchesFlatten<T>(xs: seq<T>)
    ensures Flatten(Batches(xs)) == xs
    decreases |xs|
  {
    if |xs| > BatchSize {
      var bs := Batches(xs);
      BatchesFlatten(xs[BatchSize..]);
      assert bs[1..] == Batches(xs[BatchSize..]);
      assert xs == xs[..BatchSize] + xs[BatchSize..];
    } else if |xs| > 0 {
      assert Flatten([xs]) == xs + Flatten([xs][1..]);
    }
  }

  /** Cutting at a multiple of the batch size splits the batches there. */
  lemma {:induction false} BatchesSplit<T>(xs: seq<T>, m: nat)
    requires m % BatchSize == 0 && m <= |xs|
    ensures Batches(xs) == Batches(xs[..m]) + Batches(xs[m..])
    decreases m
  {
    if m > 0 {
      assert m >= BatchSize;
      var ys := xs[BatchSize..];
      if |xs| == BatchSize {
        assert m == BatchSize;
        assert xs[..m] == xs && xs[m..] == [];
      } else {
        assert |xs[..m]| == m;
        if m == BatchSize {
          assert xs[..m] == xs[..BatchSize];
          assert xs[m..] == ys;
        } else {
          assert (m - BatchSize) % BatchSize == 0 by {
            assert m - BatchSize == (m / BatchSize - 1) * BatchSize;
          }
          BatchesSplit(ys, m - BatchSize);
          assert xs[..m][..BatchSize] == xs[..BatchSize];
          assert xs[..m][BatchSize..] == ys[..m - BatchSize];
          assert xs[m..] == ys[m - BatchSize..];
        }
      }
    } else {
      assert xs[..0] == [] && xs[0..] == xs;
    }
  }

  /** Batch k holds the items from position k * BatchSize on, as many as remain up to BatchSize. */
  lemma {:induction false} BatchesAt<T>(xs: seq<T>, k: nat)
    requires k < |Batches(xs)|
    ensures k * BatchSize < |xs|
    ensures |Batches(xs)[k]| == if |xs| - k * BatchSize < BatchSize then |xs| - k * BatchSize else BatchSize
    ensures forall j :: 0 <= j < |Batches(xs)[k]| ==> Batches(xs)[k][j] == xs[k * BatchSize + j]
    decreases k
  {
    var bs := Batches(xs);
    if |xs| <= BatchSize {
      assert bs == [xs];
    } else if k == 0 {
      assert bs[0] == xs[..BatchSize];
    } else {
      var ys := xs[BatchSize..];
      assert bs[k] == Batches(ys)[k - 1];
      BatchesAt(ys, k - 1);
      assert (k - 1) * BatchSize + BatchSize == k * BatchSize;
      forall j | 0 <= j < |bs[k]|
        ensures bs[k][j] == xs[k * BatchSize + j]
      {
        assert bs[k][j] == ys[(k - 1) * BatchSize + j];
      }
    }
  }

  /** Solver hint: a full batch after a batch boundary ends at the next boundary. */
  lemma NextBoundary(d: nat)
    requires d % BatchSize == 0
    ensures (d + BatchSize) % BatchSize == 0
  {
  }

  /** A tail shorter than one batch, after a multiple of the batch size, is the last batch. */
  lemma BatchesSnoc<T>(xs: seq<T>, d: nat)
    requires d % BatchSize == 0 && d < |xs| <= d + BatchSize
    ensures Batches(xs) == Batches(xs[..d]) + [xs[d..]]
  {
    BatchesSplit(xs, d);
  }
}
