/**
 * Batch arithmetic of `EyeGazeSequence`: the number of batches,
 * `ceil(n / batch_size)`, and batch `idx` as the slice
 * `indices[idx * b : (idx + 1) * b]` with Python's clipping of slice bounds
 * to the length of the sequence.
 */
module Batching {
  import opened Ints

  /** `math.ceil(n / b)`, the fewest batches of size b that hold n rows. */
  function NumBatches(n: nat, b: nat): (r: nat)
    requires b > 0
    ensures r * b >= n
    ensures r > 0 ==> (r - 1) * b < n
  {
    var q := (n + b - 1) / b;
    assert n + b - 1 == q * b + (n + b - 1) % b;
    assert (q - 1) * b == q * b - b;
    q
  }

  /** `s[idx * b : (idx + 1) * b]` for a non-negative idx. */
  function BatchSlice<T>(s: seq<T>, b: nat, idx: nat): seq<T>
  {
    s[Min(idx * b, |s|)..Min((idx + 1) * b, |s|)]
  }

  /**
   * Batch idx holds min(b, n - idx*b) rows when idx is below the batch count,
   * exactly b for every batch but the last, and none at all past the count.
   */
  lemma BatchSize<T>(s: seq<T>, b: nat, idx: nat)
    requires b > 0
    ensures idx < NumBatches(|s|, b) ==> 0 < |BatchSlice(s, b, idx)| == Min(b, |s| - idx * b)
    ensures idx + 1 < NumBatches(|s|, b) ==> |BatchSlice(s, b, idx)| == b
    ensures idx >= NumBatches(|s|, b) ==> BatchSlice(s, b, idx) == []
  {
    var r := NumBatches(|s|, b);
    assert (idx + 1) * b == idx * b + b;
    if idx < r {
      MulMonotone(idx, r - 1, b);
    } else {
      MulMonotone(r, idx, b);
    }
    if idx + 1 < r {
      MulMonotone(idx + 1, r - 1, b);
    }
  }

  lemma MulMonotone(i: nat, j: nat, b: nat)
    requires i <= j
    ensures i * b <= j * b
  {
  }

  /** Element k of batch idx is element idx*b + k of the sequence. */
  lemma BatchElement<T>(s: seq<T>, b: nat, idx: nat, k: nat)
    requires k < |BatchSlice(s, b, idx)|
    ensures idx * b + k < |s| && BatchSlice(s, b, idx)[k] == s[idx * b + k]
  {
  }

  /** Batches 0..k-1 concatenated. */
  function Joined<T>(s: seq<T>, b: nat, k: nat): seq<T>
  {
    if k == 0 then [] else Joined(s, b, k - 1) + BatchSlice(s, b, k - 1)
  }

  /** The first k batches are the first min(k*b, n) elements, in order. */
  lemma {:induction false} JoinedIsPrefix<T>(s: seq<T>, b: nat, k: nat)
    ensures Joined(s, b, k) == s[..Min(k * b, |s|)]
  {
    if k > 0 {
      JoinedIsPrefix(s, b, k - 1);
      assert k * b == (k - 1) * b + b;
      MulMonotone(k - 1, k, b);
      var lo, hi := Min((k - 1) * b, |s|), Min(k * b, |s|);
      assert s[..lo] + s[lo..hi] == s[..hi];
    }
  }

  /** The batches of one epoch, in order, are the whole sequence: every element is in exactly one batch. */
  lemma EpochPartition<T>(s: seq<T>, b: nat)
    requires b > 0
    ensures Joined(s, b, NumBatches(|s|, b)) == s
  {
    JoinedIsPrefix(s, b, NumBatches(|s|, b));
  }
}
