/**
 * The epoch order of `EyeGazeSequence.on_epoch_end`: `np.arange(n)`, then,
 * when shuffling is on, an in-place `np.random.shuffle`. The random draws
 * are not modelled as a generator: the shuffle is an arbitrary sequence of
 * transpositions chosen by the caller and applied in place, and what is
 * proved is that whatever they are, the result is a permutation of 0..n-1.
 */
module Shuffling {

  /** `np.arange(n)`. */
  function Range(n: nat): seq<int>
  {
    seq(n, i => i)
  }

  /** Every value v of 0..n-1 occurs in `Range(n)` exactly once, and nothing else occurs. */
  lemma {:induction false} RangeCount(n: nat, v: int)
    ensures multiset(Range(n))[v] == if 0 <= v < n then 1 else 0
  {
    if n > 0 {
      assert Range(n) == Range(n - 1) + [n - 1];
      RangeCount(n - 1, v);
    }
  }

  /** `s` holds each of 0..|s|-1 exactly once. */
  ghost predicate IsPermutationOfRange(s: seq<int>)
  {
    multiset(s) == multiset(Range(|s|))
  }

  /** A permutation of the index range can index an array of |s| elements. */
  lemma PermutationInBounds(s: seq<int>)
    requires IsPermutationOfRange(s)
    ensures forall k :: 0 <= k < |s| ==> 0 <= s[k] < |s|
  {
    forall k | 0 <= k < |s|
      ensures 0 <= s[k] < |s|
    {
      assert s[k] in multiset(s);
      RangeCount(|s|, s[k]);
    }
  }

  /** In a permutation of the index range every row index occurs once, and no other value occurs. */
  lemma PermutationCount(s: seq<int>, v: int)
    requires IsPermutationOfRange(s)
    ensures multiset(s)[v] == if 0 <= v < |s| then 1 else 0
  {
    RangeCount(|s|, v);
  }

  /** A transposition of two positions. */
  type Transposition = (nat, nat)

  predicate TranspositionsInRange(swaps: seq<Transposition>, n: nat)
  {
    forall k :: 0 <= k < |swaps| ==> swaps[k].0 < n && swaps[k].1 < n
  }

  function Swap<T>(s: seq<T>, t: Transposition): (r: seq<T>)
    requires t.0 < |s| && t.1 < |s|
    ensures |r| == |s| && multiset(r) == multiset(s)
  {
    s[t.0 := s[t.1]][t.1 := s[t.0]]
  }

  /** The transpositions applied left to right. */
  function ApplySwaps<T>(s: seq<T>, swaps: seq<Transposition>): (r: seq<T>)
    requires TranspositionsInRange(swaps, |s|)
    decreases |swaps|
  {
    if swaps == [] then s else ApplySwaps(Swap(s, swaps[0]), swaps[1..])
  }

  /** Whatever the transpositions, the elements are only rearranged. */
  lemma {:induction false} ApplySwapsPermutes<T>(s: seq<T>, swaps: seq<Transposition>)
    requires TranspositionsInRange(swaps, |s|)
    ensures |ApplySwaps(s, swaps)| == |s|
    ensures multiset(ApplySwaps(s, swaps)) == multiset(s)
    decreases |swaps|
  {
    if swaps != [] {
      ApplySwapsPermutes(Swap(s, swaps[0]), swaps[1..]);
    }
  }

  /** The index order of one epoch: identity, or the shuffled identity. */
  function EpochOrder(n: nat, shuffle: bool, swaps: seq<Transposition>): (r: seq<int>)
    requires TranspositionsInRange(swaps, n)
  {
    if shuffle then ApplySwaps(Range(n), swaps) else Range(n)
  }

  /** The epoch order is a permutation of 0..n-1, and the identity when shuffling is off. */
  lemma EpochOrderIsPermutation(n: nat, shuffle: bool, swaps: seq<Transposition>)
    requires TranspositionsInRange(swaps, n)
    ensures |EpochOrder(n, shuffle, swaps)| == n
    ensures IsPermutationOfRange(EpochOrder(n, shuffle, swaps))
    ensures !shuffle ==> EpochOrder(n, shuffle, swaps) == Range(n)
  {
    ApplySwapsPermutes(Range(n), swaps);
  }

  /** `np.random.shuffle(a)`: the transpositions applied in place. */
  method Shuffle<T>(a: array<T>, swaps: seq<Transposition>)
    requires TranspositionsInRange(swaps, a.Length)
    modifies a
    ensures a[..] == ApplySwaps(old(a[..]), swaps)
  {
    var k := 0;
    while k < |swaps|
      invariant 0 <= k <= |swaps|
      invariant TranspositionsInRange(swaps[k..], a.Length)
      invariant ApplySwaps(a[..], swaps[k..]) == ApplySwaps(old(a[..]), swaps)
    {
      var (i, j) := swaps[k];
      assert swaps[k..][0] == swaps[k] && swaps[k..][1..] == swaps[k + 1..];
      a[i], a[j] := a[j], a[i];
      k := k + 1;
    }
  }

  /** `np.arange(n)` followed by the optional shuffle, into a fresh array. */
  method NewEpochOrder(n: nat, shuffle: bool, swaps: seq<Transposition>) returns (a: array<int>)
    requires TranspositionsInRange(swaps, n)
    ensures fresh(a)
    ensures a[..] == EpochOrder(n, shuffle, swaps)
  {
    a := new int[n](i => i);
    assert a[..] == Range(n);
    if shuffle {
      Shuffle(a, swaps);
    }
  }
}
