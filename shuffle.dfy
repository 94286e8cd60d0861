/**
  `shuffleArray`: the in-place Fisher-Yates shuffle.  From the last index
  down to 1, index `i` is swapped with `j = floor(random * (i + 1))`, so
  `j` lies in [0, i].
*/
module Shuffle {
  import opened Draws

  /** `s` with the entries at `i` and `j` exchanged. */
  function Swap<T>(s: seq<T>, i: nat, j: nat): (r: seq<T>)
    requires i < |s| && j < |s|
    ensures |r| == |s|
  {
    s[i := s[j]][j := s[i]]
  }

  /** The swap exchanges the entries at `i` and `j` and keeps every other entry. */
  lemma SwapAt<T>(s: seq<T>, i: nat, j: nat)
    requires i < |s| && j < |s|
    ensures Swap(s, i, j)[i] == s[j] && Swap(s, i, j)[j] == s[i]
    ensures forall k :: 0 <= k < |s| && k != i && k != j ==> Swap(s, i, j)[k] == s[k]
  {
  }

  /**
    The steps `i`, `i - 1`, ..., 1 of the shuffle applied to `s`, the step at
    index `i` reading the stream at `p`.
  */
  function ShuffleSteps<T>(s: seq<T>, rnd: Stream, p: nat, i: nat): seq<T>
    requires i < |s|
    decreases i
  {
    if i == 0 then s else ShuffleSteps(Swap(s, i, Scaled(rnd(p), i + 1)), rnd, p + 1, i - 1)
  }

  /** The whole shuffle of `s` with draws starting at `p`. */
  function Shuffled<T>(s: seq<T>, rnd: Stream, p: nat): seq<T> {
    if |s| == 0 then s else ShuffleSteps(s, rnd, p, |s| - 1)
  }

  /** Number of values of `Math.random()` a shuffle of `n` entries reads. */
  function ShuffleDraws(n: nat): nat {
    if n == 0 then 0 else n - 1
  }

  /** Each step is a swap, so the steps keep the length and the multiset of entries. */
  lemma {:induction false} ShuffleStepsPermutes<T>(s: seq<T>, rnd: Stream, p: nat, i: nat)
    requires i < |s|
    ensures |ShuffleSteps(s, rnd, p, i)| == |s|
    decreases i
    ensures multiset(ShuffleSteps(s, rnd, p, i)) == multiset(s)
  {
    if i > 0 {
      var t := Swap(s, i, Scaled(rnd(p), i + 1));
      assert ShuffleSteps(s, rnd, p, i) == ShuffleSteps(t, rnd, p + 1, i - 1);
      ShuffleStepsPermutes(t, rnd, p + 1, i - 1);
    }
  }

  /** The shuffle is a permutation of its input. */
  lemma ShuffledPermutes<T>(s: seq<T>, rnd: Stream, p: nat)
    ensures |Shuffled(s, rnd, p)| == |s|
    ensures multiset(Shuffled(s, rnd, p)) == multiset(s)
  {
    if |s| > 0 {
      ShuffleStepsPermutes(s, rnd, p, |s| - 1);
    }
  }

  /**
    One pass of the loop body: `j = Math.floor(Math.random() * (i + 1))`, then
    the destructuring swap `[a[i], a[j]] = [a[j], a[i]]`.
  */
  method Step<T>(a: array<T>, i: nat, rnd: Stream, p: nat)
    requires 0 < i < a.Length
    modifies a
    ensures Scaled(rnd(p), i + 1) <= i
    ensures a[..] == Swap(old(a[..]), i, Scaled(rnd(p), i + 1))
    ensures ShuffleSteps(old(a[..]), rnd, p, i) == ShuffleSteps(a[..], rnd, p + 1, i - 1)
  {
    var j := Scaled(rnd(p), i + 1);
    a[i], a[j] := a[j], a[i];
  }

  /** `shuffleArray(array)`: shuffles `a` in place and returns the same array. */
  method ShuffleArray<T>(a: array<T>, rnd: Stream, pos: nat) returns (b: array<T>, next: nat)
    modifies a
    ensures b == a
    ensures a[..] == Shuffled(old(a[..]), rnd, pos)
    ensures multiset(a[..]) == multiset(old(a[..]))
    ensures next == pos + ShuffleDraws(a.Length)
  {
    ShuffledPermutes(a[..], rnd, pos);
    b, next := a, pos;
    if a.Length == 0 {
      return;
    }
    ghost var start := a[..];
    var i := a.Length - 1;
    while i > 0
      invariant 0 <= i < a.Length
      invariant next == pos + (a.Length - 1 - i)
      invariant ShuffleSteps(a[..], rnd, next, i) == Shuffled(start, rnd, pos)
    {
      Step(a, i, rnd, next);
      next := next + 1;
      i := i - 1;
    }
  }
}
