/** The Fisher-Yates (Knuth) shuffle `shuffleArray` of `App.js`.

    `Math.floor(Math.random() * currentIndex)` is replaced by an oracle: the
    caller supplies one draw per step of the loop, and the step uses the draw
    reduced into `[0, currentIndex)`.  Every index in that range is the
    reduction of some draw, so the oracle admits exactly the index choices
    the source can make. */
module Shuffle {

  /** The destructuring swap `[a[i], a[j]] = [a[j], a[i]]` on a sequence
      (with `i == j` it leaves the sequence as it is). */
  function Swap<T>(s: seq<T>, i: nat, j: nat): (r: seq<T>)
    requires i < |s| && j < |s|
    ensures |r| == |s|
  {
    s[i := s[j]][j := s[i]]
  }

  lemma SwapPermutes<T>(s: seq<T>, i: nat, j: nat)
    requires i < |s| && j < |s|
    ensures multiset(Swap(s, i, j)) == multiset(s)
  {
  }

  /** The sequence the loop of `shuffleArray` leaves once `currentIndex` has
      run down from `current` to 0, the first element of `draws` feeding the
      first step. */
  function ShuffleFrom<T>(s: seq<T>, current: nat, draws: seq<nat>): (r: seq<T>)
    requires current <= |s| && current <= |draws|
    ensures |r| == |s|
    decreases current
  {
    if current == 0 then s
    else ShuffleFrom(Swap(s, current - 1, draws[0] % current), current - 1, draws[1..])
  }

  /** `shuffleArray` on the whole array: `currentIndex` starts at its length. */
  function Shuffled<T>(s: seq<T>, draws: seq<nat>): (r: seq<T>)
    requires |s| <= |draws|
    ensures |r| == |s|
  {
    ShuffleFrom(s, |s|, draws)
  }

  /** Every step is a swap, so the loop only rearranges the elements. */
  lemma {:induction false} ShuffleFromPermutes<T>(s: seq<T>, current: nat, draws: seq<nat>)
    requires current <= |s| && current <= |draws|
    ensures multiset(ShuffleFrom(s, current, draws)) == multiset(s)
    decreases current
  {
    if current != 0 {
      var t := Swap(s, current - 1, draws[0] % current);
      SwapPermutes(s, current - 1, draws[0] % current);
      ShuffleFromPermutes(t, current - 1, draws[1..]);
    }
  }

  /** The shuffled sequence is a permutation of its input. */
  lemma ShuffledPermutes<T>(s: seq<T>, draws: seq<nat>)
    requires |s| <= |draws|
    ensures multiset(Shuffled(s, draws)) == multiset(s)
  {
    ShuffleFromPermutes(s, |s|, draws);
  }

  /** The positions at or above `current` are settled: the remaining steps
      swap only below it. */
  lemma {:induction false} ShuffleFromKeepsSettled<T>(s: seq<T>, current: nat, draws: seq<nat>, k: nat)
    requires current <= k < |s| && current <= |draws|
    ensures ShuffleFrom(s, current, draws)[k] == s[k]
    decreases current
  {
    if current > 0 {
      ShuffleFromKeepsSettled(Swap(s, current - 1, draws[0] % current), current - 1, draws[1..], k);
    }
  }

  /** The first step of the loop, with a draw already below the length. */
  lemma ShuffleFromFirstStep<T>(s: seq<T>, draws: seq<nat>)
    requires 0 < |s| <= |draws| && draws[0] < |s|
    ensures Shuffled(s, draws) == ShuffleFrom(Swap(s, |s| - 1, draws[0]), |s| - 1, draws[1..])
  {
    ModOfSmaller(draws[0], |s|);
  }

  lemma ModOfSmaller(x: nat, n: nat)
    requires x < n
    ensures x % n == x
  {
  }

  /** The first step can bring any element to the last position, and no
      later step moves it again: each element is a possible last one. */
  lemma ShuffledLastCanBeAny<T>(s: seq<T>, j: nat, draws: seq<nat>)
    requires j < |s| && |s| <= |draws| + 1
    ensures Shuffled(s, [j] + draws)[|s| - 1] == s[j]
  {
    var n, d := |s|, [j] + draws;
    assert d[0] == j && d[1..] == draws;
    ShuffleFromFirstStep(s, d);
    ShuffleFromKeepsSettled(Swap(s, n - 1, j), n - 1, draws, n - 1);
  }

  /** `shuffleArray`, in place.  Every swap index is in bounds (the array
      accesses are checked), the loop ends once `currentIndex` reaches 0, and
      the array afterwards holds `Shuffled` of what it held before, a
      permutation of it. */
  method ShuffleArray<T>(a: array<T>, draws: seq<nat>)
    requires a.Length <= |draws|
    modifies a
    ensures a[..] == Shuffled(old(a[..]), draws)
    ensures multiset(a[..]) == multiset(old(a[..]))
  {
    var currentIndex := a.Length;
    var step := 0;
    while currentIndex != 0
      invariant 0 <= currentIndex <= a.Length && step == a.Length - currentIndex
      invariant ShuffleFrom(a[..], currentIndex, draws[step..]) == Shuffled(old(a[..]), draws)
    {
      var randomIndex := draws[step] % currentIndex;
      currentIndex := currentIndex - 1;
      ghost var before := a[..];
      var t := a[currentIndex];
      a[currentIndex] := a[randomIndex];
      a[randomIndex] := t;
      assert a[..] == Swap(before, currentIndex, randomIndex);
      assert draws[step..][1..] == draws[step + 1..];
      step := step + 1;
    }
    ShuffledPermutes(old(a[..]), draws);
  }
}
