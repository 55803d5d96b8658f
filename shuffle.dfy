/**
 * `shuffleArray`: a Fisher–Yates shuffle of a copy of its input. The random
 * draws `Math.floor(Math.random() * (i + 1))` are supplied as a sequence `js`
 * whose entry `js[i]` is the index drawn at step `i`, so `js[i] <= i`.
 */
module Shuffle {

  /** Each draw of step `i` picks an index in `0..i`. */
  ghost predicate ValidDraws(n: nat, js: seq<nat>)
  {
    |js| == n && forall i :: 0 < i < n ==> js[i] <= i
  }

  /** Exchange the elements at `i` and `j`. */
  function Swap<T>(s: seq<T>, i: nat, j: nat): (r: seq<T>)
    requires i < |s| && j < |s|
    ensures |r| == |s|
    ensures r[i] == s[j] && r[j] == s[i]
    ensures forall k :: 0 <= k < |s| && k != i && k != j ==> r[k] == s[k]
    ensures multiset(r) == multiset(s)
  {
    s[i := s[j]][j := s[i]]
  }

  /** Steps `i`, `i - 1`, ..., `1` of the shuffle applied to `s`; nothing when `i <= 0`. */
  function StepsFrom<T>(s: seq<T>, js: seq<nat>, i: int): (r: seq<T>)
    requires i < |s| && ValidDraws(|s|, js)
    ensures |r| == |s|
    ensures multiset(r) == multiset(s)
    decreases i
  {
    if i <= 0 then s
    else StepsFrom(Swap(s, i, js[i]), js, i - 1)
  }

  /** What `shuffleArray` returns for the draws `js`: every step from the last index down to 1. */
  function Shuffled<T>(s: seq<T>, js: seq<nat>): seq<T>
    requires ValidDraws(|s|, js)
  {
    StepsFrom(s, js, |s| - 1)
  }

  /** The shuffle returns a rearrangement of its input: same length, same elements, same multiplicities. */
  lemma ShuffledPermutes<T>(s: seq<T>, js: seq<nat>)
    requires ValidDraws(|s|, js)
    ensures |Shuffled(s, js)| == |s|
    ensures multiset(Shuffled(s, js)) == multiset(s)
  {
  }

  lemma {:induction false} StepsFromIdentity<T>(s: seq<T>, js: seq<nat>, i: int)
    requires i < |s| && ValidDraws(|s|, js)
    requires forall k :: 0 < k <= i ==> js[k] == k
    ensures StepsFrom(s, js, i) == s
    decreases i
  {
    if i > 0 {
      assert Swap(s, i, i) == s;
      StepsFromIdentity(s, js, i - 1);
    }
  }

  /** When every step draws its own index, no element moves. */
  lemma ShuffledIdentity<T>(s: seq<T>, js: seq<nat>)
    requires ValidDraws(|s|, js)
    requires forall k :: 0 < k < |s| ==> js[k] == k
    ensures Shuffled(s, js) == s
  {
    assert Shuffled(s, js) == StepsFrom(s, js, |s| - 1);
    StepsFromIdentity(s, js, |s| - 1);
  }

  /**
   * The loop of `shuffleArray` on a fresh copy of `arr`, from the last index
   * down to 1, swapping each position with the position drawn for it.
   * `arr` itself is not in any modifies clause: the input is left as it was.
   */
  method ShuffleArray<T>(arr: array<T>, js: seq<nat>) returns (copy: array<T>)
    requires ValidDraws(arr.Length, js)
    ensures fresh(copy)
    ensures copy[..] == Shuffled(arr[..], js)
    ensures multiset(copy[..]) == multiset(arr[..])
  {
    copy := new T[arr.Length](k requires 0 <= k < arr.Length reads arr => arr[k]);
    assert copy[..] == arr[..];
    var i: int := copy.Length - 1;
    while i > 0
      invariant -1 <= i < copy.Length
      invariant StepsFrom(copy[..], js, i) == Shuffled(arr[..], js)
      decreases i
    {
      var j := js[i];
      ghost var before := copy[..];
      var tmp := copy[i];
      copy[i] := copy[j];
      copy[j] := tmp;
      assert copy[..] == Swap(before, i, j);
      i := i - 1;
    }
    ShuffledPermutes(arr[..], js);
  }
}
