/**
 * `Object.entries(m).sort((a, b) => b[1] - a[1])`: a stable sort of
 * [key, value] entries by descending value. ECMA-262 (2019 edition onwards,
 * section 22.1.3.27) requires `Array.prototype.sort` to be stable, and this
 * comparator is consistent, so the result is fully determined; insertion sort
 * is one algorithm that produces it.
 */
module EntrySort {

  /** Places `x` before the first entry whose value is not larger than its own. */
  function Insert<K>(x: (K, int), s: seq<(K, int)>): (r: seq<(K, int)>)
    ensures |r| == |s| + 1
  {
    if s == [] || x.1 >= s[0].1 then [x] + s
    else
      assert s == [s[0]] + s[1..];
      [s[0]] + Insert(x, s[1..])
  }

  /** The stable descending sort: earlier entries win ties. */
  function SortDesc<K>(s: seq<(K, int)>): (r: seq<(K, int)>)
    ensures |r| == |s|
  {
    if s == [] then []
    else
      assert s == [s[0]] + s[1..];
      Insert(s[0], SortDesc(s[1..]))
  }

  lemma {:induction false} InsertPermutes<K>(x: (K, int), s: seq<(K, int)>)
    ensures multiset(Insert(x, s)) == multiset(s) + multiset{x}
  {
    if s != [] && x.1 < s[0].1 {
      InsertPermutes(x, s[1..]);
      assert s == [s[0]] + s[1..];
    }
  }

  /** The sort returns a permutation of its input. */
  lemma {:induction false} SortDescPermutes<K>(s: seq<(K, int)>)
    ensures multiset(SortDesc(s)) == multiset(s)
  {
    if s != [] {
      SortDescPermutes(s[1..]);
      InsertPermutes(s[0], SortDesc(s[1..]));
      assert s == [s[0]] + s[1..];
    }
  }

  /** Values never increase along `s`. */
  ghost predicate NonIncreasing<K>(s: seq<(K, int)>)
  {
    forall i, j :: 0 <= i < j < |s| ==> s[i].1 >= s[j].1
  }

  /** The index of the first entry holding the largest value. */
  function FirstMaxIndex<K>(s: seq<(K, int)>): (i: nat)
    requires |s| > 0
    ensures i < |s|
  {
    if |s| == 1 then 0
    else
      var j := FirstMaxIndex(s[1..]) + 1;
      if s[0].1 >= s[j].1 then 0 else j
  }

  /** No entry exceeds the one FirstMaxIndex picks, and every entry before it is smaller. */
  lemma {:induction false} FirstMaxIndexIsFirstMax<K>(s: seq<(K, int)>)
    requires |s| > 0
    ensures forall k :: 0 <= k < |s| ==> s[k].1 <= s[FirstMaxIndex(s)].1
    ensures forall k :: 0 <= k < FirstMaxIndex(s) ==> s[k].1 < s[FirstMaxIndex(s)].1
  {
    if |s| > 1 {
      FirstMaxIndexIsFirstMax(s[1..]);
      forall k | 1 <= k < |s| ensures s[k] == s[1..][k - 1] { }
    }
  }

  function RemoveAt<T>(s: seq<T>, i: nat): (r: seq<T>)
    requires i < |s|
    ensures |r| == |s| - 1
  {
    s[..i] + s[i + 1..]
  }

  lemma {:induction false} InsertOrdered<K>(x: (K, int), s: seq<(K, int)>)
    requires NonIncreasing(s)
    ensures NonIncreasing(Insert(x, s))
  {
    if s != [] && x.1 < s[0].1 {
      var tail := Insert(x, s[1..]);
      InsertOrdered(x, s[1..]);
      InsertBounded(x, s[1..], s[0].1);
      var r := Insert(x, s);
      assert r == [s[0]] + tail;
      forall i, j | 0 <= i < j < |r| ensures r[i].1 >= r[j].1 {
        assert r[j] == tail[j - 1];
        if i > 0 {
          assert r[i] == tail[i - 1];
        }
      }
    }
  }

  /** Inserting below a bound keeps every value below it. */
  lemma {:induction false} InsertBounded<K>(x: (K, int), s: seq<(K, int)>, b: int)
    requires x.1 <= b && forall k :: 0 <= k < |s| ==> s[k].1 <= b
    ensures forall k :: 0 <= k < |Insert(x, s)| ==> Insert(x, s)[k].1 <= b
  {
    if s != [] && x.1 < s[0].1 {
      InsertBounded(x, s[1..], b);
      assert Insert(x, s) == [s[0]] + Insert(x, s[1..]);
    }
  }

  /** The sorted entries are in non-increasing order of value. */
  lemma {:induction false} SortDescOrdered<K>(s: seq<(K, int)>)
    ensures NonIncreasing(SortDesc(s))
  {
    if s != [] {
      SortDescOrdered(s[1..]);
      InsertOrdered(s[0], SortDesc(s[1..]));
    }
  }

  /** Sorting an entry followed by others inserts it into the others' sort. */
  lemma {:induction false} SortDescCons<K>(x: (K, int), u: seq<(K, int)>)
    ensures SortDesc([x] + u) == Insert(x, SortDesc(u))
  {
    assert ([x] + u)[0] == x;
    assert ([x] + u)[1..] == u;
  }

  /**
   * Stability, stated as what it means for the first place: the sorted list
   * starts with the first entry of largest value, and what follows it is the
   * sort of the remaining entries in their original order.
   */
  lemma {:induction false} SortDescHead<K>(s: seq<(K, int)>)
    requires |s| > 0
    ensures SortDesc(s) == [s[FirstMaxIndex(s)]] + SortDesc(RemoveAt(s, FirstMaxIndex(s)))
  {
    if |s| == 1 {
      assert FirstMaxIndex(s) == 0;
      assert RemoveAt(s, 0) == [];
    } else {
      var x, t := s[0], s[1..];
      assert s == [x] + t;
      SortDescCons(x, t);
      var j := FirstMaxIndex(t);
      SortDescHead(t);
      if x.1 >= t[j].1 {
        HeadCaseFirst(x, t);
      } else {
        HeadCaseLater(x, t);
      }
    }
  }

  lemma {:induction false} HeadCaseFirst<K>(x: (K, int), t: seq<(K, int)>)
    requires |t| > 0 && x.1 >= t[FirstMaxIndex(t)].1
    requires SortDesc(t) == [t[FirstMaxIndex(t)]] + SortDesc(RemoveAt(t, FirstMaxIndex(t)))
    ensures FirstMaxIndex([x] + t) == 0
    ensures SortDesc([x] + t) == [x] + SortDesc(t)
    ensures RemoveAt([x] + t, 0) == t
  {
    var s := [x] + t;
    assert s[1..] == t;
    SortDescCons(x, t);
  }

  lemma {:induction false} HeadCaseLater<K>(x: (K, int), t: seq<(K, int)>)
    requires |t| > 0 && x.1 < t[FirstMaxIndex(t)].1
    requires SortDesc(t) == [t[FirstMaxIndex(t)]] + SortDesc(RemoveAt(t, FirstMaxIndex(t)))
    ensures FirstMaxIndex([x] + t) == FirstMaxIndex(t) + 1
    ensures SortDesc([x] + t) == [t[FirstMaxIndex(t)]] + SortDesc(RemoveAt([x] + t, FirstMaxIndex(t) + 1))
  {
    var j := FirstMaxIndex(t);
    FirstMaxLater(x, t);
    LaterSort(x, t, j);
  }

  lemma {:induction false} FirstMaxLater<K>(x: (K, int), t: seq<(K, int)>)
    requires |t| > 0 && x.1 < t[FirstMaxIndex(t)].1
    ensures FirstMaxIndex([x] + t) == FirstMaxIndex(t) + 1
  {
    assert ([x] + t)[1..] == t;
  }

  lemma {:induction false} LaterSort<K>(x: (K, int), t: seq<(K, int)>, j: nat)
    requires j < |t| && x.1 < t[j].1
    requires SortDesc(t) == [t[j]] + SortDesc(RemoveAt(t, j))
    ensures SortDesc([x] + t) == [t[j]] + SortDesc(RemoveAt([x] + t, j + 1))
  {
    var u := RemoveAt(t, j);
    SortDescCons(x, t);
    InsertBehind(x, t[j], SortDesc(u));
    SortDescCons(x, u);
    RemoveAtCons(x, t, j);
  }

  lemma {:induction false} InsertBehind<K>(x: (K, int), y: (K, int), v: seq<(K, int)>)
    requires x.1 < y.1
    ensures Insert(x, [y] + v) == [y] + Insert(x, v)
  {
    assert ([y] + v)[1..] == v;
  }

  lemma {:induction false} RemoveAtCons<T>(x: T, t: seq<T>, j: nat)
    requires j < |t|
    ensures [x] + RemoveAt(t, j) == RemoveAt([x] + t, j + 1)
  {
  }
}
