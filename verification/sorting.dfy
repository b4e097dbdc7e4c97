/**
 * Ordering by an integer key. The history query (`ORDER BY ts`) and the notes
 * prototype (`sorted(..., key=date, reverse=True)`) both order records by one
 * integer; this module gives that ordering one definition.
 */
module Sorting {

  /** `a` may precede `b`: non-increasing order when `desc`, non-decreasing otherwise. */
  predicate InOrder(a: int, b: int, desc: bool) {
    if desc then a >= b else a <= b
  }

  ghost predicate SortedBy<T>(s: seq<T>, key: T -> int, desc: bool) {
    forall i, j :: 0 <= i < j < |s| ==> InOrder(key(s[i]), key(s[j]), desc)
  }

  /** Prepending a head that may precede every element keeps a sorted sequence sorted. */
  lemma PrependSorted<T>(h: T, s: seq<T>, key: T -> int, desc: bool)
    requires SortedBy(s, key, desc)
    requires forall k :: 0 <= k < |s| ==> InOrder(key(h), key(s[k]), desc)
    ensures SortedBy([h] + s, key, desc)
  {
    var r := [h] + s;
    forall i, j | 0 <= i < j < |r|
      ensures InOrder(key(r[i]), key(r[j]), desc)
    {
      if i > 0 {
        assert r[i] == s[i - 1] && r[j] == s[j - 1];
      } else {
        assert r[j] == s[j - 1];
      }
    }
  }

  /** Inserts `x` before the first element it may precede (so ahead of equal keys). */
  function Insert<T>(x: T, s: seq<T>, key: T -> int, desc: bool): (r: seq<T>)
    requires SortedBy(s, key, desc)
    ensures SortedBy(r, key, desc)
    ensures multiset(r) == multiset(s) + multiset{x}
    ensures forall k :: 0 <= k < |r| ==> r[k] == x || r[k] in s
  {
    if s == [] then [x]
    else if InOrder(key(x), key(s[0]), desc) then
      InsertHere(x, s, key, desc);
      [x] + s
    else
      var rest := Insert(x, s[1..], key, desc);
      InsertLater(x, s, rest, key, desc);
      assert s == [s[0]] + s[1..];
      [s[0]] + rest
  }

  lemma InsertHere<T>(x: T, s: seq<T>, key: T -> int, desc: bool)
    requires SortedBy(s, key, desc) && s != []
    requires InOrder(key(x), key(s[0]), desc)
    ensures SortedBy([x] + s, key, desc)
  {
    forall k | 0 <= k < |s| ensures InOrder(key(x), key(s[k]), desc) {
      if k > 0 { assert InOrder(key(s[0]), key(s[k]), desc); }
    }
    PrependSorted(x, s, key, desc);
  }

  lemma InsertLater<T>(x: T, s: seq<T>, rest: seq<T>, key: T -> int, desc: bool)
    requires SortedBy(s, key, desc) && s != []
    requires !InOrder(key(x), key(s[0]), desc)
    requires SortedBy(rest, key, desc)
    requires forall k :: 0 <= k < |rest| ==> rest[k] == x || rest[k] in s[1..]
    ensures SortedBy([s[0]] + rest, key, desc)
  {
    forall k | 0 <= k < |rest| ensures InOrder(key(s[0]), key(rest[k]), desc) {
      if rest[k] != x {
        var j :| 0 <= j < |s[1..]| && s[1..][j] == rest[k];
        assert s[j + 1] == rest[k];
      }
    }
    PrependSorted(s[0], rest, key, desc);
  }

  /** Insertion sort: sorted by `key` in the chosen direction and a permutation of `s`. */
  function Sort<T>(s: seq<T>, key: T -> int, desc: bool): (r: seq<T>)
    ensures SortedBy(r, key, desc)
    ensures multiset(r) == multiset(s)
    ensures |r| == |s|
  {
    if s == [] then []
    else
      assert s == [s[0]] + s[1..];
      Insert(s[0], Sort(s[1..], key, desc), key, desc)
  }
}
