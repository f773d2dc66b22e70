/** `order(number: :asc)`: a stable insertion sort of rows by an integer key. */
module Ordering {

  predicate SortedBy<T>(s: seq<T>, key: T -> int) {
    forall i, j :: 0 <= i < j < |s| ==> key(s[i]) <= key(s[j])
  }

  /** A row no greater than the first of sorted rows can go in front of them. */
  lemma ConsSorted<T>(y: T, s: seq<T>, key: T -> int)
    requires SortedBy(s, key)
    requires s != [] ==> key(y) <= key(s[0])
    ensures SortedBy([y] + s, key)
  {
    var r := [y] + s;
    forall i, j | 0 <= i < j < |r|
      ensures key(r[i]) <= key(r[j])
    {
      if i == 0 && j > 1 {
        assert key(s[0]) <= key(s[j - 1]);
      }
    }
  }

  /**
   * A row `y` below `x` stays in front when `x` goes into the rows after it:
   * `rest` is the result of that insertion.
   */
  lemma KeepHeadInFront<T>(x: T, y: T, tail: seq<T>, rest: seq<T>, key: T -> int)
    requires SortedBy([y] + tail, key)
    requires key(y) < key(x)
    requires SortedBy(rest, key)
    requires multiset(rest) == multiset(tail) + multiset{x}
    requires rest != [] && (rest[0] == x || (tail != [] && rest[0] == tail[0]))
    ensures SortedBy([y] + rest, key)
    ensures multiset([y] + rest) == multiset([y] + tail) + multiset{x}
  {
    if rest[0] != x {
      var ys := [y] + tail;
      assert ys[0] == y && ys[1] == tail[0];
      assert key(ys[0]) <= key(ys[1]);
    }
    ConsSorted(y, rest, key);
  }

  /** `x` put in front of the first row with a key at least its own. */
  function InsertBy<T>(x: T, s: seq<T>, key: T -> int): (r: seq<T>)
    requires SortedBy(s, key)
    ensures SortedBy(r, key)
    ensures multiset(r) == multiset(s) + multiset{x}
    ensures |r| == |s| + 1
    ensures r[0] == x || (s != [] && r[0] == s[0])
  {
    if s == [] then [x]
    else if key(x) <= key(s[0]) then
      ConsSorted(x, s, key);
      [x] + s
    else
      assert s == [s[0]] + s[1..];
      var rest := InsertBy(x, s[1..], key);
      KeepHeadInFront(x, s[0], s[1..], rest, key);
      [s[0]] + rest
  }

  /** The rows in ascending key order: sorted, and a permutation of the input. */
  function SortBy<T>(s: seq<T>, key: T -> int): (r: seq<T>)
    ensures SortedBy(r, key)
    ensures multiset(r) == multiset(s)
  {
    if s == [] then []
    else
      assert s == [s[0]] + s[1..];
      InsertBy(s[0], SortBy(s[1..], key), key)
  }

  /** Sorting keeps the rows: the same length and the same members. */
  lemma SortByKeepsRows<T>(s: seq<T>, key: T -> int)
    ensures |SortBy(s, key)| == |s|
    ensures forall x :: x in SortBy(s, key) <==> x in s
  {
    var r := SortBy(s, key);
    assert |r| == |multiset(r)| == |multiset(s)| == |s|;
    assert forall x :: x in r <==> x in multiset(r);
    assert forall x :: x in s <==> x in multiset(s);
  }

  /** With distinct keys the sorted rows are strictly increasing. */
  lemma SortedDistinctIsStrict<T>(s: seq<T>, key: T -> int)
    requires SortedBy(s, key)
    requires forall i, j :: 0 <= i < j < |s| ==> key(s[i]) != key(s[j])
    ensures forall i, j :: 0 <= i < j < |s| ==> key(s[i]) < key(s[j])
  {
  }
}
