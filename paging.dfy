/**
 * Kaminari's `.page(p).per(n)` on an ordered relation. `page` gives a zero-based
 * page index of `p - 1`, never below 0; `per` with a negative count keeps the
 * default page size, with 0 yields an empty page, and otherwise sets the size.
 * The parameters are the integers Kaminari reads from the request's strings.
 */
module Paging {

  /** Kaminari's `default_per_page`. */
  const DefaultPerPage: nat := 25

  function PageIndex(page: int): nat {
    if page - 1 < 0 then 0 else page - 1
  }

  /** The page size, Kaminari's `limit_value`. */
  function PageSize(per: int): nat {
    if per < 0 then DefaultPerPage else per
  }

  /** The number of rows before page `page`, Kaminari's `offset_value`. */
  function Offset(page: int, per: int): nat {
    PageIndex(page) * PageSize(per)
  }

  /** The rows of page `page` at `per` rows per page. */
  function Paginate<T>(rows: seq<T>, page: int, per: int): (r: seq<T>)
    ensures var offset := Offset(page, per);
      && |r| == (if offset >= |rows| then 0 else if |rows| - offset < PageSize(per) then |rows| - offset else PageSize(per))
      && forall i :: 0 <= i < |r| ==> offset + i < |rows| && r[i] == rows[offset + i]
  {
    var offset := Offset(page, per);
    if offset >= |rows| then []
    else if |rows| - offset < PageSize(per) then rows[offset..]
    else rows[offset..offset + PageSize(per)]
  }

  /** A window of rows in key order is in key order too, and holds only rows of the input. */
  lemma WindowOfSorted<T>(rows: seq<T>, r: seq<T>, offset: nat, key: T -> int)
    requires forall i, j :: 0 <= i < j < |rows| ==> key(rows[i]) <= key(rows[j])
    requires forall i :: 0 <= i < |r| ==> offset + i < |rows| && r[i] == rows[offset + i]
    ensures forall i, j :: 0 <= i < j < |r| ==> key(r[i]) <= key(r[j])
    ensures forall i :: 0 <= i < |r| ==> r[i] in rows
  {
    forall i, j | 0 <= i < j < |r|
      ensures key(r[i]) <= key(r[j])
    {
      assert r[i] == rows[offset + i] && r[j] == rows[offset + j];
    }
  }

  /** A page of rows in key order is in key order too, and holds only rows of the input. */
  lemma PageOfSorted<T>(rows: seq<T>, page: int, per: int, key: T -> int)
    requires forall i, j :: 0 <= i < j < |rows| ==> key(rows[i]) <= key(rows[j])
    ensures var r := Paginate(rows, page, per);
      && (forall i, j :: 0 <= i < j < |r| ==> key(r[i]) <= key(r[j]))
      && (forall i :: 0 <= i < |r| ==> r[i] in rows)
  {
    WindowOfSorted(rows, Paginate(rows, page, per), Offset(page, per), key);
  }

  /** A page is a run of the rows: it holds each row at most as often as the rows do. */
  lemma PageIsSubMultiset<T>(rows: seq<T>, page: int, per: int)
    ensures multiset(Paginate(rows, page, per)) <= multiset(rows)
  {
    var r := Paginate(rows, page, per);
    if r != [] {
      var lo := Offset(page, per);
      var hi := lo + |r|;
      assert r == rows[lo..hi];
      assert rows == rows[..lo] + rows[lo..hi] + rows[hi..];
      calc {
        multiset(rows);
        multiset(rows[..lo] + rows[lo..hi]) + multiset(rows[hi..]);
        multiset(rows[..lo]) + multiset(r) + multiset(rows[hi..]);
      }
    }
  }

  /**
   * The first page of rows in key order holds the lowest keys: a row left off
   * it has a key at least that of every row on it.
   */
  lemma FirstPageHoldsLowest<T>(rows: seq<T>, page: int, per: int, key: T -> int)
    requires forall i, j :: 0 <= i < j < |rows| ==> key(rows[i]) <= key(rows[j])
    ensures var r := Paginate(rows, page, per);
      PageIndex(page) == 0 ==> forall y, x :: y in rows && y !in r && x in r ==> key(x) <= key(y)
  {
    var r := Paginate(rows, page, per);
    forall y, x | PageIndex(page) == 0 && y in rows && y !in r && x in r
      ensures key(x) <= key(y)
    {
      assert Offset(page, per) == 0;
      var k :| 0 <= k < |rows| && rows[k] == y;
      var i :| 0 <= i < |r| && r[i] == x;
      assert r[i] == rows[i];
    }
  }

  /** Two windows that follow each other make up the rows between their ends. */
  lemma ConcatWindows<T>(rows: seq<T>, a: seq<T>, b: seq<T>, lo: nat, hi: nat)
    requires lo <= hi <= |rows| && |a| + |b| == hi - lo
    requires forall i :: 0 <= i < |a| ==> a[i] == rows[lo + i]
    requires forall i :: 0 <= i < |b| ==> b[i] == rows[lo + |a| + i]
    ensures a + b == rows[lo..hi]
  {
    forall i | 0 <= i < hi - lo
      ensures (a + b)[i] == rows[lo..hi][i]
    {
      if i >= |a| {
        assert (a + b)[i] == b[i - |a|];
      }
    }
  }

  /** Pages `p` and `p + 1` lie next to each other: together they are rows `(p-1)n` .. `(p+1)n`. */
  lemma ConsecutivePagesAdjoin<T>(rows: seq<T>, p: int, n: nat)
    requires p >= 1 && n >= 1
    ensures
      var lo := if (p - 1) * n < |rows| then (p - 1) * n else |rows|;
      var hi := if (p + 1) * n < |rows| then (p + 1) * n else |rows|;
      Paginate(rows, p, n) + Paginate(rows, p + 1, n) == rows[lo..hi]
  {
    var o := (p - 1) * n;
    assert Offset(p, n) == o;
    assert Offset(p + 1, n) == o + n by {
      assert p * n == (p - 1) * n + n;
    }
    assert (p + 1) * n == o + 2 * n by {
      assert (p + 1) * n == (p - 1) * n + 2 * n;
    }
    var lo := if o < |rows| then o else |rows|;
    var hi := if o + 2 * n < |rows| then o + 2 * n else |rows|;
    ConcatWindows(rows, Paginate(rows, p, n), Paginate(rows, p + 1, n), lo, hi);
  }

  /** A page number below 1 shows the first page. */
  lemma LowPageIsFirstPage<T>(rows: seq<T>, page: int, per: int)
    requires page < 1
    ensures Paginate(rows, page, per) == Paginate(rows, 1, per)
  {
  }
}
