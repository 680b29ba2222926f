/** Ordering by an integer key, as the store's `ORDER BY start_ts` queries return rows.
    The store leaves the order of rows with equal keys open; only the order by key and
    the rows kept are specified here. */
module Sorting {

  predicate SortedBy<T>(s: seq<T>, key: T -> int)
  {
    forall i, j | 0 <= i < j < |s| :: key(s[i]) <= key(s[j])
  }

  /** Places x into an ordered sequence after every element whose key is not larger. */
  function InsertBy<T>(x: T, s: seq<T>, key: T -> int): (r: seq<T>)
    requires SortedBy(s, key)
    ensures SortedBy(r, key)
    ensures multiset(r) == multiset(s) + multiset{x}
    decreases |s|
  {
    if |s| == 0 then [x]
    else if key(x) < key(s[0]) then [x] + s
    else
      var t := InsertBy(x, s[1..], key);
      assert s == [s[0]] + s[1..];
      LowerBound(t, s[1..], x, key, key(s[0]));
      [s[0]] + t
  }

  /** Every row of a rearrangement of s plus x has a key at least as large as a bound
      that holds for s and x. */
  lemma LowerBound<T>(t: seq<T>, s: seq<T>, x: T, key: T -> int, lo: int)
    requires multiset(t) == multiset(s) + multiset{x}
    requires forall i | 0 <= i < |s| :: lo <= key(s[i])
    requires lo <= key(x)
    ensures forall i | 0 <= i < |t| :: lo <= key(t[i])
  {
    forall i | 0 <= i < |t| ensures lo <= key(t[i]) {
      assert t[i] in multiset(t);
      if t[i] != x {
        assert t[i] in multiset(s);
        assert t[i] in s;
      }
    }
  }

  /** The rows of s ordered by key. */
  function SortBy<T>(s: seq<T>, key: T -> int): (r: seq<T>)
    ensures SortedBy(r, key)
    ensures multiset(r) == multiset(s)
    decreases |s|
  {
    if |s| == 0 then []
    else
      var p, x := s[..|s| - 1], s[|s| - 1];
      assert s == p + [x];
      assert multiset(s) == multiset(p) + multiset{x};
      InsertBy(x, SortBy(p, key), key)
  }

  /** Sorting keeps exactly the rows it was given. */
  lemma SortByMembers<T>(s: seq<T>, key: T -> int, x: T)
    ensures x in SortBy(s, key) <==> x in s
  {
    var r := SortBy(s, key);
    assert x in r <==> x in multiset(r);
    assert x in s <==> x in multiset(s);
  }

  /** Rows that are already in order come back unchanged. */
  lemma {:induction false} SortBySorted<T>(s: seq<T>, key: T -> int)
    requires SortedBy(s, key)
    ensures SortBy(s, key) == s
    decreases |s|
  {
    if |s| > 0 {
      var p := s[..|s| - 1];
      var x := s[|s| - 1];
      assert s == p + [x];
      assert SortedBy(p, key) by {
        forall i, j | 0 <= i < j < |p| ensures key(p[i]) <= key(p[j]) {
          assert p[i] == s[i] && p[j] == s[j];
        }
      }
      SortBySorted(p, key);
      InsertLast(x, p, key);
    }
  }

  lemma {:induction false} InsertLast<T>(x: T, s: seq<T>, key: T -> int)
    requires SortedBy(s + [x], key)
    ensures SortedBy(s, key) && InsertBy(x, s, key) == s + [x]
    decreases |s|
  {
    assert forall i | 0 <= i < |s| :: (s + [x])[i] == s[i];
    if |s| > 0 {
      assert (s + [x])[0] == s[0] && (s + [x])[|s|] == x;
      assert key(s[0]) <= key(x);
      assert s[1..] + [x] == (s + [x])[1..];
      InsertLast(x, s[1..], key);
      assert [s[0]] + (s[1..] + [x]) == s + [x];
    }
  }
}
