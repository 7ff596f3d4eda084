/** `[...xs].sort((a, b) => b.date.localeCompare(a.date))`: newest first,
    with ISO-8601 timestamps compared character by character. */
module Sorting {
  import Seqs
  import opened Text

  /** Newest first: every element's date is at least that of every later one. */
  predicate SortedByDateDesc<T>(s: seq<T>, date: T -> string)
  {
    forall i, j :: 0 <= i < j < |s| ==> LexLe(date(s[j]), date(s[i]))
  }

  /** Puts `x` in front of the first element that is not newer than it, so
      that among equal dates the earlier-inserted element comes first. */
  function InsertByDateDesc<T(==)>(x: T, s: seq<T>, date: T -> string): (r: seq<T>)
    ensures multiset(r) == multiset(s) + multiset{x}
    ensures |r| == |s| + 1
    decreases |s|
  {
    if s == [] then [x]
    else if LexLe(date(s[0]), date(x)) then [x] + s
    else
      assert s == [s[0]] + s[1..];
      [s[0]] + InsertByDateDesc(x, s[1..], date)
  }

  function SortByDateDesc<T(==)>(s: seq<T>, date: T -> string): (r: seq<T>)
    ensures multiset(r) == multiset(s)
    ensures |r| == |s|
    decreases |s|
  {
    if s == [] then []
    else
      assert s == [s[0]] + s[1..];
      InsertByDateDesc(s[0], SortByDateDesc(s[1..], date), date)
  }

  lemma {:induction false} InsertKeepsSorted<T>(x: T, s: seq<T>, date: T -> string)
    requires SortedByDateDesc(s, date)
    ensures SortedByDateDesc(InsertByDateDesc(x, s, date), date)
    decreases |s|
  {
    if s == [] {
    } else if LexLe(date(s[0]), date(x)) {
      forall e | e in s ensures LexLe(date(e), date(x)) {
        var k :| 0 <= k < |s| && s[k] == e;
        if k > 0 {
          LexLeTransitive(date(e), date(s[0]), date(x));
        }
      }
      PrependSorted(x, s, date);
    } else {
      var t := s[1..];
      SortedTail(s, date);
      InsertKeepsSorted(x, t, date);
      var rt := InsertByDateDesc(x, t, date);
      assert InsertByDateDesc(x, s, date) == [s[0]] + rt;
      LexLeTotal(date(s[0]), date(x));
      forall e | e in rt ensures LexLe(date(e), date(s[0])) {
        assert e in multiset(rt);
        if e != x {
          assert e in multiset(t);
          var k :| 0 <= k < |t| && t[k] == e;
          assert e == s[k + 1];
        }
      }
      PrependSorted(s[0], rt, date);
    }
  }

  lemma SortedTail<T>(s: seq<T>, date: T -> string)
    requires s != [] && SortedByDateDesc(s, date)
    ensures SortedByDateDesc(s[1..], date)
  {
    var t := s[1..];
    forall i, j | 0 <= i < j < |t| ensures LexLe(date(t[j]), date(t[i])) {
      assert t[i] == s[i + 1] && t[j] == s[j + 1];
    }
  }

  /** A new first element at least as new as every other keeps the order. */
  lemma PrependSorted<T>(y: T, t: seq<T>, date: T -> string)
    requires SortedByDateDesc(t, date)
    requires forall e :: e in t ==> LexLe(date(e), date(y))
    ensures SortedByDateDesc([y] + t, date)
  {
    var r := [y] + t;
    forall i, j | 0 <= i < j < |r| ensures LexLe(date(r[j]), date(r[i])) {
      assert r[j] == t[j - 1];
      if i > 0 {
        assert r[i] == t[i - 1];
      }
    }
  }

  lemma {:induction false} SortIsSorted<T>(s: seq<T>, date: T -> string)
    ensures SortedByDateDesc(SortByDateDesc(s, date), date)
    decreases |s|
  {
    if s != [] {
      SortIsSorted(s[1..], date);
      InsertKeepsSorted(s[0], SortByDateDesc(s[1..], date), date);
    }
  }

  /** Sorting neither adds nor loses an element. */
  lemma SortKeepsMembers<T>(s: seq<T>, date: T -> string)
    ensures forall x :: x in SortByDateDesc(s, date) <==> x in s
  {
    var r := SortByDateDesc(s, date);
    forall x ensures x in r <==> x in s {
      assert x in r <==> x in multiset(r);
      assert x in s <==> x in multiset(s);
    }
  }

  /** The first `k` of a newest-first list are the newest: nothing left
      out is newer than anything kept. */
  lemma PrefixIsNewest<T>(s: seq<T>, k: nat, date: T -> string)
    requires SortedByDateDesc(s, date) && k <= |s|
    ensures forall x, y :: x in multiset(s) - multiset(s[..k]) && y in s[..k] ==> LexLe(date(x), date(y))
  {
    assert s == s[..k] + s[k..];
    assert multiset(s) - multiset(s[..k]) == multiset(s[k..]);
    forall x, y | x in multiset(s[k..]) && y in s[..k] ensures LexLe(date(x), date(y)) {
      assert x in s[k..];
      var j :| k <= j < |s| && s[j] == x;
      var i :| 0 <= i < k && s[i] == y;
    }
  }

  lemma {:induction false} SumOfInsert<T>(x: T, s: seq<T>, date: T -> string, f: T -> real)
    ensures Seqs.Sum(InsertByDateDesc(x, s, date), f) == f(x) + Seqs.Sum(s, f)
    decreases |s|
  {
    if s != [] && !LexLe(date(s[0]), date(x)) {
      SumOfInsert(x, s[1..], date, f);
      var rt := InsertByDateDesc(x, s[1..], date);
      assert ([s[0]] + rt)[1..] == rt;
    } else if s != [] {
      assert ([x] + s)[1..] == s;
    }
  }

  /** Sorting does not change a sum over the elements. */
  lemma {:induction false} SumOfSort<T>(s: seq<T>, date: T -> string, f: T -> real)
    ensures Seqs.Sum(SortByDateDesc(s, date), f) == Seqs.Sum(s, f)
    decreases |s|
  {
    if s != [] {
      SumOfSort(s[1..], date, f);
      SumOfInsert(s[0], SortByDateDesc(s[1..], date), date, f);
    }
  }
}
