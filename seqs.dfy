/** The array operations the store and the screens are built from
    (`filter`, `map`, `reduce`, `slice`), as functions on sequences. */
module Seqs {

  /** `r` can be obtained from `s` by deleting elements: order is preserved. */
  predicate IsSubsequence<T(==)>(r: seq<T>, s: seq<T>)
    decreases |s|
  {
    if s == [] then r == []
    else IsSubsequence(r, s[1..]) || (r != [] && r[0] == s[0] && IsSubsequence(r[1..], s[1..]))
  }

  /** No two elements of `s` share a key. */
  predicate DistinctBy<T>(s: seq<T>, key: T -> string)
  {
    forall i, j :: 0 <= i < j < |s| ==> key(s[i]) != key(s[j])
  }

  /** `Array.prototype.filter`. */
  function Filter<T(==)>(s: seq<T>, keep: T -> bool): (r: seq<T>)
    ensures |r| <= |s|
    ensures forall x :: x in r ==> x in s && keep(x)
    ensures forall x :: x in s && keep(x) ==> x in r
    ensures multiset(r) <= multiset(s)
    decreases |s|
  {
    if s == [] then []
    else if keep(s[0]) then
      assert s == [s[0]] + s[1..];
      [s[0]] + Filter(s[1..], keep)
    else
      assert s == [s[0]] + s[1..];
      Filter(s[1..], keep)
  }

  /** `filter` keeps the order of what it keeps. */
  lemma {:induction false} FilterIsSubsequence<T>(s: seq<T>, keep: T -> bool)
    ensures IsSubsequence(Filter(s, keep), s)
    decreases |s|
  {
    if s != [] {
      FilterIsSubsequence(s[1..], keep);
      if keep(s[0]) {
        assert ([s[0]] + Filter(s[1..], keep))[1..] == Filter(s[1..], keep);
      }
    }
  }

  /** `Array.prototype.map`. */
  function Map<T, U>(s: seq<T>, f: T -> U): (r: seq<U>)
    ensures |r| == |s|
    ensures forall i :: 0 <= i < |s| ==> r[i] == f(s[i])
    decreases |s|
  {
    if s == [] then [] else [f(s[0])] + Map(s[1..], f)
  }

  /** `reduce((acc, x) => acc + f(x), 0)` over exact reals. */
  function Sum<T>(s: seq<T>, f: T -> real): real
    decreases |s|
  {
    if s == [] then 0.0 else f(s[0]) + Sum(s[1..], f)
  }

  /** `slice(0, n)`: the first `n` elements, or all of them when there are fewer. */
  function Take<T>(s: seq<T>, n: nat): (r: seq<T>)
    ensures |r| == if |s| <= n then |s| else n
    ensures r == s[..|r|]
  {
    if |s| <= n then s else s[..n]
  }

  lemma {:induction false} FilterAppend<T>(a: seq<T>, b: seq<T>, keep: T -> bool)
    ensures Filter(a + b, keep) == Filter(a, keep) + Filter(b, keep)
    decreases |a|
  {
    if a == [] {
      assert a + b == b;
    } else {
      assert (a + b)[1..] == a[1..] + b;
      FilterAppend(a[1..], b, keep);
    }
  }

  /** A filter that keeps everything returns its input unchanged. */
  lemma {:induction false} FilterAll<T>(s: seq<T>, keep: T -> bool)
    requires forall x :: x in s ==> keep(x)
    ensures Filter(s, keep) == s
    decreases |s|
  {
    if s != [] {
      assert forall x :: x in s[1..] ==> x in s;
      FilterAll(s[1..], keep);
    }
  }

  /** Filtering by a weaker condition first changes nothing. */
  lemma {:induction false} FilterFilter<T>(s: seq<T>, outer: T -> bool, inner: T -> bool)
    requires forall x :: inner(x) ==> outer(x)
    ensures Filter(Filter(s, outer), inner) == Filter(s, inner)
    decreases |s|
  {
    if s != [] {
      FilterFilter(s[1..], outer, inner);
      if outer(s[0]) {
        assert Filter([s[0]] + Filter(s[1..], outer), inner)
            == Filter([s[0]], inner) + Filter(Filter(s[1..], outer), inner) by {
          FilterAppend([s[0]], Filter(s[1..], outer), inner);
        }
        assert Filter([s[0]], inner) == if inner(s[0]) then [s[0]] else [] by {
          assert [s[0]][1..] == [];
        }
      }
    }
  }

  lemma {:induction false} FilterDistinct<T>(s: seq<T>, keep: T -> bool, key: T -> string)
    requires DistinctBy(s, key)
    ensures DistinctBy(Filter(s, keep), key)
    decreases |s|
  {
    if s != [] {
      var t := s[1..];
      DistinctTail(s, key);
      FilterDistinct(t, keep, key);
      if keep(s[0]) {
        var ft := Filter(t, keep);
        assert Filter(s, keep) == [s[0]] + ft;
        forall e | e in ft ensures key(e) != key(s[0]) {
          var k :| 0 <= k < |t| && t[k] == e;
          assert e == s[k + 1];
        }
        PrependDistinct(s[0], ft, key);
      }
    }
  }

  lemma DistinctTail<T>(s: seq<T>, key: T -> string)
    requires s != [] && DistinctBy(s, key)
    ensures DistinctBy(s[1..], key)
  {
    var t := s[1..];
    forall i, j | 0 <= i < j < |t| ensures key(t[i]) != key(t[j]) {
      assert t[i] == s[i + 1] && t[j] == s[j + 1];
    }
  }

  /** A new first element whose key no other element has keeps keys distinct. */
  lemma PrependDistinct<T>(y: T, t: seq<T>, key: T -> string)
    requires DistinctBy(t, key)
    requires forall e :: e in t ==> key(e) != key(y)
    ensures DistinctBy([y] + t, key)
  {
    var r := [y] + t;
    forall i, j | 0 <= i < j < |r| ensures key(r[i]) != key(r[j]) {
      assert r[j] == t[j - 1];
      if i > 0 {
        assert r[i] == t[i - 1];
      }
    }
  }

  lemma {:induction false} SumAppend<T>(a: seq<T>, b: seq<T>, f: T -> real)
    ensures Sum(a + b, f) == Sum(a, f) + Sum(b, f)
    decreases |a|
  {
    if a == [] {
      assert a + b == b;
    } else {
      assert (a + b)[1..] == a[1..] + b;
      SumAppend(a[1..], b, f);
    }
  }

  /** The elements kept and the elements dropped by a filter add up to the whole. */
  lemma {:induction false} SumPartition<T>(s: seq<T>, keep: T -> bool, f: T -> real)
    ensures Sum(Filter(s, keep), f) + Sum(Filter(s, x => !keep(x)), f) == Sum(s, f)
    decreases |s|
  {
    if s != [] {
      SumPartition(s[1..], keep, f);
      var rest := Filter(s[1..], keep);
      var restOut := Filter(s[1..], x => !keep(x));
      if keep(s[0]) {
        assert Sum([s[0]] + rest, f) == f(s[0]) + Sum(rest, f) by { assert ([s[0]] + rest)[1..] == rest; }
      } else {
        assert Sum([s[0]] + restOut, f) == f(s[0]) + Sum(restOut, f) by { assert ([s[0]] + restOut)[1..] == restOut; }
      }
    }
  }

  lemma {:induction false} SumNonNegative<T>(s: seq<T>, f: T -> real)
    requires forall x :: x in s ==> f(x) >= 0.0
    ensures Sum(s, f) >= 0.0
    decreases |s|
  {
    if s != [] {
      assert forall x :: x in s[1..] ==> x in s;
      SumNonNegative(s[1..], f);
    }
  }

  /** With no negative terms, a filtered sum never exceeds the full sum. */
  lemma SumFilterBounded<T>(s: seq<T>, keep: T -> bool, f: T -> real)
    requires forall x :: x in s ==> f(x) >= 0.0
    ensures Sum(Filter(s, keep), f) <= Sum(s, f)
  {
    SumPartition(s, keep, f);
    var dropped := Filter(s, x => !keep(x));
    assert forall x :: x in dropped ==> x in s;
    SumNonNegative(dropped, f);
  }

  /** Filters whose conditions agree on the elements of `s` keep the same elements. */
  lemma {:induction false} FilterSameCondition<T>(s: seq<T>, p: T -> bool, q: T -> bool)
    requires forall x :: x in s ==> (p(x) <==> q(x))
    ensures Filter(s, p) == Filter(s, q)
    decreases |s|
  {
    if s != [] {
      assert forall x :: x in s[1..] ==> x in s;
      FilterSameCondition(s[1..], p, q);
    }
  }

  lemma {:induction false} SubsequenceOfSelf<T>(s: seq<T>)
    ensures IsSubsequence(s, s)
    decreases |s|
  {
    if s != [] {
      SubsequenceOfSelf(s[1..]);
    }
  }

  lemma {:induction false} SubsequenceSingleton<T>(s: seq<T>, i: nat)
    requires i < |s|
    ensures IsSubsequence([s[i]], s)
    decreases |s|
  {
    if i == 0 {
      assert [s[0]][1..] == [];
      assert IsSubsequence([], s[1..]) by { EmptySubsequence(s[1..]); }
    } else {
      SubsequenceSingleton(s[1..], i - 1);
    }
  }

  lemma {:induction false} EmptySubsequence<T>(s: seq<T>)
    ensures IsSubsequence([], s)
    decreases |s|
  {
    if s != [] {
      EmptySubsequence(s[1..]);
    }
  }

  /** A filter that nothing passes keeps nothing. */
  lemma {:induction false} FilterNone<T>(s: seq<T>, keep: T -> bool)
    requires forall x :: x in s ==> !keep(x)
    ensures Filter(s, keep) == []
    decreases |s|
  {
    if s != [] {
      assert forall x :: x in s[1..] ==> x in s;
      FilterNone(s[1..], keep);
    }
  }

  /** When only elements sharing `x`'s key pass, and keys are distinct,
      the filter keeps `x` alone. */
  lemma {:induction false} FilterUniqueKey<T>(s: seq<T>, keep: T -> bool, key: T -> string, x: T)
    requires DistinctBy(s, key)
    requires x in s && keep(x)
    requires forall y :: y in s && keep(y) ==> key(y) == key(x)
    ensures Filter(s, keep) == [x]
    decreases |s|
  {
    var t := s[1..];
    assert DistinctBy(t, key) by {
      forall i, j | 0 <= i < j < |t| ensures key(t[i]) != key(t[j]) {
        assert t[i] == s[i + 1] && t[j] == s[j + 1];
      }
    }
    if s[0] == x {
      forall y | y in t ensures !keep(y) {
        var j :| 0 <= j < |t| && t[j] == y;
        assert key(s[0]) != key(s[j + 1]);
      }
      FilterNone(t, keep);
    } else {
      var j :| 0 <= j < |t| && t[j] == x;
      assert key(s[0]) != key(s[j + 1]);
      assert forall y :: y in t ==> y in s;
      FilterUniqueKey(t, keep, key, x);
    }
  }

  /** `filter` keeps every occurrence of a value that passes. */
  lemma FilterKeepsCount<T>(s: seq<T>, keep: T -> bool)
    ensures forall x :: keep(x) ==> multiset(Filter(s, keep))[x] == multiset(s)[x]
  {
    var rest := Filter(s, x => !keep(x));
    FilterPartitionMultiset(s, keep, x => !keep(x));
    assert forall x :: keep(x) ==> x !in multiset(rest);
  }

  /** Filtering by a test and by its complement splits the input: what the
      two filters keep is, together, the input. */
  lemma {:induction false} FilterPartitionMultiset<T>(s: seq<T>, keep: T -> bool, drop: T -> bool)
    requires forall x :: x in s ==> (drop(x) <==> !keep(x))
    ensures multiset(Filter(s, keep)) + multiset(Filter(s, drop)) == multiset(s)
    decreases |s|
  {
    if s != [] {
      var x, t := s[0], s[1..];
      assert s == [x] + t;
      assert forall y :: y in t ==> y in s;
      FilterPartitionMultiset(t, keep, drop);
      FilterCons(s, keep);
      FilterCons(s, drop);
    }
  }

  /** One step of `Filter`. */
  lemma FilterStep<T>(s: seq<T>, keep: T -> bool)
    requires s != []
    ensures Filter(s, keep) == if keep(s[0]) then [s[0]] + Filter(s[1..], keep) else Filter(s[1..], keep)
  {
  }

  /** One step of `Filter`, stated on multisets. */
  lemma FilterCons<T>(s: seq<T>, keep: T -> bool)
    requires s != []
    ensures multiset(Filter(s, keep)) == (if keep(s[0]) then multiset{s[0]} else multiset{}) + multiset(Filter(s[1..], keep))
  {
  }

  lemma TakeOfTake<T>(s: seq<T>, m: nat, n: nat)
    requires n <= m
    ensures Take(Take(s, m), n) == Take(s, n)
  {
  }

  lemma TakeMultiset<T>(s: seq<T>, n: nat)
    ensures multiset(Take(s, n)) <= multiset(s)
  {
    var k := |Take(s, n)|;
    assert s == s[..k] + s[k..];
  }
}
