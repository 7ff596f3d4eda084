/** The string operations the screens use, over `seq<char>`, with ASCII case
    folding and the common white-space characters. */
module Text {
  import Seqs

  /** The characters `String.prototype.trim` removes that this model knows about. */
  predicate IsSpace(c: char)
  {
    c == ' ' || c == '\t' || c == '\n' || c == '\r' || c == '\U{000B}' || c == '\U{000C}'
    || c == '\U{00A0}' || c == '\U{FEFF}'
  }

  /** Every character is white space: `!s.trim()` holds exactly for these. */
  predicate IsBlank(s: string)
  {
    forall i :: 0 <= i < |s| ==> IsSpace(s[i])
  }

  function TrimStart(s: string): (r: string)
    ensures |r| <= |s|
    ensures r == [] || !IsSpace(r[0])
    decreases |s|
  {
    if s != [] && IsSpace(s[0]) then TrimStart(s[1..]) else s
  }

  function TrimEnd(s: string): (r: string)
    ensures |r| <= |s|
    ensures r == [] || !IsSpace(r[|r| - 1])
    decreases |s|
  {
    if s != [] && IsSpace(s[|s| - 1]) then TrimEnd(s[..|s| - 1]) else s
  }

  /** What `TrimStart` removes is white space, and what it keeps is a suffix. */
  lemma {:induction false} TrimStartSplits(s: string)
    ensures s[|s| - |TrimStart(s)|..] == TrimStart(s)
    ensures IsBlank(s[..|s| - |TrimStart(s)|])
    decreases |s|
  {
    if s != [] && IsSpace(s[0]) {
      TrimStartSplits(s[1..]);
      var k := |s| - |TrimStart(s)|;
      assert s[1..][..k - 1] == s[1..k];
    }
  }

  /** What `TrimEnd` removes is white space, and what it keeps is a prefix. */
  lemma {:induction false} TrimEndSplits(s: string)
    ensures s[..|TrimEnd(s)|] == TrimEnd(s)
    ensures IsBlank(s[|TrimEnd(s)|..])
    decreases |s|
  {
    if s != [] && IsSpace(s[|s| - 1]) {
      TrimEndSplits(s[..|s| - 1]);
      var k := |TrimEnd(s)|;
      assert s[..|s| - 1][k..] == s[k..|s| - 1];
    }
  }

  /** Trimming the start and then the end cuts the input into white space,
      the kept slice starting at `|s| - |TrimStart(s)|`, and white space; the
      slice is empty only when the whole input is white space. */
  lemma TrimSplits(s: string)
    ensures var t := TrimStart(s); var r := TrimEnd(t); var i := |s| - |t|;
      && i + |r| <= |s|
      && r == s[i..i + |r|] && IsBlank(s[..i]) && IsBlank(s[i + |r|..])
      && (r == [] <==> IsBlank(s))
      && (r != [] ==> !IsSpace(r[0]))
  {
    var t := TrimStart(s);
    var r := TrimEnd(t);
    TrimStartSplits(s);
    TrimEndSplits(t);
    var i := |s| - |t|;
    assert r == s[i..i + |r|] && s[i + |r|..] == t[|r|..];
    assert r == [] ==> IsBlank(s) by {
      if r == [] {
        assert s == s[..i] + s[i..];
      }
    }
    assert r != [] ==> s[i] == r[0] && r[0] == t[0];
  }

  /** `String.prototype.trim`: the input less its white-space ends. */
  function Trim(s: string): (r: string)
    ensures r == [] <==> IsBlank(s)
    ensures r != [] ==> !IsSpace(r[0]) && !IsSpace(r[|r| - 1])
    ensures |r| <= |s|
    ensures exists i, j :: 0 <= i <= j <= |s| && r == s[i..j] && IsBlank(s[..i]) && IsBlank(s[j..])
  {
    var t := TrimStart(s);
    var r := TrimEnd(t);
    TrimSplits(s);
    var i := |s| - |t|;
    assert IsBlank(s[..i]) && IsBlank(s[i + |r|..]) && r == s[i..i + |r|];
    r
  }

  /** A string with no white space at either end is its own trim. */
  lemma TrimOfTrimmed(s: string)
    requires s == [] || (!IsSpace(s[0]) && !IsSpace(s[|s| - 1]))
    ensures Trim(s) == s
  {
    assert TrimStart(s) == s;
  }

  /** Trimming twice is trimming once. */
  lemma TrimIdempotent(s: string)
    ensures Trim(Trim(s)) == Trim(s)
  {
    TrimOfTrimmed(Trim(s));
  }

  function LowerChar(c: char): char
  {
    if 'A' <= c <= 'Z' then (c as int + 32) as char else c
  }

  /** `String.prototype.toLowerCase`, folding ASCII letters only. */
  function ToLower(s: string): (r: string)
    ensures |r| == |s|
  {
    Seqs.Map(s, LowerChar)
  }

  /** `s.startsWith(p)`. */
  predicate StartsWith(s: string, p: string)
  {
    |p| <= |s| && s[..|p|] == p
  }

  /** `q` occurs in `s` starting at position `i`. */
  predicate OccursAt(s: string, q: string, i: int)
  {
    0 <= i <= |s| - |q| && s[i..i + |q|] == q
  }

  /** `s.includes(q)`: `q` occurs in `s` at some position. */
  predicate Contains(s: string, q: string)
    ensures Contains(s, q) <==> exists i :: OccursAt(s, q, i)
    decreases |s|
  {
    if StartsWith(s, q) then
      assert OccursAt(s, q, 0);
      true
    else if s == [] then false
    else
      assert forall i :: OccursAt(s, q, i) ==> OccursAt(s[1..], q, i - 1) by {
        forall i | OccursAt(s, q, i) ensures OccursAt(s[1..], q, i - 1) {
          assert i != 0;
          ShiftOccurrence(s, q, i);
        }
      }
      assert forall j :: OccursAt(s[1..], q, j) ==> OccursAt(s, q, j + 1) by {
        forall j | OccursAt(s[1..], q, j) ensures OccursAt(s, q, j + 1) {
          ShiftOccurrence(s, q, j + 1);
        }
      }
      Contains(s[1..], q)
  }

  lemma ShiftOccurrence(s: string, q: string, i: int)
    requires 1 <= i <= |s| - |q|
    ensures OccursAt(s, q, i) <==> OccursAt(s[1..], q, i - 1)
  {
    var a, b := s[i..i + |q|], s[1..][i - 1..i - 1 + |q|];
    assert forall k :: 0 <= k < |a| ==> a[k] == s[i + k] == b[k];
    assert a == b;
  }

  /** A string that starts with `q` contains `q`. */
  lemma StartsWithContains(s: string, q: string)
    requires StartsWith(s, q)
    ensures Contains(s, q)
  {
  }

  /** A string lacking the query's first character does not contain the query. */
  lemma NotContainsFirst(s: string, q: string)
    requires q != [] && q[0] !in s
    ensures !Contains(s, q)
  {
    forall i | 0 <= i <= |s| - |q| ensures !OccursAt(s, q, i) {
      assert s[i..i + |q|][0] == s[i];
    }
  }

  predicate IsDigit(c: char)
  {
    '0' <= c <= '9'
  }

  predicate AllDigits(s: string)
  {
    forall i :: 0 <= i < |s| ==> IsDigit(s[i])
  }

  /** `s.replace(/\D/g, "")`: keeps the ASCII digits of `s`, in order. */
  function StripNonDigits(s: string): (r: string)
    ensures AllDigits(r) && |r| <= |s|
    ensures Seqs.IsSubsequence(r, s)
    ensures forall c :: IsDigit(c) ==> multiset(r)[c] == multiset(s)[c]
  {
    var r := Seqs.Filter(s, IsDigit);
    Seqs.FilterIsSubsequence(s, IsDigit);
    Seqs.FilterKeepsCount(s, IsDigit);
    assert forall i :: 0 <= i < |r| ==> r[i] in r;
    r
  }

  /** Stripping twice is stripping once. */
  lemma StripNonDigitsIdempotent(s: string)
    ensures StripNonDigits(StripNonDigits(s)) == StripNonDigits(s)
  {
    var r := StripNonDigits(s);
    assert forall c :: c in r ==> IsDigit(c);
    Seqs.FilterAll(r, IsDigit);
  }

  /** Lexicographic order by character code: how the screens compare ISO-8601
      timestamps with `localeCompare`. */
  predicate LexLe(a: string, b: string)
    decreases |a|
  {
    a == [] || (b != [] && (a[0] < b[0] || (a[0] == b[0] && LexLe(a[1..], b[1..]))))
  }

  lemma {:induction false} LexLeTotal(a: string, b: string)
    ensures LexLe(a, b) || LexLe(b, a)
    decreases |a|
  {
    if a != [] && b != [] && a[0] == b[0] {
      LexLeTotal(a[1..], b[1..]);
    }
  }

  lemma {:induction false} LexLeTransitive(a: string, b: string, c: string)
    requires LexLe(a, b) && LexLe(b, c)
    ensures LexLe(a, c)
    decreases |a|
  {
    if a != [] && b != [] && c != [] && a[0] == b[0] == c[0] {
      LexLeTransitive(a[1..], b[1..], c[1..]);
    }
  }
}
