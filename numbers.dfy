/** JavaScript's number parsing and rounding, over exact integers and reals. */
module Numbers {
  import opened Wrappers
  import Text

  /** The longest prefix of `s` made of ASCII digits. */
  function DigitPrefix(s: string): (r: string)
    ensures |r| <= |s| && r == s[..|r|]
    ensures Text.AllDigits(r)
    ensures |r| < |s| ==> !Text.IsDigit(s[|r|])
    decreases |s|
  {
    if s != [] && Text.IsDigit(s[0]) then [s[0]] + DigitPrefix(s[1..]) else []
  }

  /** The value of a string of decimal digits, most significant first. */
  function DigitsValue(ds: string): nat
    requires Text.AllDigits(ds)
    decreases |ds|
  {
    if ds == [] then 0
    else DigitsValue(ds[..|ds| - 1]) * 10 + (ds[|ds| - 1] as int - '0' as int)
  }

  function Pow10(n: nat): (r: nat)
    ensures r >= 1
  {
    if n == 0 then 1 else 10 * Pow10(n - 1)
  }

  /** An optional leading sign: its factor and the rest of the string. */
  function SplitSign(t: string): (int, string)
  {
    if t != [] && t[0] == '-' then (-1, t[1..])
    else if t != [] && t[0] == '+' then (1, t[1..])
    else (1, t)
  }

  /** `Number.parseInt(s, 10)`: leading white space, an optional sign and the
      longest run of digits after it; `None` (NaN) when there is no digit. */
  function ParseInt(s: string): (r: Option<int>)
  {
    var (sign, u) := SplitSign(Text.TrimStart(s));
    var ds := DigitPrefix(u);
    if ds == [] then None else Some(sign * DigitsValue(ds))
  }

  /** `Number.parseFloat(s)` on plain decimal notation: leading white space,
      an optional sign, digits, and an optional `.` followed by digits; at
      least one digit is needed, otherwise the result is `None` (NaN). */
  function ParseFloat(s: string): (r: Option<real>)
  {
    var (sign, u) := SplitSign(Text.TrimStart(s));
    var ip := DigitPrefix(u);
    var rest := u[|ip|..];
    var fp := if rest != [] && rest[0] == '.' then DigitPrefix(rest[1..]) else [];
    if ip == [] && fp == [] then None
    else Some(sign as real * (DigitsValue(ip) as real + DigitsValue(fp) as real / Pow10(|fp|) as real))
  }

  /** `Math.round`: the nearest integer, with halves rounded up (towards
      positive infinity, so -2.5 rounds to -2). */
  function MathRound(x: real): (r: int)
    ensures x - 0.5 < r as real <= x + 0.5
  {
    (x + 0.5).Floor
  }

  /** Only one integer lies in the half-open window `MathRound` picks from. */
  lemma MathRoundUnique(x: real, n: int)
    requires x - 0.5 < n as real <= x + 0.5
    ensures n == MathRound(x)
  {
  }

  /** A whole number of cents. */
  predicate IsCents(x: real)
  {
    (x * 100.0).Floor as real == x * 100.0
  }

  /** `Math.round(x * 100) / 100`: rounding half up to two decimals. */
  function Round2(x: real): (r: real)
    ensures IsCents(r)
    ensures x - 0.005 < r <= x + 0.005
  {
    var n := MathRound(x * 100.0);
    assert (n as real / 100.0) * 100.0 == n as real;
    n as real / 100.0
  }

  /** Rounding is exact on amounts already in whole cents, and `Round2` picks
      the one whole-cent amount within half a cent of `x`, halves going up. */
  lemma Round2Unique(x: real, c: real)
    requires IsCents(c) && x - 0.005 < c <= x + 0.005
    ensures c == Round2(x)
  {
    var n := (c * 100.0).Floor;
    MathRoundUnique(x * 100.0, n);
  }

  /** The amount and price fields' test: the text parses to a number above zero. */
  function PositiveNumber(s: string): (r: Option<real>)
    ensures r.Some? <==> ParseFloat(s).Some? && ParseFloat(s).value > 0.0
    ensures r.Some? ==> r == ParseFloat(s)
  {
    var v := ParseFloat(s);
    if v.Some? && v.value > 0.0 then v else None
  }
}
