/**
 * The two JavaScript number/string conversions the application relies on:
 * `parseFloat` (reading user input, stored rates and ad prices) and
 * `Number.prototype.toFixed(2)` (writing converted amounts and rates).
 * Numbers are exact reals; only plain decimal notation is read.
 */
module Numeric {
  import opened Wrappers

  predicate IsDigit(c: char) {
    '0' <= c <= '9'
  }

  predicate AllDigits(s: string) {
    forall i :: 0 <= i < |s| ==> IsDigit(s[i])
  }

  function DigitValue(c: char): (d: nat)
    requires IsDigit(c)
    ensures d < 10
  {
    c as int - '0' as int
  }

  function DigitChar(d: nat): (c: char)
    requires d < 10
    ensures IsDigit(c) && DigitValue(c) == d
  {
    ('0' as int + d) as char
  }

  /** The value of a string of decimal digits, most significant first. */
  function DigitsValue(s: string): nat
    requires AllDigits(s)
  {
    if s == [] then 0 else DigitsValue(s[..|s| - 1]) * 10 + DigitValue(s[|s| - 1])
  }

  function Pow10(n: nat): (r: nat)
    ensures r >= 1
  {
    if n == 0 then 1 else 10 * Pow10(n - 1)
  }

  /** Decimal notation of a natural number, as `String(n)` writes it. */
  function NatToDigits(n: nat): (s: string)
    ensures |s| > 0 && AllDigits(s)
    ensures s[0] == '0' <==> n == 0
    ensures |s| == 1 || s[0] != '0'
  {
    if n < 10 then [DigitChar(n)] else NatToDigits(n / 10) + [DigitChar(n % 10)]
  }

  lemma {:induction false} NatToDigitsRoundTrip(n: nat)
    ensures DigitsValue(NatToDigits(n)) == n
  {
    if n >= 10 {
      var s := NatToDigits(n);
      assert s[..|s| - 1] == NatToDigits(n / 10);
      NatToDigitsRoundTrip(n / 10);
    }
  }

  /** Position of the first '.', or |s| when there is none. */
  function DotIndex(s: string): (k: nat)
    ensures k <= |s|
    ensures k < |s| ==> s[k] == '.'
    ensures forall i :: 0 <= i < k ==> s[i] != '.'
  {
    if s == [] || s[0] == '.' then 0 else 1 + DotIndex(s[1..])
  }

  /** Unsigned decimal: digits, optionally a point and more digits, at least one digit in all. */
  function ParseUnsigned(s: string): (r: Option<real>)
    ensures s == "" ==> r.None?
    ensures r.Some? ==> r.value >= 0.0
  {
    var k := DotIndex(s);
    if k == |s| then
      ParseParts(s, "")
    else
      ParseParts(s[..k], s[k + 1..])
  }

  /** The value of `whole.frac`, both parts digit strings, not both empty. */
  function ParseParts(whole: string, frac: string): (r: Option<real>)
    ensures whole == "" && frac == "" ==> r.None?
    ensures r.Some? ==> AllDigits(whole) && AllDigits(frac) && r.value >= DigitsValue(whole) as real
  {
    if AllDigits(whole) && AllDigits(frac) && |whole| + |frac| > 0 then
      Some(DigitsValue(whole) as real + DigitsValue(frac) as real / Pow10(|frac|) as real)
    else
      None
  }

  /**
   * `parseFloat(s)`, with `None` for `NaN`. An optional sign precedes the
   * unsigned decimal.
   */
  function ParseFloat(s: string): (r: Option<real>)
    ensures s == "" ==> r == None
  {
    if |s| > 0 && s[0] == '-' then
      match ParseUnsigned(s[1..])
      case Some(v) => Some(-v)
      case None => None
    else if |s| > 0 && s[0] == '+' then
      ParseUnsigned(s[1..])
    else
      ParseUnsigned(s)
  }

  /** `parseFloat(s) || 0`: unparsable text reads as zero. */
  function ParseOrZero(s: string): (x: real)
    ensures ParseFloat(s).Some? ==> x == ParseFloat(s).value
    ensures ParseFloat(s).None? ==> x == 0.0
  {
    ParseFloat(s).GetOr(0.0)
  }

  /** `parseFloat(s) > 0` (false for NaN). */
  predicate IsPositive(s: string) {
    ParseFloat(s).Some? && ParseFloat(s).value > 0.0
  }

  function Abs(x: real): (r: real)
    ensures r >= 0.0 && (r == x || r == -x)
  {
    if x < 0.0 then -x else x
  }

  /** Whole hundredths in y >= 0, the nearer one, halves rounded up. */
  function Cents(y: real): (c: nat)
    requires y >= 0.0
    ensures c as real - 0.5 <= y * 100.0 < c as real + 0.5
  {
    (y * 100.0 + 0.5).Floor
  }

  /**
   * The value `toFixed(2)` denotes: a whole number of hundredths, the one
   * nearest x, with halves rounded away from zero.
   */
  function Round2(x: real): (r: real)
    ensures (r * 100.0).Floor as real == r * 100.0
    ensures x >= 0.0 ==> x * 100.0 - 0.5 < r * 100.0 <= x * 100.0 + 0.5
    ensures x < 0.0 ==> x * 100.0 - 0.5 <= r * 100.0 < x * 100.0 + 0.5
    ensures -0.005 <= r - x <= 0.005
    ensures x >= 0.0 ==> r >= 0.0
    ensures x <= 0.0 ==> r <= 0.0
  {
    var n: int := if x < 0.0 then -(Cents(-x) as int) else Cents(x);
    assert (n as real).Floor == n;
    assert n as real / 100.0 * 100.0 == n as real;
    n as real / 100.0
  }

  /**
   * The rounding window fixes the result: the only whole number of
   * hundredths in it is Round2(x).
   */
  lemma Round2Unique(x: real, n: int)
    requires x >= 0.0 ==> x * 100.0 - 0.5 < n as real <= x * 100.0 + 0.5
    requires x < 0.0 ==> x * 100.0 - 0.5 <= n as real < x * 100.0 + 0.5
    ensures Round2(x) == n as real / 100.0
  {
    var m := (Round2(x) * 100.0).Floor;
    assert m as real == Round2(x) * 100.0;
    assert -1.0 < (m - n) as real < 1.0;
    assert m == n;
  }

  /** Whole units, a point and exactly two decimals, as `toFixed(2)` writes |x|. */
  predicate TwoDecimals(u: string) {
    && |u| >= 4
    && AllDigits(u[..|u| - 3])
    && u[|u| - 3] == '.'
    && IsDigit(u[|u| - 2]) && IsDigit(u[|u| - 1])
  }

  /**
   * `x.toFixed(2)`: a '-' exactly when x < 0 (also when |x| rounds to zero),
   * then the integer part and two decimals of |x| rounded to hundredths.
   */
  function ToFixed2(x: real): (s: string)
    ensures |s| >= 4
    ensures s[0] == '-' <==> x < 0.0
    ensures TwoDecimals(if x < 0.0 then s[1..] else s)
  {
    var u := CentsText(Cents(Abs(x)));
    assert ("-" + u)[1..] == u;
    assert "" + u == u;
    (if x < 0.0 then "-" else "") + u
  }

  /** c hundredths written as whole units, a point and exactly two decimals. */
  function CentsText(c: nat): (s: string)
    ensures TwoDecimals(s) && IsDigit(s[0])
  {
    var d := NatToDigits(c / 100);
    var s := d + "." + [DigitChar(c % 100 / 10), DigitChar(c % 10)];
    assert s[..|s| - 3] == d;
    s
  }

  lemma DotIndexAfterDigits(d: string, f: string)
    requires AllDigits(d)
    ensures DotIndex(d + "." + f) == |d|
  {
    var s := d + "." + f;
    assert s[|d|] == '.';
  }

  lemma ParseUnsignedSplit(d: string, f: string)
    requires AllDigits(d) && AllDigits(f) && |d| > 0
    ensures ParseUnsigned(d + "." + f) == ParseParts(d, f)
  {
    var s := d + "." + f;
    DotIndexAfterDigits(d, f);
    assert |d| < |s|;
    assert s[..|d|] == d;
    assert s[|d| + 1..] == f;
  }

  lemma TwoDigitsValue(a: nat, b: nat)
    requires a < 10 && b < 10
    ensures DigitsValue([DigitChar(a), DigitChar(b)]) == a * 10 + b
  {
    var f := [DigitChar(a), DigitChar(b)];
    var g := f[..1];
    assert g == [DigitChar(a)];
    assert g[..0] == [];
    assert DigitsValue(g) == DigitsValue(g[..0]) * 10 + DigitValue(g[0]);
    assert DigitsValue(g) == a;
    assert DigitsValue(f) == DigitsValue(g) * 10 + DigitValue(f[1]);
  }

  lemma CentsSplit(c: nat)
    ensures (c % 100 / 10) * 10 + c % 10 == c % 100
    ensures (c / 100) as real + (c % 100) as real / 100.0 == c as real / 100.0
  {
    var q, m := c / 100, c % 100;
    assert c == 100 * q + m;
    assert c % 10 == m % 10;
  }

  lemma {:induction false} ParseUnsignedFixed(c: nat)
    ensures ParseUnsigned(CentsText(c)) == Some(c as real / 100.0)
  {
    var q, m := c / 100, c % 100;
    var d := NatToDigits(q);
    var f := [DigitChar(m / 10), DigitChar(c % 10)];
    assert DigitsValue(d) == q by {
      NatToDigitsRoundTrip(q);
    }
    assert DigitsValue(f) == m by {
      TwoDigitsValue(m / 10, c % 10);
      CentsSplit(c);
    }
    assert Pow10(|f|) == 100 by {
      assert Pow10(2) == 100;
    }
    assert q as real + m as real / 100.0 == c as real / 100.0 by {
      CentsSplit(c);
    }
    assert CentsText(c) == d + "." + f;
    ParseUnsignedSplit(d, f);
  }

  /** Text that starts with a digit reads the same with a leading minus, negated. */
  lemma ParseFloatSigned(u: string)
    requires |u| > 0 && IsDigit(u[0])
    ensures ParseFloat(u) == ParseUnsigned(u)
    ensures ParseUnsigned(u).Some? ==> ParseFloat("-" + u) == Some(-ParseUnsigned(u).value)
  {
    assert ("-" + u)[1..] == u;
  }

  /** Reading back what `toFixed(2)` wrote gives the rounded value. */
  lemma ToFixed2RoundTrip(x: real)
    ensures ParseFloat(ToFixed2(x)) == Some(Round2(x))
  {
    var c := Cents(Abs(x));
    var u := CentsText(c);
    var v := c as real / 100.0;
    assert ParseUnsigned(u) == Some(v) by {
      ParseUnsignedFixed(c);
    }
    ParseFloatSigned(u);
    var s := ToFixed2(x);
    if x < 0.0 {
      assert s == "-" + u;
      assert ParseFloat(s) == Some(-v);
      assert Round2(x) == -v;
    } else {
      assert s == u;
      assert ParseFloat(s) == Some(v);
      assert Round2(x) == v;
    }
  }

  /** `String(n)` reads back as n, with or without a leading minus sign. */
  lemma ParseFloatNat(n: nat)
    ensures ParseFloat(NatToDigits(n)) == Some(n as real)
    ensures ParseFloat("-" + NatToDigits(n)) == Some(-(n as real))
  {
    var d := NatToDigits(n);
    assert DotIndex(d) == |d|;
    assert d[..|d|] == d;
    assert ParseUnsigned(d) == ParseParts(d, "");
    NatToDigitsRoundTrip(n);
    assert ("-" + d)[1..] == d;
  }

  /** A whole number of hundredths is its own rounding. */
  lemma Round2Exact(n: int)
    ensures Round2(n as real / 100.0) == n as real / 100.0
  {
    var x := n as real / 100.0;
    if n < 0 {
      assert -x * 100.0 + 0.5 == (-n) as real + 0.5;
      assert Cents(-x) == -n;
    } else {
      assert x * 100.0 + 0.5 == n as real + 0.5;
      assert Cents(x) == n;
    }
  }

  /** Rounding a value that already has two decimals changes nothing. */
  lemma Round2Idempotent(x: real)
    ensures Round2(Round2(x)) == Round2(x)
  {
    if x < 0.0 {
      Round2Exact(-(Cents(-x) as int));
    } else {
      Round2Exact(Cents(x));
    }
  }
}
