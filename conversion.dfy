/**
 * `calculateUsdt`, written identically on the VES and the COP dashboard:
 * the fiat amount typed in the form divided by the current rate, as the
 * two-decimal text `toFixed(2)` produces, or "" when there is nothing to show.
 */
module Conversion {
  import opened Wrappers
  import opened Numeric

  /**
   * When `calculateUsdt` gives up: missing or unparsable text, or a zero
   * rate. The emptiness checks are subsumed by the parse checks, since ""
   * never parses.
   */
  predicate NoConversion(amount: string, rate: string)
    ensures NoConversion(amount, rate) <==>
      (ParseFloat(amount).None? || ParseFloat(rate).None? || ParseFloat(rate).value == 0.0)
  {
    || amount == "" || rate == ""
    || ParseFloat(amount).None? || ParseFloat(rate).None?
    || ParseFloat(rate).value == 0.0
  }

  function CalculateUsdt(amount: string, rate: string): (r: string)
    ensures r == "" <==> NoConversion(amount, rate)
    ensures r != "" ==>
      ParseFloat(r) == Some(Round2(ParseFloat(amount).value / ParseFloat(rate).value))
  {
    if amount == "" || rate == "" then ""
    else
      var fiat := ParseFloat(amount);
      var r := ParseFloat(rate);
      if fiat.None? || r.None? || r.value == 0.0 then ""
      else
        ToFixed2RoundTrip(fiat.value / r.value);
        ToFixed2(fiat.value / r.value)
  }

  /**
   * A negative rate is not rejected: a non-negative amount converts to a
   * non-positive USDT figure within half a cent of the quotient.
   */
  lemma NegativeRateAccepted(amount: string, rate: string)
    requires ParseFloat(amount).Some? && ParseFloat(amount).value >= 0.0
    requires ParseFloat(rate).Some? && ParseFloat(rate).value < 0.0
    ensures CalculateUsdt(amount, rate) != ""
    ensures var q := ParseFloat(amount).value / ParseFloat(rate).value;
      var u := ParseFloat(CalculateUsdt(amount, rate)).value;
      u <= 0.0 && -0.005 <= u - q <= 0.005
  {
    var a, r := ParseFloat(amount).value, ParseFloat(rate).value;
    QuotientNonPositive(a, r);
  }

  lemma QuotientNonPositive(a: real, r: real)
    requires a >= 0.0 && r < 0.0
    ensures a / r <= 0.0
  {
  }

  /** With both texts parsed and a non-zero rate, the result is `toFixed(2)` of the quotient. */
  lemma CalculateUsdtValue(amount: string, rate: string, x: real, y: real, q: real)
    requires ParseFloat(amount) == Some(x) && ParseFloat(rate) == Some(y) && y != 0.0 && x / y == q
    ensures CalculateUsdt(amount, rate) == ToFixed2(q)
  {
  }

  /** Plain integer text parses to its value. */
  lemma ParsesAs80120()
    ensures ParseFloat("80120") == Some(80120.0)
  {
    assert NatToDigits(8) == "8";
    assert NatToDigits(80) == "80";
    assert NatToDigits(801) == "801";
    assert NatToDigits(8012) == "8012";
    assert NatToDigits(80120) == "80120";
    ParseFloatNat(80120);
  }

  /** A rate as the rate routes write it parses back to its value. */
  lemma ParsesAs4006()
    ensures ParseFloat("4006.00") == Some(4006.0)
  {
    assert NatToDigits(4) == "4";
    assert NatToDigits(40) == "40";
    assert NatToDigits(400) == "400";
    assert NatToDigits(4006) == "4006";
    assert Cents(Abs(4006.0)) == 400600;
    assert ToFixed2(4006.0) == "4006.00";
    ToFixed2RoundTrip(4006.0);
    Round2Exact(400600);
  }

  /**
   * The worked example: at a rate of "4006.00" COP per USDT, "80120" COP
   * converts to "20.00".
   */
  lemma WorkedExample()
    ensures CalculateUsdt("80120", "4006.00") == "20.00"
  {
    var amount, rate := "80120", "4006.00";
    ParsesAs80120();
    ParsesAs4006();
    TwentyWritten();
    assert CalculateUsdt(amount, rate) == ToFixed2(80120.0 / 4006.0) by {
      CalculateUsdtValue(amount, rate, 80120.0, 4006.0, 80120.0 / 4006.0);
    }
    assert 80120.0 / 4006.0 == 20.0;
  }

  lemma TwentyWritten()
    ensures ToFixed2(20.0) == "20.00"
  {
    assert NatToDigits(2) == "2";
    assert NatToDigits(20) == "20";
    assert Cents(Abs(20.0)) == 2000;
    assert CentsText(2000) == "20.00";
  }
}
