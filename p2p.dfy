/**
 * The rate source both API routes share: the reply of the P2P ad search,
 * reduced to the mean of the parsable prices among the first five ads, and
 * the auxiliary USDT/USDC ticker. Network outcomes are inputs.
 */
module P2P {
  import opened Wrappers
  import opened Numeric
  import opened Ledger

  /** How many ads the average looks at. */
  const SampleSize: nat := 5

  /**
   * The outcome of the ad search. `P2PFailed`: the fetch or the JSON
   * decoding threw. Otherwise the HTTP status was OK or not, and the body
   * carried `success` and the ads' `adv.price` texts (no `data`: no ads).
   */
  datatype P2PReply =
    | P2PFailed
    | P2PResponse(ok: bool, success: bool, prices: seq<string>)

  /** The outcome of the USDT/USDC ticker call; `price` is "" when the body has none. */
  datatype UsdcReply =
    | UsdcFailed
    | UsdcResponse(ok: bool, price: string)

  /**
   * What a rate route answers. `RateServed` is the 200 reply: the USDT/USDC
   * figure (`None` where `parseFloat` gave NaN, which JSON writes as null),
   * the USD/fiat reference rate when the route reports one, and the
   * two-decimal price. `RateFallback` is the 500 reply with its default price.
   */
  datatype RouteResponse =
    | RateServed(usdtUsdPrice: Option<real>, usdFiatRate: Option<real>, price: string)
    | RateFallback(error: string, fallbackPrice: string)

  function Value(x: real): real { x }

  /**
   * `sum / prices.length`: the value that, counted once per element, makes
   * up the sum; it lies between the least and the greatest value.
   */
  function Mean(xs: seq<real>): (r: real)
    requires |xs| > 0
    ensures |xs| == 1 ==> r == xs[0]
    ensures MinOf(xs) <= r <= MaxOf(xs)
  {
    var lo, hi := MinOf(xs), MaxOf(xs);
    SumByBounds(xs, Value, lo, hi);
    DivideBounds(SumBy(xs, Value), |xs| as real, lo, hi);
    SumBy(xs, Value) / |xs| as real
  }

  /** `.slice(0, 5)`. */
  function FirstAds(prices: seq<string>): (r: seq<string>)
    ensures |r| == if |prices| < SampleSize then |prices| else SampleSize
    ensures r == prices[..|r|]
  {
    if |prices| < SampleSize then prices else prices[..SampleSize]
  }

  /** `.map(parseFloat).filter((p) => !isNaN(p))`. */
  function ParsedPrices(texts: seq<string>): (r: seq<real>)
    ensures |r| <= |texts|
    ensures |texts| == 1 ==>
      r == (if ParseFloat(texts[0]).Some? then [ParseFloat(texts[0]).value] else [])
  {
    if texts == [] then []
    else
      var rest := ParsedPrices(texts[..|texts| - 1]);
      assert |texts| == 1 ==> rest == [];
      match ParseFloat(texts[|texts| - 1])
      case Some(p) => rest + [p]
      case None => rest
  }

  /** The filter works text by text: the prices of a concatenation are those of each part, in order. */
  lemma {:induction false} ParsedPricesAppend(a: seq<string>, b: seq<string>)
    ensures ParsedPrices(a + b) == ParsedPrices(a) + ParsedPrices(b)
  {
    if b == [] {
      assert a + b == a;
    } else {
      var n := |b| - 1;
      assert (a + b)[..|a + b| - 1] == a + b[..n];
      assert (a + b)[|a + b| - 1] == b[n];
      ParsedPricesAppend(a, b[..n]);
    }
  }

  /** An unparsable price is dropped wherever it stands: the rest are kept, in order. */
  lemma UnparsableDropped(a: seq<string>, t: string, b: seq<string>)
    requires ParseFloat(t).None?
    ensures ParsedPrices(a + [t] + b) == ParsedPrices(a + b)
  {
    ParsedPricesAppend(a + [t], b);
    ParsedPricesAppend(a, [t]);
    ParsedPricesAppend(a, b);
    assert ParsedPrices(a + [t]) == ParsedPrices(a) + [];
  }

  /**
   * Every parsed price comes from one of the texts, and there are none
   * exactly when no text parses.
   */
  lemma {:induction false} ParsedPricesOrigin(texts: seq<string>)
    ensures |ParsedPrices(texts)| == 0 <==> forall i :: 0 <= i < |texts| ==> ParseFloat(texts[i]).None?
    ensures forall j :: 0 <= j < |ParsedPrices(texts)| ==>
      exists i :: 0 <= i < |texts| && ParseFloat(texts[i]) == Some(ParsedPrices(texts)[j])
  {
    if texts != [] {
      var n := |texts| - 1;
      var init := texts[..n];
      ParsedPricesOrigin(init);
      assert forall i :: 0 <= i < n ==> init[i] == texts[i];
      var rest := ParsedPrices(init);
      var r := ParsedPrices(texts);
      forall j | 0 <= j < |r|
        ensures exists i :: 0 <= i < |texts| && ParseFloat(texts[i]) == Some(r[j])
      {
        if j < |rest| {
          var i :| 0 <= i < |init| && ParseFloat(init[i]) == Some(rest[j]);
          assert ParseFloat(texts[i]) == Some(r[j]);
        } else {
          assert ParseFloat(texts[n]) == Some(r[j]);
        }
      }
    }
  }

  /** The mean of the parsable prices among the first five ads, if any parse. */
  function AveragePrice(prices: seq<string>): (r: Option<real>)
    ensures r.Some? ==> var ps := ParsedPrices(FirstAds(prices));
      |ps| > 0 && MinOf(ps) <= r.value <= MaxOf(ps)
  {
    var ps := ParsedPrices(FirstAds(prices));
    if |ps| > 0 then Some(Mean(ps)) else None
  }

  /**
   * The rate the route settles on: `fallback` unless the reply is OK,
   * successful, has ads, and one of the first five prices parses.
   */
  function P2PRate(reply: P2PReply, fallback: real): (r: real)
    ensures reply.P2PResponse? && reply.ok && reply.success && AveragePrice(reply.prices).Some? ==>
      r == AveragePrice(reply.prices).value
    ensures r != fallback ==>
      reply.P2PResponse? && reply.ok && reply.success && AveragePrice(reply.prices) == Some(r)
  {
    match reply
    case P2PFailed => fallback
    case P2PResponse(ok, success, prices) =>
      if ok && success && |prices| > 0 then AveragePrice(prices).GetOr(fallback) else fallback
  }

  /** The USDT/USDC figure: 1.0 unless an OK reply carries a price, then that price parsed. */
  function UsdcRate(reply: UsdcReply): (r: Option<real>)
    ensures reply.UsdcResponse? && reply.ok && reply.price != "" ==> r == ParseFloat(reply.price)
    ensures !(reply.UsdcResponse? && reply.ok && reply.price != "") ==> r == Some(1.0)
  {
    match reply
    case UsdcResponse(ok, price) => if ok && price != "" then ParseFloat(price) else Some(1.0)
    case UsdcFailed => Some(1.0)
  }

  // ---------------------------------------------------------------------
  // Properties of the averaging

  /** A mean lies between any bounds of its values. */
  lemma MeanBounds(xs: seq<real>, lo: real, hi: real)
    requires |xs| > 0
    requires forall i :: 0 <= i < |xs| ==> lo <= xs[i] <= hi
    ensures lo <= Mean(xs) <= hi
  {
    SumByBounds(xs, Value, lo, hi);
    var n := |xs| as real;
    var s := SumBy(xs, Value);
    assert n * lo <= s <= n * hi;
    DivideBounds(s, n, lo, hi);
  }

  /** `x` added `n` times. */
  function Times(x: real, n: nat): real {
    if n == 0 then 0.0 else Times(x, n - 1) + x
  }

  lemma {:induction false} TimesIsProduct(x: real, n: nat)
    ensures Times(x, n) == x * n as real
  {
    if n > 0 {
      TimesIsProduct(x, n - 1);
      assert x * n as real == x * (n - 1) as real + x;
    }
  }

  lemma TimesQuotient(s: real, n: nat)
    requires n > 0
    ensures Times(s / n as real, n) == s
  {
    var q := s / n as real;
    TimesIsProduct(q, n);
    assert q * n as real == s;
  }

  /**
   * The mean, added once per value, gives back their sum: it is
   * `sum / prices.length`, not just some value in range.
   */
  lemma MeanTimesCount(xs: seq<real>)
    requires |xs| > 0
    ensures Times(Mean(xs), |xs|) == SumBy(xs, Value)
  {
    TimesQuotient(SumBy(xs, Value), |xs|);
  }

  /**
   * The average is the sum of the parsable prices among the first five ads
   * divided by how many of them parse; unparsable ones are dropped, not
   * counted as zero.
   */
  lemma AverageOfParsedPrices(prices: seq<string>)
    ensures var ps := ParsedPrices(FirstAds(prices));
      AveragePrice(prices).Some? ==> Times(AveragePrice(prices).value, |ps|) == SumBy(ps, Value)
  {
    var ps := ParsedPrices(FirstAds(prices));
    if |ps| > 0 {
      assert AveragePrice(prices) == Some(Mean(ps));
      MeanTimesCount(ps);
    }
  }

  lemma DivideBounds(s: real, n: real, lo: real, hi: real)
    requires n > 0.0 && n * lo <= s <= n * hi
    ensures lo <= s / n <= hi
  {
    assert s / n * n == s;
  }

  /**
   * The average lies between the lowest and the highest parsable price of
   * the first five ads; in particular it is positive when those prices are.
   */
  lemma AverageWithinPrices(prices: seq<string>, lo: real, hi: real)
    requires forall i :: 0 <= i < |prices| && i < SampleSize && ParseFloat(prices[i]).Some? ==>
      lo <= ParseFloat(prices[i]).value <= hi
    ensures AveragePrice(prices).Some? ==> lo <= AveragePrice(prices).value <= hi
  {
    var first := FirstAds(prices);
    var ps := ParsedPrices(first);
    ParsedPricesOrigin(first);
    if |ps| > 0 {
      forall j | 0 <= j < |ps|
        ensures lo <= ps[j] <= hi
      {
        var i :| 0 <= i < |first| && ParseFloat(first[i]) == Some(ps[j]);
        assert first[i] == prices[i];
      }
      MeanBounds(ps, lo, hi);
    }
  }

  /** When every text parses, the parsed prices are exactly their values, in order. */
  lemma {:induction false} ParsedPricesAll(texts: seq<string>, values: seq<real>)
    requires |texts| == |values|
    requires forall i :: 0 <= i < |texts| ==> ParseFloat(texts[i]) == Some(values[i])
    ensures ParsedPrices(texts) == values
  {
    if texts != [] {
      var n := |texts| - 1;
      var init, prefix := texts[..n], values[..n];
      forall i | 0 <= i < n
        ensures ParseFloat(init[i]) == Some(prefix[i])
      {
        assert init[i] == texts[i] && prefix[i] == values[i];
      }
      ParsedPricesAll(init, prefix);
      assert ParseFloat(texts[n]) == Some(values[n]);
      assert ParsedPrices(texts) == prefix + [values[n]];
      assert values == prefix + [values[n]];
    }
  }

  /** When at most five ads are listed and all their prices parse, the average is their plain mean. */
  lemma AverageOfParsableAds(ads: seq<string>, values: seq<real>)
    requires 0 < |ads| <= SampleSize && |ads| == |values|
    requires forall i :: 0 <= i < |ads| ==> ParseFloat(ads[i]) == Some(values[i])
    ensures AveragePrice(ads) == Some(Mean(values))
  {
    assert FirstAds(ads) == ads;
    ParsedPricesAll(ads, values);
  }

  /** Ads after the fifth never matter. */
  lemma LaterAdsIgnored(prices: seq<string>, more: seq<string>)
    requires |prices| >= SampleSize
    ensures AveragePrice(prices + more) == AveragePrice(prices)
  {
    assert FirstAds(prices + more) == FirstAds(prices);
  }

  /** No average exactly when none of the first five prices parses. */
  lemma NoAverageWhenUnparsable(prices: seq<string>)
    ensures AveragePrice(prices).None? <==>
      forall i :: 0 <= i < |prices| && i < SampleSize ==> ParseFloat(prices[i]).None?
  {
    var first := FirstAds(prices);
    ParsedPricesOrigin(first);
    assert forall i :: 0 <= i < |first| ==> first[i] == prices[i];
  }

  /** The route keeps its default unless an OK, successful reply has a parsable price among its first five ads. */
  lemma P2PRateFallback(reply: P2PReply, fallback: real)
    requires
      || reply.P2PFailed?
      || !reply.ok || !reply.success || reply.prices == []
      || forall i :: 0 <= i < |reply.prices| && i < SampleSize ==> ParseFloat(reply.prices[i]).None?
    ensures P2PRate(reply, fallback) == fallback
  {
    if reply.P2PResponse? {
      NoAverageWhenUnparsable(reply.prices);
    }
  }

  /** With positive prices and a positive default, the settled rate is positive. */
  lemma P2PRatePositive(reply: P2PReply, fallback: real)
    requires fallback > 0.0
    requires reply.P2PResponse? ==> forall i :: 0 <= i < |reply.prices| && i < SampleSize && ParseFloat(reply.prices[i]).Some? ==>
      ParseFloat(reply.prices[i]).value > 0.0
    ensures P2PRate(reply, fallback) > 0.0
  {
    if reply.P2PResponse? && AveragePrice(reply.prices).Some? {
      var ps := ParsedPrices(FirstAds(reply.prices));
      var first := FirstAds(reply.prices);
      ParsedPricesOrigin(first);
      forall j | 0 <= j < |ps|
        ensures ps[j] > 0.0
      {
        var i :| 0 <= i < |first| && ParseFloat(first[i]) == Some(ps[j]);
        assert first[i] == reply.prices[i];
      }
      MeanBounds(ps, MinOf(ps), MaxOf(ps));
    }
  }

  function MinOf(xs: seq<real>): (m: real)
    requires |xs| > 0
    ensures m in xs && forall i :: 0 <= i < |xs| ==> m <= xs[i]
  {
    if |xs| == 1 then xs[0]
    else
      var m := MinOf(xs[1..]);
      assert forall i :: 1 <= i < |xs| ==> xs[i] == xs[1..][i - 1];
      if xs[0] < m then xs[0] else m
  }

  function MaxOf(xs: seq<real>): (m: real)
    requires |xs| > 0
    ensures m in xs && forall i :: 0 <= i < |xs| ==> xs[i] <= m
  {
    if |xs| == 1 then xs[0]
    else
      var m := MaxOf(xs[1..]);
      assert forall i :: 1 <= i < |xs| ==> xs[i] == xs[1..][i - 1];
      if xs[0] > m then xs[0] else m
  }
}
