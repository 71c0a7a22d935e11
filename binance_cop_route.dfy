/**
 * GET /api/binance-cop: the peso rate. The P2P average (default 4000)
 * becomes the served price; there is no reference-rate call, so only an
 * unexpected exception outside the guarded fetches reaches the 500 reply
 * with the default price "4000.00".
 */
module CopRateRoute {
  import opened Wrappers
  import opened Numeric
  import opened P2P
  import opened Ledger

  const DefaultCopRate: real := 4000.0
  const FallbackCopPrice: string := "4000.00"

  /**
   * `unexpected` is the message of an exception raised outside the two
   * guarded fetches (while building the reply), if one is raised.
   */
  method Get(p2p: P2PReply, usdc: UsdcReply, unexpected: Option<string>) returns (response: RouteResponse)
    ensures response.RateServed? <==> unexpected.None?
    ensures response.RateServed? ==>
      && response.price == ToFixed2(P2PRate(p2p, DefaultCopRate))
      && response.usdtUsdPrice == UsdcRate(usdc)
      && response.usdFiatRate.None?
    ensures response.RateFallback? ==>
      response.fallbackPrice == FallbackCopPrice && Some(response.error) == unexpected
  {
    var copUsdtRate := DefaultCopRate;
    if p2p.P2PResponse? && p2p.ok {
      if p2p.success && |p2p.prices| > 0 {
        var prices := ParsedPrices(FirstAds(p2p.prices));
        if |prices| > 0 {
          copUsdtRate := Mean(prices);
        }
      }
    }
    assert copUsdtRate == P2PRate(p2p, DefaultCopRate);

    var usdRate: Option<real> := Some(1.0);
    if usdc.UsdcResponse? && usdc.ok {
      if usdc.price != "" {
        usdRate := ParseFloat(usdc.price);
      }
    }
    assert usdRate == UsdcRate(usdc);

    if unexpected.Some? {
      return RateFallback(unexpected.value, FallbackCopPrice);
    }
    response := RateServed(usdRate, None, ToFixed2(copUsdtRate));
  }

  /** The 500 reply's price is the default rate as the 200 reply would write it. */
  lemma FallbackIsDefaultWritten()
    ensures ToFixed2(DefaultCopRate) == FallbackCopPrice
  {
    assert Cents(Abs(DefaultCopRate)) == 400000;
    assert NatToDigits(4000) == "4000";
  }

  /**
   * Five ads quoting 4000, 4010, 3995, 4005 and 4020 average to 4006,
   * whatever ads follow them.
   */
  lemma AverageOfFiveAds(ads: seq<string>, values: seq<real>, later: seq<string>)
    requires |ads| == 5 && values == [4000.0, 4010.0, 3995.0, 4005.0, 4020.0]
    requires forall i :: 0 <= i < 5 ==> ParseFloat(ads[i]) == Some(values[i])
    ensures AveragePrice(ads + later) == Some(4006.0)
  {
    LaterAdsIgnored(ads, later);
    AverageOfParsableAds(ads, values);
    MeanOfFive();
  }

  lemma MeanOfFive()
    ensures Mean([4000.0, 4010.0, 3995.0, 4005.0, 4020.0]) == 4006.0
  {
    var values := [4000.0, 4010.0, 3995.0, 4005.0, 4020.0];
    assert values == [4000.0, 4010.0, 3995.0, 4005.0] + [4020.0];
    SumByAppend([4000.0, 4010.0, 3995.0, 4005.0], [4020.0], Value);
    SumByAppend([4000.0, 4010.0], [3995.0, 4005.0], Value);
    assert [4000.0, 4010.0] == [4000.0] + [4010.0];
    SumByAppend([4000.0], [4010.0], Value);
    assert [3995.0, 4005.0] == [3995.0] + [4005.0];
    SumByAppend([3995.0], [4005.0], Value);
    SumBySingle(4000.0, Value);
    SumBySingle(4010.0, Value);
    SumBySingle(3995.0, Value);
    SumBySingle(4005.0, Value);
    SumBySingle(4020.0, Value);
    assert [4000.0, 4010.0, 3995.0, 4005.0] == [4000.0, 4010.0] + [3995.0, 4005.0];
    assert SumBy(values, Value) == 20030.0;
  }
}
