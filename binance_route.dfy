/**
 * GET /api/binance: the bolívar rate. The P2P average (default 180) becomes
 * the served price; the USD/VES reference rate from the exchange-rate
 * service is required, and without it the route answers 500 with the
 * default price "180.00".
 */
module VesRateRoute {
  import opened Wrappers
  import opened Numeric
  import opened P2P

  const DefaultVesRate: real := 180.0
  const FallbackVesPrice: string := "180.00"

  /**
   * The outcome of the USD exchange-rate call. `FxFailed`: the fetch or the
   * JSON decoding threw, with that error's message. Otherwise the HTTP status
   * and `rates.VES` (`None` when absent).
   */
  datatype FxReply =
    | FxFailed(message: string)
    | FxResponse(status: nat, ves: Option<real>)

  predicate HttpOk(status: nat) {
    200 <= status <= 299
  }

  const ApiErrorPrefix: string := "Exchange Rate API error: "
  const MissingVesRate: string := "No se pudo obtener la tasa VES"

  /**
   * The message the route's 500 reply carries: the thrown error's own
   * message, or one naming the reference API's HTTP status, from which the
   * status can be read back, or the missing-rate message.
   */
  function FxError(fx: FxReply): (r: string)
    ensures fx.FxFailed? ==> r == fx.message
    ensures fx.FxResponse? && HttpOk(fx.status) ==> r == MissingVesRate
    ensures fx.FxResponse? && !HttpOk(fx.status) ==>
      && |r| > |ApiErrorPrefix|
      && r[..|ApiErrorPrefix|] == ApiErrorPrefix
      && AllDigits(r[|ApiErrorPrefix|..])
      && DigitsValue(r[|ApiErrorPrefix|..]) == fx.status
  {
    match fx
    case FxFailed(message) => message
    case FxResponse(status, ves) =>
      if !HttpOk(status) then
        var digits := NatToDigits(status);
        NatToDigitsRoundTrip(status);
        assert (ApiErrorPrefix + digits)[|ApiErrorPrefix|..] == digits;
        ApiErrorPrefix + digits
      else MissingVesRate
  }

  /** The reference rate is usable: an OK reply with a non-zero VES entry. */
  predicate FxUsable(fx: FxReply) {
    fx.FxResponse? && HttpOk(fx.status) && fx.ves.Some? && fx.ves.value != 0.0
  }

  method Get(p2p: P2PReply, usdc: UsdcReply, fx: FxReply) returns (response: RouteResponse)
    ensures response.RateServed? <==> FxUsable(fx)
    ensures response.RateServed? ==>
      && response.price == ToFixed2(P2PRate(p2p, DefaultVesRate))
      && response.usdtUsdPrice == UsdcRate(usdc)
      && response.usdFiatRate == fx.ves
    ensures response.RateFallback? ==>
      response.fallbackPrice == FallbackVesPrice && response.error == FxError(fx)
  {
    var vesUsdtRate := DefaultVesRate;
    if p2p.P2PResponse? && p2p.ok {
      if p2p.success && |p2p.prices| > 0 {
        var prices := ParsedPrices(FirstAds(p2p.prices));
        if |prices| > 0 {
          vesUsdtRate := Mean(prices);
        }
      }
    }
    assert vesUsdtRate == P2PRate(p2p, DefaultVesRate);

    var usdRate: Option<real> := Some(1.0);
    if usdc.UsdcResponse? && usdc.ok {
      if usdc.price != "" {
        usdRate := ParseFloat(usdc.price);
      }
    }
    assert usdRate == UsdcRate(usdc);

    if fx.FxFailed? {
      return RateFallback(fx.message, FallbackVesPrice);
    }
    if !HttpOk(fx.status) {
      return RateFallback(FxError(fx), FallbackVesPrice);
    }
    if fx.ves.None? || fx.ves.value == 0.0 {
      return RateFallback(MissingVesRate, FallbackVesPrice);
    }
    response := RateServed(usdRate, fx.ves, ToFixed2(vesUsdtRate));
  }

  /**
   * The served price reads back as the P2P average rounded to hundredths,
   * and is positive whenever the parsable prices among the first five ads are.
   */
  lemma ServedPriceMeaning(p2p: P2PReply)
    requires p2p.P2PResponse? ==> forall i :: 0 <= i < |p2p.prices| && i < SampleSize && ParseFloat(p2p.prices[i]).Some? ==>
      ParseFloat(p2p.prices[i]).value > 0.0
    ensures ParseFloat(ToFixed2(P2PRate(p2p, DefaultVesRate))) == Some(Round2(P2PRate(p2p, DefaultVesRate)))
    ensures Round2(P2PRate(p2p, DefaultVesRate)) >= 0.0
  {
    ToFixed2RoundTrip(P2PRate(p2p, DefaultVesRate));
    P2PRatePositive(p2p, DefaultVesRate);
  }

  /** The 500 reply's price is the default rate as the 200 reply would write it. */
  lemma FallbackIsDefaultWritten()
    ensures ToFixed2(DefaultVesRate) == FallbackVesPrice
  {
    assert Cents(Abs(DefaultVesRate)) == 18000;
    assert NatToDigits(180) == "180";
  }
}
