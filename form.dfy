/**
 * The new-transaction form and the rate field, identical on the bolívar and
 * the peso dashboards: the amount handler, the effect that re-converts the
 * draft when the rate changes, the rate input's own handler, and how the
 * rate fetch sets the rate and the connection status.
 */
module Form {
  import opened Wrappers
  import opened Numeric
  import opened Ledger
  import opened Conversion
  import opened P2P

  /**
   * What a `type="number"` input hands to its handler: "" or a valid number
   * (the browser's value sanitisation).
   */
  predicate NumberText(s: string) {
    s == "" || ParseFloat(s).Some?
  }

  /** Both amount inputs of the draft hold number-input text. */
  predicate ValidDraft(d: Draft) {
    NumberText(d.amountFiat) && NumberText(d.amountUsdt)
  }

  /** The converted amount is always number-input text. */
  lemma ConversionIsNumberText(amount: string, rate: string)
    ensures NumberText(CalculateUsdt(amount, rate))
  {
  }

  /** `handleAmountBsChange` / `handleAmountCopChange`: the fiat text, and its conversion at the current rate. */
  function WithFiatAmount(d: Draft, value: string, rate: string): (r: Draft)
    requires ValidDraft(d) && NumberText(value)
    ensures ValidDraft(r)
    ensures r == d.(amountFiat := value, amountUsdt := CalculateUsdt(value, rate))
  {
    ConversionIsNumberText(value, rate);
    d.(amountFiat := value, amountUsdt := CalculateUsdt(value, rate))
  }

  /** The condition under which the `[usdtRate]` effect rewrites the draft. */
  predicate RateEffectFires(d: Draft, previous: string, rate: string) {
    rate != previous && d.amountFiat != "" && IsPositive(rate)
  }

  /**
   * The effect run after the rate changed from `previous` to `rate`: with a
   * fiat amount present and a positive rate, the draft's USDT text becomes
   * the conversion at the new rate; nothing else changes.
   */
  function RateEffect(d: Draft, previous: string, rate: string): (r: Draft)
    requires ValidDraft(d)
    ensures ValidDraft(r)
    ensures r.description == d.description && r.amountFiat == d.amountFiat && r.kind == d.kind
    ensures !RateEffectFires(d, previous, rate) ==> r == d
  {
    if RateEffectFires(d, previous, rate) then
      ConversionIsNumberText(d.amountFiat, rate);
      d.(amountUsdt := CalculateUsdt(d.amountFiat, rate))
    else d
  }

  /** When the effect fires, the USDT text reads as the fiat amount over the new rate, to the cent. */
  lemma RateEffectConverts(d: Draft, previous: string, rate: string)
    requires ValidDraft(d) && RateEffectFires(d, previous, rate)
    ensures ParseFloat(RateEffect(d, previous, rate).amountUsdt)
         == Some(Round2(ParseFloat(d.amountFiat).value / ParseFloat(rate).value))
  {
  }

  /**
   * The rate input's handler: it stores the text and, with a fiat amount
   * present, re-converts at the rate it still sees (the previous one); the
   * effect then runs for the new rate.
   */
  function RateInput(d: Draft, previous: string, value: string): (r: Draft)
    requires ValidDraft(d)
    ensures ValidDraft(r)
  {
    ConversionIsNumberText(d.amountFiat, previous);
    var stale := if d.amountFiat != "" then d.(amountUsdt := CalculateUsdt(d.amountFiat, previous)) else d;
    RateEffect(stale, previous, value)
  }

  /**
   * After typing a rate, a draft with a fiat amount shows its conversion at
   * the new rate when that rate is new and positive, and otherwise at the
   * previous rate; a draft without one is untouched.
   */
  lemma RateInputOutcome(d: Draft, previous: string, value: string)
    requires ValidDraft(d)
    ensures d.amountFiat == "" ==> RateInput(d, previous, value) == d
    ensures d.amountFiat != "" ==>
      var seen := if value != previous && IsPositive(value) then value else previous;
      RateInput(d, previous, value) == d.(amountUsdt := CalculateUsdt(d.amountFiat, seen))
  {
  }

  /** `connectionStatus`. */
  datatype ConnectionStatus = Idle | Connected | Error

  /**
   * `fetchUsdtRate`: the rate text and status after asking the page's rate
   * route. `reply` is the route's answer, `None` when the request itself
   * failed or timed out. Only a 200 reply sets the served price; anything
   * else sets `fallback`.
   */
  function FetchedRate(reply: Option<RouteResponse>, fallback: string): (r: (string, ConnectionStatus))
    ensures r.1 == Connected <==> reply.Some? && reply.value.RateServed?
    ensures r.1 != Idle
    ensures r.1 == Connected ==> r.0 == reply.value.price
    ensures r.1 == Error ==> r.0 == fallback
  {
    match reply
    case Some(RateServed(_, _, price)) => (price, Connected)
    case _ => (fallback, Error)
  }
}
