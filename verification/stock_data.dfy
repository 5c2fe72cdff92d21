/**
 * Number helpers of the market-data layer: the unit chosen to display a
 * large number (K/M/B/T) or a rupee amount (lakh/crore), the day-over-day
 * change of a live quote, and the lagged returns of a price history. The
 * digits of the rendered strings are not modelled: a formatted value is
 * the scaled number together with its unit.
 */
module StockData {
  import opened Common

  // ------------------------------------------------------ format_large_number

  datatype Unit = NoUnit | Thousand | Million | Billion | Trillion

  function Divisor(u: Unit): (d: real)
    ensures d >= 1.0
  {
    match u
    case NoUnit => 1.0
    case Thousand => 1000.0
    case Million => 1000000.0
    case Billion => 1000000000.0
    case Trillion => 1000000000000.0
  }

  /** "0", or the number divided by its unit followed by the unit's letter. */
  datatype ShortNumber = Zero | Scaled(magnitude: real, unit: Unit)

  /**
   * `format_large_number`: zero is shown as "0"; any other number takes the
   * largest unit not exceeding its absolute value.
   */
  function FormatLargeNumber(num: real): (r: ShortNumber)
    ensures r.Zero? <==> num == 0.0
    ensures r.Scaled? ==> r.magnitude * Divisor(r.unit) == num
    ensures r.Scaled? ==> (r.unit == Trillion <==> Abs(num) >= 1000000000000.0)
    ensures r.Scaled? ==> (r.unit == Billion <==> 1000000000.0 <= Abs(num) < 1000000000000.0)
    ensures r.Scaled? ==> (r.unit == Million <==> 1000000.0 <= Abs(num) < 1000000000.0)
    ensures r.Scaled? ==> (r.unit == Thousand <==> 1000.0 <= Abs(num) < 1000000.0)
    ensures r.Scaled? ==> (r.unit == NoUnit <==> Abs(num) < 1000.0)
  {
    if num == 0.0 then Zero
    else if Abs(num) >= 1000000000000.0 then Scaled(num / 1000000000000.0, Trillion)
    else if Abs(num) >= 1000000000.0 then Scaled(num / 1000000000.0, Billion)
    else if Abs(num) >= 1000000.0 then Scaled(num / 1000000.0, Million)
    else if Abs(num) >= 1000.0 then Scaled(num / 1000.0, Thousand)
    else Scaled(num, NoUnit)
  }

  /**
   * The displayed magnitude of a number shown with a unit lies in [1, 1000)
   * in absolute value (Trillion has no upper bound); without a unit it is
   * the number itself, below 1000.
   */
  lemma ShortNumberMagnitude(num: real)
    requires num != 0.0
    ensures var r := FormatLargeNumber(num);
      Abs(r.magnitude) < 1000.0 || r.unit == Trillion
    ensures var r := FormatLargeNumber(num);
      Abs(r.magnitude) >= 1.0 || r.unit == NoUnit
  {
  }

  /** Negation only flips the sign of the displayed magnitude. */
  lemma ShortNumberOfNegation(num: real)
    requires num != 0.0
    ensures FormatLargeNumber(-num).unit == FormatLargeNumber(num).unit
    ensures FormatLargeNumber(-num).magnitude == -FormatLargeNumber(num).magnitude
  {
  }

  // ---------------------------------------------------------- format_currency

  datatype CurrencyUnit = Plain | Lakh | Crore

  function CurrencyDivisor(u: CurrencyUnit): real {
    match u
    case Plain => 1.0
    case Lakh => 100000.0
    case Crore => 10000000.0
  }

  /** A currency symbol, the amount divided by its unit, and the unit. */
  datatype Money = Money(currency: string, value: real, unit: CurrencyUnit)

  /**
   * `format_currency`: one crore (10^7) and more is shown in crores, one
   * lakh (10^5) and more in lakhs, anything smaller (negatives included)
   * as a plain amount.
   */
  function FormatCurrency(amount: real, currency: string): (m: Money)
    ensures m.currency == currency
    ensures m.value * CurrencyDivisor(m.unit) == amount
    ensures m.unit == Crore <==> amount >= 10000000.0
    ensures m.unit == Lakh <==> 100000.0 <= amount < 10000000.0
    ensures m.unit == Plain <==> amount < 100000.0
  {
    if amount >= 10000000.0 then Money(currency, amount / 10000000.0, Crore)
    else if amount >= 100000.0 then Money(currency, amount / 100000.0, Lakh)
    else Money(currency, amount, Plain)
  }

  /** Amounts shown in lakhs read between 1 and 100; amounts in crores read at least 1. */
  lemma CurrencyValueRange(amount: real, currency: string)
    ensures FormatCurrency(amount, currency).unit == Lakh ==>
      1.0 <= FormatCurrency(amount, currency).value < 100.0
    ensures FormatCurrency(amount, currency).unit == Crore ==>
      FormatCurrency(amount, currency).value >= 1.0
  {
  }

  /** The unit never gets smaller as the amount grows. */
  lemma CurrencyUnitMonotone(a: real, b: real, currency: string)
    requires a <= b
    ensures FormatCurrency(a, currency).unit == Crore ==> FormatCurrency(b, currency).unit == Crore
    ensures FormatCurrency(a, currency).unit == Lakh ==> FormatCurrency(b, currency).unit != Plain
  {
  }

  // ------------------------------------------------------- get_realtime_price

  /** The quote dictionary `get_realtime_price` returns. */
  datatype RealtimePrice = RealtimePrice(currentPrice: real, previousClose: real,
                                         priceChange: real, percentChange: real)

  /**
   * `d.get(key, default)` on the provider's quote fields. A field can be
   * present and hold None, and then `get` returns that None.
   */
  function Get(info: map<string, Option<real>>, key: string, default: Option<real>): (v: Option<real>)
    ensures key in info ==> v == info[key]
    ensures key !in info ==> v == default
  {
    if key in info then info[key] else default
  }

  /**
   * `get_realtime_price` once the quote fields are fetched: the current
   * price is the regular market price, else the current price field, else
   * 0; the previous close defaults to 0, and a zero previous close gives a
   * zero percentage instead of a division by zero. A field present as None
   * makes the subtraction raise, and the call returns None.
   */
  function RealtimeQuote(info: map<string, Option<real>>): (q: Option<RealtimePrice>)
    ensures var current := Get(info, "regularMarketPrice", Get(info, "currentPrice", Some(0.0)));
      var previous := Get(info, "previousClose", Some(0.0));
      (q.None? <==> current.None? || previous.None?) &&
      (q.Some? ==> q.value.currentPrice == current.value && q.value.previousClose == previous.value)
    ensures q.Some? ==> q.value.priceChange == q.value.currentPrice - q.value.previousClose
    ensures q.Some? && q.value.previousClose != 0.0 ==>
      q.value.percentChange * q.value.previousClose == q.value.priceChange * 100.0
    ensures q.Some? && q.value.previousClose == 0.0 ==> q.value.percentChange == 0.0
  {
    var current := Get(info, "regularMarketPrice", Get(info, "currentPrice", Some(0.0)));
    var previous := Get(info, "previousClose", Some(0.0));
    if current.None? || previous.None? then None
    else
      var change := current.value - previous.value;
      Some(RealtimePrice(current.value, previous.value, change,
                         if previous.value != 0.0 then change / previous.value * 100.0 else 0.0))
  }

  /** A quote without any of the three fields reads as a flat price of 0. */
  lemma EmptyQuoteIsZero()
    ensures RealtimeQuote(map[]) == Some(RealtimePrice(0.0, 0.0, 0.0, 0.0))
  {
  }

  /** With a positive previous close, the percentage has the sign of the change. */
  lemma QuoteChangeSign(info: map<string, Option<real>>)
    requires RealtimeQuote(info).Some? && RealtimeQuote(info).value.previousClose > 0.0
    ensures RealtimeQuote(info).value.percentChange > 0.0 <==> RealtimeQuote(info).value.priceChange > 0.0
    ensures RealtimeQuote(info).value.percentChange < 0.0 <==> RealtimeQuote(info).value.priceChange < 0.0
  {
    var q := RealtimeQuote(info).value;
    SignOfRatio(q.percentChange, q.previousClose, q.priceChange * 100.0);
  }

  /** Arithmetic core: p * d == c with d > 0 gives p the sign of c. */
  lemma SignOfRatio(p: real, d: real, c: real)
    requires d > 0.0 && p * d == c
    ensures p > 0.0 <==> c > 0.0
    ensures p < 0.0 <==> c < 0.0
  {
    if p > 0.0 {
      assert p * d > 0.0;
    } else if p < 0.0 {
      assert p * d < 0.0;
    }
  }

  // -------------------------------------------------------- calculate_returns

  /** Rows between the two closes `pct_change` compares for a period name. */
  function ReturnLag(period: string): (lag: nat)
    ensures lag == 5 <==> period == "weekly"
    ensures lag == 21 <==> period == "monthly"
    ensures period != "weekly" && period != "monthly" ==> lag == 1
  {
    if period == "daily" then 1
    else if period == "weekly" then 5
    else if period == "monthly" then 21
    else 1
  }

  /** Relative change from `previous` to `current`; undefined from a zero close. */
  function PctChange(previous: real, current: real): (r: Option<real>)
    ensures r.None? <==> previous == 0.0
    ensures r.Some? ==> r.value * previous == current - previous
  {
    if previous == 0.0 then None else Some(current / previous - 1.0)
  }

  /** `pct_change(periods=lag)`: undefined for the first `lag` rows. */
  function PctChanges(closes: seq<real>, lag: nat): (r: Series)
    ensures |r| == |closes|
    ensures forall i :: 0 <= i < |closes| && i < lag ==> r[i].None?
    ensures forall i :: lag <= i < |closes| ==> r[i] == PctChange(closes[i - lag], closes[i])
  {
    seq(|closes|, i requires 0 <= i < |closes| =>
      if i < lag then None else PctChange(closes[i - lag], closes[i]))
  }

  function Closes(bars: seq<Bar>): (cs: seq<real>)
    ensures |cs| == |bars|
    ensures forall i :: 0 <= i < |bars| ==> cs[i] == bars[i].close
  {
    seq(|bars|, i requires 0 <= i < |bars| => bars[i].close)
  }

  /** `calculate_returns`: None for missing or empty data, else the lagged returns of the closes. */
  function CalculateReturns(data: Option<seq<Bar>>, period: string): (r: Option<Series>)
    ensures r.None? <==> data.None? || data.value == []
    ensures r.Some? ==> r.value == PctChanges(Closes(data.value), ReturnLag(period))
  {
    if data.None? || data.value == [] then None
    else Some(PctChanges(Closes(data.value), ReturnLag(period)))
  }

  /** An unrecognised period name falls back to daily returns. */
  lemma UnknownPeriodIsDaily(data: Option<seq<Bar>>, period: string)
    requires period != "daily" && period != "weekly" && period != "monthly"
    ensures CalculateReturns(data, period) == CalculateReturns(data, "daily")
  {
  }

  /** A price that never moves (and is not zero) has zero return wherever one is defined. */
  lemma FlatPriceHasZeroReturns(closes: seq<real>, lag: nat, p: real)
    requires p != 0.0
    requires forall i :: 0 <= i < |closes| ==> closes[i] == p
    ensures forall i :: lag <= i < |closes| ==> PctChanges(closes, lag)[i] == Some(0.0)
  {
    forall i | lag <= i < |closes|
      ensures PctChanges(closes, lag)[i] == Some(0.0)
    {
      var r := PctChange(closes[i - lag], closes[i]);
      CancelPositiveOrNegative(r.value, p);
    }
  }

  /** Arithmetic core: r * p == 0 with p nonzero gives r == 0. */
  lemma CancelPositiveOrNegative(r: real, p: real)
    requires p != 0.0 && r * p == 0.0
    ensures r == 0.0
  {
  }
}
