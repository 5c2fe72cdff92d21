/**
 * Application settings: the indicator thresholds and windows, the
 * forecasting constants, the selectable history periods, and the mapping
 * from a period name to the date range that is fetched.
 */
module Config {
  import opened Common

  // Moving averages (Golden/Death Cross).
  const MA_SHORT_PERIOD: nat := 50
  const MA_LONG_PERIOD: nat := 200

  // RSI.
  const RSI_PERIOD: nat := 14
  const RSI_OVERBOUGHT: real := 70.0
  const RSI_OVERSOLD: real := 30.0

  // MACD.
  const MACD_FAST: nat := 12
  const MACD_SLOW: nat := 26
  const MACD_SIGNAL: nat := 9

  // Bollinger Bands.
  const BB_PERIOD: nat := 20
  const BB_STD_DEV: nat := 2

  // Forecasting.
  const PREDICTION_DAYS: nat := 30

  /** Span used for "max" and for every period name not listed below: ten years. */
  const DEFAULT_PERIOD_DAYS: nat := 3650

  /** The period selector, in display order: (label, provider period string). */
  const TIME_PERIODS: seq<(string, string)> := [
    ("1 Month", "1mo"),
    ("3 Months", "3mo"),
    ("6 Months", "6mo"),
    ("1 Year", "1y"),
    ("2 Years", "2y"),
    ("5 Years", "5y"),
    ("Max", "max")
  ]

  /** The period strings that have a span of their own, with that span in days. */
  const NAMED_PERIOD_DAYS: map<string, nat> :=
    map["1mo" := 30, "3mo" := 90, "6mo" := 180, "1y" := 365, "2y" := 730, "5y" := 1825]

  /** Number of calendar days covered by a period string. */
  function PeriodDays(period: string): (days: nat)
    ensures period in NAMED_PERIOD_DAYS ==> days == NAMED_PERIOD_DAYS[period]
    ensures period !in NAMED_PERIOD_DAYS ==> days == DEFAULT_PERIOD_DAYS
  {
    if period == "1mo" then 30
    else if period == "3mo" then 90
    else if period == "6mo" then 180
    else if period == "1y" then 365
    else if period == "2y" then 730
    else if period == "5y" then 1825
    else DEFAULT_PERIOD_DAYS
  }

  /**
   * `get_date_range`: the (start, end) pair for a period, where the clock
   * reading `now` is a parameter instead of `datetime.now()`.
   */
  function GetDateRange(period: string, now: Instant): (range: (Instant, Instant))
    ensures range.1 == now
    ensures range.0 < range.1
    ensures AddDays(range.0, PeriodDays(period)) == range.1
  {
    (AddDays(now, -(PeriodDays(period) as int)), now)
  }

  /** Every selectable period is either a named span or falls to the ten-year default ("max"). */
  lemma TimePeriodsHandled()
    ensures forall i :: 0 <= i < |TIME_PERIODS| ==>
      TIME_PERIODS[i].1 in NAMED_PERIOD_DAYS || TIME_PERIODS[i].1 == "max"
    ensures "max" !in NAMED_PERIOD_DAYS && PeriodDays("max") == DEFAULT_PERIOD_DAYS
  {
  }

  /** Walking down the period selector always asks for a strictly longer history. */
  lemma TimePeriodsLengthen()
    ensures forall i, j :: 0 <= i < j < |TIME_PERIODS| ==>
      PeriodDays(TIME_PERIODS[i].1) < PeriodDays(TIME_PERIODS[j].1)
  {
  }

  /** The threshold pairs the signal rules rely on are ordered. */
  lemma ThresholdsOrdered()
    ensures RSI_OVERSOLD < RSI_OVERBOUGHT
    ensures MA_SHORT_PERIOD < MA_LONG_PERIOD
    ensures MACD_FAST < MACD_SLOW
  {
  }
}
