/**
 * Technical indicator signals and helpers.
 *
 * The rolling indicators themselves (SMA, EMA, RSI, MACD, Bollinger Bands)
 * come from a third-party library and enter this model as input series; the
 * model covers the signal rules that read the last one or two points of
 * those series, and the three helpers the module computes itself: On-Balance
 * Volume, support/resistance levels and the Average True Range.
 */
module Indicators {
  import opened Common
  import opened Config

  /** The category a signal reports. */
  datatype Label =
    | Overbought | Oversold | Neutral
    | BullishCrossover | BearishCrossover | Bullish | Bearish
    | AboveAverage | BelowAverage
    | GoldenCross | DeathCross | BullishTrend | BearishTrend

  datatype Color = Red | Green | Gray | LightGreen | Orange

  /**
   * The dictionary a signal rule returns. Both `InsufficientData` and
   * `AnalysisError` are reported as a "Neutral" signal without a colour; they
   * differ in their message ("Insufficient data" / "Error analyzing ...").
   */
  datatype Signal =
    | InsufficientData
    | AnalysisError
    | Decided(category: Label, color: Color)

  /** The label the page shows for a signal. */
  function Shown(s: Signal): Label {
    if s.Decided? then s.category else Neutral
  }

  // ---------------------------------------------------------------- RSI

  /** `get_rsi_signal`: classify the latest RSI reading against the thresholds. */
  function RsiSignal(rsi: Option<real>): (s: Signal)
    ensures rsi.None? <==> s == InsufficientData
    ensures s == Decided(Overbought, Red) <==> rsi.Some? && rsi.value >= RSI_OVERBOUGHT
    ensures s == Decided(Oversold, Green) <==> rsi.Some? && rsi.value <= RSI_OVERSOLD
    ensures s == Decided(Neutral, Gray) <==> rsi.Some? && RSI_OVERSOLD < rsi.value < RSI_OVERBOUGHT
    ensures s != AnalysisError
  {
    if rsi.None? then InsufficientData
    else if rsi.value >= RSI_OVERBOUGHT then Decided(Overbought, Red)
    else if rsi.value <= RSI_OVERSOLD then Decided(Oversold, Green)
    else Decided(Neutral, Gray)
  }

  /** Position of an RSI signal on the oversold-to-overbought scale. */
  function RsiZone(s: Signal): int {
    if s == Decided(Oversold, Green) then 0
    else if s == Decided(Overbought, Red) then 2
    else 1
  }

  /** A higher RSI reading never gives a signal further towards oversold. */
  lemma RsiSignalMonotone(a: real, b: real)
    requires a <= b
    ensures RsiZone(RsiSignal(Some(a))) <= RsiZone(RsiSignal(Some(b)))
  {
  }

  // --------------------------------------------------------------- MACD

  /** The three columns `calculate_macd` returns. */
  datatype MacdData = MacdData(macd: Series, signal: Series, histogram: Series)

  /** The positions `get_macd_signal` reads exist (otherwise `iloc` raises). */
  predicate MacdReadable(d: MacdData) {
    |d.macd| > 0 && |d.signal| > 0 && |d.histogram| > 0 &&
    (|d.macd| > 1 ==> |d.histogram| > 1)
  }

  /** The histogram changed from below zero to above zero on the last bar. */
  predicate HistogramTurnsUp(d: MacdData)
    requires MacdReadable(d)
  {
    |d.macd| > 1 &&
    Lt(d.histogram[|d.histogram| - 2], Some(0.0)) && Gt(Last(d.histogram), Some(0.0))
  }

  /** The histogram changed from above zero to below zero on the last bar. */
  predicate HistogramTurnsDown(d: MacdData)
    requires MacdReadable(d)
  {
    |d.macd| > 1 &&
    Gt(d.histogram[|d.histogram| - 2], Some(0.0)) && Lt(Last(d.histogram), Some(0.0))
  }

  /** `get_macd_signal`: a histogram sign change wins over the line comparison. */
  function MacdSignal(data: Option<MacdData>): (s: Signal)
    ensures data.None? <==> s == InsufficientData
    ensures s == AnalysisError <==> data.Some? && !MacdReadable(data.value)
    ensures s == Decided(BullishCrossover, Green) <==>
      data.Some? && MacdReadable(data.value) && HistogramTurnsUp(data.value)
    ensures s == Decided(BearishCrossover, Red) <==>
      data.Some? && MacdReadable(data.value) && HistogramTurnsDown(data.value)
    ensures s == Decided(Bullish, Green) <==>
      data.Some? && MacdReadable(data.value) &&
      !HistogramTurnsUp(data.value) && !HistogramTurnsDown(data.value) &&
      Gt(Last(data.value.macd), Last(data.value.signal))
    ensures s == Decided(Bearish, Red) <==>
      data.Some? && MacdReadable(data.value) &&
      !HistogramTurnsUp(data.value) && !HistogramTurnsDown(data.value) &&
      !Gt(Last(data.value.macd), Last(data.value.signal))
  {
    if data.None? then InsufficientData
    else
      var d := data.value;
      if !MacdReadable(d) then AnalysisError
      else
        var line, sig, hist := Last(d.macd), Last(d.signal), Last(d.histogram);
        if |d.macd| > 1 && Lt(d.histogram[|d.histogram| - 2], Some(0.0)) && Gt(hist, Some(0.0)) then
          Decided(BullishCrossover, Green)
        else if |d.macd| > 1 && Gt(d.histogram[|d.histogram| - 2], Some(0.0)) && Lt(hist, Some(0.0)) then
          Decided(BearishCrossover, Red)
        else if Gt(line, sig) then Decided(Bullish, Green)
        else Decided(Bearish, Red)
  }

  /** A zero histogram on either of the last two bars is never a crossover. */
  lemma MacdZeroHistogramNoCrossover(d: MacdData)
    requires MacdReadable(d) && |d.macd| > 1
    requires Last(d.histogram) == Some(0.0) || d.histogram[|d.histogram| - 2] == Some(0.0)
    ensures Shown(MacdSignal(Some(d))) in {Bullish, Bearish}
  {
  }

  /** With a single MACD point there is no previous bar, hence no crossover. */
  lemma MacdSinglePointNoCrossover(d: MacdData)
    requires |d.macd| == 1 && |d.signal| > 0 && |d.histogram| > 0
    ensures MacdSignal(Some(d)) ==
      if Gt(Last(d.macd), Last(d.signal)) then Decided(Bullish, Green) else Decided(Bearish, Red)
  {
  }

  // ---------------------------------------------------------- Bollinger

  /** The band columns `calculate_bollinger_bands` returns. */
  datatype Bands = Bands(upper: Series, middle: Series, lower: Series)

  predicate BandsReadable(b: Bands) {
    |b.upper| > 0 && |b.middle| > 0 && |b.lower| > 0
  }

  /** `get_bollinger_signal`: where the current price sits relative to the latest bands. */
  function BollingerSignal(bands: Option<Bands>, price: real): (s: Signal)
    ensures bands.None? <==> s == InsufficientData
    ensures s == AnalysisError <==> bands.Some? && !BandsReadable(bands.value)
    ensures s == Decided(Overbought, Red) <==>
      bands.Some? && BandsReadable(bands.value) && Ge(Some(price), Last(bands.value.upper))
    ensures s == Decided(Oversold, Green) <==>
      bands.Some? && BandsReadable(bands.value) && !Ge(Some(price), Last(bands.value.upper)) &&
      Le(Some(price), Last(bands.value.lower))
    ensures s == Decided(AboveAverage, LightGreen) <==>
      bands.Some? && BandsReadable(bands.value) && !Ge(Some(price), Last(bands.value.upper)) &&
      !Le(Some(price), Last(bands.value.lower)) && Gt(Some(price), Last(bands.value.middle))
    ensures s == Decided(BelowAverage, Orange) <==>
      bands.Some? && BandsReadable(bands.value) && !Ge(Some(price), Last(bands.value.upper)) &&
      !Le(Some(price), Last(bands.value.lower)) && !Gt(Some(price), Last(bands.value.middle))
  {
    if bands.None? then InsufficientData
    else
      var b := bands.value;
      if !BandsReadable(b) then AnalysisError
      else if Ge(Some(price), Last(b.upper)) then Decided(Overbought, Red)
      else if Le(Some(price), Last(b.lower)) then Decided(Oversold, Green)
      else if Gt(Some(price), Last(b.middle)) then Decided(AboveAverage, LightGreen)
      else Decided(BelowAverage, Orange)
  }

  /** Position of a Bollinger signal on the low-to-high scale. */
  function BandZone(s: Signal): int {
    match Shown(s)
    case Oversold => 0
    case BelowAverage => 1
    case AboveAverage => 2
    case Overbought => 3
    case _ => 1
  }

  /**
   * With defined, ordered bands (lower <= middle <= upper) a higher price
   * never moves the signal down the scale.
   */
  lemma BollingerMonotone(b: Bands, p: real, q: real)
    requires BandsReadable(b) && p <= q
    requires Last(b.upper).Some? && Last(b.middle).Some? && Last(b.lower).Some?
    requires Last(b.lower).value <= Last(b.middle).value <= Last(b.upper).value
    ensures BandZone(BollingerSignal(Some(b), p)) <= BandZone(BollingerSignal(Some(b), q))
  {
  }

  // ----------------------------------------------------- moving averages

  predicate CrossReadable(short: Series, long: Series) {
    |short| > 1 && |long| > 1
  }

  /** Short average below the long one on the previous bar and above it on the last bar. */
  predicate GoldenCrossAt(short: Series, long: Series)
    requires CrossReadable(short, long)
  {
    Lt(short[|short| - 2], long[|long| - 2]) && Gt(Last(short), Last(long))
  }

  /** Short average above the long one on the previous bar and below it on the last bar. */
  predicate DeathCrossAt(short: Series, long: Series)
    requires CrossReadable(short, long)
  {
    Gt(short[|short| - 2], long[|long| - 2]) && Lt(Last(short), Last(long))
  }

  /** `get_moving_average_signal`: Golden/Death Cross first, otherwise the trend. */
  function MovingAverageSignal(short: Option<Series>, long: Option<Series>): (s: Signal)
    ensures s == InsufficientData <==> short.None? || long.None?
    ensures s == AnalysisError <==> short.Some? && long.Some? && (|short.value| == 0 || |long.value| == 0)
    ensures s == Decided(GoldenCross, Green) <==>
      short.Some? && long.Some? && CrossReadable(short.value, long.value) &&
      GoldenCrossAt(short.value, long.value)
    ensures s == Decided(DeathCross, Red) <==>
      short.Some? && long.Some? && CrossReadable(short.value, long.value) &&
      DeathCrossAt(short.value, long.value)
    ensures s.Decided? && s.category in {BullishTrend, BearishTrend} ==>
      (s.category == BullishTrend <==> Gt(Last(short.value), Last(long.value)))
    ensures short.Some? && long.Some? && |short.value| > 0 && |long.value| > 0 ==>
      var sh, lo := short.value, long.value;
      !(CrossReadable(sh, lo) && (GoldenCrossAt(sh, lo) || DeathCrossAt(sh, lo))) ==>
        s == (if Gt(Last(sh), Last(lo)) then Decided(BullishTrend, Green) else Decided(BearishTrend, Red))
  {
    if short.None? || long.None? then InsufficientData
    else
      var sh, lo := short.value, long.value;
      if |sh| == 0 || |lo| == 0 then AnalysisError
      else if CrossReadable(sh, lo) && GoldenCrossAt(sh, lo) then Decided(GoldenCross, Green)
      else if CrossReadable(sh, lo) && DeathCrossAt(sh, lo) then Decided(DeathCross, Red)
      else if Gt(Last(sh), Last(lo)) then Decided(BullishTrend, Green)
      else Decided(BearishTrend, Red)
  }

  /** Short average strictly above the long one on both of the last two bars is never a Golden Cross. */
  lemma AboveOnBothBarsNoGoldenCross(short: Series, long: Series)
    requires CrossReadable(short, long)
    requires Gt(short[|short| - 2], long[|long| - 2]) && Gt(Last(short), Last(long))
    ensures MovingAverageSignal(Some(short), Some(long)) == Decided(BullishTrend, Green)
  {
  }

  /**
   * A short average that stays above the long one over the whole series
   * (as on a steadily rising price once both windows are full) only ever
   * reports the Bullish Trend fallback.
   */
  lemma AboveThroughoutIsBullishTrend(short: Series, long: Series)
    requires |short| == |long| > 0
    requires forall i :: 0 <= i < |short| ==> Gt(short[i], long[i])
    ensures MovingAverageSignal(Some(short), Some(long)) == Decided(BullishTrend, Green)
  {
    assert Gt(Last(short), Last(long));
    if |short| > 1 {
      assert Gt(short[|short| - 2], long[|long| - 2]);
    }
  }

  // ------------------------------------------------------------- helpers

  /** Volume counted with the direction of the close: added when it rises, subtracted when it falls. */
  function SignedVolume(prev: real, cur: real, volume: int): int {
    if cur > prev then volume else if cur < prev then -volume else 0
  }

  /** On-Balance Volume at row `i`: the signed volumes of rows 1..i added up. */
  function ObvAt(bars: seq<Bar>, i: nat): int
    requires i < |bars|
  {
    if i == 0 then 0
    else ObvAt(bars, i - 1) + SignedVolume(bars[i - 1].close, bars[i].close, bars[i].volume)
  }

  /**
   * `calculate_obv`: a running sum that adds the volume on up days, subtracts
   * it on down days and holds on unchanged days. On an empty history the
   * seed value 0 does not fit the empty index and the call yields None.
   */
  method CalculateObv(bars: seq<Bar>) returns (obv: Option<seq<int>>)
    ensures obv.None? <==> bars == []
    ensures obv.Some? ==> |obv.value| == |bars| && obv.value[0] == 0
    ensures obv.Some? ==> forall i :: 0 <= i < |bars| ==> obv.value[i] == ObvAt(bars, i)
  {
    var acc := [0];
    var i := 1;
    while i < |bars|
      invariant 1 <= i && (bars != [] ==> i <= |bars|)
      invariant |acc| == i && acc[0] == 0
      invariant forall k :: 0 <= k < i && k < |bars| ==> acc[k] == ObvAt(bars, k)
    {
      if bars[i].close > bars[i - 1].close {
        acc := acc + [acc[i - 1] + bars[i].volume];
      } else if bars[i].close < bars[i - 1].close {
        acc := acc + [acc[i - 1] - bars[i].volume];
      } else {
        acc := acc + [acc[i - 1]];
      }
      i := i + 1;
    }
    if bars == [] {
      obv := None;
    } else {
      obv := Some(acc);
    }
  }

  /** Each OBV step moves by exactly +volume, -volume or 0 as the close rises, falls or holds. */
  lemma ObvStep(bars: seq<Bar>, i: nat)
    requires 0 < i < |bars|
    ensures bars[i].close > bars[i - 1].close ==> ObvAt(bars, i) == ObvAt(bars, i - 1) + bars[i].volume
    ensures bars[i].close < bars[i - 1].close ==> ObvAt(bars, i) == ObvAt(bars, i - 1) - bars[i].volume
    ensures bars[i].close == bars[i - 1].close ==> ObvAt(bars, i) == ObvAt(bars, i - 1)
  {
  }

  /** Volume traded on rows 1..i. */
  function VolumeAfterFirst(bars: seq<Bar>, i: nat): int
    requires i < |bars|
  {
    if i == 0 then 0 else VolumeAfterFirst(bars, i - 1) + bars[i].volume
  }

  /** With non-negative volumes, OBV never leaves the band of the volume traded since the first row. */
  lemma {:induction false} ObvBounded(bars: seq<Bar>, i: nat)
    requires i < |bars|
    requires forall k :: 0 <= k < |bars| ==> bars[k].volume >= 0
    ensures -VolumeAfterFirst(bars, i) <= ObvAt(bars, i) <= VolumeAfterFirst(bars, i)
  {
    if i > 0 {
      ObvBounded(bars, i - 1);
    }
  }

  /** Position of the largest high of a non-empty stretch of bars (first one on ties). */
  function HighestBar(bars: seq<Bar>): (k: nat)
    requires |bars| > 0
    ensures k < |bars|
    ensures forall j :: 0 <= j < |bars| ==> bars[j].high <= bars[k].high
  {
    if |bars| == 1 then 0
    else
      var rest := HighestBar(bars[1..]) + 1;
      assert forall j :: 1 <= j < |bars| ==> bars[j] == bars[1..][j - 1];
      if bars[0].high >= bars[rest].high then 0 else rest
  }

  /** Position of the smallest low of a non-empty stretch of bars (first one on ties). */
  function LowestBar(bars: seq<Bar>): (k: nat)
    requires |bars| > 0
    ensures k < |bars|
    ensures forall j :: 0 <= j < |bars| ==> bars[k].low <= bars[j].low
  {
    if |bars| == 1 then 0
    else
      var rest := LowestBar(bars[1..]) + 1;
      assert forall j :: 1 <= j < |bars| ==> bars[j] == bars[1..][j - 1];
      if bars[0].low <= bars[rest].low then 0 else rest
  }

  /** `data['High'].max()` of a non-empty stretch. */
  function MaxHigh(bars: seq<Bar>): real
    requires |bars| > 0
  {
    bars[HighestBar(bars)].high
  }

  /** `data['Low'].min()` of a non-empty stretch. */
  function MinLow(bars: seq<Bar>): real
    requires |bars| > 0
  {
    bars[LowestBar(bars)].low
  }

  /** The four levels `calculate_support_resistance` reports; None where pandas yields NaN. */
  datatype Levels = Levels(resistance: Option<real>, support: Option<real>,
                           allTimeHigh: Option<real>, allTimeLow: Option<real>)

  /**
   * `calculate_support_resistance`: resistance and support are the extreme
   * high and low of the last `window` bars, next to the extremes of the
   * whole history. The max/min of an empty column is NaN.
   */
  function SupportResistance(bars: seq<Bar>, window: nat): (l: Levels)
    ensures l.allTimeHigh.Some? <==> bars != []
    ensures l.allTimeLow.Some? == l.allTimeHigh.Some?
    ensures l.resistance.Some? <==> bars != [] && window > 0
    ensures l.support.Some? == l.resistance.Some?
    ensures bars != [] ==> l.allTimeHigh == Some(MaxHigh(bars)) && l.allTimeLow == Some(MinLow(bars))
    ensures l.resistance.Some? ==>
      l.resistance == Some(MaxHigh(Tail(bars, window))) && l.support == Some(MinLow(Tail(bars, window)))
    ensures l.resistance.Some? ==> Le(l.resistance, l.allTimeHigh) && Ge(l.support, l.allTimeLow)
    ensures l.resistance.Some? ==>
      forall k :: |bars| - window <= k < |bars| && 0 <= k ==>
        bars[k].high <= l.resistance.value && l.support.value <= bars[k].low
  {
    if bars == [] then Levels(None, None, None, None)
    else if window == 0 then Levels(None, None, Some(MaxHigh(bars)), Some(MinLow(bars)))
    else
      var recent := Tail(bars, window);
      RecentWithinHistory(bars, window);
      Levels(Some(MaxHigh(recent)), Some(MinLow(recent)), Some(MaxHigh(bars)), Some(MinLow(bars)))
  }

  /** The extremes of the last `window` bars bound those bars and lie within the whole history's extremes. */
  lemma RecentWithinHistory(bars: seq<Bar>, window: nat)
    requires bars != [] && window > 0
    ensures Tail(bars, window) != []
    ensures MaxHigh(Tail(bars, window)) <= MaxHigh(bars)
    ensures MinLow(Tail(bars, window)) >= MinLow(bars)
    ensures forall k :: |bars| - window <= k < |bars| && 0 <= k ==>
      bars[k].high <= MaxHigh(Tail(bars, window)) && MinLow(Tail(bars, window)) <= bars[k].low
  {
    var recent := Tail(bars, window);
    var off := |bars| - |recent|;
    assert recent == bars[off..];
    forall k | |bars| - window <= k < |bars| && 0 <= k
      ensures bars[k].high <= MaxHigh(recent) && MinLow(recent) <= bars[k].low
    {
      TailBarWithinExtremes(bars, off, k);
    }
    SuffixExtremesWithin(bars, off);
  }

  /** A bar of the suffix from `off` lies within that suffix's extremes. */
  lemma TailBarWithinExtremes(bars: seq<Bar>, off: nat, k: nat)
    requires off <= k < |bars|
    ensures bars[k].high <= MaxHigh(bars[off..]) && MinLow(bars[off..]) <= bars[k].low
  {
    assert bars[off..][k - off] == bars[k];
  }

  /** The extremes of a suffix lie within the extremes of the whole history. */
  lemma SuffixExtremesWithin(bars: seq<Bar>, off: nat)
    requires off < |bars|
    ensures MaxHigh(bars[off..]) <= MaxHigh(bars)
    ensures MinLow(bars[off..]) >= MinLow(bars)
  {
    var recent := bars[off..];
    var h := HighestBar(recent);
    assert recent[h] == bars[off + h];
    var l := LowestBar(recent);
    assert recent[l] == bars[off + l];
  }

  /** When no bar has its low above its high, support never exceeds resistance. */
  lemma SupportBelowResistance(bars: seq<Bar>, window: nat)
    requires forall k :: 0 <= k < |bars| ==> bars[k].low <= bars[k].high
    requires bars != [] && window > 0
    ensures Le(SupportResistance(bars, window).support, SupportResistance(bars, window).resistance)
  {
    var l := SupportResistance(bars, window);
    var last := |bars| - 1;
    assert l.support.value <= bars[last].low <= bars[last].high <= l.resistance.value;
  }

  function Max3(a: real, b: real, c: real): real {
    if a >= b && a >= c then a else if b >= c then b else c
  }

  /**
   * True range of row `i`: the largest of high-low, |high-prevClose| and
   * |low-prevClose|. On the first row the previous close is NaN and the
   * NaN-skipping row maximum leaves high-low.
   */
  function TrueRange(bars: seq<Bar>, i: nat): (r: real)
    requires i < |bars|
    ensures i == 0 ==> r == bars[i].high - bars[i].low
    ensures i > 0 ==>
      var spread := bars[i].high - bars[i].low;
      var up := Abs(bars[i].high - bars[i - 1].close);
      var down := Abs(bars[i].low - bars[i - 1].close);
      spread <= r && up <= r && down <= r && (r == spread || r == up || r == down)
  {
    var b := bars[i];
    if i == 0 then b.high - b.low
    else Max3(b.high - b.low, Abs(b.high - bars[i - 1].close), Abs(b.low - bars[i - 1].close))
  }

  /** Sum of the true ranges of rows lo..hi-1. */
  function SumTrueRange(bars: seq<Bar>, lo: nat, hi: nat): real
    requires lo <= hi <= |bars|
    decreases hi - lo
  {
    if lo == hi then 0.0 else TrueRange(bars, lo) + SumTrueRange(bars, lo + 1, hi)
  }

  /** Sum of the spreads high-low of rows lo..hi-1. */
  function SumSpread(bars: seq<Bar>, lo: nat, hi: nat): real
    requires lo <= hi <= |bars|
    decreases hi - lo
  {
    if lo == hi then 0.0 else (bars[lo].high - bars[lo].low) + SumSpread(bars, lo + 1, hi)
  }

  /**
   * `calculate_atr`: the rolling mean of the true range over `period` rows,
   * NaN until the window is full (and everywhere for an empty window).
   */
  function Atr(bars: seq<Bar>, period: nat): (atr: Series)
    ensures |atr| == |bars|
    ensures forall i :: 0 <= i < |bars| ==> (atr[i].Some? <==> period > 0 && i + 1 >= period)
    ensures forall i :: 0 <= i < |bars| && atr[i].Some? ==>
      atr[i].value == MeanOf(SumTrueRange(bars, i + 1 - period, i + 1), period)
  {
    seq(|bars|, i requires 0 <= i < |bars| =>
      if period > 0 && i + 1 >= period
      then Some(MeanOf(SumTrueRange(bars, i + 1 - period, i + 1), period))
      else None)
  }

  /** A total spread over `count` rows, divided back into a per-row mean. */
  function MeanOf(total: real, count: nat): (m: real)
    requires count > 0
    ensures m * (count as real) == total
  {
    total / (count as real)
  }

  /** The true range of a row is never below its high-low spread. */
  lemma TrueRangeCoversSpread(bars: seq<Bar>, i: nat)
    requires i < |bars|
    ensures TrueRange(bars, i) >= bars[i].high - bars[i].low
  {
  }

  lemma {:induction false} SumTrueRangeCoversSpread(bars: seq<Bar>, lo: nat, hi: nat)
    requires lo <= hi <= |bars|
    ensures SumTrueRange(bars, lo, hi) >= SumSpread(bars, lo, hi)
    decreases hi - lo
  {
    if lo < hi {
      TrueRangeCoversSpread(bars, lo);
      SumTrueRangeCoversSpread(bars, lo + 1, hi);
    }
  }

  lemma {:induction false} SumSpreadNonNegative(bars: seq<Bar>, lo: nat, hi: nat)
    requires lo <= hi <= |bars|
    requires forall k :: 0 <= k < |bars| ==> bars[k].low <= bars[k].high
    ensures SumSpread(bars, lo, hi) >= 0.0
    decreases hi - lo
  {
    if lo < hi {
      SumSpreadNonNegative(bars, lo + 1, hi);
    }
  }

  /**
   * Every defined ATR value is at least the mean high-low spread of its
   * window, and so is never negative when no bar has its low above its high.
   */
  lemma AtrCoversMeanSpread(bars: seq<Bar>, period: nat, i: nat)
    requires i < |bars| && Atr(bars, period)[i].Some?
    requires forall k :: 0 <= k < |bars| ==> bars[k].low <= bars[k].high
    ensures Atr(bars, period)[i].value >= MeanOf(SumSpread(bars, i + 1 - period, i + 1), period) >= 0.0
  {
    var lo := i + 1 - period;
    SumTrueRangeCoversSpread(bars, lo, i + 1);
    SumSpreadNonNegative(bars, lo, i + 1);
    MeanMonotone(SumTrueRange(bars, lo, i + 1), SumSpread(bars, lo, i + 1), period);
  }

  /** A larger total gives a larger mean over the same number of rows; a non-negative total a non-negative one. */
  lemma MeanMonotone(t: real, s: real, count: nat)
    requires count > 0 && t >= s >= 0.0
    ensures MeanOf(t, count) >= MeanOf(s, count) >= 0.0
  {
    var p := count as real;
    var mt, ms := MeanOf(t, count), MeanOf(s, count);
    assert (mt - ms) * p == t - s;
  }
}
