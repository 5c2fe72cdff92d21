/**
 * Price forecasting: the feature table built from a price history, the
 * chronological train/test split, the recurrent multi-day forecast, the
 * pipeline that chains them, and the moving-average trend forecast.
 *
 * The learning itself is outside the model: a learner is a function from
 * training rows and targets to a fitted regressor (None when fitting
 * raises), a regressor is a function from a feature row to a price, and the
 * R^2 score and the rolling standard deviation are functions passed in.
 */
module Prediction {
  import opened Common
  import opened Config
  import opened StockData

  // ------------------------------------------------------------ calendar

  /** Whole days since the epoch (floor division). */
  function DayNumber(t: Instant): int {
    t / SECONDS_PER_DAY
  }

  /** `dt.dayofweek`: Monday is 0; the epoch day was a Thursday. */
  function DayOfWeek(t: Instant): (d: int)
    ensures 0 <= d < 7
  {
    (DayNumber(t) + 3) % 7
  }

  /** Consecutive days have consecutive weekdays, Sunday (6) wrapping to Monday (0). */
  lemma NextDayOfWeek(t: Instant)
    ensures DayOfWeek(AddDays(t, 1)) == (DayOfWeek(t) + 1) % 7
  {
    assert DayNumber(AddDays(t, 1)) == DayNumber(t) + 1;
  }

  /** 1970-01-01, the epoch day, was a Thursday in January. */
  lemma EpochIsThursdayInJanuary()
    ensures DayOfWeek(0) == 3 && Month(0) == 1
  {
    assert DayNumber(0) == 0;
    assert 719468 / 146097 == 4;
    assert (135080 - 135080 / 1460 + 135080 / 36524 - 135080 / 146096) / 365 == 369;
    assert (5 * 306 + 2) / 153 == 10;
  }

  /** 1 February 1970 (day 31) falls in month 2 and 1 March 1970 (day 59) in month 3. */
  lemma MonthBoundaries1970()
    ensures Month(31 * SECONDS_PER_DAY) == 2 && Month(59 * SECONDS_PER_DAY) == 3
  {
    assert DayNumber(31 * SECONDS_PER_DAY) == 31;
    assert 719499 / 146097 == 4;
    assert (135111 - 135111 / 1460 + 135111 / 36524 - 135111 / 146096) / 365 == 369;
    assert (5 * 337 + 2) / 153 == 11;
    assert DayNumber(59 * SECONDS_PER_DAY) == 59;
    assert 719527 / 146097 == 4;
    assert (135139 - 135139 / 1460 + 135139 / 36524 - 135139 / 146096) / 365 == 370;
    assert (5 * 0 + 2) / 153 == 0;
  }

  /** `dt.month`, by the proleptic Gregorian calendar (days-to-civil conversion). */
  function Month(t: Instant): (m: int)
    ensures 1 <= m <= 12
  {
    var z := DayNumber(t) + 719468;
    var era := z / 146097;
    var doe := z - era * 146097;
    assert doe == z % 146097;
    var yoe := (doe - doe / 1460 + doe / 36524 - doe / 146096) / 365;
    var doy := doe - (365 * yoe + yoe / 4 - yoe / 100);
    DayOfYearRange(doe);
    var mp := (5 * doy + 2) / 153;
    if mp < 10 then mp + 3 else mp - 9
  }

  /**
   * Within a 400-year era counted from 1 March, the year-of-era formula
   * leaves a day of the year in 0..365: an era splits into centuries of
   * 36524 days and those into four-year blocks of 1461 days.
   */
  lemma DayOfYearRange(doe: int)
    requires 0 <= doe < 146097
    ensures var yoe := (doe - doe / 1460 + doe / 36524 - doe / 146096) / 365;
      var doy := doe - (365 * yoe + yoe / 4 - yoe / 100);
      0 <= doy <= 365
  {
    if doe == 146096 {
      return;
    }
    assert doe / 146096 == 0;
    var b := doe / 36524;
    var r := doe % 36524;
    assert doe == 36524 * b + r;
    assert 0 <= b <= 3;
    var q := r / 1461;
    var s := r % 1461;
    assert r == 1461 * q + s;
    YearInBlock(doe, b, q, s);
  }

  /**
   * Day `s` of four-year block `q` of century `b` falls in year
   * 100b + 4q + yb of the era, with yb the year within the block, and its
   * day of the year is s - 365yb.
   */
  lemma YearInBlock(doe: int, b: int, q: int, s: int)
    requires 0 <= b <= 3 && 0 <= q && 0 <= s < 1461 && 1461 * q + s < 36524
    requires doe == 36524 * b + 1461 * q + s
    ensures var yoe := (doe - doe / 1460 + doe / 36524 - doe / 146096) / 365;
      var doy := doe - (365 * yoe + yoe / 4 - yoe / 100);
      0 <= doy <= 365
  {
    var e := if 24 * b + q + s >= 1460 then 1 else 0;
    var yb := (s - e) / 365;
    YearOfEra(doe, b, q, s, e);
    var yoe := 100 * b + 4 * q + yb;
    DivBy(yoe, 4, 25 * b + q);
    DivBy(yoe, 100, b);
  }

  /** The year-of-era formula on day `s` of block `q` of century `b`; `e` is 1 where `doe / 1460` runs one ahead. */
  lemma YearOfEra(doe: int, b: int, q: int, s: int, e: int)
    requires 0 <= b <= 3 && 0 <= q && 0 <= s < 1461 && 1461 * q + s < 36524
    requires doe == 36524 * b + 1461 * q + s
    requires e == if 24 * b + q + s >= 1460 then 1 else 0
    ensures 0 <= (s - e) / 365 <= 3
    ensures (doe - doe / 1460 + doe / 36524 - doe / 146096) / 365 == 100 * b + 4 * q + (s - e) / 365
  {
    DivBy36524(doe, b);
    assert doe == 1460 * (25 * b + q) + (24 * b + q + s);
    DivBy(doe, 1460, 25 * b + q + e);
    var f := doe - doe / 1460 + doe / 36524 - doe / 146096;
    assert f == 365 * (100 * b + 4 * q) + (s - e);
    var yb := (s - e) / 365;
    DivBy(f, 365, 100 * b + 4 * q + yb);
  }

  /** Within the first 146096 days of an era, the century count is b and no full era has passed. */
  lemma DivBy36524(doe: int, b: int)
    requires 0 <= b <= 3 && 36524 * b <= doe < 36524 * b + 36524
    ensures doe / 36524 == b && doe / 146096 == 0
  {
  }

  /** Floor division by one of the calendar's cycle lengths, from bounds on the dividend. */
  lemma DivBy(x: int, d: int, q: int)
    requires d == 4 || d == 100 || d == 365 || d == 1460
    requires d * q <= x < d * q + d
    ensures x / d == q
  {
    if d == 4 {
      assert 4 * q <= x < 4 * q + 4;
    } else if d == 100 {
      assert 100 * q <= x < 100 * q + 100;
    } else if d == 365 {
      assert 365 * q <= x < 365 * q + 365;
    } else {
      assert 1460 * q <= x < 1460 * q + 1460;
    }
  }

  // ------------------------------------------------------- sorting by date

  predicate SortedByDate(bars: seq<Bar>) {
    forall i, j :: 0 <= i < j < |bars| ==> bars[i].date <= bars[j].date
  }

  /** Place a bar after every bar of a date-sorted list that is not later than it. */
  function InsertByDate(b: Bar, sorted: seq<Bar>): (r: seq<Bar>)
    requires SortedByDate(sorted)
    ensures SortedByDate(r)
    ensures multiset(r) == multiset(sorted) + multiset{b}
  {
    if sorted == [] || b.date < sorted[0].date then
      [b] + sorted
    else
      var head, tail := sorted[0], sorted[1..];
      SplitSorted(sorted);
      var rest := InsertByDate(b, tail);
      HeadBelowAll(head, tail, b, rest);
      PrependSorted(head, rest);
      assert sorted == [head] + tail;
      [head] + rest
  }

  lemma SplitSorted(sorted: seq<Bar>)
    requires SortedByDate(sorted) && sorted != []
    ensures SortedByDate(sorted[1..])
    ensures forall x :: x in sorted[1..] ==> sorted[0].date <= x.date
  {
    assert forall k :: 0 <= k < |sorted| - 1 ==> sorted[1..][k] == sorted[k + 1];
  }

  lemma HeadBelowAll(head: Bar, tail: seq<Bar>, b: Bar, rest: seq<Bar>)
    requires forall x :: x in tail ==> head.date <= x.date
    requires head.date <= b.date
    requires multiset(rest) == multiset(tail) + multiset{b}
    ensures forall x :: x in rest ==> head.date <= x.date
  {
    forall x | x in rest ensures head.date <= x.date {
      assert x in multiset(rest);
      assert x == b || x in multiset(tail);
    }
  }

  lemma PrependSorted(head: Bar, rest: seq<Bar>)
    requires SortedByDate(rest)
    requires forall x :: x in rest ==> head.date <= x.date
    ensures SortedByDate([head] + rest)
  {
    var r := [head] + rest;
    forall i, j | 0 <= i < j < |r| ensures r[i].date <= r[j].date {
      assert r[j] == rest[j - 1];
      if i > 0 {
        assert r[i] == rest[i - 1];
      }
    }
  }

  /** `sort_values('Date').reset_index(drop=True)`: the same bars, in date order. */
  function SortByDate(bars: seq<Bar>): (r: seq<Bar>)
    ensures SortedByDate(r)
    ensures multiset(r) == multiset(bars)
    ensures |r| == |bars|
  {
    if bars == [] then []
    else
      var prefix := bars[..|bars| - 1];
      assert bars == prefix + [Last(bars)];
      var r := InsertByDate(Last(bars), SortByDate(prefix));
      assert |r| == |multiset(r)|;
      r
  }

  lemma {:induction false} InsertLatest(b: Bar, sorted: seq<Bar>)
    requires SortedByDate(sorted)
    requires forall i :: 0 <= i < |sorted| ==> sorted[i].date <= b.date
    ensures InsertByDate(b, sorted) == sorted + [b]
  {
    if sorted != [] {
      InsertLatest(b, sorted[1..]);
    }
  }

  /** A history already in date order is left as it is. */
  lemma {:induction false} SortedIsUnchanged(bars: seq<Bar>)
    requires SortedByDate(bars)
    ensures SortByDate(bars) == bars
  {
    if bars != [] {
      var prefix := bars[..|bars| - 1];
      SortedIsUnchanged(prefix);
      InsertLatest(Last(bars), prefix);
      assert prefix + [Last(bars)] == bars;
    }
  }

  // ------------------------------------------------------------- features

  /** `rolling(window=w).mean()` at row i: undefined until a full window is available. */
  function RollingMean(xs: seq<real>, w: nat, i: nat): (m: Option<real>)
    requires i < |xs|
    ensures m.Some? <==> 0 < w <= i + 1
    ensures m.Some? ==> m.value == Sum(xs[i + 1 - w..i + 1]) / (w as real)
  {
    if 0 < w <= i + 1 then Some(Mean(xs[i + 1 - w..i + 1])) else None
  }

  /** A stretch of equal values c adds up to its length times c. */
  lemma {:induction false} SumOfConstant(xs: seq<real>, c: real)
    requires forall k :: 0 <= k < |xs| ==> xs[k] == c
    ensures Sum(xs) == (|xs| as real) * c
  {
    if xs != [] {
      var init := xs[..|xs| - 1];
      assert forall k :: 0 <= k < |init| ==> init[k] == xs[k];
      SumOfConstant(init, c);
    }
  }

  /** On a flat column every defined rolling mean is the column's value. */
  lemma FlatRollingMean(xs: seq<real>, c: real, w: nat, i: nat)
    requires i < |xs| && 0 < w <= i + 1
    requires forall k :: 0 <= k < |xs| ==> xs[k] == c
    ensures RollingMean(xs, w, i) == Some(c)
  {
    var window := xs[i + 1 - w..i + 1];
    assert forall k :: 0 <= k < |window| ==> window[k] == xs[i + 1 - w + k];
    SumOfConstant(window, c);
    assert |window| == w;
    assert Mean(window) == Sum(window) / (w as real);
    assert (w as real) * c / (w as real) == c;
    assert Mean(window) == c;
    assert RollingMean(xs, w, i) == Some(Mean(window));
  }

  /** `pct_change()` at row i: undefined on the first row. */
  function DailyReturn(closes: seq<real>, i: nat): (r: Option<real>)
    requires i < |closes|
    ensures i > 0 ==> r == PctChange(closes[i - 1], closes[i])
    ensures i == 0 ==> r.None?
  {
    if i == 0 then None else PctChange(closes[i - 1], closes[i])
  }

  /**
   * Whether row i has every derived column defined, so that `dropna`
   * keeps it: the three moving averages, the 10-row volatility and the
   * daily return.
   */
  predicate ColumnsDefined(closes: seq<real>, i: nat)
    requires i < |closes|
  {
    RollingMean(closes, 5, i).Some? && RollingMean(closes, 10, i).Some? &&
    RollingMean(closes, 20, i).Some? && i + 1 >= 10 &&
    DailyReturn(closes, i).Some?
  }

  /** Row i has 19 predecessors (the 20-row warm-up) and a nonzero previous close. */
  predicate WarmedUp(closes: seq<real>, i: nat)
    requires i < |closes|
  {
    i >= 19 && closes[i - 1] != 0.0
  }

  /** `dropna` keeps exactly the warmed-up rows: the 20-row average has the longest warm-up. */
  lemma DropnaKeepsWarmedUp(closes: seq<real>, i: nat)
    requires i < |closes|
    ensures ColumnsDefined(closes, i) <==> WarmedUp(closes, i)
  {
  }

  /** Positions below k whose row survives `dropna`, in increasing order. */
  function KeptIndices(closes: seq<real>, k: nat): (ks: seq<nat>)
    requires k <= |closes|
    ensures forall j :: 0 <= j < |ks| ==> ks[j] < k && WarmedUp(closes, ks[j])
    ensures forall j, l :: 0 <= j < l < |ks| ==> ks[j] < ks[l]
    ensures forall i :: 0 <= i < k && WarmedUp(closes, i) ==> i in ks
  {
    if k == 0 then []
    else KeptIndices(closes, k - 1) + (if WarmedUp(closes, k - 1) then [k - 1] else [])
  }

  /** One row of the feature matrix, in the column order the regressor sees. */
  datatype FeatureRow = FeatureRow(days: int, open: real, high: real, low: real, volume: int,
                                   ma5: real, ma10: real, ma20: real, volatility: real,
                                   dailyReturn: real, dayOfWeek: int, month: int)

  /** The features of the kept row i of the date-sorted history. */
  function FeatureRowAt(sorted: seq<Bar>, i: nat, stdev: seq<real> -> real): (r: FeatureRow)
    requires i < |sorted| && WarmedUp(Closes(sorted), i)
    ensures r.days == i
  {
    var cs := Closes(sorted);
    DropnaKeepsWarmedUp(cs, i);
    var b := sorted[i];
    FeatureRow(i, b.open, b.high, b.low, b.volume,
               RollingMean(cs, 5, i).value, RollingMean(cs, 10, i).value, RollingMean(cs, 20, i).value,
               stdev(cs[i - 9..i + 1]), DailyReturn(cs, i).value,
               DayOfWeek(b.date), Month(b.date))
  }

  /** Row positions of the sorted history that survive `dropna`. */
  function KeptRows(data: seq<Bar>): seq<nat> {
    KeptIndices(Closes(SortByDate(data)), |data|)
  }

  /** Feature rows in strictly increasing Days order. */
  predicate DaysIncrease(x: seq<FeatureRow>) {
    forall j, l :: 0 <= j < l < |x| ==> x[j].days < x[l].days
  }

  /** `self.features` after `prepare_data`. */
  function FeatureTable(data: seq<Bar>, stdev: seq<real> -> real): (x: seq<FeatureRow>)
    ensures |x| == |KeptRows(data)|
    ensures forall j :: 0 <= j < |x| ==> x[j].days == KeptRows(data)[j] && x[j].days >= 19
    ensures DaysIncrease(x)
  {
    var sorted := SortByDate(data);
    var ks := KeptRows(data);
    seq(|ks|, j requires 0 <= j < |ks| => FeatureRowAt(sorted, ks[j], stdev))
  }

  /** `self.target` after `prepare_data`: the close of each kept row. */
  function TargetOf(data: seq<Bar>): (y: seq<real>)
    ensures |y| == |KeptRows(data)|
    ensures forall j :: 0 <= j < |y| ==> y[j] == SortByDate(data)[KeptRows(data)[j]].close
  {
    var sorted := SortByDate(data);
    var ks := KeptRows(data);
    seq(|ks|, j requires 0 <= j < |ks| => sorted[ks[j]].close)
  }

  /** With no zero close, dropping incomplete rows removes exactly the first 19. */
  lemma {:induction false} KeptIndicesWithoutZeroCloses(closes: seq<real>, k: nat)
    requires k <= |closes|
    requires forall i :: 0 <= i < |closes| ==> closes[i] != 0.0
    ensures |KeptIndices(closes, k)| == if k < 19 then 0 else k - 19
    ensures forall j :: 0 <= j < |KeptIndices(closes, k)| ==> KeptIndices(closes, k)[j] == j + 19
  {
    if k > 0 {
      KeptIndicesWithoutZeroCloses(closes, k - 1);
    }
  }

  /** A history of n bars with no zero close yields max(0, n - 19) feature rows, Days 19, 20, ... */
  lemma FeatureTableWithoutZeroCloses(data: seq<Bar>, stdev: seq<real> -> real)
    requires forall i :: 0 <= i < |data| ==> data[i].close != 0.0
    ensures |FeatureTable(data, stdev)| == if |data| < 19 then 0 else |data| - 19
    ensures forall j :: 0 <= j < |FeatureTable(data, stdev)| ==> FeatureTable(data, stdev)[j].days == j + 19
  {
    var sorted := SortByDate(data);
    var cs := Closes(sorted);
    forall i | 0 <= i < |cs| ensures cs[i] != 0.0 {
      assert sorted[i] in multiset(data);
    }
    KeptIndicesWithoutZeroCloses(cs, |data|);
  }

  // ---------------------------------------------------------------- split

  /** The four parts `train_test_split` returns, assigned together. */
  datatype Split = Split(xTrain: seq<FeatureRow>, xTest: seq<FeatureRow>, yTrain: seq<real>, yTest: seq<real>)

  /**
   * `train_test_split(test_size=0.2, shuffle=False)`: the last ceil(n/5)
   * rows are the test set, the rest the training set; it raises (None)
   * when features and target differ in length or no training row is left.
   */
  function SplitOf(x: seq<FeatureRow>, y: seq<real>): (s: Option<Split>)
    ensures s.None? <==> |x| != |y| || |x| < 2
    ensures s.Some? ==> s.value.xTrain + s.value.xTest == x && s.value.yTrain + s.value.yTest == y
    ensures s.Some? ==> |s.value.xTest| == (|x| + 4) / 5 && |s.value.yTrain| == |s.value.xTrain| >= 1
  {
    if |x| != |y| then None
    else
      var nTest := (|x| + 4) / 5;
      var nTrain := |x| - nTest;
      if nTrain == 0 then None
      else Some(Split(x[..nTrain], x[nTrain..], y[..nTrain], y[nTrain..]))
  }

  /** The split never shuffles: every test row comes later than every training row. */
  lemma TestRowsFollowTrainingRows(x: seq<FeatureRow>, y: seq<real>)
    requires DaysIncrease(x) && SplitOf(x, y).Some?
    ensures var s := SplitOf(x, y).value;
      forall i, j :: 0 <= i < |s.xTrain| && 0 <= j < |s.xTest| ==> s.xTrain[i].days < s.xTest[j].days
  {
    var s := SplitOf(x, y).value;
    var n := |s.xTrain|;
    forall i, j | 0 <= i < n && 0 <= j < |s.xTest|
      ensures s.xTrain[i].days < s.xTest[j].days
    {
      assert s.xTrain[i] == x[i] && s.xTest[j] == x[n + j];
    }
  }

  /** With no zero close, a history of fewer than 21 bars cannot be split; 21 or more can. */
  lemma SplitNeedsTwentyOneBars(data: seq<Bar>, stdev: seq<real> -> real)
    requires forall i :: 0 <= i < |data| ==> data[i].close != 0.0
    ensures SplitOf(FeatureTable(data, stdev), TargetOf(data)).Some? <==> |data| >= 21
  {
    FeatureTableWithoutZeroCloses(data, stdev);
  }

  // --------------------------------------------------------------- models

  /** No model yet, an estimator whose fitting raised, or a fitted regressor. */
  datatype ModelState = NoModel | Unfitted | Fitted(predict: FeatureRow -> real)

  /** The metrics dictionary; the optional entries may be absent from a dictionary built elsewhere. */
  datatype Metrics = Metrics(modelName: Option<string>, trainR2: real, testR2: Option<real>,
                             trainPredictions: seq<real>, testPredictions: seq<real>)

  /** `model.predict(X)` */
  function Apply(f: FeatureRow -> real, xs: seq<FeatureRow>): (ps: seq<real>)
    ensures |ps| == |xs|
    ensures forall i :: 0 <= i < |xs| ==> ps[i] == f(xs[i])
  {
    seq(|xs|, i requires 0 <= i < |xs| => f(xs[i]))
  }

  /** The metrics reported for a regressor fitted on a split. */
  function MetricsOf(name: string, f: FeatureRow -> real, s: Split,
                     r2: (seq<real>, seq<real>) -> real): (m: Metrics)
    ensures m.modelName == Some(name) && m.testR2.Some?
    ensures |m.trainPredictions| == |s.xTrain| && |m.testPredictions| == |s.xTest|
    ensures forall k :: 0 <= k < |s.xTrain| ==> m.trainPredictions[k] == f(s.xTrain[k])
    ensures forall k :: 0 <= k < |s.xTest| ==> m.testPredictions[k] == f(s.xTest[k])
    ensures m.trainR2 == r2(s.yTrain, m.trainPredictions)
    ensures m.testR2 == Some(r2(s.yTest, m.testPredictions))
  {
    var trainPredictions := Apply(f, s.xTrain);
    var testPredictions := Apply(f, s.xTest);
    Metrics(Some(name), r2(s.yTrain, trainPredictions), Some(r2(s.yTest, testPredictions)),
            trainPredictions, testPredictions)
  }

  /** One row of a forecast table. */
  datatype PredictionRow = PredictionRow(date: Instant, predictedClose: real)

  /** Overwrite the three moving-average features with a predicted price. */
  function WithMovingAverages(row: FeatureRow, price: real): FeatureRow {
    row.(ma5 := price, ma10 := price, ma20 := price)
  }

  /**
   * The feature vector of forecast step i: the last feature row with Days
   * advanced by i, and, after the first step, the three moving averages
   * replaced by the previous step's prediction.
   */
  function StepFeatures(base: FeatureRow, i: nat, previous: Option<real>): (r: FeatureRow)
    ensures r.days == base.days + i
    ensures previous.None? ==> r.(days := base.days) == base
    ensures previous.Some? ==> r.ma5 == previous.value && r.ma10 == previous.value && r.ma20 == previous.value
    ensures previous.Some? ==> r.(days := base.days, ma5 := base.ma5, ma10 := base.ma10, ma20 := base.ma20) == base
  {
    var row := if previous.Some? then WithMovingAverages(base, previous.value) else base;
    row.(days := base.days + i)
  }

  /** The first k predicted prices of the recurrent forecast. */
  function ForecastPrices(f: FeatureRow -> real, base: FeatureRow, k: nat): (ps: seq<real>)
    ensures |ps| == k
  {
    if k == 0 then []
    else
      var ps := ForecastPrices(f, base, k - 1);
      ps + [f(StepFeatures(base, k, if k == 1 then None else Some(Last(ps))))]
  }

  /** A longer horizon only extends a shorter one: the first j predictions do not depend on k. */
  lemma {:induction false} ForecastPricesPrefix(f: FeatureRow -> real, base: FeatureRow, j: nat, k: nat)
    requires j <= k
    ensures ForecastPrices(f, base, k)[..j] == ForecastPrices(f, base, j)
  {
    if j < k {
      ForecastPricesPrefix(f, base, j, k - 1);
      assert ForecastPrices(f, base, k)[..k - 1] == ForecastPrices(f, base, k - 1);
    }
  }

  /** Step 1 is the last feature row with Days advanced by one and its moving averages unchanged. */
  lemma ForecastFirstStep(f: FeatureRow -> real, base: FeatureRow, k: nat)
    requires 1 <= k
    ensures ForecastPrices(f, base, k)[0] == f(base.(days := base.days + 1))
  {
    ForecastPricesPrefix(f, base, 1, k);
    assert ForecastPrices(f, base, k)[..1][0] == ForecastPrices(f, base, k)[0];
  }

  /** Step i + 1 (for i >= 1) is fed the prediction of step i. */
  lemma ForecastFeedsBack(f: FeatureRow -> real, base: FeatureRow, k: nat, i: nat)
    requires 1 <= i < k
    ensures ForecastPrices(f, base, k)[i] == f(StepFeatures(base, i + 1, Some(ForecastPrices(f, base, k)[i - 1])))
  {
    ForecastPricesPrefix(f, base, i + 1, k);
    assert ForecastPrices(f, base, k)[..i + 1][i] == ForecastPrices(f, base, k)[i];
    assert ForecastPrices(f, base, k)[..i + 1][i - 1] == ForecastPrices(f, base, k)[i - 1];
  }

  /** The k forecast rows dated on the k days after the last date. */
  function ForecastRows(f: FeatureRow -> real, base: FeatureRow, lastDate: Instant, k: nat): (rows: seq<PredictionRow>)
    ensures |rows| == k
    ensures forall j :: 0 <= j < k ==> rows[j].date == AddDays(lastDate, j + 1)
  {
    var ps := ForecastPrices(f, base, k);
    seq(k, j requires 0 <= j < k => PredictionRow(AddDays(lastDate, j + 1), ps[j]))
  }

  /**
   * What `predict_future(days)` returns: None without a model, without a
   * feature row or without data, or when the estimator was never fitted
   * and there is a day to predict; an empty table for days <= 0.
   */
  function Forecast(model: ModelState, features: Option<seq<FeatureRow>>, data: seq<Bar>, days: int)
    : (r: Option<seq<PredictionRow>>)
    ensures model.NoModel? ==> r.None?
    ensures r.Some? ==> |r.value| == if days > 0 then days else 0
    ensures model.Fitted? && features.Some? && features.value != [] && data != [] ==> r.Some?
    ensures r.None? <==>
      model.NoModel? || features.None? || features.value == [] || data == [] || (days > 0 && model.Unfitted?)
    ensures model.Fitted? && features.Some? && features.value != [] && data != [] && days > 0 ==>
      var ps := ForecastPrices(model.predict, Last(features.value), days);
      forall j :: 0 <= j < days ==>
        r.value[j].date == AddDays(Last(data).date, j + 1) && r.value[j].predictedClose == ps[j]
  {
    if model.NoModel? then None
    else if features.None? || features.value == [] || data == [] then None
    else if days <= 0 then Some([])
    else if model.Unfitted? then None
    else Some(ForecastRows(model.predict, Last(features.value), Last(data).date, days))
  }

  /** Forecast rows fall on consecutive days. */
  lemma ForecastDatesConsecutive(model: ModelState, features: Option<seq<FeatureRow>>, data: seq<Bar>, days: int)
    requires Forecast(model, features, data, days).Some?
    ensures var rows := Forecast(model, features, data, days).value;
      forall j :: 0 <= j < |rows| - 1 ==> rows[j + 1].date == AddDays(rows[j].date, 1)
    ensures var rows := Forecast(model, features, data, days).value;
      rows != [] ==> rows[0].date == AddDays(Last(data).date, 1)
  {
  }

  // ---------------------------------------------------------- the predictor

  /** `StockPredictor`: a price history and the state the pipeline steps build on it. */
  class StockPredictor {
    var data: seq<Bar>
    var model: ModelState
    var features: Option<seq<FeatureRow>>
    var target: Option<seq<real>>
    var split: Option<Split>

    constructor (data: seq<Bar>)
      ensures this.data == data && model == NoModel
      ensures features.None? && target.None? && split.None?
    {
      this.data := data;
      model := NoModel;
      features := None;
      target := None;
      split := None;
    }

    /** `prepare_data`: sort by date, derive the feature columns and keep the complete rows. */
    method PrepareData(stdev: seq<real> -> real) returns (x: Option<seq<FeatureRow>>, y: Option<seq<real>>)
      modifies this
      ensures features == Some(FeatureTable(data, stdev)) && target == Some(TargetOf(data))
      ensures x == features && y == target
      ensures data == old(data) && model == old(model) && split == old(split)
    {
      features := Some(FeatureTable(data, stdev));
      target := Some(TargetOf(data));
      x, y := features, target;
    }

    /** `split_data`: False, and nothing assigned, before `prepare_data` or when the split raises. */
    method SplitData() returns (ok: bool)
      modifies this
      ensures old(features).None? || old(target).None? ==> !ok && split == old(split)
      ensures old(features).Some? && old(target).Some? ==>
        var s := SplitOf(old(features).value, old(target).value);
        ok == s.Some? && split == (if s.Some? then s else old(split))
      ensures data == old(data) && model == old(model) && features == old(features) && target == old(target)
    {
      if features.None? || target.None? {
        return false;
      }
      var s := SplitOf(features.value, target.value);
      if s.None? {
        return false;
      }
      split := s;
      ok := true;
    }

    /**
     * `train_linear_regression` / `train_random_forest`: without a split,
     * None and nothing changes; otherwise the estimator is installed before
     * it is fitted, so a fit that raises leaves an unfitted model behind.
     */
    method Train(name: string, fit: (seq<FeatureRow>, seq<real>) -> Option<FeatureRow -> real>,
                 r2: (seq<real>, seq<real>) -> real)
      returns (metrics: Option<Metrics>)
      modifies this
      ensures data == old(data) && features == old(features) && target == old(target) && split == old(split)
      ensures split.None? ==> metrics.None? && model == old(model)
      ensures split.Some? && fit(split.value.xTrain, split.value.yTrain).None? ==>
        metrics.None? && model == Unfitted
      ensures split.Some? && fit(split.value.xTrain, split.value.yTrain).Some? ==>
        var f := fit(split.value.xTrain, split.value.yTrain).value;
        model == Fitted(f) && metrics == Some(MetricsOf(name, f, split.value, r2))
    {
      if split.None? {
        return None;
      }
      model := Unfitted;
      var fitted := fit(split.value.xTrain, split.value.yTrain);
      if fitted.None? {
        return None;
      }
      model := Fitted(fitted.value);
      var trainPredictions := Apply(fitted.value, split.value.xTrain);
      var testPredictions := Apply(fitted.value, split.value.xTest);
      metrics := Some(Metrics(Some(name), r2(split.value.yTrain, trainPredictions),
                              Some(r2(split.value.yTest, testPredictions)),
                              trainPredictions, testPredictions));
    }

    /**
     * `predict_future`: from the last feature row, predict one day at a
     * time, dating each prediction i days after the last date of the
     * history as given, and feed each prediction back as the moving
     * averages of the next step.
     */
    method PredictFuture(days: int) returns (r: Option<seq<PredictionRow>>)
      ensures r == Forecast(model, features, data, days)
    {
      if model.NoModel? {
        return None;
      }
      if features.None? || features.value == [] || data == [] {
        return None;
      }
      var base := Last(features.value);
      var lastRow := base;
      var lastDate := Last(data).date;
      var predictions: seq<real> := [];
      var dates: seq<Instant> := [];
      var i := 1;
      while i <= days
        invariant 1 <= i <= (if days > 0 then days else 0) + 1
        invariant |predictions| == i - 1 && |dates| == i - 1
        invariant model.Fitted? || i == 1
        invariant model.Fitted? ==> predictions == ForecastPrices(model.predict, base, i - 1)
        invariant lastRow == if i == 1 then base else WithMovingAverages(base, Last(predictions))
        invariant forall j :: 0 <= j < |dates| ==> dates[j] == AddDays(lastDate, j + 1)
      {
        if model.Unfitted? {
          return None;
        }
        var futureFeatures := lastRow.(days := lastRow.days + i);
        assert futureFeatures == StepFeatures(base, i, if i == 1 then None else Some(Last(predictions)));
        var predicted := model.predict(futureFeatures);
        predictions := predictions + [predicted];
        dates := dates + [AddDays(lastDate, i)];
        lastRow := WithMovingAverages(lastRow, predicted);
        i := i + 1;
      }
      r := Some(seq(|predictions|, j requires 0 <= j < |predictions| => PredictionRow(dates[j], predictions[j])));
      if days > 0 {
        assert r.value == ForecastRows(model.predict, base, lastDate, days);
      } else {
        assert r.value == [];
      }
    }
  }

  // ---------------------------------------------------------- the pipeline

  /** The learner and the model name `create_prediction_pipeline` picks for a model type. */
  function LearnerFor(modelType: string,
                      linear: (seq<FeatureRow>, seq<real>) -> Option<FeatureRow -> real>,
                      forest: (seq<FeatureRow>, seq<real>) -> Option<FeatureRow -> real>)
    : (choice: ((seq<FeatureRow>, seq<real>) -> Option<FeatureRow -> real>, string))
    ensures modelType == "linear" ==> choice.1 == "Linear Regression"
    ensures modelType != "linear" ==> choice.1 == "Random Forest"
  {
    if modelType == "linear" then (linear, "Linear Regression") else (forest, "Random Forest")
  }

  /**
   * `create_prediction_pipeline`: prepare, split, train and forecast
   * PREDICTION_DAYS days; any failing step makes the whole result absent.
   */
  method CreatePredictionPipeline(data: seq<Bar>, modelType: string,
                                  linear: (seq<FeatureRow>, seq<real>) -> Option<FeatureRow -> real>,
                                  forest: (seq<FeatureRow>, seq<real>) -> Option<FeatureRow -> real>,
                                  r2: (seq<real>, seq<real>) -> real, stdev: seq<real> -> real)
    returns (predictor: StockPredictor?, metrics: Option<Metrics>, future: Option<seq<PredictionRow>>)
    ensures predictor == null <==> metrics.None?
    ensures predictor == null ==> future.None?
    ensures SplitOf(FeatureTable(data, stdev), TargetOf(data)).None? ==> predictor == null
    ensures SplitOf(FeatureTable(data, stdev), TargetOf(data)).Some? ==>
      var s := SplitOf(FeatureTable(data, stdev), TargetOf(data)).value;
      var learner := LearnerFor(modelType, linear, forest);
      (learner.0(s.xTrain, s.yTrain).None? ==> predictor == null) &&
      (learner.0(s.xTrain, s.yTrain).Some? ==>
         var f := learner.0(s.xTrain, s.yTrain).value;
         metrics == Some(MetricsOf(learner.1, f, s, r2)) &&
         future == Forecast(Fitted(f), Some(FeatureTable(data, stdev)), data, PREDICTION_DAYS) &&
         future.Some? && |future.value| == PREDICTION_DAYS)
  {
    var p := new StockPredictor(data);
    var x, y := p.PrepareData(stdev);
    if x.None? || y.None? {
      return null, None, None;
    }
    var ok := p.SplitData();
    if !ok {
      return null, None, None;
    }
    var learner := LearnerFor(modelType, linear, forest);
    var m := p.Train(learner.1, learner.0, r2);
    if m.None? {
      return null, None, None;
    }
    var f := p.PredictFuture(PREDICTION_DAYS);
    predictor, metrics, future := p, m, f;
  }

  // ----------------------------------------------------------- confidence

  datatype ConfidenceLevel = High | Moderate | Low | VeryLow | Unknown

  datatype Confidence = Confidence(confidence: ConfidenceLevel, color: string, r2Score: real)

  /** Position of a level from the top. */
  function Rank(c: ConfidenceLevel): nat {
    match c
    case High => 0
    case Moderate => 1
    case Low => 2
    case VeryLow => 3
    case Unknown => 4
  }

  /**
   * `calculate_prediction_confidence`: the test R^2 (0 when absent) against
   * the thresholds 0.8, 0.6 and 0.4; Unknown when there are no metrics.
   */
  function PredictionConfidence(metrics: Option<Metrics>): (c: Confidence)
    ensures metrics.None? ==> c == Confidence(Unknown, "gray", 0.0)
    ensures metrics.Some? ==> c.r2Score == metrics.value.testR2.GetOr(0.0)
    ensures metrics.Some? ==> (c.confidence == High <==> c.r2Score >= 0.8)
    ensures metrics.Some? ==> (c.confidence == Moderate <==> 0.6 <= c.r2Score < 0.8)
    ensures metrics.Some? ==> (c.confidence == Low <==> 0.4 <= c.r2Score < 0.6)
    ensures metrics.Some? ==> (c.confidence == VeryLow <==> c.r2Score < 0.4)
  {
    match metrics
    case None => Confidence(Unknown, "gray", 0.0)
    case Some(m) =>
      var r2 := m.testR2.GetOr(0.0);
      if r2 >= 0.8 then Confidence(High, "green", r2)
      else if r2 >= 0.6 then Confidence(Moderate, "orange", r2)
      else if r2 >= 0.4 then Confidence(Low, "red", r2)
      else Confidence(VeryLow, "darkred", r2)
  }

  /** Metrics without a test R^2 are rated Very Low. */
  lemma MissingR2IsVeryLow(m: Metrics)
    requires m.testR2.None?
    ensures PredictionConfidence(Some(m)).confidence == VeryLow
    ensures PredictionConfidence(Some(m)).r2Score == 0.0
  {
  }

  /** A better test score never gives a lower confidence. */
  lemma ConfidenceMonotone(m1: Metrics, m2: Metrics)
    requires m1.testR2.GetOr(0.0) <= m2.testR2.GetOr(0.0)
    ensures Rank(PredictionConfidence(Some(m2)).confidence) <= Rank(PredictionConfidence(Some(m1)).confidence)
  {
  }

  // -------------------------------------------------------------- summary

  /** `(to - from) / from * 100`; undefined (an infinity in numpy) when `from` is zero. */
  function PercentChange(from: real, to: real): (r: Option<real>)
    ensures r.None? <==> from == 0.0
    ensures r.Some? ==> r.value * from == (to - from) * 100.0
  {
    if from == 0.0 then None else Some((to - from) / from * 100.0)
  }

  datatype PredictionSummary = PredictionSummary(currentPrice: real, predicted7Days: Option<real>,
                                                 predicted30Days: real, change7Days: Option<real>,
                                                 change30Days: Option<real>, modelAccuracy: real,
                                                 modelName: string)

  /**
   * `format_prediction_summary`: None without forecast rows or without
   * metrics. The 7-day value is the seventh row when there is one, the
   * 30-day value the last row; a 7-day value of 0 has no change.
   */
  function FormatPredictionSummary(metrics: Option<Metrics>, future: Option<seq<PredictionRow>>,
                                   currentPrice: real): (r: Option<PredictionSummary>)
    ensures r.None? <==> future.None? || future.value == [] || metrics.None?
    ensures r.Some? ==> r.value.currentPrice == currentPrice
    ensures r.Some? ==> (r.value.predicted7Days.Some? <==> |future.value| >= 7)
    ensures r.Some? && |future.value| >= 7 ==> r.value.predicted7Days.value == future.value[6].predictedClose
    ensures r.Some? ==> r.value.predicted30Days == Last(future.value).predictedClose
    ensures r.Some? ==> (r.value.change7Days.Some? <==>
      r.value.predicted7Days.Some? && r.value.predicted7Days.value != 0.0 && currentPrice != 0.0)
    ensures r.Some? && r.value.change7Days.Some? ==>
      r.value.change7Days.value * currentPrice == (r.value.predicted7Days.value - currentPrice) * 100.0
    ensures r.Some? ==> r.value.change30Days == PercentChange(currentPrice, r.value.predicted30Days)
    ensures r.Some? ==> r.value.modelAccuracy == metrics.value.testR2.GetOr(0.0)
    ensures r.Some? ==> r.value.modelName == metrics.value.modelName.GetOr("Unknown")
  {
    if future.None? || future.value == [] || metrics.None? then None
    else
      var rows := future.value;
      var pred7: Option<real> := if |rows| >= 7 then Some(rows[6].predictedClose) else None;
      var pred30 := Last(rows).predictedClose;
      var change7 := if pred7.Some? && pred7.value != 0.0 then PercentChange(currentPrice, pred7.value) else None;
      Some(PredictionSummary(currentPrice, pred7, pred30, change7, PercentChange(currentPrice, pred30),
                             metrics.value.testR2.GetOr(0.0), metrics.value.modelName.GetOr("Unknown")))
  }

  /** The summary of a full 30-day forecast reports its seventh and thirtieth rows. */
  lemma SummaryOfFullForecast(metrics: Metrics, rows: seq<PredictionRow>, currentPrice: real)
    requires |rows| == PREDICTION_DAYS
    ensures var s := FormatPredictionSummary(Some(metrics), Some(rows), currentPrice);
      s.Some? && s.value.predicted7Days == Some(rows[6].predictedClose) &&
      s.value.predicted30Days == rows[29].predictedClose
  {
  }

  // --------------------------------------------- moving-average forecast

  /** A forecast point whose price is NaN when the trend is. */
  datatype TrendPoint = TrendPoint(date: Instant, predictedClose: Option<real>)

  /** `rolling(window=w).mean()` over the whole column. */
  function RollingMeans(xs: seq<real>, w: nat): (ma: Series)
    ensures |ma| == |xs|
    ensures forall i :: 0 <= i < |xs| ==> ma[i] == RollingMean(xs, w, i)
  {
    seq(|xs|, i requires 0 <= i < |xs| => RollingMean(xs, w, i))
  }

  /** The slope between the first and last of the last w moving averages, divided by how many there are. */
  function SmaTrend(closes: seq<real>, w: nat): (t: Option<real>)
    requires w > 0 && closes != []
    ensures var recent := RecentMeans(closes, w);
      (t.Some? <==> recent[0].Some? && Last(recent).Some?) &&
      (t.Some? ==> t.value == (Last(recent).value - recent[0].value) / (|recent| as real))
  {
    var recent := RecentMeans(closes, w);
    Slope(recent[0], Last(recent), |recent|)
  }

  /** The last w moving averages of the close column (all of them when there are fewer). */
  function RecentMeans(closes: seq<real>, w: nat): (recent: Series)
    requires w > 0 && closes != []
    ensures recent != [] && recent == Tail(RollingMeans(closes, w), w)
  {
    Tail(RollingMeans(closes, w), w)
  }

  /** Rise from `first` to `last` per point of a stretch of `count` points; NaN when either end is. */
  function Slope(first: Option<real>, last: Option<real>, count: nat): (t: Option<real>)
    requires count > 0
    ensures t.Some? <==> first.Some? && last.Some?
    ensures t.Some? ==> t.value * (count as real) == last.value - first.value
  {
    if first.Some? && last.Some? then Some((last.value - first.value) / (count as real)) else None
  }

  /** The trend is defined exactly when the history holds at least 2w - 1 closes. */
  lemma SmaTrendDefinedIff(closes: seq<real>, w: nat)
    requires w > 0 && closes != []
    ensures SmaTrend(closes, w).Some? <==> |closes| >= 2 * w - 1
  {
    WindowEndsDefined(RollingMeans(closes, w), w);
  }

  /**
   * In a column defined from row w - 1 on, the first and last of its last w
   * entries are both defined exactly when the column has 2w - 1 rows or more.
   */
  lemma WindowEndsDefined(means: Series, w: nat)
    requires w > 0 && means != []
    requires forall i :: 0 <= i < |means| ==> (means[i].Some? <==> w <= i + 1)
    ensures Tail(means, w)[0].Some? && Last(Tail(means, w)).Some? <==> |means| >= 2 * w - 1
  {
    var n := |means|;
    var recent := Tail(means, w);
    assert recent[0] == means[n - |recent|];
    assert Last(recent) == means[n - 1];
  }

  /** `last_price + trend * i`, NaN when the trend is. */
  function TrendPrice(lastPrice: real, trend: Option<real>, i: int): Option<real> {
    if trend.Some? then Some(lastPrice + trend.value * (i as real)) else None
  }

  /** n points on the days after `lastDate`, the i-th (from 1) at `lastPrice + trend * i`. */
  function TrendPoints(lastDate: Instant, lastPrice: real, trend: Option<real>, n: nat): (pts: seq<TrendPoint>)
    ensures |pts| == n
    ensures forall j :: 0 <= j < n ==>
      pts[j] == TrendPoint(AddDays(lastDate, j + 1), TrendPrice(lastPrice, trend, j + 1))
  {
    seq(n, j requires 0 <= j < n => TrendPoint(AddDays(lastDate, j + 1), TrendPrice(lastPrice, trend, j + 1)))
  }

  /** One more day appends one more point. */
  lemma TrendPointsExtend(lastDate: Instant, lastPrice: real, trend: Option<real>, n: nat)
    ensures TrendPoints(lastDate, lastPrice, trend, n + 1) ==
      TrendPoints(lastDate, lastPrice, trend, n) + [TrendPoint(AddDays(lastDate, n + 1), TrendPrice(lastPrice, trend, n + 1))]
  {
  }

  /**
   * What `simple_moving_average_prediction(data, window, periods)`
   * returns: None for an empty history or a window that is not positive
   * (`tail` of it is empty); otherwise max(periods, 0) points.
   */
  function SmaForecast(data: seq<Bar>, window: int, periods: int): (r: Option<seq<TrendPoint>>)
    ensures r.None? <==> data == [] || window <= 0
    ensures r.Some? ==> |r.value| == if periods > 0 then periods else 0
  {
    if data == [] || window <= 0 then None
    else
      Some(TrendPoints(Last(data).date, Last(data).close, SmaTrend(Closes(data), window),
                       if periods > 0 then periods else 0))
  }

  /** `simple_moving_average_prediction`: extend the last close by the trend, one day at a time. */
  method SimpleMovingAveragePrediction(data: seq<Bar>, window: int, periods: int)
    returns (r: Option<seq<TrendPoint>>)
    ensures r == SmaForecast(data, window, periods)
  {
    if data == [] || window <= 0 {
      return None;
    }
    var trend := SmaTrend(Closes(data), window);
    var points := ProjectTrend(Last(data).date, Last(data).close, trend, periods);
    r := Some(points);
  }

  /** The forecast loop of `simple_moving_average_prediction`: day i is priced at `lastPrice + trend * i`. */
  method ProjectTrend(lastDate: Instant, lastPrice: real, trend: Option<real>, periods: int)
    returns (points: seq<TrendPoint>)
    ensures points == TrendPoints(lastDate, lastPrice, trend, if periods > 0 then periods else 0)
  {
    points := [];
    var i := 1;
    while i <= periods
      invariant 1 <= i <= (if periods > 0 then periods else 0) + 1
      invariant points == TrendPoints(lastDate, lastPrice, trend, i - 1)
    {
      var predictedPrice := TrendPrice(lastPrice, trend, i);
      TrendPointsExtend(lastDate, lastPrice, trend, i - 1);
      points := points + [TrendPoint(AddDays(lastDate, i), predictedPrice)];
      i := i + 1;
    }
  }

  /**
   * Prices that start one trend step above `start` and in which points
   * j < l differ by exactly (l - j) trend steps.
   */
  predicate Arithmetic(r: seq<TrendPoint>, start: real, t: real) {
    (|r| > 0 ==> r[0].predictedClose == Some(start + t)) &&
    forall j, l :: 0 <= j < l < |r| ==>
      r[l].predictedClose.Some? && r[j].predictedClose.Some? &&
      r[l].predictedClose.value - r[j].predictedClose.value == t * ((l - j) as real)
  }

  lemma TrendPointsArithmetic(lastDate: Instant, lastPrice: real, t: real, n: nat)
    ensures Arithmetic(TrendPoints(lastDate, lastPrice, Some(t), n), lastPrice, t)
  {
    var r := TrendPoints(lastDate, lastPrice, Some(t), n);
    forall j, l | 0 <= j < l < n
      ensures r[l].predictedClose.Some? && r[j].predictedClose.Some? &&
              r[l].predictedClose.value - r[j].predictedClose.value == t * ((l - j) as real)
    {
      var a, b := (l + 1) as real, (j + 1) as real;
      assert r[l].predictedClose.value == lastPrice + t * a;
      assert r[j].predictedClose.value == lastPrice + t * b;
      assert t * a - t * b == t * (a - b);
    }
    if n > 0 {
      assert r[0].predictedClose == Some(lastPrice + t * 1.0);
    }
  }

  /**
   * With a defined trend, the moving-average forecast starts one trend
   * above the last close and climbs by exactly one trend per day.
   */
  lemma SmaForecastIsArithmetic(data: seq<Bar>, window: int, periods: int)
    requires SmaForecast(data, window, periods).Some?
    requires SmaTrend(Closes(data), window).Some?
    ensures Arithmetic(SmaForecast(data, window, periods).value, Last(data).close,
                       SmaTrend(Closes(data), window).value)
  {
    var trend := SmaTrend(Closes(data), window);
    var n := if periods > 0 then periods else 0;
    assert SmaForecast(data, window, periods).value == TrendPoints(Last(data).date, Last(data).close, trend, n);
    assert trend == Some(trend.value);
    TrendPointsArithmetic(Last(data).date, Last(data).close, trend.value, n);
  }
  /** A flat close history has a zero trend wherever the trend is defined. */
  lemma FlatTrendIsZero(closes: seq<real>, c: real, w: nat)
    requires w > 0 && closes != []
    requires forall k :: 0 <= k < |closes| ==> closes[k] == c
    ensures SmaTrend(closes, w).None? || SmaTrend(closes, w) == Some(0.0)
  {
    var means := RollingMeans(closes, w);
    FlatRollingMeans(closes, c, w);
    DefinedEndsEqual(means, c, w);
    var recent := RecentMeans(closes, w);
    if SmaTrend(closes, w).Some? {
      assert recent[0] == Some(c) && Last(recent) == Some(c);
      assert (c - c) / (|recent| as real) == 0.0;
    }
  }

  /** On a flat column every defined rolling mean is the column's value. */
  lemma FlatRollingMeans(closes: seq<real>, c: real, w: nat)
    requires forall k :: 0 <= k < |closes| ==> closes[k] == c
    ensures forall k :: 0 <= k < |closes| && RollingMeans(closes, w)[k].Some? ==>
      RollingMeans(closes, w)[k] == Some(c)
  {
    forall k | 0 <= k < |closes| && RollingMeans(closes, w)[k].Some?
      ensures RollingMeans(closes, w)[k] == Some(c)
    {
      FlatRollingMean(closes, c, w, k);
    }
  }

  /** When every defined entry of a column is c, so are the defined ends of its last w entries. */
  lemma DefinedEndsEqual(means: Series, c: real, w: nat)
    requires means != [] && w > 0
    requires forall k :: 0 <= k < |means| && means[k].Some? ==> means[k] == Some(c)
    ensures Tail(means, w)[0].Some? ==> Tail(means, w)[0] == Some(c)
    ensures Last(Tail(means, w)).Some? ==> Last(Tail(means, w)) == Some(c)
  {
    var recent := Tail(means, w);
    assert recent[0] == means[|means| - |recent|];
    assert Last(recent) == means[|means| - 1];
  }

  /** On a flat price history, every defined forecast point is the last close. */
  lemma FlatHistoryForecastIsFlat(data: seq<Bar>, window: int, periods: int)
    requires SmaForecast(data, window, periods).Some?
    requires forall k :: 0 <= k < |data| ==> data[k].close == Last(data).close
    ensures forall j :: 0 <= j < |SmaForecast(data, window, periods).value| ==>
      SmaForecast(data, window, periods).value[j].predictedClose in {None, Some(Last(data).close)}
  {
    var closes := Closes(data);
    FlatTrendIsZero(closes, Last(data).close, window);
    var n := if periods > 0 then periods else 0;
    assert SmaForecast(data, window, periods).value ==
      TrendPoints(Last(data).date, Last(data).close, SmaTrend(closes, window), n);
    FlatTrendPoints(Last(data).date, Last(data).close, SmaTrend(closes, window), n);
  }

  /** A zero or undefined trend projects every point at the last price, or NaN. */
  lemma FlatTrendPoints(lastDate: Instant, lastPrice: real, trend: Option<real>, n: nat)
    requires trend.None? || trend == Some(0.0)
    ensures forall j :: 0 <= j < n ==>
      TrendPoints(lastDate, lastPrice, trend, n)[j].predictedClose in {None, Some(lastPrice)}
  {
  }

}
