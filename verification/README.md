# Stock market analysis core, modelled in Dafny

This project models the deterministic analysis layer of a stock market
dashboard (kartikeya1911/StockMarket). The Streamlit pages sit on top of it.
It covers:

- **Technical indicator signals.** RSI, MACD, Bollinger and
  Golden/Death-Cross signals read the last one or two points of an
  indicator series. On-Balance Volume, support/resistance levels and the
  Average True Range are computed from OHLCV bars.
- **The portfolio manager.** An ordered table of purchase rows that is
  added to, removed from, updated and cleared in place. The table is valued
  against live prices: per-row gain, totals, allocation percentages, best
  and worst performer, and concentration risk.
- **News sentiment.** A polarity is classified, a list of articles is
  aggregated into counts, percentages and an overall label, and the result
  becomes a market outlook.
- **Price forecasting.** The feature table is built from a price history
  (sorted by date, warm-up rows dropped). The train/test split is
  chronological. The forecast is recurrent: each prediction is fed back as
  the next step's moving averages. It also covers R² confidence bands, the
  forecast summary, and the moving-average trend extrapolation.
- **Number helpers.** K/M/B/T and lakh/crore unit selection, the
  day-over-day change of a quote, and lagged returns.
- **Configuration.** Indicator thresholds and the period-to-date-range
  mapping.

Modules, one per source file:

- `Common` (common.dfy): optional values standing for NaN/None, instants,
  bars, and NaN-aware comparisons.
- `Config` (config.dfy)
- `Indicators` (indicators.dfy)
- `Portfolio` (portfolio.dfy)
- `Sentiment` (sentiment.dfy)
- `StockData` (stock_data.dfy)
- `Prediction` (prediction.dfy)

Conventions:

- A pandas NaN or a Python None is `None` of `Option<real>`. A comparison
  with a NaN operand is false, as in Python.
- A timestamp is a whole number of seconds.
- Every external dependency is a parameter of the operation that uses it:
  ticker validation, company names, live prices, the outcome of saving the
  portfolio file, the text-polarity model, the regression learners, the R²
  score, the rolling standard deviation and the clock.

`PortfolioManager` and `StockPredictor` are classes whose methods update
their fields. The loops of the source are loops here too:

- the OBV running sum
- the portfolio valuation loop
- the article-scoring loop
- the recurrent forecast loop
- the moving-average extrapolation loop

Each loop is proved against a specification function. The lemmas then state
the promised properties about those functions.

Where the code and the written description of the system disagree, the
model follows the code:

- `add_stock` appends a new row even for a ticker already held. It never
  merges lots.
- Every table-editing operation changes the in-memory table before saving.
  It returns the save outcome, so a failed save leaves the change in memory.

## Model

| member | source | states |
|---|---|---|
| Config.PeriodDays | config.py:182-195 | The six named periods map to 30, 90, 180, 365, 730 and 1825 days. Any other string, "max" included, maps to 3650. |
| Config.GetDateRange | config.py:180-197 | The end is the given clock reading. The start lies exactly PeriodDays(period) days before it, so start < end. |
| Config.TimePeriodsHandled | config.py:49-57 | Every entry of the period selector is a named span or "max". "max" falls to the ten-year default. |
| Config.TimePeriodsLengthen | config.py:49-57 | Each later selector entry asks for a strictly longer history. |
| Config.ThresholdsOrdered | config.py:79-90 | RSI oversold 30 < overbought 70; MA short 50 < long 200; MACD fast 12 < slow 26. |
| Common.Tail | utils/indicators.py:402-403 | `tail(n)` keeps min(n, length) elements, and they are the last ones, in order. |
| Indicators.RsiSignal | utils/indicators.py:205-225 | Missing RSI gives insufficient data. ≥ 70 gives Overbought/red, ≤ 30 Oversold/green, strictly between Neutral/gray. Each holds iff its condition does. |
| Indicators.RsiSignalMonotone | utils/indicators.py:208-225 | A higher reading never moves the signal towards oversold. |
| Indicators.MacdSignal | utils/indicators.py:237-280 | No data gives insufficient data, and an unreadable last position gives an error. A histogram turning up is Bullish Crossover; turning down is Bearish Crossover. Otherwise macd > signal gives Bullish, else Bearish (equality and NaN included). Each holds iff its condition does. |
| Indicators.MacdZeroHistogramNoCrossover | utils/indicators.py:247-263 | A zero histogram on either of the last two bars is never a crossover. |
| Indicators.MacdSinglePointNoCrossover | utils/indicators.py:247-277 | A one-point series is classified by the line comparison alone. |
| Indicators.BollingerSignal | utils/indicators.py:293-328 | Price ≥ upper is Overbought (tested first). Then ≤ lower is Oversold, > middle is Above Average, and anything else is Below Average. Each holds iff its condition does. |
| Indicators.BollingerMonotone | utils/indicators.py:302-325 | With ordered bands, a higher price never moves the signal down the scale. |
| Indicators.MovingAverageSignal | utils/indicators.py:341-384 | Golden Cross iff short < long on the previous bar and short > long on the last. Death Cross iff the mirror image holds. On non-empty series with no cross, the result is Bullish Trend/green when short > long on the last bar and Bearish Trend/red otherwise (equality and NaN included). A missing series gives insufficient data and an empty one an error. |
| Indicators.AboveOnBothBarsNoGoldenCross | utils/indicators.py:350-381 | Short strictly above long on both bars gives Bullish Trend, never Golden Cross. |
| Indicators.AboveThroughoutIsBullishTrend | utils/indicators.py:350-381 | Short above long everywhere gives Bullish Trend. |
| Indicators.CalculateObv | utils/indicators.py:454-466 | The loop returns None on an empty history. Otherwise it returns one value per row, starting at 0, equal to the running sum ObvAt. |
| Indicators.ObvStep | utils/indicators.py:456-462 | Each OBV step is +volume, −volume or 0 as the close rises, falls or holds. |
| Indicators.ObvBounded | utils/indicators.py:455-462 | With non-negative volumes, \|OBV\| never exceeds the volume traded after the first row. |
| Indicators.HighestBar | utils/indicators.py:406 | The position of a high that no high of the stretch exceeds. |
| Indicators.LowestBar | utils/indicators.py:407 | The position of a low that no low of the stretch undercuts. |
| Indicators.SupportResistance | utils/indicators.py:400-416 | Levels are defined iff there is data and the window is positive. The all-time high and low are the whole history's largest high and smallest low. Resistance is the largest high of the last `window` bars and support their smallest low. Resistance ≤ all-time high, support ≥ all-time low, and every bar of the window lies within [support, resistance]. |
| Indicators.RecentWithinHistory | utils/indicators.py:402-407 | The window's extremes bound its bars and lie within the whole history's extremes. |
| Indicators.SupportBelowResistance | utils/indicators.py:402-403 | If no bar has low above high, then support ≤ resistance. |
| Indicators.Atr | utils/indicators.py:430-441 | One value per row. It is defined iff the window is positive and full, and it is then the mean true range of the window. |
| Indicators.TrueRange | utils/indicators.py:431-436 | On the first row, high − low. Later, the largest of high − low, \|high − previous close\| and \|low − previous close\|: it bounds all three and equals one of them. |
| Indicators.TrueRangeCoversSpread | utils/indicators.py:431-436 | A row's true range is at least its high−low spread. |
| Indicators.SumTrueRangeCoversSpread | utils/indicators.py:431-438 | Summed true ranges cover the summed spreads. |
| Indicators.AtrCoversMeanSpread | utils/indicators.py:431-438 | A defined ATR is at least the window's mean spread, and therefore never negative on well-formed bars. |
| Portfolio.ToUpperIdempotent | utils/portfolio.py:115 | Upper-casing a stored ticker again changes nothing. |
| Portfolio.NewRow | utils/portfolio.py:104-121 | The appended row carries the upper-cased ticker, and total investment = quantity × purchase price. |
| Portfolio.PercentOf | utils/portfolio.py:227 | The percentage is 0 when the base is not positive. |
| Portfolio.PercentOfScalesBack | utils/portfolio.py:227 | With a positive base, percent × base = gain × 100. |
| Portfolio.DetailOf | utils/portfolio.py:218-243 | Value = quantity × price, where a missing price counts as 0. Gain = value − investment, and gain % = PercentOf(gain, investment). |
| Portfolio.Details | utils/portfolio.py:213-243 | One valuation row per table row, in table order. |
| Portfolio.SumsAppend | utils/portfolio.py:229-230 | Appending a row adds its investment and value to the running totals. |
| Portfolio.SummaryOf | utils/portfolio.py:197-259 | An empty table gives the all-zero summary without details. Otherwise the totals are the column sums of the valuation table, total gain = value − investment, and total_stocks = row count. |
| Portfolio.SumGainIsValueMinusInvestment | utils/portfolio.py:226-246 | Summed row gains = summed values − summed investments. |
| Portfolio.SummaryGainIsRowGains | utils/portfolio.py:226-246 | The summary's total gain is the sum of the row gains. |
| Portfolio.Allocation | utils/portfolio.py:272-285 | None without details. Otherwise each row's percent × total = value × 100, or 0 for every row when the total is not positive. |
| Portfolio.SumAllocationScales | utils/portfolio.py:281-283 | Summed percentages × total = summed values × 100. |
| Portfolio.AllocationSumsTo100 | utils/portfolio.py:281-283 | With a positive total, the allocation percentages add up to 100. |
| Portfolio.BestIndex | utils/portfolio.py:309-311 | A row whose gain % no row exceeds. |
| Portfolio.WorstIndex | utils/portfolio.py:309-312 | A row whose gain % no row undercuts. |
| Portfolio.BestWorstOf | utils/portfolio.py:298-327 | Defined iff there are rows. Best and worst are rows of the table, and every row's gain % lies between theirs. |
| Portfolio.SingleHoldingIsBestAndWorst | utils/portfolio.py:309-312 | One row makes best and worst the same entry. |
| Portfolio.PortfolioManager.constructor | utils/portfolio.py:26-29 | The manager holds the loaded table. |
| Portfolio.PortfolioManager.AddStock | utils/portfolio.py:96-131 | An invalid ticker gives False and leaves the table unchanged. Otherwise exactly one row (NewRow) is appended, the old rows stay as they were even when they have the same ticker, and the result is the save outcome. |
| Portfolio.PortfolioManager.RemoveStock | utils/portfolio.py:143-153 | An index outside [0, len) gives False and changes nothing. Otherwise exactly that row is removed and the others keep their order. |
| Portfolio.PortfolioManager.UpdateStock | utils/portfolio.py:167-188 | A bad index gives False and changes nothing. Otherwise only that row changes: omitted fields keep their values and total investment = quantity × price. |
| Portfolio.PortfolioManager.ClearPortfolio | utils/portfolio.py:339-348 | The table becomes empty, and the result is the save outcome. |
| Portfolio.PortfolioManager.GetPortfolioSummary | utils/portfolio.py:197-259 | The accumulation loop returns SummaryOf(table, prices). |
| Portfolio.PortfolioManager.GetPortfolioAllocation | utils/portfolio.py:272-285 | It returns the allocation of the table's summary. |
| Portfolio.PortfolioManager.GetBestWorstPerformers | utils/portfolio.py:298-327 | It returns best/worst of the table's summary. |
| Portfolio.ClearedSummaryIsZero | utils/portfolio.py:340-344 | After clearing, the summary is the all-zero one with total_stocks = 0. |
| Portfolio.RiskLevelOf | utils/portfolio.py:384-389 | Max allocation > 40 gives High, > 25 Moderate, and anything else Low (a NaN maximum included). |
| Portfolio.CurrentPrice | utils/portfolio.py:218-219 | The live price of a ticker the price map holds, otherwise 0. |
| Portfolio.MaxValue | utils/portfolio.py:382 | The largest current value of the table. |
| Portfolio.WeightedAverageGain | utils/portfolio.py:372-379 | With a positive total, weighted gain × total = Σ(gain % × value); otherwise 0. |
| Portfolio.MaxAllocation | utils/portfolio.py:382 | With a positive total and rows, the largest value's share of the total, in percent. 0 when the total is not positive, NaN for an empty table. |
| Portfolio.MaxAllocationBoundsEveryRow | utils/portfolio.py:382 | Every row's value × 100 is at most the largest allocation × total. |
| Portfolio.CalculatePortfolioMetrics | utils/portfolio.py:364-399 | None without details. Otherwise: weighted gain × total = Σ(gain % × value) when total > 0, else 0. With a positive total and rows, the max allocation is MaxValue / total × 100 and bounds every row's share. It is 0 when total ≤ 0 and NaN for an empty table. The risk band is that of the max allocation. |
| Portfolio.MetricsReportLargestShare | utils/portfolio.py:382-389 | With a positive total, the reported max allocation is the largest holding's share, and the risk band is read off that share. |
| Portfolio.WeightedGainOfConstant | utils/portfolio.py:374-377 | Equal gain percentages p give a weighted sum of p × total value. |
| Portfolio.WeightedAverageOfEqualGains | utils/portfolio.py:374-379 | When every holding gains p %, the weighted average gain is p. |
| Portfolio.SumValueAtMostCountTimesMax | utils/portfolio.py:382 | The total value is at most n × the largest value. |
| Portfolio.FewHoldingsAreConcentrated | utils/portfolio.py:382-389 | Max allocation × n ≥ 100, so one or two holdings are always High risk. |
| Sentiment.Classify | utils/sentiment.py:47-52 | Positive iff polarity > 0.1; Negative iff < −0.1; Neutral iff within [−0.1, 0.1]. |
| Sentiment.AnalyzeText | utils/sentiment.py:30-66 | Blank text scores (0, 0, Neutral, 0) without calling the model. Otherwise the model's polarity and subjectivity are passed through, with the category from Classify and confidence = \|polarity\|. A raising model gives None. |
| Sentiment.ArticleText | utils/sentiment.py:87 | The title and description, joined by one space; a missing key reads as empty. |
| Sentiment.EmptyArticleIsNeutral | utils/sentiment.py:31-37 | An article with neither title nor description scores as blank text. |
| Sentiment.ScoresOf | utils/sentiment.py:85-93 | It keeps only the articles the model could score, so there are never more scores than articles. |
| Sentiment.CategoriesOf | utils/sentiment.py:92 | The categories of the scores, in order. |
| Sentiment.PolaritiesOf | utils/sentiment.py:93 | The polarities of the scores, in order. |
| Sentiment.CountOf | utils/sentiment.py:102-104 | `list.count` never exceeds the length. |
| Sentiment.Overall | utils/sentiment.py:107-112 | Positive iff it strictly beats both other counts, and likewise Negative. Any tie is Neutral. |
| Sentiment.SharesSumTo100 | utils/sentiment.py:121-123 | The shares of a three-way partition add up to 100. |
| Sentiment.ShareScales | utils/sentiment.py:121-123 | share × total = count × 100. |
| Sentiment.ShareOfWhole | utils/sentiment.py:121 | The whole is 100 %. |
| Sentiment.ShareAbove60IsMajority | utils/sentiment.py:121-123 | A share above 60 % strictly beats both other parts. |
| Sentiment.AggregateOfScores | utils/sentiment.py:99-124 | The counts are the category counts, the overall label is Overall of them, and avg_polarity is the mean. Percentages are count / number scored × 100, and total_articles is the article count. |
| Sentiment.AggregateOf | utils/sentiment.py:78-128 | None iff there are no articles or none could be scored. Otherwise it is the aggregate of the scores. |
| Sentiment.AnalyzeNewsArticles | utils/sentiment.py:68-128 | The scoring loop returns AggregateOf(articles). |
| Sentiment.CountsPartition | utils/sentiment.py:102-104 | The three counts add up to the list length. |
| Sentiment.AggregateCountsSum | utils/sentiment.py:102-120 | The counts add up to the number of scored articles, which is at most total_articles. |
| Sentiment.AggregatePercentsSumTo100 | utils/sentiment.py:121-123 | The three percentages add up to 100. |
| Sentiment.CountOfConstant | utils/sentiment.py:102 | A list of one category counts its full length. |
| Sentiment.AllPositiveIsPositive | utils/sentiment.py:107-121 | All scored articles Positive gives overall Positive at 100 %. |
| Sentiment.Recommend | utils/sentiment.py:141-180 | None iff there is no data. Positive > 60 % gives Bullish, otherwise Positive gives Moderately Bullish. Likewise Negative gives Bearish or Moderately Bearish, and Neutral gives Neutral. Each holds iff its condition does. The colours are green, lightgreen, red, orange and gray respectively. |
| Sentiment.StrongPositiveCoverageIsBullish | utils/sentiment.py:148-153 | More than 60 % positive coverage always yields Bullish. |
| Sentiment.StrongNegativeCoverageIsBearish | utils/sentiment.py:160-165 | More than 60 % negative coverage always yields Bearish. |
| StockData.FormatLargeNumber | utils/stock_data.py:308-324 | 0 gives "0". Otherwise the unit is T, B, M, K or none by \|num\| thresholds (each iff), and magnitude × unit = num. |
| StockData.ShortNumberMagnitude | utils/stock_data.py:313-322 | A displayed magnitude lies in [1, 1000) (T unbounded above, no-unit below 1). |
| StockData.ShortNumberOfNegation | utils/stock_data.py:313-322 | Negation keeps the unit and negates the magnitude. |
| StockData.FormatCurrency | utils/stock_data.py:338-347 | Crore iff amount ≥ 1e7, lakh iff 1e5 ≤ amount < 1e7, plain otherwise (negatives included). value × unit = amount. |
| StockData.CurrencyValueRange | utils/stock_data.py:340-343 | Lakh amounts read in [1, 100); crore amounts read ≥ 1. |
| StockData.CurrencyUnitMonotone | utils/stock_data.py:340-345 | A larger amount never takes a smaller unit. |
| StockData.Get | utils/stock_data.py:164-166 | `dict.get` returns the stored value (a stored None included), or the default. |
| StockData.RealtimeQuote | utils/stock_data.py:164-180 | Current = regularMarketPrice, else currentPrice, else 0; previous close defaults to 0. The result is None iff either looked-up value is a stored None, as the subtraction then raises. Otherwise change = current − previous close, and percent × previous = change × 100, or 0 when the previous close is 0 or missing. |
| StockData.EmptyQuoteIsZero | utils/stock_data.py:164-170 | A quote with none of the three fields reads as a flat price of 0. |
| StockData.QuoteChangeSign | utils/stock_data.py:169-170 | With a positive previous close, the percentage has the sign of the change. |
| StockData.ReturnLag | utils/stock_data.py:364-371 | weekly → 5, monthly → 21, anything else → 1. |
| StockData.PctChange | utils/stock_data.py:365 | Undefined iff the previous close is 0. Otherwise r × previous = current − previous. |
| StockData.PctChanges | utils/stock_data.py:365-371 | The first lag rows are NaN; row i compares i with i − lag. |
| StockData.CalculateReturns | utils/stock_data.py:361-373 | None iff the data is missing or empty. Otherwise the lagged returns of the closes. |
| StockData.UnknownPeriodIsDaily | utils/stock_data.py:370-371 | An unknown period name gives the daily returns. |
| StockData.FlatPriceHasZeroReturns | utils/stock_data.py:365-369 | A constant nonzero price has zero return wherever one is defined. |
| Prediction.DayOfWeek | models/prediction.py:67 | Day of week is in 0..6. |
| Prediction.NextDayOfWeek | models/prediction.py:67 | The next day's weekday is one later, Sunday (6) wrapping to Monday (0). |
| Prediction.Month | models/prediction.py:68 | The month of the timestamp, in 1..12. |
| Prediction.DayOfYearRange | models/prediction.py:68 | The year-of-era step of the calendar conversion leaves a day of the year in 0..365. |
| Prediction.EpochIsThursdayInJanuary | models/prediction.py:67-68 | The epoch day, 1970-01-01, is weekday 3 (Thursday, with Monday 0) in month 1. |
| Prediction.MonthBoundaries1970 | models/prediction.py:68 | Day 31 (1 February 1970) is in month 2 and day 59 (1 March 1970) in month 3. |
| Prediction.InsertByDate | models/prediction.py:52 | Inserting into a date-sorted list keeps it sorted and adds exactly that bar. |
| Prediction.SortByDate | models/prediction.py:52 | The result is date-sorted and a permutation of the input. |
| Prediction.InsertLatest | models/prediction.py:52 | A bar not earlier than all others goes last. |
| Prediction.SortedIsUnchanged | models/prediction.py:52 | A history already in date order is unchanged. |
| Prediction.RollingMean | models/prediction.py:58-60 | The rolling mean is defined iff a full positive window ends at the row, and then it is the sum of the window's w closes divided by w. |
| Prediction.SumOfConstant | models/prediction.py:58-60 | A stretch of equal values c adds up to its length × c. |
| Prediction.FlatRollingMean | models/prediction.py:58-60 | On a flat column, every defined rolling mean equals the column's value. |
| Prediction.FlatRollingMeans | models/prediction.py:436 | On a flat column, every defined entry of the rolling-mean column equals the column's value. |
| Prediction.DailyReturn | models/prediction.py:62 | NaN on the first row; otherwise the percent change from the previous close. |
| Prediction.DropnaKeepsWarmedUp | models/prediction.py:58-71 | A row has every derived column iff it has 19 predecessors and a nonzero previous close. |
| Prediction.KeptIndices | models/prediction.py:71 | Exactly the warmed-up rows, in increasing order. |
| Prediction.FeatureRowAt | models/prediction.py:55-81 | A kept row's Days is its position in the sorted history. |
| Prediction.FeatureTable | models/prediction.py:52-83 | One 12-column row per kept row. Days equals the sorted position (≥ 19) and strictly increases. |
| Prediction.TargetOf | models/prediction.py:84 | The target is the close of each kept row, aligned with the features. |
| Prediction.KeptIndicesWithoutZeroCloses | models/prediction.py:58-71 | With no zero close, exactly the first 19 rows are dropped. |
| Prediction.FeatureTableWithoutZeroCloses | models/prediction.py:52-83 | n bars give max(0, n − 19) feature rows with Days 19, 20, … |
| Prediction.SplitOf | models/prediction.py:108-113 | None iff the lengths differ or no training row is left. Otherwise train ++ test is the whole table, with ceil(n/5) test rows. |
| Prediction.TestRowsFollowTrainingRows | models/prediction.py:108-113 | Every test row's Days exceeds every training row's. |
| Prediction.SplitNeedsTwentyOneBars | models/prediction.py:103-119 | With no zero close, the split succeeds iff there are at least 21 bars. |
| Prediction.Apply | models/prediction.py:138-139 | `predict` maps the regressor over the rows. |
| Prediction.MetricsOf | models/prediction.py:137-152 | Metrics carry the model name. The train and test predictions are the regressor applied to each train and test row, in order. Train R² is r2(y_train, train predictions) and test R² is r2(y_test, test predictions). |
| Prediction.StepFeatures | models/prediction.py:235-250 | Step i has Days = last Days + i. After step 1, MA_5/10/20 are the previous prediction. Every other feature is the last row's. |
| Prediction.ForecastPrices | models/prediction.py:233-250 | k steps give k prices. |
| Prediction.ForecastPricesPrefix | models/prediction.py:233-250 | A longer horizon only extends a shorter one. |
| Prediction.ForecastFirstStep | models/prediction.py:233-239 | Step 1 predicts from the last feature row with Days + 1 and every other feature, the moving averages included, unchanged. |
| Prediction.ForecastFeedsBack | models/prediction.py:246-250 | Step i + 1 is fed the prediction of step i. |
| Prediction.ForecastRows | models/prediction.py:242-256 | Row j is dated j + 1 days after the last date. |
| Prediction.Forecast | models/prediction.py:219-262 | None iff there is no model, no feature row or no data, or the estimator is unfitted and a day is asked for. Otherwise exactly max(days, 0) rows. For a fitted model, row j is dated j + 1 days after the input's last date, and its price is the j-th recurrent prediction from the last feature row. |
| Prediction.ForecastDatesConsecutive | models/prediction.py:243-244 | Forecast rows fall on consecutive days, the first one day after the input's last date. |
| Prediction.StockPredictor.constructor | models/prediction.py:22-37 | It keeps the history, with no model, features, target or split. |
| Prediction.StockPredictor.PrepareData | models/prediction.py:50-86 | Features and target become FeatureTable/TargetOf of the history; nothing else changes. |
| Prediction.StockPredictor.SplitData | models/prediction.py:103-119 | False with nothing assigned before prepare_data or when the split raises. Otherwise the chronological split is stored. |
| Prediction.StockPredictor.Train | models/prediction.py:128-158 | No split gives None and changes nothing. Otherwise the estimator is installed before fitting. A failed fit gives None and leaves it unfitted. A successful fit stores the regressor and returns its metrics. |
| Prediction.StockPredictor.PredictFuture | models/prediction.py:219-262 | The forecast loop returns Forecast(model, features, data, days). |
| Prediction.LearnerFor | models/prediction.py:316-319 | "linear" picks Linear Regression; anything else picks Random Forest. |
| Prediction.CreatePredictionPipeline | models/prediction.py:291-331 | A failed prepare, split or fit gives (None, None, None). Otherwise the metrics of the chosen learner and a 30-row forecast. |
| Prediction.PredictionConfidence | models/prediction.py:344-378 | test R² (0 when missing) ≥ 0.8 gives High, ≥ 0.6 Moderate, ≥ 0.4 Low, else Very Low. No metrics gives Unknown. |
| Prediction.MissingR2IsVeryLow | models/prediction.py:345 | A missing test R² is rated Very Low with score 0. |
| Prediction.ConfidenceMonotone | models/prediction.py:348-363 | A better test R² never lowers the confidence. |
| Prediction.PercentChange | models/prediction.py:402-403 | Undefined iff the base is 0. Otherwise r × base = (to − base) × 100. |
| Prediction.FormatPredictionSummary | models/prediction.py:393-418 | None iff there are no rows or no metrics. The 7-day value is row 6 iff there are ≥ 7 rows. The 30-day value is the last row. change_7 is None iff the 7-day value is missing or 0. The model name defaults to "Unknown" and the accuracy to 0. |
| Prediction.SummaryOfFullForecast | models/prediction.py:398-399 | A 30-row forecast reports rows 6 and 29. |
| Prediction.RollingMeans | models/prediction.py:436 | The rolling mean of every row. |
| Prediction.SmaTrend | models/prediction.py:436-440 | Over the last w moving averages: defined iff the first and last are, and then (last − first) / count. |
| Prediction.Slope | models/prediction.py:440 | The trend is defined iff both ends are, and trend × count = last − first. |
| Prediction.SmaTrendDefinedIff | models/prediction.py:436-440 | The trend is defined iff the history holds ≥ 2w − 1 closes. |
| Prediction.WindowEndsDefined | models/prediction.py:439-440 | The first and last of the last w averages are both defined iff there are ≥ 2w − 1 rows. |
| Prediction.TrendPoints | models/prediction.py:449-452 | Point i (from 1) is dated i days on, at last + trend × i. |
| Prediction.TrendPointsExtend | models/prediction.py:449-452 | One more period appends one more point. |
| Prediction.SmaForecast | models/prediction.py:434-460 | None iff the data is empty or the window is not positive. Otherwise max(periods, 0) points. |
| Prediction.SimpleMovingAveragePrediction | models/prediction.py:421-460 | The method returns SmaForecast(data, window, periods). |
| Prediction.ProjectTrend | models/prediction.py:446-452 | The loop returns TrendPoints for max(periods, 0) days. |
| Prediction.TrendPointsArithmetic | models/prediction.py:449-450 | Prices start one trend above the last close. Points j < l differ by (l − j) × trend. |
| Prediction.SmaForecastIsArithmetic | models/prediction.py:436-452 | With a defined trend, the forecast climbs by exactly one trend per day from the last close. |
| Prediction.DefinedEndsEqual | models/prediction.py:439-440 | When every defined entry of a column is c, so are the defined first and last of its last w entries. |
| Prediction.FlatTrendIsZero | models/prediction.py:436-440 | A flat close history has a zero trend wherever the trend is defined. |
| Prediction.FlatTrendPoints | models/prediction.py:446-452 | A zero or undefined trend projects every point at the last price, or NaN. |
| Prediction.FlatHistoryForecastIsFlat | models/prediction.py:436-452 | On a flat price history, every forecast point is the last close, or NaN. |

## Left out

- The third-party indicator computations (SMA, EMA, RSI, MACD, Bollinger Bands, in utils/indicators.py:34-193) are not modelled. Their outputs are input series. So the RSI range [0, 100] is not assumed.
- Signal messages, colours beyond the returned colour name, and the `"{:.2f}"`/`"{:,.2f}"` digit rendering of the number formatters are left out. A formatted number is modelled as the scaled value and its unit.
- File I/O is left out: creating, loading and saving the portfolio CSV, and `export_portfolio_report`. A save is a boolean parameter. A table that failed to load (None) is not representable.
- Network access is left out: the yfinance-backed `StockDataFetcher`, the news fetcher and the live quote fetch. Ticker validity, company names and prices are parameters.
- sklearn is left out: fitting, RMSE/MAE, `feature_importances_`, `get_feature_importance`, and the unused `MinMaxScaler`. A learner is a function parameter; R² and the rolling standard deviation are too. TextBlob is a parameter returning polarity and subjectivity.
- `calculate_volatility` (utils/stock_data.py:376-391) is floating-point statistics (rolling std × √252) and is not modelled.
- Portfolio.ToUpper: only ASCII letters are upper-cased, and only the length is stated. Blank text recognises the six ASCII whitespace characters only.
- Sentiment.ArticleText: a key that is present with the value None renders as the text "None" in Python. The model treats it like a missing key.
- Prediction.SortByDate: pandas' default sort is not stable. The model uses a stable insertion sort, so the order of bars with equal dates may differ.
- Prediction.DayOfWeek and Prediction.Month read timestamps as UTC; time zones are not modelled. A history without a Date column is not representable, so the feature table always has the 12 columns.
- Prediction.StockPredictor.PrepareData never fails in the model: the exceptions pandas could raise on malformed frames are not modelled.
- StockData.PctChange and Prediction.DailyReturn: pandas gives ±inf after a zero close, and `dropna` keeps that row. The model treats the change as undefined, so such a row is dropped. Infinities are outside the real-number model.
- Prediction.PercentChange: with a current price of 0, Python floats raise (and the summary becomes None), while numpy floats give an infinity. The model makes just that change undefined.
- Prediction.MetricsOf: the R² score is an opaque parameter, so a NaN R² on a one-row test set is not distinguished.
- Indicators.Atr: `rolling(window=0)` is modelled as undefined everywhere.
- Indicators.MacdSignal and Indicators.BollingerSignal: an empty dictionary, a None `macd` column and a None `upper` column are "no data". A None `signal`, `histogram`, `middle` or `lower` column (which raises, giving "Error analyzing") is not representable, and neither is a missing key (KeyError).
- Concurrency, Streamlit session state and the UI pages are not modelled.
