/**
 * Portfolio tracking: an ordered table of purchase rows kept by a manager
 * object, and its valuation against live prices (per-row gain, totals,
 * allocation, best and worst performers, concentration risk).
 *
 * Ticker validation, company-name lookup, live prices and the outcome of
 * writing the table to disk are supplied by the caller.
 */
module Portfolio {
  import opened Common

  /** One purchase row of the table (columns of the portfolio file). */
  datatype Row = Row(ticker: string, companyName: string, quantity: real,
                     purchasePrice: real, purchaseDate: string, totalInvestment: real)

  /** `str.upper()` on one character (ASCII letters). */
  function UpperChar(c: char): char {
    if 'a' <= c <= 'z' then (c as int - 'a' as int + 'A' as int) as char else c
  }

  /** `str.upper()` (ASCII letters). */
  function ToUpper(s: string): (u: string)
    ensures |u| == |s|
  {
    seq(|s|, i requires 0 <= i < |s| => UpperChar(s[i]))
  }

  /** Upper-casing a ticker twice changes nothing further. */
  lemma ToUpperIdempotent(s: string)
    ensures ToUpper(ToUpper(s)) == ToUpper(s)
  {
  }

  /** The row `add_stock` appends. */
  function NewRow(ticker: string, companyName: Option<string>, quantity: real,
                  purchasePrice: real, purchaseDate: string): (r: Row)
    ensures r.ticker == ToUpper(ticker)
    ensures r.totalInvestment == r.quantity * r.purchasePrice
  {
    Row(ToUpper(ticker), companyName.GetOr(ticker), quantity, purchasePrice,
        purchaseDate, quantity * purchasePrice)
  }

  /** Live price of a ticker; a failed lookup counts as 0. */
  function CurrentPrice(prices: map<string, real>, ticker: string): (p: real)
    ensures ticker in prices ==> p == prices[ticker]
    ensures ticker !in prices ==> p == 0.0
  {
    if ticker in prices then prices[ticker] else 0.0
  }

  /** One row of the valuation table. */
  datatype Detail = Detail(ticker: string, companyName: string, quantity: real,
                           purchasePrice: real, currentPrice: real, purchaseDate: string,
                           investment: real, currentValue: real, gainLoss: real,
                           gainLossPercent: real)

  /** `gain / base * 100`, or 0 when the base is not positive. */
  function PercentOf(gain: real, base: real): (p: real)
    ensures base <= 0.0 ==> p == 0.0
  {
    if base > 0.0 then gain / base * 100.0 else 0.0
  }

  /** A percentage taken of a positive base scales back to the gain. */
  lemma PercentOfScalesBack(gain: real, base: real)
    requires base > 0.0
    ensures PercentOf(gain, base) * base == gain * 100.0
  {
  }

  /** Valuation of one purchase row at the current price. */
  function DetailOf(row: Row, prices: map<string, real>): (d: Detail)
    ensures d.currentValue == row.quantity * CurrentPrice(prices, row.ticker)
    ensures d.investment == row.totalInvestment
    ensures d.gainLoss == d.currentValue - d.investment
    ensures d.gainLossPercent == PercentOf(d.gainLoss, d.investment)
  {
    var price := CurrentPrice(prices, row.ticker);
    var value := row.quantity * price;
    var gain := value - row.totalInvestment;
    Detail(row.ticker, row.companyName, row.quantity, row.purchasePrice, price,
           row.purchaseDate, row.totalInvestment, value, gain, PercentOf(gain, row.totalInvestment))
  }

  function Details(rows: seq<Row>, prices: map<string, real>): (ds: seq<Detail>)
    ensures |ds| == |rows|
    ensures forall i :: 0 <= i < |rows| ==> ds[i] == DetailOf(rows[i], prices)
  {
    seq(|rows|, i requires 0 <= i < |rows| => DetailOf(rows[i], prices))
  }

  // Column sums, accumulated from the first row on.

  function SumInvestment(ds: seq<Detail>): real {
    if ds == [] then 0.0 else SumInvestment(ds[..|ds| - 1]) + Last(ds).investment
  }

  function SumValue(ds: seq<Detail>): real {
    if ds == [] then 0.0 else SumValue(ds[..|ds| - 1]) + Last(ds).currentValue
  }

  function SumGain(ds: seq<Detail>): real {
    if ds == [] then 0.0 else SumGain(ds[..|ds| - 1]) + Last(ds).gainLoss
  }

  lemma SumsAppend(ds: seq<Detail>, d: Detail)
    ensures SumInvestment(ds + [d]) == SumInvestment(ds) + d.investment
    ensures SumValue(ds + [d]) == SumValue(ds) + d.currentValue
  {
    assert (ds + [d])[..|ds|] == ds;
  }

  /** The summary dictionary; `details` is None for an empty table. */
  datatype Summary = Summary(totalStocks: nat, totalInvestment: real, currentValue: real,
                             totalGainLoss: real, totalGainLossPercent: real,
                             details: Option<seq<Detail>>)

  /**
   * A summary whose totals are the column sums of its own valuation table,
   * as `get_portfolio_summary` builds it for a non-empty table.
   */
  predicate Consistent(s: Summary) {
    s.details.Some? &&
    s.totalStocks == |s.details.value| &&
    s.totalInvestment == SumInvestment(s.details.value) &&
    s.currentValue == SumValue(s.details.value) &&
    s.totalGainLoss == s.currentValue - s.totalInvestment &&
    s.totalGainLossPercent == PercentOf(s.totalGainLoss, s.totalInvestment)
  }

  /** What `get_portfolio_summary` reports for a table at the given prices. */
  function SummaryOf(rows: seq<Row>, prices: map<string, real>): (s: Summary)
    ensures s.totalStocks == |rows|
    ensures rows == [] ==> s == Summary(0, 0.0, 0.0, 0.0, 0.0, None)
    ensures rows != [] ==> Consistent(s) && s.details.value == Details(rows, prices)
  {
    if rows == [] then Summary(0, 0.0, 0.0, 0.0, 0.0, None)
    else
      var ds := Details(rows, prices);
      var inv, value := SumInvestment(ds), SumValue(ds);
      Summary(|rows|, inv, value, value - inv, PercentOf(value - inv, inv), Some(ds))
  }

  /** The sum of the per-row gains is the total gain. */
  lemma {:induction false} SumGainIsValueMinusInvestment(ds: seq<Detail>)
    requires forall i :: 0 <= i < |ds| ==> ds[i].gainLoss == ds[i].currentValue - ds[i].investment
    ensures SumGain(ds) == SumValue(ds) - SumInvestment(ds)
  {
    if ds != [] {
      SumGainIsValueMinusInvestment(ds[..|ds| - 1]);
    }
  }

  /** The total gain of a summary is the sum of its rows' gains. */
  lemma SummaryGainIsRowGains(rows: seq<Row>, prices: map<string, real>)
    requires rows != []
    ensures SummaryOf(rows, prices).totalGainLoss == SumGain(SummaryOf(rows, prices).details.value)
  {
    SumGainIsValueMinusInvestment(Details(rows, prices));
  }

  // ------------------------------------------------------------ allocation

  /** The columns `get_portfolio_allocation` returns for one row. */
  datatype AllocationRow = AllocationRow(ticker: string, companyName: string,
                                         currentValue: real, allocationPercent: real)

  /** Each row's share of the total current value, in percent (0 throughout when the total is not positive). */
  function Allocation(s: Summary): (r: Option<seq<AllocationRow>>)
    ensures r.None? <==> s.details.None?
    ensures r.Some? ==> |r.value| == |s.details.value|
    ensures r.Some? ==> forall i :: 0 <= i < |r.value| ==>
      r.value[i].ticker == s.details.value[i].ticker &&
      r.value[i].currentValue == s.details.value[i].currentValue &&
      (s.currentValue > 0.0 ==> r.value[i].allocationPercent * s.currentValue == r.value[i].currentValue * 100.0) &&
      (s.currentValue <= 0.0 ==> r.value[i].allocationPercent == 0.0)
  {
    if s.details.None? then None
    else
      var ds := s.details.value;
      Some(seq(|ds|, i requires 0 <= i < |ds| =>
        AllocationRow(ds[i].ticker, ds[i].companyName, ds[i].currentValue,
                      if s.currentValue > 0.0 then ds[i].currentValue / s.currentValue * 100.0 else 0.0)))
  }

  function SumAllocation(rs: seq<AllocationRow>): real {
    if rs == [] then 0.0 else SumAllocation(rs[..|rs| - 1]) + Last(rs).allocationPercent
  }

  lemma {:induction false} SumAllocationScales(rs: seq<AllocationRow>, ds: seq<Detail>, total: real)
    requires total > 0.0 && |rs| == |ds|
    requires forall i :: 0 <= i < |rs| ==> rs[i].allocationPercent * total == ds[i].currentValue * 100.0
    ensures SumAllocation(rs) * total == SumValue(ds) * 100.0
  {
    if rs != [] {
      var n := |rs| - 1;
      SumAllocationScales(rs[..n], ds[..n], total);
      assert ds[..n] == ds[..|ds| - 1];
      calc {
        SumAllocation(rs) * total;
        SumAllocation(rs[..n]) * total + rs[n].allocationPercent * total;
        SumValue(ds[..n]) * 100.0 + ds[n].currentValue * 100.0;
        SumValue(ds) * 100.0;
      }
    }
  }

  /** When the portfolio is worth something, the allocation percentages add up to 100. */
  lemma AllocationSumsTo100(s: Summary)
    requires Consistent(s) && s.currentValue > 0.0
    ensures SumAllocation(Allocation(s).value) == 100.0
  {
    var rs := Allocation(s).value;
    SumAllocationScales(rs, s.details.value, s.currentValue);
    CancelPositive(SumAllocation(rs), 100.0, s.currentValue);
  }

  // ------------------------------------------------------ best and worst

  /** Position of a row with the highest gain percentage (first one on ties). */
  function BestIndex(ds: seq<Detail>): (k: nat)
    requires |ds| > 0
    ensures k < |ds|
    ensures forall i :: 0 <= i < |ds| ==> ds[i].gainLossPercent <= ds[k].gainLossPercent
  {
    if |ds| == 1 then 0
    else
      var rest := BestIndex(ds[1..]) + 1;
      assert forall i :: 1 <= i < |ds| ==> ds[i] == ds[1..][i - 1];
      if ds[0].gainLossPercent >= ds[rest].gainLossPercent then 0 else rest
  }

  /** Position of a row with the lowest gain percentage (first one on ties). */
  function WorstIndex(ds: seq<Detail>): (k: nat)
    requires |ds| > 0
    ensures k < |ds|
    ensures forall i :: 0 <= i < |ds| ==> ds[k].gainLossPercent <= ds[i].gainLossPercent
  {
    if |ds| == 1 then 0
    else
      var rest := WorstIndex(ds[1..]) + 1;
      assert forall i :: 1 <= i < |ds| ==> ds[i] == ds[1..][i - 1];
      if ds[0].gainLossPercent <= ds[rest].gainLossPercent then 0 else rest
  }

  datatype Performer = Performer(ticker: string, company: string, gainLossPercent: real, gainLoss: real)

  datatype BestWorst = BestWorst(best: Performer, worst: Performer)

  function PerformerOf(d: Detail): Performer {
    Performer(d.ticker, d.companyName, d.gainLossPercent, d.gainLoss)
  }

  /** The rows at the top and the bottom of the table sorted by gain percentage. */
  function BestWorstOf(s: Summary): (r: Option<BestWorst>)
    ensures r.Some? <==> s.details.Some? && s.details.value != []
    ensures r.Some? ==> forall d :: d in s.details.value ==>
      r.value.worst.gainLossPercent <= d.gainLossPercent <= r.value.best.gainLossPercent
    ensures r.Some? ==> exists i :: 0 <= i < |s.details.value| && r.value.best == PerformerOf(s.details.value[i])
    ensures r.Some? ==> exists i :: 0 <= i < |s.details.value| && r.value.worst == PerformerOf(s.details.value[i])
  {
    if s.details.None? || s.details.value == [] then None
    else
      var ds := s.details.value;
      Some(BestWorst(PerformerOf(ds[BestIndex(ds)]), PerformerOf(ds[WorstIndex(ds)])))
  }

  /** With a single holding, the best and the worst performer are the same entry. */
  lemma SingleHoldingIsBestAndWorst(rows: seq<Row>, prices: map<string, real>)
    requires |rows| == 1
    ensures BestWorstOf(SummaryOf(rows, prices)).Some?
    ensures BestWorstOf(SummaryOf(rows, prices)).value.best == BestWorstOf(SummaryOf(rows, prices)).value.worst
  {
  }

  // ---------------------------------------------------------- the manager

  /** `PortfolioManager`: the loaded table and the operations that edit it. */
  class PortfolioManager {
    var portfolio: seq<Row>

    /** A manager over the table read from the portfolio file. */
    constructor (loaded: seq<Row>)
      ensures portfolio == loaded
    {
      portfolio := loaded;
    }

    /**
     * `add_stock`: an invalid ticker is refused and nothing changes; otherwise
     * one row is appended (never merged with an existing row of the same
     * ticker) and the result is the outcome of saving the table.
     */
    method AddStock(ticker: string, quantity: real, purchasePrice: real, purchaseDate: Option<string>,
                    tickerValid: bool, companyName: Option<string>, today: string, saved: bool)
      returns (ok: bool)
      modifies this
      ensures !tickerValid ==> !ok && portfolio == old(portfolio)
      ensures tickerValid ==> ok == saved
      ensures tickerValid ==> |portfolio| == |old(portfolio)| + 1
      ensures tickerValid ==> portfolio[..|old(portfolio)|] == old(portfolio)
      ensures tickerValid ==>
        Last(portfolio) == NewRow(ticker, companyName, quantity, purchasePrice, purchaseDate.GetOr(today))
    {
      if !tickerValid {
        return false;
      }
      var row := NewRow(ticker, companyName, quantity, purchasePrice, purchaseDate.GetOr(today));
      portfolio := portfolio + [row];
      ok := saved;
    }

    /** `remove_stock`: drop the row at `index` and close the gap, keeping the order of the rest. */
    method RemoveStock(index: int, saved: bool) returns (ok: bool)
      modifies this
      ensures !(0 <= index < |old(portfolio)|) ==> !ok && portfolio == old(portfolio)
      ensures 0 <= index < |old(portfolio)| ==>
        ok == saved && portfolio == old(portfolio)[..index] + old(portfolio)[index + 1..]
    {
      if index < 0 || index >= |portfolio| {
        return false;
      }
      portfolio := portfolio[..index] + portfolio[index + 1..];
      ok := saved;
    }

    /**
     * `update_stock`: overwrite the given fields of the row at `index` and
     * recompute its total investment; no other row changes.
     */
    method UpdateStock(index: int, quantity: Option<real>, purchasePrice: Option<real>, saved: bool)
      returns (ok: bool)
      modifies this
      ensures !(0 <= index < |old(portfolio)|) ==> !ok && portfolio == old(portfolio)
      ensures 0 <= index < |old(portfolio)| ==> ok == saved && |portfolio| == |old(portfolio)|
      ensures 0 <= index < |old(portfolio)| ==>
        forall i :: 0 <= i < |portfolio| && i != index ==> portfolio[i] == old(portfolio)[i]
      ensures 0 <= index < |old(portfolio)| ==>
        var was, now := old(portfolio)[index], portfolio[index];
        now.quantity == quantity.GetOr(was.quantity) &&
        now.purchasePrice == purchasePrice.GetOr(was.purchasePrice) &&
        now.totalInvestment == now.quantity * now.purchasePrice &&
        now.ticker == was.ticker && now.companyName == was.companyName &&
        now.purchaseDate == was.purchaseDate
    {
      if index < 0 || index >= |portfolio| {
        return false;
      }
      var row := portfolio[index];
      if quantity.Some? {
        row := row.(quantity := quantity.value);
      }
      if purchasePrice.Some? {
        row := row.(purchasePrice := purchasePrice.value);
      }
      row := row.(totalInvestment := row.quantity * row.purchasePrice);
      portfolio := portfolio[index := row];
      ok := saved;
    }

    /** `clear_portfolio`: replace the table with an empty one. */
    method ClearPortfolio(saved: bool) returns (ok: bool)
      modifies this
      ensures portfolio == [] && ok == saved
    {
      portfolio := [];
      ok := saved;
    }

    /**
     * `get_portfolio_summary`: value every row at its current price and
     * accumulate the totals row by row.
     */
    method GetPortfolioSummary(prices: map<string, real>) returns (s: Summary)
      ensures s == SummaryOf(portfolio, prices)
    {
      if portfolio == [] {
        return Summary(0, 0.0, 0.0, 0.0, 0.0, None);
      }
      var details: seq<Detail> := [];
      var totalInvestment := 0.0;
      var totalCurrentValue := 0.0;
      var i := 0;
      while i < |portfolio|
        invariant 0 <= i <= |portfolio|
        invariant |details| == i
        invariant forall k :: 0 <= k < i ==> details[k] == DetailOf(portfolio[k], prices)
        invariant totalInvestment == SumInvestment(details)
        invariant totalCurrentValue == SumValue(details)
      {
        var row := portfolio[i];
        var currentPrice := CurrentPrice(prices, row.ticker);
        var currentValue := row.quantity * currentPrice;
        var gainLoss := currentValue - row.totalInvestment;
        var gainLossPercent := PercentOf(gainLoss, row.totalInvestment);
        totalInvestment := totalInvestment + row.totalInvestment;
        totalCurrentValue := totalCurrentValue + currentValue;
        var d := Detail(row.ticker, row.companyName, row.quantity, row.purchasePrice, currentPrice,
                        row.purchaseDate, row.totalInvestment, currentValue, gainLoss, gainLossPercent);
        assert d == DetailOf(row, prices);
        SumsAppend(details, d);
        details := details + [d];
        i := i + 1;
      }
      assert details == Details(portfolio, prices);
      var totalGainLoss := totalCurrentValue - totalInvestment;
      var totalGainLossPercent := PercentOf(totalGainLoss, totalInvestment);
      s := Summary(|portfolio|, totalInvestment, totalCurrentValue, totalGainLoss, totalGainLossPercent, Some(details));
    }

    /** `get_portfolio_allocation`: None for an empty table. */
    method GetPortfolioAllocation(prices: map<string, real>) returns (r: Option<seq<AllocationRow>>)
      ensures r == Allocation(SummaryOf(portfolio, prices))
    {
      var s := GetPortfolioSummary(prices);
      r := Allocation(s);
    }

    /** `get_best_worst_performers`: None for an empty table. */
    method GetBestWorstPerformers(prices: map<string, real>) returns (r: Option<BestWorst>)
      ensures r == BestWorstOf(SummaryOf(portfolio, prices))
    {
      var s := GetPortfolioSummary(prices);
      r := BestWorstOf(s);
    }
  }

  /** A manager after `clear_portfolio` reports the all-zero summary. */
  method ClearedSummaryIsZero(m: PortfolioManager, prices: map<string, real>, saved: bool)
    returns (s: Summary)
    modifies m
    ensures m.portfolio == []
    ensures s == Summary(0, 0.0, 0.0, 0.0, 0.0, None)
  {
    var _ := m.ClearPortfolio(saved);
    s := m.GetPortfolioSummary(prices);
  }

  // -------------------------------------------------------------- metrics

  datatype RiskLevel =
    | High       // "High - Portfolio is concentrated"
    | Moderate   // "Moderate - Consider more diversification"
    | Low        // "Low - Well diversified"

  /** Concentration band of the largest allocation; a NaN largest allocation compares false and lands in Low. */
  function RiskLevelOf(maxAllocation: Option<real>): (r: RiskLevel)
    ensures r == High <==> Gt(maxAllocation, Some(40.0))
    ensures r == Moderate <==> Gt(maxAllocation, Some(25.0)) && !Gt(maxAllocation, Some(40.0))
    ensures r == Low <==> !Gt(maxAllocation, Some(25.0))
  {
    if Gt(maxAllocation, Some(40.0)) then High
    else if Gt(maxAllocation, Some(25.0)) then Moderate
    else Low
  }

  datatype PortfolioMetrics = PortfolioMetrics(numStocks: nat, weightedAvgGain: real,
                                               maxAllocationPercent: Option<real>, riskLevel: RiskLevel)

  function SumWeightedGain(ds: seq<Detail>): real {
    if ds == [] then 0.0
    else SumWeightedGain(ds[..|ds| - 1]) + Last(ds).gainLossPercent * Last(ds).currentValue
  }

  /** Largest current value of a non-empty valuation table. */
  function MaxValue(ds: seq<Detail>): (m: real)
    requires ds != []
    ensures forall i :: 0 <= i < |ds| ==> ds[i].currentValue <= m
    ensures exists i :: 0 <= i < |ds| && ds[i].currentValue == m
  {
    if |ds| == 1 then ds[0].currentValue
    else
      var rest := MaxValue(ds[..|ds| - 1]);
      assert forall i :: 0 <= i < |ds| - 1 ==> ds[i] == ds[..|ds| - 1][i];
      if rest >= Last(ds).currentValue then rest else Last(ds).currentValue
  }

  /**
   * The largest allocation percentage: the largest value's share of the
   * total, 0 when the total is not positive, NaN for an empty table.
   */
  function MaxAllocation(ds: seq<Detail>, total: real): (a: Option<real>)
    ensures total <= 0.0 ==> a == Some(0.0)
    ensures total > 0.0 && ds == [] ==> a.None?
    ensures total > 0.0 && ds != [] ==> a == Some(MaxValue(ds) / total * 100.0)
  {
    if total <= 0.0 then Some(0.0)
    else if ds == [] then None
    else Some(MaxValue(ds) / total * 100.0)
  }

  /** The largest allocation bounds the allocation of every row. */
  lemma MaxAllocationBoundsEveryRow(ds: seq<Detail>, total: real)
    requires total > 0.0 && ds != []
    ensures forall i :: 0 <= i < |ds| ==>
      ds[i].currentValue * 100.0 <= MaxAllocation(ds, total).value * total
  {
    var m := MaxValue(ds);
    ShareScalesBack(m, total);
    assert MaxAllocation(ds, total).value * total == m * 100.0;
  }

  /** A share of a positive total, scaled back by that total, is the part times 100. */
  lemma ShareScalesBack(part: real, total: real)
    requires total > 0.0
    ensures part / total * 100.0 * total == part * 100.0
  {
  }

  /** The value-weighted mean gain percentage; 0 when the total is not positive. */
  function WeightedAverageGain(ds: seq<Detail>, total: real): (w: real)
    ensures total > 0.0 ==> w * total == SumWeightedGain(ds)
    ensures total <= 0.0 ==> w == 0.0
  {
    if total > 0.0 then SumWeightedGain(ds) / total else 0.0
  }

  /**
   * `calculate_portfolio_metrics`: the value-weighted mean gain percentage
   * and the largest allocation with its risk band. The largest value of an
   * empty table is NaN.
   */
  function CalculatePortfolioMetrics(summary: Option<Summary>): (m: Option<PortfolioMetrics>)
    ensures m.None? <==> summary.None? || summary.value.details.None?
    ensures m.Some? ==> m.value.numStocks == |summary.value.details.value|
    ensures m.Some? ==> m.value.riskLevel == RiskLevelOf(m.value.maxAllocationPercent)
    ensures m.Some? && summary.value.currentValue > 0.0 ==>
      m.value.weightedAvgGain * summary.value.currentValue == SumWeightedGain(summary.value.details.value)
    ensures m.Some? && summary.value.currentValue <= 0.0 ==>
      m.value.weightedAvgGain == 0.0 && m.value.maxAllocationPercent == Some(0.0)
    ensures m.Some? && summary.value.currentValue > 0.0 && summary.value.details.value != [] ==>
      var ds := summary.value.details.value;
      m.value.maxAllocationPercent.Some? &&
      forall i :: 0 <= i < |ds| ==>
        ds[i].currentValue * 100.0 <= m.value.maxAllocationPercent.value * summary.value.currentValue
    ensures m.Some? ==>
      m.value.maxAllocationPercent == MaxAllocation(summary.value.details.value, summary.value.currentValue)
    ensures m.Some? && summary.value.currentValue > 0.0 && summary.value.details.value == [] ==>
      m.value.maxAllocationPercent.None?
  {
    if summary.None? || summary.value.details.None? then None
    else
      var s := summary.value;
      var ds := s.details.value;
      var total := s.currentValue;
      var weighted := WeightedAverageGain(ds, total);
      var maxAllocation := MaxAllocation(ds, total);
      var metrics := PortfolioMetrics(|ds|, weighted, maxAllocation, RiskLevelOf(maxAllocation));
      if total > 0.0 && ds != [] then
        MaxAllocationBoundsEveryRow(ds, total);
        Some(metrics)
      else Some(metrics)
  }

  /**
   * With a positive total, the reported largest allocation is the largest
   * holding's share of the total, and the risk band is read off that share.
   */
  lemma MetricsReportLargestShare(s: Summary)
    requires s.details.Some? && s.details.value != [] && s.currentValue > 0.0
    ensures var m := CalculatePortfolioMetrics(Some(s)).value;
      var share := MaxValue(s.details.value) / s.currentValue * 100.0;
      m.maxAllocationPercent == Some(share) && m.riskLevel == RiskLevelOf(Some(share))
  {
  }

  lemma {:induction false} WeightedGainOfConstant(ds: seq<Detail>, p: real)
    requires forall i :: 0 <= i < |ds| ==> ds[i].gainLossPercent == p
    ensures SumWeightedGain(ds) == p * SumValue(ds)
  {
    if ds != [] {
      WeightedGainOfConstant(ds[..|ds| - 1], p);
    }
  }

  /** When every holding has the same gain percentage, the weighted average gain is that percentage. */
  lemma WeightedAverageOfEqualGains(s: Summary, p: real)
    requires Consistent(s) && s.currentValue > 0.0
    requires forall d :: d in s.details.value ==> d.gainLossPercent == p
    ensures CalculatePortfolioMetrics(Some(s)).value.weightedAvgGain == p
  {
    var ds := s.details.value;
    assert forall i :: 0 <= i < |ds| ==> ds[i] in ds;
    WeightedGainOfConstant(ds, p);
    var w := CalculatePortfolioMetrics(Some(s)).value.weightedAvgGain;
    assert w * s.currentValue == p * s.currentValue;
    CancelPositive(w, p, s.currentValue);
  }

  lemma {:induction false} SumValueAtMostCountTimesMax(ds: seq<Detail>, m: real)
    requires forall i :: 0 <= i < |ds| ==> ds[i].currentValue <= m
    ensures SumValue(ds) <= (|ds| as real) * m
  {
    if ds != [] {
      SumValueAtMostCountTimesMax(ds[..|ds| - 1], m);
    }
  }

  /**
   * The largest allocation is never below the even split 100/n, so a
   * portfolio of one or two holdings worth something is always rated High.
   */
  lemma FewHoldingsAreConcentrated(s: Summary)
    requires Consistent(s) && s.details.value != [] && s.currentValue > 0.0
    ensures CalculatePortfolioMetrics(Some(s)).value.maxAllocationPercent.value
              * (s.totalStocks as real) >= 100.0
    ensures s.totalStocks <= 2 ==> CalculatePortfolioMetrics(Some(s)).value.riskLevel == High
  {
    var ds := s.details.value;
    var total := s.currentValue;
    var mv := MaxValue(ds);
    SumValueAtMostCountTimesMax(ds, mv);
    var n := |ds| as real;
    var ma := CalculatePortfolioMetrics(Some(s)).value.maxAllocationPercent.value;
    assert ma == mv / total * 100.0;
    EvenSplitBound(total, mv, n, ma);
    if |ds| <= 2 {
      assert ma * 2.0 >= ma * n;
    }
  }

  /** Arithmetic core: total <= n * mv and ma = mv / total * 100 give ma * n >= 100. */
  lemma EvenSplitBound(total: real, mv: real, n: real, ma: real)
    requires total > 0.0 && n > 0.0 && total <= n * mv && ma == mv / total * 100.0
    ensures ma * n >= 100.0
  {
    assert ma * total == mv * 100.0;
    assert ma * n * total == mv * n * 100.0;
    assert mv * n * 100.0 >= total * 100.0;
    if ma * n < 100.0 {
      assert ma * n * total < 100.0 * total;
    }
  }
}
