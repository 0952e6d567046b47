/**
 What the reported numbers say, one by one, in terms of the rows of the frames and the configured basis points, and
 what a run that stays in cash reports.
 */
module MetricMeanings {
  import opened Trading
  import opened Wrappers
  import opened Aggregates
  import opened OrderCosts
  import opened RiskRules
  import opened RiskReasons
  import opened BacktestEngine
  import opened AuditReplay
  import opened ReplayFrames
  import opened ReplayTheorems
  import opened BacktestMetrics
  import opened BacktestResult
  import opened SessionOutcomes
  import ComparatorSignals

  /** The amounts of the fills added up, column by column. */
  function Totalled(fills: seq<FillRecord>): FillTotals {
    if fills == [] then
      FillTotals(0.0, 0.0, 0.0, 0.0, 0.0)
    else
      var t, f := Totalled(fills[..|fills| - 1]), fills[|fills| - 1];
      FillTotals(t.referenceNotional + f.referenceNotional, t.executionNotional + f.executionNotional,
                 t.commission + f.commission, t.slippageCost + f.slippageCost,
                 t.transactionCost + f.totalTransactionCost)
  }

  function EquityTotal(rows: seq<PortfolioRow>): real {
    if rows == [] then 0.0 else EquityTotal(rows[..|rows| - 1]) + rows[|rows| - 1].equity
  }

  /** The sessions that close with at least one share. */
  function HoldingSessions(rows: seq<PortfolioRow>): set<int> {
    set i | 0 <= i < |rows| && rows[i].shares >= 1
  }

  function ApprovedRows(decisions: seq<RiskDecision>): set<int> {
    set i | 0 <= i < |decisions| && decisions[i].approved
  }

  function RefusedRows(decisions: seq<RiskDecision>): set<int> {
    set i | 0 <= i < |decisions| && !decisions[i].approved
  }

  function RowsOn(side: Side, fills: seq<FillRecord>): set<int> {
    set i | 0 <= i < |fills| && fills[i].side == side
  }

  /** Where an account stood and what it did, row by row. */
  ghost predicate AccountReported(m: Metrics, rows: seq<PortfolioRow>) {
    && rows != []
    && var last := rows[|rows| - 1];
    && m.sessionCount == |rows| && m.initialCash == 10000.0
    && m.finalCash == last.cash && m.finalShares == last.shares
    && m.finalMarketValue == last.marketValue && m.finalEquity == last.equity
    && (1.0 + m.totalReturn) * 10000.0 == last.equity
    && (forall i :: 0 <= i < |rows| ==> rows[i].drawdown >= -m.maximumDrawdown)
    && (exists i :: 0 <= i < |rows| && rows[i].drawdown == -m.maximumDrawdown)
    && m.exposureFraction * (|rows| as real) == |HoldingSessions(rows)| as real
  }

  /** What was traded, and how the orders fared. */
  ghost predicate TradingReported(m: Metrics, frames: Frames) {
    && m.totals == Totalled(frames.fills)
    && m.turnoverRatio * EquityTotal(frames.portfolio)
    == (|frames.portfolio| as real) * Totalled(frames.fills).referenceNotional
    && m.proposedOrderCount == |frames.orders| == |frames.decisions|
    && m.approvedOrderCount == |ApprovedRows(frames.decisions)|
    && m.rejectedOrderCount == |RefusedRows(frames.decisions)|
    && m.fillCount == |frames.fills|
    && m.buyFillCount == |RowsOn(Buy, frames.fills)|
    && m.sellFillCount == |RowsOn(Sell, frames.fills)|
  }

  lemma {:induction false} TotalledIsTotals(fills: seq<FillRecord>)
    ensures Totalled(fills) == TotalsOf(fills)
  {
    if fills != [] {
      TotalledIsTotals(fills[..|fills| - 1]);
    }
  }

  lemma {:induction false} EquityTotalIsSum(rows: seq<PortfolioRow>)
    ensures EquityTotal(rows) == Sum(rows, Equity)
  {
    if rows != [] {
      EquityTotalIsSum(rows[..|rows| - 1]);
    }
  }

  lemma QuotientUndone(a: real, b: real)
    requires b != 0.0
    ensures a / b * b == a
  {
  }

  lemma TurnoverUndone(traded: real, total: real, n: real)
    requires n > 0.0 && total / n != 0.0
    ensures traded / (total / n) * total == n * traded
  {
    var mean := total / n;
    assert mean * n == total;
    assert traded / mean * mean == traded;
    assert traded / mean * (mean * n) == (traded / mean * mean) * n;
  }

  function IsRefused(d: RiskDecision): bool { !d.approved }

  lemma HoldingCounted(rows: seq<PortfolioRow>)
    ensures CountIf(rows, Holds) == |HoldingSessions(rows)|
  {
    CountIsCardinality(rows, Holds, HoldingSessions(rows));
  }

  lemma ExposureReported(rows: seq<PortfolioRow>)
    requires rows != []
    ensures (CountIf(rows, Holds) as real) / (|rows| as real) * (|rows| as real) == |HoldingSessions(rows)| as real
  {
    hide CountIf, HoldingSessions;
    HoldingCounted(rows);
    QuotientUndone(CountIf(rows, Holds) as real, |rows| as real);
  }

  lemma DrawdownReported(rows: seq<PortfolioRow>)
    requires PortfolioMeasured(rows)
    ensures var deepest := Abs(Least(Column(rows, Drawdown)));
            && (forall i :: 0 <= i < |rows| ==> rows[i].drawdown >= -deepest)
            && (exists i :: 0 <= i < |rows| && rows[i].drawdown == -deepest)
  {
    hide EquityBefore, PeakThrough, Chronological;
    var values := Column(rows, Drawdown);
    var least := Least(values);
    var i :| 0 <= i < |values| && values[i] == least;
    assert MetricRow(rows[i], EquityBefore(rows, i), PeakThrough(rows, i + 1));
    assert rows[i].drawdown == -Abs(least);
  }

  lemma OrdersReported(frames: Frames)
    requires SameNumbers(frames.orders, frames.decisions)
    ensures |frames.orders| == |frames.decisions|
    ensures CountIf(frames.decisions, IsApproved)
         == |ApprovedRows(frames.decisions)|
    ensures |frames.orders| - CountIf(frames.decisions, IsApproved)
         == |RefusedRows(frames.decisions)|
    ensures CountIf(frames.fills, IsBuy) == |RowsOn(Buy, frames.fills)|
    ensures CountIf(frames.fills, IsSell) == |RowsOn(Sell, frames.fills)|
  {
    hide CountIf, Column;
    var (orders, decisions, fills) := (frames.orders, frames.decisions, frames.fills);
    SameLength(Column(orders, OrderNumber), Column(decisions, DecisionNumber));
    CountIsCardinality(decisions, IsApproved, ApprovedRows(decisions));
    CountIsCardinality(decisions, IsRefused, RefusedRows(decisions));
    CountIsCardinality(fills, IsBuy, RowsOn(Buy, fills));
    CountIsCardinality(fills, IsSell, RowsOn(Sell, fills));
    CountSplits(decisions, IsApproved, IsRefused);
  }

  /** Every number the calculation reports. */
  lemma MetricsExactly(frames: Frames)
    requires CalculateMetrics(frames).Some?
    ensures AccountReported(CalculateMetrics(frames).value, frames.portfolio)
    ensures TradingReported(CalculateMetrics(frames).value, frames)
  {
    hide PortfolioMeasured, FillsMeasured, OrdersMeasured, DecisionsMeasured, SameNumbers, Sum, CountIf, Column, Least,
      TotalsOf, ValidMetrics, HoldingSessions, Totalled;
    assert frames.portfolio != [] by { Nonempty(frames.portfolio); }
    TotalledIsTotals(frames.fills);
    EquityTotalIsSum(frames.portfolio);
    ExposureReported(frames.portfolio);
    DrawdownReported(frames.portfolio);
    OrdersReported(frames);
    TurnoverUndone(Sum(frames.fills, ReferenceNotional), Sum(frames.portfolio, Equity), |frames.portfolio| as real);
    assert TotalsOf(frames.fills).referenceNotional == Sum(frames.fills, ReferenceNotional) by {
      ReferenceTotal(frames.fills);
    }
  }

  lemma Nonempty(rows: seq<PortfolioRow>)
    requires PortfolioMeasured(rows)
    ensures rows != []
  {
  }

  lemma ReferenceTotal(fills: seq<FillRecord>)
    ensures TotalsOf(fills).referenceNotional == Sum(fills, ReferenceNotional)
  {
  }

  // ---------------------------------------------------------------- the costs of an accepted result

  /** The fill belongs to a session of the inputs: made at its open, on the side its target asks for. */
  ghost predicate OfSession(f: FillRecord, signals: seq<SignalRow>, prices: seq<PriceRow>, j: nat)
    requires |signals| == |prices|
  {
    && j < |signals|
    && f.symbol == "SPY" && f.signalSession == signals[j].signalSession
    && f.executionSession == signals[j].executionSession && f.referenceOpen == prices[j].referenceOpen
    && f.side == (if signals[j].target == 1 then Buy else Sell)
  }

  /** The fill was made in some session of the inputs and costs what the basis points make of it. */
  ghost predicate Charged(f: FillRecord, signals: seq<SignalRow>, prices: seq<PriceRow>, costs: CostAssumptions)
    requires |signals| == |prices|
  {
    CostedFill(f, costs) && exists j :: OfSession(f, signals, prices, j)
  }

  lemma FillsOfRun(signals: seq<SignalRow>, prices: seq<PriceRow>, costs: CostAssumptions, numbers: seq<int>,
                   f: FillRecord)
    requires ValidInputs(signals, prices) && EngineRun(signals, prices, costs, |signals|).Ok?
    requires |numbers| == |EngineRun(signals, prices, costs, |signals|).value.trades|
    requires f in FillsOf(RenumberAll(EngineRun(signals, prices, costs, |signals|).value.trades, numbers))
    ensures Charged(f, signals, prices, costs)
  {
    hide EngineRun, Decides, CanBuy, PricedAs, CostedFill, Collect;
    var run := EngineRun(signals, prices, costs, |signals|).value;
    var renumbered := RenumberAll(run.trades, numbers);
    CollectMembers(renumbered, FillRows);
    var j :| 0 <= j < |renumbered| && f in FillRows(renumbered[j]);
    RunsArePrefixes(signals, prices, costs, |signals|, |signals|);
    RunExactly(signals, prices, costs, |signals|, j);
    var t := run.trades[j];
    assert t.Filled? && f == t.fill.(orderSequenceNumber := numbers[j]);
    assert CostedFill(f, costs) by { CostsIgnoreNumber(t.fill, numbers[j], costs); }
    assert OfSession(f, signals, prices, j);
  }

  lemma CostsIgnoreNumber(f: FillRecord, number: int, costs: CostAssumptions)
    requires CostedFill(f, costs)
    ensures CostedFill(f.(orderSequenceNumber := number), costs)
  {
  }

  lemma ChargedIsCosted(fills: seq<FillRecord>, signals: seq<SignalRow>, prices: seq<PriceRow>, costs: CostAssumptions)
    requires |signals| == |prices|
    requires forall i :: 0 <= i < |fills| ==> Charged(fills[i], signals, prices, costs)
    ensures forall i :: 0 <= i < |fills| ==> CostedFill(fills[i], costs)
  {
    hide CostedFill, OfSession;
  }

  lemma FillProportional(f: FillRecord, costs: CostAssumptions)
    requires CostedFill(f, costs)
    ensures f.commission * 10000.0 == f.executionNotional * costs.commissionBps
    ensures f.slippageCost * 10000.0 == f.referenceNotional * costs.slippageBps
  {
  }

  lemma TotalsProportional(fills: seq<FillRecord>, costs: CostAssumptions)
    requires forall i :: 0 <= i < |fills| ==> CostedFill(fills[i], costs)
    ensures Sum(fills, Commission) * 10000.0 == Sum(fills, ExecutionNotional) * costs.commissionBps
    ensures Sum(fills, SlippageCost) * 10000.0 == Sum(fills, ReferenceNotional) * costs.slippageBps
  {
    hide Sum, CostedFill;
    forall i | 0 <= i < |fills|
      ensures Commission(fills[i]) * 10000.0 == ExecutionNotional(fills[i]) * costs.commissionBps
      ensures SlippageCost(fills[i]) * 10000.0 == ReferenceNotional(fills[i]) * costs.slippageBps
    {
      FillProportional(fills[i], costs);
    }
    SumProportional(fills, Commission, ExecutionNotional, 10000.0, costs.commissionBps);
    SumProportional(fills, SlippageCost, ReferenceNotional, 10000.0, costs.slippageBps);
  }

  /**
   What an accepted result charges: every fill was made at the open of a session of the inputs and costs what the basis
   points make of it, and the reported commission and slippage are those shares of the reported notionals.
   */
  lemma CostsReported(frames: Frames, metrics: Metrics, signals: seq<SignalRow>, prices: seq<PriceRow>,
                      costs: CostAssumptions)
    requires ValidInputs(signals, prices)
    requires ResultAccepts(frames, metrics, signals, prices, costs)
    ensures forall i :: 0 <= i < |frames.fills| ==> Charged(frames.fills[i], signals, prices, costs)
    ensures metrics.totals.commission * 10000.0 == metrics.totals.executionNotional * costs.commissionBps
    ensures metrics.totals.slippageCost * 10000.0 == metrics.totals.referenceNotional * costs.slippageBps
  {
    hide EngineRun, ReplayAccepts, Sum, Collect, CountIf, Column, PortfolioMeasured, PortfolioAccounts,
      NumbersPairUp, CostedFill, Charged, CalculateMetrics, ValidMetrics, Totalled, FillsMeasured, MetricsMatch;
    ResultIsTheRun(frames, metrics, signals, prices, costs);
    var run := EngineRun(signals, prices, costs, |signals|).value;
    var numbers :| RecordsRun(frames, run, numbers);
    var theirs := FillsOf(RenumberAll(run.trades, numbers));
    forall i | 0 <= i < |frames.fills|
      ensures Charged(frames.fills[i], signals, prices, costs)
    {
      assert frames.fills[i] in multiset(frames.fills);
      assert frames.fills[i] in multiset(theirs);
      FillsOfRun(signals, prices, costs, numbers, frames.fills[i]);
    }
    ChargedIsCosted(frames.fills, signals, prices, costs);
    TotalsProportional(frames.fills, costs);
    TotalledIsTotals(frames.fills);
    MetricsExactly(frames);
  }

  // ---------------------------------------------------------------- staying in cash

  lemma CashRow(signals: seq<SignalRow>, prices: seq<PriceRow>, costs: CostAssumptions, j: nat)
    requires ValidInputs(signals, prices) && j < |signals|
    requires forall k :: 0 <= k < |signals| ==> signals[k].target == 0
    requires EngineRun(signals, prices, costs, |signals|).Ok?
    ensures var rows := EngineRun(signals, prices, costs, |signals|).value.portfolio;
            |rows| == |signals| && rows[j].shares == 0 && rows[j].equity == 10000.0
  {
    hide EngineRun, FallsFrom, TradeExactly;
    ComparatorSignals.AlwaysCashNeverTrades(signals, prices, costs, j + 1);
    AccountIsLastRow(signals, prices, costs, j + 1);
    RunsArePrefixes(signals, prices, costs, j + 1, |signals|);
    RunExactly(signals, prices, costs, |signals|, j);
  }

  lemma CashDrawdown(rows: seq<PortfolioRow>, j: nat, peak: real)
    requires j < |rows| && FallsFrom(rows, j, peak) && forall k :: 0 <= k < |rows| ==> rows[k].equity == 10000.0
    ensures rows[j].drawdown == 0.0
  {
    assert peak == 10000.0;
  }

  /** A result for signals that never ask for a position reports no exposure, no trading, no cost and no loss. */
  lemma CashReportsNothing(frames: Frames, metrics: Metrics, signals: seq<SignalRow>, prices: seq<PriceRow>,
                           costs: CostAssumptions)
    requires ValidInputs(signals, prices)
    requires forall k :: 0 <= k < |signals| ==> signals[k].target == 0
    requires ResultAccepts(frames, metrics, signals, prices, costs)
    ensures metrics.exposureFraction == 0.0 && metrics.turnoverRatio == 0.0
    ensures metrics.finalShares == 0 && metrics.finalEquity == 10000.0 && metrics.totalReturn == 0.0
    ensures metrics.maximumDrawdown == 0.0
    ensures metrics.fillCount == 0 && metrics.totals == FillTotals(0.0, 0.0, 0.0, 0.0, 0.0)
  {
    hide EngineRun, ReplayAccepts, Collect, PortfolioMeasured, PortfolioAccounts, NumbersPairUp, CalculateMetrics,
      ValidMetrics, FillsMeasured, MetricsMatch, FallsFrom, TradeExactly, RenumberAll;
    ResultIsTheRun(frames, metrics, signals, prices, costs);
    var run := EngineRun(signals, prices, costs, |signals|).value;
    var rows := frames.portfolio;
    var numbers :| RecordsRun(frames, run, numbers);
    RunsArePrefixes(signals, prices, costs, |signals|, |signals|);
    forall j | 0 <= j < |rows|
      ensures rows[j].shares == 0 && rows[j].equity == 10000.0 && rows[j].drawdown == 0.0
    {
      forall k | 0 <= k < |rows| ensures rows[k].equity == 10000.0 {
        CashRow(signals, prices, costs, k);
      }
      CashRow(signals, prices, costs, j);
      RunExactly(signals, prices, costs, |signals|, j);
      var peak :| FallsFrom(rows, j, peak);
      CashDrawdown(rows, j, peak);
    }
    assert HoldingSessions(rows) == {};
    NoFills(frames, run, numbers, signals, prices, costs);
    MetricsExactly(frames);
    CashTotals(rows);
    CashMetrics(metrics, frames);
  }

  lemma NoFills(frames: Frames, run: Run, numbers: seq<int>, signals: seq<SignalRow>, prices: seq<PriceRow>,
                costs: CostAssumptions)
    requires ValidInputs(signals, prices) && EngineRun(signals, prices, costs, |signals|) == Ok(run)
    requires forall k :: 0 <= k < |signals| ==> signals[k].target == 0
    requires RecordsRun(frames, run, numbers)
    ensures frames.fills == []
  {
    hide EngineRun, Collect;
    ComparatorSignals.AlwaysCashNeverTrades(signals, prices, costs, |signals|);
    var renumbered := RenumberAll(run.trades, numbers);
    forall j | 0 <= j < |run.trades| ensures FillRows(renumbered[j]) == [] {
      if run.trades[j].Filled? {
        FillCollected(run.trades, j);
      }
    }
    if frames.fills != [] {
      assert frames.fills[0] in multiset(frames.fills);
      assert frames.fills[0] in multiset(FillsOf(renumbered));
      NotCollected(renumbered, FillRows, frames.fills[0]);
    }
  }

  lemma FillCollected(trades: seq<Trade>, j: nat)
    requires j < |trades| && trades[j].Filled?
    ensures trades[j].fill in FillsOf(trades)
  {
    hide Collect;
    CollectMembers(trades, FillRows);
    assert trades[j].fill in FillRows(trades[j]);
  }

  lemma {:induction false} CashTotals(rows: seq<PortfolioRow>)
    requires forall k :: 0 <= k < |rows| ==> rows[k].equity == 10000.0
    ensures EquityTotal(rows) == 10000.0 * (|rows| as real)
  {
    if rows != [] {
      CashTotals(rows[..|rows| - 1]);
    }
  }

  lemma CashMetrics(m: Metrics, frames: Frames)
    requires AccountReported(m, frames.portfolio) && TradingReported(m, frames)
    requires frames.fills == [] && HoldingSessions(frames.portfolio) == {}
    requires forall j :: 0 <= j < |frames.portfolio| ==>
               var row := frames.portfolio[j]; row.shares == 0 && row.equity == 10000.0 && row.drawdown == 0.0
    requires EquityTotal(frames.portfolio) == 10000.0 * (|frames.portfolio| as real)
    ensures m.exposureFraction == 0.0 && m.turnoverRatio == 0.0
    ensures m.finalShares == 0 && m.finalEquity == 10000.0 && m.totalReturn == 0.0 && m.maximumDrawdown == 0.0
    ensures m.fillCount == 0 && m.totals == FillTotals(0.0, 0.0, 0.0, 0.0, 0.0)
  {
    hide HoldingSessions, EquityTotal;
    var n := |frames.portfolio| as real;
    assert n > 0.0;
    assert m.exposureFraction * n == 0.0;
    assert m.turnoverRatio * (10000.0 * n) == 0.0;
  }
}
