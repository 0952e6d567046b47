/** Where the final equity comes from: trading at reference prices, less exactly the reported costs. */
module EquityAccounting {
  import opened Trading
  import opened Wrappers
  import opened Aggregates
  import opened OrderCosts
  import opened RiskRules
  import opened BacktestEngine
  import opened EngineSafety
  import opened AuditReplay
  import opened ReplayFrames
  import opened ReplayTheorems
  import opened BacktestMetrics
  import opened BacktestResult

  function BoughtNotional(f: FillRecord): real {
    if f.side == Buy then f.referenceNotional else 0.0
  }

  function SoldNotional(f: FillRecord): real {
    if f.side == Sell then f.referenceNotional else 0.0
  }

  /** Cash after trading these fills at their reference prices, less their transaction costs. */
  function TradedCash(fills: seq<FillRecord>): real {
    INITIAL_CASH - Sum(fills, BoughtNotional) + Sum(fills, SoldNotional) - Sum(fills, TransactionCost)
  }

  lemma TradedCashSnoc(fills: seq<FillRecord>, f: FillRecord)
    ensures TradedCash(fills + [f])
         == TradedCash(fills) - BoughtNotional(f) + SoldNotional(f) - TransactionCost(f)
  {
    hide Sum;
    SumSnoc(fills, f, BoughtNotional);
    SumSnoc(fills, f, SoldNotional);
    SumSnoc(fills, f, TransactionCost);
  }

  /** A fill moves cash by its reference notional and its cost, nothing else. */
  lemma FillCash(o: ProposedOrder, cash: real, shares: int, costs: CostAssumptions)
    requires FillFromApprovedOrder(o, cash, shares, costs).Ok?
    ensures var f := FillFromApprovedOrder(o, cash, shares, costs).value;
            f.cashAfter == cash - BoughtNotional(f) + SoldNotional(f) - TransactionCost(f)
  {
    hide EstimateOrderCost;
    CashChangeDecomposes(o.side, o.quantity, o.referenceOpen, costs);
  }

  lemma DecidedFill(number: int, signal: SignalRow, price: PriceRow, cash: real, shares: int, costs: CostAssumptions)
    requires DecideTrade(number, signal, price, cash, shares, costs).Ok?
    ensures var t := DecideTrade(number, signal, price, cash, shares, costs).value;
            t.Filled? ==> FillFromApprovedOrder(t.order, cash, shares, costs) == Ok(t.fill)
  {
    hide ProposeOrder, EvaluateOrderRisk, FillFromApprovedOrder;
  }

  /** At every point of a run, cash is what trading at reference prices leaves, less the costs so far. */
  lemma {:induction false} CashIsTraded(signals: seq<SignalRow>, prices: seq<PriceRow>, costs: CostAssumptions, n: nat)
    requires n <= |signals| == |prices|
    requires EngineRun(signals, prices, costs, n).Ok?
    ensures var run := EngineRun(signals, prices, costs, n).value;
            run.account.cash == TradedCash(FillsOf(run.trades))
  {
    hide EngineStep, DecideTrade, CloseSession, FillsOf, OrdersOf, TradedCash;
    if n == 0 {
      NoRowsYet(signals, prices, costs);
      NothingTraded();
    } else {
      CashIsTraded(signals, prices, costs, n - 1);
      var run := EngineRun(signals, prices, costs, n - 1).value;
      StepCash(run, signals[n - 1], prices[n - 1], costs);
    }
  }

  lemma NothingTraded()
    ensures TradedCash([]) == INITIAL_CASH
  {
  }

  lemma StepCash(run: Run, signal: SignalRow, price: PriceRow, costs: CostAssumptions)
    requires run.account.cash == TradedCash(FillsOf(run.trades))
    requires EngineStep(run, signal, price, costs).Ok?
    ensures var next := EngineStep(run, signal, price, costs).value;
            next.account.cash == TradedCash(FillsOf(next.trades))
  {
    hide DecideTrade, FillsOf, OrdersOf, DecisionsOf, TradedCash;
    var number := |OrdersOf(run.trades)| + 1;
    var t := DecideTrade(number, signal, price, run.account.cash, run.account.shares, costs).value;
    DecidedFill(number, signal, price, run.account.cash, run.account.shares, costs);
    FramesSnoc(run.trades, t);
    if t.Filled? {
      FillCash(t.order, run.account.cash, run.account.shares, costs);
      TradedCashSnoc(FillsOf(run.trades), t.fill);
    } else {
      assert FillsOf(run.trades) + [] == FillsOf(run.trades);
    }
  }

  // ---------------------------------------------------------------- the same for every accepted result

  lemma {:induction false} SumUnderRenumbering(trades: seq<Trade>, numbers: seq<int>, value: FillRecord -> real)
    requires |numbers| == |trades|
    requires forall f: FillRecord, k :: value(f.(orderSequenceNumber := k)) == value(f)
    ensures Sum(FillsOf(RenumberAll(trades, numbers)), value) == Sum(FillsOf(trades), value)
  {
    hide FillsOf, OrdersOf, DecisionsOf;
    var renumbered := RenumberAll(trades, numbers);
    if trades == [] {
      assert renumbered == trades;
    } else {
      var n := |trades| - 1;
      SumUnderRenumbering(trades[..n], numbers[..n], value);
      assert renumbered == RenumberAll(trades[..n], numbers[..n]) + [Renumbered(trades[n], numbers[n])];
      assert trades == trades[..n] + [trades[n]];
      FramesSnoc(trades[..n], trades[n]);
      FramesSnoc(RenumberAll(trades[..n], numbers[..n]), Renumbered(trades[n], numbers[n]));
      if trades[n].Filled? {
        var f := trades[n].fill;
        SumSnoc(FillsOf(trades[..n]), f, value);
        SumSnoc(FillsOf(RenumberAll(trades[..n], numbers[..n])), f.(orderSequenceNumber := numbers[n]), value);
      } else {
        assert FillsOf(trades[..n]) + [] == FillsOf(trades[..n]);
        var others := FillsOf(RenumberAll(trades[..n], numbers[..n]));
        assert others + [] == others;
      }
    }
  }

  lemma TradedCashOfFrames(frames: Frames, run: Run, numbers: seq<int>)
    requires RecordsRun(frames, run, numbers)
    ensures TradedCash(frames.fills) == TradedCash(FillsOf(run.trades))
  {
    hide Sum, FillsOf, OrdersOf, DecisionsOf;
    var renumbered := FillsOf(RenumberAll(run.trades, numbers));
    SumRearranged(frames.fills, renumbered, BoughtNotional);
    SumRearranged(frames.fills, renumbered, SoldNotional);
    SumRearranged(frames.fills, renumbered, TransactionCost);
    SumUnderRenumbering(run.trades, numbers, BoughtNotional);
    SumUnderRenumbering(run.trades, numbers, SoldNotional);
    SumUnderRenumbering(run.trades, numbers, TransactionCost);
  }

  lemma LastRowIsAccount(signals: seq<SignalRow>, prices: seq<PriceRow>, costs: CostAssumptions, n: nat)
    requires 0 < n <= |signals| == |prices|
    requires EngineRun(signals, prices, costs, n).Ok?
    ensures var run := EngineRun(signals, prices, costs, n).value;
            && |run.portfolio| > 0
            && var row := run.portfolio[|run.portfolio| - 1];
               row.cash == run.account.cash && row.shares == run.account.shares
               && row.closePrice == prices[n - 1].closePrice
               && row.marketValue == (row.shares as real) * row.closePrice && row.equity == row.cash + row.marketValue
  {
    hide DecideTrade, OrdersOf, Max;
    var before := EngineRun(signals, prices, costs, n - 1);
  }

  /**
   Equity decomposition for every accepted result: final equity is the initial cash, less what the buys and plus
   what the sells were worth at reference prices, plus the open position at the last close, less exactly the
   reported total transaction cost.
   */
  lemma EquityDecomposes(frames: Frames, metrics: Metrics, signals: seq<SignalRow>, prices: seq<PriceRow>,
                         costs: CostAssumptions)
    requires ValidInputs(signals, prices)
    requires ResultAccepts(frames, metrics, signals, prices, costs)
    ensures signals != []
    ensures metrics.finalEquity
         == INITIAL_CASH - Sum(frames.fills, BoughtNotional) + Sum(frames.fills, SoldNotional)
            + (metrics.finalShares as real) * prices[|signals| - 1].closePrice
            - metrics.totals.transactionCost
  {
    hide EngineRun, ReplayAccepts, Sum, FillsOf, RowsOf, CountIf, Column, PortfolioMeasured, PortfolioAccounts,
      NumbersPairUp;
    ResultIsTheRun(frames, metrics, signals, prices, costs);
    var run := EngineRun(signals, prices, costs, |signals|).value;
    var numbers :| RecordsRun(frames, run, numbers);
    CashIsTraded(signals, prices, costs, |signals|);
    TradedCashOfFrames(frames, run, numbers);
    LastRowIsAccount(signals, prices, costs, |signals|);
  }
}
