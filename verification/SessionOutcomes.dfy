/**
 What every session of a run does, in terms of the row before it, the session's prices and the configured basis points:
 whether there is an order, for how many shares, whether it is filled, at what cost, and what the closing row says.
 */
module SessionOutcomes {
  import opened Trading
  import opened Wrappers
  import opened OrderCosts
  import opened RiskRules
  import opened RiskReasons
  import opened BacktestEngine
  import opened EngineSafety
  import opened ReplayTheorems
  import opened BacktestMetrics
  import opened BacktestResult
  import opened EquityAccounting

  /** An order for what the account calls for at this open: the whole position, or the most shares the cash covers. */
  predicate OrderedAt(o: ProposedOrder, signal: SignalRow, open: real, cash: real, shares: int,
                      costs: CostAssumptions) {
    && o.symbol == "SPY" && o.targetPosition == signal.target && o.referenceOpen == open
    && o.signalSession == signal.signalSession && o.executionSession == signal.executionSession
    && o.currentCash == cash && o.currentShares == shares
    && PricedAs(o, open, costs)
    && if shares > 0 then
         o.side == Sell && o.quantity == shares
       else
         && o.side == Buy && o.quantity >= 1 && !CanBuy(o.quantity + 1, cash, open, costs)
         && (o.quantity > 1 ==> CanBuy(o.quantity, cash, open, costs))
  }

  /** A fill's amounts, by its own quantity and open and the configured basis points. */
  predicate CostedFill(f: FillRecord, costs: CostAssumptions) {
    && (f.executionPrice - f.referenceOpen) * 10000.0
    == (if f.side == Buy then f.referenceOpen * costs.slippageBps else -(f.referenceOpen * costs.slippageBps))
    && f.referenceNotional == (f.quantity as real) * f.referenceOpen
    && f.executionNotional == (f.quantity as real) * f.executionPrice
    && f.commission * 10000.0 == f.executionNotional * costs.commissionBps
    && f.slippageCost * 10000.0 == f.referenceNotional * costs.slippageBps
    && f.totalTransactionCost == f.commission + f.slippageCost
    && f.cashChange
    == (if f.side == Buy then -(f.executionNotional + f.commission) else f.executionNotional - f.commission)
    && f.cashAfter == f.cashBefore + f.cashChange
    && f.sharesAfter == (if f.side == Buy then f.sharesBefore + f.quantity else f.sharesBefore - f.quantity)
  }

  /** The fill carries out the order for this account. */
  predicate FilledAs(f: FillRecord, o: ProposedOrder, cash: real, shares: int) {
    && f.orderSequenceNumber == o.sequenceNumber && f.symbol == o.symbol && f.side == o.side
    && f.quantity == o.quantity && f.signalSession == o.signalSession && f.executionSession == o.executionSession
    && f.referenceOpen == o.referenceOpen && f.executionPrice == o.estimatedExecutionPrice
    && f.commission == o.estimatedCommission && f.cashChange == o.estimatedCashChange
    && f.cashBefore == cash && f.sharesBefore == shares && f.riskApproved
  }

  /**
   What a session with this account does: nothing exactly when the target is already met; otherwise an order, which is
   filled unless it is a buy and the cash does not cover one share.
   */
  ghost predicate TradeExactly(t: Trade, signal: SignalRow, open: real, cash: real, shares: int,
                               costs: CostAssumptions)
  {
    && (t.NoTrade? <==> (signal.target == 1 <==> shares > 0))
    && (t.Rejected? <==> signal.target == 1 && shares == 0 && !CanBuy(1, cash, open, costs))
    && (!t.NoTrade? ==>
          && OrderedAt(t.order, signal, open, cash, shares, costs)
          && (t.decision.approved <==> t.Filled?)
          && Decides(t.decision, t.order,
                     PortfolioState(signal.executionSession, cash, shares, open, (shares as real) * open,
                                    cash + (shares as real) * open), costs))
    && (t.Filled? ==> FilledAs(t.fill, t.order, cash, shares) && CostedFill(t.fill, costs))
  }

  lemma FewerAreAffordable(j: int, k: int, cash: real, open: real, costs: CostAssumptions)
    requires cash >= 0.0 && open > 0.0 && j <= k && CanBuy(k, cash, open, costs)
    ensures CanBuy(j, cash, open, costs)
  {
    hide MaximumAffordableBuyQuantity, CanBuy;
    AffordableExactly(cash, open, costs, j);
    AffordableExactly(cash, open, costs, k);
  }

  lemma CanonicalIsPriced(o: ProposedOrder, s: PortfolioState, costs: CostAssumptions)
    requires Canonical(o, s, costs)
    ensures PricedAs(o, o.referenceOpen, costs)
    ensures EstimateOrderCost(o.side, o.quantity, o.referenceOpen, costs).Ok?
    ensures EstimateOrderCost(o.side, o.quantity, o.referenceOpen, costs).value.cashChange == o.estimatedCashChange
  {
    hide PricedAs;
    CostsMatchExactly(o, o.referenceOpen, costs);
  }

  lemma ProposedFields(number: int, signal: SignalRow, open: real, cash: real, shares: int, costs: CostAssumptions)
    requires ProposeOrder(number, signal, open, cash, shares, costs).Ok?
    requires ProposeOrder(number, signal, open, cash, shares, costs).value.Some?
    ensures var o := ProposeOrder(number, signal, open, cash, shares, costs).value.value;
            && o.sequenceNumber == number && o.symbol == "SPY" && o.targetPosition == signal.target
            && o.referenceOpen == open && o.signalSession == signal.signalSession
            && o.executionSession == signal.executionSession && o.currentCash == cash && o.currentShares == shares
            && o.side == (if signal.target == 1 then Buy else Sell)
            && (o.side == Sell ==> o.quantity == shares)
            && (o.side == Buy ==>
                  && MaximumAffordableBuyQuantity(cash, open, costs).Ok?
                  && o.quantity == (var most := MaximumAffordableBuyQuantity(cash, open, costs).value;
                                    if most <= 0 then 1 else most))
  {
    hide EstimateOrderCost, MaximumAffordableBuyQuantity, ValidOrder;
  }

  lemma ProposedExactly(number: int, signal: SignalRow, open: real, cash: real, shares: int, costs: CostAssumptions)
    requires number >= 1 && open > 0.0 && Solvent(cash, shares)
    requires signal.signalSession < signal.executionSession
    requires ProposeOrder(number, signal, open, cash, shares, costs).Ok?
    requires ProposeOrder(number, signal, open, cash, shares, costs).value.Some?
    ensures OrderedAt(ProposeOrder(number, signal, open, cash, shares, costs).value.value,
                      signal, open, cash, shares, costs)
  {
    hide ProposeOrder, EstimateOrderCost, MaximumAffordableBuyQuantity, Canonical, PricedAs, CanBuy;
    ProposalExists(number, signal, open, cash, shares, costs);
    ProposedFields(number, signal, open, cash, shares, costs);
    var o := ProposeOrder(number, signal, open, cash, shares, costs).value.value;
    CanonicalIsPriced(o, OpenState(signal.executionSession, cash, shares, open), costs);
    if o.side == Buy {
      AffordableExactly(cash, open, costs, o.quantity);
      AffordableExactly(cash, open, costs, o.quantity + 1);
    }
  }

  lemma FilledExactly(o: ProposedOrder, cash: real, shares: int, costs: CostAssumptions)
    requires PricedAs(o, o.referenceOpen, costs) && FillFromApprovedOrder(o, cash, shares, costs).Ok?
    requires EstimateOrderCost(o.side, o.quantity, o.referenceOpen, costs).Ok?
    ensures var f := FillFromApprovedOrder(o, cash, shares, costs).value;
            FilledAs(f, o, cash, shares) && CostedFill(f, costs)
  {
    hide EstimateOrderCost, ValidFill;
    CostsInBasisPoints(o.side, o.quantity, o.referenceOpen, costs);
  }

  /** An unaffordable buy is one for a single share. */
  lemma ApprovedExactly(o: ProposedOrder, s: PortfolioState, costs: CostAssumptions)
    requires Canonical(o, s, costs) && o.side == Buy && s.shares == 0
    requires !CanBuy(o.quantity + 1, s.cash, s.referencePrice, costs)
    requires o.quantity > 1 ==> CanBuy(o.quantity, s.cash, s.referencePrice, costs)
    ensures EvaluateOrderRisk(o, s, costs).Ok?
    ensures EvaluateOrderRisk(o, s, costs).value.approved <==> CanBuy(1, s.cash, s.referencePrice, costs)
  {
    hide EvaluateOrderRisk, EstimateOrderCost, MaximumAffordableBuyQuantity, CostsMatch, CanBuy;
    BuyApprovedIffAffordable(o, s, costs);
    CanonicalIsPriced(o, s, costs);
    AffordableQuantityIsLargest(s.cash, s.referencePrice, costs, o.quantity);
    AffordableExactly(s.cash, s.referencePrice, costs, o.quantity);
    AffordableExactly(s.cash, s.referencePrice, costs, 1);
  }

  lemma RefusedLeavesNothing(number: int, signal: SignalRow, price: PriceRow, cash: real, shares: int,
                             costs: CostAssumptions)
    requires DecideTrade(number, signal, price, cash, shares, costs).Ok?
    requires !DecideTrade(number, signal, price, cash, shares, costs).value.NoTrade?
    ensures var t := DecideTrade(number, signal, price, cash, shares, costs).value;
            && ProposeOrder(number, signal, price.referenceOpen, cash, shares, costs) == Ok(Some(t.order))
            && EvaluateOrderRisk(t.order, OpenState(signal.executionSession, cash, shares, price.referenceOpen), costs)
               == Ok(t.decision)
            && (t.decision.approved <==> t.Filled?)
            && (t.Filled? ==> FillFromApprovedOrder(t.order, cash, shares, costs) == Ok(t.fill))
  {
    hide ProposeOrder, EvaluateOrderRisk, FillFromApprovedOrder;
  }

  /** Every trade the simulator decides is exactly what the session calls for. */
  lemma SessionTrade(number: int, signal: SignalRow, price: PriceRow, cash: real, shares: int, costs: CostAssumptions)
    requires number >= 1 && SessionInputs(signal, price) && Solvent(cash, shares)
    requires DecideTrade(number, signal, price, cash, shares, costs).Ok?
    ensures TradeExactly(DecideTrade(number, signal, price, cash, shares, costs).value,
                         signal, price.referenceOpen, cash, shares, costs)
  {
    hide ProposeOrder, EvaluateOrderRisk, FillFromApprovedOrder, EstimateOrderCost, Canonical, PricedAs, CanBuy,
      DecideTrade, Decides, CostedFill, FilledAs, ValidFill;
    var open := price.referenceOpen;
    TradeOutcome(number, signal, price, cash, shares, costs);
    var t := DecideTrade(number, signal, price, cash, shares, costs).value;
    if !t.NoTrade? {
      RefusedLeavesNothing(number, signal, price, cash, shares, costs);
      ProposalExists(number, signal, open, cash, shares, costs);
      ProposedExactly(number, signal, open, cash, shares, costs);
      var s := OpenState(signal.executionSession, cash, shares, open);
      CanonicalIsPriced(t.order, s, costs);
      DecisionExactly(t.order, s, costs);
      if shares == 0 {
        ApprovedExactly(t.order, s, costs);
      }
      if t.Filled? {
        FilledExactly(t.order, cash, shares, costs);
      }
    }
  }

  // ---------------------------------------------------------------- the closing row

  function CashBefore(rows: seq<PortfolioRow>, j: nat): real
    requires j <= |rows|
  {
    if j == 0 then 10000.0 else rows[j - 1].cash
  }

  function SharesBefore(rows: seq<PortfolioRow>, j: nat): int
    requires j <= |rows|
  {
    if j == 0 then 0 else rows[j - 1].shares
  }

  /** The highest of the initial cash and the equities of the first `n` sessions. */
  ghost predicate IsHighest(rows: seq<PortfolioRow>, n: nat, peak: real)
    requires n <= |rows|
  {
    && 10000.0 <= peak && (forall k :: 0 <= k < n ==> rows[k].equity <= peak)
    && (peak == 10000.0 || exists k :: 0 <= k < n && rows[k].equity == peak)
  }

  /** The row's equity has fallen to this peak's share the row's drawdown says. */
  ghost predicate FallsFrom(rows: seq<PortfolioRow>, j: nat, peak: real)
    requires j < |rows|
  {
    IsHighest(rows, j + 1, peak) && (1.0 + rows[j].drawdown) * peak == rows[j].equity
  }

  /** What the closing row of session `j` says after what the session did. */
  ghost predicate RowExactly(rows: seq<PortfolioRow>, j: nat, t: Trade, signal: SignalRow, price: PriceRow)
    requires j < |rows|
  {
    var row := rows[j];
    && row.session == signal.executionSession && row.signalSession == signal.signalSession
    && row.targetPosition == signal.target && row.closePrice == price.closePrice
    && row.cash == (if t.Filled? then t.fill.cashAfter else CashBefore(rows, j))
    && row.shares == (if t.Filled? then t.fill.sharesAfter else SharesBefore(rows, j))
    && row.marketValue == (row.shares as real) * price.closePrice && row.equity == row.cash + row.marketValue
    && (1.0 + row.dailyReturn) * (if j == 0 then 10000.0 else rows[j - 1].equity) == row.equity
    && exists peak :: FallsFrom(rows, j, peak)
  }

  lemma {:induction false} PeakIsHighest(rows: seq<PortfolioRow>, n: nat)
    requires n <= |rows|
    ensures IsHighest(rows, n, PeakThrough(rows, n))
  {
    if n > 0 {
      PeakIsHighest(rows, n - 1);
    }
  }

  /** A session's trade in a whole run. */
  lemma NthTrade(signals: seq<SignalRow>, prices: seq<PriceRow>, costs: CostAssumptions, m: nat, j: nat)
    requires ValidInputs(signals, prices) && j < m <= |signals|
    requires EngineRun(signals, prices, costs, m).Ok?
    ensures var whole := EngineRun(signals, prices, costs, m).value;
            && |whole.trades| == |whole.portfolio| == m
            && TradeExactly(whole.trades[j], signals[j], prices[j].referenceOpen, CashBefore(whole.portfolio, j),
                            SharesBefore(whole.portfolio, j), costs)
            && whole.portfolio[j].cash == CashAfter(whole.trades[j], CashBefore(whole.portfolio, j))
            && whole.portfolio[j].shares == SharesAfter(whole.trades[j], SharesBefore(whole.portfolio, j))
            && whole.portfolio[j].targetPosition == signals[j].target
            && whole.portfolio[j].closePrice == prices[j].closePrice
  {
    hide EngineRun, DecideTrade, OrdersOf, SoundRow, Max, TradeExactly;
    NthStep(signals, prices, costs, m, j);
    EveryRunIsSound(signals, prices, costs, j);
    var before := EngineRun(signals, prices, costs, j).value;
    AccountIsLastRow(signals, prices, costs, j);
    StepAppends(before, signals[j], prices[j], costs);
    SessionTrade(|OrdersOf(before.trades)| + 1, signals[j], prices[j], before.account.cash, before.account.shares,
                 costs);
    RunsArePrefixes(signals, prices, costs, j, m);
  }

  lemma AccountIsLastRow(signals: seq<SignalRow>, prices: seq<PriceRow>, costs: CostAssumptions, n: nat)
    requires n <= |signals| == |prices| && EngineRun(signals, prices, costs, n).Ok?
    ensures var run := EngineRun(signals, prices, costs, n).value;
            && |run.portfolio| == n
            && run.account.cash == CashBefore(run.portfolio, n) && run.account.shares == SharesBefore(run.portfolio, n)
  {
    hide EngineStep;
    RunsArePrefixes(signals, prices, costs, n, n);
    if n > 0 {
      LastRowIsAccount(signals, prices, costs, n);
    }
  }

  lemma ReturnsUndone(equity: real, base: real)
    requires base != 0.0
    ensures (1.0 + (equity / base - 1.0)) * base == equity
  {
  }

  lemma RowCompounds(row: PortfolioRow, base: real, peak: real)
    requires MetricRow(row, base, peak)
    ensures (1.0 + row.dailyReturn) * base == row.equity && (1.0 + row.drawdown) * peak == row.equity
    ensures row.marketValue == (row.shares as real) * row.closePrice && row.equity == row.cash + row.marketValue
  {
    ReturnsUndone(row.equity, base);
    ReturnsUndone(row.equity, peak);
  }

  /** A measured row compounds the equity before it and falls from the peak so far. */
  lemma MeasuredRow(rows: seq<PortfolioRow>, j: nat)
    requires j < |rows| && MeasuredThrough(rows, |rows|)
    ensures var row := rows[j];
            && row.marketValue == (row.shares as real) * row.closePrice && row.equity == row.cash + row.marketValue
            && (1.0 + row.dailyReturn) * (if j == 0 then 10000.0 else rows[j - 1].equity) == row.equity
            && FallsFrom(rows, j, PeakThrough(rows, j + 1))
  {
    hide PeakThrough, IsHighest, MetricRow;
    PeakIsHighest(rows, j + 1);
    RowCompounds(rows[j], EquityBefore(rows, j), PeakThrough(rows, j + 1));
  }

  /** Every session of every run does exactly what its prices and the row before it call for. */
  lemma RunExactly(signals: seq<SignalRow>, prices: seq<PriceRow>, costs: CostAssumptions, m: nat, j: nat)
    requires ValidInputs(signals, prices) && j < m <= |signals|
    requires EngineRun(signals, prices, costs, m).Ok?
    ensures var run := EngineRun(signals, prices, costs, m).value;
            && |run.trades| == |run.portfolio| == m
            && TradeExactly(run.trades[j], signals[j], prices[j].referenceOpen, CashBefore(run.portfolio, j),
                            SharesBefore(run.portfolio, j), costs)
            && RowExactly(run.portfolio, j, run.trades[j], signals[j], prices[j])
  {
    hide EngineRun, TradeExactly, PeakThrough, FallsFrom, Max, MeasuredThrough, CashBefore, SharesBefore, EquityBefore;
    NthTrade(signals, prices, costs, m, j);
    RunIsMeasured(signals, prices, costs, m);
    MeasuredRow(EngineRun(signals, prices, costs, m).value.portfolio, j);
  }

  lemma PricesDetermined(o: ProposedOrder, o': ProposedOrder, open: real, costs: CostAssumptions)
    requires PricedAs(o, open, costs) && PricedAs(o', open, costs) && o.side == o'.side && o.quantity == o'.quantity
    ensures o.estimatedExecutionPrice == o'.estimatedExecutionPrice
    ensures o.estimatedCommission == o'.estimatedCommission && o.estimatedCashChange == o'.estimatedCashChange
  {
  }

  lemma OrderDetermined(o: ProposedOrder, o': ProposedOrder, signal: SignalRow, open: real, cash: real, shares: int,
                        costs: CostAssumptions)
    requires OrderedAt(o, signal, open, cash, shares, costs) && OrderedAt(o', signal, open, cash, shares, costs)
    requires open > 0.0 && cash >= 0.0
    ensures o' == o.(sequenceNumber := o'.sequenceNumber)
  {
    hide CanBuy, PricedAs;
    if shares <= 0 && o.quantity < o'.quantity {
      FewerAreAffordable(o.quantity + 1, o'.quantity, cash, open, costs);
    }
    if shares <= 0 && o'.quantity < o.quantity {
      FewerAreAffordable(o'.quantity + 1, o.quantity, cash, open, costs);
    }
    PricesDetermined(o, o', open, costs);
  }

  lemma FillDetermined(f: FillRecord, f': FillRecord, o: ProposedOrder, o': ProposedOrder, cash: real, shares: int,
                       costs: CostAssumptions)
    requires FilledAs(f, o, cash, shares) && FilledAs(f', o', cash, shares)
    requires o' == o.(sequenceNumber := o'.sequenceNumber) && CostedFill(f, costs) && CostedFill(f', costs)
    ensures f' == f.(orderSequenceNumber := f'.orderSequenceNumber)
  {
  }

  /** What a session does is determined: two trades that both are what it calls for differ in their number at most. */
  lemma TradeIsDetermined(t: Trade, t': Trade, signal: SignalRow, open: real, cash: real, shares: int,
                          costs: CostAssumptions)
    requires TradeExactly(t, signal, open, cash, shares, costs) && TradeExactly(t', signal, open, cash, shares, costs)
    requires open > 0.0 && Solvent(cash, shares)
    ensures t.NoTrade? == t'.NoTrade? && t.Rejected? == t'.Rejected?
    ensures !t.NoTrade? ==> t'.order == t.order.(sequenceNumber := t'.order.sequenceNumber)
    ensures t.Filled? ==> t'.fill == t.fill.(orderSequenceNumber := t'.fill.orderSequenceNumber)
  {
    hide Decides, CanBuy, OrderedAt, FilledAs, CostedFill;
    if !t.NoTrade? {
      OrderDetermined(t.order, t'.order, signal, open, cash, shares, costs);
    }
    if t.Filled? {
      FillDetermined(t.fill, t'.fill, t.order, t'.order, cash, shares, costs);
    }
  }
}
