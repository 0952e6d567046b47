/** What every run of the simulator keeps, and the one situation in which it stops. */
module EngineSafety {
  import opened Trading
  import opened Wrappers
  import opened OrderCosts
  import opened RiskRules
  import opened BacktestEngine

  /** A position can be sold for money: neither slippage nor commission eats the whole price. */
  predicate Sellable(costs: CostAssumptions) {
    costs.slippageBps < 10000.0 && costs.commissionBps < 10000.0
  }

  ghost predicate Solvent(cash: real, shares: int) {
    cash >= 0.0 && shares >= 0 && (cash > 0.0 || shares > 0)
  }

  ghost predicate Sound(a: Account) {
    && Solvent(a.cash, a.shares)
    && a.previousEquity > 0.0
    && a.runningPeak >= INITIAL_CASH
    && a.previousEquity <= a.runningPeak
  }

  function Renumbered(t: Trade, number: int): Trade {
    match t
    case NoTrade => NoTrade
    case Rejected(o, d) => Rejected(o.(sequenceNumber := number), d.(orderSequenceNumber := number))
    case Filled(o, d, f) =>
      Filled(o.(sequenceNumber := number), d.(orderSequenceNumber := number), f.(orderSequenceNumber := number))
  }

  lemma ProposalIgnoresNumber(a: int, b: int, signal: SignalRow, open: real, cash: real, shares: int,
                              costs: CostAssumptions)
    requires a >= 1 && b >= 1
    ensures var (r, r') := (ProposeOrder(a, signal, open, cash, shares, costs),
                            ProposeOrder(b, signal, open, cash, shares, costs));
            r' == if r.Ok? && r.value.Some? then Ok(Some(r.value.value.(sequenceNumber := b))) else r
  {
    hide EstimateOrderCost, MaximumAffordableBuyQuantity;
  }

  lemma FillIgnoresNumber(order: ProposedOrder, number: int, cash: real, shares: int, costs: CostAssumptions)
    requires order.sequenceNumber >= 1 && number >= 1
    ensures var (r, r') := (FillFromApprovedOrder(order, cash, shares, costs),
                            FillFromApprovedOrder(order.(sequenceNumber := number), cash, shares, costs));
            r' == if r.Ok? then Ok(r.value.(orderSequenceNumber := number)) else r
  {
    hide EstimateOrderCost;
  }

  lemma ProposedNumber(number: int, signal: SignalRow, open: real, cash: real, shares: int, costs: CostAssumptions)
    ensures var r := ProposeOrder(number, signal, open, cash, shares, costs);
            r.Ok? && r.value.Some? ==> r.value.value.sequenceNumber == number && ValidOrder(r.value.value)
  {
    hide EstimateOrderCost, MaximumAffordableBuyQuantity, ValidOrder;
  }

  /** The sequence number plays no part in what a signal leads to. */
  lemma TradeIgnoresNumber(a: int, b: int, signal: SignalRow, price: PriceRow, cash: real, shares: int,
                           costs: CostAssumptions)
    requires a >= 1 && b >= 1
    ensures var (r, r') := (DecideTrade(a, signal, price, cash, shares, costs),
                            DecideTrade(b, signal, price, cash, shares, costs));
            r' == if r.Ok? then Ok(Renumbered(r.value, b)) else r
  {
    hide ProposeOrder, EvaluateOrderRisk, FillFromApprovedOrder, ValidOrder;
    ProposalIgnoresNumber(a, b, signal, price.referenceOpen, cash, shares, costs);
    ProposedNumber(a, signal, price.referenceOpen, cash, shares, costs);
    var proposed := ProposeOrder(a, signal, price.referenceOpen, cash, shares, costs);
    if proposed.Ok? && proposed.value.Some? {
      var order := proposed.value.value;
      DecisionIgnoresSequence(order, OpenState(signal.executionSession, cash, shares, price.referenceOpen), costs, b);
      FillIgnoresNumber(order, b, cash, shares, costs);
    }
  }

  /** Inputs of one session. */
  ghost predicate SessionInputs(signal: SignalRow, price: PriceRow) {
    signal.signalSession < signal.executionSession && price.referenceOpen > 0.0 && price.closePrice > 0.0
  }

  lemma EstimateMatchesRule(side: Side, quantity: int, open: real, costs: CostAssumptions, o: ProposedOrder)
    requires EstimateOrderCost(side, quantity, open, costs).Ok? && o.side == side && o.quantity == quantity
    requires var e := EstimateOrderCost(side, quantity, open, costs).value;
             && o.estimatedExecutionPrice == e.executionPrice && o.estimatedCommission == e.commission
             && o.estimatedCashChange == e.cashChange
    ensures CostsMatch(o, open, costs)
  {
    EstimateSigns(side, quantity, open, costs);
  }

  lemma BuiltOrderIsCanonical(number: int, side: Side, quantity: int, signal: SignalRow, open: real, cash: real,
                              shares: int, costs: CostAssumptions)
    requires number >= 1 && quantity >= 1 && open > 0.0 && Solvent(cash, shares)
    requires signal.signalSession < signal.executionSession
    requires signal.target == if side == Buy then 1 else 0
    ensures var r := BuildOrder(number, side, quantity, signal, open, cash, shares, costs);
            && (r.Ok? <==> side == Buy || Sellable(costs))
            && (r.Ok? ==> Canonical(r.value, OpenState(signal.executionSession, cash, shares, open), costs)
                          && r.value.side == side && r.value.quantity == quantity)
  {
    hide CostsMatch;
    var e := EstimateOrderCost(side, quantity, open, costs);
    if side == Buy {
      BuyCashChange(quantity, open, costs);
    } else {
      SellPriceable(quantity, open, costs);
    }
    ProductNonNegative(shares as real, open);
    if e.Ok? {
      Estimated(number, side, quantity, signal, open, cash, shares, costs);
    }
  }

  lemma Estimated(number: int, side: Side, quantity: int, signal: SignalRow, open: real, cash: real,
                  shares: int, costs: CostAssumptions)
    requires number >= 1 && quantity >= 1 && open > 0.0 && Solvent(cash, shares)
    requires signal.signalSession < signal.executionSession
    requires signal.target == if side == Buy then 1 else 0
    requires EstimateOrderCost(side, quantity, open, costs).Ok?
    ensures var r := BuildOrder(number, side, quantity, signal, open, cash, shares, costs);
            && (r.Ok? <==> side == Buy || CommissionRate(costs) < 1.0)
            && (r.Ok? ==> ValidOrder(r.value) && CostsMatch(r.value, open, costs))
  {
    hide EstimateOrderCost, CommissionRate, CostsMatch;
    EstimateSigns(side, quantity, open, costs);
    var r := BuildOrder(number, side, quantity, signal, open, cash, shares, costs);
    if r.Ok? {
      EstimateMatchesRule(side, quantity, open, costs, r.value);
    }
  }

  lemma ProposalExists(number: int, signal: SignalRow, open: real, cash: real, shares: int, costs: CostAssumptions)
    requires number >= 1 && open > 0.0 && Solvent(cash, shares)
    requires signal.signalSession < signal.executionSession
    ensures var r := ProposeOrder(number, signal, open, cash, shares, costs);
            && (r.Err? <==> signal.target == 0 && shares > 0 && !Sellable(costs))
            && (r == Ok(None) <==> (signal.target == 1 <==> shares > 0))
            && (r.Ok? && r.value.Some? ==>
                  var o := r.value.value;
                  && Canonical(o, OpenState(signal.executionSession, cash, shares, open), costs)
                  && (o.side == Buy ==> shares == 0 && o.quantity >= 1)
                  && (o.side == Sell ==> shares == o.quantity >= 1))
  {
    hide Canonical, Sellable, BuildOrder;
    if signal.target == 1 && shares == 0 {
      AffordableQuantityIsLargest(cash, open, costs, 1);
      var affordable := MaximumAffordableBuyQuantity(cash, open, costs).value;
      var quantity := if affordable <= 0 then 1 else affordable;
      BuiltOrderIsCanonical(number, Buy, quantity, signal, open, cash, shares, costs);
    } else if signal.target == 0 && shares > 0 {
      BuiltOrderIsCanonical(number, Sell, shares, signal, open, cash, shares, costs);
    }
  }

  lemma FillExists(o: ProposedOrder, cash: real, shares: int, costs: CostAssumptions)
    requires ValidOrder(o) && o.symbol == SUPPORTED_SYMBOL && cash >= 0.0 && shares >= 0
    requires EstimateOrderCost(o.side, o.quantity, o.referenceOpen, costs).Ok?
    requires cash + EstimateOrderCost(o.side, o.quantity, o.referenceOpen, costs).value.cashChange >= 0.0
    requires o.side == Sell ==> o.quantity <= shares
    ensures FillFromApprovedOrder(o, cash, shares, costs).Ok?
  {
    EstimateSigns(o.side, o.quantity, o.referenceOpen, costs);
  }

  lemma FillMovesAccount(o: ProposedOrder, cash: real, shares: int, costs: CostAssumptions)
    requires FillFromApprovedOrder(o, cash, shares, costs).Ok?
    ensures var f := FillFromApprovedOrder(o, cash, shares, costs).value;
            && ValidFill(f)
            && f.side == o.side && f.quantity == o.quantity
            && f.cashBefore == cash && f.sharesBefore == shares
            && EstimateOrderCost(o.side, o.quantity, o.referenceOpen, costs).Ok?
            && f.cashChange == EstimateOrderCost(o.side, o.quantity, o.referenceOpen, costs).value.cashChange
  {
    hide EstimateOrderCost;
  }

  lemma TradeOutcome(number: int, signal: SignalRow, price: PriceRow, cash: real, shares: int, costs: CostAssumptions)
    requires number >= 1 && SessionInputs(signal, price) && Solvent(cash, shares)
    ensures var r := DecideTrade(number, signal, price, cash, shares, costs);
            && (r.Err? <==> signal.target == 0 && shares > 0 && !Sellable(costs))
            && (r.Ok? ==>
                  var t := r.value;
                  && (t == NoTrade <==> (signal.target == 1 <==> shares > 0))
                  && (t.Rejected? ==> signal.target == 1 && shares == 0)
                  && (t.Filled? ==>
                        && ValidFill(t.fill)
                        && t.fill.cashBefore == cash && t.fill.sharesBefore == shares
                        && t.order.side == t.fill.side
                        && (t.fill.side == Buy <==> signal.target == 1)
                        && (t.fill.side == Sell ==> t.fill.sharesAfter == 0 && t.fill.cashAfter > 0.0)))
  {
    hide ProposeOrder, EvaluateOrderRisk, FillFromApprovedOrder, EstimateOrderCost, CostsMatch, Sellable;
    var open := price.referenceOpen;
    ProposalExists(number, signal, open, cash, shares, costs);
    var proposed := ProposeOrder(number, signal, open, cash, shares, costs);
    if proposed.Ok? && proposed.value.Some? {
      var o, s := proposed.value.value, OpenState(signal.executionSession, cash, shares, open);
      if o.side == Buy {
        BuyApprovedIffAffordable(o, s, costs);
      } else {
        FullExitApproved(o, s, costs);
      }
      if EvaluateOrderRisk(o, s, costs).value.approved {
        ApprovalProjectsTheFill(o, s, costs);
        FillExists(o, cash, shares, costs);
        FillMovesAccount(o, cash, shares, costs);
        EstimateSigns(o.side, o.quantity, o.referenceOpen, costs);
        if o.side == Sell {
          SaleEarns(o, s, costs);
        }
      }
    }
  }

  lemma SaleEarns(o: ProposedOrder, s: PortfolioState, costs: CostAssumptions)
    requires Canonical(o, s, costs) && o.side == Sell
    requires EstimateOrderCost(o.side, o.quantity, o.referenceOpen, costs).Ok?
    ensures EstimateOrderCost(o.side, o.quantity, o.referenceOpen, costs).value.cashChange > 0.0
  {
  }

  /** Every row of a portfolio: no debt, no short position, positive equity, and returns that are defined. */
  ghost predicate SoundRow(row: PortfolioRow) {
    && row.cash >= 0.0
    && row.shares >= 0
    && row.closePrice > 0.0
    && row.marketValue == (row.shares as real) * row.closePrice
    && row.equity == row.cash + row.marketValue
    && row.equity > 0.0
    && row.dailyReturn > -1.0
    && -1.0 < row.drawdown <= 0.0
  }

  lemma RatioAboveMinusOne(a: real, b: real)
    requires a > 0.0 && b > 0.0
    ensures a / b - 1.0 > -1.0
    ensures a <= b ==> a / b - 1.0 <= 0.0
  {
    assert (a / b) * b == a;
  }

  lemma EquityPositive(cash: real, shares: int, price: real)
    requires Solvent(cash, shares) && price > 0.0
    ensures cash + (shares as real) * price > 0.0
  {
    ProductNonNegative(shares as real, price);
    if shares > 0 {
      ProductPositive(shares as real, price);
    }
  }

  lemma ClosingStaysSound(index: nat, signal: SignalRow, price: PriceRow, cash: real, shares: int,
                          previousEquity: real, runningPeak: real)
    requires SessionInputs(signal, price) && Solvent(cash, shares)
    requires previousEquity > 0.0 && runningPeak >= INITIAL_CASH
    ensures var r := CloseSession(index, signal, price, cash, shares, previousEquity, runningPeak);
            && r.Ok? && SoundRow(r.value.0) && Sound(r.value.1)
            && r.value.1 == Account(cash, shares, r.value.0.equity, Max(runningPeak, r.value.0.equity))
  {
    EquityPositive(cash, shares, price.closePrice);
    var equity := cash + (shares as real) * price.closePrice;
    var base := if index == 0 then INITIAL_CASH else previousEquity;
    var peak := Max(runningPeak, equity);
    RatioAboveMinusOne(equity, base);
    RatioAboveMinusOne(equity, peak);
    var r := CloseSession(index, signal, price, cash, shares, previousEquity, runningPeak);
    assert r.Ok?;
    assert r.value.1 == Account(cash, shares, equity, peak);
    assert r.value.0.dailyReturn == equity / base - 1.0 && r.value.0.drawdown == equity / peak - 1.0;
  }

  lemma StepStaysSound(run: Run, signal: SignalRow, price: PriceRow, costs: CostAssumptions)
    requires SessionInputs(signal, price) && Sound(run.account)
    ensures var r := EngineStep(run, signal, price, costs);
            && (r.Err? <==> signal.target == 0 && run.account.shares > 0 && !Sellable(costs))
            && (r.Ok? ==> Sound(r.value.account)
                          && |r.value.portfolio| == |run.portfolio| + 1
                          && r.value.portfolio[..|run.portfolio|] == run.portfolio
                          && SoundRow(r.value.portfolio[|run.portfolio|]))
  {
    hide DecideTrade, CloseSession, Sellable, SoundRow, ValidFill;
    var number := |OrdersOf(run.trades)| + 1;
    TradeOutcome(number, signal, price, run.account.cash, run.account.shares, costs);
    var decided := DecideTrade(number, signal, price, run.account.cash, run.account.shares, costs);
    if decided.Ok? {
      TradeKeepsSolvent(decided.value, run.account.cash, run.account.shares);
      ClosingStaysSound(|run.portfolio|, signal, price, CashAfter(decided.value, run.account.cash),
                        SharesAfter(decided.value, run.account.shares),
                        run.account.previousEquity, run.account.runningPeak);
    }
  }

  lemma TradeKeepsSolvent(t: Trade, cash: real, shares: int)
    requires Solvent(cash, shares)
    requires t.Filled? ==> ValidFill(t.fill)
    requires t.Filled? && t.fill.side == Sell ==> t.fill.sharesAfter == 0 && t.fill.cashAfter > 0.0
    ensures Solvent(CashAfter(t, cash), SharesAfter(t, shares))
  {
  }

  /** Cash and shares never go negative, equity stays positive, and every return and drawdown is defined. */
  lemma {:induction false} EveryRunIsSound(signals: seq<SignalRow>, prices: seq<PriceRow>, costs: CostAssumptions,
                                           n: nat)
    requires ValidInputs(signals, prices) && n <= |signals|
    requires EngineRun(signals, prices, costs, n).Ok?
    ensures var run := EngineRun(signals, prices, costs, n).value;
            && Sound(run.account) && |run.portfolio| == n
            && (forall i :: 0 <= i < n ==> SoundRow(run.portfolio[i]))
  {
    hide EngineStep, SoundRow;
    if n > 0 {
      EveryRunIsSound(signals, prices, costs, n - 1);
      StepStaysSound(EngineRun(signals, prices, costs, n - 1).value, signals[n - 1], prices[n - 1], costs);
    }
  }

  /** A run stops at a signal exactly when that signal closes a position that cannot be sold for money. */
  lemma StopsOnlyWhenUnsellable(signals: seq<SignalRow>, prices: seq<PriceRow>, costs: CostAssumptions, n: nat)
    requires ValidInputs(signals, prices) && n < |signals|
    requires EngineRun(signals, prices, costs, n).Ok?
    ensures EngineRun(signals, prices, costs, n + 1).Err? <==>
            && signals[n].target == 0
            && EngineRun(signals, prices, costs, n).value.account.shares > 0
            && !Sellable(costs)
  {
    hide EngineStep, SoundRow;
    EveryRunIsSound(signals, prices, costs, n);
    StepStaysSound(EngineRun(signals, prices, costs, n).value, signals[n], prices[n], costs);
  }

  /** With commission and slippage below the whole price, no run ever stops. */
  lemma {:induction false} SellableRunsFinish(signals: seq<SignalRow>, prices: seq<PriceRow>, costs: CostAssumptions,
                                              n: nat)
    requires ValidInputs(signals, prices) && n <= |signals| && Sellable(costs)
    ensures EngineRun(signals, prices, costs, n).Ok?
  {
    hide EngineStep;
    if n > 0 {
      SellableRunsFinish(signals, prices, costs, n - 1);
      StopsOnlyWhenUnsellable(signals, prices, costs, n - 1);
    }
  }
}
