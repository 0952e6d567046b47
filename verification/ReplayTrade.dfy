/**
 One signal, two programs: a recorded trade passes the audit's checks exactly when it is the trade the
 simulator decides on from the same account.
 */
module ReplayTrade {
  import opened Trading
  import opened Wrappers
  import opened OrderCosts
  import opened RiskRules
  import opened BacktestEngine
  import opened EngineSafety
  import opened AuditReplay

  function NumberOf(t: Trade): int {
    if t.NoTrade? then 1 else t.order.sequenceNumber
  }

  /** A SPY order that the frame checks accept for this signal. */
  ghost predicate OrderRecorded(o: ProposedOrder, signal: SignalRow, costs: CostAssumptions) {
    && ValidOrder(o)
    && EstimateRecorded(o, costs)
    && o.symbol == SUPPORTED_SYMBOL
    && KeyOf(o) == KeyOfSignal(signal)
    && o.targetPosition == signal.target
  }

  /** Records that the frame checks accept for this signal, filed under one number. */
  ghost predicate TradeRecorded(t: Trade, signal: SignalRow, costs: CostAssumptions) {
    match t
    case NoTrade => true
    case Rejected(o, d) =>
      && OrderRecorded(o, signal, costs)
      && ValidDecision(d) && d.orderSequenceNumber == o.sequenceNumber
    case Filled(o, d, f) =>
      && OrderRecorded(o, signal, costs)
      && ValidDecision(d) && d.orderSequenceNumber == o.sequenceNumber
      && ValidFill(f) && f.orderSequenceNumber == o.sequenceNumber
  }

  predicate CallsForOrder(signal: SignalRow, shares: int) {
    !(signal.target == 1 && shares > 0) && !(signal.target == 0 && shares == 0)
  }

  lemma ProposalIsRecorded(number: int, signal: SignalRow, open: real, cash: real, shares: int, costs: CostAssumptions)
    requires ProposeOrder(number, signal, open, cash, shares, costs).Ok?
    requires ProposeOrder(number, signal, open, cash, shares, costs).value.Some?
    ensures CallsForOrder(signal, shares)
    ensures var o := ProposeOrder(number, signal, open, cash, shares, costs).value.value;
            && o.sequenceNumber == number
            && OrderRecorded(o, signal, costs)
            && o.referenceOpen == open && o.currentCash == cash && o.currentShares == shares
            && SizedForTarget(o, signal.target, open, cash, shares, costs)
            && CanonicalOrder(o, open, cash, shares, costs) == Some(o)
  {
    hide EstimateOrderCost, MaximumAffordableBuyQuantity, ValidOrder;
  }

  lemma RecordedIsProposed(o: ProposedOrder, signal: SignalRow, open: real, cash: real, shares: int,
                           costs: CostAssumptions)
    requires OrderRecorded(o, signal, costs) && CallsForOrder(signal, shares)
    requires o.referenceOpen == open && o.currentCash == cash && o.currentShares == shares
    requires SizedForTarget(o, signal.target, open, cash, shares, costs)
    ensures ProposeOrder(o.sequenceNumber, signal, open, cash, shares, costs) == Ok(Some(o))
    ensures CanonicalOrder(o, open, cash, shares, costs) == Some(o)
  {
    hide EstimateOrderCost, MaximumAffordableBuyQuantity, ValidOrder;
  }

  lemma FillIsMade(f: FillRecord, o: ProposedOrder, d: RiskDecision, cash: real, shares: int, costs: CostAssumptions)
    requires ValidFill(f) && f.orderSequenceNumber == o.sequenceNumber
    requires FillMatches(f, o, d, cash, shares, costs)
    ensures FillFromApprovedOrder(o, cash, shares, costs) == Ok(f)
  {
    hide EstimateOrderCost;
  }

  lemma MadeFillMatches(o: ProposedOrder, d: RiskDecision, cash: real, shares: int, costs: CostAssumptions)
    requires FillFromApprovedOrder(o, cash, shares, costs).Ok?
    requires var f := FillFromApprovedOrder(o, cash, shares, costs).value;
             f.cashAfter == d.projectedCash && f.sharesAfter == d.projectedShares
    ensures var f := FillFromApprovedOrder(o, cash, shares, costs).value;
            && ValidFill(f) && f.orderSequenceNumber == o.sequenceNumber
            && FillMatches(f, o, d, cash, shares, costs)
  {
    hide EstimateOrderCost;
  }

  /** A recorded trade that passes the chronological checks is the simulator's trade. */
  lemma ReplayedIsDecided(t: Trade, signal: SignalRow, price: PriceRow, cash: real, shares: int, costs: CostAssumptions)
    requires TradeRecorded(t, signal, costs) && shares >= 0
    requires TradeReplays(t, signal, price.referenceOpen, cash, shares, costs)
    ensures DecideTrade(NumberOf(t), signal, price, cash, shares, costs) == Ok(t)
  {
    hide ProposeOrder, EvaluateOrderRisk, FillFromApprovedOrder, CanonicalOrder, OrderRecorded, ValidDecision,
      ValidFill, SizedForTarget, FillMatches;
    var open := price.referenceOpen;
    if t.NoTrade? {
      NothingToPropose(signal, open, cash, shares, costs);
    } else {
      RecordedIsProposed(t.order, signal, open, cash, shares, costs);
      if t.Filled? {
        FillIsMade(t.fill, t.order, t.decision, cash, shares, costs);
      }
    }
  }

  lemma NothingToPropose(signal: SignalRow, open: real, cash: real, shares: int, costs: CostAssumptions)
    requires shares >= 0 && !CallsForOrder(signal, shares)
    ensures ProposeOrder(1, signal, open, cash, shares, costs) == Ok(None)
  {
  }

  /** The simulator's trade passes every check of the audit. */
  lemma DecidedReplays(number: int, t: Trade, signal: SignalRow, price: PriceRow, cash: real, shares: int,
                       costs: CostAssumptions)
    requires number >= 1 && SessionInputs(signal, price) && Solvent(cash, shares)
    requires DecideTrade(number, signal, price, cash, shares, costs) == Ok(t)
    ensures TradeRecorded(t, signal, costs)
    ensures TradeReplays(t, signal, price.referenceOpen, cash, shares, costs)
    ensures !t.NoTrade? ==> NumberOf(t) == number
  {
    hide ProposeOrder, EvaluateOrderRisk, FillFromApprovedOrder, CanonicalOrder, OrderRecorded, ValidDecision,
      ValidFill, SizedForTarget, FillMatches, EstimateOrderCost;
    var open := price.referenceOpen;
    if t.NoTrade? {
      TradeOutcome(number, signal, price, cash, shares, costs);
    } else {
      ProposalIsRecorded(number, signal, open, cash, shares, costs);
      if t.Filled? {
        var s := OpenState(signal.executionSession, cash, shares, open);
        ApprovalProjectsTheFill(t.order, s, costs);
        FillReaches(t.order, cash, shares, costs);
        MadeFillMatches(t.order, t.decision, cash, shares, costs);
      }
    }
  }

  lemma FillReaches(o: ProposedOrder, cash: real, shares: int, costs: CostAssumptions)
    requires FillFromApprovedOrder(o, cash, shares, costs).Ok?
    ensures EstimateOrderCost(o.side, o.quantity, o.referenceOpen, costs).Ok?
    ensures var f := FillFromApprovedOrder(o, cash, shares, costs).value;
            && f.cashAfter == cash + EstimateOrderCost(o.side, o.quantity, o.referenceOpen, costs).value.cashChange
            && f.sharesAfter == (if o.side == Buy then shares + o.quantity else shares - o.quantity)
  {
    hide EstimateOrderCost;
  }
}
