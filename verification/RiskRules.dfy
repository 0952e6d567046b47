/**
 The independent long-only risk rule: it re-derives an order's cost, refuses anything but whole SPY
 round trips paid in cash, and projects the account an approved order leaves behind.
 */
module RiskRules {
  import opened Trading
  import opened Wrappers
  import opened OrderCosts

  type Session = int

  datatype ReasonCode =
    | Approved
    | UnsupportedSymbol
    | ShortSellingForbidden
    | LeverageForbidden
    | FractionalQuantityForbidden
    | InsufficientCash
    | SellQuantityExceedsPosition
    | InvalidTargetTransition
    | ExecutionNotAfterSignal
    | MaximumPositionExceeded
    | InvalidPrice
    | InvalidPortfolioState
    | PyramidingForbidden
    | FullExitRequired
    | OrderCostEstimateMismatch

  datatype RiskError = InvalidState | InvalidSequence | InvalidProjection

  datatype ProposedOrder = ProposedOrder(
    sequenceNumber: int,
    symbol: string,
    side: Side,
    quantity: int,
    signalSession: Session,
    executionSession: Session,
    targetPosition: int,
    referenceOpen: real,
    estimatedExecutionPrice: real,
    estimatedCommission: real,
    estimatedCashChange: real,
    currentCash: real,
    currentShares: int)

  datatype PortfolioState = PortfolioState(
    session: Session,
    cash: real,
    shares: int,
    referencePrice: real,
    marketValue: real,
    equity: real)

  datatype RiskDecision = RiskDecision(
    orderSequenceNumber: int,
    approved: bool,
    reasonCodes: seq<ReasonCode>,
    evaluatedSession: Session,
    projectedCash: real,
    projectedShares: int,
    projectedMarketValue: real,
    projectedEquity: real)

  function OrderNumber(o: ProposedOrder): int { o.sequenceNumber }
  function DecisionNumber(d: RiskDecision): int { d.orderSequenceNumber }

  /** What the ProposedOrder constructor accepts. */
  predicate ValidOrder(o: ProposedOrder) {
    && o.sequenceNumber >= 1
    && o.symbol != []
    && o.quantity >= 1
    && o.executionSession > o.signalSession
    && (o.targetPosition == 0 || o.targetPosition == 1)
    && (o.side == Buy ==> o.targetPosition == 1)
    && (o.side == Sell ==> o.targetPosition == 0)
    && o.referenceOpen > 0.0
    && o.estimatedExecutionPrice > 0.0
    && o.estimatedCommission >= 0.0
    && o.currentCash >= 0.0
    && o.currentShares >= 0
    && (o.side == Buy ==> o.estimatedCashChange < 0.0)
    && (o.side == Sell ==> o.estimatedCashChange > 0.0)
  }

  /** What the PortfolioState constructor accepts. */
  predicate ValidState(s: PortfolioState) {
    && s.cash >= 0.0
    && s.shares >= 0
    && s.referencePrice > 0.0
    && s.marketValue == (s.shares as real) * s.referencePrice
    && s.marketValue >= 0.0
    && s.equity == s.cash + s.marketValue
  }

  predicate NoRepeats(codes: seq<ReasonCode>) {
    forall i, j :: 0 <= i < j < |codes| ==> codes[i] != codes[j]
  }

  /** What the RiskDecision constructor accepts. */
  predicate ValidDecision(d: RiskDecision) {
    && d.orderSequenceNumber >= 1
    && d.reasonCodes != []
    && NoRepeats(d.reasonCodes)
    && (d.approved ==> d.reasonCodes == [Approved])
    && (!d.approved ==> Approved !in d.reasonCodes)
    && d.projectedCash >= 0.0
    && d.projectedShares >= 0
    && d.projectedMarketValue >= 0.0
    && d.projectedEquity == d.projectedCash + d.projectedMarketValue
  }

  function When(condition: bool, code: ReasonCode): seq<ReasonCode> {
    if condition then [code] else []
  }

  /** The distinct codes in the order of their first appearance. */
  function Distinct(codes: seq<ReasonCode>): (r: seq<ReasonCode>)
    ensures NoRepeats(r)
    ensures forall c :: c in r <==> c in codes
    ensures codes != [] ==> r != []
  {
    if codes == [] then
      []
    else
      var front := Distinct(codes[..|codes| - 1]);
      var last := codes[|codes| - 1];
      if last in front then front else front + [last]
  }

  /** The order's three cost estimates are exactly what the rule derives for itself. */
  predicate CostsMatch(o: ProposedOrder, reference: real, costs: CostAssumptions) {
    var price := ExecutionPrice(o.side, reference, costs);
    var notional := (o.quantity as real) * price;
    var commission := notional * CommissionRate(costs);
    && o.estimatedExecutionPrice >= 0.0 && o.estimatedExecutionPrice == price
    && o.estimatedCommission >= 0.0 && o.estimatedCommission == commission
    && o.estimatedCashChange == (if o.side == Buy then -(notional + commission) else notional - commission)
  }

  function CheckedReference(o: ProposedOrder, s: PortfolioState): real {
    if o.referenceOpen > 0.0 then o.referenceOpen else s.referencePrice
  }

  /** Reasons found before any projection is made. */
  function StructuralReasons(o: ProposedOrder, s: PortfolioState, costs: CostAssumptions): (r: seq<ReasonCode>)
    ensures Approved !in r
  {
    When(o.symbol != SUPPORTED_SYMBOL, UnsupportedSymbol)
    + When(o.quantity <= 0, FractionalQuantityForbidden)
    + When(o.executionSession <= o.signalSession, ExecutionNotAfterSignal)
    + When(o.targetPosition != 0 && o.targetPosition != 1, InvalidTargetTransition)
    + When(o.referenceOpen <= 0.0, InvalidPrice)
    + When(o.currentCash != s.cash || o.currentShares != s.shares, InvalidPortfolioState)
    + When(o.quantity > 0 && !CostsMatch(o, CheckedReference(o, s), costs), OrderCostEstimateMismatch)
  }

  datatype Projection = Projection(reasons: seq<ReasonCode>, cash: real, shares: int, marketValue: real)

  function BuyProjection(quantity: int, target: int, reference: real, s: PortfolioState, costs: CostAssumptions)
    : (p: Projection)
    ensures Approved !in p.reasons
  {
    var notional := (quantity as real) * ExecutionPrice(Buy, reference, costs);
    var required := notional + notional * CommissionRate(costs);
    var cash := s.cash - required;
    var shares := s.shares + quantity;
    var marketValue := (shares as real) * reference;
    var equity := cash + marketValue;
    Projection(
      When(target != 1, InvalidTargetTransition)
      + When(s.shares > 0, PyramidingForbidden)
      + When(required > s.cash, InsufficientCash)
      + When(cash < 0.0, LeverageForbidden)
      + (if equity <= 0.0 then [LeverageForbidden]
         else When(marketValue / equity > 1.0, MaximumPositionExceeded)),
      cash, shares, marketValue)
  }

  function SellProjection(quantity: int, target: int, reference: real, s: PortfolioState, costs: CostAssumptions)
    : (p: Projection)
    ensures Approved !in p.reasons
  {
    var price := ExecutionPrice(Sell, reference, costs);
    var notional := (quantity as real) * price;
    var cash := s.cash + (notional - notional * CommissionRate(costs));
    var shares := s.shares - quantity;
    Projection(
      When(target != 0, InvalidTargetTransition)
      + When(quantity != s.shares, FullExitRequired)
      + When(price <= 0.0, InvalidPrice)
      + (if quantity > s.shares then [SellQuantityExceedsPosition, ShortSellingForbidden] else [])
      + When(shares < 0, ShortSellingForbidden),
      cash, shares, (if shares < 0 then 0.0 else shares as real) * reference)
  }

  function Rejection(o: ProposedOrder, s: PortfolioState, reasons: seq<ReasonCode>): RiskDecision {
    RiskDecision(o.sequenceNumber, false, Distinct(reasons), o.executionSession,
                 s.cash, s.shares, s.marketValue, s.equity)
  }

  function EvaluateOrderRisk(o: ProposedOrder, s: PortfolioState, costs: CostAssumptions)
    : (r: Result<RiskDecision, RiskError>)
    ensures r.Ok? ==> ValidDecision(r.value) && r.value.orderSequenceNumber == o.sequenceNumber
  {
    if !ValidState(s) then
      Err(InvalidState)
    else if o.sequenceNumber < 1 then
      Err(InvalidSequence)
    else
      var structural := StructuralReasons(o, s, costs);
      if structural != [] then
        Ok(Rejection(o, s, structural))
      else
        var p := if o.side == Buy
                 then BuyProjection(o.quantity, o.targetPosition, o.referenceOpen, s, costs)
                 else SellProjection(o.quantity, o.targetPosition, o.referenceOpen, s, costs);
        if p.reasons != [] then
          Ok(Rejection(o, s, p.reasons))
        else
          var d := RiskDecision(o.sequenceNumber, true, [Approved], o.executionSession,
                                p.cash, p.shares, p.marketValue, p.cash + p.marketValue);
          if ValidDecision(d) then Ok(d) else Err(InvalidProjection)
  }

  // ---------------------------------------------------------------- properties

  /** An order that agrees with the account and the prices it is judged against. */
  ghost predicate Canonical(o: ProposedOrder, s: PortfolioState, costs: CostAssumptions) {
    && ValidOrder(o)
    && ValidState(s)
    && o.symbol == SUPPORTED_SYMBOL
    && o.referenceOpen == s.referencePrice
    && o.currentCash == s.cash
    && o.currentShares == s.shares
    && CostsMatch(o, o.referenceOpen, costs)
  }

  /** The rule only copies the sequence number. */
  lemma DecisionIgnoresSequence(o: ProposedOrder, s: PortfolioState, costs: CostAssumptions, number: int)
    requires o.sequenceNumber >= 1 && number >= 1
    ensures var (r, r') := (EvaluateOrderRisk(o, s, costs),
                            EvaluateOrderRisk(o.(sequenceNumber := number), s, costs));
            r' == (if r.Ok? then Ok(r.value.(orderSequenceNumber := number)) else r)
  {
    hide BuyProjection, SellProjection, Distinct, ValidState;
    var o' := o.(sequenceNumber := number);
    assert StructuralReasons(o', s, costs) == StructuralReasons(o, s, costs);
  }

  /**
   An approved order is a SPY order that agrees with the account, and its projection is the account after the fill.
   */
  lemma ApprovalProjectsTheFill(o: ProposedOrder, s: PortfolioState, costs: CostAssumptions)
    requires EvaluateOrderRisk(o, s, costs).Ok? && EvaluateOrderRisk(o, s, costs).value.approved
    ensures o.symbol == SUPPORTED_SYMBOL && o.currentCash == s.cash && o.currentShares == s.shares
    ensures EstimateOrderCost(o.side, o.quantity, o.referenceOpen, costs).Ok?
    ensures var (d, e) := (EvaluateOrderRisk(o, s, costs).value,
                           EstimateOrderCost(o.side, o.quantity, o.referenceOpen, costs).value);
            && d.projectedCash == s.cash + e.cashChange && d.projectedCash >= 0.0
            && d.projectedShares == (if o.side == Buy then s.shares + o.quantity else s.shares - o.quantity)
            && d.projectedShares >= 0
  {
    hide Distinct;
    assert StructuralReasons(o, s, costs) == [];
    if o.side == Buy {
      assert BuyProjection(o.quantity, o.targetPosition, o.referenceOpen, s, costs).reasons == [];
    } else {
      assert SellProjection(o.quantity, o.targetPosition, o.referenceOpen, s, costs).reasons == [];
    }
  }

  lemma WeightWithinOne(marketValue: real, equity: real)
    requires equity > 0.0 && marketValue <= equity
    ensures marketValue / equity <= 1.0
  {
  }

  /** A canonical buy out of cash is approved exactly when the cash covers it. */
  lemma BuyApprovedIffAffordable(o: ProposedOrder, s: PortfolioState, costs: CostAssumptions)
    requires Canonical(o, s, costs) && o.side == Buy && s.shares == 0
    ensures EvaluateOrderRisk(o, s, costs).Ok?
    ensures EvaluateOrderRisk(o, s, costs).value.approved <==> s.cash + o.estimatedCashChange >= 0.0
  {
    hide Distinct;
    var p := BuyProjection(o.quantity, o.targetPosition, o.referenceOpen, s, costs);
    assert StructuralReasons(o, s, costs) == [];
    assert p.cash == s.cash + o.estimatedCashChange;
    ProductPositive(o.quantity as real, o.referenceOpen);
    if p.cash >= 0.0 {
      WeightWithinOne(p.marketValue, p.cash + p.marketValue);
      assert p.reasons == [];
    } else {
      assert InsufficientCash in p.reasons;
    }
  }

  /** A canonical sell of the whole position is always approved. */
  lemma FullExitApproved(o: ProposedOrder, s: PortfolioState, costs: CostAssumptions)
    requires Canonical(o, s, costs) && o.side == Sell && o.quantity == s.shares
    ensures EvaluateOrderRisk(o, s, costs).Ok? && EvaluateOrderRisk(o, s, costs).value.approved
  {
    hide Distinct;
    var p := SellProjection(o.quantity, o.targetPosition, o.referenceOpen, s, costs);
    assert StructuralReasons(o, s, costs) == [];
    assert p.reasons == [];
    assert p.cash == s.cash + o.estimatedCashChange;
  }
}
