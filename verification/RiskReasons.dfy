/**
 Why the risk rule refuses an order: for every reason exactly when it is given, in which order reasons stand, and what
 an approval and a refusal project, in terms of the order, the account and the configured basis points.
 */
module RiskReasons {
  import opened Trading
  import opened Wrappers
  import opened OrderCosts
  import opened RiskRules

  /**
   The order's price, commission and cash change are what its quantity and the basis points make of a reference price.
   */
  predicate PricedAs(o: ProposedOrder, reference: real, costs: CostAssumptions) {
    var notional := (o.quantity as real) * o.estimatedExecutionPrice;
    && o.estimatedExecutionPrice >= 0.0 && o.estimatedCommission >= 0.0
    && (o.estimatedExecutionPrice - reference) * 10000.0
    == (if o.side == Buy then reference * costs.slippageBps else -(reference * costs.slippageBps))
    && o.estimatedCommission * 10000.0 == notional * costs.commissionBps
    && o.estimatedCashChange
    == (if o.side == Buy then -(notional + o.estimatedCommission) else notional - o.estimatedCommission)
  }

  lemma CostsMatchExactly(o: ProposedOrder, reference: real, costs: CostAssumptions)
    ensures CostsMatch(o, reference, costs) <==> PricedAs(o, reference, costs)
  {
    PriceInBasisPoints(o.side, reference, costs);
    TimesTenThousand((o.quantity as real) * o.estimatedExecutionPrice, costs.commissionBps);
  }

  /** The position in which a reason stands among others. */
  function Place(code: ReasonCode): nat {
    match code
    case UnsupportedSymbol => 0
    case FractionalQuantityForbidden => 1
    case ExecutionNotAfterSignal => 2
    case InvalidTargetTransition => 3
    case PyramidingForbidden => 4
    case FullExitRequired => 4
    case InvalidPrice => 5
    case InvalidPortfolioState => 6
    case OrderCostEstimateMismatch => 7
    case InsufficientCash => 8
    case LeverageForbidden => 9
    case MaximumPositionExceeded => 10
    case SellQuantityExceedsPosition => 11
    case ShortSellingForbidden => 12
    case Approved => 13
  }

  /** Something is wrong with the order itself, whatever the account. */
  predicate Structural(code: ReasonCode, o: ProposedOrder, s: PortfolioState, costs: CostAssumptions) {
    match code
    case UnsupportedSymbol => o.symbol != "SPY"
    case FractionalQuantityForbidden => o.quantity < 1
    case ExecutionNotAfterSignal => o.executionSession <= o.signalSession
    case InvalidTargetTransition => o.targetPosition != 0 && o.targetPosition != 1
    case InvalidPrice => o.referenceOpen <= 0.0
    case InvalidPortfolioState => o.currentCash != s.cash || o.currentShares != s.shares
    case OrderCostEstimateMismatch =>
      o.quantity >= 1 && !PricedAs(o, if o.referenceOpen > 0.0 then o.referenceOpen else s.referencePrice, costs)
    case _ => false
  }

  /** Something is wrong with what a buy would leave. */
  predicate AgainstBuying(code: ReasonCode, o: ProposedOrder, s: PortfolioState) {
    var cash, value := s.cash + o.estimatedCashChange, ((s.shares + o.quantity) as real) * o.referenceOpen;
    match code
    case InvalidTargetTransition => o.targetPosition != 1
    case PyramidingForbidden => s.shares > 0
    case InsufficientCash => cash < 0.0
    case LeverageForbidden => cash < 0.0 || cash + value <= 0.0
    case MaximumPositionExceeded => cash + value > 0.0 && value > cash + value
    case _ => false
  }

  /** Something is wrong with what a sale would leave. */
  predicate AgainstSelling(code: ReasonCode, o: ProposedOrder, s: PortfolioState) {
    match code
    case InvalidTargetTransition => o.targetPosition != 0
    case FullExitRequired => o.quantity != s.shares
    case InvalidPrice => o.estimatedExecutionPrice <= 0.0
    case SellQuantityExceedsPosition => o.quantity > s.shares
    case ShortSellingForbidden => o.quantity > s.shares
    case _ => false
  }

  ghost predicate AnyStructural(o: ProposedOrder, s: PortfolioState, costs: CostAssumptions) {
    exists code :: Structural(code, o, s, costs)
  }

  /** Why an order is refused: what is wrong with it, or else what is wrong with what it would leave. */
  ghost predicate Refuses(code: ReasonCode, o: ProposedOrder, s: PortfolioState, costs: CostAssumptions) {
    if AnyStructural(o, s, costs) then Structural(code, o, s, costs)
    else if o.side == Buy then AgainstBuying(code, o, s)
    else AgainstSelling(code, o, s)
  }

  // ---------------------------------------------------------------- the order of reasons

  predicate InPlace(codes: seq<ReasonCode>) {
    forall i, j :: 0 <= i < j < |codes| ==> Place(codes[i]) <= Place(codes[j])
  }

  lemma AppendedInPlace(codes: seq<ReasonCode>, condition: bool, code: ReasonCode)
    requires InPlace(codes) && forall c :: c in codes ==> Place(c) <= Place(code)
    ensures InPlace(codes + When(condition, code))
    ensures forall c :: c in codes + When(condition, code) ==> Place(c) <= Place(code)
  {
  }

  lemma {:induction false} DistinctInPlace(codes: seq<ReasonCode>)
    requires InPlace(codes)
    ensures InPlace(Distinct(codes))
  {
    if codes != [] {
      var front, last := codes[..|codes| - 1], codes[|codes| - 1];
      DistinctInPlace(front);
      forall c | c in Distinct(front) ensures Place(c) <= Place(last) {
        var i :| 0 <= i < |front| && front[i] == c;
      }
    }
  }

  /** The codes of the first `n` conditions that hold. */
  function Listed(conditions: seq<(bool, ReasonCode)>, n: nat): seq<ReasonCode>
    requires n <= |conditions|
  {
    if n == 0 then [] else Listed(conditions, n - 1) + When(conditions[n - 1].0, conditions[n - 1].1)
  }

  lemma {:induction false} ListedMembers(conditions: seq<(bool, ReasonCode)>, n: nat)
    requires n <= |conditions|
    ensures forall c :: c in Listed(conditions, n) <==>
            exists k :: 0 <= k < n && conditions[k].0 && conditions[k].1 == c
  {
    if n > 0 {
      ListedMembers(conditions, n - 1);
    }
  }

  lemma {:induction false} ListedInPlace(conditions: seq<(bool, ReasonCode)>, n: nat)
    requires n <= |conditions|
    requires forall i, j :: 0 <= i < j < |conditions| ==> Place(conditions[i].1) <= Place(conditions[j].1)
    ensures InPlace(Listed(conditions, n))
  {
    if n > 0 {
      ListedInPlace(conditions, n - 1);
      ListedMembers(conditions, n - 1);
      AppendedInPlace(Listed(conditions, n - 1), conditions[n - 1].0, conditions[n - 1].1);
    }
  }

  function StructuralConditions(o: ProposedOrder, s: PortfolioState, costs: CostAssumptions): seq<(bool, ReasonCode)> {
    [(o.symbol != SUPPORTED_SYMBOL, UnsupportedSymbol),
     (o.quantity <= 0, FractionalQuantityForbidden),
     (o.executionSession <= o.signalSession, ExecutionNotAfterSignal),
     (o.targetPosition != 0 && o.targetPosition != 1, InvalidTargetTransition),
     (o.referenceOpen <= 0.0, InvalidPrice),
     (o.currentCash != s.cash || o.currentShares != s.shares, InvalidPortfolioState),
     (o.quantity > 0 && !CostsMatch(o, CheckedReference(o, s), costs), OrderCostEstimateMismatch)]
  }

  lemma SevenListed(c: seq<(bool, ReasonCode)>)
    requires |c| == 7
    ensures Listed(c, 7)
         == When(c[0].0, c[0].1) + When(c[1].0, c[1].1) + When(c[2].0, c[2].1) + When(c[3].0, c[3].1)
            + When(c[4].0, c[4].1) + When(c[5].0, c[5].1) + When(c[6].0, c[6].1)
  {
    hide When;
    assert Listed(c, 1) == When(c[0].0, c[0].1);
    assert Listed(c, 2) == Listed(c, 1) + When(c[1].0, c[1].1);
    assert Listed(c, 3) == Listed(c, 2) + When(c[2].0, c[2].1);
    assert Listed(c, 4) == Listed(c, 3) + When(c[3].0, c[3].1);
    assert Listed(c, 5) == Listed(c, 4) + When(c[4].0, c[4].1);
    assert Listed(c, 6) == Listed(c, 5) + When(c[5].0, c[5].1);
  }

  lemma StructuralIsListed(o: ProposedOrder, s: PortfolioState, costs: CostAssumptions)
    ensures StructuralReasons(o, s, costs) == Listed(StructuralConditions(o, s, costs), 7)
  {
    hide When, CostsMatch, Listed, CheckedReference;
    SevenListed(StructuralConditions(o, s, costs));
  }

  lemma StructuralInPlace(o: ProposedOrder, s: PortfolioState, costs: CostAssumptions)
    ensures InPlace(StructuralReasons(o, s, costs))
    ensures forall code :: code in StructuralReasons(o, s, costs) <==> Structural(code, o, s, costs)
  {
    CostsMatchExactly(o, CheckedReference(o, s), costs);
    hide When, CostsMatch, PricedAs, Listed, InPlace;
    var c := StructuralConditions(o, s, costs);
    StructuralIsListed(o, s, costs);
    ListedInPlace(c, 7);
    ListedMembers(c, 7);
    forall code ensures code in StructuralReasons(o, s, costs) <==> Structural(code, o, s, costs) {
      StructuralMembers(o, s, costs, code);
    }
  }

  lemma StructuralMembers(o: ProposedOrder, s: PortfolioState, costs: CostAssumptions, code: ReasonCode)
    requires CostsMatch(o, CheckedReference(o, s), costs) <==> PricedAs(o, CheckedReference(o, s), costs)
    ensures var c := StructuralConditions(o, s, costs);
            (exists k :: 0 <= k < 7 && c[k].0 && c[k].1 == code) <==> Structural(code, o, s, costs)
  {
    hide CostsMatch, PricedAs;
    var c := StructuralConditions(o, s, costs);
    if Structural(code, o, s, costs) {
      var k := match code
        case UnsupportedSymbol => 0
        case FractionalQuantityForbidden => 1
        case ExecutionNotAfterSignal => 2
        case InvalidTargetTransition => 3
        case InvalidPrice => 4
        case InvalidPortfolioState => 5
        case _ => 6;
      assert c[k].0 && c[k].1 == code;
    }
  }

  // ---------------------------------------------------------------- the projections

  lemma ProductBelow(a: real, b: real)
    requires b > 0.0
    ensures a / b > 1.0 <==> a > b
  {
    var q := a / b;
    assert q * b == a;
    if q > 1.0 { ProductPositive(q - 1.0, b); } else { ProductNonNegative(1.0 - q, b); }
  }

  function BuyConditions(o: ProposedOrder, s: PortfolioState): (r: seq<(bool, ReasonCode)>)
    ensures |r| == 6
  {
    var cash, value := s.cash + o.estimatedCashChange, ((s.shares + o.quantity) as real) * o.referenceOpen;
    [(o.targetPosition != 1, InvalidTargetTransition),
     (s.shares > 0, PyramidingForbidden),
     (cash < 0.0, InsufficientCash),
     (cash < 0.0, LeverageForbidden),
     (cash + value <= 0.0, LeverageForbidden),
     (cash + value > 0.0 && value > cash + value, MaximumPositionExceeded)]
  }

  function SellConditions(o: ProposedOrder, s: PortfolioState): (r: seq<(bool, ReasonCode)>)
    ensures |r| == 6
  {
    [(o.targetPosition != 0, InvalidTargetTransition),
     (o.quantity != s.shares, FullExitRequired),
     (o.estimatedExecutionPrice <= 0.0, InvalidPrice),
     (o.quantity > s.shares, SellQuantityExceedsPosition),
     (o.quantity > s.shares, ShortSellingForbidden),
     (o.quantity > s.shares, ShortSellingForbidden)]
  }

  lemma SixListed(c: seq<(bool, ReasonCode)>)
    requires |c| == 6
    ensures Listed(c, 6)
         == When(c[0].0, c[0].1) + When(c[1].0, c[1].1) + When(c[2].0, c[2].1)
            + When(c[3].0, c[3].1) + When(c[4].0, c[4].1) + When(c[5].0, c[5].1)
  {
    hide When;
    assert Listed(c, 1) == When(c[0].0, c[0].1);
    assert Listed(c, 2) == Listed(c, 1) + When(c[1].0, c[1].1);
    assert Listed(c, 3) == Listed(c, 2) + When(c[2].0, c[2].1);
    assert Listed(c, 4) == Listed(c, 3) + When(c[3].0, c[3].1);
    assert Listed(c, 5) == Listed(c, 4) + When(c[4].0, c[4].1);
  }

  lemma Regrouped<T>(a: seq<T>, b: seq<T>, c: seq<T>)
    ensures a + b + c == a + (b + c)
  {
  }

  /** The rule's own projection of a buy whose estimates are right. */
  lemma BuyProjected(o: ProposedOrder, s: PortfolioState, costs: CostAssumptions)
    requires o.side == Buy && PricedAs(o, o.referenceOpen, costs)
    ensures var p := BuyProjection(o.quantity, o.targetPosition, o.referenceOpen, s, costs);
            && p.reasons == Listed(BuyConditions(o, s), 6)
            && p.cash == s.cash + o.estimatedCashChange && p.shares == s.shares + o.quantity
            && p.marketValue == ((s.shares + o.quantity) as real) * o.referenceOpen
  {
    hide PricedAs, ExecutionPrice, CommissionRate;
    CostsMatchExactly(o, o.referenceOpen, costs);
    var p := BuyProjection(o.quantity, o.targetPosition, o.referenceOpen, s, costs);
    assert p.cash == s.cash + o.estimatedCashChange;
    var equity := p.cash + p.marketValue;
    if equity > 0.0 {
      ProductBelow(p.marketValue, equity);
    }
    var c := BuyConditions(o, s);
    SixListed(c);
    Regrouped(When(c[0].0, c[0].1) + When(c[1].0, c[1].1) + When(c[2].0, c[2].1) + When(c[3].0, c[3].1),
              When(c[4].0, c[4].1), When(c[5].0, c[5].1));
  }

  lemma SellProjected(o: ProposedOrder, s: PortfolioState, costs: CostAssumptions)
    requires o.side == Sell && PricedAs(o, o.referenceOpen, costs)
    ensures var p := SellProjection(o.quantity, o.targetPosition, o.referenceOpen, s, costs);
            && p.reasons == Listed(SellConditions(o, s), 6)
            && p.cash == s.cash + o.estimatedCashChange && p.shares == s.shares - o.quantity
            && p.marketValue
            == (if o.quantity > s.shares then 0.0 else (s.shares - o.quantity) as real) * o.referenceOpen
  {
    hide PricedAs, ExecutionPrice, CommissionRate;
    CostsMatchExactly(o, o.referenceOpen, costs);
    var c := SellConditions(o, s);
    SixListed(c);
    Regrouped(When(c[0].0, c[0].1) + When(c[1].0, c[1].1) + When(c[2].0, c[2].1),
              When(c[3].0, c[3].1), When(c[4].0, c[4].1));
  }

  lemma BuyMembers(o: ProposedOrder, s: PortfolioState, code: ReasonCode)
    ensures var c := BuyConditions(o, s);
            (exists k :: 0 <= k < 6 && c[k].0 && c[k].1 == code) <==> AgainstBuying(code, o, s)
  {
    var c, cash := BuyConditions(o, s), s.cash + o.estimatedCashChange;
    if AgainstBuying(code, o, s) {
      var k := match code
        case InvalidTargetTransition => 0
        case PyramidingForbidden => 1
        case InsufficientCash => 2
        case LeverageForbidden => if cash < 0.0 then 3 else 4
        case _ => 5;
      assert c[k].0 && c[k].1 == code;
    }
  }

  lemma SellMembers(o: ProposedOrder, s: PortfolioState, code: ReasonCode)
    ensures var c := SellConditions(o, s);
            (exists k :: 0 <= k < 6 && c[k].0 && c[k].1 == code) <==> AgainstSelling(code, o, s)
  {
    var c := SellConditions(o, s);
    if AgainstSelling(code, o, s) {
      var k := match code
        case InvalidTargetTransition => 0
        case FullExitRequired => 1
        case InvalidPrice => 2
        case SellQuantityExceedsPosition => 3
        case _ => 4;
      assert c[k].0 && c[k].1 == code;
    }
  }

  lemma BuyListed(o: ProposedOrder, s: PortfolioState)
    ensures var r := Listed(BuyConditions(o, s), 6);
            InPlace(r) && forall code :: code in r <==> AgainstBuying(code, o, s)
  {
    hide AgainstBuying, Listed, InPlace;
    var c := BuyConditions(o, s);
    ListedInPlace(c, 6);
    ListedMembers(c, 6);
    hide BuyConditions;
    forall code ensures code in Listed(c, 6) <==> AgainstBuying(code, o, s) {
      BuyMembers(o, s, code);
    }
  }

  lemma SellListed(o: ProposedOrder, s: PortfolioState)
    ensures var r := Listed(SellConditions(o, s), 6);
            InPlace(r) && forall code :: code in r <==> AgainstSelling(code, o, s)
  {
    hide AgainstSelling, Listed, InPlace;
    var c := SellConditions(o, s);
    ListedInPlace(c, 6);
    ListedMembers(c, 6);
    hide SellConditions;
    forall code ensures code in Listed(c, 6) <==> AgainstSelling(code, o, s) {
      SellMembers(o, s, code);
    }
  }

  lemma EmptyOrNot(codes: seq<ReasonCode>)
    ensures codes == [] <==> forall code :: code !in codes
  {
    if codes != [] {
      assert codes[0] in codes;
    }
  }

  // ---------------------------------------------------------------- the decision

  /** The account after an order whose estimates are right. */
  function ProjectedShares(o: ProposedOrder, s: PortfolioState): int {
    if o.side == Buy then s.shares + o.quantity else s.shares - o.quantity
  }

  /**
   A decision on an order: it is a refusal exactly when some reason holds; a refusal gives every reason that holds,
   once and in place, and leaves the account as it is; an approval gives none and projects the account after the order.
   */
  ghost predicate Decides(d: RiskDecision, o: ProposedOrder, s: PortfolioState, costs: CostAssumptions) {
    && d.orderSequenceNumber == o.sequenceNumber && d.evaluatedSession == o.executionSession
    && (d.approved <==> forall code :: !Refuses(code, o, s, costs))
    && (d.approved ==>
          && d.reasonCodes == [Approved]
          && d.projectedCash == s.cash + o.estimatedCashChange
          && d.projectedShares == ProjectedShares(o, s)
          && d.projectedMarketValue == (ProjectedShares(o, s) as real) * o.referenceOpen
          && d.projectedEquity == d.projectedCash + d.projectedMarketValue)
    && (!d.approved ==>
          && NoRepeats(d.reasonCodes) && InPlace(d.reasonCodes)
          && (forall code :: code in d.reasonCodes <==> Refuses(code, o, s, costs))
          && d.projectedCash == s.cash && d.projectedShares == s.shares
          && d.projectedMarketValue == s.marketValue && d.projectedEquity == s.equity)
  }

  /** The rule decides so, whenever it gives a decision. */
  lemma DecisionExactly(o: ProposedOrder, s: PortfolioState, costs: CostAssumptions)
    requires EvaluateOrderRisk(o, s, costs).Ok?
    ensures Decides(EvaluateOrderRisk(o, s, costs).value, o, s, costs)
  {
    hide Structural, AgainstBuying, AgainstSelling, PricedAs, BuyProjection, SellProjection, InPlace, NoRepeats,
      StructuralReasons, Listed, BuyConditions, SellConditions;
    StructuralInPlace(o, s, costs);
    DistinctInPlace(StructuralReasons(o, s, costs));
    if StructuralReasons(o, s, costs) == [] {
      assert !AnyStructural(o, s, costs);
      if o.side == Buy {
        BuyReasons(o, s, costs);
      } else {
        SellReasons(o, s, costs);
      }
    } else {
      var code := StructuralReasons(o, s, costs)[0];
      assert code in StructuralReasons(o, s, costs);
      assert AnyStructural(o, s, costs) && Refuses(code, o, s, costs);
    }
  }

  lemma RightlyPriced(o: ProposedOrder, s: PortfolioState, costs: CostAssumptions)
    requires !AnyStructural(o, s, costs)
    ensures PricedAs(o, o.referenceOpen, costs)
  {
    hide PricedAs;
    assert !Structural(OrderCostEstimateMismatch, o, s, costs) && !Structural(InvalidPrice, o, s, costs);
    assert !Structural(FractionalQuantityForbidden, o, s, costs);
  }

  lemma BuyReasons(o: ProposedOrder, s: PortfolioState, costs: CostAssumptions)
    requires o.side == Buy && !AnyStructural(o, s, costs)
    ensures var p := BuyProjection(o.quantity, o.targetPosition, o.referenceOpen, s, costs);
            && InPlace(Distinct(p.reasons)) && (p.reasons == [] <==> forall code :: !Refuses(code, o, s, costs))
            && (forall code :: code in p.reasons <==> Refuses(code, o, s, costs))
            && p.cash == s.cash + o.estimatedCashChange && p.shares == ProjectedShares(o, s)
            && p.marketValue == (ProjectedShares(o, s) as real) * o.referenceOpen
  {
    hide PricedAs, BuyProjection, AgainstBuying, InPlace, Listed, BuyConditions, AnyStructural;
    RightlyPriced(o, s, costs);
    BuyProjected(o, s, costs);
    BuyListed(o, s);
    DistinctInPlace(Listed(BuyConditions(o, s), 6));
    EmptyOrNot(Listed(BuyConditions(o, s), 6));
    assert forall code :: Refuses(code, o, s, costs) <==> AgainstBuying(code, o, s);
  }

  lemma SellReasons(o: ProposedOrder, s: PortfolioState, costs: CostAssumptions)
    requires o.side == Sell && !AnyStructural(o, s, costs)
    ensures var p := SellProjection(o.quantity, o.targetPosition, o.referenceOpen, s, costs);
            && InPlace(Distinct(p.reasons)) && (p.reasons == [] <==> forall code :: !Refuses(code, o, s, costs))
            && (forall code :: code in p.reasons <==> Refuses(code, o, s, costs))
            && p.cash == s.cash + o.estimatedCashChange && p.shares == ProjectedShares(o, s)
            && (o.quantity <= s.shares ==> p.marketValue == (ProjectedShares(o, s) as real) * o.referenceOpen)
            && (o.quantity > s.shares ==> p.reasons != [])
  {
    hide PricedAs, SellProjection, InPlace, Listed, SellConditions, AnyStructural;
    RightlyPriced(o, s, costs);
    SellProjected(o, s, costs);
    SellListed(o, s);
    DistinctInPlace(Listed(SellConditions(o, s), 6));
    EmptyOrNot(Listed(SellConditions(o, s), 6));
    assert forall code :: Refuses(code, o, s, costs) <==> AgainstSelling(code, o, s);
    assert o.quantity > s.shares ==> AgainstSelling(ShortSellingForbidden, o, s);
  }

  /** What the rule asks of account and number before it looks at anything else. */
  predicate Judgeable(o: ProposedOrder, s: PortfolioState) {
    && s.cash >= 0.0 && s.shares >= 0 && s.referencePrice > 0.0
    && s.marketValue == (s.shares as real) * s.referencePrice && s.equity == s.cash + s.marketValue
    && o.sequenceNumber >= 1
  }

  lemma JudgeableExactly(o: ProposedOrder, s: PortfolioState)
    ensures Judgeable(o, s) <==> ValidState(s) && o.sequenceNumber >= 1
  {
    if s.shares >= 0 && s.referencePrice > 0.0 {
      ProductNonNegative(s.shares as real, s.referencePrice);
    }
  }

  lemma StructurallyRefused(o: ProposedOrder, s: PortfolioState, costs: CostAssumptions)
    requires StructuralReasons(o, s, costs) != []
    ensures AnyStructural(o, s, costs) && exists code :: Refuses(code, o, s, costs)
  {
    hide Structural, InPlace, StructuralReasons;
    StructuralInPlace(o, s, costs);
    var code := StructuralReasons(o, s, costs)[0];
    assert code in StructuralReasons(o, s, costs);
    assert Refuses(code, o, s, costs);
  }

  /**
   The rule gives a decision exactly on a sound account, for a positive number, unless an approval would leave debt.
   */
  lemma DecisionExists(o: ProposedOrder, s: PortfolioState, costs: CostAssumptions)
    ensures EvaluateOrderRisk(o, s, costs).Ok? <==>
            && Judgeable(o, s)
            && ((forall code :: !Refuses(code, o, s, costs)) ==>
                  s.cash + o.estimatedCashChange >= 0.0 && ProjectedShares(o, s) >= 0)
  {
    hide Refuses, AnyStructural, Structural, BuyProjection, SellProjection, InPlace, StructuralReasons, Judgeable,
      ValidState;
    JudgeableExactly(o, s);
    if StructuralReasons(o, s, costs) != [] {
      StructurallyRefused(o, s, costs);
    } else {
      NotStructural(o, s, costs);
      PositiveReference(o, s, costs);
      if o.side == Buy {
        BuyReasons(o, s, costs);
      } else {
        SellReasons(o, s, costs);
      }
      if ProjectedShares(o, s) >= 0 {
        ProductNonNegative(ProjectedShares(o, s) as real, o.referenceOpen);
      }
    }
  }

  lemma NotStructural(o: ProposedOrder, s: PortfolioState, costs: CostAssumptions)
    requires StructuralReasons(o, s, costs) == []
    ensures !AnyStructural(o, s, costs)
  {
    hide Structural, InPlace, StructuralReasons;
    StructuralInPlace(o, s, costs);
  }

  lemma PositiveReference(o: ProposedOrder, s: PortfolioState, costs: CostAssumptions)
    requires !AnyStructural(o, s, costs)
    ensures o.referenceOpen > 0.0
  {
    hide PricedAs;
    assert !Structural(InvalidPrice, o, s, costs);
  }
}
