/**
 Order cost arithmetic in exact numbers: what an order costs at the next open,
 and how many whole shares the available cash can buy.
 */
module OrderCosts {
  import opened Trading
  import opened Wrappers

  /** Commission and slippage per side in basis points; the constructor refuses negative values. */
  datatype CostRates = CostRates(commissionBps: real, slippageBps: real)

  type CostAssumptions = c: CostRates | c.commissionBps >= 0.0 && c.slippageBps >= 0.0
    witness CostRates(0.0, 0.0)

  function CommissionRate(c: CostAssumptions): (r: real)
    ensures r >= 0.0
  {
    c.commissionBps / 10000.0
  }

  function SlippageRate(c: CostAssumptions): (r: real)
    ensures r >= 0.0
  {
    c.slippageBps / 10000.0
  }

  datatype OrderCostEstimate = OrderCostEstimate(
    executionPrice: real,
    referenceNotional: real,
    executionNotional: real,
    commission: real,
    slippageCost: real,
    totalTransactionCost: real,
    cashChange: real)

  datatype CostError = InvalidQuantity | NonPositiveReference | NonPositiveSellPrice | NegativeCash

  function Abs(x: real): real {
    if x < 0.0 then -x else x
  }

  function ExecutionPrice(side: Side, reference: real, costs: CostAssumptions): real {
    match side
    case Buy => reference * (1.0 + SlippageRate(costs))
    case Sell => reference * (1.0 - SlippageRate(costs))
  }

  function EstimateOrderCost(side: Side, quantity: int, reference: real, costs: CostAssumptions)
    : Result<OrderCostEstimate, CostError>
  {
    if quantity < 1 then
      Err(InvalidQuantity)
    else if reference <= 0.0 then
      Err(NonPositiveReference)
    else
      var price := ExecutionPrice(side, reference, costs);
      if side == Sell && price <= 0.0 then
        Err(NonPositiveSellPrice)
      else
        var shares := quantity as real;
        var executionNotional := shares * price;
        var commission := executionNotional * CommissionRate(costs);
        var slippageCost := Abs(price - reference) * shares;
        Ok(OrderCostEstimate(
             price,
             shares * reference,
             executionNotional,
             commission,
             slippageCost,
             commission + slippageCost,
             if side == Buy then -(executionNotional + commission) else executionNotional - commission))
  }

  function PerShareCash(reference: real, costs: CostAssumptions): real {
    ExecutionPrice(Buy, reference, costs) * (1.0 + CommissionRate(costs))
  }

  function MaximumAffordableBuyQuantity(cash: real, reference: real, costs: CostAssumptions): Result<int, CostError> {
    if cash < 0.0 then
      Err(NegativeCash)
    else if reference <= 0.0 then
      Err(NonPositiveReference)
    else
      PerShareCashPositive(reference, costs);
      Ok((cash / PerShareCash(reference, costs)).Floor)
  }

  // ---------------------------------------------------------------- properties

  lemma ProductPositive(a: real, b: real)
    requires a > 0.0 && b > 0.0
    ensures a * b > 0.0
  {
  }

  lemma ProductNonNegative(a: real, b: real)
    requires a >= 0.0 && b >= 0.0
    ensures a * b >= 0.0
  {
  }

  lemma PerShareCashPositive(reference: real, costs: CostAssumptions)
    requires reference > 0.0
    ensures ExecutionPrice(Buy, reference, costs) > 0.0
    ensures PerShareCash(reference, costs) > 0.0
  {
    ProductPositive(reference, 1.0 + SlippageRate(costs));
    ProductPositive(ExecutionPrice(Buy, reference, costs), 1.0 + CommissionRate(costs));
  }

  /** A buy takes its quantity times the per-share cash out of the account. */
  lemma BuyCashChange(quantity: int, reference: real, costs: CostAssumptions)
    requires quantity >= 1 && reference > 0.0
    ensures EstimateOrderCost(Buy, quantity, reference, costs).Ok?
    ensures EstimateOrderCost(Buy, quantity, reference, costs).value.cashChange
         == -((quantity as real) * PerShareCash(reference, costs))
  {
    var q, p, c := quantity as real, ExecutionPrice(Buy, reference, costs), CommissionRate(costs);
    assert q * (p * (1.0 + c)) == q * p + (q * p) * c;
  }

  lemma FloorDivision(cash: real, unit: real, k: int)
    requires cash >= 0.0 && unit > 0.0
    ensures (k as real) * unit <= cash <==> k <= (cash / unit).Floor
  {
    var ratio := cash / unit;
    assert ratio * unit == cash;
    if k as real <= ratio {
      ProductNonNegative(ratio - k as real, unit);
      assert (ratio - k as real) * unit == cash - (k as real) * unit;
    } else {
      ProductPositive(k as real - ratio, unit);
      assert (k as real - ratio) * unit == (k as real) * unit - cash;
    }
  }

  /** The floor-division quantity is the largest whole-share buy that leaves cash non-negative. */
  lemma AffordableQuantityIsLargest(cash: real, reference: real, costs: CostAssumptions, k: int)
    requires cash >= 0.0 && reference > 0.0 && k >= 1
    ensures MaximumAffordableBuyQuantity(cash, reference, costs).Ok?
    ensures MaximumAffordableBuyQuantity(cash, reference, costs).value >= 0
    ensures EstimateOrderCost(Buy, k, reference, costs).Ok?
    ensures cash + EstimateOrderCost(Buy, k, reference, costs).value.cashChange >= 0.0
            <==> k <= MaximumAffordableBuyQuantity(cash, reference, costs).value
  {
    PerShareCashPositive(reference, costs);
    BuyCashChange(k, reference, costs);
    FloorDivision(cash, PerShareCash(reference, costs), k);
    FloorDivision(cash, PerShareCash(reference, costs), 0);
  }

  lemma NetOfCommission(notional: real, rate: real)
    requires notional > 0.0
    ensures notional - notional * rate > 0.0 <==> rate < 1.0
  {
    if rate < 1.0 {
      ProductPositive(notional, 1.0 - rate);
    } else {
      ProductNonNegative(notional, rate - 1.0);
    }
  }

  /** Signs of an estimate: a buy spends, and a sell earns exactly when commission stays below the whole notional. */
  lemma EstimateSigns(side: Side, quantity: int, reference: real, costs: CostAssumptions)
    requires EstimateOrderCost(side, quantity, reference, costs).Ok?
    ensures var e := EstimateOrderCost(side, quantity, reference, costs).value;
            && e.executionPrice > 0.0 && e.referenceNotional > 0.0 && e.executionNotional > 0.0
            && e.commission >= 0.0 && e.slippageCost >= 0.0
            && (side == Buy ==> e.cashChange < 0.0)
            && (side == Sell ==> (e.cashChange > 0.0 <==> CommissionRate(costs) < 1.0))
  {
    var e := EstimateOrderCost(side, quantity, reference, costs).value;
    var q, n, c := quantity as real, e.executionNotional, CommissionRate(costs);
    PerShareCashPositive(reference, costs);
    ProductPositive(q, reference);
    ProductPositive(q, e.executionPrice);
    ProductNonNegative(n, c);
    ProductNonNegative(Abs(e.executionPrice - reference), q);
    if side == Sell {
      NetOfCommission(n, c);
      assert e.cashChange == n - n * c;
    }
  }

  /** A sell can be priced exactly when slippage stays below the whole price. */
  lemma SellPriceable(quantity: int, reference: real, costs: CostAssumptions)
    requires quantity >= 1 && reference > 0.0
    ensures EstimateOrderCost(Sell, quantity, reference, costs).Ok? <==> SlippageRate(costs) < 1.0
    ensures EstimateOrderCost(Sell, quantity, reference, costs).Ok? <==> costs.slippageBps < 10000.0
  {
    var s := SlippageRate(costs);
    if s < 1.0 { ProductPositive(reference, 1.0 - s); } else { ProductNonNegative(reference, s - 1.0); }
  }

  /**
   Costs are what separates an order from the same order at the reference price: a buy pays the reference
   notional and its total cost, a sell earns the reference notional less its total cost.
   */
  lemma CashChangeDecomposes(side: Side, quantity: int, reference: real, costs: CostAssumptions)
    requires EstimateOrderCost(side, quantity, reference, costs).Ok?
    ensures var e := EstimateOrderCost(side, quantity, reference, costs).value;
            e.cashChange == (if side == Buy then -e.referenceNotional else e.referenceNotional) - e.totalTransactionCost
  {
    var e := EstimateOrderCost(side, quantity, reference, costs).value;
    var q, p, s := quantity as real, e.executionPrice, SlippageRate(costs);
    ProductNonNegative(reference, s);
    assert q * p == q * reference + q * (p - reference);
  }

  // ---------------------------------------------------------------- in basis points

  lemma TimesTenThousand(x: real, bps: real)
    ensures x * (bps / 10000.0) * 10000.0 == x * bps
  {
  }

  /** What the configured basis points mean for a price: slippage moves it against the order by that share of it. */
  lemma PriceInBasisPoints(side: Side, reference: real, costs: CostAssumptions)
    ensures var moved := (ExecutionPrice(side, reference, costs) - reference) * 10000.0;
            moved == if side == Buy then reference * costs.slippageBps else -(reference * costs.slippageBps)
  {
    TimesTenThousand(reference, costs.slippageBps);
  }

  /**
   Every estimate in terms of the configured basis points: notionals are quantity times price, commission is its share
   of the executed notional, slippage its share of the reference notional, and cash moves by the executed notional and
   the commission.
   */
  lemma CostsInBasisPoints(side: Side, quantity: int, reference: real, costs: CostAssumptions)
    requires EstimateOrderCost(side, quantity, reference, costs).Ok?
    ensures var e := EstimateOrderCost(side, quantity, reference, costs).value;
            && (e.executionPrice - reference) * 10000.0
            == (if side == Buy then reference * costs.slippageBps else -(reference * costs.slippageBps))
            && e.referenceNotional == (quantity as real) * reference
            && e.executionNotional == (quantity as real) * e.executionPrice
            && e.commission * 10000.0 == e.executionNotional * costs.commissionBps
            && e.slippageCost * 10000.0 == e.referenceNotional * costs.slippageBps
            && e.totalTransactionCost == e.commission + e.slippageCost
            && e.cashChange == (if side == Buy then -(e.executionNotional + e.commission)
                                else e.executionNotional - e.commission)
  {
    var e := EstimateOrderCost(side, quantity, reference, costs).value;
    PriceInBasisPoints(side, reference, costs);
    TimesTenThousand(e.executionNotional, costs.commissionBps);
    SlippageInBasisPoints(side, quantity as real, reference, costs);
  }

  lemma SlippageInBasisPoints(side: Side, shares: real, reference: real, costs: CostAssumptions)
    requires reference > 0.0
    ensures Abs(ExecutionPrice(side, reference, costs) - reference) * shares * 10000.0
         == shares * reference * costs.slippageBps
  {
    PriceInBasisPoints(side, reference, costs);
    ProductNonNegative(reference, costs.slippageBps);
    var gap := Abs(ExecutionPrice(side, reference, costs) - reference);
    assert gap * 10000.0 == reference * costs.slippageBps;
    assert gap * shares * 10000.0 == shares * (gap * 10000.0);
  }

  /** The cash covers `k` shares at this reference price, slippage and commission included. */
  predicate CanBuy(k: int, cash: real, reference: real, costs: CostAssumptions) {
    (k as real) * (reference * (10000.0 + costs.slippageBps) * (10000.0 + costs.commissionBps)) <= cash * 100000000.0
  }

  lemma PerShareInBasisPoints(reference: real, costs: CostAssumptions)
    ensures PerShareCash(reference, costs) * 100000000.0
         == reference * (10000.0 + costs.slippageBps) * (10000.0 + costs.commissionBps)
  {
    var (s, c) := (SlippageRate(costs), CommissionRate(costs));
    assert (1.0 + s) * 10000.0 == 10000.0 + costs.slippageBps;
    assert (1.0 + c) * 10000.0 == 10000.0 + costs.commissionBps;
    assert reference * (1.0 + s) * (1.0 + c) * 100000000.0 == reference * ((1.0 + s) * 10000.0) * ((1.0 + c) * 10000.0);
  }

  /** The quantity sized for a buy is the largest the cash covers. */
  lemma AffordableExactly(cash: real, reference: real, costs: CostAssumptions, k: int)
    requires cash >= 0.0 && reference > 0.0
    ensures MaximumAffordableBuyQuantity(cash, reference, costs).Ok?
    ensures CanBuy(k, cash, reference, costs) <==> k <= MaximumAffordableBuyQuantity(cash, reference, costs).value
  {
    PerShareCashPositive(reference, costs);
    PerShareInBasisPoints(reference, costs);
    var unit := PerShareCash(reference, costs);
    FloorDivision(cash, unit, k);
    assert (k as real) * (unit * 100000000.0) == (k as real) * unit * 100000000.0;
  }

  /** What cannot be priced or sized, and why. */
  lemma RefusedExactly(side: Side, quantity: int, reference: real, cash: real, costs: CostAssumptions)
    ensures var r := EstimateOrderCost(side, quantity, reference, costs);
            && (r == Err(InvalidQuantity) <==> quantity < 1)
            && (r == Err(NonPositiveReference) <==> quantity >= 1 && reference <= 0.0)
            && (r == Err(NonPositiveSellPrice) <==>
                  quantity >= 1 && reference > 0.0 && side == Sell && costs.slippageBps >= 10000.0)
            && r != Err(NegativeCash)
    ensures var r := MaximumAffordableBuyQuantity(cash, reference, costs);
            && (r == Err(NegativeCash) <==> cash < 0.0)
            && (r == Err(NonPositiveReference) <==> cash >= 0.0 && reference <= 0.0)
            && (r.Ok? <==> cash >= 0.0 && reference > 0.0)
  {
    if quantity >= 1 && reference > 0.0 {
      SellPriceable(quantity, reference, costs);
    }
  }
}
