/**
 The audit checker: from the four recorded frames and the signal and price rows alone it reconstructs the
 records, matches every order to one signal, and replays the account chronologically.
 */
module AuditReplay {
  import opened Trading
  import opened Wrappers
  import opened OrderCosts
  import opened RiskRules
  import opened BacktestEngine
  import opened Sequences

  type SignalKey = (Session, Session)

  function KeyOf(o: ProposedOrder): SignalKey {
    (o.signalSession, o.executionSession)
  }

  function KeyOfSignal(s: SignalRow): SignalKey {
    (s.signalSession, s.executionSession)
  }

  function FillNumber(f: FillRecord): int {
    f.orderSequenceNumber
  }

  /** The recorded estimates are the ones the order's own quantity and price give. */
  predicate EstimateRecorded(o: ProposedOrder, costs: CostAssumptions) {
    var e := EstimateOrderCost(o.side, o.quantity, o.referenceOpen, costs);
    && e.Ok?
    && o.estimatedExecutionPrice == e.value.executionPrice
    && o.estimatedCommission == e.value.commission
    && o.estimatedCashChange == e.value.cashChange
  }

  /** Orders are valid, correctly priced, and numbered 1, 2, 3, ... in row order. */
  ghost predicate OrdersReconstruct(orders: seq<ProposedOrder>, costs: CostAssumptions) {
    forall i :: 0 <= i < |orders| ==>
      ValidOrder(orders[i]) && EstimateRecorded(orders[i], costs) && orders[i].sequenceNumber == i + 1
  }

  /** Decisions are valid, at most one per number, and exactly for the recorded orders. */
  ghost predicate DecisionsReconstruct(decisions: seq<RiskDecision>, orderCount: nat) {
    && (forall i :: 0 <= i < |decisions| ==> ValidDecision(decisions[i]))
    && KeysDiffer(decisions, DecisionNumber)
    && (forall k :: k in DecisionsBySequence(decisions) <==> 1 <= k <= orderCount)
  }

  /** Fills are valid and at most one per number. */
  ghost predicate FillsReconstruct(fills: seq<FillRecord>) {
    && (forall i :: 0 <= i < |fills| ==> ValidFill(fills[i]))
    && KeysDiffer(fills, FillNumber)
  }

  /** Every order belongs to exactly one signal, with that signal's target, and no signal has two orders. */
  ghost predicate OrdersMatchSignals(orders: seq<ProposedOrder>, signals: seq<SignalRow>) {
    && (forall i :: 0 <= i < |orders| ==>
          && KeyOf(orders[i]) in SignalsByKey(signals)
          && SignalsByKey(signals)[KeyOf(orders[i])].target == orders[i].targetPosition)
    && KeysDiffer(orders, KeyOf)
  }

  function OrdersBySignal(orders: seq<ProposedOrder>): map<SignalKey, ProposedOrder> {
    IndexBy(orders, KeyOf)
  }

  function DecisionsBySequence(decisions: seq<RiskDecision>): map<int, RiskDecision> {
    IndexBy(decisions, DecisionNumber)
  }

  function FillsBySequence(fills: seq<FillRecord>): map<int, FillRecord> {
    IndexBy(fills, FillNumber)
  }

  function SignalsByKey(signals: seq<SignalRow>): map<SignalKey, SignalRow> {
    IndexBy(signals, KeyOfSignal)
  }

  /** The dictionaries the chronological pass looks records up in. */
  datatype Index = Index(
    orders: map<SignalKey, ProposedOrder>,
    decisions: map<int, RiskDecision>,
    fills: map<int, FillRecord>)

  function IndexOf(frames: Frames): Index {
    Index(OrdersBySignal(frames.orders), DecisionsBySequence(frames.decisions), FillsBySequence(frames.fills))
  }

  /** The records filed for a signal; none when an order lacks its decision. */
  function RecordedTrade(index: Index, key: SignalKey): Option<Trade> {
    if key !in index.orders then
      Some(NoTrade)
    else
      var o := index.orders[key];
      if o.sequenceNumber !in index.decisions then
        None
      else if o.sequenceNumber in index.fills then
        Some(Filled(o, index.decisions[o.sequenceNumber], index.fills[o.sequenceNumber]))
      else
        Some(Rejected(o, index.decisions[o.sequenceNumber]))
  }

  /** The order as the replayed account prices it. */
  function CanonicalOrder(o: ProposedOrder, open: real, cash: real, shares: int, costs: CostAssumptions)
    : Option<ProposedOrder>
  {
    match EstimateOrderCost(o.side, o.quantity, open, costs)
    case Err(_) => None
    case Ok(e) =>
      var canonical := ProposedOrder(
        o.sequenceNumber, o.symbol, o.side, o.quantity, o.signalSession, o.executionSession,
        o.targetPosition, open, e.executionPrice, e.commission, e.cashChange, cash, shares);
      if ValidOrder(canonical) then Some(canonical) else None
  }

  predicate DecisionRecomputes(recorded: RiskDecision, recomputed: RiskDecision) {
    && recorded.approved == recomputed.approved
    && recorded.reasonCodes == recomputed.reasonCodes
    && recorded.evaluatedSession == recomputed.evaluatedSession
    && recorded.projectedShares == recomputed.projectedShares
    && recorded.projectedCash == recomputed.projectedCash
    && recorded.projectedMarketValue == recomputed.projectedMarketValue
    && recorded.projectedEquity == recomputed.projectedEquity
  }

  predicate FillMatches(f: FillRecord, o: ProposedOrder, d: RiskDecision, cash: real, shares: int,
                        costs: CostAssumptions)
  {
    && f.symbol == o.symbol && f.side == o.side && f.quantity == o.quantity
    && f.signalSession == o.signalSession && f.executionSession == o.executionSession
    && f.referenceOpen == o.referenceOpen
    && var e := EstimateOrderCost(o.side, o.quantity, o.referenceOpen, costs);
    && e.Ok?
    && f.executionPrice == e.value.executionPrice
    && f.referenceNotional == e.value.referenceNotional
    && f.executionNotional == e.value.executionNotional
    && f.commission == e.value.commission
    && f.slippageCost == e.value.slippageCost
    && f.totalTransactionCost == e.value.totalTransactionCost
    && f.cashChange == e.value.cashChange
    && f.cashBefore == cash
    && f.sharesBefore == shares
    && f.sharesAfter == (if o.side == Buy then shares + o.quantity else shares - o.quantity)
    && f.cashAfter == cash + e.value.cashChange
    && f.cashAfter == d.projectedCash
    && f.sharesAfter == d.projectedShares
  }

  /** Whole-share sizing: everything the cash can buy, at least one share; or the whole position. */
  predicate SizedForTarget(o: ProposedOrder, target: Target, open: real, cash: real, shares: int,
                           costs: CostAssumptions)
  {
    if target == 1 then
      && o.side == Buy
      && var affordable := MaximumAffordableBuyQuantity(cash, open, costs);
      && affordable.Ok?
      && o.quantity == (if affordable.value <= 0 then 1 else affordable.value)
    else
      o.side == Sell && o.quantity == shares
  }

  /** The recorded order and decision are what the replayed account calls for. */
  predicate OrderReplays(o: ProposedOrder, d: RiskDecision, signal: SignalRow, open: real, cash: real,
                         shares: int, costs: CostAssumptions) {
    && o.referenceOpen == open && o.currentCash == cash && o.currentShares == shares
    && SizedForTarget(o, signal.target, open, cash, shares, costs)
    && var canonical := CanonicalOrder(o, open, cash, shares, costs);
    && canonical.Some?
    && var recomputed := EvaluateOrderRisk(
         canonical.value, OpenState(signal.executionSession, cash, shares, open), costs);
    && recomputed.Ok?
    && DecisionRecomputes(d, recomputed.value)
  }

  predicate TradeReplays(t: Trade, signal: SignalRow, open: real, cash: real, shares: int, costs: CostAssumptions) {
    match t
    case NoTrade =>
      !(signal.target == 1 && shares == 0) && !(signal.target == 0 && shares > 0)
    case Rejected(o, d) =>
      && !(signal.target == 1 && shares > 0) && !(signal.target == 0 && shares == 0)
      && OrderReplays(o, d, signal, open, cash, shares, costs)
      && !d.approved
    case Filled(o, d, f) =>
      && !(signal.target == 1 && shares > 0) && !(signal.target == 0 && shares == 0)
      && OrderReplays(o, d, signal, open, cash, shares, costs)
      && d.approved
      && FillMatches(f, CanonicalOrder(o, open, cash, shares, costs).value, d, cash, shares, costs)
  }

  predicate RowReplays(row: PortfolioRow, index: nat, signal: SignalRow, price: PriceRow, cash: real, shares: int,
                       previousEquity: real, runningPeak: real) {
    var equity := cash + (shares as real) * price.closePrice;
    var base := if index == 0 then INITIAL_CASH else previousEquity;
    var peak := Max(runningPeak, equity);
    && row.session == signal.executionSession
    && row.signalSession == signal.signalSession
    && row.targetPosition == signal.target
    && row.closePrice == price.closePrice
    && base != 0.0 && peak != 0.0
    && row.cash == cash
    && row.shares == shares
    && row.marketValue == (shares as real) * price.closePrice
    && row.equity == equity
    && row.dailyReturn == equity / base - 1.0
    && row.drawdown == equity / peak - 1.0
  }

  datatype ReplayState = ReplayState(account: Account, consumed: set<int>)

  const REPLAY_START := ReplayState(Account(INITIAL_CASH, 0, INITIAL_CASH, INITIAL_CASH), {})

  function ConsumedBy(t: Trade): set<int> {
    if t.Filled? then {t.fill.orderSequenceNumber} else {}
  }

  function ReplayStep(st: ReplayState, i: nat, index: Index, signal: SignalRow, price: PriceRow, row: PortfolioRow,
                      costs: CostAssumptions): Option<ReplayState> {
    var (a, recorded) := (st.account, RecordedTrade(index, KeyOfSignal(signal)));
    if || price.executionSession != signal.executionSession
       || price.referenceOpen <= 0.0 || price.closePrice <= 0.0
       || recorded.None?
       || !TradeReplays(recorded.value, signal, price.referenceOpen, a.cash, a.shares, costs)
    then
      None
    else
      var cash, shares := CashAfter(recorded.value, a.cash), SharesAfter(recorded.value, a.shares);
      if !RowReplays(row, i, signal, price, cash, shares, a.previousEquity, a.runningPeak) then
        None
      else
        Some(ReplayState(Account(cash, shares, row.equity, Max(a.runningPeak, row.equity)),
                         st.consumed + ConsumedBy(recorded.value)))
  }

  /** The chronological pass over the first `n` signals; none as soon as a check fails. */
  function ReplayRun(frames: Frames, signals: seq<SignalRow>, prices: seq<PriceRow>, costs: CostAssumptions, n: nat)
    : Option<ReplayState>
    requires n <= |signals| == |prices|
  {
    if n == 0 then
      Some(REPLAY_START)
    else
      var before := ReplayRun(frames, signals, prices, costs, n - 1);
      if before.None? || |frames.portfolio| < n then
        None
      else
        ReplayStep(before.value, n - 1, IndexOf(frames), signals[n - 1], prices[n - 1], frames.portfolio[n - 1], costs)
  }

  /** The whole check. */
  ghost predicate ReplayAccepts(frames: Frames, signals: seq<SignalRow>, prices: seq<PriceRow>,
                                costs: CostAssumptions)
  {
    && |prices| == |signals|
    && OrdersReconstruct(frames.orders, costs)
    && DecisionsReconstruct(frames.decisions, |frames.orders|)
    && FillsReconstruct(frames.fills)
    && OrdersMatchSignals(frames.orders, signals)
    && var final := ReplayRun(frames, signals, prices, costs, |signals|);
    && final.Some?
    && final.value.consumed == FillsBySequence(frames.fills).Keys
  }

  // ---------------------------------------------------------------- the checker's loops

  method IndexOrders(orders: seq<ProposedOrder>, costs: CostAssumptions)
    returns (ok: bool, numbers: set<int>, bySignal: map<SignalKey, seq<ProposedOrder>>)
    ensures ok <==> OrdersReconstruct(orders, costs)
    ensures ok ==> forall k :: k in numbers <==> 1 <= k <= |orders|
    ensures ok ==> forall key :: key in bySignal <==> Filed(orders, key) != []
    ensures ok ==> forall key :: key in bySignal ==> bySignal[key] == Filed(orders, key)
  {
    hide ValidOrder, EstimateRecorded, Filed;
    NothingFiled();
    numbers, bySignal := {}, map[];
    for i := 0 to |orders|
      invariant OrdersReconstruct(orders[..i], costs)
      invariant forall k :: k in numbers <==> 1 <= k <= i
      invariant forall key :: key in bySignal <==> Filed(orders[..i], key) != []
      invariant forall key :: key in bySignal ==> bySignal[key] == Filed(orders[..i], key)
    {
      var o := orders[i];
      assert orders[..i + 1] == orders[..i] + [o];
      if !ValidOrder(o) || !EstimateRecorded(o, costs) || o.sequenceNumber != i + 1 {
        return false, {}, map[];
      }
      FiledGrows(orders[..i], o);
      numbers := numbers + {o.sequenceNumber};
      var key := KeyOf(o);
      bySignal := bySignal[key := (if key in bySignal then bySignal[key] else []) + [o]];
    }
    assert orders[..|orders|] == orders;
    ok := true;
  }

  method IndexDecisions(decisions: seq<RiskDecision>, numbers: set<int>)
    returns (ok: bool, bySequence: map<int, RiskDecision>)
    ensures ok <==>
            && (forall i :: 0 <= i < |decisions| ==> ValidDecision(decisions[i]))
            && KeysDiffer(decisions, DecisionNumber)
            && DecisionsBySequence(decisions).Keys == numbers
    ensures ok ==> bySequence == DecisionsBySequence(decisions)
  {
    hide ValidDecision;
    bySequence := map[];
    for i := 0 to |decisions|
      invariant bySequence == DecisionsBySequence(decisions[..i])
      invariant forall k :: k in bySequence <==> exists j :: 0 <= j < i && decisions[j].orderSequenceNumber == k
      invariant forall j :: 0 <= j < i ==> ValidDecision(decisions[j])
      invariant forall j, k :: 0 <= j < k < i ==>
                  decisions[j].orderSequenceNumber != decisions[k].orderSequenceNumber
    {
      var d := decisions[i];
      assert decisions[..i + 1][..i] == decisions[..i];
      if !ValidDecision(d) || d.orderSequenceNumber in bySequence {
        return false, map[];
      }
      bySequence := bySequence[d.orderSequenceNumber := d];
    }
    assert decisions[..|decisions|] == decisions;
    ok := bySequence.Keys == numbers;
  }

  method IndexFills(fills: seq<FillRecord>) returns (ok: bool, bySequence: map<int, FillRecord>)
    ensures ok <==> FillsReconstruct(fills)
    ensures ok ==> bySequence == FillsBySequence(fills)
  {
    hide ValidFill;
    bySequence := map[];
    for i := 0 to |fills|
      invariant bySequence == FillsBySequence(fills[..i])
      invariant forall k :: k in bySequence <==> exists j :: 0 <= j < i && fills[j].orderSequenceNumber == k
      invariant forall j :: 0 <= j < i ==> ValidFill(fills[j])
      invariant forall j, k :: 0 <= j < k < i ==> fills[j].orderSequenceNumber != fills[k].orderSequenceNumber
    {
      var f := fills[i];
      assert fills[..i + 1][..i] == fills[..i];
      if !ValidFill(f) || f.orderSequenceNumber in bySequence {
        return false, map[];
      }
      bySequence := bySequence[f.orderSequenceNumber := f];
    }
    assert fills[..|fills|] == fills;
    ok := true;
  }

  method MatchOrdersToSignals(orders: seq<ProposedOrder>, bySignal: map<SignalKey, seq<ProposedOrder>>,
                              signals: seq<SignalRow>) returns (ok: bool)
    requires forall key :: key in bySignal <==> Filed(orders, key) != []
    requires forall key :: key in bySignal ==> bySignal[key] == Filed(orders, key)
    ensures ok <==> OrdersMatchSignals(orders, signals)
    ensures ok ==> forall key :: key in bySignal ==>
              key in OrdersBySignal(orders) && bySignal[key] == [OrdersBySignal(orders)[key]]
  {
    hide Filed, OrdersMatchSignals, OrdersBySignal;
    var targets: map<SignalKey, SignalRow> := map[];
    for i := 0 to |signals|
      invariant targets == SignalsByKey(signals[..i])
    {
      assert signals[..i + 1][..i] == signals[..i];
      targets := targets[KeyOfSignal(signals[i]) := signals[i]];
    }
    assert signals[..|signals|] == signals;
    var keys := bySignal.Keys;
    while keys != {}
      invariant keys <= bySignal.Keys
      invariant forall key :: key in bySignal.Keys - keys ==> MatchesSignal(bySignal[key], key, targets)
      decreases |keys|
    {
      var key :| key in keys;
      if !MatchesSignal(bySignal[key], key, targets) {
        MismatchRefused(orders, signals, key);
        return false;
      }
      keys := keys - {key};
    }
    MatchesAccepted(orders, signals);
    forall key | key in bySignal
      ensures key in OrdersBySignal(orders) && bySignal[key] == [OrdersBySignal(orders)[key]]
    {
      LastFiled(orders, key);
    }
    ok := true;
  }

  predicate MatchesSignal(filed: seq<ProposedOrder>, key: SignalKey, targets: map<SignalKey, SignalRow>) {
    && key in targets
    && |filed| == 1
    && filed[0].targetPosition == targets[key].target
  }

  /** The dictionaries, the chronological pass, and the final comparison of fills. */
  method ValidateAuditReplay(frames: Frames, signals: seq<SignalRow>, prices: seq<PriceRow>, costs: CostAssumptions)
    returns (ok: bool)
    ensures ok <==> ReplayAccepts(frames, signals, prices, costs)
  {
    hide OrdersReconstruct, FillsReconstruct, OrdersMatchSignals, ReplayRun, FillsBySequence, DecisionsBySequence,
      Filed, ValidDecision;
    if |prices| != |signals| {
      return false;
    }
    var numbers, bySignal, decisions, fills;
    ok, numbers, bySignal := IndexOrders(frames.orders, costs);
    if !ok {
      return;
    }
    ok, decisions := IndexDecisions(frames.decisions, numbers);
    if !ok {
      if DecisionsReconstruct(frames.decisions, |frames.orders|) {
        SameKeys(DecisionsBySequence(frames.decisions), numbers, |frames.orders|);
      }
      return;
    }
    ok, fills := IndexFills(frames.fills);
    if !ok {
      return;
    }
    ok := MatchOrdersToSignals(frames.orders, bySignal, signals);
    if !ok {
      return;
    }
    var consumed;
    ok, consumed := ReplaySignals(frames, bySignal, decisions, fills, signals, prices, costs);
    ok := ok && fills.Keys == consumed;
  }

  method ReplaySignals(frames: Frames, bySignal: map<SignalKey, seq<ProposedOrder>>, decisions: map<int, RiskDecision>,
                       fills: map<int, FillRecord>, signals: seq<SignalRow>, prices: seq<PriceRow>,
                       costs: CostAssumptions)
    returns (ok: bool, consumed: set<int>)
    requires |prices| == |signals|
    requires decisions == DecisionsBySequence(frames.decisions) && fills == FillsBySequence(frames.fills)
    requires forall key :: key in bySignal <==> Filed(frames.orders, key) != []
    requires forall key :: key in bySignal ==>
               key in OrdersBySignal(frames.orders) && bySignal[key] == [OrdersBySignal(frames.orders)[key]]
    ensures var final := ReplayRun(frames, signals, prices, costs, |signals|);
            && (ok <==> final.Some?)
            && (ok ==> consumed == final.value.consumed)
  {
    hide ReplayRun, OrdersBySignal, DecisionsBySequence, FillsBySequence, OrderReplays, FillMatches, RowReplays;
    var cash, shares, previousEquity, runningPeak := INITIAL_CASH, 0, INITIAL_CASH, INITIAL_CASH;
    consumed := {};
    ReplayBegins(frames, signals, prices, costs);
    for i := 0 to |signals|
      invariant ReplayRun(frames, signals, prices, costs, i)
             == Some(ReplayState(Account(cash, shares, previousEquity, runningPeak), consumed))
      invariant i <= |frames.portfolio|
    {
      ReplayContinues(frames, signals, prices, costs, i);
      ghost var before := consumed;
      if i >= |frames.portfolio| {
        return false, {};
      }
      var signal, price, row := signals[i], prices[i], frames.portfolio[i];
      if price.executionSession != signal.executionSession || price.referenceOpen <= 0.0 || price.closePrice <= 0.0 {
        return false, {};
      }
      var key := KeyOfSignal(signal);
      LastFiled(frames.orders, key);
      var matched := if key in bySignal then Some(bySignal[key][0]) else None;
      if signal.target == 1 && (if shares > 0 then matched.Some? else shares == 0 && matched.None?) {
        return false, {};
      }
      if signal.target == 0 && (if shares == 0 then matched.Some? else shares > 0 && matched.None?) {
        return false, {};
      }
      if matched.Some? {
        var o := matched.value;
        if o.sequenceNumber !in decisions {
          return false, {};
        }
        var decision := decisions[o.sequenceNumber];
        if !OrderReplays(o, decision, signal, price.referenceOpen, cash, shares, costs) {
          return false, {};
        }
        if decision.approved != (o.sequenceNumber in fills) {
          return false, {};
        }
        if decision.approved {
          var fill := fills[o.sequenceNumber];
          CanonicalExists(o, decision, signal, price.referenceOpen, cash, shares, costs);
          var canonical := CanonicalOrder(o, price.referenceOpen, cash, shares, costs).value;
          if !FillMatches(fill, canonical, decision, cash, shares, costs) {
            return false, {};
          }
          cash, shares := fill.cashAfter, fill.sharesAfter;
          consumed := consumed + {fill.orderSequenceNumber};
        }
      }
      if !RowReplays(row, i, signal, price, cash, shares, previousEquity, runningPeak) {
        return false, {};
      }
      assert RecordedTrade(IndexOf(frames), key).value.NoTrade? <==> matched.None?;
      assert consumed == before + ConsumedBy(RecordedTrade(IndexOf(frames), key).value);
      previousEquity, runningPeak := row.equity, Max(runningPeak, row.equity);
    }
    ok := true;
  }

  // ---------------------------------------------------------------- facts about the dictionaries

  lemma SameKeys<V>(m: map<int, V>, numbers: set<int>, n: nat)
    requires forall k :: k in m <==> 1 <= k <= n
    requires forall k :: k in numbers <==> 1 <= k <= n
    ensures m.Keys == numbers
  {
    forall k ensures k in m.Keys <==> k in numbers {
      assert k in m.Keys <==> k in m;
    }
  }

  /** The orders recorded for a signal, in row order. */
  function Filed(orders: seq<ProposedOrder>, key: SignalKey): seq<ProposedOrder> {
    if orders == [] then
      []
    else
      var last := orders[|orders| - 1];
      Filed(orders[..|orders| - 1], key) + (if KeyOf(last) == key then [last] else [])
  }

  lemma NothingFiled()
    ensures forall key :: Filed([], key) == []
  {
  }

  lemma FiledGrows(orders: seq<ProposedOrder>, o: ProposedOrder)
    ensures forall key :: Filed(orders + [o], key) == Filed(orders, key) + (if KeyOf(o) == key then [o] else [])
  {
    assert (orders + [o])[..|orders|] == orders;
  }

  lemma {:induction false} LastFiled(orders: seq<ProposedOrder>, key: SignalKey)
    ensures var filed := Filed(orders, key);
            && (key in OrdersBySignal(orders) <==> filed != [])
            && (filed != [] ==> OrdersBySignal(orders)[key] == filed[|filed| - 1])
  {
    if orders != [] {
      LastFiled(orders[..|orders| - 1], key);
    }
  }

  lemma {:induction false} FiledMembers(orders: seq<ProposedOrder>, key: SignalKey)
    ensures forall o :: o in Filed(orders, key) ==> o in orders && KeyOf(o) == key
    ensures forall i :: 0 <= i < |orders| && KeyOf(orders[i]) == key ==> orders[i] in Filed(orders, key)
  {
    if orders != [] {
      FiledMembers(orders[..|orders| - 1], key);
    }
  }

  /** A key files at most one order exactly when no two rows carry it. */
  lemma {:induction false} FiledOnce(orders: seq<ProposedOrder>, key: SignalKey)
    ensures |Filed(orders, key)| <= 1 <==>
            forall i, j :: 0 <= i < j < |orders| && KeyOf(orders[i]) == key ==> KeyOf(orders[j]) != key
  {
    if orders != [] {
      var front, n := orders[..|orders| - 1], |orders| - 1;
      FiledOnce(front, key);
      FiledMembers(front, key);
      if KeyOf(orders[n]) == key && Filed(front, key) != [] {
        var o := Filed(front, key)[0];
        assert o in Filed(front, key) && o in front;
        var i :| 0 <= i < n && front[i] == o;
        assert KeyOf(orders[i]) == key && KeyOf(orders[n]) == key;
      }
    }
  }

  lemma MismatchRefused(orders: seq<ProposedOrder>, signals: seq<SignalRow>, key: SignalKey)
    requires Filed(orders, key) != []
    requires !MatchesSignal(Filed(orders, key), key, SignalsByKey(signals))
    ensures !OrdersMatchSignals(orders, signals)
  {
    hide Filed, SignalsByKey;
    FiledMembers(orders, key);
    FiledOnce(orders, key);
    var o := Filed(orders, key)[0];
    assert o in orders && KeyOf(o) == key;
  }

  lemma MatchesAccepted(orders: seq<ProposedOrder>, signals: seq<SignalRow>)
    requires forall key :: Filed(orders, key) != [] ==> MatchesSignal(Filed(orders, key), key, SignalsByKey(signals))
    ensures OrdersMatchSignals(orders, signals)
  {
    hide Filed, SignalsByKey;
    forall i | 0 <= i < |orders|
      ensures KeyOf(orders[i]) in SignalsByKey(signals)
      ensures SignalsByKey(signals)[KeyOf(orders[i])].target == orders[i].targetPosition
      ensures forall j :: i < j < |orders| ==> KeyOf(orders[i]) != KeyOf(orders[j])
    {
      var key := KeyOf(orders[i]);
      FiledMembers(orders, key);
      FiledOnce(orders, key);
    }
  }

  lemma ReplayBegins(frames: Frames, signals: seq<SignalRow>, prices: seq<PriceRow>, costs: CostAssumptions)
    requires |prices| == |signals|
    ensures ReplayRun(frames, signals, prices, costs, 0) == Some(REPLAY_START)
  {
  }

  lemma FailuresPersist(frames: Frames, signals: seq<SignalRow>, prices: seq<PriceRow>, costs: CostAssumptions, n: nat,
                        m: nat)
    requires n <= m <= |signals| == |prices|
    requires ReplayRun(frames, signals, prices, costs, n).None?
    ensures ReplayRun(frames, signals, prices, costs, m).None?
    decreases m
  {
    hide ReplayStep;
    if n < m {
      FailuresPersist(frames, signals, prices, costs, n, m - 1);
    }
  }

  lemma ReplayContinues(frames: Frames, signals: seq<SignalRow>, prices: seq<PriceRow>, costs: CostAssumptions, i: nat)
    requires i < |signals| == |prices|
    requires ReplayRun(frames, signals, prices, costs, i).Some?
    ensures var before := ReplayRun(frames, signals, prices, costs, i).value;
            && ReplayRun(frames, signals, prices, costs, i + 1)
               == (if |frames.portfolio| <= i then None
                   else ReplayStep(before, i, IndexOf(frames), signals[i], prices[i], frames.portfolio[i], costs))
            && (ReplayRun(frames, signals, prices, costs, i + 1).None? ==>
                  ReplayRun(frames, signals, prices, costs, |signals|).None?)
  {
    hide ReplayStep;
    if ReplayRun(frames, signals, prices, costs, i + 1).None? {
      FailuresPersist(frames, signals, prices, costs, i + 1, |signals|);
    }
  }

  lemma CanonicalExists(o: ProposedOrder, d: RiskDecision, signal: SignalRow, open: real, cash: real, shares: int,
                        costs: CostAssumptions)
    requires OrderReplays(o, d, signal, open, cash, shares, costs)
    ensures CanonicalOrder(o, open, cash, shares, costs).Some?
  {
    hide CanonicalOrder, SizedForTarget, EvaluateOrderRisk;
  }
}
