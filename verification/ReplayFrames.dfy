/**
 Frames and the records filed for the signals determine each other: frames that reconstruct are, up to row order,
 the rows of one trade per signal, and such rows always reconstruct.
 */
module ReplayFrames {
  import opened Trading
  import opened Wrappers
  import opened Sequences
  import opened OrderCosts
  import opened RiskRules
  import opened BacktestEngine
  import opened AuditReplay
  import opened ReplayTrade

  /** The checks made on the frames before the chronological pass. */
  ghost predicate FramesReconstruct(frames: Frames, signals: seq<SignalRow>, costs: CostAssumptions) {
    && OrdersReconstruct(frames.orders, costs)
    && DecisionsReconstruct(frames.decisions, |frames.orders|)
    && FillsReconstruct(frames.fills)
    && OrdersMatchSignals(frames.orders, signals)
  }

  ghost predicate OnlySpy(orders: seq<ProposedOrder>) {
    forall i :: 0 <= i < |orders| ==> orders[i].symbol == SUPPORTED_SYMBOL
  }

  function Recorded(frames: Frames, signal: SignalRow): Option<Trade> {
    RecordedTrade(IndexOf(frames), KeyOfSignal(signal))
  }

  /** `trades` are the records filed for the signals, one by one. */
  ghost predicate Filing(frames: Frames, signals: seq<SignalRow>, costs: CostAssumptions, trades: seq<Trade>) {
    && |trades| == |signals|
    && forall j :: 0 <= j < |trades| ==>
         Recorded(frames, signals[j]) == Some(trades[j]) && TradeRecorded(trades[j], signals[j], costs)
  }

  ghost function FilledNumbers(trades: seq<Trade>): set<int> {
    set j | 0 <= j < |trades| && trades[j].Filled? :: trades[j].order.sequenceNumber
  }

  /** The frames hold the rows of these trades, orders in the order of their numbers 1, 2, 3, ... */
  ghost predicate RowsOf(frames: Frames, trades: seq<Trade>) {
    && (forall i :: 0 <= i < |frames.orders| ==> frames.orders[i].sequenceNumber == i + 1)
    && multiset(frames.orders) == multiset(OrdersOf(trades))
    && multiset(frames.decisions) == multiset(DecisionsOf(trades))
    && multiset(frames.fills) == multiset(FillsOf(trades))
  }

  // ---------------------------------------------------------------- rows collected from trades

  lemma {:induction false} CollectMembers<T>(trades: seq<Trade>, rows: Trade -> seq<T>)
    ensures forall x :: x in Collect(trades, rows) <==> exists j :: 0 <= j < |trades| && x in rows(trades[j])
  {
    if trades != [] {
      var front, last := trades[..|trades| - 1], trades[|trades| - 1];
      CollectMembers(front, rows);
      forall x ensures x in Collect(trades, rows) <==> exists j :: 0 <= j < |trades| && x in rows(trades[j]) {
        if x in Collect(front, rows) {
          var j :| 0 <= j < |front| && x in rows(front[j]);
          assert x in rows(trades[j]);
        }
        if j :| 0 <= j < |trades| && x in rows(trades[j]) {
          if j < |front| {
            assert x in rows(front[j]);
          }
        }
      }
    }
  }

  lemma NotCollected<T>(trades: seq<Trade>, rows: Trade -> seq<T>, x: T)
    requires forall j :: 0 <= j < |trades| ==> x !in rows(trades[j])
    ensures x !in Collect(trades, rows)
  {
    CollectMembers(trades, rows);
  }

  lemma {:induction false} CollectNoDuplicates<T>(trades: seq<Trade>, rows: Trade -> seq<T>)
    requires forall j :: 0 <= j < |trades| ==> |rows(trades[j])| <= 1
    requires forall i, j, x :: 0 <= i < j < |trades| && x in rows(trades[i]) ==> x !in rows(trades[j])
    ensures NoDuplicates(Collect(trades, rows))
  {
    if trades != [] {
      var front, last := trades[..|trades| - 1], trades[|trades| - 1];
      assert forall j :: 0 <= j < |front| ==> front[j] == trades[j];
      CollectNoDuplicates(front, rows);
      forall x | x in rows(last) ensures x !in Collect(front, rows) {
        NotCollected(front, rows, x);
      }
      AppendOne(Collect(front, rows), rows(last));
    }
  }

  lemma SignalKeysDiffer(signals: seq<SignalRow>, prices: seq<PriceRow>)
    requires ValidInputs(signals, prices)
    ensures KeysDiffer(signals, KeyOfSignal)
  {
  }

  /** Frames that reconstruct file one set of records for every signal. */
  lemma RecordsExist(frames: Frames, signals: seq<SignalRow>, prices: seq<PriceRow>, costs: CostAssumptions, j: nat)
    requires ValidInputs(signals, prices) && j < |signals|
    requires FramesReconstruct(frames, signals, costs) && OnlySpy(frames.orders)
    ensures Recorded(frames, signals[j]).Some?
    ensures TradeRecorded(Recorded(frames, signals[j]).value, signals[j], costs)
  {
    hide ValidOrder, EstimateRecorded, ValidDecision, ValidFill, IndexBy;
    SignalKeysDiffer(signals, prices);
    IndexByFacts(signals, KeyOfSignal);
    IndexByFacts(frames.orders, KeyOf);
    IndexByFacts(frames.decisions, DecisionNumber);
    IndexByFacts(frames.fills, FillNumber);
    var key := KeyOfSignal(signals[j]);
    assert SignalsByKey(signals)[key] == signals[j];
    if key in OrdersBySignal(frames.orders) {
      var o := OrdersBySignal(frames.orders)[key];
      var i :| 0 <= i < |frames.orders| && frames.orders[i] == o;
      assert OrderRecorded(o, signals[j], costs);
      assert o.sequenceNumber in DecisionsBySequence(frames.decisions);
    }
  }

  /** The same, the other way round: every row belongs to the records of some signal. */
  lemma EveryOrderFiled(frames: Frames, signals: seq<SignalRow>, costs: CostAssumptions, trades: seq<Trade>, i: nat)
    returns (j: nat)
    requires FramesReconstruct(frames, signals, costs) && Filing(frames, signals, costs, trades)
    requires i < |frames.orders|
    ensures j < |trades| && !trades[j].NoTrade? && trades[j].order == frames.orders[i]
  {
    hide ValidOrder, EstimateRecorded, ValidDecision, ValidFill, IndexBy, TradeRecorded;
    IndexByFacts(signals, KeyOfSignal);
    IndexByFacts(frames.orders, KeyOf);
    var o := frames.orders[i];
    var s := SignalsByKey(signals)[KeyOf(o)];
    j :| 0 <= j < |signals| && signals[j] == s;
    assert KeyOfSignal(s) == KeyOf(o);
    assert Recorded(frames, signals[j]) == Some(trades[j]);
  }

  lemma OrdersMatchRecords(frames: Frames, signals: seq<SignalRow>, prices: seq<PriceRow>, costs: CostAssumptions,
                           trades: seq<Trade>)
    requires ValidInputs(signals, prices)
    requires FramesReconstruct(frames, signals, costs) && Filing(frames, signals, costs, trades)
    ensures multiset(frames.orders) == multiset(OrdersOf(trades))
  {
    hide ValidOrder, EstimateRecorded, ValidDecision, ValidFill, IndexBy, DecisionsReconstruct, OrdersMatchSignals;
    SignalKeysDiffer(signals, prices);
    CollectMembers(trades, OrderRows);
    forall i, j, o | 0 <= i < j < |trades| && o in OrderRows(trades[i]) ensures o !in OrderRows(trades[j]) {
      if !trades[j].NoTrade? {
        NumbersDiffer(frames, signals, costs, trades, i, j);
      }
    }
    CollectNoDuplicates(trades, OrderRows);
    forall o ensures o in frames.orders <==> o in OrdersOf(trades) {
      if o in frames.orders {
        var i :| 0 <= i < |frames.orders| && frames.orders[i] == o;
        var j := EveryOrderFiled(frames, signals, costs, trades, i);
        assert o in OrderRows(trades[j]);
      }
      if o in OrdersOf(trades) {
        var j :| 0 <= j < |trades| && o in OrderRows(trades[j]);
        assert Recorded(frames, signals[j]) == Some(trades[j]);
        IndexByFacts(frames.orders, KeyOf);
      }
    }
    SameElements(frames.orders, OrdersOf(trades));
  }

  lemma NumbersDiffer(frames: Frames, signals: seq<SignalRow>, costs: CostAssumptions, trades: seq<Trade>, i: nat,
                      j: nat)
    requires OrdersReconstruct(frames.orders, costs) && Filing(frames, signals, costs, trades)
    requires KeysDiffer(signals, KeyOfSignal) && i < j < |trades|
    requires !trades[i].NoTrade? && !trades[j].NoTrade?
    ensures trades[i].order.sequenceNumber != trades[j].order.sequenceNumber
  {
    hide ValidOrder, EstimateRecorded, ValidDecision, ValidFill, IndexBy;
    IndexByFacts(frames.orders, KeyOf);
    var o, o' := trades[i].order, trades[j].order;
    assert Recorded(frames, signals[i]) == Some(trades[i]) && Recorded(frames, signals[j]) == Some(trades[j]);
    assert KeyOf(o) == KeyOfSignal(signals[i]) && KeyOf(o') == KeyOfSignal(signals[j]);
    var a :| 0 <= a < |frames.orders| && frames.orders[a] == o;
    var b :| 0 <= b < |frames.orders| && frames.orders[b] == o';
  }

  lemma DecisionsMatchRecords(frames: Frames, signals: seq<SignalRow>, prices: seq<PriceRow>, costs: CostAssumptions,
                              trades: seq<Trade>)
    requires ValidInputs(signals, prices)
    requires FramesReconstruct(frames, signals, costs) && Filing(frames, signals, costs, trades)
    ensures multiset(frames.decisions) == multiset(DecisionsOf(trades))
  {
    hide ValidOrder, EstimateRecorded, ValidDecision, ValidFill, IndexBy, OrdersMatchSignals;
    SignalKeysDiffer(signals, prices);
    CollectMembers(trades, DecisionRows);
    IndexByFacts(frames.decisions, DecisionNumber);
    forall i, j, d | 0 <= i < j < |trades| && d in DecisionRows(trades[i]) ensures d !in DecisionRows(trades[j]) {
      if !trades[j].NoTrade? {
        NumbersDiffer(frames, signals, costs, trades, i, j);
      }
    }
    CollectNoDuplicates(trades, DecisionRows);
    forall d ensures d in frames.decisions <==> d in DecisionsOf(trades) {
      if d in frames.decisions {
        var k :| 0 <= k < |frames.decisions| && frames.decisions[k] == d;
        var number := DecisionNumber(d);
        assert number in DecisionsBySequence(frames.decisions);
        var j := EveryOrderFiled(frames, signals, costs, trades, number - 1);
        assert Recorded(frames, signals[j]) == Some(trades[j]);
        assert d in DecisionRows(trades[j]);
      }
      if d in DecisionsOf(trades) {
        var j :| 0 <= j < |trades| && d in DecisionRows(trades[j]);
        assert Recorded(frames, signals[j]) == Some(trades[j]);
      }
    }
    SameElements(frames.decisions, DecisionsOf(trades));
  }

  lemma FillFiled(frames: Frames, signals: seq<SignalRow>, costs: CostAssumptions, trades: seq<Trade>, f: FillRecord)
    requires FillsReconstruct(frames.fills) && Filing(frames, signals, costs, trades)
    requires FillsBySequence(frames.fills).Keys == FilledNumbers(trades)
    ensures f in frames.fills <==> exists j :: 0 <= j < |trades| && f in FillRows(trades[j])
  {
    hide ValidFill, IndexBy, TradeRecorded;
    IndexByFacts(frames.fills, FillNumber);
    if f in frames.fills {
      var k :| 0 <= k < |frames.fills| && frames.fills[k] == f;
      assert FillNumber(f) in FillsBySequence(frames.fills).Keys;
      var j :| 0 <= j < |trades| && trades[j].Filled? && trades[j].order.sequenceNumber == FillNumber(f);
      assert Recorded(frames, signals[j]) == Some(trades[j]);
      assert f in FillRows(trades[j]);
    }
    if j :| 0 <= j < |trades| && f in FillRows(trades[j]) {
      assert Recorded(frames, signals[j]) == Some(trades[j]);
    }
  }

  lemma FillsMatchRecords(frames: Frames, signals: seq<SignalRow>, prices: seq<PriceRow>, costs: CostAssumptions,
                          trades: seq<Trade>)
    requires ValidInputs(signals, prices)
    requires FramesReconstruct(frames, signals, costs) && Filing(frames, signals, costs, trades)
    requires FillsBySequence(frames.fills).Keys == FilledNumbers(trades)
    ensures multiset(frames.fills) == multiset(FillsOf(trades))
  {
    hide ValidFill, IndexBy, OrdersReconstruct, DecisionsReconstruct, OrdersMatchSignals, FilledNumbers,
      FillsBySequence;
    SignalKeysDiffer(signals, prices);
    CollectMembers(trades, FillRows);
    forall i, j, f | 0 <= i < j < |trades| && f in FillRows(trades[i]) ensures f !in FillRows(trades[j]) {
      if !trades[j].NoTrade? {
        NumbersDiffer(frames, signals, costs, trades, i, j);
      }
    }
    CollectNoDuplicates(trades, FillRows);
    forall f ensures f in frames.fills <==> f in FillsOf(trades) {
      FillFiled(frames, signals, costs, trades, f);
    }
    assert NoDuplicates(frames.fills);
    SameElements(frames.fills, FillsOf(trades));
  }

  // ---------------------------------------------------------------- from the trades back to the frames

  ghost predicate AllRecorded(trades: seq<Trade>, signals: seq<SignalRow>, costs: CostAssumptions) {
    && |trades| == |signals|
    && forall j :: 0 <= j < |trades| ==> TradeRecorded(trades[j], signals[j], costs)
  }

  lemma OrderRow(frames: Frames, trades: seq<Trade>, o: ProposedOrder)
    requires RowsOf(frames, trades)
    ensures o in frames.orders <==> exists j :: 0 <= j < |trades| && o in OrderRows(trades[j])
  {
    hide Collect;
    Rearranged(OrdersOf(trades), frames.orders);
    CollectMembers(trades, OrderRows);
  }

  lemma DecisionRow(frames: Frames, trades: seq<Trade>, d: RiskDecision)
    requires RowsOf(frames, trades)
    ensures d in frames.decisions <==> exists j :: 0 <= j < |trades| && d in DecisionRows(trades[j])
  {
    hide Collect;
    Rearranged(DecisionsOf(trades), frames.decisions);
    CollectMembers(trades, DecisionRows);
  }

  lemma FillRow(frames: Frames, trades: seq<Trade>, f: FillRecord)
    requires RowsOf(frames, trades)
    ensures f in frames.fills <==> exists j :: 0 <= j < |trades| && f in FillRows(trades[j])
  {
    hide Collect;
    Rearranged(FillsOf(trades), frames.fills);
    CollectMembers(trades, FillRows);
  }

  /** Two signals never share an order number. */
  lemma OwnNumbers(frames: Frames, signals: seq<SignalRow>, costs: CostAssumptions, trades: seq<Trade>, i: nat, j: nat)
    requires RowsOf(frames, trades) && AllRecorded(trades, signals, costs) && KeysDiffer(signals, KeyOfSignal)
    requires i < |trades| && j < |trades| && !trades[i].NoTrade? && !trades[j].NoTrade?
    requires trades[i].order.sequenceNumber == trades[j].order.sequenceNumber
    ensures i == j
  {
    hide ValidOrder, EstimateRecorded, ValidDecision, ValidFill, OrdersOf, DecisionsOf, FillsOf;
    var o, o' := trades[i].order, trades[j].order;
    assert o in OrderRows(trades[i]) && o' in OrderRows(trades[j]);
    OrderRow(frames, trades, o);
    OrderRow(frames, trades, o');
    var a :| 0 <= a < |frames.orders| && frames.orders[a] == o;
    var b :| 0 <= b < |frames.orders| && frames.orders[b] == o';
    assert a == b;
    SameSignal(signals, i, j);
  }

  lemma SameSignal(signals: seq<SignalRow>, i: nat, j: nat)
    requires KeysDiffer(signals, KeyOfSignal) && i < |signals| && j < |signals|
    ensures KeyOfSignal(signals[i]) == KeyOfSignal(signals[j]) ==> i == j
  {
    if i < j {
      assert KeyOfSignal(signals[i]) != KeyOfSignal(signals[j]);
    }
    if j < i {
      assert KeyOfSignal(signals[j]) != KeyOfSignal(signals[i]);
    }
  }

  lemma OrderOwner(frames: Frames, signals: seq<SignalRow>, costs: CostAssumptions, trades: seq<Trade>, i: nat)
    returns (j: nat)
    requires RowsOf(frames, trades) && AllRecorded(trades, signals, costs) && i < |frames.orders|
    ensures j < |trades| && !trades[j].NoTrade? && trades[j].order == frames.orders[i]
    ensures OrderRecorded(frames.orders[i], signals[j], costs)
  {
    hide ValidOrder, EstimateRecorded, ValidDecision, ValidFill, OrdersOf, DecisionsOf, FillsOf, OrderRecorded;
    OrderRow(frames, trades, frames.orders[i]);
    j :| 0 <= j < |trades| && frames.orders[i] in OrderRows(trades[j]);
  }

  lemma OrderKeysDiffer(frames: Frames, signals: seq<SignalRow>, costs: CostAssumptions, trades: seq<Trade>)
    requires RowsOf(frames, trades) && AllRecorded(trades, signals, costs) && KeysDiffer(signals, KeyOfSignal)
    ensures KeysDiffer(frames.orders, KeyOf)
  {
    hide ValidOrder, EstimateRecorded, OrdersOf, DecisionsOf, FillsOf, TradeRecorded;
    forall i, j | 0 <= i < j < |frames.orders| ensures KeyOf(frames.orders[i]) != KeyOf(frames.orders[j]) {
      var a := OrderOwner(frames, signals, costs, trades, i);
      var b := OrderOwner(frames, signals, costs, trades, j);
      SameSignal(signals, a, b);
    }
  }

  lemma OrdersAccepted(frames: Frames, signals: seq<SignalRow>, costs: CostAssumptions, trades: seq<Trade>)
    requires RowsOf(frames, trades) && AllRecorded(trades, signals, costs) && KeysDiffer(signals, KeyOfSignal)
    ensures OrdersReconstruct(frames.orders, costs) && OrdersMatchSignals(frames.orders, signals)
    ensures OnlySpy(frames.orders)
  {
    hide ValidOrder, EstimateRecorded, OrdersOf, DecisionsOf, FillsOf, TradeRecorded, IndexBy;
    OrderKeysDiffer(frames, signals, costs, trades);
    IndexByFacts(signals, KeyOfSignal);
    forall i | 0 <= i < |frames.orders|
      ensures ValidOrder(frames.orders[i]) && EstimateRecorded(frames.orders[i], costs)
      ensures frames.orders[i].symbol == SUPPORTED_SYMBOL
      ensures KeyOf(frames.orders[i]) in SignalsByKey(signals)
      ensures SignalsByKey(signals)[KeyOf(frames.orders[i])].target == frames.orders[i].targetPosition
    {
      var j := OrderOwner(frames, signals, costs, trades, i);
      assert KeyOf(frames.orders[i]) == KeyOfSignal(signals[j]);
    }
  }

  lemma DecisionOwner(frames: Frames, signals: seq<SignalRow>, costs: CostAssumptions, trades: seq<Trade>, i: nat)
    returns (j: nat)
    requires RowsOf(frames, trades) && AllRecorded(trades, signals, costs) && i < |frames.decisions|
    ensures j < |trades| && !trades[j].NoTrade? && trades[j].decision == frames.decisions[i]
    ensures ValidDecision(frames.decisions[i])
    ensures DecisionNumber(frames.decisions[i]) == trades[j].order.sequenceNumber
  {
    hide ValidDecision, ValidFill, OrdersOf, DecisionsOf, FillsOf, OrderRecorded;
    DecisionRow(frames, trades, frames.decisions[i]);
    j :| 0 <= j < |trades| && frames.decisions[i] in DecisionRows(trades[j]);
  }

  lemma FillOwner(frames: Frames, signals: seq<SignalRow>, costs: CostAssumptions, trades: seq<Trade>, i: nat)
    returns (j: nat)
    requires RowsOf(frames, trades) && AllRecorded(trades, signals, costs) && i < |frames.fills|
    ensures j < |trades| && trades[j].Filled? && trades[j].fill == frames.fills[i]
    ensures ValidFill(frames.fills[i])
    ensures FillNumber(frames.fills[i]) == trades[j].order.sequenceNumber
  {
    hide ValidDecision, ValidFill, OrdersOf, DecisionsOf, FillsOf, OrderRecorded;
    FillRow(frames, trades, frames.fills[i]);
    j :| 0 <= j < |trades| && frames.fills[i] in FillRows(trades[j]);
  }

  lemma DecisionsUnrepeated(frames: Frames, signals: seq<SignalRow>, costs: CostAssumptions, trades: seq<Trade>)
    requires RowsOf(frames, trades) && AllRecorded(trades, signals, costs) && KeysDiffer(signals, KeyOfSignal)
    ensures NoDuplicates(frames.decisions)
  {
    hide ValidDecision, ValidFill, OrderRecorded, Collect;
    forall i, j, d | 0 <= i < j < |trades| && d in DecisionRows(trades[i]) ensures d !in DecisionRows(trades[j]) {
      if !trades[j].NoTrade? && trades[i].order.sequenceNumber == trades[j].order.sequenceNumber {
        OwnNumbers(frames, signals, costs, trades, i, j);
      }
    }
    CollectNoDuplicates(trades, DecisionRows);
    Rearranged(DecisionsOf(trades), frames.decisions);
  }

  lemma FillsUnrepeated(frames: Frames, signals: seq<SignalRow>, costs: CostAssumptions, trades: seq<Trade>)
    requires RowsOf(frames, trades) && AllRecorded(trades, signals, costs) && KeysDiffer(signals, KeyOfSignal)
    ensures NoDuplicates(frames.fills)
  {
    hide ValidDecision, ValidFill, OrderRecorded, Collect;
    forall i, j, f | 0 <= i < j < |trades| && f in FillRows(trades[i]) ensures f !in FillRows(trades[j]) {
      if trades[j].Filled? && trades[i].order.sequenceNumber == trades[j].order.sequenceNumber {
        OwnNumbers(frames, signals, costs, trades, i, j);
      }
    }
    CollectNoDuplicates(trades, FillRows);
    Rearranged(FillsOf(trades), frames.fills);
  }

  lemma DecisionNumbersDiffer(frames: Frames, signals: seq<SignalRow>, costs: CostAssumptions, trades: seq<Trade>)
    requires RowsOf(frames, trades) && AllRecorded(trades, signals, costs) && KeysDiffer(signals, KeyOfSignal)
    ensures KeysDiffer(frames.decisions, DecisionNumber)
  {
    hide RowsOf, AllRecorded, ValidDecision;
    DecisionsUnrepeated(frames, signals, costs, trades);
    forall i, j | 0 <= i < j < |frames.decisions|
      ensures DecisionNumber(frames.decisions[i]) != DecisionNumber(frames.decisions[j])
    {
      var a := DecisionOwner(frames, signals, costs, trades, i);
      var b := DecisionOwner(frames, signals, costs, trades, j);
      if trades[a].order.sequenceNumber == trades[b].order.sequenceNumber {
        OwnNumbers(frames, signals, costs, trades, a, b);
      }
    }
  }

  lemma FillNumbersDiffer(frames: Frames, signals: seq<SignalRow>, costs: CostAssumptions, trades: seq<Trade>)
    requires RowsOf(frames, trades) && AllRecorded(trades, signals, costs) && KeysDiffer(signals, KeyOfSignal)
    ensures FillsReconstruct(frames.fills)
  {
    hide RowsOf, AllRecorded, ValidFill;
    FillsUnrepeated(frames, signals, costs, trades);
    forall i | 0 <= i < |frames.fills| ensures ValidFill(frames.fills[i]) {
      var a := FillOwner(frames, signals, costs, trades, i);
    }
    forall i, j | 0 <= i < j < |frames.fills| ensures FillNumber(frames.fills[i]) != FillNumber(frames.fills[j]) {
      var a := FillOwner(frames, signals, costs, trades, i);
      var b := FillOwner(frames, signals, costs, trades, j);
      if trades[a].order.sequenceNumber == trades[b].order.sequenceNumber {
        OwnNumbers(frames, signals, costs, trades, a, b);
      }
    }
  }

  lemma DecisionsAccepted(frames: Frames, signals: seq<SignalRow>, costs: CostAssumptions, trades: seq<Trade>)
    requires RowsOf(frames, trades) && AllRecorded(trades, signals, costs) && KeysDiffer(signals, KeyOfSignal)
    ensures DecisionsReconstruct(frames.decisions, |frames.orders|)
  {
    hide ValidDecision, ValidOrder, EstimateRecorded, IndexBy, OrdersOf, DecisionsOf, FillsOf;
    DecisionNumbersDiffer(frames, signals, costs, trades);
    forall i | 0 <= i < |frames.decisions| ensures ValidDecision(frames.decisions[i]) {
      var a := DecisionOwner(frames, signals, costs, trades, i);
    }
    forall k ensures k in DecisionsBySequence(frames.decisions) <==> 1 <= k <= |frames.orders| {
      DecisionForOrder(frames, signals, costs, trades, k);
    }
  }

  lemma DecisionForOrder(frames: Frames, signals: seq<SignalRow>, costs: CostAssumptions, trades: seq<Trade>, k: int)
    requires RowsOf(frames, trades) && AllRecorded(trades, signals, costs)
    ensures k in DecisionsBySequence(frames.decisions) <==> 1 <= k <= |frames.orders|
  {
    hide ValidDecision, ValidFill, OrderRecorded, IndexBy, OrdersOf, DecisionsOf, FillsOf;
    IndexByFacts(frames.decisions, DecisionNumber);
    if k in DecisionsBySequence(frames.decisions) {
      var d := DecisionsBySequence(frames.decisions)[k];
      var i :| 0 <= i < |frames.decisions| && frames.decisions[i] == d;
      var j := DecisionOwner(frames, signals, costs, trades, i);
      var o := trades[j].order;
      assert o in OrderRows(trades[j]);
      OrderRow(frames, trades, o);
      var a :| 0 <= a < |frames.orders| && frames.orders[a] == o;
    }
    if 1 <= k <= |frames.orders| {
      var j := OrderOwner(frames, signals, costs, trades, k - 1);
      var d := trades[j].decision;
      assert d in DecisionRows(trades[j]);
      DecisionRow(frames, trades, d);
      var i :| 0 <= i < |frames.decisions| && frames.decisions[i] == d;
      assert DecisionNumber(d) == k;
    }
  }

  lemma FilledKeys(frames: Frames, signals: seq<SignalRow>, costs: CostAssumptions, trades: seq<Trade>)
    requires RowsOf(frames, trades) && AllRecorded(trades, signals, costs)
    ensures FillsBySequence(frames.fills).Keys == FilledNumbers(trades)
  {
    hide ValidDecision, ValidFill, OrderRecorded, IndexBy, OrdersOf, DecisionsOf, FillsOf;
    IndexByFacts(frames.fills, FillNumber);
    forall k ensures k in FillsBySequence(frames.fills).Keys <==> k in FilledNumbers(trades) {
      if k in FillsBySequence(frames.fills) {
        var f := FillsBySequence(frames.fills)[k];
        var i :| 0 <= i < |frames.fills| && frames.fills[i] == f;
        var j := FillOwner(frames, signals, costs, trades, i);
        assert trades[j].order.sequenceNumber in FilledNumbers(trades);
      }
      if k in FilledNumbers(trades) {
        var j :| 0 <= j < |trades| && trades[j].Filled? && trades[j].order.sequenceNumber == k;
        var f := trades[j].fill;
        assert f in FillRows(trades[j]);
        FillRow(frames, trades, f);
        var i :| 0 <= i < |frames.fills| && frames.fills[i] == f;
        assert FillNumber(f) == k;
      }
    }
  }

  /** What the dictionaries hold for one signal is what was filed for it. */
  lemma RecordsFound(frames: Frames, signals: seq<SignalRow>, costs: CostAssumptions, trades: seq<Trade>, j: nat)
    requires RowsOf(frames, trades) && AllRecorded(trades, signals, costs) && KeysDiffer(signals, KeyOfSignal)
    requires KeysDiffer(frames.orders, KeyOf) && KeysDiffer(frames.decisions, DecisionNumber)
    requires KeysDiffer(frames.fills, FillNumber) && j < |trades|
    ensures Recorded(frames, signals[j]) == Some(trades[j])
  {
    hide ValidDecision, ValidFill, ValidOrder, EstimateRecorded, IndexBy, OrdersOf, DecisionsOf, FillsOf;
    IndexByFacts(frames.orders, KeyOf);
    var key, t := KeyOfSignal(signals[j]), trades[j];
    if !t.NoTrade? {
      assert t.order in OrderRows(t);
      OrderRow(frames, trades, t.order);
      var i :| 0 <= i < |frames.orders| && frames.orders[i] == t.order;
      assert KeyOf(frames.orders[i]) in OrdersBySignal(frames.orders);
    }
    if key in OrdersBySignal(frames.orders) {
      var o := OrdersBySignal(frames.orders)[key];
      var i :| 0 <= i < |frames.orders| && frames.orders[i] == o;
      var a := OrderOwner(frames, signals, costs, trades, i);
      SameSignal(signals, a, j);
      assert t.order == o;
      DecisionFound(frames, signals, costs, trades, j);
      FillFound(frames, signals, costs, trades, j);
    }
  }

  lemma DecisionFound(frames: Frames, signals: seq<SignalRow>, costs: CostAssumptions, trades: seq<Trade>, j: nat)
    requires RowsOf(frames, trades) && AllRecorded(trades, signals, costs)
    requires KeysDiffer(frames.decisions, DecisionNumber) && j < |trades| && !trades[j].NoTrade?
    ensures var k := trades[j].order.sequenceNumber;
            k in DecisionsBySequence(frames.decisions) && DecisionsBySequence(frames.decisions)[k] == trades[j].decision
  {
    hide ValidDecision, ValidFill, OrderRecorded, IndexBy, OrdersOf, DecisionsOf, FillsOf;
    IndexByFacts(frames.decisions, DecisionNumber);
    var d := trades[j].decision;
    assert d in DecisionRows(trades[j]);
    DecisionRow(frames, trades, d);
    var i :| 0 <= i < |frames.decisions| && frames.decisions[i] == d;
  }

  lemma FillFound(frames: Frames, signals: seq<SignalRow>, costs: CostAssumptions, trades: seq<Trade>, j: nat)
    requires RowsOf(frames, trades) && AllRecorded(trades, signals, costs) && KeysDiffer(signals, KeyOfSignal)
    requires KeysDiffer(frames.fills, FillNumber) && j < |trades| && !trades[j].NoTrade?
    ensures var k := trades[j].order.sequenceNumber;
            && (k in FillsBySequence(frames.fills) <==> trades[j].Filled?)
            && (trades[j].Filled? ==> FillsBySequence(frames.fills)[k] == trades[j].fill)
  {
    hide ValidDecision, ValidFill, OrderRecorded, IndexBy, OrdersOf, DecisionsOf, FillsOf;
    IndexByFacts(frames.fills, FillNumber);
    var k := trades[j].order.sequenceNumber;
    if trades[j].Filled? {
      var f := trades[j].fill;
      assert f in FillRows(trades[j]);
      FillRow(frames, trades, f);
      var i :| 0 <= i < |frames.fills| && frames.fills[i] == f;
      assert FillNumber(frames.fills[i]) in FillsBySequence(frames.fills);
    }
    if k in FillsBySequence(frames.fills) {
      var f := FillsBySequence(frames.fills)[k];
      var i :| 0 <= i < |frames.fills| && frames.fills[i] == f;
      var a := FillOwner(frames, signals, costs, trades, i);
      OwnNumbers(frames, signals, costs, trades, a, j);
    }
  }

  /** The rows of one trade per signal reconstruct, and the dictionaries give the trades back. */
  lemma TradesReconstruct(frames: Frames, signals: seq<SignalRow>, prices: seq<PriceRow>, costs: CostAssumptions,
                          trades: seq<Trade>)
    requires ValidInputs(signals, prices)
    requires RowsOf(frames, trades) && AllRecorded(trades, signals, costs)
    ensures FramesReconstruct(frames, signals, costs) && OnlySpy(frames.orders)
    ensures Filing(frames, signals, costs, trades)
    ensures FillsBySequence(frames.fills).Keys == FilledNumbers(trades)
  {
    hide RowsOf, TradeRecorded, OrdersReconstruct, Recorded, FillsBySequence, FilledNumbers;
    SignalKeysDiffer(signals, prices);
    OrdersAccepted(frames, signals, costs, trades);
    DecisionsAccepted(frames, signals, costs, trades);
    FillNumbersDiffer(frames, signals, costs, trades);
    FilledKeys(frames, signals, costs, trades);
    forall j | 0 <= j < |trades| ensures Recorded(frames, signals[j]) == Some(trades[j]) {
      RecordsFound(frames, signals, costs, trades, j);
    }
  }
}
