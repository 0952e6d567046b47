/**
 The audit checker accepts the simulator's frames, and nothing else: up to a renumbering of the orders and the
 row order of decisions and fills, accepted SPY frames are the frames of the one run the inputs allow.
 */
module ReplayTheorems {
  import opened Trading
  import opened Wrappers
  import opened Sequences
  import opened OrderCosts
  import opened RiskRules
  import opened BacktestEngine
  import opened EngineSafety
  import opened AuditReplay
  import opened ReplayTrade
  import opened ReplayFrames

  function RenumberAll(trades: seq<Trade>, numbers: seq<int>): (r: seq<Trade>)
    requires |numbers| == |trades|
  {
    seq(|trades|, j requires 0 <= j < |trades| => Renumbered(trades[j], numbers[j]))
  }

  /**
   The frames record this run: its portfolio, and its orders, decisions and fills under other sequence numbers
   (`numbers[j]` for what signal `j` led to). Orders stand in the order of their numbers 1, 2, 3, ...;
   decisions and fills in any order.
   */
  ghost predicate RecordsRun(frames: Frames, run: Run, numbers: seq<int>) {
    && |numbers| == |run.trades|
    && frames.portfolio == run.portfolio
    && RowsOf(frames, RenumberAll(run.trades, numbers))
  }

  // ---------------------------------------------------------------- one session, two programs

  lemma RowIsClosing(row: PortfolioRow, i: nat, signal: SignalRow, price: PriceRow, cash: real, shares: int,
                     previousEquity: real, runningPeak: real)
    ensures var closed := CloseSession(i, signal, price, cash, shares, previousEquity, runningPeak);
            && (RowReplays(row, i, signal, price, cash, shares, previousEquity, runningPeak)
                <==> closed.Ok? && closed.value.0 == row)
            && (closed.Ok? && closed.value.0 == row ==>
                  closed.value.1 == Account(cash, shares, row.equity, Max(runningPeak, row.equity)))
  {
    hide Max;
  }

  lemma NumbersCancel(t: Trade, signal: SignalRow, costs: CostAssumptions, number: int)
    requires TradeRecorded(t, signal, costs)
    ensures Renumbered(Renumbered(t, number), NumberOf(t)) == t
  {
    hide OrderRecorded, ValidDecision, ValidFill;
  }

  lemma SameAccount(t: Trade, number: int, cash: real, shares: int)
    ensures CashAfter(Renumbered(t, number), cash) == CashAfter(t, cash)
    ensures SharesAfter(Renumbered(t, number), shares) == SharesAfter(t, shares)
  {
  }

  /** A replayed session is a step of the simulator. */
  lemma ReplayedStep(frames: Frames, st: ReplayState, run: Run, signal: SignalRow, price: PriceRow, row: PortfolioRow,
                     costs: CostAssumptions, t: Trade)
    requires SessionInputs(signal, price) && Sound(run.account) && st.account == run.account
    requires Recorded(frames, signal) == Some(t) && TradeRecorded(t, signal, costs)
    requires ReplayStep(st, |run.portfolio|, IndexOf(frames), signal, price, row, costs).Some?
    ensures var (st', r) := (ReplayStep(st, |run.portfolio|, IndexOf(frames), signal, price, row, costs).value,
                             EngineStep(run, signal, price, costs));
            && r.Ok?
            && r.value.account == st'.account
            && r.value.portfolio == run.portfolio + [row]
            && |r.value.trades| == |run.trades| + 1
            && r.value.trades[..|run.trades|] == run.trades
            && Renumbered(r.value.trades[|run.trades|], NumberOf(t)) == t
            && st'.consumed == st.consumed + ConsumedBy(t)
  {
    hide TradeReplays, RowReplays, DecideTrade, CloseSession, TradeRecorded, OrdersOf;
    var (cash, shares) := (run.account.cash, run.account.shares);
    var number := |OrdersOf(run.trades)| + 1;
    ReplayedIsDecided(t, signal, price, cash, shares, costs);
    PositiveNumber(t, signal, costs);
    TradeIgnoresNumber(NumberOf(t), number, signal, price, cash, shares, costs);
    NumbersCancel(t, signal, costs, number);
    SameAccount(t, number, cash, shares);
    RowIsClosing(row, |run.portfolio|, signal, price, CashAfter(t, cash), SharesAfter(t, shares),
                 run.account.previousEquity, run.account.runningPeak);
  }

  lemma PositiveNumber(t: Trade, signal: SignalRow, costs: CostAssumptions)
    requires TradeRecorded(t, signal, costs)
    ensures NumberOf(t) >= 1
  {
  }

  /** A step of the simulator, under another number, is a replayed session. */
  lemma SteppedReplay(frames: Frames, st: ReplayState, run: Run, signal: SignalRow, price: PriceRow, row: PortfolioRow,
                      costs: CostAssumptions, t: Trade)
    requires SessionInputs(signal, price) && Sound(run.account) && st.account == run.account
    requires price.executionSession == signal.executionSession
    requires Recorded(frames, signal) == Some(t) && TradeRecorded(t, signal, costs)
    requires TradeReplays(t, signal, price.referenceOpen, run.account.cash, run.account.shares, costs)
    requires var r := EngineStep(run, signal, price, costs);
             && r.Ok? && r.value.portfolio == run.portfolio + [row]
             && |r.value.trades| == |run.trades| + 1
             && t == Renumbered(r.value.trades[|run.trades|], NumberOf(t))
    ensures ReplayStep(st, |run.portfolio|, IndexOf(frames), signal, price, row, costs)
         == Some(ReplayState(EngineStep(run, signal, price, costs).value.account, st.consumed + ConsumedBy(t)))
  {
    hide TradeReplays, RowReplays, DecideTrade, CloseSession, TradeRecorded, OrdersOf;
    var (cash, shares) := (run.account.cash, run.account.shares);
    var next := EngineStep(run, signal, price, costs).value;
    var trade := next.trades[|run.trades|];
    SameAccount(trade, NumberOf(t), cash, shares);
    assert row == next.portfolio[|run.portfolio|];
    RowIsClosing(row, |run.portfolio|, signal, price, CashAfter(t, cash), SharesAfter(t, shares),
                 run.account.previousEquity, run.account.runningPeak);
  }

  // ---------------------------------------------------------------- whole runs

  lemma FilledGrows(trades: seq<Trade>, signals: seq<SignalRow>, costs: CostAssumptions, n: nat)
    requires n < |trades| == |signals| && TradeRecorded(trades[n], signals[n], costs)
    ensures FilledNumbers(trades[..n + 1]) == FilledNumbers(trades[..n]) + ConsumedBy(trades[n])
  {
    hide OrderRecorded, ValidDecision, ValidFill;
    var a, b := trades[..n], trades[..n + 1];
    forall k ensures k in FilledNumbers(b) <==> k in FilledNumbers(a) + ConsumedBy(trades[n]) {
      if k in FilledNumbers(b) {
        var j :| 0 <= j < |b| && b[j].Filled? && b[j].order.sequenceNumber == k;
        if j < n {
          assert a[j].Filled?;
        }
      }
      if k in FilledNumbers(a) {
        var j :| 0 <= j < |a| && a[j].Filled? && a[j].order.sequenceNumber == k;
        assert b[j].Filled?;
      }
      if k in ConsumedBy(trades[n]) {
        assert b[n].Filled?;
      }
    }
  }

  /** As long as the chronological pass succeeds, it and the simulator hold the same account and the same rows. */
  lemma {:induction false} ReplayTracksRun(frames: Frames, signals: seq<SignalRow>, prices: seq<PriceRow>,
                                           costs: CostAssumptions, trades: seq<Trade>, n: nat)
    requires ValidInputs(signals, prices) && n <= |signals|
    requires Filing(frames, signals, costs, trades)
    requires ReplayRun(frames, signals, prices, costs, n).Some?
    ensures n <= |frames.portfolio| && EngineRun(signals, prices, costs, n).Ok?
    ensures var (st, run) := (ReplayRun(frames, signals, prices, costs, n).value,
                              EngineRun(signals, prices, costs, n).value);
            && run.account == st.account
            && run.portfolio == frames.portfolio[..n]
            && |run.trades| == n
            && (forall j :: 0 <= j < n ==> Renumbered(run.trades[j], NumberOf(trades[j])) == trades[j])
            && st.consumed == FilledNumbers(trades[..n])
  {
    hide ReplayStep, EngineStep, TradeRecorded, Recorded, SoundRow, FilledNumbers, Renumbered;
    if n == 0 {
      NothingFilled(trades);
    } else {
      ReplayTracksRun(frames, signals, prices, costs, trades, n - 1);
      var st := ReplayRun(frames, signals, prices, costs, n - 1).value;
      var run := EngineRun(signals, prices, costs, n - 1).value;
      EveryRunIsSound(signals, prices, costs, n - 1);
      ReplayedStep(frames, st, run, signals[n - 1], prices[n - 1], frames.portfolio[n - 1], costs, trades[n - 1]);
      FilledGrows(trades, signals, costs, n - 1);
      assert frames.portfolio[..n] == frames.portfolio[..n - 1] + [frames.portfolio[n - 1]];
    }
  }

  lemma NothingFilled(trades: seq<Trade>)
    ensures FilledNumbers(trades[..0]) == {}
  {
  }

  lemma StepAppends(run: Run, signal: SignalRow, price: PriceRow, costs: CostAssumptions)
    requires EngineStep(run, signal, price, costs).Ok?
    ensures var next := EngineStep(run, signal, price, costs).value;
            && |next.trades| == |run.trades| + 1 && next.trades[..|run.trades|] == run.trades
            && |next.portfolio| == |run.portfolio| + 1 && next.portfolio[..|run.portfolio|] == run.portfolio
            && DecideTrade(|OrdersOf(run.trades)| + 1, signal, price, run.account.cash, run.account.shares, costs)
               == Ok(next.trades[|run.trades|])
  {
    hide DecideTrade, CloseSession, OrdersOf;
  }

  /** A shorter run is a prefix of a longer one. */
  lemma {:induction false} RunsArePrefixes(signals: seq<SignalRow>, prices: seq<PriceRow>, costs: CostAssumptions,
                                           n: nat, m: nat)
    requires n <= m <= |signals| == |prices|
    requires EngineRun(signals, prices, costs, m).Ok?
    ensures EngineRun(signals, prices, costs, n).Ok?
    ensures var (short, long) := (EngineRun(signals, prices, costs, n).value,
                                  EngineRun(signals, prices, costs, m).value);
            && |short.trades| == |short.portfolio| == n && |long.trades| == |long.portfolio| == m
            && short.trades == long.trades[..n] && short.portfolio == long.portfolio[..n]
    decreases m
  {
    hide EngineStep;
    if m > 0 {
      StepAppends(EngineRun(signals, prices, costs, m - 1).value, signals[m - 1], prices[m - 1], costs);
      if n < m {
        RunsArePrefixes(signals, prices, costs, n, m - 1);
      } else {
        RunsArePrefixes(signals, prices, costs, m - 1, m - 1);
      }
    }
  }

  /** What a run did at its signal `j`. */
  lemma NthStep(signals: seq<SignalRow>, prices: seq<PriceRow>, costs: CostAssumptions, m: nat, j: nat)
    requires j < m <= |signals| == |prices|
    requires EngineRun(signals, prices, costs, m).Ok?
    ensures EngineRun(signals, prices, costs, j).Ok?
    ensures var (before, whole) := (EngineRun(signals, prices, costs, j).value,
                                    EngineRun(signals, prices, costs, m).value);
            var next := EngineStep(before, signals[j], prices[j], costs);
            && |before.trades| == |before.portfolio| == j && |whole.trades| == |whole.portfolio| == m
            && EngineRun(signals, prices, costs, j + 1) == next && next.Ok?
            && next.value.portfolio == before.portfolio + [whole.portfolio[j]]
            && next.value.trades == before.trades + [whole.trades[j]]
  {
    hide EngineStep;
    RunsArePrefixes(signals, prices, costs, j, m);
    RunsArePrefixes(signals, prices, costs, j + 1, m);
    var before, whole := EngineRun(signals, prices, costs, j).value, EngineRun(signals, prices, costs, m).value;
    assert whole.portfolio[..j + 1] == whole.portfolio[..j] + [whole.portfolio[j]];
    assert whole.trades[..j + 1] == whole.trades[..j] + [whole.trades[j]];
  }

  /** Every trade of a run, under any positive number, passes all checks made of it. */
  lemma TradePasses(signals: seq<SignalRow>, prices: seq<PriceRow>, costs: CostAssumptions, m: nat, j: nat, number: int)
    requires ValidInputs(signals, prices) && j < m <= |signals|
    requires EngineRun(signals, prices, costs, m).Ok?
    ensures EngineRun(signals, prices, costs, j).Ok? && |EngineRun(signals, prices, costs, m).value.trades| == m
    ensures var (before, after) := (EngineRun(signals, prices, costs, j).value,
                                    EngineRun(signals, prices, costs, m).value);
            var t := Renumbered(after.trades[j], number);
            number >= 1 || t.NoTrade? ==>
              && TradeRecorded(t, signals[j], costs)
              && TradeReplays(t, signals[j], prices[j].referenceOpen, before.account.cash, before.account.shares, costs)
              && t == Renumbered(after.trades[j], NumberOf(t))
  {
    hide EngineStep, DecideTrade, TradeRecorded, TradeReplays, SoundRow, OrdersOf;
    NthStep(signals, prices, costs, m, j);
    EveryRunIsSound(signals, prices, costs, j);
    var before := EngineRun(signals, prices, costs, j).value;
    var (cash, shares) := (before.account.cash, before.account.shares);
    StepAppends(before, signals[j], prices[j], costs);
    var own := |OrdersOf(before.trades)| + 1;
    var trade := EngineRun(signals, prices, costs, m).value.trades[j];
    assert DecideTrade(own, signals[j], prices[j], cash, shares, costs) == Ok(trade);
    var positive := if number >= 1 then number else 1;
    TradeIgnoresNumber(own, positive, signals[j], prices[j], cash, shares, costs);
    DecidedReplays(positive, Renumbered(trade, positive), signals[j], prices[j], cash, shares, costs);
  }

  /** The chronological pass succeeds on a run's rows and ends in the run's account. */
  lemma {:induction false} RunIsReplayed(frames: Frames, signals: seq<SignalRow>, prices: seq<PriceRow>,
                                         costs: CostAssumptions, trades: seq<Trade>, n: nat)
    requires ValidInputs(signals, prices) && n <= |signals|
    requires Filing(frames, signals, costs, trades)
    requires EngineRun(signals, prices, costs, |signals|).Ok?
    requires var run := EngineRun(signals, prices, costs, |signals|).value;
             && frames.portfolio == run.portfolio && |run.trades| == |signals|
             && forall j :: 0 <= j < |signals| ==> trades[j] == Renumbered(run.trades[j], NumberOf(trades[j]))
    ensures EngineRun(signals, prices, costs, n).Ok?
    ensures ReplayRun(frames, signals, prices, costs, n)
         == Some(ReplayState(EngineRun(signals, prices, costs, n).value.account, FilledNumbers(trades[..n])))
  {
    hide ReplayStep, EngineStep, TradeRecorded, Recorded, SoundRow, FilledNumbers, Renumbered, TradeReplays;
    if n == 0 {
      NothingFilled(trades);
    } else {
      RunIsReplayed(frames, signals, prices, costs, trades, n - 1);
      NthStep(signals, prices, costs, |signals|, n - 1);
      EveryRunIsSound(signals, prices, costs, n - 1);
      var run, t := EngineRun(signals, prices, costs, n - 1).value, trades[n - 1];
      PositiveNumber(t, signals[n - 1], costs);
      TradePasses(signals, prices, costs, |signals|, n - 1, NumberOf(t));
      var st := ReplayState(run.account, FilledNumbers(trades[..n - 1]));
      SteppedReplay(frames, st, run, signals[n - 1], prices[n - 1], frames.portfolio[n - 1], costs, t);
      FilledGrows(trades, signals, costs, n - 1);
    }
  }

  // ---------------------------------------------------------------- the two-program theorem

  /** Replay soundness: what the checker accepts is the simulator's run, renumbered. */
  lemma AcceptedFramesRecordTheRun(frames: Frames, signals: seq<SignalRow>, prices: seq<PriceRow>,
                                   costs: CostAssumptions)
    returns (numbers: seq<int>)
    requires ValidInputs(signals, prices)
    requires ReplayAccepts(frames, signals, prices, costs)
    requires |frames.portfolio| == |signals| && OnlySpy(frames.orders)
    ensures EngineRun(signals, prices, costs, |signals|).Ok?
    ensures RecordsRun(frames, EngineRun(signals, prices, costs, |signals|).value, numbers)
  {
    hide ReplayRun, EngineRun, TradeRecorded, Recorded, FilledNumbers, Renumbered, DecisionsReconstruct,
      FillsReconstruct, OrdersMatchSignals, Collect;
    forall j | 0 <= j < |signals|
      ensures Recorded(frames, signals[j]).Some?
      ensures TradeRecorded(Recorded(frames, signals[j]).value, signals[j], costs)
    {
      RecordsExist(frames, signals, prices, costs, j);
    }
    var trades := seq(|signals|, j requires 0 <= j < |signals| && Recorded(frames, signals[j]).Some?
                      => Recorded(frames, signals[j]).value);
    ReplayTracksRun(frames, signals, prices, costs, trades, |signals|);
    assert trades[..|signals|] == trades && frames.portfolio[..|signals|] == frames.portfolio;
    OrdersMatchRecords(frames, signals, prices, costs, trades);
    DecisionsMatchRecords(frames, signals, prices, costs, trades);
    FillsMatchRecords(frames, signals, prices, costs, trades);
    numbers := seq(|signals|, j requires 0 <= j < |signals| => NumberOf(trades[j]));
    var run := EngineRun(signals, prices, costs, |signals|).value;
    assert RenumberAll(run.trades, numbers) == trades;
  }

  lemma TradingNumbersPositive(frames: Frames, trades: seq<Trade>, numbers: seq<int>, j: nat)
    requires |numbers| == |trades| && j < |trades|
    requires RowsOf(frames, RenumberAll(trades, numbers))
    ensures numbers[j] >= 1 || Renumbered(trades[j], numbers[j]).NoTrade?
  {
    hide Collect;
    var renumbered := RenumberAll(trades, numbers);
    if !trades[j].NoTrade? {
      assert renumbered[j].order in OrderRows(renumbered[j]);
      OrderRow(frames, renumbered, renumbered[j].order);
    }
  }

  /** Replay completeness: the simulator's run is accepted under every renumbering of its orders. */
  lemma RunFramesAccepted(frames: Frames, signals: seq<SignalRow>, prices: seq<PriceRow>, costs: CostAssumptions,
                          numbers: seq<int>)
    requires ValidInputs(signals, prices)
    requires EngineRun(signals, prices, costs, |signals|).Ok?
    requires RecordsRun(frames, EngineRun(signals, prices, costs, |signals|).value, numbers)
    ensures ReplayAccepts(frames, signals, prices, costs)
    ensures |frames.portfolio| == |signals| && OnlySpy(frames.orders)
  {
    hide ReplayRun, EngineRun, TradeRecorded, Recorded, FilledNumbers, Renumbered, DecisionsReconstruct,
      FillsReconstruct, OrdersReconstruct, OrdersMatchSignals, Collect, OnlySpy, RowsOf, TradeReplays,
      FillsBySequence;
    var run := EngineRun(signals, prices, costs, |signals|).value;
    RunsArePrefixes(signals, prices, costs, |signals|, |signals|);
    var trades := RenumberAll(run.trades, numbers);
    forall j | 0 <= j < |signals|
      ensures TradeRecorded(trades[j], signals[j], costs)
      ensures trades[j] == Renumbered(run.trades[j], NumberOf(trades[j]))
    {
      TradingNumbersPositive(frames, run.trades, numbers, j);
      TradePasses(signals, prices, costs, |signals|, j, numbers[j]);
    }
    TradesReconstruct(frames, signals, prices, costs, trades);
    RunIsReplayed(frames, signals, prices, costs, trades, |signals|);
    assert trades[..|signals|] == trades;
  }

  /**
   Two programs, one run: given the row count, the checker accepts SPY frames exactly when the simulator finishes
   and the frames are its run up to a renumbering.
   */
  lemma ReplayAcceptsExactlyTheRun(frames: Frames, signals: seq<SignalRow>, prices: seq<PriceRow>,
                                   costs: CostAssumptions)
    requires ValidInputs(signals, prices)
    ensures ReplayAccepts(frames, signals, prices, costs) && |frames.portfolio| == |signals| && OnlySpy(frames.orders)
            <==>
            && EngineRun(signals, prices, costs, |signals|).Ok?
            && exists numbers :: RecordsRun(frames, EngineRun(signals, prices, costs, |signals|).value, numbers)
  {
    hide ReplayAccepts, EngineRun, RecordsRun, OnlySpy;
    if ReplayAccepts(frames, signals, prices, costs) && |frames.portfolio| == |signals| && OnlySpy(frames.orders) {
      var numbers := AcceptedFramesRecordTheRun(frames, signals, prices, costs);
    }
    if EngineRun(signals, prices, costs, |signals|).Ok? {
      forall numbers | RecordsRun(frames, EngineRun(signals, prices, costs, |signals|).value, numbers)
        ensures ReplayAccepts(frames, signals, prices, costs) && |frames.portfolio| == |signals|
                && OnlySpy(frames.orders)
      {
        RunFramesAccepted(frames, signals, prices, costs, numbers);
      }
    }
  }

  /** The simulator numbers its orders 1, 2, 3, ... in time order. */
  lemma {:induction false} OwnNumbering(signals: seq<SignalRow>, prices: seq<PriceRow>, costs: CostAssumptions, n: nat)
    requires n <= |signals| && ValidInputs(signals, prices)
    requires EngineRun(signals, prices, costs, n).Ok?
    ensures var orders := OrdersOf(EngineRun(signals, prices, costs, n).value.trades);
            forall i :: 0 <= i < |orders| ==> orders[i].sequenceNumber == i + 1
  {
    hide EngineStep, DecideTrade, OrdersOf, SoundRow, TradeRecorded, TradeReplays;
    if n == 0 {
      NoRowsYet(signals, prices, costs);
    } else {
      OwnNumbering(signals, prices, costs, n - 1);
      NthStep(signals, prices, costs, n, n - 1);
      EveryRunIsSound(signals, prices, costs, n - 1);
      var run, signal, price := EngineRun(signals, prices, costs, n - 1).value, signals[n - 1], prices[n - 1];
      StepAppends(run, signal, price, costs);
      var trade := EngineStep(run, signal, price, costs).value.trades[n - 1];
      DecidedReplays(|OrdersOf(run.trades)| + 1, trade, signal, price, run.account.cash, run.account.shares, costs);
      FramesSnoc(run.trades, trade);
    }
  }

  /** A finished run's own frames record it, under the simulator's own numbers. */
  lemma OwnFramesRecorded(signals: seq<SignalRow>, prices: seq<PriceRow>, costs: CostAssumptions)
    returns (numbers: seq<int>)
    requires ValidInputs(signals, prices)
    requires EngineRun(signals, prices, costs, |signals|).Ok?
    ensures var run := EngineRun(signals, prices, costs, |signals|).value;
            RecordsRun(FramesOf(run), run, numbers) && RenumberAll(run.trades, numbers) == run.trades
  {
    hide EngineRun, Collect, Renumbered;
    var run := EngineRun(signals, prices, costs, |signals|).value;
    OwnNumbering(signals, prices, costs, |signals|);
    numbers := seq(|run.trades|, j requires 0 <= j < |run.trades| => NumberOf(run.trades[j]));
    forall j | 0 <= j < |run.trades| ensures Renumbered(run.trades[j], NumberOf(run.trades[j])) == run.trades[j] {
      OwnNumberKept(signals, prices, costs, j);
    }
    assert RenumberAll(run.trades, numbers) == run.trades;
  }

  /** A finished run's own frames are accepted. */
  lemma OwnFramesAccepted(signals: seq<SignalRow>, prices: seq<PriceRow>, costs: CostAssumptions)
    requires ValidInputs(signals, prices)
    requires EngineRun(signals, prices, costs, |signals|).Ok?
    ensures ReplayAccepts(FramesOf(EngineRun(signals, prices, costs, |signals|).value), signals, prices, costs)
  {
    hide ReplayAccepts, EngineRun, RecordsRun, FramesOf;
    var numbers := OwnFramesRecorded(signals, prices, costs);
    RunFramesAccepted(FramesOf(EngineRun(signals, prices, costs, |signals|).value), signals, prices, costs, numbers);
  }

  lemma OwnNumberKept(signals: seq<SignalRow>, prices: seq<PriceRow>, costs: CostAssumptions, j: nat)
    requires ValidInputs(signals, prices) && EngineRun(signals, prices, costs, |signals|).Ok?
    requires j < |EngineRun(signals, prices, costs, |signals|).value.trades|
    ensures var t := EngineRun(signals, prices, costs, |signals|).value.trades[j];
            Renumbered(t, NumberOf(t)) == t
  {
    hide EngineStep, DecideTrade, SoundRow, TradeReplays, OrdersOf, OrderRecorded;
    RunsArePrefixes(signals, prices, costs, |signals|, |signals|);
    NthStep(signals, prices, costs, |signals|, j);
    EveryRunIsSound(signals, prices, costs, j);
    var run := EngineRun(signals, prices, costs, j).value;
    StepAppends(run, signals[j], prices[j], costs);
    DecidedReplays(|OrdersOf(run.trades)| + 1, EngineRun(signals, prices, costs, |signals|).value.trades[j],
                   signals[j], prices[j], run.account.cash, run.account.shares, costs);
  }

  /** The renumbering is a bijection: each number 1 .. n belongs to exactly one of the signals that traded. */
  lemma RenumberingIsBijective(frames: Frames, signals: seq<SignalRow>, prices: seq<PriceRow>, costs: CostAssumptions,
                               numbers: seq<int>, k: int)
    returns (j: nat)
    requires ValidInputs(signals, prices)
    requires EngineRun(signals, prices, costs, |signals|).Ok?
    requires RecordsRun(frames, EngineRun(signals, prices, costs, |signals|).value, numbers)
    requires 1 <= k <= |frames.orders|
    ensures var trades := EngineRun(signals, prices, costs, |signals|).value.trades;
            && j < |trades| == |numbers| && !trades[j].NoTrade? && numbers[j] == k
            && (forall i :: 0 <= i < |trades| && !trades[i].NoTrade? && numbers[i] == k ==> i == j)
  {
    hide EngineRun, TradeRecorded, Collect, RowsOf, TradeReplays;
    var run := EngineRun(signals, prices, costs, |signals|).value;
    RunsArePrefixes(signals, prices, costs, |signals|, |signals|);
    var trades := RenumberAll(run.trades, numbers);
    forall j | 0 <= j < |signals| ensures TradeRecorded(trades[j], signals[j], costs) {
      TradingNumbersPositive(frames, run.trades, numbers, j);
      TradePasses(signals, prices, costs, |signals|, j, numbers[j]);
    }
    SignalKeysDiffer(signals, prices);
    j := NumberOwner(frames, signals, costs, trades, k);
    forall i | 0 <= i < |trades| && !trades[i].NoTrade? && numbers[i] == k ensures i == j {
      OwnNumbers(frames, signals, costs, trades, i, j);
    }
  }

  lemma NumberOwner(frames: Frames, signals: seq<SignalRow>, costs: CostAssumptions, trades: seq<Trade>, k: int)
    returns (j: nat)
    requires RowsOf(frames, trades) && AllRecorded(trades, signals, costs) && 1 <= k <= |frames.orders|
    ensures j < |trades| && !trades[j].NoTrade? && trades[j].order.sequenceNumber == k
  {
    hide TradeRecorded, Collect;
    j := OrderOwner(frames, signals, costs, trades, k - 1);
  }

  // ---------------------------------------------------------------- why the symbol has to be checked elsewhere

  const FREE := CostRates(0.0, 0.0)

  /** One signal to go long at a price one share of which costs twice the account. */
  function DearSignals(): seq<SignalRow> {
    [SignalRow(0, 1, 1)]
  }

  function DearPrices(): seq<PriceRow> {
    [PriceRow(1, 20000.0, 20000.0)]
  }

  function ForeignOrder(symbol: string): ProposedOrder {
    ProposedOrder(1, symbol, Buy, 1, 0, 1, 1, 20000.0, 20000.0, 0.0, -20000.0, 10000.0, 0)
  }

  function ForeignFrames(symbol: string): Frames {
    Frames([ForeignOrder(symbol)],
           [RiskDecision(1, false, [UnsupportedSymbol], 1, 10000.0, 0, 0.0, 10000.0)],
           [],
           [PortfolioRow(1, 0, 1, 10000.0, 0, 20000.0, 0.0, 10000.0, 0.0, 0.0)])
  }

  lemma FreeRates()
    ensures SlippageRate(FREE) == 0.0 && CommissionRate(FREE) == 0.0
  {
    assert FREE.slippageBps == 0.0 && FREE.commissionBps == 0.0;
  }

  lemma FreePrices()
    ensures ExecutionPrice(Buy, 20000.0, FREE) == 20000.0 && PerShareCash(20000.0, FREE) == 20000.0
  {
    hide SlippageRate, CommissionRate;
    FreeRates();
    var slippage, commission := SlippageRate(FREE), CommissionRate(FREE);
    assert 1.0 + slippage == 1.0 && 1.0 + commission == 1.0;
  }

  lemma ForeignEstimate()
    ensures EstimateOrderCost(Buy, 1, 20000.0, FREE)
         == Ok(OrderCostEstimate(20000.0, 20000.0, 20000.0, 0.0, 0.0, 0.0, -20000.0))
    ensures MaximumAffordableBuyQuantity(10000.0, 20000.0, FREE) == Ok(0)
  {
    hide SlippageRate, CommissionRate, ExecutionPrice, PerShareCash;
    FreeRates();
    FreePrices();
    assert 1 as real == 1.0;
    assert 10000.0 / 20000.0 == 0.5;
  }

  lemma ForeignDecision(symbol: string)
    requires symbol != [] && symbol != SUPPORTED_SYMBOL
    ensures EvaluateOrderRisk(ForeignOrder(symbol), OpenState(1, 10000.0, 0, 20000.0), FREE)
         == Ok(RiskDecision(1, false, [UnsupportedSymbol], 1, 10000.0, 0, 0.0, 10000.0))
  {
    ForeignEstimate();
    var o, s := ForeignOrder(symbol), OpenState(1, 10000.0, 0, 20000.0);
    assert CostsMatch(o, 20000.0, FREE);
    assert StructuralReasons(o, s, FREE) == [UnsupportedSymbol];
    assert Distinct([]) == [];
    assert Distinct([UnsupportedSymbol]) == [UnsupportedSymbol] by {
      assert [UnsupportedSymbol][..0] == [];
    }
  }

  /** A rejected order for any other symbol gets past the checker, although the simulator never writes one. */
  lemma ForeignSymbolReplays(symbol: string, numbers: seq<int>)
    requires symbol != [] && symbol != SUPPORTED_SYMBOL
    ensures ValidInputs(DearSignals(), DearPrices())
    ensures ReplayAccepts(ForeignFrames(symbol), DearSignals(), DearPrices(), FREE)
    ensures |ForeignFrames(symbol).portfolio| == |DearSignals()|
    ensures EngineRun(DearSignals(), DearPrices(), FREE, 1).Ok?
    ensures !RecordsRun(ForeignFrames(symbol), EngineRun(DearSignals(), DearPrices(), FREE, 1).value, numbers)
  {
    hide EvaluateOrderRisk, EstimateOrderCost, MaximumAffordableBuyQuantity, Collect, EngineRun, RecordsRun, OnlySpy,
      RowsOf, SoundRow;
    var frames, signals, prices := ForeignFrames(symbol), DearSignals(), DearPrices();
    ForeignEstimate();
    ForeignDecision(symbol);
    var index := IndexOf(frames);
    assert index.orders == map[(0, 1) := ForeignOrder(symbol)] by {
      IndexGrows([], KeyOf, ForeignOrder(symbol));
      assert [] + [ForeignOrder(symbol)] == frames.orders;
    }
    assert index.decisions == map[1 := frames.decisions[0]] by {
      IndexGrows([], DecisionNumber, frames.decisions[0]);
      assert [] + [frames.decisions[0]] == frames.decisions;
    }
    assert index.fills == map[];
    assert SignalsByKey(signals) == map[(0, 1) := signals[0]] by {
      IndexGrows([], KeyOfSignal, signals[0]);
      assert [] + [signals[0]] == signals;
    }
    assert ReplayRun(frames, signals, prices, FREE, 0) == Some(REPLAY_START);
    assert ReplayRun(frames, signals, prices, FREE, 1).Some?;
    SellableRunsFinish(signals, prices, FREE, 1);
    OneForeign(symbol);
    if RecordsRun(frames, EngineRun(signals, prices, FREE, 1).value, numbers) {
      RunFramesAccepted(frames, signals, prices, FREE, numbers);
    }
  }

  lemma OneForeign(symbol: string)
    requires symbol != SUPPORTED_SYMBOL
    ensures !OnlySpy(ForeignFrames(symbol).orders)
  {
    assert ForeignFrames(symbol).orders[0].symbol == symbol;
  }
}
