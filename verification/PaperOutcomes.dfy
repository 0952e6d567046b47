/**
 Where a submission and a reconciliation leave their attempt, said from the instruction, the approval and the answers
 of the environment alone: the final row, field by field, and the events written for it.
 */
module PaperOutcomes {
  import opened Trading
  import opened Wrappers
  import opened PaperLedger
  import opened PaperProtocol

  // ---------------------------------------------------------------- which broker orders become receipts

  /** A readable market day order for this many shares of SPY on the paper venue, under this client_order_id. */
  predicate OrderMatches(s: Snapshot, client: ExecutionId, side: Side, quantity: int) {
    && s.clientOrderId == client && s.symbol == "SPY" && s.side == side && s.quantity == quantity
    && s.terms == OrderTerms("market", "day", false, "alpaca_paper")
    && s.fields == Sound
  }

  /** The order matches, but one of its other fields cannot be read. */
  predicate OrderUnreadable(s: Snapshot, client: ExecutionId, side: Side, quantity: int) {
    s.fields == Unreadable && OrderMatches(s.(fields := Sound), client, side, quantity)
  }

  /** The receipt says what the broker's order says, for this signal and fingerprint. */
  predicate IsReceiptOf(r: Receipt, s: Snapshot, signal: ExecutionId, fingerprint: string) {
    && r.signalId == signal && r.fingerprint == fingerprint
    && r.clientOrderId == s.clientOrderId && r.symbol == s.symbol && r.side == s.side && r.quantity == s.quantity
    && r.brokerOrderId == s.brokerOrderId && r.brokerStatus == s.brokerStatus && r.terms == s.terms
  }

  /** A receipt that says what the broker's order says, for an order that is the one of this row. */
  predicate HonestReceipt(r: Receipt, s: Snapshot, row: Attempt) {
    && OrderMatches(s, row.clientOrderId, row.side, row.quantity)
    && IsReceiptOf(r, s, row.signalId, row.fingerprint)
  }

  /** Exactly the sound orders with the row's identifier, side and quantity become receipts, field by field. */
  lemma ReceiptExactly(s: Snapshot, a: Attempt)
    ensures ReceiptFromSnapshot(s, a).Some? <==> OrderMatches(s, a.clientOrderId, a.side, a.quantity)
    ensures ReceiptFromSnapshot(s, a).Some? ==> HonestReceipt(ReceiptFromSnapshot(s, a).value, s, a)
    ensures MatchesAttempt(s, a) && s.fields == Unreadable <==> OrderUnreadable(s, a.clientOrderId, a.side, a.quantity)
  {
  }

  // ---------------------------------------------------------------- how an attempt ends

  /** What is written over a freshly reserved row, and the event that goes with it. */
  datatype Ending = Ending(status: Status, code: Option<FailureCode>, brokerOrderId: Option<string>,
                           brokerStatus: Option<string>, event: Option<EventType>)

  /** Nothing is written after the reservation. */
  const STAYS := Ending(Reserved, None, None, None, None)

  function Marked(status: Status, code: FailureCode, event: EventType): Ending {
    Ending(status, Some(code), None, None, Some(event))
  }

  /** The order is recorded, or, when that write is lost, the attempt is unknown. */
  function Receipted(s: Snapshot, status: Status, event: EventType, fate: WriteFate, whenLost: FailureCode): Ending {
    if fate == Lost then Marked(SubmissionUnknown, whenLost, SubmissionUnknownMarked)
    else Ending(status, None, Some(s.brokerOrderId), Some(s.brokerStatus), Some(event))
  }

  /** Why a clock refuses an instruction and its approval, if it does. */
  function ClockRefusal(clock: Clock, instr: Instruction, appr: Approval): Option<FailureCode> {
    if !clock.isOpen then Some(MarketClosedBeforeSubmission)
    else if instr.expiresAt <= clock.timestamp then Some(InstructionExpiredBeforeSubmission)
    else if instr.executionSession <= instr.signalSession then Some(InvalidExecutionSession)
    else if clock.session != instr.executionSession then Some(WrongSessionBeforeSubmission)
    else if && appr.signalId == instr.signalId && appr.clientOrderId == instr.clientOrderId
            && appr.fingerprint == instr.fingerprint
            && instr.createdAt < appr.approvedAt && appr.approvedAt <= clock.timestamp
    then None
    else Some(ApprovalInvalidBeforeSubmission)
  }

  /** Where a reserved attempt ends, `shut` saying whether the switch was read as engaged at the final gate. */
  function SubmissionEnding(instr: Instruction, appr: Approval, env: Env, shut: bool): Ending {
    if env.reserveFate != Durable then STAYS
    else
      match env.lookup
      case LookupUnavailable => STAYS
      case FoundOrder(s) =>
        if OrderMatches(s, instr.clientOrderId, instr.side, instr.quantity) then
          Receipted(s, BrokerExistingOrderFound, ExistingOrderFound, env.receiptFate, ExistingReceiptNotPersisted)
        else if OrderUnreadable(s, instr.clientOrderId, instr.side, instr.quantity) then STAYS
        else Marked(SubmissionUnknown, BrokerOrderMismatch, OrderMismatch)
      case NoSuchOrder =>
        if env.secondClock.ClockUnavailable? then Marked(Blocked, ClockRefreshFailed, ClockBlocked)
        else if ClockRefusal(env.secondClock.clock, instr, appr).Some? then
          Marked(Blocked, ClockRefusal(env.secondClock.clock, instr, appr).value, ClockBlocked)
        else if !env.switchReadable then Marked(Blocked, SwitchUnavailableBeforeSubmission, SwitchBlocked)
        else if shut then Marked(Blocked, SwitchEngagedBeforeSubmission, SwitchBlocked)
        else SubmittedEnding(instr, env)
  }

  /** Where an attempt ends whose order was handed to the broker, or could not be built. */
  function SubmittedEnding(instr: Instruction, env: Env): Ending {
    match env.submit
    case RequestNotBuilt => Marked(Blocked, RequestConstructionFailed, RequestFailed)
    case OrderRejected(code) => Marked(Rejected, Reported(code), RejectedByBroker)
    case OutcomeUnknown(code) => Marked(SubmissionUnknown, Reported(code), SubmissionUnknownMarked)
    case OrderReturned(s) =>
      if OrderMatches(s, instr.clientOrderId, instr.side, instr.quantity) then
        Receipted(s, Accepted, OrderAccepted, env.receiptFate, AcceptedReceiptNotPersisted)
      else Marked(SubmissionUnknown, BrokerSnapshotMismatch, SubmissionUnknownMarked)
  }

  function RowOf(instr: Instruction, appr: Approval, e: Ending): Attempt {
    Attempt(instr.clientOrderId, instr.signalId, appr.approvalId, instr.fingerprint, instr.symbol, instr.side,
            instr.quantity, instr.signalSession, instr.executionSession,
            e.status, e.brokerOrderId, e.brokerStatus, e.code)
  }

  /** The events of one attempt, in the order written. */
  function TrailFor(events: seq<Event>, client: ExecutionId): seq<Event> {
    if events == [] then []
    else
      var e := events[|events| - 1];
      TrailFor(events[..|events| - 1], client) + (if e.AttemptEvent? && e.clientOrderId == client then [e] else [])
  }

  /** The rows and one attempt's events: what kill-switch writes leave alone. */
  datatype View = View(attempts: map<ExecutionId, Attempt>, trail: seq<Event>)

  function ViewOf(l: Ledger, client: ExecutionId): View {
    View(l.attempts, TrailFor(l.events, client))
  }

  /** The attempt reserved and ended as `e` says. */
  function Settled(v: View, instr: Instruction, appr: Approval, e: Ending): View {
    var (c, s) := (instr.clientOrderId, instr.signalId);
    View(v.attempts[c := RowOf(instr, appr, e)],
         v.trail + [AttemptEvent(c, s, AttemptReserved, None, Reserved)]
         + (if e.event.Some? then [AttemptEvent(c, s, e.event.value, Some(Reserved), e.status)] else []))
  }

  /** No attempt shares its session or one of its identifiers, and it is for shares of SPY. */
  ghost predicate FreeToReserve(l: Ledger, instr: Instruction, appr: Approval) {
    && instr.quantity >= 1 && instr.symbol == "SPY"
    && instr.clientOrderId !in l.attempts
    && forall c :: c in l.attempts ==>
         && (l.attempts[c].symbol != instr.symbol || l.attempts[c].executionSession != instr.executionSession)
         && l.attempts[c].signalId != instr.signalId
         && l.attempts[c].approvalId != appr.approvalId
  }

  lemma ReservationExactly(l: Ledger, instr: Instruction, appr: Approval)
    ensures ReserveAttempt(l, instr, appr).Ok? <==> FreeToReserve(l, instr, appr)
    ensures ReserveAttempt(l, instr, appr).Ok? ==>
              && ViewOf(ReserveAttempt(l, instr, appr).value, instr.clientOrderId)
              == Settled(ViewOf(l, instr.clientOrderId), instr, appr, STAYS)
              && ReserveAttempt(l, instr, appr).value.control == l.control
              && ReserveAttempt(l, instr, appr).value != l
  {
    if ReserveAttempt(l, instr, appr).Ok? {
      var e := AttemptEvent(instr.clientOrderId, instr.signalId, AttemptReserved, None, Reserved);
      TrailForSnoc(l.events, e, instr.clientOrderId);
    }
  }

  lemma TrailForSnoc(events: seq<Event>, e: Event, client: ExecutionId)
    ensures TrailFor(events + [e], client)
         == TrailFor(events, client) + (if e.AttemptEvent? && e.clientOrderId == client then [e] else [])
  {
    assert (events + [e])[..|events|] == events;
  }

  /** The switch, as the ledger has it; a missing control row means engaged. */
  predicate SwitchOff(l: Ledger) {
    l.control == Some(false)
  }

  /** Every gate before the reservation lets the instruction through. */
  predicate GatesPassed(env: Env, instr: Instruction, appr: Approval) {
    && env.gatesOpen && env.firstClock.ClockRead?
    && ClockRefusal(env.firstClock.clock, instr, appr) == None
  }

  /** A submission that nobody interferes with reserves its attempt. */
  ghost predicate WillReserve(l: Ledger, instr: Instruction, appr: Approval, env: Env) {
    && GatesPassed(env, instr, appr)
    && env.firstSwitchReadable && SwitchOff(l)
    && env.stateAccepted
    && FreeToReserve(l, instr, appr) && env.reserveFate != Lost
  }

  // ---------------------------------------------------------------- one submission, step by step

  /** The ledger and the length of the log when the submission began. */
  datatype Origin = Origin(ledger: Ledger, length: nat)

  ghost predicate Logged(w: World, o: Origin, e: Entry) {
    o.length <= |w.log| && e in w.log[o.length..]
  }

  function EndingOf(mark: Mark): Ending {
    match mark
    case AsUnknown(code, event) => Marked(SubmissionUnknown, code, event)
    case AsFailed(target, code, event) => Marked(target, code, event)
  }

  /**
   A submitter so far undisturbed except by the kill switch: where it stands, what has been written for it, and, with
   `still`, that the switch has not been written either.
   */
  ghost predicate OnTrack(o: Origin, w: World, pid: Pid, instr: Instruction, appr: Approval, env: Env, still: bool) {
    && pid in w.procs && w.procs[pid].Submitter? && w.procs[pid].instr == instr && w.procs[pid].appr == appr
    && o.length <= |w.log|
    && (still ==> w.ledger.control == o.ledger.control)
    && var view, before := ViewOf(w.ledger, instr.clientOrderId), ViewOf(o.ledger, instr.clientOrderId);
       var reserved := Logged(w, o, RowReserved(pid, instr, appr));
       var shut := Logged(w, o, SwitchWasRead(pid, true));
       var unmarked := view == Settled(before, instr, appr, STAYS);
       var begun := reserved && env.reserveFate == Durable && instr.symbol == "SPY"
                    && (still ==> WillReserve(o.ledger, instr, appr, env));
       match w.procs[pid].pc
       case OpeningGates => !reserved && !shut && view == before
       case FirstSwitchRead(_) => !reserved && !shut && view == before && GatesPassed(env, instr, appr)
       case CheckingState(_) =>
         && !reserved && !shut && view == before && GatesPassed(env, instr, appr)
         && env.firstSwitchReadable && (still ==> SwitchOff(o.ledger))
       case Reserving(_) =>
         && !reserved && !shut && view == before && GatesPassed(env, instr, appr)
         && env.firstSwitchReadable && (still ==> SwitchOff(o.ledger)) && env.stateAccepted
       case LookingUp(row, _) => begun && !shut && unmarked && row == RowOf(instr, appr, STAYS)
       case RecordingExisting(receipt, _) =>
         && begun && !shut && unmarked && env.lookup.FoundOrder?
         && OrderMatches(env.lookup.snapshot, instr.clientOrderId, instr.side, instr.quantity)
         && IsReceiptOf(receipt, env.lookup.snapshot, instr.signalId, instr.fingerprint)
       case RefreshingClock(row, _) =>
         begun && !shut && unmarked && row == RowOf(instr, appr, STAYS) && env.lookup == NoSuchOrder
       case ReadingSwitch(row, _, _) =>
         begun && !shut && unmarked && row == RowOf(instr, appr, STAYS) && ClockOpen(env, instr, appr)
       case Submitting(row, _, _, _) =>
         && begun && !shut && unmarked && row == RowOf(instr, appr, STAYS) && ClockOpen(env, instr, appr)
         && env.switchReadable
       case RecordingAccepted(receipt, _) =>
         && begun && !shut && unmarked && ClockOpen(env, instr, appr) && env.switchReadable && env.submit.OrderReturned?
         && OrderMatches(env.submit.snapshot, instr.clientOrderId, instr.side, instr.quantity)
         && IsReceiptOf(receipt, env.submit.snapshot, instr.signalId, instr.fingerprint)
       case Marking(mark, _) =>
         && begun && (still ==> !shut)
         && (mark.AsFailed? ==> mark.target == Blocked || mark.target == Rejected)
         && var ending := SubmissionEnding(instr, appr, env, shut);
            || (unmarked && ending == EndingOf(mark))
            || (view == Settled(before, instr, appr, ending) && mark.AsUnknown? && Terminal(ending.status))
       case SubmitDone => Ended(o, w, pid, instr, appr, env, still)
  }

  /** The second clock was read and lets the instruction through. */
  ghost predicate ClockOpen(env: Env, instr: Instruction, appr: Approval) {
    && env.lookup == NoSuchOrder && env.secondClock.ClockRead?
    && ClockRefusal(env.secondClock.clock, instr, appr) == None
  }

  /** The submission is over, and its attempt has ended as the table says. */
  ghost predicate Ended(o: Origin, w: World, pid: Pid, instr: Instruction, appr: Approval, env: Env, still: bool) {
    var view, before := ViewOf(w.ledger, instr.clientOrderId), ViewOf(o.ledger, instr.clientOrderId);
    var shut := Logged(w, o, SwitchWasRead(pid, true));
    if Logged(w, o, RowReserved(pid, instr, appr)) then
      && (env.markFate != Lost ==> view == Settled(before, instr, appr, SubmissionEnding(instr, appr, env, shut)))
      && (still ==> WillReserve(o.ledger, instr, appr, env) && !shut)
    else
      view == before && (still ==> !WillReserve(o.ledger, instr, appr, env))
  }

  lemma RefusalExactly(clock: Clock, instr: Instruction, appr: Approval)
    ensures ClockRefusal(clock, instr, appr) == None <==>
            ClockAdmits(clock, instr) && ApprovalMatches(instr, appr, clock.timestamp)
    ensures !ClockAdmits(clock, instr) ==> ClockRefusal(clock, instr, appr) == Some(StaleCode(clock, instr))
    ensures ClockAdmits(clock, instr) && !ApprovalMatches(instr, appr, clock.timestamp) ==>
              ClockRefusal(clock, instr, appr) == Some(ApprovalInvalidBeforeSubmission)
  {
  }

  /** What has been logged after a step is what had been, and what the step logged. */
  lemma LoggedAfter(w: World, w': World, o: Origin, more: seq<Entry>)
    requires o.length <= |w.log| && w'.log == w.log + more
    ensures forall e :: Logged(w', o, e) <==> Logged(w, o, e) || e in more
  {
    assert w'.log[o.length..] == w.log[o.length..] + more;
  }

  // What each kind of step does to the world, said once.

  lemma StepIs(w: World, pid: Pid, env: Env)
    requires pid in w.procs && w.procs[pid].Submitter?
    ensures var e := SubmitterStep(w.ledger, w.log, pid, w.procs[pid], env);
            Step(w, Advance(pid, env)) == World(e.ledger, w.procs[pid := e.proc], w.log + e.entries)
  {
    hide SubmitterStep;
  }

  lemma OpeningOn(o: Origin, w: World, pid: Pid, instr: Instruction, appr: Approval, env: Env, still: bool)
    requires OnTrack(o, w, pid, instr, appr, env, still)
    requires w.procs[pid].pc.OpeningGates? || w.procs[pid].pc.FirstSwitchRead? || w.procs[pid].pc.CheckingState?
    ensures OnTrack(o, Step(w, Advance(pid, env)), pid, instr, appr, env, still)
  {
    hide Step, FreeToReserve, ClockAdmits, ApprovalMatches, ClockRefusal, Settled, ViewOf, SubmissionEnding, Logged;
    StepIs(w, pid, env);
    LoggedAfter(w, Step(w, Advance(pid, env)), o, []);
    if env.firstClock.ClockRead? {
      RefusalExactly(env.firstClock.clock, instr, appr);
    }
  }

  lemma ReservingOn(o: Origin, w: World, pid: Pid, instr: Instruction, appr: Approval, env: Env, still: bool)
    requires OnTrack(o, w, pid, instr, appr, env, still) && w.procs[pid].pc.Reserving?
    ensures OnTrack(o, Step(w, Advance(pid, env)), pid, instr, appr, env, still)
  {
    hide Step, FreeToReserve, ClockRefusal, ReserveAttempt, Settled, TrailFor, Logged;
    StepIs(w, pid, env);
    ReservationExactly(w.ledger, instr, appr);
    SameRoom(w.ledger, o.ledger, instr, appr);
    if FreeToReserve(w.ledger, instr, appr) {
      NeedsSpy(w.ledger, instr, appr);
    }
    FreshIsRow(instr, appr);
    LoggedAfter(w, Step(w, Advance(pid, env)), o, SubmitterStep(w.ledger, w.log, pid, w.procs[pid], env).entries);
  }

  lemma SameRoom(a: Ledger, b: Ledger, instr: Instruction, appr: Approval)
    requires a.attempts == b.attempts
    ensures FreeToReserve(a, instr, appr) <==> FreeToReserve(b, instr, appr)
  {
  }

  lemma NeedsSpy(l: Ledger, instr: Instruction, appr: Approval)
    requires FreeToReserve(l, instr, appr)
    ensures instr.symbol == "SPY"
  {
  }

  lemma FreshIsRow(instr: Instruction, appr: Approval)
    ensures FreshAttempt(instr, appr) == RowOf(instr, appr, STAYS)
  {
  }

  lemma LookingUpOn(o: Origin, w: World, pid: Pid, instr: Instruction, appr: Approval, env: Env, still: bool)
    requires OnTrack(o, w, pid, instr, appr, env, still) && w.procs[pid].pc.LookingUp?
    ensures OnTrack(o, Step(w, Advance(pid, env)), pid, instr, appr, env, still)
  {
    hide Step, WillReserve, ClockRefusal, Settled, ViewOf, Logged, OrderMatches, ReceiptFromSnapshot, MatchesAttempt,
      OrderUnreadable, IsReceiptOf;
    StepIs(w, pid, env);
    LoggedAfter(w, Step(w, Advance(pid, env)), o, []);
    if env.lookup.FoundOrder? {
      ReceiptExactly(env.lookup.snapshot, RowOf(instr, appr, STAYS));
    }
  }

  lemma ClockOn(o: Origin, w: World, pid: Pid, instr: Instruction, appr: Approval, env: Env, still: bool)
    requires OnTrack(o, w, pid, instr, appr, env, still) && w.procs[pid].pc.RefreshingClock?
    ensures OnTrack(o, Step(w, Advance(pid, env)), pid, instr, appr, env, still)
  {
    hide Step, WillReserve, ClockRefusal, Settled, ViewOf, Logged, ClockAdmits, ApprovalMatches, StaleCode;
    StepIs(w, pid, env);
    LoggedAfter(w, Step(w, Advance(pid, env)), o, SubmitterStep(w.ledger, w.log, pid, w.procs[pid], env).entries);
    if env.secondClock.ClockRead? {
      RefusalExactly(env.secondClock.clock, instr, appr);
    }
  }

  lemma SwitchOn(o: Origin, w: World, pid: Pid, instr: Instruction, appr: Approval, env: Env, still: bool)
    requires OnTrack(o, w, pid, instr, appr, env, still) && w.procs[pid].pc.ReadingSwitch?
    ensures OnTrack(o, Step(w, Advance(pid, env)), pid, instr, appr, env, still)
  {
    hide Step, ClockRefusal, Settled, ViewOf, Logged, FreeToReserve;
    StepIs(w, pid, env);
    LoggedAfter(w, Step(w, Advance(pid, env)), o, SubmitterStep(w.ledger, w.log, pid, w.procs[pid], env).entries);
  }

  lemma SubmittingOn(o: Origin, w: World, pid: Pid, instr: Instruction, appr: Approval, env: Env, still: bool)
    requires OnTrack(o, w, pid, instr, appr, env, still) && w.procs[pid].pc.Submitting?
    ensures OnTrack(o, Step(w, Advance(pid, env)), pid, instr, appr, env, still)
  {
    hide Step, WillReserve, ClockRefusal, Settled, ViewOf, Logged, OrderMatches, ReceiptFromSnapshot, IsReceiptOf;
    StepIs(w, pid, env);
    LoggedAfter(w, Step(w, Advance(pid, env)), o, SubmitterStep(w.ledger, w.log, pid, w.procs[pid], env).entries);
    if env.submit.OrderReturned? {
      ReceiptExactly(env.submit.snapshot, RowOf(instr, appr, STAYS));
    }
  }

  /** A matching receipt is taken by the freshly reserved row. */
  lemma FreshRowTakes(l: Ledger, before: View, instr: Instruction, appr: Approval, r: Receipt, s: Snapshot,
                      status: Status, event: EventType)
    requires ViewOf(l, instr.clientOrderId) == Settled(before, instr, appr, STAYS) && instr.symbol == "SPY"
    requires OrderMatches(s, instr.clientOrderId, instr.side, instr.quantity)
    requires IsReceiptOf(r, s, instr.signalId, instr.fingerprint)
    requires status == Accepted || status == BrokerExistingOrderFound
    ensures var ending := Ending(status, None, Some(s.brokerOrderId), Some(s.brokerStatus), Some(event));
            var recorded := RecordReceipt(l, r, status, event);
            && recorded.Ok? && recorded.value.control == l.control
            && ViewOf(recorded.value, instr.clientOrderId) == Settled(before, instr, appr, ending)
  {
    hide TrailFor;
    var e := AttemptEvent(instr.clientOrderId, instr.signalId, event, Some(Reserved), status);
    TrailForSnoc(l.events, e, instr.clientOrderId);
    assert RecordReceipt(l, r, status, event).value.events == l.events + [e];
  }

  lemma RecordingOn(o: Origin, w: World, pid: Pid, instr: Instruction, appr: Approval, env: Env, still: bool)
    requires OnTrack(o, w, pid, instr, appr, env, still)
    requires w.procs[pid].pc.RecordingExisting? || w.procs[pid].pc.RecordingAccepted?
    ensures OnTrack(o, Step(w, Advance(pid, env)), pid, instr, appr, env, still)
  {
    hide Step, WillReserve, ClockRefusal, Settled, ViewOf, Logged, OrderMatches, IsReceiptOf, RecordReceipt;
    StepIs(w, pid, env);
    LoggedAfter(w, Step(w, Advance(pid, env)), o, []);
    var pc, before := w.procs[pid].pc, ViewOf(o.ledger, instr.clientOrderId);
    if pc.RecordingExisting? {
      FreshRowTakes(w.ledger, before, instr, appr, pc.receipt, env.lookup.snapshot, BrokerExistingOrderFound,
                    ExistingOrderFound);
    } else {
      FreshRowTakes(w.ledger, before, instr, appr, pc.receipt, env.submit.snapshot, Accepted, OrderAccepted);
    }
  }

  /** A mark over the freshly reserved row. */
  lemma FreshRowMarked(l: Ledger, before: View, instr: Instruction, appr: Approval, mark: Mark)
    requires ViewOf(l, instr.clientOrderId) == Settled(before, instr, appr, STAYS)
    requires mark.AsFailed? ==> mark.target == Blocked || mark.target == Rejected
    ensures var marked := MarkOutcome(l, instr, mark);
            && marked.Ok? && marked.value.control == l.control
            && ViewOf(marked.value, instr.clientOrderId) == Settled(before, instr, appr, EndingOf(mark))
  {
    hide TrailFor;
    var (event, status) := (mark.eventType, EndingOf(mark).status);
    var e := AttemptEvent(instr.clientOrderId, instr.signalId, event, Some(Reserved), status);
    TrailForSnoc(l.events, e, instr.clientOrderId);
    assert MarkOutcome(l, instr, mark).value.events == l.events + [e];
  }

  /** A terminal row refuses to be marked unknown. */
  lemma EndedRowRefuses(l: Ledger, before: View, instr: Instruction, appr: Approval, mark: Mark, e: Ending)
    requires ViewOf(l, instr.clientOrderId) == Settled(before, instr, appr, e)
    requires mark.AsUnknown? && Terminal(e.status)
    ensures MarkOutcome(l, instr, mark).Err?
  {
  }

  lemma MarkingOn(o: Origin, w: World, pid: Pid, instr: Instruction, appr: Approval, env: Env, still: bool)
    requires OnTrack(o, w, pid, instr, appr, env, still) && w.procs[pid].pc.Marking?
    ensures OnTrack(o, Step(w, Advance(pid, env)), pid, instr, appr, env, still)
  {
    hide Step, WillReserve, Settled, ViewOf, Logged, SubmissionEnding, MarkOutcome;
    StepIs(w, pid, env);
    LoggedAfter(w, Step(w, Advance(pid, env)), o, []);
    var (mark, before) := (w.procs[pid].pc.mark, ViewOf(o.ledger, instr.clientOrderId));
    var ending := SubmissionEnding(instr, appr, env, Logged(w, o, SwitchWasRead(pid, true)));
    if ending == EndingOf(mark) && ViewOf(w.ledger, instr.clientOrderId) == Settled(before, instr, appr, STAYS) {
      FreshRowMarked(w.ledger, before, instr, appr, mark);
    } else {
      EndedRowRefuses(w.ledger, before, instr, appr, mark, ending);
    }
  }

  /** Every step of the submitter keeps it on track. */
  lemma AdvanceOn(o: Origin, w: World, pid: Pid, instr: Instruction, appr: Approval, env: Env, still: bool)
    requires OnTrack(o, w, pid, instr, appr, env, still)
    ensures OnTrack(o, Step(w, Advance(pid, env)), pid, instr, appr, env, still)
  {
    match w.procs[pid].pc {
      case OpeningGates => OpeningOn(o, w, pid, instr, appr, env, still);
      case FirstSwitchRead(_) => OpeningOn(o, w, pid, instr, appr, env, still);
      case CheckingState(_) => OpeningOn(o, w, pid, instr, appr, env, still);
      case Reserving(_) => ReservingOn(o, w, pid, instr, appr, env, still);
      case LookingUp(_, _) => LookingUpOn(o, w, pid, instr, appr, env, still);
      case RecordingExisting(_, _) => RecordingOn(o, w, pid, instr, appr, env, still);
      case RefreshingClock(_, _) => ClockOn(o, w, pid, instr, appr, env, still);
      case ReadingSwitch(_, _, _) => SwitchOn(o, w, pid, instr, appr, env, still);
      case Submitting(_, _, _, _) => SubmittingOn(o, w, pid, instr, appr, env, still);
      case RecordingAccepted(_, _) => RecordingOn(o, w, pid, instr, appr, env, still);
      case Marking(_, _) => MarkingOn(o, w, pid, instr, appr, env, still);
      case SubmitDone => DoneOn(o, w, pid, instr, appr, env, still);
    }
  }

  lemma DoneOn(o: Origin, w: World, pid: Pid, instr: Instruction, appr: Approval, env: Env, still: bool)
    requires OnTrack(o, w, pid, instr, appr, env, still) && w.procs[pid].pc.SubmitDone?
    ensures OnTrack(o, Step(w, Advance(pid, env)), pid, instr, appr, env, still)
  {
    hide Step, Ended;
    StepIs(w, pid, env);
    assert w.log + [] == w.log && w.procs[pid := w.procs[pid]] == w.procs;
  }

  /** A kill-switch write changes neither rows nor the attempt's events. */
  lemma SwitchWriteOn(o: Origin, w: World, pid: Pid, instr: Instruction, appr: Approval, env: Env, m: Move)
    requires OnTrack(o, w, pid, instr, appr, env, false) && m.WriteSwitch?
    ensures OnTrack(o, Step(w, m), pid, instr, appr, env, false)
  {
    hide Settled, Logged, TrailFor, SubmissionEnding, ClockRefusal, OrderMatches, IsReceiptOf, WillReserve;
    var w' := Step(w, m);
    if w' != w {
      TrailForSnoc(w.ledger.events, KillSwitchUpdated(KillSwitchEngaged(w.ledger), m.engaged), instr.clientOrderId);
      assert ViewOf(w'.ledger, instr.clientOrderId) == ViewOf(w.ledger, instr.clientOrderId);
      LoggedAfter(w, w', o, [SwitchWasSet(m.engaged)]);
    }
  }

  /** From position `from` on only this submission has moved, or, unless `still`, the kill switch was written. */
  ghost predicate Quiet(moves: seq<Move>, from: nat, pid: Pid, env: Env, still: bool) {
    forall i :: from <= i < |moves| ==> moves[i] == Advance(pid, env) || (!still && moves[i].WriteSwitch?)
  }

  lemma {:induction false} QuietRunsStayOnTrack(start: World, moves: seq<Move>, from: nat, o: Origin, pid: Pid,
                                                instr: Instruction, appr: Approval, env: Env, still: bool)
    requires from <= |moves| && Quiet(moves, from, pid, env, still)
    requires OnTrack(o, Run(start, moves[..from]), pid, instr, appr, env, still)
    ensures OnTrack(o, Run(start, moves), pid, instr, appr, env, still)
  {
    hide OnTrack, Step;
    if from == |moves| {
      assert moves[..from] == moves;
    } else {
      var init := moves[..|moves| - 1];
      assert init[..from] == moves[..from];
      QuietRunsStayOnTrack(start, init, from, o, pid, instr, appr, env, still);
      if moves[|moves| - 1] == Advance(pid, env) {
        AdvanceOn(o, Run(start, init), pid, instr, appr, env, still);
      } else {
        SwitchWriteOn(o, Run(start, init), pid, instr, appr, env, moves[|moves| - 1]);
      }
    }
  }

  lemma BeginsOnTrack(w: World, pid: Pid, instr: Instruction, appr: Approval, env: Env, still: bool)
    requires pid !in w.procs
    ensures OnTrack(Origin(w.ledger, |w.log|), Step(w, StartSubmit(pid, instr, appr)), pid, instr, appr, env, still)
  {
  }

  /**
   A submission that runs to its end while others at most write the kill switch leaves its attempt exactly as the
   table says, or not reserved at all; if the switch is not written either, which of the two is known beforehand.
   */
  lemma SubmissionEnds(start: World, moves: seq<Move>, from: nat, pid: Pid, instr: Instruction, appr: Approval,
                       env: Env, still: bool)
    requires from < |moves| && moves[from] == StartSubmit(pid, instr, appr)
    requires pid !in Run(start, moves[..from]).procs
    requires Quiet(moves, from + 1, pid, env, still)
    requires var w := Run(start, moves); pid in w.procs && w.procs[pid] == Submitter(instr, appr, SubmitDone)
    ensures var w0 := Run(start, moves[..from]);
            Ended(Origin(w0.ledger, |w0.log|), Run(start, moves), pid, instr, appr, env, still)
  {
    var w0 := Run(start, moves[..from]);
    var o := Origin(w0.ledger, |w0.log|);
    assert moves[..from + 1] == moves[..from] + [moves[from]];
    assert Run(start, moves[..from + 1]) == Step(w0, moves[from]);
    BeginsOnTrack(w0, pid, instr, appr, env, still);
    hide OnTrack, Ended, Quiet, Run, Step;
    QuietRunsStayOnTrack(start, moves, from + 1, o, pid, instr, appr, env, still);
    DoneIsEnded(o, Run(start, moves), pid, instr, appr, env, still);
  }

  lemma DoneIsEnded(o: Origin, w: World, pid: Pid, instr: Instruction, appr: Approval, env: Env, still: bool)
    requires OnTrack(o, w, pid, instr, appr, env, still) && w.procs[pid].pc.SubmitDone?
    ensures Ended(o, w, pid, instr, appr, env, still)
  {
  }

  // ---------------------------------------------------------------- one reconciliation

  /** What a reconciliation writes over an unresolved row, and the event that goes with it; None when nothing. */
  function ReconcileEnding(row: Attempt, env: Env): Option<(Attempt, EventType)> {
    if !env.lookup.FoundOrder? then None
    else
      var s := env.lookup.snapshot;
      if OrderUnreadable(s, row.clientOrderId, row.side, row.quantity) then
        None
      else if !OrderMatches(s, row.clientOrderId, row.side, row.quantity) then
        Some((row.(status := SubmissionUnknown, failureCode := Some(BrokerOrderMismatch)), OrderMismatch))
      else if env.receiptFate == Lost then
        Some((row.(status := SubmissionUnknown, failureCode := Some(ReconciliationReceiptNotPersisted)),
              SubmissionUnknownMarked))
      else
        Some((row.(status := Reconciled, brokerOrderId := Some(s.brokerOrderId), brokerStatus := Some(s.brokerStatus),
                   failureCode := None),
              OrderReconciled))
  }

  /** The row and the attempt's events after a reconciliation. */
  function ReconciledView(v: View, client: ExecutionId, env: Env): View {
    if client !in v.attempts
      || (v.attempts[client].status != Reserved && v.attempts[client].status != SubmissionUnknown)
    then v
    else
      var row := v.attempts[client];
      match ReconcileEnding(row, env)
      case None => v
      case Some((ended, event)) =>
        View(v.attempts[client := ended],
             v.trail + [AttemptEvent(client, row.signalId, event, Some(row.status), ended.status)])
  }

  /** A reconciliation so far undisturbed except by the kill switch. */
  ghost predicate ReconcilingOn(l: Ledger, w: World, pid: Pid, client: ExecutionId, env: Env) {
    && pid in w.procs && w.procs[pid].Reconciler? && w.procs[pid].client == client
    && var view, before := ViewOf(w.ledger, client), ViewOf(l, client);
       var open := client in l.attempts && Unresolved(l.attempts[client].status);
       match w.procs[pid].rpc
       case ReadingRow => view == before
       case AskingBroker(row) => view == before && open && row == l.attempts[client]
       case RecordingReconciled(receipt, signal) =>
         && view == before && open && signal == l.attempts[client].signalId && env.lookup.FoundOrder?
         && var (row, s) := (l.attempts[client], env.lookup.snapshot);
         && OrderMatches(s, client, row.side, row.quantity)
         && IsReceiptOf(receipt, s, row.signalId, row.fingerprint)
       case MarkingUnreconciled(signal, code, event) =>
         && open && signal == l.attempts[client].signalId
         && (|| (view == before
                 && ReconcileEnding(l.attempts[client], env)
                 == Some((l.attempts[client].(status := SubmissionUnknown, failureCode := Some(code)), event)))
             || (view == ReconciledView(before, client, env) && client in view.attempts
                 && view.attempts[client].status == Reconciled))
       case ReconcileDone => env.markFate != Lost ==> view == ReconciledView(before, client, env)
  }

  lemma ReconcilerStepIs(w: World, pid: Pid, env: Env)
    requires pid in w.procs && w.procs[pid].Reconciler?
    ensures var e := ReconcilerStep(w.ledger, w.procs[pid], env);
            Step(w, Advance(pid, env)) == World(e.ledger, w.procs[pid := e.proc], w.log + e.entries)
  {
    hide ReconcilerStep;
  }

  /** The row under an identifier carries it, and is for SPY. */
  ghost predicate RowSound(l: Ledger, client: ExecutionId) {
    client in l.attempts ==> l.attempts[client].clientOrderId == client && l.attempts[client].symbol == "SPY"
  }

  lemma OpenRowTakes(l: Ledger, before: View, client: ExecutionId, env: Env, r: Receipt)
    requires ViewOf(l, client) == before && RowSound(l, client) && client in l.attempts
    requires Unresolved(l.attempts[client].status) && env.lookup.FoundOrder? && env.receiptFate != Lost
    requires var (row, s) := (l.attempts[client], env.lookup.snapshot);
             OrderMatches(s, client, row.side, row.quantity) && IsReceiptOf(r, s, row.signalId, row.fingerprint)
    ensures var recorded := RecordReceipt(l, r, Reconciled, OrderReconciled);
            recorded.Ok? && ViewOf(recorded.value, client) == ReconciledView(before, client, env)
  {
    hide TrailFor;
    var row := l.attempts[client];
    var e := AttemptEvent(client, row.signalId, OrderReconciled, Some(row.status), Reconciled);
    TrailForSnoc(l.events, e, client);
    assert RecordReceipt(l, r, Reconciled, OrderReconciled).value.events == l.events + [e];
  }

  lemma OpenRowMarked(l: Ledger, before: View, client: ExecutionId, env: Env, code: FailureCode, event: EventType)
    requires ViewOf(l, client) == before && RowSound(l, client) && client in l.attempts
    requires Unresolved(l.attempts[client].status)
    requires ReconcileEnding(l.attempts[client], env)
          == Some((l.attempts[client].(status := SubmissionUnknown, failureCode := Some(code)), event))
    ensures var marked := MarkSubmissionUnknown(l, client, l.attempts[client].signalId, code, event);
            marked.Ok? && ViewOf(marked.value, client) == ReconciledView(before, client, env)
  {
    hide TrailFor, ReconcileEnding;
    var row := l.attempts[client];
    var e := AttemptEvent(client, row.signalId, event, Some(row.status), SubmissionUnknown);
    TrailForSnoc(l.events, e, client);
    assert MarkSubmissionUnknown(l, client, row.signalId, code, event).value.events == l.events + [e];
  }

  lemma ReconcileStepOn(l: Ledger, w: World, pid: Pid, client: ExecutionId, env: Env)
    requires ReconcilingOn(l, w, pid, client, env) && RowSound(l, client)
    ensures ReconcilingOn(l, Step(w, Advance(pid, env)), pid, client, env)
  {
    ReconcilerStepIs(w, pid, env);
    match w.procs[pid].rpc {
      case ReadingRow => hide Step, TrailFor;
      case AskingBroker(row) => AskingOn(l, w, pid, client, env);
      case RecordingReconciled(_, _) => RecordingReconciledOn(l, w, pid, client, env);
      case MarkingUnreconciled(_, _, _) => MarkingUnreconciledOn(l, w, pid, client, env);
      case ReconcileDone => hide Step, TrailFor;
    }
  }

  lemma AskingOn(l: Ledger, w: World, pid: Pid, client: ExecutionId, env: Env)
    requires ReconcilingOn(l, w, pid, client, env) && RowSound(l, client) && w.procs[pid].rpc.AskingBroker?
    ensures ReconcilingOn(l, Step(w, Advance(pid, env)), pid, client, env)
  {
    hide Step, TrailFor, OrderMatches, MatchesAttempt, ReceiptFromSnapshot, OrderUnreadable, IsReceiptOf;
    ReconcilerStepIs(w, pid, env);
    if env.lookup.FoundOrder? {
      ReceiptExactly(env.lookup.snapshot, w.procs[pid].rpc.row);
    }
  }

  lemma RecordingReconciledOn(l: Ledger, w: World, pid: Pid, client: ExecutionId, env: Env)
    requires ReconcilingOn(l, w, pid, client, env) && RowSound(l, client) && w.procs[pid].rpc.RecordingReconciled?
    ensures ReconcilingOn(l, Step(w, Advance(pid, env)), pid, client, env)
  {
    hide Step, TrailFor, OrderMatches, IsReceiptOf, RecordReceipt;
    ReconcilerStepIs(w, pid, env);
    NotBoth(env.lookup.snapshot, client, l.attempts[client].side, l.attempts[client].quantity);
    if env.receiptFate != Lost {
      OpenRowTakes(w.ledger, ViewOf(l, client), client, env, w.procs[pid].rpc.receipt);
    }
  }

  lemma NotBoth(s: Snapshot, client: ExecutionId, side: Side, quantity: int)
    ensures !(OrderMatches(s, client, side, quantity) && OrderUnreadable(s, client, side, quantity))
  {
  }

  lemma MarkingUnreconciledOn(l: Ledger, w: World, pid: Pid, client: ExecutionId, env: Env)
    requires ReconcilingOn(l, w, pid, client, env) && RowSound(l, client) && w.procs[pid].rpc.MarkingUnreconciled?
    ensures ReconcilingOn(l, Step(w, Advance(pid, env)), pid, client, env)
  {
    hide Step, TrailFor, ReconcileEnding;
    ReconcilerStepIs(w, pid, env);
    var rpc := w.procs[pid].rpc;
    if ViewOf(w.ledger, client) == ViewOf(l, client) && ReconcileEnding(l.attempts[client], env)
       == Some((l.attempts[client].(status := SubmissionUnknown, failureCode := Some(rpc.code)), rpc.eventType)) {
      OpenRowMarked(w.ledger, ViewOf(l, client), client, env, rpc.code, rpc.eventType);
    }
  }

  lemma SwitchWriteReconciling(l: Ledger, w: World, pid: Pid, client: ExecutionId, env: Env, m: Move)
    requires ReconcilingOn(l, w, pid, client, env) && m.WriteSwitch?
    ensures ReconcilingOn(l, Step(w, m), pid, client, env)
  {
    hide TrailFor, ReconcileEnding, ReconciledView, OrderMatches, IsReceiptOf;
    var w' := Step(w, m);
    if w' != w {
      TrailForSnoc(w.ledger.events, KillSwitchUpdated(KillSwitchEngaged(w.ledger), m.engaged), client);
      assert ViewOf(w'.ledger, client) == ViewOf(w.ledger, client);
    }
  }

  lemma {:induction false} QuietReconciles(start: World, moves: seq<Move>, from: nat, l: Ledger, pid: Pid,
                                           client: ExecutionId, env: Env)
    requires from <= |moves| && Quiet(moves, from, pid, env, false) && RowSound(l, client)
    requires ReconcilingOn(l, Run(start, moves[..from]), pid, client, env)
    ensures ReconcilingOn(l, Run(start, moves), pid, client, env)
  {
    hide ReconcilingOn, Step, RowSound;
    if from == |moves| {
      assert moves[..from] == moves;
    } else {
      var init := moves[..|moves| - 1];
      assert init[..from] == moves[..from];
      QuietReconciles(start, init, from, l, pid, client, env);
      if moves[|moves| - 1] == Advance(pid, env) {
        ReconcileStepOn(l, Run(start, init), pid, client, env);
      } else {
        SwitchWriteReconciling(l, Run(start, init), pid, client, env, moves[|moves| - 1]);
      }
    }
  }

  /** A reconciliation that runs to its end while others at most write the kill switch ends as the table says. */
  lemma ReconciliationEnds(start: World, moves: seq<Move>, from: nat, pid: Pid, client: ExecutionId, env: Env)
    requires from < |moves| && moves[from] == StartReconcile(pid, client)
    requires pid !in Run(start, moves[..from]).procs && RowSound(Run(start, moves[..from]).ledger, client)
    requires Quiet(moves, from + 1, pid, env, false) && env.markFate != Lost
    requires var w := Run(start, moves); pid in w.procs && w.procs[pid] == Reconciler(client, ReconcileDone)
    ensures ViewOf(Run(start, moves).ledger, client)
         == ReconciledView(ViewOf(Run(start, moves[..from]).ledger, client), client, env)
  {
    hide ReconciledView, TrailFor, RowSound, Quiet;
    var w0 := Run(start, moves[..from]);
    assert moves[..from + 1] == moves[..from] + [moves[from]];
    assert Run(start, moves[..from + 1]) == Step(w0, moves[from]);
    QuietReconciles(start, moves, from + 1, w0.ledger, pid, client, env);
  }
}
