/**
 Paper execution as a transition system: any number of submitters and
 reconcilers, kill-switch writers, lost ledger writes and process deaths, over
 one durable ledger and a broker that may answer anything.  One `Move` is one
 broker call, one repository transaction, or one death.
 */
module PaperProtocol {
  import opened Trading
  import opened Wrappers
  import opened PaperLedger

  type Pid = nat

  // ---------------------------------------------------------------- what the environment answers

  /** `session` is the New York calendar date of `timestamp`. */
  datatype Clock = Clock(timestamp: int, isOpen: bool, session: int)

  datatype ClockReply = ClockUnavailable | ClockRead(clock: Clock)

  /**
   How building a receipt goes once the order matches its row: it succeeds, is refused by the receipt's own checks, or
   fails because a field cannot be read at all.
   */
  datatype FieldState = Sound | Refused | Unreadable

  datatype Snapshot = Snapshot(
    clientOrderId: ExecutionId,
    symbol: string,
    side: Side,
    quantity: int,
    brokerOrderId: string,
    brokerStatus: string,
    terms: OrderTerms,
    fields: FieldState)

  datatype LookupReply = LookupUnavailable | NoSuchOrder | FoundOrder(snapshot: Snapshot)

  /**
   What a submit call comes back with.  Only `RequestNotBuilt` promises that nothing was sent; after any other
   reply, including a cancellation or an unexpected exception, the broker may hold the order.
   */
  datatype SubmitReply =
    | RequestNotBuilt
    | OrderRejected(code: string)
    | OutcomeUnknown(code: string)
    | OrderReturned(snapshot: Snapshot)

  /** A transaction may also commit and then fail to report that it did. */
  datatype WriteFate = Durable | Lost | DurableButUnreported

  datatype Env = Env(
    gatesOpen: bool,
    firstClock: ClockReply,
    firstSwitchReadable: bool,
    stateAccepted: bool,
    lookup: LookupReply,
    secondClock: ClockReply,
    switchReadable: bool,
    submit: SubmitReply,
    reserveFate: WriteFate,
    receiptFate: WriteFate,
    markFate: WriteFate)

  // ---------------------------------------------------------------- gates

  predicate ClockAdmits(clock: Clock, instr: Instruction) {
    && clock.isOpen
    && clock.timestamp < instr.expiresAt
    && instr.signalSession < instr.executionSession
    && clock.session == instr.executionSession
  }

  /** The failure code of a refreshed clock that does not admit the instruction. */
  function StaleCode(clock: Clock, instr: Instruction): FailureCode {
    if !clock.isOpen then MarketClosedBeforeSubmission
    else if instr.expiresAt <= clock.timestamp then InstructionExpiredBeforeSubmission
    else if instr.executionSession <= instr.signalSession then InvalidExecutionSession
    else WrongSessionBeforeSubmission
  }

  predicate ApprovalMatches(instr: Instruction, appr: Approval, now: int) {
    && appr.signalId == instr.signalId
    && appr.clientOrderId == instr.clientOrderId
    && appr.fingerprint == instr.fingerprint
    && instr.createdAt < appr.approvedAt <= now
    && now < instr.expiresAt
  }

  /** The order the broker returned is the one of this row: a market day order on the paper venue. */
  predicate MatchesAttempt(s: Snapshot, a: Attempt) {
    && s.clientOrderId == a.clientOrderId
    && s.symbol == SUPPORTED_SYMBOL
    && s.side == a.side
    && s.quantity == a.quantity
    && SupportedTerms(s.terms)
  }

  /** None when an order does not match its row or no receipt can be built from it. */
  function ReceiptFromSnapshot(s: Snapshot, a: Attempt): Option<Receipt> {
    if MatchesAttempt(s, a) && s.fields == Sound then
      Some(Receipt(a.signalId, s.clientOrderId, a.fingerprint, s.symbol, s.side, s.quantity,
                   s.brokerOrderId, s.brokerStatus, s.terms))
    else
      None
  }

  // ---------------------------------------------------------------- processes

  /** The mark a submitter makes when it stops short of a recorded receipt. */
  datatype Mark =
    | AsUnknown(code: FailureCode, eventType: EventType)
    | AsFailed(target: Status, code: FailureCode, eventType: EventType)

  /** Where a submitter stands.  `at`, `clockAt` and `switchAt` are positions in the log. */
  datatype SubmitPc =
    | OpeningGates
    | FirstSwitchRead(first: Clock)
    | CheckingState(first: Clock)
    | Reserving(first: Clock)
    | LookingUp(row: Attempt, at: nat)
    | RecordingExisting(receipt: Receipt, at: nat)
    | RefreshingClock(row: Attempt, at: nat)
    | ReadingSwitch(row: Attempt, at: nat, clockAt: nat)
    | Submitting(row: Attempt, at: nat, clockAt: nat, switchAt: nat)
    | RecordingAccepted(receipt: Receipt, at: nat)
    | Marking(mark: Mark, at: nat)
    | SubmitDone

  datatype ReconcilePc =
    | ReadingRow
    | AskingBroker(row: Attempt)
    | RecordingReconciled(receipt: Receipt, signal: ExecutionId)
    | MarkingUnreconciled(signal: ExecutionId, code: FailureCode, eventType: EventType)
    | ReconcileDone

  datatype Proc =
    | Submitter(instr: Instruction, appr: Approval, pc: SubmitPc)
    | Reconciler(client: ExecutionId, rpc: ReconcilePc)
    | Dead

  /** The history: reservations, clock and switch reads, switch writes, and every order handed to the broker. */
  datatype Entry =
    | RowReserved(pid: Pid, instr: Instruction, appr: Approval)
    | ClockAccepted(pid: Pid, clock: Clock)
    | SwitchWasRead(pid: Pid, engaged: bool)
    | SwitchWasSet(engaged: bool)
    | OrderSent(pid: Pid, instr: Instruction, appr: Approval, at: nat, clockAt: nat, switchAt: nat, reply: SubmitReply)

  datatype World = World(ledger: Ledger, procs: map<Pid, Proc>, log: seq<Entry>)

  datatype Move =
    | StartSubmit(pid: Pid, instr: Instruction, appr: Approval)
    | StartReconcile(pid: Pid, client: ExecutionId)
    | Die(pid: Pid)
    | WriteSwitch(engaged: bool, confirmed: bool, fate: WriteFate)
    | Advance(pid: Pid, env: Env)

  // ---------------------------------------------------------------- one step of one process

  /** What one step of a process does to the ledger and the log, and where the process goes. */
  datatype Effect = Effect(ledger: Ledger, entries: seq<Entry>, proc: Proc)

  /** Commits `outcome` under `fate`: the ledger afterwards, and whether the caller sees success. */
  function Write(l: Ledger, outcome: Result<Ledger, Error>, fate: WriteFate): (Ledger, bool) {
    match outcome
    case Err(_) => (l, false)
    case Ok(l') =>
      match fate
      case Durable => (l', true)
      case Lost => (l, false)
      case DurableButUnreported => (l', false)
  }

  function MarkOutcome(l: Ledger, instr: Instruction, mark: Mark): Result<Ledger, Error> {
    match mark
    case AsUnknown(code, eventType) =>
      MarkSubmissionUnknown(l, instr.clientOrderId, instr.signalId, code, eventType)
    case AsFailed(target, code, eventType) =>
      MarkFailure(l, instr.clientOrderId, instr.signalId, target, code, eventType)
  }

  function SubmitterStep(l: Ledger, log: seq<Entry>, pid: Pid, p: Proc, env: Env): Effect
    requires p.Submitter?
  {
    var instr, appr := p.instr, p.appr;
    match p.pc
    case OpeningGates =>
      if env.gatesOpen && env.firstClock.ClockRead? && ClockAdmits(env.firstClock.clock, instr)
         && ApprovalMatches(instr, appr, env.firstClock.clock.timestamp)
      then Effect(l, [], p.(pc := FirstSwitchRead(env.firstClock.clock)))
      else Effect(l, [], p.(pc := SubmitDone))
    case FirstSwitchRead(first) =>
      if !env.firstSwitchReadable || KillSwitchEngaged(l) then Effect(l, [], p.(pc := SubmitDone))
      else Effect(l, [], p.(pc := CheckingState(first)))
    case CheckingState(first) =>
      Effect(l, [], p.(pc := if env.stateAccepted then Reserving(first) else SubmitDone))
    case Reserving(first) =>
      var (l', reported) := Write(l, ReserveAttempt(l, instr, appr), env.reserveFate);
      if l' == l then
        Effect(l, [], p.(pc := SubmitDone))
      else if reported then
        Effect(l', [RowReserved(pid, instr, appr)], p.(pc := LookingUp(FreshAttempt(instr, appr), |log|)))
      else
        Effect(l', [RowReserved(pid, instr, appr)], p.(pc := SubmitDone))
    case LookingUp(row, at) =>
      (match env.lookup
       case LookupUnavailable => Effect(l, [], p.(pc := SubmitDone))
       case NoSuchOrder => Effect(l, [], p.(pc := RefreshingClock(row, at)))
       case FoundOrder(s) =>
         match ReceiptFromSnapshot(s, row)
         case Some(receipt) => Effect(l, [], p.(pc := RecordingExisting(receipt, at)))
         case None =>
           if MatchesAttempt(s, row) && s.fields == Unreadable then Effect(l, [], p.(pc := SubmitDone))
           else Effect(l, [], p.(pc := Marking(AsUnknown(BrokerOrderMismatch, OrderMismatch), at))))
    case RecordingExisting(receipt, at) =>
      var (l', reported) :=
        Write(l, RecordReceipt(l, receipt, BrokerExistingOrderFound, ExistingOrderFound), env.receiptFate);
      if reported then Effect(l', [], p.(pc := SubmitDone))
      else Effect(l', [], p.(pc := Marking(AsUnknown(ExistingReceiptNotPersisted, SubmissionUnknownMarked), at)))
    case RefreshingClock(row, at) =>
      (match env.secondClock
       case ClockUnavailable =>
         Effect(l, [], p.(pc := Marking(AsFailed(Blocked, ClockRefreshFailed, ClockBlocked), at)))
       case ClockRead(clock) =>
         if !ClockAdmits(clock, instr) then
           Effect(l, [], p.(pc := Marking(AsFailed(Blocked, StaleCode(clock, instr), ClockBlocked), at)))
         else if !ApprovalMatches(instr, appr, clock.timestamp) then
           Effect(l, [], p.(pc := Marking(AsFailed(Blocked, ApprovalInvalidBeforeSubmission, ClockBlocked), at)))
         else
           Effect(l, [ClockAccepted(pid, clock)], p.(pc := ReadingSwitch(row, at, |log|))))
    case ReadingSwitch(row, at, clockAt) =>
      if !env.switchReadable then
        Effect(l, [], p.(pc := Marking(AsFailed(Blocked, SwitchUnavailableBeforeSubmission, SwitchBlocked), at)))
      else if KillSwitchEngaged(l) then
        Effect(l, [SwitchWasRead(pid, true)],
               p.(pc := Marking(AsFailed(Blocked, SwitchEngagedBeforeSubmission, SwitchBlocked), at)))
      else
        Effect(l, [SwitchWasRead(pid, false)], p.(pc := Submitting(row, at, clockAt, |log|)))
    case Submitting(row, at, clockAt, switchAt) =>
      SubmitCall(l, p, pid, row, at, clockAt, switchAt, env.submit)
    case RecordingAccepted(receipt, at) =>
      var (l', reported) := Write(l, RecordReceipt(l, receipt, Accepted, OrderAccepted), env.receiptFate);
      if reported then Effect(l', [], p.(pc := SubmitDone))
      else Effect(l', [], p.(pc := Marking(AsUnknown(AcceptedReceiptNotPersisted, SubmissionUnknownMarked), at)))
    case Marking(mark, at) =>
      Effect(Write(l, MarkOutcome(l, instr, mark), env.markFate).0, [], p.(pc := SubmitDone))
    case SubmitDone => Effect(l, [], p)
  }

  function SubmitCall(l: Ledger, p: Proc, pid: Pid, row: Attempt, at: nat, clockAt: nat, switchAt: nat,
                      reply: SubmitReply): Effect
    requires p.Submitter?
  {
    var sent := [OrderSent(pid, p.instr, p.appr, at, clockAt, switchAt, reply)];
    match reply
    case RequestNotBuilt =>
      Effect(l, [], p.(pc := Marking(AsFailed(Blocked, RequestConstructionFailed, RequestFailed), at)))
    case OrderRejected(code) =>
      Effect(l, sent, p.(pc := Marking(AsFailed(Rejected, Reported(code), RejectedByBroker), at)))
    case OutcomeUnknown(code) =>
      Effect(l, sent, p.(pc := Marking(AsUnknown(Reported(code), SubmissionUnknownMarked), at)))
    case OrderReturned(s) =>
      match ReceiptFromSnapshot(s, row)
      case Some(receipt) => Effect(l, sent, p.(pc := RecordingAccepted(receipt, at)))
      case None => Effect(l, sent, p.(pc := Marking(AsUnknown(BrokerSnapshotMismatch, SubmissionUnknownMarked), at)))
  }

  function ReconcilerStep(l: Ledger, p: Proc, env: Env): Effect
    requires p.Reconciler?
  {
    match p.rpc
    case ReadingRow =>
      if p.client in l.attempts && Unresolved(l.attempts[p.client].status)
      then Effect(l, [], p.(rpc := AskingBroker(l.attempts[p.client])))
      else Effect(l, [], p.(rpc := ReconcileDone))
    case AskingBroker(row) =>
      (match env.lookup
       case LookupUnavailable => Effect(l, [], p.(rpc := ReconcileDone))
       case NoSuchOrder => Effect(l, [], p.(rpc := ReconcileDone))
       case FoundOrder(s) =>
         match ReceiptFromSnapshot(s, row)
         case Some(receipt) => Effect(l, [], p.(rpc := RecordingReconciled(receipt, row.signalId)))
         case None =>
           if MatchesAttempt(s, row) && s.fields == Unreadable then Effect(l, [], p.(rpc := ReconcileDone))
           else Effect(l, [], p.(rpc := MarkingUnreconciled(row.signalId, BrokerOrderMismatch, OrderMismatch))))
    case RecordingReconciled(receipt, signal) =>
      var (l', reported) := Write(l, RecordReceipt(l, receipt, Reconciled, OrderReconciled), env.receiptFate);
      if reported then Effect(l', [], p.(rpc := ReconcileDone))
      else Effect(l', [], p.(rpc := MarkingUnreconciled(signal, ReconciliationReceiptNotPersisted,
                                                        SubmissionUnknownMarked)))
    case MarkingUnreconciled(signal, code, eventType) =>
      Effect(Write(l, MarkSubmissionUnknown(l, p.client, signal, code, eventType), env.markFate).0, [],
             p.(rpc := ReconcileDone))
    case ReconcileDone => Effect(l, [], p)
  }

  // ---------------------------------------------------------------- one move of the world, and runs

  function ProcStep(w: World, pid: Pid, env: Env): Effect
    requires pid in w.procs
  {
    var p := w.procs[pid];
    match p
    case Submitter(_, _, _) => SubmitterStep(w.ledger, w.log, pid, p, env)
    case Reconciler(_, _) => ReconcilerStep(w.ledger, p, env)
    case Dead => Effect(w.ledger, [], p)
  }

  /** A move that is not enabled leaves the world as it is. */
  function Step(w: World, m: Move): World {
    match m
    case StartSubmit(pid, instr, appr) =>
      if pid in w.procs then w else w.(procs := w.procs[pid := Submitter(instr, appr, OpeningGates)])
    case StartReconcile(pid, client) =>
      if pid in w.procs then w else w.(procs := w.procs[pid := Reconciler(client, ReadingRow)])
    case Die(pid) =>
      if pid in w.procs then w.(procs := w.procs[pid := Dead]) else w
    case WriteSwitch(engaged, confirmed, fate) =>
      (match SetKillSwitch(w.ledger, engaged, confirmed)
       case Err(_) => w
       case Ok(l') => if fate == Lost then w else w.(ledger := l', log := w.log + [SwitchWasSet(engaged)]))
    case Advance(pid, env) =>
      if pid !in w.procs then w
      else
        var e := ProcStep(w, pid, env);
        World(e.ledger, w.procs[pid := e.proc], w.log + e.entries)
  }

  function Run(w: World, moves: seq<Move>): World {
    if moves == [] then w else Step(Run(w, moves[..|moves| - 1]), moves[|moves| - 1])
  }

  /** Any ledger that earlier runs may have left, no process alive, nothing logged. */
  ghost predicate Initial(w: World) {
    LedgerInv(w.ledger) && w.procs == map[] && w.log == []
  }
}
