/**
 The durable paper-execution ledger as a value: its rows, its event trail, and
 each repository transaction as a function that either yields the next ledger
 or an error that leaves the ledger as it was.
 */
module PaperLedger {
  import opened Trading
  import opened Wrappers

  type ExecutionId = string

  datatype Status =
    | Reserved
    | BrokerExistingOrderFound
    | Accepted
    | Rejected
    | SubmissionUnknown
    | Reconciled
    | Blocked

  datatype Instruction = Instruction(
    clientOrderId: ExecutionId,
    signalId: ExecutionId,
    fingerprint: string,
    symbol: string,
    side: Side,
    quantity: int,
    signalSession: int,
    executionSession: int,
    createdAt: int,
    expiresAt: int)

  datatype Approval = Approval(
    approvalId: ExecutionId,
    signalId: ExecutionId,
    clientOrderId: ExecutionId,
    fingerprint: string,
    approvedAt: int)

  /** The order terms a broker reports back, which must be market/day/regular hours on the paper venue. */
  datatype OrderTerms = OrderTerms(
    orderType: string,
    timeInForce: string,
    extendedHours: bool,
    environment: string)

  predicate SupportedTerms(t: OrderTerms) {
    t.orderType == "market" && t.timeInForce == "day" && !t.extendedHours && t.environment == "alpaca_paper"
  }

  datatype Receipt = Receipt(
    signalId: ExecutionId,
    clientOrderId: ExecutionId,
    fingerprint: string,
    symbol: string,
    side: Side,
    quantity: int,
    brokerOrderId: string,
    brokerStatus: string,
    terms: OrderTerms)

  datatype Attempt = Attempt(
    clientOrderId: ExecutionId,
    signalId: ExecutionId,
    approvalId: ExecutionId,
    fingerprint: string,
    symbol: string,
    side: Side,
    quantity: int,
    signalSession: int,
    executionSession: int,
    status: Status,
    brokerOrderId: Option<string>,
    brokerStatus: Option<string>,
    failureCode: Option<FailureCode>)

  /** Why a row stopped short of a receipt; `Reported` carries the code of the exception the broker adapter raised. */
  datatype FailureCode =
    | BrokerOrderMismatch
    | BrokerSnapshotMismatch
    | ExistingReceiptNotPersisted
    | AcceptedReceiptNotPersisted
    | ReconciliationReceiptNotPersisted
    | ClockRefreshFailed
    | MarketClosedBeforeSubmission
    | InstructionExpiredBeforeSubmission
    | InvalidExecutionSession
    | WrongSessionBeforeSubmission
    | ApprovalInvalidBeforeSubmission
    | SwitchUnavailableBeforeSubmission
    | SwitchEngagedBeforeSubmission
    | RequestConstructionFailed
    | Reported(code: string)

  datatype EventType =
    | AttemptReserved
    | ExistingOrderFound
    | OrderAccepted
    | OrderReconciled
    | OrderMismatch
    | RejectedByBroker
    | RequestFailed
    | SubmissionUnknownMarked
    | ClockBlocked
    | SwitchBlocked

  datatype Event =
    | AttemptEvent(clientOrderId: ExecutionId, signalId: ExecutionId, eventType: EventType,
                   prior: Option<Status>, next: Status)
    | KillSwitchUpdated(wasEngaged: bool, nowEngaged: bool)

  /** `control` is the single control row; when it is missing the switch reads as engaged. */
  datatype Ledger = Ledger(
    attempts: map<ExecutionId, Attempt>,
    events: seq<Event>,
    control: Option<bool>)

  datatype Error =
    | ExecutionSessionAlreadyReserved
    | DuplicateExecutionIdentifier
    | ReservationFailed
    | InvalidAttemptRow
    | AttemptNotFound
    | ReceiptLineageMismatch
    | InvalidReceiptTransition
    | ReceiptContractMismatch
    | AttemptLineageMismatch
    | InvalidUnknownTransition
    | InvalidFailureTransition
    | MissingKillSwitchConfirmation
    | LedgerWriteFailed

  function KillSwitchEngaged(l: Ledger): bool {
    match l.control
    case None => true
    case Some(engaged) => engaged
  }

  predicate Unresolved(s: Status) {
    s == Reserved || s == SubmissionUnknown
  }

  /** reserved < submission_unknown < every terminal state. */
  function Rank(s: Status): nat {
    match s
    case Reserved => 0
    case SubmissionUnknown => 1
    case _ => 2
  }

  predicate Terminal(s: Status) {
    Rank(s) == 2
  }

  /** The prior states from which a receipt may move a row to `target`. */
  predicate ReceiptTransition(prior: Status, target: Status) {
    match target
    case Accepted => prior == Reserved
    case BrokerExistingOrderFound => prior == Reserved
    case Reconciled => prior == Reserved || prior == SubmissionUnknown
    case _ => false
  }

  // ---------------------------------------------------------------- transactions

  predicate SessionTaken(l: Ledger, symbol: string, executionSession: int) {
    exists c :: c in l.attempts && l.attempts[c].symbol == symbol && l.attempts[c].executionSession == executionSession
  }

  predicate IdentifierTaken(l: Ledger, instr: Instruction, appr: Approval) {
    || instr.clientOrderId in l.attempts
    || exists c :: c in l.attempts &&
                   (l.attempts[c].signalId == instr.signalId || l.attempts[c].approvalId == appr.approvalId)
  }

  function FreshAttempt(instr: Instruction, appr: Approval): Attempt {
    Attempt(instr.clientOrderId, instr.signalId, appr.approvalId, instr.fingerprint, instr.symbol, instr.side,
            instr.quantity, instr.signalSession, instr.executionSession, Reserved, None, None, None)
  }

  function ReserveAttempt(l: Ledger, instr: Instruction, appr: Approval): Result<Ledger, Error> {
    if SessionTaken(l, instr.symbol, instr.executionSession) then
      Err(ExecutionSessionAlreadyReserved)
    else if instr.quantity <= 0 then
      Err(ReservationFailed)
    else if IdentifierTaken(l, instr, appr) then
      Err(DuplicateExecutionIdentifier)
    else if instr.symbol != SUPPORTED_SYMBOL then
      Err(InvalidAttemptRow)
    else
      Ok(Ledger(
           l.attempts[instr.clientOrderId := FreshAttempt(instr, appr)],
           l.events + [AttemptEvent(instr.clientOrderId, instr.signalId, AttemptReserved, None, Reserved)],
           l.control))
  }

  /** Writes `updated` over the row of `client` and appends the matching event. */
  function WithTransition(l: Ledger, client: ExecutionId, updated: Attempt, eventType: EventType): Ledger
    requires client in l.attempts
  {
    var prior := l.attempts[client];
    Ledger(
      l.attempts[client := updated],
      l.events + [AttemptEvent(prior.clientOrderId, prior.signalId, eventType, Some(prior.status), updated.status)],
      l.control)
  }

  predicate ReceiptMatchesRow(r: Receipt, a: Attempt) {
    && r.signalId == a.signalId
    && r.clientOrderId == a.clientOrderId
    && r.fingerprint == a.fingerprint
    && r.symbol == a.symbol
    && r.side == a.side
    && r.quantity == a.quantity
  }

  function RecordReceipt(l: Ledger, r: Receipt, target: Status, eventType: EventType): Result<Ledger, Error> {
    if r.clientOrderId !in l.attempts then
      Err(ReceiptLineageMismatch)
    else
      var prior := l.attempts[r.clientOrderId];
      if !ReceiptTransition(prior.status, target) then
        Err(InvalidReceiptTransition)
      else if !ReceiptMatchesRow(r, prior) then
        Err(ReceiptLineageMismatch)
      else if !SupportedTerms(r.terms) then
        Err(ReceiptContractMismatch)
      else
        Ok(WithTransition(
             l,
             r.clientOrderId,
             prior.(status := target, brokerOrderId := Some(r.brokerOrderId),
             brokerStatus := Some(r.brokerStatus), failureCode := None),
             eventType))
  }

  function MarkSubmissionUnknown(l: Ledger, client: ExecutionId, signal: ExecutionId, code: FailureCode,
                                 eventType: EventType): Result<Ledger, Error> {
    if client !in l.attempts then
      Err(AttemptNotFound)
    else
      var prior := l.attempts[client];
      if prior.signalId != signal then
        Err(AttemptLineageMismatch)
      else if !Unresolved(prior.status) then
        Err(InvalidUnknownTransition)
      else
        Ok(WithTransition(l, client, prior.(status := SubmissionUnknown, failureCode := Some(code)), eventType))
  }

  function MarkFailure(l: Ledger, client: ExecutionId, signal: ExecutionId, target: Status, code: FailureCode,
                       eventType: EventType): Result<Ledger, Error> {
    if target != Blocked && target != Rejected then
      Err(InvalidFailureTransition)
    else if client !in l.attempts then
      Err(AttemptNotFound)
    else
      var prior := l.attempts[client];
      if prior.signalId != signal then
        Err(AttemptLineageMismatch)
      else if prior.status != Reserved then
        Err(InvalidFailureTransition)
      else
        Ok(WithTransition(l, client, prior.(status := target, failureCode := Some(code)), eventType))
  }

  function SetKillSwitch(l: Ledger, engaged: bool, confirmed: bool): Result<Ledger, Error> {
    if !engaged && !confirmed then
      Err(MissingKillSwitchConfirmation)
    else
      Ok(l.(control := Some(engaged), events := l.events + [KillSwitchUpdated(KillSwitchEngaged(l), engaged)]))
  }

  /** The rows that the status report counts as unresolved submissions. */
  function UnresolvedAttempts(l: Ledger): (open: set<ExecutionId>)
    ensures forall c :: c in open <==> c in l.attempts && Unresolved(l.attempts[c].status)
  {
    set c | c in l.attempts && Unresolved(l.attempts[c].status)
  }

  // ---------------------------------------------------------------- invariants

  /** What the primary key, the unique columns and the row reader guarantee. */
  ghost predicate WellFormed(l: Ledger) {
    && (forall c :: c in l.attempts ==> l.attempts[c].clientOrderId == c)
    && (forall c :: c in l.attempts ==> l.attempts[c].symbol == SUPPORTED_SYMBOL && l.attempts[c].quantity > 0)
    && (forall c, d :: c in l.attempts && d in l.attempts && c != d ==>
                         && l.attempts[c].signalId != l.attempts[d].signalId
                         && l.attempts[c].approvalId != l.attempts[d].approvalId
                         && l.attempts[c].executionSession != l.attempts[d].executionSession)
  }

  /** What an event trail says about one attempt. */
  datatype Trail = Absent | At(status: Status) | Broken

  predicate Allowed(prior: Status, next: Status) {
    && !Terminal(prior)
    && Rank(prior) <= Rank(next)
    && next != Reserved
    && (prior == SubmissionUnknown ==> next == SubmissionUnknown || next == Reconciled)
  }

  function ExtendTrail(t: Trail, e: Event, c: ExecutionId): Trail {
    if e.KillSwitchUpdated? || e.clientOrderId != c then
      t
    else
      match t
      case Absent => if e.prior == None && e.next == Reserved then At(Reserved) else Broken
      case At(s) => if e.prior == Some(s) && Allowed(s, e.next) then At(e.next) else Broken
      case Broken => Broken
  }

  function TrailOf(events: seq<Event>, c: ExecutionId): Trail {
    if events == [] then Absent
    else ExtendTrail(TrailOf(events[..|events| - 1], c), events[|events| - 1], c)
  }

  function RowTrail(l: Ledger, c: ExecutionId): Trail {
    if c in l.attempts then At(l.attempts[c].status) else Absent
  }

  /** For every identifier the events form one unbroken chain that ends in the row's current status. */
  ghost predicate Chained(l: Ledger) {
    forall c :: TrailOf(l.events, c) == RowTrail(l, c)
  }

  ghost predicate LedgerInv(l: Ledger) {
    WellFormed(l) && Chained(l)
  }

  ghost predicate SameIdentity(a: Attempt, b: Attempt) {
    && a.clientOrderId == b.clientOrderId
    && a.signalId == b.signalId
    && a.approvalId == b.approvalId
    && a.fingerprint == b.fingerprint
    && a.symbol == b.symbol
    && a.side == b.side
    && a.quantity == b.quantity
    && a.signalSession == b.signalSession
    && a.executionSession == b.executionSession
  }

  /** Rows are never removed or re-identified, and never leave a terminal status. */
  ghost predicate Advances(l: Ledger, l': Ledger) {
    && l.events <= l'.events
    && forall c :: c in l.attempts ==>
                     && c in l'.attempts
                     && SameIdentity(l.attempts[c], l'.attempts[c])
                     && Rank(l.attempts[c].status) <= Rank(l'.attempts[c].status)
                     && (Terminal(l.attempts[c].status) ==> l'.attempts[c] == l.attempts[c])
  }

  lemma TrailSnoc(events: seq<Event>, e: Event, c: ExecutionId)
    ensures TrailOf(events + [e], c) == ExtendTrail(TrailOf(events, c), e, c)
  {
    assert (events + [e])[..|events|] == events;
  }

  lemma ReserveKeepsInv(l: Ledger, instr: Instruction, appr: Approval)
    requires LedgerInv(l)
    requires ReserveAttempt(l, instr, appr).Ok?
    ensures var l' := ReserveAttempt(l, instr, appr).value;
            LedgerInv(l') && Advances(l, l') && instr.clientOrderId !in l.attempts
  {
    var l' := ReserveAttempt(l, instr, appr).value;
    var e := AttemptEvent(instr.clientOrderId, instr.signalId, AttemptReserved, None, Reserved);
    forall c ensures TrailOf(l'.events, c) == RowTrail(l', c) {
      TrailSnoc(l.events, e, c);
      assert TrailOf(l.events, c) == RowTrail(l, c);
    }
  }

  lemma TransitionKeepsInv(l: Ledger, client: ExecutionId, updated: Attempt, eventType: EventType)
    requires LedgerInv(l)
    requires client in l.attempts
    requires SameIdentity(l.attempts[client], updated)
    requires Allowed(l.attempts[client].status, updated.status)
    ensures var l' := WithTransition(l, client, updated, eventType); LedgerInv(l') && Advances(l, l')
  {
    var l' := WithTransition(l, client, updated, eventType);
    var prior := l.attempts[client];
    var e := AttemptEvent(prior.clientOrderId, prior.signalId, eventType, Some(prior.status), updated.status);
    forall c ensures TrailOf(l'.events, c) == RowTrail(l', c) {
      TrailSnoc(l.events, e, c);
      assert TrailOf(l.events, c) == RowTrail(l, c);
    }
  }

  lemma SwitchKeepsInv(l: Ledger, engaged: bool, confirmed: bool)
    requires LedgerInv(l)
    requires SetKillSwitch(l, engaged, confirmed).Ok?
    ensures var l' := SetKillSwitch(l, engaged, confirmed).value;
            LedgerInv(l') && Advances(l, l') && l'.attempts == l.attempts
  {
    var l' := SetKillSwitch(l, engaged, confirmed).value;
    forall c ensures TrailOf(l'.events, c) == RowTrail(l', c) {
      TrailSnoc(l.events, KillSwitchUpdated(KillSwitchEngaged(l), engaged), c);
      assert TrailOf(l.events, c) == RowTrail(l, c);
    }
  }

  // ---------------------------------------------------------------- whole histories of transactions

  /** One repository transaction, with the arguments any caller may pass. */
  datatype Transaction =
    | Reserve(instr: Instruction, appr: Approval)
    | Record(receipt: Receipt, target: Status, eventType: EventType)
    | MarkUnknown(client: ExecutionId, signal: ExecutionId, code: FailureCode, eventType: EventType)
    | Fail(client: ExecutionId, signal: ExecutionId, target: Status, code: FailureCode, eventType: EventType)
    | Switch(engaged: bool, confirmed: bool)

  function Outcome(l: Ledger, t: Transaction): Result<Ledger, Error> {
    match t
    case Reserve(instr, appr) => ReserveAttempt(l, instr, appr)
    case Record(receipt, target, eventType) => RecordReceipt(l, receipt, target, eventType)
    case MarkUnknown(client, signal, code, eventType) => MarkSubmissionUnknown(l, client, signal, code, eventType)
    case Fail(client, signal, target, code, eventType) => MarkFailure(l, client, signal, target, code, eventType)
    case Switch(engaged, confirmed) => SetKillSwitch(l, engaged, confirmed)
  }

  /** A transaction that raises is rolled back. */
  function Commit(l: Ledger, t: Transaction): Ledger {
    match Outcome(l, t)
    case Ok(l') => l'
    case Err(_) => l
  }

  function CommitAll(l: Ledger, ts: seq<Transaction>): Ledger {
    if ts == [] then l else Commit(CommitAll(l, ts[..|ts| - 1]), ts[|ts| - 1])
  }

  lemma CommitKeepsInv(l: Ledger, t: Transaction)
    requires LedgerInv(l)
    ensures LedgerInv(Commit(l, t)) && Advances(l, Commit(l, t))
  {
    if Outcome(l, t).Ok? {
      match t
      case Reserve(instr, appr) => ReserveKeepsInv(l, instr, appr);
      case Record(r, target, eventType) =>
        var prior := l.attempts[r.clientOrderId];
        TransitionKeepsInv(
          l,
          r.clientOrderId,
          prior.(status := target, brokerOrderId := Some(r.brokerOrderId),
          brokerStatus := Some(r.brokerStatus), failureCode := None),
          eventType);
      case MarkUnknown(client, signal, code, eventType) =>
        TransitionKeepsInv(l, client, l.attempts[client].(status := SubmissionUnknown, failureCode := Some(code)),
                           eventType);
      case Fail(client, signal, target, code, eventType) =>
        TransitionKeepsInv(l, client, l.attempts[client].(status := target, failureCode := Some(code)), eventType);
      case Switch(engaged, confirmed) => SwitchKeepsInv(l, engaged, confirmed);
    }
  }

  // ---------------------------------------------------------------- what is accepted, and what it writes

  /**
   A receipt is recorded exactly over a row with its identity that is reserved, or, to reconcile it, unknown; the row
   then carries what the broker said.
   */
  lemma ReceiptRecordedExactly(l: Ledger, r: Receipt, target: Status, eventType: EventType)
    ensures var recorded := RecordReceipt(l, r, target, eventType);
            && (recorded.Ok? <==>
                && r.clientOrderId in l.attempts
                && var row := l.attempts[r.clientOrderId];
                && r.signalId == row.signalId && r.clientOrderId == row.clientOrderId
                   && r.fingerprint == row.fingerprint
                && r.symbol == row.symbol && r.side == row.side && r.quantity == row.quantity
                && r.terms == OrderTerms("market", "day", false, "alpaca_paper")
                && (|| (row.status == Reserved && target in {Accepted, BrokerExistingOrderFound, Reconciled})
                    || (row.status == SubmissionUnknown && target == Reconciled)))
            && (recorded.Ok? ==>
                  var row := l.attempts[r.clientOrderId];
                  recorded.value == Ledger(
                    l.attempts[r.clientOrderId := Attempt(
                      row.clientOrderId, row.signalId, row.approvalId, row.fingerprint, row.symbol, row.side,
                      row.quantity, row.signalSession, row.executionSession,
                      target, Some(r.brokerOrderId), Some(r.brokerStatus), None)],
                    l.events + [AttemptEvent(row.clientOrderId, row.signalId, eventType, Some(row.status), target)],
                    l.control))
  {
  }

  /** A row is marked unknown exactly while it is unresolved, and marked blocked or rejected exactly while reserved. */
  lemma MarkedExactly(l: Ledger, client: ExecutionId, signal: ExecutionId, target: Status, code: FailureCode,
                      eventType: EventType)
    ensures MarkSubmissionUnknown(l, client, signal, code, eventType).Ok? <==>
            && client in l.attempts && l.attempts[client].signalId == signal
            && l.attempts[client].status in {Reserved, SubmissionUnknown}
    ensures MarkFailure(l, client, signal, target, code, eventType).Ok? <==>
            && target in {Blocked, Rejected}
            && client in l.attempts && l.attempts[client].signalId == signal && l.attempts[client].status == Reserved
    ensures MarkSubmissionUnknown(l, client, signal, code, eventType).Ok? ==>
              MarkSubmissionUnknown(l, client, signal, code, eventType).value
              == MarkedAs(l, client, SubmissionUnknown, code, eventType)
    ensures MarkFailure(l, client, signal, target, code, eventType).Ok? ==>
              MarkFailure(l, client, signal, target, code, eventType).value
                == MarkedAs(l, client, target, code, eventType)
  {
  }

  /** The ledger with one row at another status for a reason, and the event that says so. */
  function MarkedAs(l: Ledger, client: ExecutionId, status: Status, code: FailureCode, eventType: EventType): Ledger
    requires client in l.attempts
  {
    var row := l.attempts[client];
    Ledger(
      l.attempts[client := Attempt(
        row.clientOrderId, row.signalId, row.approvalId, row.fingerprint, row.symbol, row.side, row.quantity,
        row.signalSession, row.executionSession, status, row.brokerOrderId, row.brokerStatus, Some(code))],
      l.events + [AttemptEvent(row.clientOrderId, row.signalId, eventType, Some(row.status), status)],
      l.control)
  }

  /** The switch is engaged on request and disengaged on confirmation; only a control row that says so is disengaged. */
  lemma SwitchSetExactly(l: Ledger, engaged: bool, confirmed: bool)
    ensures KillSwitchEngaged(l) <==> l.control != Some(false)
    ensures SetKillSwitch(l, engaged, confirmed).Ok? <==> engaged || confirmed
    ensures SetKillSwitch(l, engaged, confirmed).Ok? ==>
              SetKillSwitch(l, engaged, confirmed).value
              == Ledger(l.attempts, l.events + [KillSwitchUpdated(l.control != Some(false), engaged)], Some(engaged))
  {
  }

  lemma AdvancesReflexive(l: Ledger)
    ensures Advances(l, l)
  {
  }

  lemma AdvancesTransitive(l0: Ledger, l1: Ledger, l2: Ledger)
    requires Advances(l0, l1) && Advances(l1, l2)
    ensures Advances(l0, l2)
  {
  }

  /** Whatever transactions racing callers commit, in whatever order, chains stay unbroken and rows only advance. */
  lemma {:induction false} EveryHistoryKeepsChains(l: Ledger, ts: seq<Transaction>)
    requires LedgerInv(l)
    ensures LedgerInv(CommitAll(l, ts)) && Advances(l, CommitAll(l, ts))
  {
    if ts != [] {
      var init := ts[..|ts| - 1];
      EveryHistoryKeepsChains(l, init);
      CommitKeepsInv(CommitAll(l, init), ts[|ts| - 1]);
      AdvancesTransitive(l, CommitAll(l, init), CommitAll(l, ts));
    }
  }

  // ---------------------------------------------------------------- what an unbroken chain means

  lemma {:induction false} TrailPrefixUnbroken(events: seq<Event>, c: ExecutionId, n: nat)
    requires n <= |events|
    requires !TrailOf(events, c).Broken?
    ensures !TrailOf(events[..n], c).Broken?
    decreases |events|
  {
    if n == |events| {
      assert events[..n] == events;
    } else {
      var init, last := events[..|events| - 1], events[|events| - 1];
      assert events == init + [last];
      hide TrailOf;
      TrailSnoc(init, last, c);
      TrailPrefixUnbroken(init, c, n);
      assert init[..n] == events[..n];
    }
  }

  /** After an event of `c`, the trail stands at that event's new state. */
  lemma TrailAtEvent(events: seq<Event>, c: ExecutionId, i: nat)
    requires !TrailOf(events, c).Broken?
    requires i < |events| && events[i].AttemptEvent? && events[i].clientOrderId == c
    ensures TrailOf(events[..i + 1], c) == At(events[i].next)
    ensures events[i].prior.Some? ==> TrailOf(events[..i], c) == At(events[i].prior.value)
                                      && Allowed(events[i].prior.value, events[i].next)
    ensures events[i].prior.None? ==> TrailOf(events[..i], c) == Absent && events[i].next == Reserved
  {
    hide TrailOf;
    TrailPrefixUnbroken(events, c, i + 1);
    assert events[..i + 1] == events[..i] + [events[i]];
    TrailSnoc(events[..i], events[i], c);
  }

  lemma {:induction false} TrailOnlyAdvances(events: seq<Event>, c: ExecutionId, i: nat, j: nat)
    requires i <= j <= |events|
    requires !TrailOf(events, c).Broken?
    requires TrailOf(events[..i], c).At?
    ensures TrailOf(events[..j], c).At?
    ensures Rank(TrailOf(events[..i], c).status) <= Rank(TrailOf(events[..j], c).status)
    ensures Terminal(TrailOf(events[..i], c).status) ==> TrailOf(events[..j], c) == TrailOf(events[..i], c)
    decreases j - i
  {
    hide TrailOf;
    if i < j {
      TrailOnlyAdvances(events, c, i, j - 1);
      TrailPrefixUnbroken(events, c, j);
      assert events[..j] == events[..j - 1] + [events[j - 1]];
      TrailSnoc(events[..j - 1], events[j - 1], c);
    }
  }

  /**
   In any ledger reached by any history, two events of the same attempt, in the order they were written,
   link up without a gap in rank, and nothing is ever written after a terminal state.
   */
  lemma EventsNeverGoBack(l: Ledger, c: ExecutionId, i: nat, j: nat)
    requires LedgerInv(l)
    requires i < j < |l.events|
    requires l.events[i].AttemptEvent? && l.events[i].clientOrderId == c
    requires l.events[j].AttemptEvent? && l.events[j].clientOrderId == c
    ensures !Terminal(l.events[i].next)
    ensures l.events[j].prior.Some?
    ensures Rank(l.events[i].next) <= Rank(l.events[j].prior.value) <= Rank(l.events[j].next)
    ensures (forall k :: i < k < j && l.events[k].AttemptEvent? ==> l.events[k].clientOrderId != c)
            ==> l.events[j].prior == Some(l.events[i].next)
  {
    hide TrailOf;
    assert TrailOf(l.events, c) == RowTrail(l, c);
    TrailAtEvent(l.events, c, i);
    TrailAtEvent(l.events, c, j);
    TrailOnlyAdvances(l.events, c, i + 1, j);
    if forall k :: i < k < j && l.events[k].AttemptEvent? ==> l.events[k].clientOrderId != c {
      TrailUntouched(l.events, c, i + 1, j);
    }
  }

  lemma {:induction false} TrailUntouched(events: seq<Event>, c: ExecutionId, i: nat, j: nat)
    requires i <= j <= |events|
    requires forall k :: i <= k < j && events[k].AttemptEvent? ==> events[k].clientOrderId != c
    ensures TrailOf(events[..j], c) == TrailOf(events[..i], c)
    decreases j - i
  {
    hide TrailOf;
    if i < j {
      TrailUntouched(events, c, i, j - 1);
      assert events[..j] == events[..j - 1] + [events[j - 1]];
      TrailSnoc(events[..j - 1], events[j - 1], c);
    }
  }

  /** The row's current status is the new state of its last event, and its first event is the reservation. */
  lemma RowIsLastEvent(l: Ledger, c: ExecutionId, i: nat)
    requires LedgerInv(l)
    requires i < |l.events| && l.events[i].AttemptEvent? && l.events[i].clientOrderId == c
    ensures c in l.attempts
    ensures (forall k :: i < k < |l.events| && l.events[k].AttemptEvent? ==> l.events[k].clientOrderId != c)
            ==> l.attempts[c].status == l.events[i].next
    ensures (forall k :: 0 <= k < i && l.events[k].AttemptEvent? ==> l.events[k].clientOrderId != c)
            ==> l.events[i].prior == None && l.events[i].next == Reserved
  {
    assert TrailOf(l.events, c) == RowTrail(l, c);
    TrailAtEvent(l.events, c, i);
    assert l.events[..|l.events|] == l.events;
    TrailOnlyAdvances(l.events, c, i + 1, |l.events|);
    if forall k :: i < k < |l.events| && l.events[k].AttemptEvent? ==> l.events[k].clientOrderId != c {
      TrailUntouched(l.events, c, i + 1, |l.events|);
    }
    if forall k :: 0 <= k < i && l.events[k].AttemptEvent? ==> l.events[k].clientOrderId != c {
      TrailUntouched(l.events, c, 0, i);
      assert l.events[..0] == [];
    }
  }
}
