/**
 The paper-execution workflow as it is written: methods that call the broker
 and the repository in order.  Before each of its calls the other processes may
 make any number of moves (`Preempt`); `moves` records what everybody did, so
 the methods extend one run of the protocol, and whatever holds of all runs
 holds after any of them.
 */
module PaperService {
  import opened Wrappers
  import opened PaperLedger
  import opened PaperProtocol
  import opened PaperOutcomes
  import opened PaperRepository
  import Safety = PaperSafety

  datatype ServiceError =
    | GateClosed
    | NotReserved
    | OrderLookupUnavailable
    | OrderUnreadable
    | StoppedBeforeSubmission
    | RequestNotSent
    | RejectedOrder
    | SubmissionOutcomeUnknown
    | NotEligibleForReconciliation

  /** The move starts, advances or ends process `pid`. */
  predicate Concerns(m: Move, pid: Pid) {
    !m.WriteSwitch? && m.pid == pid
  }

  /** From position `from` on, nobody but `pid` has moved. */
  predicate Undisturbed(moves: seq<Move>, from: nat, pid: Pid) {
    forall i :: from <= i < |moves| ==> Concerns(moves[i], pid)
  }

  /** From position `from` on, `pid` itself has not moved. */
  predicate OthersOnly(moves: seq<Move>, from: nat, pid: Pid) {
    forall i :: from <= i < |moves| ==> !Concerns(moves[i], pid)
  }

  /** `after` continues `before`, and what `pid` has done since are steps in environment `env`. */
  predicate Continues(before: seq<Move>, after: seq<Move>, pid: Pid, env: Env) {
    && before <= after
    && forall i :: |before| <= i < |after| && Concerns(after[i], pid) ==> after[i] == Advance(pid, env)
  }

  /** Whatever the others do, a process stays where it is and the log only grows. */
  lemma {:induction false} OthersLeaveProcess(start: World, moves: seq<Move>, from: nat, pid: Pid)
    requires from <= |moves| && OthersOnly(moves, from, pid)
    ensures var w, w' := Run(start, moves[..from]), Run(start, moves);
            && (pid in w'.procs <==> pid in w.procs)
            && (pid in w.procs ==> w'.procs[pid] == w.procs[pid])
            && w.log <= w'.log
  {
    hide ProcStep, SetKillSwitch;
    if from == |moves| {
      assert moves[..from] == moves;
    } else {
      var init := moves[..|moves| - 1];
      assert init[..from] == moves[..from];
      OthersLeaveProcess(start, init, from, pid);
      assert !Concerns(moves[|moves| - 1], pid);
    }
  }

  /** The log only grows. */
  lemma {:induction false} LogKept(start: World, moves: seq<Move>, n: nat)
    requires n <= |moves|
    ensures |Run(start, moves[..n]).log| <= |Run(start, moves).log|
  {
    hide ProcStep, SetKillSwitch;
    if n == |moves| {
      assert moves[..n] == moves;
    } else {
      var init := moves[..|moves| - 1];
      assert init[..n] == moves[..n];
      LogKept(start, init, n);
    }
  }

  /** The receipt that a step of `pid` writes in `w` and knows to be written. */
  function Written(w: World, pid: Pid, env: Env): Option<Receipt> {
    if pid !in w.procs then None
    else
      match w.procs[pid]
      case Submitter(_, _, RecordingExisting(receipt, _)) =>
        if Records(w.ledger, Some(receipt), BrokerExistingOrderFound, ExistingOrderFound, env)
        then Some(receipt) else None
      case Submitter(_, _, RecordingAccepted(receipt, _)) =>
        if Records(w.ledger, Some(receipt), Accepted, OrderAccepted, env) then Some(receipt) else None
      case Reconciler(_, RecordingReconciled(receipt, _)) =>
        if Records(w.ledger, Some(receipt), Reconciled, OrderReconciled, env) then Some(receipt) else None
      case _ => None
  }

  /** The ledger takes this receipt, and reports that it did. */
  predicate Records(l: Ledger, receipt: Option<Receipt>, status: Status, eventType: EventType, env: Env) {
    receipt.Some? && RecordReceipt(l, receipt.value, status, eventType).Ok? && env.receiptFate == Durable
  }

  predicate ClockPasses(reply: ClockReply, instr: Instruction, appr: Approval) {
    reply.ClockRead? && ClockAdmits(reply.clock, instr) && ApprovalMatches(instr, appr, reply.clock.timestamp)
  }

  /** The submit call returns an order that can be recorded for the row. */
  predicate SubmitReturns(l: Ledger, env: Env, row: Attempt) {
    env.submit.OrderReturned? && Records(l, ReceiptFromSnapshot(env.submit.snapshot, row), Accepted, OrderAccepted, env)
  }

  predicate PassesAndReturns(l: Ledger, instr: Instruction, appr: Approval, env: Env, row: Attempt) {
    && ClockPasses(env.secondClock, instr, appr)
    && env.switchReadable && !KillSwitchEngaged(l)
    && SubmitReturns(l, env, row)
  }

  /** With the row reserved: an order already at the broker is adopted, or a new one is sent and recorded. */
  predicate ReservedReturns(l: Ledger, instr: Instruction, appr: Approval, env: Env, row: Attempt) {
    match env.lookup
    case LookupUnavailable => false
    case NoSuchOrder => PassesAndReturns(l, instr, appr, env, row)
    case FoundOrder(s) => Records(l, ReceiptFromSnapshot(s, row), BrokerExistingOrderFound, ExistingOrderFound, env)
  }

  /** Every gate is passed and the reservation is made. */
  predicate Reserves(l: Ledger, instr: Instruction, appr: Approval, env: Env) {
    && env.gatesOpen && ClockPasses(env.firstClock, instr, appr)
    && env.firstSwitchReadable && !KillSwitchEngaged(l)
    && env.stateAccepted
    && ReserveAttempt(l, instr, appr).Ok? && env.reserveFate == Durable
  }

  predicate SubmitSucceeds(l: Ledger, instr: Instruction, appr: Approval, env: Env) {
    && Reserves(l, instr, appr, env)
    && ReservedReturns(ReserveAttempt(l, instr, appr).value, instr, appr, env, FreshAttempt(instr, appr))
  }

  /** The attempt is unresolved and the broker returns an order that can be recorded for it. */
  predicate ReconcileSucceeds(l: Ledger, client: ExecutionId, env: Env) {
    && client in l.attempts && Unresolved(l.attempts[client].status)
    && env.lookup.FoundOrder?
    && Records(l, ReceiptFromSnapshot(env.lookup.snapshot, l.attempts[client]), Reconciled, OrderReconciled, env)
  }

  /** What the broker has to do for a submission to end with a receipt, once the attempt is reserved. */
  predicate BrokerCooperates(instr: Instruction, appr: Approval, env: Env) {
    match env.lookup
    case LookupUnavailable => false
    case NoSuchOrder =>
      && env.secondClock.ClockRead? && ClockRefusal(env.secondClock.clock, instr, appr) == None && env.switchReadable
      && env.submit.OrderReturned?
      && OrderMatches(env.submit.snapshot, instr.clientOrderId, instr.side, instr.quantity)
    case FoundOrder(s) => OrderMatches(s, instr.clientOrderId, instr.side, instr.quantity)
  }

  /**
   A submission that nobody interferes with ends with a receipt exactly when every gate is passed, the reservation
   commits, the broker cooperates, and the receipt is written: no row ever stands in the way of its own receipt.
   */
  lemma SucceedsExactlyWhen(l: Ledger, instr: Instruction, appr: Approval, env: Env)
    ensures SubmitSucceeds(l, instr, appr, env) <==>
            && WillReserve(l, instr, appr, env) && env.reserveFate == Durable
            && BrokerCooperates(instr, appr, env) && env.receiptFate == Durable
  {
    ReservesExactly(l, instr, appr, env);
    if Reserves(l, instr, appr, env) {
      hide ClockAdmits, ApprovalMatches, OrderMatches, ReceiptFromSnapshot, ClockRefusal, PaperLedger.RecordReceipt;
      if env.lookup.FoundOrder? {
        ReceiptExactly(env.lookup.snapshot, FreshAttempt(instr, appr));
        FreshReceiptRecords(l, instr, appr, env.lookup);
      }
      if env.submit.OrderReturned? {
        ReceiptExactly(env.submit.snapshot, FreshAttempt(instr, appr));
        FreshReceiptRecords(l, instr, appr, FoundOrder(env.submit.snapshot));
      }
      if env.secondClock.ClockRead? {
        RefusalExactly(env.secondClock.clock, instr, appr);
      }
    }
  }

  lemma ReservesExactly(l: Ledger, instr: Instruction, appr: Approval, env: Env)
    ensures Reserves(l, instr, appr, env) <==> WillReserve(l, instr, appr, env) && env.reserveFate == Durable
  {
    hide PaperLedger.ReserveAttempt, ClockAdmits, ApprovalMatches, ClockRefusal, FreeToReserve;
    ReservationExactly(l, instr, appr);
    if env.firstClock.ClockRead? {
      RefusalExactly(env.firstClock.clock, instr, appr);
    }
  }

  /**
   A reconciliation yields a receipt exactly for an unresolved attempt whose order the broker returns and the ledger
   takes.
   */
  lemma ReconcileSucceedsExactly(l: Ledger, client: ExecutionId, env: Env)
    requires RowSound(l, client)
    ensures ReconcileSucceeds(l, client, env) <==>
            && client in l.attempts
            && (l.attempts[client].status == Reserved || l.attempts[client].status == SubmissionUnknown)
            && env.lookup.FoundOrder?
            && OrderMatches(env.lookup.snapshot, client, l.attempts[client].side, l.attempts[client].quantity)
            && env.receiptFate == Durable
  {
    hide OrderMatches, ReceiptFromSnapshot, PaperLedger.RecordReceipt;
    if client in l.attempts && env.lookup.FoundOrder? {
      var row := l.attempts[client];
      ReceiptExactly(env.lookup.snapshot, row);
      if ReceiptFromSnapshot(env.lookup.snapshot, row).Some? && Unresolved(row.status) {
        var receipt := ReceiptFromSnapshot(env.lookup.snapshot, row).value;
        OpenRowTakes(l, ViewOf(l, client), client, env.(receiptFate := Durable), receipt);
      }
    }
  }

  lemma FreshReceiptRecords(l: Ledger, instr: Instruction, appr: Approval, found: LookupReply)
    requires ReserveAttempt(l, instr, appr).Ok? && found.FoundOrder?
    ensures var (l', r) := (ReserveAttempt(l, instr, appr).value,
                            ReceiptFromSnapshot(found.snapshot, FreshAttempt(instr, appr)));
            r.Some? ==>
              && RecordReceipt(l', r.value, Accepted, OrderAccepted).Ok?
              && RecordReceipt(l', r.value, BrokerExistingOrderFound, ExistingOrderFound).Ok?
  {
  }

  /** A receipt that is honest for the row it was built for is honest for the row that carries it. */
  lemma HonestForItsRow(r: Receipt, s: Snapshot, row: Attempt, carrier: Attempt, status: Status)
    requires HonestReceipt(r, s, row) && Carries(carrier, r, status)
    ensures HonestReceipt(r, s, carrier) && r.clientOrderId == row.clientOrderId
  {
  }

  class PaperExecutionService {
    const repository: SQLitePaperExecutionRepository
    ghost const start: World
    ghost var moves: seq<Move>
    ghost var world: World

    constructor (repository: SQLitePaperExecutionRepository)
      requires LedgerInv(repository.Contents())
      ensures this.repository == repository
      ensures Linked() && moves == [] && start.ledger == repository.Contents()
    {
      this.repository := repository;
      this.start := World(repository.Contents(), map[], []);
      this.moves := [];
      this.world := World(repository.Contents(), map[], []);
    }

    /** `world` is where the recorded moves lead. */
    ghost predicate OnRecord()
      reads this
    {
      Initial(start) && world == Run(start, moves)
    }

    /** What everybody did is a run of the protocol, and its ledger is the one in the repository. */
    ghost predicate Linked()
      reads this, repository
    {
      OnRecord() && world.ledger == repository.Contents()
    }

    /**
     So all that PaperSafety says of reachable worlds holds between calls, and the ledger in the repository is sound.
     */
    lemma ServiceRunsAreProtocolRuns()
      requires Linked()
      ensures Safety.Reachable(world) && LedgerInv(repository.Contents())
    {
      Safety.ReachableInv(world);
    }

    lemma RowsAreSound(client: ExecutionId)
      requires Linked()
      ensures RowSound(repository.Contents(), client)
    {
      ServiceRunsAreProtocolRuns();
    }

    ghost predicate Stands(pid: Pid, instr: Instruction, appr: Approval, pc: SubmitPc)
      reads this
    {
      pid in world.procs && world.procs[pid] == Submitter(instr, appr, pc)
    }

    ghost predicate Reconciling(pid: Pid, client: ExecutionId, rpc: ReconcilePc)
      reads this
    {
      pid in world.procs && world.procs[pid] == Reconciler(client, rpc)
    }

    /** The receipt's row stands at `status` and says what the receipt says. */
    ghost predicate Recorded(receipt: Receipt, status: Status)
      reads repository
    {
      receipt.clientOrderId in repository.attempts
        && Carries(repository.attempts[receipt.clientOrderId], receipt, status)
    }

    /** The receipt is recorded, and says what the broker said of an order that is the one of this row. */
    ghost predicate ReceiptStands(r: Receipt, env: Env, row: Attempt)
      reads repository
    {
      || (&& Recorded(r, Accepted) && env.lookup == NoSuchOrder
          && env.submit.OrderReturned? && HonestReceipt(r, env.submit.snapshot, row))
      || (&& Recorded(r, BrokerExistingOrderFound)
          && env.lookup.FoundOrder? && HonestReceipt(r, env.lookup.snapshot, row))
    }

    /** The receipt written by the latest move, if that was a step of `pid` that wrote one. */
    ghost function JustWritten(pid: Pid, env: Env): Option<Receipt>
      reads this
    {
      if moves == [] || moves[|moves| - 1] != Advance(pid, env) then None
      else Written(Run(start, moves[..|moves| - 1]), pid, env)
    }

    // -------------------------------------------------------------- whose move it is

    /**
     Models the other processes, the operator at the kill switch and any other service on the same database: its
     caller learns only that they moved, by moves of the protocol, and `pid` did not.
     */
    method Preempt(pid: Pid)
      requires Linked()
      modifies this`moves, this`world, repository
      ensures Linked() && old(moves) <= moves && OthersOnly(moves, |old(moves)|, pid)
    {
      // Nothing moves here; the caller has to reckon with everything the contract allows.
    }

    method Yield(pid: Pid)
      requires Linked() && pid in world.procs
      modifies this`moves, this`world, repository
      ensures Linked() && old(moves) <= moves && OthersOnly(moves, |old(moves)|, pid)
      ensures pid in world.procs && world.procs[pid] == old(world).procs[pid]
      ensures old(world).log <= world.log
      ensures Undisturbed(moves, |old(moves)|, pid) ==> moves == old(moves) && world == old(world)
    {
      Preempt(pid);
      assert moves[..|old(moves)|] == old(moves);
      OthersLeaveProcess(start, moves, |old(moves)|, pid);
      assert |moves| > |old(moves)| ==> !Concerns(moves[|old(moves)|], pid);
      assert |moves| == |old(moves)| ==> moves == old(moves);
    }

    ghost method Tick(pid: Pid, env: Env)
      requires OnRecord()
      modifies this`moves, this`world
      ensures OnRecord()
      ensures moves == old(moves) + [Advance(pid, env)]
      ensures world == Step(old(world), Advance(pid, env))
      ensures JustWritten(pid, env) == Written(old(world), pid, env)
    {
      hide Step;
      moves := moves + [Advance(pid, env)];
      world := Step(world, Advance(pid, env));
      assert moves[..|moves| - 1] == old(moves);
    }

    /** A new process enters at its first step. */
    ghost method Begin(m: Move, p: Proc)
      requires Linked()
      requires !m.WriteSwitch? && m.pid !in world.procs && Step(world, m).procs == world.procs[m.pid := p]
      requires m.StartSubmit? || m.StartReconcile?
      modifies this`moves, this`world
      ensures Linked() && moves == old(moves) + [m]
      ensures world == old(world).(procs := old(world).procs[m.pid := p])
    {
      moves := moves + [m];
      world := Step(world, m);
      assert moves[..|moves| - 1] == old(moves);
    }

    // -------------------------------------------------------------- submitting

    method MakeMark(pid: Pid, instr: Instruction, appr: Approval, env: Env, mark: Mark, ghost at: nat)
      requires Linked() && Stands(pid, instr, appr, Marking(mark, at))
      modifies this`moves, this`world, repository
      ensures Linked() && Continues(old(moves), moves, pid, env) && old(world).log <= world.log
      ensures Stands(pid, instr, appr, SubmitDone)
      ensures JustWritten(pid, env) == None
    {
      hide Run;
      Yield(pid);
      match mark {
        case AsUnknown(code, eventType) =>
          var _ := repository.MarkSubmissionUnknown(instr.clientOrderId, instr.signalId, code, eventType, env.markFate);
        case AsFailed(target, code, eventType) =>
          var _ := repository.MarkFailure(instr.clientOrderId, instr.signalId, target, code, eventType, env.markFate);
      }
      Tick(pid, env);
    }

    /** The second clock read: it must still admit the instruction and its approval, or the row is blocked. */
    method RefreshPreSubmissionClock(pid: Pid, instr: Instruction, appr: Approval, env: Env,
                                     ghost row: Attempt, ghost at: nat)
      returns (passed: bool, ghost clockAt: nat)
      requires Linked() && Stands(pid, instr, appr, RefreshingClock(row, at))
      modifies this`moves, this`world, repository
      ensures Linked() && Continues(old(moves), moves, pid, env)
      ensures passed <==> ClockPasses(env.secondClock, instr, appr)
      ensures passed ==> && Stands(pid, instr, appr, ReadingSwitch(row, at, clockAt))
                         && |old(world).log| <= clockAt < |world.log|
                         && world.log[clockAt] == ClockAccepted(pid, env.secondClock.clock)
      ensures !passed ==> Stands(pid, instr, appr, SubmitDone) && JustWritten(pid, env) == None
      ensures passed && Undisturbed(moves, |old(moves)|, pid) ==> world.ledger == old(world).ledger
    {
      hide Run;
      Yield(pid);
      clockAt := |world.log|;
      Tick(pid, env);
      if env.secondClock.ClockUnavailable? {
        MakeMark(pid, instr, appr, env, AsFailed(Blocked, ClockRefreshFailed, ClockBlocked), at);
        return false, clockAt;
      }
      var clock := env.secondClock.clock;
      if !ClockAdmits(clock, instr) {
        MakeMark(pid, instr, appr, env, AsFailed(Blocked, StaleCode(clock, instr), ClockBlocked), at);
        return false, clockAt;
      }
      if !ApprovalMatches(instr, appr, clock.timestamp) {
        MakeMark(pid, instr, appr, env, AsFailed(Blocked, ApprovalInvalidBeforeSubmission, ClockBlocked), at);
        return false, clockAt;
      }
      return true, clockAt;
    }

    /**
     The last look at the durable switch before the order leaves.  The read it goes by is its own, made during the
     call and logged at `switchAt`; on return with `passed` the switch is still off.
     */
    method AssertFinalKillSwitchGate(pid: Pid, instr: Instruction, appr: Approval, env: Env,
                                     ghost row: Attempt, ghost at: nat, ghost clockAt: nat)
      returns (passed: bool, ghost switchAt: nat)
      requires Linked() && Stands(pid, instr, appr, ReadingSwitch(row, at, clockAt))
      modifies this`moves, this`world, repository
      ensures Linked() && Continues(old(moves), moves, pid, env)
      ensures env.switchReadable ==> && |old(world).log| <= switchAt < |world.log|
                                     && world.log[switchAt] == SwitchWasRead(pid, !passed)
      ensures passed ==> && env.switchReadable && !KillSwitchEngaged(repository.Contents())
                         && Stands(pid, instr, appr, Submitting(row, at, clockAt, switchAt))
      ensures !passed ==> Stands(pid, instr, appr, SubmitDone) && JustWritten(pid, env) == None
      ensures Undisturbed(moves, |old(moves)|, pid) ==>
                && (passed <==> env.switchReadable && !KillSwitchEngaged(old(world).ledger))
                && (passed ==> world.ledger == old(world).ledger)
    {
      hide Run;
      Yield(pid);
      switchAt := |world.log|;
      var engaged := repository.ReadKillSwitch();
      Tick(pid, env);
      if !env.switchReadable {
        MakeMark(pid, instr, appr, env, AsFailed(Blocked, SwitchUnavailableBeforeSubmission, SwitchBlocked), at);
        return false, switchAt;
      }
      if engaged {
        MakeMark(pid, instr, appr, env, AsFailed(Blocked, SwitchEngagedBeforeSubmission, SwitchBlocked), at);
        return false, switchAt;
      }
      return true, switchAt;
    }

    /** The lookup found an order under this client_order_id: record it instead of submitting. */
    method AdoptExistingOrder(pid: Pid, instr: Instruction, appr: Approval, env: Env, receipt: Receipt, ghost at: nat)
      returns (r: Result<Receipt, ServiceError>)
      requires Linked() && Stands(pid, instr, appr, RecordingExisting(receipt, at))
      modifies this`moves, this`world, repository
      ensures Linked() && Continues(old(moves), moves, pid, env)
      ensures Stands(pid, instr, appr, SubmitDone)
      ensures JustWritten(pid, env) == r.ToOption()
      ensures r == Err(SubmissionOutcomeUnknown) || (r == Ok(receipt) && Recorded(receipt, BrokerExistingOrderFound))
      ensures Undisturbed(moves, |old(moves)|, pid) ==>
                (r.Ok? <==> Records(old(world).ledger, Some(receipt), BrokerExistingOrderFound, ExistingOrderFound,
                                    env))
    {
      hide Run, PaperLedger.RecordReceipt;
      Yield(pid);
      var w := repository.RecordReceipt(receipt, BrokerExistingOrderFound, ExistingOrderFound, env.receiptFate);
      Tick(pid, env);
      if w.Ok? {
        return Ok(receipt);
      }
      MakeMark(pid, instr, appr, env, AsUnknown(ExistingReceiptNotPersisted, SubmissionUnknownMarked), at);
      return Err(SubmissionOutcomeUnknown);
    }

    /** The submit call and what follows from its reply. */
    method SubmitAndRecord(pid: Pid, instr: Instruction, appr: Approval, env: Env, row: Attempt,
                           ghost at: nat, ghost clockAt: nat, ghost switchAt: nat)
      returns (r: Result<Receipt, ServiceError>)
      requires Linked() && Stands(pid, instr, appr, Submitting(row, at, clockAt, switchAt))
      modifies this`moves, this`world, repository
      ensures Linked() && Continues(old(moves), moves, pid, env)
      ensures Stands(pid, instr, appr, SubmitDone)
      ensures JustWritten(pid, env) == r.ToOption()
      ensures r.Ok? ==> Recorded(r.value, Accepted)
      ensures r == Err(RequestNotSent) <==> env.submit == RequestNotBuilt
      ensures r == Err(RejectedOrder) <==> env.submit.OrderRejected?
      ensures r.Ok? ==> env.submit.OrderReturned? && HonestReceipt(r.value, env.submit.snapshot, row)
      ensures Undisturbed(moves, |old(moves)|, pid) ==> (r.Ok? <==> SubmitReturns(old(world).ledger, env, row))
    {
      hide Run, Write, MarkOutcome, ClockAdmits, ApprovalMatches, ReceiptFromSnapshot, MatchesAttempt, HonestReceipt,
        Carries, PaperLedger.ReserveAttempt,
           PaperLedger.RecordReceipt;
      Yield(pid);
      Tick(pid, env);
      match env.submit {
        case RequestNotBuilt =>
          MakeMark(pid, instr, appr, env, AsFailed(Blocked, RequestConstructionFailed, RequestFailed), at);
          r := Err(RequestNotSent);
        case OrderRejected(code) =>
          MakeMark(pid, instr, appr, env, AsFailed(Rejected, Reported(code), RejectedByBroker), at);
          r := Err(RejectedOrder);
        case OutcomeUnknown(code) =>
          MakeMark(pid, instr, appr, env, AsUnknown(Reported(code), SubmissionUnknownMarked), at);
          r := Err(SubmissionOutcomeUnknown);
        case OrderReturned(snapshot) =>
          var receipt := ReceiptFromSnapshot(snapshot, row);
          ReceiptExactly(snapshot, row);
          if receipt == None {
            MakeMark(pid, instr, appr, env, AsUnknown(BrokerSnapshotMismatch, SubmissionUnknownMarked), at);
            r := Err(SubmissionOutcomeUnknown);
          } else {
            r := RecordAccepted(pid, instr, appr, env, receipt.value, at);
          }
      }
    }

    method RecordAccepted(pid: Pid, instr: Instruction, appr: Approval, env: Env, receipt: Receipt, ghost at: nat)
      returns (r: Result<Receipt, ServiceError>)
      requires Linked() && Stands(pid, instr, appr, RecordingAccepted(receipt, at))
      modifies this`moves, this`world, repository
      ensures Linked() && Continues(old(moves), moves, pid, env)
      ensures Stands(pid, instr, appr, SubmitDone)
      ensures JustWritten(pid, env) == r.ToOption()
      ensures r == Err(SubmissionOutcomeUnknown) || (r == Ok(receipt) && Recorded(receipt, Accepted))
      ensures Undisturbed(moves, |old(moves)|, pid) ==>
                (r.Ok? <==> Records(old(world).ledger, Some(receipt), Accepted, OrderAccepted, env))
    {
      hide Run, PaperLedger.RecordReceipt;
      Yield(pid);
      var w := repository.RecordReceipt(receipt, Accepted, OrderAccepted, env.receiptFate);
      Tick(pid, env);
      if w.Ok? {
        return Ok(receipt);
      }
      MakeMark(pid, instr, appr, env, AsUnknown(AcceptedReceiptNotPersisted, SubmissionUnknownMarked), at);
      return Err(SubmissionOutcomeUnknown);
    }

    /** Both gates, then the submit call. */
    method PassGatesAndSubmit(pid: Pid, instr: Instruction, appr: Approval, env: Env, row: Attempt, ghost at: nat)
      returns (r: Result<Receipt, ServiceError>)
      requires Linked() && Stands(pid, instr, appr, RefreshingClock(row, at))
      modifies this`moves, this`world, repository
      ensures Linked() && Continues(old(moves), moves, pid, env)
      ensures Stands(pid, instr, appr, SubmitDone)
      ensures JustWritten(pid, env) == r.ToOption()
      ensures r.Ok? ==> && Recorded(r.value, Accepted) && env.submit.OrderReturned?
                        && HonestReceipt(r.value, env.submit.snapshot, row)
      ensures Undisturbed(moves, |old(moves)|, pid) ==>
                (r.Ok? <==> PassesAndReturns(old(world).ledger, instr, appr, env, row))
    {
      hide Run, Step, SubmitReturns, ClockPasses, KillSwitchEngaged, HonestReceipt, Carries;
      var clockPassed, clockAt := RefreshPreSubmissionClock(pid, instr, appr, env, row, at);
      if !clockPassed {
        return Err(StoppedBeforeSubmission);
      }
      var switchPassed, switchAt := AssertFinalKillSwitchGate(pid, instr, appr, env, row, at, clockAt);
      if !switchPassed {
        return Err(StoppedBeforeSubmission);
      }
      r := SubmitAndRecord(pid, instr, appr, env, row, at, clockAt, switchAt);
    }

    /** From the freshly reserved row to the end: look for an existing order, or else submit. */
    method AfterReservation(pid: Pid, instr: Instruction, appr: Approval, env: Env, row: Attempt, ghost at: nat)
      returns (r: Result<Receipt, ServiceError>)
      requires Linked() && Stands(pid, instr, appr, LookingUp(row, at))
      modifies this`moves, this`world, repository
      ensures Linked() && Continues(old(moves), moves, pid, env)
      ensures Stands(pid, instr, appr, SubmitDone)
      ensures JustWritten(pid, env) == r.ToOption()
      ensures r.Ok? ==> ReceiptStands(r.value, env, row)
      ensures Undisturbed(moves, |old(moves)|, pid) ==>
                (r.Ok? <==> ReservedReturns(old(world).ledger, instr, appr, env, row))
    {
      hide Run, PassesAndReturns, PaperLedger.RecordReceipt, ReceiptFromSnapshot, HonestReceipt, MatchesAttempt,
        Carries;
      Yield(pid);
      Tick(pid, env);
      match env.lookup {
        case LookupUnavailable =>
          r := Err(OrderLookupUnavailable);
        case NoSuchOrder =>
          r := PassGatesAndSubmit(pid, instr, appr, env, row, at);
        case FoundOrder(snapshot) =>
          var receipt := ReceiptFromSnapshot(snapshot, row);
          ReceiptExactly(snapshot, row);
          if receipt.Some? {
            r := AdoptExistingOrder(pid, instr, appr, env, receipt.value, at);
          } else if MatchesAttempt(snapshot, row) && snapshot.fields == Unreadable {
            r := Err(OrderUnreadable);
          } else {
            MakeMark(pid, instr, appr, env, AsUnknown(BrokerOrderMismatch, OrderMismatch), at);
            r := Err(SubmissionOutcomeUnknown);
          }
      }
    }

    method ReserveAndSubmit(pid: Pid, instr: Instruction, appr: Approval, env: Env, ghost first: Clock)
      returns (r: Result<Receipt, ServiceError>)
      requires Linked() && Stands(pid, instr, appr, Reserving(first))
      modifies this`moves, this`world, repository
      ensures Linked() && Continues(old(moves), moves, pid, env)
      ensures Stands(pid, instr, appr, SubmitDone)
      ensures JustWritten(pid, env) == r.ToOption()
      ensures r.Ok? ==> ReceiptStands(r.value, env, FreshAttempt(instr, appr))
      ensures Undisturbed(moves, |old(moves)|, pid) ==>
                var reserved := PaperLedger.ReserveAttempt(old(world).ledger, instr, appr);
                r.Ok? <==> && reserved.Ok? && env.reserveFate == Durable
                           && ReservedReturns(reserved.value, instr, appr, env, FreshAttempt(instr, appr))
    {
      hide Run, ReservedReturns, HonestReceipt, Carries;
      Yield(pid);
      ghost var at := |world.log|;
      var reserved := repository.ReserveAttempt(instr, appr, env.reserveFate);
      Tick(pid, env);
      if reserved.Err? {
        return Err(NotReserved);
      }
      r := AfterReservation(pid, instr, appr, env, reserved.value, at);
    }

    /** The gates before the reservation: local permissions, clock and approval, kill switch, broker state and risk. */
    method PassOpeningGates(pid: Pid, instr: Instruction, appr: Approval, env: Env) returns (passed: bool)
      requires Linked() && Stands(pid, instr, appr, OpeningGates)
      modifies this`moves, this`world, repository
      ensures Linked() && Continues(old(moves), moves, pid, env)
      ensures passed ==> && env.gatesOpen && env.firstClock.ClockRead? && ClockPasses(env.firstClock, instr, appr)
                         && env.firstSwitchReadable && env.stateAccepted
                         && Stands(pid, instr, appr, Reserving(env.firstClock.clock))
      ensures !passed ==> Stands(pid, instr, appr, SubmitDone) && JustWritten(pid, env) == None
      ensures Undisturbed(moves, |old(moves)|, pid) ==>
                && world.ledger == old(world).ledger
                && (passed <==> && env.gatesOpen && ClockPasses(env.firstClock, instr, appr)
                                && env.firstSwitchReadable && !KillSwitchEngaged(old(world).ledger)
                                && env.stateAccepted)
    {
      hide Run, Write, MarkOutcome, ClockAdmits, ApprovalMatches, SubmitCall;
      Yield(pid);
      Tick(pid, env);
      if !env.gatesOpen || env.firstClock.ClockUnavailable? {
        return false;
      }
      var clock := env.firstClock.clock;
      if !ClockAdmits(clock, instr) || !ApprovalMatches(instr, appr, clock.timestamp) {
        return false;
      }
      passed := CheckSwitchAndState(pid, instr, appr, env, clock);
    }

    method CheckSwitchAndState(pid: Pid, instr: Instruction, appr: Approval, env: Env, ghost first: Clock)
      returns (passed: bool)
      requires Linked() && Stands(pid, instr, appr, FirstSwitchRead(first))
      modifies this`moves, this`world, repository
      ensures Linked() && Continues(old(moves), moves, pid, env)
      ensures passed ==> && env.firstSwitchReadable && env.stateAccepted
                         && Stands(pid, instr, appr, Reserving(first))
      ensures !passed ==> Stands(pid, instr, appr, SubmitDone) && JustWritten(pid, env) == None
      ensures Undisturbed(moves, |old(moves)|, pid) ==>
                && world.ledger == old(world).ledger
                && (passed <==> env.firstSwitchReadable && !KillSwitchEngaged(old(world).ledger) && env.stateAccepted)
    {
      hide Run, Write, MarkOutcome, SubmitCall;
      Yield(pid);
      var engaged := repository.ReadKillSwitch();
      Tick(pid, env);
      if !env.firstSwitchReadable || engaged {
        return false;
      }
      Yield(pid);
      Tick(pid, env);
      return env.stateAccepted;
    }

    method SubmitSteps(pid: Pid, instr: Instruction, appr: Approval, env: Env)
      returns (r: Result<Receipt, ServiceError>)
      requires Linked() && Stands(pid, instr, appr, OpeningGates)
      modifies this`moves, this`world, repository
      ensures Linked() && Continues(old(moves), moves, pid, env)
      ensures Stands(pid, instr, appr, SubmitDone)
      ensures JustWritten(pid, env) == r.ToOption()
      ensures r.Ok? ==> ReceiptStands(r.value, env, FreshAttempt(instr, appr))
      ensures Undisturbed(moves, |old(moves)|, pid) ==>
                (r.Ok? <==> SubmitSucceeds(old(world).ledger, instr, appr, env))
    {
      hide Run, Step, ReservedReturns, ClockPasses, KillSwitchEngaged, PaperLedger.ReserveAttempt,
        HonestReceipt, Carries;
      var passed := PassOpeningGates(pid, instr, appr, env);
      if !passed {
        return Err(GateClosed);
      }
      r := ReserveAndSubmit(pid, instr, appr, env, env.firstClock.clock);
    }

    /**
     The whole workflow.  Whatever the broker answers, whichever writes fail and whatever others do meanwhile, the
     call is one submitter of the protocol taken from its start to its end; the receipt returned is the one its last
     step wrote, it says what the broker said of this very order, and it is on record in the ledger.  When others at
     most write the kill switch, the attempt's row and events end exactly as the table of endings says.
     */
    method SubmitApprovedOrder(pid: Pid, instr: Instruction, appr: Approval, env: Env)
      returns (r: Result<Receipt, ServiceError>)
      requires Linked() && pid !in world.procs
      modifies this`moves, this`world, repository
      ensures Linked() && Continues(old(moves) + [StartSubmit(pid, instr, appr)], moves, pid, env)
      ensures Stands(pid, instr, appr, SubmitDone)
      ensures JustWritten(pid, env) == r.ToOption()
      ensures r.Ok? ==> ReceiptStands(r.value, env, FreshAttempt(instr, appr))
      ensures Undisturbed(moves, |old(moves)|, pid) ==>
                (r.Ok? <==> && WillReserve(old(world).ledger, instr, appr, env) && env.reserveFate == Durable
                            && BrokerCooperates(instr, appr, env) && env.receiptFate == Durable)
      ensures Quiet(moves, |old(moves)| + 1, pid, env, true) && env.markFate != Lost ==>
                var before := ViewOf(old(repository.Contents()), instr.clientOrderId);
                ViewOf(repository.Contents(), instr.clientOrderId)
                == if WillReserve(old(repository.Contents()), instr, appr, env)
                   then Settled(before, instr, appr, SubmissionEnding(instr, appr, env, false))
                   else before
      ensures Quiet(moves, |old(moves)| + 1, pid, env, false) && env.markFate != Lost ==>
                var before := ViewOf(old(repository.Contents()), instr.clientOrderId);
                && |old(world).log| <= |world.log|
                && var log := world.log[|old(world).log|..];
                ViewOf(repository.Contents(), instr.clientOrderId)
                == if RowReserved(pid, instr, appr) in log
                   then Settled(before, instr, appr,
                                SubmissionEnding(instr, appr, env, SwitchWasRead(pid, true) in log))
                   else before
    {
      hide Run, SubmitSucceeds, WillReserve, BrokerCooperates, ViewOf, Settled, SubmissionEnding, HonestReceipt,
        Carries;
      Begin(StartSubmit(pid, instr, appr), Submitter(instr, appr, OpeningGates));
      ghost var begun := moves;
      r := SubmitSteps(pid, instr, appr, env);
      SucceedsExactlyWhen(old(world).ledger, instr, appr, env);
      SubmissionIsSettled(old(moves), begun, moves, pid, instr, appr, env, true);
      SubmissionIsSettled(old(moves), begun, moves, pid, instr, appr, env, false);
    }

    /** What the table of endings says about a finished submission, read off the recorded moves. */
    lemma SubmissionIsSettled(before: seq<Move>, begun: seq<Move>, after: seq<Move>, pid: Pid, instr: Instruction,
                              appr: Approval, env: Env, still: bool)
      requires OnRecord() && after == moves && begun == before + [StartSubmit(pid, instr, appr)] && begun <= after
      requires pid !in Run(start, before).procs && Stands(pid, instr, appr, SubmitDone)
      ensures var w0 := Run(start, before);
              Quiet(after, |before| + 1, pid, env, still) ==>
                Ended(Origin(w0.ledger, |w0.log|), world, pid, instr, appr, env, still) && |w0.log| <= |world.log|
    {
      hide Run, Ended;
      assert after[..|before|] == before && after[|before|] == StartSubmit(pid, instr, appr);
      if Quiet(after, |before| + 1, pid, env, still) {
        SubmissionEnds(start, after, |before|, pid, instr, appr, env, still);
        LogKept(start, after, |before|);
      }
    }

    // -------------------------------------------------------------- reconciling

    method MarkUnreconciled(pid: Pid, client: ExecutionId, env: Env, signal: ExecutionId, code: FailureCode,
                            eventType: EventType)
      requires Linked() && Reconciling(pid, client, MarkingUnreconciled(signal, code, eventType))
      modifies this`moves, this`world, repository
      ensures Linked() && Continues(old(moves), moves, pid, env)
      ensures Reconciling(pid, client, ReconcileDone)
      ensures JustWritten(pid, env) == None
    {
      hide Run;
      Yield(pid);
      var _ := repository.MarkSubmissionUnknown(client, signal, code, eventType, env.markFate);
      Tick(pid, env);
    }

    method RecordReconciled(pid: Pid, client: ExecutionId, env: Env, receipt: Receipt, signal: ExecutionId)
      returns (recorded: bool)
      requires Linked() && Reconciling(pid, client, RecordingReconciled(receipt, signal))
      modifies this`moves, this`world, repository
      ensures Linked() && Continues(old(moves), moves, pid, env)
      ensures Reconciling(pid, client, ReconcileDone)
      ensures JustWritten(pid, env) == if recorded then Some(receipt) else None
      ensures recorded ==> Recorded(receipt, Reconciled)
      ensures Undisturbed(moves, |old(moves)|, pid) ==>
                (recorded <==> Records(old(world).ledger, Some(receipt), Reconciled, OrderReconciled, env))
    {
      hide Run, PaperLedger.RecordReceipt;
      Yield(pid);
      var w := repository.RecordReceipt(receipt, Reconciled, OrderReconciled, env.receiptFate);
      Tick(pid, env);
      if w.Ok? {
        return true;
      }
      MarkUnreconciled(pid, client, env, signal, ReconciliationReceiptNotPersisted, SubmissionUnknownMarked);
      return false;
    }

    method AskAndRecord(pid: Pid, client: ExecutionId, env: Env, row: Attempt)
      returns (r: Result<Option<Receipt>, ServiceError>)
      requires Linked() && Reconciling(pid, client, AskingBroker(row))
      modifies this`moves, this`world, repository
      ensures Linked() && Continues(old(moves), moves, pid, env)
      ensures Reconciling(pid, client, ReconcileDone)
      ensures JustWritten(pid, env) == if r.Ok? then r.value else None
      ensures r.Ok? && r.value.Some? ==> && Recorded(r.value.value, Reconciled) && env.lookup.FoundOrder?
                                         && HonestReceipt(r.value.value, env.lookup.snapshot, row)
      ensures r == Ok(None) <==> env.lookup == NoSuchOrder
      ensures Undisturbed(moves, |old(moves)|, pid) ==>
                && (r == Ok(None) ==> repository.Contents() == old(repository.Contents()))
                && (r.Ok? && r.value.Some? <==>
                    && env.lookup.FoundOrder?
                    && Records(old(world).ledger, ReceiptFromSnapshot(env.lookup.snapshot, row),
                               Reconciled, OrderReconciled, env))
    {
      hide Run, PaperLedger.RecordReceipt, ReceiptFromSnapshot, MatchesAttempt, HonestReceipt, Carries;
      Yield(pid);
      Tick(pid, env);
      match env.lookup {
        case LookupUnavailable =>
          r := Err(OrderLookupUnavailable);
        case NoSuchOrder =>
          r := Ok(None);
        case FoundOrder(snapshot) =>
          var receipt := ReceiptFromSnapshot(snapshot, row);
          ReceiptExactly(snapshot, row);
          if receipt.Some? {
            var recorded := RecordReconciled(pid, client, env, receipt.value, row.signalId);
            r := if recorded then Ok(receipt) else Err(SubmissionOutcomeUnknown);
          } else if MatchesAttempt(snapshot, row) && snapshot.fields == Unreadable {
            r := Err(OrderUnreadable);
          } else {
            MarkUnreconciled(pid, client, env, row.signalId, BrokerOrderMismatch, OrderMismatch);
            r := Err(SubmissionOutcomeUnknown);
          }
      }
    }

    method ReconcileSteps(pid: Pid, client: ExecutionId, env: Env)
      returns (r: Result<Option<Receipt>, ServiceError>)
      requires Linked() && Reconciling(pid, client, ReadingRow)
      modifies this`moves, this`world, repository
      ensures Linked() && Continues(old(moves), moves, pid, env)
      ensures Reconciling(pid, client, ReconcileDone)
      ensures JustWritten(pid, env) == if r.Ok? then r.value else None
      ensures r.Ok? && r.value.Some? ==> && Recorded(r.value.value, Reconciled) && env.lookup.FoundOrder?
                                         && client in repository.attempts
                                         && HonestReceipt(r.value.value, env.lookup.snapshot,
                                                          repository.attempts[client])
      ensures Undisturbed(moves, |old(moves)|, pid) ==>
                && (r == Ok(None) ==> repository.Contents() == old(repository.Contents()))
                && (r.Ok? && r.value.Some? <==> ReconcileSucceeds(old(world).ledger, client, env))
    {
      hide Run, Records, Write, ReceiptFromSnapshot, OrderMatches, IsReceiptOf, Carries, LedgerInv;
      Yield(pid);
      var found := repository.GetAttempt(client);
      RowsAreSound(client);
      Tick(pid, env);
      if found.Err? || (found.value.status != Reserved && found.value.status != SubmissionUnknown) {
        return Err(NotEligibleForReconciliation);
      }
      r := AskAndRecord(pid, client, env, found.value);
      if r.Ok? && r.value.Some? {
        HonestForItsRow(r.value.value, env.lookup.snapshot, found.value,
                        repository.attempts[r.value.value.clientOrderId],
                        Reconciled);
      }
    }

    /**
     Asks the broker about one unresolved attempt and records what it says.  When others at most write the kill switch,
     the attempt's row and events end exactly as the table of endings says.
     */
    method ReconcileByClientOrderId(pid: Pid, client: ExecutionId, env: Env)
      returns (r: Result<Option<Receipt>, ServiceError>)
      requires Linked() && pid !in world.procs
      modifies this`moves, this`world, repository
      ensures Linked() && Continues(old(moves) + [StartReconcile(pid, client)], moves, pid, env)
      ensures Reconciling(pid, client, ReconcileDone)
      ensures JustWritten(pid, env) == if r.Ok? then r.value else None
      ensures r.Ok? && r.value.Some? ==> && Recorded(r.value.value, Reconciled) && env.lookup.FoundOrder?
                                         && client in repository.attempts
                                         && HonestReceipt(r.value.value, env.lookup.snapshot,
                                                          repository.attempts[client])
      ensures Undisturbed(moves, |old(moves)|, pid) ==>
                && (r == Ok(None) ==> repository.Contents() == old(repository.Contents()))
                && (r.Ok? && r.value.Some? <==>
                    && client in old(repository.attempts)
                    && var row := old(repository.attempts)[client];
                    && (row.status == Reserved || row.status == SubmissionUnknown)
                    && env.lookup.FoundOrder? && OrderMatches(env.lookup.snapshot, client, row.side, row.quantity)
                    && env.receiptFate == Durable)
      ensures Quiet(moves, |old(moves)| + 1, pid, env, false) && env.markFate != Lost ==>
                ViewOf(repository.Contents(), client)
                == ReconciledView(ViewOf(old(repository.Contents()), client), client, env)
    {
      hide Run, ReconcileSucceeds, ViewOf, ReconciledView, OrderMatches, HonestReceipt, Carries;
      RowsAreSound(client);
      ReconcileSucceedsExactly(world.ledger, client, env);
      Begin(StartReconcile(pid, client), Reconciler(client, ReadingRow));
      ghost var begun := moves;
      r := ReconcileSteps(pid, client, env);
      ReconciliationIsSettled(old(moves), begun, moves, pid, client, env);
    }

    lemma ReconciliationIsSettled(before: seq<Move>, begun: seq<Move>, after: seq<Move>, pid: Pid, client: ExecutionId,
                                  env: Env)
      requires OnRecord() && after == moves && begun == before + [StartReconcile(pid, client)] && begun <= after
      requires pid !in Run(start, before).procs && RowSound(Run(start, before).ledger, client)
      requires Reconciling(pid, client, ReconcileDone)
      ensures Quiet(after, |before| + 1, pid, env, false) && env.markFate != Lost ==>
                ViewOf(world.ledger, client) == ReconciledView(ViewOf(Run(start, before).ledger, client), client, env)
    {
      hide Run, ReconciledView, RowSound, ViewOf;
      assert after[..|before|] == before && after[|before|] == StartReconcile(pid, client);
      if Quiet(after, |before| + 1, pid, env, false) && env.markFate != Lost {
        ReconciliationEnds(start, after, |before|, pid, client, env);
      }
    }
  }
}
