/** What every interleaving of the paper-execution protocol keeps. */
module PaperSafety {
  import opened Trading
  import opened Wrappers
  import opened PaperLedger
  import opened PaperProtocol
  import opened PaperOutcomes

  // ---------------------------------------------------------------- reading the log

  ghost predicate ReservedAt(log: seq<Entry>, i: int, pid: Pid, instr: Instruction, appr: Approval) {
    0 <= i < |log| && log[i] == RowReserved(pid, instr, appr)
  }

  ghost predicate NeverReserved(log: seq<Entry>, pid: Pid) {
    forall i :: 0 <= i < |log| && log[i].RowReserved? ==> log[i].pid != pid
  }

  ghost predicate NeverSent(log: seq<Entry>, pid: Pid) {
    forall i :: 0 <= i < |log| && log[i].OrderSent? ==> log[i].pid != pid
  }

  ghost predicate SentWith(log: seq<Entry>, pid: Pid, returned: bool) {
    exists i :: 0 <= i < |log| && log[i].OrderSent? && log[i].pid == pid
                && (if returned then log[i].reply.OrderReturned? else log[i].reply.OrderRejected?)
  }

  ghost predicate ClockReadAt(log: seq<Entry>, i: int, pid: Pid, instr: Instruction, appr: Approval) {
    && 0 <= i < |log|
    && log[i].ClockAccepted?
    && log[i].pid == pid
    && ClockAdmits(log[i].clock, instr)
    && ApprovalMatches(instr, appr, log[i].clock.timestamp)
  }

  ghost predicate OpenSwitchReadAt(log: seq<Entry>, i: int, pid: Pid) {
    0 <= i < |log| && log[i] == SwitchWasRead(pid, false)
  }

  /** The durable switch after the writes in `log`, when it stood at `start` before them. */
  ghost function SwitchAfter(start: bool, log: seq<Entry>): bool {
    if log == [] then start
    else if log[|log| - 1].SwitchWasSet? then log[|log| - 1].engaged
    else SwitchAfter(start, log[..|log| - 1])
  }

  // ---------------------------------------------------------------- the invariant

  /** A submitter that has not yet passed the submit call. */
  predicate MaySend(p: Proc) {
    p.Submitter? && (
      p.pc.OpeningGates? || p.pc.FirstSwitchRead? || p.pc.CheckingState? || p.pc.Reserving? ||
      p.pc.LookingUp? || p.pc.RefreshingClock? || p.pc.ReadingSwitch? || p.pc.Submitting?)
  }

  ghost predicate SubmitterOk(log: seq<Entry>, pid: Pid, instr: Instruction, appr: Approval, pc: SubmitPc) {
    match pc
    case OpeningGates => NeverReserved(log, pid) && NeverSent(log, pid)
    case FirstSwitchRead(_) => NeverReserved(log, pid) && NeverSent(log, pid)
    case CheckingState(_) => NeverReserved(log, pid) && NeverSent(log, pid)
    case Reserving(_) => NeverReserved(log, pid) && NeverSent(log, pid)
    case LookingUp(row, at) =>
      ReservedAt(log, at, pid, instr, appr) && NeverSent(log, pid) && row == FreshAttempt(instr, appr)
    case RecordingExisting(receipt, at) =>
      ReservedAt(log, at, pid, instr, appr) && NeverSent(log, pid) && receipt.clientOrderId == instr.clientOrderId
    case RefreshingClock(row, at) =>
      ReservedAt(log, at, pid, instr, appr) && NeverSent(log, pid) && row == FreshAttempt(instr, appr)
    case ReadingSwitch(row, at, clockAt) =>
      && ReservedAt(log, at, pid, instr, appr) && NeverSent(log, pid) && row == FreshAttempt(instr, appr)
      && at < clockAt && ClockReadAt(log, clockAt, pid, instr, appr)
    case Submitting(row, at, clockAt, switchAt) =>
      && ReservedAt(log, at, pid, instr, appr) && NeverSent(log, pid) && row == FreshAttempt(instr, appr)
      && at < clockAt < switchAt && ClockReadAt(log, clockAt, pid, instr, appr) && OpenSwitchReadAt(log, switchAt, pid)
    case RecordingAccepted(receipt, at) =>
      ReservedAt(log, at, pid, instr, appr) && SentWith(log, pid, true) && receipt.clientOrderId == instr.clientOrderId
    case Marking(mark, at) =>
      && ReservedAt(log, at, pid, instr, appr)
      && (mark.AsFailed? ==> mark.target == Blocked || mark.target == Rejected)
      && (mark.AsFailed? && mark.target == Blocked ==> NeverSent(log, pid))
      && (mark.AsFailed? && mark.target == Rejected ==> SentWith(log, pid, false))
    case SubmitDone => true
  }

  ghost predicate ProcOk(log: seq<Entry>, pid: Pid, p: Proc) {
    match p
    case Submitter(instr, appr, pc) => SubmitterOk(log, pid, instr, appr, pc)
    case Reconciler(_, RecordingReconciled(_, _)) => true
    case _ => true
  }

  /** What the row reserved by `pid` for `instr` looks like now. */
  ghost predicate RowOk(w: World, pid: Pid, instr: Instruction, appr: Approval) {
    && pid in w.procs
    && instr.clientOrderId in w.ledger.attempts
    && var row := w.ledger.attempts[instr.clientOrderId];
    && SameIdentity(row, FreshAttempt(instr, appr))
    && (row.status == Blocked || row.status == BrokerExistingOrderFound ==>
          NeverSent(w.log, pid) && !MaySend(w.procs[pid]))
    && (row.status == Accepted ==> SentWith(w.log, pid, true))
    && (row.status == Rejected ==> SentWith(w.log, pid, false))
  }

  /** A send follows, in this order, its reservation, an accepted clock and a disengaged switch read. */
  ghost predicate SendJustified(log: seq<Entry>, i: int)
    requires 0 <= i < |log| && log[i].OrderSent?
  {
    var e := log[i];
    && e.at < e.clockAt < e.switchAt < i
    && ReservedAt(log, e.at, e.pid, e.instr, e.appr)
    && ClockReadAt(log, e.clockAt, e.pid, e.instr, e.appr)
    && OpenSwitchReadAt(log, e.switchAt, e.pid)
  }

  ghost predicate LogOk(log: seq<Entry>) {
    && (forall i, j :: 0 <= i < j < |log| && log[i].RowReserved? && log[j].RowReserved? ==>
                         log[i].pid != log[j].pid && log[i].instr.clientOrderId != log[j].instr.clientOrderId)
    && (forall i, j :: 0 <= i < j < |log| && log[i].OrderSent? && log[j].OrderSent? ==> log[i].pid != log[j].pid)
    && (forall i :: 0 <= i < |log| && log[i].OrderSent? ==> SendJustified(log, i))
  }

  ghost predicate ProcsOk(w: World) {
    forall pid :: pid in w.procs ==> ProcOk(w.log, pid, w.procs[pid])
  }

  /** Only started processes appear in the log. */
  ghost predicate PidsKnown(w: World) {
    forall i :: 0 <= i < |w.log| && (w.log[i].RowReserved? || w.log[i].OrderSent?) ==> w.log[i].pid in w.procs
  }

  ghost predicate RowsOk(w: World) {
    forall i :: 0 <= i < |w.log| && w.log[i].RowReserved? ==> RowOk(w, w.log[i].pid, w.log[i].instr, w.log[i].appr)
  }

  /** The switch in the ledger is what its writes left, and every logged read told the truth. */
  ghost predicate SwitchOk(w: World, start: bool) {
    && KillSwitchEngaged(w.ledger) == SwitchAfter(start, w.log)
    && (forall i :: 0 <= i < |w.log| && w.log[i].SwitchWasRead? ==>
                      w.log[i].engaged == SwitchAfter(start, w.log[..i]))
  }

  ghost predicate Inv(w: World, start: bool) {
    LedgerInv(w.ledger) && LogOk(w.log) && PidsKnown(w) && ProcsOk(w) && RowsOk(w) && SwitchOk(w, start)
  }

  // ---------------------------------------------------------------- preservation, part by part

  /** Entries that neither reserve nor send for `pid` do not disturb what `pid` relies on. */
  lemma ProcOkStable(log: seq<Entry>, more: seq<Entry>, pid: Pid, p: Proc)
    requires ProcOk(log, pid, p)
    requires forall i :: 0 <= i < |more| && (more[i].RowReserved? || more[i].OrderSent?) ==> more[i].pid != pid
    ensures ProcOk(log + more, pid, p)
  {
    var log' := log + more;
    assert forall i :: 0 <= i < |log| ==> log'[i] == log[i];
    assert forall i :: |log| <= i < |log'| ==> log'[i] == more[i - |log|];
    assert NeverReserved(log, pid) ==> NeverReserved(log', pid);
    assert NeverSent(log, pid) ==> NeverSent(log', pid);
    SentWithStable(log, more, pid, true);
    SentWithStable(log, more, pid, false);
  }

  lemma SentWithStable(log: seq<Entry>, more: seq<Entry>, pid: Pid, returned: bool)
    ensures SentWith(log, pid, returned) ==> SentWith(log + more, pid, returned)
  {
    if SentWith(log, pid, returned) {
      var i :| 0 <= i < |log| && log[i].OrderSent? && log[i].pid == pid
               && (if returned then log[i].reply.OrderReturned? else log[i].reply.OrderRejected?);
      assert (log + more)[i] == log[i];
    }
  }

  lemma SwitchAfterSnoc(start: bool, log: seq<Entry>, e: Entry)
    ensures SwitchAfter(start, log + [e]) == if e.SwitchWasSet? then e.engaged else SwitchAfter(start, log)
  {
    assert (log + [e])[..|log|] == log;
  }

  /** At most one entry is appended by a move; the switch part of the invariant survives it. */
  lemma SwitchOkStep(w: World, w': World, more: seq<Entry>, start: bool)
    requires SwitchOk(w, start)
    requires w'.log == w.log + more && |more| <= 1
    requires more == [] || !more[0].SwitchWasSet? ==> w'.ledger.control == w.ledger.control
    requires more != [] && more[0].SwitchWasSet? ==> w'.ledger.control == Some(more[0].engaged)
    requires more != [] && more[0].SwitchWasRead? ==> more[0].engaged == KillSwitchEngaged(w.ledger)
    ensures SwitchOk(w', start)
  {
    if more == [] {
      assert w'.log == w.log;
    } else {
      assert more == [more[0]];
      SwitchAfterSnoc(start, w.log, more[0]);
      forall i | 0 <= i < |w'.log| && w'.log[i].SwitchWasRead?
        ensures w'.log[i].engaged == SwitchAfter(start, w'.log[..i])
      {
        if i < |w.log| {
          assert w'.log[i] == w.log[i];
          assert w'.log[..i] == w.log[..i];
        } else {
          assert w'.log[..i] == w.log;
        }
      }
    }
  }

  // ---------------------------------------------------------------- one process step

  /** The row `c` was given `status` by the process that reserved it, with the evidence that status needs. */
  ghost predicate OwnWrite(w: World, pid: Pid, e: Effect, c: ExecutionId, status: Status) {
    && e.entries == []
    && (exists at: nat :: at < |w.log| && w.log[at].RowReserved? && w.log[at].pid == pid
                          && w.log[at].instr.clientOrderId == c)
    && (status == Blocked || status == BrokerExistingOrderFound ==> NeverSent(w.log, pid) && !MaySend(e.proc))
    && (status == Accepted ==> SentWith(w.log, pid, true))
    && (status == Rejected ==> SentWith(w.log, pid, false))
  }

  ghost predicate LedgerEffectOk(w: World, pid: Pid, e: Effect) {
    && LedgerInv(e.ledger)
    && Advances(w.ledger, e.ledger)
    && e.ledger.control == w.ledger.control
    && forall c :: c in w.ledger.attempts ==>
         var was, now := w.ledger.attempts[c].status, e.ledger.attempts[c].status;
         was == now || now == SubmissionUnknown || now == Reconciled || OwnWrite(w, pid, e, c, now)
  }

  /** The one entry a step may append, and what it must rest on. */
  ghost predicate EntryOk(w: World, pid: Pid, e: Effect, entry: Entry)
    requires pid in w.procs
  {
    match entry
    case RowReserved(who, instr, appr) =>
      && who == pid && NeverReserved(w.log, pid)
      && instr.clientOrderId !in w.ledger.attempts
      && e.ledger.attempts == w.ledger.attempts[instr.clientOrderId := FreshAttempt(instr, appr)]
    case OrderSent(who, _, _, _, _, _, _) =>
      && who == pid && e.ledger == w.ledger
      && NeverSent(w.log, pid) && MaySend(w.procs[pid])
      && SendJustified(w.log + [entry], |w.log|)
    case SwitchWasRead(_, engaged) => engaged == KillSwitchEngaged(w.ledger) && e.ledger == w.ledger
    case ClockAccepted(_, _) => e.ledger == w.ledger
    case SwitchWasSet(_) => false
  }

  ghost predicate EffectOk(w: World, pid: Pid, e: Effect)
    requires pid in w.procs
  {
    && LedgerEffectOk(w, pid, e)
    && |e.entries| <= 1
    && (e.entries == [] ==> e.ledger.attempts.Keys == w.ledger.attempts.Keys)
    && (e.entries != [] ==> EntryOk(w, pid, e, e.entries[0]))
    && ProcOk(w.log + e.entries, pid, e.proc)
    && (MaySend(e.proc) ==> MaySend(w.procs[pid]))
  }

  ghost function TargetRow(t: Transaction): ExecutionId
    requires t.Record? || t.MarkUnknown? || t.Fail?
  {
    match t
    case Record(r, _, _) => r.clientOrderId
    case MarkUnknown(c, _, _, _) => c
    case Fail(c, _, _, _, _) => c
  }

  ghost function TargetStatus(t: Transaction): Status
    requires t.Record? || t.MarkUnknown? || t.Fail?
  {
    match t
    case Record(_, target, _) => target
    case MarkUnknown(_, _, _, _) => SubmissionUnknown
    case Fail(_, _, target, _, _) => target
  }

  lemma OneRowWritten(l: Ledger, t: Transaction)
    requires t.Record? || t.MarkUnknown? || t.Fail?
    ensures Outcome(l, t).Ok? ==>
              var l' := Outcome(l, t).value;
              && TargetRow(t) in l.attempts
              && l'.control == l.control
              && l'.attempts.Keys == l.attempts.Keys
              && l'.attempts[TargetRow(t)].status == TargetStatus(t)
              && forall c :: c in l.attempts && c != TargetRow(t) ==> l'.attempts[c] == l.attempts[c]
  {
  }

  /** Committing a permitted transition of one row, or failing to. */
  lemma WriteEffectOk(w: World, pid: Pid, e: Effect, t: Transaction, fate: WriteFate)
    requires LedgerInv(w.ledger) && pid in w.procs
    requires e.ledger == Write(w.ledger, Outcome(w.ledger, t), fate).0
    requires e.entries == []
    requires
      || t.MarkUnknown?
      || (t.Record? && (t.target == Reconciled || OwnWrite(w, pid, e, t.receipt.clientOrderId, t.target)))
      || (t.Fail? && OwnWrite(w, pid, e, t.client, t.target))
    ensures LedgerEffectOk(w, pid, e) && e.ledger.attempts.Keys == w.ledger.attempts.Keys
  {
    hide LedgerInv, Outcome, OwnWrite;
    CommitKeepsInv(w.ledger, t);
    OneRowWritten(w.ledger, t);
    AdvancesReflexive(w.ledger);
    hide Advances;
  }

  predicate WritesLedger(pc: SubmitPc) {
    pc.Reserving? || pc.RecordingExisting? || pc.RecordingAccepted? || pc.Marking?
  }

  lemma ReserveAddsRow(l: Ledger, instr: Instruction, appr: Approval)
    requires ReserveAttempt(l, instr, appr).Ok?
    ensures var l' := ReserveAttempt(l, instr, appr).value;
            l'.control == l.control && l'.attempts == l.attempts[instr.clientOrderId := FreshAttempt(instr, appr)]
  {
  }

  lemma ReservingEffectOk(w: World, pid: Pid, env: Env)
    requires LedgerInv(w.ledger) && pid in w.procs && w.procs[pid].Submitter? && w.procs[pid].pc.Reserving?
    requires ProcOk(w.log, pid, w.procs[pid])
    ensures EffectOk(w, pid, ProcStep(w, pid, env))
  {
    hide LedgerInv, Advances, NeverReserved, ReserveAttempt;
    AdvancesReflexive(w.ledger);
    var l, p := w.ledger, w.procs[pid];
    var e := ProcStep(w, pid, env);
    if e.entries == [] {
      assert w.log + [] == w.log;
    } else {
      ReserveKeepsInv(l, p.instr, p.appr);
      ReserveAddsRow(l, p.instr, p.appr);
      hide NeverSent;
      ProcOkStableSelf(w.log, e.entries[0], pid);
    }
  }

  lemma RecordingExistingEffectOk(w: World, pid: Pid, env: Env)
    requires LedgerInv(w.ledger) && pid in w.procs && w.procs[pid].Submitter? && w.procs[pid].pc.RecordingExisting?
    requires ProcOk(w.log, pid, w.procs[pid])
    ensures EffectOk(w, pid, ProcStep(w, pid, env))
  {
    hide LedgerInv, Advances, RecordReceipt, LedgerEffectOk, SentWith, NeverReserved;
    assert w.log + [] == w.log;
    var receipt := w.procs[pid].pc.receipt;
    WriteEffectOk(w, pid, ProcStep(w, pid, env), Record(receipt, BrokerExistingOrderFound, ExistingOrderFound),
                  env.receiptFate);
  }

  lemma RecordingAcceptedEffectOk(w: World, pid: Pid, env: Env)
    requires LedgerInv(w.ledger) && pid in w.procs && w.procs[pid].Submitter? && w.procs[pid].pc.RecordingAccepted?
    requires ProcOk(w.log, pid, w.procs[pid])
    ensures EffectOk(w, pid, ProcStep(w, pid, env))
  {
    hide LedgerInv, Advances, RecordReceipt, LedgerEffectOk, SentWith, NeverReserved;
    assert w.log + [] == w.log;
    var receipt := w.procs[pid].pc.receipt;
    WriteEffectOk(w, pid, ProcStep(w, pid, env), Record(receipt, Accepted, OrderAccepted), env.receiptFate);
  }

  lemma MarkingEffectOk(w: World, pid: Pid, env: Env)
    requires LedgerInv(w.ledger) && pid in w.procs && w.procs[pid].Submitter? && w.procs[pid].pc.Marking?
    requires ProcOk(w.log, pid, w.procs[pid])
    ensures EffectOk(w, pid, ProcStep(w, pid, env))
  {
    hide LedgerInv, Advances, MarkSubmissionUnknown, MarkFailure, LedgerEffectOk, SentWith, NeverReserved;
    AdvancesReflexive(w.ledger);
    assert w.log + [] == w.log;
    var instr := w.procs[pid].instr;
    var e := ProcStep(w, pid, env);
    match w.procs[pid].pc.mark
    case AsUnknown(code, eventType) =>
      WriteEffectOk(w, pid, e, MarkUnknown(instr.clientOrderId, instr.signalId, code, eventType), env.markFate);
    case AsFailed(target, code, eventType) =>
      WriteEffectOk(w, pid, e, Fail(instr.clientOrderId, instr.signalId, target, code, eventType), env.markFate);
  }

  lemma ReceiptNamesOrder()
    ensures forall s: Snapshot, a: Attempt :: ReceiptFromSnapshot(s, a).Some? ==>
              ReceiptFromSnapshot(s, a).value.clientOrderId == a.clientOrderId
  {
  }

  /** Steps that only read: gates, the order lookup, the clock, the switch. */
  lemma ReadingEffectOk(w: World, pid: Pid, env: Env)
    requires LedgerInv(w.ledger) && pid in w.procs && w.procs[pid].Submitter?
    requires !WritesLedger(w.procs[pid].pc) && !w.procs[pid].pc.Submitting?
    requires ProcOk(w.log, pid, w.procs[pid])
    ensures EffectOk(w, pid, ProcStep(w, pid, env))
  {
    hide LedgerInv, Advances, NeverSent, NeverReserved, SentWith, ClockAdmits, ApprovalMatches, ReceiptFromSnapshot;
    AdvancesReflexive(w.ledger);
    ReceiptNamesOrder();
    var e := ProcStep(w, pid, env);
    assert w.log + [] == w.log;
    assert e.ledger == w.ledger;
    if e.entries != [] { ProcOkStable(w.log, e.entries, pid, w.procs[pid]); }
  }

  lemma SubmitterEffectOk(w: World, pid: Pid, env: Env)
    requires LedgerInv(w.ledger) && pid in w.procs && w.procs[pid].Submitter?
    requires ProcOk(w.log, pid, w.procs[pid])
    ensures EffectOk(w, pid, ProcStep(w, pid, env))
  {
    hide LedgerInv, ProcOk, ProcStep, EffectOk;
    match w.procs[pid].pc
    case Reserving(_) => ReservingEffectOk(w, pid, env);
    case RecordingExisting(_, _) => RecordingExistingEffectOk(w, pid, env);
    case RecordingAccepted(_, _) => RecordingAcceptedEffectOk(w, pid, env);
    case Marking(_, _) => MarkingEffectOk(w, pid, env);
    case Submitting(_, _, _, _) => SubmitCallEffectOk(w, pid, env);
    case OpeningGates => ReadingEffectOk(w, pid, env);
    case FirstSwitchRead(_) => ReadingEffectOk(w, pid, env);
    case CheckingState(_) => ReadingEffectOk(w, pid, env);
    case LookingUp(_, _) => ReadingEffectOk(w, pid, env);
    case RefreshingClock(_, _) => ReadingEffectOk(w, pid, env);
    case ReadingSwitch(_, _, _) => ReadingEffectOk(w, pid, env);
    case SubmitDone => ReadingEffectOk(w, pid, env);
  }

  lemma SendJustifiedStable(log: seq<Entry>, more: seq<Entry>, i: nat)
    requires i < |log| && log[i].OrderSent? && SendJustified(log, i)
    ensures SendJustified(log + more, i)
  {
    var e := log[i];
    assert forall k :: 0 <= k < |log| ==> (log + more)[k] == log[k];
  }

  lemma ProcOkStableSelf(log: seq<Entry>, entry: Entry, pid: Pid)
    requires NeverSent(log, pid) && entry.RowReserved?
    ensures NeverSent(log + [entry], pid)
  {
  }

  /** A send leaves its reply on record. */
  lemma SendRecorded(log: seq<Entry>, entry: Entry)
    requires entry.OrderSent?
    ensures entry.reply.OrderReturned? ==> SentWith(log + [entry], entry.pid, true)
    ensures entry.reply.OrderRejected? ==> SentWith(log + [entry], entry.pid, false)
  {
    assert (log + [entry])[|log|] == entry;
  }

  lemma SubmitCallEffectOk(w: World, pid: Pid, env: Env)
    requires LedgerInv(w.ledger) && pid in w.procs && w.procs[pid].Submitter? && w.procs[pid].pc.Submitting?
    requires ProcOk(w.log, pid, w.procs[pid])
    ensures EffectOk(w, pid, ProcStep(w, pid, env))
  {
    hide LedgerInv, Advances, NeverReserved, ReceiptFromSnapshot, SentWith, ClockAdmits, ApprovalMatches;
    AdvancesReflexive(w.ledger);
    ReceiptNamesOrder();
    var log, p := w.log, w.procs[pid];
    var e := ProcStep(w, pid, env);
    assert log + [] == log;
    if e.entries != [] {
      var log' := log + e.entries;
      SendRecorded(log, e.entries[0]);
      assert log'[|log|] == e.entries[0];
      assert forall i :: 0 <= i < |log| ==> log'[i] == log[i];
      assert SendJustified(log', |log|);
    }
  }

  lemma ReconcilerEffectOk(w: World, pid: Pid, env: Env)
    requires LedgerInv(w.ledger) && pid in w.procs && w.procs[pid].Reconciler?
    ensures EffectOk(w, pid, ProcStep(w, pid, env))
  {
    hide LedgerInv, Advances;
    AdvancesReflexive(w.ledger);
    assert w.log + [] == w.log;
    var p := w.procs[pid];
    var e := ProcStep(w, pid, env);
    match p.rpc
    case RecordingReconciled(receipt, signal) =>
      WriteEffectOk(w, pid, e, Record(receipt, Reconciled, OrderReconciled), env.receiptFate);
    case MarkingUnreconciled(signal, code, eventType) =>
      WriteEffectOk(w, pid, e, MarkUnknown(p.client, signal, code, eventType), env.markFate);
    case _ =>
  }

  // ---------------------------------------------------------------- from one step to the world

  lemma LogOkStep(w: World, pid: Pid, e: Effect)
    requires LogOk(w.log) && RowsOk(w) && pid in w.procs && EffectOk(w, pid, e)
    ensures LogOk(w.log + e.entries)
  {
    hide LedgerEffectOk, ProcOk, SendJustified;
    if e.entries == [] {
      assert w.log + e.entries == w.log;
    } else {
      var entry := e.entries[0];
      assert e.entries == [entry];
      var log' := w.log + [entry];
      assert forall i :: 0 <= i < |w.log| ==> log'[i] == w.log[i];
      forall i | 0 <= i < |log'| && log'[i].OrderSent? ensures SendJustified(log', i) {
        if i < |w.log| { SendJustifiedStable(w.log, [entry], i); }
      }
      if entry.RowReserved? {
        forall i | 0 <= i < |w.log| && w.log[i].RowReserved?
          ensures w.log[i].pid != pid && w.log[i].instr.clientOrderId != entry.instr.clientOrderId
        {
          assert RowOk(w, w.log[i].pid, w.log[i].instr, w.log[i].appr);
        }
      }
    }
  }

  /** The row of an earlier reservation after a step that appends nothing. */
  lemma RowOkQuietly(w: World, pid: Pid, e: Effect, w': World, i: nat)
    requires LogOk(w.log) && pid in w.procs && EffectOk(w, pid, e) && e.entries == []
    requires w' == World(e.ledger, w.procs[pid := e.proc], w.log)
    requires i < |w.log| && w.log[i].RowReserved? && RowOk(w, w.log[i].pid, w.log[i].instr, w.log[i].appr)
    ensures RowOk(w', w.log[i].pid, w.log[i].instr, w.log[i].appr)
  {
    hide LedgerInv, ProcOk, SentWith, NeverSent;
    var c := w.log[i].instr.clientOrderId;
    var was, now := w.ledger.attempts[c].status, e.ledger.attempts[c].status;
    if was != now && OwnWrite(w, pid, e, c, now) {
      assert w.log[i].pid == pid;
    }
  }

  /** The row of an earlier reservation after a step that appends one entry. */
  lemma RowOkAppending(w: World, pid: Pid, e: Effect, w': World, i: nat)
    requires LogOk(w.log) && pid in w.procs && EffectOk(w, pid, e) && e.entries != []
    requires w' == World(e.ledger, w.procs[pid := e.proc], w.log + e.entries)
    requires i < |w.log| && w.log[i].RowReserved? && RowOk(w, w.log[i].pid, w.log[i].instr, w.log[i].appr)
    ensures RowOk(w', w.log[i].pid, w.log[i].instr, w.log[i].appr)
  {
    hide LedgerEffectOk, ProcOk, SentWith, LogOk, SendJustified;
    var q := w.log[i].pid;
    var entry := e.entries[0];
    assert e.entries == [entry];
    SentWithStable(w.log, e.entries, q, true);
    SentWithStable(w.log, e.entries, q, false);
    assert NeverSent(w.log, q) && !(entry.OrderSent? && q == pid) ==> NeverSent(w.log + [entry], q);
    assert w'.ledger.attempts[w.log[i].instr.clientOrderId] == w.ledger.attempts[w.log[i].instr.clientOrderId];
  }

  lemma RowsOkStep(w: World, pid: Pid, e: Effect, w': World)
    requires LogOk(w.log) && RowsOk(w) && pid in w.procs && EffectOk(w, pid, e)
    requires w' == World(e.ledger, w.procs[pid := e.proc], w.log + e.entries)
    ensures RowsOk(w')
  {
    hide LedgerEffectOk, ProcOk, LogOk, RowOk;
    forall i | 0 <= i < |w'.log| && w'.log[i].RowReserved?
      ensures RowOk(w', w'.log[i].pid, w'.log[i].instr, w'.log[i].appr)
    {
      if i < |w.log| {
        assert w'.log[i] == w.log[i];
        assert RowOk(w, w.log[i].pid, w.log[i].instr, w.log[i].appr);
        if e.entries == [] {
          assert w.log + e.entries == w.log;
          RowOkQuietly(w, pid, e, w', i);
        } else {
          RowOkAppending(w, pid, e, w', i);
        }
      } else {
        assert w'.log[i] == e.entries[0];
        NewRowOk(w, pid, e, w');
      }
    }
  }

  lemma NewRowOk(w: World, pid: Pid, e: Effect, w': World)
    requires pid in w.procs && EffectOk(w, pid, e) && e.entries != [] && e.entries[0].RowReserved?
    requires w' == World(e.ledger, w.procs[pid := e.proc], w.log + e.entries)
    ensures RowOk(w', e.entries[0].pid, e.entries[0].instr, e.entries[0].appr)
  {
    hide LedgerEffectOk, ProcOk, SentWith, NeverSent;
  }

  lemma AnyEffectOk(w: World, pid: Pid, env: Env)
    requires LedgerInv(w.ledger) && pid in w.procs && ProcOk(w.log, pid, w.procs[pid])
    ensures EffectOk(w, pid, ProcStep(w, pid, env))
  {
    hide LedgerInv, Advances;
    if w.procs[pid].Submitter? {
      SubmitterEffectOk(w, pid, env);
    } else if w.procs[pid].Reconciler? {
      ReconcilerEffectOk(w, pid, env);
    } else {
      AdvancesReflexive(w.ledger);
      assert w.log + [] == w.log;
    }
  }

  lemma ProcsOkStep(w: World, pid: Pid, e: Effect, w': World)
    requires PidsKnown(w) && ProcsOk(w) && pid in w.procs && EffectOk(w, pid, e)
    requires w' == World(e.ledger, w.procs[pid := e.proc], w.log + e.entries)
    ensures PidsKnown(w') && ProcsOk(w')
  {
    hide LedgerEffectOk, ProcOk;
    forall q | q in w'.procs ensures ProcOk(w'.log, q, w'.procs[q]) {
      if q != pid { ProcOkStable(w.log, e.entries, q, w.procs[q]); }
    }
  }

  lemma AdvanceKeepsInv(w: World, pid: Pid, env: Env, start: bool)
    requires Inv(w, start)
    ensures Inv(Step(w, Advance(pid, env)), start)
  {
    if pid in w.procs {
      var e := ProcStep(w, pid, env);
      var w' := Step(w, Advance(pid, env));
      assert ProcOk(w.log, pid, w.procs[pid]);
      hide LedgerInv, Advances, LogOk, ProcOk, ProcsOk, PidsKnown, RowsOk, SwitchOk, ProcStep;
      AnyEffectOk(w, pid, env);
      LogOkStep(w, pid, e);
      RowsOkStep(w, pid, e, w');
      ProcsOkStep(w, pid, e, w');
      SwitchOkStep(w, w', e.entries, start);
    }
  }

  /** A switch write changes no row and no process. */
  lemma RowsOkAfterSwitchWrite(w: World, w': World, more: seq<Entry>)
    requires RowsOk(w)
    requires w'.ledger.attempts == w.ledger.attempts && w'.procs == w.procs && w'.log == w.log + more
    requires |more| == 1 && more[0].SwitchWasSet?
    ensures RowsOk(w')
  {
    hide SentWith;
    forall i | 0 <= i < |w'.log| && w'.log[i].RowReserved?
      ensures RowOk(w', w'.log[i].pid, w'.log[i].instr, w'.log[i].appr)
    {
      assert i < |w.log| && w'.log[i] == w.log[i];
      assert RowOk(w, w.log[i].pid, w.log[i].instr, w.log[i].appr);
      SentWithStable(w.log, more, w.log[i].pid, true);
      SentWithStable(w.log, more, w.log[i].pid, false);
    }
  }

  lemma LogOkAfterSwitchWrite(log: seq<Entry>, more: seq<Entry>)
    requires LogOk(log)
    requires |more| == 1 && more[0].SwitchWasSet?
    ensures LogOk(log + more)
  {
    hide SendJustified;
    var log' := log + more;
    assert forall i :: 0 <= i < |log| ==> log'[i] == log[i];
    forall i | 0 <= i < |log'| && log'[i].OrderSent? ensures SendJustified(log', i) {
      SendJustifiedStable(log, more, i);
    }
  }

  lemma SwitchWriteKeepsInv(w: World, engaged: bool, confirmed: bool, fate: WriteFate, start: bool)
    requires Inv(w, start)
    ensures Inv(Step(w, WriteSwitch(engaged, confirmed, fate)), start)
  {
    var w' := Step(w, WriteSwitch(engaged, confirmed, fate));
    hide LedgerInv, Advances, ProcOk, LogOk, RowsOk, SwitchOk;
    if w' != w {
      SwitchKeepsInv(w.ledger, engaged, confirmed);
      var more := [SwitchWasSet(engaged)];
      assert w'.log == w.log + more;
      forall q | q in w'.procs ensures ProcOk(w'.log, q, w'.procs[q]) {
        ProcOkStable(w.log, more, q, w.procs[q]);
      }
      RowsOkAfterSwitchWrite(w, w', more);
      LogOkAfterSwitchWrite(w.log, more);
      SwitchOkStep(w, w', more, start);
    }
  }

  /** Births and deaths of processes. */
  lemma ProcessMoveKeepsInv(w: World, m: Move, start: bool)
    requires Inv(w, start)
    requires m.StartSubmit? || m.StartReconcile? || m.Die?
    ensures Inv(Step(w, m), start)
  {
    hide LedgerInv;
    var w' := Step(w, m);
    forall i | 0 <= i < |w'.log| && w'.log[i].RowReserved?
      ensures RowOk(w', w'.log[i].pid, w'.log[i].instr, w'.log[i].appr)
    {
      assert RowOk(w, w.log[i].pid, w.log[i].instr, w.log[i].appr);
    }
  }

  lemma StepKeepsInv(w: World, m: Move, start: bool)
    requires Inv(w, start)
    ensures Inv(Step(w, m), start)
  {
    hide Inv, Step;
    match m
    case Advance(pid, env) => AdvanceKeepsInv(w, pid, env, start);
    case WriteSwitch(engaged, confirmed, fate) => SwitchWriteKeepsInv(w, engaged, confirmed, fate, start);
    case _ => ProcessMoveKeepsInv(w, m, start);
  }

  lemma {:induction false} RunKeepsInv(w: World, moves: seq<Move>)
    requires Initial(w)
    ensures Inv(Run(w, moves), KillSwitchEngaged(w.ledger))
  {
    if moves != [] {
      RunKeepsInv(w, moves[..|moves| - 1]);
      StepKeepsInv(Run(w, moves[..|moves| - 1]), moves[|moves| - 1], KillSwitchEngaged(w.ledger));
    }
  }

  // ---------------------------------------------------------------- what every run guarantees

  ghost predicate Reachable(w: World) {
    exists w0: World, moves: seq<Move> :: Initial(w0) && w == Run(w0, moves)
  }

  lemma ReachableInv(w: World)
    requires Reachable(w)
    ensures exists start :: Inv(w, start)
  {
    var w0: World, moves: seq<Move> :| Initial(w0) && w == Run(w0, moves);
    RunKeepsInv(w0, moves);
  }

  /**
   The broker is handed at most one order per client_order_id, per signal_id, per approval_id and per
   execution session: two sends that agree in any of them are the same send.
   */
  lemma AtMostOnceSubmission(w: World, i: nat, j: nat)
    requires Reachable(w)
    requires i < |w.log| && w.log[i].OrderSent? && j < |w.log| && w.log[j].OrderSent?
    requires || w.log[i].instr.clientOrderId == w.log[j].instr.clientOrderId
             || w.log[i].instr.signalId == w.log[j].instr.signalId
             || w.log[i].appr.approvalId == w.log[j].appr.approvalId
             || w.log[i].instr.executionSession == w.log[j].instr.executionSession
    ensures i == j
  {
    ReachableInv(w);
    var start :| Inv(w, start);
    var a, b := w.log[i], w.log[j];
    assert SendJustified(w.log, i) && SendJustified(w.log, j);
    assert w.log[a.at] == RowReserved(a.pid, a.instr, a.appr) && w.log[b.at] == RowReserved(b.pid, b.instr, b.appr);
    assert RowOk(w, a.pid, a.instr, a.appr) && RowOk(w, b.pid, b.instr, b.appr);
    assert a.instr.clientOrderId == b.instr.clientOrderId;
    assert a.at == b.at;
    assert a.pid == b.pid;
  }

  lemma SentRowIsOk(w: World, start: bool, i: nat)
    requires Inv(w, start)
    requires i < |w.log| && w.log[i].OrderSent?
    ensures RowOk(w, w.log[i].pid, w.log[i].instr, w.log[i].appr)
  {
    hide LedgerInv, SwitchOk, ProcsOk;
    assert SendJustified(w.log, i);
  }

  /** The submit calls of one process are one call, so what any of them returned is what this one returned. */
  lemma OneReplyPerProcess(log: seq<Entry>, i: nat, returned: bool)
    requires LogOk(log)
    requires i < |log| && log[i].OrderSent? && SentWith(log, log[i].pid, returned)
    ensures if returned then log[i].reply.OrderReturned? else log[i].reply.OrderRejected?
  {
  }

  /**
   An order handed to the broker is never forgotten: its row exists with the identity that was sent, and it is
   accepted, reconciled, rejected after the broker said so, or else counted as unresolved.
   */
  lemma NoLostOrder(w: World, i: nat)
    requires Reachable(w)
    requires i < |w.log| && w.log[i].OrderSent?
    ensures var c := w.log[i].instr.clientOrderId;
            && c in w.ledger.attempts
            && SameIdentity(w.ledger.attempts[c], FreshAttempt(w.log[i].instr, w.log[i].appr))
            && var status := w.ledger.attempts[c].status;
            && (Unresolved(status) ==> c in UnresolvedAttempts(w.ledger))
            && (!Unresolved(status) ==> status == Accepted || status == Reconciled || status == Rejected)
            && (status == Accepted ==> w.log[i].reply.OrderReturned?)
            && (status == Rejected ==> w.log[i].reply.OrderRejected?)
  {
    ReachableInv(w);
    var start :| Inv(w, start);
    SentRowIsOk(w, start, i);
    hide LedgerInv, SwitchOk, ProcsOk, RowsOk, PidsKnown, LogOk, SentWith, Run;
    var e := w.log[i];
    var row := w.ledger.attempts[e.instr.clientOrderId];
    assert RowOk(w, e.pid, e.instr, e.appr);
    assert !NeverSent(w.log, e.pid);
    if row.status == Accepted { OneReplyPerProcess(w.log, i, true); }
    if row.status == Rejected { OneReplyPerProcess(w.log, i, false); }
  }

  /** A row in blocked or broker_existing_order_found was never sent by this service, by any process, at any time. */
  lemma BlockedWasNeverSent(w: World, c: ExecutionId)
    requires Reachable(w)
    requires c in w.ledger.attempts
    requires w.ledger.attempts[c].status == Blocked || w.ledger.attempts[c].status == BrokerExistingOrderFound
    ensures forall i :: 0 <= i < |w.log| && w.log[i].OrderSent? ==> w.log[i].instr.clientOrderId != c
  {
    forall i | 0 <= i < |w.log| && w.log[i].OrderSent? ensures w.log[i].instr.clientOrderId != c {
      if w.log[i].instr.clientOrderId == c {
        NoLostOrder(w, i);
      }
    }
  }

  /**
   Every send comes after its reservation, then a clock read inside the execution session and before expiry for
   which the approval is valid, then a read of the durable kill switch at a moment when the switch was off.
   */
  lemma SendsAreGated(w0: World, moves: seq<Move>, i: nat)
    requires Initial(w0)
    requires var w := Run(w0, moves); i < |w.log| && w.log[i].OrderSent?
    ensures var log := Run(w0, moves).log;
            var e := log[i];
            && e.at < e.clockAt < e.switchAt < i
            && log[e.at] == RowReserved(e.pid, e.instr, e.appr)
            && log[e.clockAt].ClockAccepted? && log[e.clockAt].pid == e.pid
            && log[e.clockAt].clock.isOpen
            && e.instr.signalSession < e.instr.executionSession == log[e.clockAt].clock.session
            && e.appr.signalId == e.instr.signalId && e.appr.clientOrderId == e.instr.clientOrderId
            && e.appr.fingerprint == e.instr.fingerprint
            && e.instr.createdAt < e.appr.approvedAt <= log[e.clockAt].clock.timestamp < e.instr.expiresAt
            && log[e.switchAt] == SwitchWasRead(e.pid, false)
            && !SwitchAfter(KillSwitchEngaged(w0.ledger), log[..e.switchAt])
  {
    RunKeepsInv(w0, moves);
    assert SendJustified(Run(w0, moves).log, i);
  }

  lemma MatchingReceiptReconciles(l: Ledger, c: ExecutionId, s: Snapshot)
    requires LedgerInv(l) && c in UnresolvedAttempts(l)
    requires OrderMatches(s, c, l.attempts[c].side, l.attempts[c].quantity)
    ensures ReceiptFromSnapshot(s, l.attempts[c]).Some?
    ensures var (receipt, row) := (ReceiptFromSnapshot(s, l.attempts[c]).value, l.attempts[c]);
            var r := RecordReceipt(l, receipt, Reconciled, OrderReconciled);
            && r.Ok? && c in r.value.attempts
            && r.value.attempts[c] == row.(status := Reconciled, brokerOrderId := Some(s.brokerOrderId),
                                           brokerStatus := Some(s.brokerStatus), failureCode := None)
            && UnresolvedAttempts(r.value) == UnresolvedAttempts(l) - {c}
  {
    assert l.attempts[c].clientOrderId == c && l.attempts[c].symbol == SUPPORTED_SYMBOL;
    hide LedgerInv;
    ReceiptExactly(s, l.attempts[c]);
    var receipt := ReceiptFromSnapshot(s, l.attempts[c]).value;
    assert RecordReceipt(l, receipt, Reconciled, OrderReconciled).Ok?;
  }

  /**
   One reconcile, run against a broker that returns an order matching the row, with working writes, ends in
   reconciled for every attempt the status report counts as unresolved.
   */
  lemma ReconcileResolves(w: World, pid: Pid, c: ExecutionId, s: Snapshot, env: Env)
    requires Reachable(w)
    requires pid !in w.procs
    requires c in UnresolvedAttempts(w.ledger)
    requires OrderMatches(s, c, w.ledger.attempts[c].side, w.ledger.attempts[c].quantity)
    requires env.lookup == FoundOrder(s) && env.receiptFate == Durable
    ensures var step := Advance(pid, env);
            var w' := Step(Step(Step(Step(w, StartReconcile(pid, c)), step), step), step);
            && c in w'.ledger.attempts
            && w'.ledger.attempts[c]
            == w.ledger.attempts[c].(status := Reconciled, brokerOrderId := Some(s.brokerOrderId),
                                     brokerStatus := Some(s.brokerStatus), failureCode := None)
            && UnresolvedAttempts(w'.ledger) == UnresolvedAttempts(w.ledger) - {c}
            && w'.log == w.log
  {
    ReachableInv(w);
    var step := Advance(pid, env);
    var row := w.ledger.attempts[c];
    MatchingReceiptReconciles(w.ledger, c, s);
    hide Inv, LedgerInv, Reachable, RecordReceipt, ReceiptFromSnapshot, UnresolvedAttempts, OrderMatches;
    var receipt := ReceiptFromSnapshot(s, row).value;
    var w2 := Step(Step(w, StartReconcile(pid, c)), step);
    ReconcileAsks(w, pid, c, env);
    var w3 := Step(w2, step);
    assert w3.procs[pid] == Reconciler(c, RecordingReconciled(receipt, row.signalId)) && w3.ledger == w.ledger
           && w3.log == w.log;
  }

  lemma ReconcileAsks(w: World, pid: Pid, c: ExecutionId, env: Env)
    requires pid !in w.procs && c in w.ledger.attempts
    requires c in UnresolvedAttempts(w.ledger)
    ensures var w2 := Step(Step(w, StartReconcile(pid, c)), Advance(pid, env));
            && pid in w2.procs && w2.procs[pid] == Reconciler(c, AskingBroker(w.ledger.attempts[c]))
            && w2.ledger == w.ledger && w2.log == w.log
  {
  }
}
