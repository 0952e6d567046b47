/** The SQLite ledger as an object: its tables are fields, and each method is one transaction on them. */
module PaperRepository {
  import opened Trading
  import opened Wrappers
  import opened PaperLedger
  import opened PaperProtocol

  /** The row is the receipt's, at this status and with what the broker said. */
  predicate Carries(row: Attempt, receipt: Receipt, status: Status) {
    && row.clientOrderId == receipt.clientOrderId && row.signalId == receipt.signalId
    && row.fingerprint == receipt.fingerprint && row.symbol == receipt.symbol
    && row.side == receipt.side && row.quantity == receipt.quantity
    && row.status == status && row.failureCode == None
    && row.brokerOrderId == Some(receipt.brokerOrderId) && row.brokerStatus == Some(receipt.brokerStatus)
  }

  class SQLitePaperExecutionRepository {
    var attempts: map<ExecutionId, Attempt>
    var events: seq<Event>
    var control: Option<bool>

    /** The tables as one value. */
    ghost function Contents(): Ledger
      reads this
    {
      Ledger(attempts, events, control)
    }

    /** A freshly initialised schema holds no rows and an engaged switch. */
    constructor ()
      ensures Contents() == Ledger(map[], [], Some(true))
      ensures LedgerInv(Contents()) && KillSwitchEngaged(Contents())
    {
      attempts, events, control := map[], [], Some(true);
    }

    method ReadKillSwitch() returns (engaged: bool)
      ensures engaged == KillSwitchEngaged(Contents())
    {
      if control == None {
        return true;
      }
      return control.value;
    }

    method SetKillSwitch(engaged: bool, confirmed: bool, fate: WriteFate) returns (r: Result<bool, Error>)
      modifies this
      ensures (Contents(), r.Ok?)
              == Write(old(Contents()), PaperLedger.SetKillSwitch(old(Contents()), engaged, confirmed), fate)
      ensures r.Ok? ==> r.value == engaged == KillSwitchEngaged(Contents())
    {
      if !engaged && !confirmed {
        return Err(MissingKillSwitchConfirmation);
      }
      if fate == Lost {
        return Err(LedgerWriteFailed);
      }
      var prior := ReadKillSwitch();
      control := Some(engaged);
      events := events + [KillSwitchUpdated(prior, engaged)];
      return if fate == Durable then Ok(engaged) else Err(LedgerWriteFailed);
    }

    method ReserveAttempt(instr: Instruction, appr: Approval, fate: WriteFate) returns (r: Result<Attempt, Error>)
      modifies this
      ensures (Contents(), r.Ok?)
              == Write(old(Contents()), PaperLedger.ReserveAttempt(old(Contents()), instr, appr), fate)
      ensures r.Ok? ==> && instr.clientOrderId in attempts
                        && r.value == attempts[instr.clientOrderId] == FreshAttempt(instr, appr)
    {
      if exists c :: c in attempts && attempts[c].symbol == instr.symbol
                     && attempts[c].executionSession == instr.executionSession
      {
        return Err(ExecutionSessionAlreadyReserved);
      }
      if instr.quantity <= 0 {
        return Err(ReservationFailed);
      }
      if instr.clientOrderId in attempts {
        return Err(DuplicateExecutionIdentifier);
      }
      if exists c :: c in attempts
                     && (attempts[c].signalId == instr.signalId || attempts[c].approvalId == appr.approvalId)
      {
        return Err(DuplicateExecutionIdentifier);
      }
      if instr.symbol != SUPPORTED_SYMBOL {
        return Err(InvalidAttemptRow);
      }
      if fate == Lost {
        return Err(LedgerWriteFailed);
      }
      var row := Attempt(instr.clientOrderId, instr.signalId, appr.approvalId, instr.fingerprint, instr.symbol,
                         instr.side, instr.quantity, instr.signalSession, instr.executionSession,
                         Reserved, None, None, None);
      attempts := attempts[instr.clientOrderId := row];
      events := events + [AttemptEvent(instr.clientOrderId, instr.signalId, AttemptReserved, None, Reserved)];
      return if fate == Durable then Ok(row) else Err(LedgerWriteFailed);
    }

    /** Rewrites one row and appends the event that says so. */
    method UpdateRow(client: ExecutionId, row: Attempt, eventType: EventType)
      requires client in attempts
      modifies this
      ensures Contents() == WithTransition(old(Contents()), client, row, eventType)
      ensures attempts == old(attempts)[client := row]
    {
      var prior := attempts[client];
      attempts := attempts[client := row];
      events := events + [AttemptEvent(prior.clientOrderId, prior.signalId, eventType, Some(prior.status), row.status)];
    }

    method RecordReceipt(receipt: Receipt, status: Status, eventType: EventType, fate: WriteFate)
      returns (r: Result<Attempt, Error>)
      modifies this
      ensures (Contents(), r.Ok?)
           == Write(old(Contents()), PaperLedger.RecordReceipt(old(Contents()), receipt, status, eventType), fate)
      ensures r.Ok? ==> && receipt.clientOrderId in attempts
                        && r.value == attempts[receipt.clientOrderId]
                        && Carries(r.value, receipt, status)
    {
      hide WithTransition;
      var client := receipt.clientOrderId;
      if client !in attempts {
        return Err(ReceiptLineageMismatch);
      }
      var prior := attempts[client];
      if !ReceiptTransition(prior.status, status) {
        return Err(InvalidReceiptTransition);
      }
      if !ReceiptMatchesRow(receipt, prior) {
        return Err(ReceiptLineageMismatch);
      }
      if !SupportedTerms(receipt.terms) {
        return Err(ReceiptContractMismatch);
      }
      if fate == Lost {
        return Err(LedgerWriteFailed);
      }
      var row := prior.(status := status, brokerOrderId := Some(receipt.brokerOrderId),
      brokerStatus := Some(receipt.brokerStatus), failureCode := None);
      UpdateRow(client, row, eventType);
      return if fate == Durable then Ok(row) else Err(LedgerWriteFailed);
    }

    method MarkSubmissionUnknown(client: ExecutionId, signal: ExecutionId, code: FailureCode, eventType: EventType,
                                 fate: WriteFate)
      returns (r: Result<Attempt, Error>)
      modifies this
      ensures (Contents(), r.Ok?)
           == Write(old(Contents()),
                    PaperLedger.MarkSubmissionUnknown(old(Contents()), client, signal, code, eventType), fate)
      ensures r.Ok? ==> client in attempts && r.value == attempts[client] && r.value.status == SubmissionUnknown
    {
      hide WithTransition;
      if client !in attempts {
        return Err(AttemptNotFound);
      }
      var prior := attempts[client];
      if prior.signalId != signal {
        return Err(AttemptLineageMismatch);
      }
      if prior.status != Reserved && prior.status != SubmissionUnknown {
        return Err(InvalidUnknownTransition);
      }
      if fate == Lost {
        return Err(LedgerWriteFailed);
      }
      var row := prior.(status := SubmissionUnknown, failureCode := Some(code));
      UpdateRow(client, row, eventType);
      return if fate == Durable then Ok(row) else Err(LedgerWriteFailed);
    }

    /** `status` is one of the failure states, blocked and rejected; anything else is refused. */
    method MarkFailure(client: ExecutionId, signal: ExecutionId, status: Status, code: FailureCode,
                       eventType: EventType, fate: WriteFate)
      returns (r: Result<Attempt, Error>)
      modifies this
      ensures (Contents(), r.Ok?)
           == Write(old(Contents()), PaperLedger.MarkFailure(old(Contents()), client, signal, status, code, eventType),
                    fate)
      ensures r.Ok? ==> client in attempts && r.value == attempts[client] && r.value.status == status
    {
      hide WithTransition;
      if status != Blocked && status != Rejected {
        return Err(InvalidFailureTransition);
      }
      if client !in attempts {
        return Err(AttemptNotFound);
      }
      var prior := attempts[client];
      if prior.signalId != signal {
        return Err(AttemptLineageMismatch);
      }
      if prior.status != Reserved {
        return Err(InvalidFailureTransition);
      }
      ghost var before := Contents();
      if fate == Lost {
        return Err(LedgerWriteFailed);
      }
      var row := prior.(status := status, failureCode := Some(code));
      UpdateRow(client, row, eventType);
      assert PaperLedger.MarkFailure(before, client, signal, status, code, eventType) == Ok(Contents());
      return if fate == Durable then Ok(row) else Err(LedgerWriteFailed);
    }

    method GetAttempt(client: ExecutionId) returns (r: Result<Attempt, Error>)
      ensures r == if client in attempts then Ok(attempts[client]) else Err(AttemptNotFound)
    {
      if client !in attempts {
        return Err(AttemptNotFound);
      }
      return Ok(attempts[client]);
    }

    /** The unresolved-submission count of the status report. */
    method UnresolvedSubmissionCount() returns (count: nat)
      ensures count == |set c | c in attempts && attempts[c].status in {Reserved, SubmissionUnknown}|
    {
      count := 0;
      var pending := attempts.Keys;
      ghost var seen: set<ExecutionId> := {};
      while pending != {}
        invariant pending <= attempts.Keys
        invariant seen == set c | c in attempts && c !in pending && attempts[c].status in {Reserved, SubmissionUnknown}
        invariant count == |seen|
        decreases |pending|
      {
        var c :| c in pending;
        pending := pending - {c};
        if attempts[c].status == Reserved || attempts[c].status == SubmissionUnknown {
          count := count + 1;
          seen := seen + {c};
        }
      }
      assert seen == set c | c in attempts && attempts[c].status in {Reserved, SubmissionUnknown};
    }
  }
}
