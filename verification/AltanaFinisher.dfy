/** One finisher call against the activation store, statement by statement, with the errors it catches. Every statement is
    a step of the protocol of `AltanaActivation`, so what holds of the protocol holds of the code. */
module AltanaFinisher {
  import opened Outcomes
  import opened AltanaActivation

  /** What one call meets: the session, the clock at the claim and at the authorization, the fate of every statement, and
      what the relay and the chain report. */
  datatype Surroundings = Surroundings(
    session: bool, claimedAt: Millis, claim: Fault, preparation: Option<Code>, authorizedAt: Millis, authorization: Fault,
    execution: Option<Code>, submission: Fault, resubmission: Fault, confirmation: Option<Code>,
    confirmationWrite: Fault, reconfirmation: Fault, evidence: Option<Code>, receipt: Fault, finalization: Fault, failure: Fault)

  /** How the guarded part of a call ends. */
  datatype Outcome = Evidence | Stopped | Threw(code: Code)

  /** Every statement goes through and nothing goes wrong; the claim is within its lease. */
  predicate Smooth(e: Surroundings) {
    && e.session && e.claim == NoFault && e.preparation.None? && e.authorization == NoFault && e.execution.None?
    && e.submission == NoFault && e.confirmation.None? && e.confirmationWrite == NoFault && e.evidence.None?
    && e.receipt == NoFault && e.finalization == NoFault && e.claimedAt <= e.authorizedAt <= e.claimedAt + LEASE
  }

  predicate Claimable(r: Row, e: Surroundings) {
    r.Created? && e.claimedAt <= r.at + LEASE
  }

  /** Where the guarded part of a call leaves its caller. */
  function After(o: Outcome, onEvidence: Worker): Option<Worker> {
    match o
    case Evidence => Some(onEvidence)
    case Stopped => None
    case Threw(code) => Some(Caught(code))
  }

  /** The activation row and the relay's count of executions; and, for the proof only, the protocol state of all callers. */
  class ActivationStore {
    var row: Row
    var executed: nat
    ghost var protocol: System

    /** The store in whatever situation the callers so far have left it. */
    constructor (row: Row, executed: nat, ghost protocol: System)
      requires Reachable(protocol) && protocol.row == row && protocol.executed == executed
      ensures this.row == row && this.executed == executed && this.protocol == protocol
      ensures forall w :: w !in protocol.workers ==> Follows(w, None)
    {
      this.row, this.executed, this.protocol := row, executed, protocol;
    }

    /** The store is where the protocol is, and caller `w` of it is at `at`, or not there. */
    ghost predicate Follows(w: nat, at: Option<Worker>)
      reads this
    {
      && Reachable(protocol) && row == protocol.row && executed == protocol.executed
      && (if at.Some? then w in protocol.workers && protocol.workers[w] == at.value else w !in protocol.workers)
    }

    /** The clock does not run backwards. */
    ghost predicate Timely(e: Surroundings)
      reads this
    {
      protocol.clock <= e.claimedAt <= e.authorizedAt
    }

    ghost method Take(a: Action)
      requires Reachable(protocol)
      modifies this`protocol
      ensures protocol == Step(old(protocol), a) && Reachable(protocol)
    {
      ReachableStep(protocol, a);
      protocol := Step(protocol, a);
    }

    /** One update statement under a fault. */
    method Update(result: (Row, bool), fault: Fault) returns (ok: bool)
      modifies this`row
      ensures (row, ok) == Under(old(row), result, fault)
    {
      match fault
      case NoFault =>
        row, ok := result.0, result.1;
      case Lost =>
        ok := false;
      case Ambiguous =>
        row, ok := result.0, false;
    }

    /** Claim the row; the statement's outcome is an error of its own. */
    method Claim(e: Surroundings, ghost w: nat) returns (o: Outcome)
      requires Follows(w, Some(Seen(row))) && Timely(e) && !Submitted(row) && !row.Confirmed?
      modifies this`row, this`protocol
      ensures Follows(w, After(o, Claimed)) && Timely(e)
      ensures o == Evidence ==> old(row).Created? && row == Running(e.claimedAt)
      ensures !old(row).Created? ==> row == old(row)
      ensures PastSubmission(row) ==> PastSubmission(old(row)) || row == Failed(StartExpired)
      ensures e.session && e.claim == NoFault && Claimable(old(row), e) ==> o == Evidence
    {
      if !e.session {
        Take(Begin(w, false, e.claim));
        return Threw(SessionUnavailable);
      }
      Take(Wait(e.claimedAt - protocol.clock));
      var claimed := Update(ClaimRow(row, e.claimedAt), e.claim);
      Take(Begin(w, true, e.claim));
      o := if e.claim != NoFault then Threw(Unexpected) else if claimed then Evidence else Stopped;
    }

    /** Prepare the execution and renew the lease for it. */
    method RenewLease(e: Surroundings, ghost w: nat) returns (o: Outcome)
      requires Follows(w, Some(Claimed)) && Timely(e) && row.Running?
      modifies this`row, this`protocol
      ensures Follows(w, After(o, Authorized)) && row.Running? && o != Stopped
      ensures Smooth(e) && old(row) == Running(e.claimedAt) ==> o == Evidence
    {
      if e.preparation.Some? {
        Take(Authorize(w, e.preparation, e.authorization));
        return Threw(e.preparation.value);
      }
      Take(Wait(e.authorizedAt - protocol.clock));
      var authorized := Update(AuthorizeRow(row, e.authorizedAt), e.authorization);
      Take(Authorize(w, None, e.authorization));
      o := if authorized then Evidence else Threw(LeaseLost);
    }

    /** Claim, authorize and execute: the only way to reach the relay. */
    method ClaimAndExecute(e: Surroundings, ghost w: nat) returns (o: Outcome)
      requires Follows(w, Some(Seen(row))) && Timely(e) && !Submitted(row) && !row.Confirmed?
      modifies this
      ensures Follows(w, After(o, Executed))
      ensures executed == old(executed) || (executed == old(executed) + 1 && old(row).Created?)
      ensures !old(row).Created? ==> row == old(row) && o != Evidence
      ensures o == Evidence ==> executed == old(executed) + 1 && row.Running?
      ensures executed == old(executed) + 1 ==> row.Running? && (o == Evidence || (o.Threw? && e.execution == Some(o.code)))
      ensures PastSubmission(row) ==> PastSubmission(old(row)) || row == Failed(StartExpired)
      ensures Smooth(e) && Claimable(old(row), e) ==> o == Evidence
    {
      o := Claim(e, w);
      if o != Evidence {
        return;
      }
      o := RenewLease(e, w);
      if o != Evidence {
        return;
      }
      executed := executed + 1;
      Take(Execute(w, e.execution));
      o := if e.execution.Some? then Threw(e.execution.value) else Evidence;
    }

    /** Write the submission down; if that fails, try once more and leave the rest to a later call. */
    method KeepSubmission(e: Surroundings, ghost w: nat) returns (o: Outcome)
      requires Follows(w, Some(Executed))
      modifies this`row, this`protocol
      ensures Follows(w, After(o, Confirming(true)))
      ensures old(row).Running? ==> row.Running? || row.ChainSubmitted?
      ensures old(row).Running? && o == Evidence ==> row.ChainSubmitted?
      ensures !old(row).Running? ==> row == old(row) && o == Stopped
      ensures !o.Threw?
      ensures old(row).Running? && e.submission == NoFault ==> o == Evidence
    {
      var ok := Update(SubmitRow(row), e.submission);
      Take(PersistSubmission(w, e.submission));
      if ok {
        return Evidence;
      }
      var _ := Update(SubmitRow(row), e.resubmission);
      Take(PersistSubmission(w, e.resubmission));
      o := Stopped;
    }

    /** The evidence for a confirmation that was written at the second attempt: only terminal evidence fails the row. */
    method EnrichLate(e: Surroundings, ghost w: nat) returns (o: Outcome)
      requires Follows(w, Some(Enriching(true))) && row.ChainConfirmed?
      modifies this`row, this`protocol
      ensures Follows(w, After(o, Enriched)) && !o.Threw?
      ensures row.ChainConfirmed? || (row.Failed? && TerminalEvidence(row.code))
      ensures o == Evidence <==> e.evidence.None?
      ensures o == Evidence ==> row.ChainConfirmed?
    {
      Take(Enrich(w, e.evidence));
      if e.evidence.None? {
        return Evidence;
      }
      if TerminalEvidence(e.evidence.value) {
        var _ := Update((FailRow(row, e.evidence.value), true), e.failure);
        Take(WriteFailure(w, e.failure));
      }
      o := Stopped;
    }

    /** The evidence for a confirmation that was written at once: any problem is thrown. */
    method EnrichEarly(e: Surroundings, ghost w: nat) returns (o: Outcome)
      requires Follows(w, Some(Enriching(false)))
      modifies this`protocol
      ensures Follows(w, After(o, Enriched)) && o != Stopped
      ensures o == Evidence <==> e.evidence.None?
    {
      Take(Enrich(w, e.evidence));
      o := if e.evidence.Some? then Threw(e.evidence.value) else Evidence;
    }

    method WriteConfirmation(own: bool, fault: Fault, ghost w: nat) returns (ok: bool)
      requires row.ChainSubmitted? && Follows(w, Some(HoldingConfirmation(own)))
      modifies this`row, this`protocol
      ensures Follows(w, Some(if ok then Enriching(false) else if own then Reconfirming else Caught(ConfirmationRace)))
      ensures Submitted(row) && (ok ==> row.ChainConfirmed?) && (fault == NoFault ==> ok)
    {
      ok := Update(ConfirmRow(row), fault);
      Take(PersistConfirmation(w, fault));
    }

    method RewriteConfirmation(fault: Fault, ghost w: nat) returns (ok: bool)
      requires Submitted(row) && Follows(w, Some(Reconfirming))
      modifies this`row, this`protocol
      ensures Follows(w, if ok then Some(Enriching(true)) else None)
      ensures Submitted(row) && (ok ==> row.ChainConfirmed?)
    {
      ok := Update(ConfirmRow(row), fault);
      Take(PersistConfirmation(w, fault));
    }

    /** Confirm a submission and write the confirmation down. A caller that executed retries the write once. */
    method ConfirmSubmission(own: bool, e: Surroundings, ghost w: nat) returns (o: Outcome)
      requires row.ChainSubmitted? && Follows(w, Some(Confirming(own)))
      modifies this`row, this`protocol
      ensures Follows(w, After(o, Enriched))
      ensures Submitted(row) || (row.Failed? && TerminalEvidence(row.code))
      ensures o == Evidence ==> row.ChainConfirmed?
      ensures Smooth(e) ==> o == Evidence
    {
      Take(Confirm(w, e.confirmation));
      if e.confirmation.Some? {
        return Threw(e.confirmation.value);
      }
      var ok := WriteConfirmation(own, e.confirmationWrite, w);
      if ok {
        o := EnrichEarly(e, w);
        return;
      }
      if !own {
        return Threw(ConfirmationRace);
      }
      ok := RewriteConfirmation(e.reconfirmation, w);
      if !ok {
        return Stopped;
      }
      o := EnrichLate(e, w);
    }

    /** The row is read back before a failure is written: a persisted submission is only failed by evidence. */
    method FailUnlessSubmitted(code: Code, e: Surroundings, ghost w: nat)
      requires Follows(w, Some(Caught(code)))
      modifies this`row, this`protocol
      ensures Follows(w, None)
      ensures row == old(row) || row == FailRow(old(row), code)
      ensures Submitted(old(row)) && !TerminalEvidence(code) ==> row == old(row)
      ensures e.failure == NoFault && (!Submitted(old(row)) || TerminalEvidence(code)) ==> row == FailRow(old(row), code)
    {
      Take(ReadBack(w));
      if Submitted(row) && !TerminalEvidence(code) {
        return;
      }
      var _ := Update((FailRow(row, code), true), e.failure);
      Take(WriteFailure(w, e.failure));
    }

    method Publish(e: Surroundings, ghost w: nat)
      requires row.ChainConfirmed? && Follows(w, Some(Enriched))
      modifies this`row, this`protocol
      ensures Follows(w, None)
      ensures row.ChainConfirmed? || row.Confirmed? || row.Completed?
      ensures e.receipt == NoFault && e.finalization == NoFault ==> row.Completed?
    {
      var ok := Update(ReceiptRow(row), e.receipt);
      Take(PersistReceipt(w, e.receipt));
      if ok {
        var _ := Update(FinalizeRow(row), e.finalization);
        Take(Finalize(w, e.finalization));
      }
    }

    /** The guarded part of a call, by what it finds. */
    method Advance(e: Surroundings, ghost w: nat) returns (o: Outcome)
      requires Follows(w, Some(Seen(row))) && Timely(e) && !row.Confirmed?
      modifies this
      ensures Follows(w, After(o, Enriched))
      ensures executed == old(executed) || (executed == old(executed) + 1 && old(row).Created?)
      ensures Submitted(old(row)) ==> Submitted(row) || (row.Failed? && TerminalEvidence(row.code))
      ensures old(row).Completed? || old(row).Failed? || old(row).Absent? || old(row).Running? ==> row == old(row) && o != Evidence
      ensures !row.Confirmed? && (row.Completed? ==> old(row).Completed?)
      ensures o == Evidence ==> row.ChainConfirmed?
      ensures old(row).Created? && Submitted(row) ==> executed == old(executed) + 1
      ensures old(row).Created? && row.Failed? ==> row.code == StartExpired || TerminalEvidence(row.code)
      ensures Smooth(e) && (Claimable(old(row), e) || Submitted(old(row))) ==> o == Evidence
      ensures Smooth(e) && Claimable(old(row), e) ==> executed == old(executed) + 1
    {
      if row.ChainConfirmed? {
        Take(Begin(w, e.session, e.claim));
        o := EnrichEarly(e, w);
        return;
      }
      if row.ChainSubmitted? {
        Take(Begin(w, e.session, e.claim));
        o := ConfirmSubmission(false, e, w);
        return;
      }
      o := ClaimAndExecute(e, w);
      if o == Evidence {
        o := KeepSubmission(e, w);
        if o == Evidence {
          o := ConfirmSubmission(true, e, w);
        }
      }
    }

    method FinishConfirmed(e: Surroundings, ghost w: nat)
      requires row.Confirmed? && Follows(w, Some(Seen(row)))
      modifies this`row, this`protocol
      ensures Follows(w, None)
      ensures row.Confirmed? || row.Completed?
      ensures e.finalization == NoFault ==> row.Completed?
    {
      Take(Begin(w, e.session, e.claim));
      var _ := Update(FinalizeRow(row), e.finalization);
      Take(Finalize(w, e.finalization));
    }

    /** One finisher call. It is a run of one caller of the protocol, whatever other callers did before it; it executes at most
        once, only from a row it claims itself and only if nobody did before; a persisted submission is never failed without
        evidence; a finished row stays; and a smooth call brings any unfinished row to completion. */
    method Finish(e: Surroundings, ghost w: nat)
      requires Follows(w, None) && Timely(e)
      modifies this
      ensures Follows(w, None) && executed <= 1
      ensures executed == old(executed) || (executed == old(executed) + 1 && old(row).Created?)
      ensures Submitted(old(row)) ==> PastSubmission(row) && (row.Failed? ==> TerminalEvidence(row.code))
      ensures old(row).Completed? || old(row).Failed? || old(row).Absent? ==> row == old(row)
      ensures old(row).Created? && PastSubmission(row) && !row.Failed? ==> executed == old(executed) + 1
      ensures Smooth(e) && (Claimable(old(row), e) || Submitted(old(row)) || old(row).Confirmed?) ==> row.Completed?
      ensures Smooth(e) && Claimable(old(row), e) ==> executed == old(executed) + 1
    {
      Take(Arrive(w));
      Take(Read(w));
      if row.Confirmed? {
        FinishConfirmed(e, w);
      } else {
        var outcome := Advance(e, w);
        match outcome
        case Evidence => Publish(e, w);
        case Stopped =>
        case Threw(code) => FailUnlessSubmitted(code, e, w);
      }
      ReachableExecutesOnce(protocol);
    }
  }
}
