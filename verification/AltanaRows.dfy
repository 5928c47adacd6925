/** How the activation row and its callers move, statement by statement, in terms of the states, codes and lease times. */
module AltanaRows {
  import opened Outcomes
  import opened AltanaActivation

  /** The caller that takes this step is in this place. */
  ghost predicate By(s: System, a: Action, at: Worker) {
    !a.Wait? && !a.Create? && !a.Expire? && a.worker in s.workers && s.workers[a.worker] == at
  }

  /** A failure write for this code reaches the row. */
  ghost predicate Fails(s: System, a: Action, to: Row) {
    to.Failed? && a.WriteFailure? && a.fault != Lost && exists seen :: By(s, a, Failing(to.code, seen))
  }

  /** The step takes the row to `to`: a claim within five minutes of the creation, or its expiry; a renewal within five minutes
      of the start, or its expiry; the submission by the caller that executed; the confirmation by one that holds it; the
      receipt by one with the evidence; the completion; or a failure while the row is not yet confirmed with a receipt. */
  ghost predicate Moves(s: System, a: Action, to: Row) {
    match s.row
    case Absent => a.Create? && to == Created(s.clock)
    case Created(at) =>
      || Fails(s, a, to)
      || (a.Begin? && a.session && a.fault != Lost
          && (exists seen :: By(s, a, Seen(seen)) && !seen.ChainSubmitted? && !seen.ChainConfirmed? && !seen.Confirmed?)
          && to == if s.clock <= at + 300000 then Running(s.clock) else Failed(StartExpired))
    case Running(started) =>
      || Fails(s, a, to)
      || (a.Authorize? && a.problem == None && a.fault != Lost && By(s, a, Claimed)
          && s.clock <= started + 300000 && to == Running(s.clock))
      || (a.Expire? && s.clock > started + 300000 && to == Failed(Uncertain))
      || (a.PersistSubmission? && a.fault != Lost && (By(s, a, Executed) || By(s, a, Resubmitting)) && to == ChainSubmitted)
    case ChainSubmitted =>
      || Fails(s, a, to)
      || (a.PersistConfirmation? && a.fault != Lost && to == ChainConfirmed
          && (By(s, a, HoldingConfirmation(true)) || By(s, a, HoldingConfirmation(false)) || By(s, a, Reconfirming)))
    case ChainConfirmed =>
      Fails(s, a, to) || (a.PersistReceipt? && a.fault != Lost && By(s, a, Enriched) && to == Confirmed)
    case Confirmed => a.Finalize? && a.fault != Lost && By(s, a, Finalizing) && to == Completed
    case Completed => false
    case Failed(_) => false
  }

  lemma StayingPut(s: System, a: Action)
    requires forall to :: !Moves(s, a, to)
    ensures Step(s, a).row == s.row
  {
    var to := Step(s, a).row;
    assert !Moves(s, a, to);
    if !a.Wait? && !a.Create? && !a.Expire? && a.worker in s.workers {
      assert By(s, a, s.workers[a.worker]);
    }
  }

  /** Every step moves the row exactly as stated, and otherwise leaves it. */
  lemma RowMovesExactly(s: System, a: Action)
    ensures forall to :: Moves(s, a, to) ==> Step(s, a).row == to
    ensures (forall to :: !Moves(s, a, to)) ==> Step(s, a).row == s.row
  {
    if forall to :: !Moves(s, a, to) { StayingPut(s, a); }
  }

  /** The relay is asked exactly by an authorized caller's execution. */
  lemma ExecutionExact(s: System, a: Action)
    ensures Step(s, a).executed == s.executed + if a.Execute? && By(s, a, Authorized) then 1 else 0
  {
  }

  /** Where a caller goes from what it has read: it resumes a submission or a confirmation, and otherwise claims, if there is
      a session. A refused claim ends the call, and a statement that reports an error is caught. */
  lemma BeginExact(s: System, w: nat, session: bool, fault: Fault, seen: Row)
    requires w in s.workers && s.workers[w] == Seen(seen)
    ensures var t := Step(s, Begin(w, session, fault));
            var next := if w in t.workers then Some(t.workers[w]) else None;
            next == match seen
                    case Confirmed => Some(Finalizing)
                    case ChainConfirmed => Some(Enriching(false))
                    case ChainSubmitted => Some(Confirming(false))
                    case _ =>
                      if !session then Some(Caught(SessionUnavailable))
                      else if fault != NoFault then Some(Caught(Unexpected))
                      else if s.row.Created? && s.clock <= s.row.at + 300000 then Some(Claimed)
                      else None
  {
  }

  /** What was caught is written as a failure, unless the row read back is a submission and the code is no evidence that its
      execution failed, was reverted or brought nothing. */
  lemma ReadBackExact(s: System, w: nat, code: Code)
    requires w in s.workers && s.workers[w] == Caught(code)
    ensures var t := Step(s, ReadBack(w));
            && t.row == s.row
            && if (s.row == ChainSubmitted || s.row == ChainConfirmed)
                  && code != ExecutionFailed && code != ExecutionReverted && code != DeltaNotPositive
               then w !in t.workers
               else w in t.workers && t.workers[w] == Failing(code, s.row)
  {
  }

  /** A problem with the evidence is caught after a confirmation written at once; after one written at the second attempt only
      the three codes fail the row. */
  lemma EvidenceExact(s: System, w: nat, late: bool, code: Code)
    requires w in s.workers && s.workers[w] == Enriching(late)
    ensures var t := Step(s, Enrich(w, Some(code)));
            if !late then w in t.workers && t.workers[w] == Caught(code)
            else if code == ExecutionFailed || code == ExecutionReverted || code == DeltaNotPositive
            then w in t.workers && t.workers[w] == Failing(code, s.row)
            else w !in t.workers
  {
  }

  /** The statement is carried out and reported. */
  ghost predicate Reported(a: Action)
    requires a.Authorize? || a.PersistSubmission? || a.PersistConfirmation? || a.PersistReceipt?
  {
    a.fault == NoFault
  }

  /** Where an authorization, an execution or a write leads its caller: on if it is carried out, reported and hits the state it
      is meant for, and otherwise to the second attempt, to an error, or to the end of the call. */
  ghost function Next(s: System, a: Action, at: Worker): Option<Worker> {
    match (at, a)
    case (Claimed, Authorize(_, problem, _)) =>
      if problem.Some? then Some(Caught(problem.value))
      else if Reported(a) && s.row.Running? && s.clock <= s.row.startedAt + 300000 then Some(Authorized)
      else Some(Caught(LeaseLost))
    case (Authorized, Execute(_, problem)) => Some(if problem.Some? then Caught(problem.value) else Executed)
    case (Executed, PersistSubmission(_, _)) => Some(if Reported(a) && s.row.Running? then Confirming(true) else Resubmitting)
    case (Confirming(own), Confirm(_, problem)) => Some(if problem.Some? then Caught(problem.value) else HoldingConfirmation(own))
    case (HoldingConfirmation(own), PersistConfirmation(_, _)) =>
      Some(if Reported(a) && s.row == ChainSubmitted then Enriching(false) else if own then Reconfirming else Caught(ConfirmationRace))
    case (Reconfirming, PersistConfirmation(_, _)) => if Reported(a) && s.row == ChainSubmitted then Some(Enriching(true)) else None
    case (Enriching(_), Enrich(_, None)) => Some(Enriched)
    case (Enriched, PersistReceipt(_, _)) => if Reported(a) && s.row == ChainConfirmed then Some(Finalizing) else None
    case _ => None
  }

  /** These steps move their caller exactly so, and a completion, a failure write and a second submission end its call. */
  lemma CallerMovesExactly(s: System, a: Action, at: Worker)
    requires By(s, a, at)
    requires a.Authorize? || a.Execute? || a.PersistSubmission? || a.Confirm? || a.PersistConfirmation? || a.PersistReceipt?
      || a.Finalize? || a.WriteFailure? || (a.Enrich? && a.problem.None?)
    ensures var t := Step(s, a); (if a.worker in t.workers then Some(t.workers[a.worker]) else None) == Next(s, a, at)
  {
  }

  /** No step moves another caller. */
  lemma OthersStay(s: System, a: Action, w: nat)
    requires a.Wait? || a.Create? || a.Expire? || a.worker != w
    ensures w in Step(s, a).workers <==> w in s.workers
    ensures w in s.workers ==> Step(s, a).workers[w] == s.workers[w]
  {
  }
}
