/** The Altana activation finisher: any number of callers drive one activation row through its states, each of which may
    die at any step, while the relay must be asked to execute at most once. */
module AltanaActivation {
  import opened Outcomes
  import opened Runs

  type Millis = int

  datatype Code =
    | ExecutionFailed | ExecutionReverted | DeltaNotPositive
    | LeaseLost | StartExpired | Uncertain | SessionUnavailable | ConfirmationRace | Unexpected

  /** The activation row. */
  datatype Row =
    | Absent
    | Created(at: Millis)
    | Running(startedAt: Millis)
    | ChainSubmitted
    | ChainConfirmed
    | Confirmed
    | Completed
    | Failed(code: Code)

  /** What the database does to one statement: carries it out, loses it, or carries it out and reports an error. */
  datatype Fault = NoFault | Lost | Ambiguous

  const LEASE: Millis := 300000

  predicate TerminalEvidence(c: Code) {
    c == ExecutionFailed || c == ExecutionReverted || c == DeltaNotPositive
  }

  predicate Submitted(r: Row) {
    r.ChainSubmitted? || r.ChainConfirmed?
  }

  // ---- the store's statements ----

  function ClaimRow(r: Row, now: Millis): (Row, bool) {
    if r.Created? then if r.at >= now - LEASE then (Running(now), true) else (Failed(StartExpired), false)
    else (r, false)
  }

  function AuthorizeRow(r: Row, now: Millis): (Row, bool) {
    if r.Running? && r.startedAt >= now - LEASE then (Running(now), true) else (r, false)
  }

  function SubmitRow(r: Row): (Row, bool) {
    if r.Running? then (ChainSubmitted, true) else (r, false)
  }

  function ConfirmRow(r: Row): (Row, bool) {
    if r.ChainSubmitted? then (ChainConfirmed, true) else (r, false)
  }

  function ReceiptRow(r: Row): (Row, bool) {
    if r.ChainConfirmed? then (Confirmed, true) else (r, false)
  }

  function FinalizeRow(r: Row): (Row, bool) {
    if r.Confirmed? then (Completed, true) else (r, false)
  }

  function FailRow(r: Row, code: Code): Row {
    if r.Created? || r.Running? || Submitted(r) then Failed(code) else r
  }

  function ExpireRow(r: Row, cutoff: Millis): Row {
    if r.Running? && r.startedAt < cutoff then Failed(Uncertain) else r
  }

  /** The row after a statement, and whether the caller learns that it went through. */
  function Under(before: Row, result: (Row, bool), fault: Fault): (Row, bool) {
    match fault
    case NoFault => result
    case Lost => (before, false)
    case Ambiguous => (result.0, false)
  }

  // ---- the callers ----

  datatype Worker =
    | Arrived
    | Seen(row: Row)
    | Claimed
    | Authorized
    | Executed
    | Resubmitting
    | Confirming(own: bool)
    | HoldingConfirmation(own: bool)
    | Reconfirming
    | Enriching(late: bool)
    | Enriched
    | Finalizing
    | Caught(code: Code)
    | Failing(code: Code, seen: Row)

  datatype System = System(row: Row, clock: Millis, executed: nat, workers: map<nat, Worker>)

  datatype Action =
    | Wait(millis: nat)
    | Create
    | Expire
    | Arrive(worker: nat)
    | Read(worker: nat)
    | Begin(worker: nat, session: bool, fault: Fault)
    | Authorize(worker: nat, problem: Option<Code>, fault: Fault)
    | Execute(worker: nat, problem: Option<Code>)
    | PersistSubmission(worker: nat, fault: Fault)
    | Confirm(worker: nat, problem: Option<Code>)
    | PersistConfirmation(worker: nat, fault: Fault)
    | Enrich(worker: nat, problem: Option<Code>)
    | PersistReceipt(worker: nat, fault: Fault)
    | Finalize(worker: nat, fault: Fault)
    | ReadBack(worker: nat)
    | WriteFailure(worker: nat, fault: Fault)
    | Die(worker: nat)

  function End(s: System, w: nat): System {
    s.(workers := s.workers - {w})
  }

  function Go(s: System, w: nat, next: Worker): System {
    s.(workers := s.workers[w := next])
  }

  /** Carry out a statement and go on, or go elsewhere when it fails; `None` ends the call. */
  function Write(s: System, w: nat, result: (Row, bool), fault: Fault, next: Worker, otherwise: Option<Worker>): System {
    var (row, ok) := Under(s.row, result, fault);
    var t := s.(row := row);
    if ok then Go(t, w, next) else if otherwise.Some? then Go(t, w, otherwise.value) else End(t, w)
  }

  /** Resume from what was read, or claim. A claim that is refused ends the call; one that throws is caught. */
  function BeginStep(s: System, w: nat, seen: Row, session: bool, fault: Fault): System {
    if seen.Confirmed? then Go(s, w, Finalizing)
    else if seen.ChainConfirmed? then Go(s, w, Enriching(false))
    else if seen.ChainSubmitted? then Go(s, w, Confirming(false))
    else if !session then Go(s, w, Caught(SessionUnavailable))
    else
      var result := ClaimRow(s.row, s.clock);
      if fault != NoFault then Go(s.(row := Under(s.row, result, fault).0), w, Caught(Unexpected))
      else if result.1 then Go(s.(row := result.0), w, Claimed)
      else End(s.(row := result.0), w)
  }

  function WorkerStep(s: System, a: Action, w: nat, at: Worker): System {
    if a.Read? && at.Arrived? then Go(s, w, Seen(s.row))
    else if a.Begin? && at.Seen? then BeginStep(s, w, at.row, a.session, a.fault)
    else if a.Authorize? && at.Claimed? then
      if a.problem.Some? then Go(s, w, Caught(a.problem.value))
      else Write(s, w, AuthorizeRow(s.row, s.clock), a.fault, Authorized, Some(Caught(LeaseLost)))
    else if a.Execute? && at.Authorized? then
      Go(s.(executed := s.executed + 1), w, if a.problem.Some? then Caught(a.problem.value) else Executed)
    else if a.PersistSubmission? && at.Executed? then Write(s, w, SubmitRow(s.row), a.fault, Confirming(true), Some(Resubmitting))
    else if a.PersistSubmission? && at.Resubmitting? then End(s.(row := Under(s.row, SubmitRow(s.row), a.fault).0), w)
    else LaterStep(s, a, w, at)
  }

  function LaterStep(s: System, a: Action, w: nat, at: Worker): System {
    if a.Confirm? && at.Confirming? then
      Go(s, w, if a.problem.Some? then Caught(a.problem.value) else HoldingConfirmation(at.own))
    else if a.PersistConfirmation? && at.HoldingConfirmation? then
      Write(s, w, ConfirmRow(s.row), a.fault, Enriching(false), Some(if at.own then Reconfirming else Caught(ConfirmationRace)))
    else if a.PersistConfirmation? && at.Reconfirming? then Write(s, w, ConfirmRow(s.row), a.fault, Enriching(true), None)
    else if a.Enrich? && at.Enriching? then
      if a.problem.None? then Go(s, w, Enriched)
      else if !at.late then Go(s, w, Caught(a.problem.value))
      else if TerminalEvidence(a.problem.value) then Go(s, w, Failing(a.problem.value, s.row))
      else End(s, w)
    else if a.PersistReceipt? && at.Enriched? then Write(s, w, ReceiptRow(s.row), a.fault, Finalizing, None)
    else if a.Finalize? && at.Finalizing? then End(s.(row := Under(s.row, FinalizeRow(s.row), a.fault).0), w)
    else if a.ReadBack? && at.Caught? then
      if Submitted(s.row) && !TerminalEvidence(at.code) then End(s, w) else Go(s, w, Failing(at.code, s.row))
    else if a.WriteFailure? && at.Failing? then
      End(s.(row := Under(s.row, (FailRow(s.row, at.code), true), a.fault).0), w)
    else End(s, w)
  }

  function Step(s: System, a: Action): System {
    match a
    case Wait(millis) => s.(clock := s.clock + millis)
    case Create => if s.row.Absent? then s.(row := Created(s.clock)) else s
    case Expire => s.(row := ExpireRow(s.row, s.clock - LEASE))
    case Arrive(w) => if w in s.workers then s else Go(s, w, Arrived)
    case Die(w) => End(s, w)
    case _ => if a.worker in s.workers then WorkerStep(s, a, a.worker, s.workers[a.worker]) else s
  }

  const Idle: System := System(Absent, 0, 0, map[])

  // ---- at most one execution ----

  /** The caller holds the one claim and may still execute, or may still write the submission down. */
  predicate MayExecute(at: Worker) {
    at.Claimed? || at.Authorized?
  }

  predicate Owner(at: Worker) {
    MayExecute(at) || at.Executed? || at.Resubmitting?
  }

  predicate PastSubmission(r: Row) {
    Submitted(r) || r.Confirmed? || r.Completed? || r.Failed?
  }

  predicate Untouched(r: Row) {
    r.Absent? || r.Created?
  }

  /** What one caller's position says about the row. */
  ghost predicate WorkerInv(s: System, at: Worker) {
    && (MayExecute(at) ==> s.executed == 0)
    && (at.Executed? || at.Resubmitting? ==> s.executed == 1)
    && (Owner(at) ==> !Untouched(s.row))
    && (at.Confirming? || at.HoldingConfirmation? || at.Reconfirming? || at.Enriching? || at.Enriched? || at.Finalizing? ==>
          PastSubmission(s.row))
    && (at.Seen? && (Submitted(at.row) || at.row.Confirmed?) ==> PastSubmission(s.row))
  }

  ghost predicate RowInv(s: System) {
    && s.executed <= 1
    && (Untouched(s.row) ==> s.executed == 0)
    && (PastSubmission(s.row) && !s.row.Failed? ==> s.executed == 1)
  }

  ghost predicate OneOwner(s: System) {
    forall v, w :: v in s.workers && w in s.workers && v != w && Owner(s.workers[v]) ==> !Owner(s.workers[w])
  }

  ghost predicate Inv(s: System) {
    && RowInv(s)
    && OneOwner(s)
    && forall w :: w in s.workers ==> WorkerInv(s, s.workers[w])
  }

  /** The row never moves back. */
  predicate Forward(a: Row, b: Row) {
    && (Untouched(b) ==> Untouched(a))
    && (PastSubmission(a) ==> PastSubmission(b))
  }

  lemma EndKeeps(s: System, w: nat)
    requires Inv(s)
    ensures Inv(End(s, w))
  {
  }

  /** The row moves on while nobody executes. */
  lemma RowMoves(s: System, row: Row)
    requires Inv(s) && Forward(s.row, row) && RowInv(s.(row := row))
    ensures Inv(s.(row := row))
  {
  }

  lemma GoKeeps(s: System, w: nat, next: Worker)
    requires Inv(s) && WorkerInv(s, next)
    requires Owner(next) ==> w in s.workers && Owner(s.workers[w])
    ensures Inv(Go(s, w, next))
  {
  }

  /** A granted claim makes its caller the only owner: the row was untouched, so there was none. */
  lemma ClaimKeeps(s: System, w: nat, row: Row)
    requires Inv(s) && s.row.Created? && row.Running?
    ensures Inv(Go(s.(row := row), w, Claimed))
  {
  }

  lemma BeginKeeps(s: System, w: nat, seen: Row, session: bool, fault: Fault)
    requires Inv(s) && WorkerInv(s, Seen(seen))
    ensures Inv(BeginStep(s, w, seen, session, fault))
  {
    if seen.Confirmed? || Submitted(seen) {
      GoKeeps(s, w, if seen.Confirmed? then Finalizing else if seen.ChainConfirmed? then Enriching(false) else Confirming(false));
    } else if !session {
      GoKeeps(s, w, Caught(SessionUnavailable));
    } else {
      var result := ClaimRow(s.row, s.clock);
      if fault == NoFault && result.1 {
        ClaimKeeps(s, w, result.0);
      } else {
        var row := Under(s.row, result, fault).0;
        RowMoves(s, row);
        GoKeeps(s.(row := row), w, Caught(Unexpected));
        EndKeeps(s.(row := row), w);
      }
    }
  }

  /** Executing: the only owner uses its one chance. */
  lemma ExecuteKeeps(s: System, w: nat, next: Worker)
    requires Inv(s) && w in s.workers && s.workers[w].Authorized? && (next.Executed? || next.Caught?)
    ensures Inv(Go(s.(executed := s.executed + 1), w, next))
  {
  }

  lemma WriteKeeps(s: System, w: nat, result: (Row, bool), fault: Fault, next: Worker, otherwise: Option<Worker>)
    requires Inv(s) && w in s.workers && Forward(s.row, result.0) && RowInv(s.(row := result.0))
    requires result.1 ==> WorkerInv(s.(row := result.0), next)
    requires Owner(next) ==> Owner(s.workers[w])
    requires otherwise.Some? ==> (Owner(otherwise.value) ==> Owner(s.workers[w]))
    requires otherwise.Some? ==> WorkerInv(s, otherwise.value) && WorkerInv(s.(row := result.0), otherwise.value)
    ensures Inv(Write(s, w, result, fault, next, otherwise))
  {
  }

  lemma LaterStepKeeps(s: System, a: Action, w: nat, at: Worker)
    requires Inv(s) && w in s.workers && s.workers[w] == at
    ensures Inv(LaterStep(s, a, w, at))
  {
    EndKeeps(s, w);
    assert WorkerInv(s, at);
    if a.Confirm? && at.Confirming? {
      GoKeeps(s, w, if a.problem.Some? then Caught(a.problem.value) else HoldingConfirmation(at.own));
    } else if a.PersistConfirmation? && at.HoldingConfirmation? {
      WriteKeeps(s, w, ConfirmRow(s.row), a.fault, Enriching(false), Some(if at.own then Reconfirming else Caught(ConfirmationRace)));
    } else if a.PersistConfirmation? && at.Reconfirming? {
      WriteKeeps(s, w, ConfirmRow(s.row), a.fault, Enriching(true), None);
    } else if a.Enrich? && at.Enriching? {
      GoKeeps(s, w, Enriched);
      if a.problem.Some? {
        GoKeeps(s, w, Caught(a.problem.value));
        GoKeeps(s, w, Failing(a.problem.value, s.row));
      }
    } else if a.PersistReceipt? && at.Enriched? {
      WriteKeeps(s, w, ReceiptRow(s.row), a.fault, Finalizing, None);
    } else if a.Finalize? && at.Finalizing? {
      RowMoves(s, Under(s.row, FinalizeRow(s.row), a.fault).0);
      EndKeeps(s.(row := Under(s.row, FinalizeRow(s.row), a.fault).0), w);
    } else if a.ReadBack? && at.Caught? {
      GoKeeps(s, w, Failing(at.code, s.row));
    } else if a.WriteFailure? && at.Failing? {
      var row := Under(s.row, (FailRow(s.row, at.code), true), a.fault).0;
      RowMoves(s, row);
      EndKeeps(s.(row := row), w);
    }
  }

  lemma WorkerStepKeeps(s: System, a: Action, w: nat, at: Worker)
    requires Inv(s) && w in s.workers && s.workers[w] == at
    ensures Inv(WorkerStep(s, a, w, at))
  {
    EndKeeps(s, w);
    assert WorkerInv(s, at);
    LaterStepKeeps(s, a, w, at);
    if a.Read? && at.Arrived? {
      GoKeeps(s, w, Seen(s.row));
    } else if a.Begin? && at.Seen? {
      BeginKeeps(s, w, at.row, a.session, a.fault);
    } else if a.Authorize? && at.Claimed? {
      if a.problem.Some? {
        GoKeeps(s, w, Caught(a.problem.value));
      } else {
        WriteKeeps(s, w, AuthorizeRow(s.row, s.clock), a.fault, Authorized, Some(Caught(LeaseLost)));
      }
    } else if a.Execute? && at.Authorized? {
      ExecuteKeeps(s, w, if a.problem.Some? then Caught(a.problem.value) else Executed);
    } else if a.PersistSubmission? && at.Executed? {
      WriteKeeps(s, w, SubmitRow(s.row), a.fault, Confirming(true), Some(Resubmitting));
    } else if a.PersistSubmission? && at.Resubmitting? {
      var row := Under(s.row, SubmitRow(s.row), a.fault).0;
      RowMoves(s, row);
      EndKeeps(s.(row := row), w);
    }
  }

  lemma StepKeeps(s: System, a: Action)
    requires Inv(s)
    ensures Inv(Step(s, a))
  {
    if a.Create? {
      if s.row.Absent? { RowMoves(s, Created(s.clock)); }
    } else if a.Expire? {
      RowMoves(s, ExpireRow(s.row, s.clock - LEASE));
    } else if a.Wait? {
      var t := Step(s, a);
      forall v | v in t.workers ensures WorkerInv(t, t.workers[v]) {
        assert WorkerInv(s, s.workers[v]);
      }
    } else if a.Arrive? {
      if a.worker !in s.workers { GoKeeps(s, a.worker, Arrived); }
    } else if a.Die? {
      EndKeeps(s, a.worker);
    } else if a.worker in s.workers {
      WorkerStepKeeps(s, a, a.worker, s.workers[a.worker]);
    }
  }

  /** For any interleaving of callers, database faults and deaths: the relay is asked to execute at most once, and a row
      that shows a submission, a confirmation or a completion stands for exactly one execution. */
  lemma ExecutesAtMostOnce(actions: seq<Action>)
    ensures var s := Fold(Idle, actions, Step);
            && s.executed <= 1
            && (Submitted(s.row) || s.row.Confirmed? || s.row.Completed? ==> s.executed == 1)
  {
    forall s: System, a: Action | Inv(s) ensures Inv(Step(s, a)) {
      StepKeeps(s, a);
    }
    Invariant(Idle, actions, Step, s => Inv(s));
  }

  /** Some interleaving of callers leads here. */
  ghost predicate Reachable(s: System) {
    exists actions :: Fold(Idle, actions, Step) == s
  }

  lemma ReachableStep(s: System, a: Action)
    requires Reachable(s)
    ensures Reachable(Step(s, a))
  {
    var actions :| Fold(Idle, actions, Step) == s;
    assert (actions + [a])[..|actions|] == actions;
    assert Fold(Idle, actions + [a], Step) == Step(s, a);
  }

  lemma ReachableExecutesOnce(s: System)
    requires Reachable(s)
    ensures s.executed <= 1
  {
    var actions :| Fold(Idle, actions, Step) == s;
    ExecutesAtMostOnce(actions);
  }

  /** Only a caller with an authorized claim executes; a caller that resumes from a persisted submission never does. */
  lemma OnlyTheClaimantExecutes(s: System, a: Action)
    requires Step(s, a).executed != s.executed
    ensures a.Execute? && a.worker in s.workers && s.workers[a.worker].Authorized?
    ensures Step(s, a).executed == s.executed + 1
  {
  }

  /** Completed and failed rows are final. */
  lemma {:induction false} FinalRowsStay(s: System, actions: seq<Action>)
    requires s.row.Completed? || s.row.Failed?
    ensures Fold(s, actions, Step).row == s.row
    decreases |actions|
  {
    if actions != [] {
      FinalRowsStay(s, actions[..|actions| - 1]);
      var t := Fold(s, actions[..|actions| - 1], Step);
      FinalRowStep(t, actions[|actions| - 1]);
    }
  }

  lemma FinalRowStep(s: System, a: Action)
    requires s.row.Completed? || s.row.Failed?
    ensures Step(s, a).row == s.row
  {
  }

  // ---- which codes can fail a persisted submission ----

  ghost predicate NoOwner(s: System) {
    forall w :: w in s.workers ==> !Owner(s.workers[w])
  }

  /** Nothing can be submitted any more, unless it has been. */
  ghost predicate PastClaim(s: System) {
    !Untouched(s.row) && (s.row.Running? ==> NoOwner(s))
  }

  /** A caller about to fail the row with a code that is not terminal evidence cannot meet a submission. */
  ghost predicate CalmWorker(s: System, at: Worker) {
    && (at.Caught? ==> PastClaim(s))
    && (at.Failing? && !TerminalEvidence(at.code) ==> PastClaim(s) && !Submitted(s.row))
  }

  ghost predicate Calm(s: System) {
    forall w :: w in s.workers ==> CalmWorker(s, s.workers[w])
  }

  /** A step keeps what callers past the claim rely on. */
  ghost predicate Calming(s: System, t: System) {
    && (!Untouched(s.row) && !s.row.Running? ==>
          !Untouched(t.row) && !t.row.Running? && (Submitted(t.row) ==> Submitted(s.row)))
    && (s.row.Running? && NoOwner(s) ==> !Untouched(t.row) && !Submitted(t.row) && NoOwner(t))
  }

  lemma BeginCalming(s: System, w: nat, seen: Row, session: bool, fault: Fault)
    ensures Calming(s, BeginStep(s, w, seen, session, fault))
  {
  }

  lemma LaterCalming(s: System, a: Action, w: nat, at: Worker)
    requires w in s.workers && s.workers[w] == at
    ensures Calming(s, LaterStep(s, a, w, at))
  {
  }

  lemma WorkerCalming(s: System, a: Action, w: nat, at: Worker)
    requires w in s.workers && s.workers[w] == at
    ensures Calming(s, WorkerStep(s, a, w, at))
  {
    if a.Begin? && at.Seen? {
      BeginCalming(s, w, at.row, a.session, a.fault);
    } else {
      LaterCalming(s, a, w, at);
    }
  }

  /** Nobody's claim throws: the session is there and the claim statement reports its outcome. */
  predicate QuietClaim(a: Action) {
    a.Begin? ==> a.session && a.fault == NoFault
  }

  /** A caller that is newly caught has resumed from a submission or was the only owner. */
  lemma NewlyCaughtIsCalm(s: System, t: System, w: nat)
    requires Inv(s) && w in s.workers && w in t.workers && t.workers == s.workers[w := t.workers[w]]
    requires Forward(s.row, t.row) && (Owner(s.workers[w]) || PastSubmission(t.row))
    requires !Owner(t.workers[w])
    ensures PastClaim(t)
  {
  }

  lemma ActorIsCalm(s: System, a: Action, w: nat, at: Worker)
    requires Inv(s) && Calm(s) && QuietClaim(a) && w in s.workers && s.workers[w] == at
    ensures var t := WorkerStep(s, a, w, at); w in t.workers ==> CalmWorker(t, t.workers[w])
  {
    var t := WorkerStep(s, a, w, at);
    assert WorkerInv(s, at) && CalmWorker(s, at);
    if w in t.workers && t.workers[w].Caught? {
      NewlyCaughtIsCalm(s, t, w);
    }
  }

  lemma CallerStepCalm(s: System, a: Action)
    requires Inv(s) && Calm(s) && QuietClaim(a) && IsWorkerAction(a) && a.worker in s.workers
    ensures Calm(Step(s, a))
  {
    StepCalming(s, a);
    ActorIsCalm(s, a, a.worker, s.workers[a.worker]);
    OthersStayCalm(s, WorkerStep(s, a, a.worker, s.workers[a.worker]), a.worker);
  }

  lemma OutsideStepCalm(s: System, a: Action)
    requires Inv(s) && Calm(s) && !IsWorkerAction(a)
    ensures Calm(Step(s, a))
  {
    StepCalming(s, a);
    OthersStayCalm(s, Step(s, a), if a.Arrive? || a.Die? then a.worker else 0);
  }

  lemma StepCalm(s: System, a: Action)
    requires Inv(s) && Calm(s) && QuietClaim(a)
    ensures Calm(Step(s, a))
  {
    if !IsWorkerAction(a) {
      OutsideStepCalm(s, a);
    } else if a.worker in s.workers {
      CallerStepCalm(s, a);
    }
  }

  /** Everyone but the acting caller is where it was. */
  lemma OthersStayCalm(s: System, t: System, w: nat)
    requires Calm(s) && Calming(s, t)
    requires forall v :: v in t.workers && v != w ==> v in s.workers && t.workers[v] == s.workers[v]
    requires w in t.workers ==> CalmWorker(t, t.workers[w]) || (w in s.workers && t.workers[w] == s.workers[w])
    ensures Calm(t)
  {
  }

  predicate IsWorkerAction(a: Action) {
    !a.Wait? && !a.Create? && !a.Expire? && !a.Arrive? && !a.Die?
  }

  lemma StepCalming(s: System, a: Action)
    ensures Calming(s, Step(s, a))
  {
    if IsWorkerAction(a) && a.worker in s.workers {
      WorkerCalming(s, a, a.worker, s.workers[a.worker]);
    }
  }

  /** A finisher's failure write turns a persisted submission into a failure exactly when it goes through. */
  lemma FailureHitsSubmission(s: System, w: nat, fault: Fault)
    requires w in s.workers && s.workers[w].Failing? && Submitted(s.row)
    ensures Step(s, WriteFailure(w, fault)).row == if fault == Lost then s.row else Failed(s.workers[w].code)
  {
  }

  /** Only a failure write changes a persisted submission into a failure. */
  lemma SubmissionFailsByWrite(s: System, a: Action)
    requires Submitted(s.row) && Step(s, a).row.Failed?
    ensures a.WriteFailure? && a.worker in s.workers && s.workers[a.worker].Failing?
    ensures Step(s, a).row == Failed(s.workers[a.worker].code)
  {
  }

  /** As long as no caller throws before its claim is decided, only the three evidence codes ever fail a submission that
      has been persisted. */
  lemma OnlyEvidenceFailsASubmission(actions: seq<Action>, a: Action)
    requires Admissible(Idle, actions, Step, (s: System, a: Action) => QuietClaim(a))
    requires var s := Fold(Idle, actions, Step); Submitted(s.row) && Step(s, a).row.Failed?
    ensures Step(Fold(Idle, actions, Step), a).row.code in {ExecutionFailed, ExecutionReverted, DeltaNotPositive}
  {
    var inv := (s: System) => Inv(s) && Calm(s);
    var ok := (s: System, a: Action) => QuietClaim(a);
    forall s: System, a: Action | inv(s) && ok(s, a) ensures inv(Step(s, a)) {
      StepKeeps(s, a);
      StepCalm(s, a);
    }
    InvariantWhen(Idle, actions, Step, ok, inv);
    var s := Fold(Idle, actions, Step);
    SubmissionFailsByWrite(s, a);
    assert CalmWorker(s, s.workers[a.worker]);
  }

  // Caller 0 owns the activation and executes it while caller 1, whose claim statement was lost, reads the row back.
  const OwnerStarts: seq<Action> := [Create, Arrive(0), Arrive(1), Read(0), Read(1), Begin(0, true, NoFault)]
  const SlowClaimant: seq<Action> := [Begin(1, true, Lost), Authorize(0, None, NoFault), ReadBack(1), Execute(0, None)]
  const StaleFailure: seq<Action> := [PersistSubmission(0, NoFault), WriteFailure(1, NoFault)]

  const OneClaimed: System := System(Running(0), 0, 0, map[0 := Claimed, 1 := Seen(Created(0))])
  const OneExecuted: System := System(Running(0), 0, 1, map[0 := Executed, 1 := Failing(Unexpected, Running(0))])

  lemma OwnerStartsRun()
    ensures Fold(Idle, OwnerStarts, Step) == OneClaimed
  {
    var states := [
      Idle,
      Idle.(row := Created(0)),
      System(Created(0), 0, 0, map[0 := Arrived]),
      System(Created(0), 0, 0, map[0 := Arrived, 1 := Arrived]),
      System(Created(0), 0, 0, map[0 := Seen(Created(0)), 1 := Arrived]),
      System(Created(0), 0, 0, map[0 := Seen(Created(0)), 1 := Seen(Created(0))]),
      OneClaimed];
    assert states[1] == Step(states[0], OwnerStarts[0]);
    assert states[2] == Step(states[1], OwnerStarts[1]);
    assert states[3] == Step(states[2], OwnerStarts[2]);
    assert states[4] == Step(states[3], OwnerStarts[3]);
    assert states[5] == Step(states[4], OwnerStarts[4]);
    assert states[6] == Step(states[5], OwnerStarts[5]);
    FoldTrace(states, OwnerStarts, Step);
  }

  const OneCaught: System := System(Running(0), 0, 0, map[0 := Authorized, 1 := Caught(Unexpected)])

  lemma SlowClaimantStarts()
    ensures Fold(OneClaimed, SlowClaimant[..2], Step) == OneCaught
  {
    var lost := OneClaimed.(workers := map[0 := Claimed, 1 := Caught(Unexpected)]);
    assert Step(OneClaimed, SlowClaimant[0]) == lost && Step(lost, SlowClaimant[1]) == OneCaught;
    FoldTwo(OneClaimed, SlowClaimant[0], SlowClaimant[1], Step);
    assert SlowClaimant[..2] == [SlowClaimant[0], SlowClaimant[1]];
  }

  lemma SlowClaimantReads()
    ensures Fold(OneCaught, SlowClaimant[2..], Step) == OneExecuted
  {
    var stale := OneCaught.(workers := map[0 := Authorized, 1 := Failing(Unexpected, Running(0))]);
    assert Step(OneCaught, SlowClaimant[2]) == stale && Step(stale, SlowClaimant[3]) == OneExecuted;
    FoldTwo(OneCaught, SlowClaimant[2], SlowClaimant[3], Step);
    assert SlowClaimant[2..] == [SlowClaimant[2], SlowClaimant[3]];
  }

  lemma SlowClaimantRun()
    ensures Fold(OneClaimed, SlowClaimant, Step) == OneExecuted
  {
    SlowClaimantStarts();
    SlowClaimantReads();
    FoldAppend(OneClaimed, SlowClaimant[..2], SlowClaimant[2..], Step);
    assert SlowClaimant[..2] + SlowClaimant[2..] == SlowClaimant;
  }

  const OneSubmitted: System := System(ChainSubmitted, 0, 1, map[0 := Confirming(true), 1 := Failing(Unexpected, Running(0))])

  lemma StaleFailureRun()
    ensures Fold(OneExecuted, StaleFailure[..1], Step) == OneSubmitted
    ensures Fold(OneExecuted, StaleFailure, Step).row == Failed(Unexpected)
  {
  }

  /** The condition is needed: a caller whose claim statement was lost reads the row back as running and later fails the
      submission its owner has persisted in between, with a code that is no evidence. */
  lemma StaleFailureFailsASubmission()
    ensures var s := Fold(Idle, OwnerStarts + SlowClaimant + StaleFailure[..1], Step);
            var t := Fold(Idle, OwnerStarts + SlowClaimant + StaleFailure, Step);
            Submitted(s.row) && s.executed == 1 && t.row == Failed(Unexpected) && !TerminalEvidence(Unexpected)
  {
    OwnerStartsRun();
    SlowClaimantRun();
    StaleFailureRun();
    FoldAppend(Idle, OwnerStarts, SlowClaimant, Step);
    FoldAppend(Idle, OwnerStarts + SlowClaimant, StaleFailure[..1], Step);
    FoldAppend(Idle, OwnerStarts + SlowClaimant, StaleFailure, Step);
  }

  /** A failure that is no evidence was decided on a read that showed no submission. */
  ghost predicate ReadsJustify(s: System) {
    forall w :: w in s.workers ==> JustifiedRead(s.workers[w])
  }

  predicate JustifiedRead(at: Worker) {
    at.Failing? && !TerminalEvidence(at.code) ==> !Submitted(at.seen)
  }

  /** Everyone but the acting caller is where it was. */
  lemma OthersStayJustified(s: System, t: System, w: nat)
    requires ReadsJustify(s)
    requires forall v :: v in t.workers && v != w ==> v in s.workers && t.workers[v] == s.workers[v]
    requires w in t.workers ==> JustifiedRead(t.workers[w])
    ensures ReadsJustify(t)
  {
  }

  lemma CallerJustifies(s: System, a: Action, w: nat, at: Worker)
    requires JustifiedRead(at) && w in s.workers && s.workers[w] == at
    ensures var t := WorkerStep(s, a, w, at); w in t.workers ==> JustifiedRead(t.workers[w])
  {
  }

  lemma OnlyCallerMoves(s: System, a: Action, w: nat, at: Worker, v: nat)
    requires w in s.workers && s.workers[w] == at && v != w && v in WorkerStep(s, a, w, at).workers
    ensures v in s.workers && WorkerStep(s, a, w, at).workers[v] == s.workers[v]
  {
  }

  lemma WorkerStepJustifies(s: System, a: Action, w: nat, at: Worker)
    requires ReadsJustify(s) && w in s.workers && s.workers[w] == at
    ensures ReadsJustify(WorkerStep(s, a, w, at))
  {
    var t := WorkerStep(s, a, w, at);
    CallerJustifies(s, a, w, at);
    forall v | v in t.workers && v != w ensures v in s.workers && t.workers[v] == s.workers[v] {
      OnlyCallerMoves(s, a, w, at, v);
    }
    OthersStayJustified(s, t, w);
  }

  lemma OutsideJustifies(s: System, a: Action)
    requires ReadsJustify(s) && !IsWorkerAction(a)
    ensures ReadsJustify(Step(s, a))
  {
    if a.Arrive? || a.Die? { OthersStayJustified(s, Step(s, a), a.worker); }
  }

  lemma StepJustifies(s: System, a: Action)
    requires ReadsJustify(s)
    ensures ReadsJustify(Step(s, a))
  {
    if !IsWorkerAction(a) {
      OutsideJustifies(s, a);
    } else if a.worker in s.workers {
      WorkerStepJustifies(s, a, a.worker, s.workers[a.worker]);
    }
  }

  /** In every run, with or without faults: a failure write whose read-back is still current only fails a submission with
      evidence. Any other failure of a submission comes from a read made before the submission was persisted. */
  lemma CurrentReadsFailWithEvidence(actions: seq<Action>, a: Action)
    requires var s := Fold(Idle, actions, Step); Submitted(s.row) && Step(s, a).row.Failed?
    ensures var s := Fold(Idle, actions, Step);
            && a.WriteFailure? && a.worker in s.workers && s.workers[a.worker].Failing?
            && (TerminalEvidence(Step(s, a).row.code) || !Submitted(s.workers[a.worker].seen))
  {
    forall s: System, a: Action | ReadsJustify(s) ensures ReadsJustify(Step(s, a)) {
      StepJustifies(s, a);
    }
    Invariant(Idle, actions, Step, s => ReadsJustify(s));
    var s := Fold(Idle, actions, Step);
    SubmissionFailsByWrite(s, a);
    assert JustifiedRead(s.workers[a.worker]);
  }

  // ---- exactly when a submission can still be failed without evidence ----

  predicate FailingWithoutEvidence(at: Worker) {
    at.Failing? && !TerminalEvidence(at.code)
  }

  /** This step fails a persisted submission with a code that is no evidence. */
  predicate FailsWithoutEvidence(s: System, a: Action) {
    Submitted(s.row) && Step(s, a).row.Failed? && !TerminalEvidence(Step(s, a).row.code)
  }

  /** In any state, some step does so exactly when a caller is about to write such a failure. */
  lemma NextStepFailsExactly(s: System)
    requires Submitted(s.row)
    ensures (exists a :: FailsWithoutEvidence(s, a))
            <==> (exists w :: w in s.workers && FailingWithoutEvidence(s.workers[w]))
  {
    if a :| FailsWithoutEvidence(s, a) {
      SubmissionFailsByWrite(s, a);
      assert FailingWithoutEvidence(s.workers[a.worker]);
    }
    if w :| w in s.workers && FailingWithoutEvidence(s.workers[w]) {
      FailureHitsSubmission(s, w, NoFault);
      assert FailsWithoutEvidence(s, WriteFailure(w, NoFault));
    }
  }

  /** Some continuation fails a persisted submission without evidence. */
  ghost predicate AtRisk(s: System) {
    exists actions, a :: FailsWithoutEvidence(Fold(s, actions, Step), a)
  }

  /** The caller can still get a submission written down. */
  predicate CanSubmit(s: System, at: Worker) {
    && s.row.Running?
    && (at.Executed? || at.Resubmitting? || at.Authorized? || (at.Claimed? && s.row.startedAt >= s.clock - LEASE))
  }

  predicate StillClaimable(s: System) {
    s.row.Absent? || (s.row.Created? && s.row.at >= s.clock - LEASE)
  }

  /** The row can still be claimed, or its claimant can still submit, or it is submitted and a caller that read it back too
      early is about to fail it. */
  ghost predicate Threatened(s: System) {
    || StillClaimable(s)
    || (exists w :: w in s.workers && CanSubmit(s, s.workers[w]))
    || (Submitted(s.row) && exists w :: w in s.workers && FailingWithoutEvidence(s.workers[w]))
  }

  lemma RiskNow(s: System, a: Action)
    requires FailsWithoutEvidence(s, a)
    ensures AtRisk(s)
  {
    assert Fold(s, [], Step) == s;
    assert FailsWithoutEvidence(Fold(s, [], Step), a);
  }

  lemma RiskLater(s: System, a: Action)
    requires AtRisk(Step(s, a))
    ensures AtRisk(s)
  {
    var rest, last :| FailsWithoutEvidence(Fold(Step(s, a), rest, Step), last);
    FoldAppend(s, [a], rest, Step);
    assert Fold(s, [], Step) == s && Fold(s, [a], Step) == Step(s, a);
    assert FailsWithoutEvidence(Fold(s, [a] + rest, Step), last);
  }

  lemma {:induction false} UnusedNumber(used: set<nat>) returns (n: nat)
    ensures n !in used && forall k :: k in used ==> k < n
  {
    if used == {} {
      n := 0;
    } else {
      var k :| k in used;
      var above := UnusedNumber(used - {k});
      n := if above > k then above else k + 1;
      forall j | j in used ensures j < n {
        assert j == k || j in used - {k};
      }
    }
  }

  /** A caller that is about to fail the row, and an owner that gets its submission written down first. */
  lemma SubmittingIsRisky(s: System, owner: nat, other: nat)
    requires owner in s.workers && other in s.workers && owner != other
    requires CanSubmit(s, s.workers[owner]) && FailingWithoutEvidence(s.workers[other])
    ensures AtRisk(s)
    decreases if s.workers[owner].Claimed? then 2 else if s.workers[owner].Authorized? then 1 else 0
  {
    if s.workers[owner].Claimed? {
      var a := Authorize(owner, None, NoFault);
      SubmittingIsRisky(Step(s, a), owner, other);
      RiskLater(s, a);
    } else if s.workers[owner].Authorized? {
      var a := Execute(owner, None);
      SubmittingIsRisky(Step(s, a), owner, other);
      RiskLater(s, a);
    } else {
      var a := PersistSubmission(owner, NoFault);
      FailureHitsSubmission(Step(s, a), other, NoFault);
      RiskNow(Step(s, a), WriteFailure(other, NoFault));
      RiskLater(s, a);
    }
  }

  /** While the owner can still submit, any further caller that is refused its session and reads the row back is enough. */
  lemma OwnerIsRisky(s: System, owner: nat)
    requires owner in s.workers && CanSubmit(s, s.workers[owner])
    ensures AtRisk(s)
  {
    var v := UnusedNumber(s.workers.Keys);
    var s1 := Go(s, v, Arrived);
    var s2 := Go(s1, v, Seen(s.row));
    var s3 := Go(s2, v, Caught(SessionUnavailable));
    var s4 := Go(s3, v, Failing(SessionUnavailable, s.row));
    assert Step(s, Arrive(v)) == s1 && Step(s1, Read(v)) == s2;
    assert Step(s2, Begin(v, false, NoFault)) == s3 && Step(s3, ReadBack(v)) == s4;
    SubmittingIsRisky(s4, owner, v);
    RiskLater(s3, ReadBack(v));
    RiskLater(s2, Begin(v, false, NoFault));
    RiskLater(s1, Read(v));
    RiskLater(s, Arrive(v));
  }

  lemma CreatedIsRisky(s: System)
    requires s.row.Created? && s.row.at >= s.clock - LEASE
    ensures AtRisk(s)
  {
    var w := UnusedNumber(s.workers.Keys);
    var s1 := Go(s, w, Arrived);
    var s2 := Go(s1, w, Seen(s.row));
    var s3 := Go(s2.(row := Running(s.clock)), w, Claimed);
    assert Step(s, Arrive(w)) == s1 && Step(s1, Read(w)) == s2;
    assert Step(s2, Begin(w, true, NoFault)) == s3;
    OwnerIsRisky(s3, w);
    RiskLater(s2, Begin(w, true, NoFault));
    RiskLater(s1, Read(w));
    RiskLater(s, Arrive(w));
  }

  lemma ThreatenedIsRisky(s: System)
    requires Threatened(s)
    ensures AtRisk(s)
  {
    if s.row.Absent? {
      CreatedIsRisky(Step(s, Create));
      RiskLater(s, Create);
    } else if StillClaimable(s) {
      CreatedIsRisky(s);
    } else if w :| w in s.workers && CanSubmit(s, s.workers[w]) {
      OwnerIsRisky(s, w);
    } else {
      NextStepFailsExactly(s);
      var a :| FailsWithoutEvidence(s, a);
      RiskNow(s, a);
    }
  }

  lemma LaterStepStaysSafe(s: System, a: Action, w: nat, at: Worker)
    requires !Threatened(s) && w in s.workers && s.workers[w] == at
    ensures !Threatened(LaterStep(s, a, w, at))
  {
    assert !CanSubmit(s, at) && (Submitted(s.row) ==> !FailingWithoutEvidence(at));
  }

  lemma WorkerStepStaysSafe(s: System, a: Action, w: nat, at: Worker)
    requires !Threatened(s) && w in s.workers && s.workers[w] == at
    ensures !Threatened(WorkerStep(s, a, w, at))
  {
    assert !CanSubmit(s, at) && (Submitted(s.row) ==> !FailingWithoutEvidence(at));
    LaterStepStaysSafe(s, a, w, at);
  }

  /** What is out of danger stays so. */
  lemma StepStaysSafe(s: System, a: Action)
    requires !Threatened(s)
    ensures !Threatened(Step(s, a))
  {
    if IsWorkerAction(a) && a.worker in s.workers {
      WorkerStepStaysSafe(s, a, a.worker, s.workers[a.worker]);
    }
  }

  lemma {:induction false} RunStaysSafe(s: System, actions: seq<Action>)
    requires !Threatened(s)
    ensures !Threatened(Fold(s, actions, Step))
    decreases |actions|
  {
    if actions != [] {
      RunStaysSafe(s, actions[..|actions| - 1]);
      StepStaysSafe(Fold(s, actions[..|actions| - 1], Step), actions[|actions| - 1]);
    }
  }

  /** From any state, some continuation fails a persisted submission without evidence exactly when the state is threatened:
      from the moment a row is created until its submission is persisted, as long as its lease and its owner last, and
      afterwards only through a caller that has already read the row back. */
  lemma AtRiskExactly(s: System)
    ensures AtRisk(s) <==> Threatened(s)
  {
    if Threatened(s) {
      ThreatenedIsRisky(s);
    } else if AtRisk(s) {
      var actions, a :| FailsWithoutEvidence(Fold(s, actions, Step), a);
      RunStaysSafe(s, actions);
      NextStepFailsExactly(Fold(s, actions, Step));
      assert false;
    }
  }

  /** The shortest way: a caller that was caught reads the row back before the owner persists its submission, and writes its
      failure afterwards. */
  lemma StaleReadFailsASubmission(s: System, owner: nat, other: nat)
    requires owner in s.workers && s.workers[owner].Executed? && s.row.Running?
    requires other in s.workers && s.workers[other].Caught? && !TerminalEvidence(s.workers[other].code)
    ensures var code := s.workers[other].code;
            && Fold(s, [ReadBack(other), PersistSubmission(owner, NoFault)], Step).row == ChainSubmitted
            && Fold(s, [ReadBack(other), PersistSubmission(owner, NoFault), WriteFailure(other, NoFault)], Step).row == Failed(code)
  {
    var code, read, kept := s.workers[other].code, ReadBack(other), PersistSubmission(owner, NoFault);
    var stale := Go(s, other, Failing(code, s.row));
    var submitted := Go(stale.(row := ChainSubmitted), owner, Confirming(true));
    assert Step(s, read) == stale && Step(stale, kept) == submitted;
    FoldTwo(s, read, kept, Step);
    FailureHitsSubmission(submitted, other, NoFault);
    assert [read, kept, WriteFailure(other, NoFault)][..2] == [read, kept];
  }
}
