/** Any number of collector invocations working on one shadow-grid run at once, each of which may die at any step. */
module ShadowGridRuns {
  import opened Outcomes
  import opened Runs
  import opened ShadowGrid

  /** One invocation, after each of its waits. `now` is its arrival time, `view` the run as it knows it. */
  datatype Worker =
    | Arrived(now: Millis)
    | Loaded(now: Millis, view: seq<Event>)
    | Initialized(now: Millis, view: seq<Event>)
    | Sampling(now: Millis, view: seq<Event>)
    | Sampled(now: Millis, view: seq<Event>, at: Millis, source: Source)
    | Recording(now: Millis, view: seq<Event>, at: Millis, source: Source)
    | Filling(now: Millis, view: seq<Event>, at: Millis, fills: seq<nat>, riskExit: bool)
    | Verifying(view: seq<Event>, riskExit: bool)
    | Finishing(view: seq<Event>, kind: Kind)
    | Voiding(view: seq<Event>, at: Millis, reason: VoidReason)

  datatype Collector = Collector(ledger: seq<Event>, clock: Millis, workers: map<nat, Worker>)

  datatype Action =
    | Wait(millis: nat)
    | Arrive(worker: nat)
    | Open(worker: nat, start: Millis)
    | Load(worker: nat)
    | Resume(worker: nat, sourceTime: Millis, committedAt: Millis, actionable: bool)
    | Decide(worker: nat)
    | Sample(worker: nat, source: Option<Source>)
    | Check(worker: nat)
    | Record(worker: nat, fills: seq<nat>, riskExit: bool)
    | RecordFill(worker: nat)
    | Judge(worker: nat)
    | Verify(worker: nat, intact: bool)
    | Finish(worker: nat)
    | Sweep(worker: nat)
    | AppendVoid(worker: nat)
    | Die(worker: nat)

  function End(s: Collector, w: nat): Collector {
    s.(workers := s.workers - {w})
  }

  function Go(s: Collector, w: nat, next: Worker): Collector {
    s.(workers := s.workers[w := next])
  }

  /** Append, then go on with the new view, or die on a conflict. */
  function AppendThen(s: Collector, w: nat, view: seq<Event>, e: Event, next: seq<Event> -> Worker): Collector {
    var (ledger, seen) := Append(s.ledger, view, e);
    var t := s.(ledger := ledger);
    if seen.Some? then Go(t, w, next(seen.value)) else End(t, w)
  }

  function AppendLast(s: Collector, w: nat, view: seq<Event>, e: Event): Collector {
    End(s.(ledger := Append(s.ledger, view, e).0), w)
  }

  function ResumeStep(s: Collector, w: nat, now: Millis, view: seq<Event>, plan: Kind, committedAt: Millis): Collector {
    if view == [] || IsTerminal(view) then End(s, w)
    else
      match Precommitment(view)
      case None =>
        if |view| != 1 then End(s, w) else AppendThen(s, w, view, Event(plan, committedAt), seen => Loaded(now, seen))
      case Some(committed) =>
        if committed.actionable then Go(s, w, Initialized(now, view))
        else AppendLast(s, w, view, Event(Refused, RefusalTime(view, s.clock)))
  }

  function DecideStep(s: Collector, w: nat, now: Millis, view: seq<Event>): Collector {
    if Late(view, now) then Go(s, w, Voiding(view, now, LateSample))
    else if Early(view, now) then End(s, w)
    else Go(s, w, Sampling(now, view))
  }

  function CheckStep(s: Collector, w: nat, now: Millis, view: seq<Event>, at: Millis, source: Source): Collector {
    if Max(at, s.clock) > SampleDeadline(view) then Go(s, w, Voiding(view, s.clock, LateCompletion))
    else if !Advances(view, source) then Go(s, w, Voiding(view, now, NoAdvance))
    else Go(s, w, Recording(now, view, at, source))
  }

  function FillStep(s: Collector, w: nat, now: Millis, view: seq<Event>, at: Millis, fills: seq<nat>, riskExit: bool): Collector
    requires fills != []
  {
    AppendThen(s, w, view, Event(Fill(fills[0]), at), seen => Filling(now, seen, at, fills[1..], riskExit))
  }

  function JudgeStep(s: Collector, w: nat, now: Millis, view: seq<Event>, riskExit: bool): Collector {
    if !riskExit && s.clock < HorizonEnd(view) - EARLY_TOLERANCE then End(s, w)
    else if !riskExit && Samples(view) < 3 then Go(s, w, Voiding(view, now, HorizonShort))
    else Go(s, w, Verifying(view, riskExit))
  }

  function VerifyStep(s: Collector, w: nat, view: seq<Event>, riskExit: bool, intact: bool): Collector {
    Go(s, w, if !intact then Voiding(view, s.clock, RevalidationFailed)
             else Finishing(view, if riskExit then RiskExit else Closed))
  }

  /** The sweep voids an open run past its deadline, at a time after the last event. */
  function SweepStep(s: Collector, w: nat, now: Millis, view: seq<Event>): Collector {
    if view == [] || IsTerminal(view) || now <= AbandonmentDeadline(view) || s.clock <= Last(view).recordedAt then End(s, w)
    else Go(s, w, Voiding(view, s.clock, Abandoned))
  }

  function WorkerStep(s: Collector, a: Action, w: nat, at: Worker): Collector {
    if a.Load? && at.Arrived? then Go(s, w, Loaded(at.now, s.ledger))
    else if a.Open? && at.Arrived? then
      if a.start > s.clock then End(s, w)
      else AppendThen(s, w, [], Event(EpochStarted(a.start), a.start), seen => Loaded(at.now, seen))
    else if a.Resume? && at.Loaded? then
      ResumeStep(s, w, at.now, at.view, Precommitted(a.sourceTime, a.actionable), a.committedAt)
    else if a.Decide? && at.Initialized? then DecideStep(s, w, at.now, at.view)
    else if a.Sample? && at.Sampling? then
      Go(s, w, if a.source.Some? then Sampled(at.now, at.view, s.clock, a.source.value)
                else Voiding(at.view, s.clock, SourceUnavailable))
    else if a.Check? && at.Sampled? then CheckStep(s, w, at.now, at.view, at.at, at.source)
    else if a.Record? && at.Recording? then
      var e := Event(Observed(at.source.block, at.source.blockHash, at.source.blockTime), at.at);
      AppendThen(s, w, at.view, e, seen => Filling(at.now, seen, at.at, a.fills, a.riskExit))
    else if a.RecordFill? && at.Filling? && at.fills != [] then FillStep(s, w, at.now, at.view, at.at, at.fills, at.riskExit)
    else if a.Judge? && at.Filling? && at.fills == [] then JudgeStep(s, w, at.now, at.view, at.riskExit)
    else if a.Verify? && at.Verifying? then VerifyStep(s, w, at.view, at.riskExit, a.intact)
    else if a.Finish? && at.Finishing? then AppendLast(s, w, at.view, Event(at.kind, s.clock))
    else if a.Sweep? && at.Loaded? then SweepStep(s, w, at.now, at.view)
    else if a.AppendVoid? && at.Voiding? then
      if IsTerminal(at.view) then End(s, w) else AppendLast(s, w, at.view, Event(Void(at.reason), at.at))
    else End(s, w)
  }

  function Step(s: Collector, a: Action): Collector {
    match a
    case Wait(millis) => s.(clock := s.clock + millis)
    case Arrive(w) => if w in s.workers then s else Go(s, w, Arrived(s.clock))
    case Die(w) => End(s, w)
    case _ => if a.worker in s.workers then WorkerStep(s, a, a.worker, s.workers[a.worker]) else s
  }

  // ---- the invariant ----

  ghost predicate Knows(s: Collector, view: seq<Event>) {
    view <= s.ledger && Good(view)
  }

  /** The view is committed to an actionable plan. */
  ghost predicate Follows(s: Collector, view: seq<Event>) {
    Knows(s, view) && PlanActionable(view)
  }

  ghost predicate WorkerInv(s: Collector, at: Worker) {
    match at
    case Arrived(now) => now <= s.clock
    case Loaded(now, view) => now <= s.clock && Knows(s, view)
    case Initialized(now, view) => now <= s.clock && Follows(s, view)
    case Sampling(now, view) => now <= s.clock && Follows(s, view) && !Late(view, now) && !Early(view, now)
    case Sampled(now, view, t, _) => now <= t <= s.clock && Follows(s, view) && !Late(view, now) && !Early(view, now)
    case Recording(_, view, t, source) => Knows(s, view) && SampleFits(view, source.block, t)
    case Filling(_, view, _, _, _) => Knows(s, view)
    case Verifying(view, riskExit) => Knows(s, view) && (riskExit || Samples(view) >= 3)
    case Finishing(view, kind) => Knows(s, view) && (kind.RiskExit? || (kind.Closed? && Samples(view) >= 3))
    case Voiding(view, _, _) => Knows(s, view)
  }

  ghost predicate Inv(s: Collector) {
    Good(s.ledger) && forall w :: w in s.workers ==> WorkerInv(s, s.workers[w])
  }

  /** A longer ledger and a later clock leave every other worker's knowledge true. */
  lemma WorkerInvStable(s: Collector, t: Collector, at: Worker)
    requires WorkerInv(s, at) && s.ledger <= t.ledger && s.clock <= t.clock
    ensures WorkerInv(t, at)
  {
  }

  lemma GoKeeps(s: Collector, w: nat, next: Worker)
    requires Inv(s) && WorkerInv(s, next)
    ensures Inv(Go(s, w, next))
  {
  }

  lemma EndKeeps(s: Collector, w: nat)
    requires Inv(s)
    ensures Inv(End(s, w))
  {
  }

  /** An append on a true view keeps the run well recorded if the event fits that view. */
  lemma AppendKeeps(s: Collector, view: seq<Event>, e: Event)
    requires Inv(s) && Knows(s, view) && (MayFollow(view, e) ==> Fits(view, e))
    ensures var (ledger, seen) := Append(s.ledger, view, e);
            && Inv(s.(ledger := ledger))
            && (seen.Some? ==> seen.value == view + [e] && Knows(s.(ledger := ledger), seen.value))
  {
    var (ledger, seen) := Append(s.ledger, view, e);
    var t := s.(ledger := ledger);
    AppendOnly(s.ledger, view, e);
    if ledger != s.ledger { GoodAppend(s.ledger, e); }
    if seen.Some? { GoodPrefix(ledger, seen.value); }
    forall v | v in t.workers ensures WorkerInv(t, t.workers[v]) {
      WorkerInvStable(s, t, s.workers[v]);
    }
  }

  lemma AppendLastKeeps(s: Collector, w: nat, view: seq<Event>, e: Event)
    requires Inv(s) && Knows(s, view) && (MayFollow(view, e) ==> Fits(view, e))
    ensures Inv(AppendLast(s, w, view, e))
  {
    AppendKeeps(s, view, e);
    EndKeeps(s.(ledger := Append(s.ledger, view, e).0), w);
  }

  lemma AppendThenKeeps(s: Collector, w: nat, view: seq<Event>, e: Event, next: seq<Event> -> Worker)
    requires Inv(s) && Knows(s, view) && (MayFollow(view, e) ==> Fits(view, e))
    requires forall t: Collector, seen :: t.clock == s.clock && Knows(t, seen) ==> WorkerInv(t, next(seen))
    ensures Inv(AppendThen(s, w, view, e, next))
  {
    AppendKeeps(s, view, e);
    var (ledger, seen) := Append(s.ledger, view, e);
    var t := s.(ledger := ledger);
    if seen.Some? { GoKeeps(t, w, next(seen.value)); } else { EndKeeps(t, w); }
  }

  lemma ResumeKeeps(s: Collector, w: nat, now: Millis, view: seq<Event>, plan: Kind, committedAt: Millis)
    requires Inv(s) && Knows(s, view) && now <= s.clock && plan.Precommitted?
    ensures Inv(ResumeStep(s, w, now, view, plan, committedAt))
  {
    EndKeeps(s, w);
    if view != [] && !IsTerminal(view) {
      if Precommitment(view).None? {
        AppendThenKeeps(s, w, view, Event(plan, committedAt), seen => Loaded(now, seen));
      } else {
        if PlanActionable(view) { GoKeeps(s, w, Initialized(now, view)); }
        AppendLastKeeps(s, w, view, Event(Refused, RefusalTime(view, s.clock)));
      }
    }
  }

  lemma CheckKeeps(s: Collector, w: nat, now: Millis, view: seq<Event>, at: Millis, source: Source)
    requires Inv(s) && WorkerInv(s, Sampled(now, view, at, source))
    ensures Inv(CheckStep(s, w, now, view, at, source))
  {
    GoKeeps(s, w, Voiding(view, s.clock, LateCompletion));
    GoKeeps(s, w, Voiding(view, now, NoAdvance));
    if Max(at, s.clock) <= SampleDeadline(view) && Advances(view, source) {
      SamplingIsInWindow(view, now, at);
      GoKeeps(s, w, Recording(now, view, at, source));
    }
  }

  lemma RecordKeeps(s: Collector, w: nat, at: Worker, fills: seq<nat>, riskExit: bool)
    requires Inv(s) && at.Recording? && WorkerInv(s, at)
    ensures Inv(AppendThen(s, w, at.view, Event(Observed(at.source.block, at.source.blockHash, at.source.blockTime), at.at),
                           seen => Filling(at.now, seen, at.at, fills, riskExit)))
  {
    AppendThenKeeps(s, w, at.view, Event(Observed(at.source.block, at.source.blockHash, at.source.blockTime), at.at),
                    seen => Filling(at.now, seen, at.at, fills, riskExit));
  }

  lemma FillKeeps(s: Collector, w: nat, now: Millis, view: seq<Event>, at: Millis, fills: seq<nat>, riskExit: bool)
    requires Inv(s) && Knows(s, view) && fills != []
    ensures Inv(FillStep(s, w, now, view, at, fills, riskExit))
  {
    AppendThenKeeps(s, w, view, Event(Fill(fills[0]), at), seen => Filling(now, seen, at, fills[1..], riskExit));
  }

  lemma JudgeKeeps(s: Collector, w: nat, now: Millis, view: seq<Event>, riskExit: bool)
    requires Inv(s) && Knows(s, view)
    ensures Inv(JudgeStep(s, w, now, view, riskExit))
  {
    EndKeeps(s, w);
    GoKeeps(s, w, Voiding(view, now, HorizonShort));
    if riskExit || Samples(view) >= 3 { GoKeeps(s, w, Verifying(view, riskExit)); }
  }

  lemma VerifyKeeps(s: Collector, w: nat, view: seq<Event>, riskExit: bool, intact: bool)
    requires Inv(s) && WorkerInv(s, Verifying(view, riskExit))
    ensures Inv(VerifyStep(s, w, view, riskExit, intact))
  {
    GoKeeps(s, w, Voiding(view, s.clock, RevalidationFailed));
    GoKeeps(s, w, Finishing(view, if riskExit then RiskExit else Closed));
  }

  lemma FinishKeeps(s: Collector, w: nat, view: seq<Event>, kind: Kind)
    requires Inv(s) && WorkerInv(s, Finishing(view, kind))
    ensures Inv(AppendLast(s, w, view, Event(kind, s.clock)))
  {
    SamplesBounded(view);
    AppendLastKeeps(s, w, view, Event(kind, s.clock));
  }

  lemma OpenKeeps(s: Collector, w: nat, now: Millis, start: Millis)
    requires Inv(s) && now <= s.clock
    ensures Inv(AppendThen(s, w, [], Event(EpochStarted(start), start), seen => Loaded(now, seen)))
  {
    AppendThenKeeps(s, w, [], Event(EpochStarted(start), start), seen => Loaded(now, seen));
  }

  predicate IsLaterAction(a: Action) {
    a.Record? || a.RecordFill? || a.Judge? || a.Verify? || a.Finish? || a.Sweep? || a.AppendVoid?
  }

  lemma WorkerStepKeeps(s: Collector, a: Action, w: nat, at: Worker)
    requires Inv(s) && WorkerInv(s, at)
    ensures Inv(WorkerStep(s, a, w, at))
  {
    EndKeeps(s, w);
    if a.Load? && at.Arrived? {
      GoKeeps(s, w, Loaded(at.now, s.ledger));
    } else if a.Open? && at.Arrived? {
      OpenKeeps(s, w, at.now, a.start);
    } else if a.Resume? && at.Loaded? {
      ResumeKeeps(s, w, at.now, at.view, Precommitted(a.sourceTime, a.actionable), a.committedAt);
    } else if a.Decide? && at.Initialized? {
      GoKeeps(s, w, Voiding(at.view, at.now, LateSample));
      if !Late(at.view, at.now) && !Early(at.view, at.now) { GoKeeps(s, w, Sampling(at.now, at.view)); }
    } else if a.Sample? && at.Sampling? {
      GoKeeps(s, w, if a.source.Some? then Sampled(at.now, at.view, s.clock, a.source.value)
                    else Voiding(at.view, s.clock, SourceUnavailable));
    } else if a.Check? && at.Sampled? {
      CheckKeeps(s, w, at.now, at.view, at.at, at.source);
    } else if IsLaterAction(a) {
      LaterStepKeeps(s, a, w, at);
    }
  }

  lemma LaterStepKeeps(s: Collector, a: Action, w: nat, at: Worker)
    requires Inv(s) && WorkerInv(s, at)
    requires IsLaterAction(a)
    ensures Inv(WorkerStep(s, a, w, at))
  {
    EndKeeps(s, w);
    if a.Record? && at.Recording? {
      RecordKeeps(s, w, at, a.fills, a.riskExit);
    } else if a.RecordFill? && at.Filling? && at.fills != [] {
      FillKeeps(s, w, at.now, at.view, at.at, at.fills, at.riskExit);
    } else if a.Judge? && at.Filling? && at.fills == [] {
      JudgeKeeps(s, w, at.now, at.view, at.riskExit);
    } else if a.Verify? && at.Verifying? {
      VerifyKeeps(s, w, at.view, at.riskExit, a.intact);
    } else if a.Finish? && at.Finishing? {
      FinishKeeps(s, w, at.view, at.kind);
    } else if a.Sweep? && at.Loaded? {
      GoKeeps(s, w, Voiding(at.view, s.clock, Abandoned));
    } else if a.AppendVoid? && at.Voiding? {
      AppendLastKeeps(s, w, at.view, Event(Void(at.reason), at.at));
    }
  }

  lemma StepKeeps(s: Collector, a: Action)
    requires Inv(s)
    ensures Inv(Step(s, a))
  {
    if a.Wait? {
      var t := Step(s, a);
      forall v | v in t.workers ensures WorkerInv(t, t.workers[v]) {
        WorkerInvStable(s, t, s.workers[v]);
      }
    } else if a.Arrive? {
      if a.worker !in s.workers { GoKeeps(s, a.worker, Arrived(s.clock)); }
    } else if a.Die? {
      EndKeeps(s, a.worker);
    } else if a.worker in s.workers {
      WorkerStepKeeps(s, a, a.worker, s.workers[a.worker]);
    }
  }

  const Idle: Collector := Collector([], 0, map[])

  /** Every run of any number of collectors, sweeps and crashes records a run of the proper shape: at most three samples,
      each inside its own window, with strictly increasing blocks, and closed only with three. */
  lemma EveryRunIsWellRecorded(actions: seq<Action>)
    ensures Good(Fold(Idle, actions, Step).ledger)
  {
    forall s: Collector, a: Action | Inv(s) ensures Inv(Step(s, a)) {
      StepKeeps(s, a);
    }
    Invariant(Idle, actions, Step, s => Inv(s));
  }

  /** The ledger is append-only, and nothing is added after a terminal event. */
  lemma LedgerOnlyGrows(s: Collector, a: Action)
    ensures s.ledger <= Step(s, a).ledger
    ensures IsTerminal(s.ledger) ==> Step(s, a).ledger == s.ledger
  {
  }

  lemma {:induction false} TerminalIsFinal(s: Collector, actions: seq<Action>)
    ensures s.ledger <= Fold(s, actions, Step).ledger
    ensures IsTerminal(s.ledger) ==> Fold(s, actions, Step).ledger == s.ledger
    decreases |actions|
  {
    if actions != [] {
      var before := Fold(s, actions[..|actions| - 1], Step);
      TerminalIsFinal(s, actions[..|actions| - 1]);
      LedgerOnlyGrows(before, actions[|actions| - 1]);
    }
  }

  /** Once three samples are recorded there is never a fourth, whoever crashes and whoever comes next; and a run closed
      with a terminal event keeps its three. */
  lemma NoFourthSample(before: seq<Action>, after: seq<Action>)
    requires Samples(Fold(Idle, before, Step).ledger) == 3
    ensures Samples(Fold(Idle, before + after, Step).ledger) == 3
  {
    var s := Fold(Idle, before, Step);
    FoldAppend(Idle, before, after, Step);
    EveryRunIsWellRecorded(before + after);
    TerminalIsFinal(s, after);
    SamplesGrow(Fold(s, after, Step).ledger, s.ledger);
    SamplesBounded(Fold(s, after, Step).ledger);
  }
}
