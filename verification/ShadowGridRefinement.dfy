/** One collector invocation, as `ShadowGridCollector` computes it and the ledger store carries it out, is a run of the
    concurrent protocol of `ShadowGridRuns`: the two descriptions of the collector agree. */
module ShadowGridRefinement {
  import opened Outcomes
  import opened Runs
  import opened ShadowGrid
  import P = ShadowGridRuns
  import C = ShadowGridCollector

  /** The clock readings of an invocation come in the order in which it takes them. */
  ghost predicate InOrder(t: C.Tick) {
    t.now <= t.refusedAt && t.now <= t.sampledAt <= t.completedAt <= t.judgedAt <= t.finishedAt
  }

  /** Some steps of the protocol lead to this ledger. */
  ghost predicate Reaches(s: P.Collector, ledger: seq<Event>) {
    exists actions :: Fold(s, actions, P.Step).ledger == ledger
  }

  lemma Here(s: P.Collector)
    ensures Reaches(s, s.ledger)
  {
    assert Fold(s, [], P.Step) == s;
  }

  lemma Via(s: P.Collector, a: P.Action, ledger: seq<Event>)
    requires Reaches(P.Step(s, a), ledger)
    ensures Reaches(s, ledger)
  {
    var rest :| Fold(P.Step(s, a), rest, P.Step).ledger == ledger;
    FoldAppend(s, [a], rest, P.Step);
    assert Fold(s, [], P.Step) == s;
    assert Fold(s, [a] + rest, P.Step).ledger == ledger;
  }

  function At(s: P.Collector, time: Millis): P.Collector {
    s.(clock := time)
  }

  function Working(s: P.Collector, w: nat, at: P.Worker): P.Collector {
    s.(workers := s.workers[w := at])
  }

  /** Wait until `time`, then act. */
  lemma ViaAt(s: P.Collector, time: Millis, a: P.Action, ledger: seq<Event>)
    requires s.clock <= time && Reaches(P.Step(At(s, time), a), ledger)
    ensures Reaches(s, ledger)
  {
    Via(At(s, time), a, ledger);
    var wait := P.Wait(time - s.clock);
    assert P.Step(s, wait) == At(s, time);
    Via(s, wait, ledger);
  }

  lemma VoidingReaches(s: P.Collector, w: nat, view: seq<Event>, at: Millis, reason: VoidReason)
    ensures Reaches(Working(s, w, P.Voiding(view, at, reason)),
                    C.VoidRun(C.Progress(s.ledger, Some(view)), at, reason).ledger)
  {
    var v := Working(s, w, P.Voiding(view, at, reason));
    Here(P.Step(v, P.AppendVoid(w)));
    Via(v, P.AppendVoid(w), C.VoidRun(C.Progress(s.ledger, Some(view)), at, reason).ledger);
  }

  lemma FinishingReaches(s: P.Collector, w: nat, view: seq<Event>, kind: Kind)
    ensures Reaches(Working(s, w, P.Finishing(view, kind)), Append(s.ledger, view, Event(kind, s.clock)).0)
  {
    var f := Working(s, w, P.Finishing(view, kind));
    Here(P.Step(f, P.Finish(w)));
    Via(f, P.Finish(w), Append(s.ledger, view, Event(kind, s.clock)).0);
  }

  function AfterVerify(view: seq<Event>, time: Millis, riskExit: bool, intact: bool): P.Worker {
    if intact then P.Finishing(view, if riskExit then RiskExit else Closed) else P.Voiding(view, time, RevalidationFailed)
  }

  lemma VerifyStepIs(s: P.Collector, w: nat, view: seq<Event>, riskExit: bool, intact: bool)
    ensures P.Step(Working(s, w, P.Verifying(view, riskExit)), P.Verify(w, intact))
         == Working(s, w, AfterVerify(view, s.clock, riskExit, intact))
  {
  }

  lemma AfterVerifyReaches(s: P.Collector, w: nat, view: seq<Event>, t: C.Tick)
    requires s.clock == t.finishedAt && (t.riskExit || Samples(view) >= 3)
    requires t.riskExit || t.judgedAt >= HorizonEnd(view) - EARLY_TOLERANCE
    ensures Reaches(Working(s, w, AfterVerify(view, s.clock, t.riskExit, t.intact)),
                    C.Judged(C.Progress(s.ledger, Some(view)), t).ledger)
  {
    if t.intact {
      FinishingReaches(s, w, view, if t.riskExit then RiskExit else Closed);
    } else {
      VoidingReaches(s, w, view, t.finishedAt, RevalidationFailed);
    }
  }

  /** The samples are verified once more, at the end of a run. */
  lemma VerifyingReaches(s: P.Collector, w: nat, view: seq<Event>, t: C.Tick)
    requires s.clock <= t.finishedAt && (t.riskExit || Samples(view) >= 3)
    requires t.riskExit || t.judgedAt >= HorizonEnd(view) - EARLY_TOLERANCE
    ensures Reaches(Working(s, w, P.Verifying(view, t.riskExit)), C.Judged(C.Progress(s.ledger, Some(view)), t).ledger)
  {
    var u := At(s, t.finishedAt);
    AfterVerifyReaches(u, w, view, t);
    VerifyStepIs(u, w, view, t.riskExit, t.intact);
    assert At(Working(s, w, P.Verifying(view, t.riskExit)), t.finishedAt) == Working(u, w, P.Verifying(view, t.riskExit));
    ViaAt(Working(s, w, P.Verifying(view, t.riskExit)), t.finishedAt, P.Verify(w, t.intact),
          C.Judged(C.Progress(s.ledger, Some(view)), t).ledger);
  }

  lemma JudgeStepIs(s: P.Collector, w: nat, view: seq<Event>, t: C.Tick)
    requires s.clock == t.judgedAt
    ensures var u := P.Step(Working(s, w, P.Filling(t.now, view, t.sampledAt, [], t.riskExit)), P.Judge(w));
            if !t.riskExit && t.judgedAt < HorizonEnd(view) - EARLY_TOLERANCE then u.ledger == s.ledger
            else if !t.riskExit && Samples(view) < 3 then u == Working(s, w, P.Voiding(view, t.now, HorizonShort))
            else u == Working(s, w, P.Verifying(view, t.riskExit))
  {
  }

  lemma JudgingReaches(s: P.Collector, w: nat, view: seq<Event>, t: C.Tick)
    requires s.clock <= t.judgedAt <= t.finishedAt
    ensures Reaches(Working(s, w, P.Filling(t.now, view, t.sampledAt, [], t.riskExit)),
                    C.Judged(C.Progress(s.ledger, Some(view)), t).ledger)
  {
    var at, u := P.Filling(t.now, view, t.sampledAt, [], t.riskExit), At(s, t.judgedAt);
    JudgeStepIs(u, w, view, t);
    if !t.riskExit && t.judgedAt < HorizonEnd(view) - EARLY_TOLERANCE {
      Here(P.Step(Working(u, w, at), P.Judge(w)));
    } else if !t.riskExit && Samples(view) < 3 {
      VoidingReaches(u, w, view, t.now, HorizonShort);
    } else {
      VerifyingReaches(u, w, view, t);
    }
    assert At(Working(s, w, at), t.judgedAt) == Working(u, w, at);
    ViaAt(Working(s, w, at), t.judgedAt, P.Judge(w), C.Judged(C.Progress(s.ledger, Some(view)), t).ledger);
  }

  lemma {:induction false} FillsFromTheFront(p: C.Progress, fills: seq<nat>, at: Millis)
    requires fills != []
    ensures C.PutFills(p, fills, at) == C.PutFills(C.Put(p, Event(Fill(fills[0]), at)), fills[1..], at)
    decreases |fills|
  {
    var front := fills[..|fills| - 1];
    if front == [] {
      assert fills == [fills[0]] && fills[1..] == [];
      assert C.PutFills(p, front, at) == p;
    } else {
      FillsFromTheFront(p, front, at);
      assert front[1..] == fills[1..][..|fills[1..]| - 1];
    }
  }

  lemma FillStepIs(s: P.Collector, w: nat, view: seq<Event>, fills: seq<nat>, t: C.Tick)
    requires fills != []
    ensures var q := C.Put(C.Progress(s.ledger, Some(view)), Event(Fill(fills[0]), t.sampledAt));
            var u := P.Step(Working(s, w, P.Filling(t.now, view, t.sampledAt, fills, t.riskExit)), P.RecordFill(w));
            && u.ledger == q.ledger
            && (q.view.Some? ==>
                  u == Working(s.(ledger := q.ledger), w, P.Filling(t.now, q.view.value, t.sampledAt, fills[1..], t.riskExit)))
  {
  }

  lemma {:induction false} FillingReaches(s: P.Collector, w: nat, view: seq<Event>, fills: seq<nat>, t: C.Tick)
    requires s.clock <= t.judgedAt <= t.finishedAt
    ensures Reaches(Working(s, w, P.Filling(t.now, view, t.sampledAt, fills, t.riskExit)),
                    C.Judged(C.PutFills(C.Progress(s.ledger, Some(view)), fills, t.sampledAt), t).ledger)
    decreases |fills|
  {
    var p := C.Progress(s.ledger, Some(view));
    if fills == [] {
      JudgingReaches(s, w, view, t);
    } else {
      var v := Working(s, w, P.Filling(t.now, view, t.sampledAt, fills, t.riskExit));
      var q := C.Put(p, Event(Fill(fills[0]), t.sampledAt));
      FillsFromTheFront(p, fills, t.sampledAt);
      FillStepIs(s, w, view, fills, t);
      if q.view.Some? {
        FillingReaches(s.(ledger := q.ledger), w, q.view.value, fills[1..], t);
      } else {
        C.PutFillsGrow(q, fills[1..], t.sampledAt);
        Here(P.Step(v, P.RecordFill(w)));
      }
      Via(v, P.RecordFill(w), C.Judged(C.PutFills(p, fills, t.sampledAt), t).ledger);
    }
  }

  lemma RecordStepIs(s: P.Collector, w: nat, view: seq<Event>, t: C.Tick)
    requires t.source.Some?
    ensures var q := C.Put(C.Progress(s.ledger, Some(view)), C.ObservedEvent(t));
            var u := P.Step(Working(s, w, P.Recording(t.now, view, t.sampledAt, t.source.value)), P.Record(w, t.fills, t.riskExit));
            && u.ledger == q.ledger
            && (q.view.Some? ==>
                  u == Working(s.(ledger := q.ledger), w, P.Filling(t.now, q.view.value, t.sampledAt, t.fills, t.riskExit)))
  {
  }

  lemma RecordingReaches(s: P.Collector, w: nat, view: seq<Event>, t: C.Tick)
    requires s.clock <= t.judgedAt <= t.finishedAt && t.source.Some?
    ensures var p := C.Put(C.Progress(s.ledger, Some(view)), C.ObservedEvent(t));
            Reaches(Working(s, w, P.Recording(t.now, view, t.sampledAt, t.source.value)),
                    C.Judged(C.PutFills(p, t.fills, t.sampledAt), t).ledger)
  {
    var v := Working(s, w, P.Recording(t.now, view, t.sampledAt, t.source.value));
    var q := C.Put(C.Progress(s.ledger, Some(view)), C.ObservedEvent(t));
    var record := P.Record(w, t.fills, t.riskExit);
    RecordStepIs(s, w, view, t);
    if q.view.Some? {
      FillingReaches(s.(ledger := q.ledger), w, q.view.value, t.fills, t);
    } else {
      C.PutFillsGrow(q, t.fills, t.sampledAt);
      Here(P.Step(v, record));
    }
    Via(v, record, C.Judged(C.PutFills(q, t.fills, t.sampledAt), t).ledger);
  }

  function AfterCheck(view: seq<Event>, t: C.Tick): P.Worker
    requires t.source.Some?
  {
    if Max(t.sampledAt, t.completedAt) > SampleDeadline(view) then P.Voiding(view, t.completedAt, LateCompletion)
    else if !Advances(view, t.source.value) then P.Voiding(view, t.now, NoAdvance)
    else P.Recording(t.now, view, t.sampledAt, t.source.value)
  }

  lemma CheckStepIs(s: P.Collector, w: nat, view: seq<Event>, t: C.Tick)
    requires t.source.Some? && s.clock == t.completedAt
    ensures P.Step(Working(s, w, P.Sampled(t.now, view, t.sampledAt, t.source.value)), P.Check(w))
         == Working(s, w, AfterCheck(view, t))
  {
  }

  lemma AfterCheckReaches(s: P.Collector, w: nat, view: seq<Event>, t: C.Tick)
    requires s.clock == t.completedAt && InOrder(t) && t.source.Some? && !Late(view, t.now) && !Early(view, t.now)
    ensures Reaches(Working(s, w, AfterCheck(view, t)), C.SampleTaken(C.Progress(s.ledger, Some(view)), t).ledger)
  {
    if Max(t.sampledAt, t.completedAt) > SampleDeadline(view) {
      VoidingReaches(s, w, view, t.completedAt, LateCompletion);
    } else if !Advances(view, t.source.value) {
      VoidingReaches(s, w, view, t.now, NoAdvance);
    } else {
      RecordingReaches(s, w, view, t);
    }
  }

  lemma CheckingReaches(s: P.Collector, w: nat, view: seq<Event>, t: C.Tick)
    requires s.clock <= t.completedAt && InOrder(t) && t.source.Some? && !Late(view, t.now) && !Early(view, t.now)
    ensures Reaches(Working(s, w, P.Sampled(t.now, view, t.sampledAt, t.source.value)),
                    C.SampleTaken(C.Progress(s.ledger, Some(view)), t).ledger)
  {
    var at, u := P.Sampled(t.now, view, t.sampledAt, t.source.value), At(s, t.completedAt);
    AfterCheckReaches(u, w, view, t);
    CheckStepIs(u, w, view, t);
    assert At(Working(s, w, at), t.completedAt) == Working(u, w, at);
    ViaAt(Working(s, w, at), t.completedAt, P.Check(w), C.SampleTaken(C.Progress(s.ledger, Some(view)), t).ledger);
  }

  lemma SamplingReaches(s: P.Collector, w: nat, view: seq<Event>, t: C.Tick)
    requires s.clock <= t.sampledAt && InOrder(t) && !Late(view, t.now) && !Early(view, t.now)
    ensures Reaches(Working(s, w, P.Sampling(t.now, view)), C.SampleTaken(C.Progress(s.ledger, Some(view)), t).ledger)
  {
    var v := Working(s, w, P.Sampling(t.now, view));
    var time := if t.source.Some? then t.sampledAt else t.completedAt;
    var u := At(s, time);
    if t.source.Some? {
      CheckingReaches(u, w, view, t);
      assert P.Step(At(v, time), P.Sample(w, t.source)) == Working(u, w, P.Sampled(t.now, view, t.sampledAt, t.source.value));
    } else {
      VoidingReaches(u, w, view, t.completedAt, SourceUnavailable);
      assert P.Step(At(v, time), P.Sample(w, t.source)) == Working(u, w, P.Voiding(view, t.completedAt, SourceUnavailable));
    }
    ViaAt(v, time, P.Sample(w, t.source), C.SampleTaken(C.Progress(s.ledger, Some(view)), t).ledger);
  }

  lemma DecidingReaches(s: P.Collector, w: nat, view: seq<Event>, t: C.Tick)
    requires s.clock <= t.sampledAt && InOrder(t)
    ensures Reaches(Working(s, w, P.Initialized(t.now, view)), C.SampleTaken(C.Progress(s.ledger, Some(view)), t).ledger)
  {
    var v := Working(s, w, P.Initialized(t.now, view));
    if Late(view, t.now) {
      VoidingReaches(s, w, view, t.now, LateSample);
      assert P.Step(v, P.Decide(w)) == Working(s, w, P.Voiding(view, t.now, LateSample));
    } else if Early(view, t.now) {
      Here(P.Step(v, P.Decide(w)));
    } else {
      SamplingReaches(s, w, view, t);
      assert P.Step(v, P.Decide(w)) == Working(s, w, P.Sampling(t.now, view));
    }
    Via(v, P.Decide(w), C.SampleTaken(C.Progress(s.ledger, Some(view)), t).ledger);
  }

  function Resume(w: nat, t: C.Tick): P.Action {
    P.Resume(w, t.sourceTime, t.committedAt, t.actionable)
  }

  /** From a view that names its plan: refuse the run, or go on with it. */
  lemma SettlingReaches(s: P.Collector, w: nat, view: seq<Event>, t: C.Tick)
    requires s.clock <= t.now && InOrder(t) && view != [] && !IsTerminal(view) && Precommitment(view).Some?
    ensures var p := C.Settled(C.Progress(s.ledger, Some(view)), PlanActionable(view), t);
            Reaches(Working(s, w, P.Loaded(t.now, view)), C.SampleTaken(p, t).ledger)
  {
    var v := Working(s, w, P.Loaded(t.now, view));
    var end := C.SampleTaken(C.Settled(C.Progress(s.ledger, Some(view)), PlanActionable(view), t), t).ledger;
    if PlanActionable(view) {
      DecidingReaches(s, w, view, t);
      assert P.Step(v, Resume(w, t)) == Working(s, w, P.Initialized(t.now, view));
      Via(v, Resume(w, t), end);
    } else {
      Here(P.Step(At(v, t.refusedAt), Resume(w, t)));
      ViaAt(v, t.refusedAt, Resume(w, t), end);
    }
  }

  lemma CommitStepIs(s: P.Collector, w: nat, view: seq<Event>, t: C.Tick)
    requires |view| == 1 && !IsTerminal(view) && Precommitment(view).None?
    ensures var q := C.Put(C.Progress(s.ledger, Some(view)), C.Commitment(t));
            var u := P.Step(Working(s, w, P.Loaded(t.now, view)), Resume(w, t));
            && u.ledger == q.ledger
            && (q.view.Some? ==> u == Working(s.(ledger := q.ledger), w, P.Loaded(t.now, q.view.value)))
  {
  }

  lemma CommittedView(s: P.Collector, view: seq<Event>, t: C.Tick)
    requires |view| == 1 && !IsTerminal(view) && Precommitment(view).None?
    ensures var q := C.Put(C.Progress(s.ledger, Some(view)), C.Commitment(t));
            && (q.view.Some? ==> q.view.value != [] && !IsTerminal(q.view.value) && Precommitment(q.view.value).Some?
                                 && PlanActionable(q.view.value) == t.actionable)
            && C.Resumed(C.Progress(s.ledger, Some(view)), t) == C.Settled(q, t.actionable, t)
  {
    PrecommitmentAppend(view, C.Commitment(t));
  }

  /** From a view without a plan: seal it first. */
  lemma CommittingReaches(s: P.Collector, w: nat, view: seq<Event>, t: C.Tick)
    requires s.clock <= t.now && InOrder(t) && |view| == 1 && !IsTerminal(view) && Precommitment(view).None?
    ensures Reaches(Working(s, w, P.Loaded(t.now, view)), C.Processed(s.ledger, view, t))
  {
    var q := C.Put(C.Progress(s.ledger, Some(view)), C.Commitment(t));
    CommitStepIs(s, w, view, t);
    CommittedView(s, view, t);
    if q.view.Some? {
      SettlingReaches(s.(ledger := q.ledger), w, q.view.value, t);
    } else {
      Here(P.Step(Working(s, w, P.Loaded(t.now, view)), Resume(w, t)));
    }
    Via(Working(s, w, P.Loaded(t.now, view)), Resume(w, t), C.Processed(s.ledger, view, t));
  }

  /** Whatever the view an invocation was loaded with, its whole effect on the ledger is one the protocol can have: every
      result about the protocol holds of the collector's own code. */
  lemma InvocationIsARun(s: P.Collector, w: nat, view: seq<Event>, t: C.Tick)
    requires s.clock <= t.now && InOrder(t)
    ensures Reaches(Working(s, w, P.Loaded(t.now, view)), C.Processed(s.ledger, view, t))
  {
    var v := Working(s, w, P.Loaded(t.now, view));
    if view == [] || IsTerminal(view) || (Precommitment(view).None? && |view| != 1) {
      Here(P.Step(v, Resume(w, t)));
      Via(v, Resume(w, t), s.ledger);
    } else if Precommitment(view).Some? {
      SettlingReaches(s, w, view, t);
    } else {
      CommittingReaches(s, w, view, t);
    }
  }

  /** An invocation that arrives, loads the ledger as it is, and does all of its work. */
  lemma CallIsARun(s: P.Collector, w: nat, t: C.Tick)
    requires w !in s.workers && s.clock == t.now && InOrder(t)
    ensures Reaches(s, C.Processed(s.ledger, s.ledger, t))
  {
    InvocationIsARun(s, w, s.ledger, t);
    var here := Working(s, w, P.Arrived(t.now));
    assert P.Step(here, P.Load(w)) == Working(s, w, P.Loaded(t.now, s.ledger));
    Via(here, P.Load(w), C.Processed(s.ledger, s.ledger, t));
    Via(s, P.Arrive(w), C.Processed(s.ledger, s.ledger, t));
  }

  /** The protocol's sweep goes on to void a loaded run exactly when the sweep's verdict on it says so. */
  lemma SweepStepExact(s: P.Collector, w: nat, now: Millis, view: seq<Event>, c: C.Candidate, currentRun: string)
    requires w in s.workers && s.workers[w] == P.Loaded(now, view)
    requires c.events == Some(view) && c.runId != currentRun && c.recognised && c.accepted && c.checkpoint == s.clock
    ensures var t := P.Step(s, P.Sweep(w));
            && (C.VerdictOn(c, currentRun, now) == C.Voided <==> w in t.workers)
            && (w in t.workers ==> t.workers[w] == P.Voiding(view, s.clock, Abandoned))
            && t.ledger == s.ledger
  {
  }
}
