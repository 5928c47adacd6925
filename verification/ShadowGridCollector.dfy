/** One collector invocation against the ledger store, and the sweep of abandoned runs. */
module ShadowGridCollector {
  import opened Outcomes
  import opened ShadowGrid

  /** What one invocation meets: its arrival time, the sealed hire with its receipt, the price source, the clock at each
      later check, and the fills and risk verdict computed from the sample. */
  datatype Tick = Tick(
    now: Millis, sourceTime: Millis, committedAt: Millis, actionable: bool, refusedAt: Millis,
    source: Option<Source>, sampledAt: Millis, completedAt: Millis, fills: seq<nat>, riskExit: bool,
    judgedAt: Millis, intact: bool, finishedAt: Millis)

  /** The ledger afterwards, and the caller's view unless it stopped. */
  datatype Progress = Progress(ledger: seq<Event>, view: Option<seq<Event>>)

  function Put(p: Progress, e: Event): Progress {
    match p.view
    case None => p
    case Some(view) => var (ledger, seen) := Append(p.ledger, view, e); Progress(ledger, seen)
  }

  function Stop(p: Progress): Progress {
    p.(view := None)
  }

  function VoidRun(p: Progress, at: Millis, reason: VoidReason): Progress {
    if p.view.Some? && IsTerminal(p.view.value) then Stop(p) else Stop(Put(p, Event(Void(reason), at)))
  }

  function PutFills(p: Progress, fills: seq<nat>, at: Millis): Progress {
    if fills == [] then p else Put(PutFills(p, fills[..|fills| - 1], at), Event(Fill(fills[|fills| - 1]), at))
  }

  /** A precommitment that is not actionable refuses the run. */
  function Settled(p: Progress, actionable: bool, t: Tick): Progress {
    if actionable || p.view.None? then p
    else Stop(Put(p, Event(Refused, RefusalTime(p.view.value, t.refusedAt))))
  }

  function Commitment(t: Tick): Event {
    Event(Precommitted(t.sourceTime, t.actionable), t.committedAt)
  }

  function Resumed(p: Progress, t: Tick): Progress {
    match p.view
    case None => p
    case Some(view) =>
      if view == [] || IsTerminal(view) then Stop(p)
      else
        match Precommitment(view)
        case Some(c) => Settled(p, c.actionable, t)
        case None =>
          if |view| != 1 then Stop(p)
          else Settled(Put(p, Commitment(t)), t.actionable, t)
  }

  /** Everything after the sample is recorded. */
  function Judged(p: Progress, t: Tick): Progress {
    match p.view
    case None => p
    case Some(view) =>
      if !t.riskExit && t.judgedAt < HorizonEnd(view) - EARLY_TOLERANCE then Stop(p)
      else if !t.riskExit && Samples(view) < 3 then VoidRun(p, t.now, HorizonShort)
      else if !t.intact then VoidRun(p, t.finishedAt, RevalidationFailed)
      else Stop(Put(p, Event(if t.riskExit then RiskExit else Closed, t.finishedAt)))
  }

  function SampleTaken(p: Progress, t: Tick): Progress {
    match p.view
    case None => p
    case Some(view) =>
      if Late(view, t.now) then VoidRun(p, t.now, LateSample)
      else if Early(view, t.now) then Stop(p)
      else
        match t.source
        case None => VoidRun(p, t.completedAt, SourceUnavailable)
        case Some(source) =>
          if Max(t.sampledAt, t.completedAt) > SampleDeadline(view) then VoidRun(p, t.completedAt, LateCompletion)
          else if !Advances(view, source) then VoidRun(p, t.now, NoAdvance)
          else
            var e := Event(Observed(source.block, source.blockHash, source.blockTime), t.sampledAt);
            Judged(PutFills(Put(p, e), t.fills, t.sampledAt), t)
  }

  /** The ledger after one invocation that saw `view`. */
  function Processed(ledger: seq<Event>, view: seq<Event>, t: Tick): seq<Event> {
    SampleTaken(Resumed(Progress(ledger, Some(view)), t), t).ledger
  }

  // ---- the run stays well recorded ----

  ghost predicate Sound(p: Progress) {
    Good(p.ledger) && (p.view.Some? ==> p.view.value <= p.ledger && Good(p.view.value))
  }

  lemma PutKeeps(p: Progress, e: Event)
    requires Sound(p) && (p.view.Some? && MayFollow(p.view.value, e) ==> Fits(p.view.value, e))
    ensures Sound(Put(p, e)) && p.ledger <= Put(p, e).ledger
    ensures Put(p, e).view.Some? ==> p.view.Some? && Put(p, e).view.value == p.view.value + [e]
  {
    if p.view.Some? {
      var (ledger, seen) := Append(p.ledger, p.view.value, e);
      AppendOnly(p.ledger, p.view.value, e);
      if ledger != p.ledger { GoodAppend(p.ledger, e); }
      if seen.Some? { GoodPrefix(ledger, seen.value); }
    }
  }

  lemma VoidRunKeeps(p: Progress, at: Millis, reason: VoidReason)
    requires Sound(p)
    ensures Sound(VoidRun(p, at, reason)) && p.ledger <= VoidRun(p, at, reason).ledger
  {
  }

  lemma {:induction false} PutFillsKeeps(p: Progress, fills: seq<nat>, at: Millis)
    requires Sound(p)
    ensures Sound(PutFills(p, fills, at)) && p.ledger <= PutFills(p, fills, at).ledger
    decreases |fills|
  {
    if fills != [] {
      PutFillsKeeps(p, fills[..|fills| - 1], at);
      PutKeeps(PutFills(p, fills[..|fills| - 1], at), Event(Fill(fills[|fills| - 1]), at));
    }
  }

  lemma SettledKeeps(p: Progress, actionable: bool, t: Tick)
    requires Sound(p) && (actionable && p.view.Some? ==> PlanActionable(p.view.value))
    ensures Sound(Settled(p, actionable, t)) && p.ledger <= Settled(p, actionable, t).ledger
    ensures Settled(p, actionable, t).view.Some? ==> PlanActionable(Settled(p, actionable, t).view.value)
  {
  }

  /** An initialization that goes on goes on with an actionable plan. */
  lemma ResumedKeeps(p: Progress, t: Tick)
    requires Sound(p)
    ensures Sound(Resumed(p, t)) && p.ledger <= Resumed(p, t).ledger
    ensures Resumed(p, t).view.Some? ==> PlanActionable(Resumed(p, t).view.value)
  {
    if p.view.Some? {
      match Precommitment(p.view.value)
      case Some(c) =>
        SettledKeeps(p, c.actionable, t);
      case None =>
        PutKeeps(p, Commitment(t));
        PrecommitmentAppend(p.view.value, Commitment(t));
        SettledKeeps(Put(p, Commitment(t)), t.actionable, t);
    }
  }

  lemma JudgedKeeps(p: Progress, t: Tick)
    requires Sound(p)
    ensures Sound(Judged(p, t)) && p.ledger <= Judged(p, t).ledger
  {
    VoidRunKeeps(p, t.now, HorizonShort);
    VoidRunKeeps(p, t.finishedAt, RevalidationFailed);
    if p.view.Some? && (t.riskExit || Samples(p.view.value) >= 3) {
      SamplesBounded(p.view.value);
      PutKeeps(p, Event(if t.riskExit then RiskExit else Closed, t.finishedAt));
    }
  }

  lemma RecordedSampleKeeps(p: Progress, source: Source, t: Tick)
    requires Sound(p) && p.view.Some? && t.now <= t.sampledAt <= SampleDeadline(p.view.value)
    requires !Late(p.view.value, t.now) && !Early(p.view.value, t.now) && Advances(p.view.value, source)
    requires PlanActionable(p.view.value)
    ensures var e := Event(Observed(source.block, source.blockHash, source.blockTime), t.sampledAt);
            var q := Judged(PutFills(Put(p, e), t.fills, t.sampledAt), t);
            Sound(q) && p.ledger <= q.ledger
  {
    var e := Event(Observed(source.block, source.blockHash, source.blockTime), t.sampledAt);
    SamplingIsInWindow(p.view.value, t.now, t.sampledAt);
    PutKeeps(p, e);
    PutFillsKeeps(Put(p, e), t.fills, t.sampledAt);
    JudgedKeeps(PutFills(Put(p, e), t.fills, t.sampledAt), t);
  }

  lemma SampleTakenKeeps(p: Progress, t: Tick)
    requires Sound(p) && t.now <= t.sampledAt && (p.view.Some? ==> PlanActionable(p.view.value))
    ensures Sound(SampleTaken(p, t)) && p.ledger <= SampleTaken(p, t).ledger
  {
    VoidRunKeeps(p, t.now, LateSample);
    VoidRunKeeps(p, t.now, NoAdvance);
    VoidRunKeeps(p, t.completedAt, SourceUnavailable);
    VoidRunKeeps(p, t.completedAt, LateCompletion);
    if p.view.Some? && t.source.Some? && !Late(p.view.value, t.now) && !Early(p.view.value, t.now)
      && t.sampledAt <= SampleDeadline(p.view.value) && Advances(p.view.value, t.source.value)
    {
      RecordedSampleKeeps(p, t.source.value, t);
    }
  }

  /** One invocation keeps the run well recorded and never rewrites it, even on an outdated view. */
  lemma ProcessedKeeps(ledger: seq<Event>, view: seq<Event>, t: Tick)
    requires Good(ledger) && view <= ledger && t.now <= t.sampledAt
    ensures Good(Processed(ledger, view, t)) && ledger <= Processed(ledger, view, t)
  {
    GoodPrefix(ledger, view);
    var p := Progress(ledger, Some(view));
    ResumedKeeps(p, t);
    SampleTakenKeeps(Resumed(p, t), t);
  }

  // ---- a run whose ticks are on time closes ----

  function ObservedEvent(t: Tick): Event
    requires t.source.Some?
  {
    Event(Observed(t.source.value.block, t.source.value.blockHash, t.source.value.blockTime), t.sampledAt)
  }

  /** An invocation in the window of the next sample, with a fresh block, no fills and no risk exit. */
  ghost predicate OnTime(run: seq<Event>, t: Tick) {
    && NextDue(run) - EARLY_TOLERANCE <= t.now <= t.sampledAt <= t.completedAt <= NextDue(run) + GRACE
    && t.source.Some? && Advances(run, t.source.value) && !KeyTaken(run, ObservedKey(t.source.value.blockHash))
    && t.fills == [] && !t.riskExit && t.intact
  }

  /** A run that is committed to an actionable plan and still open. */
  ghost predicate OpenRun(run: seq<Event>, sourceTime: Millis) {
    && run != [] && Precommitment(run) == Some(Precommitted(sourceTime, true))
    && !KeyTaken(run, TerminalKey) && (Last(run).kind.Precommitted? || Last(run).kind.Observed?)
  }

  lemma SamplesAppend(run: seq<Event>, e: Event)
    ensures Samples(run + [e]) == Samples(run) + if e.kind.Observed? then 1 else 0
    ensures run != [] ==> Start(run + [e]) == Start(run)
    ensures LastBlock(run + [e]) == if e.kind.Observed? then Some(e.kind.block) else LastBlock(run)
  {
  }

  lemma KeysAppend(run: seq<Event>, e: Event, key: Key)
    ensures KeyTaken(run + [e], key) == (KeyTaken(run, key) || KeyOf(e.kind) == key)
  {
    var all := run + [e];
    if KeyTaken(run, key) {
      var i :| 0 <= i < |run| && KeyOf(run[i].kind) == key;
      assert all[i] == run[i];
    }
    assert all[|run|] == e;
  }

  /** An on-time invocation adds exactly its sample, and ends the run when the horizon is reached. */
  lemma OnTimeTick(run: seq<Event>, t: Tick, sourceTime: Millis)
    requires OpenRun(run, sourceTime) && OnTime(run, t) && Samples(run) < 3
    requires t.judgedAt < HorizonEnd(run) - EARLY_TOLERANCE || Samples(run) == 2
    ensures Processed(run, run, t) ==
              run + [ObservedEvent(t)]
                  + if t.judgedAt < HorizonEnd(run) - EARLY_TOLERANCE then [] else [Event(Closed, t.finishedAt)]
  {
    var e := ObservedEvent(t);
    var next := run + [e];
    assert Put(Progress(run, Some(run)), e) == Progress(next, Some(next));
    SamplesAppend(run, e);
    KeysAppend(run, e, TerminalKey);
    assert Resumed(Progress(run, Some(run)), t) == Progress(run, Some(run));
    assert next + [] == next;
  }

  lemma SampledRunStaysOpen(run: seq<Event>, t: Tick, sourceTime: Millis)
    requires OpenRun(run, sourceTime) && t.source.Some?
    ensures OpenRun(run + [ObservedEvent(t)], sourceTime)
  {
    PrecommitmentAppend(run, ObservedEvent(t));
    KeysAppend(run, ObservedEvent(t), TerminalKey);
  }

  /** Three on-time invocations, the last of which finishes after the horizon, close the run with three samples. */
  lemma ClosesOnTime(run: seq<Event>, t1: Tick, t2: Tick, t3: Tick, sourceTime: Millis)
    requires OpenRun(run, sourceTime) && Samples(run) == 0
    requires OnTime(run, t1) && t1.judgedAt < HorizonEnd(run) - EARLY_TOLERANCE
    requires OnTime(run + [ObservedEvent(t1)], t2) && t2.judgedAt < HorizonEnd(run) - EARLY_TOLERANCE
    requires OnTime(run + [ObservedEvent(t1)] + [ObservedEvent(t2)], t3) && t3.judgedAt >= HorizonEnd(run) - EARLY_TOLERANCE
    ensures var first := Processed(run, run, t1);
            var second := Processed(first, first, t2);
            Processed(second, second, t3)
              == run + [ObservedEvent(t1), ObservedEvent(t2), ObservedEvent(t3), Event(Closed, t3.finishedAt)]
  {
    var first := run + [ObservedEvent(t1)];
    OnTimeTick(run, t1, sourceTime);
    assert first + [] == first;
    SampledRunStaysOpen(run, t1, sourceTime);
    SamplesAppend(run, ObservedEvent(t1));
    var second := first + [ObservedEvent(t2)];
    OnTimeTick(first, t2, sourceTime);
    assert second + [] == second;
    SampledRunStaysOpen(first, t2, sourceTime);
    SamplesAppend(first, ObservedEvent(t2));
    OnTimeTick(second, t3, sourceTime);
  }

  // ---- when a run is given up ----

  /** The run once its plan is sealed. */
  function Sealed(run: seq<Event>, t: Tick): seq<Event> {
    if Precommitment(run).Some? then run else run + [Commitment(t)]
  }

  /** The invocation voids the run because a sample is overdue. */
  ghost predicate GivesUp(run: seq<Event>, t: Tick) {
    Processed(run, run, t) == Sealed(run, t) + [Event(Void(LateSample), t.now)]
  }

  ghost predicate Open(run: seq<Event>) {
    Good(run) && run != [] && !IsTerminal(run)
  }

  lemma OpenRunIsUnfinished(run: seq<Event>)
    requires Open(run)
    ensures !KeyTaken(run, TerminalKey) && MayFollow(run, Event(Void(LateSample), 0))
  {
    RunShape(run);
  }

  lemma UncommittedRunIsNew(run: seq<Event>)
    requires Open(run) && Precommitment(run).None?
    ensures |run| == 1 && run[0].kind.EpochStarted? && !KeyTaken(run, PrecommitKey)
  {
    RunShape(run);
    if |run| >= 2 {
      var two := run[..2];
      assert two[1..][0] == run[1];
      PrecommitmentStays(run, two);
      assert false;
    }
  }

  /** Sealing leaves the run open and its schedule as it was. */
  lemma SealedRunIsOpen(run: seq<Event>, t: Tick)
    requires Open(run)
    ensures var s := Sealed(run, t);
            && Open(s) && Precommitment(s).Some? && Late(s, t.now) == Late(run, t.now)
            && (Precommitment(run).None? ==> Put(Progress(run, Some(run)), Commitment(t)) == Progress(s, Some(s)))
  {
    if Precommitment(run).None? {
      UncommittedRunIsNew(run);
      PrecommitmentAppend(run, Commitment(t));
      SamplesAppend(run, Commitment(t));
      GoodAppend(run, Commitment(t));
    }
  }

  lemma ResumedOpenRun(run: seq<Event>, t: Tick)
    requires Open(run)
    ensures var s := Sealed(run, t);
            Resumed(Progress(run, Some(run)), t) == Settled(Progress(s, Some(s)), PlanActionable(s), t)
  {
    SealedRunIsOpen(run, t);
    if Precommitment(run).None? {
      UncommittedRunIsNew(run);
      PrecommitmentAppend(run, Commitment(t));
    }
  }

  /** A run that is committed to a plan that cannot be followed has not been sampled. */
  lemma RefusableRunIsNew(run: seq<Event>)
    requires Open(run) && Precommitment(run).Some? && !PlanActionable(run)
    ensures Last(run).kind.Precommitted?
  {
    RunShape(run);
    if |run| >= 3 {
      SampledRunIsActionable(run, 2);
      assert false;
    }
  }

  lemma SealedRunIsRefused(run: seq<Event>, t: Tick)
    requires Open(run) && !PlanActionable(Sealed(run, t))
    ensures var s := Sealed(run, t); Processed(run, run, t) == s + [Event(Refused, RefusalTime(s, t.refusedAt))]
  {
    ResumedOpenRun(run, t);
    SealedRunIsOpen(run, t);
    RefusableRunIsNew(Sealed(run, t));
    OpenRunIsUnfinished(Sealed(run, t));
  }

  lemma LateRunIsVoided(run: seq<Event>, t: Tick)
    requires Open(run) && PlanActionable(Sealed(run, t)) && Late(run, t.now)
    ensures GivesUp(run, t)
  {
    ResumedOpenRun(run, t);
    SealedRunIsOpen(run, t);
    OpenRunIsUnfinished(Sealed(run, t));
  }

  lemma PutGrows(p: Progress, e: Event)
    ensures p.ledger <= Put(p, e).ledger
    ensures p.view.None? || Put(p, e).view.None? || Put(p, e).view.value == p.view.value + [e]
    ensures Put(p, e).view.None? ==> Put(p, e).ledger == p.ledger
  {
  }

  lemma {:induction false} PutFillsGrow(p: Progress, fills: seq<nat>, at: Millis)
    ensures p.ledger <= PutFills(p, fills, at).ledger
    ensures p.view.None? ==> PutFills(p, fills, at) == p
    decreases |fills|
  {
    if fills != [] {
      PutFillsGrow(p, fills[..|fills| - 1], at);
      PutGrows(PutFills(p, fills[..|fills| - 1], at), Event(Fill(fills[|fills| - 1]), at));
    }
  }

  lemma JudgedGrows(p: Progress, t: Tick)
    ensures p.ledger <= Judged(p, t).ledger
    ensures p.view.None? ==> Judged(p, t) == p
  {
  }

  /** An append adds this event or nothing. */
  lemma PutAddsOnlyThis(s: seq<Event>, e: Event, other: Event)
    requires e != other
    ensures Put(Progress(s, Some(s)), e).ledger != s + [other]
  {
    assert (s + [e])[|s|] == e;
    assert (s + [other])[|s|] == other;
  }

  /** Before the deadline the next event is never the void for a missing sample. */
  lemma TimelyRunIsKept(s: seq<Event>, t: Tick)
    requires !Late(s, t.now)
    ensures SampleTaken(Progress(s, Some(s)), t).ledger != s + [Event(Void(LateSample), t.now)]
  {
    var p, late := Progress(s, Some(s)), Event(Void(LateSample), t.now);
    PutAddsOnlyThis(s, Event(Void(SourceUnavailable), t.completedAt), late);
    PutAddsOnlyThis(s, Event(Void(LateCompletion), t.completedAt), late);
    PutAddsOnlyThis(s, Event(Void(NoAdvance), t.now), late);
    if t.source.Some? && !Early(s, t.now) && Max(t.sampledAt, t.completedAt) <= SampleDeadline(s) && Advances(s, t.source.value) {
      var e := ObservedEvent(t);
      var q := Put(p, e);
      PutGrows(p, e);
      PutFillsGrow(q, t.fills, t.sampledAt);
      JudgedGrows(PutFills(q, t.fills, t.sampledAt), t);
      var after := SampleTaken(p, t).ledger;
      assert q.ledger <= after;
      if q.ledger != s { assert after[|s|] == e && (s + [late])[|s|] == late; }
    }
  }

  /** What one invocation makes of an open run: a plan that cannot be followed is refused whatever the time, and the run is
      given up exactly when its plan can be followed and a sample is overdue. */
  lemma GivesUpExactly(run: seq<Event>, t: Tick)
    requires Open(run)
    ensures var s := Sealed(run, t);
            && (GivesUp(run, t) <==> PlanActionable(s) && Late(run, t.now))
            && (!PlanActionable(s) ==> Processed(run, run, t) == s + [Event(Refused, RefusalTime(s, t.refusedAt))])
  {
    var s := Sealed(run, t);
    if !PlanActionable(s) {
      SealedRunIsRefused(run, t);
      assert Processed(run, run, t)[|s|].kind.Refused? && (s + [Event(Void(LateSample), t.now)])[|s|].kind.Void?;
    } else if Late(run, t.now) {
      LateRunIsVoided(run, t);
    } else {
      ResumedOpenRun(run, t);
      SealedRunIsOpen(run, t);
      TimelyRunIsKept(s, t);
    }
  }

  // ---- the collector ----

  /** The durable ledger of one run. */
  class LedgerStore {
    var ledger: seq<Event>

    constructor ()
      ensures ledger == []
    {
      ledger := [];
    }

    method AppendEvent(view: seq<Event>, e: Event) returns (seen: Option<seq<Event>>)
      modifies this
      ensures (ledger, seen) == Append(old(ledger), view, e)
    {
      if KeyTaken(ledger, KeyOf(e.kind)) {
        seen := if view + [e] <= ledger then Some(view + [e]) else None;
      } else if ledger == view && MayFollow(ledger, e) {
        ledger := ledger + [e];
        seen := Some(ledger);
      } else {
        seen := None;
      }
    }

    method VoidIfOpen(view: seq<Event>, at: Millis, reason: VoidReason)
      modifies this
      ensures ledger == VoidRun(Progress(old(ledger), Some(view)), at, reason).ledger
    {
      if !IsTerminal(view) {
        var _ := AppendEvent(view, Event(Void(reason), at));
      }
    }

    /** Finish an initialization that was cut short; no result when there is nothing further to do. */
    method ResumeInitialization(view: seq<Event>, t: Tick) returns (events: Option<seq<Event>>)
      modifies this
      ensures Progress(ledger, events) == Resumed(Progress(old(ledger), Some(view)), t)
    {
      if view == [] || IsTerminal(view) {
        return None;
      }
      events := Some(view);
      var committed := Precommitment(view);
      var actionable := t.actionable;
      if committed.None? {
        if |view| != 1 {
          return None;
        }
        events := AppendEvent(view, Commitment(t));
      } else {
        actionable := committed.value.actionable;
      }
      if !actionable {
        if events.Some? {
          var _ := AppendEvent(events.value, Event(Refused, RefusalTime(events.value, t.refusedAt)));
        }
        events := None;
      }
    }

    /** Record a sample and its fills one by one. */
    method RecordSample(view: seq<Event>, source: Source, t: Tick) returns (events: Option<seq<Event>>)
      modifies this
      ensures var e := Event(Observed(source.block, source.blockHash, source.blockTime), t.sampledAt);
              Progress(ledger, events) == PutFills(Put(Progress(old(ledger), Some(view)), e), t.fills, t.sampledAt)
    {
      ghost var e := Event(Observed(source.block, source.blockHash, source.blockTime), t.sampledAt);
      ghost var p := Put(Progress(ledger, Some(view)), e);
      events := AppendEvent(view, Event(Observed(source.block, source.blockHash, source.blockTime), t.sampledAt));
      for i := 0 to |t.fills|
        invariant Progress(ledger, events) == PutFills(p, t.fills[..i], t.sampledAt)
      {
        assert t.fills[..i + 1][..i] == t.fills[..i];
        if events.Some? {
          events := AppendEvent(events.value, Event(Fill(t.fills[i]), t.sampledAt));
        }
      }
      assert t.fills[..|t.fills|] == t.fills;
    }

    /** After a sample: leave the run open, void it, or end it. */
    method Judge(view: seq<Event>, t: Tick)
      modifies this
      ensures ledger == Judged(Progress(old(ledger), Some(view)), t).ledger
    {
      if !t.riskExit && t.judgedAt < HorizonEnd(view) - EARLY_TOLERANCE {
        return;
      }
      if !t.riskExit && Samples(view) < 3 {
        VoidIfOpen(view, t.now, HorizonShort);
      } else if !t.intact {
        VoidIfOpen(view, t.finishedAt, RevalidationFailed);
      } else {
        var _ := AppendEvent(view, Event(if t.riskExit then RiskExit else Closed, t.finishedAt));
      }
    }

    method TakeSample(view: seq<Event>, t: Tick)
      modifies this
      ensures ledger == SampleTaken(Progress(old(ledger), Some(view)), t).ledger
    {
      if Late(view, t.now) {
        VoidIfOpen(view, t.now, LateSample);
      } else if Early(view, t.now) {
        return;
      } else if t.source.None? {
        VoidIfOpen(view, t.completedAt, SourceUnavailable);
      } else if Max(t.sampledAt, t.completedAt) > SampleDeadline(view) {
        VoidIfOpen(view, t.completedAt, LateCompletion);
      } else if !Advances(view, t.source.value) {
        VoidIfOpen(view, t.now, NoAdvance);
      } else {
        var events := RecordSample(view, t.source.value, t);
        if events.Some? {
          Judge(events.value, t);
        }
      }
    }

    /** One invocation on an open run, as it was read. */
    method ProcessOpenRun(view: seq<Event>, t: Tick)
      modifies this
      ensures ledger == Processed(old(ledger), view, t)
      ensures Good(old(ledger)) && view <= old(ledger) && t.now <= t.sampledAt ==> Good(ledger) && old(ledger) <= ledger
    {
      ghost var before := ledger;
      var events := ResumeInitialization(view, t);
      if events.Some? {
        TakeSample(events.value, t);
      }
      if Good(before) && view <= before && t.now <= t.sampledAt {
        ProcessedKeeps(before, view, t);
      }
    }
  }

  // ---- the sweep of abandoned runs ----

  /** One candidate: the run as read, whether it verifies and names a schedule, the clock when it is voided, whether the
      void is accepted, and what a re-read shows after a failure. */
  datatype Candidate = Candidate(
    runId: string, events: Option<seq<Event>>, recognised: bool, checkpoint: Millis, accepted: bool, refreshed: Option<seq<Event>>)

  datatype Verdict = Excluded | Voided | Deferred | AlreadyTerminal | Failed

  datatype Counters = Counters(
    candidates: nat, examined: nat, voided: nat, failed: nat, deferred: nat, excluded: nat, terminal: nat, failures: seq<Option<string>>)

  /** A failure that a re-read explains is no failure. */
  function AfterFailure(c: Candidate): Verdict {
    if c.refreshed.Some? && c.refreshed.value != [] && IsTerminal(c.refreshed.value) then AlreadyTerminal else Failed
  }

  function VerdictOn(c: Candidate, currentRun: string, now: Millis): Verdict {
    if c.runId == currentRun then Excluded
    else if c.events.None? then AfterFailure(c)
    else if c.events.value == [] || IsTerminal(c.events.value) then AlreadyTerminal
    else if !c.recognised then AfterFailure(c)
    else if now <= AbandonmentDeadline(c.events.value) then Deferred
    else if c.checkpoint <= Last(c.events.value).recordedAt || !c.accepted then AfterFailure(c)
    else Voided
  }

  function CountOf(candidates: seq<Candidate>, v: Verdict, currentRun: string, now: Millis): nat {
    if candidates == [] then 0
    else
      CountOf(candidates[..|candidates| - 1], v, currentRun, now)
      + if VerdictOn(candidates[|candidates| - 1], currentRun, now) == v then 1 else 0
  }

  /** Every candidate has exactly one verdict. */
  lemma {:induction false} VerdictsPartition(candidates: seq<Candidate>, currentRun: string, now: Millis)
    ensures |candidates| == CountOf(candidates, Excluded, currentRun, now) + CountOf(candidates, Voided, currentRun, now)
                          + CountOf(candidates, Deferred, currentRun, now) + CountOf(candidates, AlreadyTerminal, currentRun, now)
                          + CountOf(candidates, Failed, currentRun, now)
    decreases |candidates|
  {
    if candidates != [] {
      VerdictsPartition(candidates[..|candidates| - 1], currentRun, now);
    }
  }

  /** A recognised open run of another hour, on which a void would go through. */
  ghost predicate Sweepable(c: Candidate, currentRun: string) {
    && c.runId != currentRun && c.events.Some? && c.events.value != [] && !IsTerminal(c.events.value) && c.recognised
    && c.accepted && c.checkpoint > Last(c.events.value).recordedAt
  }

  /** For the same events and clock the sweep voids every late run, and the sampler those with an actionable plan: the two
      agree exactly on the runs that are not late or whose plan is actionable. */
  lemma SweepAndSamplerAgree(c: Candidate, currentRun: string, t: Tick)
    requires Sweepable(c, currentRun) && Good(c.events.value)
    ensures var run := c.events.value;
            && (VerdictOn(c, currentRun, t.now) == Voided <==> Late(run, t.now))
            && (VerdictOn(c, currentRun, t.now) == Deferred <==> !Late(run, t.now))
            && ((VerdictOn(c, currentRun, t.now) == Voided <==> GivesUp(run, t))
                <==> (PlanActionable(Sealed(run, t)) || !Late(run, t.now)))
  {
    GivesUpExactly(c.events.value, t);
  }

  const Opening: seq<Event> := [Event(EpochStarted(0), 0)]

  /** A run whose initialization was cut short before its refusal: hours later the sweep voids it, while the sampler would
      record that its plan was refused. It makes no difference whether the plan had been sealed. */
  lemma SweepVoidsRefusableRun(c: Candidate, currentRun: string, t: Tick)
    requires c.runId != currentRun && c.recognised && c.accepted && c.checkpoint > 0
    requires t.now == 2000000 && t.committedAt == 0 && !t.actionable
    requires c.events == Some(Opening) || c.events == Some(Opening + [Commitment(t)])
    ensures VerdictOn(c, currentRun, t.now) == Voided
    ensures Processed(c.events.value, c.events.value, t) == Opening + [Commitment(t), Event(Refused, Max(t.refusedAt, 1))]
  {
    var run, sealed := c.events.value, Opening + [Commitment(t)];
    assert Good(Opening) by { GoodAppend([], Opening[0]); }
    GoodAppend(Opening, Commitment(t));
    PrecommitmentAppend([], Opening[0]);
    PrecommitmentAppend(Opening, Commitment(t));
    assert Sealed(run, t) == sealed;
    SealedRunIsRefused(run, t);
    assert sealed + [Event(Refused, Max(t.refusedAt, 1))] == Opening + [Commitment(t), Event(Refused, Max(t.refusedAt, 1))];
  }

  const CLEANUP_LIMIT: nat := 50

  datatype SweepStatus = NothingSwept | AllSwept | PartlySwept | SweepFailed

  /** The batch that is swept, of the runs that were found. */
  function Batch(discovered: seq<Candidate>): seq<Candidate> {
    if |discovered| <= CLEANUP_LIMIT then discovered else discovered[..CLEANUP_LIMIT]
  }

  /** The counters add up, each being the number of candidates with its verdict. */
  ghost predicate Balanced(c: Counters, batch: seq<Candidate>, currentRun: string, now: Millis) {
    && c.candidates == |batch| == c.excluded + c.examined
    && c.examined == c.voided + c.deferred + c.terminal + c.failed
    && c.voided == CountOf(batch, Voided, currentRun, now)
    && c.deferred == CountOf(batch, Deferred, currentRun, now)
    && c.terminal == CountOf(batch, AlreadyTerminal, currentRun, now)
    && c.excluded == CountOf(batch, Excluded, currentRun, now)
    && |c.failures| == c.failed == CountOf(batch, Failed, currentRun, now)
  }

  /** The loop of the sweep: every candidate is excluded or examined, and every examined one is counted once. */
  method Sweep(candidates: seq<Candidate>, currentRun: string, now: Millis) returns (c: Counters)
    ensures Balanced(c, candidates, currentRun, now)
  {
    var examined, voided, failed, deferred, excluded, terminal := 0, 0, 0, 0, 0, 0;
    var failures := [];
    for i := 0 to |candidates|
      invariant excluded == CountOf(candidates[..i], Excluded, currentRun, now)
      invariant voided == CountOf(candidates[..i], Voided, currentRun, now)
      invariant deferred == CountOf(candidates[..i], Deferred, currentRun, now)
      invariant terminal == CountOf(candidates[..i], AlreadyTerminal, currentRun, now)
      invariant |failures| == failed == CountOf(candidates[..i], Failed, currentRun, now)
      invariant examined == voided + deferred + terminal + failed && i == excluded + examined
    {
      assert candidates[..i + 1][..i] == candidates[..i];
      var candidate := candidates[i];
      if candidate.runId == currentRun {
        excluded := excluded + 1;
      } else {
        examined := examined + 1;
        var verdict := Examine(candidate, now);
        match verdict
        case AlreadyTerminal => terminal := terminal + 1;
        case Deferred => deferred := deferred + 1;
        case Voided => voided := voided + 1;
        case Failed => failed, failures := failed + 1, failures + [Some(candidate.runId)];
      }
    }
    assert candidates[..|candidates|] == candidates;
    c := Counters(|candidates|, examined, voided, failed, deferred, excluded, terminal, failures);
  }

  /** The whole cleanup: at most 50 of the runs found, or one failure without a run when none could be listed. */
  method CleanUp(discovered: Option<seq<Candidate>>, currentRun: string, now: Millis)
    returns (c: Counters, truncated: bool, status: SweepStatus)
    ensures discovered.Some? ==> Balanced(c, Batch(discovered.value), currentRun, now)
    ensures discovered.Some? ==> c.candidates == if |discovered.value| <= 50 then |discovered.value| else 50
    ensures discovered.Some? ==> Batch(discovered.value) <= discovered.value
    ensures discovered.Some? ==> (truncated <==> |discovered.value| > c.candidates)
    ensures discovered.None? ==> !truncated && c == Counters(0, 0, 0, 1, 0, 0, 0, [None])
    ensures status == NothingSwept <==> c.failed == 0 && c.voided == 0
    ensures status == AllSwept <==> c.failed == 0 && c.voided > 0
    ensures status == PartlySwept <==> c.failed > 0 && c.voided > 0
  {
    if discovered.None? {
      c, truncated := Counters(0, 0, 0, 1, 0, 0, 0, [None]), false;
    } else {
      c := Sweep(Batch(discovered.value), currentRun, now);
      truncated := |discovered.value| > CLEANUP_LIMIT;
    }
    status :=
      if c.failed > 0 then if c.voided > 0 then PartlySwept else SweepFailed
      else if c.voided > 0 then AllSwept else NothingSwept;
  }

  method Examine(c: Candidate, now: Millis) returns (v: Verdict)
    ensures v != Excluded
    ensures forall currentRun :: c.runId != currentRun ==> v == VerdictOn(c, currentRun, now)
  {
    if c.events.None? {
      return AfterFailure(c);
    }
    var events := c.events.value;
    if events == [] || IsTerminal(events) {
      return AlreadyTerminal;
    }
    if !c.recognised {
      return AfterFailure(c);
    }
    var nextSampleDeadline := Start(events) + (Samples(events) + 1) * CADENCE + GRACE;
    var horizonDeadline := Start(events) + HORIZON + GRACE;
    if now <= Min(nextSampleDeadline, horizonDeadline) {
      return Deferred;
    }
    if c.checkpoint <= Last(events).recordedAt || !c.accepted {
      return AfterFailure(c);
    }
    v := Voided;
  }
}
