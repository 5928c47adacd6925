/** What one invocation makes of an open run and what the sweep makes of a candidate, outcome by outcome, in terms of the
    recorded events and the clock. */
module ShadowGridOutcomes {
  import opened Outcomes
  import opened ShadowGrid
  import opened ShadowGridCollector

  // ---- reading a run ----

  function SampleIndices(run: seq<Event>): set<int> {
    set i | 0 <= i < |run| && run[i].kind.Observed?
  }

  lemma {:induction false} SamplesAreCounted(run: seq<Event>)
    ensures Samples(run) == |SampleIndices(run)|
    decreases |run|
  {
    if run != [] {
      var front := run[..|run| - 1];
      SamplesAreCounted(front);
      if Last(run).kind.Observed? {
        assert SampleIndices(run) == SampleIndices(front) + {|run| - 1};
      } else {
        assert SampleIndices(run) == SampleIndices(front);
      }
    }
  }

  ghost predicate Ended(run: seq<Event>) {
    run != [] && match run[|run| - 1].kind
                 case Refused => true
                 case Closed => true
                 case RiskExit => true
                 case Void(_) => true
                 case _ => false
  }

  /** The sample's block is not above that of some sample on record. */
  ghost predicate BlockSeen(run: seq<Event>, block: nat) {
    exists i :: 0 <= i < |run| && run[i].kind.Observed? && run[i].kind.block >= block
  }

  lemma {:induction false} LastBlockIsSampled(run: seq<Event>)
    ensures match LastBlock(run)
            case None => forall i :: 0 <= i < |run| ==> !run[i].kind.Observed?
            case Some(block) => exists i :: 0 <= i < |run| && run[i].kind.Observed? && run[i].kind.block == block
    decreases |run|
  {
    if run != [] && !Last(run).kind.Observed? {
      var front := run[..|run| - 1];
      LastBlockIsSampled(front);
      if LastBlock(front).Some? {
        var i :| 0 <= i < |front| && front[i].kind.Observed? && front[i].kind.block == LastBlock(front).value;
        assert run[i] == front[i];
      } else {
        assert forall i :: 0 <= i < |run| ==> run[i] == if i < |front| then front[i] else Last(run);
      }
    } else if run != [] {
      assert run[|run| - 1].kind.Observed?;
    }
  }

  lemma BlockSeenExactly(run: seq<Event>, block: nat)
    requires Good(run)
    ensures BlockAdvances(run, block) <==> !BlockSeen(run, block)
  {
    LastBlockIsSampled(run);
    forall i | 0 <= i < |run| && run[i].kind.Observed? ensures LastBlock(run).Some? && run[i].kind.block <= LastBlock(run).value {
      BlocksBelowLast(run, i);
    }
  }

  // ---- what is recorded next ----

  /** No sample of this block and no fill of these orders is on record, and no order is filled twice. */
  ghost predicate Unrecorded(run: seq<Event>, t: Tick) {
    && (t.source.Some? ==> forall i :: 0 <= i < |run| && run[i].kind.Observed? ==> run[i].kind.blockHash != t.source.value.blockHash)
    && Unfilled(run, t.fills)
  }

  ghost predicate Unfilled(s: seq<Event>, fills: seq<nat>) {
    && (forall i, k :: 0 <= i < |s| && 0 <= k < |fills| ==> s[i].kind != Fill(fills[k]))
    && forall j, k :: 0 <= j < k < |fills| ==> fills[j] != fills[k]
  }

  function FillEvents(fills: seq<nat>, at: Millis): (r: seq<Event>)
    ensures |r| == |fills|
  {
    seq(|fills|, i requires 0 <= i < |fills| => Event(Fill(fills[i]), at))
  }

  function Sample(source: Source, t: Tick): Event {
    Event(Observed(source.block, source.blockHash, source.blockTime), t.sampledAt)
  }

  /** How a sampled run goes on: it stays open until a minute and a half before its horizon, and then ends, as a run with too
      few samples, with a sample that is no longer there, by the risk rule, or closed. A risk exit does not wait. */
  function Ending(start: Millis, samples: nat, t: Tick): seq<Event> {
    if !t.riskExit && t.judgedAt < start + 900000 - 90000 then []
    else if !t.riskExit && samples < 3 then [Event(Void(HorizonShort), t.now)]
    else if !t.intact then [Event(Void(RevalidationFailed), t.finishedAt)]
    else if t.riskExit then [Event(RiskExit, t.finishedAt)]
    else [Event(Closed, t.finishedAt)]
  }

  /** What an invocation adds to a run that is committed, with source time `committed`, to a plan that can be followed. */
  ghost function Outcome(run: seq<Event>, start: Millis, committed: Millis, t: Tick): seq<Event> {
    var samples := |SampleIndices(run)|;
    var due := start + (samples + 1) * 300000;
    if t.now > due + 180000 || t.now > start + 900000 + 180000 then [Event(Void(LateSample), t.now)]
    else if t.now < due - 90000 then []
    else if t.source.None? then [Event(Void(SourceUnavailable), t.completedAt)]
    else if t.sampledAt > due + 180000 || t.completedAt > due + 180000
         || t.sampledAt > start + 900000 + 180000 || t.completedAt > start + 900000 + 180000
    then [Event(Void(LateCompletion), t.completedAt)]
    else if t.source.value.blockTime <= committed || BlockSeen(run, t.source.value.block) then [Event(Void(NoAdvance), t.now)]
    else [Sample(t.source.value, t)] + FillEvents(t.fills, t.sampledAt) + Ending(start, samples + 1, t)
  }

  // ---- an invocation on its own view ----

  /** The view is the whole ledger, and the run is open. */
  ghost predicate Current(p: Progress) {
    p.view == Some(p.ledger) && p.ledger != [] && !KeyTaken(p.ledger, TerminalKey)
  }

  lemma PutAdds(s: seq<Event>, e: Event)
    requires !KeyTaken(s, KeyOf(e.kind)) && MayFollow(s, e)
    ensures Put(Progress(s, Some(s)), e) == Progress(s + [e], Some(s + [e]))
  {
  }

  lemma EndAdds(s: seq<Event>, e: Event)
    requires Current(Progress(s, Some(s))) && Terminal(e.kind) && MayFollow(s, e)
    ensures Stop(Put(Progress(s, Some(s)), e)).ledger == s + [e]
  {
    PutAdds(s, e);
  }

  lemma VoidAdds(s: seq<Event>, at: Millis, reason: VoidReason)
    requires Current(Progress(s, Some(s))) && !IsTerminal(s)
    ensures VoidRun(Progress(s, Some(s)), at, reason).ledger == s + [Event(Void(reason), at)]
  {
    EndAdds(s, Event(Void(reason), at));
  }

  /** A run with a sample on record that is not ended. */
  ghost predicate Sampled(s: seq<Event>) {
    Current(Progress(s, Some(s))) && (Last(s).kind.Observed? || Last(s).kind.Fill?)
  }

  lemma FillKeys(s: seq<Event>, order: nat)
    ensures KeyTaken(s, FillKey(order)) <==> exists i :: 0 <= i < |s| && s[i].kind == Fill(order)
  {
    if KeyTaken(s, FillKey(order)) {
      var i :| 0 <= i < |s| && KeyOf(s[i].kind) == FillKey(order);
      assert s[i].kind == Fill(order);
    }
    if i :| 0 <= i < |s| && s[i].kind == Fill(order) {
      assert KeyOf(s[i].kind) == FillKey(order);
    }
  }

  /** Every fill is added, in order. */
  lemma {:induction false} FillsAreAdded(s: seq<Event>, fills: seq<nat>, at: Millis)
    requires Sampled(s) && Unfilled(s, fills)
    ensures var all := s + FillEvents(fills, at); PutFills(Progress(s, Some(s)), fills, at) == Progress(all, Some(all)) && Sampled(all)
    decreases |fills|
  {
    if fills == [] {
      assert s + FillEvents(fills, at) == s;
    } else {
      var front, order := fills[..|fills| - 1], fills[|fills| - 1];
      FillsAreAdded(s, front, at);
      var before, e := s + FillEvents(front, at), Event(Fill(order), at);
      FillKeys(before, order);
      forall i | 0 <= i < |before| ensures before[i].kind != Fill(order) {
        if i >= |s| { assert before[i] == FillEvents(front, at)[i - |s|]; }
      }
      PutAdds(before, e);
      KeysAppend(before, e, TerminalKey);
      assert before + [e] == s + FillEvents(fills, at);
    }
  }

  lemma {:induction false} FillsAreNoSamples(s: seq<Event>, fills: seq<nat>, at: Millis)
    ensures Samples(s + FillEvents(fills, at)) == Samples(s)
    ensures s != [] ==> Start(s + FillEvents(fills, at)) == Start(s)
    decreases |fills|
  {
    if fills == [] {
      assert s + FillEvents(fills, at) == s;
    } else {
      var front := fills[..|fills| - 1];
      FillsAreNoSamples(s, front, at);
      var e := Event(Fill(fills[|fills| - 1]), at);
      assert s + FillEvents(fills, at) == s + FillEvents(front, at) + [e];
      SamplesAppend(s + FillEvents(front, at), e);
    }
  }

  lemma JudgedExactly(s: seq<Event>, t: Tick)
    requires Sampled(s)
    ensures Judged(Progress(s, Some(s)), t).ledger == s + Ending(Start(s), Samples(s), t)
  {
    assert s + [] == s;
    VoidAdds(s, t.now, HorizonShort);
    VoidAdds(s, t.finishedAt, RevalidationFailed);
    EndAdds(s, Event(if t.riskExit then RiskExit else Closed, t.finishedAt));
  }

  lemma SampleKeys(s: seq<Event>, hash: string)
    requires forall i :: 0 <= i < |s| && s[i].kind.Observed? ==> s[i].kind.blockHash != hash
    ensures !KeyTaken(s, ObservedKey(hash))
  {
  }

  lemma SampleIsAdded(run: seq<Event>, source: Source, t: Tick)
    requires Current(Progress(run, Some(run))) && t.source == Some(source) && Unrecorded(run, t)
    requires MayFollow(run, Sample(source, t))
    ensures var s := run + [Sample(source, t)];
            && Put(Progress(run, Some(run)), Sample(source, t)) == Progress(s, Some(s))
            && Sampled(s) && Unfilled(s, t.fills) && Samples(s) == Samples(run) + 1 && Start(s) == Start(run)
  {
    var e := Sample(source, t);
    SampleKeys(run, source.blockHash);
    PutAdds(run, e);
    KeysAppend(run, e, TerminalKey);
    SamplesAppend(run, e);
  }

  lemma FilledExactly(s: seq<Event>, t: Tick)
    requires Sampled(s) && Unfilled(s, t.fills)
    ensures Judged(PutFills(Progress(s, Some(s)), t.fills, t.sampledAt), t).ledger
         == s + FillEvents(t.fills, t.sampledAt) + Ending(Start(s), Samples(s), t)
  {
    FillsAreAdded(s, t.fills, t.sampledAt);
    FillsAreNoSamples(s, t.fills, t.sampledAt);
    JudgedExactly(s + FillEvents(t.fills, t.sampledAt), t);
  }

  lemma RecordedSampleExactly(run: seq<Event>, source: Source, t: Tick)
    requires Current(Progress(run, Some(run))) && t.source == Some(source) && Unrecorded(run, t)
    requires MayFollow(run, Sample(source, t))
    ensures Judged(PutFills(Put(Progress(run, Some(run)), Sample(source, t)), t.fills, t.sampledAt), t).ledger
         == run + ([Sample(source, t)] + FillEvents(t.fills, t.sampledAt) + Ending(Start(run), Samples(run) + 1, t))
  {
    SampleIsAdded(run, source, t);
    FilledExactly(run + [Sample(source, t)], t);
    Regroup(run, [Sample(source, t)], FillEvents(t.fills, t.sampledAt), Ending(Start(run), Samples(run) + 1, t));
  }

  lemma Regroup(a: seq<Event>, b: seq<Event>, c: seq<Event>, d: seq<Event>)
    ensures a + b + c + d == a + (b + c + d)
  {
  }

  // ---- the invocation ----

  /** An open run that is committed, with source time `committed`, to a plan that can be followed. */
  ghost predicate Following(run: seq<Event>, start: Millis, committed: Millis) {
    && Open(run) && |run| >= 2
    && run[0].kind == EpochStarted(start) && run[1].kind == Precommitted(committed, true)
  }

  lemma FollowingRun(run: seq<Event>, start: Millis, committed: Millis)
    requires Following(run, start, committed)
    ensures Current(Progress(run, Some(run))) && !IsTerminal(run) && Start(run) == start
    ensures Precommitment(run) == Some(Precommitted(committed, true)) && !Last(run).kind.EpochStarted?
    ensures forall source, t :: MayFollow(run, Sample(source, t))
  {
    OpenRunIsUnfinished(run);
    RunShape(run);
    PrecommitmentStays(run, run[..2]);
    assert run[..2][1..][0] == run[1];
    GoodNeighbours(run, |run| - 1);
  }

  /** What an invocation adds to a run that follows its plan. */
  lemma OutcomeExact(run: seq<Event>, t: Tick, start: Millis, committed: Millis)
    requires Following(run, start, committed) && Unrecorded(run, t)
    ensures SampleTaken(Progress(run, Some(run)), t).ledger == run + Outcome(run, start, committed, t)
  {
    FollowingRun(run, start, committed);
    SamplesAreCounted(run);
    assert run + [] == run;
    VoidAdds(run, t.now, LateSample);
    VoidAdds(run, t.now, NoAdvance);
    VoidAdds(run, t.completedAt, SourceUnavailable);
    VoidAdds(run, t.completedAt, LateCompletion);
    match t.source
    case None =>
    case Some(source) =>
      BlockSeenExactly(run, source.block);
      RecordedSampleExactly(run, source, t);
  }

  /** The run once its plan is sealed: an interrupted initialization is finished first. */
  function WithPlan(run: seq<Event>, t: Tick): seq<Event> {
    if |run| == 1 then run + [Event(Precommitted(t.sourceTime, t.actionable), t.committedAt)] else run
  }

  lemma WithPlanIsSealed(run: seq<Event>, t: Tick)
    requires Open(run)
    ensures WithPlan(run, t) == Sealed(run, t) && Open(Sealed(run, t)) && |Sealed(run, t)| >= 2
    ensures var s := Sealed(run, t); s[0].kind.EpochStarted? && s[1].kind.Precommitted? && Precommitment(s) == Some(s[1].kind)
  {
    SealedRunIsOpen(run, t);
    RunShape(run);
    var s := Sealed(run, t);
    if Precommitment(run).None? { UncommittedRunIsNew(run); }
    RunShape(s);
    PrecommitmentStays(s, s[..2]);
    assert s[..2][1..][0] == s[1];
  }

  /** One invocation on an open run: an interrupted initialization is finished; a plan that cannot be followed is refused; and
      otherwise the outcome is the one above, with every fill that was derived and the time each event is recorded at. */
  lemma InvocationExact(run: seq<Event>, t: Tick)
    requires Open(run) && Unrecorded(run, t)
    ensures var s := WithPlan(run, t);
            && |s| >= 2 && s[0].kind.EpochStarted? && s[1].kind.Precommitted?
            && Processed(run, run, t) == s + if s[1].kind.actionable then Outcome(s, s[0].kind.start, s[1].kind.sourceTime, t)
                                             else [Event(Refused, if t.refusedAt > s[|s| - 1].recordedAt then t.refusedAt
                                                                  else s[|s| - 1].recordedAt + 1)]
  {
    var s := Sealed(run, t);
    WithPlanIsSealed(run, t);
    GivesUpExactly(run, t);
    if s[1].kind.actionable {
      ResumedOpenRun(run, t);
      assert s[0].kind == EpochStarted(s[0].kind.start) && s[1].kind == Precommitted(s[1].kind.sourceTime, true);
      UnrecordedStays(run, t);
      OutcomeExact(s, t, s[0].kind.start, s[1].kind.sourceTime);
    }
  }

  lemma UnrecordedStays(run: seq<Event>, t: Tick)
    requires Unrecorded(run, t)
    ensures Unrecorded(WithPlan(run, t), t)
  {
  }

  /** An invocation on a run that is not there or has ended changes nothing. */
  lemma NothingToDo(ledger: seq<Event>, view: seq<Event>, t: Tick)
    requires view == [] || Ended(view)
    ensures Processed(ledger, view, t) == ledger
  {
  }

  // ---- the store ----

  ghost function Slot(k: Kind): Key {
    match k
    case EpochStarted(_) => EpochKey
    case Precommitted(_, _) => PrecommitKey
    case Observed(_, hash, _) => ObservedKey(hash)
    case Fill(order) => FillKey(order)
    case Refused => TerminalKey
    case Closed => TerminalKey
    case RiskExit => TerminalKey
    case Void(_) => TerminalKey
  }

  ghost predicate Continues(before: Kind, after: Kind) {
    match before
    case EpochStarted(_) => after.Precommitted? || after.Void?
    case Precommitted(_, _) => after.Observed? || after.Refused? || after.Void?
    case Observed(_, _, _) => after.Observed? || after.Fill? || after.Closed? || after.RiskExit? || after.Void?
    case Fill(_) => after.Observed? || after.Fill? || after.Closed? || after.RiskExit? || after.Void?
    case _ => false
  }

  /** An append writes the event exactly when the view is the whole ledger, the event may follow it, and its slot is free; a
      caller whose view is followed by this very event already gets it back; and every other append is a conflict. */
  lemma AppendExact(ledger: seq<Event>, view: seq<Event>, e: Event)
    ensures var (after, seen) := Append(ledger, view, e);
            var free := forall i :: 0 <= i < |ledger| ==> Slot(ledger[i].kind) != Slot(e.kind);
            var writes := free && view == ledger
                          && if ledger == [] then e.kind.EpochStarted? else Continues(ledger[|ledger| - 1].kind, e.kind);
            && after == (if writes then ledger + [e] else ledger)
            && (seen == Some(view + [e]) <==> writes || (|view| < |ledger| && ledger[..|view| + 1] == view + [e]))
            && (seen == None || seen == Some(view + [e]))
  {
    forall k ensures Slot(k) == KeyOf(k) {
    }
    if |view| < |ledger| && ledger[..|view| + 1] == view + [e] {
      assert ledger[|view|] == (view + [e])[|view|] == e;
      assert KeyTaken(ledger, KeyOf(e.kind));
    }
    if view + [e] <= ledger { assert ledger[..|view| + 1] == view + [e]; }
  }

  // ---- the sweep ----

  /** The run's next sample, or its horizon, is more than three minutes overdue. */
  ghost predicate Overdue(run: seq<Event>, start: Millis, now: Millis) {
    now > start + (|SampleIndices(run)| + 1) * 300000 + 180000 || now > start + 900000 + 180000
  }

  ghost predicate Unfinished(c: Candidate) {
    c.events.Some? && c.events.value != [] && !Ended(c.events.value)
  }

  /** A void goes through for the candidate. */
  ghost predicate CanBeVoided(c: Candidate, run: seq<Event>)
    requires run != []
  {
    c.accepted && c.checkpoint > run[|run| - 1].recordedAt
  }

  /** The candidate could not be read, verified or voided. */
  ghost predicate GoesWrong(c: Candidate, now: Millis) {
    || c.events.None?
    || (Unfinished(c) && !c.recognised)
    || (Unfinished(c) && c.recognised && Overdue(c.events.value, Start(c.events.value), now) && !CanBeVoided(c, c.events.value))
  }

  ghost predicate FoundEnded(c: Candidate) {
    c.refreshed.Some? && Ended(c.refreshed.value)
  }

  /** Each verdict of the sweep, for every candidate. */
  lemma VerdictExact(c: Candidate, currentRun: string, now: Millis)
    ensures var v := VerdictOn(c, currentRun, now);
            if c.runId == currentRun then v == Excluded
            else
              && (v == Voided <==> Unfinished(c) && c.recognised && Overdue(c.events.value, Start(c.events.value), now)
                                   && CanBeVoided(c, c.events.value))
              && (v == Deferred <==> Unfinished(c) && c.recognised && !Overdue(c.events.value, Start(c.events.value), now))
              && (v == AlreadyTerminal <==> (c.events.Some? && !Unfinished(c)) || (GoesWrong(c, now) && FoundEnded(c)))
              && (v == Failed <==> GoesWrong(c, now) && !FoundEnded(c))
  {
    if c.events.Some? {
      SamplesAreCounted(c.events.value);
    }
  }
}
