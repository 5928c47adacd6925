/** The shadow-grid event ledger: an append-only run of one forward shadow window, its timing rules, and the shape every
    well-recorded run has. */
module ShadowGrid {
  import opened Outcomes

  type Millis = int

  /** Why a run was given up. */
  datatype VoidReason =
    | LateSample | SourceUnavailable | LateCompletion | NoAdvance | HorizonShort | RevalidationFailed | Abandoned

  datatype Kind =
    | EpochStarted(start: Millis)
    | Precommitted(sourceTime: Millis, actionable: bool)
    | Refused
    | Observed(block: nat, blockHash: string, blockTime: Millis)
    | Fill(order: nat)
    | Closed
    | RiskExit
    | Void(reason: VoidReason)

  datatype Event = Event(kind: Kind, recordedAt: Millis)

  /** The unique idempotency key of an event within its run. */
  datatype Key = EpochKey | PrecommitKey | TerminalKey | ObservedKey(blockHash: string) | FillKey(order: nat)

  const CADENCE: Millis := 300000
  const HORIZON: Millis := 900000
  const GRACE: Millis := 180000
  const EARLY_TOLERANCE: Millis := 90000

  predicate Terminal(k: Kind) {
    k.Refused? || k.Closed? || k.RiskExit? || k.Void?
  }

  function KeyOf(k: Kind): Key {
    match k
    case EpochStarted(_) => EpochKey
    case Precommitted(_, _) => PrecommitKey
    case Observed(_, hash, _) => ObservedKey(hash)
    case Fill(order) => FillKey(order)
    case _ => TerminalKey
  }

  // ---- reading a run ----

  function Last(run: seq<Event>): Event
    requires run != []
  {
    run[|run| - 1]
  }

  predicate IsTerminal(run: seq<Event>) {
    run != [] && Terminal(Last(run).kind)
  }

  function Start(run: seq<Event>): Millis {
    if run != [] && run[0].kind.EpochStarted? then run[0].kind.start else 0
  }

  function Samples(run: seq<Event>): nat {
    if run == [] then 0
    else Samples(run[..|run| - 1]) + if Last(run).kind.Observed? then 1 else 0
  }

  /** The block of the latest sample. */
  function LastBlock(run: seq<Event>): Option<nat> {
    if run == [] then None
    else if Last(run).kind.Observed? then Some(Last(run).kind.block)
    else LastBlock(run[..|run| - 1])
  }

  function Precommitment(run: seq<Event>): (plan: Option<Kind>)
    ensures plan.Some? ==> plan.value.Precommitted?
  {
    if run == [] then None
    else if run[0].kind.Precommitted? then Some(run[0].kind)
    else Precommitment(run[1..])
  }

  /** The run is committed to a plan that can be followed. */
  predicate PlanActionable(run: seq<Event>) {
    Precommitment(run).Some? && Precommitment(run).value.actionable
  }

  // ---- timing ----

  function Min(a: int, b: int): int {
    if a <= b then a else b
  }

  function Max(a: int, b: int): int {
    if a >= b then a else b
  }

  function NextDue(run: seq<Event>): Millis {
    Start(run) + (Samples(run) + 1) * CADENCE
  }

  function HorizonEnd(run: seq<Event>): Millis {
    Start(run) + HORIZON
  }

  /** The sampler gives up on a run. */
  predicate Late(run: seq<Event>, now: Millis) {
    now > HorizonEnd(run) + GRACE || now > NextDue(run) + GRACE
  }

  predicate Early(run: seq<Event>, now: Millis) {
    now < NextDue(run) - EARLY_TOLERANCE
  }

  function SampleDeadline(run: seq<Event>): Millis {
    Min(NextDue(run), HorizonEnd(run)) + GRACE
  }

  /** The sweep's deadline for an abandoned run. */
  function AbandonmentDeadline(run: seq<Event>): Millis {
    Min(Start(run) + (Samples(run) + 1) * CADENCE + GRACE, Start(run) + HORIZON + GRACE)
  }

  /** A refusal is recorded after the event it follows. */
  function RefusalTime(view: seq<Event>, clock: Millis): Millis {
    if view == [] then clock else Max(clock, Last(view).recordedAt + 1)
  }

  /** The window of the k-th sample of a run that started at `start`. */
  predicate InWindow(start: Millis, k: nat, at: Millis) {
    start + k * CADENCE - EARLY_TOLERANCE <= at <= start + k * CADENCE + GRACE
  }

  lemma WindowsAreOrdered(start: Millis, j: nat, k: nat, a: Millis, b: Millis)
    requires j < k && InWindow(start, j, a) && InWindow(start, k, b)
    ensures a < b
  {
  }

  /** A sampler that is neither early nor late is at most at the third sample, and inside that sample's window. */
  lemma SamplingIsInWindow(run: seq<Event>, now: Millis, at: Millis)
    requires !Late(run, now) && !Early(run, now) && now <= at <= SampleDeadline(run)
    ensures Samples(run) < 3 && InWindow(Start(run), Samples(run) + 1, at)
  {
  }

  // ---- the store ----

  predicate Allowed(before: Kind, after: Kind) {
    match before
    case EpochStarted(_) => after.Precommitted? || after.Void?
    case Precommitted(_, _) => after.Refused? || after.Observed? || after.Void?
    case Observed(_, _, _) => after.Observed? || after.Fill? || after.Closed? || after.Void? || after.RiskExit?
    case Fill(_) => after.Observed? || after.Fill? || after.Closed? || after.Void? || after.RiskExit?
    case _ => false
  }

  predicate MayFollow(run: seq<Event>, e: Event) {
    if run == [] then e.kind.EpochStarted? else Allowed(Last(run).kind, e.kind)
  }

  predicate KeyTaken(run: seq<Event>, key: Key) {
    exists i :: 0 <= i < |run| && KeyOf(run[i].kind) == key
  }

  /** Appending on a view: accepted on the current head only, or replayed when exactly this event is already there.
      `None` is a conflict. The first component is the ledger afterwards, the second the caller's new view. */
  function Append(ledger: seq<Event>, view: seq<Event>, e: Event): (seq<Event>, Option<seq<Event>>) {
    if KeyTaken(ledger, KeyOf(e.kind)) then
      (ledger, if view + [e] <= ledger then Some(view + [e]) else None)
    else if ledger == view && MayFollow(ledger, e) then (ledger + [e], Some(ledger + [e]))
    else (ledger, None)
  }

  /** Appending never rewrites, never adds to a finished run, and leaves the caller with a true prefix. */
  lemma AppendOnly(ledger: seq<Event>, view: seq<Event>, e: Event)
    ensures var (after, seen) := Append(ledger, view, e);
            && ledger <= after
            && (IsTerminal(ledger) ==> after == ledger)
            && (seen.Some? ==> seen.value == view + [e] && seen.value <= after)
  {
  }

  // ---- well-recorded runs ----

  predicate BlockAdvances(run: seq<Event>, block: nat) {
    LastBlock(run).Some? ==> block > LastBlock(run).value
  }

  /** A price sample's source block. */
  datatype Source = Source(block: nat, blockHash: string, blockTime: Millis)

  /** The sample is from after the committed source and from a later block than the sample before. */
  predicate Advances(view: seq<Event>, source: Source) {
    && Precommitment(view).Some?
    && source.blockTime > Precommitment(view).value.sourceTime
    && BlockAdvances(view, source.block)
  }

  /** A sample may be recorded on this run at this time. */
  predicate SampleFits(run: seq<Event>, block: nat, at: Millis) {
    && PlanActionable(run)
    && Samples(run) < 3 && InWindow(Start(run), Samples(run) + 1, at) && BlockAdvances(run, block)
  }

  ghost predicate Fits(run: seq<Event>, e: Event) {
    && MayFollow(run, e)
    && (e.kind.Observed? ==> SampleFits(run, e.kind.block, e.recordedAt))
    && (e.kind.Closed? ==> Samples(run) == 3)
  }

  ghost predicate Good(run: seq<Event>) {
    run != [] ==> Good(run[..|run| - 1]) && Fits(run[..|run| - 1], Last(run))
  }

  lemma {:induction false} GoodPrefix(run: seq<Event>, prefix: seq<Event>)
    requires Good(run) && prefix <= run
    ensures Good(prefix)
    decreases |run|
  {
    if prefix != run {
      assert prefix <= run[..|run| - 1];
      GoodPrefix(run[..|run| - 1], prefix);
    }
  }

  lemma GoodAppend(run: seq<Event>, e: Event)
    requires Good(run) && Fits(run, e)
    ensures Good(run + [e])
  {
  }

  lemma {:induction false} PrecommitmentAppend(run: seq<Event>, e: Event)
    ensures Precommitment(run + [e]) ==
              if Precommitment(run).Some? then Precommitment(run)
              else if e.kind.Precommitted? then Some(e.kind) else None
    decreases |run|
  {
    if run == [] {
      assert (run + [e])[1..] == [];
    } else {
      assert (run + [e])[1..] == run[1..] + [e];
      if !run[0].kind.Precommitted? { PrecommitmentAppend(run[1..], e); }
    }
  }

  /** A plan is never replaced. */
  lemma {:induction false} PrecommitmentStays(run: seq<Event>, prefix: seq<Event>)
    requires prefix <= run && Precommitment(prefix).Some?
    ensures Precommitment(run) == Precommitment(prefix)
    decreases |run|
  {
    if prefix != run {
      var front := run[..|run| - 1];
      PrecommitmentStays(front, prefix);
      assert run == front + [Last(run)];
      PrecommitmentAppend(front, Last(run));
    }
  }

  lemma {:induction false} StartOfPrefix(run: seq<Event>, prefix: seq<Event>)
    requires prefix <= run && prefix != []
    ensures Start(prefix) == Start(run)
  {
  }

  lemma {:induction false} SamplesBounded(run: seq<Event>)
    requires Good(run)
    ensures Samples(run) <= 3
    decreases |run|
  {
    if run != [] {
      SamplesBounded(run[..|run| - 1]);
    }
  }

  lemma {:induction false} SamplesGrow(run: seq<Event>, prefix: seq<Event>)
    requires prefix <= run
    ensures Samples(prefix) <= Samples(run)
    decreases |run|
  {
    if prefix != run {
      assert prefix <= run[..|run| - 1];
      SamplesGrow(run[..|run| - 1], prefix);
    }
  }

  /** Every pair of neighbours follows the lifecycle. */
  lemma GoodNeighbours(run: seq<Event>, i: nat)
    requires Good(run) && i < |run|
    ensures Fits(run[..i], run[i])
  {
    GoodPrefix(run, run[..i + 1]);
    assert run[..i + 1][..i] == run[..i];
  }

  /** The blocks of earlier samples are below the latest one. */
  lemma {:induction false} BlocksBelowLast(run: seq<Event>, i: nat)
    requires Good(run) && i < |run| && run[i].kind.Observed?
    ensures LastBlock(run).Some? && run[i].kind.block <= LastBlock(run).value
    decreases |run|
  {
    if i < |run| - 1 {
      BlocksBelowLast(run[..|run| - 1], i);
    }
  }

  /** The k-th sample lies in the k-th window. */
  lemma SampleInItsWindow(run: seq<Event>, i: nat)
    requires Good(run) && i < |run| && run[i].kind.Observed?
    ensures InWindow(Start(run), Samples(run[..i]) + 1, run[i].recordedAt)
  {
    GoodNeighbours(run, i);
    StartOfPrefix(run, run[..i]);
  }

  lemma SamplesCounted(run: seq<Event>, i: nat, j: nat)
    requires i < j <= |run| && run[i].kind.Observed?
    ensures Samples(run[..i]) < Samples(run[..j])
  {
    SamplesGrow(run[..j], run[..i + 1]);
    assert run[..i + 1][..i] == run[..i];
  }

  lemma BlocksIncrease(run: seq<Event>, i: nat, j: nat)
    requires Good(run) && i < j < |run| && run[i].kind.Observed? && run[j].kind.Observed?
    ensures run[i].kind.block < run[j].kind.block
  {
    GoodNeighbours(run, j);
    GoodPrefix(run, run[..j]);
    BlocksBelowLast(run[..j], i);
  }

  /** Samples are in strictly increasing order of block and of time, each inside its own window. */
  lemma SamplesAdvance(run: seq<Event>, i: nat, j: nat)
    requires Good(run) && i < j < |run| && run[i].kind.Observed? && run[j].kind.Observed?
    ensures run[i].kind.block < run[j].kind.block && run[i].recordedAt < run[j].recordedAt
    ensures InWindow(Start(run), Samples(run[..i]) + 1, run[i].recordedAt)
    ensures Samples(run[..i]) < Samples(run[..j])
  {
    BlocksIncrease(run, i, j);
    SamplesCounted(run, i, j);
    SampleInItsWindow(run, i);
    SampleInItsWindow(run, j);
    WindowsAreOrdered(Start(run), Samples(run[..i]) + 1, Samples(run[..j]) + 1, run[i].recordedAt, run[j].recordedAt);
  }

  /** Only an actionable plan is ever sampled. */
  lemma SampledRunIsActionable(run: seq<Event>, i: nat)
    requires Good(run) && i < |run| && run[i].kind.Observed?
    ensures PlanActionable(run)
  {
    GoodNeighbours(run, i);
    PrecommitmentStays(run, run[..i]);
  }

  /** The shape of a run: an epoch, a precommitment, groups of a sample and its fills, and at most one terminal event,
      which is the last; a run without samples is refused or voided, and only a run with three samples is closed. */
  lemma RunShape(run: seq<Event>)
    requires Good(run)
    ensures run != [] ==> run[0].kind.EpochStarted?
    ensures |run| >= 2 ==> run[1].kind.Precommitted? || (run[1].kind.Void? && |run| == 2)
    ensures |run| >= 3 ==> run[2].kind.Observed? || ((run[2].kind.Refused? || run[2].kind.Void?) && |run| == 3)
    ensures forall i :: 3 <= i < |run| ==> run[i].kind.Observed? || run[i].kind.Fill? || (Terminal(run[i].kind) && !run[i].kind.Refused?)
    ensures forall i :: 0 <= i < |run| - 1 ==> !Terminal(run[i].kind)
    ensures Samples(run) <= 3
    ensures run != [] && Last(run).kind.Closed? ==> Samples(run) == 3
    ensures run != [] && Last(run).kind.RiskExit? ==> 1 <= Samples(run) <= 3
  {
    forall i | 0 <= i < |run| ensures i > 0 ==> Allowed(run[i - 1].kind, run[i].kind) {
      GoodNeighbours(run, i);
    }
    if run != [] { GoodNeighbours(run, 0); }
    SamplesBounded(run);
    if |run| >= 3 && run[2].kind.Observed? {
      SamplesGrow(run, run[..3]);
      assert run[..3][..2] == run[..2];
    }
  }
}
