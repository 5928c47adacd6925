/** Polling loses nothing and makes progress. Against a server that returns the oldest 25 messages at or after the requested
    time no mail is lost whatever fails or dies, because a page is handled oldest first and stored message by message; and
    with at most 24 messages in every closed one-second window all of it is recorded. The bound is exact. */
module PollingProgress {
  import opened Outcomes
  import opened Runs
  import opened RuntimePolling
  import opened PollingExactlyOnce

  /** A state of the host against the mail the server holds. */
  datatype Box = Box(tracked: Tracked, mailbox: set<Message>)

  /** The oldest messages at or after `since`, all of them unless the page is full. */
  ghost predicate OldestPage(mailbox: set<Message>, since: Millis, limit: nat, page: seq<Message>) {
    && |page| <= limit
    && Distinct(page)
    && (forall i :: 0 <= i < |page| ==> page[i] in mailbox && since <= page[i].createdAt)
    && (forall m :: m in mailbox && since <= m.createdAt && m !in page ==>
          |page| == limit && forall i :: 0 <= i < |page| ==> page[i].createdAt <= m.createdAt)
  }

  /** Mail is only added, and not further in the past than the host still looks. */
  ghost predicate Arrivals(before: set<Message>, after: set<Message>, since: Millis) {
    before <= after && forall m :: m in after - before ==> since <= m.createdAt
  }

  /** Mail arrives, and the page is then what the server returns for this state. */
  ghost predicate Served(all: set<Message>, b: Box, mailbox: set<Message>, page: seq<Message>) {
    && mailbox <= all
    && Arrivals(b.mailbox, mailbox, PollSince(b.tracked.state))
    && OldestPage(mailbox, PollSince(b.tracked.state), PAGE_LIMIT, page)
  }

  /** Mail in scope that has not been recorded. */
  ghost function Pending(b: Box, origin: Millis): set<Message> {
    set m | m in b.mailbox && origin <= m.createdAt && m !in b.tracked.log
  }

  ghost predicate NoneLost(all: set<Message>, origin: Millis, b: Box) {
    && Remembers(all, b.tracked)
    && b.mailbox <= all
    && origin <= PollSince(b.tracked.state)
    && forall m :: m in Pending(b, origin) ==> PollSince(b.tracked.state) <= m.createdAt
  }

  // ---- what handling a page records ----

  ghost predicate Covered(t: Tracked, p: Progress, s: seq<Message>) {
    forall i :: 0 <= i < |s| ==> s[i] in t.log + p.recorded
  }

  lemma {:induction false} HandleAllRemembers(all: set<Message>, profile: Profile, c: Cycle, t: Tracked, s: seq<Message>, latest: Millis)
    requires IdsUnique(all) && Remembers(all, t) && t.state.cursor <= latest
    requires forall i :: 0 <= i < |s| ==> s[i] in all && s[i].createdAt <= latest
    ensures var p := HandleAll(profile, c, Begin(t.state, c.now), s);
            && Remembers(all, Advance(t, p))
            && (!p.failed ==> Covered(t, p, s))
            && t.state.cursor <= p.state.cursor <= latest
    decreases |s|
  {
    if s == [] {
      assert t.log + [] == t.log;
    } else {
      var front, m := s[..|s| - 1], s[|s| - 1];
      HandleAllRemembers(all, profile, c, t, front, latest);
      var p := HandleAll(profile, c, Begin(t.state, c.now), front);
      HandleCovers(all, profile, c, t, p, front, m);
      assert s == front + [m];
    }
  }

  lemma HandleCovers(all: set<Message>, profile: Profile, c: Cycle, t: Tracked, p: Progress, front: seq<Message>, m: Message)
    requires IdsUnique(all) && Remembers(all, Advance(t, p)) && m in all
    requires !p.failed ==> Covered(t, p, front)
    ensures var q := Handle(profile, c, p, m);
            && Remembers(all, Advance(t, q))
            && (!q.failed ==> Covered(t, q, front + [m]))
            && (q.state.cursor == p.state.cursor || q.state.cursor == Max(p.state.cursor, m.createdAt))
  {
    var u, q := Advance(t, p), Handle(profile, c, p, m);
    if !q.failed {
      if HasProcessed(p.state, m.id) {
        RememberedAreLogged(all, u, m);
      } else {
        RecordRemembers(all, u, m, BuildDecision(m, profile), c.now);
        assert t.log + q.recorded == u.log + [m];
      }
    }
  }

  /** Whether or not a reply fails, the outcome is that of handling some first part of the messages without a failure. */
  lemma {:induction false} FailurePoint(profile: Profile, c: Cycle, st: RuntimeState, s: seq<Message>) returns (k: nat)
    ensures k <= |s|
    ensures var p, q := HandleAll(profile, c, Begin(st, c.now), s), HandleAll(profile, c, Begin(st, c.now), s[..k]);
            !q.failed && q.state == p.state && q.recorded == p.recorded
    decreases |s|
  {
    if s == [] {
      k := 0;
    } else if HandleAll(profile, c, Begin(st, c.now), s).failed {
      var front := s[..|s| - 1];
      k := FailurePoint(profile, c, st, front);
      assert front[..k] == s[..k];
    } else {
      k := |s|;
      assert s[..k] == s;
    }
  }

  // ---- nothing is lost ----

  /** The latest time a sorted page has been handled up to. */
  function Reached(t: Tracked, sorted: seq<Message>, k: nat): Millis
    requires k <= |sorted|
  {
    if k == 0 then t.state.cursor else Max(t.state.cursor, sorted[k - 1].createdAt)
  }

  /** Handling the first `k` messages of a sorted page records them and takes the cursor to the last of them at most. */
  lemma FirstPartCovers(all: set<Message>, profile: Profile, c: Cycle, t: Tracked, k: nat)
    requires IdsUnique(all) && Remembers(all, t) && k <= |Sort(c.page)|
    requires forall i :: 0 <= i < |c.page| ==> c.page[i] in all
    requires !HandleAll(profile, c, Begin(t.state, c.now), Sort(c.page)[..k]).failed
    ensures var p := HandleAll(profile, c, Begin(t.state, c.now), Sort(c.page)[..k]);
            && Remembers(all, Advance(t, p))
            && Covered(t, p, Sort(c.page)[..k])
            && t.state.cursor <= p.state.cursor <= Reached(t, Sort(c.page), k)
  {
    var sorted := Sort(c.page);
    SortSorts(c.page);
    forall i | 0 <= i < k ensures sorted[i] in all && sorted[i].createdAt <= Reached(t, sorted, k) {
      SortMembers(c.page, sorted[i]);
    }
    HandleAllRemembers(all, profile, c, t, sorted[..k], Reached(t, sorted, k));
  }

  /** A message that is served but not among the first `k`, or not served at all, is not older than those. */
  lemma UnhandledIsLater(t: Tracked, mailbox: set<Message>, page: seq<Message>, k: nat, m: Message)
    requires OldestPage(mailbox, PollSince(t.state), PAGE_LIMIT, page) && k <= |Sort(page)|
    requires m in mailbox && PollSince(t.state) <= m.createdAt && m !in Sort(page)[..k]
    ensures k > 0 ==> Sort(page)[k - 1].createdAt <= m.createdAt
  {
    var sorted := Sort(page);
    SortSorts(page);
    SortMembers(page, m);
    if k > 0 {
      SortMembers(page, sorted[k - 1]);
      if m in page {
        assert sorted == sorted[..k] + sorted[k..];
        var j :| 0 <= j < |sorted[k..]| && sorted[k..][j] == m;
        assert sorted[k + j] == m;
      }
    }
  }

  /** Wherever a cycle stops, by a failed reply or by a death, no unrecorded message has fallen further behind the cursor
      than the overlap. This is what handling a page oldest first and storing the state after each message is for. */
  lemma PartOfPageKeepsMail(all: set<Message>, origin: Millis, profile: Profile, b: Box, mailbox: set<Message>, c: Cycle, handled: nat)
    requires IdsUnique(all) && NoneLost(all, origin, b) && Served(all, b, mailbox, c.page)
    ensures var p := HandleAll(profile, c, Begin(b.tracked.state, c.now), Prefix(Sort(c.page), handled));
            NoneLost(all, origin, Box(Advance(b.tracked, p), mailbox))
  {
    var t, sorted := b.tracked, Sort(c.page);
    var s := Prefix(sorted, handled);
    var k := FailurePoint(profile, c, t.state, s);
    assert s[..k] == sorted[..k];
    FirstPartCovers(all, profile, c, t, k);
    var after := Advance(t, HandleAll(profile, c, Begin(t.state, c.now), s));
    forall m | m in Pending(Box(after, mailbox), origin) ensures PollSince(after.state) <= m.createdAt {
      UnrecordedIsAhead(all, origin, b, mailbox, c.page, k, after, m);
    }
  }

  /** What has not been recorded is not behind a cursor that got no further than the first `k` messages. */
  lemma UnrecordedIsAhead(all: set<Message>, origin: Millis, b: Box, mailbox: set<Message>, page: seq<Message>, k: nat,
                          after: Tracked, m: Message)
    requires NoneLost(all, origin, b) && Served(all, b, mailbox, page) && k <= |Sort(page)|
    requires after.state.cursor <= Reached(b.tracked, Sort(page), k)
    requires m in mailbox && origin <= m.createdAt && m !in Sort(page)[..k] && m !in b.tracked.log
    ensures PollSince(after.state) <= m.createdAt
  {
    assert PollSince(b.tracked.state) <= m.createdAt by {
      if m in b.mailbox { assert m in Pending(b, origin); }
    }
    UnhandledIsLater(b.tracked, mailbox, page, k, m);
  }

  lemma ArrivalsKeepMail(all: set<Message>, origin: Millis, b: Box, mailbox: set<Message>)
    requires NoneLost(all, origin, b) && mailbox <= all && Arrivals(b.mailbox, mailbox, PollSince(b.tracked.state))
    ensures NoneLost(all, origin, Box(b.tracked, mailbox))
  {
    forall m | m in Pending(Box(b.tracked, mailbox), origin) ensures PollSince(b.tracked.state) <= m.createdAt {
      if m in b.mailbox { assert m in Pending(b, origin); }
    }
  }

  // ---- runs with mail, failures and deaths ----

  datatype Mail = Mail(world: World, mailbox: set<Message>)

  /** New mail arrives; then a cycle runs, fails, or dies. */
  datatype Delivery = Delivery(mailbox: set<Message>, event: Event)

  function MailStep(profile: Profile, s: Mail, e: Delivery): Mail {
    Mail(WorldStep(profile, s.world, e.event), e.mailbox)
  }

  function InMemory(s: Mail): Box {
    Box(s.world.memory, s.mailbox)
  }

  function OnDisk(s: Mail): Box {
    Box(s.world.disk, s.mailbox)
  }

  /** Mail arrives behind neither the running host nor the one a restart would give, and the host gets the oldest page. */
  ghost predicate Delivered(all: set<Message>, s: Mail, e: Delivery) {
    && Served(all, InMemory(s), e.mailbox, e.event.cycle.page)
    && Arrivals(s.mailbox, e.mailbox, PollSince(s.world.disk.state))
  }

  ghost predicate MailKept(all: set<Message>, origin: Millis, s: Mail) {
    NoneLost(all, origin, InMemory(s)) && NoneLost(all, origin, OnDisk(s))
  }

  lemma MailStepKeeps(all: set<Message>, origin: Millis, profile: Profile, s: Mail, e: Delivery)
    requires IdsUnique(all) && MailKept(all, origin, s) && Delivered(all, s, e)
    ensures MailKept(all, origin, MailStep(profile, s, e))
  {
    ArrivalsKeepMail(all, origin, InMemory(s), e.mailbox);
    ArrivalsKeepMail(all, origin, OnDisk(s), e.mailbox);
    match e.event
    case Polled(c) =>
      PartOfPageKeepsMail(all, origin, profile, InMemory(s), e.mailbox, c, |Sort(c.page)|);
    case CrashedDuring(c, handled) =>
      PartOfPageKeepsMail(all, origin, profile, InMemory(s), e.mailbox, c, handled);
  }

  /** Over any run of completed, failing and dying cycles with mail arriving in between, unrecorded mail falls behind the
      request time neither of the running host nor of the state file: nothing is lost. */
  lemma NothingIsLost(all: set<Message>, profile: Profile, now: Millis, mailbox: set<Message>, events: seq<Delivery>)
    requires IdsUnique(all) && mailbox <= all
    requires Admissible(Mail(Started(CreateState(now)), mailbox), events, (s, e) => MailStep(profile, s, e),
                        (s, e) => Delivered(all, s, e))
    ensures MailKept(all, PollSince(CreateState(now)),
                     Fold(Mail(Started(CreateState(now)), mailbox), events, (s, e) => MailStep(profile, s, e)))
  {
    var start, origin := Mail(Started(CreateState(now)), mailbox), PollSince(CreateState(now));
    var step := (s, e) => MailStep(profile, s, e);
    assert LastN<Message>([], DEDUPE_WINDOW) == [];
    forall s, e | MailKept(all, origin, s) && Delivered(all, s, e) ensures MailKept(all, origin, step(s, e)) {
      MailStepKeeps(all, origin, profile, s, e);
    }
    InvariantWhen(start, events, step, (s, e) => Delivered(all, s, e), s => MailKept(all, origin, s));
  }

  // ---- progress ----

  /** A completed cycle records its whole page. */
  lemma CycleCoversPage(all: set<Message>, profile: Profile, c: Cycle, t: Tracked)
    requires IdsUnique(all) && Remembers(all, t)
    requires forall i :: 0 <= i < |c.page| ==> c.page[i] in all
    requires !CycleResult(profile, t.state, c).failed
    ensures Covered(t, CycleResult(profile, t.state, c), c.page)
  {
    var sorted := Sort(c.page);
    assert sorted[..|sorted|] == sorted;
    FirstPartCovers(all, profile, c, t, |sorted|);
    forall i | 0 <= i < |c.page| ensures c.page[i] in t.log + CycleResult(profile, t.state, c).recorded {
      SortMembers(c.page, c.page[i]);
      var k :| 0 <= k < |sorted| && sorted[k] == c.page[i];
    }
  }

  lemma {:induction false} RememberedPageStalls(profile: Profile, c: Cycle, st: RuntimeState, s: seq<Message>)
    requires forall i :: 0 <= i < |s| ==> HasProcessed(st, s[i].id)
    ensures HandleAll(profile, c, Begin(st, c.now), s) == Begin(st, c.now)
    decreases |s|
  {
    if s != [] {
      RememberedPageStalls(profile, c, st, s[..|s| - 1]);
    }
  }

  lemma {:induction false} QuietPrefix(profile: Profile, c: Cycle, st: RuntimeState, s: seq<Message>)
    requires var p := HandleAll(profile, c, Begin(st, c.now), s); p.recorded == [] && !p.failed
    ensures forall i :: 0 <= i < |s| ==> HasProcessed(st, s[i].id)
    decreases |s|
  {
    if s != [] {
      var front := s[..|s| - 1];
      var p := HandleAll(profile, c, Begin(st, c.now), front);
      assert p.recorded == [] && !p.failed;
      QuietPrefix(profile, c, st, front);
      RecordedAreServed(profile, c, st, front);
      forall i | 0 <= i < |s| ensures HasProcessed(st, s[i].id) {
        assert i < |front| ==> front[i] == s[i];
      }
    }
  }

  /** A completed cycle records something exactly when some served message was not processed; otherwise the cursor, and with
      it the next request, stays as it was. */
  lemma ProgressExactly(profile: Profile, c: Cycle, st: RuntimeState)
    requires !CycleResult(profile, st, c).failed
    ensures var p := CycleResult(profile, st, c);
            && (p.recorded != [] <==> exists i :: 0 <= i < |c.page| && !HasProcessed(st, c.page[i].id))
            && (p.recorded == [] ==> p.sent == [] && PollSince(p.state) == PollSince(st))
  {
    var p, sorted := CycleResult(profile, st, c), Sort(c.page);
    SentMatchesRecorded(profile, c, st, sorted);
    RecordedAreServed(profile, c, st, sorted);
    if p.recorded == [] {
      QuietPrefix(profile, c, st, sorted);
      forall i | 0 <= i < |c.page| ensures HasProcessed(st, c.page[i].id) {
        SortMembers(c.page, c.page[i]);
        var k :| 0 <= k < |sorted| && sorted[k] == c.page[i];
      }
    } else if forall i :: 0 <= i < |c.page| ==> HasProcessed(st, c.page[i].id) {
      forall i | 0 <= i < |sorted| ensures HasProcessed(st, sorted[i].id) {
        SortMembers(c.page, sorted[i]);
      }
      RememberedPageStalls(profile, c, st, sorted);
      assert false;
    }
  }

  /** A completed cycle with mail pending records at least one message that was not recorded before. */
  lemma CycleMakesProgress(all: set<Message>, origin: Millis, profile: Profile, b: Box, mailbox: set<Message>, c: Cycle, m: Message)
    requires IdsUnique(all) && NoneLost(all, origin, b) && Served(all, b, mailbox, c.page)
    requires !CycleResult(profile, b.tracked.state, c).failed && Density(mailbox, 1000, 24)
    requires m in Pending(Box(b.tracked, mailbox), origin)
    ensures exists x :: x in Pending(Box(b.tracked, mailbox), origin) && x in CycleResult(profile, b.tracked.state, c).recorded
  {
    var t, page := b.tracked, c.page;
    CycleCoversPage(all, profile, c, t);
    assert PollSince(t.state) <= m.createdAt by {
      if m in b.mailbox { assert m in Pending(b, origin); }
    }
    var x := m;
    if m !in page { x := FullPageHasNews(all, t, mailbox, page); }
    var i :| 0 <= i < |page| && page[i] == x;
    assert x in t.log + CycleResult(profile, t.state, c).recorded;
  }

  /** A full page cannot consist of recorded messages only. */
  lemma FullPageHasNews(all: set<Message>, t: Tracked, mailbox: set<Message>, page: seq<Message>) returns (x: Message)
    requires Remembers(all, t) && Density(mailbox, 1000, 24)
    requires |page| == PAGE_LIMIT && Distinct(page)
    requires forall i :: 0 <= i < |page| ==> page[i] in mailbox && PollSince(t.state) <= page[i].createdAt
    ensures x in page && x !in t.log
  {
    if i :| 0 <= i < |page| && page[i] !in t.log {
      return page[i];
    }
    var window := Window(mailbox, t.state.cursor - OVERLAP_MILLIS, 1000);
    forall i | 0 <= i < |page| ensures page[i] in window {
      assert page[i] in t.log;
      var k :| 0 <= k < |t.log| && t.log[k] == page[i];
    }
    DistinctFits(page, window);
    assert false;
  }

  // ---- all mail is recorded ----

  /** What the running host has recorded, a restart would know too. */
  ghost predicate DiskIsAhead(w: World) {
    forall m :: m in w.memory.log ==> m in w.disk.log
  }

  lemma DiskStaysAhead(profile: Profile, w: World, e: Event)
    requires DiskIsAhead(w)
    ensures DiskIsAhead(WorldStep(profile, w, e))
    ensures forall m :: m in w.memory.log ==> m in WorldStep(profile, w, e).memory.log
  {
  }

  predicate Completes(profile: Profile, s: Mail, e: Delivery) {
    e.event.Polled? && !CycleResult(profile, s.world.memory.state, e.event.cycle).failed
  }

  function Completions(profile: Profile, s: Mail, events: seq<Delivery>): nat
    decreases |events|
  {
    if events == [] then 0
    else
      var front := events[..|events| - 1];
      Completions(profile, s, front)
      + if Completes(profile, Fold(s, front, (s, e) => MailStep(profile, s, e)), events[|events| - 1]) then 1 else 0
  }

  /** A cycle on an unchanged mailbox. */
  ghost predicate Quiet(all: set<Message>, s: Mail, e: Delivery) {
    Delivered(all, s, e) && e.mailbox == s.mailbox
  }

  lemma {:induction false} SubsetSize<T>(a: set<T>, b: set<T>)
    requires a <= b
    ensures |a| <= |b|
  {
    if a != {} {
      var x :| x in a;
      SubsetSize(a - {x}, b - {x});
    }
  }

  lemma DensityOfPart(all: set<Message>, part: set<Message>)
    requires Density(all, 1000, 24) && part <= all
    ensures Density(part, 1000, 24)
  {
    forall t: Millis ensures |Window(part, t, 1000)| <= 24 {
      assert Window(part, t, 1000) <= Window(all, t, 1000);
      SubsetSize(Window(part, t, 1000), Window(all, t, 1000));
    }
  }

  /** No cycle adds to the pending mail, and a completed one takes something from it. */
  lemma QuietStepShrinks(all: set<Message>, origin: Millis, profile: Profile, s: Mail, e: Delivery)
    requires IdsUnique(all) && Density(all, 1000, 24) && DiskIsAhead(s.world)
    requires MailKept(all, origin, s) && Quiet(all, s, e)
    ensures var before, after := Pending(InMemory(s), origin), Pending(InMemory(MailStep(profile, s, e)), origin);
            && |after| <= |before|
            && (Completes(profile, s, e) && before != {} ==> |after| < |before|)
  {
    DiskStaysAhead(profile, s.world, e.event);
    var before, after := Pending(InMemory(s), origin), Pending(InMemory(MailStep(profile, s, e)), origin);
    assert after <= before;
    SubsetSize(after, before);
    if Completes(profile, s, e) && before != {} {
      var m :| m in before;
      DensityOfPart(all, s.mailbox);
      CycleMakesProgress(all, origin, profile, InMemory(s), s.mailbox, e.event.cycle, m);
      var x :| x in before && x in CycleResult(profile, s.world.memory.state, e.event.cycle).recorded;
      assert after <= before - {x};
      SubsetSize(after, before - {x});
    }
  }

  lemma {:induction false} QuietRunShrinks(all: set<Message>, origin: Millis, profile: Profile, s: Mail, events: seq<Delivery>)
    requires IdsUnique(all) && Density(all, 1000, 24) && MailKept(all, origin, s) && DiskIsAhead(s.world)
    requires Admissible(s, events, (s, e) => MailStep(profile, s, e), (s, e) => Quiet(all, s, e))
    ensures var end := Fold(s, events, (s, e) => MailStep(profile, s, e));
            && MailKept(all, origin, end) && DiskIsAhead(end.world) && end.mailbox == s.mailbox
            && (Pending(InMemory(end), origin) != {} ==>
                  |Pending(InMemory(end), origin)| + Completions(profile, s, events) <= |Pending(InMemory(s), origin)|)
    decreases |events|
  {
    var step, ok := (s, e) => MailStep(profile, s, e), (s, e) => Quiet(all, s, e);
    if events != [] {
      var front, e := events[..|events| - 1], events[|events| - 1];
      QuietRunShrinks(all, origin, profile, s, front);
      var mid := Fold(s, front, step);
      assert ok(mid, e);
      MailStepKeeps(all, origin, profile, mid, e);
      DiskStaysAhead(profile, mid.world, e.event);
      QuietStepShrinks(all, origin, profile, mid, e);
      assert Fold(s, events, step) == MailStep(profile, mid, e);
    }
  }

  /** Once mail stops arriving, as many completed cycles as there are pending messages record all of them, in memory and in
      the state file, however many others fail or die in between. */
  lemma AllMailIsRecorded(all: set<Message>, origin: Millis, profile: Profile, s: Mail, events: seq<Delivery>)
    requires IdsUnique(all) && Density(all, 1000, 24) && MailKept(all, origin, s) && DiskIsAhead(s.world)
    requires Admissible(s, events, (s, e) => MailStep(profile, s, e), (s, e) => Quiet(all, s, e))
    requires |Pending(InMemory(s), origin)| <= Completions(profile, s, events)
    ensures var w := Fold(s, events, (s, e) => MailStep(profile, s, e)).world;
            forall m :: m in s.mailbox && origin <= m.createdAt ==> m in w.memory.log && m in w.disk.log
  {
    QuietRunShrinks(all, origin, profile, s, events);
    var end := Fold(s, events, (s, e) => MailStep(profile, s, e));
    assert Pending(InMemory(end), origin) != {} ==> |Pending(InMemory(end), origin)| > 0;
    forall m | m in s.mailbox && origin <= m.createdAt ensures m in end.world.memory.log && m in end.world.disk.log {
      assert m !in Pending(InMemory(end), origin);
    }
  }

  // ---- the bound is exact ----

  /** A full page of notes at one time, and one more note a minute later. */
  function Note(i: nat): Message {
    Message(seq(i, _ => 'i'), if i < PAGE_LIMIT then 0 else 60000, "", DirectMessage, "NOTE", "")
  }

  function FirstNotes(): (notes: seq<Message>)
    ensures |notes| == PAGE_LIMIT && forall i :: 0 <= i < PAGE_LIMIT ==> notes[i] == Note(i)
  {
    seq(PAGE_LIMIT, i requires 0 <= i => Note(i))
  }

  function Notes(): set<Message> {
    (set m | m in FirstNotes()) + {Note(PAGE_LIMIT)}
  }

  lemma NotesDiffer(i: nat, j: nat)
    requires i != j
    ensures Note(i) != Note(j)
  {
    assert |Note(i).id| == i && |Note(j).id| == j;
  }

  lemma {:induction false} SetOfSeqSize<T>(s: seq<T>)
    ensures |set x | x in s| <= |s|
    decreases |s|
  {
    if s != [] {
      var front, last := s[..|s| - 1], s[|s| - 1];
      SetOfSeqSize(front);
      assert s == front + [last];
      assert (set x | x in s) == (set x | x in front) + {last};
    }
  }

  lemma NotesDensity()
    ensures Density(Notes(), 1000, 25)
  {
    var first := set m | m in FirstNotes();
    SetOfSeqSize(FirstNotes());
    forall t: Millis ensures |Window(Notes(), t, 1000)| <= 25 {
      var window := Window(Notes(), t, 1000);
      if Note(PAGE_LIMIT) in window {
        assert window <= {Note(PAGE_LIMIT)};
        SubsetSize(window, {Note(PAGE_LIMIT)});
      } else {
        SubsetSize(window, first);
      }
    }
  }

  lemma NotesPage()
    ensures OldestPage(Notes(), 0, PAGE_LIMIT, FirstNotes())
  {
    forall i, j | 0 <= i < j < PAGE_LIMIT ensures FirstNotes()[i] != FirstNotes()[j] {
      NotesDiffer(i, j);
    }
  }

  /** Nothing but the first page has been recorded, and the host still asks from the start. */
  ghost predicate Stuck(s: Mail) {
    && s.mailbox == Notes() && s.world.memory.state.cursor == 0 && s.world.disk.state.cursor == 0
    && (forall m :: m in s.world.memory.log ==> m in FirstNotes())
  }

  lemma {:induction false} NotesLeaveCursor(profile: Profile, c: Cycle, st: RuntimeState, s: seq<Message>)
    requires st.cursor == 0 && forall i :: 0 <= i < |s| ==> s[i].createdAt == 0 && s[i].kind == "NOTE"
    ensures var p := HandleAll(profile, c, Begin(st, c.now), s); p.state.cursor == 0 && !p.failed
    decreases |s|
  {
    if s != [] {
      NotesLeaveCursor(profile, c, st, s[..|s| - 1]);
    }
  }

  lemma StuckStays(profile: Profile, s: Mail, e: Delivery)
    requires Stuck(s) && e.mailbox == Notes() && e.event.Polled? && e.event.cycle.page == FirstNotes()
    ensures Delivered(Notes(), s, e) && Completes(profile, s, e) && Stuck(MailStep(profile, s, e))
  {
    NotesPage();
    NotesCycle(profile, s.world.memory.state, e.event.cycle);
  }

  lemma NotesCycle(profile: Profile, st: RuntimeState, c: Cycle)
    requires st.cursor == 0 && c.page == FirstNotes()
    ensures var p := CycleResult(profile, st, c);
            !p.failed && p.state.cursor == 0 && forall m :: m in p.recorded ==> m in FirstNotes()
  {
    var sorted := Sort(c.page);
    forall i | 0 <= i < |sorted| ensures sorted[i] in FirstNotes() {
      SortMembers(c.page, sorted[i]);
    }
    NotesLeaveCursor(profile, c, st, sorted);
    RecordedAreServed(profile, c, st, sorted);
    forall m | m in CycleResult(profile, st, c).recorded ensures m in FirstNotes() {
      SortMembers(c.page, m);
    }
  }

  /** With 25 messages in a closed second the promise fails: however many cycles complete, the server may answer each with the
      same full page, and the later message is never recorded. */
  lemma {:induction false} CrowdedSecondStarves(profile: Profile, events: seq<Delivery>)
    requires forall i :: 0 <= i < |events| ==>
               events[i].mailbox == Notes() && events[i].event.Polled? && events[i].event.cycle.page == FirstNotes()
    ensures Density(Notes(), 1000, 25)
    ensures Admissible(Mail(Started(CreateState(0)), Notes()), events, (s, e) => MailStep(profile, s, e),
                       (s, e) => Delivered(Notes(), s, e))
    ensures var s := Fold(Mail(Started(CreateState(0)), Notes()), events, (s, e) => MailStep(profile, s, e));
            Stuck(s) && Note(PAGE_LIMIT) in Pending(InMemory(s), 0)
    ensures Completions(profile, Mail(Started(CreateState(0)), Notes()), events) == |events|
    decreases |events|
  {
    var start, step := Mail(Started(CreateState(0)), Notes()), (s, e) => MailStep(profile, s, e);
    NotesDensity();
    if events != [] {
      var front, e := events[..|events| - 1], events[|events| - 1];
      CrowdedSecondStarves(profile, front);
      StuckStays(profile, Fold(start, front, step), e);
      assert Fold(start, events, step) == MailStep(profile, Fold(start, front, step), e);
    }
    var s := Fold(start, events, step);
    assert Stuck(s);
    forall i | 0 <= i < PAGE_LIMIT ensures FirstNotes()[i] != Note(PAGE_LIMIT) {
      NotesDiffer(i, PAGE_LIMIT);
    }
  }
}
