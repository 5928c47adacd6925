/** Deduplication of the runtime inbox is sound although processed IDs are forgotten: whatever the pages, the
    transient failures and the crash points, no message is recorded twice as long as every closed two-second
    creation window holds at most 1000 messages. */
module PollingExactlyOnce {
  import opened Outcomes
  import opened Runs
  import opened RuntimePolling

  /** A host state together with everything recorded on the way to it. */
  datatype Tracked = Tracked(state: RuntimeState, log: seq<Message>)

  /** What the process holds in memory, what a restart would read back, and every reply the platform accepted. */
  datatype World = World(memory: Tracked, disk: Tracked, sent: seq<SentReply>)

  datatype Event =
    | Polled(cycle: Cycle)
    | CrashedDuring(cycle: Cycle, handled: nat)

  function Advance(t: Tracked, p: Progress): Tracked {
    Tracked(p.state, t.log + p.recorded)
  }

  function Prefix<T>(s: seq<T>, n: nat): seq<T> {
    if n >= |s| then s else s[..n]
  }

  function WorldStep(profile: Profile, w: World, e: Event): World {
    match e
    case Polled(c) =>
      var p := CycleResult(profile, w.memory.state, c);
      var disk := if p.recorded == [] then w.disk else Advance(w.memory, p);
      World(if p.failed then w.memory else Advance(w.memory, p), disk, w.sent + p.sent)
    case CrashedDuring(c, handled) =>
      var p := HandleAll(profile, c, Begin(w.memory.state, c.now), Prefix(Sort(c.page), handled));
      var disk := if p.recorded == [] then w.disk else Advance(w.memory, p);
      World(disk, disk, w.sent + p.sent)
  }

  // ---- windows ----

  /** The closed creation window of the given width that starts at `lo`. */
  ghost function Window(all: set<Message>, lo: Millis, width: nat): set<Message> {
    set m | m in all && lo <= m.createdAt <= lo + width
  }

  ghost predicate Density(all: set<Message>, width: nat, limit: nat) {
    forall t: Millis :: |Window(all, t, width)| <= limit
  }

  ghost predicate IdsUnique(all: set<Message>) {
    forall m, n :: m in all && n in all && m.id == n.id ==> m == n
  }

  ghost predicate Distinct<T(!new)>(s: seq<T>) {
    forall i, j :: 0 <= i < j < |s| ==> s[i] != s[j]
  }

  lemma {:induction false} DistinctFits<T(!new)>(s: seq<T>, all: set<T>)
    requires Distinct(s) && forall i :: 0 <= i < |s| ==> s[i] in all
    ensures |s| <= |all|
  {
    if s != [] {
      var last := s[|s| - 1];
      DistinctFits(s[..|s| - 1], all - {last});
    }
  }

  // ---- pages are handled oldest first ----

  ghost predicate Chronological(s: seq<Message>) {
    forall i, j :: 0 <= i <= j < |s| ==> s[i].createdAt <= s[j].createdAt
  }

  lemma {:induction false} InsertPermutes(m: Message, s: seq<Message>)
    ensures multiset(Insert(m, s)) == multiset(s) + multiset{m}
  {
    if s != [] && !ComesBefore(m, s[0]) {
      InsertPermutes(m, s[1..]);
      assert s == [s[0]] + s[1..];
    }
  }

  lemma {:induction false} InsertKeepsFloor(m: Message, s: seq<Message>, floor: Millis)
    requires floor <= m.createdAt && forall i :: 0 <= i < |s| ==> floor <= s[i].createdAt
    ensures forall i :: 0 <= i < |Insert(m, s)| ==> floor <= Insert(m, s)[i].createdAt
  {
    if s != [] && !ComesBefore(m, s[0]) {
      InsertKeepsFloor(m, s[1..], floor);
    }
  }

  lemma {:induction false} InsertSorts(m: Message, s: seq<Message>)
    requires Chronological(s)
    ensures Chronological(Insert(m, s))
  {
    if s != [] && !ComesBefore(m, s[0]) {
      InsertSorts(m, s[1..]);
      InsertKeepsFloor(m, s[1..], s[0].createdAt);
    }
  }

  /** Sorting a page is a chronological permutation of it. */
  lemma {:induction false} SortSorts(s: seq<Message>)
    ensures Chronological(Sort(s))
    ensures multiset(Sort(s)) == multiset(s)
  {
    if s != [] {
      SortSorts(s[..|s| - 1]);
      InsertSorts(s[|s| - 1], Sort(s[..|s| - 1]));
      InsertPermutes(s[|s| - 1], Sort(s[..|s| - 1]));
      assert s == s[..|s| - 1] + [s[|s| - 1]];
    }
  }

  lemma SortMembers(s: seq<Message>, m: Message)
    ensures m in Sort(s) <==> m in s
  {
    SortSorts(s);
    assert m in Sort(s) <==> m in multiset(Sort(s));
  }

  // ---- the invariant of a tracked state ----

  function Ids(s: seq<Message>): (ids: seq<string>)
    ensures |ids| == |s| && forall i :: 0 <= i < |s| ==> ids[i] == s[i].id
  {
    seq(|s|, i requires 0 <= i < |s| => s[i].id)
  }

  /** The log is known mail, the cursor is its latest creation time or later, and the state remembers exactly the
      last thousand IDs of it. */
  ghost predicate Remembers(all: set<Message>, t: Tracked) {
    && (forall i :: 0 <= i < |t.log| ==> t.log[i] in all && t.log[i].createdAt <= t.state.cursor)
    && t.state.processed == Ids(LastN(t.log, DEDUPE_WINDOW))
  }

  /** Messages are recorded once each, and never more than the overlap behind an earlier record. */
  ghost predicate OnceEach(log: seq<Message>) {
    && Distinct(log)
    && forall i, j :: 0 <= i < j < |log| ==> log[i].createdAt - OVERLAP_MILLIS <= log[j].createdAt
  }

  ghost predicate TrackedInv(all: set<Message>, t: Tracked) {
    Remembers(all, t) && OnceEach(t.log)
  }

  /** Within a cycle that began at cursor `c0`, a message at `time` may come next. */
  ghost predicate MayComeNext(log: seq<Message>, c0: Millis, time: Millis) {
    && c0 - OVERLAP_MILLIS <= time
    && forall i :: 0 <= i < |log| ==> log[i].createdAt <= c0 || log[i].createdAt <= time
  }

  lemma RememberedAreLogged(all: set<Message>, t: Tracked, m: Message)
    requires IdsUnique(all) && Remembers(all, t) && m in all
    ensures HasProcessed(t.state, m.id) ==> m in t.log
  {
  }

  /** A message that was recorded is still remembered when it can come up again. */
  lemma LoggedAreRemembered(all: set<Message>, t: Tracked, c0: Millis, m: Message)
    requires Density(all, 2000, DEDUPE_WINDOW) && TrackedInv(all, t)
    requires MayComeNext(t.log, c0, m.createdAt) && m in t.log
    ensures HasProcessed(t.state, m.id)
  {
    var p :| 0 <= p < |t.log| && t.log[p] == m;
    var since := t.log[p..];
    var window := Window(all, m.createdAt - OVERLAP_MILLIS, 2000);
    forall i | 0 <= i < |since| ensures since[i] in window {
      assert since[i] == t.log[p + i];
    }
    DistinctFits(since, window);
    var recent := LastN(t.log, DEDUPE_WINDOW);
    assert |t.log| - |recent| <= p;
    var k := p - (|t.log| - |recent|);
    assert recent[k] == m && Ids(recent)[k] == m.id;
  }

  /** Recording appends to the log and keeps the memory of it. */
  lemma RecordRemembers(all: set<Message>, t: Tracked, m: Message, d: Decision, now: Millis)
    requires Remembers(all, t) && m in all
    ensures Remembers(all, Tracked(RecordDecision(t.state, m, d, now), t.log + [m]))
  {
  }

  lemma RecordOnce(log: seq<Message>, c0: Millis, m: Message)
    requires OnceEach(log) && m !in log && MayComeNext(log, c0, m.createdAt)
    ensures OnceEach(log + [m])
  {
  }

  // ---- a cycle keeps it ----

  ghost predicate HonestPage(all: set<Message>, st: RuntimeState, page: seq<Message>) {
    forall i :: 0 <= i < |page| ==> page[i] in all && PollSince(st) <= page[i].createdAt
  }

  ghost predicate CycleInv(all: set<Message>, t: Tracked, p: Progress, time: Millis) {
    && TrackedInv(all, Advance(t, p))
    && MayComeNext(t.log + p.recorded, t.state.cursor, time)
  }

  lemma HandleKeeps(all: set<Message>, profile: Profile, c: Cycle, t: Tracked, p: Progress, m: Message)
    requires IdsUnique(all) && Density(all, 2000, DEDUPE_WINDOW) && m in all
    requires CycleInv(all, t, p, m.createdAt)
    ensures CycleInv(all, t, Handle(profile, c, p, m), m.createdAt)
  {
    var u := Advance(t, p);
    var q := Handle(profile, c, p, m);
    if q.recorded != p.recorded {
      if m in u.log { LoggedAreRemembered(all, u, t.state.cursor, m); }
      RecordRemembers(all, u, m, BuildDecision(m, profile), c.now);
      RecordOnce(u.log, t.state.cursor, m);
      assert Advance(t, q).log == u.log + [m];
      assert t.log + q.recorded == u.log + [m];
    }
  }

  lemma {:induction false} HandleAllKeeps(all: set<Message>, profile: Profile, c: Cycle, t: Tracked, s: seq<Message>, time: Millis)
    requires IdsUnique(all) && Density(all, 2000, DEDUPE_WINDOW)
    requires TrackedInv(all, t) && Chronological(s)
    requires forall i :: 0 <= i < |s| ==> s[i] in all && PollSince(t.state) <= s[i].createdAt <= time
    requires t.state.cursor - OVERLAP_MILLIS <= time
    ensures CycleInv(all, t, HandleAll(profile, c, Begin(t.state, c.now), s), time)
    decreases |s|
  {
    if s == [] {
      assert t.log + [] == t.log;
    } else {
      var front, m := s[..|s| - 1], s[|s| - 1];
      HandleAllKeeps(all, profile, c, t, front, m.createdAt);
      HandleKeeps(all, profile, c, t, HandleAll(profile, c, Begin(t.state, c.now), front), m);
    }
  }

  lemma PageKeeps(all: set<Message>, profile: Profile, c: Cycle, t: Tracked, handled: nat)
    requires IdsUnique(all) && Density(all, 2000, DEDUPE_WINDOW)
    requires TrackedInv(all, t) && HonestPage(all, t.state, c.page)
    ensures TrackedInv(all, Advance(t, HandleAll(profile, c, Begin(t.state, c.now), Prefix(Sort(c.page), handled))))
  {
    var sorted := Sort(c.page);
    var s := Prefix(sorted, handled);
    SortSorts(c.page);
    var time := if s == [] then t.state.cursor else Max(t.state.cursor, s[|s| - 1].createdAt);
    forall i | 0 <= i < |s| ensures s[i] in all && PollSince(t.state) <= s[i].createdAt <= time {
      assert s[i] == sorted[i] && sorted[i] in sorted;
      SortMembers(c.page, s[i]);
    }
    HandleAllKeeps(all, profile, c, t, s, time);
  }

  ghost predicate WorldInv(all: set<Message>, w: World) {
    TrackedInv(all, w.memory) && TrackedInv(all, w.disk)
  }

  ghost predicate HonestEvent(all: set<Message>, w: World, e: Event) {
    HonestPage(all, w.memory.state, e.cycle.page)
  }

  lemma WorldStepKeeps(all: set<Message>, profile: Profile, w: World, e: Event)
    requires IdsUnique(all) && Density(all, 2000, DEDUPE_WINDOW)
    requires WorldInv(all, w) && HonestEvent(all, w, e)
    ensures WorldInv(all, WorldStep(profile, w, e))
  {
    match e
    case Polled(c) =>
      PageKeeps(all, profile, c, w.memory, |Sort(c.page)|);
    case CrashedDuring(c, handled) =>
      PageKeeps(all, profile, c, w.memory, handled);
  }

  ghost function Started(st: RuntimeState): World {
    World(Tracked(st, []), Tracked(st, []), [])
  }

  /** Over any run of completed, transiently failing and crashing cycles, neither the surviving memory nor the
      state file has ever recorded a message twice, and the IDs they keep are exactly the last thousand recorded. */
  lemma NoMessageRecordedTwice(all: set<Message>, profile: Profile, now: Millis, events: seq<Event>)
    requires IdsUnique(all) && Density(all, 2000, DEDUPE_WINDOW)
    requires Admissible(Started(CreateState(now)), events, (w, e) => WorldStep(profile, w, e), (w, e) => HonestEvent(all, w, e))
    ensures var w := Fold(Started(CreateState(now)), events, (w, e) => WorldStep(profile, w, e));
            WorldInv(all, w)
  {
    var start := Started(CreateState(now));
    var step := (w, e) => WorldStep(profile, w, e);
    assert LastN<Message>([], DEDUPE_WINDOW) == [];
    forall w, e | WorldInv(all, w) && HonestEvent(all, w, e) ensures WorldInv(all, step(w, e)) {
      WorldStepKeeps(all, profile, w, e);
    }
    InvariantWhen(start, events, step, (w, e) => HonestEvent(all, w, e), w => WorldInv(all, w));
  }

  // ---- replies ----

  /** The replies a log of recorded messages accounts for. */
  function RepliesFor(profile: Profile, log: seq<Message>): seq<SentReply> {
    if log == [] then []
    else
      var m := log[|log| - 1];
      var d := BuildDecision(m, profile);
      RepliesFor(profile, log[..|log| - 1]) + if d.Reply? then [SentReply(m.conversationId, d.clientMessageId, d.text)] else []
  }

  lemma {:induction false} RepliesAppend(profile: Profile, a: seq<Message>, b: seq<Message>)
    ensures RepliesFor(profile, a + b) == RepliesFor(profile, a) + RepliesFor(profile, b)
    decreases |b|
  {
    if b == [] {
      assert a + b == a;
    } else {
      assert (a + b)[..|a + b| - 1] == a + b[..|b| - 1];
      RepliesAppend(profile, a, b[..|b| - 1]);
    }
  }

  /** A cycle sends exactly the replies of the messages it records, failed or not. */
  lemma {:induction false} SentMatchesRecorded(profile: Profile, c: Cycle, st: RuntimeState, s: seq<Message>)
    ensures var p := HandleAll(profile, c, Begin(st, c.now), s); p.sent == RepliesFor(profile, p.recorded)
    decreases |s|
  {
    if s != [] {
      var p := HandleAll(profile, c, Begin(st, c.now), s[..|s| - 1]);
      SentMatchesRecorded(profile, c, st, s[..|s| - 1]);
      RepliesAppend(profile, p.recorded, [s[|s| - 1]]);
      assert RepliesFor(profile, []) == [];
      assert [s[|s| - 1]][..0] == [];
    }
  }

  lemma SameKeySameMessage(all: set<Message>, profile: Profile, m: Message, n: Message)
    requires IdsUnique(all) && m in all && n in all
    requires BuildDecision(m, profile).Reply? && BuildDecision(n, profile).Reply?
    requires BuildDecision(m, profile).clientMessageId == BuildDecision(n, profile).clientMessageId
    ensures m == n
  {
    var prefix := "positioncrew-" + profile.service + "-";
    assert (prefix + m.id)[|prefix|..] == m.id && (prefix + n.id)[|prefix|..] == n.id;
  }

  /** The reply is the one this message gets. */
  ghost predicate Answers(profile: Profile, r: SentReply, m: Message) {
    var d := BuildDecision(m, profile);
    d.Reply? && r == SentReply(m.conversationId, d.clientMessageId, d.text)
  }

  lemma {:induction false} ReplyOrigin(profile: Profile, log: seq<Message>, r: SentReply)
    requires r in RepliesFor(profile, log)
    ensures exists m :: m in log && Answers(profile, r, m)
  {
    var m := log[|log| - 1];
    if r in RepliesFor(profile, log[..|log| - 1]) {
      ReplyOrigin(profile, log[..|log| - 1], r);
      var n :| n in log[..|log| - 1] && Answers(profile, r, n);
      assert n in log;
    } else {
      assert m in log;
    }
  }

  /** Distinct records give replies with distinct keys. */
  lemma {:induction false} KeysDistinct(all: set<Message>, profile: Profile, log: seq<Message>)
    requires IdsUnique(all) && Distinct(log) && forall i :: 0 <= i < |log| ==> log[i] in all
    ensures var r := RepliesFor(profile, log);
            forall i, j :: 0 <= i < j < |r| ==> r[i].clientMessageId != r[j].clientMessageId
  {
    if log != [] {
      var front, m := log[..|log| - 1], log[|log| - 1];
      KeysDistinct(all, profile, front);
      var earlier, r := RepliesFor(profile, front), RepliesFor(profile, log);
      if BuildDecision(m, profile).Reply? {
        forall i | 0 <= i < |earlier| ensures r[i].clientMessageId != r[|earlier|].clientMessageId {
          if r[i].clientMessageId == r[|earlier|].clientMessageId {
            ReplyOrigin(profile, front, earlier[i]);
            var n :| n in front && Answers(profile, earlier[i], n);
            SameKeySameMessage(all, profile, m, n);
          }
        }
      }
    }
  }

  /** What is recorded was served, each message at most once. */
  lemma {:induction false} RecordedAreServed(profile: Profile, c: Cycle, st: RuntimeState, s: seq<Message>)
    ensures var p := HandleAll(profile, c, Begin(st, c.now), s);
            && |p.recorded| <= |s|
            && (forall m :: m in p.recorded ==> m in s)
            && (p.recorded == [] ==> p.state == RecordPoll(st, c.now))
    decreases |s|
  {
    if s != [] {
      RecordedAreServed(profile, c, st, s[..|s| - 1]);
    }
  }

  /** Every reply sent is the one some known message gets. */
  ghost predicate SentAnswers(all: set<Message>, profile: Profile, sent: seq<SentReply>) {
    forall r :: r in sent ==> exists m :: m in all && Answers(profile, r, m)
  }

  lemma PageAnswers(all: set<Message>, profile: Profile, c: Cycle, st: RuntimeState, handled: nat)
    requires HonestPage(all, st, c.page)
    ensures SentAnswers(all, profile, HandleAll(profile, c, Begin(st, c.now), Prefix(Sort(c.page), handled)).sent)
  {
    var s := Prefix(Sort(c.page), handled);
    var p := HandleAll(profile, c, Begin(st, c.now), s);
    SentMatchesRecorded(profile, c, st, s);
    RecordedAreServed(profile, c, st, s);
    forall r | r in p.sent ensures exists m :: m in all && Answers(profile, r, m) {
      ReplyOrigin(profile, p.recorded, r);
      var m :| m in p.recorded && Answers(profile, r, m);
      SortMembers(c.page, m);
    }
  }

  lemma StepAnswers(all: set<Message>, profile: Profile, w: World, e: Event)
    requires HonestEvent(all, w, e) && SentAnswers(all, profile, w.sent)
    ensures SentAnswers(all, profile, WorldStep(profile, w, e).sent)
  {
    match e
    case Polled(c) => PageAnswers(all, profile, c, w.memory.state, |Sort(c.page)|);
    case CrashedDuring(c, handled) => PageAnswers(all, profile, c, w.memory.state, handled);
  }

  /** Over any run of completed, failing and crashing cycles, a reply that is sent again under its key is sent
      unchanged: whoever keeps one reply per key misses nothing. No bound on the mail is needed. */
  lemma RepliesUnderOneKeyAgree(all: set<Message>, profile: Profile, now: Millis, events: seq<Event>)
    requires IdsUnique(all)
    requires Admissible(Started(CreateState(now)), events, (w, e) => WorldStep(profile, w, e), (w, e) => HonestEvent(all, w, e))
    ensures var sent := Fold(Started(CreateState(now)), events, (w, e) => WorldStep(profile, w, e)).sent;
            forall i, j :: 0 <= i < j < |sent| && sent[i].clientMessageId == sent[j].clientMessageId ==> sent[i] == sent[j]
  {
    var start := Started(CreateState(now));
    var step, ok := (w, e) => WorldStep(profile, w, e), (w, e) => HonestEvent(all, w, e);
    forall w: World, e | SentAnswers(all, profile, w.sent) && ok(w, e) ensures SentAnswers(all, profile, step(w, e).sent) {
      StepAnswers(all, profile, w, e);
    }
    InvariantWhen(start, events, step, ok, (w: World) => SentAnswers(all, profile, w.sent));
    var sent := Fold(start, events, step).sent;
    forall i, j | 0 <= i < j < |sent| && sent[i].clientMessageId == sent[j].clientMessageId ensures sent[i] == sent[j] {
      assert sent[i] in sent && sent[j] in sent;
      var m :| m in all && Answers(profile, sent[i], m);
      var n :| n in all && Answers(profile, sent[j], n);
      SameKeySameMessage(all, profile, m, n);
    }
  }

  ghost predicate CompletedEvent(all: set<Message>, profile: Profile, w: World, e: Event) {
    && e.Polled?
    && HonestEvent(all, w, e)
    && !CycleResult(profile, w.memory.state, e.cycle).failed
  }

  ghost predicate CompletedInv(all: set<Message>, profile: Profile, w: World) {
    WorldInv(all, w) && w.sent == RepliesFor(profile, w.memory.log)
  }

  lemma CompletedStepKeeps(all: set<Message>, profile: Profile, w: World, e: Event)
    requires IdsUnique(all) && Density(all, 2000, DEDUPE_WINDOW)
    requires CompletedInv(all, profile, w) && CompletedEvent(all, profile, w, e)
    ensures CompletedInv(all, profile, WorldStep(profile, w, e))
  {
    WorldStepKeeps(all, profile, w, e);
    SentMatchesRecorded(profile, e.cycle, w.memory.state, Sort(e.cycle.page));
    RepliesAppend(profile, w.memory.log, CycleResult(profile, w.memory.state, e.cycle).recorded);
  }

  /** Over any number of completed cycles the replies sent are exactly those of the recorded messages, and no
      reply key is ever sent twice. */
  lemma NoReplySentTwice(all: set<Message>, profile: Profile, now: Millis, events: seq<Event>)
    requires IdsUnique(all) && Density(all, 2000, DEDUPE_WINDOW)
    requires Admissible(Started(CreateState(now)), events, (w, e) => WorldStep(profile, w, e),
                        (w, e) => CompletedEvent(all, profile, w, e))
    ensures var w := Fold(Started(CreateState(now)), events, (w, e) => WorldStep(profile, w, e));
            && w.sent == RepliesFor(profile, w.memory.log)
            && forall i, j :: 0 <= i < j < |w.sent| ==> w.sent[i].clientMessageId != w.sent[j].clientMessageId
  {
    var start := Started(CreateState(now));
    var step := (w, e) => WorldStep(profile, w, e);
    assert LastN<Message>([], DEDUPE_WINDOW) == [];
    forall w, e | CompletedInv(all, profile, w) && CompletedEvent(all, profile, w, e)
      ensures CompletedInv(all, profile, step(w, e))
    {
      CompletedStepKeeps(all, profile, w, e);
    }
    InvariantWhen(start, events, step, (w, e) => CompletedEvent(all, profile, w, e), w => CompletedInv(all, profile, w));
    KeysDistinct(all, profile, Fold(start, events, step).memory.log);
  }
}
