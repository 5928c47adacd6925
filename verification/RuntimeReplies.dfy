/** What a polling cycle says to whom: which messages are answered, which are escalated to the operator, and the state that
    is left, in terms of the messages' own fields. */
module RuntimeReplies {
  import opened Outcomes
  import opened RuntimePolling
  import opened PollingExactlyOnce

  // ---- messages by their fields ----

  /** What trimming a text removes: the white space and line terminators of ECMAScript. */
  const WhiteSpace: set<int> := {
    9, 10, 11, 12, 13, 32, 160, 5760, 8192, 8193, 8194, 8195, 8196, 8197, 8198, 8199, 8200, 8201, 8202, 8232, 8233, 8239, 8287,
    12288, 65279}

  ghost predicate Speaks(m: Message) {
    m.kind == "TEXT" && exists i :: 0 <= i < |m.text| && m.text[i] as int !in WhiteSpace
  }

  ghost predicate AboutMoney(m: Message) {
    m.conversationKind == OrderDelivery
  }

  ghost predicate AboutDispute(m: Message) {
    m.conversationKind == Challenge || m.conversationKind == OperatorCase
  }

  /** A text from a conversation that a service may answer by itself. */
  ghost predicate Inquiry(m: Message) {
    Speaks(m) && !AboutMoney(m) && !AboutDispute(m)
  }

  ghost predicate ForOperator(m: Message) {
    Speaks(m) && (AboutMoney(m) || AboutDispute(m))
  }

  function ReplyTo(profile: Profile, m: Message): SentReply {
    SentReply(m.conversationId, "positioncrew-" + profile.service + "-" + m.id, profile.replyText)
  }

  /** The operator's notice of a message. */
  function NoticeOf(m: Message, now: Millis): Attention {
    Attention(m.id, m.conversationId, m.conversationKind,
              if m.conversationKind == OrderDelivery then OperatorForOrder else OperatorForDispute, now)
  }

  /** The replies to the inquiries among these messages, in order. */
  ghost function RepliesTo(profile: Profile, log: seq<Message>): seq<SentReply> {
    if log == [] then []
    else
      var m := log[|log| - 1];
      RepliesTo(profile, log[..|log| - 1]) + if Inquiry(m) then [ReplyTo(profile, m)] else []
  }

  /** The notices of the messages for the operator among these, in order. */
  ghost function NoticesOf(log: seq<Message>, now: Millis): seq<Attention> {
    if log == [] then []
    else
      var m := log[|log| - 1];
      NoticesOf(log[..|log| - 1], now) + if ForOperator(m) then [NoticeOf(m, now)] else []
  }

  /** The latest time among these messages and `floor`. */
  ghost predicate IsLatest(t: Millis, floor: Millis, log: seq<Message>) {
    && floor <= t && (forall i :: 0 <= i < |log| ==> log[i].createdAt <= t)
    && (t == floor || exists i :: 0 <= i < |log| && log[i].createdAt == t)
  }

  // ---- one decision ----

  lemma SpeaksExactly(m: Message)
    ensures Speaks(m) <==> m.kind == "TEXT" && !(forall i :: 0 <= i < |m.text| ==> IsSpace(m.text[i]))
  {
    forall c: char ensures IsSpace(c) <==> c as int in WhiteSpace {
    }
  }

  /** The decision on a message, by its fields. */
  lemma DecisionExact(m: Message, profile: Profile)
    ensures var d := BuildDecision(m, profile);
            && (d.Reply? <==> Inquiry(m))
            && (d.Reply? ==> SentReply(m.conversationId, d.clientMessageId, d.text) == ReplyTo(profile, m))
            && (d == OperatorForOrder <==> Speaks(m) && AboutMoney(m))
            && (d == OperatorForDispute <==> Speaks(m) && AboutDispute(m))
  {
    SpeaksExactly(m);
  }

  // ---- a whole cycle ----

  lemma LastNAppend<T>(s: seq<T>, x: T, n: nat)
    requires n > 0
    ensures LastN(LastN(s, n) + [x], n) == LastN(s + [x], n)
  {
  }

  /** What handling some messages makes of the state and sends. */
  ghost predicate Handled(profile: Profile, st: RuntimeState, now: Millis, p: Progress) {
    Answered(profile, st, now, p) && Stored(st, now, p)
  }

  ghost predicate Answered(profile: Profile, st: RuntimeState, now: Millis, p: Progress) {
    p.sent == RepliesTo(profile, p.recorded) && p.state.lastReplyAt == if p.sent == [] then st.lastReplyAt else Some(now)
  }

  ghost predicate Stored(st: RuntimeState, now: Millis, p: Progress) {
    && p.state.attention == LastN(st.attention + NoticesOf(p.recorded, now), 100)
    && p.state.status == (if p.state.attention == [] then Online else OperatorAttention)
    && p.state.processed == LastN(st.processed + Ids(p.recorded), 1000)
    && IsLatest(p.state.cursor, st.cursor, p.recorded)
    && p.state.lastPollAt == Some(now)
  }

  lemma RecordAttention(st: RuntimeState, log: seq<Message>, m: Message, profile: Profile, now: Millis, s: RuntimeState)
    requires s.attention == LastN(st.attention + NoticesOf(log, now), 100)
    ensures RecordDecision(s, m, BuildDecision(m, profile), now).attention == LastN(st.attention + NoticesOf(log + [m], now), 100)
  {
    DecisionExact(m, profile);
    assert (log + [m])[..|log|] == log;
    if ForOperator(m) {
      LastNAppend(st.attention + NoticesOf(log, now), NoticeOf(m, now), 100);
      assert st.attention + NoticesOf(log, now) + [NoticeOf(m, now)] == st.attention + (NoticesOf(log, now) + [NoticeOf(m, now)]);
    } else {
      assert NoticesOf(log + [m], now) == NoticesOf(log, now);
    }
  }

  lemma RecordProcessed(st: RuntimeState, log: seq<Message>, m: Message)
    ensures LastN(LastN(st.processed + Ids(log), 1000) + [m.id], 1000) == LastN(st.processed + Ids(log + [m]), 1000)
  {
    LastNAppend(st.processed + Ids(log), m.id, 1000);
    assert Ids(log + [m]) == Ids(log) + [m.id];
    assert st.processed + Ids(log) + [m.id] == st.processed + (Ids(log) + [m.id]);
  }

  lemma RecordCursor(floor: Millis, log: seq<Message>, m: Message, t: Millis)
    requires IsLatest(t, floor, log)
    ensures IsLatest(Max(t, m.createdAt), floor, log + [m])
  {
    var all := log + [m];
    assert all[|log|] == m;
    if t != floor && t >= m.createdAt {
      var i :| 0 <= i < |log| && log[i].createdAt == t;
      assert all[i] == log[i];
    }
  }

  /** A message is skipped, fails as an inquiry, or is recorded with the state and reply of its decision. */
  lemma HandleCases(profile: Profile, c: Cycle, p: Progress, m: Message)
    ensures var q := Handle(profile, c, p, m);
            || q == p
            || (q == p.(failed := true) && Inquiry(m) && m.id in c.failing)
            || (!p.failed && q == Progress(RecordDecision(p.state, m, BuildDecision(m, profile), c.now),
                                           p.sent + (if Inquiry(m) then [ReplyTo(profile, m)] else []), p.recorded + [m], false)
                && (Inquiry(m) ==> m.id !in c.failing))
  {
    DecisionExact(m, profile);
  }

  lemma RecordAnswers(profile: Profile, st: RuntimeState, now: Millis, p: Progress, m: Message, q: Progress)
    requires Answered(profile, st, now, p)
    requires q == Progress(RecordDecision(p.state, m, BuildDecision(m, profile), now),
                           p.sent + (if Inquiry(m) then [ReplyTo(profile, m)] else []), p.recorded + [m], false)
    ensures Answered(profile, st, now, q)
  {
    DecisionExact(m, profile);
    assert (p.recorded + [m])[..|p.recorded|] == p.recorded;
  }

  lemma RecordStores(profile: Profile, st: RuntimeState, now: Millis, p: Progress, m: Message, q: Progress)
    requires Stored(st, now, p) && 100 == ATTENTION_LIMIT && 1000 == DEDUPE_WINDOW
    requires q.state == RecordDecision(p.state, m, BuildDecision(m, profile), now) && q.recorded == p.recorded + [m]
    ensures Stored(st, now, q)
  {
    RecordAttention(st, p.recorded, m, profile, now, p.state);
    RecordProcessed(st, p.recorded, m);
    RecordCursor(st.cursor, p.recorded, m, p.state.cursor);
  }

  lemma HandleExact(profile: Profile, c: Cycle, st: RuntimeState, p: Progress, m: Message)
    requires Handled(profile, st, c.now, p) && 100 == ATTENTION_LIMIT && 1000 == DEDUPE_WINDOW
    ensures Handled(profile, st, c.now, Handle(profile, c, p, m))
  {
    var q := Handle(profile, c, p, m);
    HandleCases(profile, c, p, m);
    if q.recorded == p.recorded + [m] {
      RecordAnswers(profile, st, c.now, p, m, q);
      RecordStores(profile, st, c.now, p, m, q);
    }
  }

  /** Every recorded message was served, and no inquiry among them failed. */
  ghost predicate Recorded(c: Cycle, s: seq<Message>, p: Progress) {
    && (forall m :: m in p.recorded ==> m in s && (Inquiry(m) ==> m.id !in c.failing))
    && (p.failed ==> exists m :: m in s && Inquiry(m) && m.id in c.failing)
  }

  /** What holds of the messages handled so far. */
  ghost predicate Told(profile: Profile, c: Cycle, st: RuntimeState, s: seq<Message>, p: Progress) {
    Handled(profile, st, c.now, p) && Recorded(c, s, p)
  }

  lemma RecordedNext(profile: Profile, c: Cycle, p: Progress, s: seq<Message>)
    requires s != [] && Recorded(c, s[..|s| - 1], p)
    ensures Recorded(c, s, Handle(profile, c, p, s[|s| - 1]))
  {
    HandleCases(profile, c, p, s[|s| - 1]);
    assert s == s[..|s| - 1] + [s[|s| - 1]];
  }

  lemma TellsNext(profile: Profile, c: Cycle, st: RuntimeState, p: Progress, s: seq<Message>)
    requires s != [] && Told(profile, c, st, s[..|s| - 1], p)
    ensures Told(profile, c, st, s, Handle(profile, c, p, s[|s| - 1]))
  {
    HandleExact(profile, c, st, p, s[|s| - 1]);
    RecordedNext(profile, c, p, s);
  }

  lemma NothingHandled(profile: Profile, c: Cycle, st: RuntimeState)
    requires |st.attention| <= 100 && |st.processed| <= 1000
    ensures Told(profile, c, st, [], Begin(st, c.now))
  {
    assert st.attention + [] == st.attention && st.processed + [] == st.processed;
  }

  lemma {:induction false} HandleAllExact(profile: Profile, c: Cycle, st: RuntimeState, s: seq<Message>)
    requires |st.attention| <= 100 && |st.processed| <= 1000
    ensures Told(profile, c, st, s, HandleAll(profile, c, Begin(st, c.now), s))
    decreases |s|
  {
    if s == [] {
      NothingHandled(profile, c, st);
    } else {
      HandleAllExact(profile, c, st, s[..|s| - 1]);
      TellsNext(profile, c, st, HandleAll(profile, c, Begin(st, c.now), s[..|s| - 1]), s);
    }
  }

  lemma {:induction false} RepliesAreToInquiries(profile: Profile, log: seq<Message>, r: SentReply)
    requires r in RepliesTo(profile, log)
    ensures exists m :: m in log && Inquiry(m) && r == ReplyTo(profile, m)
  {
    var front, last := log[..|log| - 1], log[|log| - 1];
    if r in RepliesTo(profile, front) {
      RepliesAreToInquiries(profile, front, r);
      var m :| m in front && Inquiry(m) && r == ReplyTo(profile, m);
      assert m in log;
    } else {
      assert last in log;
    }
  }

  lemma {:induction false} InquiriesAreAnswered(profile: Profile, log: seq<Message>, m: Message)
    requires m in log && Inquiry(m)
    ensures ReplyTo(profile, m) in RepliesTo(profile, log)
  {
    if m != log[|log| - 1] {
      assert m in log[..|log| - 1];
      InquiriesAreAnswered(profile, log[..|log| - 1], m);
    }
  }

  lemma {:induction false} OperatorIsTold(log: seq<Message>, m: Message, now: Millis)
    requires m in log && ForOperator(m)
    ensures NoticeOf(m, now) in NoticesOf(log, now) && |NoticesOf(log, now)| <= |log|
    decreases |log|
  {
    NoticesFit(log, now);
    if m != log[|log| - 1] {
      assert m in log[..|log| - 1];
      OperatorIsTold(log[..|log| - 1], m, now);
    }
  }

  lemma {:induction false} NoticesFit(log: seq<Message>, now: Millis)
    ensures |NoticesOf(log, now)| <= |log|
    decreases |log|
  {
    if log != [] {
      NoticesFit(log[..|log| - 1], now);
    }
  }

  lemma SuffixKeeps<T>(front: seq<T>, s: seq<T>, x: T, n: nat)
    requires x in s && |s| <= n
    ensures x in LastN(front + s, n)
  {
    var i :| 0 <= i < |s| && s[i] == x;
    var all := front + s;
    assert all[|front| + i] == x;
    if |all| > n { assert all[|all| - n..][|front| + i - (|all| - n)] == x; }
  }

  /** One cycle, by the fields of the messages it recorded: a message is answered exactly if it is a text with content from a
      conversation about neither an order nor a dispute; one about either is brought to the operator's attention with its
      reason; and the state is the old one with exactly these messages added. */
  lemma CycleSays(profile: Profile, c: Cycle, st: RuntimeState)
    requires |st.attention| <= 100 && |st.processed| <= 1000 && |c.page| <= PAGE_LIMIT
    ensures var p := CycleResult(profile, st, c);
            && Handled(profile, st, c.now, p) && Recorded(c, c.page, p)
            && (forall r :: r in p.sent ==> exists m :: m in p.recorded && Inquiry(m) && r == ReplyTo(profile, m))
            && (forall m :: m in p.recorded && Inquiry(m) ==> ReplyTo(profile, m) in p.sent)
            && (forall m :: m in p.recorded && ForOperator(m) ==>
                  NoticeOf(m, c.now) in p.state.attention && p.state.status == OperatorAttention)
  {
    var p, sorted := CycleResult(profile, st, c), Sort(c.page);
    HandleAllExact(profile, c, st, sorted);
    RecordedAreServed(profile, c, st, sorted);
    SortSorts(c.page);
    assert |sorted| == |multiset(sorted)| == |c.page|;
    forall m ensures m in sorted <==> m in c.page {
      SortMembers(c.page, m);
    }
    forall r | r in p.sent ensures exists m :: m in p.recorded && Inquiry(m) && r == ReplyTo(profile, m) {
      RepliesAreToInquiries(profile, p.recorded, r);
    }
    forall m | m in p.recorded && Inquiry(m) ensures ReplyTo(profile, m) in p.sent {
      InquiriesAreAnswered(profile, p.recorded, m);
    }
    forall m | m in p.recorded && ForOperator(m)
      ensures NoticeOf(m, c.now) in p.state.attention && p.state.status == OperatorAttention
    {
      OperatorIsTold(p.recorded, m, c.now);
      SuffixKeeps(st.attention, NoticesOf(p.recorded, c.now), NoticeOf(m, c.now), 100);
    }
  }

  // ---- the order of a page ----

  /** The texts agree up to a place where `a` ends or has the smaller character. */
  ghost predicate Precedes(a: string, b: string) {
    exists k :: 0 <= k <= |a| && k < |b| && a[..k] == b[..k] && (k == |a| || a[k] < b[k])
  }

  lemma {:induction false} PrecedesExactly(a: string, b: string)
    ensures TextBefore(a, b) <==> Precedes(a, b)
    decreases |a|
  {
    if b == "" || a == "" || a[0] != b[0] {
      if TextBefore(a, b) { assert a[..0] == b[..0]; }
      forall k | 0 < k <= |a| && k < |b| ensures a[..k] != b[..k] {
        assert a[..k][0] == a[0] && b[..k][0] == b[0];
      }
    } else {
      PrecedesExactly(a[1..], b[1..]);
      if Precedes(a[1..], b[1..]) {
        var k :| 0 <= k <= |a[1..]| && k < |b[1..]| && a[1..][..k] == b[1..][..k] && (k == |a[1..]| || a[1..][k] < b[1..][k]);
        assert a[..k + 1] == [a[0]] + a[1..][..k] && b[..k + 1] == [b[0]] + b[1..][..k];
        assert k + 1 == |a| || a[k + 1] < b[k + 1];
      }
      if Precedes(a, b) {
        var k :| 0 <= k <= |a| && k < |b| && a[..k] == b[..k] && (k == |a| || a[k] < b[k]);
        assert a[1..][..k - 1] == a[..k][1..] == b[..k][1..] == b[1..][..k - 1];
        assert k - 1 == |a[1..]| || a[1..][k - 1] < b[1..][k - 1];
      }
    }
  }

  lemma {:induction false} TextBeforeTransitive(a: string, b: string, c: string)
    requires TextBefore(a, b) && TextBefore(b, c)
    ensures TextBefore(a, c)
    decreases |a|
  {
    if a != "" && a[0] == b[0] == c[0] {
      TextBeforeTransitive(a[1..], b[1..], c[1..]);
    }
  }

  /** By time of creation, and by ID among messages of one time. */
  ghost predicate InOrder(s: seq<Message>) {
    forall i, j :: 0 <= i < j < |s| ==>
      s[i].createdAt < s[j].createdAt || (s[i].createdAt == s[j].createdAt && !Precedes(s[j].id, s[i].id))
  }

  ghost predicate NotAfter(a: Message, b: Message) {
    !ComesBefore(b, a)
  }

  lemma NotAfterExactly(a: Message, b: Message)
    ensures NotAfter(a, b) <==> a.createdAt < b.createdAt || (a.createdAt == b.createdAt && !Precedes(b.id, a.id))
  {
    PrecedesExactly(b.id, a.id);
  }

  lemma ComesBeforeTransitive(a: Message, b: Message, c: Message)
    requires ComesBefore(a, b) && ComesBefore(b, c)
    ensures ComesBefore(a, c)
  {
    if a.createdAt == b.createdAt == c.createdAt { TextBeforeTransitive(a.id, b.id, c.id); }
  }

  ghost predicate Ranked(s: seq<Message>) {
    forall i, j :: 0 <= i < j < |s| ==> NotAfter(s[i], s[j])
  }

  lemma {:induction false} TextBeforeAsymmetric(a: string, b: string)
    requires TextBefore(a, b)
    ensures !TextBefore(b, a)
    decreases |a|
  {
    if a != "" && a[0] == b[0] { TextBeforeAsymmetric(a[1..], b[1..]); }
  }

  lemma {:induction false} InsertRanks(m: Message, s: seq<Message>)
    requires Ranked(s)
    ensures Ranked(Insert(m, s))
    decreases |s|
  {
    if s != [] && !ComesBefore(m, s[0]) {
      InsertRanks(m, s[1..]);
      var rest := Insert(m, s[1..]);
      InsertPermutes(m, s[1..]);
      forall j | 0 <= j < |rest| ensures NotAfter(s[0], rest[j]) {
        assert rest[j] in multiset(rest);
        assert rest[j] == m || rest[j] in s[1..];
      }
    } else if s != [] {
      if m.createdAt == s[0].createdAt { TextBeforeAsymmetric(m.id, s[0].id); }
      forall j | 0 <= j < |s| ensures NotAfter(m, s[j]) {
        if ComesBefore(s[j], m) { ComesBeforeTransitive(s[j], m, s[0]); }
      }
    }
  }

  /** A page is handled by time of creation, and by ID among messages of one time. */
  lemma {:induction false} PageOrder(s: seq<Message>)
    ensures InOrder(Sort(s)) && Ranked(Sort(s))
    decreases |s|
  {
    if s != [] {
      PageOrder(s[..|s| - 1]);
      InsertRanks(s[|s| - 1], Sort(s[..|s| - 1]));
    }
    var sorted := Sort(s);
    forall i, j | 0 <= i < j < |sorted|
      ensures sorted[i].createdAt < sorted[j].createdAt
           || (sorted[i].createdAt == sorted[j].createdAt && !Precedes(sorted[j].id, sorted[i].id))
    {
      NotAfterExactly(sorted[i], sorted[j]);
    }
  }
}
