/** The TermiX runtime host: a timestamp cursor with a one-second overlap, pages of 25 messages and a
    bounded window of processed message IDs. */
module RuntimePolling {
  import opened Outcomes
  import opened Runs

  type Millis = int

  datatype ConversationKind =
    | DirectMessage | OrderDelivery | QuoteNegotiation | PrepaymentOrder | Challenge | OperatorCase

  datatype Message = Message(
    id: string, createdAt: Millis, conversationId: string, conversationKind: ConversationKind, kind: string, text: string)

  /** The service the host answers for: its key in reply IDs and its fixed reply text. */
  datatype Profile = Profile(service: string, replyText: string)

  datatype Decision =
    | Reply(clientMessageId: string, text: string)
    | IgnoreNonText
    | IgnoreEmpty
    | OperatorForDispute
    | OperatorForOrder

  datatype Attention = Attention(
    messageId: string, conversationId: string, conversationKind: ConversationKind, reason: Decision, observedAt: Millis)

  datatype HostStatus = Ready | Online | OperatorAttention

  datatype RuntimeState = RuntimeState(
    cursor: Millis, processed: seq<string>, attention: seq<Attention>,
    lastPollAt: Option<Millis>, lastReplyAt: Option<Millis>, status: HostStatus)

  /** A poll of the inbox: messages at or after `since`, at most `limit` of them. */
  datatype PollRequest = PollRequest(since: Millis, limit: nat)

  datatype SentReply = SentReply(conversationId: string, clientMessageId: string, text: string)

  const DEDUPE_WINDOW: nat := 1000
  const ATTENTION_LIMIT: nat := 100
  const OVERLAP_MILLIS: nat := 1000
  const PAGE_LIMIT: nat := 25

  function Max(a: int, b: int): int {
    if a >= b then a else b
  }

  function LastN<T>(s: seq<T>, n: nat): seq<T> {
    if |s| <= n then s else s[|s| - n..]
  }

  predicate IsSpace(c: char) {
    || 9 <= c as int <= 13 || 0x2000 <= c as int <= 0x200A
    || c as int in {0x20, 0xA0, 0x1680, 0x2028, 0x2029, 0x202F, 0x205F, 0x3000, 0xFEFF}
  }

  function BuildDecision(m: Message, profile: Profile): Decision {
    if m.kind != "TEXT" then IgnoreNonText
    else if forall i :: 0 <= i < |m.text| ==> IsSpace(m.text[i]) then IgnoreEmpty
    else if m.conversationKind in {Challenge, OperatorCase} then OperatorForDispute
    else if m.conversationKind == OrderDelivery then OperatorForOrder
    else Reply("positioncrew-" + profile.service + "-" + m.id, profile.replyText)
  }

  function CreateState(now: Millis): RuntimeState {
    RuntimeState(now, [], [], None, None, Ready)
  }

  predicate HasProcessed(st: RuntimeState, id: string) {
    id in st.processed
  }

  function StatusFor(attention: seq<Attention>): HostStatus {
    if attention != [] then OperatorAttention else Online
  }

  function RecordDecision(st: RuntimeState, m: Message, d: Decision, now: Millis): RuntimeState {
    var attention :=
      if d.OperatorForDispute? || d.OperatorForOrder?
      then LastN(st.attention + [Attention(m.id, m.conversationId, m.conversationKind, d, now)], ATTENTION_LIMIT)
      else st.attention;
    st.(cursor := Max(st.cursor, m.createdAt),
        processed := LastN(st.processed + [m.id], DEDUPE_WINDOW),
        attention := attention,
        lastPollAt := Some(now),
        lastReplyAt := if d.Reply? then Some(now) else st.lastReplyAt,
        status := StatusFor(attention))
  }

  function RecordPoll(st: RuntimeState, now: Millis): RuntimeState {
    st.(lastPollAt := Some(now), status := StatusFor(st.attention))
  }

  function PollSince(st: RuntimeState): Millis {
    Max(0, st.cursor - OVERLAP_MILLIS)
  }

  // ---- ordering a page ----

  predicate TextBefore(a: string, b: string)
    decreases |a|
  {
    if b == "" then false
    else if a == "" then true
    else if a[0] != b[0] then a[0] < b[0]
    else TextBefore(a[1..], b[1..])
  }

  predicate ComesBefore(a: Message, b: Message) {
    a.createdAt < b.createdAt || (a.createdAt == b.createdAt && TextBefore(a.id, b.id))
  }

  function Insert(m: Message, sorted: seq<Message>): seq<Message> {
    if sorted == [] || ComesBefore(m, sorted[0]) then [m] + sorted
    else [sorted[0]] + Insert(m, sorted[1..])
  }

  function Sort(messages: seq<Message>): seq<Message> {
    if messages == [] then [] else Insert(messages[|messages| - 1], Sort(messages[..|messages| - 1]))
  }

  // ---- one cycle ----

  /** A cycle under way: the state to be stored, what has been sent and recorded, and whether a reply failed. */
  datatype Progress = Progress(state: RuntimeState, sent: seq<SentReply>, recorded: seq<Message>, failed: bool)

  /** How a cycle meets its surroundings: the page served, the messages whose reply fails, and the clock. */
  datatype Cycle = Cycle(page: seq<Message>, failing: set<string>, now: Millis)

  function Handle(profile: Profile, c: Cycle, p: Progress, m: Message): Progress {
    if p.failed || HasProcessed(p.state, m.id) then p
    else
      var d := BuildDecision(m, profile);
      if d.Reply? && m.id in c.failing then p.(failed := true)
      else Progress(
        RecordDecision(p.state, m, d, c.now),
        if d.Reply? then p.sent + [SentReply(m.conversationId, d.clientMessageId, d.text)] else p.sent,
        p.recorded + [m],
        false)
  }

  function Begin(st: RuntimeState, now: Millis): Progress {
    Progress(RecordPoll(st, now), [], [], false)
  }

  function HandleAll(profile: Profile, c: Cycle, p: Progress, messages: seq<Message>): Progress {
    if messages == [] then p
    else Handle(profile, c, HandleAll(profile, c, p, messages[..|messages| - 1]), messages[|messages| - 1])
  }

  /** The outcome of one whole cycle. */
  function CycleResult(profile: Profile, st: RuntimeState, c: Cycle): Progress {
    HandleAll(profile, c, Begin(st, c.now), Sort(c.page))
  }

  /** Once a reply has failed nothing more happens in the cycle. */
  lemma {:induction false} FailureStops(profile: Profile, c: Cycle, p: Progress, messages: seq<Message>, k: nat)
    requires k <= |messages| && HandleAll(profile, c, p, messages[..k]).failed
    ensures HandleAll(profile, c, p, messages) == HandleAll(profile, c, p, messages[..k])
    decreases |messages|
  {
    if k == |messages| {
      assert messages[..k] == messages;
    } else {
      var front := messages[..|messages| - 1];
      assert front[..k] == messages[..k];
      FailureStops(profile, c, p, front, k);
    }
  }

  /** The running host: state in memory, the durable state file, the polls made and the replies the platform
      has accepted. */
  class RuntimeHost {
    const profile: Profile
    var state: RuntimeState
    var stored: RuntimeState
    var polls: seq<PollRequest>
    var replies: seq<SentReply>

    constructor (profile: Profile, initial: RuntimeState)
      ensures this.profile == profile && state == initial && stored == initial && polls == [] && replies == []
    {
      this.profile, state, stored, polls, replies := profile, initial, initial, [], [];
    }

    /** One message: skip it if it was processed, otherwise answer or escalate it, and store the new state. */
    method HandleMessage(c: Cycle, m: Message, current: RuntimeState, ghost p: Progress)
      returns (next: RuntimeState, delivered: bool)
      requires !p.failed && current == p.state
      modifies this`stored, this`replies
      ensures var q := Handle(profile, c, p, m);
              && next == q.state
              && delivered == !q.failed
              && p.sent <= q.sent && replies == old(replies) + q.sent[|p.sent|..]
              && p.recorded <= q.recorded
              && (if q.recorded == p.recorded then q.state == p.state && stored == old(stored) else stored == q.state)
    {
      if HasProcessed(current, m.id) {
        return current, true;
      }
      var decision := BuildDecision(m, profile);
      if decision.Reply? {
        if m.id in c.failing {
          return current, false;
        }
        replies := replies + [SentReply(m.conversationId, decision.clientMessageId, decision.text)];
      }
      next := RecordDecision(current, m, decision, c.now);
      stored := next;
      delivered := true;
    }

    /** One poll: messages are handled oldest first, and the state file is rewritten after each. */
    method RunCycle(c: Cycle) returns (next: RuntimeState, completed: bool)
      modifies this`stored, this`replies, this`polls
      ensures polls == old(polls) + [PollRequest(PollSince(state), PAGE_LIMIT)]
      ensures var p := CycleResult(profile, state, c);
              && next == p.state
              && completed == !p.failed
              && replies == old(replies) + p.sent
              && stored == (if p.recorded == [] then old(stored) else p.state)
    {
      polls := polls + [PollRequest(PollSince(state), PAGE_LIMIT)];
      var messages := Sort(c.page);
      ghost var start := Begin(state, c.now);
      ghost var p := start;
      next := RecordPoll(state, c.now);
      var i := 0;
      completed := true;
      while i < |messages| && completed
        invariant 0 <= i <= |messages|
        invariant p == HandleAll(profile, c, start, messages[..i])
        invariant completed == !p.failed && next == p.state
        invariant polls == old(polls) + [PollRequest(PollSince(state), PAGE_LIMIT)]
        invariant replies == old(replies) + p.sent
        invariant stored == (if p.recorded == [] then old(stored) else p.state)
      {
        assert messages[..i + 1][..i] == messages[..i];
        next, completed := HandleMessage(c, messages[i], next, p);
        ghost var q := Handle(profile, c, p, messages[i]);
        assert old(replies) + p.sent + q.sent[|p.sent|..] == old(replies) + q.sent;
        p := q;
        i := i + 1;
      }
      if completed {
        assert messages[..i] == messages;
      } else {
        FailureStops(profile, c, start, messages, i);
      }
    }

    /** A transient failure keeps the state from before the cycle; the state file may be ahead of it. */
    method RunCycleWithRecovery(c: Cycle)
      modifies this
      ensures polls == old(polls) + [PollRequest(PollSince(old(state)), PAGE_LIMIT)]
      ensures var p := CycleResult(profile, old(state), c);
              && state == (if p.failed then old(state) else p.state)
              && replies == old(replies) + p.sent
              && stored == (if p.recorded == [] then old(stored) else p.state)
    {
      var next, completed := RunCycle(c);
      if completed {
        state := next;
      }
    }
  }
}
