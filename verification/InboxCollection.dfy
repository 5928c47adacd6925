/** Reading a buyer's requirements out of a timestamp-paged inbox: collecting all messages of an order, choosing the
    latest buyer message, and fetching that one message again later. */
module InboxCollection {
  import opened Outcomes

  type Millis = int

  datatype Item = Item(
    messageId: string, createdAt: Millis, orderId: string, conversationId: string, kind: string, account: string, text: string)

  datatype CollectError = ChangedId | Stalled | NoProgress | PageLimit

  const PAGE_SIZE: nat := 100
  const MAX_PAGES: nat := 20

  /** How the inbox answers: the page for the k-th request of a search, asked for messages at or after a time. */
  type Poll = (nat, Millis) -> seq<Item>

  // ---- the inbox ----

  ghost predicate IdsUnique(all: set<Item>) {
    forall a, b :: a in all && b in all && a.messageId == b.messageId ==> a == b
  }

  ghost predicate Distinct<T>(s: seq<T>) {
    forall i, j :: 0 <= i < j < |s| ==> s[i] != s[j]
  }

  ghost predicate DistinctIds(s: seq<Item>) {
    forall i, j :: 0 <= i < j < |s| ==> s[i].messageId != s[j].messageId
  }

  /** The oldest messages at or after `since`, all of them unless the page is full. */
  ghost predicate OldestPage(box: set<Item>, since: Millis, page: seq<Item>) {
    && |page| <= PAGE_SIZE
    && Distinct(page)
    && (forall i :: 0 <= i < |page| ==> page[i] in box && since <= page[i].createdAt)
    && (forall m :: m in box && since <= m.createdAt && m !in page ==>
          |page| == PAGE_SIZE && forall i :: 0 <= i < |page| ==> page[i].createdAt <= m.createdAt)
  }

  /** The inbox at the k-th request; messages may arrive between requests but none is lost or changed. */
  ghost predicate Serves(poll: Poll, boxes: nat -> set<Item>, all: set<Item>) {
    && IdsUnique(all)
    && (forall k: nat :: boxes(0) <= boxes(k) <= all)
    && forall k: nat, since :: OldestPage(boxes(k), since, poll(k, since))
  }

  ghost function Since(all: set<Item>, since: Millis): set<Item> {
    set m | m in all && since <= m.createdAt
  }

  /** Messages created in the closed window of one millisecond starting at `t`. */
  ghost function Window(all: set<Item>, t: Millis): set<Item> {
    set m | m in all && t <= m.createdAt <= t + 1
  }

  ghost predicate AtMostPerWindow(all: set<Item>, density: nat) {
    forall t :: |Window(all, t)| <= density
  }

  // ---- collecting ----

  ghost function ToSet<T>(s: seq<T>): set<T> {
    set x | x in s
  }

  /** The collected messages in insertion order, indexed by ID. */
  ghost predicate Indexes(messages: map<string, Item>, values: seq<Item>) {
    && Distinct(values)
    && (forall i :: 0 <= i < |values| ==> values[i].messageId in messages && messages[values[i].messageId] == values[i])
    && (forall id :: id in messages ==> messages[id].messageId == id && messages[id] in values)
  }

  lemma ToSetAppend(s: seq<Item>, m: Item)
    ensures ToSet(s + [m]) == ToSet(s) + {m}
  {
  }

  lemma IndexAdd(messages: map<string, Item>, values: seq<Item>, m: Item)
    requires Indexes(messages, values) && m.messageId !in messages
    ensures Indexes(messages[m.messageId := m], values + [m])
  {
  }

  /** Two messages share an ID. */
  ghost predicate Clashes(page: set<Item>, all: set<Item>) {
    exists m, n :: m in page && n in all && m.messageId == n.messageId && m != n
  }

  lemma ClashFound(messages: map<string, Item>, next: seq<Item>, values: seq<Item>, batch: seq<Item>, i: nat)
    requires i < |batch| && Indexes(messages, next) && ToSet(next) == ToSet(values) + ToSet(batch[..i])
    requires batch[i].messageId in messages && messages[batch[i].messageId] != batch[i]
    ensures Clashes(ToSet(batch), ToSet(values) + ToSet(batch))
  {
    var n := messages[batch[i].messageId];
    assert n in ToSet(next);
    assert ToSet(batch[..i]) <= ToSet(batch);
    assert batch[i] in ToSet(batch) && n in ToSet(values) + ToSet(batch);
  }

  /** Put one page into the map: fails on a known ID with other contents. */
  method AddPage(known: map<string, Item>, values: seq<Item>, batch: seq<Item>)
    returns (messages: map<string, Item>, next: seq<Item>, unseen: nat, changed: bool)
    requires Indexes(known, values)
    ensures Indexes(messages, next)
    ensures values <= next && unseen == |next| - |values|
    ensures !changed ==> ToSet(next) == ToSet(values) + ToSet(batch)
    ensures changed <==> Clashes(ToSet(batch), ToSet(values) + ToSet(batch))
  {
    messages, next, unseen, changed := known, values, 0, false;
    var i := 0;
    while i < |batch|
      invariant 0 <= i <= |batch|
      invariant Indexes(messages, next) && values <= next && unseen == |next| - |values|
      invariant ToSet(next) == ToSet(values) + ToSet(batch[..i])
    {
      var m := batch[i];
      assert batch[..i + 1] == batch[..i] + [m];
      ToSetAppend(batch[..i], m);
      ToSetAppend(next, m);
      if m.messageId in messages {
        if messages[m.messageId] != m {
          ClashFound(messages, next, values, batch, i);
          changed := true;
          return;
        }
      } else {
        IndexAdd(messages, next, m);
        messages, next, unseen := messages[m.messageId := m], next + [m], unseen + 1;
      }
      i := i + 1;
    }
    assert batch[..i] == batch;
    IndexedDoNotClash(messages, next);
  }

  lemma IndexedDoNotClash(messages: map<string, Item>, values: seq<Item>)
    requires Indexes(messages, values)
    ensures !Clashes(ToSet(values), ToSet(values))
  {
  }

  ghost predicate IsLatest(batch: seq<Item>, latest: Millis) {
    && (forall i :: 0 <= i < |batch| ==> batch[i].createdAt <= latest)
    && exists i :: 0 <= i < |batch| && batch[i].createdAt == latest
  }

  method Latest(batch: seq<Item>) returns (latest: Millis)
    requires batch != []
    ensures IsLatest(batch, latest)
  {
    latest := batch[0].createdAt;
    for i := 1 to |batch|
      invariant forall j :: 0 <= j < i ==> batch[j].createdAt <= latest
      invariant exists j :: 0 <= j < i && batch[j].createdAt == latest
    {
      if batch[i].createdAt > latest {
        latest := batch[i].createdAt;
      }
    }
  }

  function Max(a: int, b: int): int {
    if a >= b then a else b
  }

  /** What is known between pages: everything in scope and older than `since` has been collected. */
  ghost predicate Collected(boxes: nat -> set<Item>, all: set<Item>, start: Millis, since: Millis, values: seq<Item>) {
    && start <= since
    && ToSet(values) <= Since(all, start)
    && (forall m :: m in boxes(0) && start <= m.createdAt < since ==> m in values)
    && (forall m :: m in values ==> m.createdAt <= since + 1)
  }

  /** Whatever a page repeats lies in the window the request overlaps with. */
  lemma FreshInPage(all: set<Item>, since: Millis, values: seq<Item>, next: seq<Item>, page: seq<Item>, density: nat)
    requires AtMostPerWindow(all, density)
    requires Distinct(page) && Distinct(values) && Distinct(next)
    requires forall m :: m in page ==> m in all && since <= m.createdAt
    requires forall m :: m in values ==> m.createdAt <= since + 1
    requires ToSet(next) == ToSet(values) + ToSet(page)
    ensures |next| - |values| >= |page| - density
  {
    SizeOfDistinct(page);
    SizeOfDistinct(values);
    SizeOfDistinct(next);
    var repeated := ToSet(values) * ToSet(page);
    assert repeated <= Window(all, since);
    SubsetSize(repeated, Window(all, since));
    assert |ToSet(next)| == |ToSet(values)| + |ToSet(page)| - |repeated|;
  }

  lemma {:induction false} SizeOfDistinct<T>(s: seq<T>)
    requires Distinct(s)
    ensures |ToSet(s)| == |s|
    decreases |s|
  {
    if s != [] {
      var front := s[..|s| - 1];
      SizeOfDistinct(front);
      assert ToSet(s) == ToSet(front) + {s[|s| - 1]};
    }
  }

  lemma {:induction false} SubsetSize<T>(a: set<T>, b: set<T>)
    requires a <= b
    ensures |a| <= |b|
  {
    assert b == a + (b - a);
  }

  /** How many messages a number of full pages must have brought. */
  function Brought(pages: nat, density: nat): int {
    if pages == 0 then 0 else PAGE_SIZE + (pages - 1) * (PAGE_SIZE - density)
  }

  lemma BroughtStep(pages: nat, density: nat)
    ensures Brought(pages + 1, density) == if pages == 0 then PAGE_SIZE else Brought(pages, density) + PAGE_SIZE - density
  {
  }

  /** The inbox is oldest-first and not too crowded. */
  ghost predicate Roomy(poll: Poll, boxes: nat -> set<Item>, all: set<Item>, density: nat) {
    Serves(poll, boxes, all) && AtMostPerWindow(all, density) && density < PAGE_SIZE
  }

  ghost predicate Complete(boxes: nat -> set<Item>, all: set<Item>, start: Millis, values: seq<Item>) {
    Distinct(values) && Since(boxes(0), start) <= ToSet(values) <= Since(all, start)
  }

  /** A full page moves the search forward. */
  lemma FullPage(poll: Poll, boxes: nat -> set<Item>, all: set<Item>, start: Millis, since: Millis, k: nat,
                 values: seq<Item>, next: seq<Item>, latest: Millis)
    requires Serves(poll, boxes, all) && Collected(boxes, all, start, since, values)
    requires ToSet(next) == ToSet(values) + ToSet(poll(k, since))
    requires latest > since
    requires IsLatest(poll(k, since), latest)
    ensures Collected(boxes, all, start, Max(since, latest - 1), next)
  {
    var page := poll(k, since);
    assert OldestPage(boxes(k), since, page);
    forall m | m in boxes(0) && start <= m.createdAt < latest - 1 ensures m in next {
      if m.createdAt < since {
        assert m in ToSet(values);
      } else {
        assert m in ToSet(page);
      }
      assert m in ToSet(next);
    }
    forall m | m in next ensures m.createdAt <= latest && start <= m.createdAt && m in all {
      assert m in ToSet(next);
      if m in ToSet(page) { assert m in boxes(k); }
    }
  }

  /** A page that is not full ends the search: nothing is left to collect. */
  lemma ShortPage(poll: Poll, boxes: nat -> set<Item>, all: set<Item>, start: Millis, since: Millis, k: nat,
                  values: seq<Item>, next: seq<Item>)
    requires Serves(poll, boxes, all) && Collected(boxes, all, start, since, values)
    requires ToSet(next) == ToSet(values) + ToSet(poll(k, since)) && Distinct(next)
    requires |poll(k, since)| < PAGE_SIZE
    ensures Complete(boxes, all, start, next)
  {
  }

  /** A page that brings nothing new, or that never leaves its starting time, is crowded. */
  lemma CrowdedPage(poll: Poll, boxes: nat -> set<Item>, all: set<Item>, since: Millis, k: nat, density: nat,
                    values: seq<Item>, next: seq<Item>)
    requires Serves(poll, boxes, all) && AtMostPerWindow(all, density)
    requires forall m :: m in values ==> m.createdAt <= since + 1
    requires Distinct(values) && Distinct(next) && ToSet(next) == ToSet(values) + ToSet(poll(k, since))
    ensures |next| - |values| >= |poll(k, since)| - density
    ensures (forall i :: 0 <= i < |poll(k, since)| ==> poll(k, since)[i].createdAt <= since) ==> |poll(k, since)| <= density
  {
    var page := poll(k, since);
    assert OldestPage(boxes(k), since, page);
    FreshInPage(all, since, values, next, page, density);
    if forall i :: 0 <= i < |page| ==> page[i].createdAt <= since {
      SizeOfDistinct(page);
      SubsetSize(ToSet(page), Window(all, since));
    }
  }

  /** What holds when a page is about to be requested. */
  ghost predicate Searching(poll: Poll, boxes: nat -> set<Item>, all: set<Item>, density: nat,
                            start: Millis, since: Millis, pages: nat, values: seq<Item>) {
    && Distinct(values)
    && (pages == 0 ==> values == [])
    && (Serves(poll, boxes, all) ==> Collected(boxes, all, start, since, values))
    && (Roomy(poll, boxes, all, density) ==> |values| >= Brought(pages, density))
  }

  lemma FullPageKeeps(poll: Poll, boxes: nat -> set<Item>, all: set<Item>, density: nat, start: Millis, since: Millis,
                      k: nat, values: seq<Item>, next: seq<Item>, latest: Millis)
    requires Searching(poll, boxes, all, density, start, since, k, values) && Distinct(next)
    requires ToSet(next) == ToSet(values) + ToSet(poll(k, since)) && |poll(k, since)| >= PAGE_SIZE
    requires latest > since
    requires IsLatest(poll(k, since), latest)
    ensures Searching(poll, boxes, all, density, start, Max(since, latest - 1), k + 1, next)
  {
    if Serves(poll, boxes, all) {
      FullPage(poll, boxes, all, start, since, k, values, next, latest);
      if Roomy(poll, boxes, all, density) {
        CrowdedPage(poll, boxes, all, since, k, density, values, next);
        BroughtStep(k, density);
        if k == 0 {
          assert OldestPage(boxes(k), since, poll(k, since));
          assert ToSet(next) == ToSet(poll(k, since));
          SizeOfDistinct(next);
          SizeOfDistinct(poll(k, since));
        }
      }
    }
  }

  /** All or nothing: against an oldest-first inbox a result is everything; a failure is never a changed message, and in
      a roomy inbox it can only be that twenty pages were too few. */
  ghost predicate AllOrNothing(poll: Poll, boxes: nat -> set<Item>, all: set<Item>, density: nat, start: Millis,
                               r: Result<seq<Item>, CollectError>) {
    match r
    case Ok(values) => DistinctIds(values) && (Serves(poll, boxes, all) ==> Complete(boxes, all, start, values))
    case Err(error) =>
      && (Serves(poll, boxes, all) ==> error != ChangedId)
      && (Roomy(poll, boxes, all, density) ==> error == PageLimit && |Since(all, start)| >= Brought(MAX_PAGES, density))
  }

  lemma ChangedMeansBroken(poll: Poll, boxes: nat -> set<Item>, all: set<Item>, density: nat, start: Millis, since: Millis,
                           k: nat, values: seq<Item>)
    requires Searching(poll, boxes, all, density, start, since, k, values)
    requires Clashes(ToSet(poll(k, since)), ToSet(values) + ToSet(poll(k, since)))
    ensures AllOrNothing(poll, boxes, all, density, start, Err(ChangedId))
  {
  }

  lemma ShortMeansComplete(poll: Poll, boxes: nat -> set<Item>, all: set<Item>, density: nat, start: Millis, since: Millis,
                           k: nat, values: seq<Item>, next: seq<Item>)
    requires Searching(poll, boxes, all, density, start, since, k, values) && Distinct(next) && DistinctIds(next)
    requires ToSet(next) == ToSet(values) + ToSet(poll(k, since)) && |poll(k, since)| < PAGE_SIZE
    ensures AllOrNothing(poll, boxes, all, density, start, Ok(next))
  {
  }

  lemma StuckMeansCrowded(poll: Poll, boxes: nat -> set<Item>, all: set<Item>, density: nat, start: Millis, since: Millis,
                          k: nat, values: seq<Item>, next: seq<Item>, error: CollectError)
    requires Searching(poll, boxes, all, density, start, since, k, values) && Distinct(next)
    requires ToSet(next) == ToSet(values) + ToSet(poll(k, since)) && |poll(k, since)| >= PAGE_SIZE
    requires |next| == |values| || forall i :: 0 <= i < |poll(k, since)| ==> poll(k, since)[i].createdAt <= since
    requires error == Stalled || error == NoProgress
    ensures AllOrNothing(poll, boxes, all, density, start, Err(error))
  {
    if Roomy(poll, boxes, all, density) {
      CrowdedPage(poll, boxes, all, since, k, density, values, next);
      assert false;
    }
  }

  lemma TooManyPages(poll: Poll, boxes: nat -> set<Item>, all: set<Item>, density: nat, start: Millis, since: Millis, values: seq<Item>)
    requires Searching(poll, boxes, all, density, start, since, MAX_PAGES, values)
    ensures AllOrNothing(poll, boxes, all, density, start, Err(PageLimit))
  {
    if Roomy(poll, boxes, all, density) {
      SizeOfDistinct(values);
      SubsetSize(ToSet(values), Since(all, start));
    }
  }

  /** The messages on the first `n` pages, the k-th of which was asked for from the k-th of these times on. */
  ghost function OnPages(poll: Poll, times: seq<Millis>, n: nat): set<Item>
    requires n <= |times|
  {
    if n == 0 then {} else OnPages(poll, times, n - 1) + ToSet(poll(n - 1, times[n - 1]))
  }

  /** Page `k` is full and brings a new message, and the next one starts a millisecond before its latest, which is later. */
  ghost predicate GoesOn(poll: Poll, times: seq<Millis>, k: nat, next: Millis)
    requires k < |times|
  {
    var page := poll(k, times[k]);
    && |page| >= 100 && !(ToSet(page) <= OnPages(poll, times, k))
    && exists latest :: IsLatest(page, latest) && latest > times[k] && next == latest - 1
  }

  ghost predicate LeadsOn(poll: Poll, times: seq<Millis>, k: nat)
    requires k < |times| - 1
  {
    GoesOn(poll, times, k, times[k + 1])
  }

  /** The pages asked for at these times, one after the other; no message has changed so far. */
  ghost predicate Paging(poll: Poll, start: Millis, times: seq<Millis>) {
    && times != [] && times[0] == start
    && (forall k :: 0 <= k < |times| - 1 ==> LeadsOn(poll, times, k))
    && !Clashes(OnPages(poll, times, |times| - 1), OnPages(poll, times, |times| - 1))
  }

  /** How a search ends at its last page, whatever the inbox answers. */
  ghost predicate EndsWith(poll: Poll, start: Millis, times: seq<Millis>, r: Result<seq<Item>, CollectError>) {
    && Paging(poll, start, times) && |times| <= 20
    && var last := |times| - 1;
       var page, before := poll(last, times[last]), OnPages(poll, times, last);
       var changed := Clashes(ToSet(page), before + ToSet(page));
       match r
       case Ok(values) =>
         !changed && |page| < 100 && Distinct(values) && ToSet(values) == OnPages(poll, times, |times|)
       case Err(ChangedId) => changed
       case Err(Stalled) => !changed && |page| >= 100 && ToSet(page) <= before
       case Err(NoProgress) =>
         !changed && |page| >= 100 && !(ToSet(page) <= before) && forall m :: m in page ==> m.createdAt <= times[last]
       case Err(PageLimit) => !changed && |times| == 20 && exists next :: GoesOn(poll, times, last, next)
  }

  /** Some sequence of pages explains the result. */
  ghost predicate Explained(poll: Poll, start: Millis, r: Result<seq<Item>, CollectError>) {
    exists times :: EndsWith(poll, start, times, r)
  }

  /** What the loop knows before it asks for a page: what it has collected, and from where. */
  ghost predicate Asking(poll: Poll, start: Millis, times: seq<Millis>, since: Millis, values: seq<Item>) {
    Paging(poll, start, times) && times[|times| - 1] == since && ToSet(values) == OnPages(poll, times, |times| - 1) && Distinct(values)
  }

  lemma ChangeExplains(poll: Poll, start: Millis, times: seq<Millis>, since: Millis, values: seq<Item>)
    requires Asking(poll, start, times, since, values) && |times| <= 20
    requires Clashes(ToSet(poll(|times| - 1, since)), ToSet(values) + ToSet(poll(|times| - 1, since)))
    ensures Explained(poll, start, Err(ChangedId))
  {
    assert EndsWith(poll, start, times, Err(ChangedId));
  }

  lemma ShortPageExplains(poll: Poll, start: Millis, times: seq<Millis>, since: Millis, values: seq<Item>, next: seq<Item>)
    requires Asking(poll, start, times, since, values) && |times| <= 20 && |poll(|times| - 1, since)| < 100
    requires !Clashes(ToSet(poll(|times| - 1, since)), ToSet(values) + ToSet(poll(|times| - 1, since)))
    requires Distinct(next) && ToSet(next) == ToSet(values) + ToSet(poll(|times| - 1, since))
    ensures Explained(poll, start, Ok(next))
  {
    assert EndsWith(poll, start, times, Ok(next));
  }

  lemma StuckExplains(poll: Poll, start: Millis, times: seq<Millis>, since: Millis, values: seq<Item>, next: seq<Item>)
    requires Asking(poll, start, times, since, values) && |times| <= 20 && |poll(|times| - 1, since)| >= 100
    requires !Clashes(ToSet(poll(|times| - 1, since)), ToSet(values) + ToSet(poll(|times| - 1, since)))
    requires Distinct(next) && values <= next && ToSet(next) == ToSet(values) + ToSet(poll(|times| - 1, since))
    ensures |next| == |values| ==> Explained(poll, start, Err(Stalled))
    ensures |next| != |values| && (forall m :: m in poll(|times| - 1, since) ==> m.createdAt <= since) ==>
              Explained(poll, start, Err(NoProgress))
  {
    AllSeenExactly(values, next, poll(|times| - 1, since));
    if |next| == |values| {
      assert EndsWith(poll, start, times, Err(Stalled));
    } else if forall m :: m in poll(|times| - 1, since) ==> m.createdAt <= since {
      assert EndsWith(poll, start, times, Err(NoProgress));
    }
  }

  /** A full page with something new leads on. */
  lemma FullPageLeadsOn(poll: Poll, times: seq<Millis>, since: Millis, values: seq<Item>, next: seq<Item>, latest: Millis)
    requires times != [] && times[|times| - 1] == since && ToSet(values) == OnPages(poll, times, |times| - 1)
    requires |poll(|times| - 1, since)| >= 100 && IsLatest(poll(|times| - 1, since), latest) && latest > since
    requires Merged(values, poll(|times| - 1, since), next) && |next| != |values|
    ensures GoesOn(poll, times, |times| - 1, latest - 1)
  {
    AllSeenExactly(values, next, poll(|times| - 1, since));
  }

  lemma NextExplains(poll: Poll, start: Millis, times: seq<Millis>, since: Millis, messages: map<string, Item>,
                     values: seq<Item>, next: seq<Item>, latest: Millis)
    requires Asking(poll, start, times, since, values) && |times| <= 20 && GoesOn(poll, times, |times| - 1, latest - 1)
    requires Merged(values, poll(|times| - 1, since), next) && Indexes(messages, next)
    ensures Asking(poll, start, times + [latest - 1], latest - 1, next)
  {
    IndexedDoNotClash(messages, next);
    assert OnPages(poll, times, |times|) == ToSet(next);
    PagingGoesOn(poll, start, times, latest - 1);
  }

  lemma LimitExplains(poll: Poll, start: Millis, times: seq<Millis>, since: Millis, messages: map<string, Item>,
                      values: seq<Item>, next: seq<Item>, latest: Millis)
    requires Asking(poll, start, times, since, values) && |times| == 20 && GoesOn(poll, times, |times| - 1, latest - 1)
    requires Merged(values, poll(|times| - 1, since), next) && Indexes(messages, next)
    ensures Explained(poll, start, Err(PageLimit))
  {
    IndexedDoNotClash(messages, next);
    assert EndsWith(poll, start, times, Err(PageLimit));
  }

  /** A page is merged into the messages. */
  ghost predicate Merged(values: seq<Item>, batch: seq<Item>, next: seq<Item>) {
    Distinct(values) && Distinct(next) && values <= next && ToSet(next) == ToSet(values) + ToSet(batch)
  }

  /** A page brings something new exactly when the number of messages grows. */
  lemma AllSeenExactly(values: seq<Item>, next: seq<Item>, batch: seq<Item>)
    requires Merged(values, batch, next)
    ensures |next| == |values| <==> ToSet(batch) <= ToSet(values)
  {
    SizeOfDistinct(values);
    SizeOfDistinct(next);
    if ToSet(batch) <= ToSet(values) { assert ToSet(next) == ToSet(values); }
  }

  lemma {:induction false} OnPagesStay(poll: Poll, times: seq<Millis>, t: Millis, n: nat)
    requires n <= |times|
    ensures OnPages(poll, times + [t], n) == OnPages(poll, times, n)
  {
    if n > 0 { OnPagesStay(poll, times, t, n - 1); }
  }

  lemma GoesOnStays(poll: Poll, times: seq<Millis>, t: Millis, k: nat, next: Millis)
    requires k < |times|
    ensures GoesOn(poll, times + [t], k, next) == GoesOn(poll, times, k, next)
  {
    OnPagesStay(poll, times, t, k);
  }

  /** A page that brings something new and does not change anything leads to the next one. */
  lemma PagingGoesOn(poll: Poll, start: Millis, times: seq<Millis>, next: Millis)
    requires Paging(poll, start, times) && GoesOn(poll, times, |times| - 1, next)
    requires !Clashes(OnPages(poll, times, |times|), OnPages(poll, times, |times|))
    ensures Paging(poll, start, times + [next])
    ensures OnPages(poll, times + [next], |times|) == OnPages(poll, times, |times|)
  {
    var all := times + [next];
    OnPagesStay(poll, times, next, |times|);
    forall k | 0 <= k < |all| - 1 ensures LeadsOn(poll, all, k) {
      GoesOnStays(poll, times, next, k, all[k + 1]);
      if k < |times| - 1 { assert LeadsOn(poll, times, k); }
    }
  }

  /** What the loop knows before it asks for the next page. */
  ghost predicate Looping(poll: Poll, boxes: nat -> set<Item>, all: set<Item>, density: nat, start: Millis,
                          times: seq<Millis>, since: Millis, values: seq<Item>) {
    times != [] && Searching(poll, boxes, all, density, start, since, |times| - 1, values) && Asking(poll, start, times, since, values)
  }

  ghost predicate Answers(poll: Poll, boxes: nat -> set<Item>, all: set<Item>, density: nat, start: Millis,
                          r: Result<seq<Item>, CollectError>) {
    AllOrNothing(poll, boxes, all, density, start, r) && Explained(poll, start, r)
  }

  lemma ChangedEnds(poll: Poll, boxes: nat -> set<Item>, all: set<Item>, density: nat, start: Millis,
                    times: seq<Millis>, since: Millis, values: seq<Item>)
    requires Looping(poll, boxes, all, density, start, times, since, values) && |times| <= 20
    requires Clashes(ToSet(poll(|times| - 1, since)), ToSet(values) + ToSet(poll(|times| - 1, since)))
    ensures Answers(poll, boxes, all, density, start, Err(ChangedId))
  {
    ChangedMeansBroken(poll, boxes, all, density, start, since, |times| - 1, values);
    ChangeExplains(poll, start, times, since, values);
  }

  lemma ShortEnds(poll: Poll, boxes: nat -> set<Item>, all: set<Item>, density: nat, start: Millis,
                  times: seq<Millis>, since: Millis, messages: map<string, Item>, values: seq<Item>, next: seq<Item>)
    requires Looping(poll, boxes, all, density, start, times, since, values) && |times| <= 20
    requires Merged(values, poll(|times| - 1, since), next) && Indexes(messages, next) && |poll(|times| - 1, since)| < 100
    requires !Clashes(ToSet(poll(|times| - 1, since)), ToSet(values) + ToSet(poll(|times| - 1, since)))
    ensures Answers(poll, boxes, all, density, start, Ok(next))
  {
    ShortMeansComplete(poll, boxes, all, density, start, since, |times| - 1, values, next);
    ShortPageExplains(poll, start, times, since, values, next);
  }

  lemma StuckEnds(poll: Poll, boxes: nat -> set<Item>, all: set<Item>, density: nat, start: Millis,
                  times: seq<Millis>, since: Millis, values: seq<Item>, next: seq<Item>)
    requires Looping(poll, boxes, all, density, start, times, since, values) && |times| <= 20
    requires Merged(values, poll(|times| - 1, since), next) && |poll(|times| - 1, since)| >= 100
    requires !Clashes(ToSet(poll(|times| - 1, since)), ToSet(values) + ToSet(poll(|times| - 1, since)))
    requires |next| == |values| || forall m :: m in poll(|times| - 1, since) ==> m.createdAt <= since
    ensures Answers(poll, boxes, all, density, start, Err(if |next| == |values| then Stalled else NoProgress))
  {
    var error := if |next| == |values| then Stalled else NoProgress;
    StuckMeansCrowded(poll, boxes, all, density, start, since, |times| - 1, values, next, error);
    StuckExplains(poll, start, times, since, values, next);
  }

  lemma NextAsks(poll: Poll, start: Millis, times: seq<Millis>, since: Millis, messages: map<string, Item>,
                 values: seq<Item>, next: seq<Item>, latest: Millis)
    requires Asking(poll, start, times, since, values) && |times| <= 20 && |poll(|times| - 1, since)| >= 100
    requires Merged(values, poll(|times| - 1, since), next) && Indexes(messages, next)
    requires |next| != |values| && IsLatest(poll(|times| - 1, since), latest) && latest > since
    ensures Asking(poll, start, times + [latest - 1], latest - 1, next)
    ensures |times| == 20 ==> Explained(poll, start, Err(PageLimit))
  {
    FullPageLeadsOn(poll, times, since, values, next, latest);
    NextExplains(poll, start, times, since, messages, values, next, latest);
    if |times| == 20 { LimitExplains(poll, start, times, since, messages, values, next, latest); }
  }

  lemma NextSearches(poll: Poll, boxes: nat -> set<Item>, all: set<Item>, density: nat, start: Millis, k: nat, since: Millis,
                     values: seq<Item>, next: seq<Item>, latest: Millis)
    requires Searching(poll, boxes, all, density, start, since, k, values) && k < MAX_PAGES
    requires Merged(values, poll(k, since), next) && |poll(k, since)| >= PAGE_SIZE
    requires IsLatest(poll(k, since), latest) && latest > since
    ensures Searching(poll, boxes, all, density, start, latest - 1, k + 1, next)
    ensures k == MAX_PAGES - 1 ==> AllOrNothing(poll, boxes, all, density, start, Err(PageLimit))
  {
    FullPageKeeps(poll, boxes, all, density, start, since, k, values, next, latest);
    if k == MAX_PAGES - 1 { TooManyPages(poll, boxes, all, density, start, latest - 1, next); }
  }

  lemma NextLoops(poll: Poll, boxes: nat -> set<Item>, all: set<Item>, density: nat, start: Millis,
                  times: seq<Millis>, since: Millis, messages: map<string, Item>, values: seq<Item>, next: seq<Item>, latest: Millis)
    requires Looping(poll, boxes, all, density, start, times, since, values) && |times| <= 20
    requires Merged(values, poll(|times| - 1, since), next) && Indexes(messages, next) && |poll(|times| - 1, since)| >= 100
    requires |next| != |values| && IsLatest(poll(|times| - 1, since), latest) && latest > since
    ensures Looping(poll, boxes, all, density, start, times + [latest - 1], latest - 1, next)
    ensures |times| == 20 ==> Answers(poll, boxes, all, density, start, Err(PageLimit))
  {
    NextSearches(poll, boxes, all, density, start, |times| - 1, since, values, next, latest);
    NextAsks(poll, start, times, since, messages, values, next, latest);
  }

  /** Collect the inbox from just before `createdAt`: pages of 100 with a one-millisecond overlap, at most 20 pages. */
  method CollectRuntimeMessages(
      poll: Poll, createdAt: Millis, ghost boxes: nat -> set<Item>, ghost all: set<Item>, ghost density: nat)
    returns (r: Result<seq<Item>, CollectError>)
    ensures AllOrNothing(poll, boxes, all, density, createdAt - 1, r)
    ensures Explained(poll, createdAt - 1, r)
  {
    ghost var start, times := createdAt - 1, [createdAt - 1];
    var since := createdAt - 1;
    var messages: map<string, Item>, values: seq<Item> := map[], [];
    var page := 0;
    while page < MAX_PAGES
      invariant 0 <= page <= MAX_PAGES && |times| == page + 1
      invariant Indexes(messages, values)
      invariant Looping(poll, boxes, all, density, start, times, since, values)
      invariant page == MAX_PAGES ==> Answers(poll, boxes, all, density, start, Err(PageLimit))
    {
      var batch := poll(page, since);
      var next, unseen, changed;
      messages, next, unseen, changed := AddPage(messages, values, batch);
      if changed {
        ChangedEnds(poll, boxes, all, density, start, times, since, values);
        return Err(ChangedId);
      }
      if |batch| < PAGE_SIZE {
        ShortEnds(poll, boxes, all, density, start, times, since, messages, values, next);
        return Ok(next);
      }
      if unseen == 0 {
        StuckEnds(poll, boxes, all, density, start, times, since, values, next);
        return Err(Stalled);
      }
      var latest := Latest(batch);
      if latest <= since {
        StuckEnds(poll, boxes, all, density, start, times, since, values, next);
        return Err(NoProgress);
      }
      NextLoops(poll, boxes, all, density, start, times, since, messages, values, next, latest);
      since, values, page, times := Max(since, latest - 1), next, page + 1, times + [latest - 1];
    }
    return Err(PageLimit);
  }

  // ---- choosing the buyer's message ----

  datatype Order = Order(id: string, conversationId: string, clientAccount: string)

  datatype Locator = Locator(orderId: string, conversationId: string, messageId: string, since: Millis)

  datatype IntakeError = NoBuyerMessage | SharedTimestamp

  predicate Eligible(order: Order, m: Item) {
    m.orderId == order.id && m.conversationId == order.conversationId && m.kind == "TEXT" && m.account == order.clientAccount
  }

  function BuyerTexts(order: Order, messages: seq<Item>): seq<Item> {
    if messages == [] then []
    else
      var rest := BuyerTexts(order, messages[1..]);
      if Eligible(order, messages[0]) then [messages[0]] + rest else rest
  }

  /** Stable, newest first. */
  function InsertNewest(m: Item, sorted: seq<Item>): seq<Item> {
    if sorted == [] || m.createdAt >= sorted[0].createdAt then [m] + sorted
    else [sorted[0]] + InsertNewest(m, sorted[1..])
  }

  function NewestFirst(messages: seq<Item>): seq<Item> {
    if messages == [] then [] else InsertNewest(messages[0], NewestFirst(messages[1..]))
  }

  function IntakeFromMessages(order: Order, messages: seq<Item>): Result<(Item, Locator), IntakeError> {
    var texts := NewestFirst(BuyerTexts(order, messages));
    if texts == [] then Err(NoBuyerMessage)
    else
      var m := texts[0];
      if |texts| > 1 && texts[1].createdAt == m.createdAt && texts[1].messageId != m.messageId then Err(SharedTimestamp)
      else Ok((m, Locator(order.id, order.conversationId, m.messageId, m.createdAt - 1)))
  }

  ghost predicate Newest(s: seq<Item>) {
    forall i, j :: 0 <= i < j < |s| ==> s[i].createdAt >= s[j].createdAt
  }

  lemma {:induction false} InsertNewestKeeps(m: Item, sorted: seq<Item>)
    ensures multiset(InsertNewest(m, sorted)) == multiset{m} + multiset(sorted)
    decreases |sorted|
  {
    if sorted != [] && m.createdAt < sorted[0].createdAt {
      InsertNewestKeeps(m, sorted[1..]);
      assert sorted == [sorted[0]] + sorted[1..];
    }
  }

  lemma {:induction false} InsertNewestIsSorted(m: Item, sorted: seq<Item>)
    requires Newest(sorted)
    ensures Newest(InsertNewest(m, sorted))
    decreases |sorted|
  {
    if sorted != [] && m.createdAt < sorted[0].createdAt {
      InsertNewestIsSorted(m, sorted[1..]);
      InsertNewestKeeps(m, sorted[1..]);
      var rest := InsertNewest(m, sorted[1..]);
      forall i | 0 <= i < |rest| ensures rest[i].createdAt <= sorted[0].createdAt {
        assert rest[i] in multiset(rest);
      }
    }
  }

  lemma {:induction false} NewestFirstIsSorted(messages: seq<Item>)
    ensures Newest(NewestFirst(messages))
    ensures multiset(NewestFirst(messages)) == multiset(messages)
    decreases |messages|
  {
    if messages != [] {
      NewestFirstIsSorted(messages[1..]);
      InsertNewestIsSorted(messages[0], NewestFirst(messages[1..]));
      InsertNewestKeeps(messages[0], NewestFirst(messages[1..]));
      assert messages == [messages[0]] + messages[1..];
    }
  }

  lemma {:induction false} BuyerTextsExact(order: Order, messages: seq<Item>, m: Item)
    ensures multiset(BuyerTexts(order, messages))[m] == if Eligible(order, m) then multiset(messages)[m] else 0
    decreases |messages|
  {
    if messages != [] {
      BuyerTextsExact(order, messages[1..], m);
      assert messages == [messages[0]] + messages[1..];
    }
  }

  /** A text that the client of the order wrote for it in its conversation. */
  ghost predicate BuyerText(order: Order, m: Item) {
    (order.id, order.conversationId, order.clientAccount, "TEXT") == (m.orderId, m.conversationId, m.account, m.kind)
  }

  /** `m` is a buyer message and every other buyer message is strictly older. */
  ghost predicate StrictlyLatest(order: Order, messages: set<Item>, m: Item) {
    m in messages && BuyerText(order, m) && forall n :: n in messages && BuyerText(order, n) && n != m ==> n.createdAt < m.createdAt
  }

  lemma SortedTexts(order: Order, messages: seq<Item>)
    requires DistinctIds(messages)
    ensures var texts := NewestFirst(BuyerTexts(order, messages));
            && Newest(texts)
            && (forall m :: m in texts <==> m in messages && Eligible(order, m))
            && forall i, j :: 0 <= i < j < |texts| ==> texts[i] != texts[j]
  {
    var texts := NewestFirst(BuyerTexts(order, messages));
    NewestFirstIsSorted(BuyerTexts(order, messages));
    forall m ensures multiset(texts)[m] == if Eligible(order, m) then multiset(messages)[m] else 0 {
      BuyerTextsExact(order, messages, m);
    }
    forall m ensures m in texts <==> m in messages && Eligible(order, m) {
      assert m in texts <==> m in multiset(texts);
      assert m in messages <==> m in multiset(messages);
    }
    forall i, j | 0 <= i < j < |texts| ensures texts[i] != texts[j] {
      if texts[i] == texts[j] {
        AtMostOnce(messages, texts[i]);
        Twice(texts, i, j);
      }
    }
  }

  lemma {:induction false} AtMostOnce(messages: seq<Item>, m: Item)
    requires DistinctIds(messages)
    ensures multiset(messages)[m] <= 1
    decreases |messages|
  {
    if messages != [] {
      AtMostOnce(messages[1..], m);
      assert messages == [messages[0]] + messages[1..];
      if m == messages[0] {
        forall j | 0 <= j < |messages| - 1 ensures messages[1..][j] != m {
          assert messages[0].messageId != messages[j + 1].messageId;
        }
        assert m !in messages[1..];
      }
    }
  }

  lemma Twice(s: seq<Item>, i: nat, j: nat)
    requires i < j < |s| && s[i] == s[j]
    ensures multiset(s)[s[i]] >= 2
  {
    assert s == s[..j] + s[j..];
    assert s[..j][i] in multiset(s[..j]) && s[j..][0] in multiset(s[j..]);
  }

  /** There is no requirement exactly when the buyer has written no text for the order. */
  lemma NoIntakeExactly(order: Order, messages: seq<Item>)
    requires DistinctIds(messages)
    ensures IntakeFromMessages(order, messages) == Err(NoBuyerMessage) <==> forall m :: m in messages ==> !BuyerText(order, m)
  {
    var texts := NewestFirst(BuyerTexts(order, messages));
    SortedTexts(order, messages);
    if texts != [] { assert texts[0] in texts; }
  }

  ghost predicate TopEligible(order: Order, messages: seq<Item>, m: Item) {
    m in messages && Eligible(order, m) && forall n :: n in messages && Eligible(order, n) && n != m ==> n.createdAt < m.createdAt
  }

  lemma TopEligibleExactly(order: Order, messages: seq<Item>, m: Item)
    ensures StrictlyLatest(order, ToSet(messages), m) <==> TopEligible(order, messages, m)
  {
    forall n ensures Eligible(order, n) <==> BuyerText(order, n) {
    }
  }

  lemma IntakeIsTopEligible(order: Order, messages: seq<Item>, m: Item)
    requires DistinctIds(messages)
    ensures var locator := Locator(order.id, order.conversationId, m.messageId, m.createdAt - 1);
            IntakeFromMessages(order, messages) == Ok((m, locator)) <==> TopEligible(order, messages, m)
  {
    var texts := NewestFirst(BuyerTexts(order, messages));
    SortedTexts(order, messages);
    if TopEligible(order, messages, m) {
      var i :| 0 <= i < |texts| && texts[i] == m;
      assert texts[0] in texts && texts[0] in messages && Eligible(order, texts[0]);
      if |texts| > 1 { assert texts[1] in texts && texts[1] in messages; }
    }
    if IntakeFromMessages(order, messages).Ok? && texts[0] == m {
      forall n | n in messages && Eligible(order, n) && n != m ensures n.createdAt < m.createdAt {
        var i :| 0 <= i < |texts| && texts[i] == n;
        assert texts[1] in texts && texts[0] in texts;
        DifferentIds(messages, texts[1], m);
      }
    }
  }

  /** The buyer's requirements are taken from exactly the strictly latest buyer message: any tie at the top refuses. */
  lemma IntakeIsStrictlyLatest(order: Order, messages: seq<Item>, m: Item)
    requires DistinctIds(messages)
    ensures var locator := Locator(order.id, order.conversationId, m.messageId, m.createdAt - 1);
            IntakeFromMessages(order, messages) == Ok((m, locator)) <==> StrictlyLatest(order, ToSet(messages), m)
  {
    TopEligibleExactly(order, messages, m);
    IntakeIsTopEligible(order, messages, m);
  }

  lemma DifferentIds(messages: seq<Item>, a: Item, b: Item)
    requires DistinctIds(messages) && a in messages && b in messages && a != b
    ensures a.messageId != b.messageId
  {
  }

  // ---- fetching one message again ----

  /** An inbox entry as received: it may lack a string ID or a readable creation time. */
  datatype Entry = Entry(messageId: Option<string>, createdAt: Option<Millis>, item: Option<Item>)

  datatype FetchError = DuplicateId | RepeatedPage | NoForwardProgress | NotReturned

  type RawPoll = (nat, Millis) -> seq<Entry>

  function AsEntry(m: Item): Entry {
    Entry(Some(m.messageId), Some(m.createdAt), Some(m))
  }

  /** The page holds these messages, in this order. */
  ghost predicate Presents(entries: seq<Entry>, page: seq<Item>) {
    |entries| == |page| && forall i :: 0 <= i < |page| ==> entries[i] == AsEntry(page[i])
  }

  ghost predicate ServesRaw(raw: RawPoll, poll: Poll, boxes: nat -> set<Item>, all: set<Item>) {
    Serves(poll, boxes, all) && forall k: nat, since :: Presents(raw(k, since), poll(k, since))
  }

  method Matches(items: seq<Entry>, id: string) returns (matches: seq<Entry>)
    ensures matches == MatchesOf(items, id)
  {
    matches := [];
    for i := 0 to |items|
      invariant matches == MatchesOf(items[..i], id)
    {
      assert items[..i + 1][..i] == items[..i];
      if items[i].messageId == Some(id) {
        matches := matches + [items[i]];
      }
    }
    assert items[..|items|] == items;
  }

  function MatchesOf(items: seq<Entry>, id: string): seq<Entry> {
    if items == [] then []
    else
      var front := MatchesOf(items[..|items| - 1], id);
      if items[|items| - 1].messageId == Some(id) then front + [items[|items| - 1]] else front
  }

  /** The matches are the entries with the ID, each as often as it occurs. */
  lemma {:induction false} MatchesExact(items: seq<Entry>, id: string, e: Entry)
    ensures multiset(MatchesOf(items, id))[e] == if e.messageId == Some(id) then multiset(items)[e] else 0
    decreases |items|
  {
    if items != [] {
      MatchesExact(items[..|items| - 1], id, e);
      assert items == items[..|items| - 1] + [items[|items| - 1]];
    }
  }

  /** A page of an ID-unique inbox matches an ID at most once, and exactly when it holds that message. */
  lemma {:induction false} MatchesInPage(entries: seq<Entry>, page: seq<Item>, all: set<Item>, target: Item)
    requires Presents(entries, page) && Distinct(page) && IdsUnique(all) && target in all
    requires forall i :: 0 <= i < |page| ==> page[i] in all
    ensures MatchesOf(entries, target.messageId) == if target in page then [AsEntry(target)] else []
    decreases |page|
  {
    if page != [] {
      var front, last := page[..|page| - 1], page[|page| - 1];
      MatchesInPage(entries[..|entries| - 1], front, all, target);
      assert target in page <==> target in front || target == last;
    }
  }

  function IdsOf(items: seq<Entry>): set<string> {
    set i | 0 <= i < |items| && items[i].messageId.Some? :: items[i].messageId.value
  }

  ghost predicate NoneLater(items: seq<Entry>, t: Millis) {
    forall i :: 0 <= i < |items| && items[i].createdAt.Some? ==> items[i].createdAt.value <= t
  }

  /** The latest readable time after `since` on a page, and how many IDs are new. */
  method ScanPage(items: seq<Entry>, since: Millis, known: set<string>)
    returns (seen: set<string>, unseen: nat, nextTime: Millis)
    ensures seen == known + IdsOf(items)
    ensures unseen == 0 <==> IdsOf(items) <= known
    ensures since <= nextTime && NoneLater(items, nextTime)
    ensures nextTime > since ==> exists i :: 0 <= i < |items| && items[i].createdAt == Some(nextTime)
  {
    seen, unseen, nextTime := known, 0, since;
    for k := 0 to |items|
      invariant seen == known + IdsOf(items[..k])
      invariant unseen == 0 <==> seen == known
      invariant since <= nextTime && NoneLater(items[..k], nextTime)
      invariant nextTime > since ==> exists i :: 0 <= i < k && items[i].createdAt == Some(nextTime)
    {
      assert items[..k + 1] == items[..k] + [items[k]];
      if items[k].messageId.Some? && items[k].messageId.value !in seen {
        seen, unseen := seen + {items[k].messageId.value}, unseen + 1;
      }
      if items[k].createdAt.Some? && items[k].createdAt.value > nextTime {
        nextTime := items[k].createdAt.value;
      }
    }
    assert items[..|items|] == items;
  }

  /** What one page leads to. */
  datatype PageOutcome = Found(entry: Entry) | Failed(error: FetchError) | Continue(seen: set<string>, since: Millis)

  /** The page does not hold the ID, and the search goes on from a millisecond before its latest message. */
  ghost predicate Passed(items: seq<Entry>, id: string, since: Millis, next: Millis) {
    && MatchesOf(items, id) == []
    && since <= next && NoneLater(items, next + 1)
    && exists i :: 0 <= i < |items| && items[i].createdAt == Some(next + 1)
  }

  /** The verdict on a page: each failure exactly when its condition is met, in this order. */
  ghost predicate Verdict(items: seq<Entry>, id: string, since: Millis, known: set<string>, o: PageOutcome) {
    var matches := MatchesOf(items, id);
    match o
    case Found(entry) => matches == [entry]
    case Continue(seen, next) => Passed(items, id, since, next) && !(IdsOf(items) <= known) && seen == known + IdsOf(items)
    case Failed(error) =>
      match error
      case DuplicateId => |matches| > 1
      case NotReturned => items == []
      case RepeatedPage => matches == [] && items != [] && IdsOf(items) <= known
      case NoForwardProgress => matches == [] && !(IdsOf(items) <= known) && NoneLater(items, since)
  }

  method SearchPage(items: seq<Entry>, id: string, since: Millis, known: set<string>) returns (o: PageOutcome)
    ensures Verdict(items, id, since, known, o)
  {
    var matches := Matches(items, id);
    if |matches| > 1 {
      return Failed(DuplicateId);
    }
    if |matches| == 1 {
      return Found(matches[0]);
    }
    if items == [] {
      return Failed(NotReturned);
    }
    var seen, unseen, nextTime := ScanPage(items, since, known);
    if unseen == 0 {
      return Failed(RepeatedPage);
    }
    if nextTime <= since {
      return Failed(NoForwardProgress);
    }
    o := Continue(seen, if nextTime - 1 > since then nextTime - 1 else since);
  }

  /** The page does not hold the target, so it holds nothing newer than the target. */
  lemma TargetAhead(raw: RawPoll, poll: Poll, boxes: nat -> set<Item>, all: set<Item>, k: nat, since: Millis, target: Item)
    requires ServesRaw(raw, poll, boxes, all) && target in boxes(0) && since <= target.createdAt
    ensures MatchesOf(raw(k, since), target.messageId) == if target in poll(k, since) then [AsEntry(target)] else []
    ensures target !in poll(k, since) ==> |raw(k, since)| == PAGE_SIZE
    ensures target !in poll(k, since) ==> forall i :: 0 <= i < |raw(k, since)| ==>
              raw(k, since)[i].createdAt.Some? && raw(k, since)[i].createdAt.value <= target.createdAt
  {
    assert OldestPage(boxes(k), since, poll(k, since)) && Presents(raw(k, since), poll(k, since));
    assert boxes(0) <= boxes(k) <= all;
    MatchesInPage(raw(k, since), poll(k, since), all, target);
  }

  /** A search under way: none of the pages asked for so far held the ID, and their IDs are known. */
  ghost predicate Asked(raw: RawPoll, id: string, from: Millis, asked: seq<Millis>, known: set<string>) {
    && (asked != [] ==> asked[0] == from)
    && (forall k :: 0 <= k < |asked| - 1 ==> asked[k] <= asked[k + 1])
    && (forall k :: 0 <= k < |asked| ==> MatchesOf(raw(k, asked[k]), id) == [])
    && known == KnownIds(raw, asked)
  }

  ghost function KnownIds(raw: RawPoll, asked: seq<Millis>): set<string> {
    if asked == [] then {}
    else KnownIds(raw, asked[..|asked| - 1]) + IdsOf(raw(|asked| - 1, asked[|asked| - 1]))
  }

  lemma AskedStep(raw: RawPoll, id: string, from: Millis, asked: seq<Millis>, known: set<string>, since: Millis)
    requires Asked(raw, id, from, asked, known)
    requires if asked == [] then since == from else asked[|asked| - 1] <= since
    requires MatchesOf(raw(|asked|, since), id) == []
    ensures Asked(raw, id, from, asked + [since], known + IdsOf(raw(|asked|, since)))
  {
    assert (asked + [since])[..|asked|] == asked;
  }

  /** The search is behind its target, which an oldest-first inbox holds, and so is everything it has seen. */
  ghost predicate Behind(raw: RawPoll, poll: Poll, boxes: nat -> set<Item>, all: set<Item>, target: Item,
                         since: Millis, known: set<string>) {
    && ServesRaw(raw, poll, boxes, all) && target in boxes(0) && since <= target.createdAt
    && forall m :: m in all && m.messageId in known ==> m.createdAt <= since + 1
  }

  lemma StaysBehind(raw: RawPoll, poll: Poll, boxes: nat -> set<Item>, all: set<Item>, target: Item,
                    since: Millis, known: set<string>, k: nat, next: Millis)
    requires Behind(raw, poll, boxes, all, target, since, known) && Passed(raw(k, since), target.messageId, since, next)
    ensures Behind(raw, poll, boxes, all, target, next, known + IdsOf(raw(k, since)))
  {
    TargetAhead(raw, poll, boxes, all, k, since, target);
    assert OldestPage(boxes(k), since, poll(k, since)) && Presents(raw(k, since), poll(k, since));
    assert boxes(k) <= all;
  }

  /** A search that is behind its target only fails on a page crowded into one millisecond window. */
  lemma OnlyCrowdingFails(raw: RawPoll, poll: Poll, boxes: nat -> set<Item>, all: set<Item>, target: Item,
                          since: Millis, known: set<string>, k: nat)
    requires Behind(raw, poll, boxes, all, target, since, known)
    requires MatchesOf(raw(k, since), target.messageId) == []
    requires IdsOf(raw(k, since)) <= known || NoneLater(raw(k, since), since)
    ensures |Window(all, since)| >= PAGE_SIZE
  {
    TargetAhead(raw, poll, boxes, all, k, since, target);
    var page := poll(k, since);
    assert OldestPage(boxes(k), since, page) && Presents(raw(k, since), page);
    assert boxes(k) <= all;
    forall i | 0 <= i < |page| ensures page[i] in Window(all, since) {
      assert raw(k, since)[i] == AsEntry(page[i]);
      assert page[i].messageId in IdsOf(raw(k, since));
    }
    SizeOfDistinct(page);
    SubsetSize(ToSet(page), Window(all, since));
  }

  /** The inbox is oldest-first and holds the target, which is not older than the locator. */
  ghost predicate Held(raw: RawPoll, poll: Poll, boxes: nat -> set<Item>, all: set<Item>, target: Item, id: string, from: Millis) {
    ServesRaw(raw, poll, boxes, all) && target in boxes(0) && target.messageId == id && from <= target.createdAt
  }

  lemma VerdictWhenBehind(raw: RawPoll, poll: Poll, boxes: nat -> set<Item>, all: set<Item>, target: Item,
                          since: Millis, known: set<string>, k: nat, o: PageOutcome)
    requires Behind(raw, poll, boxes, all, target, since, known)
    requires Verdict(raw(k, since), target.messageId, since, known, o)
    ensures o.Found? ==> o.entry == AsEntry(target)
    ensures o.Failed? ==> |Window(all, since)| >= PAGE_SIZE
    ensures o.Continue? ==> Behind(raw, poll, boxes, all, target, o.since, o.seen)
  {
    TargetAhead(raw, poll, boxes, all, k, since, target);
    match o
    case Found(_) =>
    case Continue(_, next) => StaysBehind(raw, poll, boxes, all, target, since, known, k, next);
    case Failed(error) => OnlyCrowdingFails(raw, poll, boxes, all, target, since, known, k);
  }

  /** How a search ended: after the pages `asked` for, on a last request `since`, or because no pages were left. */
  ghost predicate Searched(raw: RawPoll, id: string, from: Millis, asked: seq<Millis>, since: Millis, r: Result<Entry, FetchError>) {
    && |asked| <= MAX_PAGES && Asked(raw, id, from, asked, KnownIds(raw, asked))
    && (if asked == [] then since == from else asked[|asked| - 1] <= since)
    && match r
       case Ok(entry) => |asked| < MAX_PAGES && Verdict(raw(|asked|, since), id, since, KnownIds(raw, asked), Found(entry))
       case Err(error) =>
         || (|asked| == MAX_PAGES && error == NotReturned)
         || Verdict(raw(|asked|, since), id, since, KnownIds(raw, asked), Failed(error))
  }

  ghost function Between(all: set<Item>, from: Millis, to: Millis): set<Item> {
    set m | m in all && from <= m.createdAt <= to
  }

  /** No millisecond window fills a page. */
  ghost predicate Sparse(all: set<Item>, density: nat) {
    AtMostPerWindow(all, density) && density < PAGE_SIZE
  }

  /** What the pages so far have shown of the messages up to the target, which is not among them. */
  ghost predicate Reading(all: set<Item>, density: nat, target: Item, from: Millis, since: Millis, pages: nat, read: set<Item>) {
    && from <= since <= target.createdAt
    && read <= Between(all, from, target.createdAt) - {target}
    && (forall m :: m in read ==> m.createdAt <= since + 1)
    && |read| >= Brought(pages, density)
  }

  lemma UnionSize(a: set<Item>, b: set<Item>, window: set<Item>)
    requires a * b <= window
    ensures |a + b| >= |a| + |b| - |window|
  {
    SubsetSize(a * b, window);
    assert |a + b| == |a| + |b| - |a * b|;
  }

  /** A page without the target is full, and nothing on it is newer than the target. */
  lemma PageBeforeTarget(raw: RawPoll, poll: Poll, boxes: nat -> set<Item>, all: set<Item>, target: Item,
                         since: Millis, k: nat, next: Millis)
    requires ServesRaw(raw, poll, boxes, all) && target in boxes(0) && since <= target.createdAt
    requires Passed(raw(k, since), target.messageId, since, next)
    ensures Distinct(poll(k, since)) && |poll(k, since)| == PAGE_SIZE && next <= target.createdAt
    ensures forall m :: m in ToSet(poll(k, since)) ==>
              m in all && m != target && since <= m.createdAt <= target.createdAt && m.createdAt <= next + 1
  {
    var page := poll(k, since);
    TargetAhead(raw, poll, boxes, all, k, since, target);
    assert OldestPage(boxes(k), since, page) && Presents(raw(k, since), page) && boxes(k) <= all;
    forall m | m in ToSet(page) ensures m != target && m.createdAt <= target.createdAt && m.createdAt <= next + 1 {
      var i :| 0 <= i < |page| && page[i] == m;
      assert raw(k, since)[i] == AsEntry(m);
    }
  }

  /** A full page repeats at most the window it overlaps with. */
  lemma ReadingGrows(all: set<Item>, density: nat, target: Item, from: Millis, since: Millis, k: nat, read: set<Item>, page: set<Item>)
    requires AtMostPerWindow(all, density) && Reading(all, density, target, from, since, k, read) && |page| == PAGE_SIZE
    requires forall m :: m in page ==> m in all && since <= m.createdAt
    ensures |read + page| >= Brought(k + 1, density)
  {
    UnionSize(read, page, Window(all, since));
    BroughtStep(k, density);
    SubsetSize(page, read + page);
  }

  lemma PageIsRead(all: set<Item>, density: nat, target: Item, from: Millis, since: Millis, k: nat, read: set<Item>, page: set<Item>, next: Millis)
    requires AtMostPerWindow(all, density) && Reading(all, density, target, from, since, k, read) && |page| == PAGE_SIZE
    requires since <= next <= target.createdAt
    requires forall m :: m in page ==>
               m in all && m != target && since <= m.createdAt <= target.createdAt && m.createdAt <= next + 1
    ensures Reading(all, density, target, from, next, k + 1, read + page)
  {
    ReadingGrows(all, density, target, from, since, k, read, page);
  }

  lemma ReadingGoesOn(raw: RawPoll, poll: Poll, boxes: nat -> set<Item>, all: set<Item>, density: nat, target: Item,
                      from: Millis, since: Millis, k: nat, read: set<Item>, next: Millis)
    requires ServesRaw(raw, poll, boxes, all) && Sparse(all, density) && target in boxes(0)
    requires Reading(all, density, target, from, since, k, read)
    requires Passed(raw(k, since), target.messageId, since, next)
    ensures Reading(all, density, target, from, next, k + 1, read + ToSet(poll(k, since)))
  {
    PageBeforeTarget(raw, poll, boxes, all, target, since, k, next);
    SizeOfDistinct(poll(k, since));
    PageIsRead(all, density, target, from, since, k, read, ToSet(poll(k, since)), next);
  }

  lemma TwentyPagesRead(all: set<Item>, density: nat, target: Item, from: Millis, since: Millis, read: set<Item>)
    requires target in all && Reading(all, density, target, from, since, MAX_PAGES, read)
    ensures |Between(all, from, target.createdAt)| > Brought(MAX_PAGES, density)
  {
    SubsetSize(read + {target}, Between(all, from, target.createdAt));
  }

  /** The search never asks past the target while it is unread: it returns the target, or it runs into a hundred messages
      in one millisecond window, or twenty pages are too few. If no window is so crowded, only the last can happen, and then
      the inbox holds more messages up to the target than twenty pages bring. */
  ghost predicate Reaches(all: set<Item>, density: nat, target: Item, from: Millis, asked: seq<Millis>, since: Millis,
                          r: Result<Entry, FetchError>) {
    && since <= target.createdAt
    && (r.Ok? ==> r.value == AsEntry(target))
    && (r.Err? ==> |asked| == MAX_PAGES || |Window(all, since)| >= PAGE_SIZE)
    && (r.Err? && Sparse(all, density) ==>
          |asked| == MAX_PAGES && |Between(all, from, target.createdAt)| > Brought(MAX_PAGES, density))
  }

  /** The inbox as the search meets it, and what is being looked for. */
  datatype Inbox = Inbox(raw: RawPoll, poll: Poll, boxes: nat -> set<Item>, all: set<Item>, density: nat, target: Item)

  ghost predicate IsHeld(x: Inbox, id: string, from: Millis) {
    Held(x.raw, x.poll, x.boxes, x.all, x.target, id, from)
  }

  /** A search under way after the pages `asked` for, which showed the messages `read`. */
  ghost predicate Underway(x: Inbox, id: string, from: Millis, at: Millis, seen: set<string>, asked: seq<Millis>, read: set<Item>) {
    && Asked(x.raw, id, from, asked, seen)
    && (if asked == [] then at == from else asked[|asked| - 1] <= at)
    && (IsHeld(x, id, from) ==> Behind(x.raw, x.poll, x.boxes, x.all, x.target, at, seen))
    && (IsHeld(x, id, from) && Sparse(x.all, x.density) ==> Reading(x.all, x.density, x.target, from, at, |asked|, read))
  }

  ghost predicate Ended(x: Inbox, id: string, from: Millis, asked: seq<Millis>, since: Millis, r: Result<Entry, FetchError>) {
    && Searched(x.raw, id, from, asked, since, r)
    && (IsHeld(x, id, from) ==> Reaches(x.all, x.density, x.target, from, asked, since, r))
  }

  lemma PageEnds(x: Inbox, id: string, from: Millis, at: Millis, seen: set<string>, asked: seq<Millis>, read: set<Item>, o: PageOutcome)
    requires Underway(x, id, from, at, seen, asked, read) && |asked| < MAX_PAGES && !o.Continue?
    requires Verdict(x.raw(|asked|, at), id, at, seen, o)
    ensures Ended(x, id, from, asked, at, if o.Found? then Ok(o.entry) else Err(o.error))
  {
    if IsHeld(x, id, from) {
      VerdictWhenBehind(x.raw, x.poll, x.boxes, x.all, x.target, at, seen, |asked|, o);
    }
  }

  lemma AskingGoesOn(x: Inbox, id: string, from: Millis, at: Millis, seen: set<string>, asked: seq<Millis>, o: PageOutcome)
    requires Asked(x.raw, id, from, asked, seen) && o.Continue?
    requires if asked == [] then at == from else asked[|asked| - 1] <= at
    requires Verdict(x.raw(|asked|, at), id, at, seen, o)
    ensures Asked(x.raw, id, from, asked + [at], o.seen) && at <= o.since
  {
    AskedStep(x.raw, id, from, asked, seen, at);
  }

  lemma PageGoesOn(x: Inbox, id: string, from: Millis, at: Millis, seen: set<string>, asked: seq<Millis>, read: set<Item>, o: PageOutcome)
    requires Underway(x, id, from, at, seen, asked, read) && o.Continue?
    requires Verdict(x.raw(|asked|, at), id, at, seen, o)
    ensures Underway(x, id, from, o.since, o.seen, asked + [at], read + ToSet(x.poll(|asked|, at)))
  {
    AskingGoesOn(x, id, from, at, seen, asked, o);
    if IsHeld(x, id, from) {
      VerdictWhenBehind(x.raw, x.poll, x.boxes, x.all, x.target, at, seen, |asked|, o);
      if Sparse(x.all, x.density) {
        ReadingGoesOn(x.raw, x.poll, x.boxes, x.all, x.density, x.target, from, at, |asked|, read, o.since);
      }
    }
  }

  lemma NoPagesLeft(x: Inbox, id: string, from: Millis, at: Millis, seen: set<string>, asked: seq<Millis>, read: set<Item>)
    requires Underway(x, id, from, at, seen, asked, read) && |asked| == MAX_PAGES
    ensures Ended(x, id, from, asked, at, Err(NotReturned))
  {
    if IsHeld(x, id, from) && Sparse(x.all, x.density) {
      assert x.boxes(0) <= x.all;
      TwentyPagesRead(x.all, x.density, x.target, from, at, read);
    }
  }

  /** Look for one message from its locator on. */
  method FetchRuntimeMessage(raw: RawPoll, id: string, from: Millis, ghost x: Inbox) returns (r: Result<Entry, FetchError>)
    requires x.raw == raw
    ensures exists asked, since :: Ended(x, id, from, asked, since, r)
  {
    var at := from;
    var seen: set<string> := {};
    ghost var asked: seq<Millis>, read: set<Item> := [], {};
    for page := 0 to MAX_PAGES
      invariant |asked| == page && Underway(x, id, from, at, seen, asked, read)
    {
      var outcome := SearchPage(raw(page, at), id, at, seen);
      if outcome.Continue? {
        PageGoesOn(x, id, from, at, seen, asked, read, outcome);
        read := read + ToSet(x.poll(page, at));
        asked, seen, at := asked + [at], outcome.seen, outcome.since;
      } else {
        PageEnds(x, id, from, at, seen, asked, read, outcome);
        return if outcome.Found? then Ok(outcome.entry) else Err(outcome.error);
      }
    }
    NoPagesLeft(x, id, from, at, seen, asked, read);
    return Err(NotReturned);
  }

  /** A located message is on the first page of its own search unless a hundred messages share its millisecond window. */
  lemma LocatedOnFirstPage(poll: Poll, boxes: nat -> set<Item>, all: set<Item>, m: Item)
    requires Serves(poll, boxes, all) && m in boxes(0)
    requires |Window(all, m.createdAt - 1)| <= PAGE_SIZE
    ensures m in poll(0, m.createdAt - 1)
  {
    var page := poll(0, m.createdAt - 1);
    assert OldestPage(boxes(0), m.createdAt - 1, page);
    if m !in page {
      assert ToSet(page) + {m} <= Window(all, m.createdAt - 1);
      SizeOfDistinct(page);
      SubsetSize(ToSet(page) + {m}, Window(all, m.createdAt - 1));
      assert false;
    }
  }

  /** Collecting, choosing and fetching agree: the message chosen from a collected inbox is found again by the first
      request made from its locator. */
  lemma ChosenIsFetched(raw: RawPoll, poll: Poll, boxes: nat -> set<Item>, all: set<Item>,
                        order: Order, messages: seq<Item>, m: Item, locator: Locator)
    requires DistinctIds(messages) && IntakeFromMessages(order, messages) == Ok((m, locator))
    requires ServesRaw(raw, poll, boxes, all) && ToSet(messages) <= boxes(0)
    requires |Window(all, locator.since)| <= PAGE_SIZE
    ensures StrictlyLatest(order, ToSet(messages), m)
    ensures Verdict(raw(0, locator.since), locator.messageId, locator.since, {}, Found(AsEntry(m)))
  {
    IntakeIsStrictlyLatest(order, messages, m);
    LocatedOnFirstPage(poll, boxes, all, m);
    TargetAhead(raw, poll, boxes, all, 0, locator.since, m);
  }
}
