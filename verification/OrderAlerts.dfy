/** Order alerts: a watcher puts an alert for every new actionable observation into an outbox before it stores its cursor,
    and a notifier removes alerts only after the messenger has confirmed them. */
module OrderAlerts {
  import opened Outcomes
  import opened Runs

  type Millis = int

  datatype Status = PendingAccept | Funded | InProgress | Other(name: string)

  datatype Order = Order(
    id: string, provider: string, status: Status, deliveryDueAt: Option<Millis>, redoUsed: bool, canAccept: bool, canSubmit: bool)

  /** What the cursor remembers of an order. */
  datatype Fingerprint = Fingerprint(
    status: Status, deliveryDueAt: Option<Millis>, redoUsed: bool, canAccept: bool, canSubmit: bool)

  datatype Alert = Alert(orderId: string, status: Status, deliveryDueAt: Option<Millis>, canAccept: bool, canSubmit: bool)

  type Observations = map<string, Fingerprint>

  const BATCH: nat := 12
  const PAGE_SIZE: nat := 50
  const MAX_PAGES: nat := 1000

  function FingerprintOf(o: Order): Fingerprint {
    Fingerprint(o.status, o.deliveryDueAt, o.redoUsed, o.canAccept, o.canSubmit)
  }

  function AlertFor(o: Order): Alert {
    Alert(o.id, o.status, o.deliveryDueAt, o.canAccept, o.canSubmit)
  }

  predicate ActionableStatus(s: Status) {
    s.PendingAccept? || s.Funded? || s.InProgress?
  }

  predicate Actionable(o: Order) {
    ActionableStatus(o.status)
  }

  // ---- changed orders ----

  /** The observations after a scan, and the orders whose fingerprint is new. */
  function Transition(before: Observations, orders: seq<Order>): (Observations, seq<Order>) {
    if orders == [] then (before, [])
    else
      var (seen, changed) := Transition(before, orders[..|orders| - 1]);
      var o := orders[|orders| - 1];
      var f := FingerprintOf(o);
      (seen[o.id := f], if o.id in seen && seen[o.id] == f then changed else changed + [o])
  }

  method UnseenOrderTransitions(before: Observations, orders: seq<Order>) returns (after: Observations, changed: seq<Order>)
    ensures (after, changed) == Transition(before, orders)
  {
    after, changed := before, [];
    for i := 0 to |orders|
      invariant (after, changed) == Transition(before, orders[..i])
    {
      assert orders[..i + 1][..i] == orders[..i];
      var fingerprint := FingerprintOf(orders[i]);
      if !(orders[i].id in after && after[orders[i].id] == fingerprint) {
        changed := changed + [orders[i]];
      }
      after := after[orders[i].id := fingerprint];
    }
    assert orders[..|orders|] == orders;
  }

  ghost predicate Explains(orders: seq<Order>, id: string, f: Fingerprint) {
    exists o :: o in orders && o.id == id && FingerprintOf(o) == f
  }

  /** Every observation after a scan is an old one or that of a changed order. */
  lemma {:induction false} NewObservationsAreChanged(before: Observations, orders: seq<Order>, id: string)
    requires id in Transition(before, orders).0
    ensures var (after, changed) := Transition(before, orders);
            (id in before && before[id] == after[id]) || Explains(changed, id, after[id])
    decreases |orders|
  {
    if orders != [] {
      var front, o := orders[..|orders| - 1], orders[|orders| - 1];
      var (seen, changed) := Transition(before, front);
      if id in seen {
        NewObservationsAreChanged(before, front, id);
        if Explains(changed, id, seen[id]) {
          var x :| x in changed && x.id == id && FingerprintOf(x) == seen[id];
          assert x in changed + [o];
        }
      }
      assert o in changed + [o];
    }
  }

  ghost predicate DistinctIds(orders: seq<Order>) {
    forall i, j :: 0 <= i < j < |orders| ==> orders[i].id != orders[j].id
  }

  lemma {:induction false} ScanRemembers(before: Observations, orders: seq<Order>, o: Order)
    requires DistinctIds(orders) && o in orders
    ensures o.id in Transition(before, orders).0 && Transition(before, orders).0[o.id] == FingerprintOf(o)
    decreases |orders|
  {
    var front, last := orders[..|orders| - 1], orders[|orders| - 1];
    if o != last {
      var i :| 0 <= i < |orders| && orders[i] == o;
      assert orders[i].id != last.id;
      assert o in front;
      ScanRemembers(before, front, o);
    }
  }

  lemma {:induction false} RememberedScanIsQuiet(before: Observations, orders: seq<Order>)
    requires forall i :: 0 <= i < |orders| ==> orders[i].id in before && before[orders[i].id] == FingerprintOf(orders[i])
    ensures Transition(before, orders) == (before, [])
    decreases |orders|
  {
    if orders != [] {
      RememberedScanIsQuiet(before, orders[..|orders| - 1]);
      var o := orders[|orders| - 1];
      assert before[o.id := FingerprintOf(o)] == before;
    }
  }

  /** A second scan of the same distinct orders reports no change and stores the same observations. */
  lemma SecondScanReportsNothing(before: Observations, orders: seq<Order>)
    requires DistinctIds(orders)
    ensures var after := Transition(before, orders).0; Transition(after, orders) == (after, [])
  {
    forall i | 0 <= i < |orders|
      ensures var after := Transition(before, orders).0;
              orders[i].id in after && after[orders[i].id] == FingerprintOf(orders[i])
    {
      ScanRemembers(before, orders, orders[i]);
    }
    RememberedScanIsQuiet(Transition(before, orders).0, orders);
  }

  // ---- fetching distinct orders ----

  ghost function Ids(orders: seq<Order>): set<string> {
    set o | o in orders :: o.id
  }

  function LastWith(orders: seq<Order>, id: string): (o: Option<Order>)
    ensures o.Some? ==> o.value in orders && o.value.id == id
    ensures o.None? ==> forall x :: x in orders ==> x.id != id
  {
    if orders == [] then None
    else if orders[|orders| - 1].id == id then Some(orders[|orders| - 1])
    else LastWith(orders[..|orders| - 1], id)
  }

  /** Keep one order per ID, the latest, in the order in which the IDs first appeared. */
  method Dedupe(orders: seq<Order>) returns (distinct: seq<Order>)
    ensures DistinctIds(distinct) && Ids(distinct) == Ids(orders)
    ensures forall o :: o in distinct ==> LastWith(orders, o.id) == Some(o)
  {
    distinct := [];
    for i := 0 to |orders|
      invariant DistinctIds(distinct) && Ids(distinct) == Ids(orders[..i])
      invariant forall o :: o in distinct ==> LastWith(orders[..i], o.id) == Some(o)
    {
      assert orders[..i + 1] == orders[..i] + [orders[i]];
      PutKeeps(distinct, orders[..i], orders[i]);
      distinct := Put(distinct, orders[i]);
    }
    assert orders[..|orders|] == orders;
  }

  lemma PutKeepsIds(distinct: seq<Order>, front: seq<Order>, o: Order)
    requires Ids(distinct) == Ids(front) + {o.id}
    ensures Ids(distinct) == Ids(front + [o])
  {
  }

  /** The order replaces the one with its ID, or comes last. */
  function Put(distinct: seq<Order>, o: Order): seq<Order> {
    if distinct == [] then [o]
    else if distinct[0].id == o.id then [o] + distinct[1..]
    else [distinct[0]] + Put(distinct[1..], o)
  }

  lemma {:induction false} PutMembers(distinct: seq<Order>, o: Order, x: Order)
    requires DistinctIds(distinct)
    ensures x in Put(distinct, o) <==> x == o || (x in distinct && x.id != o.id)
    decreases |distinct|
  {
    if distinct != [] {
      var rest := distinct[1..];
      assert distinct == [distinct[0]] + rest;
      if distinct[0].id != o.id { PutMembers(rest, o, x); }
    }
  }

  lemma {:induction false} PutDistinct(distinct: seq<Order>, o: Order)
    requires DistinctIds(distinct)
    ensures DistinctIds(Put(distinct, o))
    decreases |distinct|
  {
    if distinct != [] {
      var rest := distinct[1..];
      PutDistinct(rest, o);
      forall x | x in Put(rest, o) && distinct[0].id != o.id ensures x.id != distinct[0].id {
        PutMembers(rest, o, x);
      }
    }
  }

  lemma PutIds(distinct: seq<Order>, o: Order)
    requires DistinctIds(distinct)
    ensures Ids(Put(distinct, o)) == Ids(distinct) + {o.id}
  {
    forall x ensures x in Put(distinct, o) <==> x == o || (x in distinct && x.id != o.id) {
      PutMembers(distinct, o, x);
    }
    assert o in Put(distinct, o);
    forall id | id in Ids(distinct) + {o.id} ensures id in Ids(Put(distinct, o)) {
      if id != o.id {
        var x :| x in distinct && x.id == id;
        assert x in Put(distinct, o);
      }
    }
  }

  /** One more order of the input keeps what the loop has established. */
  lemma PutKeeps(distinct: seq<Order>, front: seq<Order>, o: Order)
    requires DistinctIds(distinct) && Ids(distinct) == Ids(front)
    requires forall x :: x in distinct ==> LastWith(front, x.id) == Some(x)
    ensures var r := Put(distinct, o);
            && DistinctIds(r) && Ids(r) == Ids(front + [o])
            && forall x :: x in r ==> LastWith(front + [o], x.id) == Some(x)
  {
    PutDistinct(distinct, o);
    PutIds(distinct, o);
    PutKeepsIds(Put(distinct, o), front, o);
    forall x | x in Put(distinct, o) ensures LastWith(front + [o], x.id) == Some(x) {
      PutMembers(distinct, o, x);
      assert (front + [o])[..|front|] == front;
    }
  }

  datatype Response = HttpError | ArrayPage(items: seq<Order>) | CountedPage(items: seq<Order>, totalPages: Option<nat>)

  datatype FetchError = ReadFailed | RepeatedPage | TooManyPages

  function ItemsOf(r: Response): seq<Order> {
    if r.HttpError? then [] else r.items
  }

  /** The endpoint says or shows that this page is the last. */
  predicate LastPage(r: Response, page: nat) {
    match r
    case HttpError => false
    case ArrayPage(items) => |items| < PAGE_SIZE
    case CountedPage(items, total) => if total.Some? then page >= total.value else |items| < PAGE_SIZE
  }

  function AllItems(pages: nat -> Response, n: nat): seq<Order> {
    if n == 0 then [] else AllItems(pages, n - 1) + ItemsOf(pages(n))
  }

  function SignatureOf(items: seq<Order>): seq<string> {
    seq(|items|, i requires 0 <= i < |items| => items[i].id)
  }

  /** How fetching ended after page `n`: with every fetched order once, in its latest version, or with a failure. */
  ghost predicate Fetched(pages: nat -> Response, n: nat, r: Result<seq<Order>, FetchError>) {
    && 1 <= n <= 1000 && (forall k :: 1 <= k < n ==> !LastPage(pages(k), k) && !pages(k).HttpError?)
    && match r
       case Ok(orders) =>
         && LastPage(pages(n), n)
         && DistinctIds(orders) && Ids(orders) == Ids(AllItems(pages, n))
         && forall o :: o in orders ==> LastWith(AllItems(pages, n), o.id) == Some(o)
       case Err(ReadFailed) => pages(n).HttpError?
       case Err(TooManyPages) => n == 1000 && !LastPage(pages(n), n)
       case Err(RepeatedPage) => exists k :: 1 <= k < n && SamePage(pages, k, n)
  }

  ghost predicate SamePage(pages: nat -> Response, k: nat, n: nat) {
    pages(k).ArrayPage? && pages(n).ArrayPage? && SignatureOf(pages(k).items) == SignatureOf(pages(n).items)
  }

  /** Page through the provider's orders. */
  method FetchOrders(pages: nat -> Response) returns (r: Result<seq<Order>, FetchError>)
    ensures exists n :: Fetched(pages, n, r)
  {
    var orders: seq<Order> := [];
    var signatures: set<seq<string>> := {};
    for page := 1 to MAX_PAGES + 1
      invariant orders == AllItems(pages, page - 1)
      invariant forall k :: 1 <= k < page ==> !LastPage(pages(k), k) && !pages(k).HttpError?
      invariant forall s :: s in signatures ==>
                  exists k :: 1 <= k < page && pages(k).ArrayPage? && SignatureOf(pages(k).items) == s
    {
      var response := pages(page);
      if response.HttpError? {
        r := Err(ReadFailed);
        assert Fetched(pages, page, r);
        return;
      }
      orders := orders + response.items;
      if LastPage(response, page) {
        var distinct := Dedupe(orders);
        r := Ok(distinct);
        assert Fetched(pages, page, r);
        return;
      }
      if response.ArrayPage? {
        var signature := SignatureOf(response.items);
        if signature in signatures {
          r := Err(RepeatedPage);
          ghost var k :| 1 <= k < page && pages(k).ArrayPage? && SignatureOf(pages(k).items) == signature;
          assert SamePage(pages, k, page);
          assert Fetched(pages, page, r);
          return;
        }
        signatures := signatures + {signature};
      }
    }
    r := Err(TooManyPages);
    assert Fetched(pages, MAX_PAGES, r);
  }

  // ---- watcher and notifier ----

  function ActionableOrders(orders: seq<Order>): seq<Order> {
    if orders == [] then []
    else
      var front := ActionableOrders(orders[..|orders| - 1]);
      if Actionable(orders[|orders| - 1]) then front + [orders[|orders| - 1]] else front
  }

  datatype Entry = Entry(name: string, alert: Alert)

  /** One change that a scan observed: the order at this place among the changed orders of the scan with this number. */
  datatype Change = Change(scan: nat, place: nat, order: Order)

  /** The watcher writes its alerts one by one and its cursor last. */
  datatype Watcher = Resting | Alerting(scan: nat, changes: seq<Order>, done: nat, next: Observations)

  /** The notifier reads a batch, sends it, and unlinks its entries one by one. */
  datatype Notifier = Quiet | Read(batch: seq<Entry>) | Delivered(batch: seq<Entry>)

  /** The cursor file, the outbox, what the messenger has taken, and the two programs; and a record of how many scans there
      were, which file was written for which change, and which changes the cursor file has taken in. */
  datatype System = System(
    cursor: Observations, outbox: map<string, Alert>, accepted: set<Entry>,
    scans: nat, written: map<Change, string>, stored: set<Change>, watcher: Watcher, notifier: Notifier)

  datatype Action =
    | Scan(orders: seq<Order>)
    | WriteAlert(name: string)
    | WriteCursor
    | WatcherDies
    | Load(names: seq<string>)
    | Send(taken: bool, confirmed: bool)
    | Unlink
    | NotifierDies

  function Entries(outbox: map<string, Alert>, names: seq<string>): seq<Entry> {
    if names == [] then []
    else
      var front := Entries(outbox, names[..|names| - 1]);
      var name := names[|names| - 1];
      if name in outbox then front + [Entry(name, outbox[name])] else front
  }

  function FirstOf<T>(s: seq<T>, n: nat): seq<T> {
    if |s| <= n then s else s[..n]
  }

  function EntriesOf(batch: seq<Entry>): set<Entry> {
    set e | e in batch
  }

  /** The first `n` changes of a scan. */
  function ChangesOf(scan: nat, changes: seq<Order>, n: nat): set<Change>
    requires n <= |changes|
  {
    set i | 0 <= i < n :: Change(scan, i, changes[i])
  }

  predicate Alerted(w: Watcher) {
    w.Alerting? && w.done >= |w.changes|
  }

  function Step(s: System, a: Action): System {
    match a
    case Scan(orders) =>
      if !s.watcher.Resting? then s
      else
        var (next, changed) := Transition(s.cursor, orders);
        s.(scans := s.scans + 1, watcher := Alerting(s.scans, ActionableOrders(changed), 0, next))
    case WriteAlert(name) =>
      if !s.watcher.Alerting? || Alerted(s.watcher) || name in s.written.Values then s
      else
        var w := s.watcher;
        var o := w.changes[w.done];
        s.(outbox := s.outbox[name := AlertFor(o)], written := s.written[Change(w.scan, w.done, o) := name],
           watcher := w.(done := w.done + 1))
    case WriteCursor =>
      if !Alerted(s.watcher) then s
      else
        s.(cursor := s.watcher.next, watcher := Resting,
           stored := s.stored + ChangesOf(s.watcher.scan, s.watcher.changes, |s.watcher.changes|))
    case WatcherDies => s.(watcher := Resting)
    case Load(names) => if s.notifier.Quiet? then s.(notifier := Read(FirstOf(Entries(s.outbox, names), BATCH))) else s
    case Send(taken, confirmed) =>
      if !s.notifier.Read? then s
      else if confirmed then s.(accepted := s.accepted + EntriesOf(s.notifier.batch), notifier := Delivered(s.notifier.batch))
      else s.(accepted := if taken then s.accepted + EntriesOf(s.notifier.batch) else s.accepted, notifier := Quiet)
    case Unlink =>
      if !s.notifier.Delivered? then s
      else if s.notifier.batch == [] then s.(notifier := Quiet)
      else s.(outbox := s.outbox - {s.notifier.batch[0].name}, notifier := Delivered(s.notifier.batch[1..]))
    case NotifierDies => s.(notifier := Quiet)
  }

  // ---- every change has its own alert ----

  /** The file was written for this change and is waiting in the outbox, or the messenger has taken it. */
  ghost predicate Reported(s: System, c: Change) {
    && c in s.written
    && var e := Entry(s.written[c], AlertFor(c.order));
       e in s.accepted || (e.name in s.outbox && s.outbox[e.name] == e.alert)
  }

  /** This file content was written for some change. */
  ghost predicate Genuine(s: System, e: Entry) {
    exists c :: c in s.written && e == Entry(s.written[c], AlertFor(c.order))
  }

  /** No two changes share a file. */
  ghost predicate OwnFiles(s: System) {
    forall c, d :: c in s.written && d in s.written && s.written[c] == s.written[d] ==> c == d
  }

  /** Every file that was ever written is accounted for, and there are no others. */
  ghost predicate FilesInv(s: System) {
    && OwnFiles(s)
    && (forall c :: c in s.written ==> Reported(s, c) && c.scan < s.scans)
    && (forall name :: name in s.outbox ==> Genuine(s, Entry(name, s.outbox[name])))
    && forall e :: e in s.accepted ==> Genuine(s, e)
  }

  /** The changes the cursor file has taken in are those of finished scans, all with a file. */
  ghost predicate StoredInv(s: System) {
    forall c :: c in s.stored ==> c in s.written && (s.watcher.Alerting? ==> c.scan < s.watcher.scan)
  }

  /** The observation comes from a change that was stored with it. */
  ghost predicate Witnessed(stored: set<Change>, id: string, f: Fingerprint) {
    exists c :: c in stored && c.order.id == id && FingerprintOf(c.order) == f
  }

  ghost predicate CursorInv(s: System) {
    forall id :: id in s.cursor && ActionableStatus(s.cursor[id].status) ==> Witnessed(s.stored, id, s.cursor[id])
  }

  ghost predicate WatcherInv(s: System) {
    s.watcher.Alerting? ==>
      && var w := s.watcher;
      && w.scan + 1 == s.scans && w.done <= |w.changes|
      && (forall c :: c in s.written && c.scan == w.scan ==> c.place < w.done)
      && (forall i :: 0 <= i < w.done ==> Change(w.scan, i, w.changes[i]) in s.written)
      && forall id :: id in w.next && ActionableStatus(w.next[id].status) ==>
           (id in s.cursor && s.cursor[id] == w.next[id]) || Explains(w.changes, id, w.next[id])
  }

  ghost predicate NotifierInv(s: System) {
    !s.notifier.Quiet? ==>
      forall i :: 0 <= i < |s.notifier.batch| ==>
        Genuine(s, s.notifier.batch[i]) && (s.notifier.Delivered? ==> s.notifier.batch[i] in s.accepted)
  }

  ghost predicate Inv(s: System) {
    FilesInv(s) && StoredInv(s) && CursorInv(s) && WatcherInv(s) && NotifierInv(s)
  }

  lemma {:induction false} ActionableOrdersKept(orders: seq<Order>, o: Order)
    ensures o in ActionableOrders(orders) <==> o in orders && Actionable(o)
    decreases |orders|
  {
    if orders != [] {
      ActionableOrdersKept(orders[..|orders| - 1], o);
      assert orders == orders[..|orders| - 1] + [orders[|orders| - 1]];
    }
  }

  lemma {:induction false} EntriesAreCurrent(outbox: map<string, Alert>, names: seq<string>)
    ensures forall i :: 0 <= i < |Entries(outbox, names)| ==>
              var e := Entries(outbox, names)[i]; e.name in outbox && outbox[e.name] == e.alert
    decreases |names|
  {
    if names != [] {
      EntriesAreCurrent(outbox, names[..|names| - 1]);
    }
  }

  /** A scan starts with nothing written for it. */
  lemma ScanKeeps(s: System, orders: seq<Order>)
    requires Inv(s)
    ensures Inv(Step(s, Scan(orders)))
  {
    var t := Step(s, Scan(orders));
    OutsideKeeps(s, t);
    if s.watcher.Resting? {
      var (next, changed) := Transition(s.cursor, orders);
      forall id | id in next && ActionableStatus(next[id].status) && !(id in s.cursor && s.cursor[id] == next[id])
        ensures Explains(t.watcher.changes, id, next[id])
      {
        NewObservationsAreChanged(s.cursor, orders, id);
        var o :| o in changed && o.id == id && FingerprintOf(o) == next[id];
        ActionableOrdersKept(changed, o);
      }
    }
  }

  /** Files only leave the outbox after they are accepted, and nothing is accepted that was not written. */
  ghost predicate FilesFlow(s: System, t: System) {
    && t.written == s.written && t.scans >= s.scans && s.accepted <= t.accepted
    && (forall name :: name in s.outbox ==>
          (name in t.outbox && t.outbox[name] == s.outbox[name]) || Entry(name, s.outbox[name]) in t.accepted)
    && (forall name :: name in t.outbox ==> name in s.outbox && t.outbox[name] == s.outbox[name])
    && forall e :: e in t.accepted ==> Genuine(s, e)
  }

  lemma OutsideKeeps(s: System, t: System)
    requires FilesInv(s) && FilesFlow(s, t)
    ensures FilesInv(t)
    ensures forall e :: Genuine(s, e) ==> Genuine(t, e)
  {
  }

  /** A new file under a name never used before: the change it is written for had none. */
  lemma WriteAlertFiles(s: System, c: Change, name: string, t: System)
    requires FilesInv(s) && name !in s.written.Values && c !in s.written && c.scan < s.scans
    requires t.outbox == s.outbox[name := AlertFor(c.order)] && t.written == s.written[c := name]
    requires t.accepted == s.accepted && t.scans == s.scans
    ensures FilesInv(t)
    ensures forall e :: Genuine(s, e) ==> Genuine(t, e)
  {
    forall e | Genuine(s, e) ensures Genuine(t, e) {
      var d :| d in s.written && e == Entry(s.written[d], AlertFor(d.order));
      assert d in t.written && t.written[d] == s.written[d];
    }
    assert c in t.written;
    assert Genuine(t, Entry(name, AlertFor(c.order)));
    forall d | d in t.written ensures Reported(t, d) && d.scan < t.scans {
      if d != c { assert Reported(s, d) && s.written[d] in s.written.Values; }
    }
    forall d, e | d in t.written && e in t.written && t.written[d] == t.written[e] ensures d == e {
      assert d != c ==> s.written[d] in s.written.Values;
      assert e != c ==> s.written[e] in s.written.Values;
    }
    forall n | n in t.outbox ensures Genuine(t, Entry(n, t.outbox[n])) {
      if n != name { assert Genuine(s, Entry(n, s.outbox[n])); }
    }
  }

  lemma WriteAlertKeeps(s: System, name: string)
    requires Inv(s) && s.watcher.Alerting? && !Alerted(s.watcher) && name !in s.written.Values
    ensures Inv(Step(s, WriteAlert(name)))
  {
    var w, t := s.watcher, Step(s, WriteAlert(name));
    WriteAlertFiles(s, Change(w.scan, w.done, w.changes[w.done]), name, t);
  }

  lemma WriteCursorKeeps(s: System)
    requires Inv(s) && Alerted(s.watcher)
    ensures Inv(Step(s, WriteCursor))
  {
    var w, t := s.watcher, Step(s, WriteCursor);
    OutsideKeeps(s, t);
    forall id | id in t.cursor && ActionableStatus(t.cursor[id].status) ensures Witnessed(t.stored, id, t.cursor[id]) {
      if id in s.cursor && s.cursor[id] == w.next[id] {
        assert Witnessed(s.stored, id, s.cursor[id]);
      } else {
        var c := NewlyWitnessed(s, id);
      }
    }
  }

  /** The notifier holds genuine entries, accepted ones while it unlinks. */
  ghost predicate HoldsGenuine(s: System, n: Notifier, accepted: set<Entry>) {
    !n.Quiet? ==> forall i :: 0 <= i < |n.batch| ==> Genuine(s, n.batch[i]) && (n.Delivered? ==> n.batch[i] in accepted)
  }

  /** What moves files and the notifier only keeps everything. */
  lemma NotifierMoves(s: System, t: System)
    requires Inv(s) && FilesFlow(s, t) && HoldsGenuine(s, t.notifier, t.accepted)
    requires t.cursor == s.cursor && t.watcher == s.watcher && t.stored == s.stored && t.scans == s.scans
    ensures Inv(t)
  {
    OutsideKeeps(s, t);
  }

  lemma LoadKeeps(s: System, names: seq<string>)
    requires Inv(s)
    ensures Inv(Step(s, Load(names)))
  {
    EntriesAreCurrent(s.outbox, names);
    var batch := FirstOf(Entries(s.outbox, names), BATCH);
    forall i | 0 <= i < |batch| ensures Genuine(s, batch[i]) {
      assert batch[i] == Entries(s.outbox, names)[i];
    }
    NotifierMoves(s, Step(s, Load(names)));
  }

  lemma SendKeeps(s: System, taken: bool, confirmed: bool)
    requires Inv(s)
    ensures Inv(Step(s, Send(taken, confirmed)))
  {
    if s.notifier.Read? { SentAreGenuine(s); }
    NotifierMoves(s, Step(s, Send(taken, confirmed)));
  }

  lemma SentAreGenuine(s: System)
    requires Inv(s) && s.notifier.Read?
    ensures forall e :: e in EntriesOf(s.notifier.batch) ==> Genuine(s, e)
  {
  }

  lemma UnlinkKeeps(s: System)
    requires Inv(s)
    ensures Inv(Step(s, Unlink))
  {
    if s.notifier.Delivered? && s.notifier.batch != [] { UnlinkedIsAccepted(s); }
    NotifierMoves(s, Step(s, Unlink));
  }

  /** The file about to be removed is the one the messenger has taken. */
  lemma UnlinkedIsAccepted(s: System)
    requires Inv(s) && s.notifier.Delivered? && s.notifier.batch != []
    ensures var name := s.notifier.batch[0].name; name in s.outbox ==> Entry(name, s.outbox[name]) in s.accepted
  {
    var e := s.notifier.batch[0];
    assert Genuine(s, e) && e in s.accepted;
    assert e.name in s.outbox ==> Genuine(s, Entry(e.name, s.outbox[e.name]));
  }

  lemma StepKeeps(s: System, a: Action)
    requires Inv(s)
    ensures Inv(Step(s, a))
  {
    match a
    case Scan(orders) => ScanKeeps(s, orders);
    case WriteAlert(name) =>
      if s.watcher.Alerting? && !Alerted(s.watcher) && name !in s.written.Values { WriteAlertKeeps(s, name); }
    case WriteCursor => if Alerted(s.watcher) { WriteCursorKeeps(s); }
    case WatcherDies => OutsideKeeps(s, Step(s, a));
    case Load(names) => LoadKeeps(s, names);
    case Send(taken, confirmed) => SendKeeps(s, taken, confirmed);
    case Unlink => UnlinkKeeps(s);
    case NotifierDies => OutsideKeeps(s, Step(s, a));
  }

  const Fresh: System := System(map[], map[], {}, 0, map[], {}, Resting, Quiet)

  /** Some interleaving of the two programs leads here. */
  ghost predicate Reachable(s: System) {
    exists actions :: Fold(Fresh, actions, Step) == s
  }

  lemma ReachableStep(s: System, a: Action)
    requires Reachable(s)
    ensures Reachable(Step(s, a))
  {
    var actions :| Fold(Fresh, actions, Step) == s;
    assert (actions + [a])[..|actions|] == actions;
    assert Fold(Fresh, actions + [a], Step) == Step(s, a);
  }

  lemma ReachableIsSound(s: System)
    requires Reachable(s)
    ensures Inv(s)
  {
    var actions :| Fold(Fresh, actions, Step) == s;
    forall s: System, a: Action | Inv(s) ensures Inv(Step(s, a)) {
      StepKeeps(s, a);
    }
    Invariant(Fresh, actions, Step, s => Inv(s));
  }

  /** At least once, end to end, for any interleaving of watcher and notifier and any deaths: every change that a stored
      cursor has taken in has a file of its own, shared with no other change, which is in the outbox or was taken by the
      messenger; and every actionable observation in the cursor comes from such a change. */
  lemma NoActionableOrderIsLost(s: System)
    requires Reachable(s)
    ensures forall c :: c in s.stored ==> Reported(s, c)
    ensures OwnFiles(s)
    ensures forall id :: id in s.cursor && ActionableStatus(s.cursor[id].status) ==> Witnessed(s.stored, id, s.cursor[id])
  {
    ReachableIsSound(s);
  }

  /** When the cursor file is replaced, each actionable observation in which it differs from the one before comes from a
      change of that very scan, which was not stored before: an observation that comes back, or a redo with the same alert
      text, is reported again, in a file of its own. */
  lemma EveryStoredChangeIsNew(s: System, id: string)
    requires Reachable(s) && Alerted(s.watcher)
    requires id in s.watcher.next && ActionableStatus(s.watcher.next[id].status)
    requires !(id in s.cursor && s.cursor[id] == s.watcher.next[id])
    ensures var t := Step(s, WriteCursor);
            && t.cursor == s.watcher.next
            && exists c :: c in t.stored - s.stored && c.scan == s.watcher.scan
                           && c.order.id == id && FingerprintOf(c.order) == t.cursor[id]
  {
    ReachableIsSound(s);
    var c := NewlyWitnessed(s, id);
    assert c !in s.stored;
  }

  lemma NewlyWitnessed(s: System, id: string) returns (c: Change)
    requires WatcherInv(s) && Alerted(s.watcher)
    requires id in s.watcher.next && ActionableStatus(s.watcher.next[id].status)
    requires !(id in s.cursor && s.cursor[id] == s.watcher.next[id])
    ensures c in ChangesOf(s.watcher.scan, s.watcher.changes, |s.watcher.changes|)
    ensures c.scan == s.watcher.scan && c.order.id == id && FingerprintOf(c.order) == s.watcher.next[id]
  {
    var w := s.watcher;
    var o :| o in w.changes && o.id == id && FingerprintOf(o) == w.next[id];
    var i :| 0 <= i < |w.changes| && w.changes[i] == o;
    c := Change(w.scan, i, o);
  }

  /** A scan begins with no file written for its changes, and every file the messenger has taken was written for an earlier
      one: nothing taken before a scan can pass for an alert of it. */
  lemma ScanStartsUnreported(s: System, orders: seq<Order>, e: Entry)
    requires Reachable(s) && s.watcher.Resting? && e in s.accepted
    ensures exists c :: c in s.written && e == Entry(s.written[c], AlertFor(c.order))
                        && c.scan < Step(s, Scan(orders)).watcher.scan
    ensures forall c :: c in s.written ==> c.scan < Step(s, Scan(orders)).watcher.scan
  {
    ReachableIsSound(s);
    assert Genuine(s, e);
  }

  // ---- the two programs ----

  /** File names hash a random identifier, so they are distinct and were never used before. */
  ghost predicate FreshNames(names: seq<string>, written: map<Change, string>) {
    && (forall i, j :: 0 <= i < j < |names| ==> names[i] != names[j])
    && forall i :: 0 <= i < |names| ==> names[i] !in written.Values
  }

  function NamesOf(batch: seq<Entry>): set<string> {
    set i | 0 <= i < |batch| :: batch[i].name
  }

  /** The outbox with an alert for each of these orders under its name. */
  function WithAlerts(outbox: map<string, Alert>, orders: seq<Order>, names: seq<string>): map<string, Alert>
    requires |orders| <= |names|
  {
    if orders == [] then outbox
    else
      WithAlerts(outbox, orders[..|orders| - 1], names)[names[|orders| - 1] := AlertFor(orders[|orders| - 1])]
  }

  /** The outbox without these entries, removed one after the other. */
  function Without(outbox: map<string, Alert>, batch: seq<Entry>): map<string, Alert> {
    if batch == [] then outbox else Without(outbox, batch[..|batch| - 1]) - {batch[|batch| - 1].name}
  }

  /** The durable state both programs share: the cursor file, the outbox directory, and what the messenger has taken; and,
      for the proof only, the record of scans, written files and stored changes. */
  class AlertStore {
    var cursor: Observations
    var outbox: map<string, Alert>
    var accepted: set<Entry>
    ghost var scans: nat
    ghost var written: map<Change, string>
    ghost var stored: set<Change>

    constructor ()
      ensures Now(Resting, Quiet) == Fresh
    {
      cursor, outbox, accepted := map[], map[], {};
      scans, written, stored := 0, map[], {};
    }

    ghost function Now(w: Watcher, n: Notifier): System
      reads this
    {
      System(cursor, outbox, accepted, scans, written, stored, w, n)
    }

    /** Write the alerts one by one, each in its own new file; dies after `effects` of them. */
    method WriteAlerts(todo: seq<Order>, names: seq<string>, effects: nat, ghost next: Observations, ghost scan: nat)
      returns (i: nat)
      requires FreshNames(names, written) && |names| >= |todo| && Reachable(Now(Alerting(scan, todo, 0, next), Quiet))
      modifies this`outbox, this`written
      ensures i == if effects < |todo| then effects else |todo|
      ensures Reachable(Now(Alerting(scan, todo, i, next), Quiet))
      ensures outbox == WithAlerts(old(outbox), todo[..i], names)
    {
      i := 0;
      while i < |todo| && i < effects
        invariant 0 <= i <= |todo| && i <= effects
        invariant Reachable(Now(Alerting(scan, todo, i, next), Quiet))
        invariant outbox == WithAlerts(old(outbox), todo[..i], names)
        invariant forall k :: i <= k < |names| ==> names[k] !in written.Values
      {
        AlertOne(Now(Alerting(scan, todo, i, next), Quiet), names[i]);
        FreshAfterWrite(written, Change(scan, i, todo[i]), names, i);
        assert todo[..i + 1][..i] == todo[..i];
        outbox := outbox[names[i] := AlertFor(todo[i])];
        written := written[Change(scan, i, todo[i]) := names[i]];
        i := i + 1;
      }
    }

    /** One watcher run that dies after `effects` file writes: an alert for every change, and the cursor last. */
    method Watch(orders: seq<Order>, names: seq<string>, effects: nat)
      requires FreshNames(names, written) && |names| >= |orders| && Reachable(Now(Resting, Quiet))
      modifies this`cursor, this`outbox, this`scans, this`written, this`stored
      ensures Reachable(Now(Resting, Quiet))
      ensures var todo := ActionableOrders(Transition(old(cursor), orders).1);
              && |todo| <= |names|
              && outbox == WithAlerts(old(outbox), FirstOf(todo, effects), names)
              && (if effects > |todo|
                  then cursor == Transition(old(cursor), orders).0
                       && stored == old(stored) + ChangesOf(old(scans), todo, |todo|)
                  else cursor == old(cursor) && stored == old(stored))
    {
      var next, changed := UnseenOrderTransitions(cursor, orders);
      var todo := ActionableOrders(changed);
      FewerChanged(cursor, orders);
      StartScan(Now(Resting, Quiet), orders);
      ghost var scan := scans;
      scans := scans + 1;
      var i := WriteAlerts(todo, names, effects, next, scan);
      assert todo[..|todo|] == todo;
      if effects > |todo| {
        StoreCursor(Now(Alerting(scan, todo, i, next), Quiet));
        cursor := next;
        stored := stored + ChangesOf(scan, todo, |todo|);
      } else {
        WatcherMayDie(Now(Alerting(scan, todo, i, next), Quiet));
      }
    }

    /** Remove the delivered entries one by one; dies after `effects` of them. */
    method UnlinkBatch(batch: seq<Entry>, effects: nat)
      requires Reachable(Now(Resting, Delivered(batch)))
      modifies this`outbox
      ensures Reachable(Now(Resting, Quiet))
      ensures outbox == Without(old(outbox), FirstOf(batch, effects))
    {
      var i := 0;
      while i < |batch| && i < effects
        invariant 0 <= i <= |batch| && i <= effects
        invariant Reachable(Now(Resting, Delivered(batch[i..])))
        invariant outbox == Without(old(outbox), batch[..i])
      {
        UnlinkOne(Now(Resting, Delivered(batch[i..])), batch, i);
        assert batch[..i + 1][..i] == batch[..i];
        outbox := outbox - {batch[i].name};
        i := i + 1;
      }
      assert batch[..|batch|] == batch;
      NotifierMayDie(Now(Resting, Delivered(batch[i..])));
    }

    /** One notifier run on the names it lists, which dies after `effects` unlinks. */
    method Notify(names: seq<string>, taken: bool, confirmed: bool, effects: nat)
      requires Reachable(Now(Resting, Quiet))
      modifies this`outbox, this`accepted
      ensures Reachable(Now(Resting, Quiet))
      ensures var batch := FirstOf(Entries(old(outbox), names), BATCH);
              && accepted == (if taken || confirmed then old(accepted) + EntriesOf(batch) else old(accepted))
              && outbox == (if confirmed then old(outbox) - NamesOf(FirstOf(batch, effects)) else old(outbox))
    {
      var batch := FirstOf(Entries(outbox, names), BATCH);
      LoadAndSend(Now(Resting, Quiet), names, taken, confirmed);
      if taken || confirmed {
        accepted := accepted + EntriesOf(batch);
      }
      if confirmed {
        UnlinkBatch(batch, effects);
        WithoutIsDifference(old(outbox), FirstOf(batch, effects));
      }
    }
  }

  lemma FreshAfterWrite(written: map<Change, string>, c: Change, names: seq<string>, i: nat)
    requires i < |names| && forall j, k :: 0 <= j < k < |names| ==> names[j] != names[k]
    requires forall k :: i <= k < |names| ==> names[k] !in written.Values
    ensures forall k :: i < k < |names| ==> names[k] !in written[c := names[i]].Values
  {
  }

  lemma {:induction false} WithoutIsDifference(outbox: map<string, Alert>, batch: seq<Entry>)
    ensures Without(outbox, batch) == outbox - NamesOf(batch)
    decreases |batch|
  {
    if batch != [] {
      var front, last := batch[..|batch| - 1], batch[|batch| - 1];
      WithoutIsDifference(outbox, front);
      assert NamesOf(batch) == NamesOf(front) + {last.name};
    }
  }

  // ---- their effects are steps ----

  lemma StartScan(s: System, orders: seq<Order>)
    requires Reachable(s) && s.watcher.Resting?
    ensures var (next, changed) := Transition(s.cursor, orders);
            Reachable(s.(scans := s.scans + 1, watcher := Alerting(s.scans, ActionableOrders(changed), 0, next)))
  {
    ReachableStep(s, Scan(orders));
  }

  lemma AlertOne(s: System, name: string)
    requires Reachable(s) && s.watcher.Alerting? && !Alerted(s.watcher) && name !in s.written.Values
    ensures var w := s.watcher;
            var o := w.changes[w.done];
            Reachable(s.(outbox := s.outbox[name := AlertFor(o)], written := s.written[Change(w.scan, w.done, o) := name],
                         watcher := w.(done := w.done + 1)))
  {
    ReachableStep(s, WriteAlert(name));
  }

  lemma StoreCursor(s: System)
    requires Reachable(s) && Alerted(s.watcher)
    ensures var w := s.watcher;
            Reachable(s.(cursor := w.next, watcher := Resting, stored := s.stored + ChangesOf(w.scan, w.changes, |w.changes|)))
  {
    ReachableStep(s, WriteCursor);
  }

  lemma WatcherMayDie(s: System)
    requires Reachable(s)
    ensures Reachable(s.(watcher := Resting))
  {
    ReachableStep(s, WatcherDies);
  }

  lemma LoadAndSend(s: System, names: seq<string>, taken: bool, confirmed: bool)
    requires Reachable(s) && s.notifier.Quiet?
    ensures var batch := FirstOf(Entries(s.outbox, names), BATCH);
            Reachable(s.(accepted := if taken || confirmed then s.accepted + EntriesOf(batch) else s.accepted,
                         notifier := if confirmed then Delivered(batch) else Quiet))
  {
    ReachableStep(s, Load(names));
    ReachableStep(Step(s, Load(names)), Send(taken, confirmed));
  }

  lemma UnlinkOne(s: System, batch: seq<Entry>, i: nat)
    requires Reachable(s) && i < |batch| && s.notifier == Delivered(batch[i..])
    ensures Reachable(s.(outbox := s.outbox - {batch[i].name}, notifier := Delivered(batch[i + 1..])))
  {
    assert batch[i..][1..] == batch[i + 1..];
    ReachableStep(s, Unlink);
  }

  lemma NotifierMayDie(s: System)
    requires Reachable(s)
    ensures Reachable(s.(notifier := Quiet))
  {
    ReachableStep(s, NotifierDies);
  }

  lemma {:induction false} FewerChanged(before: Observations, orders: seq<Order>)
    ensures |ActionableOrders(Transition(before, orders).1)| <= |Transition(before, orders).1| <= |orders|
    decreases |orders|
  {
    if orders != [] {
      FewerChanged(before, orders[..|orders| - 1]);
    }
    FewerActionable(Transition(before, orders).1);
  }

  lemma {:induction false} FewerActionable(orders: seq<Order>)
    ensures |ActionableOrders(orders)| <= |orders|
    decreases |orders|
  {
    if orders != [] {
      FewerActionable(orders[..|orders| - 1]);
    }
  }
}
