/** What a scan of the provider's orders reads, remembers and reports, in terms of the orders' own fields. */
module OrderScans {
  import opened Outcomes
  import opened OrderAlerts

  // ---- reading all orders ----

  /** The k-th page of fifty. */
  function PageOf(all: seq<Order>, k: nat): seq<Order>
    requires k >= 1
  {
    if 50 * (k - 1) >= |all| then []
    else if 50 * k >= |all| then all[50 * (k - 1)..]
    else all[50 * (k - 1)..50 * k]
  }

  function UpTo(all: seq<Order>, n: nat): seq<Order> {
    if 50 * n >= |all| then all else all[..50 * n]
  }

  lemma UpToNext(all: seq<Order>, n: nat)
    requires n >= 1
    ensures UpTo(all, n) == UpTo(all, n - 1) + PageOf(all, n)
  {
    if 50 * (n - 1) < |all| && 50 * n < |all| {
      assert all[..50 * n] == all[..50 * (n - 1)] + all[50 * (n - 1)..50 * n];
    }
  }

  /** An endpoint that lists these orders in pages of fifty, as arrays, and does not change meanwhile. */
  ghost predicate ListsArrays(pages: nat -> Response, all: seq<Order>) {
    DistinctIds(all) && |all| < 50 * 1000 && forall k :: 1 <= k <= |all| / 50 + 1 ==> pages(k) == ArrayPage(PageOf(all, k))
  }

  /** How many pages of fifty these orders fill. */
  function PageCount(all: seq<Order>): nat {
    (|all| + 49) / 50
  }

  /** An endpoint that lists these orders in pages of fifty and says how many pages there are. */
  ghost predicate ListsCounted(pages: nat -> Response, all: seq<Order>) {
    && DistinctIds(all) && |all| <= 50 * 1000
    && pages(1) == CountedPage(PageOf(all, 1), Some(PageCount(all)))
    && forall k :: 1 <= k <= PageCount(all) ==> pages(k) == CountedPage(PageOf(all, k), Some(PageCount(all)))
  }

  lemma {:induction false} ItemsUpTo(pages: nat -> Response, all: seq<Order>, n: nat)
    requires forall k :: 1 <= k <= n ==> !pages(k).HttpError? && pages(k).items == PageOf(all, k)
    ensures AllItems(pages, n) == UpTo(all, n)
  {
    if n > 0 {
      ItemsUpTo(pages, all, n - 1);
      UpToNext(all, n);
    }
  }

  lemma {:induction false} OnlyOneWith(orders: seq<Order>, o: Order)
    requires DistinctIds(orders) && o in orders
    ensures LastWith(orders, o.id) == Some(o)
    decreases |orders|
  {
    var front, last := orders[..|orders| - 1], orders[|orders| - 1];
    var i :| 0 <= i < |orders| && orders[i] == o;
    if o != last {
      assert o in front;
      assert last.id != o.id;
      OnlyOneWith(front, o);
    } else {
      assert last.id == o.id;
    }
  }

  /** The fetched orders are exactly these, each once. */
  ghost predicate ExactlyThese(r: Result<seq<Order>, FetchError>, all: seq<Order>) {
    r.Ok? && DistinctIds(r.value) && forall o :: o in r.value <==> o in all
  }

  lemma AllItemsMeansAll(pages: nat -> Response, all: seq<Order>, n: nat, orders: seq<Order>)
    requires DistinctIds(all) && AllItems(pages, n) == all && Fetched(pages, n, Ok(orders))
    ensures ExactlyThese(Ok(orders), all)
  {
    forall o | o in orders ensures o in all {
      assert LastWith(all, o.id) == Some(o);
    }
    forall o | o in all ensures o in orders {
      assert o.id in Ids(all);
      var x :| x in orders && x.id == o.id;
      OnlyOneWith(all, o);
    }
  }

  lemma FullPagesDiffer(all: seq<Order>, j: nat, k: nat)
    requires DistinctIds(all) && 1 <= j < k && 50 * k <= |all|
    ensures SignatureOf(PageOf(all, j)) != SignatureOf(PageOf(all, k))
  {
    assert PageOf(all, j)[0] == all[50 * (j - 1)] && PageOf(all, k)[0] == all[50 * (k - 1)];
    assert SignatureOf(PageOf(all, j))[0] == all[50 * (j - 1)].id && SignatureOf(PageOf(all, k))[0] == all[50 * (k - 1)].id;
  }

  /** From array pages every order is fetched, exactly once, and the search stops at the first page that is not full. */
  lemma ArrayPagesAreFetched(pages: nat -> Response, all: seq<Order>, n: nat, r: Result<seq<Order>, FetchError>)
    requires ListsArrays(pages, all) && Fetched(pages, n, r)
    ensures n == |all| / 50 + 1 && ExactlyThese(r, all)
  {
    var last := |all| / 50 + 1;
    assert LastPage(pages(last), last);
    assert n <= last;
    forall k | 1 <= k < last ensures !LastPage(pages(k), k) {
      assert 50 * k <= |all|;
    }
    forall k | 1 <= k < n ensures !SamePage(pages, k, n) {
      if n < last { FullPagesDiffer(all, k, n); }
      assert |SignatureOf(pages(k).items)| == 50;
    }
    ItemsUpTo(pages, all, n);
    if r.Ok? { AllItemsMeansAll(pages, all, n, r.value); }
  }

  /** From counted pages every order is fetched, exactly once, and the search stops at the last page. */
  lemma CountedPagesAreFetched(pages: nat -> Response, all: seq<Order>, n: nat, r: Result<seq<Order>, FetchError>)
    requires ListsCounted(pages, all) && Fetched(pages, n, r)
    ensures n == (if all == [] then 1 else PageCount(all)) && ExactlyThese(r, all)
  {
    var last := if all == [] then 1 else PageCount(all);
    assert LastPage(pages(last), last);
    assert n <= last;
    ItemsUpTo(pages, all, n);
    if r.Ok? { AllItemsMeansAll(pages, all, n, r.value); }
  }

  /** An endpoint that lists these orders in pages of fifty without saying how many there are. */
  ghost predicate ListsUncounted(pages: nat -> Response, all: seq<Order>) {
    DistinctIds(all) && |all| < 50 * 1000 && forall k :: 1 <= k <= |all| / 50 + 1 ==> pages(k) == CountedPage(PageOf(all, k), None)
  }

  /** And from pages without a count, up to the first that is not full. */
  lemma UncountedPagesAreFetched(pages: nat -> Response, all: seq<Order>, n: nat, r: Result<seq<Order>, FetchError>)
    requires ListsUncounted(pages, all) && Fetched(pages, n, r)
    ensures n == |all| / 50 + 1 && ExactlyThese(r, all)
  {
    var last := |all| / 50 + 1;
    assert LastPage(pages(last), last);
    assert n <= last;
    forall k | 1 <= k < last ensures !LastPage(pages(k), k) {
      assert 50 * k <= |all|;
    }
    ItemsUpTo(pages, all, n);
    if r.Ok? { AllItemsMeansAll(pages, all, n, r.value); }
  }

  // ---- remembering and reporting ----

  /** The order is new, or differs from what is remembered of it in its status, due date, redo or permitted actions. */
  ghost predicate Differs(before: Observations, o: Order) {
    o.id !in before ||
    var f := before[o.id];
    !(f.status == o.status && f.deliveryDueAt == o.deliveryDueAt && f.redoUsed == o.redoUsed
      && f.canAccept == o.canAccept && f.canSubmit == o.canSubmit)
  }

  /** The seller has something to do for it. */
  ghost predicate NeedsAttention(o: Order) {
    o.status == PendingAccept || o.status == Funded || o.status == InProgress
  }

  /** The orders to report, in the order in which they were read. */
  ghost function Reports(before: Observations, orders: seq<Order>): seq<Order> {
    if orders == [] then []
    else
      var o := orders[|orders| - 1];
      Reports(before, orders[..|orders| - 1]) + if Differs(before, o) && NeedsAttention(o) then [o] else []
  }

  /** What is remembered after a scan: the fields of every order read, and what was remembered of the others. */
  ghost predicate Remembers(before: Observations, after: Observations, orders: seq<Order>) {
    && (forall i :: 0 <= i < |orders| ==> orders[i].id in after && !Differs(after, orders[i]))
    && forall id :: (forall i :: 0 <= i < |orders| ==> orders[i].id != id) ==>
         (id in after <==> id in before) && (id in before ==> after[id] == before[id])
  }

  lemma DiffersExactly(before: Observations, o: Order)
    ensures Differs(before, o) <==> !(o.id in before && before[o.id] == FingerprintOf(o))
  {
  }

  lemma {:induction false} ActionableAppend(orders: seq<Order>, o: Order)
    ensures ActionableOrders(orders + [o]) == ActionableOrders(orders) + if NeedsAttention(o) then [o] else []
  {
    assert (orders + [o])[..|orders|] == orders;
  }

  /** A scan of distinct orders remembers all of them and reports exactly those that differ and need attention. */
  lemma {:induction false} ScanExact(before: Observations, orders: seq<Order>)
    requires DistinctIds(orders)
    ensures var (after, changed) := Transition(before, orders);
            Remembers(before, after, orders) && ActionableOrders(changed) == Reports(before, orders)
    decreases |orders|
  {
    if orders != [] {
      var front, o := orders[..|orders| - 1], orders[|orders| - 1];
      ScanExact(before, front);
      var (seen, changed) := Transition(before, front);
      assert forall i :: 0 <= i < |front| ==> front[i].id != o.id;
      assert o.id in seen <==> o.id in before;
      DiffersExactly(before, o);
      ActionableAppend(changed, o);
      RemembersMore(before, seen, orders);
    }
  }

  lemma RemembersMore(before: Observations, seen: Observations, orders: seq<Order>)
    requires orders != [] && DistinctIds(orders) && Remembers(before, seen, orders[..|orders| - 1])
    ensures var o := orders[|orders| - 1]; Remembers(before, seen[o.id := FingerprintOf(o)], orders)
  {
    var front, o := orders[..|orders| - 1], orders[|orders| - 1];
    var after := seen[o.id := FingerprintOf(o)];
    forall i | 0 <= i < |orders| ensures orders[i].id in after && !Differs(after, orders[i]) {
      if i < |front| { assert front[i] == orders[i] && orders[i].id != o.id; }
    }
    forall id | forall i :: 0 <= i < |orders| ==> orders[i].id != id
      ensures (id in after <==> id in before) && (id in before ==> after[id] == before[id])
    {
      assert orders[|orders| - 1].id != id;
      assert forall i :: 0 <= i < |front| ==> front[i].id == orders[i].id;
    }
  }

  /** The alert files: one for each of these orders, under its name and with its fields, and the files from before. */
  ghost predicate HasAlerts(before: map<string, Alert>, after: map<string, Alert>, orders: seq<Order>, names: seq<string>)
    requires |orders| <= |names|
  {
    && (forall i :: 0 <= i < |orders| ==>
          names[i] in after
          && after[names[i]] == Alert(orders[i].id, orders[i].status, orders[i].deliveryDueAt, orders[i].canAccept, orders[i].canSubmit))
    && forall n :: (forall i :: 0 <= i < |orders| ==> names[i] != n) ==>
         (n in after <==> n in before) && (n in before ==> after[n] == before[n])
  }

  lemma {:induction false} AlertsExact(outbox: map<string, Alert>, orders: seq<Order>, names: seq<string>)
    requires |orders| <= |names| && forall i, j :: 0 <= i < j < |names| ==> names[i] != names[j]
    ensures HasAlerts(outbox, WithAlerts(outbox, orders, names), orders, names)
    decreases |orders|
  {
    if orders != [] {
      AlertsExact(outbox, orders[..|orders| - 1], names);
      OneMoreAlert(outbox, WithAlerts(outbox, orders[..|orders| - 1], names), orders, names);
    }
  }

  lemma OneMoreAlert(outbox: map<string, Alert>, after: map<string, Alert>, orders: seq<Order>, names: seq<string>)
    requires 0 < |orders| <= |names| && forall i, j :: 0 <= i < j < |names| ==> names[i] != names[j]
    requires HasAlerts(outbox, after, orders[..|orders| - 1], names)
    ensures HasAlerts(outbox, after[names[|orders| - 1] := AlertFor(orders[|orders| - 1])], orders, names)
  {
    var front, k := orders[..|orders| - 1], |orders| - 1;
    var more := after[names[k] := AlertFor(orders[k])];
    forall i | 0 <= i < |orders| ensures names[i] in more && more[names[i]] ==
      Alert(orders[i].id, orders[i].status, orders[i].deliveryDueAt, orders[i].canAccept, orders[i].canSubmit)
    {
      if i < k { assert front[i] == orders[i] && names[i] != names[k]; }
    }
  }

  /** One watcher run of distinct orders that dies after `effects` file writes: its first so many reports are in the outbox,
      each with its own order's fields, and when all of them are, the cursor remembers every order. */
  lemma WatchExact(cursor: Observations, outbox: map<string, Alert>, orders: seq<Order>, names: seq<string>, effects: nat)
    requires DistinctIds(orders) && forall i, j :: 0 <= i < j < |names| ==> names[i] != names[j]
    requires |ActionableOrders(Transition(cursor, orders).1)| <= |names|
    ensures var todo, reports := ActionableOrders(Transition(cursor, orders).1), Reports(cursor, orders);
            && todo == reports
            && HasAlerts(outbox, WithAlerts(outbox, FirstOf(todo, effects), names),
                         if effects < |reports| then reports[..effects] else reports, names)
            && Remembers(cursor, Transition(cursor, orders).0, orders)
  {
    ScanExact(cursor, orders);
    var todo := ActionableOrders(Transition(cursor, orders).1);
    AlertsExact(outbox, FirstOf(todo, effects), names);
    assert todo[..|todo|] == todo;
  }

  /** The notifier's batch: the first twelve of the files it lists, in that order, each with what it holds. */
  lemma BatchExact(outbox: map<string, Alert>, names: seq<string>)
    requires forall i :: 0 <= i < |names| ==> names[i] in outbox
    ensures var batch := FirstOf(Entries(outbox, names), BATCH);
            && |batch| == (if |names| <= 12 then |names| else 12)
            && forall i :: 0 <= i < |batch| ==> batch[i] == Entry(names[i], outbox[names[i]])
  {
    EntriesExact(outbox, names);
  }

  lemma {:induction false} EntriesExact(outbox: map<string, Alert>, names: seq<string>)
    requires forall i :: 0 <= i < |names| ==> names[i] in outbox
    ensures |Entries(outbox, names)| == |names|
    ensures forall i :: 0 <= i < |names| ==> Entries(outbox, names)[i] == Entry(names[i], outbox[names[i]])
    decreases |names|
  {
    if names != [] {
      EntriesExact(outbox, names[..|names| - 1]);
    }
  }
}
