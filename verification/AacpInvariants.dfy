/** What every run of the order guard keeps: a joint invariant over recording and reconciling, the
    order graph it leaves reachable, and the conservation of receipts. */
module AacpInvariants {
  import opened Outcomes
  import opened Decimals
  import opened Runs
  import opened AacpLifecycle

  predicate BuyerReviewAction(action: Action) {
    action in {ReleaseEscrow, RequestRedo, ClaimAfterTimeout, OpenChallenge}
  }

  predicate OrderBound(action: Action) {
    action !in {ApproveEscrow, CreateOrder}
  }

  /** A receipt carries the actor, target, value and terms of the reviewed plan. */
  ghost predicate ReceiptFaithful(plan: Plan, order: Option<Observation>, r: Receipt) {
    && SameText(r.actor, ExpectedActor(plan, r.action))
    && SameText(r.target, ExpectedTarget(plan, r.action))
    && r.intent.action == r.action
    && r.intent.value == "0"
    && (r.action == ApproveEscrow ==> ApprovalError(plan, r.intent.data) == None)
    && (r.action == CreateOrder ==> CreateOrderError(plan, r.intent.data) == None)
    && (OrderBound(r.action) ==>
          && order.Some?
          && OrderIdOf(r.intent.data).Some?
          && SameText(OrderIdOf(r.intent.data).value, order.value.onChainOrderId))
  }

  ghost predicate ReceiptsFaithful(b: Binding) {
    forall i :: 0 <= i < |b.receipts| ==> ReceiptFaithful(b.plan, b.order, b.receipts[i])
  }

  ghost predicate HashesDistinct(receipts: seq<Receipt>) {
    forall i, j :: 0 <= i < j < |receipts| ==> !SameText(receipts[i].txHash, receipts[j].txHash)
  }

  /** Approval comes before creation, and creation before every action that names the order. */
  ghost predicate CreationOrdered(receipts: seq<Receipt>) {
    forall i, j :: 0 <= i < j < |receipts| ==>
      && (receipts[j].action == ApproveEscrow ==> receipts[i].action !in {ApproveEscrow, CreateOrder})
      && (receipts[j].action == CreateOrder ==> receipts[i].action == ApproveEscrow)
      && (receipts[j].action == AcceptOrder ==> receipts[i].action != AcceptOrder)
  }

  function AllowedDeliveries(o: Observation): nat {
    if o.redoUsed then 2 else 1
  }

  /** What a list of receipts amounts to: which milestones it holds, how many deliveries, and that it holds nothing from
      after the creation, from the work on, or from the buyer's review. */
  datatype Kinds = Kinds(
    created: bool, accepted: bool, redone: bool, deliveries: nat, opening: bool, beforeWork: bool, unreviewed: bool)

  predicate BeforeWork(action: Action) {
    action in {ApproveEscrow, CreateOrder, AcceptOrder, CancelPending}
  }

  ghost function KindsOf(r: seq<Receipt>): Kinds {
    Kinds(
      HasAction(r, CreateOrder), HasAction(r, AcceptOrder), HasAction(r, RequestRedo), CountAction(r, SubmitDelivery),
      forall i :: 0 <= i < |r| ==> !OrderBound(r[i].action),
      forall i :: 0 <= i < |r| ==> BeforeWork(r[i].action),
      forall i :: 0 <= i < |r| ==> !BuyerReviewAction(r[i].action))
  }

  /** The kinds after one more receipt. */
  function With(k: Kinds, action: Action): Kinds {
    Kinds(
      k.created || action == CreateOrder, k.accepted || action == AcceptOrder, k.redone || action == RequestRedo,
      k.deliveries + (if action == SubmitDelivery then 1 else 0),
      k.opening && !OrderBound(action), k.beforeWork && BeforeWork(action), k.unreviewed && !BuyerReviewAction(action))
  }

  predicate Supports(k: Kinds, o: Observation) {
    && k.created
    && (o.redoUsed ==> k.redone)
    && k.deliveries <= AllowedDeliveries(o)
    && (PastDelivery(o.status) ==> k.deliveries == AllowedDeliveries(o))
    && (o.status !in {PendingAccept, Cancelled} ==> k.accepted)
    && (o.status == PendingAccept ==> k.beforeWork)
    && (o.status in {PendingAccept, Funded} ==> !o.redoUsed)
    && (NeverDelivered(o) ==> k.unreviewed)
  }

  /** The receipts that can exist under each projection. */
  ghost predicate StatusSupported(b: Binding) {
    if b.order.None? then KindsOf(b.receipts).opening else Supports(KindsOf(b.receipts), b.order.value)
  }

  /** Projections under which no delivery can have been indexed before. */
  predicate NeverDelivered(o: Observation) {
    !o.redoUsed && o.status in {PendingAccept, Funded, InProgress, Cancelled}
  }

  ghost predicate Inv(b: Binding) {
    && |b.receipts| <= MAX_RECEIPTS
    && ReceiptsFaithful(b)
    && HashesDistinct(b.receipts)
    && CreationOrdered(b.receipts)
    && StatusSupported(b)
  }

  // ---- small facts about receipt lists ----

  lemma AppendReceipt(r: seq<Receipt>, x: Receipt, a: Action)
    ensures HasAction(r + [x], a) <==> HasAction(r, a) || x.action == a
    ensures CountAction(r + [x], a) == CountAction(r, a) + (if x.action == a then 1 else 0)
  {
    var s := r + [x];
    assert s[..|s| - 1] == r;
    if HasAction(r, a) {
      var i :| 0 <= i < |r| && r[i].action == a;
      assert s[i].action == a;
    }
    assert s[|r|] == x;
  }

  lemma {:induction false} CountPositive(r: seq<Receipt>, a: Action)
    ensures CountAction(r, a) > 0 <==> HasAction(r, a)
  {
    if r != [] {
      CountPositive(r[..|r| - 1], a);
      AppendReceipt(r[..|r| - 1], r[|r| - 1], a);
      assert r == r[..|r| - 1] + [r[|r| - 1]];
    }
  }

  lemma {:induction false} FindHashSpec(r: seq<Receipt>, hash: string)
    ensures FindHash(r, hash).None? <==> forall i :: 0 <= i < |r| ==> !SameText(r[i].txHash, hash)
    ensures FindHash(r, hash).Some? ==>
              exists i :: 0 <= i < |r| && r[i] == FindHash(r, hash).value && SameText(r[i].txHash, hash)
  {
    if r != [] {
      if SameText(r[0].txHash, hash) {
        assert r[0] == FindHash(r, hash).value;
      } else {
        FindHashSpec(r[1..], hash);
        if FindHash(r, hash).Some? {
          var i :| 0 <= i < |r[1..]| && r[1..][i] == FindHash(r, hash).value && SameText(r[1..][i].txHash, hash);
          assert r[i + 1] == FindHash(r, hash).value;
        } else {
          forall i | 0 <= i < |r| ensures !SameText(r[i].txHash, hash) {
            if i > 0 { assert r[i] == r[1..][i - 1]; }
          }
        }
      }
    }
  }

  // ---- exact permissions ----

  /** No receipt for any of `actions` has been seen at or after the retained observation. */
  ghost predicate QuietSince(receipts: seq<Receipt>, actions: set<Action>, since: Millis) {
    forall i :: 0 <= i < |receipts| && receipts[i].observedAt >= since ==> receipts[i].action !in actions
  }

  lemma {:induction false} LatestIsNoneWhenQuiet(r: seq<Receipt>, actions: set<Action>, since: Millis)
    ensures LatestActionSince(r, actions, since).None? <==> QuietSince(r, actions, since)
    ensures LatestActionSince(r, actions, since).Some? ==> LatestActionSince(r, actions, since).value in actions
  {
    if r != [] {
      var front, last := r[..|r| - 1], r[|r| - 1];
      LatestIsNoneWhenQuiet(front, actions, since);
      if QuietSince(front, actions, since) && !(last.action in actions && last.observedAt >= since) {
        assert forall i :: 0 <= i < |r| ==> r[i] == if i < |front| then front[i] else last;
      } else if !QuietSince(front, actions, since) {
        var i :| 0 <= i < |front| && front[i].observedAt >= since && front[i].action in actions;
        assert r[i].action in actions;
      }
    }
  }

  const ReviewActions: set<Action> := {ReleaseEscrow, ClaimAfterTimeout, RequestRedo, OpenChallenge}

  ghost predicate Workable(b: Binding, o: Observation) {
    && o.status in {Funded, InProgress}
    && QuietSince(b.receipts, {CancelExpired}, o.observedAt)
    && (o.redoUsed || QuietSince(b.receipts, {SubmitDelivery}, o.observedAt))
  }

  ghost predicate Reviewable(b: Binding, o: Observation) {
    o.status == Delivered && QuietSince(b.receipts, ReviewActions, o.observedAt)
  }

  /** When each action may be recorded, in terms of the projection, the receipts and the clock alone. */
  ghost predicate Permitted(b: Binding, action: Action, now: Millis) {
    match action
    case ApproveEscrow => b.order.None? && !HasAction(b.receipts, ApproveEscrow) && !HasAction(b.receipts, CreateOrder)
    case CreateOrder => b.order.None? && !HasAction(b.receipts, CreateOrder) && now < b.plan.deliveryDeadline
    case _ => b.order.Some? && OrderActionPermitted(b, b.order.value, action, now)
  }

  ghost predicate OrderActionPermitted(b: Binding, o: Observation, action: Action, now: Millis) {
    var awaiting := o.status == PendingAccept && !HasAction(b.receipts, AcceptOrder)
                    && QuietSince(b.receipts, {CancelPending}, o.observedAt);
    match action
    case AcceptOrder => awaiting
    case CancelPending => awaiting && o.acceptDeadline.Some? && now > o.acceptDeadline.value
    case SubmitDelivery =>
      && Workable(b, o) && o.canSubmitDelivery
      && o.deliveryDueAt.Some? && now <= o.deliveryDueAt.value
      && CountAction(b.receipts, SubmitDelivery) < AllowedDeliveries(o)
    case CancelExpired => Workable(b, o) && o.deliveryDueAt.Some? && now > o.deliveryDueAt.value
    case ReleaseEscrow => Reviewable(b, o)
    case RequestRedo =>
      Reviewable(b, o) && !o.redoUsed && o.challengeWindowEndsAt.Some? && now <= o.challengeWindowEndsAt.value
    case OpenChallenge =>
      Reviewable(b, o) && o.challengeWindowEndsAt.Some? && now <= o.challengeWindowEndsAt.value
    case ClaimAfterTimeout =>
      Reviewable(b, o) && o.challengeWindowEndsAt.Some? && now > o.challengeWindowEndsAt.value
    case _ => false
  }

  lemma AwaitingExact(b: Binding, o: Observation)
    requires b.order == Some(o)
    ensures DeriveStage(b) == AwaitingAcceptance <==>
              o.status == PendingAccept && !HasAction(b.receipts, AcceptOrder)
              && QuietSince(b.receipts, {CancelPending}, o.observedAt)
  {
    LatestIsNoneWhenQuiet(b.receipts, {CancelPending}, o.observedAt);
  }

  lemma QuietWithoutAction(r: seq<Receipt>, since: Millis)
    requires !HasAction(r, SubmitDelivery)
    ensures QuietSince(r, {SubmitDelivery}, since)
  {
  }

  lemma WorkingStageExact(b: Binding, o: Observation)
    requires b.order == Some(o) && o.status in {Funded, InProgress}
    ensures WorkingStage(b, o) in {Working, WorkingOnRedo} <==> Workable(b, o)
  {
    LatestIsNoneWhenQuiet(b.receipts, {CancelExpired}, o.observedAt);
    LatestIsNoneWhenQuiet(b.receipts, {SubmitDelivery}, o.observedAt);
    if !HasAction(b.receipts, SubmitDelivery) { QuietWithoutAction(b.receipts, o.observedAt); }
  }

  lemma WorkingExact(b: Binding, o: Observation)
    requires b.order == Some(o)
    ensures DeriveStage(b) in {Working, WorkingOnRedo} <==> Workable(b, o)
  {
    if o.status in {Funded, InProgress} {
      WorkingStageExact(b, o);
    }
  }

  lemma ReviewExact(b: Binding, o: Observation)
    requires b.order == Some(o)
    ensures DeriveStage(b) == DeliveredStage <==> Reviewable(b, o)
  {
    LatestIsNoneWhenQuiet(b.receipts, ReviewActions, o.observedAt);
  }

  /** An action passes the guard exactly when the projection, the receipts and the clock permit it. */
  lemma PermissionExact(b: Binding, action: Action, now: Millis)
    ensures ActionError(b, action, now) == None <==> Permitted(b, action, now)
  {
    if b.order.Some? {
      AwaitingExact(b, b.order.value);
      WorkingExact(b, b.order.value);
      ReviewExact(b, b.order.value);
    }
  }

  // ---- recording keeps the invariant ----

  /** What a recorded receipt satisfies, and what its action required of the prior state. */
  lemma RecordedReceiptFaithful(b: Binding, intent: Intent, mined: Mined, now: Millis, e: Expectations)
    requires MinedError(b, intent, mined, e) == None
    ensures ReceiptFaithful(b.plan, b.order, ReceiptOf(intent, mined, now))
    ensures mined.input == intent.data && mined.value == "0"
    ensures mined.action == SubmitDelivery ==>
              && intent.data.SubmitDeliveryCall? && e.deliveryHash.Some?
              && SameText(intent.data.deliveryHash, e.deliveryHash.value)
    ensures mined.action == OpenChallenge ==>
              && intent.data.OpenChallengeCall? && e.evaluators == Some(intent.data.panel)
              && var p := intent.data.panel; p.first != p.second && p.second != p.third && p.first != p.third
  {
  }

  lemma AppendKeepsOrdering(r: seq<Receipt>, x: Receipt)
    requires CreationOrdered(r)
    requires x.action == ApproveEscrow ==> !HasAction(r, ApproveEscrow) && !HasAction(r, CreateOrder)
    requires x.action == CreateOrder ==> forall i :: 0 <= i < |r| ==> r[i].action == ApproveEscrow
    requires x.action == AcceptOrder ==> !HasAction(r, AcceptOrder)
    ensures CreationOrdered(r + [x])
  {
  }

  /** Approval, creation and acceptance are each recorded at most once, and not out of order. */
  lemma PermissionIsFirst(b: Binding, action: Action, now: Millis)
    requires StatusSupported(b) && ActionError(b, action, now) == None
    ensures action == ApproveEscrow ==> !HasAction(b.receipts, ApproveEscrow) && !HasAction(b.receipts, CreateOrder)
    ensures action == CreateOrder ==> forall i :: 0 <= i < |b.receipts| ==> b.receipts[i].action == ApproveEscrow
    ensures action == AcceptOrder ==> !HasAction(b.receipts, AcceptOrder)
  {
  }

  /** What permission to record an action says about the retained order. */
  ghost predicate ActionNeeds(b: Binding, action: Action) {
    if b.order.None? then !OrderBound(action) else Needs(KindsOf(b.receipts), b.order.value, action)
  }

  lemma PermissionNeedsStatus(b: Binding, action: Action, now: Millis)
    requires ActionError(b, action, now) == None
    ensures ActionNeeds(b, action)
  {
  }

  lemma AllAppend(r: seq<Receipt>, x: Receipt, kind: Action -> bool)
    ensures var s := r + [x];
            (forall i :: 0 <= i < |s| ==> kind(s[i].action)) <==> (forall i :: 0 <= i < |r| ==> kind(r[i].action)) && kind(x.action)
  {
    var s := r + [x];
    assert forall i :: 0 <= i < |r| ==> s[i] == r[i];
    assert s[|r|] == x;
  }

  lemma KindsAppend(r: seq<Receipt>, x: Receipt)
    ensures KindsOf(r + [x]) == With(KindsOf(r), x.action)
  {
    AppendReceipt(r, x, CreateOrder);
    AppendReceipt(r, x, AcceptOrder);
    AppendReceipt(r, x, RequestRedo);
    AppendReceipt(r, x, SubmitDelivery);
    AllAppend(r, x, y => !OrderBound(y));
    AllAppend(r, x, y => BeforeWork(y));
    AllAppend(r, x, y => !BuyerReviewAction(y));
  }

  /** What permission to record an action needs of the order and the receipts. */
  predicate Needs(k: Kinds, o: Observation, action: Action) {
    match action
    case ApproveEscrow => false
    case CreateOrder => false
    case AcceptOrder => o.status == PendingAccept
    case CancelPending => o.status == PendingAccept
    case SubmitDelivery => o.status in {Funded, InProgress} && k.deliveries < AllowedDeliveries(o)
    case CancelExpired => o.status in {Funded, InProgress}
    case RequestRedo => o.status == Delivered && !o.redoUsed
    case _ => o.status == Delivered
  }

  lemma RecordedStaysSupported(k: Kinds, o: Observation, action: Action)
    requires Supports(k, o) && Needs(k, o, action)
    ensures Supports(With(k, action), o)
  {
  }

  lemma RecordKeepsStatus(b: Binding, x: Receipt)
    requires StatusSupported(b) && ActionNeeds(b, x.action)
    ensures StatusSupported(b.(receipts := b.receipts + [x]))
  {
    KindsAppend(b.receipts, x);
    if b.order.Some? { RecordedStaysSupported(KindsOf(b.receipts), b.order.value, x.action); }
  }

  lemma AppendKeepsFaithful(b: Binding, x: Receipt)
    requires ReceiptsFaithful(b) && ReceiptFaithful(b.plan, b.order, x)
    ensures ReceiptsFaithful(b.(receipts := b.receipts + [x]))
  {
  }

  lemma AppendKeepsDistinct(r: seq<Receipt>, x: Receipt)
    requires HashesDistinct(r) && FindHash(r, x.txHash).None?
    ensures HashesDistinct(r + [x])
  {
    FindHashSpec(r, x.txHash);
  }

  lemma InvIgnoresClock(b: Binding, updatedAt: Millis)
    ensures Inv(b) <==> Inv(b.(updatedAt := updatedAt))
  {
  }

  lemma AppendKeepsInv(b: Binding, x: Receipt, now: Millis)
    requires Inv(b) && |b.receipts| < MAX_RECEIPTS && FindHash(b.receipts, x.txHash).None?
    requires ReceiptFaithful(b.plan, b.order, x) && ActionError(b, x.action, now) == None
    ensures Inv(b.(receipts := b.receipts + [x]))
  {
    PermissionIsFirst(b, x.action, now);
    PermissionNeedsStatus(b, x.action, now);
    AppendKeepsFaithful(b, x);
    AppendKeepsDistinct(b.receipts, x);
    AppendKeepsOrdering(b.receipts, x);
    RecordKeepsStatus(b, x);
  }

  lemma RecordKeepsInv(b: Binding, intent: Intent, mined: Mined, now: Millis, e: Expectations)
    requires Inv(b) && RecordMined(b, intent, mined, now, e).Ok?
    ensures Inv(RecordMined(b, intent, mined, now, e).value)
  {
    var x := ReceiptOf(intent, mined, now);
    if FindHash(b.receipts, x.txHash).None? {
      RecordedReceiptFaithful(b, intent, mined, now, e);
      AppendKeepsInv(b, x, now);
      InvIgnoresClock(b.(receipts := b.receipts + [x]), now);
    }
  }

  // ---- reconciling keeps the invariant and follows the effective graph ----

  /** The order graph that survives the guards: the only status edges an accepted projection can take,
      together with the redo flag on either side. */
  predicate EffectiveEdge(from: Observation, to: Observation) {
    match from.status
    case PendingAccept => to.status in {PendingAccept, Funded, InProgress, Cancelled} && !from.redoUsed && !to.redoUsed
    case Funded => to.status in {Funded, InProgress, Delivered, Cancelled} && !from.redoUsed && !to.redoUsed
    case InProgress =>
      && to.redoUsed == from.redoUsed
      && (to.status in {InProgress, Delivered, Cancelled} || (from.redoUsed && to.status in {Accepted, InDispute, Settled}))
    case Delivered =>
      if to.status == InProgress then to.redoUsed
      else to.status in {Delivered, Accepted, InDispute, Settled} && to.redoUsed == from.redoUsed
    case Accepted => to.status in {Accepted, Settled} && to.redoUsed == from.redoUsed
    case InDispute => to.status in {InDispute, Settled} && to.redoUsed == from.redoUsed
    case Settled => to.status == Settled && to.redoUsed == from.redoUsed
    case Cancelled => to.status == Cancelled && to.redoUsed == from.redoUsed
  }

  lemma ReconcileChecks(b: Binding, o: Observation)
    requires Reconcile(b, o).Ok?
    ensures EvidenceError(b, o) == None
    ensures b.order.Some? ==> ContinuityError(b.order.value, o) == None
    ensures Reconcile(b, o).value == b.(order := Some(o), updatedAt := o.observedAt)
  {
  }

  lemma NeverDeliveredNeedsNothing(b: Binding, o: Observation)
    requires StatusSupported(b) && EvidenceError(b, o) == None
    requires b.order.None? || NeverDelivered(b.order.value)
    ensures !o.redoUsed && o.status !in {Accepted, InDispute, Settled}
  {
  }

  lemma UndeliveredNeedsDelivery(b: Binding, o: Observation)
    requires StatusSupported(b) && EvidenceError(b, o) == None
    requires b.order.None? || b.order.value.status == PendingAccept
    ensures o.status != Delivered
    ensures b.order.None? ==> o.status == PendingAccept
  {
    CountPositive(b.receipts, SubmitDelivery);
  }

  lemma DeliveredKeepsRedo(b: Binding, o: Observation)
    requires StatusSupported(b) && EvidenceError(b, o) == None
    requires b.order.Some? && PastDelivery(b.order.value.status) && PastDelivery(o.status)
    requires b.order.value.redoUsed ==> o.redoUsed
    ensures o.redoUsed == b.order.value.redoUsed
  {
  }

  lemma EarlyEdge(from: Observation, to: Observation)
    requires ContinuityError(from, to) == None && from.status in {PendingAccept, Funded} && !from.redoUsed
    requires !to.redoUsed && to.status !in {Accepted, InDispute, Settled}
    requires from.status == PendingAccept ==> to.status != Delivered
    ensures EffectiveEdge(from, to)
  {
  }

  lemma WorkEdge(from: Observation, to: Observation)
    requires ContinuityError(from, to) == None && from.status == InProgress
    requires !from.redoUsed ==> !to.redoUsed && to.status !in {Accepted, InDispute, Settled}
    ensures EffectiveEdge(from, to)
  {
    assert TableAllows(from.status, to.status);
    assert to.redoUsed == from.redoUsed;
    match to.status
    case PendingAccept => assert false;
    case Funded => assert false;
    case _ =>
  }

  lemma LateEdge(from: Observation, to: Observation)
    requires ContinuityError(from, to) == None && from.status in {Delivered, Accepted, InDispute, Settled, Cancelled}
    requires from.status == Cancelled && !from.redoUsed ==> !to.redoUsed
    requires PastDelivery(from.status) && PastDelivery(to.status) ==> to.redoUsed == from.redoUsed
    ensures EffectiveEdge(from, to)
  {
  }

  /** What the receipts exclude takes the loose table down to the effective graph. */
  lemma EdgeIsEffective(from: Observation, to: Observation)
    requires ContinuityError(from, to) == None
    requires NeverDelivered(from) ==> !to.redoUsed && to.status !in {Accepted, InDispute, Settled}
    requires from.status == PendingAccept ==> to.status != Delivered
    requires from.status in {PendingAccept, Funded} ==> !from.redoUsed
    requires PastDelivery(from.status) && PastDelivery(to.status) ==> to.redoUsed == from.redoUsed
    ensures EffectiveEdge(from, to)
  {
    if from.status in {PendingAccept, Funded} {
      EarlyEdge(from, to);
    } else if from.status == InProgress {
      WorkEdge(from, to);
    } else {
      LateEdge(from, to);
    }
  }

  lemma FirstIsPending(b: Binding, o: Observation)
    requires StatusSupported(b) && EvidenceError(b, o) == None && b.order.None?
    ensures o.status == PendingAccept && !o.redoUsed
  {
    NeverDeliveredNeedsNothing(b, o);
    UndeliveredNeedsDelivery(b, o);
  }

  lemma ContinuationFollowsGraph(b: Binding, from: Observation, o: Observation)
    requires StatusSupported(b) && EvidenceError(b, o) == None
    requires b.order == Some(from) && ContinuityError(from, o) == None
    ensures EffectiveEdge(from, o)
  {
    if NeverDelivered(from) { NeverDeliveredNeedsNothing(b, o); }
    if from.status == PendingAccept { UndeliveredNeedsDelivery(b, o); }
    if PastDelivery(from.status) && PastDelivery(o.status) { DeliveredKeepsRedo(b, o); }
    EdgeIsEffective(from, o);
  }

  /** From any state the guard can be in, an accepted projection follows the effective graph. */
  lemma ReconcileFollowsGraph(b: Binding, o: Observation)
    requires StatusSupported(b) && Reconcile(b, o).Ok?
    ensures b.order.None? ==> o.status == PendingAccept && !o.redoUsed
    ensures b.order.Some? ==> EffectiveEdge(b.order.value, o)
  {
    ReconcileChecks(b, o);
    if b.order.None? {
      FirstIsPending(b, o);
    } else {
      ContinuationFollowsGraph(b, b.order.value, o);
    }
  }

  lemma FirstKeepsStatus(b: Binding, o: Observation)
    requires StatusSupported(b) && EvidenceError(b, o) == None
    requires b.order.None? || b.order.value.status == PendingAccept
    requires b.order.None? ==> o.status == PendingAccept && !o.redoUsed
    requires b.order.Some? ==> EffectiveEdge(b.order.value, o)
    ensures StatusSupported(b.(order := Some(o), updatedAt := o.observedAt))
  {
    CountPositive(b.receipts, SubmitDelivery);
  }

  /** The milestones an accepted projection needs. */
  predicate HasMilestones(k: Kinds, o: Observation) {
    && k.created
    && (o.status !in {PendingAccept, Cancelled} ==> k.accepted)
    && (PastDelivery(o.status) ==> k.deliveries >= AllowedDeliveries(o))
    && (o.redoUsed ==> k.redone)
  }

  lemma EdgeStaysSupported(k: Kinds, from: Observation, to: Observation)
    requires Supports(k, from) && EffectiveEdge(from, to) && HasMilestones(k, to)
    ensures Supports(k, to)
  {
  }

  lemma ReconcileKeepsStatus(b: Binding, o: Observation)
    requires StatusSupported(b) && EvidenceError(b, o) == None
    requires b.order.None? ==> o.status == PendingAccept && !o.redoUsed
    requires b.order.Some? ==> EffectiveEdge(b.order.value, o)
    ensures StatusSupported(b.(order := Some(o), updatedAt := o.observedAt))
  {
    if b.order.None? {
      FirstKeepsStatus(b, o);
    } else {
      EdgeStaysSupported(KindsOf(b.receipts), b.order.value, o);
    }
  }

  lemma ReconcileKeepsInv(b: Binding, o: Observation)
    requires Inv(b) && Reconcile(b, o).Ok?
    ensures Inv(Reconcile(b, o).value)
  {
    ReconcileFollowsGraph(b, o);
    ReconcileChecks(b, o);
    ReconcileKeepsStatus(b, o);
    var c := Reconcile(b, o).value;
    forall i | 0 <= i < |c.receipts| ensures ReceiptFaithful(c.plan, c.order, c.receipts[i]) {
      assert ReceiptFaithful(b.plan, b.order, b.receipts[i]);
    }
  }

  // ---- theorems over whole runs ----

  ghost predicate Fresh(b: Binding) {
    b.order == None && b.receipts == []
  }

  lemma CheckoutIsFresh(plan: Plan, currency: string, amount: Amount, now: Millis)
    requires BindCheckout(plan, currency, amount, now).Ok?
    ensures Fresh(BindCheckout(plan, currency, amount, now).value)
    ensures BindCheckout(plan, currency, amount, now).value.plan == plan
    ensures currency == plan.currency.symbol && Denotes(amount) == Denotes(plan.amount)
  {
    EqualAmountsIffSameNumber(amount, plan.amount, plan.currency.decimals);
  }

  /** The accepted projections form a path of the effective graph that starts at PENDING_ACCEPT. */
  ghost predicate GraphPath(p: seq<Observation>) {
    && (p != [] ==> p[0].status == PendingAccept && !p[0].redoUsed)
    && forall i :: 0 <= i < |p| - 1 ==> EffectiveEdge(p[i], p[i + 1])
  }

  /** Accepted projections carry the plan's currency, agents and amount. */
  ghost predicate ProjectionOfPlan(plan: Plan, o: Observation) {
    && o.currency == plan.currency.symbol
    && Denotes(o.amount) == Denotes(plan.amount)
    && o.clientAgentId == plan.clientAgentId
    && o.providerAgentId == plan.providerAgentId
  }

  ghost predicate SameOrder(earlier: Observation, later: Observation) {
    && later.orderId == earlier.orderId
    && SameText(later.onChainOrderId, earlier.onChainOrderId)
    && earlier.observedAt <= later.observedAt
  }

  ghost predicate HistoryInv(plan: Plan, h: History) {
    && Inv(h.binding)
    && ProjectionsBound(plan, h.projections)
    && h.binding.plan == plan
    && GraphPath(h.projections)
    && h.binding.order == (if h.projections == [] then None else Some(h.projections[|h.projections| - 1]))
  }

  lemma RecordFrame(b: Binding, intent: Intent, mined: Mined, now: Millis, e: Expectations)
    requires RecordMined(b, intent, mined, now, e).Ok?
    ensures MinedError(b, intent, mined, e) == None
    ensures var c := RecordMined(b, intent, mined, now, e).value;
            c.plan == b.plan && c.order == b.order && b.receipts <= c.receipts
  {
  }

  lemma AcceptedMatchesPlan(b: Binding, o: Observation)
    requires Reconcile(b, o).Ok?
    ensures ProjectionOfPlan(b.plan, o)
    ensures b.order.Some? ==> SameOrder(b.order.value, o)
  {
    EqualAmountsIffSameNumber(o.amount, b.plan.amount, b.plan.currency.decimals);
  }

  /** The receipts that back a projection. */
  ghost predicate Backed(r: seq<Receipt>, prior: Option<Observation>, o: Observation) {
    && HasAction(r, CreateOrder)
    && (o.status !in {PendingAccept, Cancelled} ==> HasAction(r, AcceptOrder))
    && (PastDelivery(o.status) ==> CountAction(r, SubmitDelivery) >= AllowedDeliveries(o))
    && (o.redoUsed ==> HasAction(r, RequestRedo))
    && (o.status == Accepted ==> HasAction(r, ReleaseEscrow))
    && (o.status == InDispute ==> HasAction(r, OpenChallenge))
    && (o.status == Cancelled ==> HasAction(r, CancelPending) || HasAction(r, CancelExpired))
    && (o.status == Settled && !(prior.Some? && prior.value.status == InDispute) ==>
          HasAction(r, ReleaseEscrow) || HasAction(r, ClaimAfterTimeout))
  }

  /** In every state the guard can be in, a projection of the plan is accepted exactly when receipts back it and it is the
      first, indexed as pending, or continues the same order along the effective graph: the loose table adds nothing. */
  lemma ReconcileExact(b: Binding, o: Observation)
    requires StatusSupported(b)
    ensures Reconcile(b, o).Ok? <==>
              && o.currency == b.plan.currency.symbol
              && EqualAmounts(o.amount, b.plan.amount, b.plan.currency.decimals) == Ok(true)
              && o.clientAgentId == b.plan.clientAgentId && o.providerAgentId == b.plan.providerAgentId
              && Backed(b.receipts, b.order, o)
              && (b.order.None? ==> o.status == PendingAccept && !o.redoUsed)
              && (b.order.Some? ==> SameOrder(b.order.value, o) && EffectiveEdge(b.order.value, o))
  {
    BackedExact(b, o);
    if Reconcile(b, o).Ok? {
      ReconcileFollowsGraph(b, o);
      AcceptedMatchesPlan(b, o);
    }
    if b.order.Some? && SameOrder(b.order.value, o) && EffectiveEdge(b.order.value, o) {
      EdgeContinues(b.order.value, o);
    }
  }

  lemma BackedExact(b: Binding, o: Observation)
    ensures EvidenceError(b, o) == None <==> Backed(b.receipts, b.order, o)
  {
  }

  /** Every effective edge passes the table and the redo rules. */
  lemma EdgeContinues(prior: Observation, o: Observation)
    requires SameOrder(prior, o) && EffectiveEdge(prior, o)
    ensures ContinuityError(prior, o) == None
  {
  }

  ghost predicate ProjectionsBound(plan: Plan, p: seq<Observation>) {
    && (forall i :: 0 <= i < |p| ==> ProjectionOfPlan(plan, p[i]))
    && (forall i, j :: 0 <= i <= j < |p| ==> SameOrder(p[i], p[j]))
  }

  lemma SameOrderTransitive(x: Observation, y: Observation, z: Observation)
    requires SameOrder(x, y) && SameOrder(y, z)
    ensures SameOrder(x, z) && SameOrder(z, z)
  {
  }

  lemma ProjectionsStayBound(plan: Plan, p: seq<Observation>, o: Observation)
    requires ProjectionsBound(plan, p) && ProjectionOfPlan(plan, o)
    requires p != [] ==> SameOrder(p[|p| - 1], o)
    ensures ProjectionsBound(plan, p + [o])
  {
    var q := p + [o];
    forall i, j | 0 <= i <= j < |q| ensures SameOrder(q[i], q[j]) {
      if j < |p| {
        assert q[i] == p[i] && q[j] == p[j];
      } else if i < |p| {
        SameOrderTransitive(p[i], p[|p| - 1], o);
      }
    }
    forall i | 0 <= i < |q| ensures ProjectionOfPlan(plan, q[i]) {
      assert i < |p| ==> q[i] == p[i];
    }
  }

  lemma PathExtends(p: seq<Observation>, o: Observation)
    requires GraphPath(p)
    requires p == [] ==> o.status == PendingAccept && !o.redoUsed
    requires p != [] ==> EffectiveEdge(p[|p| - 1], o)
    ensures GraphPath(p + [o])
  {
  }

  lemma RecordKeepsHistory(plan: Plan, h: History, intent: Intent, mined: Mined, now: Millis, e: Expectations)
    requires HistoryInv(plan, h) && RecordMined(h.binding, intent, mined, now, e).Ok?
    ensures HistoryInv(plan, h.(binding := RecordMined(h.binding, intent, mined, now, e).value))
  {
    RecordKeepsInv(h.binding, intent, mined, now, e);
    RecordFrame(h.binding, intent, mined, now, e);
  }

  lemma ReconcileKeepsHistory(plan: Plan, h: History, o: Observation)
    requires HistoryInv(plan, h) && Reconcile(h.binding, o).Ok?
    ensures HistoryInv(plan, History(Reconcile(h.binding, o).value, h.projections + [o]))
  {
    ReconcileKeepsInv(h.binding, o);
    ReconcileFollowsGraph(h.binding, o);
    PathExtends(h.projections, o);
    AcceptedMatchesPlan(h.binding, o);
    ProjectionsStayBound(plan, h.projections, o);
    ReconcileChecks(h.binding, o);
  }

  lemma AdvanceKeepsHistory(plan: Plan, h: History, step: Step)
    requires HistoryInv(plan, h)
    ensures HistoryInv(plan, Advance(h, step))
  {
    if Apply(h.binding, step).Ok? {
      match step
      case RecordStep(intent, mined, now, e) => RecordKeepsHistory(plan, h, intent, mined, now, e);
      case ReconcileStep(o) => ReconcileKeepsHistory(plan, h, o);
    }
  }

  /** Every run keeps the joint invariant, and its accepted projections follow the effective graph
      from PENDING_ACCEPT to the retained order. */
  lemma RunKeepsHistory(start: Binding, steps: seq<Step>)
    requires Fresh(start)
    ensures HistoryInv(start.plan, Run(start, steps))
  {
    ContinuationKeepsHistory(start.plan, History(start, []), steps);
  }

  /** Before the first DELIVERED projection a path stays in the undelivered states without a redo. */
  lemma EdgeBeforeDelivery(from: Observation, to: Observation)
    requires EffectiveEdge(from, to) && NeverDelivered(from)
    ensures to.status == Delivered || NeverDelivered(to)
  {
  }

  lemma {:induction false} BeforeDelivery(p: seq<Observation>, k: nat)
    requires GraphPath(p) && k < |p|
    requires forall j :: 0 <= j < k ==> p[j].status != Delivered
    ensures p[k].status == Delivered || NeverDelivered(p[k])
  {
    if k > 0 {
      BeforeDelivery(p, k - 1);
      EdgeBeforeDelivery(p[k - 1], p[k]);
    }
  }

  /** From a DELIVERED projection on, cancellation and resumed work imply the redo flag. */
  lemma {:induction false} AfterDelivery(p: seq<Observation>, j: nat, k: nat)
    requires GraphPath(p) && j <= k < |p| && p[j].status == Delivered
    ensures p[k].status in {Delivered, InProgress, Accepted, InDispute, Settled, Cancelled}
    ensures p[k].status in {InProgress, Cancelled} ==> p[k].redoUsed
    ensures p[j].redoUsed ==> p[k].redoUsed
  {
    if j < k {
      AfterDelivery(p, j, k - 1);
      assert EffectiveEdge(p[k - 1], p[k]);
    }
  }

  lemma {:induction false} TerminalAbsorbs(p: seq<Observation>, j: nat, k: nat)
    requires GraphPath(p) && j <= k < |p| && p[j].status in {Settled, Cancelled}
    ensures p[k].status == p[j].status && p[k].redoUsed == p[j].redoUsed
  {
    if j < k {
      TerminalAbsorbs(p, j, k - 1);
      assert EffectiveEdge(p[k - 1], p[k]);
    }
  }

  lemma {:induction false} RedoNeverClears(p: seq<Observation>, j: nat, k: nat)
    requires GraphPath(p) && j <= k < |p| && p[j].redoUsed
    ensures p[k].redoUsed
  {
    if j < k {
      RedoNeverClears(p, j, k - 1);
      assert EffectiveEdge(p[k - 1], p[k]);
    }
  }

  ghost predicate SeenDelivered(p: seq<Observation>, k: int) {
    exists j :: 0 <= j < k && j < |p| && p[j].status == Delivered
  }

  lemma FirstDelivery(p: seq<Observation>, k: nat)
    requires GraphPath(p) && k < |p| && !SeenDelivered(p, k)
    ensures p[k].status !in {Accepted, InDispute, Settled} && !p[k].redoUsed
  {
    BeforeDelivery(p, k);
    if k > 0 {
      BeforeDelivery(p, k - 1);
      assert p[k - 1].status != Delivered && EffectiveEdge(p[k - 1], p[k]);
    }
  }

  /** The history of every run: settlement, acceptance and dispute need an earlier delivery; a redo needs one;
      cancellation or work after a delivery happens only in the redo round; the terminal states absorb. */
  lemma RunHistory(start: Binding, steps: seq<Step>, j: nat, k: nat)
    requires Fresh(start) && j <= k < |Run(start, steps).projections|
    ensures var p := Run(start, steps).projections;
            && p[0].status == PendingAccept
            && (p[k].status in {Accepted, InDispute, Settled} || p[k].redoUsed ==> SeenDelivered(p, k))
            && (p[j].status == Delivered && p[k].status in {Cancelled, InProgress} ==> p[k].redoUsed)
            && (p[j].status in {Settled, Cancelled} ==> p[k].status == p[j].status)
            && (p[j].redoUsed ==> p[k].redoUsed)
  {
    RunKeepsHistory(start, steps);
    var p := Run(start, steps).projections;
    if !SeenDelivered(p, k) { FirstDelivery(p, k); }
    if p[j].status == Delivered { AfterDelivery(p, j, k); }
    if p[j].status in {Settled, Cancelled} { TerminalAbsorbs(p, j, k); }
    if p[j].redoUsed { RedoNeverClears(p, j, k); }
  }

  /** The delivery count of every reachable binding is bounded by the redo flag, and exact once a delivery is indexed. */
  lemma DeliveryCountExact(start: Binding, steps: seq<Step>)
    requires Fresh(start)
    ensures var c := Run(start, steps).binding;
            && (c.order.None? ==> CountAction(c.receipts, SubmitDelivery) == 0)
            && (c.order.Some? ==>
                  && CountAction(c.receipts, SubmitDelivery) <= AllowedDeliveries(c.order.value)
                  && (PastDelivery(c.order.value.status) ==>
                        CountAction(c.receipts, SubmitDelivery) == AllowedDeliveries(c.order.value))
                  && (c.order.value.redoUsed ==> HasAction(c.receipts, RequestRedo)))
  {
    RunKeepsHistory(start, steps);
    CountPositive(Run(start, steps).binding.receipts, SubmitDelivery);
  }

  // ---- conservation ----

  function ApprovedAmount(r: Receipt): nat {
    if r.action == ApproveEscrow && r.intent.data.ApproveCall? then r.intent.data.amount else 0
  }

  function TotalApproved(receipts: seq<Receipt>): nat {
    if receipts == [] then 0
    else TotalApproved(receipts[..|receipts| - 1]) + ApprovedAmount(receipts[|receipts| - 1])
  }

  lemma {:induction false} OrderedCounts(r: seq<Receipt>)
    requires CreationOrdered(r)
    ensures CountAction(r, ApproveEscrow) <= 1 && CountAction(r, CreateOrder) <= 1 && CountAction(r, AcceptOrder) <= 1
  {
    if r != [] {
      var front := r[..|r| - 1];
      OrderedCounts(front);
      CountPositive(front, ApproveEscrow);
      CountPositive(front, CreateOrder);
      CountPositive(front, AcceptOrder);
    }
  }

  ghost predicate ApprovalsExact(plan: Plan, r: seq<Receipt>) {
    forall i :: 0 <= i < |r| && r[i].action == ApproveEscrow ==>
      Budget(plan) == Ok(ApprovedAmount(r[i]))
  }

  lemma {:induction false} ApprovalsSum(plan: Plan, r: seq<Receipt>)
    requires CreationOrdered(r) && ApprovalsExact(plan, r)
    ensures HasAction(r, ApproveEscrow) ==> Budget(plan) == Ok(TotalApproved(r))
    ensures !HasAction(r, ApproveEscrow) ==> TotalApproved(r) == 0
  {
    if r != [] {
      var front, last := r[..|r| - 1], r[|r| - 1];
      FrontOfApprovals(plan, r);
      ApprovalsSum(plan, front);
      AppendReceipt(front, last, ApproveEscrow);
      assert r == front + [last];
    }
  }

  lemma FrontOfApprovals(plan: Plan, r: seq<Receipt>)
    requires CreationOrdered(r) && ApprovalsExact(plan, r) && r != []
    ensures var front, last := r[..|r| - 1], r[|r| - 1];
            && CreationOrdered(front) && ApprovalsExact(plan, front)
            && (last.action == ApproveEscrow ==> Budget(plan) == Ok(ApprovedAmount(last)) && !HasAction(front, ApproveEscrow))
  {
  }

  lemma FaithfulApprovals(b: Binding)
    requires ReceiptsFaithful(b)
    ensures ApprovalsExact(b.plan, b.receipts)
  {
  }

  lemma BoundNeedsCreation(b: Binding, i: nat)
    requires ReceiptsFaithful(b) && StatusSupported(b) && i < |b.receipts| && OrderBound(b.receipts[i].action)
    ensures HasAction(b.receipts, CreateOrder)
  {
    assert ReceiptFaithful(b.plan, b.order, b.receipts[i]);
  }

  lemma CreationComesFirst(r: seq<Receipt>, i: nat)
    requires CreationOrdered(r) && HasAction(r, CreateOrder) && i < |r| && OrderBound(r[i].action)
    ensures HasAction(r[..i], CreateOrder)
  {
    var k :| 0 <= k < |r| && r[k].action == CreateOrder;
    assert k < i;
    assert r[..i][k].action == CreateOrder;
  }

  /** Receipts are conserved over every run: single approval, creation and acceptance, in that order; distinct
      hashes; the reviewed actor, target and terms on each; and a total allowance that is zero or exactly the
      checkout budget in base units. */
  lemma ReceiptsConserved(start: Binding, steps: seq<Step>)
    requires Fresh(start)
    ensures var c := Run(start, steps).binding;
            && |c.receipts| <= MAX_RECEIPTS
            && CountAction(c.receipts, ApproveEscrow) <= 1
            && CountAction(c.receipts, CreateOrder) <= 1
            && CountAction(c.receipts, AcceptOrder) <= 1
            && CreationOrdered(c.receipts)
            && (forall i :: 0 <= i < |c.receipts| && OrderBound(c.receipts[i].action) ==>
                  HasAction(c.receipts[..i], CreateOrder))
            && HashesDistinct(c.receipts)
            && ReceiptsFaithful(c)
            && (TotalApproved(c.receipts) == 0 || Budget(start.plan) == Ok(TotalApproved(c.receipts)))
  {
    RunKeepsHistory(start, steps);
    var c := Run(start, steps).binding;
    OrderedCounts(c.receipts);
    FaithfulApprovals(c);
    ApprovalsSum(c.plan, c.receipts);
    forall i | 0 <= i < |c.receipts| && OrderBound(c.receipts[i].action)
      ensures HasAction(c.receipts[..i], CreateOrder)
    {
      BoundNeedsCreation(c, i);
      CreationComesFirst(c.receipts, i);
    }
  }

  // ---- re-recording ----

  /** Later bindings extend earlier ones and keep the order's on-chain identity. */
  ghost predicate Extends(b: Binding, c: Binding) {
    && c.plan == b.plan
    && b.receipts <= c.receipts
    && (b.order.Some? ==> c.order.Some? && SameText(c.order.value.onChainOrderId, b.order.value.onChainOrderId))
  }

  lemma AdvanceExtends(b: Binding, h: History, step: Step)
    requires Extends(b, h.binding)
    ensures Extends(b, Advance(h, step).binding)
  {
    if step.ReconcileStep? && Apply(h.binding, step).Ok? {
      ReconcileChecks(h.binding, step.observation);
    }
  }

  lemma ContinuationExtends(h: History, steps: seq<Step>)
    ensures Extends(h.binding, Fold(h, steps, Advance).binding)
  {
    forall g: History, step | Extends(h.binding, g.binding) ensures Extends(h.binding, Advance(g, step).binding) {
      AdvanceExtends(h.binding, g, step);
    }
    Invariant(h, steps, Advance, (g: History) => Extends(h.binding, g.binding));
  }

  lemma IntentStaysValid(b: Binding, c: Binding, intent: Intent, mined: Mined, e: Expectations)
    requires Extends(b, c) && MinedError(b, intent, mined, e) == None
    ensures MinedError(c, intent, mined, e) == None
  {
  }

  lemma RecordContains(b: Binding, intent: Intent, mined: Mined, now: Millis, e: Expectations)
    requires RecordMined(b, intent, mined, now, e).Ok?
    ensures var c := RecordMined(b, intent, mined, now, e).value;
            exists i :: 0 <= i < |c.receipts| && c.receipts[i].(observedAt := now) == ReceiptOf(intent, mined, now)
  {
    var x := ReceiptOf(intent, mined, now);
    var c := RecordMined(b, intent, mined, now, e).value;
    FindHashSpec(b.receipts, x.txHash);
    if FindHash(b.receipts, x.txHash).None? {
      assert c.receipts[|b.receipts|] == x;
    }
  }

  lemma OnlyHolderOfHash(r: seq<Receipt>, i: nat)
    requires HashesDistinct(r) && i < |r|
    ensures FindHash(r, r[i].txHash) == Some(r[i])
  {
    FindHashSpec(r, r[i].txHash);
    var k :| 0 <= k < |r| && r[k] == FindHash(r, r[i].txHash).value && SameText(r[k].txHash, r[i].txHash);
    assert k == i;
  }

  lemma RecordAgain(b: Binding, c: Binding, intent: Intent, mined: Mined, now: Millis, later: Millis, e: Expectations)
    requires RecordMined(b, intent, mined, now, e).Ok?
    requires Extends(RecordMined(b, intent, mined, now, e).value, c) && HashesDistinct(c.receipts)
    ensures RecordMined(c, intent, mined, later, e) == Ok(c)
  {
    var recorded := RecordMined(b, intent, mined, now, e).value;
    RecordFrame(b, intent, mined, now, e);
    assert Extends(b, c);
    IntentStaysValid(b, c, intent, mined, e);
    RecordContains(b, intent, mined, now, e);
    var i :| 0 <= i < |recorded.receipts| && recorded.receipts[i].(observedAt := now) == ReceiptOf(intent, mined, now);
    assert c.receipts[i] == recorded.receipts[i];
    OnlyHolderOfHash(c.receipts, i);
  }

  /** Recording a mined transaction again, after any further steps and at any later time, changes nothing. */
  lemma ReRecordingChangesNothing(
      start: Binding, before: seq<Step>, after: seq<Step>,
      intent: Intent, mined: Mined, now: Millis, later: Millis, e: Expectations)
    requires Fresh(start)
    requires RecordMined(Run(start, before).binding, intent, mined, now, e).Ok?
    ensures var h := Run(start, before);
            var recorded := h.(binding := RecordMined(h.binding, intent, mined, now, e).value);
            var c := Fold(recorded, after, Advance).binding;
            RecordMined(c, intent, mined, later, e) == Ok(c)
  {
    var h := Run(start, before);
    var recorded := h.(binding := RecordMined(h.binding, intent, mined, now, e).value);
    RunKeepsHistory(start, before);
    RecordKeepsHistory(start.plan, h, intent, mined, now, e);
    ContinuationKeepsHistory(start.plan, recorded, after);
    ContinuationExtends(recorded, after);
    RecordAgain(h.binding, Fold(recorded, after, Advance).binding, intent, mined, now, later, e);
  }

  lemma ContinuationKeepsHistory(plan: Plan, h: History, steps: seq<Step>)
    requires HistoryInv(plan, h)
    ensures HistoryInv(plan, Fold(h, steps, Advance))
  {
    forall g, step | HistoryInv(plan, g) ensures HistoryInv(plan, Advance(g, step)) {
      AdvanceKeepsHistory(plan, g, step);
    }
    Invariant(h, steps, Advance, g => HistoryInv(plan, g));
  }
}
