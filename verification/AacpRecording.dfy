/** What recording a mined transaction and accepting a projection come to, field by field, and that a recorded action leaves
    room for no other until a projection is accepted. */
module AacpRecording {
  import opened Outcomes
  import opened Decimals
  import opened Runs
  import opened AacpLifecycle
  import opened AacpInvariants

  // ---- texts up to case ----

  predicate Alike(x: char, y: char) {
    || x == y
    || ('A' <= x <= 'Z' && y as int == x as int + 32)
    || ('A' <= y <= 'Z' && x as int == y as int + 32)
  }

  /** The same text but for the case of the letters A to Z. */
  ghost predicate SameWord(s: string, t: string) {
    |s| == |t| && forall i :: 0 <= i < |s| ==> Alike(s[i], t[i])
  }

  ghost predicate InLowerCase(t: string, s: string) {
    |t| == |s| && forall i :: 0 <= i < |s| ==> t[i] == if 'A' <= s[i] <= 'Z' then (s[i] as int + 32) as char else s[i]
  }

  lemma SameTextExactly(s: string, t: string)
    ensures SameText(s, t) <==> SameWord(s, t)
  {
    if SameText(s, t) {
      forall i | 0 <= i < |s| ensures Alike(s[i], t[i]) {
        assert Lower(s)[i] == Lower(t)[i];
      }
    }
  }

  // ---- the reviewed transaction ----

  function Wallet(plan: Plan, action: Action): string {
    match action
    case AcceptOrder => plan.providerWallet
    case SubmitDelivery => plan.providerWallet
    case ClaimAfterTimeout => plan.providerWallet
    case _ => plan.clientWallet
  }

  function Contract(plan: Plan, action: Action): string {
    match action
    case ApproveEscrow => plan.currency.address
    case _ => plan.currency.escrow
  }

  /** The decoded call is the one the plan, the order and the expectations demand. */
  ghost predicate ReviewedCall(b: Binding, action: Action, call: Call, e: Expectations) {
    match action
    case ApproveEscrow =>
      call.ApproveCall? && SameWord(call.spender, b.plan.currency.escrow)
      && DecimalToUnits(b.plan.amount, b.plan.currency.decimals) == Ok(call.amount)
    case CreateOrder =>
      && call.CreateOrderCall?
      && call.providerAgent == b.plan.providerAgentTokenId && call.clientAgent == b.plan.clientAgentTokenId
      && SameWord(call.agreement, b.plan.agreementHash)
      && DecimalToUnits(b.plan.amount, b.plan.currency.decimals) == Ok(call.budget)
      && call.deadline == b.plan.deliveryDeadline / 1000
      && call.settlementMode == b.plan.settlementMode && call.challengeWindow == b.plan.challengeWindowSeconds
    case SubmitDelivery =>
      && call.SubmitDeliveryCall? && NamesOrder(b, call.orderId)
      && e.deliveryHash.Some? && SameWord(call.deliveryHash, e.deliveryHash.value)
    case OpenChallenge =>
      && call.OpenChallengeCall? && NamesOrder(b, call.orderId) && e.evaluators == Some(call.panel)
      && call.panel.first != call.panel.second && call.panel.second != call.panel.third && call.panel.first != call.panel.third
    case _ => call.OrderCall? && call.name == action && NamesOrder(b, call.orderId)
  }

  ghost predicate NamesOrder(b: Binding, id: string) {
    b.order.Some? && SameWord(id, b.order.value.onChainOrderId)
  }

  /** The mined transaction is the reviewed one: same action, target, input and value, from the right wallet. */
  ghost predicate Reviewed(b: Binding, intent: Intent, mined: Mined, e: Expectations) {
    && mined.action == intent.action && mined.input == intent.data && intent.value == "0" && mined.value == "0"
    && SameWord(intent.target, Contract(b.plan, intent.action)) && SameWord(mined.to, intent.target)
    && SameWord(mined.from, Wallet(b.plan, intent.action))
    && ReviewedCall(b, intent.action, intent.data, e)
  }

  lemma ApprovalExactly(b: Binding, call: Call, e: Expectations)
    ensures ApprovalError(b.plan, call) == None <==> ReviewedCall(b, ApproveEscrow, call, e)
  {
    if call.ApproveCall? { SameTextExactly(call.spender, b.plan.currency.escrow); }
  }

  lemma CreationExactly(b: Binding, call: Call, e: Expectations)
    ensures CreateOrderError(b.plan, call) == None <==> ReviewedCall(b, CreateOrder, call, e)
  {
    if call.CreateOrderCall? { SameTextExactly(call.agreement, b.plan.agreementHash); }
  }

  lemma OrderCallExactly(b: Binding, intent: Intent, e: Expectations)
    requires intent.action !in {ApproveEscrow, CreateOrder}
    ensures FunctionName(intent.data) == Some(intent.action) && OrderCallError(b.order, intent, e) == None
       <==> ReviewedCall(b, intent.action, intent.data, e)
  {
    var id := OrderIdOf(intent.data);
    if id.Some? && b.order.Some? { SameTextExactly(id.value, b.order.value.onChainOrderId); }
    if intent.data.SubmitDeliveryCall? && e.deliveryHash.Some? { SameTextExactly(intent.data.deliveryHash, e.deliveryHash.value); }
  }

  lemma ReviewedCallExactly(b: Binding, intent: Intent, e: Expectations)
    ensures DecodedIntentError(b, intent, e) == None <==> ReviewedCall(b, intent.action, intent.data, e)
  {
    ApprovalExactly(b, intent.data, e);
    CreationExactly(b, intent.data, e);
    if OrderBound(intent.action) { OrderCallExactly(b, intent, e); }
  }

  lemma ReviewedExactly(b: Binding, intent: Intent, mined: Mined, e: Expectations)
    ensures MinedError(b, intent, mined, e) == None <==> Reviewed(b, intent, mined, e)
  {
    ReviewedCallExactly(b, intent, e);
    SameTextExactly(intent.target, Contract(b.plan, intent.action));
    SameTextExactly(mined.to, intent.target);
    SameTextExactly(mined.from, Wallet(b.plan, intent.action));
  }

  // ---- the receipt ----

  /** The receipt of this transaction, seen at `at`. */
  ghost predicate IsReceiptOf(x: Receipt, intent: Intent, mined: Mined, at: Millis) {
    && x.action == mined.action && x.actor == mined.from && x.target == intent.target
    && x.txHash == mined.txHash && x.blockNumber == mined.blockNumber && x.nonce == mined.nonce && x.observedAt == at
    && InLowerCase(x.intent.target, intent.target)
    && x.intent == intent.(target := x.intent.target)
  }

  lemma ReceiptExactly(x: Receipt, intent: Intent, mined: Mined, at: Millis)
    ensures x == ReceiptOf(intent, mined, at) <==> IsReceiptOf(x, intent, mined, at)
  {
    if IsReceiptOf(x, intent, mined, at) {
      assert x.intent.target == Lower(intent.target);
    }
  }

  /** The receipt with this transaction hash. */
  ghost predicate HoldsHash(r: seq<Receipt>, i: nat, hash: string) {
    i < |r| && SameWord(r[i].txHash, hash)
  }

  ghost predicate Recorded(r: seq<Receipt>, hash: string) {
    exists i: nat :: HoldsHash(r, i, hash)
  }

  lemma RecordedExactly(r: seq<Receipt>, hash: string)
    requires HashesDistinct(r)
    ensures FindHash(r, hash).Some? <==> Recorded(r, hash)
    ensures forall i: nat :: HoldsHash(r, i, hash) ==> FindHash(r, hash) == Some(r[i])
  {
    FindHashSpec(r, hash);
    forall s, t ensures SameText(s, t) <==> SameWord(s, t) {
      SameTextExactly(s, t);
    }
    if FindHash(r, hash).Some? {
      var k :| 0 <= k < |r| && r[k] == FindHash(r, hash).value && SameText(r[k].txHash, hash);
      assert HoldsHash(r, k, hash);
      forall i: nat | HoldsHash(r, i, hash) ensures r[i] == r[k] {
        assert SameText(r[i].txHash, r[k].txHash);
      }
    } else {
      forall i: nat ensures !HoldsHash(r, i, hash) {
        assert i < |r| ==> !SameText(r[i].txHash, hash);
      }
    }
  }

  /** A receipt of this very transaction is held. */
  ghost predicate SameEvidence(r: seq<Receipt>, intent: Intent, mined: Mined) {
    exists i: nat :: HoldsHash(r, i, mined.txHash) && IsReceiptOf(r[i], intent, mined, r[i].observedAt)
  }

  /** Recording succeeds exactly for the reviewed transaction, if it is either recorded already with the same evidence, or
      new, permitted and one of at most 16. A recorded one leaves the binding as it is; a new one adds its receipt, with the
      mined hash, block, nonce and wallet and the time of recording, and changes nothing else. */
  lemma RecordingExact(b: Binding, intent: Intent, mined: Mined, now: Millis, e: Expectations)
    requires HashesDistinct(b.receipts)
    ensures var r := RecordMined(b, intent, mined, now, e);
            if Recorded(b.receipts, mined.txHash) then
              && (r.Ok? <==> Reviewed(b, intent, mined, e) && SameEvidence(b.receipts, intent, mined))
              && (r.Ok? ==> r.value == b)
            else
              && (r.Ok? <==> Reviewed(b, intent, mined, e) && Permitted(b, mined.action, now) && |b.receipts| < 16)
              && (r.Ok? ==> exists x :: IsReceiptOf(x, intent, mined, now)
                              && r.value == Binding(b.plan, b.order, b.receipts + [x], now))
  {
    ReviewedExactly(b, intent, mined, e);
    RecordedExactly(b.receipts, mined.txHash);
    PermissionExact(b, mined.action, now);
    ReceiptExactly(ReceiptOf(intent, mined, now), intent, mined, now);
    if Recorded(b.receipts, mined.txHash) {
      var i: nat :| HoldsHash(b.receipts, i, mined.txHash);
      var prior := b.receipts[i];
      ReceiptExactly(prior.(observedAt := now), intent, mined, now);
    }
  }

  // ---- one action at a time ----

  /** Nothing can be recorded under this projection any more, at any time. */
  ghost predicate Closed(b: Binding) {
    b.order.Some? && forall action, now :: !Permitted(b, action, now)
  }

  lemma ReceiptStands(r: seq<Receipt>, x: Receipt, since: Millis, actions: set<Action>)
    requires x.action in actions && x.observedAt >= since
    ensures !QuietSince(r + [x], actions, since)
  {
    assert (r + [x])[|r|] == x;
  }

  /** A delivery after the redo does not stop an expired order from being cancelled under the same projection. */
  lemma RedoDeliveryLeavesOpen(b: Binding, x: Receipt, now: Millis)
    requires b.order.Some? && b.order.value.redoUsed && x.action == SubmitDelivery && Permitted(b, SubmitDelivery, now)
    ensures var o := b.order.value;
            o.deliveryDueAt.Some? && forall later :: later > o.deliveryDueAt.value ==>
              Permitted(Binding(b.plan, b.order, b.receipts + [x], now), CancelExpired, later)
  {
  }

  /** A recorded action closes the projection it was recorded under, except exactly for a delivery after the redo. */
  lemma ActionCloses(b: Binding, x: Receipt, now: Millis)
    requires b.order.Some? && Permitted(b, x.action, now) && x.observedAt >= b.order.value.observedAt
    ensures Closed(Binding(b.plan, b.order, b.receipts + [x], now)) <==> !(x.action == SubmitDelivery && b.order.value.redoUsed)
  {
    var o, r := b.order.value, b.receipts + [x];
    if x.action == SubmitDelivery && o.redoUsed {
      RedoDeliveryLeavesOpen(b, x, now);
      assert Permitted(Binding(b.plan, b.order, r, now), CancelExpired, o.deliveryDueAt.value + 1);
      return;
    }
    AppendReceipt(b.receipts, x, AcceptOrder);
    if x.action == CancelPending { ReceiptStands(b.receipts, x, o.observedAt, {CancelPending}); }
    if x.action == CancelExpired { ReceiptStands(b.receipts, x, o.observedAt, {CancelExpired}); }
    if x.action == SubmitDelivery { ReceiptStands(b.receipts, x, o.observedAt, {SubmitDelivery}); }
    if x.action in ReviewActions { ReceiptStands(b.receipts, x, o.observedAt, ReviewActions); }
  }

  /** A step that is no accepted projection changes nothing in a closed binding. */
  lemma ClosedStays(h: History, step: Step)
    requires Closed(h.binding)
    ensures Advance(h, step) == h || |Advance(h, step).projections| == |h.projections| + 1
  {
    if step.RecordStep? {
      PermissionExact(h.binding, step.mined.action, step.now);
      assert !Permitted(h.binding, step.mined.action, step.now);
    }
  }

  lemma {:induction false} ClosedUntilProjection(h: History, steps: seq<Step>)
    requires Closed(h.binding)
    ensures var end := Fold(h, steps, Advance); end == h || |end.projections| > |h.projections|
    decreases |steps|
  {
    if steps != [] {
      var front := Fold(h, steps[..|steps| - 1], Advance);
      ClosedUntilProjection(h, steps[..|steps| - 1]);
      if front == h {
        ClosedStays(h, steps[|steps| - 1]);
      }
    }
  }

  /** Once an acceptance, a cancellation, a delivery, a release, a claim, a redo or a challenge is recorded under a projection,
      no competing action is recorded, and nothing else changes, before a later projection is accepted. The only exception is
      a delivery after the redo. */
  lemma NothingCompetes(
      h: History, intent: Intent, mined: Mined, now: Millis, e: Expectations, steps: seq<Step>)
    requires HashesDistinct(h.binding.receipts) && h.binding.order.Some? && now >= h.binding.order.value.observedAt
    requires !(mined.action == SubmitDelivery && h.binding.order.value.redoUsed)
    requires var r := RecordMined(h.binding, intent, mined, now, e); r.Ok? && r.value.receipts != h.binding.receipts
    ensures var recorded := h.(binding := RecordMined(h.binding, intent, mined, now, e).value);
            var end := Fold(recorded, steps, Advance);
            |end.projections| <= |h.projections| ==> end == recorded
  {
    var recorded := h.(binding := RecordMined(h.binding, intent, mined, now, e).value);
    RecordingExact(h.binding, intent, mined, now, e);
    var x :| IsReceiptOf(x, intent, mined, now)
      && recorded.binding == Binding(h.binding.plan, h.binding.order, h.binding.receipts + [x], now);
    ActionCloses(h.binding, x, now);
    ClosedUntilProjection(recorded, steps);
  }

  // ---- projections and checkouts ----

  /** The receipts that must be on record for this projection. */
  ghost predicate Evidence(b: Binding, o: Observation) {
    && HasAction(b.receipts, CreateOrder)
    && (o.redoUsed ==> HasAction(b.receipts, RequestRedo))
    && (o.status !in {PendingAccept, Cancelled} ==> HasAction(b.receipts, AcceptOrder))
    && (o.status in {Delivered, Accepted, InDispute, Settled} ==> OnRecord(b.receipts, o.redoUsed))
    && ClosingEvidence(b, o)
  }

  /** The receipt that led to this status. */
  ghost predicate ClosingEvidence(b: Binding, o: Observation) {
    match o.status
    case Accepted => HasAction(b.receipts, ReleaseEscrow)
    case InDispute => HasAction(b.receipts, OpenChallenge)
    case Settled =>
      || HasAction(b.receipts, ReleaseEscrow) || HasAction(b.receipts, ClaimAfterTimeout)
      || (b.order.Some? && b.order.value.status == InDispute)
    case Cancelled => HasAction(b.receipts, CancelPending) || HasAction(b.receipts, CancelExpired)
    case _ => true
  }

  /** A delivery is on record, or two after a redo. */
  ghost predicate OnRecord(r: seq<Receipt>, redone: bool) {
    exists i :: 0 <= i < |r| && r[i].action == SubmitDelivery
      && (redone ==> exists j :: 0 <= j < i && r[j].action == SubmitDelivery)
  }

  lemma {:induction false} OnRecordExactly(r: seq<Receipt>)
    ensures CountAction(r, SubmitDelivery) >= 1 <==> OnRecord(r, false)
    ensures CountAction(r, SubmitDelivery) >= 2 <==> OnRecord(r, true)
  {
    CountPositive(r, SubmitDelivery);
    if r != [] {
      var front, last := r[..|r| - 1], r[|r| - 1];
      OnRecordExactly(front);
      CountPositive(front, SubmitDelivery);
      if OnRecord(front, true) {
        var i :| 0 <= i < |front| && front[i].action == SubmitDelivery && exists j :: 0 <= j < i && front[j].action == SubmitDelivery;
        var j :| 0 <= j < i && front[j].action == SubmitDelivery;
        assert r[i] == front[i] && r[j] == front[j];
      }
      if last.action == SubmitDelivery && OnRecord(front, false) {
        var j :| 0 <= j < |front| && front[j].action == SubmitDelivery;
        assert r[|r| - 1].action == SubmitDelivery && r[j].action == SubmitDelivery;
      }
    }
  }

  lemma EvidenceExactly(b: Binding, o: Observation)
    ensures EvidenceError(b, o) == None <==> Evidence(b, o)
  {
    OnRecordExactly(b.receipts);
  }

  /** In every state the guard can be in, a projection is accepted exactly when it is one of the plan, receipts are on record
      for it, and it is the first, indexed as pending, or continues the same order along the effective graph. It then becomes
      the order of the binding, and nothing else changes. */
  lemma ProjectionExact(b: Binding, o: Observation)
    requires StatusSupported(b)
    ensures var r := Reconcile(b, o);
            && (r.Ok? <==>
                  && o.currency == b.plan.currency.symbol
                  && EqualAmounts(o.amount, b.plan.amount, b.plan.currency.decimals) == Ok(true)
                  && o.clientAgentId == b.plan.clientAgentId && o.providerAgentId == b.plan.providerAgentId
                  && Evidence(b, o)
                  && if b.order.None? then o.status == PendingAccept && !o.redoUsed
                     else
                       && o.orderId == b.order.value.orderId
                       && SameWord(o.onChainOrderId, b.order.value.onChainOrderId)
                       && o.observedAt >= b.order.value.observedAt && EffectiveEdge(b.order.value, o))
            && (r.Ok? ==> r.value == Binding(b.plan, Some(o), b.receipts, o.observedAt))
  {
    ReconcileExact(b, o);
    BackedExact(b, o);
    EvidenceExactly(b, o);
    if b.order.Some? { SameTextExactly(o.onChainOrderId, b.order.value.onChainOrderId); }
  }

  /** A checkout is bound exactly when its currency and amount are the reviewed ones, and starts without order and receipts. */
  lemma CheckoutExact(plan: Plan, currency: string, amount: Amount, now: Millis)
    ensures var r := BindCheckout(plan, currency, amount, now);
            && (r.Ok? <==>
                  && currency == plan.currency.symbol
                  && |Fraction(amount)| <= plan.currency.decimals && |Fraction(plan.amount)| <= plan.currency.decimals
                  && Denotes(amount) == Denotes(plan.amount))
            && (r.Ok? ==> r.value == Binding(plan, None, [], now))
  {
    EqualAmountsIffSameNumber(amount, plan.amount, plan.currency.decimals);
  }
}
