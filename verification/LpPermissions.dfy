/** What one LP activation attempt may put on chain: its plan, transaction by transaction, in terms of the approval, the
    balances and the job, and the price and gas limits of each. */
module LpPermissions {
  import opened Outcomes
  import opened LpActivation

  // ---- gas ----

  function GasOf(txs: seq<Tx>): nat {
    if txs == [] then 0 else txs[0].gasWei + GasOf(txs[1..])
  }

  lemma {:induction false} TotalIsSum(txs: seq<Tx>)
    ensures Total(txs) == GasOf(txs)
    decreases |txs|
  {
    if |txs| == 1 {
      assert txs[..0] == [] && txs[1..] == [];
    } else if txs != [] {
      var front, rest := txs[..|txs| - 1], txs[1..];
      assert front[1..] == rest[..|rest| - 1] && front[0] == txs[0] && rest[|rest| - 1] == txs[|txs| - 1];
      TotalIsSum(front);
      TotalIsSum(rest);
      TotalIsSum(front[1..]);
      assert GasOf(front) == txs[0].gasWei + GasOf(front[1..]);
      assert Total(rest) == Total(rest[..|rest| - 1]) + txs[|txs| - 1].gasWei;
    }
  }

  /** The most a transaction can cost as signed: fixed limits at 20 percent over the network price, or what the SDK proposed. */
  function SignedCost(p: Phase, s: Surroundings): int {
    match p
    case WrapBnb => 50000 * (s.networkPrice(p) * 12 / 10)
    case ApproveWbnb => 90000 * (s.networkPrice(p) * 12 / 10)
    case SwapForU => 350000 * (s.networkPrice(p) * 12 / 10)
    case _ => s.sdkGas(p) * s.sdkPrice(p)
  }

  /** The price is within the approved ceiling, and even at its most expensive the transaction fits what is left of the
      approved gas after `before`. */
  ghost predicate WithinGas(p: Phase, before: seq<Tx>, a: Approval, s: Surroundings) {
    && s.networkPrice(p) * 12 / 10 <= a.priceCeiling
    && (p in {WrapBnb, ApproveWbnb, SwapForU} || (0 < s.sdkGas(p) && 0 < s.sdkPrice(p) <= a.priceCeiling))
    && GasOf(before) + SignedCost(p, s) <= a.gasCap
  }

  // ---- the plan ----

  /** What must hold in the surroundings for this transaction to go out. */
  ghost predicate Allowed(p: Phase, a: Approval, s: Surroundings) {
    match p
    case WrapBnb => s.balance < a.acceptedPrice && a.swapAllowed && s.swapChecks && s.needsWrap
    case ApproveWbnb => s.balance < a.acceptedPrice && a.swapAllowed && s.swapChecks && s.wbnbAllowanceKnown && s.needsWbnbApproval
    case SwapForU => s.balance < a.acceptedPrice && a.swapAllowed && s.swapChecks && s.wbnbAllowanceKnown
    case CreateJob => s.balance >= a.acceptedPrice || (a.swapAllowed && s.swapChecks && s.balanceAfterSwap >= a.acceptedPrice)
    case RegisterJob => s.jobMatches && s.quoteOpen
    case SetBudget => s.jobMatches && s.quoteOpen
    case ApprovePayment => s.jobMatches && s.quoteOpen && s.allowance == 0
    case FundJob =>
      && s.jobMatches && s.quoteOpen && s.fundingWindow
      && (s.allowance == 0 || s.allowance == a.acceptedPrice) && s.allowanceAfter == a.acceptedPrice
  }

  /** The job the checkpoint knows. */
  function KnownJob(c: Checkpoint, chain: Chain): Option<Job> {
    match c.jobId
    case None => None
    case Some(id) => if id < |chain.jobs| then Some(chain.jobs[id]) else None
  }

  function If(b: bool, p: Phase): seq<Phase> {
    if b then [p] else []
  }

  /** The payment token is short, and the job is not funded yet. */
  predicate Short(job: Option<Job>, a: Approval, s: Surroundings) {
    s.balance < a.acceptedPrice && !(s.resume && job.Some? && job.value.status in {Funded, Submitted, Completed})
  }

  function SwapPlan(a: Approval, s: Surroundings): seq<Phase> {
    If(s.needsWrap, WrapBnb) + If(s.needsWbnbApproval, ApproveWbnb) + [SwapForU]
  }

  function FundingPlan(job: Job, s: Surroundings): seq<Phase> {
    If(job.policy == Unbound, RegisterJob) + If(job.budget == 0, SetBudget) + If(s.allowance == 0, ApprovePayment) + [FundJob]
  }

  /** The transactions of one attempt: the swap if the token is short, the job if there is none, and what an open job lacks. */
  function Plan(c: Checkpoint, chain: Chain, a: Approval, s: Surroundings): seq<Phase> {
    var known := KnownJob(c, chain);
    var job := if known.Some? then known.value else Job(Open, Unbound, 0);
    (if Short(known, a, s) then SwapPlan(a, s) else [])
    + (if c.jobId.None? then [CreateJob] else [])
    + (if job.status == Open then FundingPlan(job, s) else [])
  }

  // ---- following a plan ----

  ghost predicate Confirms(p: Phase, a: Approval, s: Surroundings) {
    s.receipts(p).success && s.receipts(p).observed && s.receipts(p).effectivePrice <= a.priceCeiling
  }

  ghost predicate Swapped(txs: seq<Tx>) {
    exists i :: 0 <= i < |txs| && txs[i].phase == SwapForU
  }

  /** One transaction after `before`: allowed, within the gas, and no part of a second swap. */
  ghost predicate Proper(tx: Tx, p: Phase, before: seq<Tx>, a: Approval, s: Surroundings) {
    && tx == Tx(p, s.receipts(p).gasUsed * s.receipts(p).effectivePrice)
    && Allowed(p, a, s) && WithinGas(p, before, a, s)
    && (p in {WrapBnb, ApproveWbnb, SwapForU} ==> !Swapped(before))
  }

  /** `added` are the transactions of the plan up to some point: each was proper, and a further one only follows, or the
      process only still runs at the end of the plan, when the ones before are confirmed. */
  ghost predicate Orderly(added: seq<Tx>, plan: seq<Phase>, recorded: seq<Tx>, alive: bool, a: Approval, s: Surroundings) {
    && |added| <= |plan|
    && (forall i :: 0 <= i < |added| ==> Proper(added[i], plan[i], recorded + added[..i], a, s))
    && (forall i :: 0 <= i < |added| && (alive || i < |added| - 1) ==> Confirms(plan[i], a, s))
    && (alive ==> |added| == |plan|)
  }

  ghost predicate Follows(w: World, v: World, plan: seq<Phase>, a: Approval, s: Surroundings) {
    && w.chain.mined <= v.chain.mined
    && var added := v.chain.mined[|w.chain.mined|..];
       && Orderly(added, plan, w.memory.transactions, v.alive, a, s)
       && (v.alive ==> w.alive && v.memory.transactions == w.memory.transactions + added)
       && (added != [] ==> w.alive)
  }

  lemma NothingFollows(w: World, v: World, a: Approval, s: Surroundings)
    requires v.chain.mined == w.chain.mined && (v.alive ==> w.alive && v.memory.transactions == w.memory.transactions)
    ensures Follows(w, v, [], a, s)
  {
    assert v.chain.mined[|w.chain.mined|..] == [];
  }

  lemma StoppedFollows(w: World, v: World, plan: seq<Phase>, a: Approval, s: Surroundings)
    requires v.chain.mined == w.chain.mined && !v.alive
    ensures Follows(w, v, plan, a, s)
  {
    assert v.chain.mined[|w.chain.mined|..] == [];
  }

  lemma OneFollows(w: World, v: World, p: Phase, cost: nat, a: Approval, s: Surroundings)
    requires w.alive && v.chain.mined == w.chain.mined + [Tx(p, cost)]
    requires Proper(Tx(p, cost), p, w.memory.transactions, a, s)
    requires v.alive ==> Confirms(p, a, s) && v.memory.transactions == w.memory.transactions + [Tx(p, cost)]
    ensures Follows(w, v, [p], a, s)
  {
    var added := v.chain.mined[|w.chain.mined|..];
    assert added == [Tx(p, cost)];
    assert w.memory.transactions + added[..0] == w.memory.transactions;
  }

  lemma OrderlyBoth(
      x: seq<Tx>, y: seq<Tx>, first: seq<Phase>, second: seq<Phase>, recorded: seq<Tx>, alive: bool, a: Approval, s: Surroundings)
    requires Orderly(x, first, recorded, true, a, s) && Orderly(y, second, recorded + x, alive, a, s)
    ensures Orderly(x + y, first + second, recorded, alive, a, s)
  {
    var both, plan := x + y, first + second;
    forall i | 0 <= i < |both|
      ensures Proper(both[i], plan[i], recorded + both[..i], a, s) && (alive || i < |both| - 1 ==> Confirms(plan[i], a, s))
    {
      if i < |x| {
        assert both[..i] == x[..i];
      } else {
        assert recorded + both[..i] == recorded + x + y[..i - |x|];
        assert plan[i] == second[i - |x|] && both[i] == y[i - |x|];
      }
    }
  }

  lemma OrderlyCut(added: seq<Tx>, first: seq<Phase>, second: seq<Phase>, recorded: seq<Tx>, a: Approval, s: Surroundings)
    requires Orderly(added, first, recorded, false, a, s)
    ensures Orderly(added, first + second, recorded, false, a, s)
  {
  }

  lemma Suffixes(a: seq<Tx>, b: seq<Tx>, c: seq<Tx>)
    requires a <= b <= c
    ensures a <= c && c[|a|..] == b[|a|..] + c[|b|..]
  {
  }

  lemma FollowsAlive(w: World, v: World, x: World, first: seq<Phase>, second: seq<Phase>, a: Approval, s: Surroundings)
    requires Follows(w, v, first, a, s) && Follows(v, x, second, a, s) && v.alive
    ensures Follows(w, x, first + second, a, s)
  {
    var one, two := v.chain.mined[|w.chain.mined|..], x.chain.mined[|v.chain.mined|..];
    Suffixes(w.chain.mined, v.chain.mined, x.chain.mined);
    OrderlyBoth(one, two, first, second, w.memory.transactions, x.alive, a, s);
    assert w.memory.transactions + one + two == w.memory.transactions + (one + two);
  }

  lemma FollowsBoth(w: World, v: World, x: World, first: seq<Phase>, second: seq<Phase>, a: Approval, s: Surroundings)
    requires Follows(w, v, first, a, s) && Follows(v, x, second, a, s)
    ensures Follows(w, x, first + second, a, s)
  {
    if v.alive {
      FollowsAlive(w, v, x, first, second, a, s);
    } else {
      var one := v.chain.mined[|w.chain.mined|..];
      assert x.chain.mined[|v.chain.mined|..] == [];
      assert x.chain.mined == v.chain.mined;
      OrderlyCut(one, first, second, w.memory.transactions, a, s);
    }
  }

  // ---- one transaction ----

  /** A transaction was not sent and the process stopped, or it was sent; if the process goes on, it is confirmed. */
  ghost predicate Sends(w: World, v: World, p: Phase, a: Approval, s: Surroundings) {
    && Follows(w, v, [p], a, s)
    && (v.chain == w.chain || v.chain == Mine(w.chain, a, p, s.receipts(p)))
    && (v.alive ==> v.chain == Mine(w.chain, a, p, s.receipts(p)) && Confirms(p, a, s) && v.memory.jobId == w.memory.jobId)
    && (v.chain.mined != w.chain.mined ==> v.chain == Mine(w.chain, a, p, s.receipts(p)))
  }

  /** Either the process has stopped with nothing sent, or the transaction went out within its limits. */
  ghost predicate Went(w: World, v: World, p: Phase, a: Approval, s: Surroundings) {
    if |v.chain.mined| == |w.chain.mined| then v.chain == w.chain && !v.alive
    else
      && w.alive && v.chain == Mine(w.chain, a, p, s.receipts(p)) && WithinGas(p, w.memory.transactions, a, s)
      && (v.alive ==> Confirms(p, a, s) && v.memory.jobId == w.memory.jobId
                      && v.memory.transactions == w.memory.transactions + [Tx(p, s.receipts(p).gasUsed * s.receipts(p).effectivePrice)])
  }

  /** A phase that may be signed goes out, and one that may not stops the process before anything is sent; what passes the
      first checks leaves its mark on disk before it is signed. A phase that went out is recorded exactly if its receipt is
      seen, is a success, and keeps within the price ceiling and the gas cap. */
  ghost predicate PhaseExact(w: World, v: World, p: Phase, a: Approval, s: Surroundings, checked: bool, signed: bool) {
    var r := s.receipts(p);
    var recorded := w.memory.transactions + [Tx(p, r.gasUsed * r.effectivePrice)];
    && v.chain == (if signed && w.effects >= 2 then Mine(w.chain, a, p, r) else w.chain)
    && (v.alive <==> signed && w.effects >= 3 && Confirms(p, a, s) && GasOf(recorded) <= a.gasCap)
    && (v.alive ==>
          && v.memory == Checkpoint(Confirmed(p), None, w.memory.jobId, recorded)
          && v.disk == Some(v.memory) && v.effects == w.effects - 3)
    && (!v.alive ==>
          v.disk == if checked && w.effects >= 1 then Some(Checkpoint(Pending(p), Some(p), w.memory.jobId, w.memory.transactions))
                    else w.disk)
  }

  lemma SettledExact(w: World, a: Approval, p: Phase, r: Receipt)
    requires w.alive
    ensures var v := Settle(Send(w, a, p, r), a, p, r);
            && v.chain == (if w.effects >= 1 then Mine(w.chain, a, p, r) else w.chain)
            && (!v.alive ==> v.disk == w.disk)
            && (v.alive <==> w.effects >= 2 && r.success && r.observed && r.effectivePrice <= a.priceCeiling
                             && GasOf(w.memory.transactions + [Tx(p, r.gasUsed * r.effectivePrice)]) <= a.gasCap)
            && (v.alive ==>
                  && v.memory == Checkpoint(Confirmed(p), None, w.memory.jobId,
                                            w.memory.transactions + [Tx(p, r.gasUsed * r.effectivePrice)])
                  && v.disk == Some(v.memory) && v.effects == w.effects - 2)
  {
    TotalIsSum(w.memory.transactions + [Tx(p, r.gasUsed * r.effectivePrice)]);
  }

  lemma MarkedExact(w: World, p: Phase)
    requires w.alive
    ensures var v := MarkPending(w, p);
            && v.chain == w.chain && (v.alive <==> w.effects >= 1)
            && v.disk == (if v.alive then Some(v.memory) else w.disk)
            && (v.alive ==>
                  && v.memory == Checkpoint(Pending(p), Some(p), w.memory.jobId, w.memory.transactions)
                  && v.effects == w.effects - 1)
  {
  }

  /** A phase through the SDK, exactly. */
  lemma SdkPhaseExact(w: World, a: Approval, s: Surroundings, p: Phase)
    requires w.alive
    ensures var checked := s.networkPrice(p) * 12 / 10 <= a.priceCeiling && GasOf(w.memory.transactions) < a.gasCap;
            PhaseExact(w, RunTx(w, a, s, p), p, a, s, checked,
              && checked && s.sdkGas(p) > 0 && 0 < s.sdkPrice(p) <= a.priceCeiling
              && GasOf(w.memory.transactions) + s.sdkGas(p) * s.sdkPrice(p) <= a.gasCap)
  {
    TotalIsSum(w.memory.transactions);
    MarkedExact(w, p);
    var v := MarkPending(w, p);
    if v.alive { SettledExact(v, a, p, s.receipts(p)); }
  }

  /** A directly sent phase, exactly. */
  lemma DirectPhaseExact(w: World, a: Approval, s: Surroundings, p: Phase)
    requires w.alive && p in {WrapBnb, ApproveWbnb, SwapForU}
    ensures var allowed := WithinGas(p, w.memory.transactions, a, s);
            PhaseExact(w, RunWalletTx(w, a, s, p), p, a, s, allowed, allowed)
  {
    DirectAllowsExactly(w, a, s, p);
    MarkedExact(w, p);
    var v := MarkPending(w, p);
    if v.alive { SettledExact(v, a, p, s.receipts(p)); }
  }

  lemma DirectAllowsExactly(w: World, a: Approval, s: Surroundings, p: Phase)
    requires p in {WrapBnb, ApproveWbnb, SwapForU}
    ensures DirectAllows(w, a, s, p) <==> WithinGas(p, w.memory.transactions, a, s)
  {
    TotalIsSum(w.memory.transactions);
  }

  lemma ExactWent(w: World, v: World, p: Phase, a: Approval, s: Surroundings, checked: bool, signed: bool)
    requires w.alive && PhaseExact(w, v, p, a, s, checked, signed) && (signed ==> WithinGas(p, w.memory.transactions, a, s))
    ensures Went(w, v, p, a, s)
  {
    assert |Mine(w.chain, a, p, s.receipts(p)).mined| == |w.chain.mined| + 1;
  }

  lemma SdkPhaseWent(w: World, a: Approval, s: Surroundings, p: Phase)
    requires p !in {WrapBnb, ApproveWbnb, SwapForU}
    ensures Went(w, RunTx(w, a, s, p), p, a, s)
  {
    if w.alive {
      SdkPhaseExact(w, a, s, p);
      var checked := s.networkPrice(p) * 12 / 10 <= a.priceCeiling && GasOf(w.memory.transactions) < a.gasCap;
      ExactWent(w, RunTx(w, a, s, p), p, a, s, checked,
                && checked && s.sdkGas(p) > 0 && 0 < s.sdkPrice(p) <= a.priceCeiling
                && GasOf(w.memory.transactions) + s.sdkGas(p) * s.sdkPrice(p) <= a.gasCap);
    }
  }

  lemma DirectPhaseWent(w: World, a: Approval, s: Surroundings, p: Phase)
    requires p in {WrapBnb, ApproveWbnb, SwapForU}
    ensures Went(w, RunWalletTx(w, a, s, p), p, a, s)
  {
    if w.alive {
      DirectPhaseExact(w, a, s, p);
      var allowed := WithinGas(p, w.memory.transactions, a, s);
      ExactWent(w, RunWalletTx(w, a, s, p), p, a, s, allowed, allowed);
    }
  }

  lemma WentSends(w: World, v: World, p: Phase, a: Approval, s: Surroundings)
    requires Went(w, v, p, a, s) && Allowed(p, a, s)
    requires w.alive && p in {WrapBnb, ApproveWbnb, SwapForU} ==> !Swapped(w.memory.transactions)
    ensures Sends(w, v, p, a, s)
  {
    if |v.chain.mined| == |w.chain.mined| {
      StoppedFollows(w, v, [p], a, s);
    } else {
      OneFollows(w, v, p, Cost(s.receipts(p)), a, s);
    }
  }

  lemma SdkPhaseSends(w: World, a: Approval, s: Surroundings, p: Phase)
    requires Allowed(p, a, s) && p !in {WrapBnb, ApproveWbnb, SwapForU}
    ensures Sends(w, RunTx(w, a, s, p), p, a, s)
  {
    SdkPhaseWent(w, a, s, p);
    WentSends(w, RunTx(w, a, s, p), p, a, s);
  }

  // ---- the swap ----

  ghost predicate SameJobs(w: World, v: World) {
    v.chain.jobs == w.chain.jobs && (v.alive ==> v.memory.jobId == w.memory.jobId)
  }

  /** The process has stopped, or no swap has been recorded. */
  ghost predicate MaySwapOnce(w: World) {
    w.alive ==> !Swapped(w.memory.transactions)
  }

  lemma SwapPhaseSends(w: World, a: Approval, s: Surroundings, p: Phase)
    requires Allowed(p, a, s) && p in {WrapBnb, ApproveWbnb, SwapForU} && MaySwapOnce(w)
    ensures var v := RunWalletTx(w, a, s, p); Follows(w, v, [p], a, s) && SameJobs(w, v) && (p != SwapForU ==> MaySwapOnce(v))
  {
    DirectPhaseWent(w, a, s, p);
    WentSends(w, RunWalletTx(w, a, s, p), p, a, s);
    if w.chain.jobs != [] {
      assert w.chain.jobs[|w.chain.jobs| - 1 := w.chain.jobs[|w.chain.jobs| - 1]] == w.chain.jobs;
    }
  }

  ghost predicate MaySwapNow(a: Approval, s: Surroundings) {
    s.balance < a.acceptedPrice && a.swapAllowed && s.swapChecks
  }

  lemma WrapFollows(w: World, a: Approval, s: Surroundings)
    requires MaySwapNow(a, s) && MaySwapOnce(w)
    ensures var v := Wrap(w, a, s); Follows(w, v, If(s.needsWrap, WrapBnb), a, s) && SameJobs(w, v) && MaySwapOnce(v)
  {
    if s.needsWrap { SwapPhaseSends(w, a, s, WrapBnb); } else { NothingFollows(w, w, a, s); }
  }

  lemma ApproveRouterFollows(w: World, a: Approval, s: Surroundings)
    requires MaySwapNow(a, s) && MaySwapOnce(w)
    ensures var v := ApproveRouter(w, a, s);
            && Follows(w, v, If(s.needsWbnbApproval, ApproveWbnb), a, s) && SameJobs(w, v) && MaySwapOnce(v)
            && (v.alive ==> s.wbnbAllowanceKnown)
  {
    if !s.wbnbAllowanceKnown {
      StoppedFollows(w, Stop(w), If(s.needsWbnbApproval, ApproveWbnb), a, s);
    } else if s.needsWbnbApproval {
      SwapPhaseSends(w, a, s, ApproveWbnb);
    } else {
      NothingFollows(w, w, a, s);
    }
  }

  lemma SwapFollows(w: World, a: Approval, s: Surroundings)
    requires MaySwapNow(a, s) && (w.alive ==> s.wbnbAllowanceKnown) && MaySwapOnce(w)
    ensures Follows(w, RunWalletTx(w, a, s, SwapForU), [SwapForU], a, s) && SameJobs(w, RunWalletTx(w, a, s, SwapForU))
  {
    if w.alive { SwapPhaseSends(w, a, s, SwapForU); } else { StoppedFollows(w, w, [SwapForU], a, s); }
  }

  lemma SwapPlanFollows(w: World, a: Approval, s: Surroundings)
    requires MaySwapNow(a, s) && MaySwapOnce(w)
    ensures var v := RunWalletTx(ApproveRouter(Wrap(w, a, s), a, s), a, s, SwapForU);
            Follows(w, v, SwapPlan(a, s), a, s) && SameJobs(w, v)
  {
    var x := Wrap(w, a, s);
    var y := ApproveRouter(x, a, s);
    var v := RunWalletTx(y, a, s, SwapForU);
    WrapFollows(w, a, s);
    ApproveRouterFollows(x, a, s);
    SwapFollows(y, a, s);
    FollowsBoth(w, x, y, If(s.needsWrap, WrapBnb), If(s.needsWbnbApproval, ApproveWbnb), a, s);
    FollowsBoth(w, y, v, If(s.needsWrap, WrapBnb) + If(s.needsWbnbApproval, ApproveWbnb), [SwapForU], a, s);
  }

  lemma StopFollows(w: World, v: World, plan: seq<Phase>, a: Approval, s: Surroundings)
    requires Follows(w, v, plan, a, s)
    ensures Follows(w, v.(alive := false), plan, a, s)
  {
  }

  lemma AcquireFollows(w: World, a: Approval, s: Surroundings)
    ensures var v, short := Acquire(w, a, s), Short(JobOf(w), a, s);
            && Follows(w, v, if short then SwapPlan(a, s) else [], a, s) && SameJobs(w, v)
            && (v.alive && short ==> a.swapAllowed && s.swapChecks && s.balanceAfterSwap >= a.acceptedPrice)
  {
    var v := Acquire(w, a, s);
    if !Short(JobOf(w), a, s) {
      NothingFollows(w, v, a, s);
    } else if !w.alive || Has(w.memory.transactions, SwapForU) || !a.swapAllowed || !s.swapChecks {
      StoppedFollows(w, v, SwapPlan(a, s), a, s);
    } else {
      SwapPlanFollows(w, a, s);
      StopFollows(w, RunWalletTx(ApproveRouter(Wrap(w, a, s), a, s), a, s, SwapForU), SwapPlan(a, s), a, s);
    }
  }

  // ---- the job ----

  /** The checkpoint knows the latest job, and it is this one. */
  ghost predicate AtJob(w: World, job: Job) {
    && w.chain.jobs != [] && w.memory.jobId == Some(|w.chain.jobs| - 1)
    && w.chain.jobs[|w.chain.jobs| - 1] == job
  }

  /** The latest job is bound and priced as this transaction needs it. */
  ghost predicate Ready(jobs: seq<Job>, p: Phase, a: Approval) {
    && (p in {SetBudget, ApprovePayment, FundJob} ==> jobs != [] && jobs[|jobs| - 1].policy == ApprovedPolicy)
    && (p in {ApprovePayment, FundJob} ==> jobs != [] && jobs[|jobs| - 1].budget == a.acceptedPrice)
  }

  /** Every transaction from `w` to `v` found, or left, the job as it needs it. */
  ghost predicate ReadyFor(w: World, v: World, a: Approval) {
    forall i :: |w.chain.mined| <= i < |v.chain.mined| ==> Ready(v.chain.jobs, v.chain.mined[i].phase, a)
  }

  /** What a job once has it keeps. */
  ghost predicate KeepsJob(w: World, v: World, a: Approval) {
    w.chain.jobs != [] ==>
      && v.chain.jobs != []
      && var before, after := w.chain.jobs[|w.chain.jobs| - 1], v.chain.jobs[|v.chain.jobs| - 1];
         && (before.policy == ApprovedPolicy ==> after.policy == ApprovedPolicy)
         && (before.budget == a.acceptedPrice ==> after.budget == a.acceptedPrice)
  }

  ghost predicate Advances(w: World, v: World, plan: seq<Phase>, a: Approval, s: Surroundings) {
    Follows(w, v, plan, a, s) && ReadyFor(w, v, a) && KeepsJob(w, v, a)
  }

  lemma AdvancesBoth(w: World, v: World, x: World, first: seq<Phase>, second: seq<Phase>, a: Approval, s: Surroundings)
    requires Advances(w, v, first, a, s) && Advances(v, x, second, a, s)
    ensures Advances(w, x, first + second, a, s)
  {
    FollowsBoth(w, v, x, first, second, a, s);
    forall i | |w.chain.mined| <= i < |x.chain.mined| ensures Ready(x.chain.jobs, x.chain.mined[i].phase, a) {
      if i < |v.chain.mined| {
        assert x.chain.mined[i] == v.chain.mined[i];
        assert Ready(v.chain.jobs, v.chain.mined[i].phase, a);
      }
    }
  }

  lemma StoppedAdvances(w: World, v: World, plan: seq<Phase>, a: Approval, s: Surroundings)
    requires v.chain == w.chain && !v.alive
    ensures Advances(w, v, plan, a, s)
  {
    StoppedFollows(w, v, plan, a, s);
  }

  lemma NothingAdvances(w: World, a: Approval, s: Surroundings)
    ensures Advances(w, w, [], a, s)
  {
    NothingFollows(w, w, a, s);
  }

  function JobAfter(p: Phase, job: Job, a: Approval): Job {
    match p
    case RegisterJob => job.(policy := ApprovedPolicy)
    case SetBudget => job.(budget := a.acceptedPrice)
    case FundJob => job.(status := Funded)
    case _ => job
  }

  lemma MinedOnJob(w: World, chain: Chain, a: Approval, p: Phase, r: Receipt, job: Job)
    requires AtJob(w, job) && chain == Mine(w.chain, a, p, r) && p in {RegisterJob, SetBudget, ApprovePayment, FundJob}
    ensures |chain.jobs| == |w.chain.jobs| && chain.mined == w.chain.mined + [Tx(p, Cost(r))]
    ensures chain.jobs[|chain.jobs| - 1] == if r.success then JobAfter(p, job, a) else job
  {
  }

  /** A transaction for a job that is ready for it. */
  lemma JobPhaseAdvances(w: World, a: Approval, s: Surroundings, p: Phase, job: Job)
    requires Allowed(p, a, s) && p in {RegisterJob, SetBudget, ApprovePayment, FundJob}
    requires w.alive ==> AtJob(w, job) && Ready(w.chain.jobs, p, a)
    ensures var v := RunTx(w, a, s, p); Advances(w, v, [p], a, s) && (v.alive ==> AtJob(v, JobAfter(p, job, a)))
  {
    var v := RunTx(w, a, s, p);
    SdkPhaseSends(w, a, s, p);
    SentAdvances(w, v, a, s, p, job);
  }

  lemma SentAdvances(w: World, v: World, a: Approval, s: Surroundings, p: Phase, job: Job)
    requires Sends(w, v, p, a, s) && p in {RegisterJob, SetBudget, ApprovePayment, FundJob}
    requires w.alive ==> AtJob(w, job) && Ready(w.chain.jobs, p, a)
    ensures Advances(w, v, [p], a, s) && (v.alive ==> AtJob(v, JobAfter(p, job, a)))
  {
    if |v.chain.mined| == |w.chain.mined| {
      assert v.chain == w.chain by {
        assert |Mine(w.chain, a, p, s.receipts(p)).mined| == |w.chain.mined| + 1;
      }
    } else {
      assert v.chain.mined[|w.chain.mined|..] != [];
      MinedOnJob(w, v.chain, a, p, s.receipts(p), job);
    }
  }

  // ---- the job's transactions ----

  lemma CreateFollows(w: World, a: Approval, s: Surroundings, id: Option<nat>, job: Job)
    requires w.alive ==> w.memory.jobId == id && if id.None? then Allowed(CreateJob, a, s) else AtJob(w, job)
    ensures var v := Create(w, a, s);
            && Follows(w, v, if id.None? then [CreateJob] else [], a, s)
            && (v.alive ==> AtJob(v, if id.None? then Job(Open, Unbound, 0) else job))
  {
    var v := Create(w, a, s);
    if !w.alive {
      StoppedFollows(w, v, if id.None? then [CreateJob] else [], a, s);
    } else if id.None? {
      SdkPhaseSends(w, a, s, CreateJob);
      var x := RunTx(w, a, s, CreateJob);
      assert v.chain == x.chain && (v.alive ==> x.alive && v.memory.transactions == x.memory.transactions);
    } else {
      NothingFollows(w, v, a, s);
    }
  }

  lemma RegisterAdvances(w: World, a: Approval, s: Surroundings, job: Job)
    requires (w.alive ==> AtJob(w, job)) && s.jobMatches && s.quoteOpen
    ensures var v := Register(w, a, s);
            && Advances(w, v, If(job.policy == Unbound, RegisterJob), a, s)
            && (v.alive ==> AtJob(v, job.(policy := ApprovedPolicy)))
  {
    if !w.alive || job.policy == OtherPolicy {
      StoppedAdvances(w, Register(w, a, s), If(job.policy == Unbound, RegisterJob), a, s);
    } else if job.policy == Unbound {
      JobPhaseAdvances(w, a, s, RegisterJob, job);
    } else {
      NothingAdvances(w, a, s);
    }
  }

  lemma BudgetAdvances(w: World, a: Approval, s: Surroundings, job: Job)
    requires (w.alive ==> AtJob(w, job)) && job.policy == ApprovedPolicy && s.jobMatches && s.quoteOpen
    ensures var v := Budget(w, a, s);
            && Advances(w, v, If(job.budget == 0, SetBudget), a, s)
            && (v.alive ==> AtJob(v, job.(budget := a.acceptedPrice)))
  {
    if !w.alive || (job.budget != 0 && job.budget != a.acceptedPrice) {
      StoppedAdvances(w, Budget(w, a, s), If(job.budget == 0, SetBudget), a, s);
    } else if job.budget == 0 {
      JobPhaseAdvances(w, a, s, SetBudget, job);
    } else {
      NothingAdvances(w, a, s);
    }
  }

  lemma AllowAdvances(w: World, a: Approval, s: Surroundings, job: Job)
    requires (w.alive ==> AtJob(w, job)) && job.policy == ApprovedPolicy && job.budget == a.acceptedPrice
    requires s.jobMatches && s.quoteOpen
    ensures var v := Allow(w, a, s);
            && Advances(w, v, If(s.allowance == 0, ApprovePayment), a, s)
            && (v.alive ==> AtJob(v, job) && Allowed(FundJob, a, s))
  {
    var plan := If(s.allowance == 0, ApprovePayment);
    var v := Allow(w, a, s);
    if !w.alive || (s.allowance != 0 && s.allowance != a.acceptedPrice) {
      StoppedAdvances(w, v, plan, a, s);
    } else if s.allowance == 0 {
      JobPhaseAdvances(w, a, s, ApprovePayment, job);
      StopFollows(w, RunTx(w, a, s, ApprovePayment), plan, a, s);
    } else if s.allowanceAfter != a.acceptedPrice || !s.fundingWindow {
      StoppedAdvances(w, v, plan, a, s);
    } else {
      NothingAdvances(w, a, s);
    }
  }

  lemma LastAdvances(w: World, a: Approval, s: Surroundings, job: Job)
    requires w.alive ==> AtJob(w, job) && Allowed(FundJob, a, s)
    requires job.policy == ApprovedPolicy && job.budget == a.acceptedPrice
    ensures Advances(w, RunTx(w, a, s, FundJob), [FundJob], a, s)
  {
    if w.alive { JobPhaseAdvances(w, a, s, FundJob, job); } else { StoppedAdvances(w, w, [FundJob], a, s); }
  }

  lemma PayAdvances(w: World, a: Approval, s: Surroundings, job: Job)
    requires (w.alive ==> AtJob(w, job)) && job.policy == ApprovedPolicy && job.budget == a.acceptedPrice
    requires s.jobMatches && s.quoteOpen
    ensures Advances(w, RunTx(Allow(w, a, s), a, s, FundJob), If(s.allowance == 0, ApprovePayment) + [FundJob], a, s)
  {
    AllowAdvances(w, a, s, job);
    LastAdvances(Allow(w, a, s), a, s, job);
    AdvancesBoth(w, Allow(w, a, s), RunTx(Allow(w, a, s), a, s, FundJob), If(s.allowance == 0, ApprovePayment), [FundJob], a, s);
  }

  lemma PrepareAdvances(w: World, a: Approval, s: Surroundings, job: Job)
    requires (w.alive ==> AtJob(w, job)) && s.jobMatches && s.quoteOpen
    ensures var v := Budget(Register(w, a, s), a, s);
            && Advances(w, v, If(job.policy == Unbound, RegisterJob) + If(job.budget == 0, SetBudget), a, s)
            && (v.alive ==> AtJob(v, Job(job.status, ApprovedPolicy, a.acceptedPrice)))
  {
    var x := Register(w, a, s);
    RegisterAdvances(w, a, s, job);
    BudgetAdvances(x, a, s, job.(policy := ApprovedPolicy));
    AdvancesBoth(w, x, Budget(x, a, s), If(job.policy == Unbound, RegisterJob), If(job.budget == 0, SetBudget), a, s);
  }

  lemma OpenAdvances(w: World, a: Approval, s: Surroundings, job: Job)
    requires (w.alive ==> AtJob(w, job)) && s.jobMatches && s.quoteOpen
    ensures Advances(w, RunTx(Allow(Budget(Register(w, a, s), a, s), a, s), a, s, FundJob), FundingPlan(job, s), a, s)
  {
    var y := Budget(Register(w, a, s), a, s);
    PrepareAdvances(w, a, s, job);
    PayAdvances(y, a, s, Job(job.status, ApprovedPolicy, a.acceptedPrice));
    var first := If(job.policy == Unbound, RegisterJob) + If(job.budget == 0, SetBudget);
    var second := If(s.allowance == 0, ApprovePayment) + [FundJob];
    AdvancesBoth(w, y, RunTx(Allow(y, a, s), a, s, FundJob), first, second, a, s);
    assert first + second == FundingPlan(job, s);
  }

  lemma FundAdvances(w: World, a: Approval, s: Surroundings, job: Job)
    requires w.alive ==> AtJob(w, job)
    ensures Advances(w, Fund(w, a, s), if job.status == Open then FundingPlan(job, s) else [], a, s)
    ensures Fund(w, a, s).alive ==> s.jobMatches
  {
    var plan := if job.status == Open then FundingPlan(job, s) else [];
    if !w.alive || !s.jobMatches {
      StoppedAdvances(w, Fund(w, a, s), plan, a, s);
    } else if job.status != Open {
      NothingAdvances(w, a, s);
    } else if !s.quoteOpen {
      StoppedAdvances(w, Fund(w, a, s), plan, a, s);
    } else {
      OpenAdvances(w, a, s, job);
    }
  }

  // ---- the attempt ----

  /** An attempt that sends anything is a first one, or resumes a checkpoint without a pending phase and without a create
      that still lacks its job ID, and whose job is the approved one and not closed. */
  ghost predicate MayStart(disk: Option<Checkpoint>, chain: Chain, s: Surroundings) {
    && s.startChecks
    && if s.resume then
         && disk.Some? && disk.value.pendingPhase.None?
         && if disk.value.jobId.None? then
              && disk.value.state != IdReconciliationRequired
              && forall i :: 0 <= i < |disk.value.transactions| ==> disk.value.transactions[i].phase != CreateJob
            else
              s.jobMatches && KnownJob(disk.value, chain).Some? && KnownJob(disk.value, chain).value.status != Closed
       else disk.None?
  }

  function Initial(disk: Option<Checkpoint>, s: Surroundings): Checkpoint {
    if s.resume && disk.Some? then disk.value else Checkpoint(NotStarted, None, None, [])
  }

  lemma BeginsExactly(disk: Option<Checkpoint>, chain: Chain, s: Surroundings)
    ensures var w := Begin(disk, chain, s);
            && w.chain == chain
            && (w.alive <==> MayStart(disk, chain, s) && (s.resume || s.effects > 0))
            && w.memory == Initial(disk, s)
            && (w.alive ==> w.disk == Some(w.memory) && w.effects == s.effects - (if s.resume then 0 else 1))
  {
  }

  /** The checkpoint's job is the latest one, as `DiskInv` says of every checkpoint file. */
  ghost predicate JobIsLatest(disk: Option<Checkpoint>, chain: Chain) {
    disk.Some? && disk.value.jobId.Some? ==> chain.jobs != [] && disk.value.jobId.value == |chain.jobs| - 1
  }

  lemma PhasesFollow(w: World, v: World, plan: seq<Phase>, a: Approval, s: Surroundings, i: nat)
    requires Follows(w, v, plan, a, s) && |w.chain.mined| <= i < |v.chain.mined|
    ensures v.chain.mined[i].phase in plan
  {
    var added, k := v.chain.mined[|w.chain.mined|..], i - |w.chain.mined|;
    assert added[k] == v.chain.mined[i] && Proper(added[k], plan[k], w.memory.transactions + added[..k], a, s);
  }

  /** The transactions before the funding need no job. */
  lemma EarlyIsReady(w: World, v: World, swap: seq<Phase>, create: seq<Phase>, a: Approval, s: Surroundings)
    requires Follows(w, v, swap + create, a, s) && swap in {[], SwapPlan(a, s)} && create in {[], [CreateJob]}
    ensures ReadyFor(w, v, a)
  {
    forall i | |w.chain.mined| <= i < |v.chain.mined| ensures Ready(v.chain.jobs, v.chain.mined[i].phase, a) {
      PhasesFollow(w, v, swap + create, a, s, i);
    }
  }

  lemma ReadyBoth(w: World, v: World, x: World, plan: seq<Phase>, a: Approval, s: Surroundings)
    requires w.chain.mined <= v.chain.mined && ReadyFor(w, v, a) && Advances(v, x, plan, a, s)
    ensures ReadyFor(w, x, a)
  {
    forall i | |w.chain.mined| <= i < |x.chain.mined| ensures Ready(x.chain.jobs, x.chain.mined[i].phase, a) {
      if i < |v.chain.mined| {
        assert x.chain.mined[i] == v.chain.mined[i];
        assert Ready(v.chain.jobs, v.chain.mined[i].phase, a);
      }
    }
  }

  /** The world before the funding, in three parts: begun, with the token acquired, with a job. */
  lemma CreatedFollows(disk: Option<Checkpoint>, chain: Chain, a: Approval, s: Surroundings, job: Job)
    requires JobIsLatest(disk, chain)
    requires var known := KnownJob(Initial(disk, s), chain); job == if known.Some? then known.value else Job(Open, Unbound, 0)
    ensures var c, w := Initial(disk, s), Begin(disk, chain, s);
            var v := Create(Acquire(w, a, s), a, s);
            && Follows(w, v, (if Short(KnownJob(c, chain), a, s) then SwapPlan(a, s) else [])
                             + (if c.jobId.None? then [CreateJob] else []), a, s)
            && ReadyFor(w, v, a)
            && (v.alive ==> AtJob(v, job))
  {
    var c, w := Initial(disk, s), Begin(disk, chain, s);
    var x := Acquire(w, a, s);
    BeginsExactly(disk, chain, s);
    AcquireFollows(w, a, s);
    assert JobOf(w) == KnownJob(c, chain);
    CreateFollows(x, a, s, c.jobId, job);
    var swap, create := if Short(KnownJob(c, chain), a, s) then SwapPlan(a, s) else [], if c.jobId.None? then [CreateJob] else [];
    FollowsBoth(w, x, Create(x, a, s), swap, create, a, s);
    EarlyIsReady(w, Create(x, a, s), swap, create, a, s);
  }

  lemma FinishStays(w: World, plan: seq<Phase>, start: World, a: Approval, s: Surroundings)
    requires Follows(start, w, plan, a, s) && ReadyFor(start, w, a)
    ensures Follows(start, Finish(w, s), plan, a, s) && ReadyFor(start, Finish(w, s), a)
  {
  }

  /** The job an attempt works on: the one its checkpoint knows, or the one it creates. */
  function WorkedOn(c: Checkpoint, chain: Chain): Job {
    var known := KnownJob(c, chain);
    if known.Some? then known.value else Job(Open, Unbound, 0)
  }

  lemma WholeFollows(disk: Option<Checkpoint>, chain: Chain, a: Approval, s: Surroundings)
    requires JobIsLatest(disk, chain)
    ensures var w, after := Begin(disk, chain, s), Attempt(disk, chain, a, s);
            Follows(w, after, Plan(Initial(disk, s), chain, a, s), a, s) && ReadyFor(w, after, a)
  {
    var c, w := Initial(disk, s), Begin(disk, chain, s);
    var job := WorkedOn(c, chain);
    CreatedFollows(disk, chain, a, s, job);
    var v := Create(Acquire(w, a, s), a, s);
    FundAdvances(v, a, s, job);
    var first := (if Short(KnownJob(c, chain), a, s) then SwapPlan(a, s) else []) + (if c.jobId.None? then [CreateJob] else []);
    var second := if job.status == Open then FundingPlan(job, s) else [];
    FollowsBoth(w, v, Fund(v, a, s), first, second, a, s);
    ReadyBoth(w, v, Fund(v, a, s), second, a, s);
    FinishStays(Fund(v, a, s), first + second, w, a, s);
  }

  /** For any checkpoint and chain, whatever an attempt meets and wherever it stops: the transactions it adds are those of
      its plan up to some point, each allowed, within the gas and after the ones before were confirmed. It adds none unless it
      may start, no part of a swap once one is recorded, and no payment unless the job has the approved policy and the
      accepted price. An attempt that is still running at the end has put its whole plan on chain. */
  lemma AttemptFollowsPlan(disk: Option<Checkpoint>, chain: Chain, a: Approval, s: Surroundings)
    requires JobIsLatest(disk, chain)
    ensures var c, after := Initial(disk, s), Attempt(disk, chain, a, s);
            && chain.mined <= after.chain.mined
            && var added := after.chain.mined[|chain.mined|..];
               && Orderly(added, Plan(c, chain, a, s), c.transactions, after.alive, a, s)
               && (added != [] ==> MayStart(disk, chain, s))
               && forall i :: 0 <= i < |added| ==> Ready(after.chain.jobs, added[i].phase, a)
  {
    BeginsExactly(disk, chain, s);
    WholeFollows(disk, chain, a, s);
    AddedAreReady(Begin(disk, chain, s), Attempt(disk, chain, a, s), a);
  }

  lemma AddedAreReady(w: World, v: World, a: Approval)
    requires w.chain.mined <= v.chain.mined && ReadyFor(w, v, a)
    ensures var added := v.chain.mined[|w.chain.mined|..]; forall i :: 0 <= i < |added| ==> Ready(v.chain.jobs, added[i].phase, a)
  {
    var added := v.chain.mined[|w.chain.mined|..];
    forall i | 0 <= i < |added| ensures Ready(v.chain.jobs, added[i].phase, a) {
      assert added[i] == v.chain.mined[|w.chain.mined| + i];
    }
  }

  /** The funded job is verified and everything is recorded. */
  ghost predicate Verified(after: World, c: Checkpoint, chain: Chain, s: Surroundings) {
    && s.finishChecks && s.jobMatches
    && after.disk == Some(after.memory) && after.memory.state == FundedVerified
    && chain.mined <= after.chain.mined
    && after.memory.transactions == c.transactions + after.chain.mined[|chain.mined|..]
    && KnownJob(after.memory, after.chain).Some?
    && KnownJob(after.memory, after.chain).value.status in {Funded, Submitted, Completed}
  }

  lemma FinishVerifies(start: World, w: World, plan: seq<Phase>, a: Approval, s: Surroundings)
    requires Follows(start, Finish(w, s), plan, a, s) && Finish(w, s).alive && s.jobMatches
    ensures Verified(Finish(w, s), start.memory, start.chain, s)
  {
    Finished(w, s);
  }

  /** An attempt that is still running at the end has verified the funded job and recorded everything. */
  lemma CompletionIsVerified(disk: Option<Checkpoint>, chain: Chain, a: Approval, s: Surroundings)
    requires JobIsLatest(disk, chain) && Attempt(disk, chain, a, s).alive
    ensures MayStart(disk, chain, s) && Verified(Attempt(disk, chain, a, s), Initial(disk, s), chain, s)
  {
    BeginsExactly(disk, chain, s);
    WholeFollows(disk, chain, a, s);
    var v := Create(Acquire(Begin(disk, chain, s), a, s), a, s);
    FundedMatches(v, a, s);
    Finished(Fund(v, a, s), s);
    FinishVerifies(Begin(disk, chain, s), Fund(v, a, s), Plan(Initial(disk, s), chain, a, s), a, s);
  }

  lemma Finished(w: World, s: Surroundings)
    requires Finish(w, s).alive
    ensures var v := Finish(w, s);
            && w.alive && s.finishChecks && v.disk == Some(v.memory) && v.memory.state == FundedVerified
            && KnownJob(v.memory, v.chain).Some? && KnownJob(v.memory, v.chain).value.status in {Funded, Submitted, Completed}
  {
  }

  lemma FundedMatches(w: World, a: Approval, s: Surroundings)
    ensures Fund(w, a, s).alive ==> s.jobMatches
  {
  }

  /** Without an approved swap, or with enough of the token, nothing is wrapped, approved for the router or swapped. */
  lemma NoSwapWithoutApproval(disk: Option<Checkpoint>, chain: Chain, a: Approval, s: Surroundings, i: nat)
    requires JobIsLatest(disk, chain) && (!a.swapAllowed || !s.swapChecks || s.balance >= a.acceptedPrice)
    requires |chain.mined| <= i < |Attempt(disk, chain, a, s).chain.mined|
    ensures Attempt(disk, chain, a, s).chain.mined[i].phase !in {WrapBnb, ApproveWbnb, SwapForU}
  {
    AttemptFollowsPlan(disk, chain, a, s);
    var added, k := Attempt(disk, chain, a, s).chain.mined[|chain.mined|..], i - |chain.mined|;
    assert Proper(added[k], Plan(Initial(disk, s), chain, a, s)[k], Initial(disk, s).transactions + added[..k], a, s);
  }

  /** A job is funded only if it was open, is the approved one with the approved policy and exactly the accepted price, and
      the quote is open, the allowance exact and visible, and the funding window not over. */
  lemma FundingIsSound(disk: Option<Checkpoint>, chain: Chain, a: Approval, s: Surroundings, i: nat)
    requires JobIsLatest(disk, chain)
    requires |chain.mined| <= i < |Attempt(disk, chain, a, s).chain.mined|
    requires Attempt(disk, chain, a, s).chain.mined[i].phase == FundJob
    ensures s.jobMatches && s.quoteOpen && s.fundingWindow && s.allowance in {0, a.acceptedPrice} && s.allowanceAfter == a.acceptedPrice
    ensures WorkedOn(Initial(disk, s), chain).status == Open
    ensures var jobs := Attempt(disk, chain, a, s).chain.jobs;
            jobs != [] && jobs[|jobs| - 1].policy == ApprovedPolicy && jobs[|jobs| - 1].budget == a.acceptedPrice
  {
    AttemptFollowsPlan(disk, chain, a, s);
    var after := Attempt(disk, chain, a, s);
    var added, k := after.chain.mined[|chain.mined|..], i - |chain.mined|;
    assert Proper(added[k], Plan(Initial(disk, s), chain, a, s)[k], Initial(disk, s).transactions + added[..k], a, s);
    assert Ready(after.chain.jobs, added[k].phase, a);
    assert FundJob in Plan(Initial(disk, s), chain, a, s);
  }
}
