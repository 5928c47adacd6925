/** An LP activation that is no longer disturbed is completed: from a fresh start or from any checkpoint that may be resumed,
    with or without a swap, one quiet attempt funds the job. */
module LpCompletion {
  import opened Outcomes
  import opened LpActivation

  // ---- a quiet attempt ----

  /** No transaction of this phase can cost more than `m`, and it succeeds. */
  predicate Affordable(s: Surroundings, a: Approval, m: nat, p: Phase) {
    && OfferedPrice(s.networkPrice(p)) <= a.priceCeiling
    && s.receipts(p).success && s.receipts(p).observed
    && if DirectGas(p) > 0 then MaximumCost(DirectGas(p), OfferedPrice(s.networkPrice(p))) <= m
       else s.sdkGas(p) > 0 && 0 < s.sdkPrice(p) <= a.priceCeiling && MaximumCost(s.sdkGas(p), s.sdkPrice(p)) <= m
  }

  /** The swap may be made and brings enough. */
  predicate SwapWorks(s: Surroundings, a: Approval) {
    a.swapAllowed && s.swapChecks && s.wbnbAllowanceKnown && s.balanceAfterSwap >= a.acceptedPrice
  }

  /** Nothing fails, and no transaction can cost more than `m`. */
  ghost predicate Quiet(s: Surroundings, a: Approval, m: nat) {
    && s.startChecks && s.idFound && s.jobMatches && s.quoteOpen && s.fundingWindow && s.finishChecks
    && (s.allowance == 0 || s.allowance == a.acceptedPrice) && s.allowanceAfter == a.acceptedPrice
    && (s.balance >= a.acceptedPrice || SwapWorks(s, a))
    && 0 < m && Honest(s) && forall p :: Affordable(s, a, m, p)
  }

  /** The process runs, everything is on disk, at most `spent` has been paid, and at least `effects` more can happen. */
  ghost predicate Going(w: World, spent: nat, effects: nat) {
    && w.alive && w.effects >= effects && w.disk == Some(w.memory) && w.memory.pendingPhase.None?
    && Total(w.memory.transactions) <= spent
  }

  /** The phase was mined and recorded, at a cost of at most `m`. */
  ghost predicate PhaseDone(w: World, v: World, a: Approval, s: Surroundings, p: Phase) {
    v.memory == ConfirmedCheckpoint(w.memory, p, s.receipts(p)) && v.chain == Mine(w.chain, a, p, s.receipts(p))
  }

  lemma SdkPhaseGoes(w: World, a: Approval, s: Surroundings, p: Phase, m: nat, spent: nat, effects: nat)
    requires Going(w, spent, effects + 3) && Quiet(s, a, m) && DirectGas(p) == 0 && spent + m <= a.gasCap
    ensures var v := RunTx(w, a, s, p); Going(v, spent + m, effects) && PhaseDone(w, v, a, s, p)
  {
    var r := s.receipts(p);
    assert Affordable(s, a, m, p) && Charged(r, s, p);
    CostWithin(r, s.sdkGas(p), s.sdkPrice(p));
    TotalAppend(w.memory.transactions, Tx(p, Cost(r)));
  }

  lemma DirectPhaseGoes(w: World, a: Approval, s: Surroundings, p: Phase, m: nat, spent: nat, effects: nat)
    requires Going(w, spent, effects + 3) && Quiet(s, a, m) && DirectGas(p) > 0 && spent + m <= a.gasCap
    ensures var v := RunWalletTx(w, a, s, p); Going(v, spent + m, effects) && PhaseDone(w, v, a, s, p)
  {
    var r := s.receipts(p);
    assert Affordable(s, a, m, p) && Charged(r, s, p);
    CostWithin(r, DirectGas(p), OfferedPrice(s.networkPrice(p)));
    TotalAppend(w.memory.transactions, Tx(p, Cost(r)));
  }

  // ---- acquiring the payment token ----

  /** Neither the job nor what is known of it has changed. */
  ghost predicate SameJob(w: World, v: World) {
    && v.memory.jobId == w.memory.jobId && v.chain.jobs == w.chain.jobs
    && Has(v.memory.transactions, CreateJob) == Has(w.memory.transactions, CreateJob)
  }

  lemma SwapPhaseGoes(w: World, a: Approval, s: Surroundings, p: Phase, m: nat, spent: nat, effects: nat)
    requires Going(w, spent, effects + 3) && Quiet(s, a, m) && DirectGas(p) > 0 && spent + m <= a.gasCap
    ensures var v := RunWalletTx(w, a, s, p); Going(v, spent + m, effects) && SameJob(w, v)
  {
    DirectPhaseGoes(w, a, s, p, m, spent, effects);
    HasAppend(w.memory.transactions, Tx(p, Cost(s.receipts(p))), CreateJob);
    if w.chain.jobs != [] {
      var last := |w.chain.jobs| - 1;
      assert w.chain.jobs[last := w.chain.jobs[last]] == w.chain.jobs;
    }
  }

  /** No swap is needed, or none has been made. */
  predicate MaySwap(w: World, s: Surroundings, a: Approval) {
    s.balance >= a.acceptedPrice || !Has(w.memory.transactions, SwapForU)
  }

  lemma AcquireGoes(w: World, a: Approval, s: Surroundings, m: nat, spent: nat, effects: nat)
    requires Going(w, spent, effects + 9) && Quiet(s, a, m) && spent + 3 * m <= a.gasCap && MaySwap(w, s, a)
    ensures var v := Acquire(w, a, s); Going(v, spent + 3 * m, effects) && SameJob(w, v)
  {
    if s.balance < a.acceptedPrice && NeedsFunding(w, s) {
      if s.needsWrap { SwapPhaseGoes(w, a, s, WrapBnb, m, spent, effects + 6); }
      var x := Wrap(w, a, s);
      if s.needsWbnbApproval { SwapPhaseGoes(x, a, s, ApproveWbnb, m, spent + m, effects + 3); }
      SwapPhaseGoes(ApproveRouter(x, a, s), a, s, SwapForU, m, spent + 2 * m, effects);
    }
  }

  // ---- creating and funding ----

  /** The checkpoint knows the latest job, and it is this one. */
  ghost predicate OnJob(w: World, job: Job) {
    && w.chain.jobs != [] && w.memory.jobId == Some(|w.chain.jobs| - 1)
    && w.chain.jobs[|w.chain.jobs| - 1] == job
  }

  /** A job the attempt can still bring to funded, or that has been. */
  predicate Fundable(job: Job, a: Approval) {
    if job.status == Open then job.policy != OtherPolicy && job.budget in {0, a.acceptedPrice}
    else job.status in {Funded, Submitted, Completed}
  }

  lemma CreatedJob(chain: Chain, a: Approval, r: Receipt)
    requires r.success
    ensures var next := Mine(chain, a, CreateJob, r);
            next.jobs != [] && next.jobs[|next.jobs| - 1] == Job(Open, Unbound, 0)
  {
  }

  lemma CreateGoes(w: World, a: Approval, s: Surroundings, m: nat, spent: nat, effects: nat)
    requires Going(w, spent, effects + 4) && Quiet(s, a, m) && spent + m <= a.gasCap && w.memory.jobId.None?
    ensures var v := Create(w, a, s); Going(v, spent + m, effects) && OnJob(v, Job(Open, Unbound, 0))
  {
    assert Affordable(s, a, m, CreateJob);
    SdkPhaseGoes(w, a, s, CreateJob, m, spent, effects + 1);
    CreatedJob(w.chain, a, s.receipts(CreateJob));
  }

  /** What a mined phase makes of the job. */
  function Changed(job: Job, a: Approval, p: Phase): Job {
    match p
    case RegisterJob => job.(policy := ApprovedPolicy)
    case SetBudget => job.(budget := a.acceptedPrice)
    case FundJob => job.(status := Funded)
    case _ => job
  }

  lemma MinedJob(chain: Chain, a: Approval, p: Phase, r: Receipt)
    requires r.success && chain.jobs != [] && p != CreateJob
    ensures var next, last := Mine(chain, a, p, r), |chain.jobs| - 1;
            |next.jobs| == |chain.jobs| && next.jobs[last] == Changed(chain.jobs[last], a, p)
  {
  }

  lemma MinedOnJob(w: World, v: World, a: Approval, p: Phase, r: Receipt, job: Job)
    requires OnJob(w, job) && r.success && p != CreateJob
    requires v.memory.jobId == w.memory.jobId && v.chain == Mine(w.chain, a, p, r)
    ensures OnJob(v, Changed(job, a, p))
  {
    MinedJob(w.chain, a, p, r);
  }

  /** A phase on the open job changes it as it should. */
  lemma JobPhaseGoes(w: World, a: Approval, s: Surroundings, p: Phase, job: Job, m: nat, spent: nat, effects: nat)
    requires Going(w, spent, effects + 3) && Quiet(s, a, m) && spent + m <= a.gasCap && OnJob(w, job)
    requires DirectGas(p) == 0 && p != CreateJob
    ensures var v := RunTx(w, a, s, p); Going(v, spent + m, effects) && OnJob(v, Changed(job, a, p))
  {
    assert Affordable(s, a, m, p);
    SdkPhaseGoes(w, a, s, p, m, spent, effects);
    MinedOnJob(w, RunTx(w, a, s, p), a, p, s.receipts(p), job);
  }

  lemma RegisterGoes(w: World, a: Approval, s: Surroundings, job: Job, m: nat, spent: nat, effects: nat)
    requires Going(w, spent, effects + 3) && Quiet(s, a, m) && spent + m <= a.gasCap && OnJob(w, job) && job.policy != OtherPolicy
    ensures var v := Register(w, a, s); Going(v, spent + m, effects) && OnJob(v, job.(policy := ApprovedPolicy))
  {
    if job.policy == Unbound { JobPhaseGoes(w, a, s, RegisterJob, job, m, spent, effects); }
  }

  lemma BudgetGoes(w: World, a: Approval, s: Surroundings, job: Job, m: nat, spent: nat, effects: nat)
    requires Going(w, spent, effects + 3) && Quiet(s, a, m) && spent + m <= a.gasCap && OnJob(w, job)
    requires job.budget in {0, a.acceptedPrice}
    ensures var v := Budget(w, a, s); Going(v, spent + m, effects) && OnJob(v, job.(budget := a.acceptedPrice))
  {
    if job.budget == 0 { JobPhaseGoes(w, a, s, SetBudget, job, m, spent, effects); }
  }

  lemma AllowGoes(w: World, a: Approval, s: Surroundings, job: Job, m: nat, spent: nat, effects: nat)
    requires Going(w, spent, effects + 3) && Quiet(s, a, m) && spent + m <= a.gasCap && OnJob(w, job)
    ensures var v := Allow(w, a, s); Going(v, spent + m, effects) && OnJob(v, job)
  {
    if s.allowance == 0 { JobPhaseGoes(w, a, s, ApprovePayment, job, m, spent, effects); }
  }

  lemma PrepareGoes(w: World, a: Approval, s: Surroundings, job: Job, m: nat, spent: nat, effects: nat)
    requires Going(w, spent, effects + 6) && Quiet(s, a, m) && spent + 2 * m <= a.gasCap && OnJob(w, job)
    requires job.status == Open && job.policy != OtherPolicy && job.budget in {0, a.acceptedPrice}
    ensures var v := Budget(Register(w, a, s), a, s);
            Going(v, spent + 2 * m, effects) && OnJob(v, Job(Open, ApprovedPolicy, a.acceptedPrice))
  {
    RegisterGoes(w, a, s, job, m, spent, effects + 3);
    BudgetGoes(Register(w, a, s), a, s, job.(policy := ApprovedPolicy), m, spent + m, effects);
  }

  lemma FundPhaseGoes(w: World, a: Approval, s: Surroundings, m: nat, spent: nat, effects: nat)
    requires Going(w, spent, effects + 3) && Quiet(s, a, m) && spent + m <= a.gasCap
    requires OnJob(w, Job(Open, ApprovedPolicy, a.acceptedPrice))
    ensures var v := RunTx(w, a, s, FundJob);
            Going(v, spent + m, effects) && OnJob(v, Job(Funded, ApprovedPolicy, a.acceptedPrice))
  {
    JobPhaseGoes(w, a, s, FundJob, Job(Open, ApprovedPolicy, a.acceptedPrice), m, spent, effects);
  }

  lemma PayGoes(w: World, a: Approval, s: Surroundings, m: nat, spent: nat, effects: nat)
    requires Going(w, spent, effects + 6) && Quiet(s, a, m) && spent + 2 * m <= a.gasCap
    requires OnJob(w, Job(Open, ApprovedPolicy, a.acceptedPrice))
    ensures var v := RunTx(Allow(w, a, s), a, s, FundJob);
            Going(v, spent + 2 * m, effects) && OnJob(v, Job(Funded, ApprovedPolicy, a.acceptedPrice))
  {
    AllowGoes(w, a, s, Job(Open, ApprovedPolicy, a.acceptedPrice), m, spent, effects + 3);
    FundPhaseGoes(Allow(w, a, s), a, s, m, spent + m, effects);
  }

  function FundedJob(job: Job, a: Approval): Job {
    if job.status == Open then Job(Funded, ApprovedPolicy, a.acceptedPrice) else job
  }

  lemma FundIs(w: World, a: Approval, s: Surroundings, job: Job, m: nat)
    requires w.alive && Quiet(s, a, m) && OnJob(w, job)
    ensures Fund(w, a, s) ==
              if job.status == Open then RunTx(Allow(Budget(Register(w, a, s), a, s), a, s), a, s, FundJob) else w
  {
  }

  lemma FundGoes(w: World, a: Approval, s: Surroundings, job: Job, m: nat, spent: nat, effects: nat)
    requires Going(w, spent, effects + 12) && Quiet(s, a, m) && spent + 4 * m <= a.gasCap && OnJob(w, job) && Fundable(job, a)
    ensures var v := Fund(w, a, s); Going(v, spent + 4 * m, effects) && OnJob(v, FundedJob(job, a))
  {
    FundIs(w, a, s, job, m);
    if job.status == Open {
      PrepareGoes(w, a, s, job, m, spent, effects + 6);
      PayGoes(Budget(Register(w, a, s), a, s), a, s, m, spent + 2 * m, effects);
    }
  }

  // ---- the whole attempt ----

  /** A checkpoint that the resume rules accept, with its job still of use. */
  ghost predicate Resumable(d: Durable, a: Approval) {
    && d.disk.Some? && d.disk.value.pendingPhase.None?
    && if d.disk.value.jobId.None?
       then d.disk.value.state != IdReconciliationRequired && !Has(d.disk.value.transactions, CreateJob)
       else d.chain.jobs != [] && Fundable(d.chain.jobs[|d.chain.jobs| - 1], a)
  }

  function Spent(d: Durable): nat {
    if d.disk.Some? then Total(d.disk.value.transactions) else 0
  }

  lemma BeginGoes(d: Durable, a: Approval, s: Surroundings, m: nat, effects: nat)
    requires DiskInv(d.disk, d.chain, a) && Quiet(s, a, m) && s.effects >= effects + 1
    requires if s.resume then Resumable(d, a) else d.disk.None?
    ensures var w := Begin(d.disk, d.chain, s);
            && Going(w, Spent(d), effects) && w.chain == d.chain
            && w.memory.jobId == (if s.resume then d.disk.value.jobId else None)
            && w.memory.transactions == (if s.resume then d.disk.value.transactions else [])
            && (w.memory.jobId.Some? ==> OnJob(w, w.chain.jobs[|w.chain.jobs| - 1]))
  {
  }

  lemma FinishGoes(w: World, s: Surroundings, job: Job, spent: nat)
    requires Going(w, spent, 1) && s.finishChecks && OnJob(w, job) && job.status in {Funded, Submitted, Completed}
    ensures var v := Finish(w, s);
            && v.alive && v.disk == Some(v.memory) && v.memory.state == FundedVerified && v.memory.pendingPhase.None?
            && OnJob(v, job)
  {
  }

  /** From its job on, the attempt is completed. */
  lemma JobIsFunded(w: World, a: Approval, s: Surroundings, job: Job, m: nat, spent: nat)
    requires Going(w, spent, 13) && Quiet(s, a, m) && spent + 4 * m <= a.gasCap && OnJob(w, job) && Fundable(job, a)
    ensures var v := Finish(Fund(w, a, s), s);
            && v.alive && v.disk == Some(v.memory) && v.memory.state == FundedVerified && v.memory.pendingPhase.None?
            && OnJob(v, FundedJob(job, a))
  {
    FundGoes(w, a, s, job, m, spent, 1);
    FinishGoes(Fund(w, a, s), s, FundedJob(job, a), spent + 4 * m);
  }

  /** The job the attempt works on: the one it resumes with, or a new one. */
  function JobFor(d: Durable, s: Surroundings): Job {
    if s.resume && d.disk.Some? && d.disk.value.jobId.Some? && d.chain.jobs != [] then d.chain.jobs[|d.chain.jobs| - 1]
    else Job(Open, Unbound, 0)
  }

  lemma JobIsThere(d: Durable, a: Approval, s: Surroundings, m: nat)
    requires DiskInv(d.disk, d.chain, a) && Quiet(s, a, m) && s.effects >= 27
    requires if s.resume then Resumable(d, a) else d.disk.None?
    requires s.balance >= a.acceptedPrice || (s.resume ==> !Has(d.disk.value.transactions, SwapForU))
    requires Spent(d) + 8 * m <= a.gasCap
    ensures var v := Create(Acquire(Begin(d.disk, d.chain, s), a, s), a, s);
            Going(v, Spent(d) + 4 * m, 13) && OnJob(v, JobFor(d, s)) && Fundable(JobFor(d, s), a)
  {
    var w := Begin(d.disk, d.chain, s);
    BeginGoes(d, a, s, m, 26);
    AcquireGoes(w, a, s, m, Spent(d), 17);
    var x := Acquire(w, a, s);
    if x.memory.jobId.None? { CreateGoes(x, a, s, m, Spent(d) + 3 * m, 13); }
  }

  /** A quiet attempt completes whatever earlier ones left behind: from a fresh start, or resumed from any checkpoint without
      a pending phase whose job is known and of use, with a swap if the balance is short, it brings the job to funded and
      verified, and everything mined is recorded. Eight more transactions of the dearest kind must fit under the cap. */
  lemma QuietAttemptFunds(d: Durable, a: Approval, s: Surroundings, m: nat)
    requires DiskInv(d.disk, d.chain, a) && Quiet(s, a, m) && s.effects >= 27
    requires if s.resume then Resumable(d, a) else d.disk.None?
    requires s.balance >= a.acceptedPrice || (s.resume ==> !Has(d.disk.value.transactions, SwapForU))
    requires Spent(d) + 8 * m <= a.gasCap
    ensures var w := Attempt(d.disk, d.chain, a, s);
            && w.alive && w.disk == Some(w.memory) && w.memory.state == FundedVerified
            && w.chain.mined == w.memory.transactions
            && OnJob(w, FundedJob(JobFor(d, s), a))
  {
    JobIsThere(d, a, s, m);
    JobIsFunded(Create(Acquire(Begin(d.disk, d.chain, s), a, s), a, s), a, s, JobFor(d, s), m, Spent(d) + 4 * m);
    AttemptKeeps(d.disk, d.chain, a, s);
  }
}
