/** The funded LP activation: a checkpoint is written before and after every transaction, so that a stopped run can be
    resumed without paying twice. */
module LpActivation {
  import opened Outcomes
  import opened Runs

  datatype Phase =
    | WrapBnb | ApproveWbnb | SwapForU | CreateJob | RegisterJob | SetBudget | ApprovePayment | FundJob

  /** A confirmed transaction as the checkpoint records it, and a transaction as the chain knows it. */
  datatype Tx = Tx(phase: Phase, gasWei: nat)

  datatype CheckpointState =
    | NotStarted | Pending(phase: Phase) | Confirmed(phase: Phase) | JobCreated | IdReconciliationRequired | FundedVerified

  datatype Checkpoint = Checkpoint(
    state: CheckpointState, pendingPhase: Option<Phase>, jobId: Option<nat>, transactions: seq<Tx>)

  datatype JobStatus = Open | Funded | Submitted | Completed | Closed

  datatype JobPolicy = Unbound | ApprovedPolicy | OtherPolicy

  datatype Job = Job(status: JobStatus, policy: JobPolicy, budget: nat)

  /** Everything this activation has put on chain, and the jobs it has created. */
  datatype Chain = Chain(mined: seq<Tx>, jobs: seq<Job>)

  /** What the user approved. */
  datatype Approval = Approval(gasCap: nat, priceCeiling: nat, acceptedPrice: nat, swapAllowed: bool)

  /** What the chain charges for a transaction, whether it succeeds, and whether the process sees the receipt. */
  datatype Receipt = Receipt(gasUsed: nat, effectivePrice: nat, success: bool, observed: bool)

  /** What one attempt meets: network and SDK gas prices, receipts, balances, allowances, the outcome of every check on
      the outside world, and how many durable effects happen before the process stops. */
  datatype Surroundings = Surroundings(
    resume: bool, networkPrice: Phase -> nat, sdkGas: Phase -> int, sdkPrice: Phase -> int, receipts: Phase -> Receipt,
    startChecks: bool, balance: nat, swapChecks: bool, needsWrap: bool, wbnbAllowanceKnown: bool, needsWbnbApproval: bool, balanceAfterSwap: nat,
    idFound: bool, jobMatches: bool, quoteOpen: bool, allowance: nat, allowanceAfter: nat, fundingWindow: bool,
    finishChecks: bool, effects: nat)

  /** The durable checkpoint file, the checkpoint in memory, the chain, the effects left, and whether the process runs. */
  datatype World = World(disk: Option<Checkpoint>, memory: Checkpoint, chain: Chain, effects: nat, alive: bool)

  const Fresh: Checkpoint := Checkpoint(NotStarted, None, None, [])

  function DirectGas(p: Phase): nat {
    match p
    case WrapBnb => 50000
    case ApproveWbnb => 90000
    case SwapForU => 350000
    case _ => 0
  }

  function Cost(r: Receipt): nat {
    r.gasUsed * r.effectivePrice
  }

  function MaximumCost(gas: nat, price: nat): nat {
    gas * price
  }

  function Total(txs: seq<Tx>): nat {
    if txs == [] then 0 else Total(txs[..|txs| - 1]) + txs[|txs| - 1].gasWei
  }

  function Remaining(a: Approval, c: Checkpoint): int {
    a.gasCap - Total(c.transactions)
  }

  predicate Has(txs: seq<Tx>, p: Phase) {
    exists i :: 0 <= i < |txs| && txs[i].phase == p
  }

  /** The SDK and the direct sender both pay 20 percent over the network price. */
  function OfferedPrice(networkPrice: nat): nat {
    networkPrice * 12 / 10
  }

  // ---- single effects ----

  function Stop(w: World): World {
    w.(alive := false)
  }

  function Persist(w: World, state: CheckpointState): World {
    if !w.alive then w
    else if w.effects == 0 then Stop(w)
    else
      var c := w.memory.(state := state);
      w.(memory := c, disk := Some(c), effects := w.effects - 1)
  }

  function MarkPending(w: World, p: Phase): World {
    Persist(w.(memory := w.memory.(pendingPhase := Some(p))), Pending(p))
  }

  /** A mined transaction changes the job it concerns. */
  function Mine(chain: Chain, a: Approval, p: Phase, r: Receipt): Chain {
    var mined := chain.mined + [Tx(p, Cost(r))];
    if !r.success then chain.(mined := mined)
    else
      var jobs :=
        if p == CreateJob then chain.jobs + [Job(Open, Unbound, 0)]
        else if chain.jobs == [] then chain.jobs
        else
          var last := chain.jobs[|chain.jobs| - 1];
          var next :=
            match p
            case RegisterJob => last.(policy := ApprovedPolicy)
            case SetBudget => last.(budget := a.acceptedPrice)
            case FundJob => last.(status := Funded)
            case _ => last;
          chain.jobs[|chain.jobs| - 1 := next];
      Chain(mined, jobs)
  }

  function Send(w: World, a: Approval, p: Phase, r: Receipt): World {
    if !w.alive then w
    else if w.effects == 0 then Stop(w)
    else w.(chain := Mine(w.chain, a, p, r), effects := w.effects - 1)
  }

  /** Read the receipt, record the transaction and persist it; anything unexpected stops the process first. */
  function Settle(w: World, a: Approval, p: Phase, r: Receipt): World {
    if !w.alive then w
    else if !r.observed || !r.success then Stop(w)
    else
      var c := w.memory.(transactions := w.memory.transactions + [Tx(p, Cost(r))], pendingPhase := None);
      var v := w.(memory := c);
      if r.effectivePrice > a.priceCeiling || Total(c.transactions) > a.gasCap then Stop(v)
      else Persist(v, Confirmed(p))
  }

  /** The hook before every SDK signature. */
  predicate HookAllows(w: World, a: Approval, gas: int, price: int) {
    gas > 0 && price > 0 && price <= a.priceCeiling && MaximumCost(gas, price) <= Remaining(a, w.memory)
  }

  function RunTx(w: World, a: Approval, s: Surroundings, p: Phase): World {
    if !w.alive then w
    else if OfferedPrice(s.networkPrice(p)) > a.priceCeiling || Remaining(a, w.memory) <= 0 then Stop(w)
    else
      var v := MarkPending(w, p);
      if v.alive && !HookAllows(v, a, s.sdkGas(p), s.sdkPrice(p)) then Stop(v)
      else Settle(Send(v, a, p, s.receipts(p)), a, p, s.receipts(p))
  }

  predicate DirectAllows(w: World, a: Approval, s: Surroundings, p: Phase) {
    var price := OfferedPrice(s.networkPrice(p));
    DirectGas(p) > 0 && price <= a.priceCeiling && MaximumCost(DirectGas(p), price) <= Remaining(a, w.memory)
  }

  function RunWalletTx(w: World, a: Approval, s: Surroundings, p: Phase): World {
    if !w.alive then w
    else if !DirectAllows(w, a, s, p) then Stop(w)
    else Settle(Send(MarkPending(w, p), a, p, s.receipts(p)), a, p, s.receipts(p))
  }

  // ---- one attempt ----

  function JobOf(w: World): Option<Job> {
    if w.memory.jobId.None? || w.memory.jobId.value >= |w.chain.jobs| then None
    else Some(w.chain.jobs[w.memory.jobId.value])
  }

  /** The resume rules: an unreconciled create, an unfinished phase or a closed job stops the attempt. */
  predicate MayResume(w: World, s: Surroundings) {
    var c := w.memory;
    && !(c.jobId.None? && (c.state == IdReconciliationRequired || Has(c.transactions, CreateJob)))
    && c.pendingPhase.None?
    && (c.jobId.Some? ==> s.jobMatches && JobOf(w).Some? && JobOf(w).value.status != Closed)
  }

  predicate NeedsFunding(w: World, s: Surroundings) {
    !(s.resume && JobOf(w).Some? && JobOf(w).value.status in {Funded, Submitted, Completed})
  }

  function Begin(disk: Option<Checkpoint>, chain: Chain, s: Surroundings): World {
    if s.resume then
      if disk.None? then World(disk, Fresh, chain, s.effects, false)
      else
        var w := World(disk, disk.value, chain, s.effects, true);
        if MayResume(w, s) && s.startChecks then w else Stop(w)
    else
      var w := World(disk, Fresh, chain, s.effects, s.startChecks);
      if disk.Some? then Stop(w) else Persist(w, NotStarted)
  }

  /** Swap for the payment token if the balance is short. */
  function Acquire(w: World, a: Approval, s: Surroundings): World {
    if !w.alive || s.balance >= a.acceptedPrice || !NeedsFunding(w, s) then w
    else if Has(w.memory.transactions, SwapForU) || !a.swapAllowed || !s.swapChecks then Stop(w)
    else
      var v := RunWalletTx(ApproveRouter(Wrap(w, a, s), a, s), a, s, SwapForU);
      if s.balanceAfterSwap < a.acceptedPrice then Stop(v) else v
  }

  function Wrap(w: World, a: Approval, s: Surroundings): World {
    if s.needsWrap then RunWalletTx(w, a, s, WrapBnb) else w
  }

  function ApproveRouter(w: World, a: Approval, s: Surroundings): World {
    if !s.wbnbAllowanceKnown then Stop(w)
    else if s.needsWbnbApproval then RunWalletTx(w, a, s, ApproveWbnb)
    else w
  }

  function Adopt(w: World): World
    requires w.chain.jobs != []
  {
    w.(memory := w.memory.(jobId := Some(|w.chain.jobs| - 1)))
  }

  /** Write the new job's ID down, or that it needs reconciliation. */
  function Identify(w: World, s: Surroundings): World {
    if !w.alive then w
    else if !s.idFound || w.chain.jobs == [] then Stop(Persist(w, IdReconciliationRequired))
    else Persist(Adopt(w), JobCreated)
  }

  /** Create the job unless the checkpoint already has its ID. */
  function Create(w: World, a: Approval, s: Surroundings): World {
    if !w.alive || w.memory.jobId.Some? then w
    else Identify(RunTx(w, a, s, CreateJob), s)
  }

  function Register(w: World, a: Approval, s: Surroundings): World {
    if !w.alive then w
    else
      match JobOf(w)
      case None => Stop(w)
      case Some(job) =>
        if job.policy == Unbound then RunTx(w, a, s, RegisterJob)
        else if job.policy == ApprovedPolicy then w
        else Stop(w)
  }

  function Budget(w: World, a: Approval, s: Surroundings): World {
    if !w.alive then w
    else
      match JobOf(w)
      case None => Stop(w)
      case Some(job) =>
        if job.budget == 0 then RunTx(w, a, s, SetBudget)
        else if job.budget == a.acceptedPrice then w
        else Stop(w)
  }

  function Allow(w: World, a: Approval, s: Surroundings): World {
    if !w.alive then w
    else if s.allowance != 0 && s.allowance != a.acceptedPrice then Stop(w)
    else
      var v := if s.allowance == 0 then RunTx(w, a, s, ApprovePayment) else w;
      if s.allowanceAfter != a.acceptedPrice || !s.fundingWindow then Stop(v) else v
  }

  /** Bring an open job to funded. */
  function Fund(w: World, a: Approval, s: Surroundings): World {
    if !w.alive then w
    else if JobOf(w).None? || !s.jobMatches then Stop(w)
    else if JobOf(w).value.status != Open then w
    else if !s.quoteOpen then Stop(w)
    else RunTx(Allow(Budget(Register(w, a, s), a, s), a, s), a, s, FundJob)
  }

  function Finish(w: World, s: Surroundings): World {
    if !w.alive then w
    else if JobOf(w).None? || JobOf(w).value.status !in {Funded, Submitted, Completed} || !s.finishChecks then Stop(w)
    else Persist(w, FundedVerified)
  }

  /** One run of the command, from a fresh start or a checkpoint. */
  function Attempt(disk: Option<Checkpoint>, chain: Chain, a: Approval, s: Surroundings): World {
    Finish(Fund(Create(Acquire(Begin(disk, chain, s), a, s), a, s), a, s), s)
  }

  // ---- what holds between any two effects ----

  /** A checkpoint without a pending phase has recorded everything mined; one with a pending phase may lack that one. */
  ghost predicate Accounts(c: Checkpoint, mined: seq<Tx>) {
    if c.pendingPhase.None? then mined == c.transactions
    else
      || mined == c.transactions
      || (c.transactions <= mined && |mined| == |c.transactions| + 1 && mined[|c.transactions|].phase == c.pendingPhase.value)
  }

  ghost predicate AtMostOne(txs: seq<Tx>, p: Phase) {
    forall i, j :: 0 <= i < j < |txs| ==> !(txs[i].phase == p && txs[j].phase == p)
  }

  ghost predicate Bounded(a: Approval, mined: seq<Tx>) {
    Total(mined) <= a.gasCap && AtMostOne(mined, CreateJob) && AtMostOne(mined, SwapForU) && AtMostOne(mined, FundJob)
  }

  /** A job exists only after a create; the checkpoint's job is the latest one; a recorded funding means it is not open. */
  ghost predicate JobKnown(c: Checkpoint, chain: Chain) {
    && (chain.jobs != [] ==> Has(chain.mined, CreateJob))
    && (c.jobId.Some? ==> chain.jobs != [] && c.jobId.value == |chain.jobs| - 1)
    && (Has(c.transactions, FundJob) ==> chain.jobs != [] && chain.jobs[|chain.jobs| - 1].status != Open)
  }

  ghost predicate DiskInv(disk: Option<Checkpoint>, chain: Chain, a: Approval) {
    && Bounded(a, chain.mined)
    && match disk
       case None => chain == Chain([], [])
       case Some(c) => Accounts(c, chain.mined) && JobKnown(c, chain)
  }

  ghost predicate Inv(w: World, a: Approval) {
    && DiskInv(w.disk, w.chain, a)
    && (w.alive ==> w.disk == Some(w.memory) && w.memory.pendingPhase.None?)
  }

  /** The chain charges no more than was signed for. */
  ghost predicate Honest(s: Surroundings) {
    forall p :: Charged(s.receipts(p), s, p)
  }

  predicate Charged(r: Receipt, s: Surroundings, p: Phase) {
    if DirectGas(p) > 0 then r.gasUsed <= DirectGas(p) && r.effectivePrice <= OfferedPrice(s.networkPrice(p))
    else s.sdkGas(p) > 0 && s.sdkPrice(p) > 0 ==> r.gasUsed <= s.sdkGas(p) && r.effectivePrice <= s.sdkPrice(p)
  }

  lemma CostWithin(r: Receipt, gas: nat, price: nat)
    requires r.gasUsed <= gas && r.effectivePrice <= price
    ensures Cost(r) <= MaximumCost(gas, price)
  {
  }

  lemma TotalAppend(txs: seq<Tx>, t: Tx)
    ensures Total(txs + [t]) == Total(txs) + t.gasWei
  {
  }

  lemma HasAppend(txs: seq<Tx>, t: Tx, p: Phase)
    ensures Has(txs + [t], p) == (Has(txs, p) || t.phase == p)
  {
    var all := txs + [t];
    if Has(txs, p) {
      var i :| 0 <= i < |txs| && txs[i].phase == p;
      assert all[i].phase == p;
    }
    if t.phase == p { assert all[|txs|].phase == p; }
  }

  /** The phase may go out: nothing that must happen once has happened before, and its job is there. */
  ghost predicate Permitted(w: World, p: Phase) {
    && (p in {CreateJob, SwapForU, FundJob} ==> !Has(w.memory.transactions, p))
    && (p == CreateJob ==> w.memory.jobId.None?)
    && (p == FundJob ==> w.chain.jobs != [])
  }

  lemma BoundedAppend(a: Approval, mined: seq<Tx>, p: Phase, cost: nat)
    requires Bounded(a, mined) && Total(mined) + cost <= a.gasCap
    requires p in {CreateJob, SwapForU, FundJob} ==> !Has(mined, p)
    ensures Bounded(a, mined + [Tx(p, cost)])
  {
  }

  function PendingCheckpoint(c: Checkpoint, p: Phase): Checkpoint {
    c.(state := Pending(p), pendingPhase := Some(p))
  }

  function ConfirmedCheckpoint(c: Checkpoint, p: Phase, r: Receipt): Checkpoint {
    c.(state := Confirmed(p), pendingPhase := None, transactions := c.transactions + [Tx(p, Cost(r))])
  }

  /** Once the pending phase is on disk, the transaction may be mined and the process may stop. */
  lemma SendKeepsDisk(w: World, a: Approval, p: Phase, r: Receipt)
    requires Inv(w, a) && w.alive && Permitted(w, p) && Cost(r) <= Remaining(a, w.memory)
    ensures DiskInv(Some(PendingCheckpoint(w.memory, p)), w.chain, a)
    ensures DiskInv(Some(PendingCheckpoint(w.memory, p)), Mine(w.chain, a, p, r), a)
  {
    BoundedAppend(a, w.chain.mined, p, Cost(r));
    HasAppend(w.chain.mined, Tx(p, Cost(r)), CreateJob);
  }

  /** A confirmed transaction that is recorded leaves a checkpoint that accounts for everything. */
  lemma RecordKeepsDisk(w: World, a: Approval, p: Phase, r: Receipt)
    requires Inv(w, a) && w.alive && Permitted(w, p) && Cost(r) <= Remaining(a, w.memory) && r.success
    ensures DiskInv(Some(ConfirmedCheckpoint(w.memory, p, r)), Mine(w.chain, a, p, r), a)
  {
    BoundedAppend(a, w.chain.mined, p, Cost(r));
    HasAppend(w.chain.mined, Tx(p, Cost(r)), CreateJob);
    HasAppend(w.chain.mined, Tx(p, Cost(r)), FundJob);
  }

  /** What a phase that lets the process go on has done. */
  ghost predicate Recorded(w: World, v: World, a: Approval, p: Phase, r: Receipt) {
    v.alive ==>
      && w.alive && r.success
      && v.memory == ConfirmedCheckpoint(w.memory, p, r)
      && v.chain == Mine(w.chain, a, p, r)
  }

  /** A phase ends in one of three places: nothing written, the pending phase written, or everything recorded. */
  lemma SubmitEnds(w: World, a: Approval, p: Phase, r: Receipt)
    requires w.alive && w.memory.pendingPhase.None?
    ensures var v := Settle(Send(MarkPending(w, p), a, p, r), a, p, r);
            || (!v.alive && v.disk == w.disk && v.chain == w.chain)
            || (!v.alive && v.disk == Some(PendingCheckpoint(w.memory, p)) && v.chain in {w.chain, Mine(w.chain, a, p, r)})
            || (v.alive && v.disk == Some(v.memory) && Recorded(w, v, a, p, r))
  {
  }

  lemma SubmitKeeps(w: World, a: Approval, p: Phase, r: Receipt)
    requires Inv(w, a) && w.alive && Permitted(w, p) && Cost(r) <= Remaining(a, w.memory)
    ensures var v := Settle(Send(MarkPending(w, p), a, p, r), a, p, r);
            Inv(v, a) && Recorded(w, v, a, p, r)
  {
    SubmitEnds(w, a, p, r);
    SendKeepsDisk(w, a, p, r);
    if r.success { RecordKeepsDisk(w, a, p, r); }
  }

  lemma RunTxKeeps(w: World, a: Approval, s: Surroundings, p: Phase)
    requires Inv(w, a) && Honest(s) && DirectGas(p) == 0 && (w.alive ==> Permitted(w, p))
    ensures var v := RunTx(w, a, s, p); Inv(v, a) && Recorded(w, v, a, p, s.receipts(p))
  {
    var r, v := s.receipts(p), MarkPending(w, p);
    if w.alive && v.alive {
      if HookAllows(v, a, s.sdkGas(p), s.sdkPrice(p)) {
        assert Charged(r, s, p);
        CostWithin(r, s.sdkGas(p), s.sdkPrice(p));
        SubmitKeeps(w, a, p, r);
      } else {
        SendKeepsDisk(w, a, p, Receipt(0, 0, false, false));
      }
    }
  }

  lemma RunWalletTxKeeps(w: World, a: Approval, s: Surroundings, p: Phase)
    requires Inv(w, a) && Honest(s) && DirectGas(p) > 0 && (w.alive ==> Permitted(w, p))
    ensures var v := RunWalletTx(w, a, s, p); Inv(v, a) && Recorded(w, v, a, p, s.receipts(p))
  {
    var r := s.receipts(p);
    if w.alive && DirectAllows(w, a, s, p) {
      assert Charged(r, s, p);
      CostWithin(r, DirectGas(p), OfferedPrice(s.networkPrice(p)));
      SubmitKeeps(w, a, p, r);
    }
  }

  /** No create is recorded while the job ID is unknown. */
  ghost predicate NoOrphan(w: World) {
    w.alive && w.memory.jobId.None? ==> !Has(w.memory.transactions, CreateJob)
  }

  lemma BeginKeeps(disk: Option<Checkpoint>, chain: Chain, a: Approval, s: Surroundings)
    requires DiskInv(disk, chain, a)
    ensures var w := Begin(disk, chain, s); Inv(w, a) && NoOrphan(w)
  {
  }

  /** The create is not orphaned and no swap is recorded. */
  ghost predicate BeforeSwap(w: World) {
    NoOrphan(w) && (w.alive ==> !Has(w.memory.transactions, SwapForU))
  }

  lemma PhaseKeepsOrphan(w: World, v: World, a: Approval, p: Phase, r: Receipt)
    requires NoOrphan(w) && Recorded(w, v, a, p, r) && p != CreateJob
    ensures NoOrphan(v)
    ensures BeforeSwap(w) && p != SwapForU ==> BeforeSwap(v)
  {
  }

  lemma WrapKeeps(w: World, a: Approval, s: Surroundings)
    requires Inv(w, a) && BeforeSwap(w) && Honest(s)
    ensures Inv(Wrap(w, a, s), a) && BeforeSwap(Wrap(w, a, s))
  {
    RunWalletTxKeeps(w, a, s, WrapBnb);
    PhaseKeepsOrphan(w, RunWalletTx(w, a, s, WrapBnb), a, WrapBnb, s.receipts(WrapBnb));
  }

  lemma ApproveRouterKeeps(w: World, a: Approval, s: Surroundings)
    requires Inv(w, a) && BeforeSwap(w) && Honest(s)
    ensures Inv(ApproveRouter(w, a, s), a) && BeforeSwap(ApproveRouter(w, a, s))
  {
    RunWalletTxKeeps(w, a, s, ApproveWbnb);
    PhaseKeepsOrphan(w, RunWalletTx(w, a, s, ApproveWbnb), a, ApproveWbnb, s.receipts(ApproveWbnb));
  }

  lemma SwapKeeps(w: World, a: Approval, s: Surroundings)
    requires Inv(w, a) && BeforeSwap(w) && Honest(s)
    ensures Inv(RunWalletTx(w, a, s, SwapForU), a) && NoOrphan(RunWalletTx(w, a, s, SwapForU))
  {
    RunWalletTxKeeps(w, a, s, SwapForU);
    PhaseKeepsOrphan(w, RunWalletTx(w, a, s, SwapForU), a, SwapForU, s.receipts(SwapForU));
  }

  lemma AcquireKeeps(w: World, a: Approval, s: Surroundings)
    requires Inv(w, a) && NoOrphan(w) && Honest(s)
    ensures Inv(Acquire(w, a, s), a) && NoOrphan(Acquire(w, a, s))
  {
    if BeforeSwap(w) {
      WrapKeeps(w, a, s);
      ApproveRouterKeeps(Wrap(w, a, s), a, s);
      SwapKeeps(ApproveRouter(Wrap(w, a, s), a, s), a, s);
    }
  }

  lemma IdentifyKeeps(w: World, a: Approval, s: Surroundings)
    requires Inv(w, a)
    ensures Inv(Identify(w, s), a)
  {
  }

  lemma CreateIsFirst(w: World, a: Approval)
    requires Inv(w, a) && NoOrphan(w) && w.alive && w.memory.jobId.None?
    ensures Permitted(w, CreateJob)
  {
  }

  lemma CreateKeeps(w: World, a: Approval, s: Surroundings)
    requires Inv(w, a) && NoOrphan(w) && Honest(s)
    ensures Inv(Create(w, a, s), a)
  {
    if w.alive && w.memory.jobId.None? {
      CreateIsFirst(w, a);
      RunTxKeeps(w, a, s, CreateJob);
      IdentifyKeeps(RunTx(w, a, s, CreateJob), a, s);
    }
  }

  /** The job is open, so no funding has been recorded. */
  ghost predicate OpenJob(w: World) {
    w.alive ==> JobOf(w).Some? && JobOf(w).value.status == Open
  }

  lemma PhaseKeepsOpen(w: World, v: World, a: Approval, p: Phase, r: Receipt)
    requires Inv(w, a) && OpenJob(w) && Recorded(w, v, a, p, r) && p in {RegisterJob, SetBudget, ApprovePayment}
    ensures OpenJob(v)
  {
  }

  lemma JobPhaseKeeps(w: World, a: Approval, s: Surroundings, p: Phase)
    requires Inv(w, a) && OpenJob(w) && Honest(s) && p in {RegisterJob, SetBudget, ApprovePayment}
    ensures Inv(RunTx(w, a, s, p), a) && OpenJob(RunTx(w, a, s, p))
  {
    RunTxKeeps(w, a, s, p);
    PhaseKeepsOpen(w, RunTx(w, a, s, p), a, p, s.receipts(p));
  }

  lemma StopKeeps(w: World, a: Approval)
    requires Inv(w, a)
    ensures Inv(Stop(w), a) && OpenJob(Stop(w))
  {
  }

  lemma RegisterKeeps(w: World, a: Approval, s: Surroundings)
    requires Inv(w, a) && OpenJob(w) && Honest(s)
    ensures Inv(Register(w, a, s), a) && OpenJob(Register(w, a, s))
  {
    JobPhaseKeeps(w, a, s, RegisterJob);
    StopKeeps(w, a);
  }

  lemma BudgetKeeps(w: World, a: Approval, s: Surroundings)
    requires Inv(w, a) && OpenJob(w) && Honest(s)
    ensures Inv(Budget(w, a, s), a) && OpenJob(Budget(w, a, s))
  {
    JobPhaseKeeps(w, a, s, SetBudget);
    StopKeeps(w, a);
  }

  lemma AllowKeeps(w: World, a: Approval, s: Surroundings)
    requires Inv(w, a) && OpenJob(w) && Honest(s)
    ensures Inv(Allow(w, a, s), a) && OpenJob(Allow(w, a, s))
  {
    JobPhaseKeeps(w, a, s, ApprovePayment);
    StopKeeps(w, a);
    StopKeeps(RunTx(w, a, s, ApprovePayment), a);
  }

  lemma FundIsFirst(w: World, a: Approval)
    requires Inv(w, a) && OpenJob(w) && w.alive
    ensures Permitted(w, FundJob)
  {
  }

  lemma FundOpenJob(w: World, a: Approval, s: Surroundings)
    requires Inv(w, a) && OpenJob(w) && Honest(s)
    ensures Inv(RunTx(Allow(Budget(Register(w, a, s), a, s), a, s), a, s, FundJob), a)
  {
    RegisterKeeps(w, a, s);
    var x := Register(w, a, s);
    BudgetKeeps(x, a, s);
    var y := Budget(x, a, s);
    AllowKeeps(y, a, s);
    var z := Allow(y, a, s);
    if z.alive { FundIsFirst(z, a); }
    RunTxKeeps(z, a, s, FundJob);
  }

  lemma FundKeeps(w: World, a: Approval, s: Surroundings)
    requires Inv(w, a) && Honest(s)
    ensures Inv(Fund(w, a, s), a)
  {
    if OpenJob(w) {
      FundOpenJob(w, a, s);
    }
  }

  lemma AttemptKeeps(disk: Option<Checkpoint>, chain: Chain, a: Approval, s: Surroundings)
    requires DiskInv(disk, chain, a) && Honest(s)
    ensures Inv(Attempt(disk, chain, a, s), a)
  {
    var w := Begin(disk, chain, s);
    BeginKeeps(disk, chain, a, s);
    AcquireKeeps(w, a, s);
    var u := Acquire(w, a, s);
    CreateKeeps(u, a, s);
    FundKeeps(Create(u, a, s), a, s);
  }

  // ---- any number of attempts ----

  /** What survives between attempts. */
  datatype Durable = Durable(disk: Option<Checkpoint>, chain: Chain)

  datatype Event = Run(surroundings: Surroundings) | WorldChanges(jobs: seq<Job>)

  /** Other parties may move a job on, but never back to open. */
  ghost predicate MovesOn(before: seq<Job>, after: seq<Job>) {
    |before| == |after| && forall i :: 0 <= i < |after| && after[i].status == Open ==> before[i].status == Open
  }

  ghost predicate Possible(d: Durable, e: Event) {
    match e
    case Run(s) => Honest(s)
    case WorldChanges(jobs) => MovesOn(d.chain.jobs, jobs)
  }

  function Step(a: Approval, d: Durable, e: Event): Durable {
    match e
    case Run(s) => var w := Attempt(d.disk, d.chain, a, s); Durable(w.disk, w.chain)
    case WorldChanges(jobs) => d.(chain := d.chain.(jobs := jobs))
  }

  const Start: Durable := Durable(None, Chain([], []))

  lemma StepKeeps(a: Approval, d: Durable, e: Event)
    requires DiskInv(d.disk, d.chain, a) && Possible(d, e)
    ensures DiskInv(Step(a, d, e).disk, Step(a, d, e).chain, a)
  {
    if e.Run? { AttemptKeeps(d.disk, d.chain, a, e.surroundings); }
  }

  /** For any number of attempts, each stopped at any point: the gas truly spent stays within the approved cap; create,
      swap and fund each reach the chain at most once; and a checkpoint without a pending phase has recorded everything
      that was mined. */
  lemma GasAndEffectsBounded(a: Approval, events: seq<Event>)
    requires Admissible(Start, events, (d, e) => Step(a, d, e), (d, e) => Possible(d, e))
    ensures var d := Fold(Start, events, (d, e) => Step(a, d, e));
            && Bounded(a, d.chain.mined)
            && (d.disk.None? ==> d.chain.mined == [])
            && (d.disk.Some? ==> Accounts(d.disk.value, d.chain.mined))
  {
    var step := (d, e) => Step(a, d, e);
    var ok := (d, e) => Possible(d, e);
    var inv := (d: Durable) => DiskInv(d.disk, d.chain, a);
    forall d, e | inv(d) && ok(d, e) ensures inv(step(d, e)) {
      StepKeeps(a, d, e);
    }
    InvariantWhen(Start, events, step, ok, inv);
  }

  /** A pending phase on disk stops every later attempt before it does anything. */
  lemma PendingPhaseRefuses(a: Approval, d: Durable, s: Surroundings)
    requires d.disk.Some? && d.disk.value.pendingPhase.Some?
    ensures Step(a, d, Run(s)) == d
  {
  }

  // ---- an undisturbed run completes ----

  /** Nothing fails, and no SDK transaction can cost more than `m`. */
  ghost predicate Undisturbed(s: Surroundings, a: Approval, m: nat) {
    && s.startChecks && s.balance >= a.acceptedPrice && s.idFound && s.jobMatches && s.quoteOpen
    && s.allowance == 0 && s.allowanceAfter == a.acceptedPrice && s.fundingWindow && s.finishChecks
    && forall p :: Cheap(s, a, m, p)
  }

  predicate Cheap(s: Surroundings, a: Approval, m: nat, p: Phase) {
    && OfferedPrice(s.networkPrice(p)) <= a.priceCeiling
    && s.sdkGas(p) > 0 && 0 < s.sdkPrice(p) <= a.priceCeiling && MaximumCost(s.sdkGas(p), s.sdkPrice(p)) <= m
    && s.receipts(p).success && s.receipts(p).observed
  }

  /** The world after the phases so far, all confirmed and on disk. */
  ghost predicate Reached(w: World, phases: seq<Phase>, m: nat, effects: nat) {
    && w.alive && w.effects >= effects && w.disk == Some(w.memory) && w.memory.pendingPhase.None?
    && |w.memory.transactions| == |phases|
    && (forall i :: 0 <= i < |phases| ==> w.memory.transactions[i].phase == phases[i])
    && Total(w.memory.transactions) <= |phases| * m
  }

  /** A phase with the budget and the effects it needs is confirmed. */
  lemma PhaseCompletes(w: World, a: Approval, s: Surroundings, p: Phase, phases: seq<Phase>, m: nat, effects: nat)
    requires Reached(w, phases, m, effects + 3) && Undisturbed(s, a, m) && Honest(s) && DirectGas(p) == 0
    requires 0 < m && (|phases| + 1) * m <= a.gasCap
    ensures var v := RunTx(w, a, s, p);
            && Reached(v, phases + [p], m, effects)
            && v.memory == ConfirmedCheckpoint(w.memory, p, s.receipts(p))
            && v.chain == Mine(w.chain, a, p, s.receipts(p))
  {
    var r := s.receipts(p);
    assert Cheap(s, a, m, p) && Charged(r, s, p);
    CostWithin(r, s.sdkGas(p), s.sdkPrice(p));
    TotalAppend(w.memory.transactions, Tx(p, Cost(r)));
    assert (|phases| + 1) * m == |phases| * m + m;
  }

  lemma CreateCompletes(w: World, a: Approval, s: Surroundings, m: nat, effects: nat)
    requires Reached(w, [], m, effects + 4) && Undisturbed(s, a, m) && Honest(s) && 0 < m <= a.gasCap
    requires w.memory.jobId.None? && w.chain.jobs == []
    ensures var v := Create(w, a, s);
            Reached(v, [CreateJob], m, effects) && v.memory.jobId == Some(0) && v.chain.jobs == [Job(Open, Unbound, 0)]
  {
    PhaseCompletes(w, a, s, CreateJob, [], m, effects + 1);
  }

  lemma RegisterCompletes(w: World, a: Approval, s: Surroundings, m: nat, effects: nat)
    requires Reached(w, [CreateJob], m, effects + 3) && Undisturbed(s, a, m) && Honest(s) && 0 < m && 5 * m <= a.gasCap
    requires w.memory.jobId == Some(0) && w.chain.jobs == [Job(Open, Unbound, 0)]
    ensures var v := Register(w, a, s);
            && Reached(v, [CreateJob, RegisterJob], m, effects)
            && v.memory.jobId == Some(0) && v.chain.jobs == [Job(Open, ApprovedPolicy, 0)]
  {
    PhaseCompletes(w, a, s, RegisterJob, [CreateJob], m, effects);
    assert [CreateJob] + [RegisterJob] == [CreateJob, RegisterJob];
  }

  lemma BudgetCompletes(w: World, a: Approval, s: Surroundings, m: nat, effects: nat)
    requires Reached(w, [CreateJob, RegisterJob], m, effects + 3) && Undisturbed(s, a, m) && Honest(s) && 0 < m && 5 * m <= a.gasCap
    requires w.memory.jobId == Some(0) && w.chain.jobs == [Job(Open, ApprovedPolicy, 0)]
    ensures var v := Budget(w, a, s);
            && Reached(v, [CreateJob, RegisterJob, SetBudget], m, effects)
            && v.memory.jobId == Some(0) && v.chain.jobs == [Job(Open, ApprovedPolicy, a.acceptedPrice)]
  {
    PhaseCompletes(w, a, s, SetBudget, [CreateJob, RegisterJob], m, effects);
    assert [CreateJob, RegisterJob] + [SetBudget] == [CreateJob, RegisterJob, SetBudget];
  }

  const FundingPhases: seq<Phase> := [CreateJob, RegisterJob, SetBudget, ApprovePayment, FundJob]

  lemma AllowCompletes(w: World, a: Approval, s: Surroundings, m: nat, effects: nat)
    requires Reached(w, FundingPhases[..3], m, effects + 3) && Undisturbed(s, a, m) && Honest(s) && 0 < m && 5 * m <= a.gasCap
    requires w.memory.jobId == Some(0) && |w.chain.jobs| == 1
    ensures var v := Allow(w, a, s);
            Reached(v, FundingPhases[..4], m, effects) && v.memory.jobId == Some(0) && v.chain.jobs == w.chain.jobs
  {
    PhaseCompletes(w, a, s, ApprovePayment, FundingPhases[..3], m, effects);
    assert FundingPhases[..3] + [ApprovePayment] == FundingPhases[..4];
  }

  lemma LastPhaseCompletes(w: World, a: Approval, s: Surroundings, m: nat, effects: nat)
    requires Reached(w, FundingPhases[..4], m, effects + 3) && Undisturbed(s, a, m) && Honest(s) && 0 < m && 5 * m <= a.gasCap
    requires w.memory.jobId == Some(0) && w.chain.jobs == [Job(Open, ApprovedPolicy, a.acceptedPrice)]
    ensures var v := RunTx(w, a, s, FundJob);
            && Reached(v, FundingPhases, m, effects)
            && v.memory.jobId == Some(0) && v.chain.jobs == [Job(Funded, ApprovedPolicy, a.acceptedPrice)]
  {
    PhaseCompletes(w, a, s, FundJob, FundingPhases[..4], m, effects);
    assert FundingPhases[..4] + [FundJob] == FundingPhases;
  }

  lemma PaymentCompletes(w: World, a: Approval, s: Surroundings, m: nat, effects: nat)
    requires Reached(w, FundingPhases[..3], m, effects + 6) && Undisturbed(s, a, m) && Honest(s) && 0 < m && 5 * m <= a.gasCap
    requires w.memory.jobId == Some(0) && w.chain.jobs == [Job(Open, ApprovedPolicy, a.acceptedPrice)]
    ensures var v := RunTx(Allow(w, a, s), a, s, FundJob);
            && Reached(v, FundingPhases, m, effects)
            && v.memory.jobId == Some(0) && v.chain.jobs == [Job(Funded, ApprovedPolicy, a.acceptedPrice)]
  {
    AllowCompletes(w, a, s, m, effects + 3);
    LastPhaseCompletes(Allow(w, a, s), a, s, m, effects);
  }

  lemma FundCompletes(w: World, a: Approval, s: Surroundings, m: nat, effects: nat)
    requires Reached(w, [CreateJob], m, effects + 12) && Undisturbed(s, a, m) && Honest(s) && 0 < m && 5 * m <= a.gasCap
    requires w.memory.jobId == Some(0) && w.chain.jobs == [Job(Open, Unbound, 0)]
    ensures var v := Fund(w, a, s);
            && Reached(v, FundingPhases, m, effects)
            && v.memory.jobId == Some(0) && v.chain.jobs == [Job(Funded, ApprovedPolicy, a.acceptedPrice)]
  {
    RegisterCompletes(w, a, s, m, effects + 9);
    var x := Register(w, a, s);
    BudgetCompletes(x, a, s, m, effects + 6);
    assert FundingPhases[..3] == [CreateJob, RegisterJob, SetBudget];
    PaymentCompletes(Budget(x, a, s), a, s, m, effects);
  }

  /** An undisturbed first attempt with a gas cap of five times the dearest transaction creates, registers, budgets,
      approves and funds the job, each exactly once, and ends with a complete checkpoint. */
  lemma UndisturbedAttemptFunds(a: Approval, s: Surroundings, m: nat)
    requires Undisturbed(s, a, m) && Honest(s) && 0 < m && 5 * m <= a.gasCap && !s.resume && s.effects >= 18
    ensures var w := Attempt(None, Chain([], []), a, s);
            && w.alive && w.disk == Some(w.memory) && w.memory.state == FundedVerified
            && Reached(w, FundingPhases, m, 0) && w.chain.jobs == [Job(Funded, ApprovedPolicy, a.acceptedPrice)]
  {
    var w := Begin(None, Chain([], []), s);
    assert Reached(w, [], m, 17);
    CreateCompletes(w, a, s, m, 13);
    FundCompletes(Create(w, a, s), a, s, m, 1);
  }

  // ---- the command ----

  /** The running command: its checkpoint file, the checkpoint object it updates, and the chain it writes to. */
  class ActivationCommand {
    const approval: Approval
    var disk: Option<Checkpoint>
    var checkpoint: Checkpoint
    var chain: Chain
    var effects: nat
    var alive: bool

    constructor (approval: Approval)
      ensures this.approval == approval && disk == None && chain == Chain([], []) && !alive
    {
      this.approval := approval;
      disk, checkpoint, chain, effects, alive := None, Fresh, Chain([], []), 0, false;
    }

    function Now(): World
      reads this
    {
      World(disk, checkpoint, chain, effects, alive)
    }

    method Save(state: CheckpointState)
      modifies this
      ensures Now() == Persist(old(Now()), state)
    {
      if !alive {
        return;
      }
      if effects == 0 {
        alive := false;
        return;
      }
      checkpoint := checkpoint.(state := state);
      disk, effects := Some(checkpoint), effects - 1;
    }

    method Broadcast(p: Phase, r: Receipt)
      modifies this
      ensures Now() == Send(old(Now()), approval, p, r)
    {
      if !alive {
        return;
      }
      if effects == 0 {
        alive := false;
        return;
      }
      chain, effects := Mine(chain, approval, p, r), effects - 1;
    }

    method CumulativeGas() returns (sum: nat)
      ensures sum == Total(checkpoint.transactions)
    {
      sum := 0;
      var txs := checkpoint.transactions;
      for i := 0 to |txs|
        invariant sum == Total(txs[..i])
      {
        assert txs[..i + 1][..i] == txs[..i];
        sum := sum + txs[i].gasWei;
      }
      assert txs[..|txs|] == txs;
    }

    method Confirm(p: Phase, r: Receipt)
      modifies this
      ensures Now() == Settle(old(Now()), approval, p, r)
    {
      if !alive {
        return;
      }
      if !r.observed || !r.success {
        alive := false;
        return;
      }
      checkpoint := checkpoint.(transactions := checkpoint.transactions + [Tx(p, Cost(r))], pendingPhase := None);
      var spent := CumulativeGas();
      if r.effectivePrice > approval.priceCeiling || spent > approval.gasCap {
        alive := false;
        return;
      }
      Save(Confirmed(p));
    }

    method MarkPhase(p: Phase)
      modifies this
      ensures Now() == MarkPending(old(Now()), p)
    {
      checkpoint := checkpoint.(pendingPhase := Some(p));
      Save(Pending(p));
    }

    /** A transaction through the SDK, whose signature passes the hook. */
    method RunSdkPhase(s: Surroundings, p: Phase)
      modifies this
      ensures Now() == RunTx(old(Now()), approval, s, p)
    {
      if !alive {
        return;
      }
      var spent := CumulativeGas();
      if OfferedPrice(s.networkPrice(p)) > approval.priceCeiling || approval.gasCap - spent <= 0 {
        alive := false;
        return;
      }
      MarkPhase(p);
      if alive && !HookAllows(Now(), approval, s.sdkGas(p), s.sdkPrice(p)) {
        alive := false;
        return;
      }
      Broadcast(p, s.receipts(p));
      Confirm(p, s.receipts(p));
    }

    /** A transaction sent directly with a fixed gas limit. */
    method RunDirectPhase(s: Surroundings, p: Phase)
      modifies this
      ensures Now() == RunWalletTx(old(Now()), approval, s, p)
    {
      if !alive {
        return;
      }
      if !DirectAllows(Now(), approval, s, p) {
        alive := false;
        return;
      }
      MarkPhase(p);
      Broadcast(p, s.receipts(p));
      Confirm(p, s.receipts(p));
    }

    method Load(s: Surroundings)
      modifies this
      ensures Now() == Begin(old(disk), old(chain), s)
    {
      effects, checkpoint, alive := s.effects, Fresh, false;
      if s.resume {
        if disk.Some? {
          checkpoint, alive := disk.value, true;
          alive := MayResume(Now(), s) && s.startChecks;
        }
      } else {
        alive := s.startChecks;
        if disk.Some? {
          alive := false;
        }
        Save(NotStarted);
      }
    }

    method AcquirePayment(s: Surroundings)
      modifies this
      ensures Now() == Acquire(old(Now()), approval, s)
    {
      if !alive || s.balance >= approval.acceptedPrice || !NeedsFunding(Now(), s) {
        return;
      }
      if Has(checkpoint.transactions, SwapForU) || !approval.swapAllowed || !s.swapChecks {
        alive := false;
        return;
      }
      if s.needsWrap {
        RunDirectPhase(s, WrapBnb);
      }
      if !s.wbnbAllowanceKnown {
        alive := false;
      } else if s.needsWbnbApproval {
        RunDirectPhase(s, ApproveWbnb);
      }
      RunDirectPhase(s, SwapForU);
      if s.balanceAfterSwap < approval.acceptedPrice {
        alive := false;
      }
    }

    method CreateIfNeeded(s: Surroundings)
      modifies this
      ensures Now() == Create(old(Now()), approval, s)
    {
      if !alive || checkpoint.jobId.Some? {
        return;
      }
      RunSdkPhase(s, CreateJob);
      if !alive {
        return;
      }
      if !s.idFound || chain.jobs == [] {
        Save(IdReconciliationRequired);
        alive := false;
      } else {
        checkpoint := checkpoint.(jobId := Some(|chain.jobs| - 1));
        Save(JobCreated);
      }
    }

    method PrepareJob(s: Surroundings)
      modifies this
      ensures Now() == Budget(Register(old(Now()), approval, s), approval, s)
    {
      RegisterPolicy(s);
      SetExactBudget(s);
    }

    method RegisterPolicy(s: Surroundings)
      modifies this
      ensures Now() == Register(old(Now()), approval, s)
    {
      if alive {
        match JobOf(Now())
        case None => alive := false;
        case Some(job) =>
          if job.policy == Unbound {
            RunSdkPhase(s, RegisterJob);
          } else if job.policy != ApprovedPolicy {
            alive := false;
          }
      }
    }

    method SetExactBudget(s: Surroundings)
      modifies this
      ensures Now() == Budget(old(Now()), approval, s)
    {
      if alive {
        match JobOf(Now())
        case None => alive := false;
        case Some(job) =>
          if job.budget == 0 {
            RunSdkPhase(s, SetBudget);
          } else if job.budget != approval.acceptedPrice {
            alive := false;
          }
      }
    }

    method ApproveExactPayment(s: Surroundings)
      modifies this
      ensures Now() == Allow(old(Now()), approval, s)
    {
      if !alive {
        return;
      }
      if s.allowance != 0 && s.allowance != approval.acceptedPrice {
        alive := false;
        return;
      }
      if s.allowance == 0 {
        RunSdkPhase(s, ApprovePayment);
      }
      if s.allowanceAfter != approval.acceptedPrice || !s.fundingWindow {
        alive := false;
      }
    }

    method FundIfOpen(s: Surroundings)
      modifies this
      ensures Now() == Fund(old(Now()), approval, s)
    {
      if !alive {
        return;
      }
      if JobOf(Now()).None? || !s.jobMatches {
        alive := false;
        return;
      }
      if JobOf(Now()).value.status != Open {
        return;
      }
      if !s.quoteOpen {
        alive := false;
        return;
      }
      PrepareJob(s);
      ApproveExactPayment(s);
      RunSdkPhase(s, FundJob);
    }

    method VerifyFunded(s: Surroundings)
      modifies this
      ensures Now() == Finish(old(Now()), s)
    {
      if alive {
        var job := JobOf(Now());
        if job.None? || job.value.status !in {Funded, Submitted, Completed} || !s.finishChecks {
          alive := false;
        } else {
          Save(FundedVerified);
        }
      }
    }

    /** One run of the command. What the checkpoint file promised before it, it promises after it, wherever it stops. */
    method Run(s: Surroundings)
      modifies this
      ensures Now() == Attempt(old(disk), old(chain), approval, s)
      ensures DiskInv(old(disk), old(chain), approval) && Honest(s) ==> DiskInv(disk, chain, approval)
    {
      ghost var d, c := disk, chain;
      Load(s);
      AcquirePayment(s);
      CreateIfNeeded(s);
      FundIfOpen(s);
      VerifyFunded(s);
      if DiskInv(d, c, approval) && Honest(s) {
        AttemptKeeps(d, c, approval, s);
      }
    }
  }
}
