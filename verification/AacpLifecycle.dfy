/** The signer-free AACP order guard: a checkout plan, the mined receipts recorded against it and
    the indexed projections it accepts. Every step returns a new binding or an error. */
module AacpLifecycle {
  import opened Outcomes
  import opened Decimals
  import opened Runs

  type Millis = int

  type Amount = s: string | IsDecimal(s) witness "0"

  datatype Action =
    | ApproveEscrow | CreateOrder | CancelPending | AcceptOrder | SubmitDelivery
    | CancelExpired | ReleaseEscrow | RequestRedo | ClaimAfterTimeout | OpenChallenge

  datatype Status = PendingAccept | Funded | InProgress | Delivered | Accepted | InDispute | Settled | Cancelled

  datatype Stage =
    | CheckoutCreated | EscrowApproved | OrderIndexing | AwaitingAcceptance | CancellationIndexing
    | ProviderAcceptIndexing | Working | DeliveryIndexing | DeliveredStage | RedoIndexing
    | WorkingOnRedo | DisputeIndexing | Disputed | SettlementIndexing | SettledStage | CancelledStage

  datatype Error =
    | CheckoutCurrency | CheckoutAmount | AmountPrecision
    | UnexpectedAction | NativeValue | UnexpectedTarget
    | NotAnApproval | ApprovalSpender | ApprovalAmount
    | NotAnEscrowCall | WrongFunction | CreateOrderTerms | OrderNotIndexed | WrongOrderId
    | MissingArgument | MissingExpectation | WrongDeliveryHash | WrongPanel
    | MinedActor | MinedTarget | MinedInput | MinedValue
    | ConflictingHash | AlreadyMined | AfterCreation | AlreadyIndexed | MissingDeadline
    | TooEarly | TooLate | NotReadyForDelivery | RedoAlreadyUsed | StageForbids | TooManyReceipts
    | NoCreateReceipt | NoAcceptReceipt | TooFewDeliveries | NoChallengeReceipt | NoRedoReceipt
    | NoReleaseReceipt | NoCancellationReceipt | NoSettlementReceipt
    | ProjectionCurrency | ProjectionAmount | ProjectionAgents
    | OrderIdentity | OnChainIdentity | Regressed | StaleObservation | RedoCleared | ResumeWithoutRedo

  datatype Currency = Currency(symbol: string, decimals: nat, address: string, escrow: string)

  datatype Plan = Plan(
    currency: Currency, amount: Amount,
    clientAgentId: string, clientAgentTokenId: nat, clientWallet: string,
    providerAgentId: string, providerAgentTokenId: nat, providerWallet: string,
    agreementHash: string, deliveryDeadline: Millis, settlementMode: nat, challengeWindowSeconds: nat)

  datatype Panel = Panel(first: nat, second: nat, third: nat)

  /** Contract calldata after decoding. `OrderCall` is an escrow function whose only argument is the order ID. */
  datatype Call =
    | ApproveCall(spender: string, amount: nat)
    | CreateOrderCall(providerAgent: nat, agreement: string, budget: nat, deadline: int,
                      settlementMode: nat, challengeWindow: nat, clientAgent: nat)
    | OrderCall(name: Action, orderId: string)
    | SubmitDeliveryCall(orderId: string, deliveryHash: string)
    | OpenChallengeCall(orderId: string, panel: Panel)
    | Undecodable(bytes: string)

  datatype Intent = Intent(action: Action, target: string, data: Call, value: string, id: string, nonceKey: string)

  datatype Expectations = Expectations(deliveryHash: Option<string>, evaluators: Option<Panel>)

  datatype Mined = Mined(action: Action, from: string, to: string, input: Call, value: string,
                         txHash: string, blockNumber: string, nonce: string)

  /** A recorded receipt. `intent` stands for the hash of the normalised intent, which commits to it. */
  datatype Receipt = Receipt(action: Action, actor: string, target: string, intent: Intent,
                             txHash: string, blockNumber: string, nonce: string, observedAt: Millis)

  datatype Observation = Observation(
    orderId: string, onChainOrderId: string, status: Status, amount: Amount, currency: string,
    clientAgentId: string, providerAgentId: string,
    acceptDeadline: Option<Millis>, deliveryDueAt: Option<Millis>, challengeWindowEndsAt: Option<Millis>,
    redoUsed: bool, canSubmitDelivery: bool, observedAt: Millis)

  datatype Binding = Binding(plan: Plan, order: Option<Observation>, receipts: seq<Receipt>, updatedAt: Millis)

  const MAX_RECEIPTS: nat := 16

  // ---- case-insensitive hexadecimal ----

  function LowerChar(c: char): char {
    if 'A' <= c <= 'Z' then (c as int + 32) as char else c
  }

  function Lower(s: string): (t: string)
    ensures |t| == |s|
  {
    seq(|s|, i requires 0 <= i < |s| => LowerChar(s[i]))
  }

  predicate SameText(left: string, right: string) {
    Lower(left) == Lower(right)
  }

  // ---- receipts ----

  predicate HasAction(receipts: seq<Receipt>, action: Action) {
    exists i :: 0 <= i < |receipts| && receipts[i].action == action
  }

  function CountAction(receipts: seq<Receipt>, action: Action): nat {
    if receipts == [] then 0
    else CountAction(receipts[..|receipts| - 1], action) + (if receipts[|receipts| - 1].action == action then 1 else 0)
  }

  /** The action of the last receipt among `actions` seen at or after `since`. */
  function LatestActionSince(receipts: seq<Receipt>, actions: set<Action>, since: Millis): Option<Action> {
    if receipts == [] then None
    else
      var last := receipts[|receipts| - 1];
      if last.action in actions && last.observedAt >= since then Some(last.action)
      else LatestActionSince(receipts[..|receipts| - 1], actions, since)
  }

  function LatestActionAfterObservation(b: Binding, actions: set<Action>): Option<Action> {
    match b.order
    case None => None
    case Some(o) => LatestActionSince(b.receipts, actions, o.observedAt)
  }

  function DeriveStage(b: Binding): Stage {
    match b.order
    case None =>
      if HasAction(b.receipts, CreateOrder) then OrderIndexing
      else if HasAction(b.receipts, ApproveEscrow) then EscrowApproved
      else CheckoutCreated
    case Some(o) =>
      match o.status
      case PendingAccept =>
        if LatestActionAfterObservation(b, {CancelPending}).Some? then CancellationIndexing
        else if HasAction(b.receipts, AcceptOrder) then ProviderAcceptIndexing else AwaitingAcceptance
      case Funded => WorkingStage(b, o)
      case InProgress => WorkingStage(b, o)
      case Delivered =>
        (match LatestActionAfterObservation(b, {ReleaseEscrow, ClaimAfterTimeout, RequestRedo, OpenChallenge})
         case Some(ReleaseEscrow) => SettlementIndexing
         case Some(ClaimAfterTimeout) => SettlementIndexing
         case Some(RequestRedo) => RedoIndexing
         case Some(OpenChallenge) => DisputeIndexing
         case _ => DeliveredStage)
      case Accepted => SettlementIndexing
      case InDispute => Disputed
      case Settled => SettledStage
      case Cancelled => CancelledStage
  }

  function WorkingStage(b: Binding, o: Observation): Stage {
    if LatestActionAfterObservation(b, {CancelExpired}).Some? then CancellationIndexing
    else if o.redoUsed then WorkingOnRedo
    else if HasAction(b.receipts, SubmitDelivery) && LatestActionAfterObservation(b, {SubmitDelivery}).Some?
    then DeliveryIndexing else Working
  }

  // ---- intents ----

  function Budget(plan: Plan): Result<nat, DecimalError> {
    DecimalToUnits(plan.amount, plan.currency.decimals)
  }

  function ExpectedTarget(plan: Plan, action: Action): string {
    if action == ApproveEscrow then plan.currency.address else plan.currency.escrow
  }

  function ExpectedActor(plan: Plan, action: Action): string {
    if action in {AcceptOrder, SubmitDelivery, ClaimAfterTimeout} then plan.providerWallet else plan.clientWallet
  }

  function FunctionName(call: Call): Option<Action> {
    match call
    case CreateOrderCall(_, _, _, _, _, _, _) => Some(CreateOrder)
    case OrderCall(name, _) => if name == ApproveEscrow then None else Some(name)
    case SubmitDeliveryCall(_, _) => Some(SubmitDelivery)
    case OpenChallengeCall(_, _) => Some(OpenChallenge)
    case _ => None
  }

  /** None when the decoded calldata is what the reviewed plan, order and expectations demand. */
  function DecodedIntentError(b: Binding, intent: Intent, expected: Expectations): Option<Error> {
    if intent.action == ApproveEscrow then ApprovalError(b.plan, intent.data)
    else if FunctionName(intent.data) == None then Some(NotAnEscrowCall)
    else if FunctionName(intent.data) != Some(intent.action) then Some(WrongFunction)
    else if intent.action == CreateOrder then CreateOrderError(b.plan, intent.data)
    else OrderCallError(b.order, intent, expected)
  }

  function ApprovalError(plan: Plan, call: Call): Option<Error> {
    if !call.ApproveCall? then Some(NotAnApproval)
    else if !SameText(call.spender, plan.currency.escrow) then Some(ApprovalSpender)
    else match Budget(plan)
      case Err(_) => Some(AmountPrecision)
      case Ok(budget) => if call.amount != budget then Some(ApprovalAmount) else None
  }

  function CreateOrderError(plan: Plan, call: Call): Option<Error> {
    if !call.CreateOrderCall? then Some(MissingArgument)
    else if call.providerAgent != plan.providerAgentTokenId || !SameText(call.agreement, plan.agreementHash)
    then Some(CreateOrderTerms)
    else match Budget(plan)
      case Err(_) => Some(AmountPrecision)
      case Ok(budget) =>
        if || call.budget != budget
           || call.deadline != plan.deliveryDeadline / 1000
           || call.settlementMode != plan.settlementMode
           || call.challengeWindow != plan.challengeWindowSeconds
           || call.clientAgent != plan.clientAgentTokenId
        then Some(CreateOrderTerms) else None
  }

  function OrderIdOf(call: Call): Option<string> {
    match call
    case OrderCall(_, id) => Some(id)
    case SubmitDeliveryCall(id, _) => Some(id)
    case OpenChallengeCall(id, _) => Some(id)
    case _ => None
  }

  function OrderCallError(order: Option<Observation>, intent: Intent, expected: Expectations): Option<Error> {
    match (order, OrderIdOf(intent.data))
    case (None, _) => Some(OrderNotIndexed)
    case (_, None) => Some(MissingArgument)
    case (Some(o), Some(id)) =>
      if !SameText(id, o.onChainOrderId) then Some(WrongOrderId)
      else if intent.action == SubmitDelivery then
        (if expected.deliveryHash.None? then Some(MissingExpectation)
         else if !intent.data.SubmitDeliveryCall? then Some(MissingArgument)
         else if !SameText(intent.data.deliveryHash, expected.deliveryHash.value) then Some(WrongDeliveryHash) else None)
      else if intent.action == OpenChallenge then
        (if expected.evaluators.None? then Some(MissingExpectation)
         else if !intent.data.OpenChallengeCall? then Some(MissingArgument)
         else
           var p := intent.data.panel;
           if p.first == p.second || p.second == p.third || p.first == p.third || p != expected.evaluators.value
           then Some(WrongPanel) else None)
      else None
  }

  function IntentError(b: Binding, intent: Intent, action: Action, expected: Expectations): Option<Error> {
    if intent.action != action then Some(UnexpectedAction)
    else if intent.value != "0" then Some(NativeValue)
    else if !SameText(intent.target, ExpectedTarget(b.plan, action)) then Some(UnexpectedTarget)
    else DecodedIntentError(b, intent, expected)
  }

  function Normalized(intent: Intent): Intent {
    intent.(target := Lower(intent.target))
  }

  // ---- permission to record ----

  function ActionError(b: Binding, action: Action, now: Millis): Option<Error> {
    var stage := DeriveStage(b);
    match action
    case ApproveEscrow =>
      if HasAction(b.receipts, ApproveEscrow) then Some(AlreadyMined)
      else if b.order.Some? || HasAction(b.receipts, CreateOrder) then Some(AfterCreation) else None
    case CreateOrder =>
      if b.order.Some? then Some(AlreadyIndexed)
      else if HasAction(b.receipts, CreateOrder) then Some(AlreadyMined)
      else if now >= b.plan.deliveryDeadline then Some(TooLate) else None
    case AcceptOrder => if stage == AwaitingAcceptance then None else Some(StageForbids)
    case CancelPending =>
      if stage != AwaitingAcceptance then Some(StageForbids) else AfterDeadline(b.order.value.acceptDeadline, now)
    case SubmitDelivery =>
      if stage !in {Working, WorkingOnRedo} then Some(StageForbids) else SubmitDeliveryError(b, b.order.value, now)
    case CancelExpired =>
      if stage !in {Working, WorkingOnRedo} then Some(StageForbids) else AfterDeadline(b.order.value.deliveryDueAt, now)
    case ReleaseEscrow => if stage == DeliveredStage then None else Some(StageForbids)
    case RequestRedo =>
      if stage != DeliveredStage then Some(StageForbids)
      else if !InChallengeWindow(b.order.value, now) then Some(TooLate)
      else if b.order.value.redoUsed then Some(RedoAlreadyUsed) else None
    case OpenChallenge =>
      if stage != DeliveredStage then Some(StageForbids)
      else if !InChallengeWindow(b.order.value, now) then Some(TooLate) else None
    case ClaimAfterTimeout =>
      if stage != DeliveredStage then Some(StageForbids) else AfterDeadline(b.order.value.challengeWindowEndsAt, now)
  }

  function AfterDeadline(deadline: Option<Millis>, now: Millis): Option<Error> {
    if deadline.None? then Some(MissingDeadline) else if now <= deadline.value then Some(TooEarly) else None
  }

  predicate InChallengeWindow(o: Observation, now: Millis) {
    o.challengeWindowEndsAt.Some? && now <= o.challengeWindowEndsAt.value
  }

  function SubmitDeliveryError(b: Binding, o: Observation, now: Millis): Option<Error> {
    if CountAction(b.receipts, SubmitDelivery) > (if o.redoUsed then 1 else 0) then Some(AlreadyMined)
    else if !o.canSubmitDelivery then Some(NotReadyForDelivery)
    else if o.deliveryDueAt.None? then Some(MissingDeadline)
    else if now > o.deliveryDueAt.value then Some(TooLate) else None
  }

  // ---- the steps ----

  function BindCheckout(plan: Plan, currency: string, amount: Amount, now: Millis): Result<Binding, Error> {
    if currency != plan.currency.symbol then Err(CheckoutCurrency)
    else match EqualAmounts(amount, plan.amount, plan.currency.decimals)
      case Err(_) => Err(AmountPrecision)
      case Ok(same) => if same then Ok(Binding(plan, None, [], now)) else Err(CheckoutAmount)
  }

  function MinedError(b: Binding, intent: Intent, mined: Mined, expected: Expectations): Option<Error> {
    var invalid := IntentError(b, intent, mined.action, expected);
    if invalid.Some? then invalid
    else if !SameText(mined.from, ExpectedActor(b.plan, mined.action)) then Some(MinedActor)
    else if !SameText(mined.to, intent.target) then Some(MinedTarget)
    else if mined.input != intent.data then Some(MinedInput)
    else if mined.value != intent.value then Some(MinedValue)
    else None
  }

  function ReceiptOf(intent: Intent, mined: Mined, now: Millis): Receipt {
    Receipt(mined.action, mined.from, intent.target, Normalized(intent), mined.txHash,
            mined.blockNumber, mined.nonce, now)
  }

  /** The first receipt with the given transaction hash, compared without case. */
  function FindHash(receipts: seq<Receipt>, hash: string): Option<Receipt> {
    if receipts == [] then None
    else if SameText(receipts[0].txHash, hash) then Some(receipts[0])
    else FindHash(receipts[1..], hash)
  }

  function RecordMined(b: Binding, intent: Intent, mined: Mined, now: Millis, expected: Expectations)
    : Result<Binding, Error>
  {
    var invalid := MinedError(b, intent, mined, expected);
    if invalid.Some? then Err(invalid.value)
    else
      var recorded := ReceiptOf(intent, mined, now);
      match FindHash(b.receipts, recorded.txHash)
      case Some(prior) => if prior.(observedAt := now) != recorded then Err(ConflictingHash) else Ok(b)
      case None =>
        var forbidden := ActionError(b, mined.action, now);
        if forbidden.Some? then Err(forbidden.value)
        else if |b.receipts| >= MAX_RECEIPTS then Err(TooManyReceipts)
        else Ok(b.(receipts := b.receipts + [recorded], updatedAt := now))
  }

  predicate TableAllows(from: Status, to: Status) {
    match from
    case PendingAccept => true
    case Funded => to != PendingAccept
    case InProgress => to !in {PendingAccept, Funded}
    case Delivered => to in {Delivered, InProgress, Accepted, InDispute, Settled}
    case Accepted => to in {Accepted, Settled}
    case InDispute => to in {InDispute, Settled}
    case Settled => to == Settled
    case Cancelled => to == Cancelled
  }

  predicate PastDelivery(status: Status) {
    status in {Delivered, Accepted, InDispute, Settled}
  }

  function EvidenceError(b: Binding, o: Observation): Option<Error> {
    var r := b.receipts;
    if !HasAction(r, CreateOrder) then Some(NoCreateReceipt)
    else if o.status !in {PendingAccept, Cancelled} && !HasAction(r, AcceptOrder) then Some(NoAcceptReceipt)
    else if PastDelivery(o.status) && CountAction(r, SubmitDelivery) < (if o.redoUsed then 2 else 1) then Some(TooFewDeliveries)
    else if o.status == InDispute && !HasAction(r, OpenChallenge) then Some(NoChallengeReceipt)
    else if o.redoUsed && !HasAction(r, RequestRedo) then Some(NoRedoReceipt)
    else if o.status == Accepted && !HasAction(r, ReleaseEscrow) then Some(NoReleaseReceipt)
    else if o.status == Cancelled && !HasAction(r, CancelPending) && !HasAction(r, CancelExpired) then Some(NoCancellationReceipt)
    else if
      && o.status == Settled
      && !(b.order.Some? && b.order.value.status == InDispute)
      && !HasAction(r, ReleaseEscrow) && !HasAction(r, ClaimAfterTimeout)
    then Some(NoSettlementReceipt)
    else None
  }

  function ContinuityError(prior: Observation, o: Observation): Option<Error> {
    if prior.orderId != o.orderId then Some(OrderIdentity)
    else if !SameText(prior.onChainOrderId, o.onChainOrderId) then Some(OnChainIdentity)
    else if !TableAllows(prior.status, o.status) then Some(Regressed)
    else if o.observedAt < prior.observedAt then Some(StaleObservation)
    else if prior.redoUsed && !o.redoUsed then Some(RedoCleared)
    else if prior.status == Delivered && o.status == InProgress && !o.redoUsed then Some(ResumeWithoutRedo)
    else None
  }

  function Reconcile(b: Binding, o: Observation): Result<Binding, Error> {
    var missing := EvidenceError(b, o);
    if missing.Some? then Err(missing.value)
    else if o.currency != b.plan.currency.symbol then Err(ProjectionCurrency)
    else match EqualAmounts(o.amount, b.plan.amount, b.plan.currency.decimals)
      case Err(_) => Err(AmountPrecision)
      case Ok(same) =>
        if !same then Err(ProjectionAmount)
        else if o.clientAgentId != b.plan.clientAgentId || o.providerAgentId != b.plan.providerAgentId then Err(ProjectionAgents)
        else
          var broken := if b.order.Some? then ContinuityError(b.order.value, o) else None;
          if broken.Some? then Err(broken.value)
          else Ok(b.(order := Some(o), updatedAt := o.observedAt))
  }

  // ---- runs ----

  datatype Step =
    | RecordStep(intent: Intent, mined: Mined, now: Millis, expected: Expectations)
    | ReconcileStep(observation: Observation)

  function Apply(b: Binding, step: Step): Result<Binding, Error> {
    match step
    case RecordStep(intent, mined, now, expected) => RecordMined(b, intent, mined, now, expected)
    case ReconcileStep(o) => Reconcile(b, o)
  }

  /** A binding together with the projections accepted so far, oldest first. */
  datatype History = History(binding: Binding, projections: seq<Observation>)

  /** A step that throws leaves the caller with the binding it had. */
  function Advance(h: History, step: Step): History {
    match Apply(h.binding, step)
    case Err(_) => h
    case Ok(b) => History(b, if step.ReconcileStep? then h.projections + [step.observation] else h.projections)
  }

  function Run(start: Binding, steps: seq<Step>): History {
    Fold(History(start, []), steps, Advance)
  }
}
