# PositionCrew protocols in Dafny

PositionCrew sells on-chain services through marketplaces it does not control. Its programs are restarted by timers, talk to
indexers that lag, and hold keys that move money. This project models the parts that must survive crashes, retries and
untrusted reads, and proves what they keep over every run.

| file | what it models |
|---|---|
| `Runs.dfy`, `Outcomes.dfy` | runs of a step function and induction over them; absent values and thrown errors |
| `Decimals.dfy` | decimal amounts to base units and back |
| `AacpLifecycle.dfy`, `AacpInvariants.dfy`, `AacpRecording.dfy` | the signer-free order guard: mined receipts, indexed projections, what any run of both keeps, and what each records |
| `RuntimePolling.dfy`, `PollingExactlyOnce.dfy`, `PollingProgress.dfy`, `RuntimeReplies.dfy` | the runtime host's polling loop with its cursor, overlap and dedupe window, and what it answers |
| `InboxCollection.dfy` | collecting an order's messages, choosing the buyer's message, and fetching it again |
| `SignedJournal.dfy`, `JournalService.dfy` | the write-ahead journal of signed transactions, the delivery windows, and what a run of the service sends |
| `LpActivation.dfy`, `LpCompletion.dfy`, `LpPermissions.dfy` | the funded LP activation with its durable checkpoint, its completion from any resumable checkpoint, and what an attempt may put on chain |
| `ShadowGrid.dfy`, `ShadowGridRuns.dfy`, `ShadowGridCollector.dfy`, `ShadowGridRefinement.dfy`, `ShadowGridOutcomes.dfy` | the append-only shadow-grid ledger, concurrent collectors, one collector invocation and the sweep of abandoned runs, that an invocation is a run of the concurrent protocol, and every outcome of both |
| `AltanaActivation.dfy`, `AltanaFinisher.dfy`, `AltanaRows.dfy` | the multi-caller finisher that must execute at most once, one finisher call, and every move of the row |
| `OrderAlerts.dfy`, `OrderScans.dfy` | the order watcher, its outbox and the notifier, and what a scan reads, remembers and reports |
| `BlindBenchmark.dfy`, `BenchmarkVerdict.dfy` | blinding, opening and scoring of the benchmark, and what its verdict means |
| `IpLiteral.dfy` | the client-address recogniser and its grammar |
| `VenusSupply.dfy` | the share-rounding check of a Venus supply |

How the outside world appears. A crash is an argument: how many durable effects (file writes, broadcasts) happen before the
process dies, or a step of the machine that removes a worker. Servers, chains, databases, clocks and randomness are arguments
too; what a result needs from them is written as its precondition (an oldest-first inbox, receipts within the signed gas, a
price sample taken between two clock readings). Programs that update objects or files are classes whose methods equal a
specification function or log their effects as steps of a protocol; the theorems are then about those functions and protocols.

Findings. Some promises hold only under a condition, which is stated and shown to be needed:

- A payload recovered from a journal that was never synced can be sent and then erased by a power loss, after which a second
  payload is signed for the same journal (`DoubleFaultSendsTwo`, `HastyRecoverySendsTwo`). Deaths of processes alone cannot do this
  (`AtMostOnePayload`), and neither can power losses when recovery re-sends synced entries only
  (`AtMostOnePayloadAcrossPowerLoss`).
- A finisher can fail a submission with a code that is no chain evidence (`StaleFailureFailsASubmission`), if it read the row
  back before the submission was persisted (`CurrentReadsFailWithEvidence`). It cannot happen while no caller throws before its
  claim is decided (`OnlyEvidenceFailsASubmission`). `AtRiskExactly` says from which states it can still happen: from the creation
  until the submission is persisted, as long as the lease and its owner last, and afterwards only through a caller that has
  already read the row back.
- The sweep of abandoned shadow-grid runs and the sampler do not always agree. For the same events and clock the sweep voids every
  late run, while the sampler first finishes the initialization and refuses a run whose plan is not actionable. They agree exactly
  on the runs that are not late or whose plan is actionable (`SweepAndSamplerAgree`), and a run cut short before its refusal is
  one on which they differ (`SweepVoidsRefusableRun`).
- Polling makes progress exactly as long as a served page holds an unprocessed message (`ProgressExactly`), which at most 24
  messages in every closed one-second window guarantee (`CycleMakesProgress`). The bound is exact: with 25 messages in one closed
  second a server may return the same full page for ever, and a later message is never recorded (`CrowdedSecondStarves`).
- A recorded action of the order guard closes its projection to every other action, with one exception (`ActionCloses`): a
  delivery after the redo leaves the cancellation of an expired order permitted until the delivery is indexed.
- The status table of the order guard allows many more edges than an accepted projection can take; `EffectiveEdge` is what is
  left once receipts and evidence are taken together.

## Model

| member | source | states |
|---|---|---|
| `Decimals.UnitsScaleDenotation` | src/commerce/aacp-lifecycle.ts:266-274 | parsing succeeds exactly when the fraction fits the token decimals, and then gives the denoted rational times ten to the decimals |
| `Decimals.EqualAmountsIffSameNumber` | src/commerce/aacp-lifecycle.ts:276-278 | two amounts within the precision are equal exactly when they denote the same rational number; otherwise the comparison throws |
| `Decimals.ParseOfFormat` | src/commerce/aacp-onboarding.ts:137-148 | printing any base-unit value with any number of decimals and parsing it again returns it |
| `Decimals.FormatOfParse` | src/commerce/aacp-onboarding.ts:137-148 | printing a parsed decimal gives its canonical form |
| `Decimals.CanonicalDenotes` | src/commerce/aacp-onboarding.ts:143-148 | the canonical form denotes the same number |
| `Decimals.DecimalExact` | src/contracts/common.ts:11-13 | the amounts are exactly the numbers without redundant leading zeros, alone or followed by a point and digits |
| `AacpInvariants.PermissionExact` | src/commerce/aacp-lifecycle.ts:667-753 | an action passes the guard exactly when projection, receipts and clock permit it, with the derived stage eliminated |
| `AacpInvariants.AwaitingExact` | src/commerce/aacp-lifecycle.ts:475-519 | when an order still awaits acceptance |
| `AacpInvariants.WorkingExact` | src/commerce/aacp-lifecycle.ts:475-519 | when the provider may still work, in both rounds |
| `AacpInvariants.ReviewExact` | src/commerce/aacp-lifecycle.ts:475-519 | when the buyer may still review a delivery |
| `AacpInvariants.RecordedReceiptFaithful` | src/commerce/aacp-lifecycle.ts:634-665 | a receipt that may be recorded has the reviewed actor, target, value, terms and order, a delivery the reviewed hash, and a challenge the reviewed panel of distinct evaluators |
| `AacpInvariants.RecordKeepsInv` | src/commerce/aacp-lifecycle.ts:773-828 | recording a mined transaction keeps the joint invariant of receipts and projection; what is recorded is in `AacpRecording.RecordingExact` |
| `AacpInvariants.ReconcileFollowsGraph` | src/commerce/aacp-lifecycle.ts:830-948 | from any reachable state an accepted projection follows the effective graph, and the first one is PENDING_ACCEPT |
| `AacpInvariants.ReconcileExact` | src/commerce/aacp-lifecycle.ts:830-948 | in every state of the guard a projection of the plan is accepted exactly when receipts back it and it is the first or follows the effective graph, so the loose table adds nothing |
| `AacpInvariants.ReconcileKeepsInv` | src/commerce/aacp-lifecycle.ts:896-948 | accepting a projection keeps the joint invariant |
| `AacpInvariants.CheckoutIsFresh` | src/commerce/aacp-lifecycle.ts:609-632 | a bound checkout starts without order and receipts and denotes the reviewed amount |
| `AacpInvariants.AcceptedMatchesPlan` | src/commerce/aacp-lifecycle.ts:903-931 | accepted projections carry the plan's currency, amount and agents and stay with one order |
| `AacpInvariants.RunKeepsHistory` | src/commerce/aacp-lifecycle.ts:773-948 | over every run the invariant holds and the accepted projections form a path of the effective graph |
| `AacpInvariants.RunHistory` | src/commerce/aacp-lifecycle.ts:844-948 | acceptance, dispute, settlement and redo each need an earlier delivery; cancellation after a delivery needs the redo; terminal states absorb; the redo flag never clears |
| `AacpInvariants.DeliveryCountExact` | src/commerce/aacp-lifecycle.ts:703-719 | deliveries recorded are at most one, or two with a redo, and exactly that many once a delivery is indexed; a redo flag implies a redo receipt |
| `AacpInvariants.ReceiptsConserved` | src/commerce/aacp-lifecycle.ts:773-828 | single approval, creation and acceptance in order, distinct hashes, faithful receipts, and a total allowance of zero or exactly the budget |
| `AacpInvariants.ReRecordingChangesNothing` | src/commerce/aacp-lifecycle.ts:801-828 | recording a mined transaction again after any further steps and at any later time returns the same binding |
| `AacpRecording.ReviewedExactly` | src/commerce/aacp-lifecycle.ts:634-665 | a mined transaction passes exactly when it has the reviewed action, target, input and value, comes from the wallet of its action, and its call carries the terms of plan, order and expectations |
| `AacpRecording.RecordingExact` | src/commerce/aacp-lifecycle.ts:773-828 | recording succeeds exactly for the reviewed transaction that is already recorded with the same evidence, or new, permitted and within 16; the result is the binding as it was, or with one more receipt that has the mined hash, block, nonce and wallet and the time of recording |
| `AacpRecording.ActionCloses` | src/commerce/aacp-lifecycle.ts:475-519 | a recorded action leaves nothing else to record under its projection, except exactly for a delivery after the redo, which leaves the cancellation of an expired order open |
| `AacpRecording.NothingCompetes` | src/commerce/aacp-lifecycle.ts:773-948 | after a recorded acceptance, cancellation, delivery, release, claim, redo or challenge (a delivery after the redo apart) nothing at all changes over any further steps until a later projection is accepted |
| `AacpRecording.ProjectionExact` | src/commerce/aacp-lifecycle.ts:844-948 | a projection is accepted exactly when it is one of the plan, each receipt its status needs is on record, and it is the first or continues the same order along the effective graph; it then replaces the order and nothing else changes |
| `AacpRecording.CheckoutExact` | src/commerce/aacp-lifecycle.ts:609-632 | a checkout is bound exactly when its currency and amount are the reviewed ones within the token decimals, with nothing recorded yet |
| `RuntimePolling.FailureStops` | src/cli/run-termix-runtime.ts:495-525 | after a failed reply nothing more of the cycle happens |
| `RuntimePolling.RuntimeHost.HandleMessage` | src/cli/run-termix-runtime.ts:495-523 | one message is skipped, or answered or escalated by the decision of `RuntimeReplies.DecisionExact`, and the new state is stored |
| `RuntimePolling.RuntimeHost.RunCycle` | src/cli/run-termix-runtime.ts:479-525 | a cycle polls once from the overlapped cursor and handles the sorted page; state, replies and state file are those of the specification |
| `RuntimePolling.RuntimeHost.RunCycleWithRecovery` | src/cli/run-termix-runtime.ts:459-477 | a transient failure keeps the state from before the cycle while replies and the state file may be ahead |
| `RuntimeReplies.DecisionExact` | src/commerce/aacp-runtime.ts:147-173 | by the fields of a message, whether it is answered, and for which of the two reasons it goes to the operator |
| `RuntimeReplies.CycleSays` | src/cli/run-termix-runtime.ts:479-525 | the replies of a cycle are those to the recorded texts with content that concern neither an order nor a dispute, each with its own key; each recorded text that does is brought to the operator with its reason; status, processed IDs, cursor and times follow from the recorded messages alone |
| `RuntimeReplies.PageOrder` | src/cli/run-termix-runtime.ts:489-493 | a page is handled by time of creation and, among messages of one time, by ID |
| `PollingExactlyOnce.SortSorts` | src/cli/run-termix-runtime.ts:489-493 | the page is handled in order of creation and is a permutation of what was served |
| `PollingExactlyOnce.RememberedAreLogged` | src/commerce/aacp-runtime.ts:193-198 | a processed ID in the window belongs to a recorded message |
| `PollingExactlyOnce.LoggedAreRemembered` | src/commerce/aacp-runtime.ts:204-233 | a recorded message that a poll can still return has not been evicted |
| `PollingExactlyOnce.WorldStepKeeps` | src/cli/run-termix-runtime.ts:459-525 | every cycle, stop and restart keeps the dedupe invariant |
| `PollingExactlyOnce.NoMessageRecordedTwice` | src/commerce/aacp-runtime.ts:193-237 | with at most 1000 messages in every closed two-second window no message is recorded twice over any number of cycles and restarts |
| `PollingExactlyOnce.KeysDistinct` | src/commerce/aacp-runtime.ts:147-173 | replies to different messages have different keys |
| `PollingExactlyOnce.RepliesUnderOneKeyAgree` | src/cli/run-termix-runtime.ts:459-525 | over every run, with failing cycles and deaths, replies sent under one key are identical |
| `PollingExactlyOnce.NoReplySentTwice` | src/cli/run-termix-runtime.ts:479-525 | over completed cycles no reply key is sent twice |
| `PollingProgress.FirstPartCovers` | src/cli/run-termix-runtime.ts:489-523 | handling the first messages of a sorted page records them and moves the cursor no further than the last of them |
| `PollingProgress.CycleCoversPage` | src/cli/run-termix-runtime.ts:489-523 | a completed cycle records the whole page |
| `PollingProgress.PartOfPageKeepsMail` | src/cli/run-termix-runtime.ts:489-523 | wherever a cycle stops, by a failed reply or a death, no unrecorded message falls behind the overlapped cursor |
| `PollingProgress.ProgressExactly` | src/cli/run-termix-runtime.ts:489-523 | a completed cycle records something exactly when some served message was not processed, and otherwise leaves the request time as it was |
| `PollingProgress.CycleMakesProgress` | src/cli/run-termix-runtime.ts:489-523 | with at most 24 messages in every closed one-second window a completed cycle with pending mail records a new message |
| `PollingProgress.NothingIsLost` | src/cli/run-termix-runtime.ts:459-525 | over every run of completed, failing and dying cycles unrecorded mail stays within reach of the running host and of a restart |
| `PollingProgress.AllMailIsRecorded` | src/cli/run-termix-runtime.ts:459-525 | once mail stops arriving, as many completed cycles as there are pending messages record all of them in memory and on disk, whatever fails or dies in between |
| `PollingProgress.CrowdedSecondStarves` | src/cli/run-termix-runtime.ts:479-493 | with 25 messages in one closed second any number of completed cycles may leave a later message unrecorded, so 24 is exact |
| `InboxCollection.AddPage` | src/cli/run-termix-service.ts:47-53 | a page is merged by ID; it fails exactly when two messages share an ID, in the page or with what is known |
| `InboxCollection.FullPage` | src/cli/run-termix-service.ts:56-58 | after a full page everything older than the new starting time has been collected |
| `InboxCollection.ShortPage` | src/cli/run-termix-service.ts:54 | a page that is not full completes the collection |
| `InboxCollection.CrowdedPage` | src/cli/run-termix-service.ts:55-57 | how many new messages a page must bring, by the density of the inbox |
| `InboxCollection.CollectRuntimeMessages` | src/cli/run-termix-service.ts:40-61 | whatever the inbox answers, the pages that explain the result, and a result holds exactly their messages, none of them changed; all or nothing: against an oldest-first inbox a result is every message in scope once; an inbox with fewer than 100 messages per window can only fail by exceeding a stated capacity |
| `InboxCollection.IntakeIsStrictlyLatest` | src/cli/run-termix-service.ts:24-39 | requirements are taken from a message exactly when it is the strictly latest eligible buyer message |
| `InboxCollection.NoIntakeExactly` | src/cli/run-termix-service.ts:24-39 | there is no requirement exactly when the client has written no text for the order in its conversation |
| `InboxCollection.TargetAhead` | src/cli/prepare-termix-lending-delivery.ts:368-382 | a page without the target is full and holds nothing newer than the target |
| `InboxCollection.SearchPage` | src/cli/prepare-termix-lending-delivery.ts:374-413 | which outcome each page has, every failure exactly under its condition |
| `InboxCollection.MatchesExact` | src/cli/prepare-termix-lending-delivery.ts:374-380 | the matches of a page are its entries with the ID, each as often as it occurs |
| `InboxCollection.OnlyCrowdingFails` | src/cli/prepare-termix-lending-delivery.ts:406-411 | a search behind its target fails only on a hundred messages in one millisecond window |
| `InboxCollection.FetchRuntimeMessage` | src/cli/prepare-termix-lending-delivery.ts:358-416 | the cursor never passes an unread target; the search returns the target or meets a crowded window or its page limit, and without a crowded window it only fails if the inbox holds more messages up to the target than twenty pages must bring |
| `InboxCollection.LocatedOnFirstPage` | src/cli/run-termix-service.ts:36-37 | a located message is on the first page of its own search |
| `InboxCollection.ChosenIsFetched` | src/cli/run-termix-service.ts:24-39 | collecting, choosing and fetching agree on one message |
| `SignedJournal.JournalNamesDistinct` | src/cli/fulfill-termix-lending.ts:67-69 | different orders and rounds never share a journal name |
| `SignedJournal.ProcessStepKeeps` | src/cli/fulfill-termix-lending.ts:70-75 | every step of every worker keeps the journal invariant |
| `SignedJournal.AtMostOnePayload` | src/cli/fulfill-termix-lending.ts:93-154 | for any interleaving of workers that die anywhere, all bytes sent under one journal name are identical and in the journal |
| `SignedJournal.EntriesArePermanent` | src/cli/fulfill-termix-lending.ts:70-75 | a complete journal entry keeps its payload |
| `SignedJournal.ErasureExact` | src/cli/fulfill-termix-lending.ts:70-75 | a power loss can erase the entry of something sent exactly when that entry is not durable |
| `SignedJournal.AtMostOnePayloadAcrossPowerLoss` | src/cli/fulfill-termix-lending.ts:70-75 | with power losses one payload is sent per name if recovery re-sends durable entries only |
| `SignedJournal.HastyRecoverySendsTwo` | src/cli/fulfill-termix-lending.ts:97-107 | that condition is needed: wherever recovery is about to re-send an entry that is not durable, some continuation sends a second payload |
| `SignedJournal.DoubleFaultSendsTwo` | src/cli/fulfill-termix-lending.ts:97-107 | a concrete run in which an unsynced entry is re-sent, erased and signed anew |
| `SignedJournal.LoneWorkerSends` | src/cli/fulfill-termix-lending.ts:149-154 | a lone worker that finds no entry gets its payload out |
| `SignedJournal.SigningLeavesTimeToSend` | src/cli/fulfill-termix-lending.ts:40-54 | a delivery signed inside the signing window can be sent at a later time for all terms exactly when that is within 180 seconds for lending and 60 for capital reports |
| `SignedJournal.FreshDeliveryIsSent` | src/cli/fulfill-termix-lending.ts:149-154 | a worker that is not killed and sends within the slack gets its delivery out |
| `SignedJournal.SentInWindow` | src/cli/fulfill-termix-lending.ts:97-154 | nothing is journaled outside the signing window or sent outside the delivery window |
| `SignedJournal.DeliveryHost.DurableJournal` | src/cli/fulfill-termix-lending.ts:70-75 | the file after any number of its four effects, and success only with all of them on a new name |
| `SignedJournal.DeliveryHost.RunFulfillment` | src/cli/fulfill-termix-lending.ts:77-158 | recover or sign, journal and send; files and broadcasts are those of the specification and replay as protocol steps |
| `SignedJournal.DeliveryHost.Recover` | src/cli/fulfill-termix-lending.ts:97-108 | recovery sends the journaled payload under the recovery checks and nothing else |
| `SignedJournal.RecoverySettlesAll` | src/cli/run-termix-service.ts:92-120 | when recovery is through, every journal is complete and its transaction is on chain |
| `SignedJournal.RecoverySendsWanted` | src/cli/run-termix-service.ts:97-117 | recovery sends only journaled payloads without a receipt that order, policy and clock still permit, and none without the execute flag |
| `SignedJournal.DeliveryHost.Resend` | src/cli/run-termix-service.ts:97-118 | one journal is settled, sent again, or stops the run, replayed as protocol steps |
| `SignedJournal.DeliveryHost.RecoverAll` | src/cli/run-termix-service.ts:92-120 | the loop over every journal of every reservation equals the specification, wherever it dies |
| `SignedJournal.DeliveryHost.RunService` | src/cli/run-termix-service.ts:92-228 | one run equals the specification: nothing is sent or written without the execute flag, and nothing new is journaled while a found journal is not settled |
| `SignedJournal.HostSendsOnePayload` | src/cli/fulfill-termix-lending.ts:67-154 | however many recoveries and workers a host has run, one payload per name was sent, and it is journaled |
| `JournalService.RecoveryExact` | src/cli/run-termix-service.ts:92-120 | recovery is through exactly when every journal is on chain, or due and confirmed after sending, and the process lives to send what is due; it has then sent exactly the due payloads, in order |
| `JournalService.RecoveryStopsAt` | src/cli/run-termix-service.ts:99-118 | a recovery that is not through has stopped at one journal, behind settled ones, and has sent what was due up to there |
| `JournalService.DeliveryExact` | src/cli/fulfill-termix-lending.ts:93-154 | what one worker journals and sends, in the times of policy, order and result and the margins of two and five minutes, 30, 60, 90 and 240 seconds |
| `JournalService.SuccessExact` | src/cli/fulfill-termix-lending.ts:93-158 | a worker ends without an error exactly when its transaction is on chain or gets there, or nothing is to be delivered yet |
| `JournalService.FailureEndsTheRun` | src/cli/run-termix-service.ts:215-228 | the first delivery that fails is the last one of a run |
| `JournalService.EveryFreshDeliveryIsSent` | src/cli/run-termix-service.ts:92-228 | in a run whose journals are all settled each prepared delivery is sent, in order, as long as none before it has gone wrong |
| `JournalService.ServiceSendsLicensed` | src/cli/run-termix-service.ts:92-228 | everything a run sends is a journaled payload that is due, or a delivery inside its windows in an executing run whose journals are all settled; without the flag nothing is sent or written |
| `LpActivation.SubmitKeeps` | src/cli/activate-bnb-lp-range-provider.ts:519-532 | a submitted phase leaves an accounting checkpoint on disk wherever it stops |
| `LpActivation.RunTxKeeps` | src/cli/activate-bnb-lp-range-provider.ts:503-532 | a phase through the SDK stays within the cap and is recorded before the next begins |
| `LpActivation.RunWalletTxKeeps` | src/cli/activate-bnb-lp-range-provider.ts:533-554 | the same for directly sent phases with fixed gas limits |
| `LpActivation.BeginKeeps` | src/cli/activate-bnb-lp-range-provider.ts:426-445 | the resume rules leave no create without its job ID |
| `LpActivation.CreateKeeps` | src/cli/activate-bnb-lp-range-provider.ts:588-603 | creating the job keeps the accounts, with or without a recovered ID |
| `LpActivation.FundKeeps` | src/cli/activate-bnb-lp-range-provider.ts:604-630 | bringing an open job to funded keeps the accounts |
| `LpActivation.AttemptKeeps` | src/cli/activate-bnb-lp-range-provider.ts:426-632 | one whole attempt, stopped anywhere, keeps the durable invariant |
| `LpActivation.GasAndEffectsBounded` | src/cli/activate-bnb-lp-range-provider.ts:494-632 | over any number of attempts true gas stays within the cap, create, swap and fund are mined at most once, and a checkpoint without a pending phase has recorded everything |
| `LpActivation.PendingPhaseRefuses` | src/cli/activate-bnb-lp-range-provider.ts:437 | a pending phase on disk stops every later attempt before any effect |
| `LpActivation.UndisturbedAttemptFunds` | src/cli/activate-bnb-lp-range-provider.ts:588-632 | an undisturbed first attempt mines exactly create, register, budget, approve and fund |
| `LpCompletion.QuietAttemptFunds` | src/cli/activate-bnb-lp-range-provider.ts:426-658 | from a fresh start or any checkpoint that may be resumed, with a swap if the balance is short, one quiet attempt brings the job to funded and verified with everything mined recorded |
| `LpPermissions.AttemptFollowsPlan` | src/cli/activate-bnb-lp-range-provider.ts:426-632 | for any checkpoint, chain and surroundings the transactions an attempt adds are those of its plan up to some point, each allowed, within price ceiling and remaining gas as signed, and after the ones before were confirmed; none before the start checks, no second swap; a completed attempt has added its whole plan |
| `LpPermissions.NoSwapWithoutApproval` | src/cli/activate-bnb-lp-range-provider.ts:556-586 | without an approved swap, with failing swap checks or with enough of the token nothing is wrapped, approved for the router or swapped |
| `LpPermissions.FundingIsSound` | src/cli/activate-bnb-lp-range-provider.ts:604-630 | a job is funded only if it was open, matches, has the approved policy and exactly the accepted price as budget, with an open quote, an exact visible allowance and the funding window |
| `LpPermissions.CompletionIsVerified` | src/cli/activate-bnb-lp-range-provider.ts:631-658 | an attempt that runs to its end has verified the funded job and recorded everything |
| `LpPermissions.SdkPhaseExact` | src/cli/activate-bnb-lp-range-provider.ts:503-532 | when a phase through the SDK is sent, and when it is recorded and the attempt goes on: price ceiling, hook, remaining gas, receipt, and the checkpoint it leaves |
| `LpPermissions.DirectPhaseExact` | src/cli/activate-bnb-lp-range-provider.ts:533-554 | the same for the directly sent phases with gas limits of 50000, 90000 and 350000 |
| `LpPermissions.TotalIsSum` | src/cli/activate-bnb-lp-range-provider.ts:496 | the gas counted against the cap is the sum of what was recorded |
| `LpActivation.ActivationCommand.CumulativeGas` | src/cli/activate-bnb-lp-range-provider.ts:496 | the loop sums the recorded gas |
| `LpActivation.ActivationCommand.RunSdkPhase` | src/cli/activate-bnb-lp-range-provider.ts:503-532 | fee check, pending checkpoint, signing hook, broadcast, receipt and record equal the specification |
| `LpActivation.ActivationCommand.RunDirectPhase` | src/cli/activate-bnb-lp-range-provider.ts:533-554 | the same for directly sent phases |
| `LpActivation.ActivationCommand.Run` | src/cli/activate-bnb-lp-range-provider.ts:418-658 | one run of the command equals the attempt of which `LpPermissions.AttemptFollowsPlan` says what it may put on chain, and keeps the durable invariant |
| `ShadowGrid.AppendOnly` | src/operations/shadow-grid-store.ts:155-269 | an append never rewrites, never extends a finished run, and returns a true prefix |
| `ShadowGrid.SamplingIsInWindow` | worker/index.ts:973-1000 | a sampler that is neither early nor late is at one of three samples and inside its window |
| `ShadowGrid.SampledRunIsActionable` | worker/index.ts:834-849 | only a run with an actionable plan is ever sampled |
| `ShadowGrid.SamplesAdvance` | worker/index.ts:1008-1022 | samples have strictly increasing blocks and times, each in its own window |
| `ShadowGrid.RunShape` | src/operations/bounded-grid-forward-shadow.ts:224-257 | the shape of a well-recorded run, with at most three samples and closed only with three |
| `ShadowGridRuns.AppendKeeps` | worker/index.ts:601-618 | an append on a true view keeps the run well recorded if the event fits that view |
| `ShadowGridRuns.CheckKeeps` | worker/index.ts:994-1015 | a sample that passes the completion checks fits the run |
| `ShadowGridRuns.StepKeeps` | worker/index.ts:789-1059 | every step of every collector, sweep and crash keeps the invariant |
| `ShadowGridRuns.EveryRunIsWellRecorded` | worker/index.ts:789-1059 | every interleaving of collectors and crashes records a run of the proper shape |
| `ShadowGridRuns.TerminalIsFinal` | src/operations/shadow-grid-store.ts:155-201 | the ledger only grows, and not after a terminal event |
| `ShadowGridRuns.NoFourthSample` | worker/index.ts:973-981 | once three samples are recorded there is never a fourth |
| `ShadowGridCollector.ProcessedKeeps` | worker/index.ts:961-1059 | one invocation keeps the run well recorded even on an outdated view |
| `ShadowGridCollector.OnTimeTick` | worker/index.ts:973-1059 | an on-time invocation adds exactly its sample and closes the run at the horizon |
| `ShadowGridCollector.ClosesOnTime` | worker/index.ts:973-1059 | three on-time invocations close the run with three samples |
| `ShadowGridCollector.LedgerStore.AppendEvent` | src/operations/shadow-grid-store.ts:228-269 | compare-and-append with idempotent replay |
| `ShadowGridCollector.LedgerStore.ResumeInitialization` | worker/index.ts:789-851 | an interrupted initialization is finished and a plan that is not actionable is refused |
| `ShadowGridCollector.LedgerStore.RecordSample` | worker/index.ts:1016-1030 | a sample and its fills are appended one by one until a conflict |
| `ShadowGridCollector.LedgerStore.ProcessOpenRun` | worker/index.ts:961-1059 | one invocation equals the specification, keeps the run well recorded and never rewrites it |
| `ShadowGridRefinement.InvocationIsARun` | worker/index.ts:961-1059 | the effect of one invocation on the ledger, whatever view it was loaded with, is that of a run of the concurrent protocol |
| `ShadowGridRefinement.CallIsARun` | worker/index.ts:961-1059 | an invocation that arrives and loads the ledger as it is has the effect of a run of the protocol from before its arrival |
| `ShadowGridRefinement.SweepStepExact` | worker/index.ts:1204-1238 | the sweep of the protocol goes on to void a run exactly when the verdict on it says so |
| `ShadowGridCollector.VerdictsPartition` | worker/index.ts:1198-1262 | every candidate of the sweep has exactly one verdict |
| `ShadowGridCollector.GivesUpExactly` | worker/index.ts:961-975 | an invocation voids an open run for a missing sample exactly when it is late and its sealed plan is actionable; a plan that is not actionable is refused at any time |
| `ShadowGridCollector.SweepAndSamplerAgree` | worker/index.ts:1204-1238 | the sweep voids exactly the late runs, and agrees with the sampler exactly on runs that are not late or have an actionable plan |
| `ShadowGridCollector.SweepVoidsRefusableRun` | worker/index.ts:1204-1238 | a run cut short before its refusal is voided by the sweep and refused by the sampler |
| `ShadowGridCollector.Sweep` | worker/index.ts:1198-1262 | candidates are excluded or examined, and examined ones are voided, deferred, terminal or failed, each counted once |
| `ShadowGridCollector.CleanUp` | worker/index.ts:1187-1272 | the whole cleanup: its batch of at most 50, its balanced counters, truncation and status, and the one failure without a run |
| `ShadowGridOutcomes.InvocationExact` | worker/index.ts:961-1059 | every outcome of one invocation on an open run: the events it adds, with each fill and the time of each event, from the recorded samples and the clock |
| `ShadowGridOutcomes.NothingToDo` | worker/index.ts:961-967 | an invocation on a run that is not there or has ended changes nothing |
| `ShadowGridOutcomes.AppendExact` | src/operations/shadow-grid-store.ts:155-269 | when an append writes its event, when it is a replay of what is already there, and that all others are conflicts |
| `ShadowGridOutcomes.VerdictExact` | worker/index.ts:1198-1262 | when the sweep voids, defers, finds ended or fails a candidate, whatever could be read, verified and voided of it |
| `AltanaActivation.ClaimKeeps` | src/commerce/d1-altana-activation-store.ts:188-206 | a granted claim has exactly one owner |
| `AltanaActivation.ExecuteKeeps` | src/commerce/altana-venus-activation.ts:575-581 | the owner uses its one chance to execute |
| `AltanaActivation.ExecutesAtMostOnce` | worker/index.ts:2137-2313 | for any interleaving, database fault and death the relay executes at most once, and exactly once when the row shows a submission |
| `AltanaActivation.OnlyTheClaimantExecutes` | worker/index.ts:2147-2182 | resumed calls never execute |
| `AltanaActivation.FinalRowsStay` | src/commerce/d1-altana-activation-store.ts:188-295 | completed and failed rows are final |
| `AltanaActivation.OnlyEvidenceFailsASubmission` | worker/index.ts:2237-2245 | while no caller throws before its claim is decided, only the three evidence codes fail a persisted submission |
| `AltanaActivation.CurrentReadsFailWithEvidence` | worker/index.ts:2238-2243 | with any faults, a submission is failed without evidence only after a read-back from before it was persisted |
| `AltanaActivation.FailureHitsSubmission` | src/commerce/d1-altana-activation-store.ts:290-295 | a failure write that goes through fails a submission whatever its code |
| `AltanaActivation.StaleFailureFailsASubmission` | worker/index.ts:2237-2245 | a concrete run in which a stale read-back fails a submission |
| `AltanaActivation.NextStepFailsExactly` | worker/index.ts:2237-2245 | in any state with a submission, some step fails it without evidence exactly when a caller is about to write such a failure |
| `AltanaActivation.StaleReadFailsASubmission` | worker/index.ts:2237-2245 | from any state with a caller caught without evidence and an owner that has executed, three steps persist the submission and fail it |
| `AltanaActivation.AtRiskExactly` | worker/index.ts:2137-2245 | from any state, some continuation fails a submission without evidence exactly when the row can still be claimed or submitted, or a caller has read it back too early |
| `AltanaFinisher.ActivationStore.ClaimAndExecute` | worker/index.ts:2162-2181 | the only way to the relay, at most once and only from a row it claims |
| `AltanaFinisher.ActivationStore.ConfirmSubmission` | worker/index.ts:2151-2160 | a submission is confirmed, kept, or failed by evidence |
| `AltanaFinisher.ActivationStore.FailUnlessSubmitted` | worker/index.ts:2238-2244 | a persisted submission is only failed by evidence |
| `AltanaFinisher.ActivationStore.Finish` | worker/index.ts:2137-2313 | one call is a run of one caller of the protocol, whatever others did before; it executes at most once and only if nobody did, keeps finished rows, and when nothing goes wrong completes any unfinished row |
| `AltanaRows.RowMovesExactly` | src/commerce/d1-altana-activation-store.ts:188-295 | every step takes the row along one of the stated moves under its stated condition, with the five-minute leases, and otherwise leaves it |
| `AltanaRows.ExecutionExact` | src/commerce/altana-venus-activation.ts:575-581 | the relay is asked exactly by an authorized caller's execution |
| `AltanaRows.CallerMovesExactly` | worker/index.ts:2137-2313 | where each authorization, execution and write leads its caller: on if it is carried out, reported and hits the state it is meant for, and otherwise to a second attempt, an error or the end |
| `AltanaRows.OthersStay` | worker/index.ts:2137-2313 | no step of one caller moves another |
| `AltanaRows.BeginExact` | worker/index.ts:2140-2165 | where a caller goes from the row it has read: resume, claim, or give up |
| `AltanaRows.ReadBackExact` | worker/index.ts:2237-2244 | what was caught becomes a failure unless the row read back is a submission and the code is none of the three evidence codes |
| `AltanaRows.EvidenceExact` | worker/index.ts:2219-2234 | after a confirmation at the second attempt only the three evidence codes fail the row |
| `BlindBenchmark.EveryCriterionIsScored` | src/benchmark/evidence.ts:826-835 | as many scores as criteria, none twice and none foreign, leave no criterion unscored |
| `BlindBenchmark.ScoreCandidate` | src/benchmark/evidence.ts:822-850 | succeeds exactly on well-scored candidates, with the total and the number of critical failures |
| `BlindBenchmark.TotalAtMostHundred` | src/benchmark/contracts.ts:25-41 | a well-scored candidate gets at most 100 |
| `BlindBenchmark.TotalOfPermutation` | src/benchmark/evidence.ts:836-849 | totals do not depend on the order of the rubric |
| `BlindBenchmark.WellScoredOfPermutation` | src/benchmark/evidence.ts:826-845 | nor does acceptance |
| `BlindBenchmark.TotalOfShuffledScores` | src/benchmark/evidence.ts:836-849 | nor on the order in which criteria were scored |
| `BlindBenchmark.MappingVerifiesIffLabelsDiffer` | src/benchmark/evidence.ts:742-757 | the committed mapping verifies exactly when the two labels differ |
| `BlindBenchmark.ResolutionRecoversTheRuns` | src/benchmark/evidence.ts:768-820 | opening the mapping finds the manual run, the first agent run and the withheld repeat for either coin |
| `BlindBenchmark.VerdictScoresTheRightRuns` | src/benchmark/evidence.ts:908-972 | the published result is about the first agent run and the manual run, and only a dependent evaluator withholds it; `BenchmarkVerdict.VerdictExact` says what it publishes |
| `BlindBenchmark.CoinCannotChangeTheVerdict` | src/benchmark/evidence.ts:679-706 | the whole result is the same for both coins |
| `BenchmarkVerdict.VerdictExact` | src/benchmark/evidence.ts:908-972 | the published verdict over the records: it supports the advantage exactly when the agent scores no lower than the manual run, all agent runs have one output, nothing failed conformance or critically, and the median is below the manual time; its counts, median and runs are those of the records |
| `BenchmarkVerdict.TwiceMedianIsMiddle` | src/benchmark/evidence.ts:893-898 | the median is the middle of the values in order |
| `BenchmarkVerdict.RunsAreTheLowest` | src/benchmark/evidence.ts:679-688 | the representative and the withheld repeat are the agent runs with the lowest numbers |
| `BenchmarkVerdict.RevealNeedsEvidence` | src/benchmark/evidence.ts:742-820 | an opened mapping agrees with the packet and the captured records in every candidate it assigns |
| `BenchmarkVerdict.WellScoredExact` | src/benchmark/evidence.ts:826-845 | a candidate is well scored exactly when it has as many scores as the rubric has criteria and each criterion has one within its maximum that is a critical failure only if the criterion is critical |
| `BenchmarkVerdict.ScoresInOrder` | src/benchmark/evidence.ts:836-849 | scores listed in rubric order total to the sum of their points, with as many critical failures as are marked |
| `BenchmarkVerdict.WeightIsSum` | src/benchmark/contracts.ts:25-34 | the maxima of a frozen rubric sum to 100 |
| `IpLiteral.Ipv4IsQuad` | src/api/trusted-gateway.ts:19-24 | the dotted-quad test accepts exactly four canonical decimals up to 255 |
| `IpLiteral.RecogniserIsGrammar` | src/api/trusted-gateway.ts:26-40 | the recogniser accepts exactly the dotted quads and the texts of section 2.2 of RFC 4291 |
| `IpLiteral.HexDigitExact` | src/api/trusted-gateway.ts:19-40 | the characters of hexadecimal groups and of decimals |
| `IpLiteral.Ipv6Length` | src/api/trusted-gateway.ts:28 | no grammatical literal exceeds the length cap |
| `IpLiteral.LongestLiteral` | src/api/trusted-gateway.ts:28 | a grammatical literal of 45 characters exists |
| `VenusSupply.EveryMintIsAccepted` | src/commerce/buyer-venus-confirm.ts:35-40 | every mint of floor(amount times scale over rate) shares with a positive value passes |
| `VenusSupply.AcceptsUpToOneShare` | src/commerce/buyer-venus-confirm.ts:38-40 | whatever one more share could be worth is enough |
| `VenusSupply.AcceptedShortfall` | src/commerce/buyer-venus-confirm.ts:35-40 | an accepted amount is less than one raw share plus one raw unit short |
| `VenusSupply.ShortfallIsTight` | src/commerce/buyer-venus-confirm.ts:35-40 | that bound is reached |
| `VenusSupply.AcceptanceIsMonotone` | src/commerce/buyer-venus-confirm.ts:35-40 | a higher exchange rate never turns acceptance into rejection |
| `VenusSupply.AcceptanceExact` | src/commerce/buyer-venus-confirm.ts:35-40 | a supply is accepted exactly when its shares are worth something, and together with the value of one share at least the amount, in whole raw units at 18 decimals |
| `OrderAlerts.UnseenOrderTransitions` | src/cli/watch-termix-orders.ts:69-84 | the loop computes the new observations and the changed orders |
| `OrderAlerts.NewObservationsAreChanged` | src/cli/watch-termix-orders.ts:69-84 | every new observation is that of a changed order |
| `OrderAlerts.SecondScanReportsNothing` | src/cli/watch-termix-orders.ts:69-84 | a second scan of the same distinct orders changes nothing |
| `OrderAlerts.Dedupe` | src/cli/watch-termix-orders.ts:131 | one order per ID, in its latest version |
| `OrderAlerts.FetchOrders` | src/cli/watch-termix-orders.ts:117-145 | all pages up to the last, every order once, and each failure under its condition |
| `OrderScans.ArrayPagesAreFetched` | src/cli/watch-termix-orders.ts:117-145 | from an endpoint that lists its orders in array pages of fifty all of them are fetched, each once, up to the first page that is not full |
| `OrderScans.CountedPagesAreFetched` | src/cli/watch-termix-orders.ts:117-145 | and from one that counts its pages, up to the last |
| `OrderScans.UncountedPagesAreFetched` | src/cli/watch-termix-orders.ts:117-145 | and from pages without a count, up to the first that is not full |
| `OrderScans.ScanExact` | src/cli/watch-termix-orders.ts:50-84 | a scan remembers every order and reports exactly the actionable ones that are new or differ in status, due date, redo or permitted actions |
| `OrderScans.WatchExact` | src/cli/watch-termix-orders.ts:162-190 | the alert files of a run that may die anywhere hold the fields of the first so many reported orders, under their own names |
| `OrderScans.BatchExact` | src/cli/notify-termix-orders.ts:67-73 | the notifier takes the first twelve files it lists |
| `OrderAlerts.StepKeeps` | src/cli/watch-termix-orders.ts:162-190 | every write, death, send and unlink keeps each change's own alert file accounted for |
| `OrderAlerts.NoActionableOrderIsLost` | src/cli/notify-termix-orders.ts:62-83 | for any interleaving and any deaths, every change a stored cursor has taken in has an alert file of its own in the outbox or with the messenger, and every actionable observation in the cursor comes from such a change |
| `OrderAlerts.EveryStoredChangeIsNew` | src/cli/watch-termix-orders.ts:162-190 | each actionable observation in which a new cursor differs comes from a change of that very scan that was not stored before |
| `OrderAlerts.ScanStartsUnreported` | src/cli/watch-termix-orders.ts:166-171 | nothing the messenger took before a scan can pass for an alert of that scan |
| `OrderAlerts.AlertStore.Watch` | src/cli/watch-termix-orders.ts:162-190 | one watcher run, dying anywhere, writes an alert for each change under its own new name before its cursor, and is a run of the protocol |
| `OrderAlerts.AlertStore.UnlinkBatch` | src/cli/notify-termix-orders.ts:82 | delivered entries are removed one by one |
| `OrderAlerts.AlertStore.Notify` | src/cli/notify-termix-orders.ts:62-83 | one notifier run removes exactly the confirmed batch of at most twelve, as far as it gets, and is a run of the protocol |

## Left out

- Hashes, signatures and canonical JSON: a hash is equal exactly when its contents are, calldata is already decoded, and a
  corrupt or torn file never passes its hash check.
- Zod shapes, HTML, command-line parsing, log lines and error texts: errors are constructors, one per throw.
- AACP intents: the two spellings `to`/`contract` and `data`/`callData` are one field; checkout-plan construction and the
  reviewed identity registry are parameters of the plan.
- AACP `claimAfterTimeout` without a challenge window reports a missing deadline here, where the code's message names the window.
- Runtime polling: `localeCompare` is modelled as the order of characters, the typing signal before a reply has no effect, and
  token expiry is left out.
- Runtime polling and inbox searches: server errors other than a failed reply end the call and are not modelled.
- Inbox: unreadable timestamps are modelled for the fetched message only; the schema of the accepted message and the parsing of
  its text into an intake are not part of this model.
- Signed journals: policy contents beyond expiry, gas cap and order match are one boolean; the preparation subprocess, nonce and
  gas checks are one optional result; the service's ledger of reservations and its signing of acceptances are left out, as its
  acceptance journal follows the same protocol; a node that already knows a transaction counts as taking it. The deliveries of one
  service run are given, and each either goes through its worker or ends the run.
- LP activation: preflight contents, balances and allowances are observations; an SDK call signs one transaction; reads of the job
  show the current chain, on which funding at most once relies, and the job does not change while an attempt runs; the checkpoint
  file is replaced as a whole, so a torn first write is not modelled; delivery polling after funding is left out.
- LP activation: the repeated balance check after the swap is dropped, since the swap branch has already thrown.
- Shadow grid: the fill calculation, prices and hash verification are observations; a freshly opened run may be sampled in the
  same invocation, which the code does not do and which only adds runs; late-start and collision answers are left out.
- ShadowGridCollector.Sweep: the database's answers for each candidate are given, since other invocations may act in between.
- Altana: creation limits and the receipt contents are left out; expiry of running leases by other requests is one step.
- Blind benchmark: floating-point medians are compared doubled, identities are already normalised, cost medians are left out.
- Order alerts: orders of other providers are filtered out before the scan; alert file names are fresh, as they hash a random UUID; message layout and credential choice are left out.
- Buyer withdrawals, benchmark bundles, external-provider activation, provider strategies, HTTP handlers and body readers.
