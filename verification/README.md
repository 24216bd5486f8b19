# XScope control plane: a verified model of its transactional core

The control plane is a set of services over one relational database. Each public
operation is one transaction: it commits entirely or changes nothing. This project
models four connected parts of it in Dafny and proves what they promise over whole
runs, in any order of operations and with any interleaving the locks allow.

**Money** (`prelude` to `claimed_keys`). Reservations are admitted, dispatched, settled,
released or waived; payments, refunds and two-person reviews move the same balances;
every movement is a balanced posting and an outbox event. Admission is decided by
totals (balance, holds, month spend) that the services keep in counter rows which may
be missing at any moment and are then filled from history.

- `rows`, `totals`, `outbox`, `protocol`, `review_rules`, `payment_rules`: the source
  records, the sums over them, and what each operation means when it looks at the sums.
- `projection`, `billing`, `reviews`, `payments`, `catalog`: the transactions as they
  run, step by step on a working copy with counter rows. Each is proved to commit
  exactly what the rule over history says, with every counter still equal to its sum.
- `runs`, `shapes`, `steps`, `soundness`: all operations as steps of one database. Every
  step has one of eight shapes, which the whole-run results are proved over.
- `replay`, `identity`, `funds`, `budgets`, `requests`, `review_history`, `order_book`,
  `price_book`, `permanence`, `repeats`, `stranded`, `claimed_keys`: the whole-run results.

**Outbox consumers** (`worker_rules`, `event_worker`, `consumption`, `fencing`, `feed`).
A leased worker records one effect per event; named consumers hold cursors that are
read without a lock and re-read under one. Worker steps are steps of the same database
as the money operations, so the results hold for their interleavings.

**Managed pools** (`fleet_rows`, `fleet_rules`, `fleet_service`, `fleet_world`,
`drain_safety`, `drain_runs`, `observations`, `race_run`). The world holds the server's
tables and the gateway processes the server never sees directly: snapshots and reports
travel, may be lost or late, and processes stop without a word. Its steps are every
server transaction and every gateway move. A transaction is one step, except an
observation: it is three (the fence is checked, unknown work is cleared, the drain is
judged and everything commits), and between them happens whatever its row locks, on the
pool and on the pool's cluster, leave room for. What is assumed of the surroundings is
the predicate `FleetWorld.Truthful`: a container reported terminated runs no more; an
idle report means that the serving entry was seen without a request strictly after the
fence it names; and a gateway's reports are its own.

**Desired state** (`delivery`, `agent`, `end_to_end`, `acceptance`, `unacceptable`,
`unacceptable_runs`). Versioned revisions with a leased delivery, and the member agent's
apply loop against an API whose calls may fail before or after they take effect.

## Conventions

- Numbers that are stored as 64-bit integers have the type `I64`, and overflow takes
  the branch the code takes. Amounts in the ledger are microunits, a millionth of a
  minor unit.
- An `Instant` carries its place on the time line and its UTC calendar month. Results
  that need a clock that does not go back say so.
- Nondeterminism (fresh identifiers and tokens, which rows another transaction has
  locked, what fails) is a parameter that the results quantify over.
- A digest is the text it is computed from, so two digests are equal only for equal
  text.
- Where a promise turned out not to hold on every input, the input that breaks it is
  given, and the exact condition under which it holds. For each but the retried deletion
  it is a run from the empty state:
  - *A dispatched reservation can be settled.* Not when its account's enforcement is
    switched on while the balance covers less than the holds
    (`Stranded.EnforcementStrands`). Never again once a v1 report has used the
    settlement's event id (`Stranded.ReportStrands`), nor, unless it costs nothing, once
    a capture has used its idempotency key (`Stranded.CaptureStrands`).
    `Funds.SettlementDecided` decides every settlement, and
    `Stranded.UnclaimedSettlementDecided` shows that over runs that use neither name only
    the funds and the 64-bit ranges decide.
  - *A pending refund can be cleared, a paid notification credited, a provider refund
    prepared.* Never once a capture or manual refund has used the key the service needs
    (`ClaimedKeys.TakenKeyStrandsService`, from any database;
    `ClaimedKeys.CaptureStrandsCredit` is a run that does it to a notification). Over runs
    in which no caller does, `ClaimedKeys.CompletionDecided`, `ClaimedKeys.CreditDecided`
    and `ClaimedKeys.PreparationDecided` say when.
  - *Unknown work is cleared only on a fence no earlier than its gateway's end.* Not when a
    gateway of another cluster ends between the fence check and the clearing: its proof
    takes neither row the observation holds (`RaceRun.ClearedTooEarly`). The gateway had
    ended by the fence exactly when its end was on record at the check, which the
    cluster's row lock guarantees for gateways of the pool's own cluster
    (`Observations.OrphansClearedOnlyWhenIdle`).
  - *A broken apply can be retried.* `AgentPull.ConvergesIffRetryable` says when, and
    `AgentPull.LostDeletionIsFinal` shows the delivery that cannot. No run publishes such
    a delivery (`EndToEnd.RunRetryable`).
  - *What is published can be applied.* `Acceptance.PolledIsAccepted` says exactly which
    deliveries an agent takes. A spec or a name that its schema rejects is published
    nevertheless (`UnacceptableRuns.RejectedSpecIsPublished`), and so is the 101st item
    that a scaling step adds to a revision of a hundred that leaves its pool out
    (`UnacceptableRuns.ScalingOverflows`). What the agent refuses stays until an operator
    replaces it (`Unacceptable.RefusedIsStuck`). `Unacceptable.PublishedAcceptable`
    decides it for every revision as it is published.

## Model

| member | source | states |
|---|---|---|
| `Replay.OutboxReproducesMoney` | rust/crates/control-plane/src/billing.rs:346-374 | In every reachable state, folding an account's events gives exactly its customer balance, its held total, and the state and amount of every reservation |
| `Replay.OwnEvents` | rust/crates/control-plane/src/billing.rs:530-600 | A consumer that knew the position before any committed operation knows it after that operation's own events |
| `Repeats.RepeatChangesNothing` | rust/crates/control-plane/src/billing.rs:508-517 | Thirteen kinds of request may be sent again after they committed, at any later time and whatever else has committed since: every table stays as it is, and the answer is success again, except for a conflict exactly when a dispatch's reservation has ended or a reported request has since been reserved |
| `Repeats.OwnReportStands` | rust/crates/control-plane/src/repository.rs:462-512 | A v1 report that was the first under its event id is answered with success forever |
| `Permanence.RecordsLast` | rust/crates/control-plane/src/billing.rs:222-600 | Over every run nothing on record is removed, rewritten or taken back: terms and final states of reservations, usage, postings, payments, refunds, decided reviews, review audits, receipts, enrolments and prices |
| `Identity.BooksAddUp` | rust/crates/control-plane/src/repository.rs:1256-1323 | After every run: customer balance = payments − pending and succeeded refunds − usage; refund clearing = pending refunds; cash clearing = −(payments − succeeded refunds); usage revenue = usage; and every posting belongs to one account and sums to zero |
| `Identity.CapturedAdds` | rust/crates/control-plane/src/repository.rs:697-746 | Capturing a payment keeps the accounting identity of every account |
| `Identity.RefundedAdds` | rust/crates/control-plane/src/refund_service.rs:58-169 | Asking for a refund keeps the accounting identity, through refund clearing while it is pending |
| `Identity.ClearedAdds` | rust/crates/control-plane/src/refund_service.rs:254-318 | Confirming a pending refund keeps the accounting identity without touching the customer's balance |
| `Funds.PrepaidStaysCovered` | rust/crates/control-plane/src/billing.rs:309-322 | From a state with balance >= held, any run that never switches the account's enforcement off keeps balance >= held >= 0 |
| `Funds.SettlementDecided` | rust/crates/control-plane/src/billing.rs:508-590 | Exactly when settling a dispatched reservation within its bounds commits, and exactly when it is refused for lack of funds |
| `Stranded.EnforcementStrands` | rust/crates/control-plane/src/repository.rs:617-628 | A run from the empty database, for any names: enforcement switched on over a dispatched reservation that the balance does not cover, whose settlement is then refused for lack of funds |
| `Stranded.ReportStrands` | rust/crates/control-plane/src/repository.rs:484-513 | A run from the empty database after which a dispatched reservation never settles, whatever follows: a v1 report of another request took the event id its settlement needs |
| `Stranded.CaptureStrands` | rust/crates/control-plane/src/repository.rs:731-744 | The same for a capture whose caller chose the settlement's idempotency key, for every reservation name that makes it a key the endpoint takes (16 to 128 characters): no settlement at a positive price ever commits |
| `Stranded.TakenIdStrands` | rust/crates/control-plane/src/billing.rs:531-553 | From any good database: a reservation that is not settled and whose usage id is taken is never settled by any run |
| `Stranded.TakenKeyStrands` | rust/crates/control-plane/src/billing.rs:570-585 | From any good database: a taken settlement key stays taken and refuses every settlement at a positive price |
| `Stranded.UnclaimedIsFree` | rust/crates/control-plane/src/billing.rs:531-585 | Over every run that uses neither name of a reservation, both stay free until its own settlement takes them |
| `Stranded.UnclaimedSettlementDecided` | rust/crates/control-plane/src/billing.rs:508-590 | So over such runs a settlement within its bounds commits exactly when the account is not short and spend, balance and outbox have 64-bit room |
| `ClaimedKeys.FreeUntilDone` | rust/crates/control-plane/src/repository.rs:731-744 | Over every run in which no capture or manual refund chose it, the key of a refund's clearing, a notification's credit or a provider refund's hold is free until that has happened |
| `ClaimedKeys.CompletionDecided` | rust/crates/control-plane/src/refund_service.rs:254-318 | Over such runs a proven pending refund is cleared exactly when its proof is new, its amount fits 64 bits in microunits and the outbox has room |
| `ClaimedKeys.CreditDecided` | rust/crates/control-plane/src/payment_service.rs:187-226 | Over such runs a verified paid production notification of a pending order is accepted exactly when its trade is not a payment's already and balance and outbox have room |
| `ClaimedKeys.PreparationDecided` | rust/crates/control-plane/src/refund_service.rs:101-155 | Over such runs a provider refund within its payment is prepared exactly when the available balance covers it and the numbers have room |
| `ClaimedKeys.TakenKeyStrandsService` | rust/crates/control-plane/src/refund_service.rs:254-318 | From any good database: once the key is taken for something else, the clearing, the credit or the preparation is refused in every later database |
| `ClaimedKeys.CaptureStrandsCredit` | rust/crates/control-plane/src/payment_service.rs:187-226 | A run from the empty database after which an order's own verified and paid notification is never credited, whatever follows: a capture of another order took the key it needs |
| `Funds.CoveredSettlementIsPaid` | rust/crates/control-plane/src/billing.rs:518-590 | A covered account never refuses a settlement for lack of funds, because the price is at most the amount held |
| `Funds.PrepaidRunsSettle` | rust/crates/control-plane/src/billing.rs:469-600 | The two together: after any run that keeps enforcement on, whatever was dispatched settles without being short |
| `Funds.PriceWithinHold` | rust/crates/control-plane/src/billing.rs:518-530 | Usage within the reserved bounds has a price, which is nonnegative and at most the reserved amount |
| `Budgets.BudgetsHold` | rust/crates/control-plane/src/billing.rs:323-346 | With a clock that never goes back and no v1 metering, no month of a budgeted key is ever over budget, whichever month its holds settle in; current spend plus all holds still fit |
| `Budgets.ShapeThrifty` | rust/crates/control-plane/src/billing_projection.rs:100-167 | What any operation of the protocol adds to a key's month it takes from the key's hold, or has checked against the budget |
| `Requests.OneRequestOneCharge` | rust/crates/control-plane/src/billing.rs:249-303 | In every reachable state a request has at most one reservation; it has a usage event beside a reservation only if that is the reservation's own settlement; and idempotency keys are unique, with exactly one charge posting, of the settled amount, for each settlement that cost something |
| `Requests.RequestSettledIffMetered` | rust/crates/control-plane/src/repository.rs:462-533 | For each reservation: its request is metered iff it is settled, and a charge is posted iff it is settled with a positive cost |
| `ReviewHistory.ReviewsAreConsistent` | rust/crates/control-plane/src/billing_review.rs:302-406 | In every reachable state a decided review was decided by somebody other than its submitter, has exactly two audit rows, and its reservation shows its outcome: settled with exactly that usage, or waived with no cost |
| `ReviewHistory.ApprovalsAgree` | rust/crates/control-plane/src/billing_review.rs:323-405 | No reservation has both a settled and a waived review, and two settled reviews of one reservation carry the same usage |
| `OrderBook.OrdersArePaidOnce` | rust/crates/control-plane/src/payment_service.rs:99-229 | In every reachable state an order is paid iff exactly one payment, for its full amount, exists; each payment has exactly one top-up posting; pending plus succeeded refunds never exceed the captured amount |
| `OrderBook.RefundedCapture` | rust/crates/control-plane/src/repository.rs:784-833 | A new refund that passed its check keeps all refunds of the payment, pending ones included, within the payment |
| `PriceBook.FrozenPriceIsHistorical` | rust/crates/control-plane/src/catalog.rs:104-182 | However the catalog is edited later, a reservation's frozen price is what the price book says of its version, forever |
| `PriceBook.PricesNeverChange` | rust/crates/control-plane/src/catalog.rs:44-81 | Over every run price rows are only added, never changed or removed |
| `PriceBook.AdmissionNeverOverflows` | rust/crates/domain/src/catalog.rs:54-84 | In every reachable state a request within the context window of an active model has a worst-case cost that fits 64 bits |
| `CatalogService.AdmittedCostFits` | rust/crates/domain/src/catalog.rs:54-84 | A validated model prices every request within its context window, at no more than window times the larger price |
| `Effects.CostMonotone` | rust/crates/domain/src/lib.rs:491-512 | Cost grows with both token counts, so fewer tokens than admitted can never overflow |
| `CatalogService.BootstrapKeepsPrices` | rust/crates/control-plane/src/catalog.rs:44-81 | Bootstrapping neither overwrites an edited model nor changes a price |
| `Soundness.RunSound` | rust/crates/control-plane/src/billing.rs:94-135 | Every reachable database is sound: references resolve, every total fits a bigint, no hold or spend is negative, prices are nonnegative |
| `Steps.StepShape` | rust/crates/control-plane/src/billing.rs:222-600 | Every committed operation writes, announces and moves exactly one of eight things (note, opening, move, charge, metering, capture, refund, clearing) |
| `Billing.ReserveMoney` | rust/crates/control-plane/src/billing.rs:222-376 | Commits the reservation, its hold on account and key and its event, exactly as the sums over history allow, or changes nothing; counters keep equal to history whichever rows were missing |
| `Billing.DispatchMoney` | rust/crates/control-plane/src/billing.rs:390-416 | Only a reserved row is dispatched; a repeated dispatch changes nothing |
| `Billing.ReleaseMoney` | rust/crates/control-plane/src/billing.rs:418-467 | Only an undispatched row is released; both holds go back |
| `Billing.UnresolvedMoney` | rust/crates/control-plane/src/billing.rs:173-220 | An unresolved report is recorded once on a dispatched row and releases nothing |
| `Billing.SettleMoneyLocked` | rust/crates/control-plane/src/billing.rs:490-600 | Usage row, settled reservation, charge posting and events commit together, or nothing does |
| `Billing.SettleMoney` | rust/crates/control-plane/src/billing.rs:469-488 | Settlement under the account lock, equal to its rule over history, with counters kept |
| `Billing.RecordUsageEvent` | rust/crates/control-plane/src/repository.rs:441-533 | A v1 report is metered and charged once; a repeated event id changes nothing; a reserved request is refused |
| `Projection.AccountRow` | rust/crates/control-plane/src/billing_projection.rs:36-50 | A missing balance row is filled with the sums over ledger and holds, an existing one is read |
| `Projection.KeyHold` | rust/crates/control-plane/src/billing_projection.rs:62-74 | A missing key hold is filled with the sum over held reservations |
| `Projection.Monthly` | rust/crates/control-plane/src/billing_projection.rs:100-121 | A missing month is filled with the sum over its usage events |
| `Projection.ChangeHold` | rust/crates/control-plane/src/billing_projection.rs:123-143 | Moves both hold counters by the amount, or refuses exactly when one would overflow or turn negative |
| `Projection.ChangeBalance` | rust/crates/control-plane/src/billing_projection.rs:145-154 | Moves the balance counter by the amount, or refuses exactly on overflow |
| `Projection.ChangeSpend` | rust/crates/control-plane/src/billing_projection.rs:156-177 | Moves the month counter read before the usage row, or refuses exactly when it would leave its range |
| `Projection.Add` | rust/crates/control-plane/src/billing_projection.rs:27-34 | The checked sum, refused exactly on overflow or when it would be negative |
| `Projection.AppendEvent` | rust/crates/control-plane/src/billing.rs:137-170 | The event takes the next sequence of its account and wakes its job |
| `Projection.InsertBalancedEntries` | rust/crates/control-plane/src/repository.rs:1256-1323 | Funds gate, counter, balanced entries and event, in that order, equal to the rule over history |
| `Administration.ProjectionCheck` | rust/crates/control-plane/src/billing_projection.rs:200-258 | Reports exactly whether three counters equal their sums; a rebuild restores all three from any drift and touches no source row |
| `Administration.UpdateBalancePolicy` | rust/crates/control-plane/src/repository.rs:617-628 | Changes the enforcement flag of the account and nothing else |
| `BillingReview.SubmitBillingReview` | rust/crates/control-plane/src/billing_review.rs:171-239 | A review is filed once with its first audit row and event, for a reservation in a reviewable state |
| `BillingReview.DecideBillingReview` | rust/crates/control-plane/src/billing_review.rs:302-406 | Approval settles or waives the reservation in the same transaction as the decision, its audit row and its event |
| `PaymentService.PlaceOrder` | rust/crates/control-plane/src/repository.rs:630-670 | An order starts pending, for a positive amount, in a project of its tenant |
| `PaymentService.AlipayCheckout` | rust/crates/control-plane/src/payment_service.rs:34-74 | A checkout is opened once for a pending order, by one merchant profile |
| `PaymentService.StoreCheckoutCode` | rust/crates/control-plane/src/payment_service.rs:75-97 | The provider's code arrives in a second transaction, after anything may have happened: a checkout that was closed or paid meanwhile keeps its state |
| `PaymentService.CaptureOrderPayment` | rust/crates/control-plane/src/repository.rs:672-746 | Payment, paid order and top-up posting commit together, once per order and per provider reference |
| `PaymentService.AcceptAlipayTrade` | rust/crates/control-plane/src/payment_service.rs:99-229 | Every verified notification is kept once; only a paid production trade of the matching amount credits, and only once |
| `RefundService.CreateManualRefund` | rust/crates/control-plane/src/repository.rs:758-853 | A manual refund is debited at once within what the payment still covers |
| `RefundService.PrepareAlipayRefund` | rust/crates/control-plane/src/refund_service.rs:58-169 | The debit is durable before money moves and never uses credit: available balance must cover it |
| `RefundService.CompleteAlipayRefund` | rust/crates/control-plane/src/refund_service.rs:221-318 | Verified proof clears the pending refund once and leaves the customer's balance alone |
| `CatalogService.PutModel` | rust/crates/control-plane/src/catalog.rs:112-182 | Compare-and-swap on the revision, and a price version can only be repeated with the same terms |
| `CatalogService.BootstrapCatalog` | rust/crates/control-plane/src/catalog.rs:44-81 | Adds the default model and its price only where they are missing |
| `Consumption.RunConsumed` | rust/crates/control-plane/src/event_worker.rs:37-70 | Over every interleaving of money operations, claims, completions, failures, crashes and retries: outboxes are dense, every event verifies, effects are exactly one per sequence 1..acknowledged, a job is idle iff acknowledged equals target and dead iff its attempts are eight |
| `Consumption.CompletionDecided` | rust/crates/control-plane/src/event_worker.rs:265-357 | Completing commits iff it repeats an acknowledgement or the lease is live when it locks the job and when it ends; no event can be the reason it fails; then exactly the batch's effects are added |
| `Consumption.LiveLeaseCompletes` | rust/crates/control-plane/src/event_worker.rs:432-488 | In no reachable state can an event make the completion of a live lease fail |
| `Consumption.OwnEventsVerify` | rust/crates/control-plane/src/event_worker.rs:432-488 | Every event any operation emits passes the consumer's verification against the rows the same operation wrote |
| `Consumption.BatchDense` | rust/crates/control-plane/src/event_worker.rs:229-241 | On a dense log a claimed batch is the slice after the acknowledgement, and is not empty |
| `Fencing.EpochsIncrease` | rust/crates/control-plane/src/event_worker.rs:240-262 | Of two grants to one account, however far apart in a run, the later has the higher epoch |
| `Fencing.OverChangesNothing` | rust/crates/control-plane/src/event_worker.rs:94-113 | A worker whose lease was superseded, given back or ran out changes nothing, however late it wakes up |
| `Fencing.EffectsArePermanent` | rust/crates/control-plane/src/event_worker.rs:296-337 | An effect once recorded is never changed or removed by any run |
| `WorkerRules.NextIsUnique` | rust/crates/control-plane/src/event_worker.rs:192-208 | The claim order decides one job: longest available, then by account |
| `WorkerRules.FindNext` | rust/crates/control-plane/src/event_worker.rs:192-208 | The query returns the first claimable unlocked job in that order, or none when there is none |
| `WorkerRules.BackoffGrows` | rust/crates/control-plane/src/event_worker.rs:428-430 | Delays are positive, never shrink and stay within 300 seconds |
| `EventWorker.ClaimEventJob` | rust/crates/control-plane/src/event_worker.rs:186-263 | Grants the batch under a new epoch, charges a crashed lease one attempt, or does nothing |
| `EventWorker.CompleteEventJob` | rust/crates/control-plane/src/event_worker.rs:265-357 | Effects and acknowledgement commit together, fenced again at the end |
| `EventWorker.ConsumeBatch` | rust/crates/control-plane/src/event_worker.rs:295-337 | The batch loop equals its rule: sequence, verification and at most one effect per event, stopping at the first refusal |
| `EventWorker.FailEventJob` | rust/crates/control-plane/src/event_worker.rs:359-386 | A live lease is given back with one attempt more and a backoff, or dead at the eighth |
| `EventWorker.RetryEventJob` | rust/crates/control-plane/src/event_worker.rs:388-425 | Only a dead job is retried, and its acknowledgement stays |
| `EventWorker.ConsumeRound` | rust/crates/control-plane/src/event_worker.rs:490-530 | One turn of the loop keeps every invariant; with work ready and time enough it lowers the backlog or finds everything idle |
| `EventWorker.Drain` | rust/crates/control-plane/src/event_worker.rs:490-530 | Without new events the loop ends with every job idle and an effect for every event, the backlog being the decreasing measure |
| `OutboxWriters.CommittedIsDense` | rust/crates/control-plane/src/billing.rs:137-170 | Whatever transactions do and in whatever order they end, the committed outbox of every account is 1, 2, 3, .. without gaps |
| `OutboxWriters.ViewsArePrefixes` | rust/crates/control-plane/src/billing_feed.rs:1-3 | A later reader sees what an earlier reader saw and perhaps more after it |
| `OutboxWriters.LockIsNeeded` | rust/crates/control-plane/src/billing.rs:137-138 | For every account and committed log: if locking did not wait, two writers who read before either commits would commit the same sequence twice, and the log would not be dense |
| `BillingFeed.PageIsSlice` | rust/crates/control-plane/src/billing_feed.rs:120-146 | A page is what follows the acknowledgement up to the limit, and says exactly whether there is more |
| `BillingFeed.Feed.PollBillingEvents` | rust/crates/control-plane/src/billing_feed.rs:208-271 | With any interference between the unlocked read and the lock: cursors and outbox only go forward, 0 <= acknowledged <= delivered <= last, everything delivered was served, and an unchanged poll writes nothing |
| `BillingFeed.Feed.PollLocked` | rust/crates/control-plane/src/billing_feed.rs:252-271 | The cursor is re-read under its lock, so no progress is overwritten |
| `BillingFeed.Feed.AckBillingEvents` | rust/crates/control-plane/src/billing_feed.rs:273-305 | Only delivered events are acknowledged, from the expected cursor; a repeated acknowledgement is idempotent |
| `DrainRuns.PoolsShrinkOnlyWhenQuiet` | rust/crates/control-plane/src/managed_pools.rs:217-271 | In every reachable world, a step that changes what a managed pool should run otherwise than by adding replicas, or retires it, leaves it closed with no gateway able to start a request on it and none open: without exception for gateways of the pool's own cluster or of none, and for others unless their unknown work was cleared on a fence before their end; and that stays so until it reopens |
| `DrainSafety.ProvenDrainIsQuiet` | rust/crates/control-plane/src/managed_pools.rs:224-240 | The table check of a drain proves it of the processes: zero counts and acknowledgements of the closed generation mean no open request and no way to start one |
| `DrainRuns.ScalingOwnsItsPhase` | rust/crates/control-plane/src/scaling.rs:39-153 | In every reachable world each pending scale operation is in the phase its pool's state says, with the replica counts it claims |
| `DrainRuns.OperatorWaits` | rust/crates/control-plane/src/managed_pools.rs:217-219 | In every reachable world, while a scale operation is pending no transition, binding or desired state of the operator changes the pool |
| `Observations.OrphansClearedOnlyWhenIdle` | rust/crates/control-plane/src/gateway_proofs.rs:205-264 | Unknown work is only ever cleared by an idle report for a draining pool with a fenced entry. Its gateway had ended by the report's fence exactly when it was among the pool's orphans as the fence was checked; then nothing of it was running. A gateway of the pool's own cluster always was |
| `Observations.LockedRowsStay` | rust/crates/control-plane/src/managed_pools.rs:317-361 | In every reachable world an observation under way finds the rows it locked, its pool's and its cluster's, as it read them, whatever has committed since |
| `RaceRun.ClearedTooEarly` | rust/crates/control-plane/src/gateway_proofs.rs:232-264 | A run from the empty world: a gateway of another cluster ends between the fence check and the clearing, its work is cleared, and the pool is drained while a request of it runs |
| `DrainSafety.ReportStep` | rust/crates/control-plane/src/traffic.rs:271-329 | Taking a gateway's report keeps every invariant: it counts work the gateway cannot exceed before a newer snapshot |
| `DrainSafety.FetchStep` | rust/crates/control-plane/src/traffic.rs:51-210 | A snapshot records its participant before it can leave, and never accepts for a closed pool |
| `DrainSafety.GatewayStep` | rust/crates/gateway/src/traffic.rs:42-145 | A gateway installs newer snapshots, starts work only where its snapshot accepts, closes or dies, without breaking what the server may conclude |
| `DrainSafety.TerminateStep` | rust/crates/control-plane/src/gateway_proofs.rs:146-175 | A proven end retires the gateway's views with their work unknown |
| `FleetService.Registry.PoolTransition` | rust/crates/control-plane/src/managed_pools.rs:201-274 | Drain, finish and activate as the generation, state and drain proof allow; leaving a state takes a new generation, finishing does not |
| `FleetService.Registry.GuardDesired` | rust/crates/control-plane/src/managed_pools.rs:443-518 | Passes iff every managed deployment the request mentions is unchanged, or drained and bound to the observed object; then exactly those pools and items change |
| `FleetService.Registry.PutClusterDesired` | rust/crates/control-plane/src/clusters.rs:236-321 | The next revision with the guarded items, or nothing |
| `FleetService.Registry.ObservePool` | rust/crates/control-plane/src/managed_pools.rs:317-438 | With other transactions committing between its parts, which leave its pool's and its cluster's rows alone: an observation answers its open task behind its fence, clears the unknown work it then finds, registers and reconciles scaling with the views of the end, or changes nothing |
| `FleetService.Registry.ReconcileScaling` | rust/crates/control-plane/src/scaling.rs:28-153 | Finishes, cancels, continues or starts a scale operation as its phase and the evidence say |
| `FleetService.Registry.ApplyReplicas` | rust/crates/control-plane/src/scaling.rs:156-246 | The new replica count becomes the next revision; scaling down keeps the pool closed under a new generation |
| `FleetService.Registry.ProveGateway` | rust/crates/control-plane/src/gateway_proofs.rs:95-201 | Only the open nonce of the session's own cluster counts; a container's attestation never changes; termination must match it |
| `FleetService.Registry.ConfirmPoolIdle` | rust/crates/control-plane/src/gateway_proofs.rs:232-264 | The loop finds exactly the retired unknown views of a draining fenced pool |
| `FleetService.Registry.BindPool` | rust/crates/control-plane/src/managed_pools.rs:40-171 | A deployment of the newest revision is bound to one pool, pending at generation one |
| `FleetService.Registry.PollCluster` | rust/crates/control-plane/src/clusters.rs:323-358 | Hands out the newest unacknowledged revision under a lease, unless one is out |
| `FleetService.Registry.ReportCluster` | rust/crates/control-plane/src/clusters.rs:360-435 | Records an outcome only for the live lease and the stored digest; a repeated acknowledgement changes nothing |
| `FleetService.IdleAfter` | rust/crates/control-plane/src/gateway_proofs.rs:205-231 | The latest recorded end among the pool's orphans; refused exactly when one has none |
| `FleetService.Drainable` | rust/crates/control-plane/src/managed_pools.rs:224-240 | The loop over views decides the drain proof |
| `ClusterDelivery.RunDelivers` | rust/crates/control-plane/src/clusters.rs:273-321 | In every reachable world 0 <= acknowledged <= delivered <= desired, the revisions are exactly 1..desired with their digests, and where the newest revision mentions a managed pool it says what the pool expects |
| `ClusterDelivery.VersionsGoForward` | rust/crates/control-plane/src/clusters.rs:323-435 | From any reachable world on, no version goes back and no revision is rewritten |
| `ClusterDelivery.AcknowledgedByReport` | rust/crates/control-plane/src/clusters.rs:386-435 | Nothing but such a report ever changes what is acknowledged |
| `ClusterDelivery.OneOutcomePerLease` | rust/crates/control-plane/src/clusters.rs:323-435 | With tokens that are not reused, a lease records at most one outcome in any run |
| `ClusterDelivery.PutDelivers` | rust/crates/control-plane/src/managed_pools.rs:443-518 | A published desired state says of every managed pool what the pool then expects |
| `AgentPull.Kubernetes.Apply` | rust/crates/cluster-agent/src/pull.rs:161-246 | The apply loop equals its rule item by item, under calls that may fail before or after they take effect |
| `AgentPull.AttemptIsBounded` | rust/crates/cluster-agent/src/pull.rs:161-246 | Whatever fails: an invalid delivery changes nothing; unlisted, foreign and newer objects stay; a surviving object keeps its UID and other metadata and its version annotation never decreases |
| `AgentPull.ApplyConverges` | rust/crates/cluster-agent/src/pull.rs:161-246 | If a delivery applies, then after any attempts that broke off anywhere, lost replies included, one undisturbed attempt gives the same specs, owners, versions and digests |
| `AgentPull.ConvergesIffRetryable` | rust/crates/cluster-agent/src/pull.rs:170-182 | A delivery that applies converges under every failure iff none of its deletions carries an expected UID |
| `AgentPull.LostDeletionIsFinal` | rust/crates/cluster-agent/src/pull.rs:176-181 | A deletion that expects its object and loses its reply can never be repeated: the next attempt is refused |
| `EndToEnd.RunRetryable` | rust/crates/control-plane/src/clusters.rs:244-262 | Every revision the control plane ever publishes is free of such deletions |
| `EndToEnd.DeliveriesConverge` | rust/crates/control-plane/src/clusters.rs:332-350 | So whatever a poll hands out in a reachable world, if it applies undisturbed to a member, converges there: after any broken attempts one undisturbed attempt gives the same |
| `Acceptance.PolledIsAccepted` | rust/crates/cluster-agent/src/pull.rs:112-159 | In every reachable world an agent takes what a poll hands out exactly when cluster and namespace are its own, the items are at most a hundred, and it admits every spec under its name; names, shapes, version and digest are always right |
| `Unacceptable.PublishedAcceptable` | rust/crates/control-plane/src/scaling.rs:164-213 | In every reachable world a published revision is within the agent's hundred items exactly when an operator published it, or a scaling step whose newest revision had fewer, or had a hundred and mentioned the deployment; and it is acceptable exactly when, besides, the member admits what the operator sent, or the pool's spec with its new count and the specs of the other deployments |
| `Unacceptable.ScaledAcceptableIff` | rust/crates/control-plane/src/scaling.rs:174-190 | With agents that report only what they applied: a scaling step stays within the limit exactly when the newest revision mentions the deployment or has fewer than a hundred items, and is acceptable exactly when the member also admits the pool's spec with its new count |
| `Unacceptable.AppliedIsAcceptable` | rust/crates/cluster-agent/src/pull.rs:161-166 | No attempt in any weather applies what is not acceptable, so an honest agent never reports it as applied |
| `Unacceptable.RefusedIsStuck` | rust/crates/cluster-agent/src/pull.rs:112-159 | Once a poll hands out a delivery that the cluster's own agent refuses, for whatever reason, every later poll hands out the same revision until an operator publishes another; every attempt at it is refused and changes nothing |
| `UnacceptableRuns.ScalingOverflows` | rust/crates/control-plane/src/scaling.rs:182-190 | A run from the empty world that ends with a revision of a hundred and one items, each of which the member admits: a pool is bound, a hundred other items are published, and its scale-up adds one more |
| `UnacceptableRuns.RejectedSpecIsPublished` | rust/crates/control-plane/src/clusters.rs:244-262 | A run from the empty world that publishes one deployment which the member's schema rejects |

## Left out

- HTTP routing, authorization, JSON encoding, configuration, telemetry, metrics and the read-only listings: they hold no state that the modelled transactions decide on.
- Identifiers are compared as given; SHA-256, UUIDs, credential hashing and provider signatures are fresh tokens, injective digests and already verified values.
- Currency: every account is CNY, as admission demands; the currency column of postings, payments and refunds is not modelled.
- Projects older than their billing account: a project and its account are created by one transaction, and the service fills in missing ones before it starts, so opening an account on first use is a branch of old data only. A missing account then means a missing project, which is not found in both.
- Billing.RecordUsageEvent: does not open a missing account of an existing project, for that reason.
- PaymentService.CaptureOrderPayment: does not open a missing account of an existing project, for that reason.
- RefundService.CreateManualRefund: does not open a missing account of an existing project, for that reason.
- Administration.UpdateBalancePolicy: does not open a missing account of an existing project, for that reason.
- PaymentService.AlipayCheckout: the call to the provider between its two transactions is outside the model; its code is a parameter of the second one.
- The display rounding of cost to whole minor units.
- Payments are always captured in full, so a payment row carries no status of its own.
- Operation audits other than the review audit rows.
- Heartbeats and last-observed codes of clusters and pools, and the endpoint and default-pool columns that binding and registration maintain for the router.
- FleetService.Registry.PutClusterDesired: does not refuse payloads beyond 256 KiB, because the length of the encoding is not modelled; a refusal changes nothing.
- FleetService.Registry.ApplyReplicas: does not refuse payloads beyond 256 KiB, because the length of the encoding is not modelled; a refusal changes nothing.
- FleetService.Registry.BindPool: does not refuse for an inactive model, a runtime protocol or picker service that differs, or an entry address in use, because endpoints belong to the router's tables; a refusal changes nothing.
- AgentPull.Kubernetes.Apply: does not refuse payloads beyond 256 KiB, because the length of the encoding is not modelled; the control plane refuses them before it publishes.
- Between the verdict of an observation on the drain and its commit nothing else happens in the model: it then writes only rows that it holds, so whatever commits meanwhile might as well commit after it.
- Sessions whose proofs and observation tasks are listed in pages of a hundred: any subset of the eligible rows may be chosen.
- Route policies and admission tokens at the serving entry: the drain results hold without the entry's own refusal of old tokens, and without the expiry of a gateway's grant.
- Writers of Kubernetes objects other than the agent, except through the resource-version check, which is one of the ways a call is refused.
- Leader election of agents, the Redis quota, alerts, tax intake, user membership, reconciliation reports and the console.
- FleetService.Registry.GuardDesired: when several managed deployments are refused it does not say whose refusal is reported, because rows are visited in any order rather than by pool id.
- EventWorker.CompleteEventJob: the unlocked look for a repeated completion and the locked part see the same job row; a completion that slips in between is the locked part's stale-lease refusal.
- Budgets.BudgetsHold: excludes v1 usage reports, which the source meters without looking at the budget.
