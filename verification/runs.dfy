/** Every committed operation as one step of the database, and what a step
    amounts to: events, moved totals and at most one reservation row. */
module Runs {
  import opened Prelude
  import opened Sums
  import opened Rows
  import opened Totals
  import opened Outbox
  import opened Ledger
  import opened Protocol
  import opened ReviewRules
  import opened PaymentRules
  import opened CatalogService
  import opened Administration
  import opened Effects
  import opened WorkerRules

  datatype Op =
    | DoReserve(reserve: ReserveRequest)
    | DoDispatch(project: Id, id: Id)
    | DoRelease(project: Id, id: Id, reason: string)
    | DoUnresolved(project: Id, id: Id, report: UnresolvedRequest)
    | DoSettle(project: Id, id: Id, settle: SettleRequest)
    | DoRecordUsage(usage: UsageReport)
    | DoSubmitReview(project: Id, id: Id, actor: Id, subject: string, evidence: Evidence)
    | DoDecideReview(project: Id, id: Id, actor: Id, subject: string, decision: Decision)
    | DoCreateOrder(id: Id, tenant: Id, project: Id, amount: I64)
    | DoOpenCheckout(id: Id, provider: Provider)
    | DoStoreCode(id: Id, code: string)
    | DoCapture(order: Id, id: Id, via: string, reference: string, key: string)
    | DoAcceptTrade(provider: Provider, trade: Trade)
    | DoCreateRefund(refund: RefundRequest, key: string)
    | DoPrepareRefund(refund: RefundRequest, provider: Provider)
    | DoCompleteRefund(proof: RefundProof, provider: Provider)
    | DoSetPolicy(project: Id, enforce: bool)
    | DoOpenAccount(project: Id, tenant: Id)
    | DoIssueKey(id: Id, apiKey: ApiKey)
    | DoRevokeKey(id: Id)
    | DoPutModel(id: Id, put: PutRequest)
    | DoBootstrap
    | DoRebuild(project: Id, key: Id, month: int)
    | DoClaim(claim: ClaimRequest, busy: set<Id>, token: Token)
    | DoComplete(lease: Lease, later: int)
    | DoFail(lease: Lease, reason: string)
    | DoRetry(account: Id, reason: string)

  function First<T>(r: Result<(History, T)>): Result<History> {
    match r
    case Ok((h, _)) => Ok(h)
    case Err(e) => Err(e)
  }

  ghost function Rebuild(h: History, project: Id, key: Id, month: int, now: Instant): Result<History> {
    if project !in h.accounts || key !in h.keys || h.keys[key].project != project then Err(NotFound)
    else Append(h, project, ProjectionRebuilt(key, month), now)
  }

  ghost function Attempt(h: History, op: Op, now: Instant): Result<History> {
    match op
    case DoReserve(q) => First(Reserve(h, q, now))
    case DoDispatch(project, id) => First(Dispatch(h, project, id, now))
    case DoRelease(project, id, reason) => First(Release(h, project, id, reason, now))
    case DoUnresolved(project, id, q) => First(ReportUnresolved(h, project, id, q, now))
    case DoSettle(project, id, q) => First(Settle(h, project, id, q, now))
    case DoRecordUsage(u) => First(RecordUsage(h, u, now))
    case DoSubmitReview(project, id, actor, subject, e) => First(SubmitReview(h, project, id, actor, subject, e, now))
    case DoDecideReview(project, id, actor, subject, q) => First(DecideReview(h, project, id, actor, subject, q, now))
    case DoCreateOrder(id, tenant, project, amount) => First(CreateOrder(h, id, tenant, project, amount))
    case DoOpenCheckout(id, provider) => First(OpenCheckout(h, id, provider))
    case DoStoreCode(id, code) => First(StoreCode(h, id, code))
    case DoCapture(order, id, via, reference, key) => First(CapturePayment(h, order, id, via, reference, key, now))
    case DoAcceptTrade(provider, trade) => First(AcceptTrade(h, provider, trade, now))
    case DoCreateRefund(q, key) => First(CreateRefund(h, q, key, now))
    case DoPrepareRefund(q, provider) => First(PrepareRefund(h, q, provider, now))
    case DoCompleteRefund(proof, provider) => First(CompleteRefund(h, proof, provider, now))
    case DoSetPolicy(project, enforce) => SetPolicy(h, project, enforce)
    case DoOpenAccount(project, tenant) => OpenAccount(h, project, tenant)
    case DoIssueKey(id, key) => IssueKey(h, id, key)
    case DoRevokeKey(id) => RevokeKey(h, id)
    case DoPutModel(id, q) =>
      (match Put(h.catalog, id, q)
       case Ok(c) => Ok(h.(catalog := c))
       case Err(e) => Err(e))
    case DoBootstrap => Ok(h.(catalog := Bootstrap(h.catalog)))
    case DoRebuild(project, key, month) => Rebuild(h, project, key, month, now)
    case DoClaim(q, busy, token) => First(Claim(h, q, Chosen(h.jobs, busy, now.at), token, now.at))
    case DoComplete(lease, later) => First(Complete(h, lease, now.at, later))
    case DoFail(lease, reason) => First(Fail(h, lease, reason, now.at))
    case DoRetry(account, reason) => First(Retry(h, account, reason, now.at))
  }

  /** A failed operation leaves the database as it was. */
  ghost function Step(h: History, op: Op, now: Instant): History {
    match Attempt(h, op, now)
    case Ok(after) => after
    case Err(_) => h
  }

  datatype Timed = Timed(op: Op, now: Instant)

  ghost function Run(h: History, ops: seq<Timed>): History {
    if ops == [] then h
    else Step(Run(h, ops[..|ops| - 1]), ops[|ops| - 1].op, ops[|ops| - 1].now)
  }

  // ---- what a step amounts to ---------------------------------------------

  /** The events of one transaction, appended in order. */
  function AppendAll(h: History, account: Id, events: seq<Event>, now: Instant): Result<History> {
    if events == [] then Ok(h)
    else
      match AppendAll(h, account, events[..|events| - 1], now)
      case Err(e) => Err(e)
      case Ok(h1) => Append(h1, account, events[|events| - 1], now)
  }

  /** Outbox and jobs are what these events make of them. */
  ghost predicate Feeds(h: History, after: History, account: Id, events: seq<Event>, now: Instant) {
    match AppendAll(h, account, events, now)
    case Ok(fed) => after.log == fed.log && after.jobs == fed.jobs
    case Err(_) => false
  }

  /** A table with at most one row written. */
  function With<K, V>(table: map<K, V>, row: Option<(K, V)>): map<K, V> {
    match row
    case None => table
    case Some((k, v)) => table[k := v]
  }

  /** The rows one committed operation writes, and how far it moves the totals. */
  datatype Summary = Summary(
    account: Id,
    events: seq<Event>,
    drift: Drift,
    row: Option<(Id, Reservation)>,
    metered: Option<(Id, UsageEvent)>,
    posting: Option<Posting>,
    payment: Option<(Id, Payment)>,
    refund: Option<(Id, Refund)>)

  /** Orders are only added, pending, or marked paid by their payment. */
  predicate OrdersMove(before: map<Id, Order>, after: map<Id, Order>, payment: Option<(Id, Payment)>) {
    && (forall o :: o in before ==>
          && o in after
          && after[o] == if payment.Some? && payment.value.1.order == o then before[o].(status := Paid) else before[o])
    && (forall o :: o in after && o !in before ==> after[o].status == Pending)
  }

  predicate Writes(h: History, after: History, s: Summary) {
    && after.reservations == With(h.reservations, s.row)
    && after.usage == With(h.usage, s.metered)
    && after.ledger == h.ledger + (if s.posting.Some? then [s.posting.value] else [])
    && after.payments == With(h.payments, s.payment)
    && after.refunds == With(h.refunds, s.refund)
    && OrdersMove(h.orders, after.orders, s.payment)
    && after.effects == h.effects
  }

  ghost predicate Summarizes(h: History, after: History, s: Summary, now: Instant) {
    && Feeds(h, after, s.account, s.events, now)
    && Shift(h, after, s.drift)
    && Writes(h, after, s)
  }

  /** The things a committed operation can amount to. Events that move no
      money (review and maintenance notices) may follow. */
  datatype Shape =
    | Noting(account: Id)
    | Opening(row: Reservation)
    | Moving(row: Reservation, event: Event)
    | Charging(was: Reservation, request: SettleRequest, amount: I64)
    | Metering(usage: UsageReport, cost: I64)
    | Capturing(id: Id, payment: Payment, key: string)
    | Refunding(id: Id, refund: Refund, key: string)
    | Clearing(id: Id, refund: Refund)

  function Announce(h: History, posting: Posting, delta: I64): seq<Event> {
    [LedgerPosted(|h.ledger|, posting.kind, posting.reference, delta)]
  }

  function ChargePosting(account: Id, usageId: Id, key: string, amount: I64): Posting
    requires 0 <= amount
  {
    Posting(UsageCharge, UsageRef(usageId), key, Pair(account, -amount, UsageRevenue))
  }

  function ChargeEvents(h: History, usageId: Id, amount: I64): seq<Event> {
    if 0 < amount then [LedgerPosted(|h.ledger|, UsageCharge, UsageRef(usageId), -amount)] else []
  }

  function Micros(amount: I64): I64 {
    if Fits(amount * MICROS_PER_MINOR_UNIT) then amount * MICROS_PER_MINOR_UNIT else 0
  }

  /** The account an order, a payment and a refund belong to. */
  function PayerOf(h: History, payment: Payment): Id {
    if payment.order in h.orders then h.orders[payment.order].project else ""
  }

  function RefundAccount(h: History, refund: Refund): Id {
    if refund.payment in h.payments then PayerOf(h, h.payments[refund.payment]) else ""
  }

  function TopUpPosting(account: Id, id: Id, key: string, amount: I64): Posting
    requires 0 <= amount
  {
    Posting(TopUp, PaymentRef(id), key, Pair(account, Micros(amount), CashClearing))
  }

  /** Manual refunds leave the house at once; provider refunds are pending first. */
  function RefundPosting(account: Id, id: Id, refund: Refund, key: string): Posting
    requires 0 <= refund.amount
  {
    if refund.status == RefundPending
    then Posting(RefundHeld, RefundRef(id), key, Pair(account, -Micros(refund.amount), RefundClearing))
    else Posting(RefundPosted, RefundRef(id), key, Pair(account, -Micros(refund.amount), CashClearing))
  }

  function ClearPosting(account: Id, id: Id, amount: I64): Posting
    requires 0 <= amount
  {
    Posting(RefundSettled, RefundRef(id), SettleRefundKey(id), ClearingPair(account, Micros(amount)))
  }

  function SummaryOf(h: History, shape: Shape, now: Instant): Summary
    requires Amount(shape)
  {
    match shape
    case Noting(account) => Summary(account, [], At(account, "", 0), None, None, None, None, None)
    case Opening(row) =>
      Summary(row.spec.project, [ReservationCreated(row.spec.id, row.reserved, row.price.priceVersion)],
              Drift(row.spec.project, 0, row.reserved, row.spec.key, row.reserved, now.month, 0),
              Some((row.spec.id, row)), None, None, None, None)
    case Moving(row, event) =>
      Summary(row.spec.project, [event],
              Drift(row.spec.project, 0, -GivenUp(row), row.spec.key, -GivenUp(row), now.month, 0),
              Some((row.spec.id, row)), None, None, None, None)
    case Charging(was, q, amount) =>
      var usageId := UsageId(was.spec.id);
      Summary(was.spec.project,
              ChargeEvents(h, usageId, amount) + [ReservationSettled(was.spec.id, usageId, amount)],
              Drift(was.spec.project, -(amount as int), -(was.reserved as int),
                    was.spec.key, -(was.reserved as int), now.month, amount),
              Some((was.spec.id, SettledRow(was, q, amount))),
              Some((usageId, SettledUsage(was, q, amount, now))),
              if 0 < amount then Some(ChargePosting(was.spec.project, usageId, SettlementKey(was.spec.id), amount)) else None,
              None, None)
    case Metering(u, cost) =>
      Summary(u.project, ChargeEvents(h, u.eventId, cost),
              Drift(u.project, -(cost as int), 0, u.key, 0, u.occurredAt.month, cost),
              None, Some((u.eventId, ReportedUsage(u, cost))),
              if 0 < cost then Some(ChargePosting(u.project, u.eventId, ReportKey(u.eventId), cost)) else None,
              None, None)
    case Capturing(id, payment, key) =>
      var account := PayerOf(h, payment);
      var posting := TopUpPosting(account, id, key, payment.amount);
      Summary(account, Announce(h, posting, Micros(payment.amount)),
              Drift(account, Micros(payment.amount), 0, "", 0, 0, 0), None, None, Some(posting),
              Some((id, payment)), None)
    case Refunding(id, refund, key) =>
      var account := RefundAccount(h, refund);
      var posting := RefundPosting(account, id, refund, key);
      Summary(account, Announce(h, posting, -Micros(refund.amount)),
              Drift(account, -(Micros(refund.amount) as int), 0, "", 0, 0, 0), None, None, Some(posting),
              None, Some((id, refund)))
    case Clearing(id, refund) =>
      var account := RefundAccount(h, refund);
      var posting := ClearPosting(account, id, refund.amount);
      Summary(account, Announce(h, posting, 0), At(account, "", 0), None, None, Some(posting),
              None, Some((id, refund)))
  }

  /** The event tells how the row moved. */
  predicate Tells(row: Reservation, event: Event) {
    match event
    case ReservationDispatched(id) => id == row.spec.id && row.state == Dispatched
    case ReservationReleased(id) => id == row.spec.id && row.state == Released
    case ReservationWaived(id, _) => id == row.spec.id && row.state == Waived
    case ReservationUnresolved(id, _) => id == row.spec.id && row.state == Dispatched
    case _ => false
  }

  ghost predicate Gated(h: History, account: Id, debit: int) {
    account in h.accounts && h.accounts[account].enforceBalance ==> Affords(Balance(h, account), Held(h, account), debit)
  }

  predicate Amount(shape: Shape) {
    match shape
    case Noting(_) => true
    case Opening(row) => 0 <= row.reserved
    case Moving(row, _) => 0 <= row.reserved
    case Charging(was, _, amount) => 0 <= amount <= was.reserved
    case Metering(_, cost) => 0 <= cost
    case Capturing(_, payment, _) => 0 < payment.amount && Fits(payment.amount * MICROS_PER_MINOR_UNIT)
    case Refunding(_, refund, _) => 0 < refund.amount && Fits(refund.amount * MICROS_PER_MINOR_UNIT)
    case Clearing(_, refund) => 0 < refund.amount && Fits(refund.amount * MICROS_PER_MINOR_UNIT)
  }

  /** Only held rows move, and no row changes its terms. */
  predicate Moves(was: Reservation, row: Reservation, event: Event) {
    && row.spec == was.spec && row.price == was.price && row.reserved == was.reserved && row.settled == was.settled
    && Holding(was.state)
    && (event.ReservationUnresolved? ==> was.state == Dispatched && was.completion.None?)
    && (event.ReservationDispatched? || event.ReservationReleased? ==> was.state == Reserved)
    && row.completion == Completed(was, event)
    && Tells(row, event)
  }

  /** Only a release and an unresolved report write a completion. */
  function Completed(was: Reservation, event: Event): Option<Completion> {
    match event
    case ReservationReleased(_) => Some(NotDispatched)
    case ReservationUnresolved(_, report) => Some(Unresolved(report))
    case _ => was.completion
  }

  predicate Fresh(h: History, key: string) {
    !KeyUsed(h, key)
  }

  /** What the operation checked before it committed. */
  ghost predicate ShapeOk(h: History, shape: Shape, now: Instant) {
    match shape
    case Noting(_) => true
    case Opening(row) =>
      && row.spec.id !in h.reservations && row.state == Reserved && row.settled.None?
      && ActiveModel(h.catalog, row.spec.model) == Some(row.price) && row.spec.priceVersion == row.price.priceVersion
      && row.spec.project in h.accounts && row.spec.key in h.keys
      && !ReservedRequest(h, row.spec.project, row.spec.requestId)
      && !MeteredRequest(h, row.spec.project, row.spec.requestId)
      && BalanceGate(h, row.spec.project, row.reserved).Ok?
      && BudgetGate(h, row.spec.key, now.month, row.reserved).Ok?
    case Moving(row, event) =>
      row.spec.id in h.reservations && Moves(h.reservations[row.spec.id], row, event)
    case Charging(was, q, amount) =>
      && was.spec.id in h.reservations && h.reservations[was.spec.id] == was && was.state == Dispatched
      && UsageId(was.spec.id) !in h.usage
      && (0 < amount ==> Fresh(h, SettlementKey(was.spec.id)))
    case Metering(u, cost) =>
      && u.eventId !in h.usage && !ReservedRequest(h, u.project, u.requestId)
      && (0 < cost ==> Gated(h, u.project, cost) && Fresh(h, ReportKey(u.eventId)))
    case Capturing(id, payment, key) =>
      && id !in h.payments && payment.order in h.orders && h.orders[payment.order].status == Pending
      && payment.amount == h.orders[payment.order].amount
      && PayerOf(h, payment) in h.accounts && Fresh(h, key)
    case Refunding(id, refund, key) =>
      && id !in h.refunds && refund.payment in h.payments && h.payments[refund.payment].order in h.orders
      && RefundAccount(h, refund) in h.accounts && Fresh(h, key)
      && (refund.status == RefundPending <==> h.payments[refund.payment].provider == "alipay")
      && Gated(h, RefundAccount(h, refund), Micros(refund.amount))
      && RefundFits(h, refund)
    case Clearing(id, refund) =>
      && id in h.refunds && h.refunds[id].status == RefundPending && refund.status == RefundSucceeded
      && refund == h.refunds[id].(status := RefundSucceeded, providerReference := refund.providerReference)
      && refund.payment in h.payments && h.payments[refund.payment].order in h.orders
      && Fresh(h, SettleRefundKey(id))
  }

  /** The payment still covers the refund: a provider payment all its refunds,
      a manual payment the succeeded ones. */
  ghost predicate RefundFits(h: History, refund: Refund)
    requires refund.payment in h.payments
  {
    refund.amount
      + (if refund.status == RefundPending then Refunded(h, refund.payment)
         else Sum(h.refunds, SucceededOf(refund.payment)))
      <= h.payments[refund.payment].amount
  }

  /** Shapes whose row or posting is named by what the service generates. */
  predicate Unkeyed(shape: Shape) {
    !shape.Metering? && !shape.Capturing? && !shape.Refunding?
  }

  /** Usage ids and idempotency keys that callers choose are taken as they are;
      notifications and provider refunds have keys of their own kind. */
  predicate Stems(op: Op, shape: Shape) {
    match shape
    case Metering(u, _) => op == DoRecordUsage(u)
    case Capturing(id, _, key) => (op.DoCapture? && key == op.key) || (op.DoAcceptTrade? && key == "alipay:" + id)
    case Refunding(id, _, key) =>
      (op.DoCreateRefund? && key == op.key) || (op.DoPrepareRefund? && key == "refund-hold:" + id)
    case _ => true
  }

  // ---- papers filed beside the money --------------------------------------

  /** What a step tells about reviews and maintenance, after its money events. */
  datatype Note =
    | Silent
    | Rebuilt(key: Id, month: int)
    | Filed(id: Id, review: Review, audit: Audit)

  function Notices(note: Note): seq<Event> {
    match note
    case Silent => []
    case Rebuilt(key, month) => [ProjectionRebuilt(key, month)]
    case Filed(id, review, _) =>
      if review.state == Submitted then [ReviewSubmitted(id, review.reservation)]
      else [ReviewDecided(id, review.reservation, review.state)]
  }

  function AuditSequence(review: Review): int {
    if review.state == Submitted then 1 else 2
  }

  predicate Files(h: History, after: History, note: Note) {
    match note
    case Filed(id, review, audit) =>
      && after.reviews == h.reviews[id := review]
      && after.audits == h.audits[(id, AuditSequence(review)) := audit]
    case _ => after.reviews == h.reviews && after.audits == h.audits
  }

  /** A submission is new and about a reservation of its project; a decision is
      somebody else's, and approval did to the reservation what it says. */
  predicate NoteOk(h: History, shape: Shape, note: Note) {
    match note
    case Filed(id, review, audit) =>
      && (id, AuditSequence(review)) !in h.audits
      && review.reservation in h.reservations && h.reservations[review.reservation].spec.project == review.project
      && (if review.state == Submitted then
            && id !in h.reviews && shape.Noting?
            && review == SubmittedReview(review.project, review.reservation, review.submittedBy, review.evidence)
          else
            && id in h.reviews && h.reviews[id].state == Submitted
            && review.reviewedBy.Some? && review.decision.Some?
            && review == DecidedReview(h.reviews[id], review.reviewedBy.value, review.decision.value)
            && review.reviewedBy.value != review.submittedBy
            && Approves(h, shape, review))
    case _ => true
  }

  predicate Approves(h: History, shape: Shape, review: Review) {
    match review.state
    case SettledReview =>
      && review.evidence.UsageEvidence?
      && ((shape.Charging? && shape.was.spec.id == review.reservation && shape.request == review.evidence.usage)
          || (&& shape.Noting? && review.reservation in h.reservations
              && h.reservations[review.reservation].state == Settled
              && h.reservations[review.reservation].completion == Some(Usage(review.evidence.usage))))
    case WaivedReview => shape.Moving? && shape.row.spec.id == review.reservation && shape.row.state == Waived
    case _ => shape.Noting?
  }

  // ---- a step -------------------------------------------------------------

  function Noticed(s: Summary, note: Note): Summary {
    s.(events := s.events + Notices(note))
  }

  /** Accounts, keys and the catalog belong to administration. */
  predicate Steady(h: History, after: History) {
    after.accounts == h.accounts && after.keys == h.keys && after.catalog == h.catalog
  }

  /** The step is of this shape, with this note. */
  ghost predicate Fitting(h: History, after: History, shape: Shape, note: Note, now: Instant) {
    && Amount(shape)
    && ShapeOk(h, shape, now)
    && NoteOk(h, shape, note)
    && (note.Filed? ==> note.review.project == SummaryOf(h, shape, now).account)
    && Files(h, after, note)
    && Steady(h, after)
    && Summarizes(h, after, Noticed(SummaryOf(h, shape, now), note), now)
  }

  predicate Administers(op: Op) {
    op.DoSetPolicy? || op.DoOpenAccount? || op.DoIssueKey? || op.DoRevokeKey? || op.DoPutModel? || op.DoBootstrap?
  }

  predicate Works(op: Op) {
    op.DoClaim? || op.DoComplete? || op.DoFail? || op.DoRetry?
  }

  /** Administration and consumption move no money and say nothing in the outbox. */
  predicate Apart(op: Op) {
    Administers(op) || Works(op)
  }

  predicate NoMoneyMoves(h: History, after: History) {
    after == h.(accounts := after.accounts, keys := after.keys, catalog := after.catalog,
                jobs := after.jobs, effects := after.effects)
  }

  /** What the worker may write. */
  predicate WorkerWrites(h: History, after: History) {
    after == h.(jobs := after.jobs, effects := after.effects)
  }
}
