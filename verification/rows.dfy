/** The rows of the control-plane database that carry money, and the two halves
    they fall into: source records (History) and derived counters (Cache). */
module Rows {
  import opened Prelude

  type Id = string

  // ---- model catalog ------------------------------------------------------

  /** Prices are per million tokens in minor units, so microunits per token. */
  datatype Model = Model(
    id: Id,
    displayName: string,
    maxContextTokens: I64,
    inputPrice: I64,
    outputPrice: I64,
    priceVersion: Id)

  datatype CatalogRow = CatalogRow(revision: I64, enabled: bool, defaultPool: Option<Id>, definition: Model)

  datatype Catalog = Catalog(models: map<Id, CatalogRow>, prices: map<(Id, Id), Model>)

  // ---- accounts and keys --------------------------------------------------

  /** One billing account per project; rows refer to it by its project. */
  datatype Account = Account(tenant: Id, active: bool, currency: string, enforceBalance: bool)

  datatype ApiKey = ApiKey(
    project: Id,
    tenant: Id,
    revoked: bool,
    expires: Option<Instant>,
    scopes: set<string>,
    allowedModels: set<Id>,
    monthlyBudget: I64)

  // ---- reservations and usage ---------------------------------------------

  datatype ReserveRequest = ReserveRequest(
    id: Id,
    tenant: Id,
    project: Id,
    key: Id,
    requestId: Id,
    model: Id,
    modelRevision: Id,
    priceVersion: Id,
    inputLimit: I64,
    outputLimit: I64)

  datatype SettleRequest = SettleRequest(
    inputTokens: I64,
    outputTokens: I64,
    latencyMs: I64,
    endpoint: Id,
    region: Id,
    status: string)

  datatype UnresolvedRequest = UnresolvedRequest(
    eventId: Id,
    reason: string,
    inputTokens: Option<nat>,
    outputTokens: Option<nat>)

  datatype ReservationState = Reserved | Dispatched | Settled | Released | Waived

  datatype Completion =
    | NotDispatched
    | Unresolved(report: UnresolvedRequest)
    | Usage(request: SettleRequest)

  datatype Reservation = Reservation(
    spec: ReserveRequest,
    price: Model,
    reserved: I64,
    settled: Option<I64>,
    state: ReservationState,
    completion: Option<Completion>)

  /** A v1 usage report, as the gateway posts it. */
  datatype UsageReport = UsageReport(
    eventId: Id,
    requestId: Id,
    tenant: Id,
    project: Id,
    key: Id,
    model: Id,
    priceVersion: Id,
    inputTokens: I64,
    outputTokens: I64,
    cachedInputTokens: I64,
    latencyMs: I64,
    status: string,
    occurredAt: Instant)

  datatype UsageEvent = UsageEvent(
    requestId: Id,
    project: Id,
    key: Id,
    model: Id,
    priceVersion: Id,
    inputTokens: I64,
    outputTokens: I64,
    status: string,
    occurredAt: Instant,
    cost: I64)

  // ---- double-entry ledger ------------------------------------------------

  datatype Book = CustomerBalance | UsageRevenue | CashClearing | RefundClearing

  datatype PostingKind = UsageCharge | TopUp | RefundPosted | RefundHeld | RefundSettled

  datatype Reference = UsageRef(id: Id) | PaymentRef(id: Id) | RefundRef(id: Id)

  datatype Entry = Entry(account: Id, book: Book, amount: I64)

  /** A ledger transaction with its entries; its id is its place in the ledger. */
  datatype Posting = Posting(
    kind: PostingKind,
    reference: Reference,
    idempotencyKey: string,
    entries: seq<Entry>)

  // ---- payments and refunds -----------------------------------------------

  datatype OrderStatus = Pending | Paid

  datatype Order = Order(tenant: Id, project: Id, amount: I64, status: OrderStatus)

  datatype CheckoutState = Creating | Offered | Closed | CheckedOut

  datatype Checkout = Checkout(profile: string, environment: string, state: CheckoutState, code: Option<string>)

  datatype Payment = Payment(order: Id, provider: string, providerReference: string, amount: I64)

  datatype RefundStatus = RefundPending | RefundSucceeded

  datatype Refund = Refund(
    payment: Id,
    amount: I64,
    reason: string,
    status: RefundStatus,
    providerReference: Option<string>)

  datatype Receipt = Receipt(order: Id, profile: string, tradeId: string, state: string, amount: I64)

  // ---- reviews ------------------------------------------------------------

  datatype Evidence =
    | UsageEvidence(
        id: Id,
        source: Id,
        sourceRequestId: Id,
        document: string,
        explanation: string,
        usage: SettleRequest)
    | LossWaiver(
        id: Id,
        reason: string,
        incidentReference: Id,
        requestTerminated: bool,
        platformAbsorbsLoss: bool)

  /** SHA-256 of the normalized submission, taken to be injective. */
  datatype Fingerprint = Fingerprint(project: Id, reservation: Id, submission: Evidence)

  datatype Decision = Decision(fingerprint: Fingerprint, approve: bool, reason: string)

  datatype ReviewState = Submitted | RejectedReview | SettledReview | WaivedReview

  datatype Review = Review(
    reservation: Id,
    project: Id,
    submittedBy: Id,
    evidence: Evidence,
    fingerprint: Fingerprint,
    state: ReviewState,
    reviewedBy: Option<Id>,
    decision: Option<Decision>)

  datatype Audit = Audit(kind: ReviewState, actor: Id, subject: string)

  // ---- outbox and its worker ----------------------------------------------

  datatype Event =
    | ReservationCreated(id: Id, reserved: I64, priceVersion: Id)
    | ReservationDispatched(id: Id)
    | ReservationReleased(id: Id)
    | ReservationUnresolved(id: Id, report: UnresolvedRequest)
    | ReservationSettled(id: Id, usageEvent: Id, settled: I64)
    | ReservationWaived(id: Id, review: Id)
    | ReviewSubmitted(review: Id, reservation: Id)
    | ReviewDecided(review: Id, reservation: Id, outcome: ReviewState)
    | LedgerPosted(transaction: nat, kind: PostingKind, reference: Reference, customerDelta: I64)
    | ProjectionRebuilt(key: Id, month: int)
    | Unsupported(name: string)

  datatype EventRow = EventRow(sequence: I64, event: Event)

  datatype JobState = JobPending | Running | Idle | Dead

  type Token = nat

  datatype Job = Job(
    acknowledged: I64,
    target: I64,
    leaseEpoch: I64,
    leaseThrough: I64,
    leaseToken: Option<Token>,
    leaseUntil: Option<int>,
    availableAt: int,
    state: JobState,
    attempts: nat,
    lastError: Option<string>)

  // ---- the two halves of the database -------------------------------------

  /** Source records. `log[p]` is account p's outbox in sequence order. An
      effect keeps the digest of the event it consumed (the row itself). */
  datatype History = History(
    catalog: Catalog,
    accounts: map<Id, Account>,
    keys: map<Id, ApiKey>,
    reservations: map<Id, Reservation>,
    usage: map<Id, UsageEvent>,
    ledger: seq<Posting>,
    orders: map<Id, Order>,
    checkouts: map<Id, Checkout>,
    payments: map<Id, Payment>,
    refunds: map<Id, Refund>,
    receipts: map<string, Receipt>,
    reviews: map<Id, Review>,
    audits: map<(Id, int), Audit>,
    log: map<Id, seq<EventRow>>,
    jobs: map<Id, Job>,
    effects: map<(Id, int), EventRow>)

  datatype BalanceRow = BalanceRow(balance: I64, held: I64)

  /** Derived counters. Any row may be missing until somebody needs it. */
  datatype Cache = Cache(
    balances: map<Id, BalanceRow>,
    holds: map<Id, I64>,
    spend: map<(Id, int), I64>)

  const EMPTY_HISTORY := History(
    Catalog(map[], map[]), map[], map[], map[], map[], [], map[], map[], map[], map[], map[],
    map[], map[], map[], map[], map[])

  const EMPTY_CACHE := Cache(map[], map[], map[])

  /** The outbox of one account, empty until its first event. */
  function Log(h: History, account: Id): seq<EventRow> {
    if account in h.log then h.log[account] else []
  }

  /** States in which a reservation still holds its amount. */
  predicate Holding(s: ReservationState) {
    s == Reserved || s == Dispatched
  }
}
