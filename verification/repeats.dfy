/** Lost responses: a request that committed may be sent again at any later time,
    whatever has committed since, and changes nothing. */
module Repeats {
  import opened Prelude
  import opened Sums
  import opened Rows
  import opened Totals
  import opened Outbox
  import opened Ledger
  import opened Protocol
  import opened ReviewRules
  import opened PaymentRules
  import opened CatalogService
  import opened Effects
  import opened Runs
  import opened Shapes
  import opened Steps
  import opened Soundness
  import opened Permanence

  predicate Repeatable(op: Op) {
    || op.DoReserve? || op.DoDispatch? || op.DoRelease? || op.DoUnresolved? || op.DoSettle? || op.DoRecordUsage?
    || op.DoSubmitReview? || op.DoDecideReview? || op.DoCapture? || op.DoAcceptTrade? || op.DoCreateRefund?
    || op.DoPrepareRefund? || op.DoCompleteRefund?
  }

  // ---- what a committed request leaves on record --------------------------

  predicate Found(h: History, project: Id, id: Id) {
    project in h.accounts && id in h.reservations && h.reservations[id].spec.project == project
  }

  predicate ReserveAnswered(h: History, q: ReserveRequest) {
    && ReserveRequestOk(q) && q.project in h.accounts && h.accounts[q.project].tenant == q.tenant
    && q.id in h.reservations && h.reservations[q.id].spec == q
  }

  predicate DispatchAnswered(h: History, project: Id, id: Id) {
    Found(h, project, id) && h.reservations[id].state != Reserved
  }

  predicate ReleaseAnswered(h: History, project: Id, id: Id, reason: string) {
    reason == "not_dispatched" && Found(h, project, id) && h.reservations[id].state == Released
  }

  /** Once settled or waived, a reservation takes any late report for an answer. */
  predicate ReportAnswered(h: History, project: Id, id: Id, q: UnresolvedRequest) {
    && UnresolvedOk(q) && Found(h, project, id)
    && (match h.reservations[id].state
        case Settled => true
        case Waived => true
        case Dispatched => h.reservations[id].completion == Some(Unresolved(q))
        case _ => false)
  }

  predicate SettleAnswered(h: History, project: Id, id: Id, q: SettleRequest) {
    && SettleRequestOk(q) && Found(h, project, id)
    && h.reservations[id].state == Settled && h.reservations[id].completion == Some(Usage(q))
  }

  predicate RecordAnswered(h: History, u: UsageReport) {
    && UsageReportOk(u) && ReportCost(h.catalog, u).Some? && u.project in h.accounts && u.eventId in h.usage
    && u.key in h.keys && h.keys[u.key].project == u.project && h.keys[u.key].tenant == u.tenant
  }

  predicate SubmitAnswered(h: History, project: Id, reservation: Id, actor: Id, e: Evidence) {
    && EvidenceOk(e) && project in h.accounts && e.id in h.reviews
    && h.reviews[e.id].project == project && h.reviews[e.id].reservation == reservation
    && h.reviews[e.id].submittedBy == actor && h.reviews[e.id].evidence == e
  }

  predicate DecideAnswered(h: History, project: Id, id: Id, actor: Id, q: Decision) {
    && DecisionOk(q) && project in h.accounts && id in h.reviews
    && h.reviews[id].project == project && h.reviews[id].submittedBy != actor
    && h.reviews[id].fingerprint == q.fingerprint && h.reviews[id].state != Submitted
    && h.reviews[id].reviewedBy == Some(actor) && h.reviews[id].decision == Some(q)
  }

  predicate CaptureAnswered(h: History, order: Id, id: Id, via: string, reference: string) {
    && NonBlank(via) && NonBlank(reference) && id in h.payments
    && h.payments[id].order == order && h.payments[id].provider == via && h.payments[id].providerReference == reference
  }

  /** The notification's receipt, and the credit or the closed checkout it led to. */
  predicate TradeAnswered(h: History, provider: Provider, t: Trade) {
    && t.order in h.orders && t.order in h.checkouts && TradeMatches(h, provider, t)
    && ReceiptId(provider, t) in h.receipts
    && (InProduction(provider) ==> if TradePaid(t) then CreditAnswered(h, provider, t) else ClosureAnswered(h, t))
  }

  predicate CreditAnswered(h: History, provider: Provider, t: Trade)
    requires t.order in h.orders
  {
    var id := AlipayPaymentId(provider, t);
    id in h.payments && h.payments[id].order == t.order && h.payments[id].amount == h.orders[t.order].amount
  }

  predicate ClosureAnswered(h: History, t: Trade)
    requires t.order in h.orders && t.order in h.checkouts
  {
    TradeClosed(t) && h.orders[t.order].status == Pending ==> h.checkouts[t.order].state == Closed
  }

  predicate RefundAnswered(h: History, q: RefundRequest) {
    q.id in h.refunds && SameRefund(h.refunds[q.id], q)
  }

  predicate CompleteAnswered(h: History, proof: RefundProof, provider: Provider) {
    && proof.request in h.refunds && h.refunds[proof.request].status == RefundSucceeded
    && h.refunds[proof.request].payment in h.payments
    && var order := h.payments[h.refunds[proof.request].payment].order;
       order in h.orders && order in h.checkouts && ProofMatches(h, proof, provider)
  }

  predicate Answered(h: History, op: Op) {
    match op
    case DoReserve(q) => ReserveAnswered(h, q)
    case DoDispatch(project, id) => DispatchAnswered(h, project, id)
    case DoRelease(project, id, reason) => ReleaseAnswered(h, project, id, reason)
    case DoUnresolved(project, id, q) => ReportAnswered(h, project, id, q)
    case DoSettle(project, id, q) => SettleAnswered(h, project, id, q)
    case DoRecordUsage(u) => RecordAnswered(h, u)
    case DoSubmitReview(project, id, actor, _, e) => SubmitAnswered(h, project, id, actor, e)
    case DoDecideReview(project, id, actor, _, q) => DecideAnswered(h, project, id, actor, q)
    case DoCapture(order, id, via, reference, _) => CaptureAnswered(h, order, id, via, reference)
    case DoAcceptTrade(provider, t) => TradeAnswered(h, provider, t)
    case DoCreateRefund(q, _) => 0 < q.amount && NonBlank(q.reason) && RefundAnswered(h, q)
    case DoPrepareRefund(q, provider) => RefundRequestOk(q) && Refundable(h, q.payment, provider).Ok? && RefundAnswered(h, q)
    case DoCompleteRefund(proof, provider) => CompleteAnswered(h, proof, provider)
    case _ => false
  }

  /** What can overtake a request: a dispatched reservation ends, and a request
      that was reported under somebody else's event is reserved. */
  predicate Overtaken(h: History, op: Op) {
    match op
    case DoDispatch(_, id) => id in h.reservations && h.reservations[id].state != Dispatched
    case DoRecordUsage(u) => ReservedRequest(h, u.project, u.requestId)
    case _ => false
  }

  // ---- what the first time leaves behind ----------------------------------

  /** Rewriting a row leaves that row. */
  lemma Rewritten(h: History, row: Reservation, e: Event, now: Instant)
    requires Rewrite(h, row, e, now).Ok?
    ensures
      var after := Rewrite(h, row, e, now).value.0;
      && row.spec.id in after.reservations && after.reservations[row.spec.id] == row
      && after.accounts == h.accounts
  {
  }

  lemma ReserveLeaves(h: History, q: ReserveRequest, now: Instant)
    requires Reserve(h, q, now).Ok?
    ensures ReserveAnswered(Reserve(h, q, now).value.0, q)
  {
    if q.id !in h.reservations {
      var model := ActiveModel(h.catalog, q.model).value;
      var amount := UsageCost(model, q.inputLimit, q.outputLimit).value;
      Admitted(h, q, model, amount, now);
    }
    hide Admit, UsageCost, ReservedRequest, MeteredRequest, WithinContext, ActiveModel, KeyAdmits;
  }

  lemma Admitted(h: History, q: ReserveRequest, model: Model, amount: I64, now: Instant)
    requires q.project in h.accounts && q.key in h.keys && Admit(h, q, model, amount, now).Ok?
    ensures
      var after := Admit(h, q, model, amount, now).value.0;
      && q.id in after.reservations && after.reservations[q.id].spec == q && after.accounts == h.accounts
  {
    hide Rewrite, BalanceGate, BudgetGate, HoldRoom;
    Rewritten(h, Reservation(q, model, amount, None, Reserved, None), ReservationCreated(q.id, amount, model.priceVersion),
              now);
  }

  lemma DispatchLeaves(h: History, project: Id, id: Id, now: Instant)
    requires RowsOk(h) && Dispatch(h, project, id, now).Ok?
    ensures DispatchAnswered(Dispatch(h, project, id, now).value.0, project, id)
    ensures Dispatch(h, project, id, now).value.0.reservations[id].state == Dispatched
  {
    hide Rewrite;
    var row := Locked(h, project, id).value;
    if row.state != Dispatched {
      Rewritten(h, row.(state := Dispatched), ReservationDispatched(id), now);
    }
  }

  lemma ReleaseLeaves(h: History, project: Id, id: Id, reason: string, now: Instant)
    requires RowsOk(h) && Release(h, project, id, reason, now).Ok?
    ensures ReleaseAnswered(Release(h, project, id, reason, now).value.0, project, id, reason)
  {
    hide Rewrite, HoldRoom;
    var row := Locked(h, project, id).value;
    if row.state != Released {
      Rewritten(h, row.(state := Released, completion := Some(NotDispatched)), ReservationReleased(id), now);
    }
  }

  lemma ReportLeaves(h: History, project: Id, id: Id, q: UnresolvedRequest, now: Instant)
    requires RowsOk(h) && ReportUnresolved(h, project, id, q, now).Ok?
    ensures ReportAnswered(ReportUnresolved(h, project, id, q, now).value.0, project, id, q)
  {
    hide Rewrite, UnresolvedOk;
    var row := Locked(h, project, id).value;
    if row.state == Dispatched && row.completion.None? {
      Rewritten(h, row.(completion := Some(Unresolved(q))), ReservationUnresolved(id, q), now);
    }
  }

  lemma ChargedRow(h: History, row: Reservation, q: SettleRequest, amount: I64, now: Instant)
    requires 0 <= amount <= row.reserved && Charge(h, row, q, amount, now).Ok?
    ensures
      var after := Charge(h, row, q, amount, now).value.0;
      && row.spec.id in after.reservations && after.reservations[row.spec.id] == SettledRow(row, q, amount)
      && after.accounts == h.accounts
  {
    hide Charge, Feeds, UsageId, SettlementKey, ChargePosting, Fresh;
    ChargeFeeds(h, row, q, amount, now);
  }

  lemma SettleLeaves(h: History, project: Id, id: Id, q: SettleRequest, now: Instant)
    requires RowsOk(h) && Settle(h, project, id, q, now).Ok?
    ensures SettleAnswered(Settle(h, project, id, q, now).value.0, project, id, q)
  {
    var row := Locked(h, project, id).value;
    FrozenTerms(h, id);
    hide Charge, RowsOk, UsageCost;
    if row.state != Settled {
      CostMonotone(row.price, q.inputTokens, q.outputTokens, row.spec.inputLimit, row.spec.outputLimit);
      ChargedRow(h, row, q, UsageCost(row.price, q.inputTokens, q.outputTokens).value, now);
    }
  }

  lemma RecordLeaves(h: History, u: UsageReport, now: Instant)
    requires Sound(h) && RecordUsage(h, u, now).Ok?
    ensures
      var after := RecordUsage(h, u, now).value.0;
      && RecordAnswered(after, u) && !ReservedRequest(after, u.project, u.requestId)
      && (u.eventId !in h.usage ==> MeteredRequest(after, u.project, u.requestId))
  {
    if u.eventId !in h.usage {
      Recorded(h, u, now);
    }
    hide PostUsage, Spent, UsageReportOk, UsageCost;
  }

  lemma Recorded(h: History, u: UsageReport, now: Instant)
    requires Sound(h) && NewReport(h, u, now)
    ensures
      var after := RecordUsage(h, u, now).value.0;
      && u.eventId in after.usage && after.usage[u.eventId].project == u.project
      && after.usage[u.eventId].requestId == u.requestId
      && after.reservations == h.reservations && Steady(h, after)
  {
    hide RowsOk, InRange, AmountsOk, RecordUsage, Feeds, ShapeOk, ReportCost;
    RecordSound(h, u, now);
    MeteringFeeds(h, u, now, ReportCost(h.catalog, u).value);
  }

  // ---- reviews ------------------------------------------------------------

  lemma SubmitLeaves(h: History, project: Id, reservation: Id, actor: Id, subject: string, e: Evidence, now: Instant)
    requires SubmitReview(h, project, reservation, actor, subject, e, now).Ok?
    ensures SubmitAnswered(SubmitReview(h, project, reservation, actor, subject, e, now).value.0,
                           project, reservation, actor, e)
  {
    hide EvidenceOk;
  }

  lemma DecideLeaves(h: History, project: Id, id: Id, actor: Id, subject: string, q: Decision, now: Instant)
    requires Good(h) && DecideReview(h, project, id, actor, subject, q, now).Ok?
    ensures DecideAnswered(DecideReview(h, project, id, actor, subject, q, now).value.0, project, id, actor, q)
  {
    hide RowsOk, InRange, AmountsOk, CatalogOk, ReviewsPoint, DecisionOk, Approve;
    var row := h.reviews[id];
    if row.state == Submitted {
      if q.approve {
        ApprovedAccounts(h, row, id, now);
      }
      assert DecidedState(row, q) != Submitted;
    }
  }

  lemma ApprovedAccounts(h: History, row: Review, id: Id, now: Instant)
    requires Sound(h) && Approve(h, row, id, now).Ok?
    ensures Approve(h, row, id, now).value.0.accounts == h.accounts
  {
    hide Approve, RowsOk, InRange, AmountsOk, ShapeOk, Summarizes, SummaryOf, Files, NoteOk;
    var shape := ApproveShape(h, row, id, Decision(row.fingerprint, true, ""), "", now);
  }

  // ---- payments and refunds -----------------------------------------------

  lemma CaptureLeaves(h: History, order: Id, id: Id, via: string, reference: string, key: string, now: Instant)
    requires CapturePayment(h, order, id, via, reference, key, now).Ok?
    ensures CaptureAnswered(CapturePayment(h, order, id, via, reference, key, now).value.0, order, id, via, reference)
  {
    hide NonBlank, ReferenceUsed, Balance, Held, KeyUsed;
  }

  /** The order, checkout and payment a credit leaves behind. */
  ghost predicate CreditLeft(h: History, after: History, provider: Provider, t: Trade) {
    var id := AlipayPaymentId(provider, t);
    && SamePapers(h, after, t)
    && id in after.payments && after.payments[id].order == t.order
    && after.payments[id].amount == after.orders[t.order].amount
  }

  lemma CreditLeaves(h: History, provider: Provider, t: Trade, now: Instant)
    requires t.order in h.orders && t.order in h.checkouts && CreditTrade(h, provider, t, now).Ok?
    ensures CreditLeft(h, CreditTrade(h, provider, t, now).value.0, provider, t)
  {
    hide AlipayPaymentId, ReferenceUsed, Post, Gated, Feeds, Fresh;
    var id := AlipayPaymentId(provider, t);
    if id !in h.payments {
      var order := h.orders[t.order];
      PostFeeds(Captured(h, id, Payment(t.order, "alipay", t.tradeId, order.amount)), order.project, TopUp,
                PaymentRef(id), "alipay:" + id, order.amount * MICROS_PER_MINOR_UNIT, CashClearing, now);
    }
  }

  lemma TradeLeaves(h: History, provider: Provider, t: Trade, now: Instant)
    requires AcceptTrade(h, provider, t, now).Ok?
    ensures TradeAnswered(AcceptTrade(h, provider, t, now).value.0, provider, t)
  {
    hide CreditTrade, TradePaid, Unpaid, InProduction, Witness, TradeMatches, ReceiptId, AlipayPaymentId;
    var seen := Witness(h, provider, t);
    var after := AcceptTrade(h, provider, t, now).value.0;
    TradePapers(h, provider, t);
    WitnessLeaves(h, provider, t);
    if InProduction(provider) && TradePaid(t) {
      CreditLeaves(seen, provider, t, now);
    } else if InProduction(provider) {
      UnpaidLeaves(seen, t);
    }
    StillMatches(h, after, provider, t);
  }

  lemma WitnessLeaves(h: History, provider: Provider, t: Trade)
    ensures ReceiptId(provider, t) in Witness(h, provider, t).receipts
  {
    hide ReceiptId;
  }

  lemma StillMatches(h: History, after: History, provider: Provider, t: Trade)
    requires t.order in h.orders && t.order in h.checkouts && TradeMatches(h, provider, t)
    requires SamePapers(Witness(h, provider, t), after, t)
    ensures TradeMatches(after, provider, t)
  {
    hide ReceiptId;
  }

  predicate SamePapers(h: History, after: History, t: Trade) {
    && t.order in h.orders && t.order in after.orders && after.orders[t.order].amount == h.orders[t.order].amount
    && t.order in h.checkouts && t.order in after.checkouts
    && after.checkouts[t.order].profile == h.checkouts[t.order].profile
    && after.checkouts[t.order].environment == h.checkouts[t.order].environment
    && after.receipts == h.receipts
  }

  lemma UnpaidLeaves(h: History, t: Trade)
    requires t.order in h.orders && t.order in h.checkouts
    ensures SamePapers(h, Unpaid(h, t), t) && ClosureAnswered(Unpaid(h, t), t)
  {
    hide TradeClosed;
  }

  lemma ManualRefundLeaves(h: History, q: RefundRequest, key: string, now: Instant)
    requires CreateRefund(h, q, key, now).Ok?
    ensures 0 < q.amount && NonBlank(q.reason) && RefundAnswered(CreateRefund(h, q, key, now).value.0, q)
  {
    hide NonBlank, Sum, Balance, Held, KeyUsed;
  }

  lemma PrepareLeaves(h: History, q: RefundRequest, provider: Provider, now: Instant)
    requires PrepareRefund(h, q, provider, now).Ok?
    ensures
      var after := PrepareRefund(h, q, provider, now).value.0;
      RefundRequestOk(q) && Refundable(after, q.payment, provider).Ok? && RefundAnswered(after, q)
  {
    hide RefundRequestOk, Sum, Balance, Held, KeyUsed;
  }

  lemma CompleteLeaves(h: History, proof: RefundProof, provider: Provider, now: Instant)
    requires CompleteRefund(h, proof, provider, now).Ok?
    ensures CompleteAnswered(CompleteRefund(h, proof, provider, now).value.0, proof, provider)
  {
    hide RefundReceipt, KeyUsed, SettleRefundKey;
  }

  /** Requests about a reservation's life. */
  predicate OfReservation(op: Op) {
    op.DoReserve? || op.DoDispatch? || op.DoRelease? || op.DoUnresolved? || op.DoSettle?
  }

  lemma ReservationLeaves(h: History, op: Op, now: Instant)
    requires Good(h) && OfReservation(op) && Attempt(h, op, now).Ok?
    ensures Answered(Attempt(h, op, now).value, op) && !Overtaken(Attempt(h, op, now).value, op)
  {
    hide Sum, SumSeq, Reserve, Dispatch, Release, ReportUnresolved, Settle, RowsOk, InRange, AmountsOk, CatalogOk,
         ReviewsPoint, ReserveAnswered, ReleaseAnswered, ReportAnswered, SettleAnswered;
    match op {
      case DoReserve(q) => ReserveLeaves(h, q, now);
      case DoDispatch(project, id) => DispatchLeaves(h, project, id, now);
      case DoRelease(project, id, reason) => ReleaseLeaves(h, project, id, reason, now);
      case DoUnresolved(project, id, q) => ReportLeaves(h, project, id, q, now);
      case DoSettle(project, id, q) => SettleLeaves(h, project, id, q, now);
    }
  }

  lemma PaymentLeaves(h: History, op: Op, now: Instant)
    requires op.DoCapture? || op.DoAcceptTrade? || op.DoCreateRefund? || op.DoPrepareRefund? || op.DoCompleteRefund?
    requires Attempt(h, op, now).Ok?
    ensures Answered(Attempt(h, op, now).value, op)
  {
    hide Sum, CapturePayment, AcceptTrade, CreateRefund, PrepareRefund, CompleteRefund, CaptureAnswered, TradeAnswered,
         RefundAnswered, CompleteAnswered, Refundable;
    match op {
      case DoCapture(order, id, via, reference, key) => CaptureLeaves(h, order, id, via, reference, key, now);
      case DoAcceptTrade(provider, trade) => TradeLeaves(h, provider, trade, now);
      case DoCreateRefund(q, key) => ManualRefundLeaves(h, q, key, now);
      case DoPrepareRefund(q, provider) => PrepareLeaves(h, q, provider, now);
      case DoCompleteRefund(proof, provider) => CompleteLeaves(h, proof, provider, now);
    }
  }

  lemma FilingLeaves(h: History, op: Op, now: Instant)
    requires op.DoRecordUsage? || op.DoSubmitReview? || op.DoDecideReview?
    requires Good(h) && Attempt(h, op, now).Ok?
    ensures Answered(Attempt(h, op, now).value, op) && !Overtaken(Attempt(h, op, now).value, op)
  {
    hide RecordUsage, SubmitReview, DecideReview, RowsOk, InRange, AmountsOk, CatalogOk, ReviewsPoint, ReservedRequest,
         RecordAnswered, SubmitAnswered, DecideAnswered, MeteredRequest;
    match op {
      case DoRecordUsage(u) => RecordLeaves(h, u, now);
      case DoSubmitReview(project, id, actor, subject, e) => SubmitLeaves(h, project, id, actor, subject, e, now);
      case DoDecideReview(project, id, actor, subject, q) => DecideLeaves(h, project, id, actor, subject, q, now);
    }
  }

  lemma RequestLeaves(h: History, op: Op, now: Instant)
    requires Good(h) && Repeatable(op) && Attempt(h, op, now).Ok?
    ensures Answered(Attempt(h, op, now).value, op) && !Overtaken(Attempt(h, op, now).value, op)
  {
    hide Attempt, Answered, Good;
    if OfReservation(op) {
      ReservationLeaves(h, op, now);
    } else if op.DoRecordUsage? || op.DoSubmitReview? || op.DoDecideReview? {
      FilingLeaves(h, op, now);
    } else {
      PaymentLeaves(h, op, now);
    }
  }

  // ---- it stays on record -------------------------------------------------

  lemma ReservationStays(h: History, after: History, op: Op)
    requires ReservationsAge(h, after) && EnrollmentAges(h, after) && Answered(h, op)
    requires OfReservation(op)
    ensures Answered(after, op)
  {
    hide MeteredRequest, PricesKept, ReserveRequestOk, UnresolvedOk, SettleRequestOk;
  }

  lemma RecordStays(h: History, after: History, u: UsageReport)
    requires MoneyAges(h, after) && EnrollmentAges(h, after) && RecordAnswered(h, u)
    ensures RecordAnswered(after, u)
  {
    hide UsageReportOk, Chargeable, UsageCost;
  }

  lemma ReviewStays(h: History, after: History, op: Op)
    requires ReviewsAge(h, after) && EnrollmentAges(h, after) && Answered(h, op)
    requires op.DoSubmitReview? || op.DoDecideReview?
    ensures Answered(after, op)
  {
    hide EvidenceOk, DecisionOk, PricesKept;
  }

  lemma TradeStays(h: History, after: History, provider: Provider, t: Trade)
    requires MoneyAges(h, after) && PapersAge(h, after) && TradeAnswered(h, provider, t)
    ensures TradeAnswered(after, provider, t)
  {
    hide ReceiptId, AlipayPaymentId, TradePaid, TradeClosed, InProduction;
    assert CheckoutAges(h.checkouts[t.order], after.checkouts[t.order]);
    assert OrderAges(h.orders[t.order], after.orders[t.order]);
    if h.checkouts[t.order].state == Closed && after.checkouts[t.order].state != Closed {
      assert Reopened(h.checkouts[t.order], after, t.order);
    }
  }

  lemma PaymentStays(h: History, after: History, op: Op)
    requires MoneyAges(h, after) && PapersAge(h, after) && Answered(h, op)
    requires op.DoCapture? || op.DoCreateRefund? || op.DoPrepareRefund? || op.DoCompleteRefund?
    ensures Answered(after, op)
  {
    hide NonBlank, RefundRequestOk;
  }

  lemma AnswerStays(h: History, after: History, op: Op)
    requires Ages(h, after) && Answered(h, op)
    ensures Answered(after, op)
  {
    hide ReservationsAge, MoneyAges, ReviewsAge, PapersAge, EnrollmentAges, RecordAnswered, TradeAnswered;
    if op.DoRecordUsage? {
      RecordStays(h, after, op.usage);
    } else if op.DoAcceptTrade? {
      TradeStays(h, after, op.provider, op.trade);
    } else if op.DoSubmitReview? || op.DoDecideReview? {
      ReviewStays(h, after, op);
    } else if op.DoCapture? || op.DoCreateRefund? || op.DoPrepareRefund? || op.DoCompleteRefund? {
      PaymentStays(h, after, op);
    } else {
      ReservationStays(h, after, op);
    }
  }

  // ---- and answers --------------------------------------------------------

  ghost predicate Replies(h: History, op: Op, now: Instant) {
    Attempt(h, op, now) == if Overtaken(h, op) then Err(Conflict) else Ok(h)
  }

  lemma ReservationReplies(h: History, op: Op, now: Instant)
    requires OfReservation(op)
    requires Answered(h, op)
    ensures Replies(h, op, now)
  {
    hide Rewrite, Admit, Charge, UsageCost, HoldRoom, ReserveRequestOk, UnresolvedOk, SettleRequestOk, KeyAdmits,
         ReservedRequest, MeteredRequest, WithinContext, ActiveModel;
  }

  lemma RecordReplies(h: History, u: UsageReport, now: Instant)
    requires RecordAnswered(h, u)
    ensures Replies(h, DoRecordUsage(u), now)
  {
    hide PostUsage, Spent, UsageReportOk, ReportCost, ReservedRequest;
  }

  lemma ReviewReplies(h: History, op: Op, now: Instant)
    requires (op.DoSubmitReview? || op.DoDecideReview?) && Answered(h, op)
    ensures Replies(h, op, now)
  {
    hide EvidenceOk, DecisionOk, Approve, Conclude, File;
  }

  lemma TradeReplies(h: History, provider: Provider, t: Trade, now: Instant)
    requires TradeAnswered(h, provider, t)
    ensures Replies(h, DoAcceptTrade(provider, t), now)
  {
    hide ReceiptId, AlipayPaymentId, TradePaid, TradeClosed, InProduction, Credit, ReferenceUsed, TradeMatches;
    assert Witness(h, provider, t) == h;
    if InProduction(provider) && !TradePaid(t) && TradeClosed(t) && h.orders[t.order].status == Pending {
      assert h.checkouts[t.order := h.checkouts[t.order].(state := Closed)] == h.checkouts;
    }
  }

  lemma PaymentReplies(h: History, op: Op, now: Instant)
    requires op.DoCapture? || op.DoCreateRefund? || op.DoPrepareRefund? || op.DoCompleteRefund?
    requires Answered(h, op)
    ensures Replies(h, op, now)
  {
    hide NonBlank, RefundRequestOk, Credit, Post, Sum, HoldRefund, ClearRefund, ReferenceUsed, ProofMatches;
  }

  lemma AnswerReplies(h: History, op: Op, now: Instant)
    requires Answered(h, op)
    ensures Replies(h, op, now)
  {
    hide Replies, RecordAnswered, TradeAnswered;
    if op.DoRecordUsage? {
      RecordReplies(h, op.usage, now);
    } else if op.DoAcceptTrade? {
      TradeReplies(h, op.provider, op.trade, now);
    } else if op.DoSubmitReview? || op.DoDecideReview? {
      ReviewReplies(h, op, now);
    } else if op.DoCapture? || op.DoCreateRefund? || op.DoPrepareRefund? || op.DoCompleteRefund? {
      PaymentReplies(h, op, now);
    } else {
      ReservationReplies(h, op, now);
    }
  }

  // ---- all of them --------------------------------------------------------

  /** A request that committed, sent again after any run of other operations and
      at any time: the database stays as it is, and the answer is success again,
      unless the request was overtaken, which is a conflict. */
  lemma RepeatChangesNothing(h: History, op: Op, t1: Instant, ops: seq<Timed>, t2: Instant)
    requires Good(h) && Repeatable(op) && Attempt(h, op, t1).Ok?
    ensures
      var later := Run(Step(h, op, t1), ops);
      && Step(later, op, t2) == later
      && Attempt(later, op, t2) == if Overtaken(later, op) then Err(Conflict) else Ok(later)
  {
    hide Attempt, Answered, Overtaken, Run, Good, Ages;
    RequestLeaves(h, op, t1);
    StepSound(h, op, t1);
    RecordsLast(Step(h, op, t1), ops);
    AnswerStays(Step(h, op, t1), Run(Step(h, op, t1), ops), op);
    AnswerReplies(Run(Step(h, op, t1), ops), op, t2);
  }

  /** A report that was the first under its event id is never overtaken. */
  lemma OwnReportStands(h: History, u: UsageReport, t1: Instant, ops: seq<Timed>, t2: Instant)
    requires Good(h) && u.eventId !in h.usage && RecordUsage(h, u, t1).Ok?
    ensures
      var later := Run(Step(h, DoRecordUsage(u), t1), ops);
      Attempt(later, DoRecordUsage(u), t2) == Ok(later)
  {
    hide Good, Run, Ages, RecordUsage;
    var first := Step(h, DoRecordUsage(u), t1);
    var later := Run(first, ops);
    RepeatChangesNothing(h, DoRecordUsage(u), t1, ops, t2);
    FirstReport(h, u, t1);
    StepSound(h, DoRecordUsage(u), t1);
    RecordsLast(first, ops);
    StaysUnreserved(first, later, u.project, u.requestId);
  }

  lemma FirstReport(h: History, u: UsageReport, now: Instant)
    requires Good(h) && u.eventId !in h.usage && RecordUsage(h, u, now).Ok?
    ensures
      var after := Step(h, DoRecordUsage(u), now);
      !ReservedRequest(after, u.project, u.requestId) && MeteredRequest(after, u.project, u.requestId)
  {
    hide RecordUsage, RecordAnswered, Sound, CatalogOk, ReviewsPoint, ReservedRequest, MeteredRequest;
    RecordLeaves(h, u, now);
  }

  lemma StaysUnreserved(h: History, after: History, project: Id, requestId: Id)
    requires Ages(h, after) && MeteredRequest(h, project, requestId) && !ReservedRequest(h, project, requestId)
    ensures !ReservedRequest(after, project, requestId)
  {
    hide MeteredRequest, MoneyAges, ReviewsAge, PapersAge, EnrollmentAges;
  }
}
