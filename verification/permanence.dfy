/** What is once on record stays: no later operation removes a row, rewrites what
    a request said, or takes a reservation, review, payment or refund back. */
module Permanence {
  import opened Prelude
  import opened Sums
  import opened Rows
  import opened Totals
  import opened Outbox
  import opened Ledger
  import opened Protocol
  import opened ReviewRules
  import opened PaymentRules
  import opened CatalogService
  import opened Administration
  import opened Effects
  import opened Runs
  import opened Shapes
  import opened Steps
  import opened Soundness
  import opened Requests

  // ---- how rows age -------------------------------------------------------

  /** Terms never change, final states are final, and a dispatched reservation
      keeps the report it carries until it is settled or waived. */
  predicate RowAges(was: Reservation, row: Reservation) {
    && row.spec == was.spec && row.price == was.price && row.reserved == was.reserved
    && (match was.state
        case Reserved => true
        case Dispatched =>
          || row.state == Settled || row.state == Waived
          || (row.state == Dispatched && (row.completion == was.completion || was.completion.None?))
        case _ => row == was)
  }

  predicate ReviewAges(was: Review, row: Review) {
    && row.(state := was.state, reviewedBy := was.reviewedBy, decision := was.decision) == was
    && (was.state != Submitted ==> row == was)
  }

  predicate OrderAges(was: Order, row: Order) {
    row == was || row == was.(status := Paid)
  }

  predicate RefundAges(was: Refund, row: Refund) {
    && row.(status := was.status, providerReference := was.providerReference) == was
    && (was.status == RefundSucceeded ==> row == was)
  }

  predicate Over(state: CheckoutState) {
    state == Closed || state == CheckedOut
  }

  /** A checkout keeps its merchant, and once it is over it stays over. */
  predicate CheckoutAges(was: Checkout, row: Checkout) {
    row.profile == was.profile && row.environment == was.environment && (Over(was.state) ==> Over(row.state))
  }

  predicate ReservationsAge(h: History, after: History) {
    && (forall i :: i in h.reservations ==> i in after.reservations && RowAges(h.reservations[i], after.reservations[i]))
    && (forall i :: i in after.reservations && i !in h.reservations ==>
          !MeteredRequest(h, after.reservations[i].spec.project, after.reservations[i].spec.requestId))
  }

  predicate MoneyAges(h: History, after: History) {
    && (forall u :: u in h.usage ==> u in after.usage && after.usage[u] == h.usage[u])
    && (forall o :: o in h.orders ==> o in after.orders && OrderAges(h.orders[o], after.orders[o]))
    && (forall p :: p in h.payments ==> p in after.payments && after.payments[p] == h.payments[p])
    && (forall r :: r in h.refunds ==> r in after.refunds && RefundAges(h.refunds[r], after.refunds[r]))
    && h.ledger <= after.ledger
  }

  predicate ReviewsAge(h: History, after: History) {
    && (forall r :: r in h.reviews ==> r in after.reviews && ReviewAges(h.reviews[r], after.reviews[r]))
    && (forall a :: a in h.audits ==> a in after.audits && after.audits[a] == h.audits[a])
  }

  predicate Reopened(was: Checkout, after: History, o: Id) {
    was.state == Closed && o in after.checkouts && after.checkouts[o].state == CheckedOut
  }

  /** A pending order whose checkout was closed still has it closed. */
  predicate PapersAge(h: History, after: History) {
    && (forall o :: o in h.checkouts ==> o in after.checkouts && CheckoutAges(h.checkouts[o], after.checkouts[o]))
    && (forall o :: o in h.checkouts && Reopened(h.checkouts[o], after, o) ==>
          o in after.orders && after.orders[o].status == Paid)
    && (forall r :: r in h.receipts ==> r in after.receipts && after.receipts[r] == h.receipts[r])
  }

  predicate EnrollmentAges(h: History, after: History) {
    && (forall a :: a in h.accounts ==> a in after.accounts && after.accounts[a].tenant == h.accounts[a].tenant)
    && (forall k :: k in h.keys ==>
          k in after.keys && after.keys[k].project == h.keys[k].project && after.keys[k].tenant == h.keys[k].tenant)
    && PricesKept(h.catalog, after.catalog)
  }

  ghost predicate Ages(h: History, after: History) {
    && ReservationsAge(h, after) && MoneyAges(h, after) && ReviewsAge(h, after)
    && PapersAge(h, after) && EnrollmentAges(h, after)
  }

  // ---- one operation ------------------------------------------------------

  lemma ShapeReservations(h: History, after: History, shape: Shape, now: Instant)
    requires RowsOk(h) && Amount(shape) && ShapeOk(h, shape, now) && Writes(h, after, SummaryOf(h, shape, now))
    ensures ReservationsAge(h, after)
  {
    hide OrdersMove, RefundFits, Gated, Fresh, PayerOf, RefundAccount, BalanceGate, BudgetGate, ReservedRequest,
         MeteredRequest, Moves, ReservationsAge, RowsOk, SettledRow;
    match shape {
      case Opening(row) => RowAdded(h, after, row);
      case Moving(row, e) =>
        MovesAge(h.reservations[row.spec.id], row, e);
        RowReplaced(h, after, row.spec.id, row);
      case Charging(was, q, amount) =>
        SettledAges(was, q, amount);
        RowReplaced(h, after, was.spec.id, SettledRow(was, q, amount));
      case _ => RowsUntouched(h, after);
    }
  }

  lemma RowAdded(h: History, after: History, row: Reservation)
    requires row.spec.id !in h.reservations && after.reservations == h.reservations[row.spec.id := row]
    requires !MeteredRequest(h, row.spec.project, row.spec.requestId)
    ensures ReservationsAge(h, after)
  {
    hide MeteredRequest;
  }

  lemma RowReplaced(h: History, after: History, id: Id, row: Reservation)
    requires id in h.reservations && after.reservations == h.reservations[id := row] && RowAges(h.reservations[id], row)
    ensures ReservationsAge(h, after)
  {
    hide MeteredRequest;
  }

  lemma RowsUntouched(h: History, after: History)
    requires after.reservations == h.reservations
    ensures ReservationsAge(h, after)
  {
    hide MeteredRequest;
  }

  lemma SettledAges(was: Reservation, q: SettleRequest, amount: I64)
    requires was.state == Dispatched
    ensures RowAges(was, SettledRow(was, q, amount))
  {
  }

  lemma MovesAge(was: Reservation, row: Reservation, e: Event)
    requires Moves(was, row, e)
    ensures RowAges(was, row)
  {
  }

  lemma ShapeMoney(h: History, after: History, shape: Shape, now: Instant)
    requires RowsOk(h) && Amount(shape) && ShapeOk(h, shape, now) && Writes(h, after, SummaryOf(h, shape, now))
    ensures MoneyAges(h, after)
  {
    hide RowsOk, RefundFits, Gated, Fresh, PayerOf, RefundAccount, BalanceGate, BudgetGate, ReservedRequest,
         MeteredRequest, Moves;
  }

  lemma NoteReviews(h: History, after: History, shape: Shape, note: Note)
    requires NoteOk(h, shape, note) && Files(h, after, note)
    ensures ReviewsAge(h, after)
  {
    hide Approves;
  }

  lemma SameEnrollment(h: History, after: History)
    requires Steady(h, after)
    ensures EnrollmentAges(h, after)
  {
  }

  // ---- receipts and checkouts ---------------------------------------------

  predicate PapersUntouched(h: History, after: History) {
    after.checkouts == h.checkouts && after.receipts == h.receipts
  }

  lemma UntouchedAge(h: History, after: History)
    requires PapersUntouched(h, after)
    ensures PapersAge(h, after)
  {
  }

  lemma ReservePapers(h: History, q: ReserveRequest, now: Instant)
    requires Reserve(h, q, now).Ok?
    ensures PapersUntouched(h, Reserve(h, q, now).value.0)
  {
    hide BalanceGate, BudgetGate, HoldRoom, ReservedRequest, MeteredRequest, KeyAdmits, UsageCost, WithinContext;
  }

  lemma ReportPapers(h: History, op: Op, now: Instant)
    requires op.DoDispatch? || op.DoRelease? || op.DoUnresolved?
    ensures PapersUntouched(h, Step(h, op, now))
  {
    hide HoldRoom, UnresolvedOk;
  }

  lemma PostPapers(h: History, project: Id, usageId: Id, key: string, amount: I64, now: Instant)
    requires PostUsage(h, project, usageId, key, amount, now).Ok?
    ensures PapersUntouched(h, PostUsage(h, project, usageId, key, amount, now).value)
  {
    hide Balance, Held, Affords, KeyUsed;
  }

  lemma SettlePapers(h: History, row: Reservation, q: SettleRequest, now: Instant)
    requires SettleLocked(h, row, q, now).Ok?
    ensures PapersUntouched(h, SettleLocked(h, row, q, now).value.0)
  {
    hide HoldRoom, Spent, PostUsage, UsageCost, UsageId, SettlementKey;
    if row.state != Settled {
      var amount := UsageCost(row.price, q.inputTokens, q.outputTokens).value;
      PostPapers(Metered(h, row, q, amount, now), row.spec.project, UsageId(row.spec.id), SettlementKey(row.spec.id),
                 amount, now);
    }
  }

  lemma RecordPapers(h: History, u: UsageReport, now: Instant)
    requires RecordUsage(h, u, now).Ok?
    ensures PapersUntouched(h, RecordUsage(h, u, now).value.0)
  {
    hide Spent, PostUsage, UsageReportOk, ReportCost, ReservedRequest;
    if u.eventId !in h.usage {
      var cost := ReportCost(h.catalog, u).value;
      PostPapers(h.(usage := h.usage[u.eventId := ReportedUsage(u, cost)]), u.project, u.eventId, ReportKey(u.eventId),
                 cost, now);
    }
  }

  lemma SubmitPapers(h: History, project: Id, reservation: Id, actor: Id, subject: string, e: Evidence, now: Instant)
    requires SubmitReview(h, project, reservation, actor, subject, e, now).Ok?
    ensures PapersUntouched(h, SubmitReview(h, project, reservation, actor, subject, e, now).value.0)
  {
    hide EvidenceOk, Reviewable;
  }

  lemma DecidePapers(h: History, project: Id, id: Id, actor: Id, subject: string, q: Decision, now: Instant)
    requires DecideReview(h, project, id, actor, subject, q, now).Ok?
    ensures PapersUntouched(h, DecideReview(h, project, id, actor, subject, q, now).value.0)
  {
    hide DecisionOk, Approve;
    if h.reviews[id].state == Submitted && q.approve {
      ApprovePapers(h, h.reviews[id], id, now);
    }
  }

  lemma ApprovePapers(h: History, row: Review, id: Id, now: Instant)
    requires Approve(h, row, id, now).Ok?
    ensures PapersUntouched(h, Approve(h, row, id, now).value.0)
  {
    hide SettleLocked, HoldRoom;
    if row.evidence.UsageEvidence? {
      SettlePapers(h, Locked(h, row.project, row.reservation).value, row.evidence.usage, now);
    }
  }

  lemma OrderPapers(h: History, id: Id, tenant: Id, project: Id, amount: I64)
    requires CreateOrder(h, id, tenant, project, amount).Ok?
    ensures PapersUntouched(h, CreateOrder(h, id, tenant, project, amount).value.0)
  {
  }

  lemma CheckoutPapers(h: History, order: Id, provider: Provider)
    requires OpenCheckout(h, order, provider).Ok?
    ensures PapersAge(h, OpenCheckout(h, order, provider).value.0)
  {
    hide ProviderAmount, PapersAge;
    UntouchedAge(h, h);
    OneCheckout(h, order, OpenCheckout(h, order, provider).value.1);
  }

  /** A checkout row that is new, or ages without being paid. */
  lemma OneCheckout(h: History, order: Id, row: Checkout)
    requires order in h.checkouts ==>
      CheckoutAges(h.checkouts[order], row) && (row.state == CheckedOut ==> h.checkouts[order].state != Closed)
    ensures PapersAge(h, h.(checkouts := h.checkouts[order := row]))
  {
  }

  lemma CodePapers(h: History, order: Id, code: string)
    requires StoreCode(h, order, code).Ok?
    ensures PapersAge(h, StoreCode(h, order, code).value.0)
  {
    hide PapersAge;
    OneCheckout(h, order, StoreCode(h, order, code).value.1);
  }

  lemma CapturePapers(h: History, order: Id, id: Id, via: string, reference: string, key: string, now: Instant)
    requires CapturePayment(h, order, id, via, reference, key, now).Ok?
    ensures PapersUntouched(h, CapturePayment(h, order, id, via, reference, key, now).value.0)
  {
    hide Balance, Held, Affords, KeyUsed, NonBlank, ReferenceUsed;
  }

  lemma RefundPapers(h: History, q: RefundRequest, key: string, now: Instant)
    requires CreateRefund(h, q, key, now).Ok?
    ensures PapersUntouched(h, CreateRefund(h, q, key, now).value.0)
  {
    hide Balance, Held, Affords, KeyUsed, NonBlank, Sum;
  }

  lemma PreparePapers(h: History, q: RefundRequest, provider: Provider, now: Instant)
    requires PrepareRefund(h, q, provider, now).Ok?
    ensures PapersUntouched(h, PrepareRefund(h, q, provider, now).value.0)
  {
    hide Balance, Held, Affords, KeyUsed, RefundRequestOk, Sum, Refundable;
  }

  lemma CompletePapers(h: History, proof: RefundProof, provider: Provider, now: Instant)
    requires CompleteRefund(h, proof, provider, now).Ok?
    ensures PapersAge(h, CompleteRefund(h, proof, provider, now).value.0)
  {
    hide KeyUsed, RefundReceipt, SettleRefundKey;
  }

  lemma TradeAges(h: History, provider: Provider, t: Trade, now: Instant)
    requires AcceptTrade(h, provider, t, now).Ok?
    ensures PapersAge(h, AcceptTrade(h, provider, t, now).value.0)
  {
    hide CreditTrade, TradePaid, InProduction, Witness, Unpaid, PapersAge, TradeMatches;
    var seen := Witness(h, provider, t);
    TradePapers(h, provider, t);
    WitnessAges(h, provider, t);
    if InProduction(provider) && TradePaid(t) {
      CreditAges(seen, provider, t, now);
      SeenAges(h, seen, AcceptTrade(h, provider, t, now).value.0);
    } else if InProduction(provider) {
      UnpaidAges(seen, t);
      SeenAges(h, seen, Unpaid(seen, t));
    } else {
      UntouchedAge(seen, seen);
      SeenAges(h, seen, seen);
    }
  }

  /** A notification is put on record once. */
  lemma WitnessAges(h: History, provider: Provider, t: Trade)
    ensures forall r :: r in h.receipts ==>
      r in Witness(h, provider, t).receipts && Witness(h, provider, t).receipts[r] == h.receipts[r]
  {
    hide ReceiptId;
    var id := ReceiptId(provider, t);
    if id !in h.receipts {
      ReceiptAdded(h.receipts, id, Receipt(t.order, provider.profile, t.tradeId, t.state, t.amount));
    }
  }

  lemma ReceiptAdded(receipts: map<string, Receipt>, id: string, row: Receipt)
    requires id !in receipts
    ensures forall r :: r in receipts ==> r in receipts[id := row] && receipts[id := row][r] == receipts[r]
  {
  }

  lemma UnpaidAges(h: History, t: Trade)
    requires t.order in h.orders && t.order in h.checkouts
    ensures PapersAge(h, Unpaid(h, t))
  {
    hide TradeClosed, PapersAge;
    UntouchedAge(h, h);
    OneCheckout(h, t.order, h.checkouts[t.order].(state := Closed));
  }

  lemma SeenAges(h: History, seen: History, after: History)
    requires seen == h.(receipts := seen.receipts) && PapersAge(seen, after)
    requires forall r :: r in h.receipts ==> r in seen.receipts && seen.receipts[r] == h.receipts[r]
    ensures PapersAge(h, after)
  {
  }

  lemma CreditAges(h: History, provider: Provider, t: Trade, now: Instant)
    requires t.order in h.orders && t.order in h.checkouts && CreditTrade(h, provider, t, now).Ok?
    ensures PapersAge(h, CreditTrade(h, provider, t, now).value.0)
  {
    hide Balance, Held, Affords, KeyUsed, ReferenceUsed, AlipayPaymentId;
  }

  /** Operations of the account, its reviews and its refunds. */
  lemma AccountPapers(h: History, op: Op, now: Instant)
    requires Attempt(h, op, now).Ok? && !Apart(op)
    requires !op.DoOpenCheckout? && !op.DoStoreCode? && !op.DoAcceptTrade? && !op.DoCompleteRefund?
    ensures PapersUntouched(h, Step(h, op, now))
  {
    hide Reserve, Dispatch, Release, ReportUnresolved, SettleLocked, RecordUsage, SubmitReview, DecideReview,
         CreateOrder, CapturePayment, CreateRefund, PrepareRefund;
    match op {
      case DoReserve(q) => ReservePapers(h, q, now);
      case DoDispatch(_, _) => ReportPapers(h, op, now);
      case DoRelease(_, _, _) => ReportPapers(h, op, now);
      case DoUnresolved(_, _, _) => ReportPapers(h, op, now);
      case DoSettle(project, id, q) => SettlePapers(h, Locked(h, project, id).value, q, now);
      case DoRecordUsage(u) => RecordPapers(h, u, now);
      case DoSubmitReview(project, id, actor, subject, e) => SubmitPapers(h, project, id, actor, subject, e, now);
      case DoDecideReview(project, id, actor, subject, q) => DecidePapers(h, project, id, actor, subject, q, now);
      case DoCreateOrder(id, tenant, project, amount) => OrderPapers(h, id, tenant, project, amount);
      case DoCapture(order, id, via, reference, key) => CapturePapers(h, order, id, via, reference, key, now);
      case DoCreateRefund(q, key) => RefundPapers(h, q, key, now);
      case DoPrepareRefund(q, provider) => PreparePapers(h, q, provider, now);
      case DoRebuild(_, _, _) =>
      case _ => assert false;
    }
  }

  lemma StepPapers(h: History, op: Op, now: Instant)
    ensures PapersAge(h, Step(h, op, now))
  {
    hide OpenCheckout, StoreCode, AcceptTrade, CompleteRefund, PapersAge, Attempt;
    UntouchedAge(h, h);
    if Apart(op) {
      ApartStep(h, op, now);
      UntouchedAge(h, Step(h, op, now));
    } else if Attempt(h, op, now).Ok? {
      if op.DoOpenCheckout? || op.DoStoreCode? || op.DoAcceptTrade? || op.DoCompleteRefund? {
        CheckoutStepPapers(h, op, now);
      } else {
        AccountPapers(h, op, now);
        UntouchedAge(h, Step(h, op, now));
      }
    }
  }

  lemma CheckoutStepPapers(h: History, op: Op, now: Instant)
    requires op.DoOpenCheckout? || op.DoStoreCode? || op.DoAcceptTrade? || op.DoCompleteRefund?
    requires Attempt(h, op, now).Ok?
    ensures PapersAge(h, Step(h, op, now))
  {
    hide OpenCheckout, StoreCode, AcceptTrade, CompleteRefund, PapersAge;
    match op {
      case DoOpenCheckout(id, provider) => CheckoutPapers(h, id, provider);
      case DoStoreCode(id, code) => CodePapers(h, id, code);
      case DoAcceptTrade(provider, trade) => TradeAges(h, provider, trade, now);
      case DoCompleteRefund(proof, provider) => CompletePapers(h, proof, provider, now);
    }
  }

  // ---- every step and every run -------------------------------------------

  lemma ApartEnrollment(h: History, op: Op, now: Instant)
    requires Sound(h) && CatalogOk(h.catalog) && Apart(op)
    ensures EnrollmentAges(h, Step(h, op, now))
  {
    hide Step, Sound, CatalogOk, PricesKept;
    ApartSound(h, op, now);
    ApartStep(h, op, now);
    if op.DoPutModel? || op.DoBootstrap? {
      CatalogStep(h, op, now);
    } else if !Works(op) {
      AdminEnrolls(h, op, now);
    }
  }

  lemma UnmovedAges(h: History, after: History)
    requires NoMoneyMoves(h, after)
    ensures ReservationsAge(h, after) && MoneyAges(h, after) && ReviewsAge(h, after)
  {
    hide MeteredRequest;
  }

  lemma StepAges(h: History, op: Op, now: Instant)
    requires Good(h)
    ensures Ages(h, Step(h, op, now))
  {
    hide RowsOk, InRange, AmountsOk, CatalogOk, ReviewsPoint, Step, ShapeOk, NoteOk, Files, Feeds, Shift, SummaryOf,
         Writes, Amount, Steady, ReservationsAge, MoneyAges, ReviewsAge, PapersAge, EnrollmentAges;
    var after := Step(h, op, now);
    StepPapers(h, op, now);
    if Apart(op) {
      ApartStep(h, op, now);
      ApartEnrollment(h, op, now);
      UnmovedAges(h, after);
    } else {
      var shape, note := StepShape(h, op, now);
      SilentWrites(h, after, SummaryOf(h, shape, now), note);
      ShapeReservations(h, after, shape, now);
      ShapeMoney(h, after, shape, now);
      NoteReviews(h, after, shape, note);
      SameEnrollment(h, after);
    }
  }

  lemma AgesItself(h: History)
    ensures Ages(h, h)
  {
    hide MeteredRequest;
  }

  lemma AgesOn(h: History, mid: History, after: History)
    requires Ages(h, mid) && Ages(mid, after)
    ensures Ages(h, after)
  {
    hide ReservationsAge, MoneyAges, ReviewsAge, PapersAge, EnrollmentAges;
    ReservationsAgeOn(h, mid, after);
    MoneyAgesOn(h, mid, after);
    ReviewsAgeOn(h, mid, after);
    EnrollmentAgesOn(h, mid, after);
    PapersAgeOn(h, mid, after);
  }

  lemma MeteredStays(h: History, after: History, project: Id, requestId: Id)
    requires MoneyAges(h, after) && MeteredRequest(h, project, requestId)
    ensures MeteredRequest(after, project, requestId)
  {
    var u :| u in h.usage && h.usage[u].project == project && h.usage[u].requestId == requestId;
    assert u in after.usage && after.usage[u] == h.usage[u];
  }

  lemma ReservationsAgeOn(h: History, mid: History, after: History)
    requires ReservationsAge(h, mid) && ReservationsAge(mid, after) && MoneyAges(h, mid)
    ensures ReservationsAge(h, after)
  {
    hide MeteredRequest, MoneyAges;
    forall i | i in after.reservations && i !in h.reservations
      ensures !MeteredRequest(h, after.reservations[i].spec.project, after.reservations[i].spec.requestId)
    {
      var spec := after.reservations[i].spec;
      if MeteredRequest(h, spec.project, spec.requestId) {
        MeteredStays(h, mid, spec.project, spec.requestId);
        assert false;
      }
    }
  }

  lemma MoneyAgesOn(h: History, mid: History, after: History)
    requires MoneyAges(h, mid) && MoneyAges(mid, after)
    ensures MoneyAges(h, after)
  {
  }

  lemma ReviewsAgeOn(h: History, mid: History, after: History)
    requires ReviewsAge(h, mid) && ReviewsAge(mid, after)
    ensures ReviewsAge(h, after)
  {
  }

  lemma EnrollmentAgesOn(h: History, mid: History, after: History)
    requires EnrollmentAges(h, mid) && EnrollmentAges(mid, after)
    ensures EnrollmentAges(h, after)
  {
  }

  lemma PapersAgeOn(h: History, mid: History, after: History)
    requires PapersAge(h, mid) && PapersAge(mid, after) && MoneyAges(mid, after)
    ensures PapersAge(h, after)
  {
    forall o | o in h.checkouts && Reopened(h.checkouts[o], after, o)
      ensures o in after.orders && after.orders[o].status == Paid
    {
      if mid.checkouts[o].state == CheckedOut {
        assert Reopened(h.checkouts[o], mid, o);
      } else {
        assert Reopened(mid.checkouts[o], after, o);
      }
    }
  }

  /** Over every run: nothing on record is removed, rewritten or taken back. */
  lemma {:induction false} RecordsLast(h: History, ops: seq<Timed>)
    requires Good(h)
    ensures Ages(h, Run(h, ops))
  {
    hide Step, Good, Ages;
    if ops == [] {
      AgesItself(h);
    } else {
      var before := ops[..|ops| - 1];
      RecordsLast(h, before);
      RunGood(h, before);
      StepAges(Run(h, before), ops[|ops| - 1].op, ops[|ops| - 1].now);
      AgesOn(h, Run(h, before), Run(h, ops));
    }
  }
}
