/** Payments, refunds and reviews have shapes as well, so every committed step
    of the database has one; and every step keeps the source records sound. */
module Steps {
  import opened Prelude
  import opened Sums
  import opened Rows
  import opened Totals
  import opened Outbox
  import opened Ledger
  import opened Protocol
  import opened ReviewRules
  import opened PaymentRules
  import opened CatalogService
  import opened Administration
  import opened Effects
  import opened Runs
  import opened Shapes
  import opened RefundService
  import opened WorkerRules

  // ---- payments and refunds -----------------------------------------------

  /** Side rows, then one posting against the customer balance. */
  lemma BookedShape(h: History, mid: History, posted: History, after: History, account: Id, kind: PostingKind,
                    reference: Reference, key: string, delta: I64, counter: Book, now: Instant)
    requires mid == h.(payments := mid.payments, orders := mid.orders, receipts := mid.receipts, refunds := mid.refunds)
    requires counter != CustomerBalance
    requires Post(mid, account, kind, reference, key, delta, counter, now) == Ok(posted)
    requires after == posted.(checkouts := after.checkouts)
    ensures delta != I64_MIN && account in h.accounts && Fresh(h, key)
    ensures delta < 0 ==> Gated(h, account, -(delta as int))
    ensures Feeds(h, after, account, [LedgerPosted(|h.ledger|, kind, reference, delta)], now)
    ensures Shift(h, after, Drift(account, delta, 0, "", 0, 0, 0))
    ensures after.ledger == h.ledger + [Posting(kind, reference, key, Pair(account, delta, counter))]
    ensures after == mid.(ledger := after.ledger, log := after.log, jobs := after.jobs, checkouts := after.checkouts)
  {
    hide Shift, Post, Feeds, Gated, Fresh, Balance, Held;
    PostFeeds(mid, account, kind, reference, key, delta, counter, now);
    FeedsAlike(mid, h, after, account, [LedgerPosted(|h.ledger|, kind, reference, delta)], now) by {
      FeedsInto(mid, posted, after, account, [LedgerPosted(|h.ledger|, kind, reference, delta)], now);
    }
    FreshAlike(mid, h, key);
    if delta < 0 {
      GatedAlike(mid, h, account, -(delta as int));
    }
    PostMoves(mid, account, kind, reference, key, delta, counter, now, "", 0);
    ShiftAround(h, mid, posted, after, Drift(account, delta, 0, "", 0, 0, 0));
  }

  lemma ShiftAround(h: History, mid: History, posted: History, after: History, d: Drift)
    requires mid.reservations == h.reservations && mid.usage == h.usage && mid.ledger == h.ledger
    requires after.reservations == posted.reservations && after.usage == posted.usage && after.ledger == posted.ledger
    requires Shift(mid, posted, d)
    ensures Shift(h, after, d)
  {
    hide Sum, SumSeq;
    NothingMoves(h, mid, d);
    NothingMoves(posted, after, d);
  }

  lemma FeedsInto(h: History, mid: History, after: History, account: Id, events: seq<Event>, now: Instant)
    requires Feeds(h, mid, account, events, now) && after.log == mid.log && after.jobs == mid.jobs
    ensures Feeds(h, after, account, events, now)
  {
  }

  lemma CapturedShape(h: History, base: History, posted: History, after: History, id: Id, payment: Payment,
                      key: string, now: Instant)
    requires base == h.(receipts := base.receipts)
    requires id !in h.payments && payment.order in h.orders && h.orders[payment.order].status == Pending
    requires 0 < payment.amount == h.orders[payment.order].amount && Fits(payment.amount * MICROS_PER_MINOR_UNIT)
    requires Credit(Captured(base, id, payment), h.orders[payment.order].project, id,
                    payment.amount * MICROS_PER_MINOR_UNIT, key, now) == Ok(posted)
    requires after == posted.(checkouts := after.checkouts)
    ensures Fitting(h, after, Capturing(id, payment, key), Silent, now)
  {
    hide Shift, Post, Feeds, Fresh, Balance, Held;
    var account := h.orders[payment.order].project;
    BookedShape(h, Captured(base, id, payment), posted, after, account, TopUp, PaymentRef(id), key,
                payment.amount * MICROS_PER_MINOR_UNIT, CashClearing, now);
    Fit(h, after, Capturing(id, payment, key), now);
  }

  lemma CaptureShape(h: History, order: Id, id: Id, via: string, reference: string, key: string, now: Instant)
    returns (shape: Shape)
    requires AmountsOk(h) && CapturePayment(h, order, id, via, reference, key, now).Ok?
    ensures Stems(DoCapture(order, id, via, reference, key), shape)
    ensures Fitting(h, CapturePayment(h, order, id, via, reference, key, now).value.0, shape, Silent, now)
  {
    hide Fitting, Credit, ReferenceUsed, NonBlank, Captured;
    var (after, payment) := CapturePayment(h, order, id, via, reference, key, now).value;
    if id in h.payments {
      shape := Noting("");
      QuietShape(h, after, "", now);
    } else {
      shape := Capturing(id, payment, key);
      CapturedShape(h, h, after, after, id, payment, key, now);
    }
  }

  lemma CreditShape(h: History, seen: History, provider: Provider, t: Trade, now: Instant) returns (shape: Shape)
    requires AmountsOk(h) && seen == h.(receipts := seen.receipts)
    requires t.order in h.orders && t.order in h.checkouts && CreditTrade(seen, provider, t, now).Ok?
    ensures Stems(DoAcceptTrade(provider, t), shape)
    ensures Fitting(h, CreditTrade(seen, provider, t, now).value.0, shape, Silent, now)
  {
    hide Fitting, Credit, ReferenceUsed, AlipayPaymentId, Captured;
    var id := AlipayPaymentId(provider, t);
    var after := CreditTrade(seen, provider, t, now).value.0;
    if id in h.payments {
      shape := Noting("");
      QuietShape(h, after, "", now);
    } else {
      var order := h.orders[t.order];
      var payment := Payment(t.order, "alipay", t.tradeId, order.amount);
      var posted := Credit(Captured(seen, id, payment), order.project, id, order.amount * MICROS_PER_MINOR_UNIT,
                           "alipay:" + id, now).value;
      shape := Capturing(id, payment, "alipay:" + id);
      CapturedShape(h, seen, posted, after, id, payment, "alipay:" + id, now);
    }
  }

  lemma TradeShape(h: History, provider: Provider, t: Trade, now: Instant) returns (shape: Shape)
    requires AmountsOk(h) && AcceptTrade(h, provider, t, now).Ok?
    ensures Stems(DoAcceptTrade(provider, t), shape)
    ensures Fitting(h, AcceptTrade(h, provider, t, now).value.0, shape, Silent, now)
  {
    hide Fitting, CreditTrade, Witness, Unpaid, TradeMatches, TradePaid, AmountsOk;
    var seen := Witness(h, provider, t);
    TradePapers(h, provider, t);
    if !InProduction(provider) || !TradePaid(t) {
      shape := Noting("");
      QuietShape(h, AcceptTrade(h, provider, t, now).value.0, "", now);
    } else {
      shape := CreditShape(h, seen, provider, t, now);
    }
  }

  /** A notification by itself writes receipts and checkouts only. */
  lemma TradePapers(h: History, provider: Provider, t: Trade)
    requires t.order in h.orders && t.order in h.checkouts
    ensures
      var seen := Witness(h, provider, t);
      seen == h.(receipts := seen.receipts) && Aside(h, seen) && Aside(h, Unpaid(seen, t))
  {
    hide ReceiptId;
  }

  lemma RefundedShape(h: History, after: History, id: Id, refund: Refund, kind: PostingKind, counter: Book,
                      key: string, now: Instant)
    requires id !in h.refunds && refund.payment in h.payments && h.payments[refund.payment].order in h.orders
    requires 0 < refund.amount && Fits(refund.amount * MICROS_PER_MINOR_UNIT)
    requires refund.status == RefundPending <==> h.payments[refund.payment].provider == "alipay"
    requires (kind, counter)
          == if refund.status == RefundPending then (RefundHeld, RefundClearing) else (RefundPosted, CashClearing)
    requires RefundFits(h, refund)
    requires Post(h.(refunds := h.refunds[id := refund]), RefundAccount(h, refund), kind, RefundRef(id), key,
                  -(refund.amount * MICROS_PER_MINOR_UNIT), counter, now) == Ok(after)
    ensures Fitting(h, after, Refunding(id, refund, key), Silent, now)
  {
    hide Shift, Post, Feeds, Gated, Fresh, RefundFits, RefundAccount;
    BookedShape(h, h.(refunds := h.refunds[id := refund]), after, after, RefundAccount(h, refund), kind, RefundRef(id),
                key, -(refund.amount * MICROS_PER_MINOR_UNIT), counter, now);
    Fit(h, after, Refunding(id, refund, key), now);
  }

  lemma ManualRefundShape(h: History, q: RefundRequest, key: string, now: Instant) returns (shape: Shape)
    requires AmountsOk(h) && CreateRefund(h, q, key, now).Ok?
    ensures Stems(DoCreateRefund(q, key), shape)
    ensures Fitting(h, CreateRefund(h, q, key, now).value.0, shape, Silent, now)
  {
    hide Fitting, Post, Sum, NonBlank;
    var (after, row) := CreateRefund(h, q, key, now).value;
    if q.id in h.refunds {
      shape := Noting("");
      QuietShape(h, after, "", now);
    } else {
      shape := Refunding(q.id, row, key);
      RefundedShape(h, after, q.id, row, RefundPosted, CashClearing, key, now);
    }
  }

  lemma PrepareShape(h: History, q: RefundRequest, provider: Provider, now: Instant) returns (shape: Shape)
    requires PrepareRefund(h, q, provider, now).Ok?
    ensures Stems(DoPrepareRefund(q, provider), shape)
    ensures Fitting(h, PrepareRefund(h, q, provider, now).value.0, shape, Silent, now)
  {
    hide Fitting, Post, Sum, Balance, Held, NonBlank;
    var (after, row) := PrepareRefund(h, q, provider, now).value;
    if q.id in h.refunds {
      shape := Noting("");
      QuietShape(h, after, "", now);
    } else {
      shape := Refunding(q.id, row, "refund-hold:" + q.id);
      RefundedShape(h, after, q.id, row, RefundHeld, RefundClearing, "refund-hold:" + q.id, now);
    }
  }

  lemma CompleteShape(h: History, proof: RefundProof, provider: Provider, now: Instant) returns (shape: Shape)
    requires Sound(h) && CompleteRefund(h, proof, provider, now).Ok?
    ensures Unkeyed(shape)
    ensures Fitting(h, CompleteRefund(h, proof, provider, now).value.0, shape, Silent, now)
  {
    hide Fitting, ClearRefund, ProofMatches, InRange, RowsOk;
    if h.refunds[proof.request].status == RefundSucceeded {
      shape := Noting("");
      QuietShape(h, h, "", now);
    } else {
      shape := ClearingShape(h, proof, provider, now);
    }
  }

  lemma ClearingShape(h: History, proof: RefundProof, provider: Provider, now: Instant) returns (shape: Shape)
    requires Sound(h) && proof.request in h.refunds && h.refunds[proof.request].status == RefundPending
    requires h.refunds[proof.request].payment in h.payments
          && h.payments[h.refunds[proof.request].payment].order in h.orders
    requires ClearRefund(h, proof, provider, RefundAccount(h, h.refunds[proof.request]), now).Ok?
    ensures Unkeyed(shape)
    ensures Fitting(h, ClearRefund(h, proof, provider, RefundAccount(h, h.refunds[proof.request]), now).value.0,
                    shape, Silent, now)
  {
    hide Shift, RowsOk, InRange, AmountsOk, Sum, SumSeq, Feeds, RefundAccount, KeyUsed;
    PositiveRefund(h, proof.request);
    var id, project := proof.request, RefundAccount(h, h.refunds[proof.request]);
    var (after, row) := ClearRefund(h, proof, provider, project, now).value;
    ClearRefundSound(h, proof, provider, project, now);
    StillAt(h, after, project);
    var e := LedgerPosted(|h.ledger|, RefundSettled, RefundRef(id), 0);
    var mid := after.(log := h.log, jobs := h.jobs);
    AppendAlike(mid, h, project, e, now);
    FeedsOne(h, mid, after, project, e, now);
    SameRefundAccount(h, h.refunds[id], row);
    shape := Clearing(id, row);
    Fit(h, after, shape, now);
  }

  lemma PositiveRefund(h: History, id: Id)
    requires AmountsOk(h) && id in h.refunds
    ensures 0 < h.refunds[id].amount
  {
  }

  lemma SameRefundAccount(h: History, r1: Refund, r2: Refund)
    requires r1.payment == r2.payment
    ensures RefundAccount(h, r1) == RefundAccount(h, r2)
  {
  }

  lemma StillAt(h: History, after: History, account: Id)
    requires Shift(h, after, STILL)
    ensures Shift(h, after, At(account, "", 0))
  {
  }

  // ---- reviews ------------------------------------------------------------

  lemma SubmitShape(h: History, project: Id, reservation: Id, actor: Id, subject: string, e: Evidence, now: Instant)
    returns (shape: Shape, note: Note)
    requires SubmitReview(h, project, reservation, actor, subject, e, now).Ok?
    ensures Unkeyed(shape)
    ensures Fitting(h, SubmitReview(h, project, reservation, actor, subject, e, now).value.0, shape, note, now)
  {
    hide Fitting, EvidenceOk;
    shape := Noting(project);
    var (after, row) := SubmitReview(h, project, reservation, actor, subject, e, now).value;
    if e.id in h.reviews {
      note := Silent;
      QuietShape(h, h, project, now);
    } else {
      note := Filed(e.id, row, Audit(Submitted, actor, subject));
      NoteShape(h, h.(reviews := after.reviews, audits := after.audits), after, project, note, now);
    }
  }

  lemma ApproveShape(h: History, row: Review, id: Id, q: Decision, actor: Id, now: Instant) returns (shape: Shape)
    requires Sound(h) && Approve(h, row, id, now).Ok? && q.approve
    ensures Unkeyed(shape)
    ensures Amount(shape) && SummaryOf(h, shape, now).account == row.project
    ensures Approves(h, shape, DecidedReview(row, actor, q))
    ensures row.reservation in h.reservations && h.reservations[row.reservation].spec.project == row.project
    ensures Fitting(h, Approve(h, row, id, now).value.0, shape, Silent, now)
  {
    hide Fitting, SettleLocked, Rewrite, HoldRoom, RowsOk, InRange, SummaryOf;
    var held := Locked(h, row.project, row.reservation).value;
    FrozenTerms(h, row.reservation);
    match row.evidence {
      case UsageEvidence(_, _, _, _, _, usage) =>
        shape := SettleShape(h, held, usage, now);
      case LossWaiver(_, _, _, _, _) =>
        shape := Moving(held.(state := Waived), ReservationWaived(row.reservation, id));
        MovingShape(h, held.(state := Waived), ReservationWaived(row.reservation, id), now);
        AccountOf(h, shape, now);
    }
  }

  /** Every review is about a reservation of its project. */
  predicate ReviewsPoint(h: History) {
    forall id :: id in h.reviews ==>
      && h.reviews[id].reservation in h.reservations
      && h.reservations[h.reviews[id].reservation].spec.project == h.reviews[id].project
  }

  lemma DecideShape(h: History, project: Id, id: Id, actor: Id, subject: string, q: Decision, now: Instant)
    returns (shape: Shape, note: Note)
    requires Sound(h) && ReviewsPoint(h) && DecideReview(h, project, id, actor, subject, q, now).Ok?
    ensures Unkeyed(shape)
    ensures Fitting(h, DecideReview(h, project, id, actor, subject, q, now).value.0, shape, note, now)
  {
    hide Fitting, Approve, RowsOk, InRange, AmountsOk, SummaryOf, DecisionOk, Approves;
    var row := h.reviews[id];
    if row.state != Submitted {
      shape, note := Noting(project), Silent;
      QuietShape(h, h, project, now);
    } else {
      var (after, decided) := DecideReview(h, project, id, actor, subject, q, now).value;
      note := Filed(id, decided, Audit(decided.state, actor, subject));
      if q.approve {
        var mid := Approve(h, row, id, now).value.0;
        shape := ApproveShape(h, row, id, q, actor, now);
        SilentFiles(h, mid, shape, now);
        WithNote(h, mid, mid.(reviews := after.reviews, audits := after.audits), after, shape, note, now);
      } else {
        shape := Noting(project);
        RejectionApproves(h, project, decided);
        NoteShape(h, h.(reviews := after.reviews, audits := after.audits), after, project, note, now);
      }
    }
  }

  lemma RejectionApproves(h: History, project: Id, review: Review)
    requires review.state == RejectedReview
    ensures Approves(h, Noting(project), review)
  {
  }

  lemma SilentFiles(h: History, after: History, shape: Shape, now: Instant)
    requires Fitting(h, after, shape, Silent, now)
    ensures after.reviews == h.reviews && after.audits == h.audits
  {
    hide ShapeOk, Summarizes, SummaryOf;
  }

  // ---- every step ---------------------------------------------------------

  lemma StepShape(h: History, op: Op, now: Instant) returns (shape: Shape, note: Note)
    requires Sound(h) && ReviewsPoint(h) && !Apart(op)
    ensures Stems(op, shape)
    ensures Fitting(h, Step(h, op, now), shape, note, now)
  {
    hide Fitting, Sum, SumSeq, Reserve, Dispatch, Release, ReportUnresolved, Settle, RecordUsage, SubmitReview,
         DecideReview, CreateOrder, OpenCheckout, StoreCode, CapturePayment, AcceptTrade, CreateRefund, PrepareRefund,
         CompleteRefund, Rebuild, RowsOk, InRange, AmountsOk;
    note := Silent;
    if Attempt(h, op, now).Err? {
      shape := Noting("");
      QuietShape(h, h, "", now);
      return;
    }
    match op {
      case DoReserve(q) => shape := ReserveShape(h, q, now);
      case DoDispatch(project, id) => shape := DispatchShape(h, project, id, now);
      case DoRelease(project, id, reason) => shape := ReleaseShape(h, project, id, reason, now);
      case DoUnresolved(project, id, q) => shape := UnresolvedShape(h, project, id, q, now);
      case DoSettle(project, id, q) => shape := SettlingShape(h, project, id, q, now);
      case DoRecordUsage(u) => shape := RecordShape(h, u, now);
      case DoSubmitReview(project, id, actor, subject, e) =>
        shape, note := SubmitShape(h, project, id, actor, subject, e, now);
      case DoDecideReview(project, id, actor, subject, q) =>
        shape, note := DecideShape(h, project, id, actor, subject, q, now);
      case DoCreateOrder(id, tenant, project, amount) => shape := OrderShape(h, id, tenant, project, amount, now);
      case DoOpenCheckout(id, provider) => shape := CheckoutShape(h, id, provider, now);
      case DoStoreCode(id, code) => shape := CodeShape(h, id, code, now);
      case DoCapture(order, id, via, reference, key) => shape := CaptureShape(h, order, id, via, reference, key, now);
      case DoAcceptTrade(provider, trade) => shape := TradeShape(h, provider, trade, now);
      case DoCreateRefund(q, key) => shape := ManualRefundShape(h, q, key, now);
      case DoPrepareRefund(q, provider) => shape := PrepareShape(h, q, provider, now);
      case DoCompleteRefund(proof, provider) => shape := CompleteShape(h, proof, provider, now);
      case DoRebuild(project, key, month) => shape, note := RebuildShape(h, project, key, month, now);
      case _ => assert false;
    }
  }

  lemma SettlingShape(h: History, project: Id, id: Id, q: SettleRequest, now: Instant) returns (shape: Shape)
    requires RowsOk(h) && Settle(h, project, id, q, now).Ok?
    ensures Unkeyed(shape)
    ensures Fitting(h, Settle(h, project, id, q, now).value.0, shape, Silent, now)
  {
    hide Fitting, RowsOk, SettleLocked, SummaryOf;
    var row := Locked(h, project, id).value;
    FrozenTerms(h, id);
    shape := SettleShape(h, row, q, now);
  }

  lemma OrderShape(h: History, id: Id, tenant: Id, project: Id, amount: I64, now: Instant) returns (shape: Shape)
    requires CreateOrder(h, id, tenant, project, amount).Ok?
    ensures Unkeyed(shape)
    ensures Fitting(h, CreateOrder(h, id, tenant, project, amount).value.0, shape, Silent, now)
  {
    hide Fitting;
    shape := Noting(project);
    QuietShape(h, CreateOrder(h, id, tenant, project, amount).value.0, project, now);
  }

  lemma CheckoutShape(h: History, order: Id, provider: Provider, now: Instant) returns (shape: Shape)
    requires OpenCheckout(h, order, provider).Ok?
    ensures Unkeyed(shape)
    ensures Fitting(h, OpenCheckout(h, order, provider).value.0, shape, Silent, now)
  {
    hide Fitting;
    shape := Noting("");
    QuietShape(h, OpenCheckout(h, order, provider).value.0, "", now);
  }

  lemma CodeShape(h: History, order: Id, code: string, now: Instant) returns (shape: Shape)
    requires StoreCode(h, order, code).Ok?
    ensures Unkeyed(shape)
    ensures Fitting(h, StoreCode(h, order, code).value.0, shape, Silent, now)
  {
    hide Fitting;
    shape := Noting("");
    QuietShape(h, StoreCode(h, order, code).value.0, "", now);
  }

  lemma RebuildShape(h: History, project: Id, key: Id, month: int, now: Instant)
    returns (shape: Shape, note: Note)
    requires Rebuild(h, project, key, month, now).Ok?
    ensures Unkeyed(shape)
    ensures Fitting(h, Rebuild(h, project, key, month, now).value, shape, note, now)
  {
    hide Fitting, Append;
    shape, note := Noting(project), Rebuilt(key, month);
    NoteShape(h, h, Rebuild(h, project, key, month, now).value, project, note, now);
  }

  lemma ApartStep(h: History, op: Op, now: Instant)
    requires Apart(op)
    ensures NoMoneyMoves(h, Step(h, op, now))
    ensures Works(op) ==> WorkerWrites(h, Step(h, op, now))
  {
    if Works(op) {
      hide Step;
      WorkerStep(h, op, now);
    } else {
      hide ModelOk, Bootstrap;
    }
  }

  lemma WorkerStep(h: History, op: Op, now: Instant)
    requires Works(op)
    ensures WorkerWrites(h, Step(h, op, now))
  {
    hide Claim, Complete, Fail, Retry, Chosen;
    match op {
      case DoClaim(q, busy, token) =>
        if Claim(h, q, Chosen(h.jobs, busy, now.at), token, now.at).Ok? {
          ClaimWrites(h, q, Chosen(h.jobs, busy, now.at), token, now.at);
        }
      case DoComplete(lease, later) => CompleteWrites(h, lease, now.at, later);
      case _ => ReportWrites(h, op, now);
    }
  }

  lemma ClaimWrites(h: History, q: ClaimRequest, pick: Option<Id>, token: Token, time: int)
    requires (pick.Some? ==> pick.value in h.jobs) && Claim(h, q, pick, token, time).Ok?
    ensures WorkerWrites(h, Claim(h, q, pick, token, time).value.0)
    ensures Claim(h, q, pick, token, time).value.0.effects == h.effects
  {
    hide Grant;
    if pick.Some? && h.jobs[pick.value].state != Running {
      GrantWrites(h, q, pick.value, token, time);
    }
  }

  lemma GrantWrites(h: History, q: ClaimRequest, account: Id, token: Token, time: int)
    requires account in h.jobs && Grant(h, q, account, token, time).Ok?
    ensures WorkerWrites(h, Grant(h, q, account, token, time).value.0)
    ensures Grant(h, q, account, token, time).value.0.effects == h.effects
  {
    hide Between, Limit, Granted;
  }

  lemma CompleteWrites(h: History, lease: Lease, time: int, later: int)
    ensures Complete(h, lease, time, later).Ok? ==> WorkerWrites(h, Complete(h, lease, time, later).value.0)
  {
    hide Between, Limit, Live, Consume, Finished;
  }

  lemma ReportWrites(h: History, op: Op, now: Instant)
    requires op.DoFail? || op.DoRetry?
    ensures WorkerWrites(h, Step(h, op, now))
  {
    hide Live, Attempted, NonBlank;
  }
}
