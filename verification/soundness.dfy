/** Every step keeps the source records sound and the price book immutable. */
module Soundness {
  import opened Prelude
  import opened Sums
  import opened Rows
  import opened Totals
  import opened Outbox
  import opened Ledger
  import opened Protocol
  import opened ReviewRules
  import opened PaymentRules
  import opened CatalogService
  import opened Administration
  import opened Effects
  import opened Runs
  import opened Shapes
  import opened Steps
  import opened RefundService
  import opened WorkerRules

  /** What every reachable database is. */
  ghost predicate Good(h: History) {
    Sound(h) && CatalogOk(h.catalog) && ReviewsPoint(h)
  }

  // ---- reservations -------------------------------------------------------

  lemma ReserveStep(h: History, q: ReserveRequest, now: Instant)
    requires Sound(h) && Reserve(h, q, now).Ok?
    ensures Sound(Reserve(h, q, now).value.0)
  {
    if q.id !in h.reservations {
      hide Reserve, RowsOk, InRange, AmountsOk;
      ReserveSound(h, q, now);
    } else {
      hide Admit, RowsOk, InRange, AmountsOk;
    }
  }

  lemma DispatchStep(h: History, project: Id, id: Id, now: Instant)
    requires Sound(h) && Dispatch(h, project, id, now).Ok?
    ensures Sound(Dispatch(h, project, id, now).value.0)
  {
    hide RowsOk, InRange, AmountsOk, Rewrite;
    var row := Locked(h, project, id).value;
    FrozenTerms(h, id);
    if row.state != Dispatched {
      RewriteSound(h, row.(state := Dispatched), ReservationDispatched(id), now);
    }
  }

  lemma ReleaseStep(h: History, project: Id, id: Id, reason: string, now: Instant)
    requires Sound(h) && Release(h, project, id, reason, now).Ok?
    ensures Sound(Release(h, project, id, reason, now).value.0)
  {
    hide RowsOk, InRange, AmountsOk, Rewrite, HoldRoom;
    var row := Locked(h, project, id).value;
    FrozenTerms(h, id);
    if row.state != Released {
      RewriteSound(h, row.(state := Released, completion := Some(NotDispatched)), ReservationReleased(id), now);
    }
  }

  lemma UnresolvedStep(h: History, project: Id, id: Id, q: UnresolvedRequest, now: Instant)
    requires Sound(h) && ReportUnresolved(h, project, id, q, now).Ok?
    ensures Sound(ReportUnresolved(h, project, id, q, now).value.0)
  {
    hide RowsOk, InRange, AmountsOk, Rewrite, UnresolvedOk;
    var row := Locked(h, project, id).value;
    FrozenTerms(h, id);
    if row.state == Dispatched && row.completion.None? {
      RewriteSound(h, row.(completion := Some(Unresolved(q))), ReservationUnresolved(id, q), now);
    }
  }

  lemma SettleStep(h: History, row: Reservation, q: SettleRequest, now: Instant)
    requires Sound(h) && row.spec.id in h.reservations && h.reservations[row.spec.id] == row
    requires SettleLocked(h, row, q, now).Ok?
    ensures Sound(SettleLocked(h, row, q, now).value.0)
  {
    hide RowsOk, InRange, AmountsOk, Charge, UsageCost;
    FrozenTerms(h, row.spec.id);
    if row.state != Settled {
      var amount := UsageCost(row.price, q.inputTokens, q.outputTokens).value;
      CostNonnegative(row.price, q.inputTokens, q.outputTokens);
      ChargeSound(h, row, q, amount, now);
    }
  }

  lemma SettlingStep(h: History, project: Id, id: Id, q: SettleRequest, now: Instant)
    requires Sound(h) && Settle(h, project, id, q, now).Ok?
    ensures Sound(Settle(h, project, id, q, now).value.0)
  {
    hide RowsOk, InRange, AmountsOk, SettleLocked;
    FrozenTerms(h, id);
    SettleStep(h, Locked(h, project, id).value, q, now);
  }

  lemma RecordStep(h: History, u: UsageReport, now: Instant)
    requires Sound(h) && RecordUsage(h, u, now).Ok?
    ensures Sound(RecordUsage(h, u, now).value.0)
  {
    if u.eventId !in h.usage {
      hide RecordUsage, RowsOk, InRange, AmountsOk;
      RecordSound(h, u, now);
    } else {
      hide RowsOk, InRange, AmountsOk, PostUsage, Spent, UsageReportOk, ReportCost;
    }
  }

  // ---- reviews ------------------------------------------------------------

  lemma FileStep(h: History, id: Id, row: Review, sequence: int, audit: Audit, e: Event, now: Instant)
    requires Sound(h) && File(h, id, row, sequence, audit, e, now).Ok?
    ensures Sound(File(h, id, row, sequence, audit, e, now).value.0)
  {
    hide RowsOk, InRange;
    SoundFrame(h, File(h, id, row, sequence, audit, e, now).value.0);
  }

  lemma SubmitStep(h: History, project: Id, reservation: Id, actor: Id, subject: string, e: Evidence, now: Instant)
    requires Sound(h) && SubmitReview(h, project, reservation, actor, subject, e, now).Ok?
    ensures Sound(SubmitReview(h, project, reservation, actor, subject, e, now).value.0)
  {
    hide RowsOk, InRange, AmountsOk, File, EvidenceOk;
    if e.id !in h.reviews {
      FileStep(h, e.id, SubmittedReview(project, reservation, actor, e), 1, Audit(Submitted, actor, subject),
               ReviewSubmitted(e.id, reservation), now);
    }
  }

  lemma ApproveStep(h: History, row: Review, id: Id, now: Instant)
    requires Sound(h) && Approve(h, row, id, now).Ok?
    ensures Sound(Approve(h, row, id, now).value.0)
  {
    hide RowsOk, InRange, AmountsOk, SettleLocked, HoldRoom, Rewrite;
    var held := Locked(h, row.project, row.reservation).value;
    FrozenTerms(h, row.reservation);
    match row.evidence {
      case UsageEvidence(_, _, _, _, _, usage) => SettleStep(h, held, usage, now);
      case LossWaiver(_, _, _, _, _) =>
        RewriteSound(h, held.(state := Waived), ReservationWaived(row.reservation, id), now);
    }
  }

  lemma DecideStep(h: History, project: Id, id: Id, actor: Id, subject: string, q: Decision, now: Instant)
    requires Sound(h) && DecideReview(h, project, id, actor, subject, q, now).Ok?
    ensures Sound(DecideReview(h, project, id, actor, subject, q, now).value.0)
  {
    hide RowsOk, InRange, AmountsOk, Approve, File, DecisionOk, DecidedState;
    var row := h.reviews[id];
    if row.state == Submitted {
      if q.approve {
        ApproveStep(h, row, id, now);
      }
      var approved := if q.approve then Approve(h, row, id, now).value.0 else h;
      FileStep(approved, id, DecidedReview(row, actor, q), 2, Audit(DecidedState(row, q), actor, subject),
               ReviewDecided(id, row.reservation, DecidedState(row, q)), now);
    }
  }

  // ---- payments and refunds -----------------------------------------------

  lemma AsideStep(h: History, after: History)
    requires Sound(h) && Aside(h, after) && AmountsOk(after)
    ensures Sound(after)
  {
    hide RowsOk, InRange, AmountsOk;
    SoundFrame(h, after);
  }

  lemma CapturedStep(h: History, base: History, posted: History, after: History, id: Id, payment: Payment,
                     key: string, now: Instant)
    requires Sound(h) && base == h.(receipts := base.receipts)
    requires payment.order in h.orders && payment.amount == h.orders[payment.order].amount
    requires Fits(payment.amount * MICROS_PER_MINOR_UNIT)
    requires Credit(Captured(base, id, payment), h.orders[payment.order].project, id,
                    payment.amount * MICROS_PER_MINOR_UNIT, key, now) == Ok(posted)
    requires after == posted.(checkouts := after.checkouts)
    ensures Sound(after)
  {
    hide RowsOk, InRange, Post;
    var mid := Captured(base, id, payment);
    SoundFrame(h, mid);
    PostSound(mid, h.orders[payment.order].project, TopUp, PaymentRef(id), key,
              payment.amount * MICROS_PER_MINOR_UNIT, CashClearing, now);
    SoundFrame(posted, after);
  }

  lemma CaptureStep(h: History, order: Id, id: Id, via: string, reference: string, key: string, now: Instant)
    requires Sound(h) && CapturePayment(h, order, id, via, reference, key, now).Ok?
    ensures Sound(CapturePayment(h, order, id, via, reference, key, now).value.0)
  {
    hide RowsOk, InRange, AmountsOk, Credit, ReferenceUsed, NonBlank, Captured;
    if id !in h.payments {
      var (after, payment) := CapturePayment(h, order, id, via, reference, key, now).value;
      CapturedStep(h, h, after, after, id, payment, key, now);
    }
  }

  lemma TradeStep(h: History, provider: Provider, t: Trade, now: Instant)
    requires Sound(h) && AcceptTrade(h, provider, t, now).Ok?
    ensures Sound(AcceptTrade(h, provider, t, now).value.0)
  {
    hide RowsOk, InRange, AmountsOk, CreditTrade, Witness, Unpaid, TradeMatches, TradePaid;
    var seen := Witness(h, provider, t);
    WitnessAside(h, provider, t);
    if InProduction(provider) && TradePaid(t) {
      CreditStep(h, seen, provider, t, now);
    }
  }

  lemma WitnessAside(h: History, provider: Provider, t: Trade)
    requires Sound(h) && t.order in h.orders && t.order in h.checkouts
    ensures
      var seen := Witness(h, provider, t);
      seen == h.(receipts := seen.receipts) && Sound(seen) && Sound(Unpaid(seen, t))
  {
    hide RowsOk, InRange, AmountsOk, ReceiptId, Unpaid, Sound;
    var seen := Witness(h, provider, t);
    PapersStep(h, seen);
    UnpaidAside(seen, t);
  }

  lemma UnpaidAside(h: History, t: Trade)
    requires Sound(h) && t.order in h.orders && t.order in h.checkouts
    ensures Sound(Unpaid(h, t))
  {
    hide RowsOk, InRange, AmountsOk, Sound;
    PapersStep(h, Unpaid(h, t));
  }

  /** Receipts and checkouts are papers; money does not depend on them. */
  lemma PapersStep(h: History, after: History)
    requires Sound(h) && after == h.(receipts := after.receipts, checkouts := after.checkouts)
    ensures Sound(after)
  {
    hide RowsOk, InRange, AmountsOk;
    SameMoney(h, after);
    SoundFrame(h, after);
  }

  lemma SameMoney(before: History, after: History)
    requires AmountsOk(before) && after.orders == before.orders
    requires after.payments == before.payments && after.refunds == before.refunds
    ensures AmountsOk(after)
  {
  }

  lemma CreditStep(h: History, seen: History, provider: Provider, t: Trade, now: Instant)
    requires Sound(h) && seen == h.(receipts := seen.receipts)
    requires t.order in h.orders && t.order in h.checkouts && CreditTrade(seen, provider, t, now).Ok?
    ensures Sound(CreditTrade(seen, provider, t, now).value.0)
  {
    hide RowsOk, InRange, AmountsOk, Credit, ReferenceUsed, AlipayPaymentId, Captured;
    var id := AlipayPaymentId(provider, t);
    if id !in h.payments {
      var order := h.orders[t.order];
      var payment := Payment(t.order, "alipay", t.tradeId, order.amount);
      var posted := Credit(Captured(seen, id, payment), order.project, id, order.amount * MICROS_PER_MINOR_UNIT,
                           "alipay:" + id, now).value;
      CapturedStep(h, seen, posted, CreditTrade(seen, provider, t, now).value.0, id, payment, "alipay:" + id, now);
    } else {
      SameMoney(h, seen);
      AsideStep(h, seen);
    }
  }

  lemma RefundedStep(h: History, after: History, id: Id, refund: Refund, project: Id, kind: PostingKind, counter: Book,
                     key: string, debit: I64, now: Instant)
    requires Sound(h) && 0 < refund.amount && counter != CustomerBalance
    requires Post(h.(refunds := h.refunds[id := refund]), project, kind, RefundRef(id), key, debit, counter, now)
          == Ok(after)
    ensures Sound(after)
  {
    hide RowsOk, InRange, Post;
    var mid := h.(refunds := h.refunds[id := refund]);
    SoundFrame(h, mid);
    PostSound(mid, project, kind, RefundRef(id), key, debit, counter, now);
  }

  lemma ManualRefundStep(h: History, q: RefundRequest, key: string, now: Instant)
    requires Sound(h) && CreateRefund(h, q, key, now).Ok?
    ensures Sound(CreateRefund(h, q, key, now).value.0)
  {
    hide RowsOk, InRange, AmountsOk, Post, Sum, NonBlank;
    if q.id !in h.refunds {
      var (after, row) := CreateRefund(h, q, key, now).value;
      RefundedStep(h, after, q.id, row, h.orders[h.payments[q.payment].order].project, RefundPosted, CashClearing, key,
                   -(q.amount * MICROS_PER_MINOR_UNIT), now);
    }
  }

  lemma PrepareStep(h: History, q: RefundRequest, provider: Provider, now: Instant)
    requires Sound(h) && PrepareRefund(h, q, provider, now).Ok?
    ensures Sound(PrepareRefund(h, q, provider, now).value.0)
  {
    hide RowsOk, InRange, AmountsOk, Post, Sum, Balance, Held, NonBlank;
    if q.id !in h.refunds {
      var (after, row) := PrepareRefund(h, q, provider, now).value;
      RefundedStep(h, after, q.id, row, Refundable(h, q.payment, provider).value.project, RefundHeld, RefundClearing,
                   "refund-hold:" + q.id, -(q.amount * MICROS_PER_MINOR_UNIT), now);
    }
  }

  lemma CompleteStep(h: History, proof: RefundProof, provider: Provider, now: Instant)
    requires Sound(h) && CompleteRefund(h, proof, provider, now).Ok?
    ensures Sound(CompleteRefund(h, proof, provider, now).value.0)
  {
    hide RowsOk, InRange, AmountsOk, ClearRefund, ProofMatches;
    if h.refunds[proof.request].status != RefundSucceeded {
      ClearRefundSound(h, proof, provider, h.orders[h.payments[h.refunds[proof.request].payment].order].project, now);
    }
  }

  // ---- administration -----------------------------------------------------

  /** Counters are unaffected; what remains is where keys and prices point. */
  lemma ApartSound(h: History, op: Op, now: Instant)
    requires Sound(h) && CatalogOk(h.catalog) && Apart(op)
    ensures Sound(Step(h, op, now))
    ensures CatalogOk(Step(h, op, now).catalog) && PricesKept(h.catalog, Step(h, op, now).catalog)
  {
    hide RowsOk, InRange, AmountsOk, CatalogOk, Step;
    var after := Step(h, op, now);
    ApartStep(h, op, now);
    NothingMoves(h, after, STILL);
    InRangeFrame(h, after);
    SameMoney(h, after);
    CatalogStep(h, op, now);
    if op.DoPutModel? || op.DoBootstrap? {
      CatalogRows(h, after);
    } else {
      AdminRows(h, op, now);
    }
  }

  lemma CatalogStep(h: History, op: Op, now: Instant)
    requires CatalogOk(h.catalog) && Apart(op)
    ensures CatalogOk(Step(h, op, now).catalog) && PricesKept(h.catalog, Step(h, op, now).catalog)
    ensures op.DoPutModel? || op.DoBootstrap? ==> Step(h, op, now) == h.(catalog := Step(h, op, now).catalog)
  {
    hide CatalogOk, Put, Bootstrap, Step, PricesKept;
    CatalogAfter(h, op, now);
    PricesStay(h.catalog);
    if op.DoPutModel? && Put(h.catalog, op.id, op.put).Ok? {
      PutKeepsPrices(h.catalog, op.id, op.put);
    }
    BootstrapKeepsPrices(h.catalog);
  }

  lemma PricesStay(c: Catalog)
    ensures PricesKept(c, c)
  {
  }

  lemma CatalogAfter(h: History, op: Op, now: Instant)
    requires Apart(op)
    ensures Step(h, op, now).catalog
         == if op.DoPutModel? && Put(h.catalog, op.id, op.put).Ok? then Put(h.catalog, op.id, op.put).value
            else if op.DoBootstrap? then Bootstrap(h.catalog) else h.catalog
    ensures op.DoPutModel? || op.DoBootstrap? ==> Step(h, op, now) == h.(catalog := Step(h, op, now).catalog)
  {
    hide Put, Bootstrap;
    if Works(op) {
      hide Step;
      ApartStep(h, op, now);
    }
  }

  lemma InRangeFrame(before: History, after: History)
    requires InRange(before) && Shift(before, after, STILL)
    ensures InRange(after)
  {
    hide Sum, SumSeq;
  }

  lemma CatalogRows(h: History, after: History)
    requires RowsOk(h) && after == h.(catalog := after.catalog) && CatalogOk(after.catalog)
    ensures RowsOk(after)
  {
  }

  /** Accounts and keys are only added, and none leaves its tenant or project. */
  predicate Enrolls(h: History, after: History) {
    && after.catalog == h.catalog
    && (forall a :: a in h.accounts ==> a in after.accounts && after.accounts[a].tenant == h.accounts[a].tenant)
    && (forall k :: k in h.keys ==>
          k in after.keys && after.keys[k].project == h.keys[k].project && after.keys[k].tenant == h.keys[k].tenant)
    && (forall k :: k in after.keys && k !in h.keys ==> after.keys[k].project in after.accounts)
  }

  lemma EnrolledRows(h: History, after: History)
    requires RowsOk(h) && NoMoneyMoves(h, after) && Enrolls(h, after)
    ensures RowsOk(after)
  {
  }

  lemma AdminRows(h: History, op: Op, now: Instant)
    requires RowsOk(h) && Apart(op) && !op.DoPutModel? && !op.DoBootstrap?
    ensures RowsOk(Step(h, op, now)) && Step(h, op, now).catalog == h.catalog
  {
    hide RowsOk, Step;
    ApartStep(h, op, now);
    if !Works(op) {
      AdminEnrolls(h, op, now);
    }
    EnrolledRows(h, Step(h, op, now));
  }

  lemma AdminEnrolls(h: History, op: Op, now: Instant)
    requires Administers(op) && !op.DoPutModel? && !op.DoBootstrap?
    ensures Enrolls(h, Step(h, op, now))
  {
    hide SetPolicy, OpenAccount, IssueKey, RevokeKey, Enrolls;
    EnrollsNobody(h);
    match op {
      case DoSetPolicy(project, enforce) => PolicyEnrolls(h, project, enforce);
      case DoOpenAccount(project, tenant) => AccountEnrolls(h, project, tenant);
      case DoIssueKey(id, key) => KeyEnrolls(h, id, key);
      case DoRevokeKey(id) => RevocationEnrolls(h, id);
    }
  }

  lemma EnrollsNobody(h: History)
    ensures Enrolls(h, h)
  {
  }

  lemma PolicyEnrolls(h: History, project: Id, enforce: bool)
    ensures SetPolicy(h, project, enforce).Ok? ==> Enrolls(h, SetPolicy(h, project, enforce).value)
  {
  }

  lemma AccountEnrolls(h: History, project: Id, tenant: Id)
    ensures OpenAccount(h, project, tenant).Ok? ==> Enrolls(h, OpenAccount(h, project, tenant).value)
  {
    hide Enrolls;
    if project !in h.accounts {
      NewAccount(h, project, OpenAccount(h, project, tenant).value.accounts[project]);
    }
  }

  lemma NewAccount(h: History, project: Id, row: Account)
    requires project !in h.accounts
    ensures Enrolls(h, h.(accounts := h.accounts[project := row]))
  {
  }

  lemma KeyEnrolls(h: History, id: Id, key: ApiKey)
    ensures IssueKey(h, id, key).Ok? ==> Enrolls(h, IssueKey(h, id, key).value)
  {
  }

  lemma RevocationEnrolls(h: History, id: Id)
    ensures RevokeKey(h, id).Ok? ==> Enrolls(h, RevokeKey(h, id).value)
  {
  }

  // ---- every step ---------------------------------------------------------

  lemma StepSound(h: History, op: Op, now: Instant)
    requires Good(h)
    ensures Good(Step(h, op, now))
    ensures PricesKept(h.catalog, Step(h, op, now).catalog)
  {
    hide CatalogOk, RowsOk, InRange, AmountsOk, Step;
    if Apart(op) {
      ApartSound(h, op, now);
      ApartStep(h, op, now);
    } else {
      SteadyStep(h, op, now);
      SoundStep(h, op, now);
    }
  }

  lemma SteadyStep(h: History, op: Op, now: Instant)
    requires Good(h) && !Apart(op)
    ensures Steady(h, Step(h, op, now)) && ReviewsPoint(Step(h, op, now))
  {
    hide Step, Fitting, RowsOk, InRange, AmountsOk, CatalogOk, ReviewsPoint;
    var shape, note := StepShape(h, op, now);
    StillPoint(h, Step(h, op, now), shape, note, now);
  }

  lemma StillPoint(h: History, after: History, shape: Shape, note: Note, now: Instant)
    requires ReviewsPoint(h) && Fitting(h, after, shape, note, now)
    ensures Steady(h, after) && ReviewsPoint(after)
  {
    hide Feeds, Shift, Approves, RefundFits, Fresh, ReservedRequest, MeteredRequest, BalanceGate, BudgetGate, Gated,
         OrdersMove;
    ProjectsStay(h, after, shape, note, now);
  }

  /** A reservation never leaves its project. */
  lemma ProjectsStay(h: History, after: History, shape: Shape, note: Note, now: Instant)
    requires Fitting(h, after, shape, note, now)
    ensures forall id :: id in h.reservations ==>
      id in after.reservations && after.reservations[id].spec == h.reservations[id].spec
  {
    hide Feeds, Shift, NoteOk, RefundFits, Fresh, ReservedRequest, MeteredRequest, BalanceGate, BudgetGate, Gated,
         OrdersMove, Files;
  }

  lemma SoundStep(h: History, op: Op, now: Instant)
    requires Sound(h) && ReviewsPoint(h) && !Apart(op)
    ensures Sound(Step(h, op, now))
  {
    hide Sum, SumSeq, Reserve, Dispatch, Release, ReportUnresolved, Settle, RecordUsage, SubmitReview,
         DecideReview, CreateOrder, OpenCheckout, StoreCode, CapturePayment, AcceptTrade, CreateRefund, PrepareRefund,
         CompleteRefund, Rebuild, RowsOk, InRange, AmountsOk;
    if Attempt(h, op, now).Ok? {
      match op {
        case DoReserve(q) => ReserveStep(h, q, now);
        case DoDispatch(project, id) => DispatchStep(h, project, id, now);
        case DoRelease(project, id, reason) => ReleaseStep(h, project, id, reason, now);
        case DoUnresolved(project, id, q) => UnresolvedStep(h, project, id, q, now);
        case DoSettle(project, id, q) => SettlingStep(h, project, id, q, now);
        case DoRecordUsage(u) => RecordStep(h, u, now);
        case DoSubmitReview(project, id, actor, subject, e) => SubmitStep(h, project, id, actor, subject, e, now);
        case DoDecideReview(project, id, actor, subject, q) => DecideStep(h, project, id, actor, subject, q, now);
        case DoCreateOrder(id, tenant, project, amount) => OrderStep(h, id, tenant, project, amount);
        case DoOpenCheckout(id, provider) => CheckoutStep(h, id, provider);
        case DoStoreCode(id, code) => CodeStep(h, id, code);
        case DoCapture(order, id, via, reference, key) => CaptureStep(h, order, id, via, reference, key, now);
        case DoAcceptTrade(provider, trade) => TradeStep(h, provider, trade, now);
        case DoCreateRefund(q, key) => ManualRefundStep(h, q, key, now);
        case DoPrepareRefund(q, provider) => PrepareStep(h, q, provider, now);
        case DoCompleteRefund(proof, provider) => CompleteStep(h, proof, provider, now);
        case DoRebuild(project, key, month) => RebuildStep(h, project, key, month, now);
        case _ => assert false;
      }
    }
  }

  lemma OrderStep(h: History, id: Id, tenant: Id, project: Id, amount: I64)
    requires Sound(h) && CreateOrder(h, id, tenant, project, amount).Ok?
    ensures Sound(CreateOrder(h, id, tenant, project, amount).value.0)
  {
    hide RowsOk, InRange;
    AsideStep(h, CreateOrder(h, id, tenant, project, amount).value.0);
  }

  lemma CheckoutStep(h: History, order: Id, provider: Provider)
    requires Sound(h) && OpenCheckout(h, order, provider).Ok?
    ensures Sound(OpenCheckout(h, order, provider).value.0)
  {
    hide RowsOk, InRange;
    AsideStep(h, OpenCheckout(h, order, provider).value.0);
  }

  lemma CodeStep(h: History, order: Id, code: string)
    requires Sound(h) && StoreCode(h, order, code).Ok?
    ensures Sound(StoreCode(h, order, code).value.0)
  {
    hide RowsOk, InRange;
    AsideStep(h, StoreCode(h, order, code).value.0);
  }

  lemma RebuildStep(h: History, project: Id, key: Id, month: int, now: Instant)
    requires Sound(h) && Rebuild(h, project, key, month, now).Ok?
    ensures Sound(Rebuild(h, project, key, month, now).value)
  {
    hide RowsOk, InRange, AmountsOk;
    var after := Rebuild(h, project, key, month, now).value;
    SameMoney(h, after);
    SoundFrame(h, after);
  }

  lemma {:induction false} RunGood(h: History, ops: seq<Timed>)
    requires Good(h)
    ensures Good(Run(h, ops))
  {
    hide Good, Step;
    if ops != [] {
      RunGood(h, ops[..|ops| - 1]);
      StepSound(Run(h, ops[..|ops| - 1]), ops[|ops| - 1].op, ops[|ops| - 1].now);
    }
  }

  /** Every reachable database is sound: every reference resolves, every total is
      in range and no hold or spend is negative. */
  lemma RunSound(ops: seq<Timed>)
    ensures Good(Run(EMPTY_HISTORY, ops))
  {
    hide Sound, Run;
    EmptySound();
    assert CatalogOk(EMPTY_HISTORY.catalog);
    RunGood(EMPTY_HISTORY, ops);
  }
}
