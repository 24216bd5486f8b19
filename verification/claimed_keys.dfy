/** Idempotency keys that callers choose freely can be those that other services
    will need: clearing a refund, crediting a notification, holding a refund. */
module ClaimedKeys {
  import opened Prelude
  import opened Sums
  import opened Rows
  import opened Totals
  import opened Outbox
  import opened Ledger
  import opened Protocol
  import opened PaymentRules
  import opened CatalogService
  import opened Effects
  import opened Runs
  import opened Shapes
  import opened Steps
  import opened Soundness
  import opened Requests
  import opened Permanence
  import opened Stranded

  /** What a key of the service itself is for. */
  datatype Purpose = Clears(refund: Id) | Credits(payment: Id) | Debits(refund: Id)

  function KeyFor(p: Purpose): string {
    match p
    case Clears(id) => SettleRefundKey(id)
    case Credits(id) => "alipay:" + id
    case Debits(id) => "refund-hold:" + id
  }

  predicate Claimed(op: Op, key: string) {
    (op.DoCapture? || op.DoCreateRefund?) && op.key == key
  }

  /** What the key is for has happened. */
  predicate Done(h: History, p: Purpose) {
    match p
    case Clears(id) => id in h.refunds && h.refunds[id].status == RefundSucceeded
    case Credits(id) => id in h.payments
    case Debits(id) => id in h.refunds
  }

  /** Keys of one kind are as different as what they are for; those of another kind
      are different. */
  lemma KindsApart(p: Purpose, id: Id)
    ensures "alipay:" + id == KeyFor(p) ==> p == Credits(id)
    ensures "refund-hold:" + id == KeyFor(p) ==> p == Debits(id)
    ensures SettleRefundKey(id) == KeyFor(p) ==> p == Clears(id)
    ensures SettlementKey(id) != KeyFor(p) && ReportKey(id) != KeyFor(p)
  {
    KindsBegin(p);
    var a, d, c := "alipay:", "refund-hold:", "refund-settle:";
    assert ("alipay:" + id)[0] == 'a' && ("refund-hold:" + id)[7] == 'h' && SettleRefundKey(id)[7] == 's';
    assert ("refund-hold:" + id)[0] == 'r' && SettleRefundKey(id)[0] == 'r';
    assert SettlementKey(id)[0] == 'r' && SettlementKey(id)[2] == 's' && ReportKey(id)[0] == 'u';
    assert ("alipay:" + id)[|a|..] == id && ("refund-hold:" + id)[|d|..] == id && SettleRefundKey(id)[|c|..] == id;
  }

  lemma KindsBegin(p: Purpose)
    ensures p.Credits? ==> KeyFor(p)[0] == 'a' && KeyFor(p)[|"alipay:"|..] == p.payment
    ensures p.Debits? ==>
      |KeyFor(p)| > 7 && KeyFor(p)[0] == 'r' && KeyFor(p)[2] == 'f' && KeyFor(p)[7] == 'h'
      && KeyFor(p)[|"refund-hold:"|..] == p.refund
    ensures p.Clears? ==>
      |KeyFor(p)| > 7 && KeyFor(p)[0] == 'r' && KeyFor(p)[2] == 'f' && KeyFor(p)[7] == 's'
      && KeyFor(p)[|"refund-settle:"|..] == p.refund
  {
  }

  // ---- free until it is used ----------------------------------------------

  /** A posting under the key is of the operation it is for, or its caller chose it. */
  lemma PostingIsDone(h: History, after: History, op: Op, shape: Shape, now: Instant, p: Purpose)
    requires Stems(op, shape) && !Claimed(op, KeyFor(p)) && Amount(shape) && ShapeOk(h, shape, now)
    requires Writes(h, after, SummaryOf(h, shape, now)) && SummaryOf(h, shape, now).posting.Some?
    ensures SummaryOf(h, shape, now).posting.value.idempotencyKey == KeyFor(p) ==> Done(after, p)
  {
    hide PayerOf, RefundAccount, UsageId, SettlementKey, ReportKey, SettleRefundKey, Pair, ClearingPair, Micros, KeyFor,
         OrdersMove, RefundFits, Gated, Fresh, BalanceGate, BudgetGate, ReservedRequest, MeteredRequest, Moves;
    match shape {
      case Charging(was, _, _) => KindsApart(p, was.spec.id);
      case Metering(u, _) => KindsApart(p, u.eventId);
      case Capturing(id, _, _) => KindsApart(p, id);
      case Refunding(id, _, _) => KindsApart(p, id);
      case Clearing(id, _) => KindsApart(p, id);
      case _ =>
    }
  }

  lemma StaysDone(h: History, after: History, p: Purpose)
    requires MoneyAges(h, after) && Done(h, p)
    ensures Done(after, p)
  {
  }

  lemma StepKeepsKey(h: History, op: Op, now: Instant, p: Purpose)
    requires Good(h) && !Claimed(op, KeyFor(p)) && (Done(h, p) || !KeyUsed(h, KeyFor(p)))
    ensures Done(Step(h, op, now), p) || !KeyUsed(Step(h, op, now), KeyFor(p))
  {
    hide RowsOk, InRange, AmountsOk, CatalogOk, ReviewsPoint, Step, ShapeOk, NoteOk, Files, Feeds, Shift, SummaryOf,
         Writes, Amount, Stems, Claimed, Done, KeyUsed, KeyFor, ReservationsAge, MoneyAges, ReviewsAge, PapersAge,
         EnrollmentAges;
    var after := Step(h, op, now);
    if Done(h, p) {
      StepAges(h, op, now);
      StaysDone(h, after, p);
    } else if Apart(op) {
      ApartStep(h, op, now);
      SameKeys(h, after, KeyFor(p));
    } else {
      var shape, note := StepShape(h, op, now);
      SilentWrites(h, after, SummaryOf(h, shape, now), note);
      ShapeKeepsKey(h, after, op, shape, now, p);
    }
  }

  lemma ShapeKeepsKey(h: History, after: History, op: Op, shape: Shape, now: Instant, p: Purpose)
    requires !KeyUsed(h, KeyFor(p)) && Stems(op, shape) && !Claimed(op, KeyFor(p))
    requires Amount(shape) && ShapeOk(h, shape, now) && Writes(h, after, SummaryOf(h, shape, now))
    ensures Done(after, p) || !KeyUsed(after, KeyFor(p))
  {
    hide OrdersMove, ShapeOk, SummaryOf, KeyUsed, KeyFor, Done, Stems, Claimed;
    var s := SummaryOf(h, shape, now);
    if s.posting.Some? {
      PostingIsDone(h, after, op, shape, now, p);
      if s.posting.value.idempotencyKey != KeyFor(p) {
        PushedKey(h, after, s.posting.value, KeyFor(p));
      }
    } else {
      assert after.ledger == h.ledger;
      SameKeys(h, after, KeyFor(p));
    }
  }

  ghost predicate NobodyClaims(ops: seq<Timed>, key: string) {
    forall i :: 0 <= i < |ops| ==> !Claimed(ops[i].op, key)
  }

  /** Where no caller chose it, a key of the service is free until it is used for what
      it is for. */
  lemma {:induction false} FreeUntilDone(ops: seq<Timed>, p: Purpose)
    requires NobodyClaims(ops, KeyFor(p))
    ensures Done(Run(EMPTY_HISTORY, ops), p) || !KeyUsed(Run(EMPTY_HISTORY, ops), KeyFor(p))
  {
    hide Step, Good, KeyFor, Done, Claimed;
    if ops != [] {
      hide KeyUsed;
      var before := ops[..|ops| - 1];
      assert forall i :: 0 <= i < |before| ==> before[i] == ops[i];
      FreeUntilDone(before, p);
      RunSound(before);
      StepKeepsKey(Run(EMPTY_HISTORY, before), ops[|ops| - 1].op, ops[|ops| - 1].now, p);
    }
  }

  // ---- what is left to decide ---------------------------------------------

  /** A pending refund of a project with its account, and proof of it. */
  predicate Provable(h: History, proof: RefundProof, provider: Provider) {
    && proof.request in h.refunds && h.refunds[proof.request].status == RefundPending
    && h.refunds[proof.request].payment in h.payments
    && var order := h.payments[h.refunds[proof.request].payment].order;
       && order in h.orders && order in h.checkouts && ProofMatches(h, proof, provider)
       && h.orders[order].project in h.accounts
  }

  function RefundProject(h: History, proof: RefundProof): Id
    requires proof.request in h.refunds && h.refunds[proof.request].payment in h.payments
    requires h.payments[h.refunds[proof.request].payment].order in h.orders
  {
    h.orders[h.payments[h.refunds[proof.request].payment].order].project
  }

  /** Over every run in which no caller chose its key, a proven refund is cleared
      exactly when its proof is new and the numbers have room. */
  lemma CompletionDecided(ops: seq<Timed>, proof: RefundProof, provider: Provider, now: Instant)
    requires NobodyClaims(ops, KeyFor(Clears(proof.request)))
    requires Provable(Run(EMPTY_HISTORY, ops), proof, provider)
    ensures
      var h := Run(EMPTY_HISTORY, ops);
      CompleteRefund(h, proof, provider, now).Ok? <==>
        && RefundReceipt(proof) !in h.receipts
        && h.refunds[proof.request].amount * MICROS_PER_MINOR_UNIT <= I64_MAX
        && LastSequence(Log(h, RefundProject(h, proof))) < I64_MAX
  {
    hide Run, NobodyClaims, ProofMatches, RefundReceipt, SettleRefundKey, KeyUsed, RowsOk, InRange, LastSequence;
    FreeUntilDone(ops, Clears(proof.request));
    RunSound(ops);
    PositiveRefund(Run(EMPTY_HISTORY, ops), proof.request);
  }

  /** A verified paid notification from production for a pending order. */
  predicate Creditable(h: History, provider: Provider, t: Trade) {
    && t.order in h.orders && t.order in h.checkouts && TradeMatches(h, provider, t)
    && InProduction(provider) && TradePaid(t)
    && h.orders[t.order].status == Pending && h.orders[t.order].project in h.accounts
    && AlipayPaymentId(provider, t) !in h.payments
  }

  /** The money fits the ledger, and the outbox has room. */
  ghost predicate CreditFits(h: History, project: Id, amount: I64) {
    && Fits(amount * MICROS_PER_MINOR_UNIT)
    && Fits(Balance(h, project) + amount * MICROS_PER_MINOR_UNIT)
    && LastSequence(Log(h, project)) < I64_MAX
  }

  /** Over every run in which no caller chose its key, such a notification credits the
      order exactly when no other payment has its reference and the numbers fit. */
  lemma CreditDecided(ops: seq<Timed>, provider: Provider, t: Trade, now: Instant)
    requires NobodyClaims(ops, KeyFor(Credits(AlipayPaymentId(provider, t))))
    requires Creditable(Run(EMPTY_HISTORY, ops), provider, t)
    ensures
      var h := Run(EMPTY_HISTORY, ops);
      AcceptTrade(h, provider, t, now).Ok? <==>
        && !ReferenceUsed(h, "alipay", t.tradeId)
        && CreditFits(h, h.orders[t.order].project, h.orders[t.order].amount)
  {
    hide Run, NobodyClaims, TradeMatches, InProduction, TradePaid, AlipayPaymentId, ReferenceUsed, KeyUsed, CreditTrade,
         CreditFits, Witness, RowsOk, InRange, AmountsOk;
    var h := Run(EMPTY_HISTORY, ops);
    FreeUntilDone(ops, Credits(AlipayPaymentId(provider, t)));
    RunSound(ops);
    var seen := Witness(h, provider, t);
    TradePapers(h, provider, t);
    SeenAlike(h, seen, provider, t);
    PositiveOrder(h, t.order);
    CreditTradeDecided(seen, provider, t, now);
  }

  lemma PositiveOrder(h: History, o: Id)
    requires Sound(h) && o in h.orders
    ensures 0 < h.orders[o].amount
  {
    hide RowsOk, InRange;
  }

  lemma SeenAlike(h: History, seen: History, provider: Provider, t: Trade)
    requires seen == h.(receipts := seen.receipts)
    ensures ReferenceUsed(seen, "alipay", t.tradeId) == ReferenceUsed(h, "alipay", t.tradeId)
    ensures forall key :: KeyUsed(seen, key) == KeyUsed(h, key)
    ensures forall project, amount :: CreditFits(seen, project, amount) == CreditFits(h, project, amount)
  {
  }

  lemma CreditTradeDecided(h: History, provider: Provider, t: Trade, now: Instant)
    requires t.order in h.orders && t.order in h.checkouts && h.orders[t.order].status == Pending
    requires h.orders[t.order].project in h.accounts && 0 < h.orders[t.order].amount
    requires AlipayPaymentId(provider, t) !in h.payments
    requires !KeyUsed(h, "alipay:" + AlipayPaymentId(provider, t))
    ensures CreditTrade(h, provider, t, now).Ok? <==>
      && !ReferenceUsed(h, "alipay", t.tradeId)
      && CreditFits(h, h.orders[t.order].project, h.orders[t.order].amount)
  {
    hide AlipayPaymentId, ReferenceUsed, Held, Affords;
    var id := AlipayPaymentId(provider, t);
    var mid := Captured(h, id, Payment(t.order, "alipay", t.tradeId, h.orders[t.order].amount));
    assert Balance(mid, h.orders[t.order].project) == Balance(h, h.orders[t.order].project);
    assert KeyUsed(mid, "alipay:" + id) == KeyUsed(h, "alipay:" + id);
  }

  /** A refund that the provider can pay and the payment still covers. */
  ghost predicate Refunds(h: History, q: RefundRequest, provider: Provider) {
    && RefundRequestOk(q) && Refundable(h, q.payment, provider).Ok? && q.id !in h.refunds
    && q.payment in h.payments && Refunded(h, q.payment) + q.amount <= h.payments[q.payment].amount
    && Refundable(h, q.payment, provider).value.project in h.accounts
  }

  /** The available balance covers the debit, and the outbox has room. */
  ghost predicate DebitFits(h: History, project: Id, amount: I64) {
    var debit := amount * MICROS_PER_MINOR_UNIT;
    && Fits(Balance(h, project) - Held(h, project)) && debit <= Balance(h, project) - Held(h, project)
    && Fits(Balance(h, project) - debit)
    && LastSequence(Log(h, project)) < I64_MAX
  }

  /** Over every run in which no caller chose its key, such a refund is prepared
      exactly when the available balance covers it and the numbers have room. */
  lemma PreparationDecided(ops: seq<Timed>, q: RefundRequest, provider: Provider, now: Instant)
    requires NobodyClaims(ops, KeyFor(Debits(q.id)))
    requires Refunds(Run(EMPTY_HISTORY, ops), q, provider)
    ensures
      var h := Run(EMPTY_HISTORY, ops);
      PrepareRefund(h, q, provider, now).Ok? <==>
        DebitFits(h, Refundable(h, q.payment, provider).value.project, q.amount)
  {
    hide Run, NobodyClaims, Refundable, KeyUsed, DebitFits, HoldRefund, Sum;
    var h := Run(EMPTY_HISTORY, ops);
    FreeUntilDone(ops, Debits(q.id));
    HoldDecided(h, q, Refundable(h, q.payment, provider).value.project, now);
  }

  lemma HoldDecided(h: History, q: RefundRequest, project: Id, now: Instant)
    requires ProviderAmount(q.amount) && project in h.accounts && !KeyUsed(h, "refund-hold:" + q.id)
    ensures HoldRefund(h, q, project, now).Ok? <==> DebitFits(h, project, q.amount)
  {
    var row := Refund(q.payment, q.amount, q.reason, RefundPending, None);
    var mid := h.(refunds := h.refunds[q.id := row]);
    assert Balance(mid, project) == Balance(h, project) && Held(mid, project) == Held(h, project);
    assert KeyUsed(mid, "refund-hold:" + q.id) == KeyUsed(h, "refund-hold:" + q.id);
    hide Balance, Held, KeyUsed;
  }

  // ---- stranded for good --------------------------------------------------

  /** Whatever the purpose needs its key for is refused. */
  ghost predicate Refuses(h: History, p: Purpose, now: Instant) {
    match p
    case Clears(id) => forall proof: RefundProof, provider ::
      proof.request == id ==> CompleteRefund(h, proof, provider, now).Err?
    case Credits(id) => forall provider, t ::
      AlipayPaymentId(provider, t) == id && InProduction(provider) && TradePaid(t) ==>
        AcceptTrade(h, provider, t, now).Err?
    case Debits(id) => forall q: RefundRequest, provider ::
      q.id == id ==> PrepareRefund(h, q, provider, now).Err?
  }

  /** A key taken for something else stays taken: in every later database, whatever it
      is needed for and has not happened is refused. */
  lemma TakenKeyStrandsService(h: History, ops: seq<Timed>, p: Purpose, now: Instant)
    requires Good(h) && KeyUsed(h, KeyFor(p))
    ensures !Done(Run(h, ops), p) ==> Refuses(Run(h, ops), p, now)
  {
    hide Run, Good, KeyFor, KeyUsed, ReservationsAge, ReviewsAge, PapersAge, EnrollmentAges, CompleteRefund,
         AcceptTrade, PrepareRefund, InProduction, TradePaid, AlipayPaymentId;
    RecordsLast(h, ops);
    var later := Run(h, ops);
    KeyStays(h, later, KeyFor(p));
    if !Done(later, p) {
      match p {
        case Clears(id) =>
          forall proof: RefundProof, provider | proof.request == id
            ensures CompleteRefund(later, proof, provider, now).Err?
          {
            ClearingRefused(later, proof, provider, now);
          }
        case Credits(id) =>
          forall provider, t | AlipayPaymentId(provider, t) == id && InProduction(provider) && TradePaid(t)
            ensures AcceptTrade(later, provider, t, now).Err?
          {
            CreditRefused(later, provider, t, now);
          }
        case Debits(id) =>
          forall q: RefundRequest, provider | q.id == id ensures PrepareRefund(later, q, provider, now).Err? {
            DebitRefused(later, q, provider, now);
          }
      }
    }
  }

  lemma ClearingRefused(h: History, proof: RefundProof, provider: Provider, now: Instant)
    requires KeyUsed(h, KeyFor(Clears(proof.request))) && !Done(h, Clears(proof.request))
    ensures CompleteRefund(h, proof, provider, now).Err?
  {
    hide KeyUsed, SettleRefundKey, RefundReceipt, ProofMatches;
  }

  lemma CreditRefused(h: History, provider: Provider, t: Trade, now: Instant)
    requires InProduction(provider) && TradePaid(t)
    requires KeyUsed(h, KeyFor(Credits(AlipayPaymentId(provider, t))))
    requires !Done(h, Credits(AlipayPaymentId(provider, t)))
    ensures AcceptTrade(h, provider, t, now).Err?
  {
    hide KeyUsed, AlipayPaymentId, InProduction, TradePaid, TradeMatches, Witness, CreditTrade;
    if t.order in h.orders && t.order in h.checkouts {
      TradePapers(h, provider, t);
      var seen := Witness(h, provider, t);
      SameKeys(h, seen, "alipay:" + AlipayPaymentId(provider, t));
      CreditTradeRefused(seen, provider, t, now);
    }
  }

  lemma CreditTradeRefused(h: History, provider: Provider, t: Trade, now: Instant)
    requires t.order in h.orders && t.order in h.checkouts && AlipayPaymentId(provider, t) !in h.payments
    requires KeyUsed(h, "alipay:" + AlipayPaymentId(provider, t))
    ensures CreditTrade(h, provider, t, now).Err?
  {
    hide AlipayPaymentId, ReferenceUsed, Balance, Held, Affords;
  }

  lemma DebitRefused(h: History, q: RefundRequest, provider: Provider, now: Instant)
    requires KeyUsed(h, KeyFor(Debits(q.id))) && !Done(h, Debits(q.id))
    ensures PrepareRefund(h, q, provider, now).Err?
  {
    hide RefundRequestOk, Refundable, Sum, Balance, Held, Affords;
  }

  // ---- and it happens -----------------------------------------------------

  /** Two orders of one project: one waits for the provider's notification, the other
      is captured by a caller. */
  datatype Sale = Sale(tenant: Id, project: Id, due: Id, other: Id, payment: Id, via: string, reference: string,
                       provider: Provider, trade: Trade)

  predicate SaleOk(s: Sale) {
    && s.due != s.other && s.trade.order == s.due && s.trade.amount == 1
    && InProduction(s.provider) && TradePaid(s.trade) && NonBlank(s.via) && NonBlank(s.reference)
    && s.payment != AlipayPaymentId(s.provider, s.trade) && s.reference != s.trade.tradeId
  }

  function CreditKey(s: Sale): string {
    KeyFor(Credits(AlipayPaymentId(s.provider, s.trade)))
  }

  function Offering(s: Sale): seq<Timed> {
    [Timed(DoOpenAccount(s.project, s.tenant), START), Timed(DoCreateOrder(s.due, s.tenant, s.project, 1), START),
     Timed(DoOpenCheckout(s.due, s.provider), START), Timed(DoCreateOrder(s.other, s.tenant, s.project, 1), START)]
  }

  function Claiming(s: Sale): seq<Timed> {
    Offering(s) + [Timed(DoCapture(s.other, s.payment, s.via, s.reference, CreditKey(s)), START)]
  }

  /** The orders and checkouts of the project, nothing else. */
  function Shop(s: Sale, orders: map<Id, Order>, checkouts: map<Id, Checkout>): History {
    EMPTY_HISTORY.(accounts := map[s.project := Account(s.tenant, true, "CNY", false)], orders := orders,
                   checkouts := checkouts)
  }

  function Waiting(s: Sale): Order {
    Order(s.tenant, s.project, 1, Pending)
  }

  function Offered(s: Sale): History {
    Shop(s, map[s.due := Waiting(s), s.other := Waiting(s)],
         map[s.due := Checkout(s.provider.profile, s.provider.environment, Creating, None)])
  }

  lemma Offers(s: Sale)
    requires s.due != s.other
    ensures Run(EMPTY_HISTORY, Offering(s)) == Offered(s)
  {
    hide Run, Step, Offered;
    var ops := Offering(s);
    RunNothing(EMPTY_HISTORY);
    RunMore(EMPTY_HISTORY, [], ops[0]);
    RunMore(EMPTY_HISTORY, ops[..1], ops[1]);
    RunMore(EMPTY_HISTORY, ops[..2], ops[2]);
    RunMore(EMPTY_HISTORY, ops[..3], ops[3]);
    assert [] + [ops[0]] == ops[..1] && ops[..1] + [ops[1]] == ops[..2] && ops[..2] + [ops[2]] == ops[..3];
    assert ops[..3] + [ops[3]] == ops;
    OfferSteps(s);
  }

  lemma OfferSteps(s: Sale)
    requires s.due != s.other
    ensures
      var h1 := Step(EMPTY_HISTORY, DoOpenAccount(s.project, s.tenant), START);
      var h2 := Step(h1, DoCreateOrder(s.due, s.tenant, s.project, 1), START);
      var h3 := Step(h2, DoOpenCheckout(s.due, s.provider), START);
      Step(h3, DoCreateOrder(s.other, s.tenant, s.project, 1), START) == Offered(s)
  {
    hide Step;
    var checkout := Checkout(s.provider.profile, s.provider.environment, Creating, None);
    OpenStep(s);
    OrderStep(s, s.due, map[], map[]);
    CheckoutStep(s);
    OrderStep(s, s.other, map[s.due := Waiting(s)], map[s.due := checkout]);
    assert map[s.due := Waiting(s)][s.other := Waiting(s)] == map[s.due := Waiting(s), s.other := Waiting(s)];
  }

  lemma OpenStep(s: Sale)
    ensures Step(EMPTY_HISTORY, DoOpenAccount(s.project, s.tenant), START) == Shop(s, map[], map[])
  {
  }

  lemma OrderStep(s: Sale, id: Id, orders: map<Id, Order>, checkouts: map<Id, Checkout>)
    requires id !in orders
    ensures Step(Shop(s, orders, checkouts), DoCreateOrder(id, s.tenant, s.project, 1), START)
         == Shop(s, orders[id := Waiting(s)], checkouts)
  {
  }

  lemma CheckoutStep(s: Sale)
    ensures Step(Shop(s, map[s.due := Waiting(s)], map[]), DoOpenCheckout(s.due, s.provider), START)
         == Shop(s, map[s.due := Waiting(s)],
                 map[s.due := Checkout(s.provider.profile, s.provider.environment, Creating, None)])
  {
  }

  /** Nothing has moved yet, so the capture commits. */
  lemma Claims(s: Sale)
    requires SaleOk(s)
    ensures
      var h := Step(Offered(s), Claiming(s)[4].op, START);
      && KeyUsed(h, CreditKey(s)) && Creditable(h, s.provider, s.trade)
      && !ReferenceUsed(h, "alipay", s.trade.tradeId) && CreditFits(h, s.project, 1)
  {
    hide NonBlank, AlipayPaymentId, CreditKey, TradePaid, InProduction, KeyUsed, CreditFits, CapturePayment, Step;
    var h := Offered(s);
    Paid1(h, s, CreditKey(s));
    CaptureStep(h, s.other, s.payment, s.via, s.reference, CreditKey(s));
  }

  lemma CaptureStep(h: History, order: Id, id: Id, via: string, reference: string, key: string)
    requires CapturePayment(h, order, id, via, reference, key, START).Ok?
    ensures Step(h, DoCapture(order, id, via, reference, key), START)
         == CapturePayment(h, order, id, via, reference, key, START).value.0
  {
    hide CapturePayment;
  }

  lemma Paid1(h: History, s: Sale, key: string)
    requires h == Offered(s) && SaleOk(s)
    ensures
      var r := CapturePayment(h, s.other, s.payment, s.via, s.reference, key, START);
      && r.Ok? && KeyUsed(r.value.0, key) && CreditFits(r.value.0, s.project, 1)
      && r.value.0.orders == h.orders[s.other := Waiting(s).(status := Paid)]
      && r.value.0.payments == map[s.payment := Payment(s.other, s.via, s.reference, 1)]
      && r.value.0.checkouts == h.checkouts && r.value.0.accounts == h.accounts
  {
    hide NonBlank, AlipayPaymentId, TradePaid, InProduction, KeyUsed, CreditFits, Post;
    FirstCredit(Captured(h, s.payment, Payment(s.other, s.via, s.reference, 1)), s, key);
  }

  lemma FirstCredit(h: History, s: Sale, key: string)
    requires s.project in h.accounts && h.ledger == [] && h.log == map[]
    ensures
      var r := Credit(h, s.project, s.payment, MICROS_PER_MINOR_UNIT, key, START);
      && r.Ok? && KeyUsed(r.value, key) && CreditFits(r.value, s.project, 1)
      && r.value == h.(ledger := r.value.ledger, log := r.value.log, jobs := r.value.jobs)
  {
    assert Balance(h, s.project) == 0;
    assert !KeyUsed(h, key);
    var after := Credit(h, s.project, s.payment, MICROS_PER_MINOR_UNIT, key, START).value;
    assert after.ledger[0].idempotencyKey == key;
    PostMoves(h, s.project, TopUp, PaymentRef(s.payment), key, MICROS_PER_MINOR_UNIT, CashClearing, START, s.payment, 0);
    assert Balance(after, s.project) == MICROS_PER_MINOR_UNIT;
  }

  /** A capture whose caller chose the key of a notification to come: the order's own
      payment, verified and paid, is then never credited, whatever follows. */
  lemma CaptureStrandsCredit(s: Sale, ops: seq<Timed>, now: Instant)
    requires SaleOk(s) && KeyAccepted(CreditKey(s))
    ensures
      var h := Run(EMPTY_HISTORY, Claiming(s));
      && Creditable(h, s.provider, s.trade)
      && !ReferenceUsed(h, "alipay", s.trade.tradeId) && CreditFits(h, s.project, 1)
      && (!Done(Run(h, ops), Credits(AlipayPaymentId(s.provider, s.trade))) ==>
            AcceptTrade(Run(h, ops), s.provider, s.trade, now).Err?)
  {
    hide Run, Step, AlipayPaymentId, KeyFor, NonBlank, Creditable, CreditFits, ReferenceUsed, KeyUsed, AcceptTrade, Done,
         InProduction, TradePaid;
    Offers(s);
    RunMore(EMPTY_HISTORY, Offering(s), Claiming(s)[4]);
    Claims(s);
    RunSound(Claiming(s));
    TakenKeyStrandsService(Run(EMPTY_HISTORY, Claiming(s)), ops, Credits(AlipayPaymentId(s.provider, s.trade)), now);
  }
}
