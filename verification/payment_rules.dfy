/** What orders, captured payments and refunds mean, stated over source records.
    Every amount is CNY in minor units. */
module PaymentRules {
  import opened Prelude
  import opened Sums
  import opened Rows
  import opened Totals
  import opened Outbox
  import opened Ledger

  /** A payment merchant: the digest of its identity, and where it runs. */
  datatype Provider = Provider(profile: string, environment: string)

  /** Verified provider notifications. */
  datatype Trade = Trade(order: Id, tradeId: string, amount: I64, state: string, proof: string)

  datatype RefundProof = RefundProof(request: Id, order: Id, tradeId: string, amount: I64, digest: string)

  datatype RefundRequest = RefundRequest(id: Id, payment: Id, amount: I64, reason: string)

  datatype TradeOutcome = Observed | Credited(payment: Id, duplicate: bool)

  /** Bounds of `format_amount`. */
  predicate ProviderAmount(minor: I64) {
    1 <= minor <= 10_000_000_000
  }

  predicate ReferenceUsed(h: History, provider: string, reference: string) {
    exists id :: id in h.payments && h.payments[id].provider == provider && h.payments[id].providerReference == reference
  }

  // ---- orders and checkouts -----------------------------------------------

  function CreateOrder(h: History, id: Id, tenant: Id, project: Id, amount: I64): Result<(History, Order)> {
    if amount <= 0 then Err(Invalid)
    else if project !in h.accounts then Err(NotFound)
    else if h.accounts[project].tenant != tenant then Err(Forbidden)
    else if id in h.orders then Err(Conflict)
    else
      var row := Order(tenant, project, amount, Pending);
      Ok((h.(orders := h.orders[id := row]), row))
  }

  function OpenCheckout(h: History, order: Id, provider: Provider): Result<(History, Checkout)> {
    if order !in h.orders then Err(NotFound)
    else if h.orders[order].status != Pending then Err(Conflict)
    else if !ProviderAmount(h.orders[order].amount) then Err(Invalid)
    else if order in h.checkouts then
      if h.checkouts[order].profile != provider.profile then Err(Conflict) else Ok((h, h.checkouts[order]))
    else
      var row := Checkout(provider.profile, provider.environment, Creating, None);
      Ok((h.(checkouts := h.checkouts[order := row]), row))
  }

  /** The provider's payment code arrives in a transaction of its own; a checkout
      that moved on meanwhile keeps its state. */
  function StoreCode(h: History, order: Id, code: string): Result<(History, Checkout)> {
    if order !in h.orders || order !in h.checkouts then Err(NotFound)
    else
      var was := h.checkouts[order];
      var row := was.(state := if was.state == Creating then Offered else was.state, code := Some(code));
      Ok((h.(checkouts := h.checkouts[order := row]), row))
  }

  // ---- capture ------------------------------------------------------------

  /** Books the money a payment brought in, once its rows are in place. */
  ghost function Credit(h: History, project: Id, payment: Id, micros: I64, idempotencyKey: string, now: Instant)
    : Result<History>
  {
    Post(h, project, TopUp, PaymentRef(payment), idempotencyKey, micros, CashClearing, now)
  }

  /** The payment exists and its order is paid; nothing is posted yet. */
  function Captured(h: History, id: Id, payment: Payment): History
    requires payment.order in h.orders
  {
    h.(payments := h.payments[id := payment],
       orders := h.orders[payment.order := h.orders[payment.order].(status := Paid)])
  }

  ghost function CapturePayment(h: History, order: Id, id: Id, provider: string, reference: string,
                                idempotencyKey: string, now: Instant): Result<(History, Payment)>
  {
    if !NonBlank(provider) || !NonBlank(reference) then Err(Invalid)
    else if id in h.payments then
      var p := h.payments[id];
      if p.order == order && p.provider == provider && p.providerReference == reference then Ok((h, p)) else Err(Conflict)
    else if order !in h.orders then Err(NotFound)
    else if h.orders[order].status != Pending then Err(Conflict)
    else if h.orders[order].project !in h.accounts then Err(NotFound)
    else if ReferenceUsed(h, provider, reference) then Err(Conflict)
    else if !Fits(h.orders[order].amount * MICROS_PER_MINOR_UNIT) then Err(Invalid)
    else
      var payment := Payment(order, provider, reference, h.orders[order].amount);
      match Credit(Captured(h, id, payment), h.orders[order].project, id,
                   payment.amount * MICROS_PER_MINOR_UNIT, idempotencyKey, now)
      case Err(error) => Err(error)
      case Ok(after) => Ok((after, payment))
  }

  // ---- provider notifications ---------------------------------------------

  predicate TradePaid(t: Trade) {
    t.state == "TRADE_SUCCESS" || t.state == "TRADE_FINISHED"
  }

  predicate TradeClosed(t: Trade) {
    t.state == "TRADE_CLOSED"
  }

  /** Sandbox money is never credited. */
  predicate InProduction(provider: Provider) {
    provider.environment == "production"
  }

  /** Digests are taken to be the text they are computed from. */
  function ReceiptId(provider: Provider, t: Trade): string {
    provider.profile + ":" + t.order + ":" + t.proof
  }

  function AlipayPaymentId(provider: Provider, t: Trade): Id {
    "alipay-" + provider.profile + ":" + t.tradeId
  }

  predicate TradeMatches(h: History, provider: Provider, t: Trade)
    requires t.order in h.orders && t.order in h.checkouts
  {
    && h.checkouts[t.order].profile == provider.profile
    && h.checkouts[t.order].environment == provider.environment
    && h.orders[t.order].amount == t.amount
  }

  /** Every verified notification is retained once. */
  function Witness(h: History, provider: Provider, t: Trade): History {
    var id := ReceiptId(provider, t);
    if id in h.receipts then h
    else h.(receipts := h.receipts[id := Receipt(t.order, provider.profile, t.tradeId, t.state, t.amount)])
  }

  ghost function AcceptTrade(h: History, provider: Provider, t: Trade, now: Instant): Result<(History, TradeOutcome)> {
    if t.order !in h.orders then Err(NotFound)
    else if t.order !in h.checkouts then Err(Conflict)
    else if !TradeMatches(h, provider, t) then Err(Conflict)
    else
      var seen := Witness(h, provider, t);
      if !InProduction(provider) then Ok((seen, Observed))
      else if !TradePaid(t) then Ok((Unpaid(seen, t), Observed))
      else CreditTrade(seen, provider, t, now)
  }

  /** A closing notification shuts the checkout of an order that still waits; any
      other unpaid one leaves order and checkout alone. */
  function Unpaid(h: History, t: Trade): History
    requires t.order in h.orders && t.order in h.checkouts
  {
    if TradeClosed(t) && h.orders[t.order].status == Pending
    then h.(checkouts := h.checkouts[t.order := h.checkouts[t.order].(state := Closed)])
    else h
  }

  ghost function CreditTrade(h: History, provider: Provider, t: Trade, now: Instant): Result<(History, TradeOutcome)>
    requires t.order in h.orders && t.order in h.checkouts
  {
    var id := AlipayPaymentId(provider, t);
    var order := h.orders[t.order];
    if id in h.payments then
      if h.payments[id].order != t.order || h.payments[id].amount != order.amount then Err(Conflict)
      else Ok((h, Credited(id, true)))
    else if order.status != Pending then Err(Conflict)
    else if order.project !in h.accounts then Err(NotFound)
    else if ReferenceUsed(h, "alipay", t.tradeId) then Err(Database)
    else if !Fits(order.amount * MICROS_PER_MINOR_UNIT) then Err(Invalid)
    else
      var payment := Payment(t.order, "alipay", t.tradeId, order.amount);
      match Credit(Captured(h, id, payment), order.project, id, order.amount * MICROS_PER_MINOR_UNIT,
                   "alipay:" + id, now)
      case Err(error) => Err(error)
      case Ok(after) =>
        Ok((after.(checkouts := after.checkouts[t.order := h.checkouts[t.order].(state := CheckedOut)]),
            Credited(id, false)))
  }

  // ---- refunds ------------------------------------------------------------

  function RefundOf(payment: Id): Refund -> int {
    (r: Refund) => if r.payment == payment then r.amount else 0
  }

  function SucceededOf(payment: Id): Refund -> int {
    (r: Refund) => if r.payment == payment && r.status == RefundSucceeded then r.amount else 0
  }

  /** Pending and succeeded refunds of a payment. */
  ghost function Refunded(h: History, payment: Id): int {
    Sum(h.refunds, RefundOf(payment))
  }

  predicate SameRefund(r: Refund, q: RefundRequest) {
    r.payment == q.payment && r.amount == q.amount && r.reason == q.reason
  }

  /** Manual bookkeeping; provider payments are refunded through the provider. */
  ghost function CreateRefund(h: History, q: RefundRequest, idempotencyKey: string, now: Instant)
    : Result<(History, Refund)>
  {
    if q.amount <= 0 || !NonBlank(q.reason) then Err(Invalid)
    else if q.id in h.refunds then
      if SameRefund(h.refunds[q.id], q) then Ok((h, h.refunds[q.id])) else Err(Conflict)
    else if q.payment !in h.payments then Err(NotFound)
    else if h.payments[q.payment].provider == "alipay" then Err(Invalid)
    else if h.payments[q.payment].amount < q.amount then Err(Invalid)
    else if h.payments[q.payment].order !in h.orders then Err(NotFound)
    else if h.payments[q.payment].amount < Min(Sum(h.refunds, SucceededOf(q.payment)) + q.amount, I64_MAX)
    then Err(Invalid)
    else if h.orders[h.payments[q.payment].order].project !in h.accounts then Err(NotFound)
    else if !Fits(q.amount * MICROS_PER_MINOR_UNIT) then Err(Invalid)
    else
      var row := Refund(q.payment, q.amount, q.reason, RefundSucceeded, None);
      match Post(h.(refunds := h.refunds[q.id := row]), h.orders[h.payments[q.payment].order].project, RefundPosted,
                 RefundRef(q.id), idempotencyKey, -(q.amount * MICROS_PER_MINOR_UNIT), CashClearing, now)
      case Err(error) => Err(error)
      case Ok(after) => Ok((after, row))
  }

  predicate RefundRequestOk(q: RefundRequest) {
    && 0 < |q.id| <= 64
    && (forall i :: 0 <= i < |q.id| ==> Alphanumeric(q.id[i]) || q.id[i] == '-' || q.id[i] == '_')
    && NonBlank(q.reason) && |q.reason| <= 256
    && ProviderAmount(q.amount)
  }

  /** The payment's order, when the payment can be refunded by this provider. */
  function Refundable(h: History, payment: Id, provider: Provider): Result<Order> {
    if payment !in h.payments then Err(NotFound)
    else
      var p := h.payments[payment];
      if p.order !in h.orders || p.order !in h.checkouts then Err(NotFound)
      else if p.provider != "alipay"
              || h.checkouts[p.order].profile != provider.profile
              || h.checkouts[p.order].environment != "production"
              || provider.environment != "production"
      then Err(Conflict)
      else Ok(h.orders[p.order])
  }

  /** The debit is booked before the provider is asked. Balance minus holds must
      cover it, also on a postpaid account. */
  ghost function PrepareRefund(h: History, q: RefundRequest, provider: Provider, now: Instant)
    : Result<(History, Refund)>
  {
    if !RefundRequestOk(q) then Err(Invalid)
    else
      match Refundable(h, q.payment, provider)
      case Err(error) => Err(error)
      case Ok(order) =>
        if q.id in h.refunds then
          if SameRefund(h.refunds[q.id], q) then Ok((h, h.refunds[q.id])) else Err(Conflict)
        else if h.payments[q.payment].amount < Refunded(h, q.payment) + q.amount then Err(Conflict)
        else if order.project !in h.accounts then Err(NotFound)
        else HoldRefund(h, q, order.project, now)
  }

  ghost function HoldRefund(h: History, q: RefundRequest, project: Id, now: Instant): Result<(History, Refund)> {
    var debit := q.amount * MICROS_PER_MINOR_UNIT;
    var available := Balance(h, project) - Held(h, project);
    if !Fits(debit) || debit == I64_MIN then Err(Invalid)
    else if !Fits(available) || available < debit then Err(InsufficientFunds)
    else
      var row := Refund(q.payment, q.amount, q.reason, RefundPending, None);
      match Post(h.(refunds := h.refunds[q.id := row]), project, RefundHeld, RefundRef(q.id), "refund-hold:" + q.id,
                 -debit, RefundClearing, now)
      case Err(error) => Err(error)
      case Ok(after) => Ok((after, row))
  }

  predicate ProofMatches(h: History, proof: RefundProof, provider: Provider)
    requires proof.request in h.refunds && h.refunds[proof.request].payment in h.payments
    requires h.payments[h.refunds[proof.request].payment].order in h.checkouts
  {
    var payment := h.payments[h.refunds[proof.request].payment];
    && provider.environment == "production"
    && h.checkouts[payment.order].environment == "production"
    && h.refunds[proof.request].amount == proof.amount
    && payment.providerReference == proof.tradeId
    && payment.order == proof.order
    && h.checkouts[payment.order].profile == provider.profile
    && payment.provider == "alipay"
  }

  function RefundReceipt(proof: RefundProof): string {
    "refund-" + proof.digest
  }

  function SettleRefundKey(id: Id): string {
    "refund-settle:" + id
  }

  /** The entries that clear a pending refund; the customer's balance already
      paid when the refund was prepared. */
  function ClearingPair(account: Id, micros: I64): (entries: seq<Entry>)
    requires 0 <= micros
    ensures |entries| == 2
  {
    [Entry(account, RefundClearing, -micros), Entry(account, CashClearing, micros)]
  }

  function CompleteRefund(h: History, proof: RefundProof, provider: Provider, now: Instant)
    : Result<(History, Refund)>
  {
    if proof.request !in h.refunds then Err(NotFound)
    else if h.refunds[proof.request].payment !in h.payments then Err(NotFound)
    else
      var payment := h.payments[h.refunds[proof.request].payment];
      if payment.order !in h.orders || payment.order !in h.checkouts then Err(NotFound)
      else if !ProofMatches(h, proof, provider) then Err(Conflict)
      else if h.refunds[proof.request].status == RefundSucceeded then Ok((h, h.refunds[proof.request]))
      else if h.orders[payment.order].project !in h.accounts then Err(NotFound)
      else ClearRefund(h, proof, provider, h.orders[payment.order].project, now)
  }

  function ClearRefund(h: History, proof: RefundProof, provider: Provider, project: Id, now: Instant)
    : Result<(History, Refund)>
    requires proof.request in h.refunds
  {
    var id := proof.request;
    var micros := h.refunds[id].amount * MICROS_PER_MINOR_UNIT;
    if RefundReceipt(proof) in h.receipts then Err(Database)
    else if KeyUsed(h, SettleRefundKey(id)) then Err(Database)
    else if !(0 <= micros <= I64_MAX) then Err(Invalid)
    else
      var receipt := Receipt(proof.order, provider.profile, proof.tradeId, "REFUND_SUCCESS", h.refunds[id].amount);
      var posting := Posting(RefundSettled, RefundRef(id), SettleRefundKey(id), ClearingPair(project, micros));
      var row := h.refunds[id].(status := RefundSucceeded, providerReference := Some(proof.tradeId));
      match Append(h.(receipts := h.receipts[RefundReceipt(proof) := receipt],
                      ledger := h.ledger + [posting],
                      refunds := h.refunds[id := row]),
                   project, LedgerPosted(|h.ledger|, RefundSettled, RefundRef(id), 0), now)
      case Err(error) => Err(error)
      case Ok(after) => Ok((after, row))
  }
}
