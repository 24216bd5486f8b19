/** The accounting identity: in every reachable state the four books of an
    account are what its payments, refunds and usage say they are. */
module Identity {
  import opened Prelude
  import opened Sums
  import opened Rows
  import opened Totals
  import opened Ledger
  import opened Protocol
  import opened PaymentRules
  import opened WorkerRules
  import opened CatalogService
  import opened RefundService
  import opened Runs
  import opened Shapes
  import opened Steps
  import opened Soundness
  import opened Consumption
  import opened Requests
  import opened OrderBook

  // ---- what the source tables say -----------------------------------------

  function PaidInto(h: History, account: Id): Payment -> int {
    (p: Payment) => if PayerOf(h, p) == account then p.amount else 0
  }

  function RefundedFrom(h: History, account: Id): Refund -> int {
    (r: Refund) => if RefundAccount(h, r) == account then r.amount else 0
  }

  function PendingFrom(h: History, account: Id): Refund -> int {
    (r: Refund) => if RefundAccount(h, r) == account && r.status == RefundPending then r.amount else 0
  }

  function UsedBy(account: Id): UsageEvent -> int {
    (u: UsageEvent) => if u.project == account then u.cost else 0
  }

  ghost function Paid(h: History, account: Id): int {
    MICROS_PER_MINOR_UNIT * Sum(h.payments, PaidInto(h, account))
  }

  ghost function Returned(h: History, account: Id): int {
    MICROS_PER_MINOR_UNIT * Sum(h.refunds, RefundedFrom(h, account))
  }

  ghost function Waiting(h: History, account: Id): int {
    MICROS_PER_MINOR_UNIT * Sum(h.refunds, PendingFrom(h, account))
  }

  ghost function Used(h: History, account: Id): int {
    Sum(h.usage, UsedBy(account))
  }

  /** The customer's balance is money paid, less refunds asked for, less usage.
      Refunds asked for but not yet confirmed are in refund clearing; cash
      clearing is the mirror of money that really moved. */
  ghost predicate Adds(h: History, account: Id) {
    && Booked(h, account, CustomerBalance) == Paid(h, account) - Returned(h, account) - Used(h, account)
    && Booked(h, account, UsageRevenue) == Used(h, account)
    && Booked(h, account, RefundClearing) == Waiting(h, account)
    && Booked(h, account, CashClearing) == -(Paid(h, account) - (Returned(h, account) - Waiting(h, account)))
  }

  // ---- how books move -----------------------------------------------------

  function PairAdds(owner: Id, delta: int, counter: Book, account: Id, book: Book): int {
    if account != owner then 0 else if book == CustomerBalance then delta else if book == counter then -delta else 0
  }

  function ClearingAdds(owner: Id, micros: int, account: Id, book: Book): int {
    if account != owner then 0 else if book == RefundClearing then -micros else if book == CashClearing then micros else 0
  }

  /** What a customer posting adds to the books of an account. */
  lemma PairBooks(h: History, after: History, posting: Posting, owner: Id, delta: I64, counter: Book, account: Id)
    requires after.ledger == h.ledger + [posting] && delta != I64_MIN && counter != CustomerBalance
    requires posting.entries == Pair(owner, delta, counter)
    ensures forall b: Book ::
      Booked(after, account, b) == Booked(h, account, b) + PairAdds(owner, delta, counter, account, b)
  {
    forall b: Book
      ensures Booked(after, account, b) == Booked(h, account, b) + PairAdds(owner, delta, counter, account, b)
    {
      SumSeqPush(h.ledger, posting, PostedTo(account, b));
      PairWeight(owner, delta, counter, account, b);
    }
  }

  /** And what clearing a refund adds. */
  lemma ClearingBooks(h: History, after: History, posting: Posting, owner: Id, micros: I64, account: Id)
    requires after.ledger == h.ledger + [posting] && 0 <= micros && posting.entries == ClearingPair(owner, micros)
    ensures forall b: Book ::
      Booked(after, account, b) == Booked(h, account, b) + ClearingAdds(owner, micros, account, b)
  {
    var moved := after.(reservations := h.reservations, usage := h.usage);
    ClearingShift(h, posting, owner, micros, moved);
    forall b: Book ensures Booked(after, account, b) == Booked(moved, account, b) {
    }
  }

  // ---- sources that did not change their owner ----------------------------

  lemma OwnersStay(h: History, after: History, row: Option<(Id, Payment)>, account: Id)
    requires PaidOnce(h) && WithinCapture(h) && OrdersMove(h.orders, after.orders, row)
    requires forall p :: p in h.payments ==> p in after.payments && after.payments[p] == h.payments[p]
    ensures Sum(h.payments, PaidInto(after, account)) == Sum(h.payments, PaidInto(h, account))
    ensures Sum(h.refunds, RefundedFrom(after, account)) == Sum(h.refunds, RefundedFrom(h, account))
    ensures Sum(h.refunds, PendingFrom(after, account)) == Sum(h.refunds, PendingFrom(h, account))
  {
    hide PayerOf, Refunded;
    forall p | p in h.payments ensures PayerOf(after, h.payments[p]) == PayerOf(h, h.payments[p]) {
      PayerStays(h, after, h.payments[p], row);
    }
    SumAgree(h.payments, PaidInto(after, account), PaidInto(h, account));
    SumAgree(h.refunds, RefundedFrom(after, account), RefundedFrom(h, account));
    SumAgree(h.refunds, PendingFrom(after, account), PendingFrom(h, account));
  }

  // ---- one lemma per shape ------------------------------------------------

  /** Tables first: by how much each says more than before. */
  ghost predicate Say(h: History, after: History, account: Id, paid: int, returned: int, waiting: int, used: int) {
    && Paid(after, account) == Paid(h, account) + paid
    && Returned(after, account) == Returned(h, account) + returned
    && Waiting(after, account) == Waiting(h, account) + waiting
    && Used(after, account) == Used(h, account) + used
  }

  function If(b: bool, x: int): int {
    if b then x else 0
  }

  lemma UsageSays(h: History, after: History, id: Id, u: UsageEvent, account: Id)
    requires PaidOnce(h) && WithinCapture(h) && OrdersMove(h.orders, after.orders, None)
    requires after.payments == h.payments && after.refunds == h.refunds
    requires id !in h.usage && after.usage == h.usage[id := u]
    ensures Say(h, after, account, 0, 0, 0, If(u.project == account, u.cost))
  {
    OwnersStay(h, after, None, account);
    SumPut(h.usage, UsedBy(account), id, u);
    hide PaidOnce, WithinCapture, OrdersMove, Sum, PayerOf, RefundAccount;
  }

  lemma UsageAdds(h: History, after: History, id: Id, u: UsageEvent, key: string, account: Id)
    requires Adds(h, account) && PaidOnce(h) && WithinCapture(h) && OrdersMove(h.orders, after.orders, None)
    requires after.payments == h.payments && after.refunds == h.refunds
    requires id !in h.usage && after.usage == h.usage[id := u] && 0 <= u.cost
    requires after.ledger == h.ledger + (if 0 < u.cost then [ChargePosting(u.project, id, key, u.cost)] else [])
    ensures Adds(after, account)
  {
    hide PaidOnce, WithinCapture, OrdersMove, Booked, Paid, Returned, Waiting, Used, Pair;
    UsageSays(h, after, id, u, account);
    if 0 < u.cost {
      PairBooks(h, after, ChargePosting(u.project, id, key, u.cost), u.project, -u.cost, UsageRevenue, account);
    } else {
      SameBooks(h, after, account);
    }
  }

  lemma SameBooks(h: History, after: History, account: Id)
    requires after.ledger == h.ledger
    ensures forall b: Book :: Booked(after, account, b) == Booked(h, account, b)
  {
  }

  lemma CapturedSays(h: History, after: History, id: Id, payment: Payment, account: Id)
    requires PaidOnce(h) && WithinCapture(h) && OrdersMove(h.orders, after.orders, Some((id, payment)))
    requires id !in h.payments && after.payments == h.payments[id := payment] && payment.order in h.orders
    requires after.refunds == h.refunds && after.usage == h.usage
    ensures Say(h, after, account, If(PayerOf(h, payment) == account, payment.amount * MICROS_PER_MINOR_UNIT), 0, 0, 0)
  {
    OwnersStay(h, after, Some((id, payment)), account);
    PayerStays(h, after, payment, Some((id, payment)));
    SumPut(h.payments, PaidInto(after, account), id, payment);
    hide PaidOnce, WithinCapture, OrdersMove, Sum, PayerOf, RefundAccount;
  }

  lemma CapturedAdds(h: History, after: History, id: Id, payment: Payment, key: string, account: Id)
    requires Adds(h, account) && PaidOnce(h) && WithinCapture(h)
    requires OrdersMove(h.orders, after.orders, Some((id, payment)))
    requires id !in h.payments && after.payments == h.payments[id := payment]
    requires payment.order in h.orders && 0 < payment.amount && Fits(payment.amount * MICROS_PER_MINOR_UNIT)
    requires after.refunds == h.refunds && after.usage == h.usage
    requires after.ledger == h.ledger + [TopUpPosting(PayerOf(h, payment), id, key, payment.amount)]
    ensures Adds(after, account)
  {
    hide PaidOnce, WithinCapture, OrdersMove, Booked, Paid, Returned, Waiting, Used, Pair, PayerOf;
    CapturedSays(h, after, id, payment, account);
    PairBooks(h, after, TopUpPosting(PayerOf(h, payment), id, key, payment.amount), PayerOf(h, payment),
              Micros(payment.amount), CashClearing, account);
  }

  /** A refund is asked for, */
  lemma RefundSays(h: History, after: History, id: Id, refund: Refund, account: Id)
    requires PaidOnce(h) && WithinCapture(h) && OrdersMove(h.orders, after.orders, None)
    requires id !in h.refunds && after.refunds == h.refunds[id := refund] && refund.payment in h.payments
    requires after.payments == h.payments && after.usage == h.usage
    ensures
      var own := RefundAccount(h, refund) == account;
      var micros := refund.amount * MICROS_PER_MINOR_UNIT;
      Say(h, after, account, 0, If(own, micros), If(own && refund.status == RefundPending, micros), 0)
  {
    hide PaidOnce, WithinCapture, OrdersMove, Sum, PayerOf, RefundAccount;
    OwnersStay(h, after, None, account);
    RefundOwnerStays(h, after, refund);
    SumPut(h.refunds, RefundedFrom(after, account), id, refund);
    SumPut(h.refunds, PendingFrom(after, account), id, refund);
  }

  /** or confirmed. */
  lemma ClearedSays(h: History, after: History, id: Id, refund: Refund, account: Id)
    requires PaidOnce(h) && WithinCapture(h) && OrdersMove(h.orders, after.orders, None)
    requires id in h.refunds && after.refunds == h.refunds[id := refund] && refund.payment in h.payments
    requires after.payments == h.payments && after.usage == h.usage
    requires h.refunds[id].payment == refund.payment && h.refunds[id].amount == refund.amount
    requires h.refunds[id].status == RefundPending && refund.status == RefundSucceeded
    ensures Say(h, after, account, 0, 0,
                If(RefundAccount(h, refund) == account, -(refund.amount * MICROS_PER_MINOR_UNIT)), 0)
  {
    hide PaidOnce, WithinCapture, OrdersMove, Sum, PayerOf, RefundAccount;
    OwnersStay(h, after, None, account);
    RefundOwnerStays(h, after, refund);
    SameRefundAccount(after, refund, h.refunds[id]);
    SumPut(h.refunds, RefundedFrom(after, account), id, refund);
    SumPut(h.refunds, PendingFrom(after, account), id, refund);
  }

  lemma RefundOwnerStays(h: History, after: History, refund: Refund)
    requires PaidOnce(h) && OrdersMove(h.orders, after.orders, None)
    requires refund.payment in h.payments && after.payments == h.payments
    ensures RefundAccount(after, refund) == RefundAccount(h, refund)
  {
    PayerStays(h, after, h.payments[refund.payment], None);
  }

  lemma RefundedAdds(h: History, after: History, id: Id, refund: Refund, key: string, account: Id)
    requires Adds(h, account) && PaidOnce(h) && WithinCapture(h) && OrdersMove(h.orders, after.orders, None)
    requires id !in h.refunds && after.refunds == h.refunds[id := refund]
    requires refund.payment in h.payments && 0 < refund.amount && Fits(refund.amount * MICROS_PER_MINOR_UNIT)
    requires after.payments == h.payments && after.usage == h.usage
    requires after.ledger == h.ledger + [RefundPosting(RefundAccount(h, refund), id, refund, key)]
    ensures Adds(after, account)
  {
    hide PaidOnce, WithinCapture, OrdersMove, Booked, Paid, Returned, Waiting, Used, Pair, RefundAccount;
    RefundSays(h, after, id, refund, account);
    var owner, micros := RefundAccount(h, refund), Micros(refund.amount);
    PairBooks(h, after, RefundPosting(owner, id, refund, key), owner, -micros,
              if refund.status == RefundPending then RefundClearing else CashClearing, account);
  }

  lemma ClearedAdds(h: History, after: History, id: Id, refund: Refund, account: Id)
    requires Adds(h, account) && PaidOnce(h) && WithinCapture(h) && OrdersMove(h.orders, after.orders, None)
    requires id in h.refunds && after.refunds == h.refunds[id := refund]
    requires h.refunds[id].status == RefundPending && refund.status == RefundSucceeded
    requires refund.payment == h.refunds[id].payment && refund.amount == h.refunds[id].amount
    requires refund.payment in h.payments && 0 < refund.amount && Fits(refund.amount * MICROS_PER_MINOR_UNIT)
    requires after.payments == h.payments && after.usage == h.usage
    requires after.ledger == h.ledger + [ClearPosting(RefundAccount(h, refund), id, refund.amount)]
    ensures Adds(after, account)
  {
    hide PaidOnce, WithinCapture, OrdersMove, Booked, Paid, Returned, Waiting, Used, ClearingPair, RefundAccount;
    ClearedSays(h, after, id, refund, account);
    var owner, micros := RefundAccount(h, refund), Micros(refund.amount);
    ClearingBooks(h, after, ClearPosting(owner, id, refund.amount), owner, micros, account);
  }

  lemma StillAdds(h: History, after: History, account: Id)
    requires Adds(h, account) && PaidOnce(h) && WithinCapture(h) && OrdersMove(h.orders, after.orders, None)
    requires after.payments == h.payments && after.refunds == h.refunds
    requires after.usage == h.usage && after.ledger == h.ledger
    ensures Adds(after, account)
  {
    OwnersStay(h, after, None, account);
  }

  // ---- steps and runs -----------------------------------------------------

  lemma ShapeAdds(h: History, after: History, shape: Shape, now: Instant, account: Id)
    requires Adds(h, account) && OrdersOk(h) && Amount(shape) && ShapeOk(h, shape, now)
    requires Writes(h, after, SummaryOf(h, shape, now))
    ensures Adds(after, account)
  {
    hide OrdersMove, PaidOnce, ToppedUp, WithinCapture, RefundFits, Gated, Fresh, PayerOf, RefundAccount, BalanceGate,
         BudgetGate, ReservedRequest, MeteredRequest, Moves, Micros, Adds, ChargePosting, TopUpPosting, RefundPosting,
         ClearPosting;
    match shape {
      case Charging(was, q, amount) =>
        UsageAdds(h, after, UsageId(was.spec.id), SettledUsage(was, q, amount, now), SettlementKey(was.spec.id), account);
      case Metering(u, cost) =>
        UsageAdds(h, after, u.eventId, ReportedUsage(u, cost), ReportKey(u.eventId), account);
      case Capturing(id, payment, key) => CapturedAdds(h, after, id, payment, key, account);
      case Refunding(id, refund, key) => RefundedAdds(h, after, id, refund, key, account);
      case Clearing(id, refund) => ClearedAdds(h, after, id, refund, account);
      case _ => StillAdds(h, after, account);
    }
  }

  ghost predicate ZeroSumPosting(p: Posting) {
    exists account :: Balanced(p, account)
  }

  /** Every posting is between books of one account and sums to zero. */
  ghost predicate ZeroSum(h: History) {
    forall n :: 0 <= n < |h.ledger| ==> ZeroSumPosting(h.ledger[n])
  }

  lemma ShapeZeroSum(h: History, after: History, shape: Shape, now: Instant)
    requires ZeroSum(h) && Amount(shape) && Writes(h, after, SummaryOf(h, shape, now))
    ensures ZeroSum(after)
  {
    hide Balanced, SummaryOf;
    var s := SummaryOf(h, shape, now);
    if s.posting.Some? {
      PostingBalanced(h, shape, now);
    }
    forall n | 0 <= n < |after.ledger| ensures ZeroSumPosting(after.ledger[n]) {
      if n < |h.ledger| {
        assert after.ledger[n] == h.ledger[n];
      }
    }
  }

  lemma StepAdds(h: History, op: Op, now: Instant, account: Id)
    requires Good(h) && OrdersOk(h) && Adds(h, account) && ZeroSum(h)
    ensures Adds(Step(h, op, now), account) && ZeroSum(Step(h, op, now))
  {
    hide RowsOk, InRange, AmountsOk, CatalogOk, ReviewsPoint, Step, ShapeOk, NoteOk, Files, Feeds, Shift, SummaryOf,
         Writes, Amount, PaidOnce, ToppedUp, WithinCapture, Adds, ZeroSum;
    if Apart(op) {
      ApartStep(h, op, now);
      StillAdds(h, Step(h, op, now), account);
      SameZeroSum(h, Step(h, op, now));
    } else {
      var shape, note := StepShape(h, op, now);
      SilentWrites(h, Step(h, op, now), SummaryOf(h, shape, now), note);
      ShapeAdds(h, Step(h, op, now), shape, now, account);
      ShapeZeroSum(h, Step(h, op, now), shape, now);
    }
  }

  lemma SameZeroSum(h: History, after: History)
    requires ZeroSum(h) && after.ledger == h.ledger
    ensures ZeroSum(after)
  {
  }

  /** The books balance after every run. */
  lemma {:induction false} BooksAddUp(ops: seq<Timed>, account: Id)
    ensures Adds(Run(EMPTY_HISTORY, ops), account) && ZeroSum(Run(EMPTY_HISTORY, ops))
  {
    hide Step, Good, OrdersOk, Adds, ZeroSum;
    if ops == [] {
      EmptyAdds(account);
    } else {
      BooksAddUp(ops[..|ops| - 1], account);
      RunSound(ops[..|ops| - 1]);
      OrdersArePaidOnce(ops[..|ops| - 1]);
      StepAdds(Run(EMPTY_HISTORY, ops[..|ops| - 1]), ops[|ops| - 1].op, ops[|ops| - 1].now, account);
    }
  }

  lemma EmptyAdds(account: Id)
    ensures Adds(EMPTY_HISTORY, account) && ZeroSum(EMPTY_HISTORY)
  {
  }
}
