/** Orders, payments and refunds over whole runs: duplicate, late, closed and
    sandbox notifications in any order credit an order at most once, and no
    payment is refunded beyond what it brought in. */
module OrderBook {
  import opened Prelude
  import opened Sums
  import opened Rows
  import opened Totals
  import opened Ledger
  import opened Protocol
  import opened PaymentRules
  import opened CatalogService
  import opened Runs
  import opened Shapes
  import opened Steps
  import opened Soundness
  import opened Requests

  // ---- invariants ---------------------------------------------------------

  /** A paid order has a payment; payments are for paid orders, in full, and no
      two are for the same order. */
  ghost predicate PaidOnce(h: History) {
    && (forall o :: o in h.orders ==>
          (h.orders[o].status == Paid <==> exists p :: p in h.payments && h.payments[p].order == o))
    && (forall p :: p in h.payments ==>
          h.payments[p].order in h.orders && h.payments[p].amount == h.orders[h.payments[p].order].amount)
    && (forall p, q :: p in h.payments && q in h.payments && h.payments[p].order == h.payments[q].order ==> p == q)
  }

  predicate TopUpOf(p: Posting, payment: Id) {
    p.kind == TopUp && p.reference == PaymentRef(payment)
  }

  predicate SameTopUp(p: Posting, q: Posting) {
    p.kind == TopUp && q.kind == TopUp && p.reference == q.reference
  }

  /** Each payment has its top-up posting, there is no second one, and no top-up
      without a payment. */
  ghost predicate ToppedUp(h: History) {
    && (forall p :: p in h.payments ==> exists n :: 0 <= n < |h.ledger| && TopUpOf(h.ledger[n], p))
    && (forall n :: 0 <= n < |h.ledger| && h.ledger[n].kind == TopUp ==>
          && h.ledger[n].reference.PaymentRef?
          && h.ledger[n].reference.id in h.payments
          && Credits(h, h.ledger[n], h.ledger[n].reference.id))
    && (forall n, m :: 0 <= n < |h.ledger| && 0 <= m < |h.ledger| && SameTopUp(h.ledger[n], h.ledger[m]) ==> n == m)
  }

  /** The posting brings the payment's amount to the account of its order. */
  predicate Credits(h: History, posting: Posting, payment: Id)
    requires payment in h.payments
  {
    posting.entries == Pair(PayerOf(h, h.payments[payment]), Micros(h.payments[payment].amount), CashClearing)
  }

  /** Refunds name payments, only provider refunds wait, and together they never
      exceed the payment. */
  ghost predicate WithinCapture(h: History) {
    && (forall r :: r in h.refunds ==>
          && h.refunds[r].payment in h.payments
          && (h.refunds[r].status == RefundPending ==> h.payments[h.refunds[r].payment].provider == "alipay"))
    && (forall p :: p in h.payments ==> Refunded(h, p) <= h.payments[p].amount)
  }

  ghost predicate OrdersOk(h: History) {
    PaidOnce(h) && ToppedUp(h) && WithinCapture(h)
  }

  // ---- paid once ----------------------------------------------------------

  lemma SamePaid(h: History, after: History)
    requires PaidOnce(h) && after.payments == h.payments && OrdersMove(h.orders, after.orders, None)
    ensures PaidOnce(after)
  {
    forall o | o in after.orders
      ensures after.orders[o].status == Paid <==> exists p :: p in after.payments && after.payments[p].order == o
    {
      if o in h.orders {
        assert after.orders[o] == h.orders[o];
      }
    }
  }

  lemma CapturedPaid(h: History, after: History, id: Id, payment: Payment)
    requires PaidOnce(h) && id !in h.payments && after.payments == h.payments[id := payment]
    requires payment.order in h.orders && h.orders[payment.order].status == Pending
    requires payment.amount == h.orders[payment.order].amount
    requires OrdersMove(h.orders, after.orders, Some((id, payment)))
    ensures PaidOnce(after)
  {
    assert after.payments[id].order == payment.order;
    forall o | o in after.orders
      ensures after.orders[o].status == Paid <==> exists p :: p in after.payments && after.payments[p].order == o
    {
      if o in h.orders && o != payment.order && h.orders[o].status == Paid {
        var p :| p in h.payments && h.payments[p].order == o;
        assert p in after.payments && after.payments[p].order == o;
      }
    }
  }

  // ---- topped up ----------------------------------------------------------

  /** The account of a payment is fixed with its order. */
  lemma PayerStays(h: History, after: History, payment: Payment, row: Option<(Id, Payment)>)
    requires OrdersMove(h.orders, after.orders, row) && payment.order in h.orders
    ensures PayerOf(after, payment) == PayerOf(h, payment)
  {
  }

  lemma OtherToppedUp(h: History, after: History, extra: seq<Posting>)
    requires ToppedUp(h) && PaidOnce(h) && after.payments == h.payments && OrdersMove(h.orders, after.orders, None)
    requires after.ledger == h.ledger + extra && forall p :: p in extra ==> p.kind != TopUp
    ensures ToppedUp(after)
  {
    hide PayerOf, Micros, Pair, OrdersMove;
    forall p | p in after.payments ensures exists n :: 0 <= n < |after.ledger| && TopUpOf(after.ledger[n], p) {
      var n :| 0 <= n < |h.ledger| && TopUpOf(h.ledger[n], p);
      assert TopUpOf(after.ledger[n], p);
    }
    forall n | 0 <= n < |after.ledger| && after.ledger[n].kind == TopUp
      ensures n < |h.ledger| && Credits(after, after.ledger[n], after.ledger[n].reference.id)
    {
      if |h.ledger| <= n { assert false; }
      PayerStays(h, after, h.payments[h.ledger[n].reference.id], None);
    }
  }

  lemma CapturedToppedUp(h: History, after: History, id: Id, payment: Payment, key: string)
    requires ToppedUp(h) && PaidOnce(h) && id !in h.payments && after.payments == h.payments[id := payment]
    requires payment.order in h.orders && 0 < payment.amount
    requires OrdersMove(h.orders, after.orders, Some((id, payment)))
    requires after.ledger == h.ledger + [TopUpPosting(PayerOf(h, payment), id, key, payment.amount)]
    ensures ToppedUp(after)
  {
    hide PayerOf, Micros, Pair, OrdersMove, Credits, PaidOnce;
    forall p | p in after.payments ensures exists n :: 0 <= n < |after.ledger| && TopUpOf(after.ledger[n], p) {
      if p == id {
        assert TopUpOf(after.ledger[|h.ledger|], p);
      } else {
        var n :| 0 <= n < |h.ledger| && TopUpOf(h.ledger[n], p);
        assert TopUpOf(after.ledger[n], p);
      }
    }
    forall n | 0 <= n < |after.ledger| && after.ledger[n].kind == TopUp
      ensures after.ledger[n].reference.PaymentRef? && after.ledger[n].reference.id in after.payments
      ensures Credits(after, after.ledger[n], after.ledger[n].reference.id)
    {
      CreditStays(h, after, id, payment, key, n);
    }
  }

  lemma CreditStays(h: History, after: History, id: Id, payment: Payment, key: string, n: nat)
    requires ToppedUp(h) && PaidOnce(h) && id !in h.payments && after.payments == h.payments[id := payment]
    requires payment.order in h.orders && 0 < payment.amount
    requires OrdersMove(h.orders, after.orders, Some((id, payment)))
    requires after.ledger == h.ledger + [TopUpPosting(PayerOf(h, payment), id, key, payment.amount)]
    requires n < |after.ledger| && after.ledger[n].kind == TopUp
    ensures after.ledger[n].reference.PaymentRef? && after.ledger[n].reference.id in after.payments
    ensures Credits(after, after.ledger[n], after.ledger[n].reference.id)
  {
    hide PayerOf, Micros, Pair, OrdersMove;
    var row := Some((id, payment));
    if n < |h.ledger| {
      PayerStays(h, after, h.payments[h.ledger[n].reference.id], row);
    } else {
      PayerStays(h, after, payment, row);
    }
  }

  // ---- within capture -----------------------------------------------------

  lemma SameCapture(h: History, after: History)
    requires WithinCapture(h) && after.payments == h.payments && after.refunds == h.refunds
    ensures WithinCapture(after)
  {
    hide Sum;
    forall p | p in after.payments ensures Refunded(after, p) <= after.payments[p].amount {
      assert Refunded(after, p) == Refunded(h, p);
    }
  }

  /** A payment nobody refunded yet. */
  lemma CapturedCapture(h: History, after: History, id: Id, payment: Payment)
    requires WithinCapture(h) && id !in h.payments && after.payments == h.payments[id := payment]
    requires after.refunds == h.refunds && 0 < payment.amount
    ensures WithinCapture(after)
  {
    SumZero(h.refunds, RefundOf(id));
    forall p | p in after.payments ensures Refunded(after, p) <= after.payments[p].amount {
      assert Refunded(after, p) == Refunded(h, p);
    }
  }

  /** All refunds of a manual payment have succeeded. */
  lemma ManualAllSucceeded(h: History, payment: Id)
    requires WithinCapture(h) && payment in h.payments && h.payments[payment].provider != "alipay"
    ensures Sum(h.refunds, SucceededOf(payment)) == Refunded(h, payment)
  {
    SumAgree(h.refunds, SucceededOf(payment), RefundOf(payment));
  }

  lemma RefundedCapture(h: History, after: History, id: Id, refund: Refund)
    requires WithinCapture(h) && id !in h.refunds && after.refunds == h.refunds[id := refund]
    requires after.payments == h.payments && refund.payment in h.payments && RefundFits(h, refund)
    requires refund.status == RefundPending <==> h.payments[refund.payment].provider == "alipay"
    ensures WithinCapture(after)
  {
    if refund.status != RefundPending {
      ManualAllSucceeded(h, refund.payment);
    }
    forall p | p in after.payments ensures Refunded(after, p) <= after.payments[p].amount {
      SumPut(h.refunds, RefundOf(p), id, refund);
    }
  }

  lemma ClearedCapture(h: History, after: History, id: Id, refund: Refund)
    requires WithinCapture(h) && id in h.refunds && after.refunds == h.refunds[id := refund]
    requires after.payments == h.payments && refund.status == RefundSucceeded
    requires refund.payment == h.refunds[id].payment && refund.amount == h.refunds[id].amount
    ensures WithinCapture(after)
  {
    forall p | p in after.payments ensures Refunded(after, p) <= after.payments[p].amount {
      SumPut(h.refunds, RefundOf(p), id, refund);
    }
  }

  // ---- steps and runs -----------------------------------------------------

  lemma ShapeOrders(h: History, after: History, shape: Shape, now: Instant)
    requires OrdersOk(h) && Amount(shape) && ShapeOk(h, shape, now) && Writes(h, after, SummaryOf(h, shape, now))
    ensures OrdersOk(after)
  {
    hide OrdersMove, PaidOnce, ToppedUp, WithinCapture, RefundFits, Gated, Fresh, PayerOf, RefundAccount, BalanceGate,
         BudgetGate, ReservedRequest, MeteredRequest, Moves, Micros, Pair, ClearingPair;
    match shape {
      case Capturing(id, payment, key) =>
        CapturedPaid(h, after, id, payment);
        CapturedToppedUp(h, after, id, payment, key);
        CapturedCapture(h, after, id, payment);
      case Refunding(id, refund, key) =>
        SamePaid(h, after);
        OtherToppedUp(h, after, [RefundPosting(RefundAccount(h, refund), id, refund, key)]);
        RefundedCapture(h, after, id, refund);
      case Clearing(id, refund) =>
        SamePaid(h, after);
        OtherToppedUp(h, after, [ClearPosting(RefundAccount(h, refund), id, refund.amount)]);
        ClearedCapture(h, after, id, refund);
      case _ =>
        SamePaid(h, after);
        OtherToppedUp(h, after, after.ledger[|h.ledger|..]);
        SameCapture(h, after);
    }
  }

  lemma StepOrders(h: History, op: Op, now: Instant)
    requires Good(h) && OrdersOk(h)
    ensures OrdersOk(Step(h, op, now))
  {
    hide RowsOk, InRange, AmountsOk, CatalogOk, ReviewsPoint, Step, ShapeOk, NoteOk, Files, Feeds, Shift, SummaryOf,
         Writes, Amount, OrdersOk;
    if Apart(op) {
      ApartStep(h, op, now);
      SameOrders(h, Step(h, op, now));
    } else {
      var shape, note := StepShape(h, op, now);
      SilentWrites(h, Step(h, op, now), SummaryOf(h, shape, now), note);
      ShapeOrders(h, Step(h, op, now), shape, now);
    }
  }

  lemma SameOrders(h: History, after: History)
    requires OrdersOk(h) && after.orders == h.orders && after.payments == h.payments
    requires after.refunds == h.refunds && after.ledger == h.ledger
    ensures OrdersOk(after)
  {
    hide PaidOnce, ToppedUp, WithinCapture;
    SamePaid(h, after);
    assert after.ledger == h.ledger + [];
    OtherToppedUp(h, after, []);
    SameCapture(h, after);
  }

  /** In every reachable state an order is paid exactly when one payment for its
      full amount exists, each payment has exactly one top-up posting, and the
      refunds of a payment, pending ones included, stay within it. */
  lemma {:induction false} OrdersArePaidOnce(ops: seq<Timed>)
    ensures OrdersOk(Run(EMPTY_HISTORY, ops))
  {
    hide Step, Good, OrdersOk;
    if ops == [] {
      EmptyOrders();
    } else {
      OrdersArePaidOnce(ops[..|ops| - 1]);
      RunSound(ops[..|ops| - 1]);
      StepOrders(Run(EMPTY_HISTORY, ops[..|ops| - 1]), ops[|ops| - 1].op, ops[|ops| - 1].now);
    }
  }

  lemma EmptyOrders()
    ensures OrdersOk(EMPTY_HISTORY)
  {
  }
}
