/** Orders, captured payments and verified provider notifications. */
module PaymentService {
  import opened Prelude
  import opened Sums
  import opened Rows
  import opened Totals
  import opened Outbox
  import opened Ledger
  import opened PaymentRules
  import opened Effects
  import opened Projection
  import opened Billing

  /** Posts against a working copy whose other rows are already written. */
  method PostOn(tx: Transaction, account: Id, kind: PostingKind, reference: Reference, idempotencyKey: string,
                delta: I64, counter: Book, now: Instant) returns (r: Result<()>)
    requires Sound(tx.h) && Tracks(tx.c, tx.h, STILL) && counter != CustomerBalance
    modifies tx
    ensures match Post(old(tx.h), account, kind, reference, idempotencyKey, delta, counter, now)
            case Ok(h) => r == Ok(()) && tx.h == h && Tracks(tx.c, h, STILL) && Sound(h)
            case Err(error) => r == Err(error)
  {
    hide Tracks, InRange, RowsOk, Post;
    ghost var d := At(account, "", 0);
    ghost var before := tx.h;
    Rebase(tx.c, tx.h, STILL, d);
    StillFits(tx.h, account, "", 0);
    var _ :- InsertBalancedEntries(tx, account, kind, reference, idempotencyKey, delta, counter, now, d);
    Rebase(tx.c, tx.h, d, STILL);
    PostSound(before, account, kind, reference, idempotencyKey, delta, counter, now);
    return Ok(());
  }

  /** Rows without holds, usage or postings leave counters and totals alone. */
  lemma SideRows(c: Cache, before: History, after: History)
    requires Sound(before) && Tracks(c, before, STILL) && AmountsOk(after)
    requires after.reservations == before.reservations && after.usage == before.usage
    requires after.ledger == before.ledger && after.catalog == before.catalog
    requires after.keys == before.keys && before.accounts.Keys <= after.accounts.Keys
    ensures Sound(after) && Tracks(c, after, STILL)
  {
    hide Tracks, InRange, RowsOk, AmountsOk;
    SoundFrame(before, after);
    TracksOn(c, before, after, STILL);
  }

  // ---- orders and checkouts -----------------------------------------------

  method PlaceOrder(repo: Repository, id: Id, tenant: Id, project: Id, amount: I64) returns (r: Result<Order>)
    requires repo.Valid()
    modifies repo
    ensures repo.Valid()
    ensures Committed(CreateOrder(old(repo.history), id, tenant, project, amount),
                      old(repo.history), repo.history, r)
    ensures repo.cache == old(repo.cache)
  {
    hide Tracks, InRange, RowsOk;
    if amount <= 0 {
      return Err(Invalid);
    }
    if project !in repo.history.accounts {
      return Err(NotFound);
    }
    if repo.history.accounts[project].tenant != tenant {
      return Err(Forbidden);
    }
    if id in repo.history.orders {
      return Err(Conflict);
    }
    var row := Order(tenant, project, amount, Pending);
    ghost var before := repo.history;
    repo.history := repo.history.(orders := repo.history.orders[id := row]);
    SideRows(repo.cache, before, repo.history);
    return Ok(row);
  }

  method AlipayCheckout(repo: Repository, order: Id, provider: Provider) returns (r: Result<Checkout>)
    requires repo.Valid()
    modifies repo
    ensures repo.Valid()
    ensures Committed(OpenCheckout(old(repo.history), order, provider), old(repo.history), repo.history, r)
    ensures repo.cache == old(repo.cache)
  {
    hide Tracks, InRange, RowsOk;
    if order !in repo.history.orders {
      return Err(NotFound);
    }
    if repo.history.orders[order].status != Pending {
      return Err(Conflict);
    }
    if !ProviderAmount(repo.history.orders[order].amount) {
      return Err(Invalid);
    }
    if order in repo.history.checkouts {
      var prior := repo.history.checkouts[order];
      if prior.profile != provider.profile {
        return Err(Conflict);
      }
      return Ok(prior);
    }
    var row := Checkout(provider.profile, provider.environment, Creating, None);
    ghost var before := repo.history;
    repo.history := repo.history.(checkouts := repo.history.checkouts[order := row]);
    SideRows(repo.cache, before, repo.history);
    return Ok(row);
  }

  /** Runs after the provider has answered; anything may have committed since. */
  method StoreCheckoutCode(repo: Repository, order: Id, code: string) returns (r: Result<Checkout>)
    requires repo.Valid()
    modifies repo
    ensures repo.Valid()
    ensures Committed(StoreCode(old(repo.history), order, code), old(repo.history), repo.history, r)
    ensures repo.cache == old(repo.cache)
  {
    hide Tracks, InRange, RowsOk;
    if order !in repo.history.orders || order !in repo.history.checkouts {
      return Err(NotFound);
    }
    var row := repo.history.checkouts[order];
    if row.state == Creating {
      row := row.(state := Offered);
    }
    row := row.(code := Some(code));
    ghost var before := repo.history;
    repo.history := repo.history.(checkouts := repo.history.checkouts[order := row]);
    SideRows(repo.cache, before, repo.history);
    return Ok(row);
  }

  // ---- capture ------------------------------------------------------------

  /** Payment row, paid order and top-up posting. */
  method CaptureOn(tx: Transaction, id: Id, payment: Payment, idempotencyKey: string, now: Instant)
    returns (r: Result<()>)
    requires Sound(tx.h) && Tracks(tx.c, tx.h, STILL)
    requires payment.order in tx.h.orders && payment.amount == tx.h.orders[payment.order].amount
    requires Fits(payment.amount * MICROS_PER_MINOR_UNIT)
    modifies tx
    ensures match Credit(Captured(old(tx.h), id, payment), old(tx.h).orders[payment.order].project, id,
                         payment.amount * MICROS_PER_MINOR_UNIT, idempotencyKey, now)
            case Ok(h) => r == Ok(()) && tx.h == h && Tracks(tx.c, h, STILL) && Sound(h)
            case Err(error) => r == Err(error)
  {
    hide Tracks, InRange, RowsOk, Post;
    ghost var before := tx.h;
    var order := tx.h.orders[payment.order];
    tx.h := tx.h.(payments := tx.h.payments[id := payment]);
    tx.h := tx.h.(orders := tx.h.orders[payment.order := order.(status := Paid)]);
    assert tx.h == Captured(before, id, payment);
    SideRows(tx.c, before, tx.h);
    r := PostOn(tx, order.project, TopUp, PaymentRef(id), idempotencyKey,
                payment.amount * MICROS_PER_MINOR_UNIT, CashClearing, now);
  }

  method CaptureOrderPayment(repo: Repository, order: Id, id: Id, provider: string, reference: string,
                             idempotencyKey: string, now: Instant) returns (r: Result<Payment>)
    requires repo.Valid()
    modifies repo
    ensures repo.Valid()
    ensures Committed(CapturePayment(old(repo.history), order, id, provider, reference, idempotencyKey, now),
                      old(repo.history), repo.history, r)
    ensures r.Err? ==> repo.cache == old(repo.cache)
  {
    hide Tracks, InRange, RowsOk, AmountsOk, Post, Credit;
    if !NonBlank(provider) || !NonBlank(reference) {
      return Err(Invalid);
    }
    if id in repo.history.payments {
      var existing := repo.history.payments[id];
      if existing.order == order && existing.provider == provider && existing.providerReference == reference {
        return Ok(existing);
      }
      return Err(Conflict);
    }
    var tx := new Transaction.Begin(repo);
    if order !in tx.h.orders {
      return Err(NotFound);
    }
    var row := tx.h.orders[order];
    if row.status != Pending {
      return Err(Conflict);
    }
    if row.project !in tx.h.accounts {
      return Err(NotFound);
    }
    if ReferenceUsed(tx.h, provider, reference) {
      return Err(Conflict);
    }
    var micros := CheckedMul(row.amount, MICROS_PER_MINOR_UNIT);
    if micros == None {
      return Err(Invalid);
    }
    var payment := Payment(order, provider, reference, row.amount);
    var _ :- CaptureOn(tx, id, payment, idempotencyKey, now);
    repo.Commit(tx);
    return Ok(payment);
  }

  // ---- provider notifications ---------------------------------------------

  method CreditTradeOn(tx: Transaction, provider: Provider, t: Trade, now: Instant) returns (r: Result<TradeOutcome>)
    requires Sound(tx.h) && Tracks(tx.c, tx.h, STILL)
    requires t.order in tx.h.orders && t.order in tx.h.checkouts
    modifies tx
    ensures Done(CreditTrade(old(tx.h), provider, t, now), tx.h, tx.c, STILL, r)
    ensures r.Ok? ==> Sound(tx.h)
  {
    hide Tracks, InRange, RowsOk, Post, Credit;
    var id := AlipayPaymentId(provider, t);
    var order := tx.h.orders[t.order];
    var checkout := tx.h.checkouts[t.order];
    if id in tx.h.payments {
      var existing := tx.h.payments[id];
      if existing.order != t.order || existing.amount != order.amount {
        return Err(Conflict);
      }
      return Ok(Credited(id, true));
    }
    if order.status != Pending {
      return Err(Conflict);
    }
    if order.project !in tx.h.accounts {
      return Err(NotFound);
    }
    if ReferenceUsed(tx.h, "alipay", t.tradeId) {
      return Err(Database);
    }
    var micros := CheckedMul(order.amount, MICROS_PER_MINOR_UNIT);
    if micros == None {
      return Err(Invalid);
    }
    var _ :- CaptureOn(tx, id, Payment(t.order, "alipay", t.tradeId, order.amount), "alipay:" + id, now);
    ghost var posted := tx.h;
    tx.h := tx.h.(checkouts := tx.h.checkouts[t.order := checkout.(state := CheckedOut)]);
    SideRows(tx.c, posted, tx.h);
    return Ok(Credited(id, false));
  }

  /** Retains the notification, once. */
  method WitnessTrade(tx: Transaction, provider: Provider, t: Trade)
    requires Sound(tx.h) && Tracks(tx.c, tx.h, STILL)
    modifies tx
    ensures tx.h == Witness(old(tx.h), provider, t) && tx.c == old(tx.c)
    ensures Sound(tx.h) && Tracks(tx.c, tx.h, STILL)
  {
    hide Tracks, InRange, RowsOk;
    ghost var before := tx.h;
    var id := ReceiptId(provider, t);
    if id !in tx.h.receipts {
      tx.h := tx.h.(receipts := tx.h.receipts[id := Receipt(t.order, provider.profile, t.tradeId, t.state, t.amount)]);
    }
    SideRows(tx.c, before, tx.h);
  }

  method CloseUnpaid(tx: Transaction, t: Trade)
    requires Sound(tx.h) && Tracks(tx.c, tx.h, STILL)
    requires t.order in tx.h.orders && t.order in tx.h.checkouts
    modifies tx
    ensures tx.h == Unpaid(old(tx.h), t) && tx.c == old(tx.c)
    ensures Sound(tx.h) && Tracks(tx.c, tx.h, STILL)
  {
    hide Tracks, InRange, RowsOk;
    ghost var before := tx.h;
    if TradeClosed(t) && tx.h.orders[t.order].status == Pending {
      tx.h := tx.h.(checkouts := tx.h.checkouts[t.order := tx.h.checkouts[t.order].(state := Closed)]);
    }
    SideRows(tx.c, before, tx.h);
  }

  method AcceptAlipayTrade(repo: Repository, provider: Provider, t: Trade, now: Instant)
    returns (r: Result<TradeOutcome>)
    requires repo.Valid()
    modifies repo
    ensures repo.Valid()
    ensures Committed(AcceptTrade(old(repo.history), provider, t, now), old(repo.history), repo.history, r)
    ensures r.Err? ==> repo.cache == old(repo.cache)
  {
    hide Tracks, InRange, RowsOk, AmountsOk, CreditTrade, TradeMatches, Unpaid, TradePaid;
    var tx := new Transaction.Begin(repo);
    if t.order !in tx.h.orders {
      return Err(NotFound);
    }
    if t.order !in tx.h.checkouts {
      return Err(Conflict);
    }
    if !TradeMatches(tx.h, provider, t) {
      return Err(Conflict);
    }
    WitnessTrade(tx, provider, t);
    if !InProduction(provider) {
      repo.Commit(tx);
      return Ok(Observed);
    }
    if !TradePaid(t) {
      CloseUnpaid(tx, t);
      repo.Commit(tx);
      return Ok(Observed);
    }
    var outcome :- CreditTradeOn(tx, provider, t, now);
    repo.Commit(tx);
    return Ok(outcome);
  }
}

/** Manual refunds, and provider refunds in two durable steps. */
module RefundService {
  import opened Prelude
  import opened Sums
  import opened Rows
  import opened Totals
  import opened Outbox
  import opened Ledger
  import opened PaymentRules
  import opened Effects
  import opened Projection
  import opened Billing
  import opened PaymentService

  /** The refund row first, then the debit that pays for it. */
  method DebitRefund(tx: Transaction, id: Id, row: Refund, project: Id, kind: PostingKind, idempotencyKey: string,
                     debit: I64, counter: Book, now: Instant) returns (r: Result<Refund>)
    requires Sound(tx.h) && Tracks(tx.c, tx.h, STILL) && counter != CustomerBalance
    requires 0 < row.amount && 0 <= debit
    modifies tx
    ensures match Post(old(tx.h).(refunds := old(tx.h).refunds[id := row]), project, kind, RefundRef(id),
                       idempotencyKey, -debit, counter, now)
            case Ok(h) => r == Ok(row) && tx.h == h && Tracks(tx.c, h, STILL) && Sound(h)
            case Err(error) => r == Err(error)
  {
    hide Tracks, InRange, RowsOk, Post;
    ghost var before := tx.h;
    tx.h := tx.h.(refunds := tx.h.refunds[id := row]);
    SideRows(tx.c, before, tx.h);
    var _ :- PostOn(tx, project, kind, RefundRef(id), idempotencyKey, -debit, counter, now);
    return Ok(row);
  }

  method CreateManualRefund(repo: Repository, q: RefundRequest, idempotencyKey: string, now: Instant)
    returns (r: Result<Refund>)
    requires repo.Valid()
    modifies repo
    ensures repo.Valid()
    ensures Committed(CreateRefund(old(repo.history), q, idempotencyKey, now), old(repo.history), repo.history, r)
    ensures r.Err? ==> repo.cache == old(repo.cache)
  {
    hide Tracks, InRange, RowsOk, AmountsOk, Post, Sum;
    if q.amount <= 0 || !NonBlank(q.reason) {
      return Err(Invalid);
    }
    if q.id in repo.history.refunds {
      if SameRefund(repo.history.refunds[q.id], q) {
        return Ok(repo.history.refunds[q.id]);
      }
      return Err(Conflict);
    }
    var tx := new Transaction.Begin(repo);
    if q.payment !in tx.h.payments {
      return Err(NotFound);
    }
    var payment := tx.h.payments[q.payment];
    if payment.provider == "alipay" {
      return Err(Invalid);
    }
    if payment.amount < q.amount {
      return Err(Invalid);
    }
    if payment.order !in tx.h.orders {
      return Err(NotFound);
    }
    var project := tx.h.orders[payment.order].project;
    var already := Total(tx.h.refunds, SucceededOf(q.payment));
    if payment.amount < Min(already + q.amount, I64_MAX) {
      return Err(Invalid);
    }
    if project !in tx.h.accounts {
      return Err(NotFound);
    }
    var micros := CheckedMul(q.amount, MICROS_PER_MINOR_UNIT);
    if micros == None {
      return Err(Invalid);
    }
    var row := Refund(q.payment, q.amount, q.reason, RefundSucceeded, None);
    var done :- DebitRefund(tx, q.id, row, project, RefundPosted, idempotencyKey, micros.value, CashClearing, now);
    repo.Commit(tx);
    return Ok(done);
  }

  method HoldRefundOn(tx: Transaction, q: RefundRequest, project: Id, now: Instant) returns (r: Result<Refund>)
    requires Sound(tx.h) && Tracks(tx.c, tx.h, STILL) && ProviderAmount(q.amount)
    modifies tx
    ensures Done(HoldRefund(old(tx.h), q, project, now), tx.h, tx.c, STILL, r)
    ensures r.Ok? ==> Sound(tx.h)
  {
    hide Tracks, RowsOk, AmountsOk, Post, Balance, Held;
    var account := AccountRow(tx, project, STILL);
    AccountIs(tx.c, tx.h, project);
    var debit: I64 := q.amount * MICROS_PER_MINOR_UNIT;
    var available := CheckedSub(account.balance, account.held);
    if available == None || available.value < debit {
      return Err(InsufficientFunds);
    }
    var row := Refund(q.payment, q.amount, q.reason, RefundPending, None);
    r := DebitRefund(tx, q.id, row, project, RefundHeld, "refund-hold:" + q.id, debit, RefundClearing, now);
  }

  lemma AccountIs(c: Cache, h: History, account: Id)
    requires Tracks(c, h, STILL) && account in c.balances
    ensures c.balances[account].balance == Balance(h, account) && c.balances[account].held == Held(h, account)
  {
  }

  method PrepareAlipayRefund(repo: Repository, q: RefundRequest, provider: Provider, now: Instant)
    returns (r: Result<Refund>)
    requires repo.Valid()
    modifies repo
    ensures repo.Valid()
    ensures Committed(PrepareRefund(old(repo.history), q, provider, now), old(repo.history), repo.history, r)
    ensures r.Err? ==> repo.cache == old(repo.cache)
  {
    hide Tracks, InRange, RowsOk, AmountsOk, HoldRefund, Sum;
    if !RefundRequestOk(q) {
      return Err(Invalid);
    }
    var tx := new Transaction.Begin(repo);
    var order :- Refundable(tx.h, q.payment, provider);
    if q.id in tx.h.refunds {
      if SameRefund(tx.h.refunds[q.id], q) {
        return Ok(tx.h.refunds[q.id]);
      }
      return Err(Conflict);
    }
    var prior := Total(tx.h.refunds, RefundOf(q.payment));
    if tx.h.payments[q.payment].amount < prior + q.amount {
      return Err(Conflict);
    }
    if order.project !in tx.h.accounts {
      return Err(NotFound);
    }
    var done :- HoldRefundOn(tx, q, order.project, now);
    repo.Commit(tx);
    return Ok(done);
  }

  /** A posting with no customer entry moves no balance. */
  lemma ClearingShift(h: History, posting: Posting, account: Id, micros: I64, after: History)
    requires 0 <= micros && posting.entries == ClearingPair(account, micros)
    requires after.ledger == h.ledger + [posting]
    requires after.reservations == h.reservations && after.usage == h.usage
    ensures Shift(h, after, STILL)
    ensures forall a: Id, b: Book ::
      Booked(after, a, b) == Booked(h, a, b)
        + (if a != account then 0 else if b == RefundClearing then -(micros as int)
           else if b == CashClearing then micros else 0)
  {
    var first, second := Entry(account, RefundClearing, -micros), Entry(account, CashClearing, micros);
    assert [first, second][1..] == [second];
    assert [second][1..] == [];
    forall a: Id, b: Book
      ensures Booked(after, a, b) == Booked(h, a, b) + Entries(posting.entries, a, b)
      ensures Entries(posting.entries, a, b)
           == (if a != account then 0 else if b == RefundClearing then -(micros as int)
               else if b == CashClearing then micros else 0)
    {
      SumSeqPush(h.ledger, posting, PostedTo(a, b));
      assert Entries([second], a, b) == EntryIn(a, b)(second);
    }
  }

  lemma ClearRefundSound(h: History, proof: RefundProof, provider: Provider, project: Id, now: Instant)
    requires Sound(h) && proof.request in h.refunds && ClearRefund(h, proof, provider, project, now).Ok?
    ensures
      var after := ClearRefund(h, proof, provider, project, now).value.0;
      && Sound(after) && Shift(h, after, STILL)
  {
    hide Sum, SumSeq, Shift, InRange, KeyUsed, RefundReceipt, SettleRefundKey, UsageCost, PriceOk;
    var after := ClearRefund(h, proof, provider, project, now).value.0;
    var micros := h.refunds[proof.request].amount * MICROS_PER_MINOR_UNIT;
    ClearingShift(h, after.ledger[|h.ledger|], project, micros, after);
    StillFits(h, "", "", 0);
    ShiftInRange(h, after, STILL);
  }

  /** Receipt, clearing posting, event and the refund's final state. */
  method ClearRefundOn(tx: Transaction, proof: RefundProof, provider: Provider, project: Id, now: Instant)
    returns (r: Result<Refund>)
    requires Sound(tx.h) && Tracks(tx.c, tx.h, STILL) && proof.request in tx.h.refunds
    modifies tx
    ensures tx.c == old(tx.c)
    ensures Done(ClearRefund(old(tx.h), proof, provider, project, now), tx.h, tx.c, STILL, r)
    ensures r.Ok? ==> Sound(tx.h)
  {
    hide Tracks, InRange, RowsOk, Shift, RefundReceipt, SettleRefundKey, LastSequence, Schedule, ClearingPair;
    ghost var before := tx.h;
    var row := tx.h.refunds[proof.request];
    var receipt := Receipt(proof.order, provider.profile, proof.tradeId, "REFUND_SUCCESS", row.amount);
    if RefundReceipt(proof) in tx.h.receipts {
      return Err(Database);
    }
    tx.h := tx.h.(receipts := tx.h.receipts[RefundReceipt(proof) := receipt]);
    if KeyUsed(tx.h, SettleRefundKey(proof.request)) {
      return Err(Database);
    }
    var micros := CheckedMul(row.amount, MICROS_PER_MINOR_UNIT);
    if micros == None {
      return Err(Invalid);
    }
    var id := |tx.h.ledger|;
    var posting := Posting(RefundSettled, RefundRef(proof.request), SettleRefundKey(proof.request),
                           ClearingPair(project, micros.value));
    tx.h := tx.h.(ledger := tx.h.ledger + [posting]);
    var _ :- AppendEvent(tx, project, LedgerPosted(id, RefundSettled, RefundRef(proof.request), 0), now);
    var done := row.(status := RefundSucceeded, providerReference := Some(proof.tradeId));
    tx.h := tx.h.(refunds := tx.h.refunds[proof.request := done]);
    ClearRefundSound(before, proof, provider, project, now);
    Settles(tx.c, before, tx.h, STILL, STILL);
    return Ok(done);
  }

  method CompleteAlipayRefund(repo: Repository, proof: RefundProof, provider: Provider, now: Instant)
    returns (r: Result<Refund>)
    requires repo.Valid()
    modifies repo
    ensures repo.Valid()
    ensures Committed(CompleteRefund(old(repo.history), proof, provider, now), old(repo.history), repo.history, r)
    ensures repo.cache == old(repo.cache)
  {
    hide Tracks, InRange, RowsOk, AmountsOk, ProofMatches, ClearRefund;
    var tx := new Transaction.Begin(repo);
    if proof.request !in tx.h.refunds {
      return Err(NotFound);
    }
    var row := tx.h.refunds[proof.request];
    if row.payment !in tx.h.payments {
      return Err(NotFound);
    }
    var payment := tx.h.payments[row.payment];
    if payment.order !in tx.h.orders || payment.order !in tx.h.checkouts {
      return Err(NotFound);
    }
    var order := tx.h.orders[payment.order];
    if !ProofMatches(tx.h, proof, provider) {
      return Err(Conflict);
    }
    if row.status == RefundSucceeded {
      return Ok(row);
    }
    if order.project !in tx.h.accounts {
      return Err(NotFound);
    }
    var done :- ClearRefundOn(tx, proof, provider, order.project, now);
    repo.Commit(tx);
    return Ok(done);
  }
}
