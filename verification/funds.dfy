/** Prepaid accounts: while enforcement stays on, no operation takes an account
    below what it has promised, and settlement is never short of money. */
module Funds {
  import opened Prelude
  import opened Rows
  import opened Totals
  import opened Outbox
  import opened Ledger
  import opened Protocol
  import opened PaymentRules
  import opened CatalogService
  import opened Effects
  import opened Runs
  import opened Shapes
  import opened Steps
  import opened Soundness

  /** Enforcement is on and the balance covers every hold. */
  ghost predicate Covered(h: History, account: Id) {
    account in h.accounts && h.accounts[account].enforceBalance && 0 <= Held(h, account) <= Balance(h, account)
  }

  lemma ShapeKeepsCover(h: History, after: History, shape: Shape, now: Instant, account: Id)
    requires Covered(h, account) && Amount(shape) && ShapeOk(h, shape, now)
    requires Shift(h, after, SummaryOf(h, shape, now).drift)
    requires after.accounts == h.accounts && 0 <= Held(after, account)
    ensures Covered(after, account)
  {
    hide Balance, Held, KeyHeld, Spent, RefundFits, Fresh, ReservedRequest, MeteredRequest, Tells, BudgetGate;
    var d := SummaryOf(h, shape, now).drift;
    if account == d.account {
      DriftCovered(h, shape, now);
    }
  }

  /** What each operation checked, or released, pays for what it takes. */
  lemma DriftCovered(h: History, shape: Shape, now: Instant)
    requires Amount(shape) && ShapeOk(h, shape, now)
    requires var s := SummaryOf(h, shape, now); s.account == s.drift.account && Covered(h, s.account)
    ensures var d := SummaryOf(h, shape, now).drift;
            Held(h, d.account) + d.held <= Balance(h, d.account) + d.balance
  {
    hide Balance, Held, KeyHeld, Spent, RefundFits, Fresh, ReservedRequest, MeteredRequest, Tells, BudgetGate,
         PayerOf, RefundAccount;
  }

  /** The steps that can take the cover away are those that switch enforcement off. */
  predicate SwitchesOff(op: Op, account: Id) {
    op == DoSetPolicy(account, false)
  }

  lemma StepKeepsCover(h: History, op: Op, now: Instant, account: Id)
    requires Good(h) && Covered(h, account) && !SwitchesOff(op, account)
    ensures Covered(Step(h, op, now), account)
  {
    hide RowsOk, AmountsOk, CatalogOk, Balance, Held, KeyHeld, Spent, ShapeOk, SummaryOf, Feeds, Writes, Amount, Shift;
    StepSound(h, op, now);
    if Apart(op) {
      ApartStep(h, op, now);
      NothingMoves(h, Step(h, op, now), STILL);
      StillCovered(h, op, now, account);
    } else {
      hide Step;
      var shape, note := StepShape(h, op, now);
      StillFits(Step(h, op, now), account, "", 0);
      ShapeKeepsCover(h, Step(h, op, now), shape, now, account);
    }
  }

  lemma StillCovered(h: History, op: Op, now: Instant, account: Id)
    requires Apart(op) && Covered(h, account) && !SwitchesOff(op, account)
    requires Shift(h, Step(h, op, now), STILL)
    ensures Covered(Step(h, op, now), account)
  {
    hide Balance, Held, KeyHeld, Spent, Put, Bootstrap;
    if Works(op) {
      hide Step;
      ApartStep(h, op, now);
    }
  }

  ghost predicate StaysOn(ops: seq<Timed>, account: Id) {
    forall i :: 0 <= i < |ops| ==> !SwitchesOff(ops[i].op, account)
  }

  /** From a covered account, over any run that never switches its enforcement
      off: balance >= held >= 0 throughout. */
  lemma {:induction false} PrepaidStaysCovered(h: History, ops: seq<Timed>, account: Id)
    requires Good(h) && Covered(h, account) && StaysOn(ops, account)
    ensures Covered(Run(h, ops), account)
  {
    hide Good, Covered, Step;
    if ops != [] {
      var before := ops[..|ops| - 1];
      assert forall i :: 0 <= i < |before| ==> before[i] == ops[i];
      PrepaidStaysCovered(h, before, account);
      RunGood(h, before);
      StepKeepsCover(Run(h, before), ops[|ops| - 1].op, ops[|ops| - 1].now, account);
    }
  }

  // ---- settlement ---------------------------------------------------------

  /** A dispatched reservation and usage within its bounds. */
  ghost predicate Settleable(h: History, id: Id, q: SettleRequest) {
    id in h.reservations && SettleRequestOk(q) && SettlesWithin(h.reservations[id], q)
  }

  function Price(row: Reservation, q: SettleRequest): I64 {
    match UsageCost(row.price, q.inputTokens, q.outputTokens)
    case Some(amount) => amount
    case None => 0
  }

  /** The hold it gives back does not pay for it. */
  ghost predicate Short(h: History, row: Reservation, amount: I64) {
    && 0 < amount
    && row.spec.project in h.accounts && h.accounts[row.spec.project].enforceBalance
    && !Affords(Balance(h, row.spec.project), Held(h, row.spec.project) - row.reserved, amount)
  }

  ghost predicate Meterable(h: History, row: Reservation, amount: I64, now: Instant) {
    UsageId(row.spec.id) !in h.usage && Spent(h, row.spec.key, now.month) + amount <= I64_MAX
  }

  /** The posting itself: its overflow check, its key, and room in the outbox. */
  ghost predicate Bookable(h: History, row: Reservation, amount: I64) {
    && (0 < amount ==>
          && Fits(Balance(h, row.spec.project) - amount)
          && !KeyUsed(h, SettlementKey(row.spec.id)))
    && LastSequence(Log(h, row.spec.project)) + (if 0 < amount then 2 else 1) <= I64_MAX
  }

  /** The price of usage within the bounds is at most the amount held for it. */
  lemma PriceWithinHold(h: History, id: Id, q: SettleRequest)
    requires RowsOk(h) && Settleable(h, id, q)
    ensures UsageCost(h.reservations[id].price, q.inputTokens, q.outputTokens) == Some(Price(h.reservations[id], q))
    ensures 0 <= Price(h.reservations[id], q) <= h.reservations[id].reserved
  {
    hide RowsOk, UsageCost;
    var row := h.reservations[id];
    FrozenTerms(h, id);
    CostMonotone(row.price, q.inputTokens, q.outputTokens, row.spec.inputLimit, row.spec.outputLimit);
  }

  /** Exactly when settlement commits, and exactly when it is refused for funds. */
  lemma SettlementDecided(h: History, id: Id, q: SettleRequest, now: Instant)
    requires Sound(h) && Settleable(h, id, q)
    ensures
      var row := h.reservations[id];
      var amount := Price(row, q);
      var r := Settle(h, row.spec.project, id, q, now);
      && (r.Ok? <==> Meterable(h, row, amount, now) && !Short(h, row, amount) && Bookable(h, row, amount))
      && (r == Err(InsufficientFunds) <==> Meterable(h, row, amount, now) && Short(h, row, amount))
  {
    hide RowsOk, InRange, AmountsOk, Charge, UsageCost, Short, Meterable, Bookable, SettleRequestOk;
    var row := h.reservations[id];
    FrozenTerms(h, id);
    PriceWithinHold(h, id, q);
    HasAccount(h, id);
    ChargeDecided(h, row, q, Price(row, q), now);
  }

  lemma HasAccount(h: History, id: Id)
    requires RowsOk(h) && id in h.reservations
    ensures h.reservations[id].spec.project in h.accounts
  {
  }

  lemma ChargeDecided(h: History, row: Reservation, q: SettleRequest, amount: I64, now: Instant)
    requires Sound(h) && row.spec.id in h.reservations && h.reservations[row.spec.id] == row
    requires row.state == Dispatched && 0 <= amount && row.spec.project in h.accounts
    ensures
      var r := Charge(h, row, q, amount, now);
      && (r.Ok? <==> Meterable(h, row, amount, now) && !Short(h, row, amount) && Bookable(h, row, amount))
      && (r == Err(InsufficientFunds) <==> Meterable(h, row, amount, now) && Short(h, row, amount))
  {
    hide RowsOk, InRange, AmountsOk, PostUsage, Balance, Held, KeyHeld, Spent, Short, Bookable, HoldRoom, Metered;
    GivenUpRoom(h, SettledRow(row, q, amount));
    StillFits(h, row.spec.project, row.spec.key, now.month);
    if Meterable(h, row, amount, now) {
      PostingDecided(h, row, q, amount, now);
    }
  }

  /** A debit and one more event: the gate, the new balance, the key and room for
      both events decide. */
  lemma DebitDecided(h: History, account: Id, reference: Reference, key: string, debit: I64, e: Event, now: Instant)
    requires 0 < debit && account in h.accounts
    ensures
      var short := h.accounts[account].enforceBalance && !Affords(Balance(h, account), Held(h, account), debit);
      var r := Post(h, account, UsageCharge, reference, key, -debit, UsageRevenue, now);
      && (r == Err(InsufficientFunds) <==> short)
      && (r.Ok? && Append(r.value, account, e, now).Ok?
          <==> !short && Fits(Balance(h, account) - debit) && !KeyUsed(h, key)
               && LastSequence(Log(h, account)) + 2 <= I64_MAX)
  {
    hide Balance, Held, Affords, KeyUsed;
  }

  lemma MeteredTotals(h: History, row: Reservation, q: SettleRequest, amount: I64, now: Instant)
    requires RowsOk(h) && row.spec.id in h.reservations && h.reservations[row.spec.id] == row
    requires row.state == Dispatched && UsageId(row.spec.id) !in h.usage
    ensures
      var metered := Metered(h, row, q, amount, now);
      && Balance(metered, row.spec.project) == Balance(h, row.spec.project)
      && Held(metered, row.spec.project) == Held(h, row.spec.project) - row.reserved
      && metered.accounts == h.accounts && metered.ledger == h.ledger && metered.log == h.log
  {
    hide RowsOk, Balance, Held, KeyHeld, Spent, UsageId;
    MeteredMoves(h, row, q, amount, now);
  }

  /** Posting and final event, after the hold is gone. */
  lemma PostingDecided(h: History, row: Reservation, q: SettleRequest, amount: I64, now: Instant)
    requires RowsOk(h) && row.spec.id in h.reservations && h.reservations[row.spec.id] == row
    requires row.state == Dispatched && 0 <= amount && row.spec.project in h.accounts
    requires Meterable(h, row, amount, now)
    ensures
      var e := ReservationSettled(row.spec.id, UsageId(row.spec.id), amount);
      var r := PostUsage(Metered(h, row, q, amount, now), row.spec.project, UsageId(row.spec.id),
                         SettlementKey(row.spec.id), amount, now);
      && (r == Err(InsufficientFunds) <==> Short(h, row, amount))
      && (r.Ok? && Append(r.value, row.spec.project, e, now).Ok? <==> !Short(h, row, amount) && Bookable(h, row, amount))
      && (r.Ok? && Append(r.value, row.spec.project, e, now).Err? ==>
            Append(r.value, row.spec.project, e, now).error == Invalid)
  {
    hide RowsOk, Balance, Held, Spent, SettlementKey, UsageId, Metered, Post, Append, KeyUsed, Affords, LastSequence;
    var metered := Metered(h, row, q, amount, now);
    var e := ReservationSettled(row.spec.id, UsageId(row.spec.id), amount);
    MeteredTotals(h, row, q, amount, now);
    KeysAlike(h, metered, SettlementKey(row.spec.id));
    if 0 < amount {
      DebitDecided(metered, row.spec.project, UsageRef(UsageId(row.spec.id)), SettlementKey(row.spec.id), amount, e, now);
    }
    var r := PostUsage(metered, row.spec.project, UsageId(row.spec.id), SettlementKey(row.spec.id), amount, now);
    if r.Ok? {
      AppendFails(r.value, row.spec.project, e, now);
    }
  }

  /** An event is refused only when the sequences of its account are used up. */
  ghost predicate AppendError(h: History, account: Id, e: Event, now: Instant) {
    (Append(h, account, e, now).Ok? <==> LastSequence(Log(h, account)) + 1 <= I64_MAX)
    && (Append(h, account, e, now).Err? ==> Append(h, account, e, now).error == Invalid)
  }

  lemma AppendFails(h: History, account: Id, e: Event, now: Instant)
    ensures AppendError(h, account, e, now)
  {
    hide LastSequence;
  }

  lemma KeysAlike(h1: History, h2: History, key: string)
    requires h1.ledger == h2.ledger
    ensures KeyUsed(h1, key) == KeyUsed(h2, key)
  {
  }

  /** A covered account never refuses a settlement for lack of funds: the price
      is at most the hold that is released with it. */
  lemma CoveredSettlementIsPaid(h: History, id: Id, q: SettleRequest, now: Instant)
    requires Sound(h) && Settleable(h, id, q) && Covered(h, h.reservations[id].spec.project)
    ensures Settle(h, h.reservations[id].spec.project, id, q, now) != Err(InsufficientFunds)
  {
    hide RowsOk, InRange, Settle, Balance, Held, Price;
    SettlementDecided(h, id, q, now);
    PriceWithinHold(h, id, q);
    StillFits(h, h.reservations[id].spec.project, "", 0);
    HoldCounted(h, id);
  }

  /** Both together: a prepaid account that is covered and stays prepaid settles
      whatever it dispatched, at any later time, without being short of money. */
  lemma PrepaidRunsSettle(h: History, ops: seq<Timed>, account: Id, id: Id, q: SettleRequest, now: Instant)
    requires Good(h) && Covered(h, account) && StaysOn(ops, account)
    requires Settleable(Run(h, ops), id, q) && Run(h, ops).reservations[id].spec.project == account
    ensures Settle(Run(h, ops), account, id, q, now) != Err(InsufficientFunds)
  {
    hide Run, Covered, Settleable, Settle, Sound;
    PrepaidStaysCovered(h, ops, account);
    RunGood(h, ops);
    CoveredSettlementIsPaid(Run(h, ops), id, q, now);
  }
}
