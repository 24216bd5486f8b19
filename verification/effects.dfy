/** What each committed protocol step does to the totals, and that it leaves
    the source records sound. */
module Effects {
  import opened Prelude
  import opened Sums
  import opened Rows
  import opened Totals
  import opened Outbox
  import opened Ledger
  import opened Protocol

  lemma ShiftInRange(before: History, after: History, d: Drift)
    requires InRange(before) && Shift(before, after, d)
    requires Fits(Balance(before, d.account) + d.balance)
    requires 0 <= Held(before, d.account) + d.held <= I64_MAX
    requires 0 <= KeyHeld(before, d.key) + d.keyHeld <= I64_MAX
    requires 0 <= Spent(before, d.key, d.month) + d.spent <= I64_MAX
    ensures InRange(after)
  {
  }

  /** A rewrite moves both holds by the difference of what the rows hold. */
  lemma RewriteMoves(h: History, row: Reservation, e: Event, now: Instant, month: int)
    requires row.spec.id in h.reservations ==> h.reservations[row.spec.id].spec == row.spec
    ensures Rewrite(h, row, e, now).Ok? ==>
      var was := if row.spec.id in h.reservations then HeldByKey(row.spec.key)(h.reservations[row.spec.id]) else 0;
      var delta := HeldByKey(row.spec.key)(row) - was;
      Shift(h, Rewrite(h, row, e, now).value.0,
            Drift(row.spec.project, 0, delta, row.spec.key, delta, month, 0))
  {
    if Rewrite(h, row, e, now).Ok? {
      ReservationShift(h, row.spec.id, row, Rewrite(h, row, e, now).value.0, month);
    }
  }

  /** A posting moves the customer's balance and its counter account, nothing else. */
  lemma PostMoves(h: History, account: Id, kind: PostingKind, reference: Reference, idempotencyKey: string,
                  delta: I64, counter: Book, now: Instant, key: Id, month: int)
    requires counter != CustomerBalance
    requires Post(h, account, kind, reference, idempotencyKey, delta, counter, now).Ok?
    ensures
      var after := Post(h, account, kind, reference, idempotencyKey, delta, counter, now).value;
      && Shift(h, after, Drift(account, delta, 0, key, 0, month, 0))
      && (forall a: Id, b: Book ::
            Booked(after, a, b) == Booked(h, a, b)
              + (if a != account then 0 else if b == CustomerBalance then delta
                 else if b == counter then -(delta as int) else 0))
  {
    var after := Post(h, account, kind, reference, idempotencyKey, delta, counter, now).value;
    PostingShift(h, Posting(kind, reference, idempotencyKey, Pair(account, delta, counter)),
                 account, delta, counter, after, key, month);
  }

  lemma PostUsageMoves(h: History, project: Id, usageId: Id, idempotencyKey: string, amount: I64, now: Instant,
                       key: Id, month: int)
    requires 0 <= amount && PostUsage(h, project, usageId, idempotencyKey, amount, now).Ok?
    ensures
      var after := PostUsage(h, project, usageId, idempotencyKey, amount, now).value;
      && Shift(h, after, Drift(project, -(amount as int), 0, key, 0, month, 0))
      && (forall a: Id, b: Book ::
            Booked(after, a, b) == Booked(h, a, b)
              + (if a != project then 0 else if b == CustomerBalance then -(amount as int)
                 else if b == UsageRevenue then amount else 0))
  {
    hide Sum, SumSeq;
    if 0 < amount {
      PostMoves(h, project, UsageCharge, UsageRef(usageId), idempotencyKey, -amount, UsageRevenue, now, key, month);
    }
  }

  // ---- soundness ----------------------------------------------------------

  /** Price times tokens grows with both token counts. */
  lemma CostMonotone(m: Model, input: I64, output: I64, inputLimit: I64, outputLimit: I64)
    requires PriceOk(m) && 0 <= input <= inputLimit && 0 <= output <= outputLimit
    requires UsageCost(m, inputLimit, outputLimit).Some?
    ensures UsageCost(m, input, output).Some?
    ensures 0 <= UsageCost(m, input, output).value <= UsageCost(m, inputLimit, outputLimit).value
  {
    Products(input, inputLimit, m.inputPrice);
    Products(output, outputLimit, m.outputPrice);
  }

  lemma Products(x: int, bound: int, price: int)
    requires 0 <= x <= bound && 0 <= price
    ensures 0 <= x * price <= bound * price
  {
    assert bound * price - x * price == (bound - x) * price;
  }

  lemma CostNonnegative(m: Model, input: I64, output: I64)
    requires PriceOk(m) && UsageCost(m, input, output).Some?
    ensures 0 <= UsageCost(m, input, output).value
  {
    Products(0, input, m.inputPrice);
    Products(0, output, m.outputPrice);
  }

  lemma ReserveMoves(h: History, q: ReserveRequest, now: Instant)
    requires RowsOk(h) && Reserve(h, q, now).Ok? && q.id !in h.reservations
    ensures
      var (after, row) := Reserve(h, q, now).value;
      && 0 <= row.reserved && HoldRoom(h, q.project, q.key, row.reserved)
      && Shift(h, after, Drift(q.project, 0, row.reserved, q.key, row.reserved, now.month, 0))
  {
    hide Shift, Balance, Held, KeyHeld, Spent;
    var model := ActiveModel(h.catalog, q.model).value;
    CostNonnegative(model, q.inputLimit, q.outputLimit);
    var (after, row) := Reserve(h, q, now).value;
    RewriteMoves(h, row, ReservationCreated(q.id, row.reserved, model.priceVersion), now, now.month);
  }

  lemma ReserveRows(h: History, q: ReserveRequest, now: Instant)
    requires RowsOk(h) && Reserve(h, q, now).Ok? && q.id !in h.reservations
    ensures RowsOk(Reserve(h, q, now).value.0)
    ensures AmountsOk(h) ==> AmountsOk(Reserve(h, q, now).value.0)
  {
    hide BalanceGate, BudgetGate, HoldRoom, ReservedRequest, MeteredRequest, ReserveRequestOk, UsageCost, PriceOk, Rewrite,
         RowsOk, AmountsOk;
    var model := ActiveModel(h.catalog, q.model).value;
    var amount := UsageCost(model, q.inputLimit, q.outputLimit).value;
    ModelPriced(h, q.model);
    CostNonnegative(model, q.inputLimit, q.outputLimit);
    var row := Reservation(q, model, amount, None, Reserved, None);
    NewRow(h, row, ReservationCreated(q.id, amount, model.priceVersion), now);
  }

  lemma ModelPriced(h: History, id: Id)
    requires RowsOk(h) && ActiveModel(h.catalog, id).Some?
    ensures PriceOk(ActiveModel(h.catalog, id).value)
  {
  }

  lemma NewRow(h: History, row: Reservation, e: Event, now: Instant)
    requires RowsOk(h) && row.spec.project in h.accounts
    requires row.spec.key in h.keys && h.keys[row.spec.key].project == row.spec.project
    requires 0 <= row.reserved && PriceOk(row.price)
    requires UsageCost(row.price, row.spec.inputLimit, row.spec.outputLimit) == Some(row.reserved)
    requires Rewrite(h, row, e, now).Ok?
    ensures RowsOk(Rewrite(h, row, e, now).value.0)
    ensures AmountsOk(h) ==> AmountsOk(Rewrite(h, row, e, now).value.0)
  {
    hide UsageCost, PriceOk;
  }

  lemma ReserveSound(h: History, q: ReserveRequest, now: Instant)
    requires Sound(h) && Reserve(h, q, now).Ok? && q.id !in h.reservations
    ensures Sound(Reserve(h, q, now).value.0)
  {
    hide RowsOk, InRange, Shift, Reserve, Balance, Held, KeyHeld, Spent;
    ReserveRows(h, q, now);
    ReserveMoves(h, q, now);
    StillFits(h, q.project, q.key, now.month);
    var (after, row) := Reserve(h, q, now).value;
    ShiftInRange(h, after, Drift(q.project, 0, row.reserved, q.key, row.reserved, now.month, 0));
  }

  /** The row a rewrite writes keeps what admission froze into it. */
  ghost predicate SameTerms(h: History, row: Reservation) {
    && row.spec.id in h.reservations
    && var was := h.reservations[row.spec.id];
       row.spec == was.spec && row.price == was.price && row.reserved == was.reserved && Holding(was.state)
  }

  lemma RewriteRows(h: History, row: Reservation, e: Event, now: Instant)
    requires RowsOk(h) && SameTerms(h, row) && Rewrite(h, row, e, now).Ok?
    ensures RowsOk(Rewrite(h, row, e, now).value.0)
    ensures AmountsOk(h) ==> AmountsOk(Rewrite(h, row, e, now).value.0)
  {
  }

  /** What a row gives up when it is rewritten. */
  function GivenUp(row: Reservation): int {
    if Holding(row.state) then 0 else row.reserved
  }

  lemma RewriteHeld(h: History, row: Reservation, e: Event, now: Instant)
    requires SameTerms(h, row) && Rewrite(h, row, e, now).Ok?
    ensures
      Shift(h, Rewrite(h, row, e, now).value.0,
            Drift(row.spec.project, 0, -GivenUp(row), row.spec.key, -GivenUp(row), now.month, 0))
  {
    hide Shift;
    RewriteMoves(h, row, e, now, now.month);
  }

  lemma GivenUpRoom(h: History, row: Reservation)
    requires Sound(h) && SameTerms(h, row)
    ensures 0 <= GivenUp(row) && 0 <= row.reserved
    ensures HoldRoom(h, row.spec.project, row.spec.key, -GivenUp(row))
    ensures HoldRoom(h, row.spec.project, row.spec.key, -(row.reserved as int))
  {
    HoldCounted(h, row.spec.id);
  }

  /** A rewrite that keeps the terms, and holds as much or nothing. */
  lemma RewriteSound(h: History, row: Reservation, e: Event, now: Instant)
    requires Sound(h) && SameTerms(h, row) && Rewrite(h, row, e, now).Ok?
    ensures Sound(Rewrite(h, row, e, now).value.0)
  {
    hide RowsOk, InRange, Shift, Rewrite, SameTerms, Balance, Held, KeyHeld, Spent;
    RewriteRows(h, row, e, now);
    RewriteHeld(h, row, e, now);
    GivenUpRoom(h, row);
    StillFits(h, row.spec.project, row.spec.key, now.month);
    ShiftInRange(h, Rewrite(h, row, e, now).value.0,
                 Drift(row.spec.project, 0, -GivenUp(row), row.spec.key, -GivenUp(row), now.month, 0));
  }

  lemma StillFits(h: History, account: Id, key: Id, month: int)
    requires InRange(h)
    ensures Fits(Balance(h, account))
    ensures 0 <= Held(h, account) <= I64_MAX && 0 <= KeyHeld(h, key) <= I64_MAX
    ensures 0 <= Spent(h, key, month) <= I64_MAX
  {
  }

  /** Usage row and settled reservation together, before anything is posted. */
  lemma MeteredMoves(h: History, row: Reservation, q: SettleRequest, amount: I64, now: Instant)
    requires RowsOk(h) && row.spec.id in h.reservations && h.reservations[row.spec.id] == row
    requires row.state == Dispatched && UsageId(row.spec.id) !in h.usage
    ensures Shift(h, Metered(h, row, q, amount, now),
                  Drift(row.spec.project, 0, -(row.reserved as int), row.spec.key, -(row.reserved as int),
                        now.month, amount))
  {
    hide Shift, RowsOk, UsageId, Sum, SumSeq;
    var id := row.spec.id;
    var usage := SettledUsage(row, q, amount, now);
    var h1 := h.(usage := h.usage[UsageId(id) := usage]);
    UsageShift(h, UsageId(id), usage, h1, row.spec.project);
    var h2 := h1.(reservations := h1.reservations[id := SettledRow(row, q, amount)]);
    ReservationShift(h1, id, SettledRow(row, q, amount), h2, now.month);
    ShiftThen(h, h1, h2, Drift(row.spec.project, 0, 0, row.spec.key, 0, now.month, amount),
              Drift(row.spec.project, 0, -(row.reserved as int), row.spec.key, -(row.reserved as int), now.month, 0));
    assert h2 == Metered(h, row, q, amount, now);
  }

  lemma ChargeMoves(h: History, row: Reservation, q: SettleRequest, amount: I64, now: Instant)
    requires RowsOk(h) && row.spec.id in h.reservations && h.reservations[row.spec.id] == row
    requires row.state == Dispatched && 0 <= amount && Charge(h, row, q, amount, now).Ok?
    ensures
      Shift(h, Charge(h, row, q, amount, now).value.0,
            Drift(row.spec.project, -(amount as int), -(row.reserved as int),
                  row.spec.key, -(row.reserved as int), now.month, amount))
  {
    hide RowsOk, Shift, Balance, Held, KeyHeld, Spent, Metered, PostUsage;
    var id, project, key := row.spec.id, row.spec.project, row.spec.key;
    var metered := Metered(h, row, q, amount, now);
    MeteredMoves(h, row, q, amount, now);
    PostUsageMoves(metered, project, UsageId(id), SettlementKey(id), amount, now, key, now.month);
    var posted := PostUsage(metered, project, UsageId(id), SettlementKey(id), amount, now).value;
    ShiftThen(h, metered, posted,
              Drift(project, 0, -(row.reserved as int), key, -(row.reserved as int), now.month, amount),
              Drift(project, -(amount as int), 0, key, 0, now.month, 0));
    var after := Charge(h, row, q, amount, now).value.0;
    NothingMoves(posted, after, Drift(project, 0, 0, key, 0, now.month, 0));
    ShiftThen(h, posted, after,
              Drift(project, -(amount as int), -(row.reserved as int), key, -(row.reserved as int), now.month, amount),
              Drift(project, 0, 0, key, 0, now.month, 0));
  }

  /** The posting's own overflow check covers the new balance. */
  lemma ChargeFits(h: History, row: Reservation, q: SettleRequest, amount: I64, now: Instant)
    requires Sound(h) && row.spec.id in h.reservations && h.reservations[row.spec.id] == row
    requires row.state == Dispatched && 0 <= amount && Charge(h, row, q, amount, now).Ok?
    ensures Fits(Balance(h, row.spec.project) - amount)
    ensures HoldRoom(h, row.spec.project, row.spec.key, -(row.reserved as int))
    ensures 0 <= Spent(h, row.spec.key, now.month) + amount <= I64_MAX
  {
    hide Sum, SumSeq;
    MeteredMoves(h, row, q, amount, now);
    assert Balance(Metered(h, row, q, amount, now), row.spec.project) == Balance(h, row.spec.project);
  }

  lemma PostUsageRows(h: History, project: Id, usageId: Id, idempotencyKey: string, amount: I64, now: Instant)
    requires RowsOk(h) && PostUsage(h, project, usageId, idempotencyKey, amount, now).Ok?
    ensures RowsOk(PostUsage(h, project, usageId, idempotencyKey, amount, now).value)
    ensures AmountsOk(h) ==> AmountsOk(PostUsage(h, project, usageId, idempotencyKey, amount, now).value)
  {
    hide Sum, SumSeq;
  }

  lemma MeteredRows(h: History, row: Reservation, q: SettleRequest, amount: I64, now: Instant)
    requires RowsOk(h) && row.spec.id in h.reservations && h.reservations[row.spec.id] == row && 0 <= amount
    ensures RowsOk(Metered(h, row, q, amount, now))
  {
  }

  /** Events and jobs carry no rows that soundness is about. */
  lemma RowsFrame(before: History, after: History)
    requires after == before.(log := after.log, jobs := after.jobs)
    ensures RowsOk(before) ==> RowsOk(after)
    ensures AmountsOk(before) ==> AmountsOk(after)
  {
  }

  lemma ChargeRows(h: History, row: Reservation, q: SettleRequest, amount: I64, now: Instant)
    requires RowsOk(h) && row.spec.id in h.reservations && h.reservations[row.spec.id] == row
    requires 0 <= amount && Charge(h, row, q, amount, now).Ok?
    ensures RowsOk(Charge(h, row, q, amount, now).value.0)
    ensures AmountsOk(h) ==> AmountsOk(Charge(h, row, q, amount, now).value.0)
  {
    hide RowsOk, Balance, Held, KeyHeld, Spent, HoldRoom, PostUsage;
    var metered := Metered(h, row, q, amount, now);
    MeteredRows(h, row, q, amount, now);
    PostUsageRows(metered, row.spec.project, UsageId(row.spec.id), SettlementKey(row.spec.id), amount, now);
    RowsFrame(PostUsage(metered, row.spec.project, UsageId(row.spec.id), SettlementKey(row.spec.id), amount, now).value,
              Charge(h, row, q, amount, now).value.0);
  }

  lemma ChargeSound(h: History, row: Reservation, q: SettleRequest, amount: I64, now: Instant)
    requires Sound(h) && row.spec.id in h.reservations && h.reservations[row.spec.id] == row
    requires row.state == Dispatched && 0 <= amount && Charge(h, row, q, amount, now).Ok?
    ensures Sound(Charge(h, row, q, amount, now).value.0)
  {
    hide RowsOk, InRange, Shift, Charge, Balance, Held, KeyHeld, Spent;
    ChargeMoves(h, row, q, amount, now);
    ChargeFits(h, row, q, amount, now);
    ChargeRows(h, row, q, amount, now);
    ShiftInRange(h, Charge(h, row, q, amount, now).value.0,
                 Drift(row.spec.project, -(amount as int), -(row.reserved as int),
                       row.spec.key, -(row.reserved as int), now.month, amount));
  }

  // ---- v1 metering --------------------------------------------------------

  /** A new report: its cost, the row it inserts, and the state before posting. */
  ghost predicate NewReport(h: History, u: UsageReport, now: Instant) {
    RecordUsage(h, u, now).Ok? && u.eventId !in h.usage
  }

  function Reported(h: History, u: UsageReport, cost: I64): History {
    h.(usage := h.usage[u.eventId := ReportedUsage(u, cost)])
  }

  lemma ReportCostOk(h: History, u: UsageReport)
    requires RowsOk(h) && ReportCost(h.catalog, u).Some?
    ensures 0 <= ReportCost(h.catalog, u).value
  {
    if Chargeable(u) {
      CostNonnegative(h.catalog.prices[(u.model, u.priceVersion)], u.inputTokens, u.outputTokens);
    }
  }

  lemma RecordMoves(h: History, u: UsageReport, now: Instant, cost: I64)
    requires NewReport(h, u, now) && ReportCost(h.catalog, u) == Some(cost) && 0 <= cost
    ensures Shift(h, RecordUsage(h, u, now).value.0,
                  Drift(u.project, -(cost as int), 0, u.key, 0, u.occurredAt.month, cost))
    ensures Fits(Balance(h, u.project))  ==> Fits(Balance(h, u.project) - cost)
    ensures 0 <= Spent(h, u.key, u.occurredAt.month) + cost <= I64_MAX
  {
    hide Shift, Sum, SumSeq;
    var metered := Reported(h, u, cost);
    UsageShift(h, u.eventId, ReportedUsage(u, cost), metered, u.project);
    PostUsageMoves(metered, u.project, u.eventId, ReportKey(u.eventId), cost, now, u.key, u.occurredAt.month);
    assert Balance(metered, u.project) == Balance(h, u.project);
    ShiftThen(h, metered, RecordUsage(h, u, now).value.0, Drift(u.project, 0, 0, u.key, 0, u.occurredAt.month, cost),
              Drift(u.project, -(cost as int), 0, u.key, 0, u.occurredAt.month, 0));
  }

  lemma RecordRows(h: History, u: UsageReport, now: Instant, cost: I64)
    requires RowsOk(h) && NewReport(h, u, now) && ReportCost(h.catalog, u) == Some(cost) && 0 <= cost
    ensures RowsOk(RecordUsage(h, u, now).value.0)
    ensures AmountsOk(h) ==> AmountsOk(RecordUsage(h, u, now).value.0)
  {
    hide Sum, SumSeq, PostUsage;
    var metered := Reported(h, u, cost);
    assert RowsOk(metered);
    PostUsageRows(metered, u.project, u.eventId, ReportKey(u.eventId), cost, now);
  }

  lemma RecordSound(h: History, u: UsageReport, now: Instant)
    requires Sound(h) && NewReport(h, u, now)
    ensures Sound(RecordUsage(h, u, now).value.0)
    ensures
      var cost := ReportCost(h.catalog, u);
      && cost.Some? && 0 <= cost.value
      && Shift(h, RecordUsage(h, u, now).value.0,
               Drift(u.project, -(cost.value as int), 0, u.key, 0, u.occurredAt.month, cost.value))
  {
    hide RowsOk, InRange, Shift, Balance, Held, KeyHeld, Spent;
    assert ReportCost(h.catalog, u).Some?;
    hide RecordUsage, ReportCost;
    ReportCostOk(h, u);
    var cost := ReportCost(h.catalog, u).value;
    StillFits(h, u.project, u.key, u.occurredAt.month);
    RecordMoves(h, u, now, cost);
    RecordRows(h, u, now, cost);
    ShiftInRange(h, RecordUsage(h, u, now).value.0,
                 Drift(u.project, -(cost as int), 0, u.key, 0, u.occurredAt.month, cost));
  }

  // ---- postings and rows that carry no hold -------------------------------

  /** Rows outside the money tables do not disturb soundness. */
  lemma SoundFrame(before: History, after: History)
    requires Sound(before) && AmountsOk(after)
    requires after.reservations == before.reservations && after.usage == before.usage
    requires after.ledger == before.ledger && after.catalog == before.catalog
    requires after.keys == before.keys && before.accounts.Keys <= after.accounts.Keys
    ensures Sound(after)
  {
    hide Sum, SumSeq;
    NothingMoves(before, after, STILL);
    StillFits(before, "", "", 0);
    ShiftInRange(before, after, STILL);
  }

  lemma PostSound(h: History, account: Id, kind: PostingKind, reference: Reference, idempotencyKey: string,
                  delta: I64, counter: Book, now: Instant)
    requires Sound(h) && counter != CustomerBalance
    requires Post(h, account, kind, reference, idempotencyKey, delta, counter, now).Ok?
    ensures Sound(Post(h, account, kind, reference, idempotencyKey, delta, counter, now).value)
  {
    hide Sum, SumSeq, Shift, InRange, Booked;
    var after := Post(h, account, kind, reference, idempotencyKey, delta, counter, now).value;
    PostMoves(h, account, kind, reference, idempotencyKey, delta, counter, now, "", 0);
    StillFits(h, account, "", 0);
    ShiftInRange(h, after, Drift(account, delta, 0, "", 0, 0, 0));
  }
}
