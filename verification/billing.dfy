/** The account-serialized money protocol. Every method is one transaction: it
    either commits what Protocol says or leaves the database as it was. */
module Billing {
  import opened Prelude
  import opened Rows
  import opened Totals
  import opened Outbox
  import opened Ledger
  import opened Protocol
  import opened Effects
  import opened Projection

  /** What Committed says, for a helper inside a transaction whose working copy
      may be dropped after an error. */
  ghost predicate Done<T(!new)>(spec: Result<(History, T)>, after: History, c: Cache, d: Drift, r: Result<T>) {
    match spec
    case Ok((h, value)) => after == h && r == Ok(value) && Tracks(c, h, d)
    case Err(error) => r == Err(error)
  }

  // ---- reserve ------------------------------------------------------------

  /** Prepaid accounts need the amount in available balance. */
  method CheckBalance(tx: Transaction, account: Id, amount: I64, ghost d: Drift) returns (r: Result<()>)
    requires account in tx.h.accounts
    requires InRange(tx.h) && Tracks(tx.c, tx.h, d) && d.balance == 0 && d.held == 0
    modifies tx
    ensures tx.h == old(tx.h) && Tracks(tx.c, tx.h, d)
    ensures r == BalanceGate(tx.h, account, amount)
  {
    if !tx.h.accounts[account].enforceBalance {
      return Ok(());
    }
    var row := AccountRow(tx, account, d);
    var available := CheckedSub(row.balance, row.held);
    if available == None {
      return Err(InsufficientFunds);
    }
    var rest := CheckedSub(available.value, amount);
    if rest == None || rest.value < 0 {
      return Err(InsufficientFunds);
    }
    return Ok(());
  }

  /** The key's whole hold counts against the current month, whichever month its
      reservations are from. */
  method CheckBudget(tx: Transaction, key: Id, month: int, amount: I64, ghost d: Drift) returns (r: Result<()>)
    requires key in tx.h.keys
    requires InRange(tx.h) && Tracks(tx.c, tx.h, d) && d.keyHeld == 0 && d.spent == 0
    modifies tx
    ensures tx.h == old(tx.h) && Tracks(tx.c, tx.h, d)
    ensures r == BudgetGate(tx.h, key, month, amount)
  {
    if tx.h.keys[key].monthlyBudget <= 0 {
      return Ok(());
    }
    var spent := Monthly(tx, key, month, d);
    var held := KeyHold(tx, key, d);
    var budget := CheckedMul(tx.h.keys[key].monthlyBudget, MICROS_PER_MINOR_UNIT);
    if budget == None {
      return Err(Invalid);
    }
    var used := CheckedAdd(spent, held);
    if used == None {
      return Err(InsufficientFunds);
    }
    var total := CheckedAdd(used.value, amount);
    if total == None || budget.value < total.value {
      return Err(InsufficientFunds);
    }
    return Ok(());
  }

  /** The counters take the hold first; the row that explains it follows. */
  method OpenHold(tx: Transaction, row: Reservation, ghost d: Drift) returns (r: Result<()>)
    requires InRange(tx.h) && row.spec.id !in tx.h.reservations && Holding(row.state)
    requires Tracks(tx.c, tx.h, d) && d == At(row.spec.project, row.spec.key, d.month)
    modifies tx
    ensures r == if HoldRoom(old(tx.h), row.spec.project, row.spec.key, row.reserved) then Ok(()) else Err(Internal)
    ensures r.Ok? ==>
      && tx.h == old(tx.h).(reservations := old(tx.h).reservations[row.spec.id := row])
      && Tracks(tx.c, tx.h, d)
  {
    var _ :- ChangeHold(tx, row.spec.project, row.spec.key, row.reserved, d);
    ghost var before := tx.h;
    tx.h := tx.h.(reservations := tx.h.reservations[row.spec.id := row]);
    ReservationShift(before, row.spec.id, row, tx.h, d.month);
    Settles(tx.c, before, tx.h, d.(held := row.reserved, keyHeld := row.reserved),
            d.(held := row.reserved, keyHeld := row.reserved));
    return Ok(());
  }

  /** A row that already holds is rewritten, keeping or giving up its amount. */
  method ReplaceHold(tx: Transaction, row: Reservation, ghost d: Drift)
    requires Sound(tx.h) && SameTerms(tx.h, row)
    requires Tracks(tx.c, tx.h, d) && d == At(row.spec.project, row.spec.key, d.month)
    modifies tx
    ensures tx.h == old(tx.h).(reservations := old(tx.h).reservations[row.spec.id := row])
    ensures Tracks(tx.c, tx.h, d) && Grows(old(tx.c), tx.c)
    ensures !Holding(row.state) ==> row.spec.project in tx.c.balances
  {
    GivenUpRoom(tx.h, row);
    ghost var moved := d.(held := -GivenUp(row), keyHeld := -GivenUp(row));
    if !Holding(row.state) {
      var taken := ChangeHold(tx, row.spec.project, row.spec.key, -row.reserved, d);
      assert taken.Ok?;
    }
    ghost var before := tx.h;
    tx.h := tx.h.(reservations := tx.h.reservations[row.spec.id := row]);
    ReservationShift(before, row.spec.id, row, tx.h, d.month);
    Settles(tx.c, before, tx.h, moved, moved);
  }

  method AdmitMoney(tx: Transaction, q: ReserveRequest, model: Model, amount: I64, now: Instant, ghost d: Drift)
    returns (r: Result<Reservation>)
    requires Sound(tx.h) && Tracks(tx.c, tx.h, d) && d == At(q.project, q.key, now.month)
    requires q.project in tx.h.accounts && q.key in tx.h.keys && q.id !in tx.h.reservations
    modifies tx
    ensures Done(Admit(old(tx.h), q, model, amount, now), tx.h, tx.c, d, r)
  {
    hide Tracks, InRange, RowsOk, BalanceGate, BudgetGate, HoldRoom;
    var _ :- CheckBalance(tx, q.project, amount, d);
    var _ :- CheckBudget(tx, q.key, now.month, amount, d);
    var row := Reservation(q, model, amount, None, Reserved, None);
    var _ :- OpenHold(tx, row, d);
    ghost var taken := tx.h;
    var _ :- AppendEvent(tx, q.project, ReservationCreated(q.id, amount, model.priceVersion), now);
    TracksOn(tx.c, taken, tx.h, d);
    return Ok(row);
  }

  method ReserveMoney(repo: Repository, q: ReserveRequest, now: Instant) returns (r: Result<Reservation>)
    requires repo.Valid()
    modifies repo
    ensures repo.Valid()
    ensures Committed(Reserve(old(repo.history), q, now), old(repo.history), repo.history, r)
    ensures r.Err? ==> repo.cache == old(repo.cache)
  {
    hide Tracks, InRange, RowsOk, Balance, Held, KeyHeld, Spent, Admit;
    if !ReserveRequestOk(q) {
      return Err(Invalid);
    }
    var tx := new Transaction.Begin(repo);
    if q.project !in tx.h.accounts {
      return Err(NotFound);
    }
    var account := tx.h.accounts[q.project];
    if account.tenant != q.tenant {
      return Err(Forbidden);
    }
    if q.id in tx.h.reservations {
      var existing := tx.h.reservations[q.id];
      if existing.spec != q {
        return Err(Conflict);
      }
      return Ok(existing);
    }
    if !account.active || account.currency != "CNY" {
      return Err(Forbidden);
    }
    if q.key !in tx.h.keys || !KeyAdmits(tx.h.keys[q.key], q, now) {
      return Err(Forbidden);
    }
    var model := ActiveModel(tx.h.catalog, q.model);
    if model == None || q.priceVersion != model.value.priceVersion || !WithinContext(q, model.value) {
      return Err(Invalid);
    }
    if ReservedRequest(tx.h, q.project, q.requestId) || MeteredRequest(tx.h, q.project, q.requestId) {
      return Err(Conflict);
    }
    var amount := UsageCost(model.value, q.inputLimit, q.outputLimit);
    if amount == None {
      return Err(Invalid);
    }
    ghost var d := At(q.project, q.key, now.month);
    Rebase(tx.c, tx.h, STILL, d);
    var row :- AdmitMoney(tx, q, model.value, amount.value, now, d);
    ReserveSound(repo.history, q, now);
    Rebase(tx.c, tx.h, d, STILL);
    repo.Commit(tx);
    return Ok(row);
  }

  // ---- dispatch, release, unresolved --------------------------------------

  /** Replaces a held row and announces it. */
  method RewriteHold(tx: Transaction, row: Reservation, e: Event, now: Instant) returns (r: Result<Reservation>)
    requires Sound(tx.h) && SameTerms(tx.h, row) && Tracks(tx.c, tx.h, STILL)
    modifies tx
    ensures Done(Rewrite(old(tx.h), row, e, now), tx.h, tx.c, STILL, r)
    ensures r.Ok? ==> Sound(tx.h)
  {
    hide Tracks, InRange, RowsOk, Balance, Held, KeyHeld, Spent, Holding;
    ghost var d := At(row.spec.project, row.spec.key, now.month);
    Rebase(tx.c, tx.h, STILL, d);
    ghost var start := tx.h;
    ReplaceHold(tx, row, d);
    ghost var replaced := tx.h;
    var _ :- AppendEvent(tx, row.spec.project, e, now);
    TracksOn(tx.c, replaced, tx.h, d);
    Rebase(tx.c, tx.h, d, STILL);
    RewriteSound(start, row, e, now);
    return Ok(row);
  }

  method DispatchMoney(repo: Repository, project: Id, id: Id, now: Instant) returns (r: Result<Reservation>)
    requires repo.Valid()
    modifies repo
    ensures repo.Valid()
    ensures Committed(Dispatch(old(repo.history), project, id, now), old(repo.history), repo.history, r)
    ensures r.Err? ==> repo.cache == old(repo.cache)
  {
    hide Tracks, InRange, Rewrite;
    var tx := new Transaction.Begin(repo);
    var row :- Locked(tx.h, project, id);
    if row.state == Dispatched {
      return Ok(row);
    }
    if row.state != Reserved {
      return Err(Conflict);
    }
    var done :- RewriteHold(tx, row.(state := Dispatched), ReservationDispatched(id), now);
    repo.Commit(tx);
    return Ok(done);
  }

  method ReleaseMoney(repo: Repository, project: Id, id: Id, reason: string, now: Instant)
    returns (r: Result<Reservation>)
    requires repo.Valid()
    modifies repo
    ensures repo.Valid()
    ensures Committed(Release(old(repo.history), project, id, reason, now), old(repo.history), repo.history, r)
    ensures r.Err? ==> repo.cache == old(repo.cache)
  {
    hide Tracks, InRange, Rewrite, HoldRoom;
    if reason != "not_dispatched" {
      return Err(Invalid);
    }
    var tx := new Transaction.Begin(repo);
    var row :- Locked(tx.h, project, id);
    if row.state == Released {
      return Ok(row);
    }
    if row.state != Reserved {
      return Err(Conflict);
    }
    var released := row.(state := Released, completion := Some(NotDispatched));
    GivenUpRoom(tx.h, released);
    var done :- RewriteHold(tx, released, ReservationReleased(id), now);
    repo.Commit(tx);
    return Ok(done);
  }

  method UnresolvedMoney(repo: Repository, project: Id, id: Id, q: UnresolvedRequest, now: Instant)
    returns (r: Result<Reservation>)
    requires repo.Valid()
    modifies repo
    ensures repo.Valid()
    ensures Committed(ReportUnresolved(old(repo.history), project, id, q, now), old(repo.history), repo.history, r)
    ensures r.Err? ==> repo.cache == old(repo.cache)
  {
    hide Tracks, InRange, Rewrite;
    if !UnresolvedOk(q) {
      return Err(Invalid);
    }
    var tx := new Transaction.Begin(repo);
    var row :- Locked(tx.h, project, id);
    if row.state == Settled || row.state == Waived {
      return Ok(row);
    }
    if row.state != Dispatched {
      return Err(Conflict);
    }
    if row.completion.Some? {
      if row.completion.value != Unresolved(q) {
        return Err(Conflict);
      }
      return Ok(row);
    }
    var done :- RewriteHold(tx, row.(completion := Some(Unresolved(q))), ReservationUnresolved(id, q), now);
    repo.Commit(tx);
    return Ok(done);
  }

  // ---- settle -------------------------------------------------------------

  /** Metering inside a settlement: counters, usage row and settled reservation,
      in the order the counters need. */
  method MeterMoney(tx: Transaction, row: Reservation, q: SettleRequest, amount: I64, now: Instant, ghost d: Drift)
    returns (r: Result<()>)
    requires Sound(tx.h) && Tracks(tx.c, tx.h, d) && d == At(row.spec.project, row.spec.key, now.month)
    requires row.spec.id in tx.h.reservations && tx.h.reservations[row.spec.id] == row && row.state == Dispatched
    modifies tx
    ensures r == if UsageId(row.spec.id) in old(tx.h).usage then Err(Database)
                 else if !(0 <= Spent(old(tx.h), row.spec.key, now.month) + amount <= I64_MAX) then Err(Internal)
                 else Ok(())
    ensures r.Ok? ==> tx.h == Metered(old(tx.h), row, q, amount, now) && Tracks(tx.c, tx.h, d)
                      && row.spec.project in tx.c.balances
  {
    hide InRange, RowsOk, Balance, Held, KeyHeld, Spent;
    var id, project, key := row.spec.id, row.spec.project, row.spec.key;
    GivenUpRoom(tx.h, SettledRow(row, q, amount));
    StillFits(tx.h, project, key, now.month);
    var spent := Monthly(tx, key, now.month, d);
    var taken := ChangeHold(tx, project, key, -row.reserved, d);
    assert taken.Ok?;
    ghost var moved := d.(held := -(row.reserved as int), keyHeld := -(row.reserved as int));
    if UsageId(id) in tx.h.usage {
      return Err(Database);
    }
    var r' := InsertUsage(tx, UsageId(id), SettledUsage(row, q, amount, now), spent, moved);
    if r'.Err? {
      return r';
    }
    ghost var before := tx.h;
    tx.h := tx.h.(reservations := tx.h.reservations[id := SettledRow(row, q, amount)]);
    ReservationShift(before, id, SettledRow(row, q, amount), tx.h, now.month);
    Settles(tx.c, before, tx.h, moved, moved);
    return Ok(());
  }

  /** A usage row and the month counter that was read before it existed. */
  method InsertUsage(tx: Transaction, id: Id, u: UsageEvent, spent: I64, ghost d: Drift) returns (r: Result<()>)
    requires id !in tx.h.usage && Tracks(tx.c, tx.h, d)
    requires d.key == u.key && d.month == u.occurredAt.month && d.spent == 0
    requires (u.key, u.occurredAt.month) in tx.c.spend && tx.c.spend[(u.key, u.occurredAt.month)] == spent
    modifies tx
    ensures r == if 0 <= spent + u.cost <= I64_MAX then Ok(()) else Err(Internal)
    ensures r.Ok? ==> tx.h == old(tx.h).(usage := old(tx.h).usage[id := u]) && Tracks(tx.c, tx.h, d)
                      && Grows(old(tx.c), tx.c)
  {
    ghost var before := tx.h;
    tx.h := tx.h.(usage := tx.h.usage[id := u]);
    UsageShift(before, id, u, tx.h, d.account);
    Settles(tx.c, before, tx.h, d, Drift(d.account, 0, 0, d.key, 0, d.month, u.cost));
    var _ :- ChangeSpend(tx, u.key, u.occurredAt.month, spent, u.cost, d.(spent := -(u.cost as int)));
    return Ok(());
  }

  /** Posts the charge of metered usage, unless it is free. */
  method PostCharge(tx: Transaction, project: Id, usageId: Id, idempotencyKey: string, amount: I64, now: Instant,
                    ghost d: Drift) returns (r: Result<()>)
    requires Tracks(tx.c, tx.h, d) && d.account == project && d.balance == 0 && d.held == 0
    requires project !in tx.c.balances ==> Fits(Balance(tx.h, project)) && Fits(Held(tx.h, project))
    modifies tx
    ensures match PostUsage(old(tx.h), project, usageId, idempotencyKey, amount, now)
            case Ok(h) => r == Ok(()) && tx.h == h && Tracks(tx.c, tx.h, d)
            case Err(error) => r == Err(error)
  {
    hide Tracks, Post, Balance, Held;
    if 0 < amount {
      var _ :- InsertBalancedEntries(tx, project, UsageCharge, UsageRef(usageId), idempotencyKey, -amount,
                                     UsageRevenue, now, d);
    }
    return Ok(());
  }

  method ChargeMoney(tx: Transaction, row: Reservation, q: SettleRequest, amount: I64, now: Instant)
    returns (r: Result<Reservation>)
    requires Sound(tx.h) && Tracks(tx.c, tx.h, STILL) && 0 <= amount
    requires row.spec.id in tx.h.reservations && tx.h.reservations[row.spec.id] == row && row.state == Dispatched
    modifies tx
    ensures Done(Charge(old(tx.h), row, q, amount, now), tx.h, tx.c, STILL, r)
    ensures r.Ok? ==> Sound(tx.h)
  {
    hide Tracks, InRange, RowsOk, HoldRoom, Spent, Metered, PostUsage;
    var id, project := row.spec.id, row.spec.project;
    ghost var d := At(project, row.spec.key, now.month);
    ghost var start := tx.h;
    Rebase(tx.c, tx.h, STILL, d);
    GivenUpRoom(tx.h, SettledRow(row, q, amount));
    var _ :- MeterMoney(tx, row, q, amount, now, d);
    var _ :- PostCharge(tx, project, UsageId(id), SettlementKey(id), amount, now, d);
    ghost var posted := tx.h;
    var _ :- AppendEvent(tx, project, ReservationSettled(id, UsageId(id), amount), now);
    TracksOn(tx.c, posted, tx.h, d);
    Rebase(tx.c, tx.h, d, STILL);
    ChargeSound(start, row, q, amount, now);
    return Ok(SettledRow(row, q, amount));
  }

  /** Runs inside the caller's transaction and under its account lock: either a
      settlement of its own or an approved review. */
  method SettleMoneyLocked(tx: Transaction, row: Reservation, q: SettleRequest, now: Instant)
    returns (r: Result<Reservation>)
    requires Sound(tx.h) && Tracks(tx.c, tx.h, STILL)
    requires row.spec.id in tx.h.reservations && tx.h.reservations[row.spec.id] == row
    modifies tx
    ensures Done(SettleLocked(old(tx.h), row, q, now), tx.h, tx.c, STILL, r)
    ensures r.Ok? ==> Sound(tx.h)
  {
    hide Tracks, InRange, Charge;
    if !SettleRequestOk(q) {
      return Err(Invalid);
    }
    if row.state == Settled {
      if row.completion != Some(Usage(q)) {
        return Err(Conflict);
      }
      return Ok(row);
    }
    if row.state != Dispatched {
      return Err(Conflict);
    }
    if row.spec.inputLimit < q.inputTokens || row.spec.outputLimit < q.outputTokens {
      return Err(Conflict);
    }
    CostMonotone(row.price, q.inputTokens, q.outputTokens, row.spec.inputLimit, row.spec.outputLimit);
    var amount := UsageCost(row.price, q.inputTokens, q.outputTokens);
    r := ChargeMoney(tx, row, q, amount.value, now);
  }

  method SettleMoney(repo: Repository, project: Id, id: Id, q: SettleRequest, now: Instant)
    returns (r: Result<Reservation>)
    requires repo.Valid()
    modifies repo
    ensures repo.Valid()
    ensures Committed(Settle(old(repo.history), project, id, q, now), old(repo.history), repo.history, r)
    ensures r.Err? ==> repo.cache == old(repo.cache)
  {
    hide Tracks, InRange, SettleLocked;
    var tx := new Transaction.Begin(repo);
    var row :- Locked(tx.h, project, id);
    var done :- SettleMoneyLocked(tx, row, q, now);
    repo.Commit(tx);
    return Ok(done);
  }

  // ---- v1 metering --------------------------------------------------------

  /** Direct usage reports. Replays are recognized by event id and roll back. */
  method RecordUsageEvent(repo: Repository, u: UsageReport, now: Instant) returns (r: Result<bool>)
    requires repo.Valid()
    modifies repo
    ensures repo.Valid()
    ensures Committed(RecordUsage(old(repo.history), u, now), old(repo.history), repo.history, r)
    ensures r.Err? || !r.value ==> repo.cache == old(repo.cache)
  {
    hide Tracks, InRange, RowsOk, PostUsage;
    if !UsageReportOk(u) {
      return Err(Invalid);
    }
    var tx := new Transaction.Begin(repo);
    if u.key !in tx.h.keys || tx.h.keys[u.key].project != u.project || tx.h.keys[u.key].tenant != u.tenant {
      return Err(Invalid);
    }
    var cost := ReportCost(tx.h.catalog, u);
    if cost == None {
      return Err(Invalid);
    }
    if u.project !in tx.h.accounts {
      return Err(NotFound);
    }
    if ReservedRequest(tx.h, u.project, u.requestId) {
      return Err(Conflict);
    }
    ghost var d := At(u.project, u.key, u.occurredAt.month);
    Rebase(tx.c, tx.h, STILL, d);
    StillFits(tx.h, u.project, u.key, u.occurredAt.month);
    var spent := Monthly(tx, u.key, u.occurredAt.month, d);
    if u.eventId in tx.h.usage {
      return Ok(false);
    }
    assert spent == Spent(tx.h, u.key, u.occurredAt.month) by {
      SpentIs(tx.c, tx.h, d, u.key, u.occurredAt.month);
    }
    var _ :- InsertUsage(tx, u.eventId, ReportedUsage(u, cost.value), spent, d);
    StillBalanced(repo.history, tx.h, u.project);
    var _ :- PostCharge(tx, u.project, u.eventId, ReportKey(u.eventId), cost.value, now, d);
    RecordSound(repo.history, u, now);
    Rebase(tx.c, tx.h, d, STILL);
    repo.Commit(tx);
    return Ok(true);
  }

  lemma SpentIs(c: Cache, h: History, d: Drift, key: Id, month: int)
    requires Tracks(c, h, d) && d.spent == 0 && (key, month) in c.spend
    ensures c.spend[(key, month)] == Spent(h, key, month)
  {
  }

  lemma StillBalanced(before: History, after: History, account: Id)
    requires InRange(before) && after.ledger == before.ledger && after.reservations == before.reservations
    ensures Fits(Balance(after, account)) && Fits(Held(after, account))
  {
    assert Fits(Balance(before, account)) && Fits(Held(before, account));
    assert Balance(after, account) == Balance(before, account) && Held(after, account) == Held(before, account);
  }
}
