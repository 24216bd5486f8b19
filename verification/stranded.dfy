/** When a dispatched reservation cannot be settled: the inputs that strand it, and
    that nothing else does but the money and the 64-bit ranges. */
module Stranded {
  import opened Prelude
  import opened Sums
  import opened Rows
  import opened Totals
  import opened Outbox
  import opened Ledger
  import opened Protocol
  import opened PaymentRules
  import opened CatalogService
  import opened Administration
  import opened Effects
  import opened Runs
  import opened Shapes
  import opened Steps
  import opened Soundness
  import opened Requests
  import opened Funds
  import opened Permanence

  // ---- names other requests can take --------------------------------------

  /** A caller chose the usage id or the idempotency key that the settlement of
      this reservation will need. */
  predicate Claims(op: Op, id: Id) {
    || (op.DoRecordUsage? && op.usage.eventId == UsageId(id))
    || ((op.DoCapture? || op.DoCreateRefund?) && op.key == SettlementKey(id))
  }

  ghost predicate Free(h: History, id: Id) {
    UsageId(id) !in h.usage && !KeyUsed(h, SettlementKey(id))
  }

  predicate IsSettled(h: History, id: Id) {
    id in h.reservations && h.reservations[id].state == Settled
  }

  lemma KeysOfKinds(id: Id, other: string)
    ensures ReportKey(other) != SettlementKey(id)
    ensures "alipay:" + other != SettlementKey(id)
    ensures "refund-hold:" + other != SettlementKey(id)
    ensures SettleRefundKey(other) != SettlementKey(id)
  {
    assert SettlementKey(id)[0] == 'r' && SettlementKey(id)[2] == 's';
    assert ReportKey(other)[0] == 'u' && ("alipay:" + other)[0] == 'a';
    assert ("refund-hold:" + other)[2] == 'f' && SettleRefundKey(other)[2] == 'f';
  }

  lemma PushedKey(h: History, after: History, p: Posting, key: string)
    requires after.ledger == h.ledger + [p] && !KeyUsed(h, key) && p.idempotencyKey != key
    ensures !KeyUsed(after, key)
  {
  }

  /** An operation that does not claim the names leaves them free, unless it is
      the settlement itself. */
  lemma ShapeKeepsFree(h: History, after: History, op: Op, shape: Shape, now: Instant, id: Id)
    requires RowsOk(h) && Free(h, id) && Stems(op, shape) && !Claims(op, id)
    requires Amount(shape) && ShapeOk(h, shape, now) && Writes(h, after, SummaryOf(h, shape, now))
    ensures IsSettled(after, id) || Free(after, id)
  {
    hide OrdersMove, RefundFits, Gated, PayerOf, RefundAccount, BalanceGate, BudgetGate, ReservedRequest, KeyUsed,
         MeteredRequest, Moves, UsageId, SettlementKey, ReportKey, SettleRefundKey, Pair, ClearingPair, Micros, Fresh;
    var s := SummaryOf(h, shape, now);
    if shape.Charging? {
      KeysApart(shape.was.spec.id, id);
    }
    if s.posting.Some? && !IsSettled(after, id) {
      PostingNamed(h, op, shape, now, id);
      PushedKey(h, after, s.posting.value, SettlementKey(id));
    } else {
      assert s.posting.None? ==> after.ledger == h.ledger;
      SameKeys(h, after, SettlementKey(id));
    }
  }

  lemma SameKeys(h: History, after: History, key: string)
    ensures after.ledger == h.ledger ==> KeyUsed(after, key) == KeyUsed(h, key)
  {
  }

  lemma PostingNamed(h: History, op: Op, shape: Shape, now: Instant, id: Id)
    requires Stems(op, shape) && !Claims(op, id) && Amount(shape)
    requires shape.Charging? ==> shape.was.spec.id != id
    requires SummaryOf(h, shape, now).posting.Some?
    ensures SummaryOf(h, shape, now).posting.value.idempotencyKey != SettlementKey(id)
  {
    hide PayerOf, RefundAccount, UsageId, SettlementKey, ReportKey, SettleRefundKey, Pair, ClearingPair, Micros;
    match shape {
      case Charging(was, _, _) => KeysApart(was.spec.id, id);
      case Metering(u, _) => KeysOfKinds(id, u.eventId);
      case Capturing(payment, _, _) => KeysOfKinds(id, payment);
      case Refunding(refund, _, _) => KeysOfKinds(id, refund);
      case Clearing(refund, _) => KeysOfKinds(id, refund);
      case _ =>
    }
  }

  lemma StepKeepsFree(h: History, op: Op, now: Instant, id: Id)
    requires Good(h) && !Claims(op, id) && (IsSettled(h, id) || Free(h, id))
    ensures IsSettled(Step(h, op, now), id) || Free(Step(h, op, now), id)
  {
    hide RowsOk, InRange, AmountsOk, CatalogOk, ReviewsPoint, Step, ShapeOk, NoteOk, Files, Feeds, Shift, SummaryOf,
         Writes, Amount, Free, Stems, Claims;
    var after := Step(h, op, now);
    if IsSettled(h, id) {
      StaysSettled(h, op, now, id);
    } else if Apart(op) {
      ApartStep(h, op, now);
      SameFree(h, after, id);
    } else {
      var shape, note := StepShape(h, op, now);
      SilentWrites(h, after, SummaryOf(h, shape, now), note);
      ShapeKeepsFree(h, after, op, shape, now, id);
    }
  }

  lemma SameFree(h: History, after: History, id: Id)
    requires after.usage == h.usage && after.ledger == h.ledger && Free(h, id)
    ensures Free(after, id)
  {
  }

  lemma StaysSettled(h: History, op: Op, now: Instant, id: Id)
    requires Good(h) && IsSettled(h, id)
    ensures IsSettled(Step(h, op, now), id)
  {
    hide Step, Good, MoneyAges, ReviewsAge, PapersAge, EnrollmentAges, MeteredRequest;
    StepAges(h, op, now);
  }

  ghost predicate Unclaimed(ops: seq<Timed>, id: Id) {
    forall i :: 0 <= i < |ops| ==> !Claims(ops[i].op, id)
  }

  /** Where nobody claimed them, both names are free until the settlement takes them. */
  lemma {:induction false} UnclaimedIsFree(ops: seq<Timed>, id: Id)
    requires Unclaimed(ops, id)
    ensures IsSettled(Run(EMPTY_HISTORY, ops), id) || Free(Run(EMPTY_HISTORY, ops), id)
  {
    hide Step, Good, Free, IsSettled, Claims;
    if ops == [] {
      EmptyFree(id);
    } else {
      var before := ops[..|ops| - 1];
      assert forall i :: 0 <= i < |before| ==> before[i] == ops[i];
      UnclaimedIsFree(before, id);
      RunSound(before);
      StepKeepsFree(Run(EMPTY_HISTORY, before), ops[|ops| - 1].op, ops[|ops| - 1].now, id);
    }
  }

  lemma EmptyFree(id: Id)
    ensures Free(EMPTY_HISTORY, id)
  {
  }

  // ---- what is left to decide ---------------------------------------------

  /** The month's spend, the balance and the outbox have room for it. */
  ghost predicate Room(h: History, row: Reservation, amount: I64, now: Instant) {
    && Spent(h, row.spec.key, now.month) + amount <= I64_MAX
    && (0 < amount ==> Fits(Balance(h, row.spec.project) - amount))
    && LastSequence(Log(h, row.spec.project)) + (if 0 < amount then 2 else 1) <= I64_MAX
  }

  /** Over every run that claims neither name, a settlement within its bounds
      commits exactly when the account is not short and the numbers have room. */
  lemma UnclaimedSettlementDecided(ops: seq<Timed>, id: Id, q: SettleRequest, now: Instant)
    requires Unclaimed(ops, id) && Settleable(Run(EMPTY_HISTORY, ops), id, q)
    ensures
      var h := Run(EMPTY_HISTORY, ops);
      var row := h.reservations[id];
      var amount := Price(row, q);
      Settle(h, row.spec.project, id, q, now).Ok? <==> !Short(h, row, amount) && Room(h, row, amount, now)
  {
    hide Run, Unclaimed, Sound, Settle, Short, Price, KeyUsed, Spent, Balance, Log, LastSequence, UsageId, SettlementKey;
    RunSound(ops);
    UnclaimedIsFree(ops, id);
    var h := Run(EMPTY_HISTORY, ops);
    SettlementDecided(h, id, q, now);
    TermsAt(h, id);
  }

  lemma TermsAt(h: History, id: Id)
    requires Sound(h) && id in h.reservations
    ensures h.reservations[id].spec.id == id
  {
    hide InRange, AmountsOk;
  }

  // ---- stranded for good --------------------------------------------------

  /** A usage row under the settlement's id: it never settles, whatever follows. */
  lemma {:induction false} TakenIdStrands(h: History, ops: seq<Timed>, id: Id, project: Id, q: SettleRequest, now: Instant)
    requires Good(h) && id in h.reservations && h.reservations[id].state != Settled && UsageId(id) in h.usage
    ensures !IsSettled(Run(h, ops), id) && UsageId(id) in Run(h, ops).usage
    ensures Settle(Run(h, ops), project, id, q, now).Err?
  {
    hide Step, Good, UsageId, Settle;
    if ops != [] {
      var before := ops[..|ops| - 1];
      TakenIdStrands(h, before, id, project, q, now);
      RunGood(h, before);
      NeverSettles(Run(h, before), ops[|ops| - 1].op, ops[|ops| - 1].now, id);
      StaysMetered(Run(h, before), ops[|ops| - 1].op, ops[|ops| - 1].now, id);
    }
    RunGood(h, ops);
    IsRefused(Run(h, ops), project, id, q, now);
  }

  lemma StaysMetered(h: History, op: Op, now: Instant, id: Id)
    requires Good(h) && UsageId(id) in h.usage
    ensures UsageId(id) in Step(h, op, now).usage
  {
    hide Step, Good, UsageId, ReservationsAge, ReviewsAge, PapersAge, EnrollmentAges;
    StepAges(h, op, now);
  }

  lemma NeverSettles(h: History, op: Op, now: Instant, id: Id)
    requires Good(h) && !IsSettled(h, id) && UsageId(id) in h.usage
    ensures !IsSettled(Step(h, op, now), id)
  {
    hide RowsOk, InRange, AmountsOk, CatalogOk, ReviewsPoint, Step, ShapeOk, NoteOk, Files, Feeds, Shift, SummaryOf,
         Writes, Amount, Stems, UsageId;
    if Apart(op) {
      ApartStep(h, op, now);
    } else {
      var shape, note := StepShape(h, op, now);
      SilentWrites(h, Step(h, op, now), SummaryOf(h, shape, now), note);
      ShapeNeverSettles(h, Step(h, op, now), shape, now, id);
    }
  }

  lemma ShapeNeverSettles(h: History, after: History, shape: Shape, now: Instant, id: Id)
    requires RowsOk(h) && !IsSettled(h, id) && UsageId(id) in h.usage
    requires Amount(shape) && ShapeOk(h, shape, now) && Writes(h, after, SummaryOf(h, shape, now))
    ensures !IsSettled(after, id)
  {
    hide OrdersMove, RefundFits, Gated, PayerOf, RefundAccount, BalanceGate, BudgetGate, ReservedRequest, UsageId,
         MeteredRequest, SettlementKey, ReportKey, SettleRefundKey, Pair, ClearingPair, Micros, Fresh;
  }

  lemma IsRefused(h: History, project: Id, id: Id, q: SettleRequest, now: Instant)
    requires Good(h) && !IsSettled(h, id) && UsageId(id) in h.usage
    ensures Settle(h, project, id, q, now).Err?
  {
    hide CatalogOk, ReviewsPoint, UsageId, UsageCost, PostUsage, HoldRoom, InRange, AmountsOk, SettleRequestOk;
  }

  /** A posting under the settlement's key: it settles for nothing or not at all. */
  lemma {:induction false} TakenKeyStrands(h: History, ops: seq<Timed>, id: Id, q: SettleRequest, now: Instant)
    requires Good(h) && KeyUsed(h, SettlementKey(id))
    ensures KeyUsed(Run(h, ops), SettlementKey(id))
    ensures Settleable(Run(h, ops), id, q) && 0 < Price(Run(h, ops).reservations[id], q) ==>
      Settle(Run(h, ops), Run(h, ops).reservations[id].spec.project, id, q, now).Err?
  {
    hide Run, Good, SettlementKey, Settle, Price, ReservationsAge, ReviewsAge, PapersAge, EnrollmentAges;
    RecordsLast(h, ops);
    KeyStays(h, Run(h, ops), SettlementKey(id));
    RunGood(h, ops);
    if Settleable(Run(h, ops), id, q) && 0 < Price(Run(h, ops).reservations[id], q) {
      KeyRefuses(Run(h, ops), id, q, now);
    }
  }

  lemma KeyStays(h: History, after: History, key: string)
    requires h.ledger <= after.ledger && KeyUsed(h, key)
    ensures KeyUsed(after, key)
  {
    var i :| 0 <= i < |h.ledger| && h.ledger[i].idempotencyKey == key;
    assert after.ledger[i] == h.ledger[i];
  }

  lemma KeyRefuses(h: History, id: Id, q: SettleRequest, now: Instant)
    requires Good(h) && KeyUsed(h, SettlementKey(id)) && Settleable(h, id, q) && 0 < Price(h.reservations[id], q)
    ensures Settle(h, h.reservations[id].spec.project, id, q, now).Err?
  {
    hide Sound, CatalogOk, ReviewsPoint, Settle, Price, KeyUsed, Spent, Balance, Log, LastSequence, Short, Meterable;
    SettlementDecided(h, id, q, now);
    TermsAt(h, id);
  }

  // ---- and each of them happens -------------------------------------------

  /** The names of one tenant's request. */
  datatype Names = Names(tenant: Id, project: Id, key: Id, reservation: Id, request: Id)

  predicate NamesOk(n: Names) {
    Identifier(n.tenant) && Identifier(n.project) && Identifier(n.key) && Identifier(n.reservation) && Identifier(n.request)
  }

  const START := Instant(0, 0)

  function KeyOf(n: Names): ApiKey {
    ApiKey(n.project, n.tenant, false, None, {"completions"}, {DEFAULT_MODEL.id}, 0)
  }

  function Asked(n: Names): ReserveRequest {
    ReserveRequest(n.reservation, n.tenant, n.project, n.key, n.request, DEFAULT_MODEL.id, DEFAULT_MODEL.id,
                   DEFAULT_MODEL.priceVersion, 1, 0)
  }

  const USED := SettleRequest(1, 0, 0, DEFAULT_MODEL.id, DEFAULT_MODEL.id, "succeeded")

  /** A postpaid project reserves one input token and dispatches. */
  function Dispatching(n: Names): seq<Timed> {
    [Timed(DoOpenAccount(n.project, n.tenant), START), Timed(DoBootstrap, START),
     Timed(DoIssueKey(n.key, KeyOf(n)), START), Timed(DoReserve(Asked(n)), START),
     Timed(DoDispatch(n.project, n.reservation), START)]
  }

  function Row(n: Names, state: ReservationState): Reservation {
    Reservation(Asked(n), DEFAULT_MODEL, DEFAULT_MODEL.inputPrice, None, state, None)
  }

  lemma RunMore(h: History, ops: seq<Timed>, t: Timed)
    ensures Run(h, ops + [t]) == Step(Run(h, ops), t.op, t.now)
  {
    hide Step;
    assert (ops + [t])[..|ops|] == ops;
  }

  /** The project, its key and the default model. */
  function Enrolled(n: Names): History {
    EMPTY_HISTORY.(accounts := map[n.project := Account(n.tenant, true, "CNY", false)],
                   catalog := Bootstrap(EMPTY_HISTORY.catalog), keys := map[n.key := KeyOf(n)])
  }

  lemma Enrolling(n: Names)
    ensures Run(EMPTY_HISTORY, Dispatching(n)[..3]) == Enrolled(n)
  {
    hide Run, Step, Bootstrap;
    var ops := Dispatching(n);
    RunNothing(EMPTY_HISTORY);
    RunMore(EMPTY_HISTORY, [], ops[0]);
    RunMore(EMPTY_HISTORY, ops[..1], ops[1]);
    RunMore(EMPTY_HISTORY, ops[..2], ops[2]);
    assert [] + [ops[0]] == ops[..1] && ops[..1] + [ops[1]] == ops[..2] && ops[..2] + [ops[2]] == ops[..3];
    EnrollingSteps(n);
  }

  lemma AdminSteps(h: History, project: Id, tenant: Id, id: Id, key: ApiKey, now: Instant)
    ensures Step(h, DoOpenAccount(project, tenant), now) == match OpenAccount(h, project, tenant) case Ok(a) => a case _ => h
    ensures Step(h, DoBootstrap, now) == h.(catalog := Bootstrap(h.catalog))
    ensures Step(h, DoIssueKey(id, key), now) == match IssueKey(h, id, key) case Ok(a) => a case _ => h
  {
    hide OpenAccount, IssueKey, Bootstrap;
  }

  lemma EnrollingSteps(n: Names)
    ensures
      var h1 := Step(EMPTY_HISTORY, DoOpenAccount(n.project, n.tenant), START);
      Step(Step(h1, DoBootstrap, START), DoIssueKey(n.key, KeyOf(n)), START) == Enrolled(n)
  {
    hide Bootstrap, Step;
    var h1 := Step(EMPTY_HISTORY, DoOpenAccount(n.project, n.tenant), START);
    AdminSteps(EMPTY_HISTORY, n.project, n.tenant, n.key, KeyOf(n), START);
    AdminSteps(h1, n.project, n.tenant, n.key, KeyOf(n), START);
    AdminSteps(Step(h1, DoBootstrap, START), n.project, n.tenant, n.key, KeyOf(n), START);
  }

  lemma RunNothing(h: History)
    ensures Run(h, []) == h
  {
  }

  lemma ModelNames()
    ensures Identifier(DEFAULT_MODEL.id) && Identifier(DEFAULT_MODEL.priceVersion)
  {
  }

  lemma NothingHeld(h: History, account: Id, key: Id)
    requires h.reservations == map[]
    ensures Held(h, account) == 0 && KeyHeld(h, key) == 0
  {
    SumZero(h.reservations, HeldFor(account));
    SumZero(h.reservations, HeldByKey(key));
  }

  lemma Reserving(n: Names)
    requires NamesOk(n)
    ensures Reserve(Enrolled(n), Asked(n), START)
         == Rewrite(Enrolled(n), Row(n, Reserved), CreatedOf(n), START)
  {
    hide Identifier, Rewrite, Held, KeyHeld;
    ModelNames();
    NothingHeld(Enrolled(n), n.project, n.key);
    assert UsageCost(DEFAULT_MODEL, 1, 0) == Some(DEFAULT_MODEL.inputPrice);
  }

  /** What the run leaves: one dispatched row, nothing metered, nothing posted. */
  ghost predicate Outstanding(h: History, n: Names) {
    && h.accounts == Enrolled(n).accounts && h.keys == Enrolled(n).keys && h.catalog == Enrolled(n).catalog
    && h.reservations == map[n.reservation := Row(n, Dispatched)]
    && h.usage == map[] && h.ledger == [] && h.payments == map[] && h.orders == map[] && |Log(h, n.project)| == 2
    && LastSequence(Log(h, n.project)) == 2
  }

  lemma DispatchingLeaves(n: Names)
    requires NamesOk(n)
    ensures Outstanding(Run(EMPTY_HISTORY, Dispatching(n)), n)
  {
    hide Run, Step, NamesOk, Enrolled, Outstanding;
    var ops := Dispatching(n);
    Enrolling(n);
    RunMore(EMPTY_HISTORY, ops[..3], ops[3]);
    RunMore(EMPTY_HISTORY, ops[..4], ops[4]);
    assert ops[..3] + [ops[3]] == ops[..4] && ops[..4] + [ops[4]] == ops;
    ReservingStep(n);
    DispatchingStep(n);
  }

  lemma ReservingStep(n: Names)
    requires NamesOk(n)
    ensures Rewrite(Enrolled(n), Row(n, Reserved), CreatedOf(n), START).Ok?
    ensures Step(Enrolled(n), DoReserve(Asked(n)), START)
         == Rewrite(Enrolled(n), Row(n, Reserved), CreatedOf(n), START).value.0
  {
    hide NamesOk, Reserve, Enrolled;
    Reserving(n);
    NothingLogged(n);
  }

  function CreatedOf(n: Names): Event {
    ReservationCreated(n.reservation, DEFAULT_MODEL.inputPrice, DEFAULT_MODEL.priceVersion)
  }

  lemma NothingLogged(n: Names)
    ensures Log(Enrolled(n), n.project) == []
  {
  }

  lemma DispatchingStep(n: Names)
    requires Rewrite(Enrolled(n), Row(n, Reserved), CreatedOf(n), START).Ok?
    ensures Outstanding(Step(Rewrite(Enrolled(n), Row(n, Reserved), CreatedOf(n), START).value.0,
                             DoDispatch(n.project, n.reservation), START), n)
  {
    hide Bootstrap, KeyOf;
  }

  lemma UsedSettles(h: History, n: Names)
    requires n.reservation in h.reservations && h.reservations[n.reservation] == Row(n, Dispatched)
    ensures Settleable(h, n.reservation, USED)
    ensures Price(h.reservations[n.reservation], USED) == DEFAULT_MODEL.inputPrice
  {
    hide Identifier;
    ModelNames();
    assert UsageCost(DEFAULT_MODEL, 1, 0) == Some(DEFAULT_MODEL.inputPrice);
  }

  /** Enforcement switched on over a reservation that the balance never covered. */
  lemma EnforcementStrands(n: Names)
    requires NamesOk(n)
    ensures
      var h := Run(EMPTY_HISTORY, Dispatching(n) + [Timed(DoSetPolicy(n.project, true), START)]);
      && Settleable(h, n.reservation, USED)
      && Settle(h, n.project, n.reservation, USED, START) == Err(InsufficientFunds)
  {
    hide Run, Step, NamesOk, Settle, Sound, CatalogOk, ReviewsPoint, Dispatching, Meterable, Short, Bookable;
    var on := Timed(DoSetPolicy(n.project, true), START);
    var first := Run(EMPTY_HISTORY, Dispatching(n));
    var h := Run(EMPTY_HISTORY, Dispatching(n) + [on]);
    DispatchingLeaves(n);
    RunMore(EMPTY_HISTORY, Dispatching(n), on);
    PolicyOn(first, n);
    RunSound(Dispatching(n) + [on]);
    UsedSettles(h, n);
    SettlementDecided(h, n.reservation, USED, START);
    Uncovered(h, n);
  }

  lemma PolicyOn(h: History, n: Names)
    requires Outstanding(h, n)
    ensures
      var after := Step(h, DoSetPolicy(n.project, true), START);
      after == h.(accounts := map[n.project := Account(n.tenant, true, "CNY", true)])
  {
    hide Log, LastSequence, Bootstrap;
  }

  lemma Uncovered(h: History, n: Names)
    requires Sound(h) && h.accounts == map[n.project := Account(n.tenant, true, "CNY", true)]
    requires h.reservations == map[n.reservation := Row(n, Dispatched)] && h.usage == map[] && h.ledger == []
    ensures
      var row := h.reservations[n.reservation];
      Meterable(h, row, DEFAULT_MODEL.inputPrice, START) && Short(h, row, DEFAULT_MODEL.inputPrice)
  {
    hide RowsOk, InRange, AmountsOk, UsageId;
    HoldCounted(h, n.reservation);
    SumZero(h.usage, SpentBy(n.key, START.month));
  }

  /** A v1 report of another request whose event id is the settlement's. */
  lemma ReportStrands(n: Names, other: Id, ops: seq<Timed>, q: SettleRequest, now: Instant)
    requires NamesOk(n) && Identifier(other) && other != n.request
    ensures
      var h := Run(EMPTY_HISTORY, Dispatching(n) + [Timed(DoRecordUsage(Colliding(n, other)), START)]);
      && Settleable(h, n.reservation, USED)
      && !IsSettled(Run(h, ops), n.reservation)
      && Settle(Run(h, ops), n.project, n.reservation, q, now).Err?
  {
    hide Run, Step, NamesOk, Settle, Sound, CatalogOk, ReviewsPoint, Dispatching, RecordUsage, UsageId;
    var report := Timed(DoRecordUsage(Colliding(n, other)), START);
    var first := Run(EMPTY_HISTORY, Dispatching(n));
    var h := Run(EMPTY_HISTORY, Dispatching(n) + [report]);
    DispatchingLeaves(n);
    RunMore(EMPTY_HISTORY, Dispatching(n), report);
    Recording(first, n, other);
    RecordedStep(first, Colliding(n, other));
    RunSound(Dispatching(n) + [report]);
    UsedSettles(h, n);
    TakenIdStrands(h, ops, n.reservation, n.project, q, now);
  }

  /** A failed request, which costs nothing. */
  function Colliding(n: Names, other: Id): UsageReport {
    UsageReport(UsageId(n.reservation), other, n.tenant, n.project, n.key, DEFAULT_MODEL.id, DEFAULT_MODEL.priceVersion,
                0, 0, 0, 0, "failed", START)
  }

  lemma IdentifierNonBlank(s: string)
    requires Identifier(s)
    ensures NonBlank(s)
  {
    assert s[0] !in " \t\n\r";
  }

  lemma CollidingOk(n: Names, other: Id)
    requires NamesOk(n) && Identifier(other)
    ensures UsageReportOk(Colliding(n, other)) && !Chargeable(Colliding(n, other))
  {
    hide Identifier, NonBlank;
    ModelNames();
    IdentifierNonBlank(n.tenant);
    IdentifierNonBlank(n.project);
    IdentifierNonBlank(n.key);
    IdentifierNonBlank(other);
    IdentifierNonBlank(DEFAULT_MODEL.id);
    IdentifierNonBlank(DEFAULT_MODEL.priceVersion);
    StartsNonBlank("failed");
    StartsNonBlank(UsageId(n.reservation));
  }

  lemma StartsNonBlank(s: string)
    requires 0 < |s| && 'a' <= s[0] <= 'z'
    ensures NonBlank(s)
  {
    assert s[0] !in " \t\n\r";
  }

  lemma Recording(h: History, n: Names, other: Id)
    requires NamesOk(n) && Identifier(other) && other != n.request && Outstanding(h, n)
    ensures RecordUsage(h, Colliding(n, other), START).Ok?
    ensures
      var after := RecordUsage(h, Colliding(n, other), START).value.0;
      UsageId(n.reservation) in after.usage && after.reservations == h.reservations
  {
    hide NamesOk, Identifier, UsageReportOk, Chargeable, UsageId, RecordUsage, Spent, Outstanding, ReservedRequest;
    CollidingOk(n, other);
    Knows(h, n, other);
    NothingSpent(h, n.key, START.month);
    FreeReport(h, Colliding(n, other));
  }

  lemma Knows(h: History, n: Names, other: Id)
    requires Outstanding(h, n) && other != n.request
    ensures n.project in h.accounts && n.key in h.keys && h.keys[n.key] == KeyOf(n)
    ensures h.usage == map[] && !ReservedRequest(h, n.project, other)
  {
    hide Log, LastSequence, Bootstrap, KeyOf;
  }

  lemma NothingSpent(h: History, key: Id, month: int)
    requires h.usage == map[]
    ensures Spent(h, key, month) == 0
  {
    SumZero(h.usage, SpentBy(key, month));
  }

  /** A report that costs nothing is only recorded. */
  lemma FreeReport(h: History, u: UsageReport)
    requires UsageReportOk(u) && !Chargeable(u) && u.project in h.accounts && u.eventId !in h.usage
    requires u.key in h.keys && h.keys[u.key].project == u.project && h.keys[u.key].tenant == u.tenant
    requires !ReservedRequest(h, u.project, u.requestId) && Spent(h, u.key, u.occurredAt.month) == 0
    ensures RecordUsage(h, u, START).Ok?
    ensures RecordUsage(h, u, START).value.0 == h.(usage := h.usage[u.eventId := ReportedUsage(u, 0)])
  {
    hide UsageReportOk, Chargeable, ReservedRequest, Spent, Post;
  }

  lemma RecordedStep(h: History, u: UsageReport)
    requires RecordUsage(h, u, START).Ok?
    ensures Step(h, DoRecordUsage(u), START) == RecordUsage(h, u, START).value.0
  {
    hide RecordUsage;
  }

  /** What the endpoints take as an idempotency key, in characters. */
  predicate KeyAccepted(key: string) {
    16 <= |key| <= 128
  }

  /** A capture whose caller chose the settlement's idempotency key. */
  lemma CaptureStrands(n: Names, order: Id, payment: Id, via: string, reference: string, ops: seq<Timed>,
                       q: SettleRequest, now: Instant)
    requires NamesOk(n) && NonBlank(via) && NonBlank(reference) && KeyAccepted(SettlementKey(n.reservation))
    ensures
      var h := Run(EMPTY_HISTORY, Dispatching(n) + Paying(n, order, payment, via, reference));
      && Settleable(h, n.reservation, USED) && 0 < Price(h.reservations[n.reservation], USED)
      && (Settleable(Run(h, ops), n.reservation, q) && 0 < Price(Run(h, ops).reservations[n.reservation], q) ==>
            Settle(Run(h, ops), Run(h, ops).reservations[n.reservation].spec.project, n.reservation, q, now).Err?)
  {
    hide Run, Step, NamesOk, Settle, Sound, CatalogOk, ReviewsPoint, Dispatching, CapturePayment, SettlementKey,
         Outstanding, KeyUsed, Settleable, Price, NonBlank;
    var pay := Paying(n, order, payment, via, reference);
    var first := Run(EMPTY_HISTORY, Dispatching(n));
    DispatchingLeaves(n);
    RunMore(EMPTY_HISTORY, Dispatching(n), pay[0]);
    RunMore(EMPTY_HISTORY, Dispatching(n) + [pay[0]], pay[1]);
    assert Dispatching(n) + [pay[0]] + [pay[1]] == Dispatching(n) + pay;
    var h := Run(EMPTY_HISTORY, Dispatching(n) + pay);
    Ordering(first, n, order);
    Capturing(first, n, order, payment, via, reference);
    RunSound(Dispatching(n) + pay);
    UsedSettles(h, n);
    TakenKeyStrands(h, ops, n.reservation, q, now);
  }

  function Paying(n: Names, order: Id, payment: Id, via: string, reference: string): seq<Timed> {
    [Timed(DoCreateOrder(order, n.tenant, n.project, 1), START),
     Timed(DoCapture(order, payment, via, reference, SettlementKey(n.reservation)), START)]
  }

  lemma Ordering(h: History, n: Names, order: Id)
    requires Outstanding(h, n)
    ensures Step(h, DoCreateOrder(order, n.tenant, n.project, 1), START)
         == h.(orders := map[order := Order(n.tenant, n.project, 1, Pending)])
  {
    hide Log, LastSequence, Bootstrap;
  }

  lemma Capturing(h: History, n: Names, order: Id, payment: Id, via: string, reference: string)
    requires Outstanding(h, n) && NonBlank(via) && NonBlank(reference)
    ensures
      var ordered := h.(orders := map[order := Order(n.tenant, n.project, 1, Pending)]);
      var after := Step(ordered, DoCapture(order, payment, via, reference, SettlementKey(n.reservation)), START);
      && KeyUsed(after, SettlementKey(n.reservation))
      && n.reservation in after.reservations && after.reservations[n.reservation] == Row(n, Dispatched)
  {
    hide NonBlank, SettlementKey, Bootstrap;
    var ordered := h.(orders := map[order := Order(n.tenant, n.project, 1, Pending)]);
    var key := SettlementKey(n.reservation);
    var mid := Captured(ordered, payment, Payment(order, via, reference, 1));
    assert Balance(mid, n.project) == 0;
    assert !KeyUsed(mid, key);
    var r := CapturePayment(ordered, order, payment, via, reference, key, START);
    assert r.Ok?;
    assert r.value.0.ledger[0].idempotencyKey == key;
  }
}
