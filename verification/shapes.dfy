/** Every committed operation of the reservation protocol and v1 metering has a
    shape: what it writes, announces and moves. */
module Shapes {
  import opened Prelude
  import opened Sums
  import opened Rows
  import opened Totals
  import opened Outbox
  import opened Ledger
  import opened Protocol
  import opened PaymentRules
  import opened Effects
  import opened Runs

  // ---- feeding the outbox -------------------------------------------------

  /** What Append does to log and jobs depends on nothing else. */
  lemma AppendAlike(h1: History, h2: History, account: Id, e: Event, now: Instant)
    requires h1.log == h2.log && h1.jobs == h2.jobs
    ensures Append(h1, account, e, now).Ok? <==> Append(h2, account, e, now).Ok?
    ensures Append(h1, account, e, now).Ok? ==>
      && Append(h1, account, e, now).value.log == Append(h2, account, e, now).value.log
      && Append(h1, account, e, now).value.jobs == Append(h2, account, e, now).value.jobs
  {
    SameLog(h1, h2, account);
    hide Log, LastSequence, Schedule;
  }

  lemma SameLog(h1: History, h2: History, account: Id)
    requires h1.log == h2.log
    ensures Log(h1, account) == Log(h2, account)
  {
  }

  lemma FeedsNone(h: History, after: History, account: Id, now: Instant)
    requires after.log == h.log && after.jobs == h.jobs
    ensures Feeds(h, after, account, [], now)
  {
  }

  /** One more event on top of what was fed already. */
  lemma FeedsMore(h: History, mid: History, after: History, account: Id, events: seq<Event>, e: Event, now: Instant)
    requires Feeds(h, mid, account, events, now)
    requires Append(mid, account, e, now).Ok?
    requires after.log == Append(mid, account, e, now).value.log
    requires after.jobs == Append(mid, account, e, now).value.jobs
    ensures Feeds(h, after, account, events + [e], now)
  {
    var all := events + [e];
    assert all[..|all| - 1] == events && all[|all| - 1] == e;
    AppendAlike(mid, AppendAll(h, account, events, now).value, account, e, now);
  }

  lemma FeedsOne(h: History, mid: History, after: History, account: Id, e: Event, now: Instant)
    requires mid.log == h.log && mid.jobs == h.jobs
    requires Append(mid, account, e, now).Ok?
    requires after.log == Append(mid, account, e, now).value.log
    requires after.jobs == Append(mid, account, e, now).value.jobs
    ensures Feeds(h, after, account, [e], now)
  {
    FeedsNone(h, mid, account, now);
    FeedsMore(h, mid, after, account, [], e, now);
    assert [] + [e] == [e];
  }

  /** Where the log starts from is all that matters. */
  lemma {:induction false} AppendAllAlike(h1: History, h2: History, account: Id, events: seq<Event>, now: Instant)
    requires h1.log == h2.log && h1.jobs == h2.jobs
    ensures AppendAll(h1, account, events, now).Ok? <==> AppendAll(h2, account, events, now).Ok?
    ensures AppendAll(h1, account, events, now).Ok? ==>
      && AppendAll(h1, account, events, now).value.log == AppendAll(h2, account, events, now).value.log
      && AppendAll(h1, account, events, now).value.jobs == AppendAll(h2, account, events, now).value.jobs
  {
    hide Append;
    if events != [] {
      var earlier := events[..|events| - 1];
      AppendAllAlike(h1, h2, account, earlier, now);
      if AppendAll(h1, account, earlier, now).Ok? {
        AppendAlike(AppendAll(h1, account, earlier, now).value, AppendAll(h2, account, earlier, now).value,
                    account, events[|events| - 1], now);
      }
    }
  }

  lemma FeedsAlike(h1: History, h2: History, after: History, account: Id, events: seq<Event>, now: Instant)
    requires h1.log == h2.log && h1.jobs == h2.jobs && Feeds(h1, after, account, events, now)
    ensures Feeds(h2, after, account, events, now)
  {
    AppendAllAlike(h1, h2, account, events, now);
  }

  // ---- putting a shape together -------------------------------------------

  lemma Fit(h: History, after: History, shape: Shape, now: Instant)
    requires Amount(shape) && ShapeOk(h, shape, now) && Steady(h, after)
    requires after.reviews == h.reviews && after.audits == h.audits
    requires Summarizes(h, after, SummaryOf(h, shape, now), now)
    ensures Fitting(h, after, shape, Silent, now)
  {
    hide Feeds, Shift, Writes, ShapeOk, SummaryOf;
    var s := SummaryOf(h, shape, now);
    assert s.events + [] == s.events;
    assert Noticed(s, Silent) == s;
  }

  /** Rows that carry no money may be written on the side. */
  predicate Aside(h: History, after: History) {
    && after == h.(orders := after.orders, checkouts := after.checkouts, receipts := after.receipts)
    && OrdersMove(h.orders, after.orders, None)
  }

  lemma QuietShape(h: History, after: History, account: Id, now: Instant)
    requires Aside(h, after)
    ensures Fitting(h, after, Noting(account), Silent, now)
  {
    hide Sum, SumSeq, Feeds, Shift;
    FeedsNone(h, after, account, now);
    NothingMoves(h, after, At(account, "", 0));
    Fit(h, after, Noting(account), now);
  }

  /** A note may follow any shape. */
  lemma WithNote(h: History, mid: History, touched: History, after: History, shape: Shape, note: Note, now: Instant)
    requires Fitting(h, mid, shape, Silent, now) && NoteOk(h, shape, note) && |Notices(note)| == 1
    requires touched == mid.(reviews := touched.reviews, audits := touched.audits) && Files(h, touched, note)
    requires Append(touched, SummaryOf(h, shape, now).account, Notices(note)[0], now) == Ok(after)
    requires note.Filed? ==> note.review.project == SummaryOf(h, shape, now).account
    ensures Fitting(h, after, shape, note, now)
  {
    hide Sum, SumSeq, ShapeOk, SummaryOf, Feeds, Notices, Shift, NoteOk;
    var s, e := SummaryOf(h, shape, now), Notices(note)[0];
    AppendAlike(touched, mid, s.account, e, now);
    SilentNotices();
    assert s.events + [] == s.events;
    FeedsMore(h, mid, after, s.account, s.events, e, now);
    assert Notices(note) == [e];
    ShiftOn(h, mid, after, s.drift);
    assert Writes(h, after, Noticed(s, note));
  }

  lemma SilentNotices()
    ensures Notices(Silent) == []
  {
  }

  lemma ShiftOn(h: History, mid: History, after: History, d: Drift)
    requires Shift(h, mid, d)
    requires after.reservations == mid.reservations && after.usage == mid.usage && after.ledger == mid.ledger
    ensures Shift(h, after, d)
  {
    hide Sum, SumSeq;
    NothingMoves(mid, after, d);
  }

  lemma NoteShape(h: History, touched: History, after: History, account: Id, note: Note, now: Instant)
    requires touched == h.(reviews := touched.reviews, audits := touched.audits) && Files(h, touched, note)
    requires NoteOk(h, Noting(account), note) && |Notices(note)| == 1
    requires Append(touched, account, Notices(note)[0], now) == Ok(after)
    requires note.Filed? ==> note.review.project == account
    ensures Fitting(h, after, Noting(account), note, now)
  {
    hide Fitting, Append, NoteOk, Files, Notices;
    QuietShape(h, h, account, now);
    WithNote(h, h, touched, after, Noting(account), note, now);
  }

  // ---- reservations -------------------------------------------------------

  lemma MovingShape(h: History, row: Reservation, e: Event, now: Instant)
    requires 0 <= row.reserved && ShapeOk(h, Moving(row, e), now) && Rewrite(h, row, e, now).Ok?
    ensures Fitting(h, Rewrite(h, row, e, now).value.0, Moving(row, e), Silent, now)
  {
    hide Shift, Feeds, Tells;
    var after := Rewrite(h, row, e, now).value.0;
    var mid := h.(reservations := h.reservations[row.spec.id := row]);
    FeedsOne(h, mid, after, row.spec.project, e, now);
    RewriteHeld(h, row, e, now);
    Fit(h, after, Moving(row, e), now);
  }

  lemma OpeningShape(h: History, row: Reservation, now: Instant)
    requires 0 <= row.reserved && ShapeOk(h, Opening(row), now)
    requires Rewrite(h, row, ReservationCreated(row.spec.id, row.reserved, row.price.priceVersion), now).Ok?
    ensures Fitting(h, Rewrite(h, row, ReservationCreated(row.spec.id, row.reserved, row.price.priceVersion), now).value.0,
                    Opening(row), Silent, now)
  {
    hide Shift, Feeds, BalanceGate, BudgetGate, ReservedRequest, MeteredRequest;
    var e := ReservationCreated(row.spec.id, row.reserved, row.price.priceVersion);
    var after := Rewrite(h, row, e, now).value.0;
    var mid := h.(reservations := h.reservations[row.spec.id := row]);
    FeedsOne(h, mid, after, row.spec.project, e, now);
    RewriteMoves(h, row, e, now, now.month);
    Fit(h, after, Opening(row), now);
  }

  /** Reserve opens a row or replays one. */
  lemma ReserveShape(h: History, q: ReserveRequest, now: Instant) returns (shape: Shape)
    requires Sound(h) && Reserve(h, q, now).Ok?
    ensures Unkeyed(shape)
    ensures Fitting(h, Reserve(h, q, now).value.0, shape, Silent, now)
  {
    hide Fitting, Admit;
    if q.id in h.reservations {
      shape := Noting(q.project);
      QuietShape(h, h, q.project, now);
    } else {
      var model := ActiveModel(h.catalog, q.model).value;
      var amount := UsageCost(model, q.inputLimit, q.outputLimit).value;
      shape := AdmitShape(h, q, model, amount, now);
    }
  }

  lemma AdmitShape(h: History, q: ReserveRequest, model: Model, amount: I64, now: Instant) returns (shape: Shape)
    requires RowsOk(h) && q.project in h.accounts && q.key in h.keys && q.id !in h.reservations
    requires UsageCost(model, q.inputLimit, q.outputLimit) == Some(amount) && PriceOk(model)
    requires ActiveModel(h.catalog, q.model) == Some(model) && q.priceVersion == model.priceVersion
    requires !ReservedRequest(h, q.project, q.requestId) && !MeteredRequest(h, q.project, q.requestId)
    requires Admit(h, q, model, amount, now).Ok?
    ensures Unkeyed(shape)
    ensures Fitting(h, Admit(h, q, model, amount, now).value.0, shape, Silent, now)
  {
    hide Fitting, BalanceGate, BudgetGate, ReservedRequest, MeteredRequest, HoldRoom, Rewrite, RowsOk;
    CostNonnegative(model, q.inputLimit, q.outputLimit);
    var row := Reservation(q, model, amount, None, Reserved, None);
    shape := Opening(row);
    OpeningShape(h, row, now);
  }

  lemma DispatchShape(h: History, project: Id, id: Id, now: Instant) returns (shape: Shape)
    requires RowsOk(h) && Dispatch(h, project, id, now).Ok?
    ensures Unkeyed(shape)
    ensures Fitting(h, Dispatch(h, project, id, now).value.0, shape, Silent, now)
  {
    hide Fitting, Rewrite;
    var row := Locked(h, project, id).value;
    if row.state == Dispatched {
      shape := Noting(project);
      QuietShape(h, h, project, now);
    } else {
      shape := Moving(row.(state := Dispatched), ReservationDispatched(id));
      MovingShape(h, row.(state := Dispatched), ReservationDispatched(id), now);
    }
  }

  lemma ReleaseShape(h: History, project: Id, id: Id, reason: string, now: Instant) returns (shape: Shape)
    requires RowsOk(h) && Release(h, project, id, reason, now).Ok?
    ensures Unkeyed(shape)
    ensures Fitting(h, Release(h, project, id, reason, now).value.0, shape, Silent, now)
  {
    hide Fitting, Rewrite, HoldRoom;
    var row := Locked(h, project, id).value;
    if row.state == Released {
      shape := Noting(project);
      QuietShape(h, h, project, now);
    } else {
      var released := row.(state := Released, completion := Some(NotDispatched));
      shape := Moving(released, ReservationReleased(id));
      MovingShape(h, released, ReservationReleased(id), now);
    }
  }

  lemma UnresolvedShape(h: History, project: Id, id: Id, q: UnresolvedRequest, now: Instant) returns (shape: Shape)
    requires RowsOk(h) && ReportUnresolved(h, project, id, q, now).Ok?
    ensures Unkeyed(shape)
    ensures Fitting(h, ReportUnresolved(h, project, id, q, now).value.0, shape, Silent, now)
  {
    hide Fitting, Rewrite, UnresolvedOk;
    var row := Locked(h, project, id).value;
    if row.state != Dispatched || row.completion.Some? {
      shape := Noting(project);
      QuietShape(h, h, project, now);
    } else {
      var reported := row.(completion := Some(Unresolved(q)));
      shape := Moving(reported, ReservationUnresolved(id, q));
      MovingShape(h, reported, ReservationUnresolved(id, q), now);
    }
  }

  // ---- charges ------------------------------------------------------------

  lemma PostFeeds(h: History, account: Id, kind: PostingKind, reference: Reference, key: string, delta: I64,
                  counter: Book, now: Instant)
    requires Post(h, account, kind, reference, key, delta, counter, now).Ok?
    ensures
      var after := Post(h, account, kind, reference, key, delta, counter, now).value;
      && Feeds(h, after, account, [LedgerPosted(|h.ledger|, kind, reference, delta)], now)
      && delta != I64_MIN
      && after.ledger == h.ledger + [Posting(kind, reference, key, Pair(account, delta, counter))]
      && after == h.(ledger := after.ledger, log := after.log, jobs := after.jobs)
    ensures delta < 0 ==> Gated(h, account, -(delta as int))
    ensures Fresh(h, key) && account in h.accounts
  {
    hide Balance, Held;
    var after := Post(h, account, kind, reference, key, delta, counter, now).value;
    var mid := h.(ledger := h.ledger + [Posting(kind, reference, key, Pair(account, delta, counter))]);
    FeedsOne(h, mid, after, account, LedgerPosted(|h.ledger|, kind, reference, delta), now);
  }

  lemma PostUsageFeeds(h: History, project: Id, usageId: Id, key: string, amount: I64, now: Instant)
    requires 0 <= amount && PostUsage(h, project, usageId, key, amount, now).Ok?
    ensures
      var after := PostUsage(h, project, usageId, key, amount, now).value;
      && Feeds(h, after, project, ChargeEvents(h, usageId, amount), now)
      && after.ledger == h.ledger + (if 0 < amount then [ChargePosting(project, usageId, key, amount)] else [])
      && after == h.(ledger := after.ledger, log := after.log, jobs := after.jobs)
    ensures 0 < amount ==> Gated(h, project, amount) && Fresh(h, key)
  {
    hide Post, Gated, Feeds, Fresh;
    if 0 < amount {
      PostFeeds(h, project, UsageCharge, UsageRef(usageId), key, -amount, UsageRevenue, now);
    } else {
      FeedsNone(h, h, project, now);
    }
  }

  /** Freshness of a key and the prepaid gate look at these tables only. */
  lemma GatedAlike(h1: History, h2: History, account: Id, debit: int)
    requires Gated(h1, account, debit) && h1.accounts == h2.accounts
    requires h1.ledger == h2.ledger && h1.reservations == h2.reservations
    ensures Gated(h2, account, debit)
  {
  }

  lemma FreshAlike(h1: History, h2: History, key: string)
    requires h1.ledger == h2.ledger
    ensures Fresh(h1, key) == Fresh(h2, key)
  {
  }

  lemma ChargeFeeds(h: History, row: Reservation, q: SettleRequest, amount: I64, now: Instant)
    requires 0 <= amount <= row.reserved && Charge(h, row, q, amount, now).Ok?
    ensures
      var after := Charge(h, row, q, amount, now).value.0;
      var s := SummaryOf(h, Charging(row, q, amount), now);
      && Feeds(h, after, s.account, s.events, now) && Writes(h, after, s) && Steady(h, after)
      && after.reviews == h.reviews && after.audits == h.audits
      && UsageId(row.spec.id) !in h.usage
      && (0 < amount ==> Fresh(h, SettlementKey(row.spec.id)))
  {
    hide PostUsage, HoldRoom, Spent, Gated, Fresh, Feeds;
    var id, project := row.spec.id, row.spec.project;
    var metered := Metered(h, row, q, amount, now);
    var after := Charge(h, row, q, amount, now).value.0;
    PostUsageFeeds(metered, project, UsageId(id), SettlementKey(id), amount, now);
    var posted := PostUsage(metered, project, UsageId(id), SettlementKey(id), amount, now).value;
    FeedsAlike(metered, h, posted, project, ChargeEvents(h, UsageId(id), amount), now);
    FreshAlike(metered, h, SettlementKey(id));
    FeedsMore(h, posted, after, project, ChargeEvents(h, UsageId(id), amount),
              ReservationSettled(id, UsageId(id), amount), now);
  }

  lemma ChargingShape(h: History, row: Reservation, q: SettleRequest, amount: I64, now: Instant)
    requires RowsOk(h) && row.spec.id in h.reservations && h.reservations[row.spec.id] == row
    requires row.state == Dispatched && 0 <= amount <= row.reserved && Charge(h, row, q, amount, now).Ok?
    ensures Fitting(h, Charge(h, row, q, amount, now).value.0, Charging(row, q, amount), Silent, now)
  {
    hide Shift, Charge, RowsOk, Feeds, Writes, Fresh;
    ChargeMoves(h, row, q, amount, now);
    ChargeFeeds(h, row, q, amount, now);
    Fit(h, Charge(h, row, q, amount, now).value.0, Charging(row, q, amount), now);
  }

  /** A settlement either replays or charges at most what was reserved. */
  lemma SettleShape(h: History, row: Reservation, q: SettleRequest, now: Instant) returns (shape: Shape)
    requires RowsOk(h) && row.spec.id in h.reservations && h.reservations[row.spec.id] == row
    requires SettleLocked(h, row, q, now).Ok?
    ensures Unkeyed(shape)
    ensures Amount(shape) && SummaryOf(h, shape, now).account == row.spec.project
    ensures (shape.Noting? && row.state == Settled && row.completion == Some(Usage(q)))
         || (shape.Charging? && shape.was == row && shape.request == q)
    ensures Fitting(h, SettleLocked(h, row, q, now).value.0, shape, Silent, now)
  {
    hide Charge, Fitting, RowsOk, SettleRequestOk, SummaryOf, UsageCost, PriceOk, ShapeOk, Aside;
    if row.state == Settled {
      shape := Noting(row.spec.project);
      AsideNothing(h);
      QuietShape(h, h, row.spec.project, now);
    } else {
      var amount := SettlePriced(h, row, q, now);
      shape := Charging(row, q, amount);
      ChargingShape(h, row, q, amount, now);
    }
    AccountOf(h, shape, now);
  }

  lemma AsideNothing(h: History)
    ensures Aside(h, h)
  {
  }

  /** A settlement that commits is charged at its price, within the hold. */
  lemma SettlePriced(h: History, row: Reservation, q: SettleRequest, now: Instant) returns (amount: I64)
    requires RowsOk(h) && row.spec.id in h.reservations && h.reservations[row.spec.id] == row
    requires SettleLocked(h, row, q, now).Ok? && row.state != Settled
    ensures 0 <= amount <= row.reserved && row.state == Dispatched
    ensures Charge(h, row, q, amount, now) == SettleLocked(h, row, q, now)
  {
    assert 0 <= q.inputTokens && 0 <= q.outputTokens;
    hide Charge, RowsOk, SettleRequestOk, UsageCost, PriceOk;
    FrozenTerms(h, row.spec.id);
    CostMonotone(row.price, q.inputTokens, q.outputTokens, row.spec.inputLimit, row.spec.outputLimit);
    amount := UsageCost(row.price, q.inputTokens, q.outputTokens).value;
  }

  /** Admission froze a price and a worst case into the row. */
  lemma FrozenTerms(h: History, id: Id)
    requires RowsOk(h) && id in h.reservations
    ensures
      var r := h.reservations[id];
      && r.spec.id == id && 0 <= r.reserved && PriceOk(r.price)
      && UsageCost(r.price, r.spec.inputLimit, r.spec.outputLimit) == Some(r.reserved)
  {
  }

  lemma AccountOf(h: History, shape: Shape, now: Instant)
    requires Amount(shape) && (shape.Noting? || shape.Charging? || shape.Moving?)
    ensures SummaryOf(h, shape, now).account
         == match shape
            case Noting(account) => account
            case Charging(was, _, _) => was.spec.project
            case Moving(row, _) => row.spec.project
            case _ => ""
  {
  }

  lemma RecordShape(h: History, u: UsageReport, now: Instant) returns (shape: Shape)
    requires Sound(h) && RecordUsage(h, u, now).Ok?
    ensures Stems(DoRecordUsage(u), shape)
    ensures Fitting(h, RecordUsage(h, u, now).value.0, shape, Silent, now)
  {
    hide Fitting, PostUsage, Spent, RowsOk, InRange, AmountsOk, UsageReportOk, ReportCost;
    if u.eventId in h.usage {
      shape := Noting(u.project);
      QuietShape(h, h, u.project, now);
    } else {
      shape := MeteringShape(h, u, now);
    }
  }

  lemma MeteringFeeds(h: History, u: UsageReport, now: Instant, cost: I64)
    requires NewReport(h, u, now) && ReportCost(h.catalog, u) == Some(cost) && 0 <= cost
    ensures
      var after := RecordUsage(h, u, now).value.0;
      var s := SummaryOf(h, Metering(u, cost), now);
      && Feeds(h, after, s.account, s.events, now) && Writes(h, after, s) && Steady(h, after)
      && after.reviews == h.reviews && after.audits == h.audits
    ensures ShapeOk(h, Metering(u, cost), now)
  {
    hide PostUsage, Spent, Feeds, Gated, Fresh, ReservedRequest, ReportCost, UsageReportOk;
    var metered := Reported(h, u, cost);
    var after := RecordUsage(h, u, now).value.0;
    PostUsageFeeds(metered, u.project, u.eventId, ReportKey(u.eventId), cost, now);
    FeedsAlike(metered, h, after, u.project, ChargeEvents(h, u.eventId, cost), now);
    FreshAlike(metered, h, ReportKey(u.eventId));
    if 0 < cost {
      GatedAlike(metered, h, u.project, cost);
    }
  }

  lemma MeteringShape(h: History, u: UsageReport, now: Instant) returns (shape: Shape)
    requires Sound(h) && NewReport(h, u, now)
    ensures Stems(DoRecordUsage(u), shape)
    ensures Fitting(h, RecordUsage(h, u, now).value.0, shape, Silent, now)
  {
    hide Shift, RowsOk, InRange, AmountsOk, RecordUsage, Feeds, Writes, Balance, Held, KeyHeld, ShapeOk, SummaryOf,
         ReportCost, Fitting;
    RecordSound(h, u, now);
    var cost := ReportCost(h.catalog, u).value;
    shape := Metering(u, cost);
    MeteringFeeds(h, u, now, cost);
    MeteringDrift(h, u, cost, now);
    Fit(h, RecordUsage(h, u, now).value.0, shape, now);
  }

  lemma MeteringDrift(h: History, u: UsageReport, cost: I64, now: Instant)
    requires 0 <= cost
    ensures SummaryOf(h, Metering(u, cost), now).drift
         == Drift(u.project, -(cost as int), 0, u.key, 0, u.occurredAt.month, cost)
  {
  }
}
