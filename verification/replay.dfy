/** The outbox alone reproduces the money state: folding an account's events
    gives its balance, its held total and the standing of every reservation. */
module Replay {
  import opened Prelude
  import opened Sums
  import opened Rows
  import opened Totals
  import opened Outbox
  import opened Ledger
  import opened Protocol
  import opened CatalogService
  import opened Effects
  import opened Runs
  import opened Steps
  import opened Soundness

  // ---- a consumer ---------------------------------------------------------

  datatype Standing = Standing(state: ReservationState, amount: I64)

  /** What a consumer of the outbox knows about an account. */
  datatype Position = Position(balance: int, held: int, reservations: map<Id, Standing>)

  const NOTHING := Position(0, 0, map[])

  function Become(p: Position, id: Id, state: ReservationState): Position {
    if id !in p.reservations then p
    else
      var was := p.reservations[id];
      var freed := if Holding(was.state) && !Holding(state) then was.amount else 0;
      p.(held := p.held - freed, reservations := p.reservations[id := was.(state := state)])
  }

  function Apply(p: Position, e: Event): Position {
    match e
    case ReservationCreated(id, reserved, _) =>
      p.(held := p.held + reserved, reservations := p.reservations[id := Standing(Reserved, reserved)])
    case ReservationDispatched(id) => Become(p, id, Dispatched)
    case ReservationReleased(id) => Become(p, id, Released)
    case ReservationSettled(id, _, _) => Become(p, id, Settled)
    case ReservationWaived(id, _) => Become(p, id, Waived)
    case LedgerPosted(_, _, _, delta) => p.(balance := p.balance + delta)
    case _ => p
  }

  function ApplyAll(p: Position, events: seq<Event>): Position {
    if events == [] then p else Apply(ApplyAll(p, events[..|events| - 1]), events[|events| - 1])
  }

  lemma {:induction false} ApplyMore(p: Position, xs: seq<Event>, ys: seq<Event>)
    ensures ApplyAll(p, xs + ys) == ApplyAll(ApplyAll(p, xs), ys)
  {
    if ys == [] {
      assert xs + ys == xs;
    } else {
      var all := xs + ys;
      assert all[..|all| - 1] == xs + ys[..|ys| - 1] && all[|all| - 1] == ys[|ys| - 1];
      ApplyMore(p, xs, ys[..|ys| - 1]);
    }
  }

  lemma NotesChangeNothing(p: Position, note: Note)
    ensures ApplyAll(p, Notices(note)) == p
  {
    if note != Silent {
      OneEvent(p, Notices(note)[0]);
    }
  }

  // ---- what the outbox holds ----------------------------------------------

  function Events(rows: seq<EventRow>): (events: seq<Event>)
    ensures |events| == |rows| && forall i :: 0 <= i < |rows| ==> events[i] == rows[i].event
  {
    if rows == [] then [] else Events(rows[..|rows| - 1]) + [rows[|rows| - 1].event]
  }

  lemma EventsPush(rows: seq<EventRow>, row: EventRow)
    ensures Events(rows + [row]) == Events(rows) + [row.event]
  {
    assert (rows + [row])[..|rows|] == rows;
  }

  lemma FedOne(h: History, account: Id, e: Event, now: Instant, after: History, a: Id)
    requires Append(h, account, e, now).Ok? && after.log == Append(h, account, e, now).value.log
    ensures Events(Log(after, a)) == Events(Log(h, a)) + (if a == account then [e] else [])
    ensures Log(h, a) <= Log(after, a)
  {
    if a == account {
      EventsPush(Log(h, a), Log(after, a)[|Log(h, a)|]);
    }
  }

  /** A step appends its events to one outbox and leaves the others alone. */
  lemma {:induction false} Fed(h: History, account: Id, events: seq<Event>, now: Instant, after: History, a: Id)
    requires Feeds(h, after, account, events, now)
    ensures Events(Log(after, a)) == Events(Log(h, a)) + (if a == account then events else [])
    ensures Log(h, a) <= Log(after, a)
  {
    hide Append, Events;
    if events != [] {
      var earlier := events[..|events| - 1];
      var mid := AppendAll(h, account, earlier, now).value;
      Fed(h, account, earlier, now, mid, a);
      FedOne(mid, account, events[|events| - 1], now, after, a);
      assert events == earlier + [events[|events| - 1]];
    }
  }

  // ---- the reproduction ---------------------------------------------------

  function StandingOf(r: Reservation): Standing {
    Standing(r.state, r.reserved)
  }

  function Standings(h: History, account: Id): map<Id, Standing> {
    map id | id in h.reservations && h.reservations[id].spec.project == account :: StandingOf(h.reservations[id])
  }

  ghost function PositionOf(h: History, account: Id): Position {
    Position(Balance(h, account), Held(h, account), Standings(h, account))
  }

  ghost predicate Reproduces(h: History, account: Id) {
    ApplyAll(NOTHING, Events(Log(h, account))) == PositionOf(h, account)
  }

  /** The totals and the tables after a step; its notices are left out. */
  ghost predicate Moved(h: History, after: History, s: Summary) {
    Shift(h, after, s.drift) && Writes(h, after, s)
  }

  lemma StandingsPut(h: History, after: History, id: Id, row: Reservation, account: Id)
    requires after.reservations == h.reservations[id := row]
    requires id in h.reservations ==> h.reservations[id].spec.project == row.spec.project
    ensures Standings(after, account)
         == if row.spec.project == account then Standings(h, account)[id := StandingOf(row)] else Standings(h, account)
  {
  }

  /** A consumer that knew the position before the step's own events knows it
      after them. */
  lemma OwnEvents(h: History, after: History, shape: Shape, now: Instant)
    requires RowsOk(h) && Amount(shape) && ShapeOk(h, shape, now)
    requires Moved(h, after, SummaryOf(h, shape, now))
    ensures var s := SummaryOf(h, shape, now);
            ApplyAll(PositionOf(h, s.account), s.events) == PositionOf(after, s.account)
  {
    hide Feeds, Balance, Held, KeyHeld, Spent, RowsOk;
    var s := SummaryOf(h, shape, now);
    var p := PositionOf(h, s.account);
    match shape {
      case Noting(_) =>
      case Opening(row) => OpeningEvents(h, after, row, now);
      case Moving(row, e) => MovingEvents(h, after, row, e, now);
      case Charging(was, q, amount) => ChargingEvents(h, after, was, q, amount, now);
      case Metering(u, cost) => ChargeApplies(h, p, u.eventId, cost);
      case Capturing(_, _, _) => PostedEvents(h, after, shape, now);
      case Refunding(_, _, _) => PostedEvents(h, after, shape, now);
      case Clearing(_, _) => PostedEvents(h, after, shape, now);
    }
  }

  lemma PostedEvents(h: History, after: History, shape: Shape, now: Instant)
    requires shape.Capturing? || shape.Refunding? || shape.Clearing?
    requires Amount(shape) && Moved(h, after, SummaryOf(h, shape, now))
    ensures var s := SummaryOf(h, shape, now);
            ApplyAll(PositionOf(h, s.account), s.events) == PositionOf(after, s.account)
  {
    hide Balance, Held, KeyHeld, Spent, OrdersMove, PayerOf, RefundAccount, Pair;
    var s := SummaryOf(h, shape, now);
    OneEvent(PositionOf(h, s.account), s.events[0]);
    assert s.events == [s.events[0]];
    assert Standings(after, s.account) == Standings(h, s.account);
  }

  lemma OneEvent(p: Position, e: Event)
    ensures ApplyAll(p, [e]) == Apply(p, e)
  {
    assert [e][..0] == [];
  }

  lemma ChargeApplies(h: History, p: Position, usageId: Id, amount: I64)
    requires 0 <= amount
    ensures ApplyAll(p, ChargeEvents(h, usageId, amount)) == p.(balance := p.balance - amount)
  {
    if 0 < amount {
      OneEvent(p, LedgerPosted(|h.ledger|, UsageCharge, UsageRef(usageId), -amount));
    }
  }

  lemma OpeningEvents(h: History, after: History, row: Reservation, now: Instant)
    requires 0 <= row.reserved && ShapeOk(h, Opening(row), now)
    requires Moved(h, after, SummaryOf(h, Opening(row), now))
    ensures ApplyAll(PositionOf(h, row.spec.project),
                     [ReservationCreated(row.spec.id, row.reserved, row.price.priceVersion)])
         == PositionOf(after, row.spec.project)
  {
    hide Feeds, Balance, Held, KeyHeld, Spent, BalanceGate, BudgetGate, ReservedRequest, MeteredRequest;
    StandingsPut(h, after, row.spec.id, row, row.spec.project);
    OneEvent(PositionOf(h, row.spec.project),
             ReservationCreated(row.spec.id, row.reserved, row.price.priceVersion));
  }

  lemma MovingEvents(h: History, after: History, row: Reservation, e: Event, now: Instant)
    requires 0 <= row.reserved && ShapeOk(h, Moving(row, e), now)
    requires Moved(h, after, SummaryOf(h, Moving(row, e), now))
    ensures ApplyAll(PositionOf(h, row.spec.project), [e]) == PositionOf(after, row.spec.project)
  {
    hide Feeds, Balance, Held, KeyHeld, Spent;
    StandingsPut(h, after, row.spec.id, row, row.spec.project);
    OneEvent(PositionOf(h, row.spec.project), e);
    if e.ReservationUnresolved? {
      assert Standings(h, row.spec.project)[row.spec.id := StandingOf(row)] == Standings(h, row.spec.project);
    }
  }

  lemma ChargingEvents(h: History, after: History, was: Reservation, q: SettleRequest, amount: I64, now: Instant)
    requires 0 <= amount <= was.reserved && ShapeOk(h, Charging(was, q, amount), now)
    requires Moved(h, after, SummaryOf(h, Charging(was, q, amount), now))
    ensures ApplyAll(PositionOf(h, was.spec.project), SummaryOf(h, Charging(was, q, amount), now).events)
         == PositionOf(after, was.spec.project)
  {
    hide Feeds, Balance, Held, KeyHeld, Spent, Fresh, UsageId, SettlementKey, ChargePosting, SettledUsage, OrdersMove,
         ApplyAll;
    var p := PositionOf(h, was.spec.project);
    var usageId := UsageId(was.spec.id);
    StandingsPut(h, after, was.spec.id, SettledRow(was, q, amount), was.spec.project);
    ApplyMore(p, ChargeEvents(h, usageId, amount), [ReservationSettled(was.spec.id, usageId, amount)]);
    ChargeApplies(h, p, usageId, amount);
    OneEvent(p.(balance := p.balance - amount), ReservationSettled(was.spec.id, usageId, amount));
  }

  /** Other accounts do not move. */
  lemma OtherAccount(h: History, after: History, shape: Shape, account: Id, now: Instant)
    requires Amount(shape) && ShapeOk(h, shape, now) && account != SummaryOf(h, shape, now).account
    requires Moved(h, after, SummaryOf(h, shape, now))
    ensures PositionOf(after, account) == PositionOf(h, account)
  {
    hide Feeds, Balance, Held, KeyHeld, Spent, BalanceGate, BudgetGate, Gated, Fresh, RefundFits, ReservedRequest,
         MeteredRequest;
    var s := SummaryOf(h, shape, now);
    if s.row.Some? {
      StandingsPut(h, after, s.row.value.0, s.row.value.1, account);
    }
  }

  lemma Parts(h: History, after: History, s: Summary, note: Note, now: Instant)
    requires Summarizes(h, after, Noticed(s, note), now)
    ensures Feeds(h, after, s.account, s.events + Notices(note), now) && Moved(h, after, s)
  {
    hide Feeds, Shift;
  }

  lemma Reproduced(h: History, after: History, shape: Shape, note: Note, account: Id, now: Instant)
    requires RowsOk(h) && Reproduces(h, account) && Fitting(h, after, shape, note, now)
    ensures Reproduces(after, account)
  {
    hide RowsOk, ShapeOk, NoteOk, Files, Moved, SummaryOf, PositionOf, Feeds, ApplyAll, Amount, Summarizes, Notices;
    var s := SummaryOf(h, shape, now);
    Parts(h, after, s, note, now);
    Fed(h, s.account, s.events + Notices(note), now, after, account);
    var known := Events(Log(h, account));
    if account == s.account {
      ApplyMore(NOTHING, known, s.events + Notices(note));
      ApplyMore(PositionOf(h, account), s.events, Notices(note));
      OwnEvents(h, after, shape, now);
      NotesChangeNothing(PositionOf(after, account), note);
    } else {
      assert known + [] == known;
      OtherAccount(h, after, shape, account, now);
    }
  }

  lemma StepReproduces(h: History, op: Op, now: Instant, account: Id)
    requires Good(h) && Reproduces(h, account)
    ensures Reproduces(Step(h, op, now), account)
  {
    hide RowsOk, InRange, AmountsOk, Step, Fitting, ApplyAll, Sum, SumSeq, CatalogOk;
    if Apart(op) {
      ApartStep(h, op, now);
    } else {
      var shape, note := StepShape(h, op, now);
      Reproduced(h, Step(h, op, now), shape, note, account, now);
    }
  }

  /** In every reachable state, whatever the operations, in any order and at any
      times: the events of an account add up to its balance, to its held total
      and to the state and amount of each of its reservations. */
  lemma {:induction false} OutboxReproducesMoney(ops: seq<Timed>, account: Id)
    ensures Reproduces(Run(EMPTY_HISTORY, ops), account)
  {
    hide Step, Good;
    if ops == [] {
      assert Standings(EMPTY_HISTORY, account) == map[];
    } else {
      var before := ops[..|ops| - 1];
      OutboxReproducesMoney(before, account);
      RunSound(before);
      StepReproduces(Run(EMPTY_HISTORY, before), ops[|ops| - 1].op, ops[|ops| - 1].now, account);
    }
  }
}
