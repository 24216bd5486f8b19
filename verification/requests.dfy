/** One request, one charge: over every interleaving of reservation, settlement,
    review and v1 metering. */
module Requests {
  import opened Prelude
  import opened Rows
  import opened Totals
  import opened Outbox
  import opened Ledger
  import opened Protocol
  import opened PaymentRules
  import opened CatalogService
  import opened Effects
  import opened Runs
  import opened Steps
  import opened Soundness

  // ---- what is unique -----------------------------------------------------

  predicate SameRequest(a: Reservation, b: Reservation) {
    a.spec.project == b.spec.project && a.spec.requestId == b.spec.requestId
  }

  predicate Meters(u: UsageEvent, r: Reservation) {
    u.project == r.spec.project && u.requestId == r.spec.requestId
  }

  /** At most one reservation per request; its usage, if any, is its own
      settlement's, and that is there exactly when it is settled. */
  ghost predicate OneCharge(h: History) {
    && (forall i, j :: i in h.reservations && j in h.reservations && SameRequest(h.reservations[i], h.reservations[j])
          ==> i == j)
    && (forall i, u :: i in h.reservations && u in h.usage && Meters(h.usage[u], h.reservations[i]) ==>
          u == UsageId(i) && h.reservations[i].state == Settled)
    && (forall i :: i in h.reservations ==> Charged(h, i))
  }

  /** Settled means: an amount, its usage event, and the usage that was reported. */
  predicate Charged(h: History, i: Id)
    requires i in h.reservations
  {
    var r := h.reservations[i];
    && r.spec.id == i
    && (r.settled.Some? <==> r.state == Settled)
    && (r.state == Settled ==>
          && 0 <= r.settled.value <= r.reserved
          && UsageId(i) in h.usage && Meters(h.usage[UsageId(i)], r) && h.usage[UsageId(i)].cost == r.settled.value
          && h.usage[UsageId(i)].key == r.spec.key
          && r.completion.Some? && r.completion.value.Usage?)
  }

  predicate KeysDistinct(ledger: seq<Posting>) {
    forall i, j :: 0 <= i < |ledger| && 0 <= j < |ledger| && ledger[i].idempotencyKey == ledger[j].idempotencyKey
      ==> i == j
  }

  /** A usage charge belongs to the settlement or the report its key names. */
  predicate ChargeOf(p: Posting, r: Reservation) {
    p.kind == UsageCharge && p.idempotencyKey == SettlementKey(r.spec.id)
  }

  ghost predicate Posted(h: History, r: Reservation) {
    exists i :: 0 <= i < |h.ledger| && ChargeOf(h.ledger[i], r)
  }

  /** Postings of a reservation: exactly the one of a settlement that cost
      something, for the settled amount. */
  ghost predicate PostedOnce(h: History) {
    && KeysDistinct(h.ledger)
    && (forall i :: i in h.reservations ==> (Posted(h, h.reservations[i]) <==>
          h.reservations[i].state == Settled && h.reservations[i].settled.Some? && 0 < h.reservations[i].settled.value))
    && (forall n, i :: 0 <= n < |h.ledger| && i in h.reservations && ChargeOf(h.ledger[n], h.reservations[i]) ==>
          && h.reservations[i].settled.Some? && 0 < h.reservations[i].settled.value
          && h.ledger[n] == ChargePosting(h.reservations[i].spec.project, UsageId(i), SettlementKey(i),
                                          h.reservations[i].settled.value))
    && (forall n :: 0 <= n < |h.ledger| && h.ledger[n].kind == UsageCharge ==> Sourced(h, h.ledger[n]))
  }

  /** The key of a usage charge names a reservation or a report. */
  predicate Sourced(h: History, p: Posting) {
    (exists i :: i in h.reservations && p.idempotencyKey == SettlementKey(i))
    || (exists u :: u in h.usage && p.idempotencyKey == ReportKey(u))
  }

  // ---- keys of different kinds --------------------------------------------

  lemma KeysApart(i: Id, j: Id)
    ensures SettlementKey(i) == SettlementKey(j) ==> i == j
    ensures UsageId(i) == UsageId(j) ==> i == j
    ensures ReportKey(i) != SettlementKey(j)
  {
    var p, q := "reservation:", "evt-reservation-";
    assert SettlementKey(i)[|p|..] == i && SettlementKey(j)[|p|..] == j;
    assert UsageId(i)[|q|..] == i && UsageId(j)[|q|..] == j;
    assert ReportKey(i)[0] == 'u' && SettlementKey(j)[0] == 'r';
  }

  // ---- steps --------------------------------------------------------------

  lemma ShapeOneCharge(h: History, after: History, shape: Shape, now: Instant)
    requires RowsOk(h) && OneCharge(h) && Amount(shape) && ShapeOk(h, shape, now)
    requires Writes(h, after, SummaryOf(h, shape, now))
    ensures OneCharge(after)
  {
    hide OneCharge, OrdersMove, BalanceGate, BudgetGate, Fresh, Gated, RefundFits, ReservedRequest, MeteredRequest, Moves,
         PayerOf, RefundAccount, UsageId;
    match shape {
      case Opening(row) => OpeningOneCharge(h, after, row);
      case Moving(row, e) => MovingOneCharge(h, after, row, e);
      case Charging(was, q, amount) => ChargingOneCharge(h, after, was, q, amount, now);
      case Metering(u, cost) => MeteringOneCharge(h, after, u, cost);
      case _ =>
        assert after.reservations == h.reservations && after.usage == h.usage;
        SameOneCharge(h, after);
    }
  }

  lemma SameOneCharge(h: History, after: History)
    requires OneCharge(h) && after.reservations == h.reservations && after.usage == h.usage
    ensures OneCharge(after)
  {
    forall i | i in after.reservations ensures Charged(after, i) {
      assert Charged(h, i);
    }
  }

  lemma OpeningOneCharge(h: History, after: History, row: Reservation)
    requires OneCharge(h) && row.spec.id !in h.reservations && row.state == Reserved && row.settled.None?
    requires !ReservedRequest(h, row.spec.project, row.spec.requestId)
    requires !MeteredRequest(h, row.spec.project, row.spec.requestId)
    requires after.reservations == h.reservations[row.spec.id := row] && after.usage == h.usage
    ensures OneCharge(after)
  {
    hide UsageId;
    forall i | i in after.reservations ensures Charged(after, i) {
      if i != row.spec.id { assert Charged(h, i); }
    }
  }

  lemma MovingOneCharge(h: History, after: History, row: Reservation, e: Event)
    requires OneCharge(h) && row.spec.id in h.reservations && Moves(h.reservations[row.spec.id], row, e)
    requires after.reservations == h.reservations[row.spec.id := row] && after.usage == h.usage
    ensures OneCharge(after)
  {
    hide UsageId;
    assert Charged(h, row.spec.id);
    forall i | i in after.reservations ensures Charged(after, i) {
      assert Charged(h, i);
    }
  }

  lemma ChargingOneCharge(h: History, after: History, was: Reservation, q: SettleRequest, amount: I64, now: Instant)
    requires OneCharge(h) && 0 <= amount <= was.reserved
    requires was.spec.id in h.reservations && h.reservations[was.spec.id] == was && was.state == Dispatched
    requires UsageId(was.spec.id) !in h.usage
    requires after.reservations == h.reservations[was.spec.id := SettledRow(was, q, amount)]
    requires after.usage == h.usage[UsageId(was.spec.id) := SettledUsage(was, q, amount, now)]
    ensures OneCharge(after)
  {
    hide UsageId;
    forall i | i in after.reservations ensures Charged(after, i) {
      assert Charged(h, i);
      KeysApart(i, was.spec.id);
    }
  }

  lemma MeteringOneCharge(h: History, after: History, u: UsageReport, cost: I64)
    requires OneCharge(h) && u.eventId !in h.usage && !ReservedRequest(h, u.project, u.requestId)
    requires after.reservations == h.reservations && after.usage == h.usage[u.eventId := ReportedUsage(u, cost)]
    ensures OneCharge(after)
  {
    hide UsageId;
    forall i | i in after.reservations ensures Charged(after, i) {
      assert Charged(h, i);
    }
  }

  // ---- postings -----------------------------------------------------------

  lemma PushKeys(h: History, p: Posting)
    requires KeysDistinct(h.ledger) && Fresh(h, p.idempotencyKey)
    ensures KeysDistinct(h.ledger + [p])
  {
  }

  lemma PushPosted(h: History, after: History, p: Posting, r: Reservation)
    requires after.ledger == h.ledger + [p]
    ensures Posted(after, r) <==> Posted(h, r) || ChargeOf(p, r)
  {
    if Posted(h, r) {
      var i :| 0 <= i < |h.ledger| && ChargeOf(h.ledger[i], r);
      assert ChargeOf(after.ledger[i], r);
    }
    if ChargeOf(p, r) {
      assert ChargeOf(after.ledger[|h.ledger|], r);
    }
    if Posted(after, r) {
      var i :| 0 <= i < |after.ledger| && ChargeOf(after.ledger[i], r);
      assert i < |h.ledger| ==> ChargeOf(h.ledger[i], r);
    }
  }

  /** The facts about one reservation that a posting must agree with. */
  predicate Agrees(h: History, p: Posting, i: Id)
    requires i in h.reservations
  {
    ChargeOf(p, h.reservations[i]) ==>
      && h.reservations[i].settled.Some? && 0 < h.reservations[i].settled.value
      && p == ChargePosting(h.reservations[i].spec.project, UsageId(i), SettlementKey(i), h.reservations[i].settled.value)
  }

  predicate Owes(r: Reservation) {
    r.state == Settled && r.settled.Some? && 0 < r.settled.value
  }

  /** An operation that posts nothing, or something that is no usage charge. */
  lemma QuietPosted(h: History, after: History, shape: Shape, now: Instant)
    requires PostedOnce(h) && OneCharge(h) && Amount(shape) && ShapeOk(h, shape, now)
    requires shape.Noting? || shape.Capturing? || shape.Refunding? || shape.Clearing?
    requires Writes(h, after, SummaryOf(h, shape, now))
    ensures PostedOnce(after)
  {
    hide OrdersMove, Gated, RefundFits, PayerOf, RefundAccount, UsageId, SettlementKey, ReportKey, Pair, ClearingPair,
         SettleRefundKey, Micros, OneCharge, ChargePosting;
    var s := SummaryOf(h, shape, now);
    assert after.reservations == h.reservations && after.usage == h.usage;
    if s.posting.Some? {
      PushKeys(h, s.posting.value);
      forall i | i in h.reservations ensures Posted(after, h.reservations[i]) <==> Posted(h, h.reservations[i]) {
        PushPosted(h, after, s.posting.value, h.reservations[i]);
      }
    } else {
      forall i | i in h.reservations ensures Posted(after, h.reservations[i]) <==> Posted(h, h.reservations[i]) {
        assert after.ledger == h.ledger;
      }
    }
    StillSourced(h, after);
  }

  lemma StillSourced(h: History, after: History)
    requires after.reservations.Keys >= h.reservations.Keys && after.usage.Keys >= h.usage.Keys
    ensures forall p :: Sourced(h, p) ==> Sourced(after, p)
  {
    forall p | Sourced(h, p) ensures Sourced(after, p) {
      if i :| i in h.reservations && p.idempotencyKey == SettlementKey(i) {
        assert i in after.reservations;
      } else {
        var u :| u in h.usage && p.idempotencyKey == ReportKey(u);
        assert u in after.usage;
      }
    }
  }

  lemma RowPosted(h: History, after: History, row: Reservation)
    requires PostedOnce(h) && after.ledger == h.ledger && after.usage == h.usage
    requires after.reservations == h.reservations[row.spec.id := row]
    requires !Owes(row)
    requires if row.spec.id in h.reservations
             then && h.reservations[row.spec.id].spec == row.spec && !Owes(h.reservations[row.spec.id])
                  && h.reservations[row.spec.id].settled == row.settled
             else row.settled.None?
    ensures PostedOnce(after)
  {
    hide UsageId, SettlementKey, ReportKey, ChargePosting;
    StillSourced(h, after);
    forall i | i in after.reservations ensures Posted(after, after.reservations[i]) <==> Owes(after.reservations[i]) {
      if i == row.spec.id {
        NotPostedYet(h, row);
      } else {
        assert i in h.reservations && after.reservations[i] == h.reservations[i];
      }
      SamePosted(h, after, after.reservations[i]);
    }
    forall n, i | 0 <= n < |after.ledger| && i in after.reservations ensures Agrees(after, after.ledger[n], i) {
      if i == row.spec.id && ChargeOf(h.ledger[n], row) {
        NotPostedYet(h, row);
        assert false;
      }
    }
  }

  lemma SamePosted(h: History, after: History, r: Reservation)
    requires after.ledger == h.ledger
    ensures Posted(after, r) <==> Posted(h, r)
  {
  }

  /** No charge carries the key of a reservation that is new or not settled. */
  lemma NotPostedYet(h: History, row: Reservation)
    requires PostedOnce(h)
    requires row.spec.id in h.reservations ==>
      h.reservations[row.spec.id].spec == row.spec && !Owes(h.reservations[row.spec.id])
    ensures !Posted(h, row)
  {
    if Posted(h, row) {
      var n :| 0 <= n < |h.ledger| && ChargeOf(h.ledger[n], row);
      if row.spec.id in h.reservations {
        assert false;
      } else {
        assert Sourced(h, h.ledger[n]);
        if i :| i in h.reservations && h.ledger[n].idempotencyKey == SettlementKey(i) {
          KeysApart(i, row.spec.id);
        } else {
          var u :| u in h.usage && h.ledger[n].idempotencyKey == ReportKey(u);
          KeysApart(u, row.spec.id);
        }
      }
    }
  }

  /** A settlement, free or charged. */
  lemma ChargingPosted(h: History, after: History, was: Reservation, q: SettleRequest, amount: I64, now: Instant)
    requires PostedOnce(h) && OneCharge(h) && 0 <= amount <= was.reserved && ShapeOk(h, Charging(was, q, amount), now)
    requires Writes(h, after, SummaryOf(h, Charging(was, q, amount), now))
    ensures PostedOnce(after)
  {
    hide OrdersMove, UsageId, SettlementKey, ReportKey, OneCharge, ChargePosting;
    var row := SettledRow(was, q, amount);
    NotPostedYet(h, was);
    StillSourced(h, after);
    if 0 < amount {
      ChargeAppended(h, after, was, row, amount);
    } else {
      forall i | i in after.reservations ensures Posted(after, after.reservations[i]) <==> Owes(after.reservations[i]) {
        SamePosted(h, after, after.reservations[i]);
        if i == was.spec.id { assert Posted(h, row) == Posted(h, was); }
      }
      forall n, i | 0 <= n < |after.ledger| && i in after.reservations ensures Agrees(after, after.ledger[n], i) {
        if i == was.spec.id && ChargeOf(h.ledger[n], row) {
          assert false;
        }
      }
    }
  }

  lemma ChargeAppended(h: History, after: History, was: Reservation, row: Reservation, amount: I64)
    requires PostedOnce(h) && OneCharge(h)
    requires was.spec.id in h.reservations && h.reservations[was.spec.id] == was && !Posted(h, was)
    requires row.spec == was.spec && row.settled == Some(amount) && row.state == Settled && 0 < amount
    requires after.reservations == h.reservations[was.spec.id := row] && h.usage.Keys <= after.usage.Keys
    requires Fresh(h, SettlementKey(was.spec.id))
    requires after.ledger
      == h.ledger + [ChargePosting(was.spec.project, UsageId(was.spec.id), SettlementKey(was.spec.id), amount)]
    ensures PostedOnce(after)
  {
    hide UsageId, SettlementKey, ReportKey;
    var p := ChargePosting(was.spec.project, UsageId(was.spec.id), SettlementKey(was.spec.id), amount);
    PushKeys(h, p);
    StillSourced(h, after);
    assert Sourced(after, p);
    forall i | i in after.reservations ensures Posted(after, after.reservations[i]) <==> Owes(after.reservations[i]) {
      PushPosted(h, after, p, after.reservations[i]);
      KeysApart(i, was.spec.id);
    }
    forall n, i | 0 <= n < |after.ledger| && i in after.reservations ensures Agrees(after, after.ledger[n], i) {
      KeysApart(i, was.spec.id);
      if i == was.spec.id && n < |h.ledger| && ChargeOf(h.ledger[n], row) {
        assert false;
      }
    }
  }

  /** A report's charge carries the report's key, never a reservation's. */
  lemma MeteringPosted(h: History, after: History, u: UsageReport, cost: I64, now: Instant)
    requires PostedOnce(h) && 0 <= cost && ShapeOk(h, Metering(u, cost), now)
    requires Writes(h, after, SummaryOf(h, Metering(u, cost), now))
    ensures PostedOnce(after)
  {
    hide OrdersMove, UsageId, SettlementKey, ReportKey, Gated, ReservedRequest;
    StillSourced(h, after);
    if 0 < cost {
      var p := ChargePosting(u.project, u.eventId, ReportKey(u.eventId), cost);
      PushKeys(h, p);
      assert Sourced(after, p);
      forall i | i in h.reservations ensures Posted(after, h.reservations[i]) <==> Posted(h, h.reservations[i]) {
        PushPosted(h, after, p, h.reservations[i]);
        KeysApart(u.eventId, h.reservations[i].spec.id);
      }
      forall n, i | 0 <= n < |after.ledger| && i in after.reservations ensures Agrees(after, after.ledger[n], i) {
        KeysApart(u.eventId, h.reservations[i].spec.id);
      }
    } else {
      forall i | i in h.reservations ensures Posted(after, h.reservations[i]) <==> Posted(h, h.reservations[i]) {
        SamePosted(h, after, h.reservations[i]);
      }
    }
  }

  lemma ShapePosted(h: History, after: History, shape: Shape, now: Instant)
    requires PostedOnce(h) && OneCharge(h) && Amount(shape) && ShapeOk(h, shape, now)
    requires Writes(h, after, SummaryOf(h, shape, now))
    ensures PostedOnce(after)
  {
    hide PostedOnce, OneCharge;
    match shape {
      case Opening(row) => RowPosted(h, after, row);
      case Moving(row, e) =>
        NotOwing(h, row.spec.id);
        RowPosted(h, after, row);
      case Charging(was, q, amount) => ChargingPosted(h, after, was, q, amount, now);
      case Metering(u, cost) => MeteringPosted(h, after, u, cost, now);
      case _ => QuietPosted(h, after, shape, now);
    }
  }

  lemma NotOwing(h: History, i: Id)
    requires OneCharge(h) && i in h.reservations && Holding(h.reservations[i].state)
    ensures h.reservations[i].settled.None? && h.reservations[i].spec.id == i
  {
    assert Charged(h, i);
  }

  ghost predicate Billed(h: History) {
    OneCharge(h) && PostedOnce(h)
  }

  lemma StepBilled(h: History, op: Op, now: Instant)
    requires Good(h) && Billed(h)
    ensures Billed(Step(h, op, now))
  {
    hide RowsOk, InRange, AmountsOk, CatalogOk, ReviewsPoint, Step, ShapeOk, NoteOk, Files, Feeds, Shift, SummaryOf,
         Writes, Amount, OneCharge, PostedOnce;
    if Apart(op) {
      ApartStep(h, op, now);
      SameBilled(h, Step(h, op, now));
    } else {
      var shape, note := StepShape(h, op, now);
      SilentWrites(h, Step(h, op, now), SummaryOf(h, shape, now), note);
      ShapeOneCharge(h, Step(h, op, now), shape, now);
      ShapePosted(h, Step(h, op, now), shape, now);
    }
  }

  /** Notices are no rows. */
  lemma SilentWrites(h: History, after: History, s: Summary, note: Note)
    requires Writes(h, after, Noticed(s, note))
    ensures Writes(h, after, s)
  {
  }

  lemma SameBilled(h: History, after: History)
    requires Billed(h) && after.reservations == h.reservations && after.usage == h.usage && after.ledger == h.ledger
    ensures Billed(after)
  {
    SameOneCharge(h, after);
    StillSourced(h, after);
    forall i | i in h.reservations ensures Posted(after, h.reservations[i]) <==> Posted(h, h.reservations[i]) {
      SamePosted(h, after, h.reservations[i]);
    }
  }

  /** In every reachable state: a request has at most one reservation; it has a
      reservation and a usage event together only when that event is the
      reservation's own settlement; and the ledger holds exactly one charge for
      each settlement that cost something, of the settled amount. */
  lemma {:induction false} OneRequestOneCharge(ops: seq<Timed>)
    ensures Billed(Run(EMPTY_HISTORY, ops))
  {
    hide Step, Good, Billed;
    if ops == [] {
      EmptyBilled();
    } else {
      OneRequestOneCharge(ops[..|ops| - 1]);
      RunSound(ops[..|ops| - 1]);
      StepBilled(Run(EMPTY_HISTORY, ops[..|ops| - 1]), ops[|ops| - 1].op, ops[|ops| - 1].now);
    }
  }

  lemma EmptyBilled()
    ensures Billed(EMPTY_HISTORY)
  {
  }

  /** What a reader of the tables may rely on, for one request. */
  lemma RequestSettledIffMetered(ops: seq<Timed>, id: Id)
    requires id in Run(EMPTY_HISTORY, ops).reservations
    ensures
      var h := Run(EMPTY_HISTORY, ops);
      var r := h.reservations[id];
      && (MeteredRequest(h, r.spec.project, r.spec.requestId) <==> r.state == Settled)
      && (Posted(h, r) <==> Owes(r))
  {
    hide Run;
    OneRequestOneCharge(ops);
    var h := Run(EMPTY_HISTORY, ops);
    assert Charged(h, id);
  }
}
