/** Monthly budgets: with a clock that never turns back and no v1 metering, no
    month's spend exceeds a key's budget, whatever month its holds settle in. */
module Budgets {
  import opened Prelude
  import opened Sums
  import opened Rows
  import opened Totals
  import opened Outbox
  import opened Ledger
  import opened Protocol
  import opened CatalogService
  import opened Administration
  import opened Effects
  import opened Runs
  import opened Shapes
  import opened Steps
  import opened Soundness

  function Budget(key: ApiKey): int {
    key.monthlyBudget * MICROS_PER_MINOR_UNIT
  }

  /** A key that has spent and holds nothing, or whose spend and holds fit. Holds
      of any age count against the current month. */
  ghost predicate Frugal(h: History, key: Id, month: int) {
    && (key !in h.keys ==> KeyHeld(h, key) == 0 && forall m: int :: Spent(h, key, m) == 0)
    && (key in h.keys && 0 < h.keys[key].monthlyBudget ==>
          && (forall m: int :: Spent(h, key, m) <= Budget(h.keys[key]))
          && (forall m: int :: month < m ==> Spent(h, key, m) == 0)
          && Spent(h, key, month) + KeyHeld(h, key) <= Budget(h.keys[key]))
    && (forall m: int :: 0 <= Spent(h, key, m))
    && 0 <= KeyHeld(h, key)
  }

  /** Nothing was spent yet in a later month. */
  lemma MonthTurns(h: History, key: Id, month: int, later: int)
    requires Frugal(h, key, month) && month <= later
    ensures Frugal(h, key, later)
  {
    hide Sum;
  }

  /** A key's budget is set when it is issued. */
  predicate BudgetKept(before: History, after: History, key: Id) {
    && (key in before.keys ==> key in after.keys && after.keys[key].monthlyBudget == before.keys[key].monthlyBudget)
  }

  /** What the operation adds to the key's month it takes from its hold, or has
      checked against the budget. */
  ghost predicate Thrifty(h: History, d: Drift, month: int) {
    && 0 <= d.spent && (d.spent != 0 ==> d.month == month)
    && 0 <= KeyHeld(h, d.key) + d.keyHeld
    && (d.spent != 0 || d.keyHeld != 0 ==> d.key in h.keys)
    && (d.spent + d.keyHeld <= 0
        || (d.spent == 0 && d.key in h.keys
            && (0 < h.keys[d.key].monthlyBudget ==>
                  Spent(h, d.key, month) + KeyHeld(h, d.key) + d.keyHeld <= Budget(h.keys[d.key]))))
  }

  lemma ShapeThrifty(h: History, shape: Shape, now: Instant)
    requires RowsOk(h) && InRange(h) && !shape.Metering?
    requires Amount(shape) && ShapeOk(h, shape, now)
    ensures Thrifty(h, SummaryOf(h, shape, now).drift, now.month)
  {
    hide Balance, Held, KeyHeld, Spent, RefundFits, Fresh, ReservedRequest, MeteredRequest, Tells, BalanceGate, Gated,
         PayerOf, RefundAccount;
    match shape {
      case Opening(row) =>
      case Moving(row, e) => HoldOf(h, row.spec.id);
      case Charging(was, q, amount) => HoldOf(h, was.spec.id);
      case _ =>
    }
  }

  lemma DriftFrugal(h: History, after: History, d: Drift, month: int, key: Id)
    requires Frugal(h, key, month) && Thrifty(h, d, month)
    requires after.keys == h.keys && Shift(h, after, d)
    ensures Frugal(after, key, month)
  {
    hide Balance, Held, KeyHeld, Spent;
  }

  /** A held row's key exists, and its hold is part of the key's. */
  lemma HoldOf(h: History, id: Id)
    requires RowsOk(h) && id in h.reservations && Holding(h.reservations[id].state)
    ensures var r := h.reservations[id];
            r.spec.key in h.keys && 0 <= r.reserved <= KeyHeld(h, r.spec.key)
  {
    HoldCounted(h, id);
  }

  lemma StepFrugal(h: History, op: Op, now: Instant, key: Id)
    requires Good(h) && Frugal(h, key, now.month) && !op.DoRecordUsage?
    ensures Frugal(Step(h, op, now), key, now.month)
  {
    hide RowsOk, AmountsOk, InRange, CatalogOk, Balance, Held, KeyHeld, Spent, ShapeOk, SummaryOf, Feeds, Writes,
         Amount, Shift, Frugal, Thrifty;
    if Apart(op) {
      ApartStep(h, op, now);
      NothingMoves(h, Step(h, op, now), STILL);
      BudgetsStay(h, op, now, key);
      StillFrugal(h, Step(h, op, now), now.month, key);
    } else {
      hide Step;
      var shape, note := MeteredOnlyByReports(h, op, now);
      ShapeThrifty(h, shape, now);
      DriftFrugal(h, Step(h, op, now), SummaryOf(h, shape, now).drift, now.month, key);
    }
  }

  lemma BudgetsStay(h: History, op: Op, now: Instant, key: Id)
    requires Apart(op)
    ensures BudgetKept(h, Step(h, op, now), key)
  {
    hide Put, Bootstrap;
    if Works(op) {
      hide Step;
      ApartStep(h, op, now);
    }
  }

  /** Administration moves no total; a key it issues starts at nothing. */
  lemma StillFrugal(h: History, after: History, month: int, key: Id)
    requires Frugal(h, key, month) && BudgetKept(h, after, key)
    requires Shift(h, after, STILL)
    ensures Frugal(after, key, month)
  {
    hide Balance, Held, KeyHeld, Spent;
    if key in after.keys && key !in h.keys && 0 < after.keys[key].monthlyBudget {
      assert 0 <= Budget(after.keys[key]);
    }
    if key !in after.keys {
      assert key !in h.keys;
    }
  }

  /** Only a v1 report has the shape of metering. */
  lemma MeteredOnlyByReports(h: History, op: Op, now: Instant) returns (shape: Shape, note: Note)
    requires Good(h) && !Apart(op) && !op.DoRecordUsage?
    ensures Fitting(h, Step(h, op, now), shape, note, now) && !shape.Metering?
  {
    hide Fitting, Step, RowsOk, InRange, AmountsOk;
    shape, note := StepShape(h, op, now);
  }

  /** The clock reads a month that never goes back. */
  ghost predicate Forward(ops: seq<Timed>, from: int) {
    && (forall i :: 0 <= i < |ops| ==> from <= ops[i].now.month)
    && (forall i, j :: 0 <= i <= j < |ops| ==> ops[i].now.month <= ops[j].now.month)
  }

  function LastMonth(ops: seq<Timed>, from: int): int {
    if ops == [] then from else ops[|ops| - 1].now.month
  }

  ghost predicate NoReports(ops: seq<Timed>) {
    forall i :: 0 <= i < |ops| ==> !ops[i].op.DoRecordUsage?
  }

  lemma {:induction false} RunFrugal(ops: seq<Timed>, from: int, key: Id)
    requires Forward(ops, from) && NoReports(ops)
    ensures Frugal(Run(EMPTY_HISTORY, ops), key, LastMonth(ops, from))
  {
    hide Good, Frugal, Step;
    if ops == [] {
      EmptyFrugal(key, from);
    } else {
      var before := ops[..|ops| - 1];
      assert forall i :: 0 <= i < |before| ==> before[i] == ops[i];
      RunFrugal(before, from, key);
      RunSound(before);
      var last := ops[|ops| - 1];
      MonthTurns(Run(EMPTY_HISTORY, before), key, LastMonth(before, from), last.now.month);
      StepFrugal(Run(EMPTY_HISTORY, before), last.op, last.now, key);
    }
  }

  lemma EmptyFrugal(key: Id, month: int)
    ensures Frugal(EMPTY_HISTORY, key, month)
  {
  }

  /** In every run of the reservation protocol with a forward clock, a budgeted
      key never has a month over budget, in any month; and what the current month
      spent and all holds together still fit. */
  lemma BudgetsHold(ops: seq<Timed>, from: int, key: Id, month: int)
    requires Forward(ops, from) && NoReports(ops)
    requires key in Run(EMPTY_HISTORY, ops).keys && 0 < Run(EMPTY_HISTORY, ops).keys[key].monthlyBudget
    ensures
      var h := Run(EMPTY_HISTORY, ops);
      && Spent(h, key, month) <= Budget(h.keys[key])
      && Spent(h, key, LastMonth(ops, from)) + KeyHeld(h, key) <= Budget(h.keys[key])
  {
    hide Run, Spent, KeyHeld;
    RunFrugal(ops, from, key);
  }
}
