/** Prices over whole runs: the book only grows, and what a reservation was
    admitted at is the historical price of its version, forever. */
module PriceBook {
  import opened Prelude
  import opened Rows
  import opened Totals
  import opened Protocol
  import opened CatalogService
  import opened Effects
  import opened Runs
  import opened Steps
  import opened Soundness
  import opened Requests

  function HistoricalPrice(c: Catalog, model: Id, version: Id): Option<Model> {
    if (model, version) in c.prices then Some(c.prices[(model, version)]) else None
  }

  /** The frozen price of every reservation is the book's. */
  predicate Frozen(h: History) {
    forall id :: id in h.reservations ==>
      var r := h.reservations[id];
      HistoricalPrice(h.catalog, r.spec.model, r.spec.priceVersion) == Some(r.price)
  }

  lemma ShapeFrozen(h: History, after: History, shape: Shape, now: Instant)
    requires RowsOk(h) && CatalogOk(h.catalog) && Frozen(h) && Amount(shape) && ShapeOk(h, shape, now)
    requires Writes(h, after, SummaryOf(h, shape, now)) && after.catalog == h.catalog
    ensures Frozen(after)
  {
    hide OrdersMove, RefundFits, Gated, Fresh, PayerOf, RefundAccount, BalanceGate, BudgetGate, ReservedRequest,
         MeteredRequest, ModelOk, Tells, RowsOk;
  }

  lemma BookGrows(h: History, after: History)
    requires Frozen(h) && after.reservations == h.reservations && PricesKept(h.catalog, after.catalog)
    ensures Frozen(after)
  {
  }

  lemma StepFrozen(h: History, op: Op, now: Instant)
    requires Good(h) && Frozen(h)
    ensures Frozen(Step(h, op, now))
  {
    hide RowsOk, InRange, AmountsOk, CatalogOk, ReviewsPoint, Step, ShapeOk, NoteOk, Files, Feeds, Shift, SummaryOf,
         Writes, Amount, Frozen;
    if Apart(op) {
      ApartStep(h, op, now);
      StepSound(h, op, now);
      BookGrows(h, Step(h, op, now));
    } else {
      var shape, note := StepShape(h, op, now);
      SilentWrites(h, Step(h, op, now), SummaryOf(h, shape, now), note);
      ShapeFrozen(h, Step(h, op, now), shape, now);
    }
  }

  lemma {:induction false} PricesNeverChange(h: History, ops: seq<Timed>)
    requires Good(h)
    ensures PricesKept(h.catalog, Run(h, ops).catalog)
  {
    hide Step, Good;
    if ops != [] {
      PricesNeverChange(h, ops[..|ops| - 1]);
      RunGood(h, ops[..|ops| - 1]);
      StepSound(Run(h, ops[..|ops| - 1]), ops[|ops| - 1].op, ops[|ops| - 1].now);
    }
  }

  lemma {:induction false} RunFrozen(ops: seq<Timed>)
    ensures Frozen(Run(EMPTY_HISTORY, ops))
  {
    hide Step, Good, Frozen;
    if ops == [] {
      assert Frozen(EMPTY_HISTORY) by { EmptyFrozen(); }
    } else {
      RunFrozen(ops[..|ops| - 1]);
      RunSound(ops[..|ops| - 1]);
      StepFrozen(Run(EMPTY_HISTORY, ops[..|ops| - 1]), ops[|ops| - 1].op, ops[|ops| - 1].now);
    }
  }

  lemma EmptyFrozen()
    ensures Frozen(EMPTY_HISTORY)
  {
  }

  /** However the catalog is edited after a reservation, its frozen price stays
      what the price book says of its version. */
  lemma FrozenPriceIsHistorical(before: seq<Timed>, ops: seq<Timed>, id: Id)
    requires id in Run(EMPTY_HISTORY, before).reservations
    ensures
      var r := Run(EMPTY_HISTORY, before).reservations[id];
      HistoricalPrice(Run(Run(EMPTY_HISTORY, before), ops).catalog, r.spec.model, r.spec.priceVersion) == Some(r.price)
  {
    hide Run, Good;
    RunFrozen(before);
    RunSound(before);
    PricesNeverChange(Run(EMPTY_HISTORY, before), ops);
  }

  /** A request within the context window of an active model is never turned away
      because its worst case overflows. */
  lemma AdmissionNeverOverflows(ops: seq<Timed>, q: ReserveRequest)
    requires ReserveRequestOk(q)
    requires ActiveModel(Run(EMPTY_HISTORY, ops).catalog, q.model).Some?
    requires WithinContext(q, ActiveModel(Run(EMPTY_HISTORY, ops).catalog, q.model).value)
    ensures UsageCost(ActiveModel(Run(EMPTY_HISTORY, ops).catalog, q.model).value, q.inputLimit, q.outputLimit).Some?
  {
    hide Run, ModelOk, UsageCost, Sound;
    RunSound(ops);
    AdmittedCostFits(ActiveModel(Run(EMPTY_HISTORY, ops).catalog, q.model).value, q.inputLimit, q.outputLimit);
  }
}
