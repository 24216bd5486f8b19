/** Reviews over whole runs: two persons, two audit rows, and an outcome the
    reservation bears out forever. */
module ReviewHistory {
  import opened Prelude
  import opened Rows
  import opened Totals
  import opened Protocol
  import opened ReviewRules
  import opened CatalogService
  import opened Runs
  import opened Steps
  import opened Soundness
  import opened Requests

  /** Who submitted, who decided, and which audit rows exist. */
  predicate TwoPersons(h: History, id: Id)
    requires id in h.reviews
  {
    var r := h.reviews[id];
    && (r.state == Submitted <==> r.reviewedBy.None?)
    && (r.state == Submitted <==> r.decision.None?)
    && (r.reviewedBy.Some? ==> r.reviewedBy.value != r.submittedBy)
    && r.fingerprint == Fingerprint(r.project, r.reservation, r.evidence)
    && (r.decision.Some? ==> r.state == DecidedState(r, r.decision.value))
  }

  /** One audit row per state the review has been in, and no other. */
  ghost predicate Audited(h: History) {
    forall id: Id, n: int :: (id, n) in h.audits <==>
      id in h.reviews && (n == 1 || (n == 2 && h.reviews[id].state != Submitted))
  }

  /** A settled review's usage is the reservation's; a waived reservation never cost
      anything. */
  predicate BorneOut(h: History, id: Id)
    requires id in h.reviews
  {
    var r := h.reviews[id];
    && r.reservation in h.reservations
    && (r.state == SettledReview ==>
          && r.evidence.UsageEvidence?
          && h.reservations[r.reservation].state == Settled
          && h.reservations[r.reservation].completion == Some(Usage(r.evidence.usage)))
    && (r.state == WaivedReview ==>
          h.reservations[r.reservation].state == Waived && h.reservations[r.reservation].settled.None?)
  }

  ghost predicate Reviewed(h: History) {
    && Audited(h)
    && (forall id :: id in h.reviews ==> TwoPersons(h, id) && BorneOut(h, id))
  }

  /** Final states of a reservation do not change. */
  lemma FinalStays(h: History, after: History, shape: Shape, now: Instant, i: Id)
    requires RowsOk(h) && Amount(shape) && ShapeOk(h, shape, now) && Writes(h, after, SummaryOf(h, shape, now))
    requires i in h.reservations
    ensures i in after.reservations
    ensures !Holding(h.reservations[i].state) ==> after.reservations[i] == h.reservations[i]
  {
    hide BalanceGate, BudgetGate, Gated, Fresh, RefundFits, ReservedRequest, MeteredRequest, OrdersMove, Tells;
  }

  lemma OldReview(h: History, after: History, shape: Shape, note: Note, now: Instant, id: Id)
    requires RowsOk(h) && Amount(shape) && ShapeOk(h, shape, now) && Writes(h, after, SummaryOf(h, shape, now))
    requires Files(h, after, note) && id in h.reviews && (note.Filed? ==> note.id != id)
    requires TwoPersons(h, id) && BorneOut(h, id)
    ensures id in after.reviews && TwoPersons(after, id) && BorneOut(after, id)
  {
    hide ShapeOk, Writes, SummaryOf, Amount;
    FinalStays(h, after, shape, now, h.reviews[id].reservation);
  }

  lemma ReservationCharged(h: History, id: Id)
    requires OneCharge(h) && id in h.reservations
    ensures h.reservations[id].spec.id == id
    ensures h.reservations[id].settled.Some? <==> h.reservations[id].state == Settled
  {
    assert Charged(h, id);
  }

  lemma NewReviewPersons(h: History, after: History, shape: Shape, note: Note)
    requires Reviewed(h) && note.Filed? && NoteOk(h, shape, note) && Files(h, after, note)
    ensures TwoPersons(after, note.id)
  {
    hide Approves, BorneOut, Audited;
    if note.review.state != Submitted {
      assert TwoPersons(h, note.id);
    }
  }

  lemma NewReview(h: History, after: History, shape: Shape, note: Note, now: Instant)
    requires RowsOk(h) && Reviewed(h) && OneCharge(h) && note.Filed?
    requires Amount(shape) && ShapeOk(h, shape, now) && Writes(h, after, SummaryOf(h, shape, now))
    requires NoteOk(h, shape, note) && Files(h, after, note)
    ensures TwoPersons(after, note.id) && BorneOut(after, note.id)
  {
    hide BalanceGate, BudgetGate, Gated, Fresh, RefundFits, ReservedRequest, MeteredRequest, OrdersMove, Tells, Audited,
         RowsOk, OneCharge, Reviewed, TwoPersons;
    ReservationCharged(h, note.review.reservation);
    NewReviewPersons(h, after, shape, note);
  }

  lemma StillAudited(h: History, after: History, shape: Shape, note: Note)
    requires Audited(h) && NoteOk(h, shape, note) && Files(h, after, note)
    ensures Audited(after)
  {
    hide Approves;
  }

  lemma ShapeReviewed(h: History, after: History, shape: Shape, note: Note, now: Instant)
    requires RowsOk(h) && Reviewed(h) && OneCharge(h)
    requires Amount(shape) && ShapeOk(h, shape, now) && Writes(h, after, SummaryOf(h, shape, now))
    requires NoteOk(h, shape, note) && Files(h, after, note)
    ensures Reviewed(after)
  {
    hide RowsOk, OneCharge, Amount, ShapeOk, Writes, SummaryOf, NoteOk, TwoPersons, BorneOut, Audited;
    StillAudited(h, after, shape, note);
    forall id | id in after.reviews ensures TwoPersons(after, id) && BorneOut(after, id) {
      if note.Filed? && note.id == id {
        NewReview(h, after, shape, note, now);
      } else {
        OldReview(h, after, shape, note, now, id);
      }
    }
  }

  lemma StepReviewed(h: History, op: Op, now: Instant)
    requires Good(h) && Billed(h) && Reviewed(h)
    ensures Reviewed(Step(h, op, now))
  {
    hide RowsOk, InRange, AmountsOk, CatalogOk, ReviewsPoint, Step, ShapeOk, NoteOk, Files, Feeds, Shift, SummaryOf,
         Writes, Amount, OneCharge, PostedOnce, Reviewed;
    if Apart(op) {
      ApartStep(h, op, now);
      SameReviewed(h, Step(h, op, now));
    } else {
      var shape, note := StepShape(h, op, now);
      SilentWrites(h, Step(h, op, now), SummaryOf(h, shape, now), note);
      ShapeReviewed(h, Step(h, op, now), shape, note, now);
    }
  }

  lemma SameReviewed(h: History, after: History)
    requires Reviewed(h) && after.reservations == h.reservations
    requires after.reviews == h.reviews && after.audits == h.audits
    ensures Reviewed(after)
  {
    forall id | id in after.reviews ensures TwoPersons(after, id) && BorneOut(after, id) {
      assert TwoPersons(h, id) && BorneOut(h, id);
    }
  }

  /** In every reachable state a decided review has another person's decision and
      exactly two audit rows, and its reservation shows its outcome. */
  lemma {:induction false} ReviewsAreConsistent(ops: seq<Timed>)
    ensures Reviewed(Run(EMPTY_HISTORY, ops))
  {
    hide Step, Good, Billed, Reviewed;
    if ops == [] {
      EmptyReviewed();
    } else {
      ReviewsAreConsistent(ops[..|ops| - 1]);
      RunSound(ops[..|ops| - 1]);
      OneRequestOneCharge(ops[..|ops| - 1]);
      StepReviewed(Run(EMPTY_HISTORY, ops[..|ops| - 1]), ops[|ops| - 1].op, ops[|ops| - 1].now);
    }
  }

  lemma EmptyReviewed()
    ensures Reviewed(EMPTY_HISTORY)
  {
  }

  /** Two approved reviews of one reservation agree: never one settled and one
      waived, and never two different usages. */
  lemma ApprovalsAgree(ops: seq<Timed>, id1: Id, id2: Id)
    requires id1 in Run(EMPTY_HISTORY, ops).reviews && id2 in Run(EMPTY_HISTORY, ops).reviews
    requires Run(EMPTY_HISTORY, ops).reviews[id1].reservation == Run(EMPTY_HISTORY, ops).reviews[id2].reservation
    requires Run(EMPTY_HISTORY, ops).reviews[id1].state == SettledReview
    ensures
      var r1, r2 := Run(EMPTY_HISTORY, ops).reviews[id1], Run(EMPTY_HISTORY, ops).reviews[id2];
      && r2.state != WaivedReview
      && (r2.state == SettledReview ==>
            r1.evidence.UsageEvidence? && r2.evidence.UsageEvidence? && r1.evidence.usage == r2.evidence.usage)
  {
    hide Run;
    ReviewsAreConsistent(ops);
    var h := Run(EMPTY_HISTORY, ops);
    assert BorneOut(h, id1) && BorneOut(h, id2);
  }
}
