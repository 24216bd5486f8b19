/** Reviews as transactions: one person files evidence or a waiver, another one
    decides it, and the decision carries out what was asked. */
module BillingReview {
  import opened Prelude
  import opened Rows
  import opened Totals
  import opened Outbox
  import opened Protocol
  import opened ReviewRules
  import opened Effects
  import opened Projection
  import opened Billing

  /** Writes a review row with its audit row and its event. */
  method FileReview(tx: Transaction, id: Id, row: Review, sequence: int, audit: Audit, e: Event, now: Instant)
    returns (r: Result<Review>)
    requires Sound(tx.h) && Tracks(tx.c, tx.h, STILL)
    modifies tx
    ensures Done(File(old(tx.h), id, row, sequence, audit, e, now), tx.h, tx.c, STILL, r)
    ensures r.Ok? ==> Sound(tx.h)
  {
    hide Tracks, InRange, RowsOk;
    ghost var before := tx.h;
    if (id, sequence) in tx.h.audits {
      return Err(Database);
    }
    tx.h := tx.h.(reviews := tx.h.reviews[id := row]);
    tx.h := tx.h.(audits := tx.h.audits[(id, sequence) := audit]);
    var _ :- AppendEvent(tx, row.project, e, now);
    TracksOn(tx.c, before, tx.h, STILL);
    SoundFrame(before, tx.h);
    return Ok(row);
  }

  method SubmitBillingReview(repo: Repository, project: Id, reservation: Id, actor: Id, subject: string, e: Evidence,
                             now: Instant) returns (r: Result<Review>)
    requires repo.Valid()
    modifies repo
    ensures repo.Valid()
    ensures Committed(SubmitReview(old(repo.history), project, reservation, actor, subject, e, now),
                      old(repo.history), repo.history, r)
    ensures r.Err? ==> repo.cache == old(repo.cache)
  {
    hide Tracks, InRange, RowsOk, File, EvidenceOk;
    if !EvidenceOk(e) {
      return Err(Invalid);
    }
    var tx := new Transaction.Begin(repo);
    if project !in tx.h.accounts {
      return Err(NotFound);
    }
    if e.id in tx.h.reviews {
      var existing := tx.h.reviews[e.id];
      if existing.project != project || existing.reservation != reservation
         || existing.submittedBy != actor || existing.evidence != e
      {
        return Err(Conflict);
      }
      return Ok(existing);
    }
    var held :- Locked(tx.h, project, reservation);
    if held.state != Dispatched && !(e.LossWaiver? && held.state == Reserved) {
      return Err(Conflict);
    }
    var row := SubmittedReview(project, reservation, actor, e);
    var done :- FileReview(tx, e.id, row, 1, Audit(Submitted, actor, subject), ReviewSubmitted(e.id, reservation), now);
    repo.Commit(tx);
    return Ok(done);
  }

  /** The approved outcome for the reservation: settled like any other
      settlement, or waived with its cost unknown. */
  method ApproveReview(tx: Transaction, row: Review, id: Id, now: Instant) returns (r: Result<Reservation>)
    requires Sound(tx.h) && Tracks(tx.c, tx.h, STILL)
    modifies tx
    ensures Done(Approve(old(tx.h), row, id, now), tx.h, tx.c, STILL, r)
    ensures r.Ok? ==> Sound(tx.h)
  {
    hide Tracks, InRange, SettleLocked, HoldRoom, Rewrite;
    var held :- Locked(tx.h, row.project, row.reservation);
    match row.evidence {
      case UsageEvidence(_, _, _, _, _, usage) =>
        r := SettleMoneyLocked(tx, held, usage, now);
      case LossWaiver(_, _, _, _, _) =>
        if held.state != Reserved && held.state != Dispatched {
          return Err(Conflict);
        }
        GivenUpRoom(tx.h, held.(state := Waived));
        r := RewriteHold(tx, held.(state := Waived), ReservationWaived(row.reservation, id), now);
    }
  }

  method DecideBillingReview(repo: Repository, project: Id, id: Id, actor: Id, subject: string, q: Decision,
                             now: Instant) returns (r: Result<Review>)
    requires repo.Valid()
    modifies repo
    ensures repo.Valid()
    ensures Committed(DecideReview(old(repo.history), project, id, actor, subject, q, now),
                      old(repo.history), repo.history, r)
    ensures r.Err? ==> repo.cache == old(repo.cache)
  {
    hide Tracks, InRange, RowsOk, File, DecisionOk, Approve;
    if !DecisionOk(q) {
      return Err(Invalid);
    }
    var tx := new Transaction.Begin(repo);
    if project !in tx.h.accounts {
      return Err(NotFound);
    }
    if id !in tx.h.reviews || tx.h.reviews[id].project != project {
      return Err(NotFound);
    }
    var row := tx.h.reviews[id];
    if row.submittedBy == actor {
      return Err(Forbidden);
    }
    if row.fingerprint != q.fingerprint {
      return Err(Conflict);
    }
    if row.state != Submitted {
      if row.reviewedBy != Some(actor) || row.decision != Some(q) {
        return Err(Conflict);
      }
      return Ok(row);
    }
    if q.approve {
      var _ :- ApproveReview(tx, row, id, now);
    }
    var state := DecidedState(row, q);
    var done :- FileReview(tx, id, DecidedReview(row, actor, q), 2, Audit(state, actor, subject),
                           ReviewDecided(id, row.reservation, state), now);
    repo.Commit(tx);
    return Ok(done);
  }
}
