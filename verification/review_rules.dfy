/** What two-person review means, stated over source records. */
module ReviewRules {
  import opened Prelude
  import opened Rows
  import opened Totals
  import opened Outbox
  import opened Protocol

  predicate EvidenceOk(e: Evidence) {
    match e
    case UsageEvidence(id, source, sourceRequestId, document, explanation, usage) =>
      && Identifier(id) && Identifier(source) && Identifier(sourceRequestId)
      && NonBlank(document) && |document| <= 65_536
      && NonBlank(explanation) && |explanation| <= 2_048
      && SettleRequestOk(usage)
    case LossWaiver(id, reason, incidentReference, requestTerminated, platformAbsorbsLoss) =>
      && Identifier(id) && Identifier(incidentReference)
      && NonBlank(reason) && |reason| <= 2_048
      && requestTerminated && platformAbsorbsLoss
  }

  /** Usage evidence needs a dispatched reservation; a waiver any held one. */
  predicate Reviewable(state: ReservationState, e: Evidence) {
    state == Dispatched || (e.LossWaiver? && state == Reserved)
  }

  function SubmittedReview(project: Id, reservation: Id, actor: Id, e: Evidence): Review {
    Review(reservation, project, actor, e, Fingerprint(project, reservation, e), Submitted, None, None)
  }

  function SubmitReview(h: History, project: Id, reservation: Id, actor: Id, subject: string, e: Evidence,
                        now: Instant): Result<(History, Review)>
  {
    if !EvidenceOk(e) then Err(Invalid)
    else if project !in h.accounts then Err(NotFound)
    else if e.id in h.reviews then
      var existing := h.reviews[e.id];
      if existing.project != project || existing.reservation != reservation
         || existing.submittedBy != actor || existing.evidence != e
      then Err(Conflict)
      else Ok((h, existing))
    else
      match Locked(h, project, reservation)
      case Err(error) => Err(error)
      case Ok(held) =>
        if !Reviewable(held.state, e) then Err(Conflict)
        else File(h, e.id, SubmittedReview(project, reservation, actor, e), 1, Audit(Submitted, actor, subject),
                  ReviewSubmitted(e.id, reservation), now)
  }

  /** A review row, its next audit row and the event, together. */
  function File(h: History, id: Id, row: Review, sequence: int, audit: Audit, e: Event, now: Instant)
    : Result<(History, Review)>
  {
    if (id, sequence) in h.audits then Err(Database)
    else
      match Append(h.(reviews := h.reviews[id := row], audits := h.audits[(id, sequence) := audit]),
                   row.project, e, now)
      case Err(error) => Err(error)
      case Ok(after) => Ok((after, row))
  }

  predicate DecisionOk(q: Decision) {
    NonBlank(q.reason) && |q.reason| <= 2_048
  }

  function DecidedState(row: Review, q: Decision): ReviewState {
    if !q.approve then RejectedReview
    else if row.evidence.LossWaiver? then WaivedReview
    else SettledReview
  }

  function DecidedReview(row: Review, actor: Id, q: Decision): Review {
    row.(state := DecidedState(row, q), reviewedBy := Some(actor), decision := Some(q))
  }

  /** What an approval does to the reservation it is about. */
  ghost function Approve(h: History, row: Review, id: Id, now: Instant): Result<(History, Reservation)> {
    match Locked(h, row.project, row.reservation)
    case Err(error) => Err(error)
    case Ok(held) =>
      match row.evidence
      case UsageEvidence(_, _, _, _, _, usage) => SettleLocked(h, held, usage, now)
      case LossWaiver(_, _, _, _, _) =>
        if !Holding(held.state) then Err(Conflict)
        else if !HoldRoom(h, row.project, held.spec.key, -(held.reserved as int)) then Err(Internal)
        else Rewrite(h, held.(state := Waived), ReservationWaived(row.reservation, id), now)
  }

  ghost function DecideReview(h: History, project: Id, id: Id, actor: Id, subject: string, q: Decision,
                              now: Instant): Result<(History, Review)>
  {
    if !DecisionOk(q) then Err(Invalid)
    else if project !in h.accounts then Err(NotFound)
    else if id !in h.reviews || h.reviews[id].project != project then Err(NotFound)
    else if h.reviews[id].submittedBy == actor then Err(Forbidden)
    else if h.reviews[id].fingerprint != q.fingerprint then Err(Conflict)
    else if h.reviews[id].state != Submitted then
      if h.reviews[id].reviewedBy != Some(actor) || h.reviews[id].decision != Some(q) then Err(Conflict)
      else Ok((h, h.reviews[id]))
    else
      var row := h.reviews[id];
      var approved := if q.approve then Approve(h, row, id, now) else Ok((h, NO_RESERVATION));
      match approved
      case Err(error) => Err(error)
      case Ok((after, _)) => Conclude(after, id, row, actor, subject, q, now)
  }

  function Conclude(h: History, id: Id, row: Review, actor: Id, subject: string, q: Decision, now: Instant)
    : Result<(History, Review)>
  {
    File(h, id, DecidedReview(row, actor, q), 2, Audit(DecidedState(row, q), actor, subject),
         ReviewDecided(id, row.reservation, DecidedState(row, q)), now)
  }

  /** A rejection touches no reservation. */
  const NO_RESERVATION := Reservation(
    ReserveRequest("", "", "", "", "", "", "", "", 0, 0), Model("", "", 0, 0, 0, ""), 0, None, Released, None)
}
