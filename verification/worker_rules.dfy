/** What leased consumption of the outbox means: claims, fenced completions,
    bounded retries, and the checks an event must pass before it has an effect. */
module WorkerRules {
  import opened Prelude
  import opened Sums
  import opened Rows

  const MAX_ATTEMPTS := 8

  datatype ClaimRequest = ClaimRequest(limit: nat, leaseSeconds: int)

  datatype Lease = Lease(account: Id, epoch: I64, token: Token, expected: I64, through: I64)

  datatype Claimed = Nothing | Leased(lease: Lease, events: seq<EventRow>)

  datatype Completed = Acknowledged(sequence: I64, duplicate: bool)

  // ---- choosing a job -----------------------------------------------------

  predicate Claimable(job: Job, time: int) {
    && job.acknowledged < job.target
    && job.availableAt <= time
    && (job.state == JobPending || (job.state == Running && job.leaseUntil.Some? && job.leaseUntil.value <= time))
  }

  /** Lexicographic by code point, as account ids are ordered. */
  predicate AtMost(a: string, b: string) {
    a == "" || (b != "" && (a[0] < b[0] || (a[0] == b[0] && AtMost(a[1..], b[1..]))))
  }

  lemma {:induction false} AtMostTotal(a: string, b: string)
    ensures AtMost(a, b) || AtMost(b, a)
  {
    if a != "" && b != "" && a[0] == b[0] {
      AtMostTotal(a[1..], b[1..]);
    }
  }

  lemma {:induction false} AtMostOnce(a: string, b: string)
    requires AtMost(a, b) && AtMost(b, a)
    ensures a == b
  {
    if a != "" && b != "" {
      AtMostOnce(a[1..], b[1..]);
      assert a == [a[0]] + a[1..] && b == [b[0]] + b[1..];
    }
  }

  lemma {:induction false} AtMostThen(a: string, b: string, c: string)
    requires AtMost(a, b) && AtMost(b, c)
    ensures AtMost(a, c)
  {
    if a != "" && a[0] == b[0] && b[0] == c[0] {
      AtMostThen(a[1..], b[1..], c[1..]);
    }
  }

  /** The claim order: longest available first, then by account. */
  predicate Earlier(jobs: map<Id, Job>, a: Id, b: Id)
    requires a in jobs && b in jobs
  {
    jobs[a].availableAt < jobs[b].availableAt || (jobs[a].availableAt == jobs[b].availableAt && AtMost(a, b))
  }

  /** The row a claim locks: the first claimable one that nobody else has locked. */
  predicate Next(jobs: map<Id, Job>, busy: set<Id>, time: int, pick: Option<Id>) {
    match pick
    case None => forall a :: a in jobs && a !in busy ==> !Claimable(jobs[a], time)
    case Some(id) =>
      && id in jobs && id !in busy && Claimable(jobs[id], time)
      && forall a :: a in jobs && a !in busy && Claimable(jobs[a], time) ==> Earlier(jobs, id, a)
  }

  /** There is exactly one such row, or none. */
  lemma NextIsUnique(jobs: map<Id, Job>, busy: set<Id>, time: int, p1: Option<Id>, p2: Option<Id>)
    requires Next(jobs, busy, time, p1) && Next(jobs, busy, time, p2)
    ensures p1 == p2
  {
    if p1.Some? && p2.Some? {
      assert Earlier(jobs, p1.value, p2.value) && Earlier(jobs, p2.value, p1.value);
      AtMostOnce(p1.value, p2.value);
    }
  }

  /** Adding one more candidate to those already looked through. */
  lemma StillFirst(jobs: map<Id, Job>, best: Id, a: Id, seen: set<Id>)
    requires best in jobs && a in jobs && seen <= jobs.Keys
    requires forall b :: b in seen ==> Earlier(jobs, best, b)
    ensures Earlier(jobs, a, best) ==> forall b :: b in seen + {a} ==> Earlier(jobs, a, b)
    ensures !Earlier(jobs, a, best) ==> forall b :: b in seen + {a} ==> Earlier(jobs, best, b)
  {
    AtMostTotal(a, best);
    AtMostTotal(a, a);
    if Earlier(jobs, a, best) {
      forall b | b in seen ensures Earlier(jobs, a, b) {
        if jobs[a].availableAt == jobs[b].availableAt {
          AtMostThen(a, best, b);
        }
      }
    }
  }

  lemma {:induction false} FirstExists(jobs: map<Id, Job>, candidates: set<Id>) returns (first: Id)
    requires candidates != {} && candidates <= jobs.Keys
    ensures first in candidates && forall a :: a in candidates ==> Earlier(jobs, first, a)
    decreases |candidates|
  {
    var a :| a in candidates;
    var rest := candidates - {a};
    assert candidates == rest + {a};
    AtMostTotal(a, a);
    if rest == {} {
      first := a;
      assert candidates == {a};
    } else {
      var best := FirstExists(jobs, rest);
      StillFirst(jobs, best, a, rest);
      first := if Earlier(jobs, a, best) then a else best;
    }
  }

  ghost function Chosen(jobs: map<Id, Job>, busy: set<Id>, time: int): (pick: Option<Id>)
    ensures Next(jobs, busy, time, pick)
  {
    var candidates := set a | a in jobs && a !in busy && Claimable(jobs[a], time);
    if candidates == {} then
      assert forall a :: a in jobs && a !in busy && Claimable(jobs[a], time) ==> a in candidates;
      None
    else
      assert exists pick :: Next(jobs, busy, time, pick) by {
        var first := FirstExists(jobs, candidates);
        assert Next(jobs, busy, time, Some(first));
      }
      var pick :| Next(jobs, busy, time, pick);
      pick
  }

  /** The query itself. */
  method FindNext(jobs: map<Id, Job>, busy: set<Id>, time: int) returns (pick: Option<Id>)
    ensures Next(jobs, busy, time, pick)
  {
    pick := None;
    var rest := jobs.Keys;
    ghost var seen: set<Id> := {};
    while rest != {}
      invariant rest <= jobs.Keys && seen <= jobs.Keys - rest
      invariant forall a :: a in jobs && a !in rest ==> a in seen || a in busy || !Claimable(jobs[a], time)
      invariant forall a :: a in seen ==> a !in busy && Claimable(jobs[a], time)
      invariant pick == None ==> seen == {}
      invariant pick.Some? ==> pick.value in seen && forall a :: a in seen ==> Earlier(jobs, pick.value, a)
      decreases |rest|
    {
      var a :| a in rest;
      rest := rest - {a};
      if a !in busy && Claimable(jobs[a], time) {
        if pick == None {
          AtMostTotal(a, a);
          pick := Some(a);
        } else {
          StillFirst(jobs, pick.value, a, seen);
          if Earlier(jobs, a, pick.value) {
            pick := Some(a);
          }
        }
        seen := seen + {a};
      }
    }
  }

  // ---- events of a batch --------------------------------------------------

  /** `sequence > after AND sequence <= upto ORDER BY sequence`. */
  function Between(rows: seq<EventRow>, after: int, upto: int): (batch: seq<EventRow>)
    ensures |batch| <= |rows|
  {
    if rows == [] then []
    else
      var rest := Between(rows[..|rows| - 1], after, upto);
      var last := rows[|rows| - 1];
      if after < last.sequence <= upto then rest + [last] else rest
  }

  function Limit(rows: seq<EventRow>, limit: nat): seq<EventRow> {
    if |rows| <= limit then rows else rows[..limit]
  }

  // ---- verification -------------------------------------------------------


  /** The posting is balanced and belongs to the account alone. */
  predicate Balanced(posting: Posting, account: Id) {
    && 2 <= |posting.entries| <= 100
    && (forall i :: 0 <= i < |posting.entries| ==> posting.entries[i].account == account)
    && EntrySum(posting.entries) == 0
  }

  function EntrySum(entries: seq<Entry>): int {
    if entries == [] then 0 else entries[0].amount + EntrySum(entries[1..])
  }

  predicate OwnReservation(h: History, account: Id, id: Id) {
    id in h.reservations && h.reservations[id].spec.project == account
  }

  /** The source an event points to exists and agrees. */
  predicate Verifies(h: History, account: Id, e: Event) {
    match e
    case LedgerPosted(transaction, _, _, _) =>
      transaction < |h.ledger| && Balanced(h.ledger[transaction], account)
    case ReviewSubmitted(review, _) => review in h.reviews && OwnReservation(h, account, h.reviews[review].reservation)
    case ReviewDecided(review, _, _) => review in h.reviews && OwnReservation(h, account, h.reviews[review].reservation)
    case ReservationCreated(id, _, _) => OwnReservation(h, account, id)
    case ReservationDispatched(id) => OwnReservation(h, account, id)
    case ReservationReleased(id) => OwnReservation(h, account, id)
    case ReservationUnresolved(id, _) => OwnReservation(h, account, id)
    case ReservationSettled(id, _, _) => OwnReservation(h, account, id)
    case ReservationWaived(id, _) => OwnReservation(h, account, id)
    case ProjectionRebuilt(_, _) => true
    case Unsupported(_) => false
  }

  function Verification(h: History, account: Id, e: Event): Result<()> {
    if Verifies(h, account, e) then Ok(()) else if e.Unsupported? then Err(Invalid) else Err(Conflict)
  }

  // ---- claim --------------------------------------------------------------

  function Pow2(n: nat): nat {
    if n == 0 then 1 else 2 * Pow2(n - 1)
  }

  /** Seconds before the next attempt. */
  function Backoff(attempts: nat): int {
    Min(Pow2(Max(1, Min(attempts, 8))), 300)
  }

  lemma {:induction false} Pow2Grows(a: nat, b: nat)
    requires a <= b
    ensures 1 <= Pow2(a) <= Pow2(b)
  {
    if b != 0 {
      Pow2Grows(if a == 0 then 0 else a - 1, b - 1);
    }
  }

  /** Delays are positive, never shrink, and stay within five minutes. */
  lemma BackoffGrows(earlier: nat, later: nat)
    requires earlier <= later
    ensures 0 < Backoff(earlier) <= Backoff(later) <= 300
  {
    Pow2Grows(Max(1, Min(earlier, 8)), Max(1, Min(later, 8)));
    Pow2Grows(0, Max(1, Min(earlier, 8)));
  }

  /** A failed or crashed attempt: back off, or give up for an operator. */
  function Attempted(job: Job, error: string, time: int): Job {
    var attempts := job.attempts + 1;
    job.(state := if MAX_ATTEMPTS <= attempts then Dead else JobPending,
         attempts := attempts,
         lastError := Some(error),
         leaseToken := None,
         leaseUntil := None,
         availableAt := time + Backoff(attempts) * SECOND)
  }

  function Claim(h: History, q: ClaimRequest, pick: Option<Id>, token: Token, time: int): Result<(History, Claimed)>
    requires pick.Some? ==> pick.value in h.jobs
  {
    if !(1 <= q.limit <= 100) || !(1 <= q.leaseSeconds <= 60) then Err(Invalid)
    else
      match pick
      case None => Ok((h, Nothing))
      case Some(account) =>
        if h.jobs[account].state == Running then Ok((Crashed(h, account, time), Nothing))
        else Grant(h, q, account, token, time)
  }

  /** A lease that ran out without a report costs its job one attempt. */
  function Crashed(h: History, account: Id, time: int): History
    requires account in h.jobs
  {
    h.(jobs := h.jobs[account := Attempted(h.jobs[account], "worker_crashed", time)])
  }

  function Grant(h: History, q: ClaimRequest, account: Id, token: Token, time: int): Result<(History, Claimed)>
    requires account in h.jobs
  {
    var job := h.jobs[account];
    var events := Limit(Between(Log(h, account), job.acknowledged, job.target), q.limit);
    if events == [] then Err(Conflict)
    else if job.leaseEpoch == I64_MAX then Err(Invalid)
    else
      var lease := Lease(account, job.leaseEpoch + 1, token, job.acknowledged, events[|events| - 1].sequence);
      Ok((h.(jobs := h.jobs[account := Granted(job, lease, time + q.leaseSeconds * SECOND)]),
          Leased(lease, events)))
  }

  function Granted(job: Job, lease: Lease, until: int): Job {
    job.(state := Running, leaseEpoch := lease.epoch, leaseThrough := lease.through,
         leaseToken := Some(lease.token), leaseUntil := Some(until))
  }

  // ---- complete, fail, retry ----------------------------------------------

  /** The lease is the current one, unexpired, and about what it was granted for. */
  predicate Live(job: Job, lease: Lease, time: int) {
    && job.state == Running
    && job.leaseEpoch == lease.epoch
    && job.leaseToken == Some(lease.token)
    && job.leaseUntil.Some? && time < job.leaseUntil.value
    && job.acknowledged == lease.expected
    && lease.expected < lease.through
    && job.leaseThrough == lease.through
    && lease.through <= job.target
  }

  /** The batch in order: each event follows the last, verifies, and has its
      effect recorded, once. */
  function Consume(h: History, account: Id, from: I64, events: seq<EventRow>)
    : Result<(I64, map<(Id, int), EventRow>)>
  {
    if events == [] then Ok((from, h.effects))
    else
      match Consume(h, account, from, events[..|events| - 1])
      case Err(error) => Err(error)
      case Ok((prior, effects)) =>
        var row := events[|events| - 1];
        if prior == I64_MAX then Err(Invalid)
        else if row.sequence != prior + 1 then Err(Conflict)
        else
          match Verification(h, account, row.event)
          case Err(error) => Err(error)
          case Ok(_) =>
            if (account, row.sequence as int) in h.effects then
              if h.effects[(account, row.sequence as int)] != row then Err(Conflict) else Ok((prior + 1, effects))
            else Ok((prior + 1, effects[(account, row.sequence as int) := row]))
  }

  function Finished(job: Job, acknowledged: I64, time: int): Job {
    job.(acknowledged := acknowledged,
         state := if acknowledged < job.target then JobPending else Idle,
         leaseToken := None, leaseUntil := None, attempts := 0, lastError := None, availableAt := time)
  }

  /** `time` is read when the row is locked, `later` right before the commit. */
  function Complete(h: History, lease: Lease, time: int, later: int): Result<(History, Completed)> {
    var account := lease.account;
    if account !in h.jobs then Err(NotFound)
    else
      var job := h.jobs[account];
      if lease.through <= job.acknowledged && lease.expected < lease.through then
        Ok((h, Acknowledged(job.acknowledged, true)))
      else if !Live(job, lease, time) then Err(Conflict)
      else
        var events := Limit(Between(Log(h, account), job.acknowledged, lease.through), 101);
        if |events| == 0 || 100 < |events| then Err(Conflict)
        else
          match Consume(h, account, job.acknowledged, events)
          case Err(error) => Err(error)
          case Ok((reached, effects)) =>
            if reached != lease.through then Err(Conflict)
            else if job.leaseUntil.value <= later then Err(Conflict)
            else
              Ok((h.(jobs := h.jobs[account := Finished(job, reached, later)], effects := effects),
                  Acknowledged(reached, false)))
  }

  function Fail(h: History, lease: Lease, reason: string, time: int): Result<(History, Job)> {
    if reason != "handler_failed" && reason != "source_invalid" && reason != "dependency_unavailable" then Err(Invalid)
    else if lease.account !in h.jobs then Err(NotFound)
    else if !Live(h.jobs[lease.account], lease, time) then Err(Conflict)
    else
      var job := Attempted(h.jobs[lease.account], reason, time);
      Ok((h.(jobs := h.jobs[lease.account := job]), job))
  }

  function Retry(h: History, account: Id, reason: string, time: int): Result<(History, Job)> {
    if !NonBlank(reason) || 256 < |reason| then Err(Invalid)
    else if account !in h.jobs then Err(NotFound)
    else if h.jobs[account].state != Dead then Err(Conflict)
    else
      var job := h.jobs[account].(state := JobPending, availableAt := time, attempts := 0);
      Ok((h.(jobs := h.jobs[account := job]), job))
  }
}
