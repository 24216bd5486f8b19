/** The leased consumer: claim, complete, fail and retry as transactions over the
    job table, and the loop that drives them. */
module EventWorker {
  import opened Prelude
  import opened Sums
  import opened Rows
  import opened Totals
  import opened Projection
  import opened Billing
  import opened PaymentService
  import opened WorkerRules
  import opened Runs
  import opened Steps
  import opened Soundness
  import opened Consumption

  /** Job and effect rows are no concern of the money invariants. */
  lemma StaysValid(c: Cache, before: History, after: History)
    requires Sound(before) && Tracks(c, before, STILL) && WorkerWrites(before, after)
    ensures Sound(after) && Tracks(c, after, STILL)
  {
    hide Tracks, InRange, RowsOk, AmountsOk;
    SameMoney(before, after);
    SideRows(c, before, after);
  }

  /** Locks the first claimable job that is not locked by somebody else. A job
      whose lease ran out is charged a failed attempt and left for the next claim. */
  method ClaimEventJob(repo: Repository, q: ClaimRequest, busy: set<Id>, token: Token, time: int)
    returns (r: Result<Claimed>)
    requires repo.Valid()
    modifies repo
    ensures repo.Valid() && repo.cache == old(repo.cache)
    ensures Committed(Claim(old(repo.history), q, Chosen(old(repo.history).jobs, busy, time), token, time),
                      old(repo.history), repo.history, r)
  {
    hide Tracks, InRange, RowsOk, AmountsOk, Attempted, Granted, Between, Limit;
    if !(1 <= q.limit <= 100) || !(1 <= q.leaseSeconds <= 60) {
      return Err(Invalid);
    }
    var h := repo.history;
    var pick := FindNext(h.jobs, busy, time);
    NextIsUnique(h.jobs, busy, time, pick, Chosen(h.jobs, busy, time));
    if pick == None {
      return Ok(Nothing);
    }
    var account := pick.value;
    var job := h.jobs[account];
    if job.state == Running {
      repo.history := h.(jobs := h.jobs[account := Attempted(job, "worker_crashed", time)]);
      StaysValid(repo.cache, h, repo.history);
      return Ok(Nothing);
    }
    var events := Limit(Between(Log(h, account), job.acknowledged, job.target), q.limit);
    if events == [] {
      return Err(Conflict);
    }
    var epoch := CheckedAdd(job.leaseEpoch, 1);
    if epoch == None {
      return Err(Invalid);
    }
    var lease := Lease(account, epoch.value, token, job.acknowledged, events[|events| - 1].sequence);
    repo.history := h.(jobs := h.jobs[account := Granted(job, lease, time + q.leaseSeconds * SECOND)]);
    StaysValid(repo.cache, h, repo.history);
    return Ok(Leased(lease, events));
  }

  /** Verifies the batch in order and collects one effect per new event. */
  method ConsumeBatch(h: History, account: Id, from: I64, events: seq<EventRow>)
    returns (r: Result<(I64, map<(Id, int), EventRow>)>)
    ensures r == Consume(h, account, from, events)
  {
    var expected := from;
    var effects := h.effects;
    var i := 0;
    while i < |events|
      invariant 0 <= i <= |events|
      invariant Consume(h, account, from, events[..i]) == Ok((expected, effects))
    {
      var event := events[i];
      assert events[..i + 1][..i] == events[..i] && events[..i + 1][i] == event;
      ConsumeFails(h, account, from, events, i + 1);
      var next := CheckedAdd(expected, 1);
      if next == None {
        return Err(Invalid);
      }
      expected := next.value;
      if event.sequence != expected {
        return Err(Conflict);
      }
      var _ :- Verification(h, account, event.event);
      if (account, event.sequence as int) in h.effects {
        if h.effects[(account, event.sequence as int)] != event {
          return Err(Conflict);
        }
      } else {
        effects := effects[(account, event.sequence as int) := event];
      }
      i := i + 1;
    }
    assert events[..i] == events;
    return Ok((expected, effects));
  }

  /** A batch whose beginning is refused is refused. */
  lemma {:induction false} ConsumeFails(h: History, account: Id, from: I64, events: seq<EventRow>, k: nat)
    requires k <= |events|
    ensures Consume(h, account, from, events[..k]).Err? ==>
      Consume(h, account, from, events) == Consume(h, account, from, events[..k])
    decreases |events|
  {
    if k == |events| {
      assert events[..k] == events;
    } else {
      assert events[..|events| - 1][..k] == events[..k];
      ConsumeFails(h, account, from, events[..|events| - 1], k);
    }
  }

  /** The effects and the acknowledgement commit together, or not at all. */
  method CompleteEventJob(repo: Repository, lease: Lease, time: int, later: int) returns (r: Result<Completed>)
    requires repo.Valid()
    modifies repo
    ensures repo.Valid() && repo.cache == old(repo.cache)
    ensures Committed(Complete(old(repo.history), lease, time, later), old(repo.history), repo.history, r)
  {
    hide Tracks, InRange, RowsOk, AmountsOk, Between, Consume, Finished;
    var h := repo.history;
    var account := lease.account;
    if account !in h.jobs {
      return Err(NotFound);
    }
    var job := h.jobs[account];
    if lease.through <= job.acknowledged && lease.expected < lease.through {
      return Ok(Acknowledged(job.acknowledged, true));
    }
    if !Live(job, lease, time) {
      return Err(Conflict);
    }
    var events := Limit(Between(Log(h, account), job.acknowledged, lease.through), 101);
    if |events| == 0 || 100 < |events| {
      return Err(Conflict);
    }
    var consumed :- ConsumeBatch(h, account, job.acknowledged, events);
    if consumed.0 != lease.through {
      return Err(Conflict);
    }
    if job.leaseUntil.value <= later {
      return Err(Conflict);
    }
    repo.history := h.(jobs := h.jobs[account := Finished(job, consumed.0, later)], effects := consumed.1);
    StaysValid(repo.cache, h, repo.history);
    return Ok(Acknowledged(consumed.0, false));
  }

  method FailEventJob(repo: Repository, lease: Lease, reason: string, time: int) returns (r: Result<Job>)
    requires repo.Valid()
    modifies repo
    ensures repo.Valid() && repo.cache == old(repo.cache)
    ensures Committed(Fail(old(repo.history), lease, reason, time), old(repo.history), repo.history, r)
  {
    hide Tracks, InRange, RowsOk, AmountsOk, Attempted;
    if reason != "handler_failed" && reason != "source_invalid" && reason != "dependency_unavailable" {
      return Err(Invalid);
    }
    var h := repo.history;
    if lease.account !in h.jobs {
      return Err(NotFound);
    }
    if !Live(h.jobs[lease.account], lease, time) {
      return Err(Conflict);
    }
    var job := Attempted(h.jobs[lease.account], reason, time);
    repo.history := h.(jobs := h.jobs[lease.account := job]);
    StaysValid(repo.cache, h, repo.history);
    return Ok(job);
  }

  /** Only a dead job may be retried, and its acknowledgement stays where it was. */
  method RetryEventJob(repo: Repository, account: Id, reason: string, time: int) returns (r: Result<Job>)
    requires repo.Valid()
    modifies repo
    ensures repo.Valid() && repo.cache == old(repo.cache)
    ensures Committed(Retry(old(repo.history), account, reason, time), old(repo.history), repo.history, r)
  {
    hide Tracks, InRange, RowsOk, AmountsOk;
    if !NonBlank(reason) || 256 < |reason| {
      return Err(Invalid);
    }
    var h := repo.history;
    if account !in h.jobs {
      return Err(NotFound);
    }
    if h.jobs[account].state != Dead {
      return Err(Conflict);
    }
    var job := h.jobs[account].(state := JobPending, availableAt := time, attempts := 0);
    repo.history := h.(jobs := h.jobs[account := job]);
    StaysValid(repo.cache, h, repo.history);
    return Ok(job);
  }

  // ---- the loop -----------------------------------------------------------

  /** Events not yet acknowledged, over all accounts. */
  function Behind(): Job -> int {
    (job: Job) => job.target - job.acknowledged
  }

  ghost function Backlog(h: History): int {
    Sum(h.jobs, Behind())
  }

  /** Nothing runs or is dead, and no backoff reaches beyond this time. */
  predicate Ready(h: History, time: int) {
    forall a :: a in h.jobs ==>
      (h.jobs[a].state == JobPending || h.jobs[a].state == Idle) && h.jobs[a].availableAt <= time
  }

  predicate AllIdle(h: History) {
    forall a :: a in h.jobs ==> h.jobs[a].state == Idle && h.jobs[a].acknowledged == h.jobs[a].target
  }

  /** No job's epochs run out before its backlog does. */
  predicate EpochsLeft(h: History) {
    forall a :: a in h.jobs ==> h.jobs[a].leaseEpoch + (h.jobs[a].target - h.jobs[a].acknowledged) <= I64_MAX
  }

  const ROUND := ClaimRequest(100, 30)

  /** With everything ready, the claim takes a job unless all are idle. */
  lemma ClaimTakes(h: History, token: Token, time: int)
    requires AllConsumed(h) && Ready(h, time) && EpochsLeft(h)
    ensures
      var pick := Chosen(h.jobs, {}, time);
      var r := Claim(h, ROUND, pick, token, time);
      && r.Ok?
      && (pick == None ==> AllIdle(h) && r.value == (h, Nothing))
      && (pick.Some? ==>
            && pick.value in h.jobs && r.value.1.Leased? && r.value.1.lease.account == pick.value
            && var lease := r.value.1.lease;
               && r.value.0 == h.(jobs := h.jobs[pick.value := Granted(h.jobs[pick.value], lease, time + 30 * SECOND)])
               && lease.epoch == h.jobs[pick.value].leaseEpoch + 1
               && lease.expected == h.jobs[pick.value].acknowledged
               && lease.expected < lease.through <= h.jobs[pick.value].target)
  {
    hide Between, Limit, Verifies, Granted;
    var pick := Chosen(h.jobs, {}, time);
    assert Next(h.jobs, {}, time, pick);
    if pick == None {
      forall a | a in h.jobs ensures h.jobs[a].state == Idle && h.jobs[a].acknowledged == h.jobs[a].target {
        assert Consumed(h, a) && !Claimable(h.jobs[a], time);
      }
    } else {
      assert Consumed(h, pick.value);
      var job := h.jobs[pick.value];
      BatchDense(Log(h, pick.value), job.acknowledged, job.target, 100);
    }
  }

  /** Granting and finishing one batch. */
  function Served(job: Job, lease: Lease, until: int, later: int): Job {
    Finished(Granted(job, lease, until), lease.through, later)
  }

  lemma ServedShrinks(h: History, after: History, lease: Lease, until: int, later: int)
    requires lease.account in h.jobs && EpochsLeft(h) && Ready(h, later)
    requires after.jobs == h.jobs[lease.account := Served(h.jobs[lease.account], lease, until, later)]
    requires lease.epoch == h.jobs[lease.account].leaseEpoch + 1
    requires h.jobs[lease.account].acknowledged < lease.through <= h.jobs[lease.account].target
    ensures Backlog(after) < Backlog(h) && EpochsLeft(after) && Ready(after, later)
  {
    SumPut(h.jobs, Behind(), lease.account, Served(h.jobs[lease.account], lease, until, later));
  }

  lemma BacklogBounded(h: History)
    requires AllConsumed(h)
    ensures 0 <= Backlog(h)
  {
    forall a | a in h.jobs ensures 0 <= Behind()(h.jobs[a]) {
      assert Consumed(h, a);
    }
    SumBounds(h.jobs, Behind());
  }

  lemma ReadyLater(h: History, time: int, later: int)
    requires Ready(h, time) && time <= later
    ensures Ready(h, later)
  {
  }

  /** Work to claim, and time enough to finish it. */
  ghost predicate Prompt(h: History, claimed: int, locked: int, finished: int) {
    && Ready(h, claimed) && EpochsLeft(h)
    && claimed <= locked <= finished < claimed + 30 * SECOND
  }

  /** One turn of the loop: claim a batch and complete it, or report its failure.
      The readings of the clock are taken at the claim, when the completion locks
      the job, and right before it commits. */
  method ConsumeRound(repo: Repository, token: Token, claimed: int, locked: int, finished: int)
    returns (r: Result<bool>)
    requires repo.Valid() && Good(repo.history) && AllConsumed(repo.history)
    modifies repo
    ensures repo.Valid() && Good(repo.history) && AllConsumed(repo.history)
    ensures Prompt(old(repo.history), claimed, locked, finished) ==>
      && r.Ok? && Ready(repo.history, finished) && EpochsLeft(repo.history)
      && repo.history.log == old(repo.history).log
      && (!r.value ==> AllIdle(repo.history) && repo.history == old(repo.history))
      && (r.value ==> Backlog(repo.history) < Backlog(old(repo.history)))
  {
    hide Good, AllConsumed, Tracks, Sound, Claim, Complete, Fail, Prompt, Ready, EpochsLeft, AllIdle, Backlog, Chosen;
    ghost var h := repo.history;
    ClaimKept(h, ROUND, token, claimed);
    RoundClaims(h, token, claimed, locked, finished);
    var claim :- ClaimEventJob(repo, ROUND, {}, token, claimed);
    if claim == Nothing {
      RoundIdle(h, token, claimed, locked, finished);
      return Ok(false);
    }
    var lease := claim.lease;
    ghost var mid := repo.history;
    CompleteKept(mid, lease, locked, finished);
    var done := CompleteEventJob(repo, lease, locked, finished);
    RoundServes(h, token, claimed, locked, finished);
    if done.Err? {
      FailKept(mid, lease, "handler_failed", finished);
      var _ :- FailEventJob(repo, lease, "handler_failed", finished);
    }
    return Ok(true);
  }

  lemma ClaimKept(h: History, q: ClaimRequest, token: Token, time: int)
    requires Good(h) && AllConsumed(h)
    ensures var r := Claim(h, q, Chosen(h.jobs, {}, time), token, time);
            r.Ok? ==> Good(r.value.0) && AllConsumed(r.value.0)
  {
    hide Good, AllConsumed, Claim, Chosen;
    StepConsumed(h, DoClaim(q, {}, token), Instant(0, time));
    StepSound(h, DoClaim(q, {}, token), Instant(0, time));
  }

  lemma CompleteKept(h: History, lease: Lease, time: int, later: int)
    requires Good(h) && AllConsumed(h)
    ensures var r := Complete(h, lease, time, later);
            r.Ok? ==> Good(r.value.0) && AllConsumed(r.value.0)
  {
    hide Good, AllConsumed, Complete;
    StepConsumed(h, DoComplete(lease, later), Instant(0, time));
    StepSound(h, DoComplete(lease, later), Instant(0, time));
  }

  lemma FailKept(h: History, lease: Lease, reason: string, time: int)
    requires Good(h) && AllConsumed(h)
    ensures var r := Fail(h, lease, reason, time);
            r.Ok? ==> Good(r.value.0) && AllConsumed(r.value.0)
  {
    hide Good, AllConsumed, Fail;
    StepConsumed(h, DoFail(lease, reason), Instant(0, time));
    StepSound(h, DoFail(lease, reason), Instant(0, time));
  }

  lemma RoundClaims(h: History, token: Token, claimed: int, locked: int, finished: int)
    requires AllConsumed(h)
    ensures Prompt(h, claimed, locked, finished) ==>
      Claim(h, ROUND, Chosen(h.jobs, {}, claimed), token, claimed).Ok?
  {
    hide AllConsumed, Claim, Ready, EpochsLeft, AllIdle, Chosen;
    if Prompt(h, claimed, locked, finished) {
      ClaimTakes(h, token, claimed);
    }
  }

  lemma RoundIdle(h: History, token: Token, claimed: int, locked: int, finished: int)
    requires AllConsumed(h)
    requires Claim(h, ROUND, Chosen(h.jobs, {}, claimed), token, claimed).Ok?
    requires Claim(h, ROUND, Chosen(h.jobs, {}, claimed), token, claimed).value.1 == Nothing
    ensures Prompt(h, claimed, locked, finished) ==>
      && AllIdle(h) && Ready(h, finished) && EpochsLeft(h)
      && Claim(h, ROUND, Chosen(h.jobs, {}, claimed), token, claimed).value.0 == h
  {
    hide AllConsumed, Claim, Ready, EpochsLeft, AllIdle, Chosen;
    if Prompt(h, claimed, locked, finished) {
      ClaimTakes(h, token, claimed);
      ReadyLater(h, claimed, finished);
    }
  }

  lemma RoundServes(h: History, token: Token, claimed: int, locked: int, finished: int)
    requires Good(h) && AllConsumed(h)
    requires Claim(h, ROUND, Chosen(h.jobs, {}, claimed), token, claimed).Ok?
    requires Claim(h, ROUND, Chosen(h.jobs, {}, claimed), token, claimed).value.1.Leased?
    ensures
      var (mid, claim) := Claim(h, ROUND, Chosen(h.jobs, {}, claimed), token, claimed).value;
      Prompt(h, claimed, locked, finished) ==>
        && Complete(mid, claim.lease, locked, finished).Ok?
        && var after := Complete(mid, claim.lease, locked, finished).value.0;
           && after.log == h.log && Backlog(after) < Backlog(h)
           && EpochsLeft(after) && Ready(after, finished)
  {
    hide Good, AllConsumed, Claim, Complete, Ready, EpochsLeft, AllIdle, Chosen, Backlog, Granted, Finished;
    if Prompt(h, claimed, locked, finished) {
      ClaimTakes(h, token, claimed);
      ReadyLater(h, claimed, finished);
      var (mid, claim) := Claim(h, ROUND, Chosen(h.jobs, {}, claimed), token, claimed).value;
      ClaimKept(h, ROUND, token, claimed);
      Completes(h, mid, claim.lease, claimed, locked, finished);
      ServedShrinks(h, Complete(mid, claim.lease, locked, finished).value.0, claim.lease, claimed + 30 * SECOND, finished);
    }
  }

  lemma Completes(h: History, mid: History, lease: Lease, claimed: int, locked: int, finished: int)
    requires AllConsumed(mid) && lease.account in h.jobs
    requires mid == h.(jobs := h.jobs[lease.account := Granted(h.jobs[lease.account], lease, claimed + 30 * SECOND)])
    requires lease.expected == h.jobs[lease.account].acknowledged
    requires lease.expected < lease.through <= h.jobs[lease.account].target
    requires locked <= finished < claimed + 30 * SECOND
    ensures
      var r := Complete(mid, lease, locked, finished);
      && r.Ok? && r.value.0.log == h.log
      && r.value.0.jobs == h.jobs[lease.account := Served(h.jobs[lease.account], lease, claimed + 30 * SECOND, finished)]
  {
    hide Complete, Consumed, NoPoison, Finished;
    assert Consumed(mid, lease.account) && NoPoison(mid, lease.account);
    CompletionDecided(mid, lease, locked, finished);
  }

  /** Without new events and with leases long enough for a batch, the loop runs
      out of work: every job ends idle and every event has had its effect. */
  method Drain(repo: Repository, clock: nat -> int)
    requires repo.Valid() && Good(repo.history) && AllConsumed(repo.history)
    requires Ready(repo.history, clock(0)) && EpochsLeft(repo.history)
    requires forall n: nat :: clock(n) <= clock(n + 1)
    requires forall n: nat :: clock(n + 2) < clock(n) + 30 * SECOND
    modifies repo
    ensures repo.Valid() && repo.history.log == old(repo.history).log
    ensures AllIdle(repo.history)
    ensures forall a: Id, s: int :: 1 <= s <= |Log(repo.history, a)| ==>
      (a, s) in repo.history.effects && repo.history.effects[(a, s)] == Log(repo.history, a)[s - 1]
  {
    hide Good, AllConsumed, Tracks, Sound, Ready, EpochsLeft, AllIdle, Backlog, Log;
    var busy := true;
    var n: nat := 0;
    BacklogBounded(repo.history);
    while busy
      invariant repo.Valid() && Good(repo.history) && AllConsumed(repo.history)
      invariant Ready(repo.history, clock(n)) && EpochsLeft(repo.history)
      invariant repo.history.log == old(repo.history).log
      invariant !busy ==> AllIdle(repo.history)
      invariant 0 <= Backlog(repo.history)
      decreases Backlog(repo.history), busy
    {
      assert clock(n + 1) <= clock(n + 1 + 1);
      var turn := ConsumeRound(repo, n, clock(n), clock(n + 1), clock(n + 2));
      busy := turn.value;
      BacklogBounded(repo.history);
      n := n + 2;
    }
    IdleIsDone(repo.history);
  }

  lemma IdleIsDone(h: History)
    requires AllConsumed(h) && AllIdle(h)
    ensures forall a: Id, s: int :: 1 <= s <= |Log(h, a)| ==>
      (a, s) in h.effects && h.effects[(a, s)] == Log(h, a)[s - 1]
  {
    hide NoPoison, Dense;
    forall a: Id, s: int | 1 <= s <= |Log(h, a)|
      ensures (a, s) in h.effects && h.effects[(a, s)] == Log(h, a)[s - 1]
    {
      assert Consumed(h, a);
    }
  }
}
