/** Leases over whole runs: epochs only rise, a lease that is over never comes
    back, and an effect once recorded is never changed. */
module Fencing {
  import opened Prelude
  import opened Rows
  import opened Totals
  import opened Outbox
  import opened WorkerRules
  import opened CatalogService
  import opened Runs
  import opened Steps
  import opened Soundness
  import opened Consumption

  /** The lease was superseded, given back, or ran out by then. */
  predicate Over(jobs: map<Id, Job>, lease: Lease, time: int) {
    lease.account in jobs
    && var job := jobs[lease.account];
       || lease.epoch < job.leaseEpoch
       || (lease.epoch == job.leaseEpoch && (job.leaseUntil == None || job.leaseUntil.value <= time))
  }

  /** Jobs stay; a lease changes hands only under a higher epoch. */
  predicate LeaseMoves(before: Job, after: Job) {
    && before.leaseEpoch <= after.leaseEpoch
    && (before.leaseEpoch == after.leaseEpoch ==> after.leaseUntil == before.leaseUntil || after.leaseUntil == None)
  }

  predicate LeasesMove(before: map<Id, Job>, after: map<Id, Job>) {
    forall a :: a in before ==> a in after && LeaseMoves(before[a], after[a])
  }

  lemma {:induction false} FedLeases(h: History, account: Id, events: seq<Event>, now: Instant, after: History)
    requires Feeds(h, after, account, events, now)
    ensures LeasesMove(h.jobs, after.jobs)
  {
    if events != [] {
      var earlier := events[..|events| - 1];
      FedLeases(h, account, earlier, now, AppendAll(h, account, earlier, now).value);
    }
  }

  lemma MoneyLeases(h: History, after: History, shape: Shape, note: Note, now: Instant)
    requires Fitting(h, after, shape, note, now)
    ensures LeasesMove(h.jobs, after.jobs) && after.effects == h.effects
  {
    hide Feeds, Shift, ShapeOk, NoteOk, Files, SummaryOf, LeasesMove, OrdersMove;
    var s := SummaryOf(h, shape, now);
    FedLeases(h, s.account, s.events + Notices(note), now, after);
  }

  lemma ClaimLeases(h: History, q: ClaimRequest, pick: Option<Id>, token: Token, time: int)
    requires (pick.Some? ==> pick.value in h.jobs) && Claim(h, q, pick, token, time).Ok?
    ensures LeasesMove(h.jobs, Claim(h, q, pick, token, time).value.0.jobs)
  {
    hide Grant, Backoff;
    if pick.Some? && h.jobs[pick.value].state != Running {
      GrantLeases(h, q, pick.value, token, time);
    }
  }

  lemma GrantLeases(h: History, q: ClaimRequest, account: Id, token: Token, time: int)
    requires account in h.jobs && Grant(h, q, account, token, time).Ok?
    ensures LeasesMove(h.jobs, Grant(h, q, account, token, time).value.0.jobs)
  {
    hide Between, Limit;
  }

  lemma CompleteLeases(h: History, lease: Lease, time: int, later: int)
    requires Complete(h, lease, time, later).Ok?
    ensures LeasesMove(h.jobs, Complete(h, lease, time, later).value.0.jobs)
  {
    hide Complete;
    CompletedJobs(h, lease, time, later);
  }

  lemma CompletedJobs(h: History, lease: Lease, time: int, later: int)
    requires Complete(h, lease, time, later).Ok?
    ensures
      var after := Complete(h, lease, time, later).value.0;
      && lease.account in h.jobs
      && (after.jobs == h.jobs
          || after.jobs == h.jobs[lease.account := Finished(h.jobs[lease.account], lease.through, later)])
  {
    hide Between, Limit, Consume, Live, Finished;
  }

  lemma ReportLeases(h: History, op: Op, now: Instant)
    requires op.DoFail? || op.DoRetry?
    ensures LeasesMove(h.jobs, Step(h, op, now).jobs)
  {
    hide Backoff, NonBlank, Live;
  }

  lemma SameLeases(jobs: map<Id, Job>)
    ensures LeasesMove(jobs, jobs)
  {
  }

  lemma WorkLeases(h: History, op: Op, now: Instant)
    requires Works(op)
    ensures LeasesMove(h.jobs, Step(h, op, now).jobs)
  {
    hide Claim, Complete, Fail, Retry, Chosen, LeasesMove;
    SameLeases(h.jobs);
    match op {
      case DoClaim(q, busy, token) =>
        if Claim(h, q, Chosen(h.jobs, busy, now.at), token, now.at).Ok? {
          ClaimLeases(h, q, Chosen(h.jobs, busy, now.at), token, now.at);
        }
      case DoComplete(lease, later) =>
        if Complete(h, lease, now.at, later).Ok? {
          CompleteLeases(h, lease, now.at, later);
        }
      case _ => ReportLeases(h, op, now);
    }
  }

  lemma StepLeases(h: History, op: Op, now: Instant)
    requires Good(h)
    ensures LeasesMove(h.jobs, Step(h, op, now).jobs)
  {
    hide RowsOk, InRange, AmountsOk, CatalogOk, ReviewsPoint, Step, Fitting;
    if Works(op) {
      WorkLeases(h, op, now);
    } else if Administers(op) {
      AdminJobs(h, op, now);
    } else {
      var shape, note := StepShape(h, op, now);
      MoneyLeases(h, Step(h, op, now), shape, note, now);
    }
  }

  lemma {:induction false} RunLeases(h: History, ops: seq<Timed>)
    requires Good(h)
    ensures LeasesMove(h.jobs, Run(h, ops).jobs)
  {
    hide Good, Step;
    if ops != [] {
      var before := ops[..|ops| - 1];
      RunLeases(h, before);
      RunGood(h, before);
      StepLeases(Run(h, before), ops[|ops| - 1].op, ops[|ops| - 1].now);
    }
  }

  /** A grant outranks every lease of the account before it. */
  lemma GrantRises(h: History, q: ClaimRequest, busy: set<Id>, token: Token, now: Instant)
    requires Good(h) && Claim(h, q, Chosen(h.jobs, busy, now.at), token, now.at).Ok?
    requires Claim(h, q, Chosen(h.jobs, busy, now.at), token, now.at).value.1.Leased?
    ensures
      var (after, claimed) := Claim(h, q, Chosen(h.jobs, busy, now.at), token, now.at).value;
      var account := claimed.lease.account;
      && account in h.jobs && account in after.jobs && claimed.lease.epoch == h.jobs[account].leaseEpoch + 1
      && after.jobs[account].leaseEpoch == claimed.lease.epoch
      && Live(after.jobs[account], claimed.lease, now.at) == (|claimed.events| > 0
           && h.jobs[account].acknowledged < claimed.lease.through <= h.jobs[account].target)
  {
    hide Between;
  }

  /** Two grants to one account, however far apart in a run, never share an
      epoch: the later one is higher. */
  lemma EpochsIncrease(h: History, q1: ClaimRequest, busy1: set<Id>, token1: Token, t1: Instant,
                       ops: seq<Timed>, q2: ClaimRequest, busy2: set<Id>, token2: Token, t2: Instant)
    requires Good(h)
    requires Claim(h, q1, Chosen(h.jobs, busy1, t1.at), token1, t1.at).Ok?
    requires
      var first := Claim(h, q1, Chosen(h.jobs, busy1, t1.at), token1, t1.at).value;
      var mid := Run(first.0, ops);
      var second := Claim(mid, q2, Chosen(mid.jobs, busy2, t2.at), token2, t2.at);
      first.1.Leased? && second.Ok? && second.value.1.Leased? && first.1.lease.account == second.value.1.lease.account
    ensures
      var first := Claim(h, q1, Chosen(h.jobs, busy1, t1.at), token1, t1.at).value;
      var mid := Run(first.0, ops);
      first.1.lease.epoch < Claim(mid, q2, Chosen(mid.jobs, busy2, t2.at), token2, t2.at).value.1.lease.epoch
  {
    hide Claim, Chosen, Run, Good;
    var first := Claim(h, q1, Chosen(h.jobs, busy1, t1.at), token1, t1.at).value;
    GrantRises(h, q1, busy1, token1, t1);
    StepSound(h, DoClaim(q1, busy1, token1), t1);
    assert Step(h, DoClaim(q1, busy1, token1), t1) == first.0;
    RunGood(first.0, ops);
    RunLeases(first.0, ops);
    GrantRises(Run(first.0, ops), q2, busy2, token2, t2);
  }

  /** A lease that is over stays over, whatever happens next. */
  lemma OverStays(h: History, ops: seq<Timed>, lease: Lease, time: int)
    requires Good(h) && Over(h.jobs, lease, time)
    ensures Over(Run(h, ops).jobs, lease, time)
  {
    hide Run, Good;
    RunLeases(h, ops);
  }

  lemma OverIsNotLive(h: History, lease: Lease, time: int, now: Instant, later: int, reason: string)
    requires Over(h.jobs, lease, time) && time <= now.at
    ensures Step(h, DoComplete(lease, later), now) == h
    ensures Step(h, DoFail(lease, reason), now) == h
  {
    hide Between, Limit, Consume, Attempted, Finished;
  }

  /** And a worker that still holds it, however late it wakes up, changes nothing. */
  lemma OverChangesNothing(h: History, ops: seq<Timed>, lease: Lease, time: int, now: Instant, later: int, reason: string)
    requires Good(h) && Over(h.jobs, lease, time) && time <= now.at
    ensures Step(Run(h, ops), DoComplete(lease, later), now) == Run(h, ops)
    ensures Step(Run(h, ops), DoFail(lease, reason), now) == Run(h, ops)
  {
    hide Run, Good, Step;
    OverStays(h, ops, lease, time);
    OverIsNotLive(Run(h, ops), lease, time, now, later, reason);
  }

  // ---- effects ------------------------------------------------------------

  predicate EffectsStay(before: map<(Id, int), EventRow>, after: map<(Id, int), EventRow>) {
    forall k :: k in before ==> k in after && after[k] == before[k]
  }

  lemma StepEffects(h: History, op: Op, now: Instant)
    requires Good(h) && AllConsumed(h)
    ensures EffectsStay(h.effects, Step(h, op, now).effects)
  {
    hide RowsOk, InRange, AmountsOk, CatalogOk, ReviewsPoint, Fitting, Consumed, NoPoison, Claim, Complete, Fail, Retry;
    if Works(op) {
      hide Step;
      WorkEffects(h, op, now);
    } else if Administers(op) {
      hide Step;
      AdminJobs(h, op, now);
    } else {
      hide Step;
      var shape, note := StepShape(h, op, now);
      MoneyLeases(h, Step(h, op, now), shape, note, now);
    }
  }

  lemma WorkEffects(h: History, op: Op, now: Instant)
    requires AllConsumed(h) && Works(op)
    ensures EffectsStay(h.effects, Step(h, op, now).effects)
  {
    hide Consumed, NoPoison, Claim, Complete, Fail, Retry, Chosen;
    match op {
      case DoClaim(q, busy, token) =>
        if Claim(h, q, Chosen(h.jobs, busy, now.at), token, now.at).Ok? {
          ClaimWrites(h, q, Chosen(h.jobs, busy, now.at), token, now.at);
        }
      case DoComplete(lease, later) =>
        assert Consumed(h, lease.account) && NoPoison(h, lease.account);
        if Complete(h, lease, now.at, later).Ok? {
          HasJob(h, lease, now.at, later);
          CompletionDecided(h, lease, now.at, later);
        }
      case _ => ReportEffects(h, op, now);
    }
  }

  lemma ReportEffects(h: History, op: Op, now: Instant)
    requires op.DoFail? || op.DoRetry?
    ensures Step(h, op, now).effects == h.effects
  {
    hide Attempted, NonBlank, Live;
  }

  /** What the consumer did for a sequence is never done again or undone. */
  lemma {:induction false} EffectsArePermanent(before: seq<Timed>, ops: seq<Timed>)
    ensures EffectsStay(Run(EMPTY_HISTORY, before).effects, Run(EMPTY_HISTORY, before + ops).effects)
  {
    hide Good, Step, AllConsumed;
    if ops == [] {
      assert before + ops == before;
    } else {
      var all := before + ops;
      assert all[..|all| - 1] == before + ops[..|ops| - 1] && all[|all| - 1] == ops[|ops| - 1];
      EffectsArePermanent(before, ops[..|ops| - 1]);
      RunSound(all[..|all| - 1]);
      RunConsumed(all[..|all| - 1]);
      StepEffects(Run(EMPTY_HISTORY, all[..|all| - 1]), all[|all| - 1].op, all[|all| - 1].now);
    }
  }
}
