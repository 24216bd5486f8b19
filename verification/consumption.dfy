/** The outbox and its consumer over every interleaving of money operations,
    claims, completions, failures, crashes and retries: dense sequences, no
    poison event, effects exactly once, no lost wake-up. */
module Consumption {
  import opened Prelude
  import opened Sums
  import opened Rows
  import opened Totals
  import opened Outbox
  import opened Ledger
  import opened Protocol
  import opened PaymentRules
  import opened WorkerRules
  import opened CatalogService
  import opened Effects
  import opened Runs
  import opened Shapes
  import opened Steps
  import opened Soundness
  import opened Replay

  // ---- invariants ---------------------------------------------------------

  predicate Dense(rows: seq<EventRow>) {
    forall i :: 0 <= i < |rows| ==> rows[i].sequence == i + 1
  }

  /** Every event of the account passes the consumer's verification. */
  predicate NoPoison(h: History, account: Id) {
    forall i :: 0 <= i < |Log(h, account)| ==> Verifies(h, account, Log(h, account)[i].event)
  }

  function AckOf(h: History, account: Id): int {
    if account in h.jobs then h.jobs[account].acknowledged else 0
  }

  /** Exactly one effect, of the event itself, per acknowledged sequence. */
  ghost predicate ExactlyOnce(h: History, account: Id) {
    && 0 <= AckOf(h, account) <= |Log(h, account)|
    && (forall s: int :: (account, s) in h.effects <==> 1 <= s <= AckOf(h, account))
    && (forall s: int :: (account, s) in h.effects && 1 <= s <= |Log(h, account)| ==>
          h.effects[(account, s)] == Log(h, account)[s - 1])
  }

  /** Idle exactly when there is nothing to do, dead exactly after eight attempts,
      and a running job's lease covers a batch of its own backlog. */
  predicate JobOk(job: Job, backlogEnd: int) {
    && job.target == backlogEnd
    && 0 <= job.acknowledged <= job.target
    && (job.state == Idle <==> job.acknowledged == job.target)
    && job.attempts <= MAX_ATTEMPTS
    && (job.state == Dead <==> job.attempts == MAX_ATTEMPTS)
    && 0 <= job.leaseEpoch
    && (job.state == Running ==>
          && job.leaseToken.Some? && job.leaseUntil.Some?
          && job.acknowledged < job.leaseThrough <= job.target && job.leaseThrough - job.acknowledged <= 100)
  }

  predicate Awake(h: History, account: Id) {
    && (account in h.jobs <==> Log(h, account) != [])
    && (account in h.jobs ==> JobOk(h.jobs[account], |Log(h, account)|))
  }

  ghost predicate Consumed(h: History, account: Id) {
    Dense(Log(h, account)) && Awake(h, account) && ExactlyOnce(h, account)
  }

  // ---- money operations ---------------------------------------------------

  lemma AppendConsumed(h: History, account: Id, e: Event, now: Instant, after: History, a: Id)
    requires Consumed(h, a) && Append(h, account, e, now).Ok? && after.effects == h.effects
    requires after.log == Append(h, account, e, now).value.log && after.jobs == Append(h, account, e, now).value.jobs
    ensures Consumed(after, a)
  {
    assert a == account ==> Log(after, a) == Log(h, a) + [EventRow(|Log(h, a)| + 1, e)];
  }

  lemma {:induction false} FedConsumed(h: History, account: Id, events: seq<Event>, now: Instant, after: History, a: Id)
    requires Consumed(h, a) && Feeds(h, after, account, events, now) && after.effects == h.effects
    ensures Consumed(after, a)
  {
    hide Append;
    if events == [] {
      assert Log(after, a) == Log(h, a);
    } else {
      hide Consumed;
      var earlier := events[..|events| - 1];
      var mid := AppendAll(h, account, earlier, now).value;
      AppendKeepsEffects(h, account, earlier, now);
      FedConsumed(h, account, earlier, now, mid, a);
      AppendConsumed(mid, account, events[|events| - 1], now, after, a);
    }
  }

  lemma {:induction false} AppendKeepsEffects(h: History, account: Id, events: seq<Event>, now: Instant)
    ensures AppendAll(h, account, events, now).Ok? ==> AppendAll(h, account, events, now).value.effects == h.effects
  {
    if events != [] {
      AppendKeepsEffects(h, account, events[..|events| - 1], now);
    }
  }

  /** Sources an event may point to do not go away. */
  predicate SourcesStay(h: History, after: History) {
    && h.ledger <= after.ledger
    && (forall id :: id in h.reservations ==>
          id in after.reservations && after.reservations[id].spec == h.reservations[id].spec)
    && (forall id :: id in h.reviews ==> id in after.reviews && after.reviews[id].reservation == h.reviews[id].reservation)
  }

  lemma Persists(h: History, after: History, account: Id, e: Event)
    requires SourcesStay(h, after) && Verifies(h, account, e)
    ensures Verifies(after, account, e)
  {
    hide Balanced;
  }

  lemma SourcesKept(h: History, after: History, shape: Shape, note: Note, now: Instant)
    requires Fitting(h, after, shape, note, now)
    ensures SourcesStay(h, after)
  {
    ProjectsStay(h, after, shape, note, now);
    ReviewsStay(h, after, shape, note, now);
    hide Feeds, Shift, ShapeOk, NoteOk, SummaryOf, Files;
  }

  lemma ReviewsStay(h: History, after: History, shape: Shape, note: Note, now: Instant)
    requires Fitting(h, after, shape, note, now)
    ensures forall id :: id in h.reviews ==>
      id in after.reviews && after.reviews[id].reservation == h.reviews[id].reservation
  {
    hide Feeds, Shift, ShapeOk, SummaryOf, Summarizes, Approves;
  }

  /** Both postings the ledger knows are balanced and the account's own. */
  lemma PairBalanced(account: Id, delta: I64, counter: Book)
    requires delta != I64_MIN
    ensures EntrySum(Pair(account, delta, counter)) == 0
    ensures forall i :: 0 <= i < 2 ==> Pair(account, delta, counter)[i].account == account
  {
    var entries := Pair(account, delta, counter);
    assert entries[1..] == [entries[1]] && entries[1..][1..] == [];
    assert EntrySum(entries[1..]) == entries[1].amount;
  }

  lemma ClearingBalanced(account: Id, micros: I64)
    requires 0 <= micros
    ensures EntrySum(ClearingPair(account, micros)) == 0
    ensures forall i :: 0 <= i < 2 ==> ClearingPair(account, micros)[i].account == account
  {
    var entries := ClearingPair(account, micros);
    assert entries[1..] == [entries[1]] && entries[1..][1..] == [];
    assert EntrySum(entries[1..]) == entries[1].amount;
  }

  /** What a step posts is balanced. */
  lemma PostingBalanced(h: History, shape: Shape, now: Instant)
    requires Amount(shape) && SummaryOf(h, shape, now).posting.Some?
    ensures Balanced(SummaryOf(h, shape, now).posting.value, SummaryOf(h, shape, now).account)
  {
    hide EntrySum;
    match shape {
      case Charging(was, _, amount) => PairBalanced(was.spec.project, -amount, UsageRevenue);
      case Metering(u, cost) => PairBalanced(u.project, -cost, UsageRevenue);
      case Capturing(_, payment, _) => PairBalanced(PayerOf(h, payment), Micros(payment.amount), CashClearing);
      case Refunding(_, refund, _) =>
        PairBalanced(RefundAccount(h, refund), -Micros(refund.amount), RefundClearing);
        PairBalanced(RefundAccount(h, refund), -Micros(refund.amount), CashClearing);
      case Clearing(_, refund) => ClearingBalanced(RefundAccount(h, refund), Micros(refund.amount));
      case _ =>
    }
  }

  lemma OwnEventsVerify(h: History, after: History, shape: Shape, now: Instant)
    requires Amount(shape) && ShapeOk(h, shape, now) && Writes(h, after, SummaryOf(h, shape, now))
    ensures var s := SummaryOf(h, shape, now);
            forall e :: e in s.events ==> Verifies(after, s.account, e)
  {
    match shape {
      case Opening(_) => RowEventsVerify(h, after, shape, now);
      case Moving(_, _) => RowEventsVerify(h, after, shape, now);
      case _ => PostedEventsVerify(h, after, shape, now);
    }
  }

  lemma RowEventsVerify(h: History, after: History, shape: Shape, now: Instant)
    requires (shape.Opening? || shape.Moving?) && Amount(shape) && ShapeOk(h, shape, now)
    requires Writes(h, after, SummaryOf(h, shape, now))
    ensures var s := SummaryOf(h, shape, now);
            forall e :: e in s.events ==> Verifies(after, s.account, e)
  {
    hide BalanceGate, BudgetGate, ReservedRequest, MeteredRequest, OrdersMove;
  }

  lemma PostedEventsVerify(h: History, after: History, shape: Shape, now: Instant)
    requires !shape.Opening? && !shape.Moving? && Amount(shape) && ShapeOk(h, shape, now)
    requires Writes(h, after, SummaryOf(h, shape, now))
    ensures var s := SummaryOf(h, shape, now);
            forall e :: e in s.events ==> Verifies(after, s.account, e)
  {
    hide Balanced, ReservedRequest, Fresh, Gated, RefundFits, PayerOf, RefundAccount, OrdersMove, ChargePosting,
         TopUpPosting, RefundPosting, ClearPosting;
    if SummaryOf(h, shape, now).posting.Some? {
      PostingBalanced(h, shape, now);
    }
  }

  lemma NoticesVerify(h: History, after: History, shape: Shape, note: Note, now: Instant)
    requires Fitting(h, after, shape, note, now)
    ensures forall e :: e in Notices(note) ==> Verifies(after, SummaryOf(h, shape, now).account, e)
  {
    hide Feeds, Shift, ShapeOk, SummaryOf, Approves, Writes;
    ProjectsStay(h, after, shape, note, now);
  }

  /** Events that were there still verify, and so do those the step added. */
  lemma FedNoPoison(h: History, after: History, account: Id, events: seq<Event>, now: Instant, a: Id)
    requires NoPoison(h, a) && SourcesStay(h, after) && Feeds(h, after, account, events, now)
    requires forall e :: e in events ==> Verifies(after, account, e)
    ensures NoPoison(after, a)
  {
    hide Verifies, SourcesStay, Feeds;
    Fed(h, account, events, now, after, a);
    var rows, all := Log(after, a), Events(Log(after, a));
    forall i | 0 <= i < |rows| ensures Verifies(after, a, rows[i].event) {
      if i < |Log(h, a)| {
        assert Verifies(h, a, Log(h, a)[i].event);
        Persists(h, after, a, Log(h, a)[i].event);
      } else {
        assert rows[i].event == all[i] && all[i] == events[i - |Log(h, a)|];
      }
    }
  }

  lemma MoneyStep(h: History, op: Op, now: Instant, a: Id)
    requires Good(h) && Consumed(h, a) && NoPoison(h, a) && !Apart(op)
    ensures Consumed(Step(h, op, now), a) && NoPoison(Step(h, op, now), a)
  {
    hide RowsOk, InRange, AmountsOk, CatalogOk, ReviewsPoint, Step, Fitting, Consumed, NoPoison;
    var shape, note := StepShape(h, op, now);
    MoneyConsumed(h, Step(h, op, now), shape, note, now, a);
  }

  lemma MoneyConsumed(h: History, after: History, shape: Shape, note: Note, now: Instant, a: Id)
    requires RowsOk(h) && Consumed(h, a) && NoPoison(h, a) && Fitting(h, after, shape, note, now)
    ensures Consumed(after, a) && NoPoison(after, a)
  {
    hide RowsOk, ShapeOk, NoteOk, Files, SummaryOf, Consumed, NoPoison, Feeds, Notices, SourcesStay, Verifies, Shift, Amount;
    var s := SummaryOf(h, shape, now);
    var events := s.events + Notices(note);
    FedConsumed(h, s.account, events, now, after, a);
    SourcesKept(h, after, shape, note, now);
    OwnEventsVerify(h, after, shape, now) by {
      assert Writes(h, after, Noticed(s, note));
    }
    NoticesVerify(h, after, shape, note, now);
    FedNoPoison(h, after, s.account, events, now, a);
  }

  // ---- batches ------------------------------------------------------------

  /** On a dense log the query is a slice. */
  lemma {:induction false} BetweenDense(rows: seq<EventRow>, after: int, upto: int)
    requires Dense(rows) && 0 <= after <= upto
    ensures Between(rows, after, upto) == if after <= |rows| then rows[after..Min(upto, |rows|)] else []
  {
    if rows != [] {
      BetweenDense(rows[..|rows| - 1], after, upto);
    }
  }

  lemma BatchDense(rows: seq<EventRow>, acknowledged: int, target: int, limit: nat)
    requires Dense(rows) && 0 <= acknowledged < target <= |rows| && 0 < limit
    ensures
      var batch := Limit(Between(rows, acknowledged, target), limit);
      && batch == rows[acknowledged..Min(target, acknowledged + limit)]
      && batch != [] && batch[|batch| - 1].sequence == Min(target, acknowledged + limit)
  {
    BetweenDense(rows, acknowledged, target);
    hide Between;
    var all := rows[acknowledged..target];
    assert Between(rows, acknowledged, target) == all;
    if limit < |all| {
      assert Limit(all, limit) == all[..limit] == rows[acknowledged..acknowledged + limit];
    }
    var batch := rows[acknowledged..Min(target, acknowledged + limit)];
    assert Limit(all, limit) == batch && batch[|batch| - 1] == rows[acknowledged + |batch| - 1];
  }

  /** A slice of a dense, verified log is consumed to its end, one new effect per
      event. */
  lemma {:induction false} ConsumeSlice(h: History, account: Id, from: I64, through: I64)
    requires Dense(Log(h, account)) && NoPoison(h, account) && 0 <= from <= through <= |Log(h, account)|
    requires forall s: int :: from < s <= through ==> (account, s) !in h.effects
    ensures
      var r := Consume(h, account, from, Log(h, account)[from..through]);
      && r.Ok? && r.value.0 == through
      && (forall k :: k in r.value.1 <==> k in h.effects || (k.0 == account && from < k.1 <= through))
      && (forall k :: k in r.value.1 ==>
            r.value.1[k] == if k in h.effects then h.effects[k] else Log(h, account)[k.1 - 1])
  {
    hide Verifies;
    if from < through {
      var events := Log(h, account)[from..through];
      assert events[..|events| - 1] == Log(h, account)[from..through - 1];
      assert events[|events| - 1] == Log(h, account)[through - 1];
      ConsumeSlice(h, account, from, through - 1);
    } else {
      assert Log(h, account)[from..through] == [];
    }
  }

  // ---- worker steps -------------------------------------------------------

  lemma ClaimConsumed(h: History, q: ClaimRequest, pick: Option<Id>, token: Token, time: int, a: Id)
    requires Consumed(h, a) && (pick.Some? ==> Consumed(h, pick.value))
    requires pick.Some? ==> pick.value in h.jobs && Claimable(h.jobs[pick.value], time)
    requires Claim(h, q, pick, token, time).Ok?
    ensures Consumed(Claim(h, q, pick, token, time).value.0, a)
  {
    hide Between, Limit, Backoff;
    if pick.Some? {
      var job := h.jobs[pick.value];
      if job.state == JobPending {
        BatchDense(Log(h, pick.value), job.acknowledged, job.target, q.limit);
      }
    }
  }

  /** Exactly when completing commits: a repeated completion changes nothing, and
      otherwise the lease must still be live when the work ends. No event of the
      source can be the reason it fails. */
  lemma CompletionDecided(h: History, lease: Lease, time: int, later: int)
    requires Consumed(h, lease.account) && NoPoison(h, lease.account) && lease.account in h.jobs
    ensures
      var job := h.jobs[lease.account];
      var duplicate := lease.through <= job.acknowledged && lease.expected < lease.through;
      var r := Complete(h, lease, time, later);
      && (r.Ok? <==> duplicate || (Live(job, lease, time) && later < job.leaseUntil.value))
      && (r.Ok? && duplicate ==> r.value == (h, Acknowledged(job.acknowledged, true)))
      && (r.Ok? && !duplicate ==>
            && r.value.1 == Acknowledged(lease.through, false)
            && r.value.0 == h.(jobs := h.jobs[lease.account := Finished(job, lease.through, later)],
                               effects := r.value.0.effects)
            && (forall k :: k in r.value.0.effects <==>
                  k in h.effects || (k.0 == lease.account && job.acknowledged < k.1 <= lease.through))
            && (forall k :: k in r.value.0.effects ==>
                  r.value.0.effects[k]
                    == if k in h.effects then h.effects[k] else Log(h, lease.account)[k.1 - 1]))
  {
    hide Verifies, Consume, Between, Limit, Finished;
    var job := h.jobs[lease.account];
    if Live(job, lease, time) {
      BatchDense(Log(h, lease.account), job.acknowledged, lease.through, 101);
      ConsumeSlice(h, lease.account, job.acknowledged, lease.through);
    }
  }

  lemma CompleteConsumed(h: History, lease: Lease, time: int, later: int, a: Id)
    requires Consumed(h, a) && Consumed(h, lease.account) && NoPoison(h, lease.account)
    requires Complete(h, lease, time, later).Ok?
    ensures Consumed(Complete(h, lease, time, later).value.0, a)
  {
    hide Complete, Verifies, Consumed, Finished, NoPoison, Live;
    HasJob(h, lease, time, later);
    CompletionDecided(h, lease, time, later);
    var job := h.jobs[lease.account];
    if !(lease.through <= job.acknowledged && lease.expected < lease.through) {
      LiveBatch(h, lease, time);
      BatchConsumed(h, Complete(h, lease, time, later).value.0, lease, later, a);
    }
  }

  lemma HasJob(h: History, lease: Lease, time: int, later: int)
    requires Complete(h, lease, time, later).Ok?
    ensures lease.account in h.jobs
  {
  }

  lemma LiveBatch(h: History, lease: Lease, time: int)
    requires lease.account in h.jobs && Live(h.jobs[lease.account], lease, time)
    ensures h.jobs[lease.account].acknowledged < lease.through <= h.jobs[lease.account].target
  {
  }

  /** Acknowledging a batch together with its effects. */
  lemma BatchConsumed(h: History, after: History, lease: Lease, later: int, a: Id)
    requires Consumed(h, a) && lease.account in h.jobs
    requires h.jobs[lease.account].acknowledged < lease.through <= h.jobs[lease.account].target
    requires after == h.(jobs := h.jobs[lease.account := Finished(h.jobs[lease.account], lease.through, later)],
                         effects := after.effects)
    requires forall k :: k in after.effects <==>
      k in h.effects || (k.0 == lease.account && h.jobs[lease.account].acknowledged < k.1 <= lease.through)
    requires forall k :: k in after.effects ==> (k in h.effects ==> after.effects[k] == h.effects[k])
    requires Consumed(h, lease.account)
    requires forall k :: k in after.effects && k !in h.effects && 0 < k.1 <= |Log(h, lease.account)| ==>
      after.effects[k] == Log(h, lease.account)[k.1 - 1]
    ensures Consumed(after, a)
  {
    assert Log(after, a) == Log(h, a);
    assert AckOf(after, a) == if a == lease.account then lease.through else AckOf(h, a);
    forall s: int ensures (a, s) in after.effects <==> 1 <= s <= AckOf(after, a) {
      assert (a, s) in after.effects <==>
        (a, s) in h.effects || (a == lease.account && h.jobs[lease.account].acknowledged < s <= lease.through);
    }
  }

  lemma FailConsumed(h: History, lease: Lease, reason: string, time: int, a: Id)
    requires Consumed(h, a) && Fail(h, lease, reason, time).Ok?
    ensures Consumed(Fail(h, lease, reason, time).value.0, a)
  {
    hide Backoff;
  }

  lemma RetryConsumed(h: History, account: Id, reason: string, time: int, a: Id)
    requires Consumed(h, a) && Retry(h, account, reason, time).Ok?
    ensures Consumed(Retry(h, account, reason, time).value.0, a)
  {
    hide NonBlank;
  }

  ghost predicate AllConsumed(h: History) {
    forall a: Id :: Consumed(h, a) && NoPoison(h, a)
  }

  lemma WorkConsumed(h: History, op: Op, now: Instant, a: Id)
    requires AllConsumed(h) && Works(op)
    ensures Consumed(Step(h, op, now), a)
  {
    hide Consumed, NoPoison, Claim, Complete, Fail, Retry, Chosen, Claimable;
    assert Consumed(h, a) && NoPoison(h, a);
    match op {
      case DoClaim(q, busy, token) =>
        var pick := Chosen(h.jobs, busy, now.at);
        assert Next(h.jobs, busy, now.at, pick);
        if Claim(h, q, pick, token, now.at).Ok? {
          if pick.Some? { assert Consumed(h, pick.value) && NoPoison(h, pick.value); }
          ClaimConsumed(h, q, pick, token, now.at, a);
        }
      case DoComplete(lease, later) =>
        assert Consumed(h, lease.account) && NoPoison(h, lease.account);
        if Complete(h, lease, now.at, later).Ok? {
          CompleteConsumed(h, lease, now.at, later, a);
        }
      case DoFail(lease, reason) =>
        if Fail(h, lease, reason, now.at).Ok? {
          FailConsumed(h, lease, reason, now.at, a);
        }
      case DoRetry(account, reason) =>
        if Retry(h, account, reason, now.at).Ok? {
          RetryConsumed(h, account, reason, now.at, a);
        }
    }
  }

  // ---- every step, every run ----------------------------------------------

  lemma SamePoison(h: History, after: History, a: Id)
    requires NoPoison(h, a) && after.log == h.log && after.ledger == h.ledger
    requires after.reservations == h.reservations && after.reviews == h.reviews
    ensures NoPoison(after, a)
  {
    hide Balanced;
    var rows := Log(h, a);
    assert Log(after, a) == rows;
    forall i | 0 <= i < |rows| ensures Verifies(after, a, rows[i].event) {
      assert Verifies(h, a, rows[i].event);
      Persists(h, after, a, rows[i].event);
    }
  }

  lemma SameConsumed(h: History, after: History, a: Id)
    requires Consumed(h, a) && after.log == h.log && after.jobs == h.jobs && after.effects == h.effects
    ensures Consumed(after, a)
  {
  }

  lemma StepConsumed(h: History, op: Op, now: Instant)
    requires Good(h) && AllConsumed(h)
    ensures AllConsumed(Step(h, op, now))
  {
    hide Good, Step, Consumed, NoPoison;
    forall a: Id ensures Consumed(Step(h, op, now), a) && NoPoison(Step(h, op, now), a) {
      assert Consumed(h, a) && NoPoison(h, a);
      if Apart(op) {
        ApartStep(h, op, now);
        SamePoison(h, Step(h, op, now), a);
        if Works(op) {
          WorkConsumed(h, op, now, a);
        } else {
          AdminJobs(h, op, now);
          SameConsumed(h, Step(h, op, now), a);
        }
      } else {
        MoneyStep(h, op, now, a);
      }
    }
  }

  lemma AdminJobs(h: History, op: Op, now: Instant)
    requires Administers(op)
    ensures Step(h, op, now).jobs == h.jobs && Step(h, op, now).effects == h.effects
  {
    hide Put, Bootstrap, Claim, Complete, Fail, Retry, Chosen, Reserve, Dispatch, Release, ReportUnresolved, Settle,
         RecordUsage, CapturePayment, AcceptTrade, CreateRefund, PrepareRefund, CompleteRefund, Rebuild;
  }

  /** In every reachable state of the whole system: outboxes are dense, every
      event verifies, effects are exactly one per acknowledged sequence, and each
      job's state tells the truth about its backlog and its attempts. */
  lemma {:induction false} RunConsumed(ops: seq<Timed>)
    ensures AllConsumed(Run(EMPTY_HISTORY, ops))
  {
    hide Good, Step, Consumed, NoPoison;
    if ops == [] {
      forall a: Id ensures Consumed(EMPTY_HISTORY, a) && NoPoison(EMPTY_HISTORY, a) {
        EmptyConsumed(a);
      }
    } else {
      RunConsumed(ops[..|ops| - 1]);
      RunSound(ops[..|ops| - 1]);
      StepConsumed(Run(EMPTY_HISTORY, ops[..|ops| - 1]), ops[|ops| - 1].op, ops[|ops| - 1].now);
    }
  }

  lemma EmptyConsumed(a: Id)
    ensures Consumed(EMPTY_HISTORY, a) && NoPoison(EMPTY_HISTORY, a)
  {
  }

  /** In particular: in no reachable state can an event make the completion of a
      live lease fail. */
  lemma LiveLeaseCompletes(ops: seq<Timed>, lease: Lease, time: int, later: int)
    requires lease.account in Run(EMPTY_HISTORY, ops).jobs
    requires Live(Run(EMPTY_HISTORY, ops).jobs[lease.account], lease, time)
    requires later < Run(EMPTY_HISTORY, ops).jobs[lease.account].leaseUntil.value
    ensures Complete(Run(EMPTY_HISTORY, ops), lease, time, later).Ok?
    ensures Complete(Run(EMPTY_HISTORY, ops), lease, time, later).value.1 == Acknowledged(lease.through, false)
  {
    hide Run, Complete, Consumed, NoPoison;
    var h := Run(EMPTY_HISTORY, ops);
    RunConsumed(ops);
    assert Consumed(h, lease.account) && NoPoison(h, lease.account);
    CompletionDecided(h, lease, time, later);
  }
}
