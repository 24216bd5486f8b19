/** Observations under way: the rows they read stay as they read them, and which
    unknown work they clear, against which end. */
module Observations {
  import opened Prelude
  import opened Rows
  import opened FleetRows
  import opened ClusterRules
  import opened TrafficRules
  import opened ProofRules
  import opened PoolRules
  import opened FleetWorld
  import opened DrainSafety
  import opened DrainRuns
  import opened ClusterDelivery

  // ---- locked rows --------------------------------------------------------

  /** The pool's row and its cluster's are what the observation read, and what it
      cleared was in a draining pool with a fenced entry. */
  ghost predicate Locked(w: World, c: Id)
    requires c in w.checked
  {
    var r := w.checked[c];
    && r.observation.pool in w.t.pools && w.t.pools[r.observation.pool] == r.row && r.row.cluster == c
    && c in w.t.clusters && w.t.clusters[c] == r.member
    && (r.cleared.Some? ==> r.observation.idle && r.row.state == Draining && r.row.protocol == 2)
  }

  ghost predicate LocksOk(w: World) {
    forall c :: c in w.checked ==> Locked(w, c)
  }

  lemma UnpooledElsewhere(t: Tables, m: Move, now: int, c: Id, pool: Id)
    requires Unpooled(m) && m.cluster != c && c in t.clusters && pool in t.pools
    ensures Untouched(t, Served(t, m, now), c, pool)
  {
    hide Authenticated, Name, ReportOk, LeaseLive, Reported;
  }

  lemma RegisterElsewhere(t: Tables, m: Move, now: int, c: Id, pool: Id)
    requires m.RegisterCluster? && c in t.clusters && pool in t.pools
    ensures Untouched(t, Served(t, m, now), c, pool)
  {
    hide Name;
  }

  lemma PutElsewhere(t: Tables, m: Move, now: int, c: Id, pool: Id)
    requires m.PutDesired? && m.cluster != c && c in t.clusters && pool in t.pools && t.pools[pool].cluster == c
    ensures Untouched(t, Served(t, m, now), c, pool)
  {
    hide Find, GuardRow, GuardPasses, GuardedItems, ItemsOk;
  }

  lemma PooledElsewhere(t: Tables, m: Move, now: int, c: Id, pool: Id)
    requires m.BindPool? || (m.TransitionPool? && m.id != pool) || (m.ObservationTasks? && m.cluster != c)
    requires c in t.clusters && pool in t.pools && t.pools[pool].cluster == c
    ensures Untouched(t, Served(t, m, now), c, pool)
  {
    hide Authenticated, Name, DesiredSpec, DrainProven, OrphansDated, LatestEnd;
  }

  lemma ReconcileElsewhere(t: Tables, id: Id, e: Option<ScaleEvidence>, applied: I64, ready: bool, c: Id, pool: Id)
    requires id in t.pools && t.pools[id].cluster in t.clusters && Reconcile(t, id, e, applied, ready).Ok?
    requires c in t.clusters && pool in t.pools && t.pools[id].cluster != c && id != pool
    ensures Untouched(t, Reconcile(t, id, e, applied, ready).value.0, c, pool)
  {
    hide WithItem, DrainProven, EvidenceOk;
  }

  lemma ObservedElsewhere(t: Tables, m: Move, now: int, c: Id, pool: Id)
    requires m.ObservePool? && m.cluster != c && c in t.clusters && pool in t.pools && t.pools[pool].cluster == c
    ensures Untouched(t, Served(t, m, now), c, pool)
  {
    hide Reconcile, Observed, ClearedAt;
    var q := m.observation;
    if Holds(t, m.cluster, q) && Conclude(t, q, m.since, m.cleared).Ok? {
      ObservedCluster(t, q, m.since);
      ReconcileElsewhere(Cleared(Seen(t, q, m.since), m.cleared), q.pool, q.scaling, q.applied, q.ready, c, pool);
    }
  }

  /** What does not wait for the rows of an observation leaves them alone. */
  lemma RowsHeld(w: World, m: Move, c: Id)
    requires c in w.checked && Locked(w, c) && !Waits(w, m) && !(m.ObservePool? && m.cluster == c)
    ensures Untouched(w.t, Served(w.t, m, w.clock), c, w.checked[c].observation.pool)
  {
    hide Served, Untouched;
    var pool := w.checked[c].observation.pool;
    if m.RegisterCluster? {
      RegisterElsewhere(w.t, m, w.clock, c, pool);
    } else if Unpooled(m) {
      UnpooledElsewhere(w.t, m, w.clock, c, pool);
    } else if m.PutDesired? {
      PutElsewhere(w.t, m, w.clock, c, pool);
    } else if m.BindPool? || m.TransitionPool? || m.ObservationTasks? {
      PooledElsewhere(w.t, m, w.clock, c, pool);
    } else if m.ObservePool? {
      ObservedElsewhere(w.t, m, w.clock, c, pool);
    } else {
      OthersElsewhere(w.t, m, w.clock, c, pool);
    }
  }

  lemma OthersElsewhere(t: Tables, m: Move, now: int, c: Id, pool: Id)
    requires !Pooled(m) && !Unpooled(m) && !m.ObservePool? && c in t.clusters && pool in t.pools
    ensures Untouched(t, Served(t, m, now), c, pool)
  {
    hide Served;
    PoolsUntouched(t, m, now);
    ClustersUntouched(t, m, now);
  }

  /** An observation of the next world is one of this world, or was just checked. */
  lemma StillChecked(w: World, m: Move, c: Id)
    requires c in Run1(w, m).checked
    ensures c in w.checked || (m.CheckObservation? && m.cluster == c)
    ensures !(m.CheckObservation? && m.cluster == c) && !(m.ClearOrphans? && m.cluster == c) ==>
      c in w.checked && Run1(w, m).checked[c] == w.checked[c]
    ensures m.ObservePool? ==> m.cluster != c
  {
    hide Served, PoolRules.CheckObservation, TakeSnapshot, Clearing;
  }

  lemma JustChecked(w: World, m: Move)
    requires m.CheckObservation? && m.cluster in Run1(w, m).checked && !Waits(w, m)
    ensures Run1(w, m).t == w.t && Locked(Run1(w, m), m.cluster)
  {
    hide ObservationOk, Answers, FenceHolds;
  }

  lemma JustCleared(w: World, m: Move)
    requires m.ClearOrphans? && m.cluster in w.checked && Locked(w, m.cluster) && m.cluster in Run1(w, m).checked
    ensures Run1(w, m).t == w.t && Locked(Run1(w, m), m.cluster)
  {
  }

  lemma StepLocks(w: World, m: Move)
    requires LocksOk(w) && !Waits(w, m)
    ensures LocksOk(Run1(w, m))
  {
    hide Run1, Served, Waits;
    var after := Run1(w, m);
    TablesAfter(w, m);
    forall c | c in after.checked ensures Locked(after, c) {
      StillChecked(w, m, c);
      if m.CheckObservation? && m.cluster == c {
        JustChecked(w, m);
      } else if m.ClearOrphans? && m.cluster == c {
        assert Locked(w, c);
        JustCleared(w, m);
      } else {
        assert Locked(w, c);
        RowsHeld(w, m, c);
      }
    }
  }

  /** In every reachable world an observation under way finds its rows as it read them,
      whatever has committed since. */
  lemma {:induction false} LockedRowsStay(moves: seq<Timed>)
    ensures LocksOk(Run(START, moves))
  {
    hide Run1, Waits, Truthful;
    if moves != [] {
      hide LocksOk;
      var before, last := Run(START, moves[..|moves| - 1]), moves[|moves| - 1];
      LockedRowsStay(moves[..|moves| - 1]);
      if Occurs(before, last.move, last.now) {
        LaterLocks(before, last.now);
        OccursLater(before, last.move, last.now);
        StepLocks(before.(clock := last.now), last.move);
      }
    }
  }

  lemma LaterLocks(w: World, now: int)
    requires LocksOk(w)
    ensures LocksOk(w.(clock := now))
  {
    forall c | c in w.checked ensures Locked(w.(clock := now), c) {
      assert Locked(w, c);
    }
  }

  // ---- unknown work -------------------------------------------------------

  /** The orphan's count becomes known in this step. */
  predicate Resolves(before: Tables, after: Tables, k: (Id, Id)) {
    k in before.views && before.views[k].active < 0 && k in after.views && 0 <= after.views[k].active
  }

  lemma ConcludeResolves(t: Tables, m: Move, now: int, k: (Id, Id))
    requires m.ObservePool? && Resolves(t, Served(t, m, now), k)
    ensures k in m.cleared && Holds(t, m.cluster, m.observation)
    ensures Conclude(t, m.observation, m.since, m.cleared).Ok?
  {
    hide Reconcile, Observed;
    var q := m.observation;
    if Holds(t, m.cluster, q) && Conclude(t, q, m.since, m.cleared).Ok? {
      ObservedCluster(t, q, m.since);
      ReconcileViews(Cleared(Seen(t, q, m.since), m.cleared), q);
    }
  }

  lemma ReconcileViews(t: Tables, q: Observation)
    requires q.pool in t.pools && t.pools[q.pool].cluster in t.clusters
    ensures Reconcile(t, q.pool, q.scaling, q.applied, q.ready).Ok? ==>
      Reconcile(t, q.pool, q.scaling, q.applied, q.ready).value.0.views == t.views
  {
    hide WithItem, DrainProven, EvidenceOk;
  }

  lemma ReportResolves(w: World, q: TrafficReport, k: (Id, Id))
    requires ViewsOk(w) && ReportTraffic(w.t, q).Ok?
    ensures !Resolves(w.t, ReportTraffic(w.t, q).value.0, k)
  {
    if k in w.t.views {
      assert ViewOk(w, k);
      if ReportTraffic(w.t, q).value.0 != w.t {
        TakenReport(w.t, q);
      }
    }
  }

  lemma FetchResolves(w: World, m: Move, k: (Id, Id))
    requires m.FetchSnapshot? && Truthful(w, m)
    ensures !Resolves(w.t, Served(w.t, m, w.clock), k)
  {
    hide TakeSnapshot;
    if TakeSnapshot(w.t, m.session, m.identity, m.required, m.nonce, w.clock).Ok? {
      TakenSnapshot(w, m.session, m.identity, m.required, m.nonce, w.clock);
    }
  }

  lemma ProveResolves(t: Tables, id: Id, token: Token, q: GatewayProof, now: int, k: (Id, Id))
    requires Prove(t, id, token, q, now).Ok?
    ensures !Resolves(t, Prove(t, id, token, q, now).value, k)
  {
    hide Authenticated;
  }

  lemma ServedResolves(w: World, m: Move, k: (Id, Id))
    requires Inv(w) && Truthful(w, m) && Resolves(w.t, Served(w.t, m, w.clock), k)
    ensures m.ObservePool?
  {
    hide Inv, Conclude, Prove, ReportTraffic, TakeSnapshot, Put, ProofTasks, Tasks, Bind, Transition, Register,
         Rotate, Revoke, Poll, Report;
    match m {
      case ObservePool(_, _, _, _) =>
      case ProveGateway(id, token, q) =>
        if Prove(w.t, id, token, q, w.clock).Ok? { ProveResolves(w.t, id, token, q, w.clock, k); }
        assert false;
      case DeliverReport(q) =>
        if ReportTraffic(w.t, q).Ok? { ReportResolves(w, q, k) by { assert ViewsOk(w) by { Parts(w); } } }
        assert false;
      case FetchSnapshot(_, _, _, _) =>
        FetchResolves(w, m, k);
        assert false;
      case _ =>
        ViewsUntouched(w.t, m, w.clock);
        assert false;
    }
  }

  lemma Parts(w: World)
    requires Inv(w)
    ensures ViewsOk(w) && ProofsOk(w)
  {
  }

  lemma ViewsUntouched(t: Tables, m: Move, now: int)
    requires Unpooled(m) || Pooled(m) || m.GatewayProofTasks? || (!Serves(m) && !m.FetchSnapshot? && !m.ObservePool?)
    ensures Served(t, m, now).views == t.views
  {
    hide Authenticated, Name, ReportOk, LeaseLive, Reported, ProofNonces, PoolsMove, Bind, Transition, Tasks, Put;
    if Pooled(m) {
      hide Served;
      PooledMoves(t, m, now);
      PoolsMoveViews(t, Served(t, m, now));
    }
  }

  lemma PoolsMoveViews(t: Tables, after: Tables)
    requires PoolsMove(t, after)
    ensures after.views == t.views
  {
  }

  /** The evidence an observation clears unknown work on: it says idle, of a draining
      pool with a fenced entry. */
  predicate IdleReported(r: Checked, k: (Id, Id)) {
    && r.observation.idle && r.observation.idleAfter.Some? && r.observation.pool == k.0
    && r.row.state == Draining && r.row.protocol == 2
  }

  /** In every reachable world unknown work is only ever cleared by an idle report for
      a draining pool with a fenced entry. The gateway ended by the report's fence
      exactly when its end was on record as the fence was checked; then nothing of it
      was running. A gateway of the pool's own cluster always did: its end and the
      observation lock the same row. */
  lemma OrphansClearedOnlyWhenIdle(moves: seq<Timed>, m: Move, now: int, k: (Id, Id))
    requires Resolves(Run(START, moves).t, Step(Run(START, moves), m, now).t, k)
    ensures
      var w := Run(START, moves);
      && m.ObservePool? && m.cluster in w.checked && IdleReported(w.checked[m.cluster], k)
      && k.1 in w.gateways && w.gateways[k.1].dead && k.1 in w.t.sessions && w.t.sessions[k.1].proof.Some?
      && var covered := w.t.sessions[k.1].proof.value <= m.observation.idleAfter.value;
         && (covered <==> k in w.checked[m.cluster].orphans)
         && (covered ==> WorkOf(w.gateways[k.1], k.0) == 0)
         && (!covered ==> Elsewhere(w.t, k))
         && (k in Step(w, m, now).early <==> !covered)
  {
    hide Run, OpsOk, SentOk, SentInOrder, ControlsOk, LatestOk, GatewaysOk, MessagesOk, ViewsOk, PoolsOk, Served, Run1,
         Truthful, Conclude;
    var w := Run(START, moves);
    var at := w.(clock := now);
    RunSafe(moves);
    LockedRowsStay(moves);
    ClockStep(w, now);
    OccursLater(w, m, now);
    TablesAfter(at, m);
    ServedResolves(at, m, k);
    ConcludeResolves(w.t, m, now, k);
    CheckAt(w, m.cluster);
    assert Locked(w, m.cluster);
    NotYetEarly(w, k);
    EarlyAfter(at, m, k);
    assert ProofOk(w, k.1);
  }

  /** What is still unknown was not cleared. */
  lemma NotYetEarly(w: World, k: (Id, Id))
    requires Inv(w) && k in w.t.views && w.t.views[k].active < 0
    ensures k !in w.early
  {
  }

  lemma EarlyAfter(w: World, m: Move, k: (Id, Id))
    requires m.ObservePool? && k in m.cleared && Holds(w.t, m.cluster, m.observation)
    requires Conclude(w.t, m.observation, m.since, m.cleared).Ok?
    ensures k in Run1(w, m).early <==> k in w.early || !Covered(w.t, m.observation, k)
  {
    hide Conclude, Served;
  }
}
