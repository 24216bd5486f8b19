/** Drain safety over whole runs, and who owns a replica change. */
module DrainRuns {
  import opened Prelude
  import opened Rows
  import opened FleetRows
  import opened ClusterRules
  import opened TrafficRules
  import opened ProofRules
  import opened PoolRules
  import opened FleetWorld
  import opened DrainSafety

  // ---- observations -------------------------------------------------------

  ghost predicate OpsOk(t: Tables) {
    forall p :: p in t.pools ==> OperationOk(t.pools[p])
  }

  lemma SeenMoves(t: Tables, q: Observation, now: int)
    requires q.pool in t.pools && OpsOk(t)
    ensures PoolsMove(t, Seen(t, q, now)) && OpsOk(Seen(t, q, now))
    ensures q.pool in Seen(t, q, now).pools && Seen(t, q, now).pools[q.pool].cluster == t.pools[q.pool].cluster
  {
    hide DrainProven;
    assert OperationOk(t.pools[q.pool]);
  }

  predicate Observing(m: Move) {
    m.CheckObservation? || m.ClearOrphans? || m.ObservePool? || m.DropObservation?
  }

  /** Fewer observations under way. */
  lemma DropStep(w: World, c: Id)
    requires Inv(w)
    ensures Inv(w.(checked := w.checked - {c}))
  {
    var w' := w.(checked := w.checked - {c});
    NothingElse(w, w');
    forall d | d in w'.checked ensures CheckOk(w', d) {
      assert CheckOk(w, d);
      SameCheck(w, w', d);
    }
    hide Inv, CheckOk;
    Together(w');
  }

  lemma SameCheck(w: World, w': World, c: Id)
    requires c in w.checked && c in w'.checked && w'.checked[c] == w.checked[c] && CheckOk(w, c)
    requires w' == w.(checked := w'.checked)
    ensures CheckOk(w', c)
  {
  }

  /** Nothing but an observation under way changes. */
  lemma NothingElse(w: World, w': World)
    requires Inv(w) && w' == w.(checked := w'.checked)
    ensures SentOk(w') && SentInOrder(w') && LatestOk(w') && ControlsOk(w') && ViewsOk(w') && MessagesOk(w')
    ensures PoolsOk(w') && GatewaysOk(w') && ProofsOk(w') && EarlyOk(w')
  {
    SameSent(w, w');
    BootControls(w, w');
    hide SentOk, SentInOrder, LatestOk, ControlsOk, ChecksOk;
    forall u | u in w'.gateways ensures GatewayOk(w', u) {
      assert GatewayOk(w, u);
    }
    forall k | k in w.t.views ensures ViewOk(w', k) {
      assert ViewOk(w, k);
    }
    forall r | r in w'.reports ensures MessageOk(w', r) {
      assert MessageOk(w, r);
      SameMessage(w, w', r);
    }
    forall u | u in w.t.sessions ensures ProofOk(w', u) {
      assert ProofOk(w, u);
    }
    forall p | p in w.t.pools && Shut(w.t.pools[p].state) ensures Quiet(w', p) {
      SameQuiet(w, w', p);
    }
  }

  /** One observation begins or goes on. */
  lemma GoesOn(w: World, c: Id, r: Checked)
    requires Inv(w) && CheckOk(w.(checked := w.checked[c := r]), c)
    ensures Inv(w.(checked := w.checked[c := r]))
  {
    var w' := w.(checked := w.checked[c := r]);
    NothingElse(w, w');
    forall d | d in w'.checked ensures CheckOk(w', d) {
      if d != c {
        assert CheckOk(w, d);
        SameCheck(w, w', d);
      }
    }
    hide Inv, CheckOk;
    Together(w');
  }

  /** The check finds every orphan covered by the fence. */
  lemma CheckStep(w: World, c: Id, token: Token, q: Observation)
    requires Inv(w) && Truthful(w, Move.CheckObservation(c, token, q))
    ensures Inv(Run1(w, Move.CheckObservation(c, token, q)))
  {
    hide Inv, ObservationOk, Authenticated, Answers;
    if PoolRules.CheckObservation(w.t, c, token, q, w.clock).Ok? {
      var r := Run1(w, Move.CheckObservation(c, token, q)).checked[c];
      if q.idle {
        CoveredAll(w, q, r);
      }
      GoesOn(w, c, r);
    }
  }

  lemma CoveredAll(w: World, q: Observation, r: Checked)
    requires q.pool in w.t.pools && q.idle && FenceHolds(w.t, q, w.t.pools[q.pool])
    requires q.pool in w.idle && q.idleAfter.Some? ==> q.idleAfter.value < w.idle[q.pool]
    requires r.observation == q && r.orphans == Orphans(w.t, q.pool)
    requires q.idleAfter.Some? ==> q.pool in w.idle
    ensures FenceStands(w, r)
  {
  }

  /** The second statement takes the retired views whose work is unknown then. */
  lemma ClearingStep(w: World, c: Id)
    requires Inv(w)
    ensures Inv(Run1(w, ClearOrphans(c)))
  {
    hide Inv;
    if c in w.checked {
      DropStep(w, c);
      var after := Run1(w, ClearOrphans(c));
      if after != w && c in after.checked {
        CheckAt(w, c);
        GoesOn(w, c, after.checked[c]);
      }
    }
  }

  lemma CheckAt(w: World, c: Id)
    requires Inv(w) && c in w.checked
    ensures CheckOk(w, c)
    ensures forall d :: d in w.checked && d != c ==> w.checked[d].observation.pool != w.checked[c].observation.pool
  {
    assert CheckOk(w, c) && forall d :: d in w.checked ==> CheckOk(w, d);
  }

  /** The last statements: what the second one cleared is covered or foreign. */
  lemma ObserveStep(w: World, m: Move)
    requires Inv(w) && OpsOk(w.t) && m.ObservePool? && !Waits(w, m)
    ensures Inv(Run1(w, m))
  {
    hide Inv, OpsOk, Conclude, CheckOk, LateEnds, Served;
    var c, q, keys := m.cluster, m.observation, m.cleared;
    CheckAt(w, c);
    DropStep(w, c);
    Committing(w.t, m, w.clock);
    if Holds(w.t, c, q) && Conclude(w.t, q, m.since, keys).Ok? {
      if q.idle {
        KeysClearable(w, c, keys);
      }
      ConcludeStep(w.(checked := w.checked - {c}), q, m.since, keys);
    } else {
      assert w.early + {} == w.early;
    }
  }

  lemma Committing(t: Tables, m: Move, now: int)
    requires m.ObservePool?
    ensures
      var c, q := m.cluster, m.observation;
      if Holds(t, c, q) && Conclude(t, q, m.since, m.cleared).Ok?
      then Served(t, m, now) == Conclude(t, q, m.since, m.cleared).value.0 && Uncovered(t, m) == LateEnds(t, q, m.cleared)
      else Served(t, m, now) == t && Uncovered(t, m) == {}
  {
    hide Conclude;
  }

  lemma KeysClearable(w: World, c: Id, keys: set<(Id, Id)>)
    requires c in w.checked && CheckOk(w, c) && w.checked[c].observation.idle && w.checked[c].cleared == Some(keys)
    ensures Clearable(w.(checked := w.checked - {c}), w.checked[c].observation, keys)
  {
  }

  lemma ConcludeStep(w: World, q: Observation, since: int, keys: set<(Id, Id)>)
    requires Inv(w) && OpsOk(w.t) && q.pool in w.t.pools && w.t.pools[q.pool].cluster in w.t.clusters
    requires Conclude(w.t, q, since, keys).Ok?
    requires if q.idle then Clearable(w, q, keys) else keys == {}
    requires forall d :: d in w.checked ==> w.checked[d].observation.pool != q.pool
    ensures Inv(w.(t := Conclude(w.t, q, since, keys).value.0, early := w.early + LateEnds(w.t, q, keys)))
  {
    hide Inv, OpsOk, Reconcile, Observed, PoolsMove, Clearable, LateEnds, ClearedAt;
    var seen := Seen(w.t, q, since);
    var late := LateEnds(w.t, q, keys);
    SeenMoves(w.t, q, since);
    PoolsStep(w, seen);
    if q.idle {
      SeenClearable(w, seen, q, keys);
      ClearStep(w.(t := seen), q, keys);
    } else {
      NothingCleared(w, seen, q);
    }
    var cleared := Cleared(seen, keys);
    assert Inv(w.(t := cleared, early := w.early + late));
    OperationAt(seen, q.pool);
    ReconcileMoves(cleared, q.pool, q.scaling, q.applied, q.ready);
    PoolsStep(w.(t := cleared, early := w.early + late), Reconcile(cleared, q.pool, q.scaling, q.applied, q.ready).value.0);
  }

  lemma SeenClearable(w: World, seen: Tables, q: Observation, keys: set<(Id, Id)>)
    requires Clearable(w, q, keys) && PoolsMove(w.t, seen)
    ensures Clearable(w.(t := seen), q, keys) && LateEnds(seen, q, keys) == LateEnds(w.t, q, keys)
  {
    forall k | k in keys && Elsewhere(w.t, k) ensures Elsewhere(seen, k) {
      assert PoolMoves(w.t, k.0, w.t.pools[k.0], seen.pools[k.0]);
    }
  }

  lemma NothingCleared(w: World, seen: Tables, q: Observation)
    ensures Cleared(seen, {}) == seen && w.early + LateEnds(w.t, q, {}) == w.early
  {
    assert ClearedAt(seen.views, {}) == seen.views;
  }

  lemma OperationAt(t: Tables, p: Id)
    requires OpsOk(t) && p in t.pools
    ensures OperationOk(t.pools[p])
  {
  }

  // ---- proofs -------------------------------------------------------------

  lemma ProveStep(w: World, id: Id, token: Token, q: GatewayProof)
    requires Inv(w) && Truthful(w, ProveGateway(id, token, q)) && !Waits(w, ProveGateway(id, token, q))
    requires Prove(w.t, id, token, q, w.clock).Ok?
    ensures Inv(w.(t := Prove(w.t, id, token, q, w.clock).value))
  {
    hide Inv, Authenticated, OrphanedViews, ViewsOk, ProofsOk, RaceOk, PoolsOk;
    var row := w.t.sessions[q.session];
    var after := Prove(w.t, id, token, q, w.clock).value;
    if q.outcome == Terminated && !row.closed {
      TerminateStep(w, q.session, after.sessions[q.session]);
    } else {
      SessionsStep(w, after);
    }
  }

  // ---- the server ---------------------------------------------------------

  predicate Unpooled(m: Move) {
    m.RegisterCluster? || m.RotateCredential? || m.RevokeCluster? || m.PollCluster? || m.ReportCluster?
  }

  /** Credentials and deliveries concern no pool and no gateway. */
  lemma UnpooledTables(t: Tables, m: Move, now: int)
    requires Unpooled(m)
    ensures Served(t, m, now) == t.(clusters := Served(t, m, now).clusters)
  {
    hide Authenticated, Name, ReportOk, LeaseLive, Reported;
  }

  predicate Pooled(m: Move) {
    m.PutDesired? || m.BindPool? || m.TransitionPool? || m.ObservationTasks?
  }

  lemma PooledMoves(t: Tables, m: Move, now: int)
    requires Pooled(m)
    ensures PoolsMove(t, Served(t, m, now))
  {
    hide Put, Bind, Transition, Tasks, PoolsMove;
    StaysPut(t);
    match m {
      case PutDesired(id, version, items, published) =>
        if Put(t, id, version, items, published).Ok? { PutMoves(t, id, version, items, published); }
      case BindPool(q, id) =>
        if Bind(t, q, id, now).Ok? { BindMoves(t, q, id, now); }
      case TransitionPool(id, generation, action) =>
        if Transition(t, id, generation, action, now).Ok? { TransitionMoves(t, id, generation, action, now); }
      case ObservationTasks(id, token, tasks) =>
        if Tasks(t, id, token, tasks, now).Ok? { TasksMove(t, id, token, tasks, now); }
    }
  }

  lemma ProofTasksMove(w: World, id: Id, token: Token, nonces: map<Id, Token>, now: int)
    requires ProofTasks(w.t, id, token, nonces, now).Ok?
    ensures SessionsMove(w, ProofTasks(w.t, id, token, nonces, now).value)
  {
    hide Authenticated, ProofNonces;
  }

  predicate Serves(m: Move) {
    Unpooled(m) || Pooled(m) || m.GatewayProofTasks? || m.ProveGateway? || m.DeliverReport?
  }

  lemma ServerStep(w: World, m: Move)
    requires Inv(w) && Serves(m) && Truthful(w, m) && !Waits(w, m)
    ensures Inv(w.(t := Served(w.t, m, w.clock)))
  {
    hide Inv, PoolsMove, SessionsMove, Served, Unpooled, Pooled, Waits;
    if Unpooled(m) {
      UnpooledTables(w.t, m, w.clock);
      SessionsMoveOther(w, Served(w.t, m, w.clock));
      SessionsStep(w, Served(w.t, m, w.clock));
    } else if Pooled(m) {
      PooledMoves(w.t, m, w.clock);
      PoolsStep(w, Served(w.t, m, w.clock));
    } else {
      EvidenceStep(w, m);
    }
  }

  lemma SessionsMoveOther(w: World, after: Tables)
    requires after == w.t.(clusters := after.clusters)
    ensures SessionsMove(w, after)
  {
  }

  lemma EvidenceStep(w: World, m: Move)
    requires Inv(w) && Truthful(w, m) && !Waits(w, m)
    requires m.GatewayProofTasks? || m.ProveGateway? || m.DeliverReport?
    ensures Inv(w.(t := Served(w.t, m, w.clock)))
  {
    hide Inv, ProofTasks, Prove, ReportTraffic, SessionsMove, Waits;
    assert w.(t := w.t) == w;
    match m {
      case GatewayProofTasks(id, token, nonces) =>
        if ProofTasks(w.t, id, token, nonces, w.clock).Ok? {
          ProofTasksMove(w, id, token, nonces, w.clock);
          SessionsStep(w, ProofTasks(w.t, id, token, nonces, w.clock).value);
        }
      case ProveGateway(id, token, q) =>
        if Prove(w.t, id, token, q, w.clock).Ok? { ProveStep(w, id, token, q); }
      case DeliverReport(q) =>
        if ReportTraffic(w.t, q).Ok? { ReportStep(w, q); }
    }
  }

  // ---- gateways -----------------------------------------------------------

  function Booted(w: World, s: Id): World {
    w.(gateways := w.gateways[s := Gateway(None, map[], false, false)])
  }

  lemma BootStep(w: World, s: Id)
    requires Inv(w) && s !in w.gateways
    ensures Inv(Booted(w, s))
  {
    hide Inv, Booted;
    var w' := Booted(w, s);
    BootTables(w, s);
    BootGateways(w, s);
    BootQuiet(w, s);
    BootUnraced(w, s);
    RaceOf(w);
    RaceStays(w, w');
    Together(w');
  }

  lemma BootUnraced(w: World, s: Id)
    requires s !in w.gateways
    ensures Unraced(w, Booted(w, s))
  {
  }

  lemma BootTables(w: World, s: Id)
    requires Inv(w) && s !in w.gateways
    ensures
      var w' := Booted(w, s);
      SentOk(w') && SentInOrder(w') && ControlsOk(w') && LatestOk(w') && ViewsOk(w')
  {
    var w' := Booted(w, s);
    hide NoOlder, ControlOk, LatestOk, GatewaysOk, MessagesOk, ProofsOk, PoolsOk, RaceOk;
    SameSent(w, w');
    BootControls(w, w');
    forall k | k in w.t.views ensures ViewOk(w', k) {
      assert ViewOk(w, k);
    }
  }

  lemma BootGateways(w: World, s: Id)
    requires Inv(w) && s !in w.gateways
    ensures GatewaysOk(Booted(w, s)) && MessagesOk(Booted(w, s)) && ProofsOk(Booted(w, s))
  {
    var w' := Booted(w, s);
    hide SentOk, SentInOrder, ControlsOk, LatestOk, ViewsOk, PoolsOk, RaceOk;
    forall u | u in w'.gateways ensures GatewayOk(w', u) {
      if u != s { assert GatewayOk(w, u); }
    }
    forall r | r in w'.reports ensures MessageOk(w', r) {
      assert MessageOk(w, r);
    }
    forall u | u in w.t.sessions ensures ProofOk(w', u) {
      assert ProofOk(w, u);
    }
  }

  /** A process that just started has no snapshot on its way. */
  lemma BootQuiet(w: World, s: Id)
    requires Inv(w) && s !in w.gateways
    ensures PoolsOk(Booted(w, s))
  {
    var w' := Booted(w, s);
    hide SentInOrder, ControlsOk, LatestOk, ViewsOk, GatewaysOk, MessagesOk, ProofsOk, RaceOk;
    forall p | p in w.t.pools && Shut(w.t.pools[p].state) ensures Quiet(w', p) {
      assert Quiet(w, p);
      forall u | u in w'.gateways ensures Silent(w', p, u) && CannotServe(w', p, u) {
        if u != s { assert Silent(w, p, u) && CannotServe(w, p, u); }
      }
    }
  }

  lemma BootControls(w: World, w': World)
    requires ControlsOk(w) && LatestOk(w) && w'.t == w.t && w'.sent == w.sent
    ensures forall x, p :: x in w.sent && p in x.pools ==> ControlOk(w, x, p) && ControlOk(w', x, p)
    ensures LatestOk(w')
  {
    forall x, p | x in w.sent && p in x.pools ensures ControlOk(w, x, p) && ControlOk(w', x, p) {
      assert ControlOk(w, x, p);
    }
  }

  /** A report counts what is open at that moment. */
  lemma MakeReportStep(w: World, s: Id)
    requires Inv(w) && s in w.gateways && !w.gateways[s].dead && w.gateways[s].installed.Some?
    ensures Inv(w.(reports := w.reports + {ReportOf(s, w.gateways[s])}))
  {
    hide Inv, ReportOf, SentOk, SentInOrder, ControlsOk, LatestOk, GatewaysOk, MessagesOk, ViewsOk, ProofsOk, PoolsOk,
         RaceOk;
    var w' := w.(reports := w.reports + {ReportOf(s, w.gateways[s])});
    ReportMade(w, s);
    OtherMessages(w, w');
    RaceOf(w);
    assert Unraced(w, w');
    RaceStays(w, w');
    Together(w');
  }

  lemma ReportMade(w: World, s: Id)
    requires Inv(w) && s in w.gateways && !w.gateways[s].dead && w.gateways[s].installed.Some?
    ensures MessagesOk(w.(reports := w.reports + {ReportOf(s, w.gateways[s])}))
  {
    var w' := w.(reports := w.reports + {ReportOf(s, w.gateways[s])});
    hide SentOk, SentInOrder, LatestOk, ControlsOk, ViewsOk, ProofsOk, PoolsOk, GatewaysOk, RaceOk;
    forall r | r in w'.reports ensures MessageOk(w', r) {
      if r in w.reports {
        assert MessageOk(w, r);
        SameMessage(w, w', r);
      }
    }
  }

  lemma OtherMessages(w: World, w': World)
    requires Inv(w) && w' == w.(reports := w'.reports)
    ensures SentOk(w') && SentInOrder(w') && LatestOk(w') && ControlsOk(w') && ViewsOk(w') && ProofsOk(w')
    ensures PoolsOk(w') && GatewaysOk(w')
  {
    hide MessagesOk;
    SameSent(w, w');
    BootControls(w, w');
    forall u | u in w'.gateways ensures GatewayOk(w', u) {
      assert GatewayOk(w, u);
    }
    forall k | k in w.t.views ensures ViewOk(w', k) {
      assert ViewOk(w, k);
    }
    forall u | u in w.t.sessions ensures ProofOk(w', u) {
      assert ProofOk(w, u);
    }
    forall p | p in w.t.pools && Shut(w.t.pools[p].state) ensures Quiet(w', p) {
      SameQuiet(w, w', p);
    }
  }

  /** The clock moves, or the entry is seen idle: only evidence gets newer. */
  lemma ClockStep(w: World, now: int)
    requires Inv(w) && w.clock <= now
    ensures Inv(w.(clock := now))
  {
    hide Inv;
    var w' := w.(clock := now);
    EvidenceFrame(w, w');
    ClockProofs(w, now);
    RaceOf(w);
    RaceStays(w, w');
    Together(w');
  }

  lemma ClockProofs(w: World, now: int)
    requires Inv(w) && w.clock <= now
    ensures ProofsOk(w.(clock := now)) && Unraced(w, w.(clock := now))
  {
    hide SentOk, SentInOrder, LatestOk, ControlsOk, ViewsOk, MessagesOk, PoolsOk, GatewaysOk, RaceOk;
    var w' := w.(clock := now);
    forall u | u in w.t.sessions ensures ProofOk(w', u) {
      assert ProofOk(w, u);
    }
  }

  lemma EvidenceFrame(w: World, w': World)
    requires Inv(w) && w' == w.(clock := w'.clock, idle := w'.idle)
    ensures SentOk(w') && SentInOrder(w') && LatestOk(w') && ControlsOk(w') && ViewsOk(w') && MessagesOk(w')
    ensures PoolsOk(w') && GatewaysOk(w')
  {
    hide ProofsOk;
    SameSent(w, w');
    BootControls(w, w');
    forall u | u in w'.gateways ensures GatewayOk(w', u) {
      assert GatewayOk(w, u);
    }
    forall k | k in w.t.views ensures ViewOk(w', k) {
      assert ViewOk(w, k);
    }
    forall r | r in w'.reports ensures MessageOk(w', r) {
      assert MessageOk(w, r);
      SameMessage(w, w', r);
    }
    forall p | p in w.t.pools && Shut(w.t.pools[p].state) ensures Quiet(w', p) {
      SameQuiet(w, w', p);
    }
  }

  lemma IdleStep(w: World, pool: Id)
    requires Inv(w) && NoWork(w, pool)
    ensures Inv(w.(idle := w.idle[pool := w.clock]))
  {
    hide Inv;
    var w' := w.(idle := w.idle[pool := w.clock]);
    EvidenceFrame(w, w');
    IdleProofs(w, pool);
    RaceOf(w);
    RaceStays(w, w');
    Together(w');
  }

  lemma IdleProofs(w: World, pool: Id)
    requires Inv(w) && NoWork(w, pool)
    ensures ProofsOk(w.(idle := w.idle[pool := w.clock])) && Unraced(w, w.(idle := w.idle[pool := w.clock]))
  {
    hide SentOk, SentInOrder, LatestOk, ControlsOk, ViewsOk, MessagesOk, PoolsOk, GatewaysOk, RaceOk;
    var w' := w.(idle := w.idle[pool := w.clock]);
    forall u | u in w.t.sessions ensures ProofOk(w', u) {
      assert ProofOk(w, u);
    }
  }

  lemma SurroundStep(w: World, m: Move)
    requires Inv(w) && !Serves(m) && !m.FetchSnapshot? && !Observing(m)
    ensures Inv(Run1(w, m))
  {
    hide Inv, GatewayMoves, Served;
    assert w.(t := w.t) == w;
    match m {
      case Boot(s) => if s !in w.gateways { BootStep(w, s); }
      case Install(x) =>
        if Run1(w, m) != w {
          Installs(w, x);
          GatewayStep(w, x.session, w.gateways[x.session].(installed := Some(x)));
        }
      case MakeReport(s) => if Run1(w, m) != w { MakeReportStep(w, s); }
      case SeeIdle(pool) => if NoWork(w, pool) { IdleStep(w, pool); }
      case Enter(_, _) => WorkStep(w, m);
      case Leave(_, _) => WorkStep(w, m);
      case CloseDown(_) => WorkStep(w, m);
      case Die(_) => WorkStep(w, m);
      case _ =>
    }
  }

  lemma WorkStep(w: World, m: Move)
    requires Inv(w) && (m.Enter? || m.Leave? || m.CloseDown? || m.Die?)
    ensures Inv(Run1(w, m))
  {
    hide Inv, GatewayMoves, Run1;
    if Run1(w, m) != w {
      Works(w, m);
      GatewayStep(w, m.session, Run1(w, m).gateways[m.session]);
    }
  }

  lemma Installs(w: World, x: Snapshot)
    requires Inv(w) && x in w.sent && x.session in w.gateways && MayInstall(w.gateways[x.session], x)
    ensures GatewayMoves(w, x.session, w.gateways[x.session].(installed := Some(x)))
  {
    hide SentInOrder, LatestOk, ControlsOk, ViewsOk, MessagesOk, ProofsOk, PoolsOk;
    assert GatewayOk(w, x.session);
  }

  lemma Works(w: World, m: Move)
    requires Inv(w) && (m.Enter? || m.Leave? || m.CloseDown? || m.Die?) && Run1(w, m) != w
    ensures m.session in w.gateways && m.session in Run1(w, m).gateways
    ensures GatewayMoves(w, m.session, Run1(w, m).gateways[m.session])
    ensures Run1(w, m) == w.(gateways := w.gateways[m.session := Run1(w, m).gateways[m.session]])
  {
    hide SentOk, SentInOrder, LatestOk, ControlsOk, ViewsOk, MessagesOk, ProofsOk, PoolsOk;
    assert m.session in w.gateways;
    assert GatewayOk(w, m.session);
  }

  lemma FetchingStep(w: World, m: Move)
    requires Inv(w) && m.FetchSnapshot? && Truthful(w, m)
    ensures Inv(Run1(w, m))
  {
    hide Inv, TakeSnapshot, Fetched;
    if TakeSnapshot(w.t, m.session, m.identity, m.required, m.nonce, w.clock).Ok? {
      TakenSnapshot(w, m.session, m.identity, m.required, m.nonce, w.clock);
      var (after, x) := TakeSnapshot(w.t, m.session, m.identity, m.required, m.nonce, w.clock).value;
      FetchStep(w, after, x);
    }
  }

  // ---- who owns a change --------------------------------------------------

  /** What the pool should run changes otherwise than by more replicas. */
  predicate Reduced(a: Pool, b: Pool) {
    || (b.state == Retired && a.state != Retired)
    || (b.expected != a.expected
        && !(&& a.expected.replicas.Some? && b.expected.replicas.Some?
             && a.expected.replicas.value < b.expected.replicas.value
             && b.expected == a.expected.(replicas := b.expected.replicas)))
  }

  /** Operations stay in step with their pool, and reductions close it. */
  ghost predicate Orderly(t: Tables, after: Tables) {
    forall p :: p in after.pools ==>
      && OperationOk(after.pools[p])
      && (p in t.pools && Reduced(t.pools[p], after.pools[p]) ==> Shut(after.pools[p].state))
  }

  lemma OrderlyAlone(t: Tables, after: Tables, id: Id)
    requires OpsOk(t) && id in t.pools && id in after.pools && after.pools == t.pools[id := after.pools[id]]
    requires OperationOk(after.pools[id])
    requires Reduced(t.pools[id], after.pools[id]) ==> Shut(after.pools[id].state)
    ensures Orderly(t, after)
  {
  }

  lemma PutOrderly(t: Tables, id: Id, expected: I64, items: seq<Item>, published: seq<Item>)
    requires OpsOk(t) && Put(t, id, expected, items, published).Ok?
    ensures Orderly(t, Put(t, id, expected, items, published).value)
  {
    hide PutCheck, GuardedItems, Find;
    var version := PutCheck(t, id, expected, items).value;
    var after := Put(t, id, expected, items, published).value;
    forall p | p in after.pools
      ensures OperationOk(after.pools[p])
      ensures p in t.pools && (Reduced(t.pools[p], after.pools[p]) ==> Shut(after.pools[p].state))
    {
      assert p in t.pools && OperationOk(t.pools[p]);
      if Concerned(t, id, items, p) {
        assert Guarding(t, items, p, version).Ok?;
      }
    }
  }

  lemma BindOrderly(t: Tables, q: Binding, id: Id, now: int)
    requires OpsOk(t) && Bind(t, q, id, now).Ok?
    ensures Orderly(t, Bind(t, q, id, now).value)
  {
    hide DesiredSpec, Name;
  }

  lemma TransitionOrderly(t: Tables, id: Id, expected: I64, action: Action, now: int)
    requires OpsOk(t) && Transition(t, id, expected, action, now).Ok?
    ensures Orderly(t, Transition(t, id, expected, action, now).value)
  {
    hide DrainProven;
  }

  lemma TasksOrderly(t: Tables, id: Id, token: Token, tasks: map<Id, (Token, Option<int>)>, now: int)
    requires OpsOk(t) && Tasks(t, id, token, tasks, now).Ok?
    ensures Orderly(t, Tasks(t, id, token, tasks, now).value)
  {
    hide TasksOk, Authenticated;
  }

  lemma PooledOrderly(t: Tables, m: Move, now: int)
    requires OpsOk(t) && Pooled(m)
    ensures Orderly(t, Served(t, m, now))
  {
    hide Put, Bind, Transition, Tasks, Orderly, OpsOk;
    Steady(t);
    match m {
      case PutDesired(id, version, items, published) =>
        if Put(t, id, version, items, published).Ok? { PutOrderly(t, id, version, items, published); }
      case BindPool(q, id) =>
        if Bind(t, q, id, now).Ok? { BindOrderly(t, q, id, now); }
      case TransitionPool(id, generation, action) =>
        if Transition(t, id, generation, action, now).Ok? { TransitionOrderly(t, id, generation, action, now); }
      case ObservationTasks(id, token, tasks) =>
        if Tasks(t, id, token, tasks, now).Ok? { TasksOrderly(t, id, token, tasks, now); }
    }
  }

  lemma ApplyOrderly(t: Tables, id: Id, current: I64, target: I64, up: bool)
    requires OpsOk(t) && id in t.pools && t.pools[id].cluster in t.clusters && Apply(t, id, current, target, up).Ok?
    requires t.pools[id].expected.replicas == Some(current)
    requires if up then t.pools[id].state == Active && current < target else target < current
    ensures Orderly(t, Apply(t, id, current, target, up).value.0)
  {
    hide WithItem;
    if Apply(t, id, current, target, up).value.1 {
      hide OpsOk, Orderly;
      OrderlyAlone(t, Apply(t, id, current, target, up).value.0, id);
    }
  }

  lemma ReconcileOrderly(t: Tables, id: Id, e: Option<ScaleEvidence>, applied: I64, ready: bool)
    requires OpsOk(t) && id in t.pools && t.pools[id].cluster in t.clusters
    requires Reconcile(t, id, e, applied, ready).Ok?
    ensures Orderly(t, Reconcile(t, id, e, applied, ready).value.0)
  {
    hide DrainProven, Apply, EvidenceOk, Orderly, OpsOk;
    Steady(t);
    OperationAt(t, id);
    var row := t.pools[id];
    var after := Reconcile(t, id, e, applied, ready).value.0;
    if row.expected.autoscaling.Managed? && e.Some? && !(row.scale.Some? && row.scale.value.phase == ApplyPhase) {
      var current, target := row.expected.replicas.value, e.value.replicas;
      if row.scale.Some? {
        if current <= target && ready {
          OrderlyAlone(t, after, id);
        } else if DrainProven(t, id) && ready {
          ApplyOrderly(t, id, current, target, false);
        }
      } else if row.state == Active && ready && current < target {
        ApplyOrderly(t, id, current, target, true);
      } else if row.state == Active && ready && target < current {
        OrderlyAlone(t, after, id);
      }
    } else if row.expected.autoscaling.Managed? && row.scale.Some? && row.scale.value.phase == ApplyPhase {
      FinishOrderly(t, id, row.scale.value, applied, ready);
    }
  }

  lemma FinishOrderly(t: Tables, id: Id, op: Operation, applied: I64, ready: bool)
    requires OpsOk(t) && id in t.pools && t.pools[id].cluster in t.clusters && t.pools[id].scale == Some(op)
    requires op.phase == ApplyPhase && FinishScaling(t, id, op, applied, ready).Ok?
    ensures Orderly(t, FinishScaling(t, id, op, applied, ready).value.0)
  {
  }

  lemma Steady(t: Tables)
    requires OpsOk(t)
    ensures Orderly(t, t)
  {
  }

  lemma ObserveOrderly(t: Tables, q: Observation, since: int, keys: set<(Id, Id)>)
    requires OpsOk(t) && q.pool in t.pools && t.pools[q.pool].cluster in t.clusters
    requires Conclude(t, q, since, keys).Ok?
    ensures Orderly(t, Conclude(t, q, since, keys).value.0)
  {
    hide OpsOk, Reconcile, Orderly, ClearedAt, PoolsMove;
    SeenMoves(t, q, since);
    var cleared := Cleared(Seen(t, q, since), keys);
    SamePools(Seen(t, q, since), cleared);
    ReconcileOrderly(cleared, q.pool, q.scaling, q.applied, q.ready);
    SeenThen(t, q, since, cleared, Reconcile(cleared, q.pool, q.scaling, q.applied, q.ready).value.0);
  }

  lemma SamePools(t: Tables, after: Tables)
    requires OpsOk(t) && after.pools == t.pools
    ensures OpsOk(after)
  {
  }

  /** An observation by itself changes no spec and retires nothing. */
  lemma SeenThen(t: Tables, q: Observation, now: int, cleared: Tables, after: Tables)
    requires q.pool in t.pools && cleared.pools == Seen(t, q, now).pools && Orderly(cleared, after)
    ensures Orderly(t, after)
  {
  }

  lemma ServedOrderly(t: Tables, m: Move, now: int)
    requires OpsOk(t)
    ensures Orderly(t, Served(t, m, now))
  {
    hide OpsOk, Orderly, Conclude, ProofTasks, Prove, ReportTraffic, TakeSnapshot, Put, Bind, Transition, Tasks,
         Register, Rotate, Revoke, Poll, Report;
    Steady(t);
    match m {
      case ObservePool(id, q, since, keys) =>
        if Holds(t, id, q) && Conclude(t, q, since, keys).Ok? { ObserveOrderly(t, q, since, keys); }
      case _ =>
        if Pooled(m) {
          PooledOrderly(t, m, now);
        } else {
          PoolsUntouched(t, m, now);
          SteadyPools(t, Served(t, m, now));
        }
    }
  }

  lemma SteadyPools(t: Tables, after: Tables)
    requires OpsOk(t) && after.pools == t.pools
    ensures Orderly(t, after)
  {
  }

  lemma PoolsUntouched(t: Tables, m: Move, now: int)
    requires !Pooled(m) && !m.ObservePool?
    ensures Served(t, m, now).pools == t.pools
  {
    hide Authenticated, Name, ReportOk, LeaseLive, Reported, TrafficReportOk, ReportedViews, SnapshotViews, Controls,
         IdentityKnown, IdentityReady, OrphanedViews, ProofNonces;
  }

  // ---- every step, every run ----------------------------------------------

  ghost predicate Safe(w: World) {
    Inv(w) && OpsOk(w.t)
  }

  lemma TablesAfter(w: World, m: Move)
    ensures Run1(w, m).t == Served(w.t, m, w.clock)
  {
    hide Served, TakeSnapshot;
    if !m.FetchSnapshot? { OtherTables(w, m); } else { FetchTables(w, m); }
  }

  lemma OtherTables(w: World, m: Move)
    requires !m.FetchSnapshot?
    ensures Run1(w, m).t == Served(w.t, m, w.clock)
  {
  }

  lemma FetchTables(w: World, m: Move)
    requires m.FetchSnapshot?
    ensures Run1(w, m).t == Served(w.t, m, w.clock)
  {
    hide TakeSnapshot;
  }

  lemma StepSafe(w: World, m: Move, now: int)
    requires Safe(w)
    ensures Safe(Step(w, m, now))
    ensures Orderly(w.t, Step(w, m, now).t)
  {
    hide Inv, OpsOk, Run1, Served, Orderly;
    Steady(w.t);
    if Occurs(w, m, now) {
      ClockStep(w, now);
      var at := w.(clock := now);
      OccursLater(w, m, now);
      if Serves(m) {
        ServerStep(at, m);
        ServesIs(at, m);
      } else if Observing(m) {
        ObservingStep(at, m);
      } else if m.FetchSnapshot? {
        FetchingStep(at, m);
      } else {
        SurroundStep(at, m);
      }
      TablesAfter(at, m);
      ServedOrderly(w.t, m, now);
      OrderlyOps(w.t, Served(w.t, m, now));
    }
  }

  lemma ServesIs(w: World, m: Move)
    requires Serves(m)
    ensures Run1(w, m) == w.(t := Served(w.t, m, w.clock))
  {
    hide Served;
  }

  lemma OccursLater(w: World, m: Move, now: int)
    requires Occurs(w, m, now)
    ensures Truthful(w.(clock := now), m) && !Waits(w.(clock := now), m)
  {
  }

  lemma ObservingStep(w: World, m: Move)
    requires Inv(w) && OpsOk(w.t) && Observing(m) && Truthful(w, m) && !Waits(w, m)
    ensures Inv(Run1(w, m))
  {
    hide Inv, OpsOk, Run1, Waits, Truthful;
    match m {
      case CheckObservation(c, token, q) => CheckStep(w, c, token, q);
      case ClearOrphans(c) => ClearingStep(w, c);
      case ObservePool(_, _, _, _) => ObserveStep(w, m);
      case DropObservation(c) => DroppingStep(w, c);
    }
  }

  lemma DroppingStep(w: World, c: Id)
    requires Inv(w)
    ensures Inv(Run1(w, DropObservation(c)))
  {
    hide Inv;
    DropStep(w, c);
  }

  lemma OrderlyOps(t: Tables, after: Tables)
    requires Orderly(t, after)
    ensures OpsOk(after)
  {
  }

  lemma StartSafe()
    ensures Safe(START)
  {
  }

  lemma {:induction false} RunSafe(moves: seq<Timed>)
    ensures Safe(Run(START, moves))
  {
    hide Safe, Step;
    if moves == [] {
      StartSafe();
    } else {
      RunSafe(moves[..|moves| - 1]);
      StepSafe(Run(START, moves[..|moves| - 1]), moves[|moves| - 1].move, moves[|moves| - 1].now);
    }
  }

  /** The same of the gateways of the pool's own cluster, and of those that named none,
      without exception. */
  ghost predicate QuietAtHome(w: World, pool: Id) {
    forall s :: s in w.gateways && !Elsewhere(w.t, (pool, s)) ==>
      WorkOf(w.gateways[s], pool) == 0 && CannotServe(w, pool, s)
  }

  lemma HomeIsQuiet(w: World, pool: Id)
    requires EarlyOk(w) && Quiet(w, pool)
    ensures QuietAtHome(w, pool)
  {
    hide CannotServe;
    assert forall s :: s in w.gateways ==> Silent(w, pool, s);
  }

  /** In every reachable world: whatever a step does to what a managed pool should
      run, other than add replicas, and whenever it retires the pool, no gateway can
      start a request on the pool, and none is open of a gateway of the pool's cluster;
      what may be left of others was cleared on a fence before their end. Until the
      pool reopens that stays so. */
  lemma PoolsShrinkOnlyWhenQuiet(moves: seq<Timed>, m: Move, now: int, pool: Id)
    requires pool in Run(START, moves).t.pools
    ensures
      var w := Run(START, moves);
      var after := Step(w, m, now);
      pool in after.t.pools && Reduced(w.t.pools[pool], after.t.pools[pool]) ==>
        Shut(after.t.pools[pool].state) && Quiet(after, pool) && QuietAtHome(after, pool)
    ensures Shut(Run(START, moves).t.pools[pool].state) ==>
      Quiet(Run(START, moves), pool) && QuietAtHome(Run(START, moves), pool)
  {
    hide Run, Step, SentOk, SentInOrder, ControlsOk, LatestOk, GatewaysOk, MessagesOk, ViewsOk, ProofsOk, Reduced, Quiet,
         OpsOk, QuietAtHome, EarlyOk, ChecksOk;
    var w, after := Run(START, moves), Step(Run(START, moves), m, now);
    RunSafe(moves);
    StepSafe(w, m, now);
    if Shut(w.t.pools[pool].state) { HomeIsQuiet(w, pool); }
    if pool in after.t.pools && Shut(after.t.pools[pool].state) { HomeIsQuiet(after, pool); }
  }

  /** And in every reachable world each pending scale operation is in the phase its
      pool is in. */
  lemma ScalingOwnsItsPhase(moves: seq<Timed>, pool: Id)
    requires pool in Run(START, moves).t.pools
    ensures OperationOk(Run(START, moves).t.pools[pool])
  {
    hide Run, Inv;
    RunSafe(moves);
  }

  /** A transition or a desired state that leaves a pool with a pending operation as
      it was: refused, about something else, or saying what the pool expects anyway. */
  lemma OperatorMoves(t: Tables, m: Move, now: int, pool: Id)
    requires pool in t.pools && t.pools[pool].scale.Some? && OperationOk(t.pools[pool])
    requires m.TransitionPool? || m.PutDesired? || m.BindPool?
    ensures pool in Served(t, m, now).pools && Served(t, m, now).pools[pool] == t.pools[pool]
    ensures m.TransitionPool? && m.id == pool ==> Served(t, m, now) == t
  {
    hide Name, DesiredSpec, Target, ItemsOk, GuardedItems, Find, DrainProven;
    if m.PutDesired? && Put(t, m.cluster, m.version, m.items, m.published).Ok? && Concerned(t, m.cluster, m.items, pool) {
      assert Guarding(t, m.items, pool, m.version + 1).Ok?;
    }
  }

  /** In every reachable world: while a scale operation is pending, nothing the
      operator does changes the pool. */
  lemma OperatorWaits(moves: seq<Timed>, m: Move, now: int, pool: Id)
    requires pool in Run(START, moves).t.pools && Run(START, moves).t.pools[pool].scale.Some?
    requires m.TransitionPool? || m.PutDesired? || m.BindPool?
    ensures
      var w, after := Run(START, moves), Step(Run(START, moves), m, now);
      && pool in after.t.pools && after.t.pools[pool] == w.t.pools[pool]
      && (m.TransitionPool? && m.id == pool ==> after.t == w.t)
  {
    hide Run, Run1, Served, Inv, OperationOk;
    var w := Run(START, moves);
    ScalingOwnsItsPhase(moves, pool);
    OperatorMoves(w.t, m, now, pool);
    TablesAfter(w.(clock := now), m);
  }
}
