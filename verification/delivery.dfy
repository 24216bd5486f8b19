/** Desired state over whole runs: revisions are dense and never rewritten, what
    is acknowledged was delivered and what is delivered is desired, and the newest
    revision says of every managed pool what the pool expects. */
module ClusterDelivery {
  import opened Prelude
  import opened Rows
  import opened FleetRows
  import opened ClusterRules
  import opened TrafficRules
  import opened ProofRules
  import opened PoolRules
  import opened FleetWorld
  import opened DrainSafety
  import opened DrainRuns

  // ---- versions -----------------------------------------------------------

  ghost predicate VersionsOk(t: Tables, c: Id)
    requires c in t.clusters
  {
    var row := t.clusters[c];
    && 0 <= row.acknowledged <= row.delivery <= row.desired
    && (forall v: int :: (c, v) in t.revisions <==> 1 <= v <= row.desired)
    && (row.lease.Some? <==> row.leaseUntil.Some?)
  }

  ghost predicate ClustersOk(t: Tables) {
    && (forall c :: c in t.clusters ==> VersionsOk(t, c))
    && (forall k :: k in t.revisions ==> k.0 in t.clusters && t.revisions[k].sha256 == Digest(t.revisions[k].payload))
  }

  /** Versions go forward, and what was published stays as it was. */
  ghost predicate Onward(t: Tables, after: Tables) {
    && (forall c :: c in t.clusters ==>
          && c in after.clusters
          && t.clusters[c].desired <= after.clusters[c].desired
          && t.clusters[c].delivery <= after.clusters[c].delivery
          && t.clusters[c].acknowledged <= after.clusters[c].acknowledged)
    && (forall k :: k in t.revisions ==> k in after.revisions && after.revisions[k] == t.revisions[k])
  }

  /** One cluster's row changes, but not its versions' order or its revisions. */
  lemma RowStep(t: Tables, after: Tables, c: Id, row: Cluster)
    requires ClustersOk(t) && after.clusters == t.clusters[c := row] && after.revisions == t.revisions
    requires if c in t.clusters
             then && row.desired == t.clusters[c].desired
                  && t.clusters[c].delivery <= row.delivery && t.clusters[c].acknowledged <= row.acknowledged
             else row.desired == 0
    requires 0 <= row.acknowledged <= row.delivery <= row.desired && (row.lease.Some? <==> row.leaseUntil.Some?)
    ensures ClustersOk(after) && Onward(t, after)
  {
    if c !in t.clusters {
      assert forall v: int :: (c, v) !in t.revisions;
    }
    forall d | d in after.clusters ensures VersionsOk(after, d) {
      if d != c { assert VersionsOk(t, d); }
      else if c in t.clusters { assert VersionsOk(t, c); }
    }
  }

  /** The next revision is published. */
  lemma PublishStep(t: Tables, after: Tables, c: Id, items: seq<Item>)
    requires ClustersOk(t) && c in t.clusters && t.clusters[c].desired < I64_MAX
    requires after.clusters == Published(t, c, t.clusters[c].desired + 1, items).clusters
    requires after.revisions == Published(t, c, t.clusters[c].desired + 1, items).revisions
    ensures ClustersOk(after) && Onward(t, after)
  {
    assert VersionsOk(t, c);
    forall d | d in after.clusters ensures VersionsOk(after, d) {
      assert VersionsOk(t, d);
    }
  }

  lemma SameStep(t: Tables, after: Tables)
    requires ClustersOk(t) && after.clusters == t.clusters && after.revisions == t.revisions
    ensures ClustersOk(after) && Onward(t, after)
  {
    forall d | d in after.clusters ensures VersionsOk(after, d) {
      assert VersionsOk(t, d);
    }
  }

  lemma UnpooledOnward(t: Tables, m: Move, now: int)
    requires ClustersOk(t) && Unpooled(m)
    ensures ClustersOk(Served(t, m, now)) && Onward(t, Served(t, m, now))
  {
    hide ClustersOk, Onward, Authenticated, Name, ReportOk, ErrorCode;
    SameStep(t, t);
    var after := Served(t, m, now);
    if after != t {
      var c := m.cluster;
      OneRow(t, m, now);
      if c in t.clusters { VersionsAt(t, c); }
      RowStep(t, after, c, after.clusters[c]);
    }
  }

  lemma VersionsAt(t: Tables, c: Id)
    requires ClustersOk(t) && c in t.clusters
    ensures VersionsOk(t, c)
  {
  }

  /** What a credential, delivery or report move does to its cluster's row. */
  lemma OneRow(t: Tables, m: Move, now: int)
    requires Unpooled(m) && Served(t, m, now) != t
    requires m.cluster in t.clusters ==> VersionsOk(t, m.cluster)
    ensures
      var after := Served(t, m, now);
      && m.cluster in after.clusters && after == t.(clusters := t.clusters[m.cluster := after.clusters[m.cluster]])
      && var row := after.clusters[m.cluster];
         && (if m.cluster in t.clusters
             then && row.desired == t.clusters[m.cluster].desired
                  && t.clusters[m.cluster].delivery <= row.delivery
                  && t.clusters[m.cluster].acknowledged <= row.acknowledged
             else row.desired == 0)
         && 0 <= row.acknowledged <= row.delivery <= row.desired && (row.lease.Some? <==> row.leaseUntil.Some?)
  {
    hide Authenticated, Name, ErrorCode;
    match m {
      case PollCluster(id, token, lease) => AuthenticatedRow(t, id, token, now);
      case ReportCluster(id, token, q) => AuthenticatedRow(t, id, token, now);
      case _ =>
    }
  }

  lemma AuthenticatedRow(t: Tables, id: Id, token: Token, now: int)
    ensures Authenticated(t, id, token, now).Ok? ==>
      id in t.clusters && Authenticated(t, id, token, now).value == t.clusters[id]
  {
  }

  // ---- managed pools on the wire ------------------------------------------

  predicate SaysOf(row: Pool, item: Item) {
    if row.state == Retired then item.spec.None? else item.spec == Some(row.expected)
  }

  /** The newest revision of the pool's cluster, where it mentions the pool. */
  ghost predicate WireOk(t: Tables, p: Id)
    requires p in t.pools
  {
    var row := t.pools[p];
    && row.cluster in t.clusters
    && (row.cluster, t.clusters[row.cluster].desired as int) in t.revisions
    && var items := t.revisions[(row.cluster, t.clusters[row.cluster].desired as int)].payload;
       Find(items, row.deployment).Some? ==> SaysOf(row, items[Find(items, row.deployment).value])
  }

  ghost predicate WiresOk(t: Tables) {
    && (forall p :: p in t.pools ==> WireOk(t, p))
    && BoundOnce(t)
  }

  ghost predicate FleetOk(t: Tables) {
    ClustersOk(t) && WiresOk(t)
  }

  /** Lists that agree on names agree on places. */
  lemma {:induction false} FindSame(xs: seq<Item>, ys: seq<Item>, name: Id)
    requires |xs| == |ys| && forall i :: 0 <= i < |xs| ==> xs[i].name == ys[i].name
    ensures Find(xs, name) == Find(ys, name)
  {
    if xs != [] {
      FindSame(xs[..|xs| - 1], ys[..|ys| - 1], name);
    }
  }

  lemma FindAppended(items: seq<Item>, item: Item, name: Id)
    ensures Find(items + [item], name)
         == if Find(items, name).Some? then Find(items, name) else if item.name == name then Some(|items|) else None
  {
    assert (items + [item])[..|items|] == items;
  }

  /** Replacing or adding one item leaves the others where they are found. */
  lemma WithItemFinds(items: seq<Item>, item: Item, name: Id)
    ensures
      var after := WithItem(items, item);
      && (name == item.name ==> Find(after, name).Some? && after[Find(after, name).value] == item)
      && (name != item.name ==>
            && Find(after, name) == Find(items, name)
            && (Find(items, name).Some? ==> after[Find(after, name).value] == items[Find(items, name).value]))
  {
    if Find(items, item.name).Some? {
      FindSame(items, WithItem(items, item), name);
    } else {
      FindAppended(items, item, name);
    }
  }

  /** What GuardRow lets through is what the new revision says. */
  lemma GuardedSays(row: Pool, item: Item, version: I64)
    requires GuardRow(row, item, version).Ok?
    ensures SaysOf(GuardRow(row, item, version).value.0, GuardRow(row, item, version).value.1)
    ensures GuardRow(row, item, version).value.1.name == item.name
    ensures GuardRow(row, item, version).value.0.cluster == row.cluster
    ensures GuardRow(row, item, version).value.0.deployment == row.deployment
  {
  }

  lemma GuardedNames(t: Tables, id: Id, items: seq<Item>, version: I64, published: seq<Item>)
    requires GuardPasses(t, id, items, version) && GuardedItems(t, id, items, version, published)
    ensures |published| == |items| && forall i :: 0 <= i < |items| ==> published[i].name == items[i].name
  {
    hide GuardRow, Find;
    forall i | 0 <= i < |items| ensures published[i].name == items[i].name {
      if ManagesItem(t, id, items, i) {
        var p :| p in t.pools && Concerned(t, id, items, p) && Find(items, t.pools[p].deployment) == Some(i);
        assert Guarding(t, items, p, version).Ok?;
        GuardedSays(t.pools[p], items[i], version);
      }
    }
  }

  lemma PutDelivers(t: Tables, id: Id, expected: I64, items: seq<Item>, published: seq<Item>)
    requires FleetOk(t) && Put(t, id, expected, items, published).Ok?
    ensures FleetOk(Put(t, id, expected, items, published).value)
    ensures Onward(t, Put(t, id, expected, items, published).value)
  {
    hide GuardRow, Find, ItemsOk, GuardedItems, ClustersOk, Onward;
    var after := Put(t, id, expected, items, published).value;
    var version := expected + 1;
    PublishStep(t, after, id, published);
    GuardedNames(t, id, items, version, published);
    forall p | p in after.pools
      ensures WireOk(after, p)
      ensures p in t.pools && SameDeployment(after.pools[p], t.pools[p])
    {
      PutWire(t, id, expected, items, published, p);
    }
  }

  lemma PutWire(t: Tables, id: Id, expected: I64, items: seq<Item>, published: seq<Item>, p: Id)
    requires WiresOk(t) && Put(t, id, expected, items, published).Ok?
    requires |published| == |items| && forall i :: 0 <= i < |items| ==> published[i].name == items[i].name
    requires p in Put(t, id, expected, items, published).value.pools
    ensures
      var after := Put(t, id, expected, items, published).value;
      && WireOk(after, p) && p in t.pools
      && after.pools[p].cluster == t.pools[p].cluster && after.pools[p].deployment == t.pools[p].deployment
  {
    hide GuardRow, Find, ItemsOk, SaysOf;
    var version := expected + 1;
    assert p in t.pools && WireOk(t, p);
    FindSame(items, published, t.pools[p].deployment);
    if Concerned(t, id, items, p) {
      assert Guarding(t, items, p, version).Ok?;
      GuardedSays(t.pools[p], items[Find(items, t.pools[p].deployment).value], version);
    }
  }

  lemma BindDelivers(t: Tables, q: Binding, id: Id, now: int)
    requires FleetOk(t) && Bind(t, q, id, now).Ok?
    ensures FleetOk(Bind(t, q, id, now).value) && Onward(t, Bind(t, q, id, now).value)
  {
    hide Name, ClustersOk, Onward, Find;
    var after := Bind(t, q, id, now).value;
    SameStep(t, after);
    forall p | p in after.pools ensures WireOk(after, p) {
      if p != id { assert WireOk(t, p); }
    }
  }

  /** The pool's item in the next revision is what the pool now expects. */
  lemma ScaledWires(t: Tables, after: Tables, id: Id, item: Item)
    requires WiresOk(t) && id in t.pools && id in after.pools && after.pools == t.pools[id := after.pools[id]]
    requires SameDeployment(after.pools[id], t.pools[id])
    requires t.pools[id].cluster in t.clusters && t.clusters[t.pools[id].cluster].desired < I64_MAX
    requires (t.pools[id].cluster, t.clusters[t.pools[id].cluster].desired as int) in t.revisions
    requires item.name == t.pools[id].deployment && SaysOf(after.pools[id], item)
    requires
      var c := t.pools[id].cluster;
      var items := WithItem(t.revisions[(c, t.clusters[c].desired as int)].payload, item);
      && after.clusters == Published(t, c, t.clusters[c].desired + 1, items).clusters
      && after.revisions == Published(t, c, t.clusters[c].desired + 1, items).revisions
    ensures WiresOk(after)
  {
    hide WithItem, Find, SaysOf;
    var c := t.pools[id].cluster;
    forall p | p in after.pools ensures WireOk(after, p) {
      assert p in t.pools && WireOk(t, p);
      if p != id { assert !SameDeployment(t.pools[p], t.pools[id]); }
      WithItemFinds(t.revisions[(c, t.clusters[c].desired as int)].payload, item, t.pools[p].deployment);
    }
    StillBoundOnce(t, after, id);
  }

  lemma StillBoundOnce(t: Tables, after: Tables, id: Id)
    requires BoundOnce(t) && id in t.pools && id in after.pools && after.pools == t.pools[id := after.pools[id]]
    requires SameDeployment(after.pools[id], t.pools[id])
    ensures BoundOnce(after)
  {
    forall p, q | p in after.pools && q in after.pools && SameDeployment(after.pools[p], after.pools[q]) ensures p == q {
      assert SameDeployment(t.pools[p], t.pools[q]);
    }
  }

  lemma ApplyDelivers(t: Tables, id: Id, current: I64, target: I64, up: bool)
    requires FleetOk(t) && id in t.pools && t.pools[id].cluster in t.clusters && Apply(t, id, current, target, up).Ok?
    requires t.pools[id].state != Retired
    ensures FleetOk(Apply(t, id, current, target, up).value.0) && Onward(t, Apply(t, id, current, target, up).value.0)
  {
    hide WithItem, ClustersOk, Onward, Find, WiresOk;
    var row := t.pools[id];
    var (after, changed) := Apply(t, id, current, target, up).value;
    if !changed {
      SameStep(t, t);
    } else {
      var c := row.cluster;
      var prior := t.revisions[(c, t.clusters[c].desired as int)].payload;
      var item := Item(row.deployment, Some(after.pools[id].expected), row.uid, None);
      PublishStep(t, after, c, WithItem(prior, item));
      ScaledWires(t, after, id, item);
    }
  }

  /** A pool's state and operation change, what it expects does not. */
  lemma PoolRowDelivers(t: Tables, after: Tables)
    requires FleetOk(t) && after.clusters == t.clusters && after.revisions == t.revisions
    requires after.pools.Keys == t.pools.Keys
    requires forall p :: p in t.pools ==>
      && after.pools[p].cluster == t.pools[p].cluster && after.pools[p].deployment == t.pools[p].deployment
      && after.pools[p].expected == t.pools[p].expected
      && (after.pools[p].state == Retired <==> t.pools[p].state == Retired)
    ensures FleetOk(after) && Onward(t, after)
  {
    hide ClustersOk, Onward, Find;
    SameStep(t, after);
    forall p | p in after.pools ensures WireOk(after, p) {
      assert WireOk(t, p);
    }
  }

  lemma ReconcileDelivers(t: Tables, id: Id, e: Option<ScaleEvidence>, applied: I64, ready: bool)
    requires FleetOk(t) && OpsOk(t) && id in t.pools && t.pools[id].cluster in t.clusters
    requires Reconcile(t, id, e, applied, ready).Ok?
    ensures FleetOk(Reconcile(t, id, e, applied, ready).value.0)
    ensures Onward(t, Reconcile(t, id, e, applied, ready).value.0)
  {
    hide DrainProven, Apply, EvidenceOk, FleetOk, OpsOk, Onward;
    PoolRowDelivers(t, t);
    OperationAt(t, id);
    var row := t.pools[id];
    var after := Reconcile(t, id, e, applied, ready).value.0;
    if row.expected.autoscaling.Managed? && e.Some? && !(row.scale.Some? && row.scale.value.phase == ApplyPhase) {
      var current, target := row.expected.replicas.value, e.value.replicas;
      if row.scale.Some? {
        if current <= target && ready {
          PoolRowDelivers(t, after);
        } else if DrainProven(t, id) && ready {
          ApplyDelivers(t, id, current, target, false);
        }
      } else if row.state == Active && ready && current < target {
        ApplyDelivers(t, id, current, target, true);
      } else {
        PoolRowDelivers(t, after);
      }
    } else {
      PoolRowDelivers(t, after);
    }
  }

  lemma ObserveDelivers(t: Tables, q: Observation, since: int, keys: set<(Id, Id)>)
    requires FleetOk(t) && OpsOk(t) && q.pool in t.pools && t.pools[q.pool].cluster in t.clusters
    requires Conclude(t, q, since, keys).Ok?
    ensures FleetOk(Conclude(t, q, since, keys).value.0) && Onward(t, Conclude(t, q, since, keys).value.0)
  {
    hide OpsOk, Reconcile, FleetOk, ClearedAt, PoolsMove, Onward;
    SeenMoves(t, q, since);
    var cleared := Cleared(Seen(t, q, since), keys);
    SamePools(Seen(t, q, since), cleared);
    PoolRowDelivers(t, cleared);
    ReconcileDelivers(cleared, q.pool, q.scaling, q.applied, q.ready);
    OnwardAfter(t, cleared, Reconcile(cleared, q.pool, q.scaling, q.applied, q.ready).value.0);
  }

  lemma OnwardAfter(t: Tables, mid: Tables, after: Tables)
    requires mid.clusters == t.clusters && mid.revisions == t.revisions && Onward(mid, after)
    ensures Onward(t, after)
  {
  }

  lemma TransitionDelivers(t: Tables, id: Id, expected: I64, action: Action, now: int)
    requires FleetOk(t) && Transition(t, id, expected, action, now).Ok?
    ensures FleetOk(Transition(t, id, expected, action, now).value)
    ensures Onward(t, Transition(t, id, expected, action, now).value)
  {
    hide FleetOk, Onward, DrainProven;
    PoolRowDelivers(t, Transition(t, id, expected, action, now).value);
  }

  lemma TasksDeliver(t: Tables, id: Id, token: Token, tasks: map<Id, (Token, Option<int>)>, now: int)
    requires FleetOk(t) && Tasks(t, id, token, tasks, now).Ok?
    ensures FleetOk(Tasks(t, id, token, tasks, now).value) && Onward(t, Tasks(t, id, token, tasks, now).value)
  {
    hide FleetOk, Onward, TasksOk, Authenticated;
    PoolRowDelivers(t, Tasks(t, id, token, tasks, now).value);
  }

  lemma PooledDelivers(t: Tables, m: Move, now: int)
    requires FleetOk(t) && OpsOk(t) && Pooled(m)
    ensures FleetOk(Served(t, m, now)) && Onward(t, Served(t, m, now))
  {
    hide FleetOk, OpsOk, Onward, Put, Bind, Transition, Tasks;
    PoolRowDelivers(t, t);
    match m {
      case PutDesired(id, version, items, published) =>
        if Put(t, id, version, items, published).Ok? { PutDelivers(t, id, version, items, published); }
      case BindPool(q, id) =>
        if Bind(t, q, id, now).Ok? { BindDelivers(t, q, id, now); }
      case TransitionPool(id, generation, action) =>
        if Transition(t, id, generation, action, now).Ok? { TransitionDelivers(t, id, generation, action, now); }
      case ObservationTasks(id, token, tasks) =>
        if Tasks(t, id, token, tasks, now).Ok? { TasksDeliver(t, id, token, tasks, now); }
    }
  }

  lemma UnpooledDelivers(t: Tables, m: Move, now: int)
    requires FleetOk(t) && Unpooled(m)
    ensures FleetOk(Served(t, m, now)) && Onward(t, Served(t, m, now))
  {
    hide Served, ClustersOk, Onward, Find;
    UnpooledOnward(t, m, now);
    UnpooledTables(t, m, now);
    var after := Served(t, m, now);
    assert Onward(t, after);
    Desires(t, m, now);
    forall p | p in after.pools ensures WireOk(after, p) {
      assert WireOk(t, p);
    }
  }

  lemma Desires(t: Tables, m: Move, now: int)
    requires ClustersOk(t) && Unpooled(m)
    ensures forall c :: c in t.clusters ==>
      c in Served(t, m, now).clusters && Served(t, m, now).clusters[c].desired == t.clusters[c].desired
  {
    if Served(t, m, now) != t {
      if m.cluster in t.clusters { VersionsAt(t, m.cluster); }
      OneRow(t, m, now);
    }
  }

  lemma ServedDelivers(t: Tables, m: Move, now: int)
    requires FleetOk(t) && OpsOk(t)
    ensures FleetOk(Served(t, m, now)) && Onward(t, Served(t, m, now))
  {
    hide FleetOk, OpsOk, Onward, Served;
    if Pooled(m) {
      PooledDelivers(t, m, now);
    } else if Unpooled(m) {
      UnpooledDelivers(t, m, now);
    } else if m.ObservePool? {
      ObservedDelivers(t, m, now);
    } else {
      PoolsUntouched(t, m, now);
      ClustersUntouched(t, m, now);
      PoolRowDelivers(t, Served(t, m, now));
    }
  }

  lemma ObservedDelivers(t: Tables, m: Move, now: int)
    requires FleetOk(t) && OpsOk(t) && m.ObservePool?
    ensures FleetOk(Served(t, m, now)) && Onward(t, Served(t, m, now))
  {
    hide FleetOk, OpsOk, Onward, Conclude;
    if Holds(t, m.cluster, m.observation) && Conclude(t, m.observation, m.since, m.cleared).Ok? {
      ObserveDelivers(t, m.observation, m.since, m.cleared);
    } else {
      PoolRowDelivers(t, t);
    }
  }

  lemma ClustersUntouched(t: Tables, m: Move, now: int)
    requires !Pooled(m) && !Unpooled(m) && !m.ObservePool?
    ensures Served(t, m, now).clusters == t.clusters && Served(t, m, now).revisions == t.revisions
  {
    hide Authenticated, TrafficReportOk, ReportedViews, SnapshotViews, Controls, IdentityKnown, IdentityReady,
         OrphanedViews, ProofNonces;
  }

  // ---- runs ---------------------------------------------------------------

  lemma StepDelivers(w: World, m: Move, now: int)
    requires Safe(w) && FleetOk(w.t)
    ensures FleetOk(Step(w, m, now).t) && Onward(w.t, Step(w, m, now).t)
  {
    hide FleetOk, OpsOk, Onward, Served, Inv, Run1;
    PoolRowDelivers(w.t, w.t);
    if Occurs(w, m, now) {
      TablesAfter(w.(clock := now), m);
      ServedDelivers(w.t, m, now);
    }
  }

  /** In every reachable world: 0 <= acknowledged <= delivered <= desired, the
      revisions are exactly 1 to desired, and each managed pool's cluster is told
      what the pool expects. */
  lemma {:induction false} RunDelivers(moves: seq<Timed>)
    ensures FleetOk(Run(START, moves).t)
  {
    hide Step, Safe;
    if moves != [] {
      hide FleetOk;
      RunDelivers(moves[..|moves| - 1]);
      RunSafe(moves[..|moves| - 1]);
      StepDelivers(Run(START, moves[..|moves| - 1]), moves[|moves| - 1].move, moves[|moves| - 1].now);
    }
  }

  /** And from any reachable world on, no version goes back and no revision is
      rewritten. */
  lemma {:induction false} VersionsGoForward(before: seq<Timed>, moves: seq<Timed>)
    ensures Onward(Run(START, before).t, Run(START, before + moves).t)
  {
    hide Step, Safe, FleetOk;
    if moves == [] {
      assert before + moves == before;
    } else {
      var all := before + moves;
      assert all[..|all| - 1] == before + moves[..|moves| - 1] && all[|all| - 1] == moves[|moves| - 1];
      VersionsGoForward(before, moves[..|moves| - 1]);
      RunDelivers(all[..|all| - 1]);
      RunSafe(all[..|all| - 1]);
      StepDelivers(Run(START, all[..|all| - 1]), all[|all| - 1].move, all[|all| - 1].now);
    }
  }

  // ---- leases -------------------------------------------------------------

  /** The step records an outcome for this lease of the cluster. */
  ghost predicate Records(w: World, m: Move, now: int, c: Id, lease: Token) {
    && Occurs(w, m, now) && m.ReportCluster? && m.cluster == c && m.report.lease == lease
    && Report(w.t, c, m.token, m.report, now).Ok? && !Report(w.t, c, m.token, m.report, now).value.1
  }

  /** Only a live lease records anything; an acknowledgement takes the version that
      was delivered under it, with the digest that is stored. Then the lease is gone. */
  lemma RecordedUnderLease(w: World, m: Move, now: int, c: Id, lease: Token)
    requires Records(w, m, now, c, lease)
    ensures c in w.t.clusters && w.t.clusters[c].lease == Some(lease)
    ensures w.t.clusters[c].leaseUntil.Some? && now < w.t.clusters[c].leaseUntil.value
    ensures
      var after := Step(w, m, now).t;
      && c in after.clusters && after.clusters[c].lease == None
      && (after.clusters[c].acknowledged != w.t.clusters[c].acknowledged ==>
            && m.report.outcome == Applied
            && after.clusters[c].acknowledged == w.t.clusters[c].delivery == m.report.version
            && (c, m.report.version as int) in w.t.revisions
            && w.t.revisions[(c, m.report.version as int)].sha256 == m.report.sha256)
  {
    hide ErrorCode;
    AuthenticatedRow(w.t, c, m.token, now);
    TablesAfter(w.(clock := now), m);
  }

  /** Nothing else acknowledges anything. */
  lemma AcknowledgedByReport(w: World, m: Move, now: int, c: Id)
    requires Safe(w) && FleetOk(w.t) && c in w.t.clusters && c in Step(w, m, now).t.clusters
    requires Step(w, m, now).t.clusters[c].acknowledged != w.t.clusters[c].acknowledged
    ensures m.ReportCluster? && Records(w, m, now, c, m.report.lease)
  {
    hide Inv, OpsOk, FleetOk, Run1, Conclude, Put, Bind, Transition, Tasks, ProofTasks, Prove, ReportTraffic, TakeSnapshot;
    TablesAfter(w.(clock := now), m);
    if !m.ReportCluster? {
      OthersAcknowledgeNothing(w.t, m, now, c);
    } else {
      AuthenticatedRow(w.t, m.cluster, m.token, now);
    }
  }

  /** Acknowledgement and lease of a cluster, as they were or with the lease gone. */
  ghost predicate AtMostUnleased(t: Tables, after: Tables, c: Id)
    requires c in t.clusters
  {
    && c in after.clusters && after.clusters[c].acknowledged == t.clusters[c].acknowledged
    && (after.clusters[c].lease.Some? ==> after.clusters[c].lease == t.clusters[c].lease)
  }

  lemma OthersAcknowledgeNothing(t: Tables, m: Move, now: int, c: Id)
    requires !m.ReportCluster? && c in t.clusters
    ensures c in Served(t, m, now).clusters
    ensures Served(t, m, now).clusters[c].acknowledged == t.clusters[c].acknowledged
    ensures !m.PollCluster? ==> AtMostUnleased(t, Served(t, m, now), c)
  {
    hide Served;
    if m.ObservePool? {
      ObserveClusters(t, m, now, c);
    } else if m.PutDesired? {
      PutClusters(t, m, now, c);
    } else if Unpooled(m) {
      CredentialClusters(t, m, now, c);
    } else if Pooled(m) {
      PooledClusters(t, m, now, c);
    } else {
      ClustersUntouched(t, m, now);
    }
  }

  lemma PutClusters(t: Tables, m: Move, now: int, c: Id)
    requires m.PutDesired? && c in t.clusters
    ensures AtMostUnleased(t, Served(t, m, now), c)
  {
    hide Find, GuardRow, GuardPasses, GuardedItems, GuardedPools, ItemsOk;
  }

  lemma PooledClusters(t: Tables, m: Move, now: int, c: Id)
    requires (m.BindPool? || m.TransitionPool? || m.ObservationTasks?) && c in t.clusters
    ensures AtMostUnleased(t, Served(t, m, now), c)
  {
    hide Authenticated, Name, TasksOk, DesiredSpec, DrainProven;
  }

  lemma CredentialClusters(t: Tables, m: Move, now: int, c: Id)
    requires Unpooled(m) && !m.ReportCluster? && c in t.clusters
    ensures c in Served(t, m, now).clusters
    ensures Served(t, m, now).clusters[c].acknowledged == t.clusters[c].acknowledged
    ensures !m.PollCluster? ==> AtMostUnleased(t, Served(t, m, now), c)
  {
    hide Authenticated, Name;
    if m.PollCluster? { AuthenticatedRow(t, m.cluster, m.token, now); }
  }

  lemma ReconcileClusters(t: Tables, id: Id, e: Option<ScaleEvidence>, applied: I64, ready: bool, c: Id)
    requires id in t.pools && t.pools[id].cluster in t.clusters && c in t.clusters
    requires Reconcile(t, id, e, applied, ready).Ok?
    ensures AtMostUnleased(t, Reconcile(t, id, e, applied, ready).value.0, c)
  {
    hide WithItem, DrainProven, EvidenceOk;
  }

  lemma ObserveClusters(t: Tables, m: Move, now: int, c: Id)
    requires m.ObservePool? && c in t.clusters
    ensures AtMostUnleased(t, Served(t, m, now), c)
  {
    hide Reconcile, Observed, ClearedAt;
    var q := m.observation;
    if Holds(t, m.cluster, q) && Conclude(t, q, m.since, m.cleared).Ok? {
      ObservedCluster(t, q, m.since);
      ReconcileClusters(Cleared(Seen(t, q, m.since), m.cleared), q.pool, q.scaling, q.applied, q.ready, c);
    }
  }

  lemma ObservedCluster(t: Tables, q: Observation, now: int)
    requires q.pool in t.pools
    ensures q.pool in Seen(t, q, now).pools && Seen(t, q, now).pools[q.pool].cluster == t.pools[q.pool].cluster
  {
  }

  /** A lease that is not out does not come back unless it is handed out again. */
  lemma StepLease(w: World, m: Move, now: int, c: Id, lease: Token)
    requires c in w.t.clusters && w.t.clusters[c].lease != Some(lease)
    requires Safe(w) && FleetOk(w.t)
    requires !(m.PollCluster? && m.cluster == c && m.lease == lease)
    ensures c in Step(w, m, now).t.clusters && Step(w, m, now).t.clusters[c].lease != Some(lease)
  {
    hide Inv, OpsOk, FleetOk, Run1, Served;
    StepDelivers(w, m, now);
    if Occurs(w, m, now) {
      TablesAfter(w.(clock := now), m);
      if m.ReportCluster? || m.PollCluster? {
        LeaseMoves(w.t, m, now, c, lease);
      } else {
        OthersAcknowledgeNothing(w.t, m, now, c);
      }
    }
  }

  lemma LeaseMoves(t: Tables, m: Move, now: int, c: Id, lease: Token)
    requires (m.ReportCluster? || m.PollCluster?) && c in t.clusters && t.clusters[c].lease != Some(lease)
    requires !(m.PollCluster? && m.cluster == c && m.lease == lease)
    ensures c in Served(t, m, now).clusters && Served(t, m, now).clusters[c].lease != Some(lease)
  {
    hide ErrorCode, Authenticated;
    AuthenticatedRow(t, m.cluster, m.token, now);
  }

  /** With tokens that are never reused, a lease records at most one outcome. */
  lemma OneOutcomePerLease(before: seq<Timed>, m: Move, now: int, later: seq<Timed>, m2: Move, now2: int, c: Id,
                           lease: Token)
    requires Records(Run(START, before), m, now, c, lease)
    requires forall i :: 0 <= i < |later| ==>
      !(later[i].move.PollCluster? && later[i].move.cluster == c && later[i].move.lease == lease)
    ensures !Records(Run(START, before + [Timed(m, now)] + later), m2, now2, c, lease)
  {
    hide Run, Step, Records, Safe, FleetOk;
    var first := before + [Timed(m, now)];
    LeaseStaysGone(before, m, now, later, c, lease);
    if Records(Run(START, first + later), m2, now2, c, lease) {
      RecordedUnderLease(Run(START, first + later), m2, now2, c, lease);
      assert false;
    }
  }

  lemma {:induction false} LeaseStaysGone(before: seq<Timed>, m: Move, now: int, later: seq<Timed>, c: Id, lease: Token)
    requires Records(Run(START, before), m, now, c, lease)
    requires forall i :: 0 <= i < |later| ==>
      !(later[i].move.PollCluster? && later[i].move.cluster == c && later[i].move.lease == lease)
    ensures
      var w := Run(START, before + [Timed(m, now)] + later);
      c in w.t.clusters && w.t.clusters[c].lease != Some(lease)
  {
    hide Step, Records, Safe, FleetOk;
    var all := before + [Timed(m, now)] + later;
    if later == [] {
      assert all[..|all| - 1] == before && all[|all| - 1] == Timed(m, now);
      RecordedUnderLease(Run(START, before), m, now, c, lease);
    } else {
      var last := later[|later| - 1];
      assert all[..|all| - 1] == before + [Timed(m, now)] + later[..|later| - 1] && all[|all| - 1] == last;
      LeaseStaysGone(before, m, now, later[..|later| - 1], c, lease);
      RunDelivers(all[..|all| - 1]);
      RunSafe(all[..|all| - 1]);
      StepLease(Run(START, all[..|all| - 1]), last.move, last.now, c, lease);
    }
  }
}
