/** From the control plane's promise to the member's objects: whatever is handed
    out can be retried until it holds. */
module EndToEnd {
  import opened Prelude
  import opened Rows
  import opened FleetRows
  import opened ClusterRules
  import opened TrafficRules
  import opened ProofRules
  import opened PoolRules
  import opened FleetWorld
  import opened DrainSafety
  import opened DrainRuns
  import opened ClusterDelivery
  import opened AgentPull

  /** Every revision can be retried. */
  ghost predicate AllRetryable(t: Tables) {
    forall k :: k in t.revisions ==> Retryable(t.revisions[k].payload)
  }

  lemma OneMore(t: Tables, after: Tables, k: (Id, int), items: seq<Item>)
    requires AllRetryable(t) && Retryable(items)
    requires after.revisions == t.revisions[k := Revision(items, Digest(items))]
    ensures AllRetryable(after)
  {
  }

  /** The guard writes an expected UID only into items that carry a spec. */
  lemma GuardedRetryable(t: Tables, id: Id, items: seq<Item>, version: I64, published: seq<Item>)
    requires Retryable(items) && GuardPasses(t, id, items, version) && GuardedItems(t, id, items, version, published)
    ensures Retryable(published)
  {
    hide Find;
    forall i | 0 <= i < |published| && published[i].spec.None? ensures published[i].expectedUid.None? {
      if ManagesItem(t, id, items, i) {
        var p :| p in t.pools && Concerned(t, id, items, p) && Find(items, t.pools[p].deployment) == Some(i);
        assert Guarding(t, items, p, version).Ok?;
      }
    }
  }

  lemma WithItemRetryable(items: seq<Item>, item: Item)
    requires Retryable(items) && item.spec.Some?
    ensures Retryable(WithItem(items, item))
  {
  }

  lemma PutRetryable(t: Tables, id: Id, expected: I64, items: seq<Item>, published: seq<Item>)
    requires AllRetryable(t) && FleetWorld.Put(t, id, expected, items, published).Ok?
    ensures AllRetryable(FleetWorld.Put(t, id, expected, items, published).value)
  {
    hide GuardPasses, GuardedItems, GuardedPools, Retryable;
    ItemsRetryable(items);
    GuardedRetryable(t, id, items, expected + 1, published);
    OneMore(t, FleetWorld.Put(t, id, expected, items, published).value, (id, expected as int + 1), published);
  }

  lemma ItemsRetryable(items: seq<Item>)
    requires ItemsOk(items)
    ensures Retryable(items)
  {
    hide Name;
  }

  lemma ApplyRetryable(t: Tables, id: Id, current: I64, target: I64, up: bool)
    requires id in t.pools && t.pools[id].cluster in t.clusters && PoolRules.Apply(t, id, current, target, up).Ok?
    requires AllRetryable(t)
    ensures AllRetryable(PoolRules.Apply(t, id, current, target, up).value.0)
  {
    hide WithItem, Retryable;
    var row := t.pools[id];
    var (after, changed) := PoolRules.Apply(t, id, current, target, up).value;
    if changed {
      var version := t.clusters[row.cluster].desired as int;
      var item := Item(row.deployment, Some(row.expected.(replicas := Some(target))), row.uid, None);
      WithItemRetryable(t.revisions[(row.cluster, version)].payload, item);
      OneMore(t, after, (row.cluster, version + 1), WithItem(t.revisions[(row.cluster, version)].payload, item));
    }
  }

  lemma ReconcileRetryable(t: Tables, id: Id, e: Option<ScaleEvidence>, applied: I64, ready: bool)
    requires id in t.pools && t.pools[id].cluster in t.clusters && Reconcile(t, id, e, applied, ready).Ok?
    requires AllRetryable(t)
    ensures AllRetryable(Reconcile(t, id, e, applied, ready).value.0)
  {
    hide DrainProven, EvidenceOk, PoolRules.Apply, AllRetryable;
    var row := t.pools[id];
    var after := Reconcile(t, id, e, applied, ready).value.0;
    if after.revisions == t.revisions {
      SameRevisions(t, after);
    } else {
      var current, target := row.expected.replicas.value, e.value.replicas;
      if row.scale.Some? {
        ApplyRetryable(t, id, current, target, false);
      } else {
        ApplyRetryable(t, id, current, target, true);
      }
    }
  }

  lemma SameRevisions(t: Tables, after: Tables)
    requires AllRetryable(t) && after.revisions == t.revisions
    ensures AllRetryable(after)
  {
  }

  lemma ObserveRetryable(t: Tables, m: Move, now: int)
    requires AllRetryable(t) && m.ObservePool?
    ensures AllRetryable(Served(t, m, now))
  {
    hide AllRetryable, Reconcile, Observed, ClearedAt;
    var q := m.observation;
    if Holds(t, m.cluster, q) && Conclude(t, q, m.since, m.cleared).Ok? {
      ObservedCluster(t, q, m.since);
      var cleared := Cleared(Seen(t, q, m.since), m.cleared);
      SameRevisions(t, cleared);
      ReconcileRetryable(cleared, q.pool, q.scaling, q.applied, q.ready);
    }
  }

  lemma ServedRetryable(t: Tables, m: Move, now: int)
    requires AllRetryable(t)
    ensures AllRetryable(Served(t, m, now))
  {
    hide AllRetryable, FleetWorld.Put, Served;
    if m.ObservePool? {
      ObserveRetryable(t, m, now);
    } else if m.PutDesired? {
      PutServed(t, m, now);
    } else {
      RevisionsUntouched(t, m, now);
      SameRevisions(t, Served(t, m, now));
    }
  }

  lemma PutServed(t: Tables, m: Move, now: int)
    requires AllRetryable(t) && m.PutDesired?
    ensures AllRetryable(Served(t, m, now))
  {
    hide AllRetryable, FleetWorld.Put;
    if FleetWorld.Put(t, m.cluster, m.version, m.items, m.published).Ok? {
      PutRetryable(t, m.cluster, m.version, m.items, m.published);
    }
  }

  lemma RevisionsUntouched(t: Tables, m: Move, now: int)
    requires !m.ObservePool? && !m.PutDesired?
    ensures Served(t, m, now).revisions == t.revisions
  {
    hide Served;
    if Unpooled(m) {
      UnpooledTables(t, m, now);
    } else if Pooled(m) {
      PooledRevisions(t, m, now);
    } else {
      ClustersUntouched(t, m, now);
    }
  }

  lemma PooledRevisions(t: Tables, m: Move, now: int)
    requires m.BindPool? || m.TransitionPool? || m.ObservationTasks?
    ensures Served(t, m, now).revisions == t.revisions
  {
    hide Authenticated, Name, TasksOk, DesiredSpec, DrainProven;
  }

  lemma {:induction false} RunRetryable(moves: seq<FleetWorld.Timed>)
    ensures AllRetryable(FleetWorld.Run(START, moves).t)
  {
    hide FleetWorld.Run1, Served;
    if moves != [] {
      hide AllRetryable;
      var last := moves[|moves| - 1];
      RunRetryable(moves[..|moves| - 1]);
      var w := FleetWorld.Run(START, moves[..|moves| - 1]);
      if Occurs(w, last.move, last.now) {
        TablesAfter(w.(clock := last.now), last.move);
        ServedRetryable(w.t, last.move, last.now);
      }
    }
  }

  /** In every reachable world, what a poll hands out converges on any member: if it
      applies undisturbed, it applies after any broken attempts, with the same result. */
  lemma DeliveriesConverge(moves: seq<FleetWorld.Timed>, id: Id, token: Token, lease: Token, now: int, config: Config,
                           first: Objects, weathers: seq<seq<Weather>>, calm: seq<Weather>, name: Id)
    requires
      var r := Poll(FleetWorld.Run(START, moves).t, id, token, lease, now);
      && r.Ok? && r.value.1.Some?
      && var d := r.value.1.value;
         && |calm| == |d.items| && Calm(calm) && Attempt(config, d, first, calm).0 == Done
         && forall i :: 0 <= i < |weathers| ==> |weathers[i]| == |d.items|
    ensures
      var d := Poll(FleetWorld.Run(START, moves).t, id, token, lease, now).value.1.value;
      var (outcome, after) := Attempt(config, d, Attempts(config, d, first, weathers), calm);
      outcome == Done && Alike(At(after, name), At(Attempt(config, d, first, calm).1, name))
  {
    hide FleetWorld.Run, Attempt, Attempts, Alike, Calm, Retryable, Authenticated;
    RunRetryable(moves);
    var d := Poll(FleetWorld.Run(START, moves).t, id, token, lease, now).value.1.value;
    assert Retryable(d.items);
    ApplyConverges(config, d, first, weathers, calm, calm, name);
  }
}
