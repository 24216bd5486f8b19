/** What a member accepts of what it is handed. The control plane keeps every revision
    well formed; whether it is short enough and its specs obey the member's schema is
    for the member to find out. */
module Acceptance {
  import opened Prelude
  import opened Rows
  import opened FleetRows
  import opened ClusterRules
  import opened TrafficRules
  import opened ProofRules
  import opened PoolRules
  import opened FleetWorld
  import opened DrainSafety
  import opened DrainRuns
  import opened ClusterDelivery
  import opened AgentPull
  import opened EndToEnd

  const LIMIT := 100

  predicate Admitted(admits: Schema, item: Item) {
    item.spec.Some? ==> admits(item.name, item.spec.value)
  }

  predicate AllAdmitted(admits: Schema, items: seq<Item>) {
    forall i :: 0 <= i < |items| ==> Admitted(admits, items[i])
  }

  /** What the control plane does not know of its members: whether they take this. */
  predicate Acceptable(admits: Schema, items: seq<Item>) {
    |items| <= LIMIT && AllAdmitted(admits, items)
  }

  // ---- the shape of a revision --------------------------------------------

  predicate ItemShape(item: Item) {
    && Name(item.name)
    && (if item.spec.Some? then item.deleteUid.None? else item.deleteUid.Some? && Uid(item.deleteUid.value))
  }

  /** Different names, and each item either a spec or a deletion bound to an object. */
  ghost predicate Shaped(items: seq<Item>) {
    && (forall i :: 0 <= i < |items| ==> ItemShape(items[i]))
    && (forall i, j :: 0 <= i < j < |items| ==> items[i].name != items[j].name)
  }

  ghost predicate AllShaped(t: Tables) {
    && (forall k :: k in t.revisions ==> Shaped(t.revisions[k].payload))
    && (forall p :: p in t.pools ==> Name(t.pools[p].deployment))
  }

  /** The pools' deployments are those of before, and so are the revisions. */
  lemma StillShaped(t: Tables, after: Tables)
    requires AllShaped(t) && after.revisions == t.revisions && after.pools.Keys == t.pools.Keys
    requires forall p :: p in t.pools ==> after.pools[p].deployment == t.pools[p].deployment
    ensures AllShaped(after)
  {
    hide Shaped, Name;
  }

  lemma OneMoreShaped(t: Tables, after: Tables, k: (Id, int), items: seq<Item>)
    requires AllShaped(t) && Shaped(items) && after.revisions == t.revisions[k := Revision(items, Digest(items))]
    requires after.pools.Keys == t.pools.Keys
    requires forall p :: p in t.pools ==> after.pools[p].deployment == t.pools[p].deployment
    ensures AllShaped(after)
  {
    hide Shaped, Name;
  }

  /** The guard writes observed identities into items, and nothing else. */
  lemma GuardedSame(t: Tables, id: Id, items: seq<Item>, version: I64, published: seq<Item>)
    requires GuardPasses(t, id, items, version) && GuardedItems(t, id, items, version, published)
    ensures |published| == |items|
    ensures forall i :: 0 <= i < |items| ==> published[i] == items[i].(expectedUid := published[i].expectedUid)
  {
    hide GuardRow, Find;
    forall i | 0 <= i < |items| ensures published[i] == items[i].(expectedUid := published[i].expectedUid) {
      if ManagesItem(t, id, items, i) {
        var p :| p in t.pools && Concerned(t, id, items, p) && Find(items, t.pools[p].deployment) == Some(i);
        assert Guarding(t, items, p, version).Ok?;
        GuardedIdentity(t.pools[p], items[i], version);
      }
    }
  }

  lemma GuardedIdentity(row: Pool, item: Item, version: I64)
    requires GuardRow(row, item, version).Ok?
    ensures
      var (pool, guarded) := GuardRow(row, item, version).value;
      guarded == item.(expectedUid := guarded.expectedUid) && pool.deployment == row.deployment
  {
  }

  lemma SameShape(items: seq<Item>, published: seq<Item>)
    requires Shaped(items) && |published| == |items|
    requires forall i :: 0 <= i < |items| ==> published[i] == items[i].(expectedUid := published[i].expectedUid)
    ensures Shaped(published)
  {
    hide Name, Uid;
    forall i | 0 <= i < |published| ensures ItemShape(published[i]) {
      assert ItemShape(items[i]);
    }
    forall i, j | 0 <= i < j < |published| ensures published[i].name != published[j].name {
      assert items[i].name != items[j].name;
    }
  }

  lemma PutShaped(t: Tables, id: Id, expected: I64, items: seq<Item>, published: seq<Item>)
    requires AllShaped(t) && FleetWorld.Put(t, id, expected, items, published).Ok?
    ensures AllShaped(FleetWorld.Put(t, id, expected, items, published).value)
  {
    hide GuardPasses, GuardedItems, GuardedPools, Shaped, AllShaped, ItemsOk;
    var after := FleetWorld.Put(t, id, expected, items, published).value;
    RequestShaped(items);
    GuardedSame(t, id, items, expected + 1, published);
    SameShape(items, published);
    GuardedDeployments(t, id, items, expected + 1);
    OneMoreShaped(t, after, (id, expected as int + 1), published);
  }

  lemma RequestShaped(items: seq<Item>)
    requires ItemsOk(items)
    ensures Shaped(items) && |items| <= LIMIT
  {
    hide Name, Uid;
    forall i | 0 <= i < |items| ensures ItemShape(items[i]) {
      assert ItemOk(items[i]);
    }
  }

  lemma GuardedDeployments(t: Tables, id: Id, items: seq<Item>, version: I64)
    requires GuardPasses(t, id, items, version)
    ensures
      var after := GuardedPools(t, id, items, version);
      after.Keys == t.pools.Keys && forall p :: p in t.pools ==> after[p].deployment == t.pools[p].deployment
  {
    hide GuardRow, Find;
    forall p | p in t.pools ensures GuardedPools(t, id, items, version)[p].deployment == t.pools[p].deployment {
      if Concerned(t, id, items, p) {
        assert Guarding(t, items, p, version).Ok?;
        GuardedIdentity(t.pools[p], items[Find(items, t.pools[p].deployment).value], version);
      }
    }
  }

  /** An item in the place of its name's, or behind the others. */
  lemma WithItemShaped(items: seq<Item>, item: Item)
    requires Shaped(items) && ItemShape(item)
    ensures Shaped(WithItem(items, item))
  {
    hide ItemShape;
    var at, after := Find(items, item.name), WithItem(items, item);
    if at.Some? {
      forall i | 0 <= i < |after| && i != at.value ensures after[i].name != item.name && after[i] == items[i] {
        assert items[i].name != items[at.value].name;
      }
    }
  }

  lemma ApplyShaped(t: Tables, id: Id, current: I64, target: I64, up: bool)
    requires id in t.pools && t.pools[id].cluster in t.clusters && PoolRules.Apply(t, id, current, target, up).Ok?
    requires AllShaped(t)
    ensures AllShaped(PoolRules.Apply(t, id, current, target, up).value.0)
  {
    hide WithItem, Shaped, AllShaped;
    var row := t.pools[id];
    var (after, changed) := PoolRules.Apply(t, id, current, target, up).value;
    if changed {
      var version := t.clusters[row.cluster].desired as int;
      var item := Item(row.deployment, Some(row.expected.(replicas := Some(target))), row.uid, None);
      var items := t.revisions[(row.cluster, version)].payload;
      ShapedParts(t, (row.cluster, version), id);
      WithItemShaped(items, item);
      OneMoreShaped(t, after, (row.cluster, version + 1), WithItem(items, item));
    }
  }

  lemma ShapedParts(t: Tables, k: (Id, int), id: Id)
    requires AllShaped(t)
    ensures k in t.revisions ==> Shaped(t.revisions[k].payload)
    ensures id in t.pools ==> Name(t.pools[id].deployment)
  {
  }

  lemma ReconcileShaped(t: Tables, id: Id, e: Option<ScaleEvidence>, applied: I64, ready: bool)
    requires id in t.pools && t.pools[id].cluster in t.clusters && Reconcile(t, id, e, applied, ready).Ok?
    requires AllShaped(t)
    ensures AllShaped(Reconcile(t, id, e, applied, ready).value.0)
  {
    hide DrainProven, EvidenceOk, PoolRules.Apply, AllShaped;
    var row := t.pools[id];
    var after := Reconcile(t, id, e, applied, ready).value.0;
    if row.expected.replicas.Some? && e.Some? {
      var current, target := row.expected.replicas.value, e.value.replicas;
      if PoolRules.Apply(t, id, current, target, true).Ok? { ApplyShaped(t, id, current, target, true); }
      if PoolRules.Apply(t, id, current, target, false).Ok? { ApplyShaped(t, id, current, target, false); }
    }
    if after.revisions == t.revisions && id in after.pools && after.pools == t.pools[id := after.pools[id]]
       && after.pools[id].deployment == row.deployment
    {
      StillShaped(t, after);
    }
  }

  lemma ObserveShaped(t: Tables, m: Move, now: int)
    requires AllShaped(t) && m.ObservePool?
    ensures AllShaped(Served(t, m, now))
  {
    hide AllShaped, Reconcile, ClearedAt;
    var q := m.observation;
    if Holds(t, m.cluster, q) && Conclude(t, q, m.since, m.cleared).Ok? {
      var cleared := Cleared(Seen(t, q, m.since), m.cleared);
      StillShaped(t, cleared);
      ReconcileShaped(cleared, q.pool, q.scaling, q.applied, q.ready);
    }
  }

  lemma BindShaped(t: Tables, q: Binding, id: Id, now: int)
    requires AllShaped(t) && Bind(t, q, id, now).Ok?
    ensures AllShaped(Bind(t, q, id, now).value)
  {
    hide Name, Shaped, DesiredSpec;
  }

  lemma PooledShaped(t: Tables, m: Move, now: int)
    requires AllShaped(t) && Pooled(m)
    ensures AllShaped(Served(t, m, now))
  {
    hide AllShaped, FleetWorld.Put, Bind, Transition, Tasks;
    match m {
      case PutDesired(id, version, items, published) =>
        if FleetWorld.Put(t, id, version, items, published).Ok? { PutShaped(t, id, version, items, published); }
      case BindPool(q, id) =>
        if Bind(t, q, id, now).Ok? { BindShaped(t, q, id, now); }
      case TransitionPool(id, generation, action) =>
        if Transition(t, id, generation, action, now).Ok? { TransitionShaped(t, id, generation, action, now); }
      case ObservationTasks(id, token, tasks) =>
        if Tasks(t, id, token, tasks, now).Ok? { TasksShaped(t, id, token, tasks, now); }
    }
  }

  lemma TransitionShaped(t: Tables, id: Id, expected: I64, action: Action, now: int)
    requires AllShaped(t) && Transition(t, id, expected, action, now).Ok?
    ensures AllShaped(Transition(t, id, expected, action, now).value)
  {
    hide AllShaped, DrainProven;
    StillShaped(t, Transition(t, id, expected, action, now).value);
  }

  lemma TasksShaped(t: Tables, id: Id, token: Token, tasks: map<Id, (Token, Option<int>)>, now: int)
    requires AllShaped(t) && Tasks(t, id, token, tasks, now).Ok?
    ensures AllShaped(Tasks(t, id, token, tasks, now).value)
  {
    hide AllShaped, TasksOk, Authenticated;
    StillShaped(t, Tasks(t, id, token, tasks, now).value);
  }

  lemma ServedShaped(t: Tables, m: Move, now: int)
    requires AllShaped(t)
    ensures AllShaped(Served(t, m, now))
  {
    hide AllShaped, Served;
    if m.ObservePool? {
      ObserveShaped(t, m, now);
    } else if Pooled(m) {
      PooledShaped(t, m, now);
    } else {
      RevisionsUntouched(t, m, now);
      PoolsUntouched(t, m, now);
      StillShaped(t, Served(t, m, now));
    }
  }

  lemma {:induction false} RunShaped(moves: seq<FleetWorld.Timed>)
    ensures AllShaped(FleetWorld.Run(START, moves).t)
  {
    hide FleetWorld.Run1, Served;
    if moves != [] {
      hide AllShaped;
      var last := moves[|moves| - 1];
      RunShaped(moves[..|moves| - 1]);
      var w := FleetWorld.Run(START, moves[..|moves| - 1]);
      if Occurs(w, last.move, last.now) {
        TablesAfter(w.(clock := last.now), last.move);
        ServedShaped(w.t, last.move, last.now);
      }
    }
  }

  // ---- what a member takes ------------------------------------------------

  /** In every reachable world an agent takes what a poll hands out exactly when it is
      its own cluster's and namespace's, has at most a hundred items, and every spec is
      one it admits. Nothing else about a revision can be wrong. */
  lemma PolledIsAccepted(moves: seq<FleetWorld.Timed>, c: Id, token: Token, lease: Token, now: int, config: Config)
    requires
      var r := Poll(FleetWorld.Run(START, moves).t, c, token, lease, now);
      r.Ok? && r.value.1.Some?
    ensures
      var t := FleetWorld.Run(START, moves).t;
      var d := Poll(t, c, token, lease, now).value.1.value;
      && c in t.clusters
      && (DeliveryOk(config, d) <==>
            config.cluster == c && config.namespace == t.clusters[c].namespace && Acceptable(config.admits, d.items))
  {
    hide FleetWorld.Run, Authenticated, WiresOk, AllShaped, Shaped, Acceptable, DeliveryOk;
    var t := FleetWorld.Run(START, moves).t;
    RunShaped(moves);
    RunDelivers(moves);
    AuthenticatedRow(t, c, token, now);
    VersionsAt(t, c);
    var d := Poll(t, c, token, lease, now).value.1.value;
    ShapedParts(t, (c, t.clusters[c].desired as int), c);
    TakenIff(config, d);
  }

  lemma TakenIff(config: Config, d: Delivery)
    requires Shaped(d.items) && 0 < d.version && d.sha256 == Digest(d.items)
    ensures DeliveryOk(config, d) <==>
      config.cluster == d.cluster && config.namespace == d.namespace && Acceptable(config.admits, d.items)
  {
    hide Name, Uid;
    assert forall i :: 0 <= i < |d.items| ==>
      ItemShape(d.items[i]) && (DeliveryItemOk(config, d.items[i]) <==> Admitted(config.admits, d.items[i]));
  }
}
