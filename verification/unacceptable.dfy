/** A revision the member does not accept, because it is too long or because its schema
    rejects a spec, stays until an operator publishes another state. Which published
    revisions are accepted: a scaling step may add one item too many. */
module Unacceptable {
  import opened Prelude
  import opened Rows
  import opened FleetRows
  import opened ClusterRules
  import opened TrafficRules
  import opened ProofRules
  import opened PoolRules
  import opened FleetWorld
  import opened DrainSafety
  import opened DrainRuns
  import opened ClusterDelivery
  import opened AgentPull
  import opened EndToEnd
  import opened Acceptance

  /** What the cluster should have now. */
  function NewestItems(t: Tables, c: Id): seq<Item>
    requires c in t.clusters
  {
    var k := (c, t.clusters[c].desired as int);
    if k in t.revisions then t.revisions[k].payload else []
  }

  // ---- what publishes -----------------------------------------------------

  predicate Still(t: Tables, after: Tables) {
    after.revisions == t.revisions && after.clusters == t.clusters
  }

  /** The item a scaling step publishes for a pool. */
  function Scaled(row: Pool, q: Observation): Item
    requires q.scaling.Some?
  {
    Item(row.deployment, Some(row.expected.(replicas := Some(q.scaling.value.replicas))),
         if row.uid.None? then q.uid else row.uid, None)
  }

  /** The next revision of a cluster that has acknowledged its newest one: that
      revision with one deployment's item replaced or added. */
  predicate Scales(t: Tables, after: Tables, c: Id, item: Item) {
    && c in t.clusters && t.clusters[c].desired == t.clusters[c].acknowledged < I64_MAX
    && (c, t.clusters[c].desired as int) in t.revisions
    && var k := (c, t.clusters[c].desired as int + 1);
       && k in after.revisions && after.revisions == t.revisions[k := after.revisions[k]]
       && after.revisions[k].payload == WithItem(NewestItems(t, c), item)
       && after.clusters == t.clusters[c := t.clusters[c].(desired := t.clusters[c].desired + 1)]
  }

  lemma ApplyScales(t: Tables, id: Id, current: I64, target: I64, up: bool)
    requires id in t.pools && t.pools[id].cluster in t.clusters && PoolRules.Apply(t, id, current, target, up).Ok?
    ensures
      var (row, after) := (t.pools[id], PoolRules.Apply(t, id, current, target, up).value.0);
      var item := Item(row.deployment, Some(row.expected.(replicas := Some(target))), row.uid, None);
      Still(t, after) || Scales(t, after, row.cluster, item)
  {
    hide WithItem, Find;
  }

  lemma ReconcileScales(t: Tables, id: Id, e: Option<ScaleEvidence>, applied: I64, ready: bool)
    requires id in t.pools && t.pools[id].cluster in t.clusters && Reconcile(t, id, e, applied, ready).Ok?
    ensures
      var (row, after) := (t.pools[id], Reconcile(t, id, e, applied, ready).value.0);
      || Still(t, after)
      || (&& e.Some?
          && Scales(t, after, row.cluster,
                    Item(row.deployment, Some(row.expected.(replicas := Some(e.value.replicas))), row.uid, None)))
  {
    hide DrainProven, EvidenceOk, PoolRules.Apply, Scales;
    var row := t.pools[id];
    if row.expected.replicas.Some? && e.Some? {
      var current, target := row.expected.replicas.value, e.value.replicas;
      if PoolRules.Apply(t, id, current, target, true).Ok? { ApplyScales(t, id, current, target, true); }
      if PoolRules.Apply(t, id, current, target, false).Ok? { ApplyScales(t, id, current, target, false); }
    }
  }

  /** An observation of this pool published its item. */
  predicate ObservedScale(t: Tables, m: Move, after: Tables) {
    && m.ObservePool? && m.observation.scaling.Some? && m.observation.pool in t.pools
    && t.pools[m.observation.pool].cluster == m.cluster
    && Scales(t, after, m.cluster, Scaled(t.pools[m.observation.pool], m.observation))
  }

  lemma ObserveScales(t: Tables, m: Move, now: int)
    requires m.ObservePool?
    ensures Still(t, Served(t, m, now)) || ObservedScale(t, m, Served(t, m, now))
  {
    hide Reconcile, Observed, ClearedAt, Scales;
    var q := m.observation;
    if Holds(t, m.cluster, q) && Conclude(t, q, m.since, m.cleared).Ok? {
      ObservedRow(t, q, m.since, m.cleared);
      var cleared := Cleared(Seen(t, q, m.since), m.cleared);
      ReconcileScales(cleared, q.pool, q.scaling, q.applied, q.ready);
      if q.scaling.Some? {
        ScalesFrom(t, cleared, Served(t, m, now), m.cluster, Scaled(t.pools[q.pool], q));
      }
    }
  }

  lemma ObservedRow(t: Tables, q: Observation, since: int, keys: set<(Id, Id)>)
    requires q.pool in t.pools
    ensures
      var (was, seen) := (t.pools[q.pool], Cleared(Seen(t, q, since), keys));
      && Still(t, seen) && q.pool in seen.pools
      && var row := seen.pools[q.pool];
         && row.cluster == was.cluster && row.deployment == was.deployment && row.expected == was.expected
         && row.uid == if was.uid.None? then q.uid else was.uid
  {
    hide ClearedAt;
  }

  lemma ScalesFrom(t: Tables, mid: Tables, after: Tables, c: Id, item: Item)
    requires Still(t, mid)
    ensures Still(mid, after) ==> Still(t, after)
    ensures Scales(mid, after, c, item) ==> Scales(t, after, c, item)
  {
    hide WithItem;
  }

  // ---- what is published --------------------------------------------------

  /** What one operation publishes: a request with identities written into it, or the
      newest revision with one pool's item. */
  lemma ServedPublishes(t: Tables, m: Move, now: int, k: (Id, int))
    requires k in Served(t, m, now).revisions && k !in t.revisions
    ensures
      var items := Served(t, m, now).revisions[k].payload;
      || (&& m.PutDesired? && ItemsOk(m.items) && |items| == |m.items|
          && forall i :: 0 <= i < |items| ==> items[i] == m.items[i].(expectedUid := items[i].expectedUid))
      || (&& ObservedScale(t, m, Served(t, m, now))
          && k == (m.cluster, t.clusters[m.cluster].desired as int + 1)
          && items == WithItem(NewestItems(t, m.cluster), Scaled(t.pools[m.observation.pool], m.observation)))
  {
    hide Served, WithItem, ItemsOk;
    if m.PutDesired? {
      PutPublishes(t, m, now, k);
    } else if m.ObservePool? {
      ObserveScales(t, m, now);
    } else {
      RevisionsUntouched(t, m, now);
    }
  }

  lemma PutPublishes(t: Tables, m: Move, now: int, k: (Id, int))
    requires m.PutDesired? && k in Served(t, m, now).revisions && k !in t.revisions
    ensures
      var items := Served(t, m, now).revisions[k].payload;
      && ItemsOk(m.items) && |items| == |m.items|
      && forall i :: 0 <= i < |items| ==> items[i] == m.items[i].(expectedUid := items[i].expectedUid)
  {
    hide GuardPasses, GuardedItems, GuardedPools, ItemsOk;
    if FleetWorld.Put(t, m.cluster, m.version, m.items, m.published).Ok? {
      GuardedSame(t, m.cluster, m.items, m.version + 1, m.published);
    }
  }

  /** The revision that would follow still has room for the deployment's item. */
  predicate HasRoom(items: seq<Item>, deployment: Id) {
    |items| < LIMIT || (|items| == LIMIT && Find(items, deployment).Some?)
  }

  /** With an item for this deployment in its place, the others decide. */
  predicate OthersAdmitted(admits: Schema, items: seq<Item>, name: Id) {
    forall i :: 0 <= i < |items| && items[i].name != name ==> Admitted(admits, items[i])
  }

  lemma WithItemAcceptable(admits: Schema, items: seq<Item>, item: Item)
    requires Shaped(items)
    ensures |WithItem(items, item)| <= LIMIT <==> HasRoom(items, item.name)
    ensures Acceptable(admits, WithItem(items, item)) <==>
      HasRoom(items, item.name) && OthersAdmitted(admits, items, item.name) && Admitted(admits, item)
  {
    hide ItemShape, Admitted;
    var at, after := Find(items, item.name), WithItem(items, item);
    assert forall i :: 0 <= i < |items| && (at.None? || i != at.value) ==>
      after[i] == items[i] && items[i].name != item.name;
    if at.Some? {
      assert after[at.value] == item;
    } else {
      assert after[|items|] == item;
    }
  }

  lemma SameAcceptable(admits: Schema, items: seq<Item>, published: seq<Item>)
    requires |published| == |items| <= LIMIT
    requires forall i :: 0 <= i < |items| ==> published[i] == items[i].(expectedUid := published[i].expectedUid)
    ensures Acceptable(admits, published) <==> AllAdmitted(admits, items)
  {
    assert forall i :: 0 <= i < |items| ==> (Admitted(admits, items[i]) <==> Admitted(admits, published[i]));
  }

  /** In every reachable world, what a step publishes is within the limit exactly when
      an operator published it, or a scaling step that found the pool's item in the
      newest revision or room to add it. And a member accepts it exactly when, besides,
      it admits each spec the operator sent, or the pool's spec with its new count and
      the specs the newest revision has of other deployments. */
  lemma PublishedAcceptable(moves: seq<Timed>, m: Move, now: int, k: (Id, int), admits: Schema)
    requires
      var w := Run(START, moves);
      k in Step(w, m, now).t.revisions && k !in w.t.revisions
    ensures
      var t, published := Run(START, moves).t, Step(Run(START, moves), m, now).t.revisions[k].payload;
      if m.PutDesired? then
        && |published| <= LIMIT
        && (Acceptable(admits, published) <==> AllAdmitted(admits, m.items))
      else
        && m.ObservePool? && m.observation.scaling.Some? && m.observation.pool in t.pools && m.cluster in t.clusters
        && var (newest, item) := (NewestItems(t, m.cluster), Scaled(t.pools[m.observation.pool], m.observation));
           && (|published| <= LIMIT <==> HasRoom(newest, item.name))
           && (Acceptable(admits, published) <==>
                 HasRoom(newest, item.name) && OthersAdmitted(admits, newest, item.name) && Admitted(admits, item))
  {
    hide Run, Run1, Served, NewestItems, WithItem, HasRoom, OthersAdmitted, AllAdmitted, Acceptable, Shaped, AllShaped,
         ItemsOk, Admitted;
    var w := Run(START, moves);
    TablesAfter(w.(clock := now), m);
    ServedPublishes(w.t, m, now, k);
    var published := Step(w, m, now).t.revisions[k].payload;
    if m.PutDesired? {
      RequestShaped(m.items);
      SameAcceptable(admits, m.items, published);
    } else {
      NewestShaped(moves, m.cluster);
      WithItemAcceptable(admits, NewestItems(w.t, m.cluster), Scaled(w.t.pools[m.observation.pool], m.observation));
    }
  }

  lemma NewestShaped(moves: seq<Timed>, c: Id)
    requires c in Run(START, moves).t.clusters
    ensures Shaped(NewestItems(Run(START, moves).t, c))
  {
    hide Run, ItemShape;
    RunShaped(moves);
  }

  // ---- truthful agents ----------------------------------------------------

  /** The agent reports an outcome as applied only after applying it, and it applies
      nothing it does not accept. */
  lemma AppliedIsAcceptable(config: Config, d: Delivery, objects: Objects, weather: seq<Weather>)
    requires |d.items| == |weather| && !Acceptable(config.admits, d.items)
    ensures Attempt(config, d, objects, weather) == (Failed(InvalidSpec), objects)
  {
    hide Name, Uid;
    if DeliveryOk(config, d) {
      forall i | 0 <= i < |d.items| ensures Admitted(config.admits, d.items[i]) {
        assert DeliveryItemOk(config, d.items[i]);
      }
    }
  }

  /** What each cluster's agent admits. */
  type Schemas = Id -> Schema

  predicate Honest(schemas: Schemas, t: Tables, m: Move) {
    m.ReportCluster? && m.report.outcome == Applied && (m.cluster, m.report.version as int) in t.revisions ==>
      Acceptable(schemas(m.cluster), t.revisions[(m.cluster, m.report.version as int)].payload)
  }

  ghost predicate AllHonest(schemas: Schemas, moves: seq<Timed>) {
    forall i :: 0 <= i < |moves| ==> Honest(schemas, Run(START, moves[..i]).t, moves[i].move)
  }

  /** What is acknowledged was acceptable. */
  ghost predicate AcknowledgedFits(schemas: Schemas, t: Tables) {
    forall c :: c in t.clusters && (c, t.clusters[c].acknowledged as int) in t.revisions ==>
      Acceptable(schemas(c), t.revisions[(c, t.clusters[c].acknowledged as int)].payload)
  }

  lemma StepAcknowledged(schemas: Schemas, w: World, m: Move, now: int)
    requires Safe(w) && FleetOk(w.t) && AcknowledgedFits(schemas, w.t) && Honest(schemas, w.t, m)
    ensures AcknowledgedFits(schemas, Step(w, m, now).t)
  {
    hide Safe, FleetOk, Step, Onward, AcknowledgedFits, Honest, Records;
    var after := Step(w, m, now).t;
    StepDelivers(w, m, now);
    forall c | c in after.clusters && (c, after.clusters[c].acknowledged as int) in after.revisions
      ensures Acceptable(schemas(c), after.revisions[(c, after.clusters[c].acknowledged as int)].payload)
    {
      if c !in w.t.clusters {
        NewCluster(w, m, now, c);
        assert false;
      } else {
        AcknowledgedRow(schemas, w, m, now, c);
      }
    }
    AllFit(schemas, after);
  }

  lemma AllFit(schemas: Schemas, t: Tables)
    requires forall c :: c in t.clusters && (c, t.clusters[c].acknowledged as int) in t.revisions ==>
               Acceptable(schemas(c), t.revisions[(c, t.clusters[c].acknowledged as int)].payload)
    ensures AcknowledgedFits(schemas, t)
  {
  }

  /** A cluster that was not there has nothing acknowledged, and no revision zero. */
  lemma NewCluster(w: World, m: Move, now: int, c: Id)
    requires Safe(w) && FleetOk(w.t) && c !in w.t.clusters && c in Step(w, m, now).t.clusters
    ensures (c, Step(w, m, now).t.clusters[c].acknowledged as int) !in Step(w, m, now).t.revisions
  {
    hide Safe, Run1, Served, WiresOk;
    StepDelivers(w, m, now);
    TablesAfter(w.(clock := now), m);
    if Unpooled(m) {
      UnpooledTables(w.t, m, now);
      UnpooledRow(w.t, m, now, c);
    } else {
      OldClusters(w.t, m, now, c);
    }
  }

  lemma UnpooledRow(t: Tables, m: Move, now: int, c: Id)
    requires ClustersOk(t) && Unpooled(m) && c !in t.clusters && c in Served(t, m, now).clusters
    ensures Served(t, m, now).clusters[c].acknowledged == 0 && (c, 0) !in Served(t, m, now).revisions
  {
    hide Authenticated, Name, ReportOk, LeaseLive, Reported;
  }

  lemma OldClusters(t: Tables, m: Move, now: int, c: Id)
    requires !Unpooled(m) && c !in t.clusters
    ensures c !in Served(t, m, now).clusters
  {
    hide Served;
    if m.PutDesired? {
      PutOldClusters(t, m, now, c);
    } else if m.ObservePool? {
      ObserveScales(t, m, now);
    } else if Pooled(m) {
      PooledOldClusters(t, m, now, c);
    } else {
      ClustersUntouched(t, m, now);
    }
  }

  lemma PutOldClusters(t: Tables, m: Move, now: int, c: Id)
    requires m.PutDesired? && c !in t.clusters
    ensures c !in Served(t, m, now).clusters
  {
    hide Find, GuardRow, GuardPasses, GuardedItems, GuardedPools, ItemsOk;
  }

  lemma PooledOldClusters(t: Tables, m: Move, now: int, c: Id)
    requires m.BindPool? || m.TransitionPool? || m.ObservationTasks?
    ensures Served(t, m, now).clusters == t.clusters
  {
    hide Authenticated, Name, TasksOk, DesiredSpec, DrainProven;
  }

  /** An acknowledged revision was there before, and was acknowledged before or is
      what an honest report acknowledges now. */
  lemma AcknowledgedRow(schemas: Schemas, w: World, m: Move, now: int, c: Id)
    requires Safe(w) && FleetOk(w.t) && AcknowledgedFits(schemas, w.t) && Honest(schemas, w.t, m)
    requires c in w.t.clusters && c in Step(w, m, now).t.clusters
    requires (c, Step(w, m, now).t.clusters[c].acknowledged as int) in Step(w, m, now).t.revisions
    ensures
      var after := Step(w, m, now).t;
      Acceptable(schemas(c), after.revisions[(c, after.clusters[c].acknowledged as int)].payload)
  {
    hide Safe, Step, WiresOk, BoundOnce, Records;
    var after := Step(w, m, now).t;
    StepDelivers(w, m, now);
    assert VersionsOk(w.t, c);
    if after.clusters[c].acknowledged != w.t.clusters[c].acknowledged {
      AcknowledgedByReport(w, m, now, c);
      RecordedUnderLease(w, m, now, c, m.report.lease);
      ReportedCluster(w, m, now, c, m.report.lease);
    }
  }

  lemma ReportedCluster(w: World, m: Move, now: int, c: Id, lease: Token)
    requires Records(w, m, now, c, lease)
    ensures m.ReportCluster? && m.cluster == c
  {
  }

  lemma {:induction false} RunAcknowledged(schemas: Schemas, moves: seq<Timed>)
    requires AllHonest(schemas, moves)
    ensures AcknowledgedFits(schemas, Run(START, moves).t)
  {
    hide Step, Safe, FleetOk, AcknowledgedFits, Honest;
    if moves == [] {
      AllFit(schemas, START.t);
    } else {
      var before, last := moves[..|moves| - 1], moves[|moves| - 1];
      HonestPrefix(schemas, moves);
      RunAcknowledged(schemas, before);
      RunSafe(before);
      RunDelivers(before);
      StepAcknowledged(schemas, Run(START, before), last.move, last.now);
    }
  }

  lemma HonestPrefix(schemas: Schemas, moves: seq<Timed>)
    requires moves != [] && AllHonest(schemas, moves)
    ensures AllHonest(schemas, moves[..|moves| - 1])
    ensures Honest(schemas, Run(START, moves[..|moves| - 1]).t, moves[|moves| - 1].move)
  {
    hide Run, Honest;
    var before := moves[..|moves| - 1];
    forall i | 0 <= i < |before| ensures Honest(schemas, Run(START, before[..i]).t, before[i].move) {
      assert before[..i] == moves[..i] && before[i] == moves[i];
    }
  }

  /** With agents that report only what they applied: a scaling step publishes within
      the limit exactly when the newest revision mentions the deployment or has room,
      and what its member accepts exactly when that also admits the pool's spec with
      its new count. */
  lemma ScaledAcceptableIff(schemas: Schemas, moves: seq<Timed>, m: Move, now: int, k: (Id, int))
    requires AllHonest(schemas, moves) && m.ObservePool?
    requires
      var w := Run(START, moves);
      k in Step(w, m, now).t.revisions && k !in w.t.revisions
    ensures
      var t, published := Run(START, moves).t, Step(Run(START, moves), m, now).t.revisions[k].payload;
      && m.observation.scaling.Some? && m.observation.pool in t.pools && m.cluster in t.clusters
      && var (newest, item) := (NewestItems(t, m.cluster), Scaled(t.pools[m.observation.pool], m.observation));
         var room := |newest| < LIMIT || Find(newest, item.name).Some?;
         && (|published| <= LIMIT <==> room)
         && (Acceptable(schemas(m.cluster), published) <==> room && Admitted(schemas(m.cluster), item))
  {
    hide Run, Run1, Served, Find, AllHonest, AcknowledgedFits, Admitted, WithItem, OthersAdmitted;
    var w := Run(START, moves);
    PublishedAcceptable(moves, m, now, k, schemas(m.cluster));
    TablesAfter(w.(clock := now), m);
    ServedPublishes(w.t, m, now, k);
    RunAcknowledged(schemas, moves);
    NewestAcceptable(schemas, w.t, m.cluster);
    OthersOf(schemas(m.cluster), NewestItems(w.t, m.cluster), w.t.pools[m.observation.pool].deployment);
  }

  /** A cluster that has acknowledged its newest revision has an acceptable one. */
  lemma NewestAcceptable(schemas: Schemas, t: Tables, c: Id)
    requires AcknowledgedFits(schemas, t) && c in t.clusters && t.clusters[c].desired == t.clusters[c].acknowledged
    ensures Acceptable(schemas(c), NewestItems(t, c))
  {
  }

  lemma OthersOf(admits: Schema, items: seq<Item>, name: Id)
    requires Acceptable(admits, items)
    ensures |items| <= LIMIT && OthersAdmitted(admits, items, name)
  {
  }

  // ---- not accepted -------------------------------------------------------

  /** The newest revision is not what the member accepts, and not acknowledged. */
  predicate Stuck(schemas: Schemas, t: Tables, c: Id) {
    && c in t.clusters && t.clusters[c].acknowledged < t.clusters[c].desired
    && !Acceptable(schemas(c), NewestItems(t, c))
  }

  predicate Replaces(m: Move, c: Id) {
    m.PutDesired? && m.cluster == c
  }

  /** Scaling waits for the acknowledgement, so only the operator moves on. */
  lemma DesiredStays(schemas: Schemas, t: Tables, m: Move, now: int, c: Id)
    requires ClustersOk(t) && Stuck(schemas, t, c) && !Replaces(m, c)
    ensures c in Served(t, m, now).clusters && Served(t, m, now).clusters[c].desired == t.clusters[c].desired
  {
    hide Served, NewestItems, ClustersOk;
    if m.PutDesired? {
      PutElsewhere(t, m, now, c);
    } else if m.ObservePool? {
      ObserveScales(t, m, now);
    } else if Unpooled(m) {
      Desires(t, m, now);
    } else if Pooled(m) {
      PooledOldClusters(t, m, now, c);
    } else {
      ClustersUntouched(t, m, now);
    }
  }

  lemma PutElsewhere(t: Tables, m: Move, now: int, c: Id)
    requires m.PutDesired? && m.cluster != c && c in t.clusters
    ensures c in Served(t, m, now).clusters && Served(t, m, now).clusters[c] == t.clusters[c]
  {
    hide Find, GuardRow, GuardPasses, GuardedItems, GuardedPools, ItemsOk;
  }

  lemma StepStuck(schemas: Schemas, w: World, m: Move, now: int, c: Id)
    requires Safe(w) && FleetOk(w.t) && AcknowledgedFits(schemas, w.t) && Honest(schemas, w.t, m)
    requires Stuck(schemas, w.t, c) && !Replaces(m, c)
    ensures Stuck(schemas, Step(w, m, now).t, c) && Step(w, m, now).t.clusters[c].desired == w.t.clusters[c].desired
  {
    hide Safe, Run1, Served, WiresOk, BoundOnce, Honest, AcknowledgedFits;
    var after := Step(w, m, now).t;
    StepDelivers(w, m, now);
    StepAcknowledged(schemas, w, m, now);
    TablesAfter(w.(clock := now), m);
    DesiredStays(schemas, w.t, m, now, c);
    SameNewest(schemas, w.t, after, c);
    StillUnacknowledged(schemas, after, c);
  }

  lemma SameNewest(schemas: Schemas, t: Tables, after: Tables, c: Id)
    requires Stuck(schemas, t, c) && Onward(t, after) && after.clusters[c].desired == t.clusters[c].desired
    ensures NewestItems(after, c) == NewestItems(t, c)
  {
  }

  lemma StillUnacknowledged(schemas: Schemas, t: Tables, c: Id)
    requires FleetOk(t) && AcknowledgedFits(schemas, t) && c in t.clusters && !Acceptable(schemas(c), NewestItems(t, c))
    ensures t.clusters[c].acknowledged < t.clusters[c].desired
  {
    hide WiresOk, BoundOnce;
    assert VersionsOk(t, c);
  }

  lemma {:induction false} RunStuck(schemas: Schemas, before: seq<Timed>, later: seq<Timed>, c: Id)
    requires AllHonest(schemas, before + later) && Stuck(schemas, Run(START, before).t, c)
    requires forall i :: 0 <= i < |later| ==> !Replaces(later[i].move, c)
    ensures Stuck(schemas, Run(START, before + later).t, c)
    ensures Run(START, before + later).t.clusters[c].desired == Run(START, before).t.clusters[c].desired
  {
    hide Step, Safe, FleetOk, AcknowledgedFits, Honest, Stuck, AllHonest;
    if later == [] {
      assert before + later == before;
      assert Stuck(schemas, Run(START, before).t, c);
    } else {
      var all, last := before + later, later[|later| - 1];
      assert all[..|all| - 1] == before + later[..|later| - 1] && all[|all| - 1] == last;
      HonestPrefix(schemas, all);
      RunStuck(schemas, before, later[..|later| - 1], c);
      RunSafe(all[..|all| - 1]);
      RunDelivers(all[..|all| - 1]);
      RunAcknowledged(schemas, all[..|all| - 1]);
      StepStuck(schemas, Run(START, all[..|all| - 1]), last.move, last.now, c);
    }
  }

  predicate Cover(weathers: seq<seq<Weather>>, d: Delivery) {
    forall i :: 0 <= i < |weathers| ==> |weathers[i]| == |d.items|
  }

  lemma {:induction false} RefusedAlways(config: Config, d: Delivery, objects: Objects, weathers: seq<seq<Weather>>)
    requires !DeliveryOk(config, d) && Cover(weathers, d)
    ensures Attempts(config, d, objects, weathers) == objects
  {
    hide DeliveryOk;
    if weathers != [] {
      RefusedAlways(config, d, objects, weathers[..|weathers| - 1]);
    }
  }

  /** No attempt applies anything, and no number of them changes anything. */
  ghost predicate NeverApplies(config: Config, d: Delivery) {
    && (forall objects, weather: seq<Weather> ::
          |weather| == |d.items| ==> Attempt(config, d, objects, weather) == (Failed(InvalidSpec), objects))
    && (forall objects, weathers :: Cover(weathers, d) ==> Attempts(config, d, objects, weathers) == objects)
  }

  lemma RefusedNeverApplies(config: Config, d: Delivery)
    requires !DeliveryOk(config, d)
    ensures NeverApplies(config, d)
  {
    hide DeliveryOk;
    forall objects, weathers | Cover(weathers, d) ensures Attempts(config, d, objects, weathers) == objects {
      RefusedAlways(config, d, objects, weathers);
    }
  }

  /** The agent of a registered cluster. */
  function MemberOf(schemas: Schemas, t: Tables, c: Id): Config
    requires c in t.clusters
  {
    Config(c, t.clusters[c].namespace, schemas(c))
  }

  /** A poll hands out what the cluster's own agent refuses exactly when the newest
      revision is stuck. */
  lemma RefusedIffStuck(schemas: Schemas, moves: seq<Timed>, c: Id, token: Token, lease: Token, now: int)
    requires
      var r := Poll(Run(START, moves).t, c, token, lease, now);
      r.Ok? && r.value.1.Some?
    ensures
      var t := Run(START, moves).t;
      var d := Poll(t, c, token, lease, now).value.1.value;
      && c in t.clusters && d.version == t.clusters[c].desired && d.items == NewestItems(t, c)
      && (!DeliveryOk(MemberOf(schemas, t, c), d) <==> Stuck(schemas, t, c))
  {
    hide Run, Authenticated, Acceptable, DeliveryOk;
    var t := Run(START, moves).t;
    AuthenticatedRow(t, c, token, now);
    PolledIsAccepted(moves, c, token, lease, now, MemberOf(schemas, t, c));
  }

  /** Once a poll hands out a revision that the cluster's agent refuses, every later
      poll hands out the same one until an operator publishes another state for the
      cluster, and no number of attempts at it changes anything on the member. */
  lemma RefusedIsStuck(schemas: Schemas, before: seq<Timed>, polled: (Token, Token, int), later: seq<Timed>, c: Id,
                       token: Token, lease: Token, now: int)
    requires
      var t := Run(START, before).t;
      var r := Poll(t, c, polled.0, polled.1, polled.2);
      r.Ok? && r.value.1.Some? && c in t.clusters && !DeliveryOk(MemberOf(schemas, t, c), r.value.1.value)
    requires AllHonest(schemas, before + later) && forall i :: 0 <= i < |later| ==> !Replaces(later[i].move, c)
    ensures
      var was, t := Run(START, before).t, Run(START, before + later).t;
      var r := Poll(t, c, token, lease, now);
      && Stuck(schemas, was, c) && Stuck(schemas, t, c)
      && (r.Ok? && r.value.1.Some? ==>
            var first, d := Poll(was, c, polled.0, polled.1, polled.2).value.1.value, r.value.1.value;
            d.version == first.version && d.items == first.items && NeverApplies(MemberOf(schemas, t, c), d))
  {
    hide Run, AllHonest, Authenticated, FleetOk, DeliveryOk, NeverApplies, Stuck, Poll, NewestItems;
    RefusedIffStuck(schemas, before, c, polled.0, polled.1, polled.2);
    var was, t := Run(START, before).t, Run(START, before + later).t;
    RunStuck(schemas, before, later, c);
    VersionsGoForward(before, later);
    SameNewest(schemas, was, t, c);
    var r := Poll(t, c, token, lease, now);
    if r.Ok? && r.value.1.Some? {
      RefusedIffStuck(schemas, before + later, c, token, lease, now);
      RefusedNeverApplies(MemberOf(schemas, t, c), r.value.1.value);
    }
  }
}
