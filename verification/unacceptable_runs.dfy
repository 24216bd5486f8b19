/** Two runs that publish what the member does not accept. A spec its schema rejects is
    published like any other. And a pool is bound, an operator publishes a hundred other
    items, and the pool's scale-up adds its own. */
module UnacceptableRuns {
  import opened Prelude
  import opened Rows
  import opened FleetRows
  import opened ClusterRules
  import opened TrafficRules
  import opened ProofRules
  import opened PoolRules
  import opened FleetWorld
  import opened DrainSafety
  import opened DrainRuns
  import opened ClusterDelivery
  import opened AgentPull
  import opened EndToEnd
  import opened Acceptance
  import opened Unacceptable

  // ---- a hundred other deployments ----------------------------------------

  function Letter(k: nat): char
    requires k < 10
  {
    ('a' as int + k) as char
  }

  /** Two letters count to a hundred. */
  function Numbered(i: nat, spec: Spec): Item
    requires i < LIMIT
  {
    Item([Letter(i / 10), Letter(i % 10)], Some(spec), None, None)
  }

  function Others(spec: Spec): (items: seq<Item>)
    ensures |items| == LIMIT
  {
    seq(LIMIT, (i: nat) requires i < LIMIT => Numbered(i, spec))
  }

  lemma OthersOk(spec: Spec, name: Id)
    requires |name| != 2
    ensures ItemsOk(Others(spec)) && Find(Others(spec), name).None?
  {
    var items := Others(spec);
    forall i, j | 0 <= i < j < |items| ensures items[i].name != items[j].name {
      assert items[i] == Numbered(i, spec) && items[j] == Numbered(j, spec);
      assert i == 10 * (i / 10) + i % 10 && j == 10 * (j / 10) + j % 10;
    }
    forall i | 0 <= i < |items| ensures ItemOk(items[i]) {
      assert items[i] == Numbered(i, spec);
    }
  }

  // ---- the parties --------------------------------------------------------

  datatype Setting = Setting(cluster: Id, namespace: Id, deployment: Id, pool: Id, model: Id, identity: Id, uid: Id)

  predicate SettingOk(s: Setting) {
    Name(s.cluster) && Name(s.namespace) && Name(s.deployment) && |s.deployment| != 2 && Uid(s.uid)
  }

  function SpecOf(s: Setting): Spec {
    Spec(s.model, s.identity, Managed(Some(1), Some(2)), Some(1))
  }

  function Only(s: Setting): seq<Item> {
    [Item(s.deployment, Some(SpecOf(s)), None, None)]
  }

  function RowAt(s: Setting, desired: I64, acknowledged: I64): Cluster {
    Cluster(s.namespace, 0, 1, 90 * DAY, None, desired, acknowledged, acknowledged, None, None, None)
  }

  function Bound(s: Setting): Pool {
    Pool(s.cluster, s.deployment, 1, PoolPending, 2, SpecOf(s), 1, None, None, None, None, None, None)
  }

  function Ready(s: Setting): Pool {
    Bound(s).(state := Active, generation := 2, uid := Some(s.uid), readyUntil := Some(45 * SECOND))
  }

  function Revised(items: seq<Item>): Revision {
    Revision(items, Digest(items))
  }

  // ---- single moves -------------------------------------------------------

  /** A server move of the run, which happens at time zero. */
  lemma Follow(moves: seq<Timed>, m: Move)
    requires Run(START, moves) == START.(t := Run(START, moves).t)
    requires Truthful(START, m) && (Unpooled(m) || Pooled(m))
    ensures
      var after := Run(START, moves + [Timed(m, 0)]);
      after == START.(t := Served(Run(START, moves).t, m, 0))
  {
    hide Served, Run1, Truthful;
    var w := Run(START, moves);
    SameTruth(w, m);
    ServedMove(w, m);
    NextWorld(moves, w, m, 0);
  }

  lemma NextWorld(moves: seq<Timed>, w: World, m: Move, now: int)
    requires Run(START, moves) == w
    ensures Run(START, moves + [Timed(m, now)]) == Step(w, m, now)
  {
    hide Step;
    assert (moves + [Timed(m, now)])[..|moves|] == moves;
  }

  lemma SameTruth(w: World, m: Move)
    requires w == START.(t := w.t) && (Unpooled(m) || Pooled(m))
    ensures Truthful(w, m) == Truthful(START, m) && !Waits(w, m)
  {
  }

  lemma ServedMove(w: World, m: Move)
    requires Unpooled(m) || Pooled(m)
    ensures Run1(w, m) == w.(t := Served(w.t, m, w.clock))
  {
    hide Served;
  }

  /** A report that does not speak of idleness, with nothing between its statements. */
  lemma Observes(moves: seq<Timed>, t: Tables, c: Id, token: Token, q: Observation)
    requires Run(START, moves) == START.(t := t) && !q.idle && PoolRules.CheckObservation(t, c, token, q, 0).Ok?
    ensures Run(START, moves + [Timed(Move.CheckObservation(c, token, q), 0), Timed(ObservePool(c, q, 0, {}), 0)])
         == START.(t := Served(t, ObservePool(c, q, 0, {}), 0))
  {
    hide Run, Step, PoolRules.CheckObservation, Served;
    var first, last := Move.CheckObservation(c, token, q), ObservePool(c, q, 0, {});
    var w := START.(t := t);
    NextWorld(moves, w, first, 0);
    CheckedThen(w, c, token, q);
    NextWorld(moves + [Timed(first, 0)], Step(w, first, 0), last, 0);
    assert moves + [Timed(first, 0)] + [Timed(last, 0)] == moves + [Timed(first, 0), Timed(last, 0)];
  }

  lemma CheckedThen(w: World, c: Id, token: Token, q: Observation)
    requires w == START.(t := w.t) && !q.idle && PoolRules.CheckObservation(w.t, c, token, q, 0).Ok?
    ensures Step(Step(w, Move.CheckObservation(c, token, q), 0), ObservePool(c, q, 0, {}), 0)
         == w.(t := Served(w.t, ObservePool(c, q, 0, {}), 0))
  {
    hide Served, PoolRules.CheckObservation;
    var mid := Step(w, Move.CheckObservation(c, token, q), 0);
    assert c in mid.checked && mid.checked[c].observation == q && mid.checked[c].since == 0;
    assert mid.checked - {c} == map[];
    NothingUncovered(w.t, ObservePool(c, q, 0, {}));
  }

  lemma NothingUncovered(t: Tables, m: Move)
    requires m.ObservePool? && m.cleared == {}
    ensures Uncovered(t, m) == {}
  {
    hide Conclude;
  }

  lemma PutUnmanaged(t: Tables, id: Id, expected: I64, items: seq<Item>)
    requires id in t.clusters && t.clusters[id].revoked.None? && t.clusters[id].desired == expected && ItemsOk(items)
    requires 0 <= expected < I64_MAX && forall p :: p in t.pools ==> Find(items, t.pools[p].deployment).None?
    ensures Served(t, PutDesired(id, expected, items, items), 0) == Published(t, id, expected + 1, items)
  {
    hide ItemsOk, Find, GuardRow;
    assert forall p :: !Concerned(t, id, items, p);
    assert GuardedPools(t, id, items, expected + 1) == t.pools;
    assert forall i :: 0 <= i < |items| ==> !ManagesItem(t, id, items, i);
  }

  /** The agent takes the newest revision and applies it. */
  lemma Delivering(t: Tables, s: Setting, desired: I64, acknowledged: I64, lease: Token)
    requires s.cluster in t.clusters && t.clusters[s.cluster] == RowAt(s, desired, acknowledged)
    requires acknowledged < desired
    requires (s.cluster, desired as int) in t.revisions
    requires t.revisions[(s.cluster, desired as int)] == Revised(NewestItems(t, s.cluster))
    ensures
      var report := ClusterReport(desired, Digest(NewestItems(t, s.cluster)), lease, Applied, None);
      var mid := Served(t, PollCluster(s.cluster, 0, lease), 0);
      Served(mid, FleetWorld.Move.ReportCluster(s.cluster, 0, report), 0)
        == t.(clusters := t.clusters[s.cluster := RowAt(s, desired, desired)])
  {
    hide ErrorCode;
  }

  lemma Asking(t: Tables, s: Setting, nonce: Token)
    requires s.cluster in t.clusters && t.clusters[s.cluster].revoked.None? && t.clusters[s.cluster].expires == 90 * DAY
    requires t.clusters[s.cluster].credential == 0 && t.views == map[] && t.pools.Keys == {s.pool}
    requires t.pools[s.pool].cluster == s.cluster && t.pools[s.pool].state != Retired
    requires t.pools[s.pool].desiredVersion <= t.clusters[s.cluster].acknowledged
    ensures Served(t, ObservationTasks(s.cluster, 0, map[s.pool := (nonce, None)]), 0)
         == t.(pools := map[s.pool := t.pools[s.pool].(idleAfter := None, nonce := Some(nonce),
                                                       nonceUntil := Some(60 * SECOND))])
  {
    assert TasksOk(t, s.cluster, map[s.pool := (nonce, None)]);
    assert forall p :: p in t.pools ==> p == s.pool;
  }

  // ---- the run, step by step ----------------------------------------------

  function TablesAt(s: Setting, desired: I64, acknowledged: I64, revisions: map<(Id, int), Revision>,
                    pools: map<Id, Pool>): Tables
  {
    Tables(map[s.cluster := RowAt(s, desired, acknowledged)], revisions, pools, map[], map[])
  }

  function First(s: Setting): map<(Id, int), Revision> {
    map[(s.cluster, 1) := Revised(Only(s))]
  }

  function Second(s: Setting): map<(Id, int), Revision> {
    First(s)[(s.cluster, 2) := Revised(Others(SpecOf(s)))]
  }

  /** The pool's item with its new count, behind a hundred others. */
  function TooMany(s: Setting): seq<Item> {
    Others(SpecOf(s)) + [Item(s.deployment, Some(SpecOf(s).(replicas := Some(2))), Some(s.uid), None)]
  }

  function ReadyReport(s: Setting): Observation {
    Observation(s.pool, 1, 2, Some(s.uid), true, false, None, 1, None)
  }

  function LoadReport(s: Setting): Observation {
    Observation(s.pool, 2, 4, Some(s.uid), true, false, None, 1, Some(ScaleEvidence(s.uid, s.uid, 2)))
  }

  function Report1(s: Setting): ClusterReport {
    ClusterReport(1, Digest(Only(s)), 1, Applied, None)
  }

  function Report2(s: Setting): ClusterReport {
    ClusterReport(2, Digest(Others(SpecOf(s))), 3, Applied, None)
  }

  /** Registers, publishes the pool's deployment and binds it. */
  function Opening(s: Setting): seq<Timed> {
    [Timed(RegisterCluster(s.cluster, s.namespace, 90, 0), 0),
     Timed(PutDesired(s.cluster, 0, Only(s), Only(s)), 0),
     Timed(PollCluster(s.cluster, 0, 1), 0),
     Timed(FleetWorld.Move.ReportCluster(s.cluster, 0, Report1(s)), 0),
     Timed(BindPool(Binding(s.cluster, s.deployment, 2, 1), s.pool), 0),
     Timed(ObservationTasks(s.cluster, 0, map[s.pool := (2, None)]), 0),
     Timed(Move.CheckObservation(s.cluster, 0, ReadyReport(s)), 0),
     Timed(ObservePool(s.cluster, ReadyReport(s), 0, {}), 0)]
  }

  /** Publishes a hundred other deployments, then the pool asks for more. */
  function Closing(s: Setting): seq<Timed> {
    [Timed(PutDesired(s.cluster, 1, Others(SpecOf(s)), Others(SpecOf(s))), 0),
     Timed(PollCluster(s.cluster, 0, 3), 0),
     Timed(FleetWorld.Move.ReportCluster(s.cluster, 0, Report2(s)), 0),
     Timed(ObservationTasks(s.cluster, 0, map[s.pool := (4, None)]), 0),
     Timed(Move.CheckObservation(s.cluster, 0, LoadReport(s)), 0),
     Timed(ObservePool(s.cluster, LoadReport(s), 0, {}), 0)]
  }

  lemma Registering(s: Setting)
    requires SettingOk(s)
    ensures Served(NO_TABLES, RegisterCluster(s.cluster, s.namespace, 90, 0), 0) == TablesAt(s, 0, 0, map[], map[])
  {
    hide Name;
  }

  lemma Publishing(s: Setting)
    requires SettingOk(s)
    ensures Served(TablesAt(s, 0, 0, map[], map[]), PutDesired(s.cluster, 0, Only(s), Only(s)), 0)
         == TablesAt(s, 1, 0, First(s), map[])
  {
    hide Name, Served;
    PutUnmanaged(TablesAt(s, 0, 0, map[], map[]), s.cluster, 0, Only(s));
  }

  lemma Binding1(s: Setting)
    requires SettingOk(s)
    ensures Served(TablesAt(s, 1, 1, First(s), map[]), BindPool(Binding(s.cluster, s.deployment, 2, 1), s.pool), 0)
         == TablesAt(s, 1, 1, First(s), map[s.pool := Bound(s)])
  {
    hide Name;
    assert Find(Only(s), s.deployment) == Some(0);
  }

  lemma Readying(s: Setting)
    requires SettingOk(s)
    ensures
      var asked := Bound(s).(nonce := Some(2), nonceUntil := Some(60 * SECOND));
      var t := TablesAt(s, 1, 1, First(s), map[s.pool := asked]);
      && PoolRules.CheckObservation(t, s.cluster, 0, ReadyReport(s), 0).Ok?
      && Served(t, ObservePool(s.cluster, ReadyReport(s), 0, {}), 0)
        == TablesAt(s, 1, 1, First(s), map[s.pool := Ready(s)])
  {
    hide Name, Uid;
  }

  lemma Republishing(s: Setting)
    requires SettingOk(s)
    ensures Served(TablesAt(s, 1, 1, First(s), map[s.pool := Ready(s)]),
                   PutDesired(s.cluster, 1, Others(SpecOf(s)), Others(SpecOf(s))), 0)
         == TablesAt(s, 2, 1, Second(s), map[s.pool := Ready(s)])
  {
    hide Name, Served, Others, Find, ItemsOk;
    OthersOk(SpecOf(s), s.deployment);
    PutUnmanaged(TablesAt(s, 1, 1, First(s), map[s.pool := Ready(s)]), s.cluster, 1, Others(SpecOf(s)));
  }

  lemma Growing(s: Setting)
    requires SettingOk(s)
    ensures
      var asked := Ready(s).(nonce := Some(4), nonceUntil := Some(60 * SECOND));
      var t := TablesAt(s, 2, 2, Second(s), map[s.pool := asked]);
      var after := Served(t, ObservePool(s.cluster, LoadReport(s), 0, {}), 0);
      && PoolRules.CheckObservation(t, s.cluster, 0, LoadReport(s), 0).Ok?
      && after.clusters == map[s.cluster := RowAt(s, 3, 2)]
      && after.revisions == Second(s)[(s.cluster, 3) := Revised(TooMany(s))]
  {
    hide Name, Uid, Others, Find;
    OthersOk(SpecOf(s), s.deployment);
  }

  // ---- the run ------------------------------------------------------------

  /** A poll and the report of what it handed out, in the tables of the run. */
  lemma Delivered(s: Setting, desired: I64, acknowledged: I64, lease: Token, items: seq<Item>,
                  revisions: map<(Id, int), Revision>, pools: map<Id, Pool>)
    requires acknowledged < desired
    requires (s.cluster, desired as int) in revisions && revisions[(s.cluster, desired as int)] == Revised(items)
    ensures
      var mid := Served(TablesAt(s, desired, acknowledged, revisions, pools), PollCluster(s.cluster, 0, lease), 0);
      var report := ClusterReport(desired, Digest(items), lease, Applied, None);
      Served(mid, FleetWorld.Move.ReportCluster(s.cluster, 0, report), 0)
        == TablesAt(s, desired, desired, revisions, pools)
  {
    hide Served;
    var t := TablesAt(s, desired, acknowledged, revisions, pools);
    Delivering(t, s, desired, acknowledged, lease);
    assert t.clusters[s.cluster := RowAt(s, desired, desired)] == map[s.cluster := RowAt(s, desired, desired)];
  }

  lemma Asked(s: Setting, version: I64, revisions: map<(Id, int), Revision>, row: Pool, nonce: Token)
    requires row.cluster == s.cluster && row.state != Retired && row.desiredVersion <= version && row.idleAfter.None?
    ensures Served(TablesAt(s, version, version, revisions, map[s.pool := row]),
                   ObservationTasks(s.cluster, 0, map[s.pool := (nonce, None)]), 0)
         == TablesAt(s, version, version, revisions,
                     map[s.pool := row.(nonce := Some(nonce), nonceUntil := Some(60 * SECOND))])
  {
    hide Served;
    Asking(TablesAt(s, version, version, revisions, map[s.pool := row]), s, nonce);
  }

  lemma Opened(s: Setting)
    requires SettingOk(s)
    ensures Run(START, Opening(s)) == START.(t := TablesAt(s, 1, 1, First(s), map[s.pool := Ready(s)]))
  {
    hide Run, Served, SettingOk, TablesAt, First, Bound, Ready, Only, Report1;
    var all := Opening(s);
    Starting(s, all);
    Follow(all[..4], all[4].move);
    assert all[..4] + [all[4]] == all[..5];
    Binding1(s);
    Follow(all[..5], all[5].move);
    assert all[..5] + [all[5]] == all[..6];
    BoundAsked(s);
    Readying(s);
    Observes(all[..6], Run(START, all[..6]).t, s.cluster, 0, ReadyReport(s));
    assert all[..6] + [all[6], all[7]] == all;
  }

  lemma BoundAsked(s: Setting)
    ensures Served(TablesAt(s, 1, 1, First(s), map[s.pool := Bound(s)]),
                   ObservationTasks(s.cluster, 0, map[s.pool := (2, None)]), 0)
         == TablesAt(s, 1, 1, First(s),
                     map[s.pool := Bound(s).(nonce := Some(2), nonceUntil := Some(60 * SECOND))])
  {
    hide Served;
    Asked(s, 1, First(s), Bound(s), 2);
  }

  lemma Starting(s: Setting, all: seq<Timed>)
    requires SettingOk(s) && all == Opening(s)
    ensures Run(START, all[..3]) == START.(t := Served(TablesAt(s, 1, 0, First(s), map[]), all[2].move, 0))
    ensures Run(START, all[..4]) == START.(t := TablesAt(s, 1, 1, First(s), map[]))
  {
    hide Run, Served, SettingOk, TablesAt, Only;
    Published1(s);
    Follow(all[..2], all[2].move);
    assert all[..2] + [all[2]] == all[..3];
    Follow(all[..3], all[3].move);
    assert all[..3] + [all[3]] == all[..4];
    Delivered(s, 1, 0, 1, Only(s), First(s), map[]);
  }

  lemma ReadyAsked(s: Setting)
    ensures Served(TablesAt(s, 2, 2, Second(s), map[s.pool := Ready(s)]),
                   ObservationTasks(s.cluster, 0, map[s.pool := (4, None)]), 0)
         == TablesAt(s, 2, 2, Second(s),
                     map[s.pool := Ready(s).(nonce := Some(4), nonceUntil := Some(60 * SECOND))])
  {
    hide Served;
    Asked(s, 2, Second(s), Ready(s), 4);
  }

  lemma Republished(s: Setting, all: seq<Timed>)
    requires SettingOk(s) && all == Opening(s) + Closing(s)
    ensures Run(START, all[..10])
         == START.(t := Served(TablesAt(s, 2, 1, Second(s), map[s.pool := Ready(s)]), all[9].move, 0))
    ensures Run(START, all[..11]) == START.(t := TablesAt(s, 2, 2, Second(s), map[s.pool := Ready(s)]))
  {
    hide Run, Served, SettingOk, TablesAt, Others, Ready;
    Opened(s);
    assert all[..8] == Opening(s);
    Follow(all[..8], all[8].move);
    assert all[..8] + [all[8]] == all[..9];
    Republishing(s);
    Follow(all[..9], all[9].move);
    assert all[..9] + [all[9]] == all[..10];
    Follow(all[..10], all[10].move);
    assert all[..10] + [all[10]] == all[..11];
    Delivered(s, 2, 1, 3, Others(SpecOf(s)), Second(s), map[s.pool := Ready(s)]);
  }

  lemma Overfilled(s: Setting)
    requires SettingOk(s)
    ensures
      var t := Run(START, Opening(s) + Closing(s)).t;
      && t.clusters == map[s.cluster := RowAt(s, 3, 2)]
      && t.revisions == Second(s)[(s.cluster, 3) := Revised(TooMany(s))]
  {
    hide Run, Served, SettingOk, TablesAt, Others, Ready, Second, TooMany;
    var all := Opening(s) + Closing(s);
    Republished(s, all);
    Follow(all[..11], all[11].move);
    assert all[..11] + [all[11]] == all[..12];
    ReadyAsked(s);
    Growing(s);
    Observes(all[..12], Run(START, all[..12]).t, s.cluster, 0, LoadReport(s));
    assert all[..12] + [all[12], all[13]] == all;
  }

  /** The schema has nothing against the deployment, with one replica or two, nor
      against the others. */
  predicate AdmitsAll(admits: Schema, s: Setting) {
    AllAdmitted(admits, Only(s)) && AllAdmitted(admits, Others(SpecOf(s))) && AllAdmitted(admits, TooMany(s))
  }

  /** Both reports of the run are about revisions that were acceptable. */
  lemma ReportsHonest(s: Setting, schemas: Schemas)
    requires SettingOk(s) && AdmitsAll(schemas(s.cluster), s)
    ensures AllHonest(schemas, Opening(s) + Closing(s))
  {
    hide Run, Served, SettingOk, AllAdmitted;
    var all := Opening(s) + Closing(s);
    Starting(s, Opening(s));
    Republished(s, all);
    PolledRevisions(TablesAt(s, 1, 0, First(s), map[]), s.cluster, 1);
    PolledRevisions(TablesAt(s, 2, 1, Second(s), map[s.pool := Ready(s)]), s.cluster, 3);
    assert all[..3] == Opening(s)[..3];
    forall i | 0 <= i < |all| ensures Honest(schemas, Run(START, all[..i]).t, all[i].move) {
    }
  }

  lemma PolledRevisions(t: Tables, c: Id, lease: Token)
    ensures Served(t, PollCluster(c, 0, lease), 0).revisions == t.revisions
  {
    hide Authenticated;
  }

  /** From the empty world, with truthful evidence and agents that report only what
      they applied, the control plane comes to desire a revision of a hundred and one
      items, each of which the schema admits. The agent does not take it. */
  lemma ScalingOverflows(s: Setting, schemas: Schemas)
    requires SettingOk(s) && AdmitsAll(schemas(s.cluster), s)
    ensures
      var t := Run(START, Opening(s) + Closing(s)).t;
      && AllHonest(schemas, Opening(s) + Closing(s))
      && Stuck(schemas, t, s.cluster)
      && |NewestItems(t, s.cluster)| == LIMIT + 1 && AllAdmitted(schemas(s.cluster), NewestItems(t, s.cluster))
  {
    hide Run, SettingOk, AllHonest, AllAdmitted;
    Overfilled(s);
    ReportsHonest(s, schemas);
    NewestIs(Run(START, Opening(s) + Closing(s)).t, s, 3, TooMany(s));
  }

  /** Registering a cluster and publishing one deployment is enough, when the schema
      rejects its spec or its name. */
  lemma RejectedSpecIsPublished(s: Setting, schemas: Schemas)
    requires SettingOk(s) && !schemas(s.cluster)(s.deployment, SpecOf(s))
    ensures
      var moves := Opening(s)[..2];
      && AllHonest(schemas, moves) && Stuck(schemas, Run(START, moves).t, s.cluster)
      && NewestItems(Run(START, moves).t, s.cluster) == Only(s)
  {
    hide Run, Served, SettingOk;
    var moves := Opening(s)[..2];
    Published1(s);
    NewestIs(Run(START, moves).t, s, 1, Only(s));
    assert !Admitted(schemas(s.cluster), Only(s)[0]);
  }

  lemma Published1(s: Setting)
    requires SettingOk(s)
    ensures Run(START, Opening(s)[..2]) == START.(t := TablesAt(s, 1, 0, First(s), map[]))
  {
    hide Run, Served, SettingOk, TablesAt, Only;
    var all := Opening(s);
    RunNothing();
    Follow([], all[0].move);
    assert [] + [all[0]] == all[..1];
    Registering(s);
    Follow(all[..1], all[1].move);
    assert all[..1] + [all[1]] == all[..2];
    Publishing(s);
  }

  lemma RunNothing()
    ensures Run(START, []) == START
  {
  }

  lemma NewestIs(t: Tables, s: Setting, desired: int, items: seq<Item>)
    requires s.cluster in t.clusters && t.clusters[s.cluster].desired == desired
    requires (s.cluster, desired) in t.revisions && t.revisions[(s.cluster, desired)] == Revised(items)
    ensures NewestItems(t, s.cluster) == items
  {
  }
}
