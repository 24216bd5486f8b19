/** A run in which a gateway of another cluster ends between the fence check of an
    observation and the clearing: its unknown work is cleared on a fence that says
    nothing about it, and the drain passes while its request is still running. */
module RaceRun {
  import opened Prelude
  import opened Rows
  import opened FleetRows
  import opened ClusterRules
  import opened TrafficRules
  import opened ProofRules
  import opened PoolRules
  import opened FleetWorld
  import opened DrainSafety
  import opened DrainRuns
  import opened ClusterDelivery
  import opened UnacceptableRuns

  // ---- the parties --------------------------------------------------------

  /** Two gateways of a cluster far from the pool's: one that ends first, one late. */
  datatype Race = Race(home: Setting, far: Id, first: Id, late: Id, pod: Id, runtime: Id)

  predicate RaceSetting(r: Race) {
    SettingOk(r.home) && Name(r.far) && r.far != r.home.cluster && r.first != r.late && Uid(r.pod)
  }

  function Pod(r: Race): Option<Identity> {
    Some(Identity(r.far, r.pod))
  }

  function FarRow(r: Race): Cluster {
    Cluster(r.home.namespace, 0, 1, 90 * DAY, None, 0, 0, 0, None, None, None)
  }

  function Clusters(r: Race): map<Id, Cluster> {
    map[r.home.cluster := RowAt(r.home, 1, 1), r.far := FarRow(r)]
  }

  function TablesOf(r: Race, row: Pool, sessions: map<Id, Session>, views: map<(Id, Id), View>): Tables {
    Tables(Clusters(r), First(r.home), map[r.home.pool := row], sessions, views)
  }

  /** A session of the far cluster at a sequence, with what is known of its end. */
  function SessionAt(r: Race, sequence: I64, runtime: Option<Id>, task: Option<Token>, end: Option<int>): Session {
    Session(Pod(r), runtime, end.Some?, sequence, 0, None, end, task, if task.Some? then Some(60 * SECOND) else None,
            false)
  }

  function Both(r: Race, a: Session, b: Session): map<Id, Session> {
    map[r.first := a, r.late := b]
  }

  function SnapshotOf(r: Race, session: Id, sequence: I64, accepting: bool): Snapshot {
    Snapshot(session, sequence, 0, map[r.home.pool := Control(2, accepting)])
  }

  const GRANTED := View(2, 0, 0, false)
  const UNKNOWN := View(2, 0, -1, true)
  const KNOWN := View(2, 0, 0, true)

  function Views(r: Race, a: View, b: View): map<(Id, Id), View> {
    map[(r.home.pool, r.first) := a, (r.home.pool, r.late) := b]
  }

  // ---- what each transaction makes of the tables --------------------------

  lemma FarRegisters(r: Race)
    requires RaceSetting(r)
    ensures Served(TablesAt(r.home, 1, 1, First(r.home), map[r.home.pool := Ready(r.home)]),
                   RegisterCluster(r.far, r.home.namespace, 90, 0), 0)
         == TablesOf(r, Ready(r.home), map[], map[])
  {
    hide Name;
    assert map[r.home.cluster := RowAt(r.home, 1, 1)][r.far := FarRow(r)] == Clusters(r);
  }

  lemma PodKnown(r: Race, row: Pool, sessions: map<Id, Session>, views: map<(Id, Id), View>)
    requires RaceSetting(r)
    ensures IdentityKnown(TablesOf(r, row, sessions, views), Pod(r), 0)
  {
    hide Name, First;
  }

  /** What a snapshot says of the one pool, to an attested gateway or another. */
  lemma SnapshotSays(r: Race, sessions: map<Id, Session>, views: map<(Id, Id), View>, ready: bool)
    requires RaceSetting(r)
    ensures Controls(TablesOf(r, Ready(r.home), sessions, views), ready, 0) == map[r.home.pool := Control(2, ready)]
  {
    hide First, Name, Uid;
    var t := TablesOf(r, Ready(r.home), sessions, views);
    assert ClusterVouches(t, Ready(r.home), 0);
  }

  /** The first fetch of a gateway: it is on record, and not yet told to accept. */
  lemma FirstFetch(r: Race, id: Id, sessions: map<Id, Session>)
    requires RaceSetting(r) && id !in sessions
    ensures TakeSnapshot(TablesOf(r, Ready(r.home), sessions, map[]), id, Pod(r), false, 0, 0)
         == Ok((TablesOf(r, Ready(r.home), sessions[id := SessionAt(r, 1, None, None, None)], map[]),
                SnapshotOf(r, id, 1, false)))
  {
    hide First, IdentityKnown, Controls, SnapshotViews, Ready, Clusters, RaceSetting;
    var t := TablesOf(r, Ready(r.home), sessions, map[]);
    PodKnown(r, Ready(r.home), sessions, map[]);
    SnapshotSays(r, sessions, map[], false);
    NoViews(t, id, r.home.pool);
  }

  lemma NoViews(t: Tables, id: Id, pool: Id)
    requires t.views == map[]
    ensures SnapshotViews(t, id, map[pool := Control(2, false)]) == map[]
  {
  }

  /** The second fetch, with its container attested: it is granted the pool. */
  lemma SecondFetch(r: Race, id: Id, sessions: map<Id, Session>, views: map<(Id, Id), View>)
    requires RaceSetting(r) && id in sessions && sessions[id] == SessionAt(r, 1, Some(r.runtime), None, None)
    requires (r.home.pool, id) !in views
    ensures TakeSnapshot(TablesOf(r, Ready(r.home), sessions, views), id, Pod(r), false, 0, 0)
         == Ok((TablesOf(r, Ready(r.home), sessions[id := SessionAt(r, 2, Some(r.runtime), None, None)],
                         views[(r.home.pool, id) := GRANTED]),
                SnapshotOf(r, id, 2, true)))
  {
    hide First, IdentityKnown, Controls, SnapshotViews, Ready, Clusters, RaceSetting;
    var t := TablesOf(r, Ready(r.home), sessions, views);
    PodKnown(r, Ready(r.home), sessions, views);
    SnapshotSays(r, sessions, views, true);
    NewView(r, id, sessions, views);
  }

  lemma NewView(r: Race, id: Id, sessions: map<Id, Session>, views: map<(Id, Id), View>)
    requires RaceSetting(r) && (r.home.pool, id) !in views
    ensures SnapshotViews(TablesOf(r, Ready(r.home), sessions, views), id, map[r.home.pool := Control(2, true)])
         == views[(r.home.pool, id) := GRANTED]
  {
    hide SnapshotViews, Controls, First;
    var t := TablesOf(r, Ready(r.home), sessions, views);
    var x := SnapshotOf(r, id, 2, true);
    SnapshotSays(r, sessions, views, true);
    TakenViews(t, x, true, 0);
    OneGranted(t, SnapshotViews(t, id, x.pools), x, r.home.pool);
  }

  lemma OneGranted(t: Tables, views: map<(Id, Id), View>, x: Snapshot, pool: Id)
    requires ViewsFetched(t, views, x) && x.pools == map[pool := Control(2, true)] && (pool, x.session) !in t.views
    ensures views == t.views[(pool, x.session) := GRANTED]
  {
  }

  lemma Tasked(r: Race, row: Pool, views: map<(Id, Id), View>, sequence: I64, runtime: Option<Id>)
    requires RaceSetting(r)
    ensures
      var a := SessionAt(r, sequence, runtime, None, None);
      var b := SessionAt(r, sequence, runtime, Some(1), None);
      Served(TablesOf(r, row, Both(r, a, a), views), GatewayProofTasks(r.far, 0, BothTasks(r)), 0)
        == TablesOf(r, row, Both(r, b, b), views)
  {
    hide Name, Uid, First, ProofNonces;
    var a := SessionAt(r, sequence, runtime, None, None);
    NoncesOpen(r, row, views, a);
  }

  function BothTasks(r: Race): map<Id, Token> {
    map[r.first := 1, r.late := 1]
  }

  lemma NoncesOpen(r: Race, row: Pool, views: map<(Id, Id), View>, a: Session)
    requires a.identity == Pod(r) && !a.proofComplete
    ensures ProofNonces(TablesOf(r, row, Both(r, a, a), views), r.far, BothTasks(r))
  {
  }

  lemma Attests(r: Race, id: Id, sessions: map<Id, Session>)
    requires RaceSetting(r) && id in sessions && sessions[id] == SessionAt(r, 1, None, Some(1), None)
    ensures Served(TablesOf(r, Ready(r.home), sessions, map[]),
                   ProveGateway(r.far, 0, GatewayProof(id, 1, Bound, Some(r.runtime))), 0)
         == TablesOf(r, Ready(r.home), sessions[id := SessionAt(r, 1, Some(r.runtime), None, None)], map[])
  {
    hide Name, Uid, First;
  }

  /** The end of a gateway at a time, with the views it leaves unknown. */
  lemma Ends1(r: Race, row: Pool, id: Id, sessions: map<Id, Session>, views: map<(Id, Id), View>, now: int)
    requires RaceSetting(r) && id in sessions && sessions[id] == SessionAt(r, 2, Some(r.runtime), Some(1), None)
    requires 0 <= now < SECOND
    ensures Served(TablesOf(r, row, sessions, views),
                   ProveGateway(r.far, 0, GatewayProof(id, 1, Terminated, Some(r.runtime))), now)
         == TablesOf(r, row, sessions[id := SessionAt(r, 2, Some(r.runtime), None, Some(now))],
                     OrphanedViews(TablesOf(r, row, sessions, views), id))
  {
    hide Name, Uid, First, OrphanedViews;
  }

  function Closed3(r: Race): Pool {
    Ready(r.home).(state := Draining, generation := 3)
  }

  lemma Drains(r: Race, sessions: map<Id, Session>, views: map<(Id, Id), View>)
    ensures Served(TablesOf(r, Ready(r.home), sessions, views), TransitionPool(r.home.pool, 2, Drain), 0)
         == TablesOf(r, Closed3(r), sessions, views)
  {
    hide First;
  }

  function AskedFor(r: Race): Pool {
    Closed3(r).(idleAfter := Some(0), nonce := Some(1), nonceUntil := Some(1 + 60 * SECOND))
  }

  lemma Asks(r: Race, b: Session)
    requires RaceSetting(r)
    ensures
      var a := SessionAt(r, 2, Some(r.runtime), None, Some(0));
      Served(TablesOf(r, Closed3(r), Both(r, a, b), Views(r, UNKNOWN, GRANTED)),
             ObservationTasks(r.home.cluster, 0, map[r.home.pool := (1, Some(0))]), 1)
        == TablesOf(r, AskedFor(r), Both(r, a, b), Views(r, UNKNOWN, GRANTED))
  {
    hide Name, Uid, First, TasksOk;
    Askable(r, b);
  }

  /** The first gateway's end is the fence. */
  lemma Askable(r: Race, b: Session)
    requires RaceSetting(r)
    ensures
      var a := SessionAt(r, 2, Some(r.runtime), None, Some(0));
      var t := TablesOf(r, Closed3(r), Both(r, a, b), Views(r, UNKNOWN, GRANTED));
      r.home.cluster in t.clusters && TasksOk(t, r.home.cluster, map[r.home.pool := (1, Some(0))])
  {
    hide Name, Uid, First;
    var a := SessionAt(r, 2, Some(r.runtime), None, Some(0));
    var t := TablesOf(r, Closed3(r), Both(r, a, b), Views(r, UNKNOWN, GRANTED));
    assert Orphan(t, r.home.pool, (r.home.pool, r.first));
  }

  function IdleReport(r: Race): Observation {
    Observation(r.home.pool, 3, 1, None, false, true, Some(0), 1, None)
  }

  lemma FencePasses(r: Race, b: Session)
    requires RaceSetting(r)
    ensures
      var a := SessionAt(r, 2, Some(r.runtime), None, Some(0));
      var t := TablesOf(r, AskedFor(r), Both(r, a, b), Views(r, UNKNOWN, GRANTED));
      PoolRules.CheckObservation(t, r.home.cluster, 0, IdleReport(r), 1).Ok?
  {
    hide Name, Uid, First;
    var a := SessionAt(r, 2, Some(r.runtime), None, Some(0));
    var t := TablesOf(r, AskedFor(r), Both(r, a, b), Views(r, UNKNOWN, GRANTED));
    assert Orphan(t, r.home.pool, (r.home.pool, r.first));
  }

  /** Both views are cleared, the second one on a fence before its gateway's end. */
  lemma Clears(r: Race)
    requires RaceSetting(r)
    ensures Clearing(TablesOf(r, AskedFor(r), Ended(r), Views(r, UNKNOWN, UNKNOWN)), IdleReport(r), 1)
         == Ok(BothViews(r))
  {
    hide Name, Uid, First, Clusters;
    var t := TablesOf(r, AskedFor(r), Ended(r), Views(r, UNKNOWN, UNKNOWN));
    assert UnknownViews(Seen(t, IdleReport(r), 1), r.home.pool) == BothViews(r);
  }

  lemma Concludes(r: Race)
    requires RaceSetting(r)
    ensures
      var t := TablesOf(r, AskedFor(r), Ended(r), Views(r, UNKNOWN, UNKNOWN));
      && Holds(t, r.home.cluster, IdleReport(r)) && Conclude(t, IdleReport(r), 1, BothViews(r)).Ok?
      && Conclude(t, IdleReport(r), 1, BothViews(r)).value.0
         == TablesOf(r, Closed3(r).(idleAfter := Some(0), readyUntil := None), Ended(r), Views(r, KNOWN, KNOWN))
  {
    hide Name, Uid, First, ClearedAt;
    var t := TablesOf(r, AskedFor(r), Ended(r), Views(r, UNKNOWN, UNKNOWN));
    AllKnown(r);
  }

  lemma AllKnown(r: Race)
    ensures ClearedAt(Views(r, UNKNOWN, UNKNOWN), BothViews(r)) == Views(r, KNOWN, KNOWN)
  {
  }

  lemma OneUncovered(r: Race)
    requires RaceSetting(r)
    ensures
      var t := TablesOf(r, AskedFor(r), Ended(r), Views(r, UNKNOWN, UNKNOWN));
      Uncovered(t, ObservePool(r.home.cluster, IdleReport(r), 1, BothViews(r))) == {(r.home.pool, r.late)}
  {
    hide Name, Uid, First, Conclude, Clusters, Views;
    var t := TablesOf(r, AskedFor(r), Ended(r), Views(r, UNKNOWN, UNKNOWN));
    Concludes(r);
    assert Covered(t, IdleReport(r), (r.home.pool, r.first)) && !Covered(t, IdleReport(r), (r.home.pool, r.late));
  }

  function Ended(r: Race): map<Id, Session> {
    Both(r, SessionAt(r, 2, Some(r.runtime), None, Some(0)), SessionAt(r, 2, Some(r.runtime), None, Some(1)))
  }

  function BothViews(r: Race): set<(Id, Id)> {
    {(r.home.pool, r.first), (r.home.pool, r.late)}
  }

  lemma Finishes(r: Race)
    requires RaceSetting(r)
    ensures
      var row := Closed3(r).(idleAfter := Some(0), readyUntil := None);
      Served(TablesOf(r, row, Ended(r), Views(r, KNOWN, KNOWN)), TransitionPool(r.home.pool, 3, FinishDrain), 1)
        == TablesOf(r, row.(state := Drained), Ended(r), Views(r, KNOWN, KNOWN))
  {
    hide First;
  }

  // ---- moves of the world -------------------------------------------------

  predicate Transacts(m: Move) {
    Unpooled(m) || Pooled(m) || m.GatewayProofTasks? || m.ProveGateway?
  }

  lemma Serving(w: World, m: Move, now: int)
    requires w.checked == map[] && w.clock <= now && Truthful(w, m) && Transacts(m)
    ensures Step(w, m, now) == w.(clock := now, t := Served(w.t, m, now))
  {
    hide Served, Truthful;
  }

  lemma Fetching(w: World, id: Id, identity: Option<Identity>, now: int)
    requires w.checked == map[] && w.clock <= now && id in w.gateways
    requires TakeSnapshot(w.t, id, identity, false, 0, now).Ok?
    ensures
      var (after, x) := TakeSnapshot(w.t, id, identity, false, 0, now).value;
      Step(w, FetchSnapshot(id, identity, false, 0), now) == w.(clock := now, t := after, sent := w.sent + {x})
  {
    hide TakeSnapshot;
  }

  const STARTED := Gateway(None, map[], false, false)

  ghost function WorldOf(r: Race, t: Tables, a: Gateway, b: Gateway, sent: set<Snapshot>, idle: map<Id, int>,
                         clock: int): World
  {
    World(t, map[r.first := a, r.late := b], sent, {}, idle, clock, map[], {})
  }

  lemma Booting(r: Race, w: World)
    requires RaceSetting(r) && w == START.(t := w.t)
    ensures Step(Step(w, Boot(r.first), 0), Boot(r.late), 0) == WorldOf(r, w.t, STARTED, STARTED, {}, map[], 0)
  {
    assert map[r.first := STARTED][r.late := STARTED] == map[r.first := STARTED, r.late := STARTED];
  }

  // ---- the run ------------------------------------------------------------

  /** Both gateways start and are put on record. */
  lemma Introduced(r: Race) returns (moves: seq<Timed>, sent: set<Snapshot>)
    requires RaceSetting(r)
    ensures
      var a := SessionAt(r, 1, None, None, None);
      Run(START, moves)
        == WorldOf(r, TablesOf(r, Ready(r.home), Both(r, a, a), map[]), STARTED, STARTED, sent,
                   map[], 0)
  {
    hide Run, Step, Served, TakeSnapshot, TablesOf, SessionAt, TablesAt, Opening;
    var a := SessionAt(r, 1, None, None, None);
    moves := Opening(r.home);
    Opened(r.home);
    var w := Run(START, moves);
    var m := RegisterCluster(r.far, r.home.namespace, 90, 0);
    Serving(w, m, 0);
    FarRegisters(r);
    NextWorld(moves, w, m, 0);
    moves, w := moves + [Timed(m, 0)], Step(w, m, 0);
    Booting(r, w);
    NextWorld(moves, w, Boot(r.first), 0);
    moves, w := moves + [Timed(Boot(r.first), 0)], Step(w, Boot(r.first), 0);
    NextWorld(moves, w, Boot(r.late), 0);
    moves, w := moves + [Timed(Boot(r.late), 0)], Step(w, Boot(r.late), 0);
    sent := {};
    FirstFetch(r, r.first, map[]);
    moves, w, sent := Fetched1(r, moves, w, r.first, sent);
    FirstFetch(r, r.late, map[r.first := a]);
    moves, w, sent := Fetched1(r, moves, w, r.late, sent);
    assert map[][r.first := a] == map[r.first := a] && map[r.first := a][r.late := a] == Both(r, a, a);
  }

  /** One fetch at time zero. */
  lemma Fetched1(r: Race, moves: seq<Timed>, w: World, id: Id, sent: set<Snapshot>)
    returns (more: seq<Timed>, after: World, outgoing: set<Snapshot>)
    requires Run(START, moves) == w && w.checked == map[] && w.clock <= 0 && w.sent == sent && id in w.gateways
    requires TakeSnapshot(w.t, id, Pod(r), false, 0, 0).Ok?
    ensures Run(START, more) == after && sent <= outgoing
    ensures TakeSnapshot(w.t, id, Pod(r), false, 0, 0).value.1 in outgoing
    ensures after == w.(clock := 0, t := TakeSnapshot(w.t, id, Pod(r), false, 0, 0).value.0, sent := outgoing)
  {
    hide Run, Step, TakeSnapshot;
    var m := FetchSnapshot(id, Pod(r), false, 0);
    Fetching(w, id, Pod(r), 0);
    NextWorld(moves, w, m, 0);
    more, after := moves + [Timed(m, 0)], Step(w, m, 0);
    outgoing := sent + {TakeSnapshot(w.t, id, Pod(r), false, 0, 0).value.1};
  }

  /** One transaction. */
  lemma Served1(moves: seq<Timed>, w: World, m: Move, now: int) returns (more: seq<Timed>, after: World)
    requires Run(START, moves) == w && w.checked == map[] && w.clock <= now && Truthful(w, m) && Transacts(m)
    ensures Run(START, more) == after && after == w.(clock := now, t := Served(w.t, m, now))
  {
    hide Run, Step, Served, Truthful;
    Serving(w, m, now);
    NextWorld(moves, w, m, now);
    more, after := moves + [Timed(m, now)], Step(w, m, now);
  }

  /** Their containers are attested, and both are granted the pool. */
  lemma Granted(r: Race) returns (moves: seq<Timed>, sent: set<Snapshot>)
    requires RaceSetting(r)
    ensures SnapshotOf(r, r.late, 2, true) in sent
    ensures
      var a := SessionAt(r, 2, Some(r.runtime), None, None);
      Run(START, moves)
        == WorldOf(r, TablesOf(r, Ready(r.home), Both(r, a, a), Views(r, GRANTED, GRANTED)), STARTED, STARTED, sent,
                   map[], 0)
  {
    hide Run, Step, Served, TakeSnapshot, TablesOf, SessionAt;
    moves, sent := Introduced(r);
    var w := Run(START, moves);
    Tasked(r, Ready(r.home), map[], 1, None);
    moves, w := Served1(moves, w, GatewayProofTasks(r.far, 0, BothTasks(r)), 0);
    var b, c := SessionAt(r, 1, None, Some(1), None), SessionAt(r, 1, Some(r.runtime), None, None);
    Attests(r, r.first, Both(r, b, b));
    moves, w := Served1(moves, w, ProveGateway(r.far, 0, GatewayProof(r.first, 1, Bound, Some(r.runtime))), 0);
    assert Both(r, b, b)[r.first := c] == Both(r, c, b);
    Attests(r, r.late, Both(r, c, b));
    moves, w := Served1(moves, w, ProveGateway(r.far, 0, GatewayProof(r.late, 1, Bound, Some(r.runtime))), 0);
    assert Both(r, c, b)[r.late := c] == Both(r, c, c);
    var d := SessionAt(r, 2, Some(r.runtime), None, None);
    SecondFetch(r, r.first, Both(r, c, c), map[]);
    moves, w, sent := Fetched1(r, moves, w, r.first, sent);
    var one := map[(r.home.pool, r.first) := GRANTED];
    assert Both(r, c, c)[r.first := d] == Both(r, d, c) && map[][(r.home.pool, r.first) := GRANTED] == one;
    SecondFetch(r, r.late, Both(r, d, c), one);
    moves, w, sent := Fetched1(r, moves, w, r.late, sent);
    assert Both(r, d, c)[r.late := d] == Both(r, d, d);
    assert one[(r.home.pool, r.late) := GRANTED] == Views(r, GRANTED, GRANTED);
  }

  function Working(r: Race, work: map<Id, nat>, dead: bool): Gateway {
    Gateway(Some(SnapshotOf(r, r.late, 2, true)), work, false, dead)
  }

  const STOPPED := STARTED.(dead := true)

  lemma Installing(r: Race, t: Tables, sent: set<Snapshot>)
    requires RaceSetting(r) && SnapshotOf(r, r.late, 2, true) in sent
    ensures Step(WorldOf(r, t, STARTED, STARTED, sent, map[], 0), Install(SnapshotOf(r, r.late, 2, true)), 0)
         == WorldOf(r, t, STARTED, Working(r, map[], false), sent, map[], 0)
  {
    assert map[r.first := STARTED, r.late := STARTED][r.late := Working(r, map[], false)]
        == map[r.first := STARTED, r.late := Working(r, map[], false)];
  }

  lemma FirstDies(r: Race, t: Tables, sent: set<Snapshot>)
    requires RaceSetting(r)
    ensures Step(WorldOf(r, t, STARTED, Working(r, map[], false), sent, map[], 0), Die(r.first), 0)
         == WorldOf(r, t, STOPPED, Working(r, map[], false), sent, map[], 0)
  {
    assert map[r.first := STARTED, r.late := Working(r, map[], false)][r.first := STOPPED]
        == map[r.first := STOPPED, r.late := Working(r, map[], false)];
  }

  lemma SeenIdle(r: Race, t: Tables, sent: set<Snapshot>)
    requires RaceSetting(r)
    ensures Step(WorldOf(r, t, STOPPED, Working(r, map[], false), sent, map[], 0), SeeIdle(r.home.pool), 1)
         == WorldOf(r, t, STOPPED, Working(r, map[], false), sent, map[r.home.pool := 1], 1)
  {
    var w := WorldOf(r, t, STOPPED, Working(r, map[], false), sent, map[], 0);
    assert NoWork(w.(clock := 1), r.home.pool);
  }

  /** Its old snapshot still accepts: a request starts, and the process ends. */
  lemma LateEnters(r: Race, t: Tables, sent: set<Snapshot>, idle: map<Id, int>)
    requires RaceSetting(r)
    ensures Step(WorldOf(r, t, STOPPED, Working(r, map[], false), sent, idle, 1), Enter(r.late, r.home.pool), 1)
         == WorldOf(r, t, STOPPED, Working(r, map[r.home.pool := 1], false), sent, idle, 1)
  {
    assert MayEnter(Working(r, map[], false), r.home.pool);
    assert map[][r.home.pool := 1] == map[r.home.pool := 1];
    LateIs(r, Working(r, map[], false), Working(r, map[r.home.pool := 1], false));
  }

  lemma LateDies(r: Race, t: Tables, sent: set<Snapshot>, idle: map<Id, int>)
    requires RaceSetting(r)
    ensures Step(WorldOf(r, t, STOPPED, Working(r, map[r.home.pool := 1], false), sent, idle, 1), Die(r.late), 1)
         == WorldOf(r, t, STOPPED, Working(r, map[r.home.pool := 1], true), sent, idle, 1)
  {
    LateIs(r, Working(r, map[r.home.pool := 1], false), Working(r, map[r.home.pool := 1], true));
  }

  lemma LateIs(r: Race, was: Gateway, g: Gateway)
    requires r.first != r.late
    ensures map[r.first := STOPPED, r.late := was][r.late := g] == map[r.first := STOPPED, r.late := g]
  {
  }

  lemma FirstOrphaned(r: Race, row: Pool, sessions: map<Id, Session>)
    requires RaceSetting(r)
    ensures OrphanedViews(TablesOf(r, row, sessions, Views(r, GRANTED, GRANTED)), r.first) == Views(r, UNKNOWN, GRANTED)
    ensures OrphanedViews(TablesOf(r, row, sessions, Views(r, UNKNOWN, GRANTED)), r.late) == Views(r, UNKNOWN, UNKNOWN)
  {
    hide First, Clusters, OrphanedViews, Views;
    OrphanedFirst(r, TablesOf(r, row, sessions, Views(r, GRANTED, GRANTED)), GRANTED, GRANTED);
    OrphanedLate(r, TablesOf(r, row, sessions, Views(r, UNKNOWN, GRANTED)), UNKNOWN, GRANTED);
  }

  lemma OrphanedFirst(r: Race, t: Tables, a: View, b: View)
    requires r.first != r.late && t.views == Views(r, a, b)
    ensures OrphanedViews(t, r.first) == Views(r, a.(retired := true, active := -1), b)
  {
    assert OrphanedViews(t, r.first).Keys == Views(r, a, b).Keys;
  }

  lemma OrphanedLate(r: Race, t: Tables, a: View, b: View)
    requires r.first != r.late && t.views == Views(r, a, b)
    ensures OrphanedViews(t, r.late) == Views(r, a, b.(retired := true, active := -1))
  {
    assert OrphanedViews(t, r.late).Keys == Views(r, a, b).Keys;
  }

  function LateTasked(r: Race): Session {
    SessionAt(r, 2, Some(r.runtime), Some(1), None)
  }

  function FirstEnded(r: Race): Session {
    SessionAt(r, 2, Some(r.runtime), None, Some(0))
  }

  /** The first gateway ends, the pool is drained, and its entry is seen idle. */
  lemma Drained1(r: Race) returns (moves: seq<Timed>, sent: set<Snapshot>)
    requires RaceSetting(r)
    ensures Run(START, moves)
         == WorldOf(r, TablesOf(r, Closed3(r), Both(r, FirstEnded(r), LateTasked(r)), Views(r, UNKNOWN, GRANTED)),
                    STOPPED, Working(r, map[], false), sent, map[r.home.pool := 1], 1)
  {
    hide Run, Step, Served, TablesOf, SessionAt, OrphanedViews, Closed3, Ready, Views;
    moves, sent := Granted(r);
    var w := Run(START, moves);
    var views := Views(r, GRANTED, GRANTED);
    Tasked(r, Ready(r.home), views, 2, Some(r.runtime));
    moves, w := Served1(moves, w, GatewayProofTasks(r.far, 0, BothTasks(r)), 0);
    var b := LateTasked(r);
    Installing(r, w.t, sent);
    NextWorld(moves, w, Install(SnapshotOf(r, r.late, 2, true)), 0);
    var install := Install(SnapshotOf(r, r.late, 2, true));
    moves, w := moves + [Timed(install, 0)], Step(w, install, 0);
    FirstDies(r, w.t, sent);
    NextWorld(moves, w, Die(r.first), 0);
    moves, w := moves + [Timed(Die(r.first), 0)], Step(w, Die(r.first), 0);
    Ends1(r, Ready(r.home), r.first, Both(r, b, b), views, 0);
    FirstOrphaned(r, Ready(r.home), Both(r, b, b));
    moves, w := Served1(moves, w, ProveGateway(r.far, 0, GatewayProof(r.first, 1, Terminated, Some(r.runtime))), 0);
    assert Both(r, b, b)[r.first := FirstEnded(r)] == Both(r, FirstEnded(r), b);
    Drains(r, Both(r, FirstEnded(r), b), Views(r, UNKNOWN, GRANTED));
    moves, w := Served1(moves, w, TransitionPool(r.home.pool, 2, Drain), 0);
    SeenIdle(r, w.t, sent);
    NextWorld(moves, w, SeeIdle(r.home.pool), 1);
    moves := moves + [Timed(SeeIdle(r.home.pool), 1)];
  }

  // ---- the race -----------------------------------------------------------

  /** The world of the race, with the observation under way as given. */
  ghost function RaceWorld(r: Race, t: Tables, sent: set<Snapshot>, checked: map<Id, Checked>, early: set<(Id, Id)>)
    : World
  {
    World(t, map[r.first := STOPPED, r.late := Working(r, map[r.home.pool := 1], true)], sent, {},
          map[r.home.pool := 1], 1, checked, early)
  }

  function Before(r: Race): Tables {
    TablesOf(r, AskedFor(r), Both(r, FirstEnded(r), LateTasked(r)), Views(r, UNKNOWN, GRANTED))
  }

  function After(r: Race): Tables {
    TablesOf(r, AskedFor(r), Ended(r), Views(r, UNKNOWN, UNKNOWN))
  }

  function InFlight(r: Race, cleared: Option<set<(Id, Id)>>): Checked {
    Checked(IdleReport(r), 1, AskedFor(r), RowAt(r.home, 1, 1), {(r.home.pool, r.first)}, cleared)
  }

  lemma Checking(r: Race, sent: set<Snapshot>)
    requires RaceSetting(r)
    ensures Step(RaceWorld(r, Before(r), sent, map[], {}), Move.CheckObservation(r.home.cluster, 0, IdleReport(r)), 1)
         == RaceWorld(r, Before(r), sent, map[r.home.cluster := InFlight(r, None)], {})
  {
    hide PoolRules.CheckObservation, First;
    FencePasses(r, LateTasked(r));
    assert Orphans(Before(r), r.home.pool) == {(r.home.pool, r.first)};
  }

  /** The far cluster's row is free: the second gateway's end commits. */
  lemma Overtaking(r: Race, sent: set<Snapshot>)
    requires RaceSetting(r)
    ensures Step(RaceWorld(r, Before(r), sent, map[r.home.cluster := InFlight(r, None)], {}),
                 ProveGateway(r.far, 0, GatewayProof(r.late, 1, Terminated, Some(r.runtime))), 1)
         == RaceWorld(r, After(r), sent, map[r.home.cluster := InFlight(r, None)], {})
  {
    hide Served, First, TablesOf, InFlight, OrphanedViews, AskedFor, SessionAt, Views;
    var was := Both(r, FirstEnded(r), LateTasked(r));
    Ends1(r, AskedFor(r), r.late, was, Views(r, UNKNOWN, GRANTED), 1);
    FirstOrphaned(r, AskedFor(r), was);
    assert was[r.late := SessionAt(r, 2, Some(r.runtime), None, Some(1))] == Ended(r);
  }

  lemma ClearingBoth(r: Race, sent: set<Snapshot>)
    requires RaceSetting(r)
    ensures Step(RaceWorld(r, After(r), sent, map[r.home.cluster := InFlight(r, None)], {}),
                 ClearOrphans(r.home.cluster), 1)
         == RaceWorld(r, After(r), sent, map[r.home.cluster := InFlight(r, Some(BothViews(r)))], {})
  {
    hide Clearing, First;
    Clears(r);
    assert Holds(After(r), r.home.cluster, IdleReport(r));
  }

  function Observed1(r: Race): Pool {
    Closed3(r).(idleAfter := Some(0), readyUntil := None)
  }

  lemma Committed1(r: Race, sent: set<Snapshot>)
    requires RaceSetting(r)
    ensures
      var m := ObservePool(r.home.cluster, IdleReport(r), 1, BothViews(r));
      Step(RaceWorld(r, After(r), sent, map[r.home.cluster := InFlight(r, Some(BothViews(r)))], {}), m, 1)
        == RaceWorld(r, TablesOf(r, Observed1(r), Ended(r), Views(r, KNOWN, KNOWN)), sent, map[],
                     {(r.home.pool, r.late)})
  {
    hide Conclude, TablesOf, Served, Uncovered, AskedFor, Closed3, BothViews;
    var m := ObservePool(r.home.cluster, IdleReport(r), 1, BothViews(r));
    Concludes(r);
    OneUncovered(r);
    Committing(After(r), m, 1);
    assert map[r.home.cluster := InFlight(r, Some(BothViews(r)))] - {r.home.cluster} == map[];
    assert {} + {(r.home.pool, r.late)} == {(r.home.pool, r.late)};
  }

  /** From the empty world, with truthful evidence: the drain of a pool is finished on
      the books while a request of a gateway of another cluster is still running,
      because its unknown work was cleared on a fence before its end. */
  lemma ClearedTooEarly(r: Race) returns (moves: seq<Timed>)
    requires RaceSetting(r)
    ensures
      var w := Run(START, moves);
      && r.home.pool in w.t.pools && w.t.pools[r.home.pool].state == Drained
      && r.late in w.gateways && WorkOf(w.gateways[r.late], r.home.pool) == 1
      && Elsewhere(w.t, (r.home.pool, r.late)) && (r.home.pool, r.late) in w.early
  {
    hide Run, Step, Served, TablesOf, InFlight, Observed1, AskedFor, Closed3, BothViews, Views, SessionAt, Before,
         After;
    var sent: set<Snapshot>;
    moves, sent := Drained1(r);
    var w := Run(START, moves);
    Asks(r, LateTasked(r));
    moves, w := Served1(moves, w, ObservationTasks(r.home.cluster, 0, map[r.home.pool := (1, Some(0))]), 1);
    LateEnters(r, w.t, sent, map[r.home.pool := 1]);
    moves, w := Stepped(moves, w, Enter(r.late, r.home.pool));
    LateDies(r, w.t, sent, map[r.home.pool := 1]);
    moves, w := Stepped(moves, w, Die(r.late));
    BeforeIs(r);
    assert w == RaceWorld(r, Before(r), sent, map[], {});
    Checking(r, sent);
    moves, w := Stepped(moves, w, Move.CheckObservation(r.home.cluster, 0, IdleReport(r)));
    Overtaking(r, sent);
    moves, w := Stepped(moves, w, ProveGateway(r.far, 0, GatewayProof(r.late, 1, Terminated, Some(r.runtime))));
    ClearingBoth(r, sent);
    moves, w := Stepped(moves, w, ClearOrphans(r.home.cluster));
    Committed1(r, sent);
    moves, w := Stepped(moves, w, ObservePool(r.home.cluster, IdleReport(r), 1, BothViews(r)));
    Finishing(r, w);
    moves, w := Stepped(moves, w, TransitionPool(r.home.pool, 3, FinishDrain));
  }

  lemma BeforeIs(r: Race)
    ensures Before(r) == TablesOf(r, AskedFor(r), Both(r, FirstEnded(r), LateTasked(r)), Views(r, UNKNOWN, GRANTED))
  {
  }

  /** One move at time one. */
  lemma Stepped(moves: seq<Timed>, w: World, m: Move) returns (more: seq<Timed>, after: World)
    requires Run(START, moves) == w
    ensures Run(START, more) == after == Step(w, m, 1)
  {
    hide Run, Step;
    NextWorld(moves, w, m, 1);
    more, after := moves + [Timed(m, 1)], Step(w, m, 1);
  }

  lemma Finishing(r: Race, w: World)
    requires RaceSetting(r) && w.checked == map[] && w.clock == 1
    requires w.t == TablesOf(r, Observed1(r), Ended(r), Views(r, KNOWN, KNOWN))
    ensures
      var after := Step(w, TransitionPool(r.home.pool, 3, FinishDrain), 1);
      && after == w.(t := after.t) && r.home.pool in after.t.pools && after.t.pools[r.home.pool].state == Drained
      && Elsewhere(after.t, (r.home.pool, r.late))
  {
    hide Served, First;
    Finishes(r);
    Serving(w, TransitionPool(r.home.pool, 3, FinishDrain), 1);
  }
}
