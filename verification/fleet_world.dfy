/** The control plane together with the gateways it never sees directly:
    snapshots and reports travel, may be lost or late, and processes die. */
module FleetWorld {
  import opened Prelude
  import opened Rows
  import opened FleetRows
  import opened ClusterRules
  import opened TrafficRules
  import opened ProofRules
  import opened PoolRules

  // ---- one gateway process ------------------------------------------------

  /** The snapshot it works with and the requests it has open, per pool. Closing
      is its own decision; a dead process may leave work running at the entry. */
  datatype Gateway = Gateway(installed: Option<Snapshot>, work: map<Id, nat>, closed: bool, dead: bool)

  predicate AcceptingIn(s: Snapshot, pool: Id) {
    pool in s.pools && s.pools[pool].accepting
  }

  function WorkOf(g: Gateway, pool: Id): nat {
    if pool in g.work then g.work[pool] else 0
  }

  /** Requests start under one lock with the report that counts them. */
  predicate MayEnter(g: Gateway, pool: Id) {
    !g.closed && !g.dead && g.installed.Some? && AcceptingIn(g.installed.value, pool)
  }

  /** Only a newer grant replaces the installed one. */
  predicate MayInstall(g: Gateway, s: Snapshot) {
    !g.dead && (g.installed.Some? ==> g.installed.value.sequence < s.sequence)
  }

  function ReportOf(session: Id, g: Gateway): TrafficReport
    requires g.installed.Some?
  {
    TrafficReport(session, g.installed.value.sequence, g.installed.value.nonce,
                  map p | p in g.work.Keys + g.installed.value.pools.Keys :: WorkOf(g, p), g.closed)
  }

  // ---- the world ----------------------------------------------------------

  /** An observation under way: what it was told, the rows it read and locked and when,
      the pool's orphans of that moment, and the views its second statement cleared.
      Nobody else sees what it wrote until it ends. */
  datatype Checked = Checked(
    observation: Observation,
    since: int,
    row: Pool,
    member: Cluster,
    orphans: set<(Id, Id)>,
    cleared: Option<set<(Id, Id)>>)

  /** `sent` and `reports` are messages that exist somewhere; `idle` is when the
      pool's serving entry was last seen without a request; `checked` are the
      observations under way, by the cluster whose row they hold. `early` remembers
      the views that were cleared on a fence before their gateway's end. */
  datatype World = World(
    t: Tables,
    gateways: map<Id, Gateway>,
    sent: set<Snapshot>,
    reports: set<TrafficReport>,
    idle: map<Id, int>,
    clock: int,
    checked: map<Id, Checked>,
    early: set<(Id, Id)>)

  const START := World(NO_TABLES, map[], {}, {}, map[], 0, map[], {})

  datatype Move =
    // the control plane
    | RegisterCluster(cluster: Id, namespace: Id, days: int, token: Token)
    | RotateCredential(cluster: Id, epoch: I64, days: int, token: Token)
    | RevokeCluster(cluster: Id)
    | PutDesired(cluster: Id, version: I64, items: seq<Item>, published: seq<Item>)
    | PollCluster(cluster: Id, token: Token, lease: Token)
    | ReportCluster(cluster: Id, token: Token, report: ClusterReport)
    | BindPool(binding: Binding, id: Id)
    | TransitionPool(id: Id, generation: I64, action: Action)
    | ObservationTasks(cluster: Id, token: Token, tasks: map<Id, (Token, Option<int>)>)
    | CheckObservation(cluster: Id, token: Token, observation: Observation)
    | ClearOrphans(cluster: Id)
    | ObservePool(cluster: Id, observation: Observation, since: int, cleared: set<(Id, Id)>)
    | DropObservation(cluster: Id)
    | GatewayProofTasks(cluster: Id, token: Token, nonces: map<Id, Token>)
    | ProveGateway(cluster: Id, token: Token, proof: GatewayProof)
    | FetchSnapshot(session: Id, identity: Option<Identity>, required: bool, nonce: Token)
    | DeliverReport(traffic: TrafficReport)
    // gateways and their surroundings
    | Boot(session: Id)
    | Install(snapshot: Snapshot)
    | Enter(session: Id, pool: Id)
    | Leave(session: Id, pool: Id)
    | MakeReport(session: Id)
    | CloseDown(session: Id)
    | Die(session: Id)
    | SeeIdle(pool: Id)

  // ---- server moves -------------------------------------------------------

  ghost function Put(t: Tables, id: Id, expected: I64, items: seq<Item>, published: seq<Item>): Result<Tables> {
    match PutCheck(t, id, expected, items)
    case Err(error) => Err(error)
    case Ok(version) =>
      if !GuardPasses(t, id, items, version) then Err(Conflict)
      else if !GuardedItems(t, id, items, version, published) then Err(Internal)
      else Ok(Published(t.(pools := GuardedPools(t, id, items, version)), id, version, published))
  }

  function Kept<T>(t: Tables, r: Result<(Tables, T)>): Tables {
    match r
    case Ok((after, _)) => after
    case Err(_) => t
  }

  function Kept1(t: Tables, r: Result<Tables>): Tables {
    match r
    case Ok(after) => after
    case Err(_) => t
  }

  /** The pool is the cluster's. */
  predicate Holds(t: Tables, id: Id, q: Observation) {
    q.pool in t.pools && t.pools[q.pool].cluster == id && id in t.clusters
  }

  /** The tables after a server move. A refused request changes nothing. */
  ghost function Served(t: Tables, m: Move, now: int): Tables {
    match m
    case RegisterCluster(id, namespace, days, token) => Kept1(t, Register(t, id, namespace, days, token, now))
    case RotateCredential(id, epoch, days, token) => Kept1(t, Rotate(t, id, epoch, days, token, now))
    case RevokeCluster(id) => Kept1(t, Revoke(t, id, now))
    case PutDesired(id, version, items, published) => Kept1(t, Put(t, id, version, items, published))
    case PollCluster(id, token, lease) => Kept(t, Poll(t, id, token, lease, now))
    case ReportCluster(id, token, q) => Kept(t, Report(t, id, token, q, now))
    case BindPool(q, id) => Kept1(t, Bind(t, q, id, now))
    case TransitionPool(id, generation, action) => Kept1(t, Transition(t, id, generation, action, now))
    case ObservationTasks(id, token, tasks) => Kept1(t, Tasks(t, id, token, tasks, now))
    case ObservePool(id, q, since, keys) => if Holds(t, id, q) then Kept(t, Conclude(t, q, since, keys)) else t
    case GatewayProofTasks(id, token, nonces) => Kept1(t, ProofTasks(t, id, token, nonces, now))
    case ProveGateway(id, token, q) => Kept1(t, Prove(t, id, token, q, now))
    case FetchSnapshot(id, identity, required, nonce) => Kept(t, TakeSnapshot(t, id, identity, required, nonce, now))
    case DeliverReport(q) => Kept(t, ReportTraffic(t, q))
    case _ => t
  }

  /** What is assumed of the evidence agents send, and of messages. */
  predicate Truthful(w: World, m: Move) {
    match m
    // A terminated container runs no more.
    case ProveGateway(_, _, q) =>
      q.outcome == Terminated ==> q.session in w.gateways && w.gateways[q.session].dead
    // The entry was seen without a request after the fence.
    case CheckObservation(_, _, q) =>
      q.idle && q.idleAfter.Some? ==> q.pool in w.idle && q.idleAfter.value < w.idle[q.pool]
    // A gateway fetches and reports for itself.
    case FetchSnapshot(session, _, _, _) => session in w.gateways
    case DeliverReport(q) => q in w.reports
    case _ => true
  }

  // ---- locks --------------------------------------------------------------

  /** Rows that the move locks and an observation under way holds: its cluster's and
      its pool's. Snapshots lock every pool; gateway reports lock neither. An
      observation goes on only as it began. */
  predicate Waits(w: World, m: Move) {
    match m
    case RotateCredential(c, _, _, _) => c in w.checked
    case RevokeCluster(c) => c in w.checked
    case PutDesired(c, _, _, _) => c in w.checked
    case PollCluster(c, _, _) => c in w.checked
    case ReportCluster(c, _, _) => c in w.checked
    case BindPool(q, _) => q.cluster in w.checked
    case TransitionPool(p, _, _) => exists c :: c in w.checked && w.checked[c].observation.pool == p
    case ObservationTasks(c, _, _) => c in w.checked
    case CheckObservation(c, _, _) => c in w.checked
    case GatewayProofTasks(c, _, _) => c in w.checked
    case ProveGateway(c, _, _) => c in w.checked
    case FetchSnapshot(_, _, _, _) => w.checked != map[]
    case ObservePool(c, q, since, keys) => !Continues(w, c, q, since, keys)
    case _ => false
  }

  /** The observation was checked, and its views are cleared if it says idle. */
  predicate Continues(w: World, c: Id, q: Observation, since: int, keys: set<(Id, Id)>) {
    && c in w.checked && w.checked[c].observation == q && w.checked[c].since == since
    && (if q.idle then w.checked[c].cleared == Some(keys) else keys == {})
  }

  // ---- every move ---------------------------------------------------------

  /** Every request at the entry of a pool is some gateway's. */
  predicate NoWork(w: World, pool: Id) {
    forall s :: s in w.gateways ==> WorkOf(w.gateways[s], pool) == 0
  }

  ghost function Run1(w: World, m: Move): World {
    match m
    case Boot(session) =>
      if session in w.gateways then w
      else w.(gateways := w.gateways[session := Gateway(None, map[], false, false)])
    case Install(s) =>
      if s !in w.sent || s.session !in w.gateways || !MayInstall(w.gateways[s.session], s) then w
      else w.(gateways := w.gateways[s.session := w.gateways[s.session].(installed := Some(s))])
    case Enter(session, pool) =>
      if session !in w.gateways || !MayEnter(w.gateways[session], pool) then w
      else
        var g := w.gateways[session];
        w.(gateways := w.gateways[session := g.(work := g.work[pool := WorkOf(g, pool) + 1])])
    case Leave(session, pool) =>
      if session !in w.gateways || WorkOf(w.gateways[session], pool) == 0 then w
      else
        var g := w.gateways[session];
        w.(gateways := w.gateways[session := g.(work := g.work[pool := WorkOf(g, pool) - 1])])
    case MakeReport(session) =>
      if session !in w.gateways || w.gateways[session].dead || w.gateways[session].installed.None? then w
      else w.(reports := w.reports + {ReportOf(session, w.gateways[session])})
    case CloseDown(session) =>
      if session !in w.gateways then w else w.(gateways := w.gateways[session := w.gateways[session].(closed := true)])
    case Die(session) =>
      if session !in w.gateways then w else w.(gateways := w.gateways[session := w.gateways[session].(dead := true)])
    case SeeIdle(pool) =>
      if !NoWork(w, pool) then w else w.(idle := w.idle[pool := w.clock])
    case FetchSnapshot(session, identity, required, nonce) =>
      (match TakeSnapshot(w.t, session, identity, required, nonce, w.clock)
       case Ok((after, s)) => w.(t := after, sent := w.sent + {s})
       case Err(_) => w)
    case CheckObservation(c, token, q) =>
      if PoolRules.CheckObservation(w.t, c, token, q, w.clock).Ok?
      then w.(checked := w.checked[c := Checked(q, w.clock, w.t.pools[q.pool], w.t.clusters[c],
                                                Orphans(w.t, q.pool), None)])
      else w
    case ClearOrphans(c) =>
      if c !in w.checked || !w.checked[c].observation.idle || w.checked[c].cleared.Some?
         || !Holds(w.t, c, w.checked[c].observation)
      then w
      else
        var r := w.checked[c];
        (match Clearing(w.t, r.observation, r.since)
         case Ok(keys) => w.(checked := w.checked[c := r.(cleared := Some(keys))])
         case Err(_) => w.(checked := w.checked - {c}))
    case DropObservation(c) => w.(checked := w.checked - {c})
    case ObservePool(c, q, since, keys) =>
      w.(t := Served(w.t, m, w.clock), checked := w.checked - {c}, early := w.early + Uncovered(w.t, m))
    case _ => w.(t := Served(w.t, m, w.clock))
  }

  /** The pool's views whose work is unknown. */
  function Orphans(t: Tables, pool: Id): set<(Id, Id)> {
    set k | k in t.views && Orphan(t, pool, k)
  }

  /** What a committing observation clears of gateways that ended after its fence. */
  ghost function Uncovered(t: Tables, m: Move): set<(Id, Id)>
    requires m.ObservePool?
  {
    if Holds(t, m.cluster, m.observation) && Conclude(t, m.observation, m.since, m.cleared).Ok?
    then set k | k in m.cleared && !Covered(t, m.observation, k)
    else {}
  }

  /** The gateway ended no later than the fence of the idle report. */
  predicate Covered(t: Tables, q: Observation, k: (Id, Id)) {
    && k.1 in t.sessions && t.sessions[k.1].proof.Some? && q.idleAfter.Some?
    && t.sessions[k.1].proof.value <= q.idleAfter.value
  }

  /** Time does not go back, untruthful evidence does not occur, and what waits for a
      lock happens later. */
  ghost predicate Occurs(w: World, m: Move, now: int) {
    w.clock <= now && Truthful(w, m) && !Waits(w, m)
  }

  ghost function Step(w: World, m: Move, now: int): World {
    if Occurs(w, m, now) then Run1(w.(clock := now), m) else w
  }

  datatype Timed = Timed(move: Move, now: int)

  ghost function Run(w: World, moves: seq<Timed>): World {
    if moves == [] then w
    else Step(Run(w, moves[..|moves| - 1]), moves[|moves| - 1].move, moves[|moves| - 1].now)
  }
}
