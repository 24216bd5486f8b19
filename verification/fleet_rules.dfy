/** Versioned desired state and its leased delivery to a member cluster. */
module ClusterRules {
  import opened Prelude
  import opened Rows
  import opened FleetRows

  datatype Delivery = Delivery(cluster: Id, namespace: Id, version: I64, sha256: Digest, lease: Token, items: seq<Item>)

  datatype Outcome = Applied | Rejected

  datatype ClusterReport = ClusterReport(
    version: I64,
    sha256: Digest,
    lease: Token,
    outcome: Outcome,
    errorCode: Option<string>)

  function Authenticated(t: Tables, id: Id, token: Token, now: int): Result<Cluster> {
    if id !in t.clusters then Err(Unauthorized)
    else
      var row := t.clusters[id];
      if row.revoked.Some? || row.expires <= now || row.credential != token then Err(Unauthorized) else Ok(row)
  }

  function Register(t: Tables, id: Id, namespace: Id, days: int, token: Token, now: int): Result<Tables> {
    if !Name(id) || !Name(namespace) || !(1 <= days <= 90) then Err(Invalid)
    else if id in t.clusters then Err(Conflict)
    else
      var row := Cluster(namespace, token, 1, now + days * DAY, None, 0, 0, 0, None, None, None);
      Ok(t.(clusters := t.clusters[id := row]))
  }

  function Rotate(t: Tables, id: Id, expectedEpoch: I64, days: int, token: Token, now: int): Result<Tables> {
    if !(1 <= days <= 90) then Err(Invalid)
    else if id !in t.clusters then Err(NotFound)
    else if t.clusters[id].epoch != expectedEpoch then Err(Conflict)
    else if expectedEpoch == I64_MAX then Err(Invalid)
    else
      var row := t.clusters[id].(credential := token, epoch := expectedEpoch + 1, expires := now + days * DAY,
                                 revoked := None, lease := None, leaseUntil := None);
      Ok(t.(clusters := t.clusters[id := row]))
  }

  function Revoke(t: Tables, id: Id, now: int): Result<Tables> {
    if id !in t.clusters then Err(NotFound)
    else if t.clusters[id].revoked.Some? then Ok(t)
    else
      var row := t.clusters[id].(revoked := Some(now), lease := None, leaseUntil := None);
      Ok(t.(clusters := t.clusters[id := row]))
  }

  predicate ItemOk(item: Item) {
    && Name(item.name)
    && (item.expectedUid.Some? ==> Uid(item.expectedUid.value) && item.spec.Some?)
    && (if item.spec.Some? then item.deleteUid.None? else item.deleteUid.Some? && Uid(item.deleteUid.value))
  }

  predicate ItemsOk(items: seq<Item>) {
    && |items| <= 100
    && (forall i :: 0 <= i < |items| ==> ItemOk(items[i]))
    && (forall i, j :: 0 <= i < j < |items| ==> items[i].name != items[j].name)
  }

  /** A deletion is bound by its delete UID alone. One that also expected the object
      to exist could not be repeated once it has happened. */
  predicate Retryable(items: seq<Item>) {
    forall i :: 0 <= i < |items| && items[i].spec.None? ==> items[i].expectedUid.None?
  }

  /** The item for a deployment, if the list has one. */
  function Find(items: seq<Item>, name: Id): (at: Option<nat>)
    ensures at.Some? ==> at.value < |items| && items[at.value].name == name
    ensures at.None? ==> forall i :: 0 <= i < |items| ==> items[i].name != name
    ensures forall i :: at.Some? && 0 <= i < at.value ==> items[i].name != name
  {
    if items == [] then None
    else
      match Find(items[..|items| - 1], name)
      case Some(i) => Some(i)
      case None => if items[|items| - 1].name == name then Some(|items| - 1) else None
  }

  // ---- managed deployments in a new revision ------------------------------

  /** A managed deployment in a new desired state: as it is; or a new replica
      count or a deletion that names the object's UID, but only once drained. */
  function GuardRow(row: Pool, item: Item, version: I64): Result<(Pool, Item)> {
    if row.state == Retired then
      if item.spec.None? && item.deleteUid == row.uid then Ok((row, item)) else Err(Conflict)
    else if item.spec == Some(row.expected) then Ok((row, item.(expectedUid := row.uid)))
    else if row.state != Drained || row.scale.Some? || row.uid.None? then Err(Conflict)
    else
      match item.spec
      case Some(spec) =>
        if spec.(replicas := row.expected.replicas) != row.expected
           || spec.replicas.None? || !(0 <= spec.replicas.value <= 10_000)
        then Err(Invalid)
        else if row.generation == I64_MAX then Err(Invalid)
        else Ok((Reworked(row, version).(expected := spec), item.(expectedUid := row.uid)))
      case None =>
        if item.deleteUid != row.uid then Err(Conflict)
        else if row.generation == I64_MAX then Err(Invalid)
        else Ok((Reworked(row, version).(state := Retired), item))
  }

  function Reworked(row: Pool, version: I64): Pool
    requires row.generation < I64_MAX
  {
    row.(generation := row.generation + 1, desiredVersion := version, readyUntil := None, nonce := None,
         nonceUntil := None)
  }

  predicate Concerned(t: Tables, id: Id, items: seq<Item>, p: Id) {
    p in t.pools && t.pools[p].cluster == id && Find(items, t.pools[p].deployment).Some?
  }

  function Guarding(t: Tables, items: seq<Item>, p: Id, version: I64): Result<(Pool, Item)>
    requires p in t.pools && Find(items, t.pools[p].deployment).Some?
  {
    GuardRow(t.pools[p], items[Find(items, t.pools[p].deployment).value], version)
  }

  predicate SameDeployment(a: Pool, b: Pool) {
    a.cluster == b.cluster && a.deployment == b.deployment
  }

  /** The unique index: a deployment is bound to one pool. */
  predicate BoundOnce(t: Tables) {
    forall p, q :: p in t.pools && q in t.pools && SameDeployment(t.pools[p], t.pools[q]) ==> p == q
  }

  /** Every managed deployment the request mentions agrees. */
  ghost predicate GuardPasses(t: Tables, id: Id, items: seq<Item>, version: I64) {
    forall p :: Concerned(t, id, items, p) ==> Guarding(t, items, p, version).Ok?
  }

  ghost function GuardedPools(t: Tables, id: Id, items: seq<Item>, version: I64): map<Id, Pool>
    requires GuardPasses(t, id, items, version)
  {
    map p | p in t.pools ::
      if Concerned(t, id, items, p) then Guarding(t, items, p, version).value.0 else t.pools[p]
  }

  /** The request with the observed identity written into managed items. */
  ghost predicate GuardedItems(t: Tables, id: Id, items: seq<Item>, version: I64, after: seq<Item>)
    requires GuardPasses(t, id, items, version)
  {
    && |after| == |items|
    && (forall p :: Concerned(t, id, items, p) ==>
          after[Find(items, t.pools[p].deployment).value] == Guarding(t, items, p, version).value.1)
    && (forall i :: 0 <= i < |items| && !ManagesItem(t, id, items, i) ==> after[i] == items[i])
  }

  /** Some pool of the cluster manages the deployment at this place of the list. */
  predicate ManagesItem(t: Tables, id: Id, items: seq<Item>, i: nat) {
    exists p :: p in t.pools && Concerned(t, id, items, p) && Find(items, t.pools[p].deployment) == Some(i)
  }

  /** What a request must satisfy before the managed pools are asked. */
  function PutCheck(t: Tables, id: Id, expected: I64, items: seq<Item>): Result<I64> {
    if expected < 0 || !ItemsOk(items) then Err(Invalid)
    else if id !in t.clusters then Err(NotFound)
    else if t.clusters[id].revoked.Some? then Err(Conflict)
    else if t.clusters[id].desired != expected then Err(Conflict)
    else Next(expected)
  }

  /** The new revision is in place and is what the cluster should have. */
  function Published(t: Tables, id: Id, version: I64, items: seq<Item>): Tables
    requires id in t.clusters
  {
    t.(revisions := t.revisions[(id, version as int) := Revision(items, Digest(items))],
       clusters := t.clusters[id := t.clusters[id].(desired := version)])
  }

  // ---- delivery -----------------------------------------------------------

  /** A delivery is handed out when no other is out, and is the newest revision. */
  function Poll(t: Tables, id: Id, token: Token, lease: Token, now: int): Result<(Tables, Option<Delivery>)> {
    match Authenticated(t, id, token, now)
    case Err(error) => Err(error)
    case Ok(row) =>
      if row.leaseUntil.Some? && now < row.leaseUntil.value then Ok((t, None))
      else if row.desired <= row.acknowledged then Ok((t, None))
      else if (id, row.desired as int) !in t.revisions then Err(Conflict)
      else
        var revision := t.revisions[(id, row.desired as int)];
        var out := row.(delivery := row.desired, lease := Some(lease), leaseUntil := Some(now + 60 * SECOND));
        Ok((t.(clusters := t.clusters[id := out]),
            Some(Delivery(id, row.namespace, row.desired, revision.sha256, lease, revision.payload))))
  }

  predicate ErrorCode(s: string) {
    s == "invalid_spec" || s == "ownership_conflict" || s == "identity_mismatch" || s == "kubernetes_unavailable"
    || s == "apply_timeout"
  }

  predicate ReportOk(q: ClusterReport) {
    && (q.errorCode.Some? ==> ErrorCode(q.errorCode.value))
    && (q.outcome == Applied <==> q.errorCode.None?)
  }

  predicate LeaseLive(row: Cluster, q: ClusterReport, now: int) {
    && row.delivery == q.version
    && row.lease == Some(q.lease)
    && row.leaseUntil.Some? && now < row.leaseUntil.value
    && row.acknowledged <= q.version
  }

  /** True when the report repeats an acknowledgement. */
  function Report(t: Tables, id: Id, token: Token, q: ClusterReport, now: int): Result<(Tables, bool)> {
    if !ReportOk(q) then Err(Invalid)
    else
      match Authenticated(t, id, token, now)
      case Err(error) => Err(error)
      case Ok(row) =>
        if (id, q.version as int) !in t.revisions then Err(NotFound)
        else if t.revisions[(id, q.version as int)].sha256 != q.sha256 then Err(Conflict)
        else if row.acknowledged == q.version && q.outcome == Applied then Ok((t, true))
        else if !LeaseLive(row, q, now) then Err(Conflict)
        else Ok((t.(clusters := t.clusters[id := Reported(row, q)]), false))
  }

  function Reported(row: Cluster, q: ClusterReport): Cluster {
    row.(acknowledged := if q.outcome == Applied then q.version else row.acknowledged,
         lease := None, leaseUntil := None, lastError := q.errorCode)
  }
}

/** What the server knows of gateways, and the drain proof drawn from it. */
module TrafficRules {
  import opened Prelude
  import opened Rows
  import opened FleetRows
  import opened ClusterRules

  /** A view that stands in the way of a drain: unfinished or unknown requests, or
      a gateway that has not acknowledged the closed generation. */
  predicate Blocks(v: View, generation: I64) {
    v.active != 0 || (!v.retired && v.acknowledged < generation)
  }

  predicate DrainProven(t: Tables, pool: Id)
    requires pool in t.pools
  {
    forall k :: k in t.views && k.0 == pool ==> !Blocks(t.views[k], t.pools[pool].generation)
  }

  // ---- snapshots ----------------------------------------------------------

  predicate IdentityKnown(t: Tables, identity: Option<Identity>, now: int) {
    identity.Some? ==>
      && identity.value.cluster in t.clusters
      && t.clusters[identity.value.cluster].revoked.None?
      && now < t.clusters[identity.value.cluster].expires
      && Uid(identity.value.podUid)
  }

  /** The member cluster vouches for the pool as it is, or, while a scale-up is
      being applied, as it was. */
  predicate ClusterVouches(t: Tables, pool: Pool, now: int) {
    && pool.cluster in t.clusters
    && var c := t.clusters[pool.cluster];
       && c.revoked.None? && now < c.expires
       && (if pool.scale.Some? && pool.scale.value.up then pool.scale.value.previousVersion else pool.desiredVersion)
            <= c.acknowledged
  }

  predicate Accepting(t: Tables, pool: Pool, identityReady: bool, now: int) {
    && pool.state == Active && identityReady && ClusterVouches(t, pool, now)
    && pool.readyUntil.Some? && now < pool.readyUntil.value
  }

  predicate IdentityReady(row: Session, required: bool) {
    (row.identity.Some? && row.runtime.Some?) || (!required && row.identity.None?)
  }

  function SessionRow(t: Tables, id: Id, identity: Option<Identity>): Session {
    if id in t.sessions then t.sessions[id]
    else Session(identity, None, false, 0, 0, None, None, None, None, false)
  }

  function Controls(t: Tables, identityReady: bool, now: int): map<Id, Control> {
    map p | p in t.pools :: Control(t.pools[p].generation, Accepting(t, t.pools[p], identityReady, now))
  }

  /** Every accepting control comes with a view row for the gateway it goes to. */
  function SnapshotViews(t: Tables, id: Id, controls: map<Id, Control>): map<(Id, Id), View> {
    t.views
    + (map p | p in controls && (p, id) in t.views ::
         (p, id) := t.views[(p, id)].(delivered := controls[p].generation))
    + (map p | p in controls && (p, id) !in t.views && controls[p].accepting ::
         (p, id) := View(controls[p].generation, 0, 0, false))
  }

  function TakeSnapshot(t: Tables, id: Id, identity: Option<Identity>, required: bool, nonce: Token, now: int)
    : Result<(Tables, Snapshot)>
  {
    if !IdentityKnown(t, identity, now) then Err(Forbidden)
    else
      var row := SessionRow(t, id, identity);
      if row.closed || row.identity != identity then Err(Conflict)
      else if row.sequence == I64_MAX then Err(Invalid)
      else
        var controls := Controls(t, IdentityReady(row, required), now);
        Ok((t.(sessions := t.sessions[id := row.(sequence := row.sequence + 1, nonce := nonce, reported := None)],
               views := SnapshotViews(t, id, controls)),
            Snapshot(id, row.sequence + 1, nonce, controls)))
  }

  // ---- acknowledgements ---------------------------------------------------

  predicate TrafficReportOk(q: TrafficReport) {
    && 0 < q.sequence && |q.active| <= 10_000
    && forall p :: p in q.active ==> q.active[p] <= 1_000_000 && (q.closed ==> q.active[p] == 0)
  }

  function ReportedViews(t: Tables, q: TrafficReport): map<(Id, Id), View>
    requires forall p :: (p, q.session) in t.views ==> p in q.active
  {
    map k | k in t.views ::
      if k.1 == q.session
      then View(t.views[k].delivered, t.views[k].delivered, q.active[k.0], q.closed)
      else t.views[k]
  }

  function ReportTraffic(t: Tables, q: TrafficReport): Result<(Tables, bool)> {
    if !TrafficReportOk(q) then Err(Invalid)
    else if q.session !in t.sessions then Err(NotFound)
    else
      var row := t.sessions[q.session];
      if row.sequence != q.sequence || row.nonce != q.nonce then Err(Conflict)
      else if row.closed then if q.closed && row.reported == Some(q) then Ok((t, true)) else Err(Conflict)
      else if row.reported.Some? then if row.reported.value != q then Err(Conflict) else Ok((t, true))
      else if exists k :: k in t.views && k.1 == q.session && k.0 !in q.active then Err(Invalid)
      else
        Ok((t.(views := ReportedViews(t, q),
               sessions := t.sessions[q.session := row.(closed := q.closed, reported := Some(q))]), false))
  }
}

/** Evidence that a gateway container ended, and that nothing it left runs on. */
module ProofRules {
  import opened Prelude
  import opened Rows
  import opened FleetRows
  import opened ClusterRules

  datatype ProofOutcome = Bound | Terminated | Unknown | Unbound | Cleaned

  datatype GatewayProof = GatewayProof(session: Id, nonce: Token, outcome: ProofOutcome, runtime: Option<Id>)

  /** Fresh nonces for some sessions of the cluster whose proof is open. */
  predicate ProofNonces(t: Tables, id: Id, chosen: map<Id, Token>) {
    forall s :: s in chosen ==>
      && s in t.sessions && t.sessions[s].identity.Some? && t.sessions[s].identity.value.cluster == id
      && !t.sessions[s].proofComplete
  }

  function ProofTasks(t: Tables, id: Id, token: Token, chosen: map<Id, Token>, now: int): Result<Tables> {
    match Authenticated(t, id, token, now)
    case Err(error) => Err(error)
    case Ok(_) =>
      if !ProofNonces(t, id, chosen) then Err(Invalid)
      else
        Ok(t.(sessions := map s | s in t.sessions ::
                if s in chosen
                then t.sessions[s].(proofNonce := Some(chosen[s]), proofUntil := Some(now + 60 * SECOND))
                else t.sessions[s]))
  }

  /** All views of the session are retired with their counts unknown. */
  function OrphanedViews(t: Tables, session: Id): map<(Id, Id), View> {
    map k | k in t.views :: if k.1 == session then t.views[k].(retired := true, active := -1) else t.views[k]
  }

  function Judge(t: Tables, row: Session, q: GatewayProof, now: int): Result<Tables> {
    var spent := row.(proofNonce := None, proofUntil := None);
    match q.outcome
    case Bound =>
      if q.runtime.None? || row.closed then Err(Invalid)
      else if row.runtime.Some? && row.runtime != q.runtime then Err(Conflict)
      else Ok(t.(sessions := t.sessions[q.session := spent.(runtime := q.runtime)]))
    case Terminated =>
      if row.runtime.None? || row.runtime != q.runtime then Err(Conflict)
      else if row.closed then Ok(t.(sessions := t.sessions[q.session := spent]))
      else
        Ok(t.(sessions := t.sessions[q.session := spent.(closed := true, proof := Some(now))],
              views := OrphanedViews(t, q.session)))
    case Unbound =>
      if row.runtime.Some? || (exists k :: k in t.views && k.1 == q.session) then Err(Conflict)
      else Ok(t.(sessions := t.sessions[q.session := spent.(closed := true, proofComplete := true)]))
    case Cleaned =>
      if !row.closed then Err(Conflict)
      else Ok(t.(sessions := t.sessions[q.session := spent.(proofComplete := true)]))
    case Unknown => Ok(t.(sessions := t.sessions[q.session := spent]))
  }

  function Prove(t: Tables, id: Id, token: Token, q: GatewayProof, now: int): Result<Tables> {
    match Authenticated(t, id, token, now)
    case Err(error) => Err(error)
    case Ok(_) =>
      if q.session !in t.sessions then Err(NotFound)
      else
        var row := t.sessions[q.session];
        if row.identity.None? || row.identity.value.cluster != id then Err(Forbidden)
        else if row.proofNonce != Some(q.nonce) || row.proofUntil.None? || row.proofUntil.value <= now
        then Err(Conflict)
        else Judge(t, row, q, now)
  }

  // ---- orphaned work ------------------------------------------------------

  /** The pool's views whose requests are unknown. */
  predicate Orphan(t: Tables, pool: Id, k: (Id, Id))
    requires k in t.views
  {
    k.0 == pool && t.views[k].active < 0
  }

  /** Every orphan has a recorded end. */
  predicate OrphansDated(t: Tables, pool: Id) {
    forall k :: k in t.views && Orphan(t, pool, k) ==> k.1 in t.sessions && t.sessions[k.1].proof.Some?
  }

  /** The latest end among the pool's orphans, if it has any. */
  predicate LatestEnd(t: Tables, pool: Id, after: Option<int>)
    requires OrphansDated(t, pool)
  {
    match after
    case None => forall k :: k in t.views ==> !Orphan(t, pool, k)
    case Some(time) =>
      && (exists k :: k in t.views && Orphan(t, pool, k) && t.sessions[k.1].proof.value == time)
      && (forall k :: k in t.views && Orphan(t, pool, k) ==> t.sessions[k.1].proof.value <= time)
  }

  lemma LatestEndUnique(t: Tables, pool: Id, a: Option<int>, b: Option<int>)
    requires OrphansDated(t, pool) && LatestEnd(t, pool, a) && LatestEnd(t, pool, b)
    ensures a == b
  {
  }

  /** The retired views of the pool whose work is unknown. */
  function UnknownViews(t: Tables, pool: Id): set<(Id, Id)> {
    set k | k in t.views && k.0 == pool && t.views[k].retired && t.views[k].active < 0
  }

  function ClearedAt(views: map<(Id, Id), View>, keys: set<(Id, Id)>): map<(Id, Id), View> {
    map k | k in views :: if k in keys then views[k].(active := 0) else views[k]
  }

  /** Unknown work is cleared in a draining pool with a fenced entry: which views. */
  function ConfirmIdle(t: Tables, pool: Id): Result<set<(Id, Id)>>
    requires pool in t.pools
  {
    if t.pools[pool].state != Draining || t.pools[pool].protocol != 2 then Err(Conflict)
    else Ok(UnknownViews(t, pool))
  }
}

/** Managed pools: operator transitions, observations, and automatic scaling. */
module PoolRules {
  import opened Prelude
  import opened Rows
  import opened FleetRows
  import opened ClusterRules
  import opened TrafficRules
  import opened ProofRules

  datatype Action = Drain | FinishDrain | Activate

  datatype Binding = Binding(cluster: Id, deployment: Id, protocol: int, expectedVersion: I64)

  datatype ScaleEvidence = ScaleEvidence(uid: Id, resourceVersion: Id, replicas: I64)

  datatype Observation = Observation(
    pool: Id,
    generation: I64,
    nonce: Token,
    uid: Option<Id>,
    ready: bool,
    idle: bool,
    idleAfter: Option<int>,
    applied: I64,
    scaling: Option<ScaleEvidence>)

  // ---- binding ------------------------------------------------------------

  /** The spec of a deployment in the newest revision. */
  function DesiredSpec(t: Tables, cluster: Id, deployment: Id): Result<Spec>
    requires cluster in t.clusters
  {
    var version := t.clusters[cluster].desired as int;
    if (cluster, version) !in t.revisions then Err(NotFound)
    else
      var items := t.revisions[(cluster, version)].payload;
      match Find(items, deployment)
      case None => Err(NotFound)
      case Some(i) => if items[i].spec.None? then Err(NotFound) else Ok(items[i].spec.value)
  }

  function Bind(t: Tables, q: Binding, id: Id, now: int): Result<Tables> {
    if !Name(q.cluster) || !Name(q.deployment) || !(1 <= q.protocol <= 2) then Err(Invalid)
    else if q.cluster !in t.clusters then Err(NotFound)
    else if t.clusters[q.cluster].revoked.Some? || t.clusters[q.cluster].expires <= now
            || t.clusters[q.cluster].desired != q.expectedVersion
    then Err(Conflict)
    else
      match DesiredSpec(t, q.cluster, q.deployment)
      case Err(error) => Err(error)
      case Ok(spec) =>
        if spec.autoscaling == Foreign || (spec.autoscaling.Managed? && q.protocol != 2) then Err(Invalid)
        else if id in t.pools then Err(Conflict)
        else if exists p :: p in t.pools && t.pools[p].cluster == q.cluster && t.pools[p].deployment == q.deployment
        then Err(Conflict)
        else
          Ok(t.(pools := t.pools[id := Pool(q.cluster, q.deployment, 1, PoolPending, q.protocol, spec,
                                            q.expectedVersion, None, None, None, None, None, None)]))
  }

  // ---- operator transitions -----------------------------------------------

  /** Where an action leads; completion proves the drain of the closed generation. */
  function Target(t: Tables, id: Id, action: Action, now: int): Option<PoolState>
    requires id in t.pools
  {
    var row := t.pools[id];
    match action
    case Drain => if row.state == Active || row.state == PoolPending then Some(Draining) else None
    case FinishDrain => if row.state == Draining && DrainProven(t, id) then Some(Drained) else None
    case Activate =>
      if row.state == Drained && row.readyUntil.Some? && now < row.readyUntil.value then Some(Active) else None
  }

  function Transition(t: Tables, id: Id, expected: I64, action: Action, now: int): Result<Tables> {
    if id !in t.pools then Err(NotFound)
    else if t.pools[id].generation != expected then Err(Conflict)
    else if t.pools[id].scale.Some? then Err(Conflict)
    else
      match Target(t, id, action, now)
      case None => Err(Conflict)
      case Some(state) =>
        if action != FinishDrain && expected == I64_MAX then Err(Invalid)
        else
          var generation := if action == FinishDrain then expected else expected + 1;
          Ok(t.(pools := t.pools[id := t.pools[id].(generation := generation, state := state, nonce := None,
                                                    nonceUntil := None)]))
  }

  // ---- observation tasks --------------------------------------------------

  /** Nonces for some pools of the cluster whose spec was applied there, each with
      the fence its orphans need. */
  predicate TasksOk(t: Tables, id: Id, chosen: map<Id, (Token, Option<int>)>)
    requires id in t.clusters
  {
    forall p :: p in chosen ==>
      && p in t.pools && t.pools[p].cluster == id && t.pools[p].state != Retired
      && t.pools[p].desiredVersion <= t.clusters[id].acknowledged
      && OrphansDated(t, p) && LatestEnd(t, p, chosen[p].1)
  }

  function Tasks(t: Tables, id: Id, token: Token, chosen: map<Id, (Token, Option<int>)>, now: int): Result<Tables> {
    match Authenticated(t, id, token, now)
    case Err(error) => Err(error)
    case Ok(_) =>
      if !TasksOk(t, id, chosen) then Err(Invalid)
      else
        Ok(t.(pools := map p | p in t.pools ::
                if p in chosen
                then t.pools[p].(idleAfter := chosen[p].1, nonce := Some(chosen[p].0),
                                 nonceUntil := Some(now + 60 * SECOND))
                else t.pools[p]))
  }

  // ---- scaling ------------------------------------------------------------

  predicate I32(n: I64) {
    -0x8000_0000 <= n <= 0x7FFF_FFFF
  }

  predicate EvidenceOk(spec: Spec, e: ScaleEvidence)
    requires spec.autoscaling.Managed?
  {
    && Uid(e.uid) && Uid(e.resourceVersion)
    && (if spec.autoscaling.minReplicas.Some? then spec.autoscaling.minReplicas.value else 1) <= e.replicas
    && e.replicas <= (if spec.autoscaling.maxReplicas.Some? then spec.autoscaling.maxReplicas.value else 0)
  }

  /** The revision with the pool's item replaced or added. */
  function WithItem(items: seq<Item>, item: Item): seq<Item> {
    match Find(items, item.name)
    case Some(i) => items[i := item]
    case None => items + [item]
  }

  /** Writes the new replica count as a revision. Scaling down has proven the
      drain; it keeps the pool closed until the count is confirmed. */
  function Apply(t: Tables, id: Id, current: I64, target: I64, up: bool): Result<(Tables, bool)>
    requires id in t.pools && t.pools[id].cluster in t.clusters
  {
    var row := t.pools[id];
    var cluster := t.clusters[row.cluster];
    if cluster.desired != cluster.acknowledged then Ok((t, false))
    else if row.uid.None? then Err(Conflict)
    else if (row.cluster, cluster.desired as int) !in t.revisions then Err(Conflict)
    else if cluster.desired == I64_MAX then Err(Invalid)
    else if !up && row.generation == I64_MAX then Err(Invalid)
    else
      var spec := row.expected.(replicas := Some(target));
      var items := WithItem(t.revisions[(row.cluster, cluster.desired as int)].payload,
                            Item(row.deployment, Some(spec), row.uid, None));
      var applied := row.(expected := spec, desiredVersion := cluster.desired + 1,
                          scale := Some(Operation(ApplyPhase, target, current, row.desiredVersion, up)),
                          nonce := None, nonceUntil := None);
      Ok((Published(t, row.cluster, cluster.desired + 1, items)
            .(pools := t.pools[id := if up then applied
                                     else applied.(state := Drained, readyUntil := None,
                                                   generation := row.generation + 1)]),
          true))
  }

  /** A pool reopens, or closes, under a new generation. */
  function Regenerated(t: Tables, id: Id, row: Pool): Result<(Tables, bool)> {
    if row.generation == I64_MAX then Err(Invalid)
    else Ok((t.(pools := t.pools[id := row.(generation := row.generation + 1)]), false))
  }

  /** An operation whose change was applied ends when the cluster confirms it. */
  function FinishScaling(t: Tables, id: Id, op: Operation, applied: I64, ready: bool): Result<(Tables, bool)>
    requires id in t.pools && t.pools[id].cluster in t.clusters
  {
    var row := t.pools[id];
    if !(ready && applied == op.target && row.desiredVersion <= t.clusters[row.cluster].acknowledged) then Ok((t, false))
    else if op.up then Ok((t.(pools := t.pools[id := row.(scale := None)]), false))
    else Regenerated(t, id, row.(scale := None, state := Active))
  }

  /** An operation that still drains: cancelled, waiting, or proven. */
  function ContinueDrain(t: Tables, id: Id, current: I64, target: I64, ready: bool): Result<(Tables, bool)>
    requires id in t.pools && t.pools[id].cluster in t.clusters
  {
    var row := t.pools[id];
    if row.state != Draining then Err(Conflict)
    else if current <= target && ready then Regenerated(t, id, row.(state := Active, scale := None))
    else if !DrainProven(t, id) || !ready then Ok((t, false))
    else Apply(t, id, current, target, false)
  }

  function StartScaling(t: Tables, id: Id, current: I64, target: I64, ready: bool): Result<(Tables, bool)>
    requires id in t.pools && t.pools[id].cluster in t.clusters
  {
    var row := t.pools[id];
    if row.state != Active || !ready || target == current then Ok((t, false))
    else if current < target then Apply(t, id, current, target, true)
    else
      Regenerated(t, id, row.(state := Draining,
                              scale := Some(Operation(DrainPhase, target, current, row.desiredVersion, false))))
  }

  function Reconcile(t: Tables, id: Id, e: Option<ScaleEvidence>, applied: I64, ready: bool): Result<(Tables, bool)>
    requires id in t.pools && t.pools[id].cluster in t.clusters
  {
    var row := t.pools[id];
    if !row.expected.autoscaling.Managed? then Ok((t, false))
    else if row.scale.Some? && row.scale.value.phase == ApplyPhase then
      FinishScaling(t, id, row.scale.value, applied, ready)
    else if e.None? then Ok((t, false))
    else if !EvidenceOk(row.expected, e.value) then Err(Invalid)
    else if row.expected.replicas.None? || !I32(row.expected.replicas.value) then Err(Invalid)
    else if row.scale.Some? then ContinueDrain(t, id, row.expected.replicas.value, e.value.replicas, ready)
    else StartScaling(t, id, row.expected.replicas.value, e.value.replicas, ready)
  }

  // ---- observations -------------------------------------------------------

  predicate ObservationOk(q: Observation) {
    (q.uid.Some? ==> Uid(q.uid.value)) && (q.ready ==> q.uid.Some?)
  }

  /** The report answers the open task, for the pool as it is. */
  predicate Answers(t: Tables, row: Pool, q: Observation, now: int)
    requires row.cluster in t.clusters
  {
    && row.generation == q.generation
    && row.nonce == Some(q.nonce)
    && row.nonceUntil.Some? && now < row.nonceUntil.value
    && row.desiredVersion <= t.clusters[row.cluster].acknowledged
  }

  /** Idle evidence is about the fence that was asked for, which is still the
      latest end of the pool's orphans. */
  predicate FenceHolds(t: Tables, q: Observation, row: Pool) {
    q.idle ==>
      && q.idleAfter.Some? && q.idleAfter == row.idleAfter
      && OrphansDated(t, q.pool) && LatestEnd(t, q.pool, q.idleAfter)
  }

  function Observed(row: Pool, q: Observation, now: int): Pool {
    row.(nonce := None, nonceUntil := None,
         readyUntil := if q.ready then Some(now + 45 * SECOND) else None,
         uid := if row.uid.None? then q.uid else row.uid,
         state := if q.ready && row.state == PoolPending then Active else row.state,
         generation := if q.ready && row.state == PoolPending && row.generation < I64_MAX then row.generation + 1
                       else row.generation)
  }

  /** One cluster's row and one pool's are as they were. */
  predicate Untouched(t: Tables, after: Tables, c: Id, pool: Id) {
    && c in t.clusters && pool in t.pools && c in after.clusters && pool in after.pools
    && after.clusters[c] == t.clusters[c] && after.pools[pool] == t.pools[pool]
  }

  /** The first statements of an observation, which lock the cluster's row and the
      pool's: the report answers the open task and its fence still is the latest end. */
  function CheckObservation(t: Tables, id: Id, token: Token, q: Observation, now: int): Result<()> {
    if !ObservationOk(q) then Err(Invalid)
    else
      match Authenticated(t, id, token, now)
      case Err(error) => Err(error)
      case Ok(_) =>
        if q.pool !in t.pools then Err(NotFound)
        else
          var row := t.pools[q.pool];
          if row.cluster != id then Err(Forbidden)
          else if !Answers(t, row, q, now) || !FenceHolds(t, q, row) then Err(Conflict)
          else if q.uid.Some? && row.uid.Some? && row.uid != q.uid then Err(Conflict)
          else if q.ready && row.state == PoolPending && row.generation == I64_MAX then Err(Invalid)
          else Ok(())
  }

  function Seen(t: Tables, q: Observation, since: int): Tables
    requires q.pool in t.pools
  {
    t.(pools := t.pools[q.pool := Observed(t.pools[q.pool], q, since)])
  }

  /** Which views an idle report clears, among those that exist when it does. */
  function Clearing(t: Tables, q: Observation, since: int): Result<set<(Id, Id)>>
    requires q.pool in t.pools
  {
    if q.idle then ConfirmIdle(Seen(t, q, since), q.pool) else Ok({})
  }

  function Cleared(t: Tables, keys: set<(Id, Id)>): Tables {
    t.(views := ClearedAt(t.views, keys))
  }

  /** The last statements: the pool's row and the cleared views as written, and what
      scaling makes of them. The drain is judged by the views of this moment. */
  function Conclude(t: Tables, q: Observation, since: int, keys: set<(Id, Id)>): Result<(Tables, bool)>
    requires q.pool in t.pools && t.pools[q.pool].cluster in t.clusters
  {
    Reconcile(Cleared(Seen(t, q, since), keys), q.pool, q.scaling, q.applied, q.ready)
  }
}
