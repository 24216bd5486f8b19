/** Rows of member clusters, their desired revisions, managed pools, and the
    gateways that send traffic to them. */
module FleetRows {
  import opened Prelude
  import opened Rows

  // ---- desired state ------------------------------------------------------

  datatype Autoscaling =
    | Manual
    | Managed(minReplicas: Option<I64>, maxReplicas: Option<I64>)
    | Foreign

  /** A deployment spec: what may change is the replica count. */
  datatype Spec = Spec(model: Id, identity: Id, autoscaling: Autoscaling, replicas: Option<I64>)

  datatype Item = Item(name: Id, spec: Option<Spec>, expectedUid: Option<Id>, deleteUid: Option<Id>)

  /** SHA-256 of the payload, taken to be injective. */
  datatype Digest = Digest(payload: seq<Item>)

  datatype Revision = Revision(payload: seq<Item>, sha256: Digest)

  datatype Cluster = Cluster(
    namespace: Id,
    credential: Token,
    epoch: I64,
    expires: int,
    revoked: Option<int>,
    desired: I64,
    acknowledged: I64,
    delivery: I64,
    lease: Option<Token>,
    leaseUntil: Option<int>,
    lastError: Option<string>)

  // ---- pools --------------------------------------------------------------

  datatype PoolState = PoolPending | Active | Draining | Drained | Retired

  datatype Phase = DrainPhase | ApplyPhase

  datatype Operation = Operation(phase: Phase, target: I64, from: I64, previousVersion: I64, up: bool)

  datatype Pool = Pool(
    cluster: Id,
    deployment: Id,
    generation: I64,
    state: PoolState,
    protocol: int,
    expected: Spec,
    desiredVersion: I64,
    uid: Option<Id>,
    readyUntil: Option<int>,
    nonce: Option<Token>,
    nonceUntil: Option<int>,
    scale: Option<Operation>,
    idleAfter: Option<int>)

  // ---- gateways -----------------------------------------------------------

  /** The pod a gateway incarnation says it is, in its cluster. */
  datatype Identity = Identity(cluster: Id, podUid: Id)

  /** An ACK: the counts of a gateway at one snapshot. */
  datatype TrafficReport = TrafficReport(
    session: Id,
    sequence: I64,
    nonce: Token,
    active: map<Id, nat>,
    closed: bool)

  datatype Session = Session(
    identity: Option<Identity>,
    runtime: Option<Id>,
    closed: bool,
    sequence: I64,
    nonce: Token,
    reported: Option<TrafficReport>,
    proof: Option<int>,
    proofNonce: Option<Token>,
    proofUntil: Option<int>,
    proofComplete: bool)

  /** What the server knows of one gateway's traffic to one pool. -1 is unknown. */
  datatype View = View(delivered: I64, acknowledged: I64, active: int, retired: bool)

  datatype Control = Control(generation: I64, accepting: bool)

  datatype Snapshot = Snapshot(session: Id, sequence: I64, nonce: Token, pools: map<Id, Control>)

  // ---- tables -------------------------------------------------------------

  datatype Tables = Tables(
    clusters: map<Id, Cluster>,
    revisions: map<(Id, int), Revision>,
    pools: map<Id, Pool>,
    sessions: map<Id, Session>,
    views: map<(Id, Id), View>)

  const NO_TABLES := Tables(map[], map[], map[], map[], map[])

  const DAY := 86_400 * SECOND

  predicate NameByte(c: char) {
    'a' <= c <= 'z' || '0' <= c <= '9' || c == '-'
  }

  predicate Name(s: string) {
    0 < |s| <= 63 && s[0] != '-' && s[|s| - 1] != '-' && forall i :: 0 <= i < |s| ==> NameByte(s[i])
  }

  predicate Uid(s: Id) {
    0 < |s| <= 128
  }

  function Next(n: I64): Result<I64> {
    if n == I64_MAX then Err(Invalid) else Ok(n + 1)
  }
}
