/** The control plane's transactions over clusters, pools and gateways. Each one
    works on a copy of the tables and commits it whole, or leaves them alone. */
module FleetService {
  import opened Prelude
  import opened Rows
  import opened FleetRows
  import opened ClusterRules
  import opened TrafficRules
  import opened ProofRules
  import opened PoolRules

  class Registry {
    var t: Tables

    constructor ()
      ensures t == NO_TABLES
    {
      t := NO_TABLES;
    }

    // ---- delivery ---------------------------------------------------------

    method PollCluster(id: Id, token: Token, lease: Token, now: int) returns (r: Result<Option<Delivery>>)
      modifies this
      ensures Committed(Poll(old(t), id, token, lease, now), old(t), t, r)
    {
      var row :- Authenticated(t, id, token, now);
      if row.leaseUntil.Some? && now < row.leaseUntil.value {
        return Ok(None);
      }
      if row.desired <= row.acknowledged {
        return Ok(None);
      }
      if (id, row.desired as int) !in t.revisions {
        return Err(Conflict);
      }
      var revision := t.revisions[(id, row.desired as int)];
      row := row.(delivery := row.desired);
      row := row.(lease := Some(lease), leaseUntil := Some(now + 60 * SECOND));
      t := t.(clusters := t.clusters[id := row]);
      return Ok(Some(Delivery(id, row.namespace, row.desired, revision.sha256, lease, revision.payload)));
    }

    method ReportCluster(id: Id, token: Token, q: ClusterReport, now: int) returns (r: Result<bool>)
      modifies this
      ensures Committed(Report(old(t), id, token, q, now), old(t), t, r)
    {
      hide ErrorCode;
      if !ReportOk(q) {
        return Err(Invalid);
      }
      var row :- Authenticated(t, id, token, now);
      if (id, q.version as int) !in t.revisions {
        return Err(NotFound);
      }
      if t.revisions[(id, q.version as int)].sha256 != q.sha256 {
        return Err(Conflict);
      }
      if row.acknowledged == q.version && q.outcome == Applied {
        return Ok(true);
      }
      if !LeaseLive(row, q, now) {
        return Err(Conflict);
      }
      if q.outcome == Applied {
        row := row.(acknowledged := q.version);
      }
      row := row.(lease := None, leaseUntil := None, lastError := q.errorCode);
      t := t.(clusters := t.clusters[id := row]);
      return Ok(false);
    }

    // ---- desired state ----------------------------------------------------

    /** Every managed deployment of the cluster that the request mentions must be
        unchanged, or drained and bound to the object that was observed. */
    method GuardDesired(id: Id, version: I64, items: seq<Item>) returns (r: Result<(map<Id, Pool>, seq<Item>)>)
      requires BoundOnce(t)
      ensures r.Ok? <==> GuardPasses(t, id, items, version)
      ensures r.Ok? ==>
        r.value.0 == GuardedPools(t, id, items, version) && GuardedItems(t, id, items, version, r.value.1)
    {
      hide GuardRow, Find, SoFar, GuardPasses, GuardedItems, GuardedPools, BoundOnce;
      var pools, listed := t.pools, items;
      var rest := t.pools.Keys;
      SoFarNothing(t, id, items, version);
      while rest != {}
        invariant rest <= t.pools.Keys && pools.Keys == t.pools.Keys && |listed| == |items|
        invariant SoFar(t, id, items, version, rest, pools, listed)
        decreases |rest|
      {
        var p :| p in rest;
        SoFarAt(t, id, items, version, rest, pools, listed, p);
        if Concerned(t, id, items, p) {
          var i := Find(items, t.pools[p].deployment).value;
          var guarded := GuardRow(t.pools[p], listed[i], version);
          if guarded.Err? {
            Refused(t, id, items, version, p);
            return Err(guarded.error);
          }
          pools := pools[p := guarded.value.0];
          listed := listed[i := guarded.value.1];
        }
        rest := rest - {p};
      }
      SoFarAll(t, id, items, version, pools, listed);
      return Ok((pools, listed));
    }

    method PutClusterDesired(id: Id, expected: I64, items: seq<Item>) returns (r: Result<seq<Item>>)
      requires BoundOnce(t)
      modifies this
      ensures r.Err? ==> t == old(t)
      ensures r.Ok? <==> PutCheck(old(t), id, expected, items).Ok?
                         && GuardPasses(old(t), id, items, PutCheck(old(t), id, expected, items).value)
      ensures r.Ok? ==>
        && GuardedItems(old(t), id, items, expected + 1, r.value)
        && t == Published(old(t).(pools := GuardedPools(old(t), id, items, expected + 1)), id, expected + 1, r.value)
    {
      hide GuardRow, Find, ItemsOk, Concerned, GuardPasses, GuardedItems, GuardedPools;
      var version :- PutCheck(t, id, expected, items);
      var guarded :- GuardDesired(id, version, items);
      t := t.(pools := guarded.0);
      t := t.(revisions := t.revisions[(id, version as int) := Revision(guarded.1, Digest(guarded.1))]);
      t := t.(clusters := t.clusters[id := t.clusters[id].(desired := version)]);
      return Ok(guarded.1);
    }

    // ---- binding and evidence ---------------------------------------------

    method BindPool(q: Binding, id: Id, now: int) returns (r: Result<()>)
      modifies this
      ensures match Bind(old(t), q, id, now)
              case Ok(after) => t == after && r == Ok(())
              case Err(error) => t == old(t) && r == Err(error)
    {
      hide Name, Find;
      if !Name(q.cluster) || !Name(q.deployment) {
        return Err(Invalid);
      }
      if !(1 <= q.protocol <= 2) {
        return Err(Invalid);
      }
      if q.cluster !in t.clusters {
        return Err(NotFound);
      }
      var cluster := t.clusters[q.cluster];
      if cluster.revoked.Some? || cluster.expires <= now || q.expectedVersion != cluster.desired {
        return Err(Conflict);
      }
      var spec :- DesiredSpec(t, q.cluster, q.deployment);
      if spec.autoscaling == Foreign {
        return Err(Invalid);
      }
      if spec.autoscaling.Managed? && q.protocol != 2 {
        return Err(Invalid);
      }
      if id in t.pools {
        return Err(Conflict);
      }
      if exists p :: p in t.pools && t.pools[p].cluster == q.cluster && t.pools[p].deployment == q.deployment {
        return Err(Conflict);
      }
      t := t.(pools := t.pools[id := Pool(q.cluster, q.deployment, 1, PoolPending, q.protocol, spec, q.expectedVersion,
                                          None, None, None, None, None, None)]);
      return Ok(());
    }

    /** A stopped gateway is retired with its requests unknown, all views at once. */
    method RetireViews(session: Id)
      modifies this
      ensures t == old(t).(views := OrphanedViews(old(t), session))
    {
      var rest := t.views.Keys;
      ghost var before := t;
      while rest != {}
        invariant rest <= before.views.Keys && t == before.(views := t.views) && t.views.Keys == before.views.Keys
        invariant forall k :: k in before.views ==>
          t.views[k] == if k in rest then before.views[k] else OrphanedViews(before, session)[k]
        decreases |rest|
      {
        var k :| k in rest;
        rest := rest - {k};
        if k.1 == session {
          t := t.(views := t.views[k := t.views[k].(retired := true, active := -1)]);
        }
      }
      assert t.views == OrphanedViews(before, session);
    }

    method ProveGateway(id: Id, token: Token, q: GatewayProof, now: int) returns (r: Result<()>)
      modifies this
      ensures match Prove(old(t), id, token, q, now)
              case Ok(after) => t == after && r == Ok(())
              case Err(error) => t == old(t) && r == Err(error)
    {
      hide OrphanedViews;
      var _ :- Authenticated(t, id, token, now);
      if q.session !in t.sessions {
        return Err(NotFound);
      }
      var row := t.sessions[q.session];
      if row.identity.None? || row.identity.value.cluster != id {
        return Err(Forbidden);
      }
      if row.proofNonce != Some(q.nonce) || row.proofUntil.None? || row.proofUntil.value <= now {
        return Err(Conflict);
      }
      var spent := row.(proofNonce := None, proofUntil := None);
      match q.outcome {
        case Bound =>
          if q.runtime.None? || row.closed {
            return Err(Invalid);
          }
          if row.runtime.Some? && row.runtime != q.runtime {
            return Err(Conflict);
          }
          spent := spent.(runtime := q.runtime);
        case Terminated =>
          if row.runtime.None? || row.runtime != q.runtime {
            return Err(Conflict);
          }
          if !row.closed {
            spent := spent.(closed := true, proof := Some(now));
            RetireViews(q.session);
          }
        case Unbound =>
          if row.runtime.Some? || (exists k :: k in t.views && k.1 == q.session) {
            return Err(Conflict);
          }
          spent := spent.(closed := true, proofComplete := true);
        case Cleaned =>
          if !row.closed {
            return Err(Conflict);
          }
          spent := spent.(proofComplete := true);
        case Unknown =>
      }
      t := t.(sessions := t.sessions[q.session := spent]);
      return Ok(());
    }

    // ---- operator transitions ---------------------------------------------

    method PoolTransition(id: Id, expected: I64, action: Action, now: int) returns (r: Result<PoolState>)
      modifies this
      ensures match Transition(old(t), id, expected, action, now)
              case Ok(after) => t == after && r.Ok? && id in after.pools && r.value == after.pools[id].state
              case Err(error) => t == old(t) && r == Err(error)
    {
      if id !in t.pools {
        return Err(NotFound);
      }
      var row := t.pools[id];
      if row.generation != expected {
        return Err(Conflict);
      }
      if row.scale.Some? {
        return Err(Conflict);
      }
      var state;
      match action {
        case Drain =>
          if row.state != Active && row.state != PoolPending {
            return Err(Conflict);
          }
          state := Draining;
        case FinishDrain =>
          if row.state != Draining {
            return Err(Conflict);
          }
          var proven := Drainable(t, id);
          if !proven {
            return Err(Conflict);
          }
          state := Drained;
        case Activate =>
          if row.state != Drained || row.readyUntil.None? || row.readyUntil.value <= now {
            return Err(Conflict);
          }
          state := Active;
      }
      var generation := row.generation;
      if action != FinishDrain {
        generation :- Next(row.generation);
      }
      row := row.(generation := generation, state := state, nonce := None, nonceUntil := None);
      t := t.(pools := t.pools[id := row]);
      return Ok(state);
    }

    // ---- observations -----------------------------------------------------

    /** Which views an idle report clears. */
    method ConfirmPoolIdle(id: Id) returns (r: Result<set<(Id, Id)>>)
      requires id in t.pools
      ensures r == ConfirmIdle(t, id)
    {
      if t.pools[id].state != Draining {
        return Err(Conflict);
      }
      if t.pools[id].protocol != 2 {
        return Err(Conflict);
      }
      var rest := t.views.Keys;
      var keys := {};
      while rest != {}
        invariant rest <= t.views.Keys
        invariant keys == set k | k in t.views && k !in rest && k.0 == id && t.views[k].retired && t.views[k].active < 0
        decreases |rest|
      {
        var k :| k in rest;
        rest := rest - {k};
        if k.0 == id && t.views[k].retired && t.views[k].active < 0 {
          keys := keys + {k};
        }
      }
      assert keys == UnknownViews(t, id);
      return Ok(keys);
    }

    /** Other transactions commit; what they may touch is the caller's business. */
    method Interfere(others: Tables)
      modifies this
      ensures t == others
    {
      t := others;
    }

    method ApplyReplicas(id: Id, current: I64, target: I64, up: bool) returns (r: Result<bool>)
      requires id in t.pools && t.pools[id].cluster in t.clusters
      modifies this
      ensures Committed(Apply(old(t), id, current, target, up), old(t), t, r)
    {
      hide WithItem;
      var row := t.pools[id];
      var cluster := t.clusters[row.cluster];
      if cluster.desired != cluster.acknowledged {
        return Ok(false);
      }
      if row.uid.None? {
        return Err(Conflict);
      }
      if (row.cluster, cluster.desired as int) !in t.revisions {
        return Err(Conflict);
      }
      var version :- Next(cluster.desired);
      var generation := row.generation;
      if !up {
        generation :- Next(row.generation);
      }
      var spec := row.expected.(replicas := Some(target));
      var items := WithItem(t.revisions[(row.cluster, cluster.desired as int)].payload,
                            Item(row.deployment, Some(spec), row.uid, None));
      t := t.(revisions := t.revisions[(row.cluster, version as int) := Revision(items, Digest(items))]);
      t := t.(clusters := t.clusters[row.cluster := cluster.(desired := version)]);
      var op := Operation(ApplyPhase, target, current, row.desiredVersion, up);
      row := row.(expected := spec, desiredVersion := version, scale := Some(op), nonce := None, nonceUntil := None);
      if !up {
        row := row.(state := Drained, readyUntil := None, generation := generation);
      }
      t := t.(pools := t.pools[id := row]);
      return Ok(true);
    }

    method ReconcileScaling(id: Id, e: Option<ScaleEvidence>, applied: I64, ready: bool) returns (r: Result<bool>)
      requires id in t.pools && t.pools[id].cluster in t.clusters
      modifies this
      ensures Committed(Reconcile(old(t), id, e, applied, ready), old(t), t, r)
    {
      hide EvidenceOk, Apply, DrainProven;
      var row := t.pools[id];
      if !row.expected.autoscaling.Managed? {
        return Ok(false);
      }
      if row.scale.Some? && row.scale.value.phase == ApplyPhase {
        var op := row.scale.value;
        if ready && applied == op.target && row.desiredVersion <= t.clusters[row.cluster].acknowledged {
          row := row.(scale := None);
          if !op.up {
            var generation :- Next(row.generation);
            row := row.(state := Active, generation := generation);
          }
          t := t.(pools := t.pools[id := row]);
        }
        return Ok(false);
      }
      if e.None? {
        return Ok(false);
      }
      if !EvidenceOk(row.expected, e.value) {
        return Err(Invalid);
      }
      if row.expected.replicas.None? || !I32(row.expected.replicas.value) {
        return Err(Invalid);
      }
      var current, target := row.expected.replicas.value, e.value.replicas;
      if row.scale.Some? {
        if row.state != Draining {
          return Err(Conflict);
        }
        if current <= target && ready {
          var generation :- Next(row.generation);
          t := t.(pools := t.pools[id := row.(state := Active, scale := None, generation := generation)]);
          return Ok(false);
        }
        var proven := Drainable(t, id);
        if !proven || !ready {
          return Ok(false);
        }
        r := ApplyReplicas(id, current, target, false);
        return;
      }
      if row.state != Active || !ready || target == current {
        return Ok(false);
      }
      if current < target {
        r := ApplyReplicas(id, current, target, true);
        return;
      }
      var generation :- Next(row.generation);
      var op := Operation(DrainPhase, target, current, row.desiredVersion, false);
      t := t.(pools := t.pools[id := row.(scale := Some(op), state := Draining, generation := generation)]);
      return Ok(false);
    }

    /** The report answers the open task of the cluster's pool, and idle evidence is
        about the fence that still holds. */
    method CheckReport(id: Id, token: Token, q: Observation, now: int) returns (r: Result<()>)
      ensures r == CheckObservation(t, id, token, q, now)
      ensures r.Ok? ==> id in t.clusters && q.pool in t.pools && t.pools[q.pool].cluster == id
    {
      hide OrphansDated, LatestEnd;
      if !ObservationOk(q) {
        return Err(Invalid);
      }
      var _ :- Authenticated(t, id, token, now);
      if q.pool !in t.pools {
        return Err(NotFound);
      }
      var row := t.pools[q.pool];
      if row.cluster != id {
        return Err(Forbidden);
      }
      if !Answers(t, row, q, now) {
        return Err(Conflict);
      }
      if q.idle {
        var after := IdleAfter(t, q.pool);
        if q.idleAfter.None? || q.idleAfter != row.idleAfter || after.Err? || q.idleAfter != after.value {
          IdleFence(t, q.pool, q.idleAfter, after);
          return Err(Conflict);
        }
      }
      if q.uid.Some? && row.uid.Some? && row.uid != q.uid {
        return Err(Conflict);
      }
      if q.ready && row.state == PoolPending && row.generation == I64_MAX {
        return Err(Invalid);
      }
      return Ok(());
    }

    /** Three parts, with others committing between them: the check of the fence, the
        clearing of unknown work, and the verdict on the drain. The locks keep the
        cluster's row and the pool's as they were; nothing else. */
    method ObservePool(id: Id, token: Token, q: Observation, now: int, between: Tables, later: Tables)
      returns (r: Result<bool>)
      requires id in t.clusters && q.pool in t.pools ==>
        Untouched(t, between, id, q.pool) && Untouched(between, later, id, q.pool)
      modifies this
      ensures CheckObservation(old(t), id, token, q, now).Err? ==>
        r == Err(CheckObservation(old(t), id, token, q, now).error) && t == old(t)
      ensures CheckObservation(old(t), id, token, q, now).Ok? ==>
        match Clearing(between, q, now)
        case Err(error) => r == Err(error) && t == between
        case Ok(keys) => Committed(Conclude(later, q, now, keys), later, t, r)
    {
      hide Reconcile, ClearedAt, OrphansDated, LatestEnd, UnknownViews, CheckObservation;
      var _ :- CheckReport(id, token, q, now);
      var row := t.pools[q.pool];
      Interfere(between);
      var keys: set<(Id, Id)> := {};
      if q.idle {
        var idle := ConfirmPoolIdle(q.pool);
        SameViews(between, q, now);
        if idle.Err? {
          return Err(idle.error);
        }
        keys := idle.value;
      }
      Interfere(later);
      t := t.(pools := t.pools[q.pool := Observed(row, q, now)], views := ClearedAt(t.views, keys));
      r := ReconcileScaling(q.pool, q.scaling, q.applied, q.ready);
      if r.Err? {
        t := later;
      }
    }
  }

  /** An observation by itself does not drain a pool, nor changes its views. */
  lemma SameViews(t: Tables, q: Observation, now: int)
    requires q.pool in t.pools && q.idle
    ensures Clearing(t, q, now) == ConfirmIdle(t, q.pool)
  {
  }

  /** The query of finish-drain: no view of the pool stands in the way. */
  method Drainable(t: Tables, pool: Id) returns (proven: bool)
    requires pool in t.pools
    ensures proven == DrainProven(t, pool)
  {
    var rest := t.views.Keys;
    while rest != {}
      invariant rest <= t.views.Keys
      invariant forall k :: k in t.views && k !in rest && k.0 == pool ==> !Blocks(t.views[k], t.pools[pool].generation)
      decreases |rest|
    {
      var k :| k in rest;
      rest := rest - {k};
      if k.0 == pool && Blocks(t.views[k], t.pools[pool].generation) {
        return false;
      }
    }
    return true;
  }

  /** The latest proven end among the pool's orphans; an orphan without one is an
      error. */
  method IdleAfter(t: Tables, pool: Id) returns (r: Result<Option<int>>)
    ensures r.Ok? <==> OrphansDated(t, pool)
    ensures r.Ok? ==> LatestEnd(t, pool, r.value)
  {
    var after: Option<int> := None;
    var rest := t.views.Keys;
    while rest != {}
      invariant rest <= t.views.Keys
      invariant forall k :: k in t.views && k !in rest && Orphan(t, pool, k) ==>
        k.1 in t.sessions && t.sessions[k.1].proof.Some? && after.Some? && t.sessions[k.1].proof.value <= after.value
      invariant after.Some? ==>
        exists k :: k in t.views && Orphan(t, pool, k) && k.1 in t.sessions && t.sessions[k.1].proof == after
      decreases |rest|
    {
      var k :| k in rest;
      rest := rest - {k};
      if Orphan(t, pool, k) {
        if k.1 !in t.sessions || t.sessions[k.1].proof.None? {
          return Err(Invalid);
        }
        var end := t.sessions[k.1].proof.value;
        after := Some(if after.Some? then Max(after.value, end) else end);
      }
    }
    return Ok(after);
  }

  /** The computed fence is the one the rules mean. */
  lemma IdleFence(t: Tables, pool: Id, claimed: Option<int>, after: Result<Option<int>>)
    requires after.Ok? <==> OrphansDated(t, pool)
    requires after.Ok? ==> LatestEnd(t, pool, after.value)
    ensures OrphansDated(t, pool) && LatestEnd(t, pool, claimed) ==> after == Ok(claimed)
  {
    if OrphansDated(t, pool) && LatestEnd(t, pool, claimed) {
      LatestEndUnique(t, pool, claimed, after.value);
    }
  }

  // ---- the guard, part way ------------------------------------------------

  /** The place of the list belongs to a pool that was already guarded. */
  predicate Touched(t: Tables, id: Id, items: seq<Item>, rest: set<Id>, i: nat) {
    exists p :: p in t.pools && p !in rest && Concerned(t, id, items, p) && Find(items, t.pools[p].deployment) == Some(i)
  }

  /** The rows outside rest have been guarded, and no others. */
  ghost predicate PoolsSoFar(t: Tables, id: Id, items: seq<Item>, version: I64, rest: set<Id>, pools: map<Id, Pool>)
    requires pools.Keys == t.pools.Keys
  {
    && (forall p :: p in t.pools && (p in rest || !Concerned(t, id, items, p)) ==> pools[p] == t.pools[p])
    && (forall p :: p in t.pools && p !in rest && Concerned(t, id, items, p) ==>
          Guarding(t, items, p, version).Ok? && pools[p] == Guarding(t, items, p, version).value.0)
  }

  /** And so have their items. */
  ghost predicate ItemsSoFar(t: Tables, id: Id, items: seq<Item>, version: I64, rest: set<Id>, listed: seq<Item>)
    requires |listed| == |items|
  {
    && (forall p :: p in t.pools && p !in rest && Concerned(t, id, items, p) ==>
          && Guarding(t, items, p, version).Ok?
          && listed[Find(items, t.pools[p].deployment).value] == Guarding(t, items, p, version).value.1)
    && (forall i :: 0 <= i < |items| && !Touched(t, id, items, rest, i) ==> listed[i] == items[i])
  }

  ghost predicate SoFar(t: Tables, id: Id, items: seq<Item>, version: I64, rest: set<Id>, pools: map<Id, Pool>,
                        listed: seq<Item>)
    requires rest <= t.pools.Keys && pools.Keys == t.pools.Keys && |listed| == |items|
  {
    PoolsSoFar(t, id, items, version, rest, pools) && ItemsSoFar(t, id, items, version, rest, listed)
  }

  lemma SoFarNothing(t: Tables, id: Id, items: seq<Item>, version: I64)
    ensures SoFar(t, id, items, version, t.pools.Keys, t.pools, items)
  {
    hide GuardRow, Find;
  }

  /** A deployment is one pool's, so no other pool has touched its place. */
  lemma OnlyOne(t: Tables, id: Id, items: seq<Item>, p: Id, q: Id)
    requires BoundOnce(t) && Concerned(t, id, items, p) && Concerned(t, id, items, q)
    requires Find(items, t.pools[p].deployment) == Find(items, t.pools[q].deployment)
    ensures p == q
  {
    assert SameDeployment(t.pools[p], t.pools[q]);
  }

  lemma SoFarAt(t: Tables, id: Id, items: seq<Item>, version: I64, rest: set<Id>, pools: map<Id, Pool>,
                listed: seq<Item>, p: Id)
    requires BoundOnce(t) && rest <= t.pools.Keys && pools.Keys == t.pools.Keys && |listed| == |items| && p in rest
    requires SoFar(t, id, items, version, rest, pools, listed)
    ensures !Concerned(t, id, items, p) ==> SoFar(t, id, items, version, rest - {p}, pools, listed)
    ensures Concerned(t, id, items, p) ==>
      var i := Find(items, t.pools[p].deployment).value;
      var guarded := GuardRow(t.pools[p], listed[i], version);
      && guarded == Guarding(t, items, p, version)
      && (guarded.Ok? ==>
            SoFar(t, id, items, version, rest - {p}, pools[p := guarded.value.0], listed[i := guarded.value.1]))
  {
    hide GuardRow, Find;
    if Concerned(t, id, items, p) {
      var i := Find(items, t.pools[p].deployment).value;
      if Touched(t, id, items, rest, i) {
        var q :| q in t.pools && q !in rest && Concerned(t, id, items, q) && Find(items, t.pools[q].deployment) == Some(i);
        OnlyOne(t, id, items, p, q);
        assert false;
      }
      if GuardRow(t.pools[p], listed[i], version).Ok? {
        SoFarNext(t, id, items, version, rest, pools, listed, p);
      }
    } else {
      SoFarSkip(t, id, items, version, rest, pools, listed, p);
    }
  }

  lemma SoFarSkip(t: Tables, id: Id, items: seq<Item>, version: I64, rest: set<Id>, pools: map<Id, Pool>,
                  listed: seq<Item>, p: Id)
    requires rest <= t.pools.Keys && pools.Keys == t.pools.Keys && |listed| == |items| && p in rest
    requires SoFar(t, id, items, version, rest, pools, listed) && !Concerned(t, id, items, p)
    ensures SoFar(t, id, items, version, rest - {p}, pools, listed)
  {
    hide GuardRow, Find, Concerned;
    forall i | 0 <= i < |items| && !Touched(t, id, items, rest - {p}, i) ensures listed[i] == items[i] {
      assert !Touched(t, id, items, rest, i);
    }
  }

  lemma StillUntouched(t: Tables, id: Id, items: seq<Item>, rest: set<Id>, p: Id, j: nat)
    requires Concerned(t, id, items, p) && !Touched(t, id, items, rest - {p}, j)
    ensures !Touched(t, id, items, rest, j) && Find(items, t.pools[p].deployment) != Some(j)
  {
    hide Find;
  }

  lemma SoFarNext(t: Tables, id: Id, items: seq<Item>, version: I64, rest: set<Id>, pools: map<Id, Pool>,
                  listed: seq<Item>, p: Id)
    requires BoundOnce(t) && rest <= t.pools.Keys && pools.Keys == t.pools.Keys && |listed| == |items| && p in rest
    requires SoFar(t, id, items, version, rest, pools, listed) && Concerned(t, id, items, p)
    requires Guarding(t, items, p, version).Ok?
    ensures SoFar(t, id, items, version, rest - {p}, pools[p := Guarding(t, items, p, version).value.0],
                  listed[Find(items, t.pools[p].deployment).value := Guarding(t, items, p, version).value.1])
  {
    hide Guarding, Find, PoolsSoFar, ItemsSoFar;
    PoolsNext(t, id, items, version, rest, pools, p);
    ItemsNext(t, id, items, version, rest, listed, p);
  }

  lemma PoolsNext(t: Tables, id: Id, items: seq<Item>, version: I64, rest: set<Id>, pools: map<Id, Pool>, p: Id)
    requires pools.Keys == t.pools.Keys && p in rest && Concerned(t, id, items, p)
    requires PoolsSoFar(t, id, items, version, rest, pools) && Guarding(t, items, p, version).Ok?
    ensures PoolsSoFar(t, id, items, version, rest - {p}, pools[p := Guarding(t, items, p, version).value.0])
  {
    hide Guarding, Find;
  }

  lemma ItemsNext(t: Tables, id: Id, items: seq<Item>, version: I64, rest: set<Id>, listed: seq<Item>, p: Id)
    requires BoundOnce(t) && |listed| == |items| && p in rest && Concerned(t, id, items, p)
    requires ItemsSoFar(t, id, items, version, rest, listed) && Guarding(t, items, p, version).Ok?
    ensures ItemsSoFar(t, id, items, version, rest - {p},
                       listed[Find(items, t.pools[p].deployment).value := Guarding(t, items, p, version).value.1])
  {
    hide Guarding, Find, Touched;
    var i := Find(items, t.pools[p].deployment).value;
    var after := listed[i := Guarding(t, items, p, version).value.1];
    forall q | q in t.pools && q !in rest - {p} && Concerned(t, id, items, q)
      ensures Guarding(t, items, q, version).Ok?
      ensures after[Find(items, t.pools[q].deployment).value] == Guarding(t, items, q, version).value.1
    {
      if q != p { OtherPlace(t, id, items, p, q); }
    }
    forall j | 0 <= j < |items| && !Touched(t, id, items, rest - {p}, j) ensures after[j] == items[j] {
      StillUntouched(t, id, items, rest, p, j);
    }
  }

  /** Two pools of the cluster have two places in the list. */
  lemma OtherPlace(t: Tables, id: Id, items: seq<Item>, p: Id, q: Id)
    requires BoundOnce(t) && Concerned(t, id, items, p) && Concerned(t, id, items, q) && p != q
    ensures Find(items, t.pools[p].deployment).value != Find(items, t.pools[q].deployment).value
  {
    hide Find;
    if Find(items, t.pools[p].deployment).value == Find(items, t.pools[q].deployment).value {
      OnlyOne(t, id, items, p, q);
    }
  }

  lemma Refused(t: Tables, id: Id, items: seq<Item>, version: I64, p: Id)
    requires Concerned(t, id, items, p) && Guarding(t, items, p, version).Err?
    ensures !GuardPasses(t, id, items, version)
  {
  }

  lemma SoFarAll(t: Tables, id: Id, items: seq<Item>, version: I64, pools: map<Id, Pool>, listed: seq<Item>)
    requires pools.Keys == t.pools.Keys && |listed| == |items| && SoFar(t, id, items, version, {}, pools, listed)
    ensures GuardPasses(t, id, items, version)
    ensures pools == GuardedPools(t, id, items, version) && GuardedItems(t, id, items, version, listed)
  {
    hide GuardRow, Find;
    assert forall i :: 0 <= i < |items| && Touched(t, id, items, {}, i) ==> ManagesItem(t, id, items, i);
  }
}
