/** A managed pool never shrinks and is never retired while a gateway may still
    send it traffic, over every interleaving of operators, the autoscaler, agents,
    lost or late messages, and gateways that stop without a word. */
module DrainSafety {
  import opened Prelude
  import opened Rows
  import opened FleetRows
  import opened ClusterRules
  import opened TrafficRules
  import opened ProofRules
  import opened PoolRules
  import opened FleetWorld

  // ---- what must not happen while a pool shrinks --------------------------

  /** The process takes no requests for the pool, now or after any snapshot that
      is still on its way to it. */
  ghost predicate CannotServe(w: World, pool: Id, s: Id)
    requires s in w.gateways
  {
    var g := w.gateways[s];
    || g.dead || g.closed
    || forall x :: x in w.sent && x.session == s && (g.installed.Some? ==> g.installed.value.sequence <= x.sequence)
         ==> !AcceptingIn(x, pool)
  }

  /** No request can start on the pool, and none is open but of gateways whose unknown
      work was cleared on a fence before their end. */
  ghost predicate Quiet(w: World, pool: Id) {
    forall s :: s in w.gateways ==> Silent(w, pool, s) && CannotServe(w, pool, s)
  }

  predicate Silent(w: World, pool: Id, s: Id)
    requires s in w.gateways
  {
    WorkOf(w.gateways[s], pool) == 0 || (pool, s) in w.early
  }

  ghost predicate Shut(state: PoolState) {
    state == Drained || state == Retired
  }

  // ---- invariants ---------------------------------------------------------

  /** Snapshots exist only for started gateways, under sequences given out. */
  ghost predicate SentOk(w: World) {
    && (forall x :: x in w.sent ==>
          x.session in w.gateways && x.session in w.t.sessions && 1 <= x.sequence <= w.t.sessions[x.session].sequence)
    && (forall x, y :: x in w.sent && y in w.sent && x.session == y.session && x.sequence == y.sequence ==> x == y)
    && (forall s :: s in w.t.sessions ==> 0 <= w.t.sessions[s].sequence)
  }

  ghost predicate NoOlder(x: Snapshot, y: Snapshot) {
    forall p :: p in x.pools ==> p in y.pools && x.pools[p].generation <= y.pools[p].generation
  }

  /** Later snapshots know no older generation. */
  ghost predicate SentInOrder(w: World) {
    forall x, y :: x in w.sent && y in w.sent && x.session == y.session && x.sequence <= y.sequence ==> NoOlder(x, y)
  }

  /** An accepting snapshot is from an open generation, and its gateway is on record. */
  ghost predicate ControlOk(w: World, x: Snapshot, p: Id)
    requires p in x.pools
  {
    && p in w.t.pools && 1 <= x.pools[p].generation <= w.t.pools[p].generation
    && (x.pools[p].accepting ==>
          && (p, x.session) in w.t.views
          && (w.t.pools[p].state != Active ==> x.pools[p].generation < w.t.pools[p].generation))
  }

  ghost predicate ControlsOk(w: World) {
    forall x, p :: x in w.sent && p in x.pools ==> ControlOk(w, x, p)
  }

  /** The newest snapshot of a gateway is what its views were delivered. */
  ghost predicate LatestOk(w: World) {
    forall x, p :: x in w.sent && IsLatest(w.t, x) && (p, x.session) in w.t.views ==>
      p in x.pools && x.pools[p].generation == w.t.views[(p, x.session)].delivered
  }

  predicate IsLatest(t: Tables, x: Snapshot) {
    x.session in t.sessions && x.sequence == t.sessions[x.session].sequence
  }

  ghost predicate GatewayOk(w: World, s: Id)
    requires s in w.gateways
  {
    var g := w.gateways[s];
    && (g.installed.Some? ==> g.installed.value in w.sent && g.installed.value.session == s)
    && (forall p :: p in g.work && 0 < g.work[p] ==> (p, s) in w.t.views)
  }

  ghost predicate GatewaysOk(w: World) {
    forall s :: s in w.gateways ==> GatewayOk(w, s)
  }

  function Count(r: TrafficReport, p: Id): nat {
    if p in r.active then r.active[p] else 0
  }

  /** A report still bounds the work it counted: for good if the process closed,
      otherwise for the pools that its snapshot closed, until a newer snapshot. */
  ghost predicate MessageOk(w: World, r: TrafficReport) {
    && r.session in w.gateways
    && var g := w.gateways[r.session];
       && g.installed.Some? && r.sequence <= g.installed.value.sequence
       && (r.closed ==> g.closed && forall p :: p in g.work ==> g.work[p] <= Count(r, p))
       && (r.sequence == g.installed.value.sequence ==>
             forall p :: p in g.work && !AcceptingIn(g.installed.value, p) ==> g.work[p] <= Count(r, p))
  }

  ghost predicate MessagesOk(w: World) {
    forall r :: r in w.reports ==> MessageOk(w, r)
  }

  /** The gateway works with a snapshot at least as new as it acknowledged. */
  ghost predicate Knows(g: Gateway, p: Id, generation: int) {
    g.installed.Some? && p in g.installed.value.pools && generation <= g.installed.value.pools[p].generation
  }

  ghost predicate ViewOk(w: World, k: (Id, Id))
    requires k in w.t.views
  {
    var v := w.t.views[k];
    && k.0 in w.t.pools && k.1 in w.t.sessions && k.1 in w.gateways
    && 0 <= v.acknowledged <= v.delivered <= w.t.pools[k.0].generation
    && (!v.retired ==>
          && 0 <= v.active
          && (0 < v.acknowledged ==> Knows(w.gateways[k.1], k.0, v.acknowledged))
          && (w.t.pools[k.0].generation <= v.acknowledged && w.t.pools[k.0].state != Active ==>
                WorkOf(w.gateways[k.1], k.0) <= v.active))
    && (v.retired ==>
          && w.t.sessions[k.1].closed
          && -1 <= v.active <= 0
          && (v.active == 0 ==>
                (w.gateways[k.1].closed || w.gateways[k.1].dead) && Silent(w, k.0, k.1))
          && (v.active < 0 ==> w.t.sessions[k.1].proof.Some?))
  }

  ghost predicate ViewsOk(w: World) {
    forall k :: k in w.t.views ==> ViewOk(w, k)
  }

  /** A proven end is real, and nothing was left running when the entry was seen
      idle after it. */
  ghost predicate ProofOk(w: World, s: Id)
    requires s in w.t.sessions
  {
    w.t.sessions[s].proof.Some? ==>
      && s in w.gateways && w.gateways[s].dead
      && w.t.sessions[s].proof.value <= w.clock
      && forall p :: p in w.idle && w.t.sessions[s].proof.value < w.idle[p] ==> WorkOf(w.gateways[s], p) == 0
  }

  ghost predicate ProofsOk(w: World) {
    && (forall s :: s in w.t.sessions ==> ProofOk(w, s))
    && (forall p :: p in w.idle ==> w.idle[p] <= w.clock)
  }

  ghost predicate PoolsOk(w: World) {
    && (forall p :: p in w.t.pools ==> 1 <= w.t.pools[p].generation)
    && (forall p :: p in w.t.pools && Shut(w.t.pools[p].state) ==> Quiet(w, p))
  }

  /** The gateway named another cluster than the pool's. */
  predicate Elsewhere(t: Tables, k: (Id, Id)) {
    && k.0 in t.pools && k.1 in t.sessions && t.sessions[k.1].identity.Some?
    && t.sessions[k.1].identity.value.cluster != t.pools[k.0].cluster
  }

  /** Only foreign gateways that ended are ever cleared early. */
  ghost predicate EarlyOk(w: World) {
    forall k :: k in w.early ==>
      && k in w.t.views && w.t.views[k].retired && 0 <= w.t.views[k].active && Elsewhere(w.t, k)
      && k.1 in w.gateways && w.gateways[k.1].dead
  }

  /** While an observation is under way: the orphans it found are still there, those
      are the ones its fence covers, and all that came since are foreign. */
  ghost predicate FenceStands(w: World, r: Checked) {
    && r.observation.idleAfter.Some? && r.observation.pool in w.idle
    && r.observation.idleAfter.value < w.idle[r.observation.pool]
    && (forall k :: k in r.orphans ==> k in w.t.views && Orphan(w.t, r.observation.pool, k))
    && (forall k :: k in w.t.views && Orphan(w.t, r.observation.pool, k) ==>
          && k.1 in w.t.sessions && w.t.sessions[k.1].proof.Some?
          && (k in r.orphans <==> Covered(w.t, r.observation, k))
          && (k !in r.orphans ==> Elsewhere(w.t, k)))
  }

  ghost predicate CheckOk(w: World, c: Id)
    requires c in w.checked
  {
    var r := w.checked[c];
    && r.observation.pool in w.t.pools && w.t.pools[r.observation.pool].cluster == c
    && (r.observation.idle ==> FenceStands(w, r))
    && (r.cleared.Some? ==>
          r.observation.idle
          && forall k :: k in r.cleared.value ==>
               k in w.t.views && w.t.views[k].retired && Orphan(w.t, r.observation.pool, k))
  }

  ghost predicate ChecksOk(w: World) {
    forall c :: c in w.checked ==> CheckOk(w, c)
  }

  ghost predicate RaceOk(w: World) {
    EarlyOk(w) && ChecksOk(w)
  }

  ghost predicate Inv(w: World) {
    && SentOk(w) && SentInOrder(w) && ControlsOk(w) && LatestOk(w) && GatewaysOk(w) && MessagesOk(w) && ViewsOk(w)
    && ProofsOk(w) && PoolsOk(w) && RaceOk(w)
  }

  // ---- what leaves observations under way alone ---------------------------

  predicate StaysRetired(a: View, b: View) {
    (a.retired ==> b.retired) && (a.active < 0 <==> b.active < 0)
  }

  /** Views stay retired and unknown or not, ends stay, and idle sightings get newer. */
  ghost predicate Unraced(w: World, w': World) {
    && w'.checked == w.checked && w'.early == w.early
    && (forall p :: p in w.t.pools ==> p in w'.t.pools && w'.t.pools[p].cluster == w.t.pools[p].cluster)
    && (forall s :: s in w.t.sessions ==>
          && s in w'.t.sessions && w'.t.sessions[s].identity == w.t.sessions[s].identity
          && w'.t.sessions[s].proof == w.t.sessions[s].proof)
    && (forall k :: k in w.t.views ==> k in w'.t.views && StaysRetired(w.t.views[k], w'.t.views[k]))
    && (forall k :: k in w'.t.views && k !in w.t.views ==> 0 <= w'.t.views[k].active)
    && (forall s :: s in w.gateways ==> s in w'.gateways && (w.gateways[s].dead ==> w'.gateways[s].dead))
    && (forall p :: p in w.idle ==> p in w'.idle && w.idle[p] <= w'.idle[p])
  }

  lemma RaceStays(w: World, w': World)
    requires RaceOk(w) && Unraced(w, w')
    ensures RaceOk(w')
  {
    forall c | c in w'.checked ensures CheckOk(w', c) {
      assert CheckOk(w, c);
      CheckStays(w, w', c);
    }
  }

  lemma CheckStays(w: World, w': World, c: Id)
    requires c in w.checked && CheckOk(w, c) && Unraced(w, w')
    ensures CheckOk(w', c)
  {
    var r := w.checked[c];
    if r.observation.idle {
      forall k | k in w'.t.views && Orphan(w'.t, r.observation.pool, k)
        ensures k.1 in w'.t.sessions && w'.t.sessions[k.1].proof.Some?
        ensures k in r.orphans <==> Covered(w'.t, r.observation, k)
        ensures k !in r.orphans ==> Elsewhere(w'.t, k)
      {
        assert k in w.t.views && Orphan(w.t, r.observation.pool, k);
      }
    }
  }

  // ---- the drain proof ----------------------------------------------------

  /** What the table check of a drain proves about the processes themselves. */
  lemma ProvenDrainIsQuiet(w: World, pool: Id)
    requires Inv(w) && pool in w.t.pools && w.t.pools[pool].state == Draining && DrainProven(w.t, pool)
    ensures Quiet(w, pool)
  {
    forall s | s in w.gateways ensures Silent(w, pool, s) && CannotServe(w, pool, s) {
      if (pool, s) in w.t.views {
        ProvenView(w, pool, s);
      } else {
        UnknownGateway(w, pool, s);
      }
    }
  }

  /** Without a view the gateway was never told to accept. */
  lemma UnknownGateway(w: World, pool: Id, s: Id)
    requires Inv(w) && s in w.gateways && (pool, s) !in w.t.views
    ensures Silent(w, pool, s) && CannotServe(w, pool, s)
  {
    hide SentOk, SentInOrder, LatestOk, MessagesOk, ViewsOk, ProofsOk, PoolsOk;
    assert GatewayOk(w, s);
    forall x | x in w.sent && x.session == s ensures !AcceptingIn(x, pool) {
      if pool in x.pools {
        assert ControlOk(w, x, pool);
      }
    }
  }

  lemma ProvenView(w: World, pool: Id, s: Id)
    requires Inv(w) && s in w.gateways && (pool, s) in w.t.views && pool in w.t.pools
    requires w.t.pools[pool].state == Draining && !Blocks(w.t.views[(pool, s)], w.t.pools[pool].generation)
    ensures Silent(w, pool, s) && CannotServe(w, pool, s)
  {
    hide SentOk, LatestOk, MessagesOk, ProofsOk, NoOlder;
    var v, g := w.t.views[(pool, s)], w.gateways[s];
    assert ViewOk(w, (pool, s));
    if !v.retired {
      assert GatewayOk(w, s) && Knows(g, pool, w.t.pools[pool].generation);
      forall x | x in w.sent && x.session == s && g.installed.value.sequence <= x.sequence
        ensures !AcceptingIn(x, pool)
      {
        Newer(w, g.installed.value, x, pool);
        assert ControlOk(w, x, pool);
      }
    }
  }

  lemma Newer(w: World, x: Snapshot, y: Snapshot, p: Id)
    requires SentInOrder(w) && x in w.sent && y in w.sent && x.session == y.session && x.sequence <= y.sequence
    requires p in x.pools
    ensures p in y.pools && x.pools[p].generation <= y.pools[p].generation
  {
    assert NoOlder(x, y);
  }

  // ---- moves of pools -----------------------------------------------------

  /** Leaving Active takes a new generation; closing takes a proven drain. */
  ghost predicate PoolMoves(t: Tables, p: Id, a: Pool, b: Pool)
    requires p in t.pools
  {
    && a.generation <= b.generation && b.cluster == a.cluster
    && (a.state == Active && b.state != Active ==> a.generation < b.generation)
    && (Shut(b.state) ==> Shut(a.state) || (a.state == Draining && DrainProven(t, p)))
  }

  /** Pools move as they may, new ones start pending; gateways are not touched. */
  ghost predicate PoolsMove(t: Tables, after: Tables) {
    && after.sessions == t.sessions && after.views == t.views
    && (forall p :: p in t.pools ==> p in after.pools && PoolMoves(t, p, t.pools[p], after.pools[p]))
    && (forall p :: p in after.pools && p !in t.pools ==> 1 <= after.pools[p].generation && !Shut(after.pools[p].state))
  }

  lemma PoolsStep(w: World, after: Tables)
    requires Inv(w) && PoolsMove(w.t, after)
    ensures Inv(w.(t := after))
  {
    var w' := w.(t := after);
    PoolsUnraced(w, after);
    RaceStays(w, w');
    hide RaceOk;
    PoolsStepControls(w, after);
    PoolsStepViews(w, after);
    hide SentInOrder, ControlsOk, ViewsOk, DrainProven, CannotServe;
    forall p | p in after.pools && Shut(after.pools[p].state) ensures Quiet(w', p) {
      if !Shut(w.t.pools[p].state) {
        ProvenDrainIsQuiet(w, p);
      }
      SameQuiet(w, w', p);
    }
    forall s | s in w'.gateways ensures GatewayOk(w', s) {
      assert GatewayOk(w, s);
    }
    forall s | s in w'.t.sessions ensures ProofOk(w', s) {
      assert ProofOk(w, s);
    }
    forall r | r in w'.reports ensures MessageOk(w', r) {
      assert MessageOk(w, r);
    }
    assert SentInOrder(w') by { SameSent(w, w'); }
  }

  lemma PoolsUnraced(w: World, after: Tables)
    requires PoolsMove(w.t, after)
    ensures Unraced(w, w.(t := after))
  {
    forall p | p in w.t.pools ensures p in after.pools && after.pools[p].cluster == w.t.pools[p].cluster {
      assert PoolMoves(w.t, p, w.t.pools[p], after.pools[p]);
    }
  }

  lemma SameQuiet(w: World, w': World, p: Id)
    requires w'.gateways == w.gateways && w'.sent == w.sent && w'.early == w.early
    ensures Quiet(w, p) <==> Quiet(w', p)
  {
  }

  lemma SameSent(w: World, w': World)
    requires w'.sent == w.sent
    ensures SentInOrder(w) <==> SentInOrder(w')
  {
  }

  lemma PoolsStepControls(w: World, after: Tables)
    requires ControlsOk(w) && PoolsMove(w.t, after)
    ensures ControlsOk(w.(t := after))
  {
    var w' := w.(t := after);
    forall x, p | x in w'.sent && p in x.pools ensures ControlOk(w', x, p) {
      assert ControlOk(w, x, p) && PoolMoves(w.t, p, w.t.pools[p], after.pools[p]);
    }
  }

  lemma PoolsStepViews(w: World, after: Tables)
    requires ViewsOk(w) && PoolsMove(w.t, after)
    ensures ViewsOk(w.(t := after))
  {
    var w' := w.(t := after);
    forall k | k in w'.t.views ensures ViewOk(w', k) {
      assert ViewOk(w, k) && PoolMoves(w.t, k.0, w.t.pools[k.0], after.pools[k.0]);
    }
  }

  // ---- moves of views and sessions ----------------------------------------

  /** Sequences and what was delivered stay; only counts, ends and closing move. */
  ghost predicate SameDeliveries(t: Tables, after: Tables) {
    && after.pools == t.pools
    && after.sessions.Keys == t.sessions.Keys && after.views.Keys == t.views.Keys
    && (forall s :: s in t.sessions ==> after.sessions[s].sequence == t.sessions[s].sequence)
    && (forall k :: k in t.views ==> after.views[k].delivered == t.views[k].delivered)
  }

  lemma TablesStep(w: World, after: Tables, more: set<(Id, Id)>)
    requires Inv(w) && SameDeliveries(w.t, after)
    requires
      var w' := w.(t := after, early := w.early + more);
      ViewsOk(w') && ProofsOk(w') && RaceOk(w')
    ensures Inv(w.(t := after, early := w.early + more))
  {
    var w' := w.(t := after, early := w.early + more);
    hide SentInOrder, NoOlder, MessageOk, CannotServe, ViewsOk, ProofsOk, RaceOk;
    SameSent(w, w');
    forall x, p | x in w'.sent && p in x.pools ensures ControlOk(w', x, p) {
      assert ControlOk(w, x, p);
    }
    forall s | s in w'.gateways ensures GatewayOk(w', s) {
      assert GatewayOk(w, s);
    }
    forall r | r in w'.reports ensures MessageOk(w', r) {
      assert MessageOk(w, r);
      SameMessage(w, w', r);
    }
    forall p | p in w'.t.pools && Shut(w'.t.pools[p].state) ensures Quiet(w', p) {
      MoreQuiet(w, w', p);
    }
  }

  lemma MoreQuiet(w: World, w': World, p: Id)
    requires w'.gateways == w.gateways && w'.sent == w.sent && w.early <= w'.early && Quiet(w, p)
    ensures Quiet(w', p)
  {
    forall s | s in w'.gateways ensures Silent(w', p, s) && CannotServe(w', p, s) {
      assert Silent(w, p, s) && CannotServe(w, p, s);
    }
  }

  /** No view is remembered as cleared early. */
  lemma NoMore(w: World, after: Tables)
    ensures w.(t := after, early := w.early + {}) == w.(t := after)
  {
  }

  lemma SameMessage(w: World, w': World, r: TrafficReport)
    requires w'.gateways == w.gateways && MessageOk(w, r)
    ensures MessageOk(w', r)
  {
  }

  lemma SameProofs(w: World, after: Tables)
    requires ProofsOk(w) && after.sessions.Keys == w.t.sessions.Keys
    requires forall s :: s in w.t.sessions ==> after.sessions[s].proof == w.t.sessions[s].proof
    ensures ProofsOk(w.(t := after))
  {
    forall s | s in after.sessions ensures ProofOk(w.(t := after), s) {
      assert ProofOk(w, s);
    }
  }

  // ---- orphans ------------------------------------------------------------

  /** The views an idle report clears: unknown, of gateways that ended by its fence
      or are foreign. */
  ghost predicate Clearable(w: World, q: Observation, keys: set<(Id, Id)>) {
    && q.idleAfter.Some? && q.pool in w.idle && q.idleAfter.value < w.idle[q.pool]
    && forall k :: k in keys ==>
         && k in w.t.views && w.t.views[k].retired && Orphan(w.t, q.pool, k)
         && (Covered(w.t, q, k) || Elsewhere(w.t, k))
  }

  function LateEnds(t: Tables, q: Observation, keys: set<(Id, Id)>): set<(Id, Id)> {
    set k | k in keys && !Covered(t, q, k)
  }

  ghost function AfterClearing(w: World, q: Observation, keys: set<(Id, Id)>): World {
    w.(t := Cleared(w.t, keys), early := w.early + LateEnds(w.t, q, keys))
  }

  lemma ClearedViewsOk(w: World, q: Observation, keys: set<(Id, Id)>)
    requires ViewsOk(w) && ProofsOk(w) && Clearable(w, q, keys)
    ensures ViewsOk(AfterClearing(w, q, keys)) && ProofsOk(AfterClearing(w, q, keys))
  {
    var w' := AfterClearing(w, q, keys);
    forall k | k in w'.t.views ensures ViewOk(w', k) {
      assert ViewOk(w, k);
      if k in keys {
        assert ProofOk(w, k.1);
        if !Covered(w.t, q, k) { assert k in LateEnds(w.t, q, keys); }
      }
    }
    forall s | s in w'.t.sessions ensures ProofOk(w', s) {
      assert ProofOk(w, s);
    }
  }

  lemma ClearedRaceOk(w: World, q: Observation, keys: set<(Id, Id)>)
    requires RaceOk(w) && ViewsOk(w) && ProofsOk(w) && Clearable(w, q, keys)
    requires forall c :: c in w.checked ==> w.checked[c].observation.pool != q.pool
    ensures RaceOk(AfterClearing(w, q, keys))
  {
    var w' := AfterClearing(w, q, keys);
    forall k | k in LateEnds(w.t, q, keys) ensures k.1 in w.gateways && w.gateways[k.1].dead {
      assert ViewOk(w, k) && ProofOk(w, k.1);
    }
    forall c | c in w'.checked ensures CheckOk(w', c) {
      assert CheckOk(w, c);
      OthersChecked(w, w', c, q.pool);
    }
  }

  /** Clearing one pool is nothing to an observation of another. */
  lemma OthersChecked(w: World, w': World, c: Id, pool: Id)
    requires c in w.checked && CheckOk(w, c) && w.checked[c].observation.pool != pool
    requires w'.checked == w.checked && w'.t == w.t.(views := w'.t.views) && w'.idle == w.idle
    requires w'.t.views.Keys == w.t.views.Keys
    requires forall k :: k in w.t.views && k.0 != pool ==> w'.t.views[k] == w.t.views[k]
    ensures CheckOk(w', c)
  {
  }

  /** Idle evidence later than an orphan's end lets it be cleared; a foreign one that
      ended later is remembered. */
  lemma ClearStep(w: World, q: Observation, keys: set<(Id, Id)>)
    requires Inv(w) && Clearable(w, q, keys)
    requires forall c :: c in w.checked ==> w.checked[c].observation.pool != q.pool
    ensures Inv(AfterClearing(w, q, keys))
  {
    ClearedViewsOk(w, q, keys);
    ClearedRaceOk(w, q, keys);
    hide Inv, ViewsOk, ProofsOk, RaceOk, LateEnds;
    TablesStep(w, Cleared(w.t, keys), LateEnds(w.t, q, keys));
  }

  // ---- moves of sessions --------------------------------------------------

  /** Sessions that keep their sequence, and close or die only for good reason. */
  ghost predicate SessionsMove(w: World, after: Tables) {
    && after.pools == w.t.pools && after.views == w.t.views
    && after.sessions.Keys == w.t.sessions.Keys
    && forall s :: s in w.t.sessions ==>
         && after.sessions[s].sequence == w.t.sessions[s].sequence
         && after.sessions[s].proof == w.t.sessions[s].proof
         && after.sessions[s].identity == w.t.sessions[s].identity
         && (w.t.sessions[s].closed ==> after.sessions[s].closed)
  }

  lemma SessionsUnraced(w: World, after: Tables)
    requires SessionsMove(w, after)
    ensures Unraced(w, w.(t := after))
  {
  }

  lemma SessionsViews(w: World, after: Tables)
    requires ViewsOk(w) && SessionsMove(w, after)
    ensures ViewsOk(w.(t := after))
  {
    forall k | k in after.views ensures ViewOk(w.(t := after), k) {
      assert ViewOk(w, k);
    }
  }

  lemma SessionsStep(w: World, after: Tables)
    requires Inv(w) && SessionsMove(w, after)
    ensures Inv(w.(t := after))
  {
    SessionsViews(w, after);
    SameProofs(w, after);
    SessionsUnraced(w, after);
    RaceStays(w, w.(t := after));
    NoMore(w, after);
    hide Inv, ViewsOk, ProofsOk, RaceOk;
    TablesStep(w, after, {});
  }

  /** A proven end retires the gateway's views, their work unknown. */
  lemma TerminateStep(w: World, session: Id, row: Session)
    requires Inv(w) && session in w.t.sessions && session in w.gateways && w.gateways[session].dead
    requires Ends(w, session, row)
    ensures Inv(w.(t := Terminated1(w.t, session, row)))
  {
    var after := Terminated1(w.t, session, row);
    TerminatedViews(w, session, row);
    TerminatedProofs(w, session, row);
    TerminatedRaceOk(w, session, row);
    hide Inv, ViewsOk, ProofsOk, RaceOk;
    NoMore(w, after);
    TablesStep(w, after, {});
  }

  lemma TerminatedViews(w: World, session: Id, row: Session)
    requires Inv(w) && session in w.t.sessions && session in w.gateways && w.gateways[session].dead
    requires Ends(w, session, row)
    ensures ViewsOk(w.(t := Terminated1(w.t, session, row)))
  {
    hide SentOk, SentInOrder, ControlsOk, LatestOk, GatewaysOk, MessagesOk, ProofsOk, PoolsOk, RaceOk;
    var w' := w.(t := Terminated1(w.t, session, row));
    forall k | k in w'.t.views ensures ViewOk(w', k) {
      assert ViewOk(w, k);
    }
  }

  lemma TerminatedProofs(w: World, session: Id, row: Session)
    requires Inv(w) && session in w.t.sessions && session in w.gateways && w.gateways[session].dead
    requires Ends(w, session, row)
    ensures ProofsOk(w.(t := Terminated1(w.t, session, row)))
  {
    hide SentOk, SentInOrder, ControlsOk, LatestOk, GatewaysOk, MessagesOk, ViewsOk, PoolsOk, RaceOk;
    var w' := w.(t := Terminated1(w.t, session, row));
    forall s | s in w'.t.sessions ensures ProofOk(w', s) {
      assert ProofOk(w, s);
    }
  }

  function Terminated1(t: Tables, session: Id, row: Session): Tables {
    t.(sessions := t.sessions[session := row], views := OrphanedViews(t, session))
  }

  /** The session ends now, and its cluster's row is free for it. */
  ghost predicate Ends(w: World, session: Id, row: Session)
    requires session in w.t.sessions
  {
    var was := w.t.sessions[session];
    && row.sequence == was.sequence && row.identity == was.identity && !was.closed
    && row.closed && row.proof == Some(w.clock)
    && row.identity.Some? && row.identity.value.cluster !in w.checked
  }

  /** An orphan that appears while an observation is under way is foreign to its pool,
      and ended after its fence. */
  lemma TerminatedRaceOk(w: World, session: Id, row: Session)
    requires Inv(w) && session in w.t.sessions && Ends(w, session, row)
    ensures RaceOk(w.(t := Terminated1(w.t, session, row)))
  {
    hide SentOk, SentInOrder, ControlsOk, LatestOk, GatewaysOk, MessagesOk, PoolsOk;
    var w' := w.(t := Terminated1(w.t, session, row));
    forall k | k in w'.early
      ensures k in w'.t.views && w'.t.views[k].retired && 0 <= w'.t.views[k].active && Elsewhere(w'.t, k)
    {
      assert k in w.t.views && ViewOk(w, k);
    }
    forall c | c in w'.checked ensures CheckOk(w', c) {
      assert CheckOk(w, c);
      TerminatedCheckOk(w, session, row, c);
    }
  }

  lemma TerminatedCheckOk(w: World, session: Id, row: Session, c: Id)
    requires ViewsOk(w) && ProofsOk(w) && session in w.t.sessions && Ends(w, session, row)
    requires c in w.checked && CheckOk(w, c)
    ensures CheckOk(w.(t := Terminated1(w.t, session, row)), c)
  {
    var w' := w.(t := Terminated1(w.t, session, row));
    var r := w.checked[c];
    if r.observation.idle {
      forall k | k in w'.t.views && Orphan(w'.t, r.observation.pool, k)
        ensures k.1 in w'.t.sessions && w'.t.sessions[k.1].proof.Some?
        ensures k in r.orphans <==> Covered(w'.t, r.observation, k)
        ensures k !in r.orphans ==> Elsewhere(w'.t, k)
      {
        assert ViewOk(w, k);
        if k.1 != session {
          assert Orphan(w.t, r.observation.pool, k);
        } else {
          assert !w.t.views[k].retired;
        }
      }
    }
  }

  // ---- acknowledgements ---------------------------------------------------

  /** The report that the server takes is about its newest snapshot. */
  lemma ReportedView(w: World, q: TrafficReport, k: (Id, Id))
    requires Inv(w) && q in w.reports && q.session in w.t.sessions
    requires w.t.sessions[q.session].sequence == q.sequence
    requires k in w.t.views && k.1 == q.session && k.0 in q.active && (q.closed ==> q.active[k.0] == 0)
    ensures
      var v := w.t.views[k];
      var g := w.gateways[q.session];
      && Knows(g, k.0, v.delivered)
      && (q.closed ==> g.closed && WorkOf(g, k.0) == 0)
      && (w.t.pools[k.0].generation <= v.delivered && w.t.pools[k.0].state != Active ==>
            WorkOf(g, k.0) <= q.active[k.0])
  {
    assert MessageOk(w, q) && GatewayOk(w, q.session) && ViewOk(w, k);
    var x := w.gateways[q.session].installed.value;
    assert IsLatest(w.t, x);
    assert ControlOk(w, x, k.0);
  }

  /** The server takes a report only about the newest snapshot, and only whole. */
  lemma TakenReport(t: Tables, q: TrafficReport)
    requires ReportTraffic(t, q).Ok? && ReportTraffic(t, q).value.0 != t
    ensures TrafficReportOk(q) && q.session in t.sessions
    ensures t.sessions[q.session].sequence == q.sequence && !t.sessions[q.session].closed
    ensures forall p :: (p, q.session) in t.views ==> p in q.active
    ensures ReportTraffic(t, q).value.0
         == t.(views := ReportedViews(t, q),
               sessions := t.sessions[q.session := t.sessions[q.session].(closed := q.closed, reported := Some(q))])
  {
    hide TrafficReportOk;
    forall p | (p, q.session) in t.views ensures p in q.active {
      assert (p, q.session).1 == q.session;
    }
  }

  lemma ReportStep(w: World, q: TrafficReport)
    requires Inv(w) && q in w.reports && ReportTraffic(w.t, q).Ok?
    ensures Inv(w.(t := ReportTraffic(w.t, q).value.0))
  {
    hide ReportTraffic, TrafficReportOk, ViewsOk, ProofsOk;
    var after := ReportTraffic(w.t, q).value.0;
    if after != w.t {
      TakenReport(w.t, q);
      ReportedViewsOk(w, q, after);
      SameProofs(w, after);
      ReportedUnraced(w, q, after);
      RaceStays(w, w.(t := after));
      hide Inv, RaceOk;
      NoMore(w, after);
      TablesStep(w, after, {});
    }
  }

  /** Retired views belong to closed sessions, which report no more. */
  lemma ReportedUnraced(w: World, q: TrafficReport, after: Tables)
    requires ViewsOk(w) && q.session in w.t.sessions && !w.t.sessions[q.session].closed
    requires forall p :: (p, q.session) in w.t.views ==> p in q.active
    requires after == w.t.(views := ReportedViews(w.t, q), sessions := after.sessions)
    requires after.sessions
          == w.t.sessions[q.session := w.t.sessions[q.session].(closed := q.closed, reported := Some(q))]
    ensures Unraced(w, w.(t := after))
  {
    forall k | k in w.t.views ensures k in after.views && StaysRetired(w.t.views[k], after.views[k]) {
      assert ViewOk(w, k);
    }
  }

  lemma ReportedViewsOk(w: World, q: TrafficReport, after: Tables)
    requires Inv(w) && q in w.reports && TrafficReportOk(q) && q.session in w.t.sessions
    requires w.t.sessions[q.session].sequence == q.sequence && !w.t.sessions[q.session].closed
    requires forall p :: (p, q.session) in w.t.views ==> p in q.active
    requires after == w.t.(views := ReportedViews(w.t, q), sessions := after.sessions)
    requires after.sessions
          == w.t.sessions[q.session := w.t.sessions[q.session].(closed := q.closed, reported := Some(q))]
    ensures ViewsOk(w.(t := after))
  {
    var w' := w.(t := after);
    hide SentOk, SentInOrder, ControlsOk, LatestOk, GatewaysOk, MessagesOk, ProofsOk, PoolsOk, Knows;
    forall k | k in w'.t.views ensures ViewOk(w', k) {
      assert ViewOk(w, k);
      if k.1 == q.session {
        ReportedView(w, q, k);
      }
    }
  }

  // ---- snapshots ----------------------------------------------------------

  /** What a snapshot leaves behind: one session under a new sequence, */
  ghost predicate SessionFetched(w: World, after: Tables, x: Snapshot) {
    && x.session in w.gateways && x.session in after.sessions
    && after.pools == w.t.pools
    && after.sessions.Keys == w.t.sessions.Keys + {x.session}
    && (forall s :: s in w.t.sessions && s != x.session ==> after.sessions[s] == w.t.sessions[s])
    && after.sessions[x.session].sequence == x.sequence
    && (if x.session in w.t.sessions
        then x.sequence == w.t.sessions[x.session].sequence + 1
             && !w.t.sessions[x.session].closed
             && after.sessions[x.session].proof == w.t.sessions[x.session].proof
             && after.sessions[x.session].identity == w.t.sessions[x.session].identity
        else x.sequence == 1 && after.sessions[x.session].proof.None?)
  }

  /** the generation of every pool, and a view wherever it accepts. */
  ghost predicate ViewsFetched(t: Tables, views: map<(Id, Id), View>, x: Snapshot) {
    && x.pools.Keys == t.pools.Keys
    && (forall p :: p in x.pools ==> x.pools[p].generation == t.pools[p].generation)
    && (forall p :: p in x.pools && x.pools[p].accepting ==> t.pools[p].state == Active)
    && (forall k :: k in views ==>
          if k.1 == x.session && k.0 in x.pools then
            if k in t.views then views[k] == t.views[k].(delivered := x.pools[k.0].generation)
            else x.pools[k.0].accepting && views[k] == View(x.pools[k.0].generation, 0, 0, false)
          else k in t.views && views[k] == t.views[k])
    && t.views.Keys <= views.Keys
    && (forall p :: p in x.pools && x.pools[p].accepting ==> (p, x.session) in views)
  }

  ghost predicate Fetched(w: World, after: Tables, x: Snapshot) {
    SessionFetched(w, after, x) && ViewsFetched(w.t, after.views, x)
  }

  lemma TakenViews(t: Tables, x: Snapshot, ready: bool, now: int)
    requires x.pools == Controls(t, ready, now)
    ensures ViewsFetched(t, SnapshotViews(t, x.session, x.pools), x)
  {
    hide Controls, SnapshotViews;
    TakenControls(t, x, ready, now);
    TakenRows(t, x);
  }

  lemma TakenControls(t: Tables, x: Snapshot, ready: bool, now: int)
    requires x.pools == Controls(t, ready, now)
    ensures x.pools.Keys == t.pools.Keys
    ensures forall p :: p in x.pools ==> x.pools[p].generation == t.pools[p].generation
    ensures forall p :: p in x.pools && x.pools[p].accepting ==> t.pools[p].state == Active
  {
    hide ClusterVouches;
  }

  lemma TakenRows(t: Tables, x: Snapshot)
    ensures
      var views := SnapshotViews(t, x.session, x.pools);
      && (forall k :: k in views ==>
            if k.1 == x.session && k.0 in x.pools then
              if k in t.views then views[k] == t.views[k].(delivered := x.pools[k.0].generation)
              else x.pools[k.0].accepting && views[k] == View(x.pools[k.0].generation, 0, 0, false)
            else k in t.views && views[k] == t.views[k])
      && t.views.Keys <= views.Keys
      && (forall p :: p in x.pools && x.pools[p].accepting ==> (p, x.session) in views)
  {
  }

  lemma TakenSnapshot(w: World, id: Id, identity: Option<Identity>, required: bool, nonce: Token, now: int)
    requires id in w.gateways && TakeSnapshot(w.t, id, identity, required, nonce, now).Ok?
    ensures
      var (after, x) := TakeSnapshot(w.t, id, identity, required, nonce, now).value;
      x.session == id && Fetched(w, after, x)
  {
    hide IdentityKnown, IdentityReady, ViewsFetched, Controls, SnapshotViews;
    var (after, x) := TakeSnapshot(w.t, id, identity, required, nonce, now).value;
    TakenViews(w.t, x, IdentityReady(SessionRow(w.t, id, identity), required), now);
  }

  lemma FetchStep(w: World, after: Tables, x: Snapshot)
    requires Inv(w) && Fetched(w, after, x)
    ensures Inv(w.(t := after, sent := w.sent + {x}))
  {
    hide Inv, Fetched;
    FetchedSent(w, after, x);
    FetchedControls(w, after, x);
    FetchedViews(w, after, x);
    FetchedGateways(w, after, x);
    FetchedPools(w, after, x);
    FetchedUnraced(w, after, x);
    RaceOf(w);
    RaceStays(w, w.(t := after, sent := w.sent + {x}));
    assert Inv(w.(t := after, sent := w.sent + {x})) by { Together(w.(t := after, sent := w.sent + {x})); }
  }

  lemma FetchedUnraced(w: World, after: Tables, x: Snapshot)
    requires Fetched(w, after, x)
    ensures Unraced(w, w.(t := after, sent := w.sent + {x}))
  {
  }

  lemma RaceOf(w: World)
    requires Inv(w)
    ensures RaceOk(w)
  {
  }

  lemma Together(w: World)
    requires SentOk(w) && SentInOrder(w) && ControlsOk(w) && LatestOk(w) && GatewaysOk(w) && MessagesOk(w) && ViewsOk(w)
    requires ProofsOk(w) && PoolsOk(w) && RaceOk(w)
    ensures Inv(w)
  {
  }

  lemma FetchedSent(w: World, after: Tables, x: Snapshot)
    requires Inv(w) && Fetched(w, after, x)
    ensures SentOk(w.(t := after, sent := w.sent + {x})) && SentInOrder(w.(t := after, sent := w.sent + {x}))
  {
    var w' := w.(t := after, sent := w.sent + {x});
    hide LatestOk, GatewaysOk, MessagesOk, ViewsOk, ProofsOk, PoolsOk;
    assert forall y :: y in w.sent && y.session == x.session ==> y.sequence < x.sequence;
    forall y | y in w.sent && y.session == x.session ensures NoOlder(y, x) {
      OlderSnapshot(w, after, x, y);
    }
    hide ControlsOk, Fetched, NoOlder;
    NotAfterItself(x);
    forall a, b | a in w'.sent && b in w'.sent && a.session == b.session && a.sequence <= b.sequence
      ensures NoOlder(a, b)
    {
      if b == x && a in w.sent && a != x {
        assert NoOlder(a, x);
      }
    }
  }

  lemma NotAfterItself(x: Snapshot)
    ensures NoOlder(x, x)
  {
  }

  lemma OlderSnapshot(w: World, after: Tables, x: Snapshot, y: Snapshot)
    requires ControlsOk(w) && Fetched(w, after, x) && y in w.sent
    ensures NoOlder(y, x)
  {
    forall p | p in y.pools ensures p in x.pools && y.pools[p].generation <= x.pools[p].generation {
      assert ControlOk(w, y, p);
    }
  }

  lemma FetchedControls(w: World, after: Tables, x: Snapshot)
    requires Inv(w) && Fetched(w, after, x)
    ensures ControlsOk(w.(t := after, sent := w.sent + {x})) && LatestOk(w.(t := after, sent := w.sent + {x}))
  {
    var w' := w.(t := after, sent := w.sent + {x});
    hide SentInOrder, GatewaysOk, MessagesOk, ProofsOk;
    forall y, p | y in w'.sent && p in y.pools ensures ControlOk(w', y, p) {
      if y in w.sent {
        assert ControlOk(w, y, p);
      }
    }
    forall y, p | y in w'.sent && IsLatest(after, y) && (p, y.session) in after.views
      ensures p in y.pools && y.pools[p].generation == after.views[(p, y.session)].delivered
    {
      if y.session == x.session {
        assert y == x;
        if (p, x.session) in w.t.views {
          assert ViewOk(w, (p, x.session));
        }
      } else {
        assert IsLatest(w.t, y);
      }
    }
  }

  lemma FetchedViews(w: World, after: Tables, x: Snapshot)
    requires Inv(w) && Fetched(w, after, x)
    ensures ViewsOk(w.(t := after, sent := w.sent + {x}))
  {
    var w' := w.(t := after, sent := w.sent + {x});
    hide SentOk, SentInOrder, ControlsOk, LatestOk, MessagesOk, ProofsOk, Knows;
    forall k | k in after.views ensures ViewOk(w', k) {
      if k in w.t.views {
        assert ViewOk(w, k);
      }
    }
  }

  lemma FetchedGateways(w: World, after: Tables, x: Snapshot)
    requires Inv(w) && Fetched(w, after, x)
    ensures GatewaysOk(w.(t := after, sent := w.sent + {x})) && MessagesOk(w.(t := after, sent := w.sent + {x}))
    ensures ProofsOk(w.(t := after, sent := w.sent + {x}))
  {
    var w' := w.(t := after, sent := w.sent + {x});
    hide SentOk, SentInOrder, ControlsOk, LatestOk, ViewsOk, PoolsOk;
    forall s | s in w'.gateways ensures GatewayOk(w', s) {
      assert GatewayOk(w, s);
    }
    forall r | r in w'.reports ensures MessageOk(w', r) {
      assert MessageOk(w, r);
      SameMessage(w, w', r);
    }
    forall s | s in after.sessions ensures ProofOk(w', s) {
      if s in w.t.sessions {
        assert ProofOk(w, s);
      }
    }
  }

  /** A closed pool is accepted by no new snapshot. */
  lemma FetchedPools(w: World, after: Tables, x: Snapshot)
    requires Inv(w) && Fetched(w, after, x)
    ensures PoolsOk(w.(t := after, sent := w.sent + {x}))
  {
    var w' := w.(t := after, sent := w.sent + {x});
    hide SentOk, SentInOrder, ControlsOk, LatestOk, ViewsOk, MessagesOk, GatewaysOk, ProofsOk;
    forall p | p in after.pools && Shut(after.pools[p].state) ensures Quiet(w', p) {
      assert Quiet(w, p);
      forall s | s in w'.gateways ensures Silent(w', p, s) && CannotServe(w', p, s) {
        assert CannotServe(w, p, s) && !AcceptingIn(x, p);
      }
    }
  }

  // ---- moves of gateways --------------------------------------------------

  /** One gateway moves; the server has not heard of it. */
  ghost predicate GatewayMoves(w: World, s: Id, g: Gateway)
    requires s in w.gateways
  {
    var was := w.gateways[s];
    && (was.closed ==> g.closed) && (was.dead ==> g.dead)
    && (g.installed.Some? ==> g.installed.value in w.sent && g.installed.value.session == s)
    && (was.installed.Some? ==>
          && g.installed.Some? && was.installed.value.sequence <= g.installed.value.sequence
          && (was.installed.value.sequence == g.installed.value.sequence ==> g.installed == was.installed))
    && (forall p :: WorkOf(was, p) < WorkOf(g, p) ==> MayEnter(was, p) && g.installed == was.installed)
  }

  lemma GatewayStep(w: World, s: Id, g: Gateway)
    requires Inv(w) && s in w.gateways && GatewayMoves(w, s, g)
    ensures Inv(w.(gateways := w.gateways[s := g]))
  {
    hide Inv, GatewayMoves;
    var w' := w.(gateways := w.gateways[s := g]);
    MovedGateway(w, s, g);
    MovedMessages(w, s, g);
    MovedViews(w, s, g);
    MovedProofs(w, s, g);
    MovedPools(w, s, g);
    UnheardOf(w, w');
    MovedUnraced(w, s, g);
    RaceOf(w);
    RaceStays(w, w');
    Together(w');
  }

  lemma MovedUnraced(w: World, s: Id, g: Gateway)
    requires s in w.gateways && GatewayMoves(w, s, g)
    ensures Unraced(w, w.(gateways := w.gateways[s := g]))
  {
  }

  lemma UnheardOf(w: World, w': World)
    requires Inv(w) && w'.t == w.t && w'.sent == w.sent && w'.gateways.Keys == w.gateways.Keys
    ensures SentOk(w') && SentInOrder(w') && ControlsOk(w') && LatestOk(w')
  {
    hide ViewsOk, MessagesOk, GatewaysOk, ProofsOk, PoolsOk;
    SameSent(w, w');
    forall x, p | x in w'.sent && p in x.pools ensures ControlOk(w', x, p) {
      assert ControlOk(w, x, p);
    }
  }

  lemma MovedGateway(w: World, s: Id, g: Gateway)
    requires Inv(w) && s in w.gateways && GatewayMoves(w, s, g)
    ensures GatewaysOk(w.(gateways := w.gateways[s := g]))
  {
    var w' := w.(gateways := w.gateways[s := g]);
    hide SentInOrder, LatestOk, ViewsOk, MessagesOk, ProofsOk, PoolsOk;
    forall u | u in w'.gateways ensures GatewayOk(w', u) {
      assert GatewayOk(w, u);
      if u == s {
        forall p | p in g.work && 0 < g.work[p] ensures (p, s) in w.t.views {
          if WorkOf(w.gateways[s], p) == 0 {
            assert MayEnter(w.gateways[s], p);
            assert ControlOk(w, w.gateways[s].installed.value, p);
          }
        }
      }
    }
  }

  lemma MovedMessages(w: World, s: Id, g: Gateway)
    requires Inv(w) && s in w.gateways && GatewayMoves(w, s, g)
    ensures MessagesOk(w.(gateways := w.gateways[s := g]))
  {
    var w' := w.(gateways := w.gateways[s := g]);
    hide SentOk, SentInOrder, ControlsOk, LatestOk, ViewsOk, GatewaysOk, ProofsOk, PoolsOk;
    forall r | r in w'.reports ensures MessageOk(w', r) {
      assert MessageOk(w, r);
      if r.session == s {
        assert forall p :: p in g.work ==> WorkOf(g, p) == g.work[p];
      }
    }
  }

  lemma MovedViews(w: World, s: Id, g: Gateway)
    requires Inv(w) && s in w.gateways && GatewayMoves(w, s, g)
    ensures ViewsOk(w.(gateways := w.gateways[s := g]))
  {
    var w' := w.(gateways := w.gateways[s := g]);
    hide SentOk, LatestOk, MessagesOk, ProofsOk, PoolsOk;
    forall k | k in w.t.views ensures ViewOk(w', k) {
      assert ViewOk(w, k) && GatewayOk(w, s);
      if k.1 == s && !w.t.views[k].retired {
        StillKnows(w, s, g, k.0, w.t.views[k].acknowledged);
        if MayEnter(w.gateways[s], k.0) {
          assert ControlOk(w, w.gateways[s].installed.value, k.0);
        }
      }
    }
  }

  lemma StillKnows(w: World, s: Id, g: Gateway, p: Id, generation: int)
    requires SentInOrder(w) && s in w.gateways && GatewayMoves(w, s, g) && GatewayOk(w, s)
    ensures Knows(w.gateways[s], p, generation) ==> Knows(g, p, generation)
  {
    if Knows(w.gateways[s], p, generation) {
      Newer(w, w.gateways[s].installed.value, g.installed.value, p);
    }
  }

  lemma MovedProofs(w: World, s: Id, g: Gateway)
    requires Inv(w) && s in w.gateways && GatewayMoves(w, s, g)
    ensures ProofsOk(w.(gateways := w.gateways[s := g]))
  {
    var w' := w.(gateways := w.gateways[s := g]);
    hide SentOk, SentInOrder, ControlsOk, LatestOk, ViewsOk, MessagesOk, GatewaysOk, PoolsOk;
    forall u | u in w.t.sessions ensures ProofOk(w', u) {
      assert ProofOk(w, u);
    }
  }

  /** On a quiet pool nothing starts. */
  lemma MovedPools(w: World, s: Id, g: Gateway)
    requires Inv(w) && s in w.gateways && GatewayMoves(w, s, g)
    ensures PoolsOk(w.(gateways := w.gateways[s := g]))
  {
    var w' := w.(gateways := w.gateways[s := g]);
    hide SentInOrder, ControlsOk, LatestOk, ViewsOk, MessagesOk, ProofsOk;
    forall p | p in w.t.pools && Shut(w.t.pools[p].state) ensures Quiet(w', p) {
      assert Quiet(w, p);
      forall u | u in w'.gateways ensures Silent(w', p, u) && CannotServe(w', p, u) {
        assert Silent(w, p, u) && CannotServe(w, p, u) && GatewayOk(w, u);
      }
    }
  }

  // ---- server moves on pools ----------------------------------------------

  lemma PutMoves(t: Tables, id: Id, expected: I64, items: seq<Item>, published: seq<Item>)
    requires Put(t, id, expected, items, published).Ok?
    ensures PoolsMove(t, Put(t, id, expected, items, published).value)
  {
    hide PutCheck, GuardedItems, DrainProven, Find;
    var version := PutCheck(t, id, expected, items).value;
    var after := Put(t, id, expected, items, published).value;
    forall p | p in t.pools ensures p in after.pools && PoolMoves(t, p, t.pools[p], after.pools[p]) {
      if Concerned(t, id, items, p) {
        assert Guarding(t, items, p, version).Ok?;
      }
    }
  }

  lemma BindMoves(t: Tables, q: Binding, id: Id, now: int)
    requires Bind(t, q, id, now).Ok?
    ensures PoolsMove(t, Bind(t, q, id, now).value)
  {
    hide DesiredSpec, Name;
  }

  lemma TransitionMoves(t: Tables, id: Id, expected: I64, action: Action, now: int)
    requires Transition(t, id, expected, action, now).Ok?
    ensures PoolsMove(t, Transition(t, id, expected, action, now).value)
  {
    hide DrainProven;
  }

  lemma TasksMove(t: Tables, id: Id, token: Token, tasks: map<Id, (Token, Option<int>)>, now: int)
    requires Tasks(t, id, token, tasks, now).Ok?
    ensures PoolsMove(t, Tasks(t, id, token, tasks, now).value)
  {
    hide TasksOk, Authenticated, DrainProven;
  }

  lemma ApplyMoves(t: Tables, id: Id, current: I64, target: I64, up: bool)
    requires id in t.pools && t.pools[id].cluster in t.clusters && Apply(t, id, current, target, up).Ok?
    requires up ==> t.pools[id].state == Active
    requires !up ==> t.pools[id].state == Draining && DrainProven(t, id)
    ensures PoolsMove(t, Apply(t, id, current, target, up).value.0)
  {
    hide DrainProven, WithItem;
  }

  /** A scale operation's phase is the pool's state: operator and autoscaler never
      both own a change. */
  predicate OperationOk(row: Pool) {
    row.scale.Some? ==>
      var op := row.scale.value;
      match op.phase
      case DrainPhase => row.state == Draining && !op.up && op.target < op.from
      case ApplyPhase =>
        && row.state == (if op.up then Active else Drained)
        && row.expected.replicas == Some(op.target)
        && (if op.up then op.from < op.target else op.target < op.from)
  }

  lemma ReconcileMoves(t: Tables, id: Id, e: Option<ScaleEvidence>, applied: I64, ready: bool)
    requires id in t.pools && t.pools[id].cluster in t.clusters && OperationOk(t.pools[id])
    requires Reconcile(t, id, e, applied, ready).Ok?
    ensures PoolsMove(t, Reconcile(t, id, e, applied, ready).value.0)
  {
    hide DrainProven, Apply, EvidenceOk, PoolsMove;
    StaysPut(t);
    var row := t.pools[id];
    if row.expected.autoscaling.Managed? {
      if row.scale.Some? && row.scale.value.phase == ApplyPhase {
        FinishMoves(t, id, row.scale.value, applied, ready);
      } else if e.Some? {
        if row.scale.Some? {
          ContinueMoves(t, id, row.expected.replicas.value, e.value.replicas, ready);
        } else {
          StartMoves(t, id, row.expected.replicas.value, e.value.replicas, ready);
        }
      }
    }
  }

  lemma StaysPut(t: Tables)
    ensures PoolsMove(t, t)
  {
  }

  lemma FinishMoves(t: Tables, id: Id, op: Operation, applied: I64, ready: bool)
    requires id in t.pools && t.pools[id].cluster in t.clusters && t.pools[id].scale == Some(op)
    requires op.phase == ApplyPhase && OperationOk(t.pools[id]) && FinishScaling(t, id, op, applied, ready).Ok?
    ensures PoolsMove(t, FinishScaling(t, id, op, applied, ready).value.0)
  {
    hide DrainProven;
  }

  lemma ContinueMoves(t: Tables, id: Id, current: I64, target: I64, ready: bool)
    requires id in t.pools && t.pools[id].cluster in t.clusters && ContinueDrain(t, id, current, target, ready).Ok?
    ensures PoolsMove(t, ContinueDrain(t, id, current, target, ready).value.0)
  {
    hide DrainProven, Apply;
    if t.pools[id].state == Draining && !(current <= target && ready) && DrainProven(t, id) && ready {
      ApplyMoves(t, id, current, target, false);
    }
  }

  lemma StartMoves(t: Tables, id: Id, current: I64, target: I64, ready: bool)
    requires id in t.pools && t.pools[id].cluster in t.clusters && StartScaling(t, id, current, target, ready).Ok?
    ensures PoolsMove(t, StartScaling(t, id, current, target, ready).value.0)
  {
    hide DrainProven, Apply;
    if t.pools[id].state == Active && ready && current < target {
      ApplyMoves(t, id, current, target, true);
    }
  }
}
