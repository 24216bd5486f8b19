/** The member agent's apply loop against a Kubernetes API whose calls may fail
    before or after they take effect, at any point of a delivery. */
module AgentPull {
  import opened Prelude
  import opened Rows
  import opened FleetRows
  import opened ClusterRules

  // ---- the API server -----------------------------------------------------

  /** A ModelDeployment: the three annotations the agent owns, and the rest of its
      metadata and status, which it preserves. `version` is None when it does not
      parse. */
  datatype Object = Object(
    uid: Id,
    owner: Option<Id>,
    version: Option<I64>,
    digest: Option<Digest>,
    spec: Spec,
    rest: string)

  type Objects = map<Id, Object>

  /** How a call ends: as it should, without effect, or with its reply lost. */
  datatype Reply = Fine | Refused | Lost

  /** What one item meets: its read, its write, and the UID a creation gets. */
  datatype Weather = Weather(read: Reply, write: Reply, uid: Id)

  const CALM := Weather(Fine, Fine, "")

  datatype AgentError = InvalidSpec | OwnershipConflict | IdentityMismatch | KubernetesUnavailable

  datatype Outcome = Done | Failed(error: AgentError)

  /** What the schema of a deployment and its validation accept, under which name. */
  type Schema = (Id, Spec) -> bool

  /** Which cluster and namespace the agent serves, and what it accepts there. */
  datatype Config = Config(cluster: Id, namespace: Id, admits: Schema)

  // ---- rules --------------------------------------------------------------

  predicate DeliveryItemOk(config: Config, item: Item) {
    && Name(item.name)
    && (if item.spec.Some? then item.deleteUid.None? && config.admits(item.name, item.spec.value)
        else item.deleteUid.Some? && Uid(item.deleteUid.value))
  }

  /** Every item is checked before the first object is touched. */
  predicate DeliveryOk(config: Config, d: Delivery) {
    && d.cluster == config.cluster && d.namespace == config.namespace
    && 0 < d.version && |d.items| <= 100 && d.sha256 == Digest(d.items)
    && (forall i :: 0 <= i < |d.items| ==> DeliveryItemOk(config, d.items[i]))
    && (forall i, j :: 0 <= i < j < |d.items| ==> d.items[i].name != d.items[j].name)
  }

  function At(objects: Objects, name: Id): Option<Object> {
    if name in objects then Some(objects[name]) else None
  }

  function Put(objects: Objects, name: Id, o: Option<Object>): Objects {
    match o
    case Some(value) => objects[name := value]
    case None => objects - {name}
  }

  /** The object is ours, and not from a later or a different delivery. */
  predicate Ours(config: Config, d: Delivery, o: Object) {
    && o.owner == Some(config.cluster)
    && o.version.Some? && o.version.value <= d.version
    && (o.version.value == d.version ==> o.digest == Some(d.sha256))
  }

  /** One item against the object it finds: what should be there afterwards. */
  function Wanted(config: Config, d: Delivery, item: Item, current: Option<Object>, uid: Id)
    : (Outcome, Option<Object>)
  {
    if item.expectedUid.Some? && (current.None? || current.value.uid != item.expectedUid.value)
    then (Failed(IdentityMismatch), current)
    else if current.Some? && !Ours(config, d, current.value) then (Failed(OwnershipConflict), current)
    else
      match item.spec
      case Some(spec) =>
        var base := if current.Some? then current.value else Object(uid, None, None, None, spec, "");
        (Done, Some(base.(spec := spec, owner := Some(config.cluster), version := Some(d.version),
                          digest := Some(d.sha256))))
      case None =>
        if current.Some? && item.deleteUid != Some(current.value.uid) then (Failed(OwnershipConflict), current)
        else (Done, None)
  }

  function ApplyItem(config: Config, d: Delivery, item: Item, objects: Objects, weather: Weather): (Outcome, Objects) {
    if weather.read != Fine then (Failed(KubernetesUnavailable), objects)
    else
      var current := At(objects, item.name);
      var (outcome, wanted) := Wanted(config, d, item, current, weather.uid);
      if outcome != Done then (outcome, objects)
      else if item.spec.None? && current.None? then (Done, objects)
      else
        match weather.write
        case Fine => (Done, Put(objects, item.name, wanted))
        case Refused => (Failed(KubernetesUnavailable), objects)
        case Lost => (Failed(KubernetesUnavailable), Put(objects, item.name, wanted))
  }

  /** The first k items of a delivery; the first failure ends it. */
  function ApplyFirst(config: Config, d: Delivery, objects: Objects, weather: seq<Weather>, k: nat): (Outcome, Objects)
    requires k <= |d.items| == |weather|
  {
    if k == 0 then (Done, objects)
    else
      var (outcome, mid) := ApplyFirst(config, d, objects, weather, k - 1);
      if outcome != Done then (outcome, mid) else ApplyItem(config, d, d.items[k - 1], mid, weather[k - 1])
  }

  function Attempt(config: Config, d: Delivery, objects: Objects, weather: seq<Weather>): (Outcome, Objects)
    requires |d.items| == |weather|
  {
    if !DeliveryOk(config, d) then (Failed(InvalidSpec), objects)
    else ApplyFirst(config, d, objects, weather, |d.items|)
  }

  // ---- the loop -----------------------------------------------------------

  /** The objects of the namespace, as the API server has them. */
  class Kubernetes {
    var objects: Objects

    method Write(name: Id, wanted: Option<Object>, reply: Reply) returns (ok: bool)
      modifies this
      ensures ok == (reply == Fine)
      ensures objects == if reply == Refused then old(objects) else Put(old(objects), name, wanted)
    {
      if reply != Refused {
        objects := Put(objects, name, wanted);
      }
      return reply == Fine;
    }

    method Apply(config: Config, d: Delivery, weather: seq<Weather>) returns (outcome: Outcome)
      requires |d.items| == |weather|
      modifies this
      ensures (outcome, objects) == Attempt(config, d, old(objects), weather)
    {
      if !DeliveryOk(config, d) {
        return Failed(InvalidSpec);
      }
      var i := 0;
      while i < |d.items|
        invariant 0 <= i <= |d.items|
        invariant ApplyFirst(config, d, old(objects), weather, i) == (Done, objects)
      {
        var item, w := d.items[i], weather[i];
        StopsAt(config, d, old(objects), weather, i + 1, |d.items|);
        if w.read != Fine {
          return Failed(KubernetesUnavailable);
        }
        var current := At(objects, item.name);
        if item.expectedUid.Some? && (current.None? || current.value.uid != item.expectedUid.value) {
          return Failed(IdentityMismatch);
        }
        if current.Some? && !Ours(config, d, current.value) {
          return Failed(OwnershipConflict);
        }
        if item.spec.Some? {
          var desired := if current.Some? then current.value.(spec := item.spec.value)
                         else Object(w.uid, None, None, None, item.spec.value, "");
          desired := desired.(owner := Some(config.cluster));
          desired := desired.(version := Some(d.version));
          desired := desired.(digest := Some(d.sha256));
          var ok := Write(item.name, Some(desired), w.write);
          if !ok {
            return Failed(KubernetesUnavailable);
          }
        } else if current.Some? {
          if item.deleteUid != Some(current.value.uid) {
            return Failed(OwnershipConflict);
          }
          var ok := Write(item.name, None, w.write);
          if !ok {
            return Failed(KubernetesUnavailable);
          }
        }
        i := i + 1;
      }
      return Done;
    }
  }

  /** After a failure nothing more of the delivery is done. */
  lemma {:induction false} StopsAt(config: Config, d: Delivery, objects: Objects, weather: seq<Weather>, k: nat, n: nat)
    requires k <= n <= |d.items| == |weather|
    ensures ApplyFirst(config, d, objects, weather, k).0 != Done ==>
      ApplyFirst(config, d, objects, weather, n) == ApplyFirst(config, d, objects, weather, k)
    decreases n
  {
    if k < n {
      StopsAt(config, d, objects, weather, k, n - 1);
    }
  }

  // ---- what an attempt leaves alone ---------------------------------------

  predicate Listed(d: Delivery, name: Id) {
    exists i :: 0 <= i < |d.items| && d.items[i].name == name
  }

  /** One object before and after: gone, or ours and not older, or as it was. */
  predicate Moves(config: Config, d: Delivery, a: Option<Object>, b: Option<Object>) {
    || b == a
    || (&& (a.Some? ==> Ours(config, d, a.value))
        && (b.Some? ==>
              && b.value.owner == Some(config.cluster) && b.value.version == Some(d.version)
              && (a.Some? ==> b.value.uid == a.value.uid && b.value.rest == a.value.rest)))
  }

  lemma ItemMoves(config: Config, d: Delivery, item: Item, objects: Objects, weather: Weather, name: Id)
    ensures
      var after := ApplyItem(config, d, item, objects, weather).1;
      if name == item.name then Moves(config, d, At(objects, name), At(after, name))
      else At(after, name) == At(objects, name)
  {
  }

  lemma {:induction false} FirstMoves(config: Config, d: Delivery, objects: Objects, weather: seq<Weather>, k: nat,
                                      name: Id)
    requires k <= |d.items| == |weather|
    requires forall i, j :: 0 <= i < j < |d.items| ==> d.items[i].name != d.items[j].name
    ensures
      var after := ApplyFirst(config, d, objects, weather, k).1;
      if exists i :: 0 <= i < k && d.items[i].name == name then Moves(config, d, At(objects, name), At(after, name))
      else At(after, name) == At(objects, name)
  {
    hide Moves, ApplyItem;
    if k != 0 {
      FirstMoves(config, d, objects, weather, k - 1, name);
      var (outcome, mid) := ApplyFirst(config, d, objects, weather, k - 1);
      if outcome == Done {
        ItemMoves(config, d, d.items[k - 1], mid, weather[k - 1], name);
      }
      MovesNowhere(config, d, At(objects, name));
    }
  }

  lemma MovesNowhere(config: Config, d: Delivery, a: Option<Object>)
    ensures Moves(config, d, a, a)
  {
  }

  /** Whatever fails and whenever: an invalid delivery changes nothing; objects the
      delivery does not list, or that are not ours, or are from a later delivery,
      stay as they are; and an object that stays keeps its UID, the metadata that is
      not the agent's, and a version annotation that does not decrease. */
  lemma AttemptIsBounded(config: Config, d: Delivery, objects: Objects, weather: seq<Weather>, name: Id)
    requires |d.items| == |weather|
    ensures
      var after := Attempt(config, d, objects, weather).1;
      && (!DeliveryOk(config, d) ==> after == objects)
      && (!Listed(d, name) ==> At(after, name) == At(objects, name))
      && (name in objects && !Ours(config, d, objects[name]) ==> At(after, name) == At(objects, name))
      && (name in objects && name in after ==>
            && after[name].uid == objects[name].uid && after[name].rest == objects[name].rest
            && (objects[name].version.Some? ==>
                  after[name].version.Some? && objects[name].version.value <= after[name].version.value))
  {
    if DeliveryOk(config, d) {
      FirstMoves(config, d, objects, weather, |d.items|, name);
    }
  }

  // ---- convergence --------------------------------------------------------

  /** Same deployment, up to the UID and metadata a creation happened to get. */
  predicate Alike(a: Option<Object>, b: Option<Object>) {
    && (a.Some? <==> b.Some?)
    && (a.Some? ==>
          && a.value.spec == b.value.spec && a.value.owner == b.value.owner
          && a.value.version == b.value.version && a.value.digest == b.value.digest)
  }

  /** The object at this item is as it was at first, or already as wanted. */
  predicate Underway(config: Config, d: Delivery, item: Item, first: Option<Object>, o: Option<Object>) {
    || o == first
    || (&& Alike(o, Wanted(config, d, item, first, "").1)
        && (first.Some? && o.Some? ==> o.value.uid == first.value.uid))
  }

  /** Doing it again is possible and changes nothing that counts. */
  lemma AgainAlike(config: Config, d: Delivery, item: Item, first: Option<Object>, o: Option<Object>, uid: Id)
    requires Wanted(config, d, item, first, "").0 == Done && Underway(config, d, item, first, o)
    requires item.spec.None? ==> item.expectedUid.None?
    ensures Wanted(config, d, item, o, uid).0 == Done
    ensures Alike(Wanted(config, d, item, o, uid).1, Wanted(config, d, item, first, "").1)
    ensures Underway(config, d, item, first, Wanted(config, d, item, o, uid).1)
  {
  }

  /** Some items are done, some are not, some perhaps twice. */
  ghost predicate Partial(config: Config, d: Delivery, first: Objects, objects: Objects) {
    && (forall i :: 0 <= i < |d.items| ==>
          Underway(config, d, d.items[i], At(first, d.items[i].name), At(objects, d.items[i].name)))
    && (forall name :: !Listed(d, name) ==> At(objects, name) == At(first, name))
  }

  /** Every item could be applied to what was there at first. */
  ghost predicate Applicable(config: Config, d: Delivery, first: Objects) {
    forall i :: 0 <= i < |d.items| ==> Wanted(config, d, d.items[i], At(first, d.items[i].name), "").0 == Done
  }

  predicate Calm(weather: seq<Weather>) {
    forall i :: 0 <= i < |weather| ==> weather[i].read == Fine && weather[i].write == Fine
  }

  lemma ItemStaysPartial(config: Config, d: Delivery, first: Objects, objects: Objects, i: nat, weather: Weather)
    requires DeliveryOk(config, d) && Retryable(d.items) && Applicable(config, d, first)
    requires Partial(config, d, first, objects) && i < |d.items|
    ensures
      var (outcome, after) := ApplyItem(config, d, d.items[i], objects, weather);
      && Partial(config, d, first, after)
      && (outcome != Done ==> outcome == Failed(KubernetesUnavailable))
      && (outcome != Done ==> weather.read != Fine || weather.write != Fine)
      && (outcome == Done ==> Finished(config, d, first, after, i))
  {
    hide Wanted, Underway, Alike, DeliveryItemOk;
    var item := d.items[i];
    var current := At(objects, item.name);
    AgainAlike(config, d, item, At(first, item.name), current, weather.uid);
    var after := ApplyItem(config, d, item, objects, weather).1;
    forall j | 0 <= j < |d.items|
      ensures Underway(config, d, d.items[j], At(first, d.items[j].name), At(after, d.items[j].name))
    {
      if j != i { assert At(after, d.items[j].name) == At(objects, d.items[j].name); }
    }
    if item.spec.None? && current.None? {
      DeletedIsWanted(config, d, item, At(first, item.name), weather.uid);
    }
  }

  lemma DeletedIsWanted(config: Config, d: Delivery, item: Item, first: Option<Object>, uid: Id)
    requires item.spec.None? && Wanted(config, d, item, first, "").0 == Done
    ensures Alike(None, Wanted(config, d, item, first, "").1)
  {
  }

  /** The item is where the delivery wants it. */
  ghost predicate Finished(config: Config, d: Delivery, first: Objects, objects: Objects, i: nat)
    requires i < |d.items|
  {
    Alike(At(objects, d.items[i].name), Wanted(config, d, d.items[i], At(first, d.items[i].name), "").1)
  }

  lemma {:induction false} FirstStaysPartial(config: Config, d: Delivery, first: Objects, objects: Objects,
                                             weather: seq<Weather>, k: nat)
    requires DeliveryOk(config, d) && Retryable(d.items) && Applicable(config, d, first)
    requires Partial(config, d, first, objects)
    requires k <= |d.items| == |weather|
    ensures
      var (outcome, after) := ApplyFirst(config, d, objects, weather, k);
      && Partial(config, d, first, after)
      && (outcome != Done ==> outcome == Failed(KubernetesUnavailable) && !Calm(weather))
      && (outcome == Done ==> forall i :: 0 <= i < k ==> Finished(config, d, first, after, i))
  {
    hide Partial, Applicable, ApplyItem, Finished, DeliveryOk;
    if k != 0 {
      FirstStaysPartial(config, d, first, objects, weather, k - 1);
      var (outcome, mid) := ApplyFirst(config, d, objects, weather, k - 1);
      if outcome == Done {
        ItemStaysPartial(config, d, first, mid, k - 1, weather[k - 1]);
        var after := ApplyItem(config, d, d.items[k - 1], mid, weather[k - 1]).1;
        forall i | 0 <= i < k - 1 ensures Finished(config, d, first, after, i) {
          OtherFinished(config, d, first, mid, weather[k - 1], k - 1, i);
        }
      }
    }
  }

  lemma OtherFinished(config: Config, d: Delivery, first: Objects, mid: Objects, weather: Weather, k: nat, i: nat)
    requires DeliveryOk(config, d) && i < k < |d.items| && Finished(config, d, first, mid, i)
    ensures Finished(config, d, first, ApplyItem(config, d, d.items[k], mid, weather).1, i)
  {
    hide Wanted, Alike, DeliveryItemOk;
    ItemMoves(config, d, d.items[k], mid, weather, d.items[i].name);
  }

  // ---- many attempts ------------------------------------------------------

  function Attempts(config: Config, d: Delivery, objects: Objects, weathers: seq<seq<Weather>>): Objects
    requires forall i :: 0 <= i < |weathers| ==> |weathers[i]| == |d.items|
  {
    if weathers == [] then objects
    else Attempt(config, d, Attempts(config, d, objects, weathers[..|weathers| - 1]), weathers[|weathers| - 1]).1
  }

  lemma {:induction false} AttemptsStayPartial(config: Config, d: Delivery, first: Objects, weathers: seq<seq<Weather>>)
    requires DeliveryOk(config, d) && Retryable(d.items) && Applicable(config, d, first)
    requires forall i :: 0 <= i < |weathers| ==> |weathers[i]| == |d.items|
    ensures Partial(config, d, first, Attempts(config, d, first, weathers))
  {
    hide DeliveryOk, Applicable;
    if weathers != [] {
      hide Partial;
      var before := weathers[..|weathers| - 1];
      AttemptsStayPartial(config, d, first, before);
      FirstStaysPartial(config, d, first, Attempts(config, d, first, before), weathers[|weathers| - 1], |d.items|);
    }
  }

  /** One clean pass over the objects decides whether the delivery applies. */
  lemma {:induction false} AppliesIffApplicable(config: Config, d: Delivery, first: Objects, weather: seq<Weather>)
    requires DeliveryOk(config, d) && Retryable(d.items) && |weather| == |d.items| && Calm(weather)
    ensures Attempt(config, d, first, weather).0 == Done <==> Applicable(config, d, first)
  {
    hide Wanted, DeliveryItemOk;
    if Applicable(config, d, first) {
      assert Partial(config, d, first, first);
      FirstStaysPartial(config, d, first, first, weather, |d.items|);
    } else {
      var i :| 0 <= i < |d.items| && Wanted(config, d, d.items[i], At(first, d.items[i].name), "").0 != Done;
      StopsAt(config, d, first, weather, i, |d.items|);
      StopsAt(config, d, first, weather, i + 1, |d.items|);
      UntouchedYet(config, d, first, weather, i);
      SameVerdict(config, d, d.items[i], At(first, d.items[i].name), weather[i].uid);
    }
  }

  lemma SameVerdict(config: Config, d: Delivery, item: Item, o: Option<Object>, uid: Id)
    ensures Wanted(config, d, item, o, uid).0 == Wanted(config, d, item, o, "").0
  {
  }

  lemma UntouchedYet(config: Config, d: Delivery, first: Objects, weather: seq<Weather>, i: nat)
    requires DeliveryOk(config, d) && i < |d.items| == |weather|
    ensures At(ApplyFirst(config, d, first, weather, i).1, d.items[i].name) == At(first, d.items[i].name)
  {
    FirstMoves(config, d, first, weather, i, d.items[i].name);
  }

  /** If a delivery applies to a state, then after any number of attempts that broke
      off anywhere, lost replies included, one undisturbed attempt succeeds, and the
      deployments are those of the delivery applied at once. */
  lemma ApplyConverges(config: Config, d: Delivery, first: Objects, weathers: seq<seq<Weather>>,
                       calm: seq<Weather>, calmer: seq<Weather>, name: Id)
    requires |calm| == |calmer| == |d.items| && Calm(calm) && Calm(calmer)
    requires forall i :: 0 <= i < |weathers| ==> |weathers[i]| == |d.items|
    requires Attempt(config, d, first, calm).0 == Done && Retryable(d.items)
    ensures
      var (outcome, after) := Attempt(config, d, Attempts(config, d, first, weathers), calmer);
      outcome == Done && Alike(At(after, name), At(Attempt(config, d, first, calm).1, name))
  {
    hide Applicable, Partial, Wanted, ApplyItem, Alike, ApplyFirst, Calm, DeliveryItemOk;
    AppliesIffApplicable(config, d, first, calm);
    AttemptsStayPartial(config, d, first, weathers);
    AttemptsStayPartial(config, d, first, []);
    var broken := Attempts(config, d, first, weathers);
    FirstStaysPartial(config, d, first, broken, calmer, |d.items|);
    FirstStaysPartial(config, d, first, first, calm, |d.items|);
    var a, b := ApplyFirst(config, d, broken, calmer, |d.items|).1, ApplyFirst(config, d, first, calm, |d.items|).1;
    if Listed(d, name) {
      var i :| 0 <= i < |d.items| && d.items[i].name == name;
      assert Finished(config, d, first, a, i) && Finished(config, d, first, b, i);
      AlikeBoth(At(a, name), At(b, name), Wanted(config, d, d.items[i], At(first, name), "").1);
    } else {
      Unlisted(config, d, first, a, name);
      Unlisted(config, d, first, b, name);
      AlikeBoth(At(a, name), At(b, name), At(a, name));
    }
  }

  lemma Unlisted(config: Config, d: Delivery, first: Objects, objects: Objects, name: Id)
    requires Partial(config, d, first, objects) && !Listed(d, name)
    ensures At(objects, name) == At(first, name) && Alike(At(objects, name), At(first, name))
  {
  }

  lemma AlikeBoth(a: Option<Object>, b: Option<Object>, c: Option<Object>)
    requires Alike(a, c) && Alike(b, c)
    ensures Alike(a, b)
  {
  }

  // ---- exactly when it converges ------------------------------------------

  /** The weather that loses the reply of one write. */
  function LosesReply(n: nat, i: nat): (weather: seq<Weather>)
    ensures |weather| == n
  {
    seq(n, j => if j == i then Weather(Fine, Lost, "") else CALM)
  }

  /** A delivery that applies converges under every failure if and only if none of
      its deletions expects the object it deletes: such a deletion whose reply is
      lost can never be repeated. */
  lemma LostDeletionIsFinal(config: Config, d: Delivery, first: Objects, calm: seq<Weather>, i: nat)
    requires |calm| == |d.items| && Calm(calm) && Attempt(config, d, first, calm).0 == Done
    requires i < |d.items| && d.items[i].spec.None? && d.items[i].expectedUid.Some?
    ensures
      var broken := Attempt(config, d, first, LosesReply(|d.items|, i)).1;
      && d.items[i].name in first && d.items[i].name !in broken
      && Attempt(config, d, broken, calm).0 != Done
  {
    hide DeliveryItemOk;
    var weather := LosesReply(|d.items|, i);
    CalmAgrees(config, d, first, calm, weather, i);
    StopsAt(config, d, first, calm, i, |d.items|);
    StopsAt(config, d, first, calm, i + 1, |d.items|);
    UntouchedYet(config, d, first, calm, i);
    UntouchedYet(config, d, first, weather, i);
    SameVerdict(config, d, d.items[i], At(first, d.items[i].name), calm[i].uid);
    StopsAt(config, d, first, weather, i + 1, |d.items|);
    var broken := Attempt(config, d, first, weather).1;
    assert d.items[i].name !in broken;
    StopsAt(config, d, broken, calm, i, |d.items|);
    StopsAt(config, d, broken, calm, i + 1, |d.items|);
    UntouchedYet(config, d, broken, calm, i);
  }

  /** Up to the lost reply the weather is calm. */
  lemma {:induction false} CalmAgrees(config: Config, d: Delivery, first: Objects, calm: seq<Weather>,
                                      weather: seq<Weather>, k: nat)
    requires DeliveryOk(config, d) && k <= |d.items| == |calm| == |weather|
    requires Calm(calm) && forall j :: 0 <= j < k ==> weather[j].read == Fine && weather[j].write == Fine
    requires ApplyFirst(config, d, first, calm, |d.items|).0 == Done
    ensures ApplyFirst(config, d, first, weather, k).0 == Done
  {
    if k != 0 {
      CalmAgrees(config, d, first, calm, weather, k - 1);
      StopsAt(config, d, first, calm, k, |d.items|);
      StopsAt(config, d, first, calm, k - 1, |d.items|);
      UntouchedYet(config, d, first, calm, k - 1);
      UntouchedYet(config, d, first, weather, k - 1);
      var o := At(first, d.items[k - 1].name);
      SameVerdict(config, d, d.items[k - 1], o, calm[k - 1].uid);
      SameVerdict(config, d, d.items[k - 1], o, weather[k - 1].uid);
    }
  }

  /** Both directions together. */
  lemma ConvergesIffRetryable(config: Config, d: Delivery, first: Objects, calm: seq<Weather>)
    requires |calm| == |d.items| && Calm(calm) && Attempt(config, d, first, calm).0 == Done
    ensures
      (forall weather: seq<Weather> :: |weather| == |d.items| ==>
         Attempt(config, d, Attempt(config, d, first, weather).1, calm).0 == Done)
      <==> (forall i :: 0 <= i < |d.items| && d.items[i].spec.None? ==> d.items[i].expectedUid.None?)
  {
    hide DeliveryItemOk, Wanted, ApplyFirst;
    if Retryable(d.items) {
      forall weather: seq<Weather> | |weather| == |d.items|
        ensures Attempt(config, d, Attempt(config, d, first, weather).1, calm).0 == Done
      {
        ApplyConverges(config, d, first, [weather], calm, calm, "");
        assert [weather][..0] == [];
        assert Attempts(config, d, first, [weather]) == Attempt(config, d, first, weather).1;
      }
    } else {
      var i :| 0 <= i < |d.items| && d.items[i].spec.None? && d.items[i].expectedUid.Some?;
      LostDeletionIsFinal(config, d, first, calm, i);
    }
  }
}
