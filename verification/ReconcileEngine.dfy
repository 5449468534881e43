/** The reconcile engine of src/daemon/reconcile_engine.cpp, run against the node registry. Hash maps are
    iterated in any order and every node operation may throw. */
module ReconcileEngine {
  import opened Wrappers
  import opened Naming
  import opened Streams
  import opened Resources
  import opened Publication
  import opened PtpClock
  import opened RegistryModel
  import opened RegistrySteps
  import opened NodeRegistry
  import opened ReconcileModel

  /** A device of a snapshot; it becomes a runtime interface. */
  datatype Device = Device(device: string, displayName: string, enable: bool, index: int, sip: string)

  datatype Snapshot = Snapshot(ptp: seq<Entry>, devices: seq<Device>, lists: Lists<ResourceId>)

  const EMPTY_SNAPSHOT := Snapshot([], [], Empty())

  function InterfaceOf(d: Device): Interface {
    Interface(d.displayName, if d.sip == "" then [] else [d.sip])
  }

  function InterfacesOf(ds: seq<Device>): (r: seq<Interface>)
    ensures |r| == |ds| && forall i :: 0 <= i < |ds| ==> r[i] == InterfaceOf(ds[i])
  {
    seq(|ds|, i requires 0 <= i < |ds| => InterfaceOf(ds[i]))
  }

  function PlanOf(current: Snapshot, next: Snapshot, k: Kind): Plan {
    PlanFor(current.lists.Of(k), next.lists.Of(k))
  }

  /** The ids in `acted`, each named once, have been brought to what the plan says and nothing else moved:
      no other stream's resources and no other kind's cache. */
  ghost predicate Progress(a: State, b: State, k: Kind, p: Plan, acted: seq<string>) {
    && Consistent(b)
    && NoDup(acted) && Elems(acted) <= p.Keys
    && b == a.(streams := b.streams, pub := b.pub, shutdown := b.shutdown)
    && (a.shutdown ==> b.shutdown)
    && b.Show(k) == Overlay(a.Show(k), Restrict(p, Elems(acted)))
    && (forall k' :: k' != k ==> b.streams.Of(k') == a.streams.Of(k'))
    && Framed(a, b, k, p)
  }

  /** Resources of streams a plan does not name are as they were. */
  ghost predicate Framed(a: State, b: State, k: Kind, p: Plan) {
    && (forall x :: (forall id :: id in p ==> !Owns(a.seed, k, id, x)) ==>
          (x in a.pub.conn <==> x in b.pub.conn) && (x in a.pub.conn ==> a.pub.conn[x] == b.pub.conn[x]))
    && (forall x :: (forall id :: id in p ==> !Owns(a.seed, k, id, x)) && x != DeviceId(a.seed) ==>
          (x in a.pub.node <==> x in b.pub.node) && (x in a.pub.node ==> a.pub.node[x] == b.pub.node[x]))
  }

  /** While nothing has thrown, leg counts stay in agreement and streams stay published as they are cached. */
  ghost predicate Kept(a: State, b: State) {
    !b.shutdown ==> (LegsAgree(a) ==> LegsAgree(b)) && (AllBuilt(a) ==> AllBuilt(b))
  }

  lemma FrameExtends(a: State, m: State, b: State, k: Kind, p: Plan, id: string)
    requires Framed(a, m, k, p) && id in p && m.seed == a.seed && SameElsewhere(a.seed, m.pub, b.pub, k, id)
    ensures Framed(a, b, k, p)
  {}

  lemma Begin(a: State, k: Kind, p: Plan)
    requires Consistent(a)
    ensures Progress(a, a, k, p, [])
  {
    SameShown(a.Show(k), Overlay(a.Show(k), Restrict(p, Elems([]))));
  }

  lemma ActedOnce(acted: seq<string>, id: string)
    requires NoDup(acted) && id !in acted
    ensures NoDup(acted + [id]) && Elems(acted + [id]) == Elems(acted) + {id}
  {
    forall i | 0 <= i < |acted| ensures acted[i] != id {
      assert acted[i] in acted;
    }
  }

  lemma ActStep(a: State, m: State, b: State, k: Kind, p: Plan, acted: seq<string>, id: string)
    requires Progress(a, m, k, p, acted) && id in p && id !in acted
    requires Consistent(b) && b == m.(streams := b.streams, pub := b.pub, shutdown := b.shutdown)
    requires m.shutdown ==> b.shutdown
    requires forall k' :: k' != k ==> b.streams.Of(k') == m.streams.Of(k')
    requires SameElsewhere(m.seed, m.pub, b.pub, k, id)
    requires b.Show(k) == Act(m.Show(k), id, p[id])
    ensures Progress(a, b, k, p, acted + [id])
  {
    hide Consistent, Framed, View;
    ActedOnce(acted, id);
    ActExtends(a.Show(k), p, Elems(acted), id);
    FrameExtends(a, m, b, k, p, id);
  }

  lemma RemoveStep(a: State, m: State, b: State, k: Kind, p: Plan, acted: seq<string>, id: string)
    requires Progress(a, m, k, p, acted) && id in p && id !in acted && p[id] == None
    requires Consistent(b) && Withdrawn(m, b, k, id)
    ensures Progress(a, b, k, p, acted + [id])
  {
    hide Consistent, View;
    ActStep(a, m, b, k, p, acted, id);
  }

  lemma RemoveKeeps(a: State, m: State, b: State, k: Kind, id: string)
    requires Consistent(m) && Kept(a, m) && Withdrawn(m, b, k, id)
    ensures Kept(a, b)
  {
    hide LegsAgree, AllBuilt, Agrees, View, SameElsewhere;
    if LegsAgree(a) && !b.shutdown && id in m.Show(k) {
      RemovedValid(m, k, id);
    }
    if AllBuilt(a) && !b.shutdown {
      WithdrawnBuilt(m, b, k, id);
    }
  }

  lemma PutStep(a: State, m: State, b: State, k: Kind, p: Plan, acted: seq<string>, item: Cached)
    requires Progress(a, m, k, p, acted) && item.id in p && item.id !in acted && p[item.id] == Some(item.config)
    requires Consistent(b) && Upserted(m, b, k, item, Done)
    ensures Progress(a, b, k, p, acted + [item.id])
  {
    hide Consistent, View;
    ActStep(a, m, b, k, p, acted, item.id);
  }

  lemma PutKeeps(a: State, m: State, b: State, k: Kind, item: Cached)
    requires Consistent(m) && Kept(a, m) && Upserted(m, b, k, item, Done)
    ensures Kept(a, b)
  {
    hide LegsAgree, AllBuilt, Agrees, View, SameElsewhere, CachesOk, ClockOk;
    if LegsAgree(a) && !b.shutdown {
      if item.id in m.Show(k) {
        var tf :| b == Updated(m, k, item, tf);
        UpdatedValid(m, k, item, tf);
      } else {
        AddedValid(m, k, item);
      }
    }
    if AllBuilt(a) && !b.shutdown {
      UpsertedBuilt(m, b, k, item);
    }
  }

  lemma PutFailed(a: State, m: State, b: State, k: Kind, p: Plan, acted: seq<string>, item: Cached)
    requires Progress(a, m, k, p, acted) && item.id in p
    requires Consistent(b) && Upserted(m, b, k, item, Threw)
    ensures Progress(a, b, k, p, acted)
  {
    hide Consistent, View, Framed;
    FrameExtends(a, m, b, k, p, item.id);
  }

  /** make_map: emplace keeps the first item of each id. */
  method MakeMap(items: seq<Cached>) returns (m: map<string, Cached>)
    ensures m.Keys == Ids(items)
    ensures forall id :: id in m ==> m[id].id == id && Some(m[id].config) == Look(View(items), id)
  {
    m := map[];
    var i := 0;
    assert View(items[..0]) == map[];
    while i < |items|
      invariant 0 <= i <= |items| && m.Keys == View(items[..i]).Keys
      invariant forall id :: id in m ==> m[id].id == id && m[id].config == View(items[..i])[id]
    {
      assert items[..i + 1] == items[..i] + [items[i]];
      ViewAppend(items[..i], items[i]);
      if items[i].id !in m {
        m := m[items[i].id := items[i]];
      }
      i := i + 1;
    }
    assert items[..i] == items;
  }

  /** One reconcile_list: removals and updates over the current ids, then additions over the next ids. On
      success every planned id was acted on exactly once; on a throw the ids in `acted` were. */
  method ReconcileList(k: Kind, current: seq<Cached>, next: seq<Cached>, node: Node)
    returns (r: Outcome, acted: seq<string>)
    requires node.Valid()
    modifies node
    ensures Progress(old(node.Abs()), node.Abs(), k, PlanFor(current, next), acted)
    ensures r.Done? ==> Elems(acted) == PlanFor(current, next).Keys && Kept(old(node.Abs()), node.Abs())
    ensures node.asked >= old(node.asked)
    ensures !old(node.shutdown) && Quiet(node.world, old(node.asked), node.asked) ==> r.Done? && !node.shutdown
  {
    hide Progress, Kept, Upserted, Withdrawn, Consistent, View;
    ghost var a := node.Abs();
    ghost var p := PlanFor(current, next);
    Begin(a, k, p);
    KeptAtFirst(a);
    var currentMap := MakeMap(current);
    var nextMap := MakeMap(next);
    r, acted := RemoveAndUpdate(k, currentMap, nextMap, node, a, p);
    if r.Threw? {
      return;
    }
    r, acted := AddMissing(k, currentMap, nextMap, node, a, p, acted);
    if r.Done? {
      assert Elems(acted) == p.Keys;
    }
  }

  /** The first loop of reconcile_list: removals and updates over the current ids. */
  method RemoveAndUpdate(k: Kind, currentMap: map<string, Cached>, nextMap: map<string, Cached>, node: Node, ghost a: State,
                         ghost p: Plan) returns (r: Outcome, acted: seq<string>)
    requires node.Valid() && Progress(a, node.Abs(), k, p, []) && Kept(a, node.Abs())
    requires forall id :: id in nextMap ==> nextMap[id].id == id
    requires forall id :: id in currentMap && id !in nextMap ==> id in p && p[id] == None
    requires forall id :: id in currentMap && id in nextMap ==>
               (id in p <==> currentMap[id].config != nextMap[id].config) && (id in p ==> p[id] == Some(nextMap[id].config)) &&
               currentMap[id].id == id
    modifies node
    ensures Progress(a, node.Abs(), k, p, acted) && node.Valid()
    ensures r.Done? ==> Kept(a, node.Abs()) && forall id :: id in acted <==> id in p && id in currentMap
    ensures node.asked >= old(node.asked)
    ensures !old(node.shutdown) && Quiet(node.world, old(node.asked), node.asked) ==> r.Done? && !node.shutdown
  {
    hide Progress, Kept, Upserted, Withdrawn, Consistent;
    acted := [];
    var todo := currentMap.Keys;
    while todo != {}
      invariant todo <= currentMap.Keys && node.Valid()
      invariant Progress(a, node.Abs(), k, p, acted) && Kept(a, node.Abs())
      invariant node.asked >= old(node.asked)
      invariant !old(node.shutdown) && Quiet(node.world, old(node.asked), node.asked) ==> !node.shutdown
      invariant forall id :: id in acted <==> id in p && id in currentMap && id !in todo
      decreases todo
    {
      var id :| id in todo;
      todo := todo - {id};
      ghost var m := node.Abs();
      if id !in nextMap {
        node.Remove(k, id);
        RemoveStep(a, m, node.Abs(), k, p, acted, id);
        RemoveKeeps(a, m, node.Abs(), k, id);
        acted := acted + [id];
      } else {
        EquivalentIsSameConfig(currentMap[id], nextMap[id]);
        if !Equivalent(currentMap[id], nextMap[id]) {
          r := node.Update(k, nextMap[id]);
          if r.Threw? {
            PutFailed(a, m, node.Abs(), k, p, acted, nextMap[id]);
            return;
          }
          PutStep(a, m, node.Abs(), k, p, acted, nextMap[id]);
          PutKeeps(a, m, node.Abs(), k, nextMap[id]);
          acted := acted + [id];
        }
      }
    }
    r := Done;
  }

  /** The second loop of reconcile_list: additions over the next ids. */
  method AddMissing(k: Kind, currentMap: map<string, Cached>, nextMap: map<string, Cached>, node: Node, ghost a: State,
                    ghost p: Plan, before: seq<string>) returns (r: Outcome, acted: seq<string>)
    requires node.Valid() && Progress(a, node.Abs(), k, p, before) && Kept(a, node.Abs())
    requires forall id :: id in before <==> id in p && id in currentMap
    requires forall id :: id in p ==> id in currentMap || id in nextMap
    requires forall id :: id in nextMap && id !in currentMap ==>
               nextMap[id].id == id && id in p && p[id] == Some(nextMap[id].config)
    modifies node
    ensures Progress(a, node.Abs(), k, p, acted)
    ensures r.Done? ==> Kept(a, node.Abs()) && forall id :: id in acted <==> id in p
    ensures node.asked >= old(node.asked)
    ensures !old(node.shutdown) && Quiet(node.world, old(node.asked), node.asked) ==> r.Done? && !node.shutdown
  {
    hide Progress, Kept, Upserted, Consistent;
    acted := before;
    var todo := nextMap.Keys;
    while todo != {}
      invariant todo <= nextMap.Keys && node.Valid()
      invariant Progress(a, node.Abs(), k, p, acted) && Kept(a, node.Abs())
      invariant node.asked >= old(node.asked)
      invariant !old(node.shutdown) && Quiet(node.world, old(node.asked), node.asked) ==> !node.shutdown
      invariant forall id :: id in acted <==> id in p && (id in currentMap || id !in todo)
      decreases todo
    {
      var id :| id in todo;
      todo := todo - {id};
      ghost var m := node.Abs();
      if id !in currentMap {
        r := node.Add(k, nextMap[id]);
        if r.Threw? {
          PutFailed(a, m, node.Abs(), k, p, acted, nextMap[id]);
          return;
        }
        PutStep(a, m, node.Abs(), k, p, acted, nextMap[id]);
        PutKeeps(a, m, node.Abs(), k, nextMap[id]);
        acted := acted + [id];
      }
    }
    r := Done;
  }

  lemma KeptAtFirst(a: State)
    ensures Kept(a, a)
  {}

  // ----- whole snapshots -----

  /** The order in which apply_snapshot and drain_all go through the kinds. */
  const RECONCILE_ORDER: seq<Kind> :=
    [VideoReceiver, AudioReceiver, AncillaryReceiver, VideoSender, AudioSender, AncillarySender]

  lemma ReconcileOrderCovers(k: Kind)
    ensures exists i :: 0 <= i < 6 && RECONCILE_ORDER[i] == k
  {
    match k
    case VideoReceiver => assert RECONCILE_ORDER[0] == k;
    case AudioReceiver => assert RECONCILE_ORDER[1] == k;
    case AncillaryReceiver => assert RECONCILE_ORDER[2] == k;
    case VideoSender => assert RECONCILE_ORDER[3] == k;
    case AudioSender => assert RECONCILE_ORDER[4] == k;
    case AncillarySender => assert RECONCILE_ORDER[5] == k;
  }

  lemma ReconcileOrderDistinct(i: nat, j: nat)
    requires i < 6 && j < 6 && i != j
    ensures RECONCILE_ORDER[i] != RECONCILE_ORDER[j]
  {}

  predicate Planned(current: Snapshot, next: Snapshot, seed: string, x: ResourceId) {
    var o := OwnerOf(seed, x);
    o.OfStream? && o.id in PlanOf(current, next, o.kind)
  }

  /** What streams the snapshots agree on publish has not changed. */
  ghost predicate Undisturbed(a: State, b: State, current: Snapshot, next: Snapshot) {
    forall x :: !Planned(current, next, a.seed, x) && x != DeviceId(a.seed) ==>
      (x in a.pub.node <==> x in b.pub.node) && (x in a.pub.node ==> a.pub.node[x] == b.pub.node[x]) &&
      (x in a.pub.conn <==> x in b.pub.conn) && (x in a.pub.conn ==> a.pub.conn[x] == b.pub.conn[x])
  }

  /** After the first `j` kinds; `log` names every action taken. */
  ghost predicate KindsApplied(a: State, b: State, current: Snapshot, next: Snapshot, j: nat, log: seq<(Kind, string)>)
    requires j <= 6
  {
    && Consistent(b) && b == a.(streams := b.streams, pub := b.pub, shutdown := b.shutdown) && (a.shutdown ==> b.shutdown)
    && (forall i :: 0 <= i < j ==>
          b.Show(RECONCILE_ORDER[i]) == Overlay(a.Show(RECONCILE_ORDER[i]), PlanOf(current, next, RECONCILE_ORDER[i])))
    && (forall i :: j <= i < 6 ==> b.Show(RECONCILE_ORDER[i]) == a.Show(RECONCILE_ORDER[i]))
    && Undisturbed(a, b, current, next)
    && NoDup(log) && (forall t :: t in log ==> t.1 in PlanOf(current, next, t.0))
    && (forall t :: t in log ==> exists i :: 0 <= i < j && RECONCILE_ORDER[i] == t.0)
    && Kept(a, b)
  }

  /** What the calls that open apply_snapshot set: clock and interfaces of the new snapshot, where they differ
      from the old one's. */
  function Configured(a: State, current: Snapshot, next: Snapshot): State {
    (if current.ptp == next.ptp then a else Clocked(a, Gmid(next.ptp), Locked(next.ptp), Domain(next.ptp)))
    .(interfaces := if current.devices == next.devices then a.interfaces else InterfacesOf(next.devices))
  }

  ghost predicate SameSettings(a: State, b: State) {
    b.seed == a.seed && b.interfaces == a.interfaces && b.ptpDomain == a.ptpDomain && SameNodeInfo(a, b)
  }

  /** The contract of apply_snapshot: between the two registries at worst, the overlay when nothing threw. */
  ghost predicate Applied(a: State, b: State, current: Snapshot, next: Snapshot, r: Outcome, log: seq<(Kind, string)>) {
    && AppliedKinds(a, b, current, next, r, log)
    && (r.Done? ==> SameSettings(Configured(a, current, next), b))
    && (r.Done? && current.devices != next.devices ==> b.shutdown || AllBuilt(b))
  }

  ghost predicate AppliedKinds(a: State, b: State, current: Snapshot, next: Snapshot, r: Outcome, log: seq<(Kind, string)>) {
    && Consistent(b) && b.seed == a.seed && (a.shutdown ==> b.shutdown)
    && (forall k :: Between(a.Show(k), b.Show(k), PlanOf(current, next, k)))
    && (r.Done? ==> forall k :: b.Show(k) == Overlay(a.Show(k), PlanOf(current, next, k)))
    && (r.Done? ==> Kept(a, b))
    && NoDup(log) && (forall t :: t in log ==> t.1 in PlanOf(current, next, t.0))
    && (current.ptp == next.ptp && current.devices == next.devices ==> Undisturbed(a, b, current, next))
  }

  lemma FramedUndisturbed(a: State, m: State, b: State, k: Kind, current: Snapshot, next: Snapshot)
    requires Undisturbed(a, m, current, next) && m.seed == a.seed
    requires Framed(m, b, k, PlanOf(current, next, k))
    ensures Undisturbed(a, b, current, next)
  {}

  function Tagged(k: Kind, ids: seq<string>): (r: seq<(Kind, string)>)
    ensures |r| == |ids| && forall i :: 0 <= i < |ids| ==> r[i] == (k, ids[i])
  {
    seq(|ids|, i requires 0 <= i < |ids| => (k, ids[i]))
  }

  lemma LogGrows(log: seq<(Kind, string)>, k: Kind, acted: seq<string>)
    requires NoDup(log) && NoDup(acted) && forall t :: t in log ==> t.0 != k
    ensures NoDup(log + Tagged(k, acted))
    ensures forall t :: t in log + Tagged(k, acted) <==> t in log || (t.0 == k && t.1 in acted)
  {
    var all := log + Tagged(k, acted);
    forall i, j | 0 <= i < j < |all| ensures all[i] != all[j] {
      if i < |log| <= j {
        assert log[i] in log;
      }
    }
    forall t: (Kind, string) | t.0 == k && t.1 in acted ensures t in all {
      var i :| 0 <= i < |acted| && acted[i] == t.1;
      assert all[|log| + i] == t;
    }
  }

  lemma NextKindShow(a: State, m: State, b: State, current: Snapshot, next: Snapshot, j: nat, p: Plan, acted: seq<string>)
    requires j < 6 && p == PlanOf(current, next, RECONCILE_ORDER[j]) && Elems(acted) == p.Keys
    requires forall i :: j <= i < 6 ==> m.Show(RECONCILE_ORDER[i]) == a.Show(RECONCILE_ORDER[i])
    requires Progress(m, b, RECONCILE_ORDER[j], p, acted)
    ensures b.Show(RECONCILE_ORDER[j]) == Overlay(a.Show(RECONCILE_ORDER[j]), p)
    ensures forall i :: 0 <= i < 6 && i != j ==> b.Show(RECONCILE_ORDER[i]) == m.Show(RECONCILE_ORDER[i])
  {
    hide Consistent, Framed, View;
    assert Restrict(p, Elems(acted)) == p;
    forall i | 0 <= i < 6 && i != j ensures b.Show(RECONCILE_ORDER[i]) == m.Show(RECONCILE_ORDER[i]) {
      ReconcileOrderDistinct(i, j);
    }
  }

  lemma NextKind(a: State, m: State, b: State, current: Snapshot, next: Snapshot, j: nat, log: seq<(Kind, string)>,
                 acted: seq<string>)
    requires j < 6 && KindsApplied(a, m, current, next, j, log)
    requires Progress(m, b, RECONCILE_ORDER[j], PlanOf(current, next, RECONCILE_ORDER[j]), acted)
    requires Elems(acted) == PlanOf(current, next, RECONCILE_ORDER[j]).Keys && Kept(m, b)
    ensures KindsApplied(a, b, current, next, j + 1, log + Tagged(RECONCILE_ORDER[j], acted))
  {
    hide Consistent, Framed, View, Undisturbed, LegsAgree, AllBuilt;
    var k := RECONCILE_ORDER[j];
    NextKindShow(a, m, b, current, next, j, PlanOf(current, next, k), acted);
    FramedUndisturbed(a, m, b, k, current, next);
    forall t | t in log ensures t.0 != k {
      var i :| 0 <= i < j && RECONCILE_ORDER[i] == t.0;
      ReconcileOrderDistinct(i, j);
    }
    LogGrows(log, k, acted);
  }

  lemma KindsAppliedAtFirst(a: State, current: Snapshot, next: Snapshot)
    requires Consistent(a)
    ensures KindsApplied(a, a, current, next, 0, [])
  {}

  /** A throw while reconciling kind `j`. */
  lemma CutOff(a: State, m: State, b: State, current: Snapshot, next: Snapshot, j: nat, log: seq<(Kind, string)>,
               acted: seq<string>)
    requires j < 6 && KindsApplied(a, m, current, next, j, log)
    requires Progress(m, b, RECONCILE_ORDER[j], PlanOf(current, next, RECONCILE_ORDER[j]), acted)
    ensures AppliedKinds(a, b, current, next, Threw, log + Tagged(RECONCILE_ORDER[j], acted))
  {
    hide Consistent, Framed, View, Undisturbed, LegsAgree, AllBuilt;
    var k := RECONCILE_ORDER[j];
    FramedUndisturbed(a, m, b, k, current, next);
    forall t | t in log ensures t.0 != k {
      var i :| 0 <= i < j && RECONCILE_ORDER[i] == t.0;
      ReconcileOrderDistinct(i, j);
    }
    LogGrows(log, k, acted);
    forall k' ensures Between(a.Show(k'), b.Show(k'), PlanOf(current, next, k')) {
      ReconcileOrderCovers(k');
      var i :| 0 <= i < 6 && RECONCILE_ORDER[i] == k';
    }
  }

  lemma AllKinds(a: State, b: State, current: Snapshot, next: Snapshot, log: seq<(Kind, string)>)
    requires KindsApplied(a, b, current, next, 6, log)
    ensures AppliedKinds(a, b, current, next, Done, log) && SameSettings(a, b)
  {
    hide Consistent, View, LegsAgree, AllBuilt;
    assert !Planned(current, next, a.seed, NodeId(a.seed)) && NodeId(a.seed) != DeviceId(a.seed);
    forall k ensures b.Show(k) == Overlay(a.Show(k), PlanOf(current, next, k)) {
      ReconcileOrderCovers(k);
    }
  }

  /** The clock and interface steps that come first leave the caches alone. */
  lemma Prepared(a: State, m: State, b: State, current: Snapshot, next: Snapshot, r: Outcome, log: seq<(Kind, string)>)
    requires m.seed == a.seed && m.streams == a.streams && m.shutdown == a.shutdown && (LegsAgree(a) ==> m.shutdown || LegsAgree(m))
    requires r.Done? && (AllBuilt(a) || current.devices != next.devices) ==> m.shutdown || AllBuilt(m)
    requires current.ptp == next.ptp && current.devices == next.devices ==> m == a
    requires AppliedKinds(m, b, current, next, r, log)
    requires r.Done? ==> SameSettings(Configured(a, current, next), m) && SameSettings(m, b)
    ensures Applied(a, b, current, next, r, log)
  {
    hide Consistent, View, Undisturbed, LegsAgree, AllBuilt, Configured;
    assert forall k :: m.Show(k) == a.Show(k);
  }

  lemma NothingYet(a: State, b: State, current: Snapshot, next: Snapshot)
    requires Consistent(b) && b.seed == a.seed && b.streams == a.streams && b.shutdown == a.shutdown
    requires current.ptp != next.ptp || current.devices != next.devices
    ensures Applied(a, b, current, next, Threw, [])
  {
    hide Consistent, View;
    assert forall k :: b.Show(k) == a.Show(k);
  }

  /** The set_ptp_clock and set_runtime_devices calls that open apply_snapshot. */
  method PrepareClockAndDevices(current: Snapshot, next: Snapshot, node: Node) returns (r: Outcome)
    requires node.Valid()
    modifies node
    ensures node.Valid() && node.seed == old(node.seed) && node.streams == old(node.streams) && node.shutdown == old(node.shutdown)
    ensures old(LegsAgree(node.Abs())) ==> node.shutdown || LegsAgree(node.Abs())
    ensures current.ptp == next.ptp && current.devices == next.devices ==> r.Done? && node.Abs() == old(node.Abs())
    ensures r.Done? ==> SameSettings(Configured(old(node.Abs()), current, next), node.Abs())
    ensures r.Done? && (old(AllBuilt(node.Abs())) || current.devices != next.devices) ==> node.shutdown || AllBuilt(node.Abs())
    ensures r.Done? && (current.ptp != next.ptp || current.devices != next.devices) ==>
              AllFilesMade(node.world, node.Abs(), old(node.asked), node.asked)
    ensures node.asked >= old(node.asked)
    ensures !old(node.shutdown) && Quiet(node.world, old(node.asked), node.asked) ==> r.Done? && !node.shutdown
  {
    hide Consistent, LegsAgree, AllBuilt, Clocked, FilesRefreshed, Refitted;
    r := Done;
    ghost var a := node.Abs();
    if current.ptp != next.ptp {
      var gmid := EffectiveGmid(next.ptp);
      var locked := EffectiveLocked(next.ptp);
      var domain := EffectivePtpDomain(next.ptp);
      r := node.SetPtpClock(gmid, locked, domain);
      ClockStep(a, node.Abs(), gmid, locked, domain);
    }
    ghost var m := node.Abs();
    if r.Done? && current.devices != next.devices {
      var ifs := InterfacesOf(next.devices);
      r := node.SetRuntimeInterfaces(ifs);
      InterfaceStep(m, node.Abs(), ifs, if r.Done? then LiveOf(node.streams) else {});
    }
  }

  lemma ClockStep(a: State, b: State, gmid: string, locked: bool, domain: int)
    requires FilesRefreshed(Clocked(a, gmid, locked, domain), b)
    ensures b.seed == a.seed && b.streams == a.streams && b.shutdown == a.shutdown
    ensures (LegsAgree(a) ==> LegsAgree(b)) && (AllBuilt(a) ==> AllBuilt(b))
    ensures var m := Clocked(a, gmid, locked, domain);
            SameSettings(m, b) && b.interfaces == a.interfaces
  {
    hide LegsAgree, AllBuilt, Normalize;
    if AllBuilt(a) {
      ClockedBuilt(a, gmid, locked, domain);
      FilesAllBuilt(Clocked(a, gmid, locked, domain), b);
    }
    if LegsAgree(a) {
      ClockedLegs(a, gmid, locked, domain);
      FilesLegs(Clocked(a, gmid, locked, domain), b);
    }
  }

  lemma InterfaceStep(a: State, b: State, ifs: seq<Interface>, done: Live)
    requires Refitted(a.(interfaces := ifs), b, done)
    ensures Consistent(b) && b.seed == a.seed && b.streams == a.streams && b.shutdown == a.shutdown
    ensures LegsAgree(a) ==> b.shutdown || LegsAgree(b)
    ensures SameSettings(a.(interfaces := ifs), b)
    ensures done == LiveOf(b.streams) ==> b.shutdown || AllBuilt(b)
  {
    hide Consistent, BuiltAt, View, AllBuilt;
    if done == LiveOf(b.streams) && !b.shutdown {
      RefittedBuilt(a.(interfaces := ifs), b);
    }
    if LegsAgree(a) {
      assert forall k, id :: LegsAgreeAt(a, k, id) ==> LegsAgreeAt(a.(interfaces := ifs), k, id);
    }
  }

  /** apply_snapshot. */
  method ApplySnapshot(currentSnapshot: Option<Snapshot>, next: Snapshot, node: Node)
    returns (r: Outcome, log: seq<(Kind, string)>)
    requires node.Valid()
    modifies node
    ensures Applied(old(node.Abs()), node.Abs(), CurrentOf(currentSnapshot), next, r, log)
    ensures node.asked >= old(node.asked)
    ensures !old(node.shutdown) && Quiet(node.world, old(node.asked), node.asked) ==> r.Done? && !node.shutdown
  {
    hide Consistent, Applied, AppliedKinds, KindsApplied, Progress, Kept, LegsAgree, AllBuilt, View, SameSettings, Configured;
    var current := CurrentOf(currentSnapshot);
    ghost var a := node.Abs();
    log := [];
    r := PrepareClockAndDevices(current, next, node);
    ghost var m := node.Abs();
    if r.Threw? {
      NothingYet(a, m, current, next);
      return;
    }
    KindsAppliedAtFirst(m, current, next);
    var j := 0;
    while j < 6
      invariant 0 <= j <= 6 && node.Valid() && KindsApplied(m, node.Abs(), current, next, j, log)
      invariant node.asked >= old(node.asked)
      invariant !old(node.shutdown) && Quiet(node.world, old(node.asked), node.asked) ==> !node.shutdown
    {
      var k := RECONCILE_ORDER[j];
      ghost var c := node.Abs();
      var acted;
      r, acted := ReconcileList(k, current.lists.Of(k), next.lists.Of(k), node);
      if r.Threw? {
        CutOff(m, c, node.Abs(), current, next, j, log, acted);
        log := log + Tagged(k, acted);
        Prepared(a, m, node.Abs(), current, next, r, log);
        return;
      }
      NextKind(m, c, node.Abs(), current, next, j, log, acted);
      log := log + Tagged(k, acted);
      ProgressValid(c, node.Abs(), k, PlanOf(current, next, k), acted);
      j := j + 1;
    }
    AllKinds(m, node.Abs(), current, next, log);
    r := Done;
    Prepared(a, m, node.Abs(), current, next, r, log);
  }

  /** A successful apply publishes the new snapshot's clock, normalised, with the lock state and domain its
      selectors give, unless no valid id can be made of it, and has adopted its interfaces; what the two snapshots
      agree on stays. */
  lemma AppliedSettings(a: State, b: State, current: Snapshot, next: Snapshot, log: seq<(Kind, string)>)
    requires Consistent(a) && !a.shutdown && Applied(a, b, current, next, Done, log)
    ensures NodeId(a.seed) in a.pub.node && NodeId(a.seed) in b.pub.node
    ensures b.interfaces == if current.devices == next.devices then a.interfaces else InterfacesOf(next.devices)
    ensures current.devices != next.devices ==> |b.interfaces| == |next.devices|
    ensures current.devices != next.devices ==>
              forall i :: 0 <= i < |next.devices| ==>
                b.interfaces[i].name == next.devices[i].displayName &&
                b.interfaces[i].addresses == if next.devices[i].sip == "" then [] else [next.devices[i].sip]
    ensures b.ptpDomain == if current.ptp == next.ptp then a.ptpDomain else Domain(next.ptp)
    ensures b.pub.node[NodeId(a.seed)] ==
            if current.ptp != next.ptp && Normalize(Gmid(next.ptp)) != ""
            then NodeInfo(Normalize(Gmid(next.ptp)), Locked(next.ptp)) else a.pub.node[NodeId(a.seed)]
  {
    hide Normalize, Gmid, Locked, FirstUsable, AppliedKinds;
    assert Expected(a.seed, LiveOf(a.streams), NodeId(a.seed));
    assert Linked(a.seed, a.pub, NodeId(a.seed), a.pub.node[NodeId(a.seed)]);
  }

  /** A successful apply that brought new interfaces, or found every stream published as cached, leaves every
      stream the snapshot registers published in IS-04, staged and constrained in IS-05, as the snapshot says. */
  lemma AppliedIsPublished(a: State, b: State, current: Snapshot, next: Snapshot, log: seq<(Kind, string)>, k: Kind, id: string)
    requires Applied(a, b, current, next, Done, log) && !b.shutdown && (AllBuilt(a) || current.devices != next.devices)
    requires id in PlanOf(current, next, k) && PlanOf(current, next, k)[id].Some?
    ensures PublishedAs(b.seed, b.pub, k, id, PlanOf(current, next, k)[id].value, b.interfaces)
  {
    hide Consistent, View, Undisturbed, LegsAgree, PublishedAs, PlanOf, Configured;
    assert b.Show(k) == Overlay(a.Show(k), PlanOf(current, next, k));
    assert Look(b.Show(k), id) == PlanOf(current, next, k)[id];
    assert BuiltAt(b, k, id);
  }

  lemma ProgressValid(a: State, b: State, k: Kind, p: Plan, acted: seq<string>)
    requires Progress(a, b, k, p, acted)
    ensures Consistent(b)
  {}

  function CurrentOf(s: Option<Snapshot>): Snapshot { if s.Some? then s.value else EMPTY_SNAPSHOT }

  /** What a drain leaves: exactly the snapshot's ids are gone, kind by kind. */
  ghost predicate Drained(a: State, b: State, s: Snapshot) {
    && Consistent(b) && b.seed == a.seed && (a.shutdown ==> b.shutdown)
    && forall k :: b.Show(k) == a.Show(k) - Ids(s.lists.Of(k))
  }

  method DrainKind(k: Kind, xs: seq<Cached>, node: Node)
    requires node.Valid()
    modifies node
    ensures node.Valid() && node.seed == old(node.seed) && (old(node.shutdown) ==> node.shutdown)
    ensures node.Abs().Show(k) == old(node.Abs()).Show(k) - Ids(xs)
    ensures forall k' :: k' != k ==> node.Abs().Show(k') == old(node.Abs()).Show(k')
  {
    hide Consistent, View, SameElsewhere, Removed;
    var i := 0;
    assert Ids(xs[..0]) == {};
    while i < |xs|
      invariant 0 <= i <= |xs| && node.Valid() && node.seed == old(node.seed) && (old(node.shutdown) ==> node.shutdown)
      invariant node.Abs().Show(k) == old(node.Abs()).Show(k) - Ids(xs[..i])
      invariant forall k' :: k' != k ==> node.Abs().Show(k') == old(node.Abs()).Show(k')
    {
      node.Remove(k, xs[i].id);
      IdsGrow(xs, i);
      i := i + 1;
    }
    assert xs[..i] == xs;
  }

  lemma IdsGrow(xs: seq<Cached>, i: nat)
    requires i < |xs|
    ensures Ids(xs[..i + 1]) == Ids(xs[..i]) + {xs[i].id}
  {
    assert xs[..i + 1] == xs[..i] + [xs[i]];
    ViewAppend(xs[..i], xs[i]);
  }

  /** drain_all: removals only, and those of absent or repeated ids do nothing. */
  method DrainAll(currentSnapshot: Option<Snapshot>, node: Node)
    requires node.Valid()
    modifies node
    ensures Drained(old(node.Abs()), node.Abs(), CurrentOf(currentSnapshot))
  {
    hide Consistent, View;
    var s := CurrentOf(currentSnapshot);
    ghost var a := node.Abs();
    if currentSnapshot.None? {
      assert forall k :: Ids(s.lists.Of(k)) == {};
      return;
    }
    var j := 0;
    while j < 6
      invariant 0 <= j <= 6 && node.Valid() && node.seed == a.seed && (a.shutdown ==> node.shutdown)
      invariant forall i :: 0 <= i < j ==>
                  node.Abs().Show(RECONCILE_ORDER[i]) == a.Show(RECONCILE_ORDER[i]) - Ids(s.lists.Of(RECONCILE_ORDER[i]))
      invariant forall i :: j <= i < 6 ==> node.Abs().Show(RECONCILE_ORDER[i]) == a.Show(RECONCILE_ORDER[i])
    {
      var k := RECONCILE_ORDER[j];
      DrainKind(k, s.lists.Of(k), node);
      forall i | 0 <= i < 6 && i != j ensures RECONCILE_ORDER[i] != k {
        ReconcileOrderDistinct(i, j);
      }
      j := j + 1;
    }
    forall k ensures node.Abs().Show(k) == a.Show(k) - Ids(s.lists.Of(k)) {
      ReconcileOrderCovers(k);
    }
  }

  /** Applying any snapshot to an empty registry and draining it again leaves nothing: no cache entry, no id,
      no resource but node and device, an empty device. */
  lemma DrainUndoesApplyCompletely(a: State, m: State, b: State, s: Snapshot, log: seq<(Kind, string)>)
    requires forall k :: a.Show(k) == map[]
    requires Applied(a, m, EMPTY_SNAPSHOT, s, Done, log) && Drained(m, b, s) && !b.shutdown
    ensures b.streams == Empty()
    ensures b.pub.senderIds == [] && b.pub.sourceIds == [] && b.pub.flowIds == [] && b.pub.receiverIds == []
    ensures b.pub.node.Keys == {NodeId(b.seed), DeviceId(b.seed)} && b.pub.conn == map[]
    ensures b.pub.node[DeviceId(b.seed)] == DeviceInfo([], [])
  {
    forall k ensures b.Show(k) == map[] {
      assert EMPTY_SNAPSHOT.lists.Of(k) == [];
      DiffEqualsRebuild<ResourceId>([], s.lists.Of(k));
      assert m.Show(k) == View(s.lists.Of(k));
    }
    NothingCachedNothingPublished(b);
  }

  /** A stream both snapshots list alike keeps everything it publishes, running endpoint and transport file
      included, however the apply ends. */
  lemma UnchangedStreamUndisturbed(a: State, b: State, current: Snapshot, next: Snapshot, r: Outcome,
                                   log: seq<(Kind, string)>, k: Kind, id: string)
    requires Applied(a, b, current, next, r, log) && current.ptp == next.ptp && current.devices == next.devices
    requires Look(View(current.lists.Of(k)), id) == Look(View(next.lists.Of(k)), id)
    ensures (k, id) !in log
    ensures forall x :: Owns(a.seed, k, id, x) ==>
              (x in a.pub.node <==> x in b.pub.node) && (x in a.pub.node ==> a.pub.node[x] == b.pub.node[x]) &&
              (x in a.pub.conn <==> x in b.pub.conn) && (x in a.pub.conn ==> a.pub.conn[x] == b.pub.conn[x])
  {
    hide Consistent, View;
    forall x | Owns(a.seed, k, id, x) ensures !Planned(current, next, a.seed, x) && x != DeviceId(a.seed) {}
  }

  ghost predicate ApplyThrew(a: State, b: State, current: Snapshot, next: Snapshot) {
    exists log: seq<(Kind, string)> :: Applied(a, b, current, next, Threw, log)
  }

  /** Attempts to apply one snapshot, each cut short by a throw. */
  ghost predicate Interrupted(states: seq<State>, current: Snapshot, next: Snapshot) {
    |states| > 0 && forall i :: 0 < i < |states| ==> ApplyThrew(states[i - 1], states[i], current, next)
  }

  lemma {:induction false} InterruptedIsBetween(states: seq<State>, current: Snapshot, next: Snapshot, k: Kind)
    requires Interrupted(states, current, next)
    ensures Between(states[0].Show(k), states[|states| - 1].Show(k), PlanOf(current, next, k))
  {
    hide Consistent, View, PlanFor, Undisturbed;
    var n := |states| - 1;
    if n > 0 {
      InterruptedIsBetween(states[..n], current, next, k);
      assert ApplyThrew(states[n - 1], states[n], current, next);
      var log: seq<(Kind, string)> :| Applied(states[n - 1], states[n], current, next, Threw, log);
      BetweenCompose(states[0].Show(k), states[n - 1].Show(k), states[n].Show(k), PlanOf(current, next, k));
    }
  }

  /** However often and wherever applying a snapshot is cut short, carrying it out again registers exactly what
      an undisturbed apply would have. */
  lemma InterruptedApplyConverges(states: seq<State>, b: State, undisturbed: State, current: Snapshot, next: Snapshot,
                                  log: seq<(Kind, string)>, log': seq<(Kind, string)>)
    requires Interrupted(states, current, next)
    requires Applied(states[|states| - 1], b, current, next, Done, log)
    requires Applied(states[0], undisturbed, current, next, Done, log')
    ensures forall k :: b.Show(k) == undisturbed.Show(k)
  {
    hide Consistent, View, PlanFor, Undisturbed;
    forall k ensures b.Show(k) == undisturbed.Show(k) {
      InterruptedIsBetween(states, current, next, k);
      RetryConverges(states[0].Show(k), states[|states| - 1].Show(k), PlanOf(current, next, k));
    }
  }
}
