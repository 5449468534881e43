/** The state of Node::Impl as a value, what must agree in it, and the state each operation is specified
    to leave behind. The class in NodeRegistry.dfy is proved against this module. */
module RegistryModel {
  import opened Wrappers
  import opened Naming
  import opened Streams
  import opened Resources
  import opened Publication
  import opened PtpClock

  type Cached = Stream<ResourceId>

  /** `streams` holds the six cached vectors, `pub` what is published. */
  datatype State = State(
    seed: string,
    shutdown: bool,
    streams: Lists<ResourceId>,
    pub: Published,
    interfaces: seq<Interface>,
    ptpDomain: int)
  {
    /** The configuration filed under each id of one kind. */
    function Show(k: Kind): map<string, Config> { View(streams.Of(k)) }
  }

  // ----- cached lists -----

  function Without(xs: seq<Cached>, id: string): (r: seq<Cached>)
    ensures forall s :: s in r <==> s in xs && s.id != id
  {
    if xs == [] then [] else
    assert xs == [xs[0]] + xs[1..];
    if xs[0].id == id then Without(xs[1..], id) else [xs[0]] + Without(xs[1..], id)
  }

  /** remove_*_sender_by_sender_id: drops every entry carrying that sender id. */
  function WithoutSenderId(xs: seq<Cached>, rid: ResourceId): seq<Cached> {
    if xs == [] then []
    else if xs[0].senderId == Some(rid) then WithoutSenderId(xs[1..], rid)
    else [xs[0]] + WithoutSenderId(xs[1..], rid)
  }

  lemma IdsAreMembers(xs: seq<Cached>, id: string)
    ensures id in Ids(xs) <==> exists s :: s in xs && s.id == id
  {}

  lemma {:induction false} WithoutKeepsUnique(xs: seq<Cached>, id: string)
    requires UniqueIds(xs)
    ensures UniqueIds(Without(xs, id))
  {
    if xs != [] {
      WithoutKeepsUnique(xs[1..], id);
      var rest := Without(xs[1..], id);
      forall j | 0 <= j < |rest| ensures rest[j].id != xs[0].id {
        assert rest[j] in xs[1..];
      }
    }
  }

  lemma ViewLookup(xs: seq<Cached>, s: Cached)
    requires UniqueIds(xs) && s in xs
    ensures s.id in View(xs) && View(xs)[s.id] == s.config
  {
    var i :| 0 <= i < |xs| && xs[i] == s;
    ViewOfUnique(xs, i);
  }

  lemma WithoutView(xs: seq<Cached>, id: string)
    requires UniqueIds(xs)
    ensures View(Without(xs, id)) == View(xs) - {id}
  {
    hide View, Ids, Without;
    var r := Without(xs, id);
    WithoutKeepsUnique(xs, id);
    forall y ensures y in View(r) <==> y in View(xs) - {id} {
      IdsAreMembers(r, y);
      IdsAreMembers(xs, y);
    }
    forall y | y in View(r) ensures View(r)[y] == View(xs)[y] {
      IdsAreMembers(r, y);
      var s :| s in r && s.id == y;
      ViewLookup(r, s);
      ViewLookup(xs, s);
    }
  }

  predicate Stamped(seed: string, k: Kind, xs: seq<Cached>) {
    IsSender(k) ==> forall s :: s in xs ==> s.senderId == Some(ConnId(seed, k, s.id))
  }

  /** Under correct stamps, dropping by sender id and dropping by id are the same. */
  lemma {:induction false} SenderIdNamesOne(seed: string, k: Kind, xs: seq<Cached>, id: string)
    requires Stamped(seed, k, xs) && IsSender(k)
    ensures WithoutSenderId(xs, ConnId(seed, k, id)) == Without(xs, id)
  {
    if xs != [] {
      assert xs == [xs[0]] + xs[1..];
      SenderIdNamesOne(seed, k, xs[1..], id);
      assert xs[0] in xs && OwnerOf(seed, ConnId(seed, k, xs[0].id)).id == xs[0].id;
    }
  }

  lemma {:induction false} WithoutAppended(xs: seq<Cached>, x: Cached)
    requires forall s :: s in xs ==> s.id != x.id
    ensures Without(xs + [x], x.id) == xs
  {
    if xs == [] {
      assert Without([x], x.id) == Without([x][1..], x.id);
    } else {
      assert xs[0] in xs && forall s :: s in xs[1..] ==> s in xs;
      WithoutAppended(xs[1..], x);
      assert (xs + [x])[1..] == xs[1..] + [x];
    }
  }

  /** replace_cached_by_id: the first entry with that id is overwritten. */
  function ReplaceById(xs: seq<Cached>, s: Cached): (r: seq<Cached>)
    ensures |r| == |xs| && forall i :: 0 <= i < |xs| ==> r[i].id == xs[i].id
  {
    if xs == [] then []
    else if xs[0].id == s.id then [s] + xs[1..]
    else [xs[0]] + ReplaceById(xs[1..], s)
  }

  lemma {:induction false} ReplaceByIdAt(xs: seq<Cached>, s: Cached, i: nat)
    requires UniqueIds(xs) && i < |xs|
    ensures ReplaceById(xs, s)[i] == if xs[i].id == s.id then s else xs[i]
  {
    if xs[0].id != s.id && i > 0 {
      ReplaceByIdAt(xs[1..], s, i - 1);
    }
  }

  lemma SameIdsInOrder(xs: seq<Cached>, r: seq<Cached>)
    requires |r| == |xs| && forall i :: 0 <= i < |xs| ==> r[i].id == xs[i].id
    ensures Ids(r) == Ids(xs) && (UniqueIds(xs) ==> UniqueIds(r))
  {}

  lemma IdsHaveIndices(xs: seq<Cached>)
    ensures forall y :: y in Ids(xs) <==> exists i :: 0 <= i < |xs| && xs[i].id == y
  {}

  lemma ReplaceByIdLookup(xs: seq<Cached>, s: Cached, i: nat)
    requires UniqueIds(xs) && UniqueIds(ReplaceById(xs, s)) && i < |xs|
    ensures xs[i].id in View(xs) && xs[i].id in View(ReplaceById(xs, s))
    ensures View(ReplaceById(xs, s))[xs[i].id] == if xs[i].id == s.id then s.config else View(xs)[xs[i].id]
  {
    hide View, ReplaceById, Ids;
    ReplaceByIdAt(xs, s, i);
    ViewOfUnique(ReplaceById(xs, s), i);
    ViewOfUnique(xs, i);
  }

  lemma {:induction false} ReplaceByIdView(xs: seq<Cached>, s: Cached)
    requires UniqueIds(xs) && s.id in Ids(xs)
    ensures UniqueIds(ReplaceById(xs, s)) && Ids(ReplaceById(xs, s)) == Ids(xs)
    ensures View(ReplaceById(xs, s)) == View(xs)[s.id := s.config]
  {
    hide View, ReplaceById, Ids;
    var r := ReplaceById(xs, s);
    SameIdsInOrder(xs, r);
    IdsHaveIndices(xs);
    var before, after := View(xs), View(r);
    forall y | y in after ensures after[y] == if y == s.id then s.config else before[y] {
      var i :| 0 <= i < |xs| && xs[i].id == y;
      ReplaceByIdLookup(xs, s, i);
    }
  }

  // ----- the invariant -----

  ghost predicate CacheOk(seed: string, k: Kind, xs: seq<Cached>) {
    UniqueIds(xs) && Stamped(seed, k, xs)
  }

  /** What holds of the cached vectors even while the node is shut down. */
  ghost predicate CachesOk(seed: string, streams: Lists<ResourceId>) {
    streams.Complete() && forall k :: CacheOk(seed, k, streams.Of(k))
  }

  /** Changing one kind's vector. */
  lemma OneCacheChanged(seed: string, streams: Lists<ResourceId>, k: Kind, xs: seq<Cached>)
    requires CachesOk(seed, streams) && CacheOk(seed, k, xs)
    ensures CachesOk(seed, With(streams, k, xs))
  {
    forall k' ensures CacheOk(seed, k', With(streams, k, xs).Of(k')) {
      assert CacheOk(seed, k', streams.Of(k'));
    }
  }

  lemma OneLiveAdded(streams: Lists<ResourceId>, k: Kind, xs: seq<Cached>, id: string)
    requires Ids(xs) == Ids(streams.Of(k)) + {id}
    ensures LiveOf(With(streams, k, xs)) == LiveOf(streams) + {(k, id)}
  {}

  lemma OneLiveRemoved(streams: Lists<ResourceId>, k: Kind, xs: seq<Cached>, id: string)
    requires Ids(xs) == Ids(streams.Of(k)) - {id}
    ensures LiveOf(With(streams, k, xs)) == LiveOf(streams) - {(k, id)}
  {}

  lemma LiveUnchanged(streams: Lists<ResourceId>, k: Kind, xs: seq<Cached>)
    requires Ids(xs) == Ids(streams.Of(k))
    ensures LiveOf(With(streams, k, xs)) == LiveOf(streams)
  {}

  function LiveOf(streams: Lists<ResourceId>): (live: Live)
    ensures forall k, id :: (k, id) in live <==> id in Ids(streams.Of(k))
  {
    set k: Kind, id | id in Ids(streams.Of(k)) :: (k, id)
  }

  /** The published clock is a well-formed id and the domain is in range. */
  predicate ClockOk(seed: string, p: Published, domain: int) {
    InDomain(domain) &&
    (NodeId(seed) in p.node && p.node[NodeId(seed)].NodeInfo? ==> IsValidGmid(p.node[NodeId(seed)].clock))
  }

  /** Everything kept by every operation; the published side only while the node is up. */
  ghost predicate Consistent(s: State) {
    && CachesOk(s.seed, s.streams)
    && ClockOk(s.seed, s.pub, s.ptpDomain)
    && (!s.shutdown ==> Agrees(s.seed, LiveOf(s.streams), s.pub))
  }

  /** With nothing cached, only node and device are left anywhere. */
  lemma NothingCachedNothingPublished(s: State)
    requires Consistent(s) && !s.shutdown && forall k :: s.Show(k) == map[]
    ensures s.streams == Empty()
    ensures s.pub.senderIds == [] && s.pub.sourceIds == [] && s.pub.flowIds == [] && s.pub.receiverIds == []
    ensures s.pub.node.Keys == {NodeId(s.seed), DeviceId(s.seed)} && s.pub.conn == map[]
    ensures s.pub.node[DeviceId(s.seed)] == DeviceInfo([], [])
  {
    forall k ensures s.streams.Of(k) == Empty<ResourceId>().Of(k) {
      assert s.Show(k).Keys == Ids(s.streams.Of(k));
      IdsOfNothing(s.streams.Of(k));
    }
    SameLists(s.streams, Empty());
    assert LiveOf(s.streams) == {};
    NothingLiveNothingPublished(s.seed, s.pub);
  }

  lemma IdsOfNothing(xs: seq<Cached>)
    ensures xs == [] || exists id :: id in Ids(xs)
  {
    if xs != [] {
      assert xs[0].id in Ids(xs);
    }
  }

  // ----- leg counts -----

  ghost predicate LegsAgreeAt(s: State, k: Kind, id: string) {
    var x := ConnId(s.seed, k, id);
    id in s.Show(k) && x in s.pub.conn ==>
      |s.pub.conn[x].staged.legs| == |s.pub.conn[x].active.legs| == LegCount(s.Show(k)[id])
  }

  /** Staged and active endpoints have as many legs as the cached configuration asks for. */
  ghost predicate LegsAgree(s: State) {
    forall k, id :: LegsAgreeAt(s, k, id)
  }

  /** Enough to carry the leg counts over a change of one stream. */
  lemma LegsCarryOver(a: State, b: State, k: Kind, id: string)
    requires LegsAgree(a) && a.seed == b.seed && SameElsewhere(a.seed, a.pub, b.pub, k, id)
    requires LegsAgreeAt(b, k, id)
    requires forall k' :: k' != k ==> b.Show(k') == a.Show(k')
    requires forall y :: y != id ==> (y in b.Show(k) <==> y in a.Show(k)) && (y in b.Show(k) ==> b.Show(k)[y] == a.Show(k)[y])
    ensures LegsAgree(b)
  {
    forall k', id' ensures LegsAgreeAt(b, k', id') {
      assert LegsAgreeAt(a, k', id');
      assert (k', id') != (k, id) ==> !Owns(a.seed, k, id, ConnId(a.seed, k', id'));
    }
  }

  // ----- the operations -----

  function Stamp(seed: string, k: Kind, s: Cached): Cached {
    if IsSender(k) then s.(senderId := Some(ConnId(seed, k, s.id))) else s
  }

  function Added(s: State, k: Kind, item: Cached): State {
    s.(streams := With(s.streams, k, s.streams.Of(k) + [Stamp(s.seed, k, item)]),
       pub := AddedTo(s.seed, s.pub, k, item.id, item.config, s.interfaces))
  }

  function Removed(s: State, k: Kind, id: string): State {
    s.(streams := With(s.streams, k, Without(s.streams.Of(k), id)), pub := RemovedFrom(s.seed, s.pub, k, id))
  }

  /** The published half of an update; `tf` is the transport file generated for a sender. */
  function Rebuilt(s: State, k: Kind, id: string, c: Config, tf: string): State
    requires ConnId(s.seed, k, id) in s.pub.conn
  {
    s.(pub := RebuiltIn(s.seed, s.pub, k, id, c, s.interfaces, tf))
  }

  function Recached(s: State, k: Kind, item: Cached): State {
    s.(streams := With(s.streams, k, ReplaceById(s.streams.Of(k), Stamp(s.seed, k, item))))
  }

  function Updated(s: State, k: Kind, item: Cached, tf: string): State
    requires ConnId(s.seed, k, item.id) in s.pub.conn
  {
    Recached(Rebuilt(s, k, item.id, item.config, tf), k, item)
  }

  lemma AppendedCache(seed: string, k: Kind, xs: seq<Cached>, item: Cached)
    requires CacheOk(seed, k, xs) && item.id !in Ids(xs)
    ensures CacheOk(seed, k, xs + [Stamp(seed, k, item)])
  {
    forall i | 0 <= i < |xs| ensures xs[i].id != item.id {
      assert xs[i].id in Ids(xs);
    }
  }

  lemma AddedCaches(s: State, k: Kind, item: Cached)
    requires CachesOk(s.seed, s.streams) && item.id !in s.Show(k)
    ensures CachesOk(s.seed, Added(s, k, item).streams)
    ensures Added(s, k, item).Show(k) == s.Show(k)[item.id := item.config]
    ensures LiveOf(Added(s, k, item).streams) == LiveOf(s.streams) + {(k, item.id)}
  {
    var xs := s.streams.Of(k);
    AppendedCache(s.seed, k, xs, item);
    ViewAppend(xs, Stamp(s.seed, k, item));
    OneCacheChanged(s.seed, s.streams, k, xs + [Stamp(s.seed, k, item)]);
    OneLiveAdded(s.streams, k, xs + [Stamp(s.seed, k, item)], item.id);
  }

  lemma ClockUntouched(seed: string, a: Published, b: Published, domain: int, k: Kind, id: string)
    requires ClockOk(seed, a, domain) && SameElsewhere(seed, a, b, k, id)
    ensures ClockOk(seed, b, domain)
  {
    assert OwnerOf(seed, NodeId(seed)) == TheNode;
  }

  lemma AddedLegs(s: State, k: Kind, item: Cached)
    requires LegsAgree(s) && SameElsewhere(s.seed, s.pub, Added(s, k, item).pub, k, item.id)
    requires Added(s, k, item).Show(k) == s.Show(k)[item.id := item.config]
    ensures LegsAgree(Added(s, k, item))
  {
    var a := Added(s, k, item);
    assert a.pub.conn[ConnId(s.seed, k, item.id)] == FreshConnection(k, item.config, s.interfaces);
    LegsCarryOver(s, a, k, item.id);
  }

  /** Adding a new stream keeps every part of the registry in agreement and files its configuration. */
  lemma AddedValid(s: State, k: Kind, item: Cached)
    requires Consistent(s) && !s.shutdown && item.id !in s.Show(k)
    ensures Consistent(Added(s, k, item))
    ensures Added(s, k, item).Show(k) == s.Show(k)[item.id := item.config]
    ensures SameElsewhere(s.seed, s.pub, Added(s, k, item).pub, k, item.id)
    ensures LegsAgree(s) ==> LegsAgree(Added(s, k, item))
  {
    AddedCaches(s, k, item);
    AddedAgrees(s.seed, LiveOf(s.streams), s.pub, k, item.id, item.config, s.interfaces);
    ClockUntouched(s.seed, s.pub, Added(s, k, item).pub, s.ptpDomain, k, item.id);
    if LegsAgree(s) {
      AddedLegs(s, k, item);
    }
  }

  lemma RemovedCaches(seed: string, streams: Lists<ResourceId>, k: Kind, id: string)
    requires CachesOk(seed, streams)
    ensures CachesOk(seed, With(streams, k, Without(streams.Of(k), id)))
    ensures View(Without(streams.Of(k), id)) == View(streams.Of(k)) - {id}
    ensures LiveOf(With(streams, k, Without(streams.Of(k), id))) == LiveOf(streams) - {(k, id)}
  {
    var xs, r := streams.Of(k), Without(streams.Of(k), id);
    assert CacheOk(seed, k, xs);
    WithoutKeepsUnique(xs, id);
    WithoutView(xs, id);
    assert Ids(r) == View(r).Keys == Ids(xs) - {id};
    OneCacheChanged(seed, streams, k, r);
    OneLiveRemoved(streams, k, r, id);
  }

  /** Removing a stream keeps the agreement and takes away just that stream. */
  lemma RemovedValid(s: State, k: Kind, id: string)
    requires Consistent(s) && !s.shutdown
    ensures Consistent(Removed(s, k, id))
    ensures Removed(s, k, id).Show(k) == s.Show(k) - {id}
    ensures SameElsewhere(s.seed, s.pub, Removed(s, k, id).pub, k, id)
    ensures LegsAgree(s) ==> LegsAgree(Removed(s, k, id))
  {
    RemovedCaches(s.seed, s.streams, k, id);
    RemovedAgrees(s.seed, LiveOf(s.streams), s.pub, k, id);
    ClockUntouched(s.seed, s.pub, Removed(s, k, id).pub, s.ptpDomain, k, id);
    if LegsAgree(s) {
      LegsCarryOver(s, Removed(s, k, id), k, id);
    }
  }

  /** Removing undoes adding completely: caches, id lists, both resource maps and the device. */
  lemma RemovedUndoesAdded(s: State, k: Kind, item: Cached)
    requires Consistent(s) && !s.shutdown && item.id !in s.Show(k)
    ensures Removed(Added(s, k, item), k, item.id) == s
  {
    var xs := s.streams.Of(k);
    forall y | y in xs ensures y.id != item.id {
      IdsAreMembers(xs, y.id);
    }
    hide View, Ids, Without, UniqueIds, Agrees, AddedTo, RemovedFrom, ClockOk;
    WithoutAppended(xs, Stamp(s.seed, k, item));
    SameLists(Removed(Added(s, k, item), k, item.id).streams, s.streams);
    RemoveUndoesAdd(s.seed, LiveOf(s.streams), s.pub, k, item.id, item.config, s.interfaces);
  }

  lemma ReplacedStamped(seed: string, k: Kind, xs: seq<Cached>, item: Cached)
    requires UniqueIds(xs) && Stamped(seed, k, xs) && item == Stamp(seed, k, item)
    ensures Stamped(seed, k, ReplaceById(xs, item))
  {
    var r := ReplaceById(xs, item);
    forall y | y in r ensures IsSender(k) ==> y.senderId == Some(ConnId(seed, k, y.id)) {
      var i :| 0 <= i < |r| && r[i] == y;
      ReplaceByIdAt(xs, item, i);
      assert xs[i] in xs;
    }
  }

  lemma ReplacedCache(seed: string, k: Kind, xs: seq<Cached>, item: Cached)
    requires CacheOk(seed, k, xs) && item.id in Ids(xs) && item == Stamp(seed, k, item)
    ensures CacheOk(seed, k, ReplaceById(xs, item))
    ensures View(ReplaceById(xs, item)) == View(xs)[item.id := item.config]
    ensures Ids(ReplaceById(xs, item)) == Ids(xs)
  {
    ReplaceByIdView(xs, item);
    ReplacedStamped(seed, k, xs, item);
    assert Ids(ReplaceById(xs, item)) == View(ReplaceById(xs, item)).Keys;
  }

  lemma RecachedCaches(seed: string, streams: Lists<ResourceId>, k: Kind, xs: seq<Cached>, item: Cached)
    requires CachesOk(seed, streams) && item.id in Ids(streams.Of(k)) && item == Stamp(seed, k, item)
    requires xs == ReplaceById(streams.Of(k), item)
    ensures CachesOk(seed, With(streams, k, xs))
    ensures View(xs) == View(streams.Of(k))[item.id := item.config]
    ensures LiveOf(With(streams, k, xs)) == LiveOf(streams)
  {
    assert CacheOk(seed, k, streams.Of(k));
    ReplacedCache(seed, k, streams.Of(k), item);
    OneCacheChanged(seed, streams, k, xs);
    LiveUnchanged(streams, k, xs);
  }

  /** Overwriting one cached entry under its own id changes no id anywhere. */
  lemma RecachedValid(s: State, k: Kind, item: Cached)
    requires Consistent(s) && item.id in s.Show(k)
    ensures Consistent(Recached(s, k, item))
    ensures Recached(s, k, item).Show(k) == s.Show(k)[item.id := item.config]
  {
    var own := Stamp(s.seed, k, item);
    RecachedCaches(s.seed, s.streams, k, ReplaceById(s.streams.Of(k), own), own);
  }

  lemma RebuiltLegs(s: State, k: Kind, id: string, c: Config, tf: string)
    requires LegsAgree(s) && ConnId(s.seed, k, id) in s.pub.conn
    requires id in s.Show(k) && s.Show(k)[id] == c
    requires SameElsewhere(s.seed, s.pub, Rebuilt(s, k, id, c, tf).pub, k, id)
    ensures LegsAgree(Rebuilt(s, k, id, c, tf))
  {
    LegsCarryOver(s, Rebuilt(s, k, id, c, tf), k, id);
  }

  /** Rebuilding what a live stream publishes, from whatever configuration, keeps the agreement. */
  lemma RebuiltValid(s: State, k: Kind, id: string, c: Config, tf: string)
    requires Consistent(s) && !s.shutdown && id in s.Show(k)
    ensures ConnId(s.seed, k, id) in s.pub.conn
    ensures Consistent(Rebuilt(s, k, id, c, tf))
    ensures SameElsewhere(s.seed, s.pub, Rebuilt(s, k, id, c, tf).pub, k, id)
  {
    RebuiltAgrees(s.seed, LiveOf(s.streams), s.pub, k, id, c, s.interfaces, tf);
    ClockUntouched(s.seed, s.pub, Rebuilt(s, k, id, c, tf).pub, s.ptpDomain, k, id);
  }

  lemma {:induction false} UpdatedShow(s: State, k: Kind, item: Cached, tf: string)
    requires ConnId(s.seed, k, item.id) in s.pub.conn
    requires CachesOk(s.seed, s.streams) && item.id in s.Show(k)
    ensures Updated(s, k, item, tf).Show(k) == s.Show(k)[item.id := item.config]
    ensures forall k' :: k' != k ==> Updated(s, k, item, tf).Show(k') == s.Show(k')
  {
    hide View, ReplaceById, Ids, CachesOk, RebuiltIn;
    var own := Stamp(s.seed, k, item);
    var xs := ReplaceById(s.streams.Of(k), own);
    assert Updated(s, k, item, tf).streams == With(s.streams, k, xs);
    RecachedCaches(s.seed, s.streams, k, xs, own);
    assert Updated(s, k, item, tf).Show(k) == View(xs);
  }

  lemma UpdatedLegs(s: State, k: Kind, item: Cached, tf: string)
    requires LegsAgree(s) && ConnId(s.seed, k, item.id) in s.pub.conn
    requires CachesOk(s.seed, s.streams) && item.id in s.Show(k)
    requires SameElsewhere(s.seed, s.pub, Updated(s, k, item, tf).pub, k, item.id)
    ensures LegsAgree(Updated(s, k, item, tf))
  {
    var u := Updated(s, k, item, tf);
    UpdatedShow(s, k, item, tf);
    var x := ConnId(s.seed, k, item.id);
    assert u.pub.conn[x] == Replacement(k, item.config, s.interfaces, s.pub.conn[x]).(transportFile := tf);
    assert LegsAgreeAt(u, k, item.id);
    LegsCarryOver(s, u, k, item.id);
  }

  /** An update files the new configuration, keeps the agreement and sets the leg counts by it. */
  lemma UpdatedValid(s: State, k: Kind, item: Cached, tf: string)
    requires Consistent(s) && !s.shutdown && item.id in s.Show(k)
    ensures ConnId(s.seed, k, item.id) in s.pub.conn
    ensures Consistent(Updated(s, k, item, tf))
    ensures Updated(s, k, item, tf).Show(k) == s.Show(k)[item.id := item.config]
    ensures SameElsewhere(s.seed, s.pub, Updated(s, k, item, tf).pub, k, item.id)
    ensures LegsAgree(s) ==> LegsAgree(Updated(s, k, item, tf))
  {
    RebuiltValid(s, k, item.id, item.config, tf);
    RecachedValid(Rebuilt(s, k, item.id, item.config, tf), k, item);
    if LegsAgree(s) {
      UpdatedLegs(s, k, item, tf);
    }
  }

  /** The running endpoint survives an update exactly when its leg count still fits. */
  lemma UpdateKeepsActiveExactly(s: State, k: Kind, item: Cached, tf: string)
    requires ConnId(s.seed, k, item.id) in s.pub.conn
    ensures var x := ConnId(s.seed, k, item.id);
            var before, after := s.pub.conn[x].active, Updated(s, k, item, tf).pub.conn[x].active;
            var built := FreshConnection(k, item.config, s.interfaces).active;
            before != built ==> (after == before <==> |before.legs| == LegCount(item.config)) &&
                                (after == built <==> |before.legs| != LegCount(item.config))
  {}
}
