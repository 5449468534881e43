/** What the registry operations of src/node.cpp promise, as relations between the state before and after,
    and the proofs that their steps add up to them. */
module RegistrySteps {
  import opened Wrappers
  import opened Naming
  import opened Streams
  import opened Resources
  import opened Publication
  import opened PtpClock
  import opened RegistryModel

  // ----- what is decided outside the registry -----

  /** What the registry asks of the world, question by question: whether the `i`th of them finds a stop arriving,
      or a build or a transport file throwing; and the transport file made at the `i`th, of the published node
      resources, for a sender, its running endpoint and the PTP domain. */
  datatype World = World(
    trouble: nat -> bool,
    file: (nat, map<ResourceId, NodeResource>, ResourceId, Endpoint, int) -> string)

  /** Nothing went wrong at the questions `from` up to `to`. */
  predicate Quiet(w: World, from: nat, to: nat) {
    forall i :: from <= i < to ==> !w.trouble(i)
  }

  /** The transport file of `x` was made at one of these questions, of what is published now. */
  predicate FileMade(w: World, s: State, x: ResourceId, from: nat, to: nat)
    requires x in s.pub.conn
  {
    exists i :: from <= i < to && s.pub.conn[x].transportFile == w.file(i, s.pub.node, x, s.pub.conn[x].active, s.ptpDomain)
  }

  /** Every published sender's transport file was. */
  predicate AllFilesMade(w: World, s: State, from: nat, to: nat) {
    forall x :: x in s.pub.senderIds && x in s.pub.node && x in s.pub.conn ==> FileMade(w, s, x, from, to)
  }

  lemma FileStays(w: World, m: State, b: State, x: ResourceId, y: ResourceId, from: nat, mid: nat, to: nat)
    requires x in m.pub.conn && FileMade(w, m, x, from, mid) && from <= mid <= to && y in m.pub.conn
    requires b == m.(pub := m.pub.(conn := b.pub.conn))
    requires exists f :: b.pub.conn == m.pub.conn[y := m.pub.conn[y].(transportFile := f)]
    requires x == y ==> FileMade(w, b, x, from, to)
    ensures FileMade(w, b, x, from, to)
  {
    if x != y {
      var i :| from <= i < mid && m.pub.conn[x].transportFile == w.file(i, m.pub.node, x, m.pub.conn[x].active, m.ptpDomain);
      assert b.pub.conn[x].transportFile == w.file(i, b.pub.node, x, b.pub.conn[x].active, b.ptpDomain);
    }
  }

  lemma FileStored(a: State, m: State, b: State, x: ResourceId, f: string)
    requires FilesRefreshed(a, m) && x in m.pub.conn
    requires b == m.(pub := m.pub.(conn := m.pub.conn[x := m.pub.conn[x].(transportFile := f)]))
    ensures FilesRefreshed(a, b)
  {}

  lemma NothingRefreshed(a: State)
    ensures FilesRefreshed(a, a)
  {}

  lemma FileMadeSince(w: World, s: State, x: ResourceId, from: nat, mid: nat, to: nat)
    requires x in s.pub.conn && from <= mid && FileMade(w, s, x, mid, to)
    ensures FileMade(w, s, x, from, to)
  {}

  lemma EarlierFiles(w: World, s: State, from: nat, mid: nat, to: nat)
    requires from <= mid && AllFilesMade(w, s, mid, to)
    ensures AllFilesMade(w, s, from, to)
  {}

  lemma AllThereWhenUp(s: State, k: Kind, id: string)
    requires Consistent(s) && id in s.Show(k)
    ensures !s.shutdown ==> AllThere(s, k, id)
  {
    if !s.shutdown {
      OwnsItsResources(s, k, id);
    }
  }

  /** What add and update promise together: either may be called whether or not the stream exists. */
  ghost predicate Upserted(a: State, b: State, k: Kind, item: Cached, r: Outcome) {
    && b == a.(streams := b.streams, pub := b.pub, shutdown := b.shutdown)
    && (a.shutdown ==> b.shutdown)
    && (forall k' :: k' != k ==> b.streams.Of(k') == a.streams.Of(k'))
    && SameElsewhere(a.seed, a.pub, b.pub, k, item.id)
    && (r.Done? ==> b.Show(k) == a.Show(k)[item.id := item.config])
    && (r.Threw? ==> b.streams == a.streams)
    && (!a.shutdown && item.id !in a.Show(k) ==>
          if r.Done? then b == Added(a, k, item) else b == a.(shutdown := b.shutdown))
    && (!a.shutdown && item.id in a.Show(k) ==>
          ConnId(a.seed, k, item.id) in a.pub.conn &&
          if r.Done? then exists tf :: b == Updated(a, k, item, tf)
          else b == a || (IsSender(k) && b == Rebuilt(a, k, item.id, item.config, "")))
  }

  /** What remove promises. Under shutdown the published half may be left behind. */
  ghost predicate Withdrawn(a: State, b: State, k: Kind, id: string) {
    && b == a.(streams := b.streams, pub := b.pub, shutdown := b.shutdown)
    && (a.shutdown ==> b.shutdown)
    && (forall k' :: k' != k ==> b.streams.Of(k') == a.streams.Of(k'))
    && SameElsewhere(a.seed, a.pub, b.pub, k, id)
    && b.Show(k) == a.Show(k) - {id}
    && (id !in a.Show(k) ==> b == a)
    && (id in a.Show(k) && !b.shutdown ==> b == Removed(a, k, id))
  }

  lemma OwnsItsResources(s: State, k: Kind, id: string)
    requires Consistent(s) && !s.shutdown && id in s.Show(k)
    ensures Owned(s.seed, k, id) <= s.pub.node.Keys && ConnId(s.seed, k, id) in s.pub.conn
  {
    assert HasConn(s.seed, LiveOf(s.streams), ConnId(s.seed, k, id));
    assert forall x :: Owns(s.seed, k, id, x) ==> Expected(s.seed, LiveOf(s.streams), x);
  }

  lemma CacheKept(a: State, b: State, k: Kind, item: Cached)
    requires Upserted(a, b, k, item, Threw)
    ensures b.streams == a.streams && b.seed == a.seed
  {}

  lemma LeftAlone(a: State, k: Kind, item: Cached)
    requires Consistent(a) && item.id in a.Show(k)
    ensures Upserted(a, a, k, item, Threw)
  {
    if !a.shutdown {
      OwnsItsResources(a, k, item.id);
    }
    assert SameElsewhere(a.seed, a.pub, a.pub, k, item.id);
  }

  predicate AllThere(a: State, k: Kind, id: string) {
    Owned(a.seed, k, id) <= a.pub.node.Keys && ConnId(a.seed, k, id) in a.pub.conn
  }

  /** What the published half of an update does, whether or not the resources are all there. */
  ghost predicate Replaced(a: State, m: State, k: Kind, id: string, c: Config, tf: string) {
    && m == a.(pub := a.pub.(node := m.pub.node, conn := m.pub.conn))
    && SweptAtMost(a.pub.node, m.pub.node, a.pub.conn, m.pub.conn, Owned(a.seed, k, id))
    && (AllThere(a, k, id) ==>
          m.pub == RebuiltIn(a.seed, a.pub, k, id, c, a.interfaces, tf))
  }

  lemma ReplacedBySteps(a: State, m: State, k: Kind, id: string, c: Config, all: bool, tf: string)
    requires m == a.(pub := a.pub.(node := m.pub.node, conn := m.pub.conn))
    requires all <==> Owned(a.seed, k, id) <= a.pub.node.Keys
    requires all ==> m.pub.node == a.pub.node + Built(a.seed, k, id, c, a.interfaces)
    requires m.pub.node.Keys == a.pub.node.Keys
    requires m.pub.node - Owned(a.seed, k, id) == a.pub.node - Owned(a.seed, k, id)
    requires var x := ConnId(a.seed, k, id);
             m.pub.conn == if all && x in a.pub.conn
                           then a.pub.conn[x := Replacement(k, c, a.interfaces, a.pub.conn[x]).(transportFile := tf)]
                           else a.pub.conn
    ensures Replaced(a, m, k, id, c, tf)
  {
    hide Built, Replacement;
    assert ConnId(a.seed, k, id) in Owned(a.seed, k, id);
  }

  /** After the published half of an update. */
  lemma RebuildStep(a: State, m: State, k: Kind, item: Cached, r: Outcome, tf: string)
    requires Consistent(a) && item.id in a.Show(k)
    requires Replaced(a, m, k, item.id, item.config, if r.Done? then tf else "")
    requires r.Threw? && AllThere(a, k, item.id) ==> IsSender(k)
    ensures Consistent(m) && SameElsewhere(a.seed, a.pub, m.pub, k, item.id)
    ensures !a.shutdown ==> ConnId(a.seed, k, item.id) in a.pub.conn &&
                            m == Rebuilt(a, k, item.id, item.config, if r.Done? then tf else "")
    ensures r.Threw? ==> Upserted(a, m, k, item, Threw)
  {
    SweptElsewhere(a.seed, a.pub, m.pub, k, item.id);
    ClockUntouched(a.seed, a.pub, m.pub, a.ptpDomain, k, item.id);
    if !a.shutdown {
      OwnsItsResources(a, k, item.id);
      RebuiltValid(a, k, item.id, item.config, if r.Done? then tf else "");
    }
  }

  /** After its cached half. */
  lemma CacheStep(a: State, m: State, b: State, k: Kind, item: Cached, tf: string)
    requires Consistent(a) && Consistent(m) && item.id in a.Show(k) && m == a.(pub := m.pub)
    requires SameElsewhere(a.seed, a.pub, m.pub, k, item.id)
    requires !a.shutdown ==> ConnId(a.seed, k, item.id) in a.pub.conn && m == Rebuilt(a, k, item.id, item.config, tf)
    requires b == Recached(m, k, item)
    ensures Consistent(b) && Upserted(a, b, k, item, Done)
  {
    RecachedValid(m, k, item);
    if !a.shutdown {
      assert b == Updated(a, k, item, tf);
    }
  }

  /** What the steps of a remove add up to; `mid` is node_resources but for the device update. */
  ghost predicate CutDown(a: State, b: State, k: Kind, id: string, mid: map<ResourceId, NodeResource>) {
    && (a.shutdown ==> b.shutdown)
    && b == a.(streams := With(a.streams, k, Without(a.streams.Of(k), id)), pub := b.pub, shutdown := b.shutdown)
    && SweptAtMost(a.pub.node, mid, a.pub.conn, b.pub.conn, Owned(a.seed, k, id))
    && (!b.shutdown ==> mid == a.pub.node - Owned(a.seed, k, id) && b.pub.conn == a.pub.conn - {ConnId(a.seed, k, id)})
    && b.pub == UnlistedFrom(a.seed, a.pub, k, id, mid, b.pub.conn)
  }

  /** The lists without a stream's ids, over the given maps; the device is brought up to date. */
  function UnlistedFrom(seed: string, p: Published, k: Kind, id: string, node: map<ResourceId, NodeResource>,
                        conn: map<ResourceId, Connection>): Published {
    var x := ConnId(seed, k, id);
    if IsSender(k) then
      Published(EraseFirst(p.senderIds, x), EraseFirst(p.sourceIds, SourceId(seed, k, id)),
                EraseFirst(p.flowIds, FlowId(seed, k, id)), p.receiverIds,
                Announce(seed, node, k, EraseFirst(p.senderIds, x)), conn)
    else
      Published(p.senderIds, p.sourceIds, p.flowIds, EraseFirst(p.receiverIds, x),
                Announce(seed, node, k, EraseFirst(p.receiverIds, x)), conn)
  }

  lemma AnnounceCommutes(seed: string, node: map<ResourceId, NodeResource>, k: Kind, ids: seq<ResourceId>, x: ResourceId)
    requires x != DeviceId(seed)
    ensures Announce(seed, node, k, ids) - {x} == Announce(seed, node - {x}, k, ids)
    ensures Announce(seed, node, k, ids) - {x} == Announce(seed, node, k, ids) ==> node - {x} == node
  {
    var n := Announce(seed, node, k, ids);
    assert n.Keys == node.Keys;
    if n - {x} == n {
      assert x !in n;
    }
  }

  lemma ReceiverSwept(node: map<ResourceId, NodeResource>, node': map<ResourceId, NodeResource>,
                      conn: map<ResourceId, Connection>, conn': map<ResourceId, Connection>,
                      seed: string, k: Kind, id: string)
    requires !IsSender(k)
    requires node' == node || node' == node - {ConnId(seed, k, id)}
    requires conn' == conn || conn' == conn - {ConnId(seed, k, id)}
    ensures SweptAtMost(node, node', conn, conn', Owned(seed, k, id))
  {}

  lemma NotThere(a: State, k: Kind, id: string)
    requires id !in a.Show(k)
    ensures Withdrawn(a, a, k, id)
  {
    assert a.Show(k) - {id} == a.Show(k);
  }

  /** A remove the shutdown cut short: the cache entry is gone, resources may be left behind. */
  lemma CutShort(a: State, b: State, k: Kind, id: string, mid: map<ResourceId, NodeResource>)
    requires Consistent(a) && id in a.Show(k) && b.shutdown && CutDown(a, b, k, id, mid)
    ensures Consistent(b) && Withdrawn(a, b, k, id)
  {
    RemovedCaches(a.seed, a.streams, k, id);
    UnlistedElsewhere(a.seed, a.pub, b.pub, k, id, mid);
    ClockUntouched(a.seed, a.pub, b.pub, a.ptpDomain, k, id);
  }

  lemma FinishRemove(a: State, b: State, k: Kind, id: string, mid: map<ResourceId, NodeResource>)
    requires Consistent(a) && id in a.Show(k) && CutDown(a, b, k, id, mid)
    ensures Consistent(b) && Withdrawn(a, b, k, id)
  {
    if b.shutdown {
      CutShort(a, b, k, id, mid);
    } else {
      assert b.pub == RemovedFrom(a.seed, a.pub, k, id);
      RemovedValid(a, k, id);
    }
  }

  lemma ListedIsAdded(a: State, b: State, k: Kind, item: Cached)
    requires b == a.(streams := b.streams, pub := b.pub) &&
             b.streams == With(a.streams, k, a.streams.Of(k) + [Stamp(a.seed, k, item)])
    requires var x := ConnId(a.seed, k, item.id);
             var s := IsSender(k);
             b.pub.senderIds == a.pub.senderIds + (if s then [x] else []) &&
             b.pub.sourceIds == a.pub.sourceIds + (if s then [SourceId(a.seed, k, item.id)] else []) &&
             b.pub.flowIds == a.pub.flowIds + (if s then [FlowId(a.seed, k, item.id)] else []) &&
             b.pub.receiverIds == a.pub.receiverIds + (if s then [] else [x]) &&
             b.pub.conn == a.pub.conn[x := FreshConnection(k, item.config, a.interfaces)] &&
             b.pub.node == Announce(a.seed, a.pub.node + Built(a.seed, k, item.id, item.config, a.interfaces), k,
                                    if s then b.pub.senderIds else b.pub.receiverIds)
    ensures b == Added(a, k, item)
  {}

  lemma NothingSwept(node: map<ResourceId, NodeResource>, node': map<ResourceId, NodeResource>,
                     conn: map<ResourceId, Connection>, conn': map<ResourceId, Connection>, own: set<ResourceId>)
    requires SweptAtMost(node, node', conn, conn', own)
    requires forall x :: x in own ==> x !in node && x !in conn
    ensures node' == node && conn' == conn
  {
    assert node - own == node && conn - own == conn;
    assert node' - own == node' && conn' - own == conn';
  }

  lemma SucceededAdd(a: State, b: State, k: Kind, item: Cached)
    requires Consistent(a) && !a.shutdown && item.id !in a.Show(k) && b == Added(a, k, item)
    ensures Consistent(b) && Upserted(a, b, k, item, Done)
  {
    AddedValid(a, k, item);
  }

  /** Resources outside `own` are untouched and none of `own` appeared. */
  ghost predicate SweptAtMost(node: map<ResourceId, NodeResource>, node': map<ResourceId, NodeResource>,
                              conn: map<ResourceId, Connection>, conn': map<ResourceId, Connection>,
                              own: set<ResourceId>) {
    node' - own == node - own && conn' - own == conn - own && node'.Keys <= node.Keys && conn'.Keys <= conn.Keys
  }

  lemma OwnNothingYet(s: State, k: Kind, id: string)
    requires Consistent(s) && id !in s.Show(k)
    ensures !s.shutdown ==> forall x :: Owns(s.seed, k, id, x) ==> x !in s.pub.node && x !in s.pub.conn
  {
    if !s.shutdown {
      forall x | Owns(s.seed, k, id, x) ensures x !in s.pub.node && x !in s.pub.conn {
        assert !Expected(s.seed, LiveOf(s.streams), x) && !HasConn(s.seed, LiveOf(s.streams), x);
      }
    }
  }

  lemma SameOutside<T>(m: map<ResourceId, T>, m': map<ResourceId, T>, own: set<ResourceId>, x: ResourceId)
    requires m - own == m' - own && x !in own
    ensures x in m <==> x in m'
    ensures x in m ==> m[x] == m'[x]
  {
    assert x in m <==> x in m - own;
    assert x in m' <==> x in m' - own;
  }

  lemma SweptElsewhere(seed: string, p: Published, q: Published, k: Kind, id: string)
    requires SweptAtMost(p.node, q.node, p.conn, q.conn, Owned(seed, k, id))
    ensures SameElsewhere(seed, p, q, k, id)
  {
    var own := Owned(seed, k, id);
    forall x | !Owns(seed, k, id, x)
      ensures (x in p.conn <==> x in q.conn) && (x in p.conn ==> p.conn[x] == q.conn[x])
      ensures (x in p.node <==> x in q.node) && (x in p.node ==> p.node[x] == q.node[x])
    {
      SameOutside(p.conn, q.conn, own, x);
      SameOutside(p.node, q.node, own, x);
    }
  }

  lemma UnlistedElsewhere(seed: string, p: Published, q: Published, k: Kind, id: string,
                          mid: map<ResourceId, NodeResource>)
    requires SweptAtMost(p.node, mid, p.conn, q.conn, Owned(seed, k, id))
    requires q == UnlistedFrom(seed, p, k, id, mid, q.conn)
    ensures SameElsewhere(seed, p, q, k, id)
  {
    SweptElsewhere(seed, p, q.(node := mid), k, id);
  }

  /** An add that failed, before or during its inserts, left everything but the shutdown flag alone. */
  lemma FailedAdd(a: State, b: State, k: Kind, item: Cached)
    requires Consistent(a) && item.id !in a.Show(k)
    requires b == a.(pub := a.pub.(node := b.pub.node, conn := b.pub.conn), shutdown := b.shutdown)
    requires SweptAtMost(a.pub.node, b.pub.node, a.pub.conn, b.pub.conn, Owned(a.seed, k, item.id))
    requires a.shutdown ==> b.shutdown
    requires !a.shutdown ==> b.pub == a.pub
    ensures Consistent(b) && Upserted(a, b, k, item, Threw)
  {
    SweptElsewhere(a.seed, a.pub, b.pub, k, item.id);
    ClockUntouched(a.seed, a.pub, b.pub, a.ptpDomain, k, item.id);
  }

  // ----- refreshing every stream -----

  /** The order in which set_runtime_interfaces and reinsert_cached_resources go through the kinds. */
  const NODE_ORDER: seq<Kind> :=
    [VideoSender, AudioSender, AncillarySender, VideoReceiver, AudioReceiver, AncillaryReceiver]

  lemma OrderCovers(k: Kind)
    ensures exists i :: 0 <= i < |NODE_ORDER| && NODE_ORDER[i] == k
  {
    match k
    case VideoSender => assert NODE_ORDER[0] == k;
    case AudioSender => assert NODE_ORDER[1] == k;
    case AncillarySender => assert NODE_ORDER[2] == k;
    case VideoReceiver => assert NODE_ORDER[3] == k;
    case AudioReceiver => assert NODE_ORDER[4] == k;
    case AncillaryReceiver => assert NODE_ORDER[5] == k;
  }

  /** Connections differ in their transport files at most. */
  ghost predicate SameEndpoints(c: map<ResourceId, Connection>, c': map<ResourceId, Connection>) {
    c'.Keys == c.Keys &&
    forall x :: x in c ==> c'[x].staged == c[x].staged && c'[x].active == c[x].active && c'[x].constraints == c[x].constraints
  }

  ghost predicate FilesRefreshed(a: State, b: State) {
    b == a.(pub := a.pub.(conn := b.pub.conn)) && SameEndpoints(a.pub.conn, b.pub.conn)
  }

  lemma FilesValid(a: State, b: State)
    requires Consistent(a) && FilesRefreshed(a, b)
    ensures Consistent(b)
  {
    if !a.shutdown {
      SameConnKeysAgree(a.seed, LiveOf(a.streams), a.pub, b.pub);
    }
  }

  lemma FilesLegs(a: State, b: State)
    requires FilesRefreshed(a, b) && LegsAgree(a)
    ensures LegsAgree(b)
  {
    forall k, id ensures LegsAgreeAt(b, k, id) {
      assert LegsAgreeAt(a, k, id);
    }
  }

  ghost predicate ActivesKept(a: State, b: State) {
    b.pub.conn.Keys == a.pub.conn.Keys &&
    forall x :: x in a.pub.conn ==> b.pub.conn[x].active == a.pub.conn[x].active
  }

  /** What is published for a stream is what `c` builds on the interfaces, in IS-04 and in IS-05, where only the
      running endpoint and the transport file may differ. */
  ghost predicate PublishedAs(seed: string, p: Published, k: Kind, id: string, c: Config, ifs: seq<Interface>) {
    var x := ConnId(seed, k, id);
    && (forall y :: y in Built(seed, k, id, c, ifs) ==> y in p.node && p.node[y] == Built(seed, k, id, c, ifs)[y])
    && x in p.conn
    && p.conn[x].staged == FreshConnection(k, c, ifs).staged && p.conn[x].constraints == FreshConnection(k, c, ifs).constraints
  }

  lemma RebuiltPublishes(seed: string, p: Published, k: Kind, id: string, c: Config, ifs: seq<Interface>, tf: string)
    requires ConnId(seed, k, id) in p.conn
    ensures PublishedAs(seed, RebuiltIn(seed, p, k, id, c, ifs, tf), k, id, c, ifs)
  {
    hide Built, FreshConnection;
  }

  lemma AnnounceElsewhere(seed: string, node: map<ResourceId, NodeResource>, k: Kind, ids: seq<ResourceId>)
    ensures var m := Announce(seed, node, k, ids);
            m.Keys == node.Keys && forall y :: y in node && y != DeviceId(seed) ==> m[y] == node[y]
  {}

  lemma AddedConnection(seed: string, p: Published, k: Kind, id: string, c: Config, ifs: seq<Interface>)
    ensures AddedTo(seed, p, k, id, c, ifs).conn == p.conn[ConnId(seed, k, id) := FreshConnection(k, c, ifs)]
  {
    hide Built, FreshConnection, Announce, ConnId;
  }

  lemma AddedResources(seed: string, p: Published, k: Kind, id: string, c: Config, ifs: seq<Interface>)
    ensures var a, built := AddedTo(seed, p, k, id, c, ifs), Built(seed, k, id, c, ifs);
            forall y :: y in built ==> y in a.node && a.node[y] == built[y]
  {
    assert DeviceId(seed) !in Owned(seed, k, id);
    hide Built, FreshConnection, OwnerOf, Announce, Owned, ConnId;
    var node := p.node + Built(seed, k, id, c, ifs);
    AnnounceElsewhere(seed, node, k, p.senderIds + [ConnId(seed, k, id)]);
    AnnounceElsewhere(seed, node, k, p.receiverIds + [ConnId(seed, k, id)]);
  }

  lemma AddedPublishes(seed: string, p: Published, k: Kind, id: string, c: Config, ifs: seq<Interface>)
    ensures var a := AddedTo(seed, p, k, id, c, ifs);
            PublishedAs(seed, a, k, id, c, ifs) && a.conn[ConnId(seed, k, id)] == FreshConnection(k, c, ifs)
  {
    hide Built, FreshConnection, AddedTo, ConnId;
    AddedConnection(seed, p, k, id, c, ifs);
    AddedResources(seed, p, k, id, c, ifs);
  }

  /** Another stream's change leaves it so. */
  lemma PublishedStays(seed: string, p: Published, q: Published, k: Kind, id: string, k': Kind, id': string, c: Config,
                       ifs: seq<Interface>)
    requires PublishedAs(seed, p, k', id', c, ifs) && (k', id') != (k, id) && SameElsewhere(seed, p, q, k, id)
    ensures PublishedAs(seed, q, k', id', c, ifs)
    ensures q.conn[ConnId(seed, k', id')] == p.conn[ConnId(seed, k', id')]
  {
    hide Built, FreshConnection;
    var x := ConnId(seed, k', id');
    assert !Owns(seed, k, id, x);
    forall y | y in Built(seed, k', id', c, ifs) ensures y in q.node && q.node[y] == Built(seed, k', id', c, ifs)[y] {
      assert y in Owned(seed, k', id') && Owns(seed, k', id', y) && !Owns(seed, k, id, y) && y != DeviceId(seed);
    }
  }

  /** So it is for a cached stream and its cached configuration. */
  ghost predicate BuiltAt(s: State, k: Kind, id: string) {
    id in s.Show(k) && PublishedAs(s.seed, s.pub, k, id, s.Show(k)[id], s.interfaces)
  }

  ghost predicate SameNodeInfo(a: State, b: State) {
    var n := NodeId(a.seed);
    (n in a.pub.node <==> n in b.pub.node) && (n in a.pub.node ==> a.pub.node[n] == b.pub.node[n])
  }

  /** The streams in `done` are rebuilt from their cached configurations; no running endpoint is lost. */
  ghost predicate Refitted(a: State, b: State, done: Live) {
    && Consistent(b)
    && b == a.(pub := a.pub.(node := b.pub.node, conn := b.pub.conn)) && SameNodeInfo(a, b)
    && (!a.shutdown ==> forall k, id :: (k, id) in done ==> BuiltAt(b, k, id))
    && (!a.shutdown && LegsAgree(a) ==> LegsAgree(b) && ActivesKept(a, b))
  }

  lemma UpdatedIsBuiltAt(a: State, k: Kind, item: Cached, tf: string)
    requires Consistent(a) && !a.shutdown && item.id in a.Show(k)
    ensures ConnId(a.seed, k, item.id) in a.pub.conn && BuiltAt(Updated(a, k, item, tf), k, item.id)
  {
    hide Consistent, View, PublishedAs, RebuiltIn, SameElsewhere, LegsAgree;
    UpdatedValid(a, k, item, tf);
    RebuiltPublishes(a.seed, a.pub, k, item.id, item.config, a.interfaces, tf);
  }

  lemma AddedIsBuiltAt(a: State, k: Kind, item: Cached)
    requires Consistent(a) && !a.shutdown && item.id !in a.Show(k)
    ensures FreshAt(Added(a, k, item), k, item.id)
  {
    hide Consistent, View, PublishedAs, AddedTo, SameElsewhere, LegsAgree;
    AddedValid(a, k, item);
    AddedPublishes(a.seed, a.pub, k, item.id, item.config, a.interfaces);
  }

  /** After an add or update that returned, what is published for the stream is what it was given, built on the
      present interfaces; for a stream that was not there, the running endpoint too. */
  lemma UpsertedIsPublished(a: State, b: State, k: Kind, item: Cached)
    requires Consistent(a) && !a.shutdown && Upserted(a, b, k, item, Done)
    ensures item.id in b.Show(k) && b.Show(k)[item.id] == item.config && BuiltAt(b, k, item.id)
    ensures item.id !in a.Show(k) ==> FreshAt(b, k, item.id)
  {
    hide Consistent, View, SameElsewhere, BuiltAt, Added, Updated;
    if item.id in a.Show(k) {
      var tf :| b == Updated(a, k, item, tf);
      UpdatedIsBuiltAt(a, k, item, tf);
    } else {
      AddedIsBuiltAt(a, k, item);
    }
  }

  /** Every cached stream is published as its cached configuration. */
  ghost predicate AllBuilt(s: State) { forall k, id :: id in s.Show(k) ==> BuiltAt(s, k, id) }

  /** A change of one stream that leaves it published as cached, or gone, keeps the others so. */
  lemma BuiltAfterOne(m: State, b: State, k: Kind, id: string)
    requires AllBuilt(m) && b.seed == m.seed && b.interfaces == m.interfaces && SameElsewhere(m.seed, m.pub, b.pub, k, id)
    requires forall k', id' :: id' in b.Show(k') && (k', id') != (k, id) ==>
               id' in m.Show(k') && m.Show(k')[id'] == b.Show(k')[id']
    requires id in b.Show(k) ==> BuiltAt(b, k, id)
    ensures AllBuilt(b)
  {
    hide View, SameElsewhere, PublishedAs;
    forall k', id' | id' in b.Show(k') ensures BuiltAt(b, k', id') {
      if (k', id') != (k, id) {
        assert BuiltAt(m, k', id');
        PublishedStays(m.seed, m.pub, b.pub, k, id, k', id', m.Show(k')[id'], m.interfaces);
      }
    }
  }

  lemma UpsertedBuilt(m: State, b: State, k: Kind, item: Cached)
    requires Consistent(m) && !m.shutdown && AllBuilt(m) && Upserted(m, b, k, item, Done)
    ensures AllBuilt(b)
  {
    hide Consistent, View, SameElsewhere, BuiltAt, Added, Updated;
    UpsertedIsPublished(m, b, k, item);
    assert forall k' :: k' != k ==> b.Show(k') == m.Show(k');
    BuiltAfterOne(m, b, k, item.id);
  }

  lemma WithdrawnBuilt(m: State, b: State, k: Kind, id: string)
    requires AllBuilt(m) && Withdrawn(m, b, k, id)
    ensures AllBuilt(b)
  {
    hide Consistent, View, SameElsewhere, BuiltAt, Removed;
    assert forall k' :: k' != k ==> b.Show(k') == m.Show(k');
    BuiltAfterOne(m, b, k, id);
  }

  /** Rebuilding every stream publishes every stream as cached. */
  lemma RefittedBuilt(a: State, b: State)
    requires Refitted(a, b, LiveOf(b.streams)) && !b.shutdown
    ensures AllBuilt(b)
  {
    hide Consistent, LegsAgree, BuiltAt;
    forall k, id | id in b.Show(k) ensures BuiltAt(b, k, id) {
      assert b.Show(k).Keys == Ids(b.streams.Of(k)) && (k, id) in LiveOf(b.streams);
    }
  }

  /** Running as built, too. */
  ghost predicate FreshAt(s: State, k: Kind, id: string) {
    BuiltAt(s, k, id) &&
    s.pub.conn[ConnId(s.seed, k, id)].active == FreshConnection(k, s.Show(k)[id], s.interfaces).active
  }

  ghost predicate AllFresh(s: State) { forall k, id :: id in s.Show(k) ==> FreshAt(s, k, id) }

  lemma FreshCarriesOver(m: State, b: State, k: Kind, id: string, k': Kind, id': string)
    requires FreshAt(m, k', id') && (k', id') != (k, id)
    requires b.seed == m.seed && b.interfaces == m.interfaces && SameElsewhere(m.seed, m.pub, b.pub, k, id)
    requires id' in b.Show(k') && b.Show(k')[id'] == m.Show(k')[id']
    ensures FreshAt(b, k', id')
  {
    PublishedStays(m.seed, m.pub, b.pub, k, id, k', id', m.Show(k')[id'], m.interfaces);
    hide View, SameElsewhere;
  }

  /** Adding a stream to a registry that runs as built leaves it running as built. */
  lemma AddedFresh(m: State, k: Kind, item: Cached)
    requires Consistent(m) && !m.shutdown && item.id !in m.Show(k) && AllFresh(m)
    ensures AllFresh(Added(m, k, item))
  {
    hide Consistent, View, SameElsewhere, FreshAt;
    var b := Added(m, k, item);
    AddedValid(m, k, item);
    AddedIsBuiltAt(m, k, item);
    AddedElsewhereShown(m, k, item);
    forall k', id' | id' in b.Show(k') ensures FreshAt(b, k', id') {
      if (k', id') != (k, item.id) {
        FreshCarriesOver(m, b, k, item.id, k', id');
      }
    }
  }

  lemma AddedElsewhereShown(m: State, k: Kind, item: Cached)
    ensures var b := Added(m, k, item); b.seed == m.seed && b.interfaces == m.interfaces
    ensures forall k' :: k' != k ==> Added(m, k, item).Show(k') == m.Show(k')
  {
    hide View, AddedTo;
  }

  lemma RefittedAllThere(a: State, b: State, done: Live, k: Kind, id: string)
    requires Refitted(a, b, done) && id in a.Show(k)
    ensures !b.shutdown ==> AllThere(b, k, id)
  {
    hide BuiltAt, LegsAgree, View, Agrees;
    assert a.Show(k) == b.Show(k);
    AllThereWhenUp(b, k, id);
  }

  lemma RefittedLess(a: State, b: State, done: Live, fewer: Live)
    requires Refitted(a, b, done) && fewer <= done
    ensures Refitted(a, b, fewer)
  {}

  lemma CachedConfig(s: State, k: Kind, xs: seq<Cached>, i: nat)
    requires CachesOk(s.seed, s.streams) && xs == s.streams.Of(k) && i < |xs|
    ensures xs[i].id in s.Show(k) && s.Show(k)[xs[i].id] == xs[i].config
  {
    assert CacheOk(s.seed, k, xs);
    ViewOfUnique(xs, i);
  }

  lemma BuiltAtCarriesOver(m: State, b: State, k: Kind, id: string, k': Kind, id': string)
    requires BuiltAt(m, k', id') && (k', id') != (k, id)
    requires b == m.(pub := b.pub) && SameElsewhere(m.seed, m.pub, b.pub, k, id)
    ensures BuiltAt(b, k', id')
  {
    hide View, SameElsewhere, PublishedAs;
    PublishedStays(m.seed, m.pub, b.pub, k, id, k', id', m.Show(k')[id'], m.interfaces);
  }

  lemma RebuiltIsBuiltAt(m: State, k: Kind, id: string, tf: string)
    requires id in m.Show(k) && ConnId(m.seed, k, id) in m.pub.conn
    ensures BuiltAt(Rebuilt(m, k, id, m.Show(k)[id], tf), k, id)
  {
    hide View, PublishedAs, RebuiltIn;
    RebuiltPublishes(m.seed, m.pub, k, id, m.Show(k)[id], m.interfaces, tf);
  }

  lemma RebuiltKeepsActives(m: State, k: Kind, id: string, tf: string)
    requires LegsAgree(m) && id in m.Show(k) && ConnId(m.seed, k, id) in m.pub.conn
    ensures ActivesKept(m, Rebuilt(m, k, id, m.Show(k)[id], tf))
  {
    assert LegsAgreeAt(m, k, id);
  }

  lemma NewInterfacesValid(a: State, ifs: seq<Interface>)
    requires Consistent(a)
    ensures var s := a.(interfaces := ifs); Consistent(s) && Refitted(s, s, {})
  {}

  lemma RefitKeepsBuilt(m: State, k: Kind, id: string, tf: string, done: Live)
    requires id in m.Show(k) && ConnId(m.seed, k, id) in m.pub.conn
    requires SameElsewhere(m.seed, m.pub, Rebuilt(m, k, id, m.Show(k)[id], tf).pub, k, id)
    requires forall k', id' :: (k', id') in done ==> BuiltAt(m, k', id')
    ensures forall k', id' :: (k', id') in done + {(k, id)} ==>
              BuiltAt(Rebuilt(m, k, id, m.Show(k)[id], tf), k', id')
  {
    var b := Rebuilt(m, k, id, m.Show(k)[id], tf);
    RebuiltIsBuiltAt(m, k, id, tf);
    forall k', id' | (k', id') in done + {(k, id)} ensures BuiltAt(b, k', id') {
      if (k', id') != (k, id) {
        BuiltAtCarriesOver(m, b, k, id, k', id');
      }
    }
  }

  lemma SameNodeInfoElsewhere(a: State, b: State, k: Kind, id: string)
    requires a.seed == b.seed && SameElsewhere(a.seed, a.pub, b.pub, k, id)
    ensures SameNodeInfo(a, b)
  {
    assert OwnerOf(a.seed, NodeId(a.seed)) == TheNode;
  }

  lemma RefitStepDown(a: State, m: State, b: State, done: Live, k: Kind, id: string, tf: string)
    requires Refitted(a, m, done) && id in a.Show(k) && Replaced(m, b, k, id, a.Show(k)[id], tf) && a.shutdown
    ensures Refitted(a, b, done + {(k, id)})
  {
    hide BuiltAt, LegsAgree, Agrees, SameElsewhere, View;
    SweptElsewhere(a.seed, m.pub, b.pub, k, id);
    ClockUntouched(a.seed, m.pub, b.pub, a.ptpDomain, k, id);
    SameNodeInfoElsewhere(m, b, k, id);
  }

  lemma RefitStepUp(a: State, m: State, b: State, done: Live, k: Kind, id: string, tf: string)
    requires Refitted(a, m, done) && id in a.Show(k) && !a.shutdown
    requires ConnId(m.seed, k, id) in m.pub.conn && b == Rebuilt(m, k, id, a.Show(k)[id], tf)
    ensures Refitted(a, b, done + {(k, id)})
  {
    hide BuiltAt, LegsAgree, Consistent, SameElsewhere, View;
    assert a.Show(k) == m.Show(k);
    RebuiltValid(m, k, id, m.Show(k)[id], tf);
    RefitKeepsBuilt(m, k, id, tf, done);
    SameNodeInfoElsewhere(m, b, k, id);
    if LegsAgree(a) {
      RebuiltLegs(m, k, id, m.Show(k)[id], tf);
      RebuiltKeepsActives(m, k, id, tf);
    }
  }

  lemma RefitStep(a: State, m: State, b: State, done: Live, k: Kind, id: string, tf: string)
    requires Refitted(a, m, done) && id in a.Show(k) && Replaced(m, b, k, id, a.Show(k)[id], tf)
    ensures Refitted(a, b, done + {(k, id)})
  {
    hide BuiltAt, LegsAgree, Consistent, SameElsewhere, View, RebuiltIn, Built, SweptAtMost;
    if a.shutdown {
      RefitStepDown(a, m, b, done, k, id, tf);
    } else {
      assert a.Show(k) == m.Show(k);
      OwnsItsResources(m, k, id);
      RefitStepUp(a, m, b, done, k, id, tf);
    }
  }

  function LiveOfKind(k: Kind, streams: Lists<ResourceId>): Live {
    set id | id in Ids(streams.Of(k)) :: (k, id)
  }

  lemma KindsCover(streams: Lists<ResourceId>, done: Live)
    requires forall j :: 0 <= j < 6 ==> LiveOfKind(NODE_ORDER[j], streams) <= done
    ensures LiveOf(streams) <= done
  {
    forall k, id | (k, id) in LiveOf(streams) ensures (k, id) in done {
      OrderCovers(k);
      assert (k, id) in LiveOfKind(k, streams);
    }
  }

  lemma FilesBuiltAt(m: State, b: State, k: Kind, id: string)
    requires FilesRefreshed(m, b) && BuiltAt(m, k, id)
    ensures BuiltAt(b, k, id)
  {
    hide View, Built, FreshConnection;
  }

  lemma RefitFiles(a: State, m: State, b: State, done: Live)
    requires Refitted(a, m, done) && FilesRefreshed(m, b)
    ensures Refitted(a, b, done)
  {
    FilesValid(m, b);
    if !a.shutdown {
      hide Consistent, LegsAgree, BuiltAt;
      if LegsAgree(a) {
        FilesLegs(m, b);
      }
      forall k, id | (k, id) in done ensures BuiltAt(b, k, id) {
        FilesBuiltAt(m, b, k, id);
      }
    }
  }

  /** The clock and domain set_ptp_clock publishes. */
  function Clocked(s: State, gmid: string, locked: bool, domain: int): State {
    var n := NodeId(s.seed);
    var p := s.pub;
    s.(ptpDomain := ClampDomain(domain),
       pub := if Normalize(gmid) != "" && n in p.node && p.node[n].NodeInfo?
              then p.(node := p.node[n := NodeInfo(Normalize(gmid), locked)]) else p)
  }

  lemma ClockedValid(s: State, gmid: string, locked: bool, domain: int)
    requires Consistent(s)
    ensures Consistent(Clocked(s, gmid, locked, domain))
    ensures IsValidGmid(Normalize(gmid)) <==> Normalize(gmid) != ""
  {
    NormalizeYieldsValid(gmid);
    var c := Clocked(s, gmid, locked, domain);
    if !s.shutdown {
      forall x | x in c.pub.node ensures Linked(c.seed, c.pub, x, c.pub.node[x]) {
        assert Linked(s.seed, s.pub, x, s.pub.node[x]);
      }
    }
  }

  lemma ClockedBuilt(s: State, gmid: string, locked: bool, domain: int)
    requires AllBuilt(s)
    ensures AllBuilt(Clocked(s, gmid, locked, domain))
  {
    hide View, Normalize, FreshConnection, Built, ClampDomain;
    var b := Clocked(s, gmid, locked, domain);
    forall k, id | id in b.Show(k) ensures BuiltAt(b, k, id) {
      assert b.Show(k) == s.Show(k) && BuiltAt(s, k, id);
      assert NodeId(s.seed) !in Owned(s.seed, k, id);
    }
  }

  lemma FilesAllBuilt(m: State, b: State)
    requires FilesRefreshed(m, b) && AllBuilt(m)
    ensures AllBuilt(b)
  {
    hide BuiltAt, View;
    forall k, id | id in b.Show(k) ensures BuiltAt(b, k, id) {
      assert b.Show(k) == m.Show(k);
      FilesBuiltAt(m, b, k, id);
    }
  }

  lemma ClockedLegs(s: State, gmid: string, locked: bool, domain: int)
    requires LegsAgree(s)
    ensures LegsAgree(Clocked(s, gmid, locked, domain))
  {
    hide Normalize, ClampDomain;
    var c := Clocked(s, gmid, locked, domain);
    assert c.pub.conn == s.pub.conn && c.seed == s.seed && c.streams == s.streams;
    forall k, id ensures LegsAgreeAt(c, k, id) {
      assert LegsAgreeAt(s, k, id);
    }
  }

  // ----- activation -----

  /** Only receivers read a transport file. */
  function SeenBy(k: Kind, seen: Option<Media>): Option<Media> { if IsSender(k) then None else seen }

  /** What a parsed transport file changes in a receiver; ancillary data has none. */
  function Observe(m: Media, seen: Option<Media>): Media {
    match (m, seen)
    case (VideoIn(fs, cs, ts, f, _, _), Some(VideoIn(_, _, _, f', c', t'))) => VideoIn(fs, cs, ts, OrElse(f', f), c', t')
    case (AudioIn(_, _, _, _), Some(AudioIn(n, d, r, p))) => AudioIn(n, d, r, p)
    case _ => m
  }

  /** Whether as_integer succeeds on the ports the handler reads: those of the first two legs. */
  predicate PortsKnown(e: Endpoint) {
    forall i :: 0 <= i < |e.legs| && i < 2 ==> e.legs[i].port.Fixed?
  }

  predicate PortsInRange(e: Endpoint) {
    forall i :: 0 <= i < |e.legs| && i < 2 ==> e.legs[i].port.Fixed? && 0 <= e.legs[i].port.value <= 65535
  }

  /** Whether the handler goes on to the caches at all. */
  predicate Accepted(rid: ResourceId, e: Endpoint) {
    e.legs != [] && PortsKnown(e) && (rid.key.rtype.SenderType? ==> PortsInRange(e))
  }

  /** The cached configuration after an activation. Only a stream cached as redundant takes the second leg. */
  function ActivatedConfig(c: Config, e: Endpoint, seen: Option<Media>): Config
    requires e.legs != [] && PortsKnown(e)
  {
    var l := e.legs[0];
    var red := if c.redundancy.present && |e.legs| > 1 then
                 var m := e.legs[1];
                 c.redundancy.(enable := m.rtpEnabled, sourceIp := m.interfaceIp, ip := m.address, port := m.port.value)
               else c.redundancy;
    c.(enable := e.masterEnable && l.rtpEnabled, sourceIp := l.interfaceIp, ip := l.address, port := l.port.value,
       redundancy := red, media := Observe(c.media, seen))
  }

  /** One call of an observed-changed callback. */
  datatype Fired = FiredFor(kind: Kind, entry: Cached)

  predicate Matches(seed: string, k: Kind, s: Cached, rid: ResourceId) {
    if IsSender(k) then s.senderId == Some(rid) else ConnId(seed, k, s.id) == rid
  }

  /** The cached stream a sender or receiver resource belongs to. */
  function TargetOf(s: State, rid: ResourceId): Option<(Kind, string)> {
    match OwnerOf(s.seed, rid)
    case OfStream(k, t, id) => if t == ConnType(k) && id in s.Show(k) then Some((k, id)) else None
    case _ => None
  }

  /** The entry of `k` under `id` is overwritten in place by its activated form, and reported. */
  ghost predicate EntryActivated(a: State, b: State, k: Kind, id: string, e: Endpoint, seen: Option<Media>, fired: seq<Fired>)
    requires e.legs != [] && PortsKnown(e)
  {
    exists i :: 0 <= i < |a.streams.Of(k)| && a.streams.Of(k)[i].id == id &&
      var entry := a.streams.Of(k)[i].(config := ActivatedConfig(a.streams.Of(k)[i].config, e, SeenBy(k, seen)));
      b == a.(streams := With(a.streams, k, a.streams.Of(k)[i := entry])) && fired == [FiredFor(k, entry)]
  }

  ghost predicate KindActivated(a: State, b: State, k: Kind, rid: ResourceId, e: Endpoint, seen: Option<Media>, fired: seq<Fired>)
    requires Accepted(rid, e)
  {
    var t := TargetOf(a, rid);
    if t.Some? && t.value.0 == k then EntryActivated(a, b, k, t.value.1, e, seen, fired) else b == a && fired == []
  }

  /** An activation changes and reports exactly its own stream's entry, or nothing at all. */
  ghost predicate ActivationDone(a: State, b: State, rid: ResourceId, e: Endpoint, seen: Option<Media>, r: Outcome, fired: seq<Fired>) {
    var t := TargetOf(a, rid);
    && (r.Threw? <==> rid.key.rtype.ReceiverType? && e.legs != [] && !PortsKnown(e))
    && if t.Some? && Accepted(rid, e) then EntryActivated(a, b, t.value.0, t.value.1, e, seen, fired)
       else b == a && fired == []
  }

  lemma MatchesOwnId(seed: string, k: Kind, xs: seq<Cached>, i: nat, rid: ResourceId)
    requires CacheOk(seed, k, xs) && i < |xs|
    ensures Matches(seed, k, xs[i], rid) <==> OwnerOf(seed, rid) == OfStream(k, ConnType(k), xs[i].id)
  {
    assert xs[i] in xs;
  }

  lemma NoTarget(a: State, k: Kind, rid: ResourceId)
    requires CachesOk(a.seed, a.streams)
    requires forall j :: 0 <= j < |a.streams.Of(k)| ==> !Matches(a.seed, k, a.streams.Of(k)[j], rid)
    ensures TargetOf(a, rid).Some? ==> TargetOf(a, rid).value.0 != k
  {
    var xs := a.streams.Of(k);
    assert CacheOk(a.seed, k, xs);
    var t := TargetOf(a, rid);
    if t.Some? && t.value.0 == k {
      var j :| 0 <= j < |xs| && xs[j].id == t.value.1;
      MatchesOwnId(a.seed, k, xs, j, rid);
      assert false;
    }
  }

  lemma FoundTarget(a: State, k: Kind, rid: ResourceId, i: nat, e: Endpoint, seen: Option<Media>)
    requires CachesOk(a.seed, a.streams) && i < |a.streams.Of(k)| && Accepted(rid, e)
    requires Matches(a.seed, k, a.streams.Of(k)[i], rid)
    ensures var xs := a.streams.Of(k);
            var entry := xs[i].(config := ActivatedConfig(xs[i].config, e, SeenBy(k, seen)));
            KindActivated(a, a.(streams := With(a.streams, k, xs[i := entry])), k, rid, e, seen, [FiredFor(k, entry)])
  {
    var xs := a.streams.Of(k);
    assert CacheOk(a.seed, k, xs);
    MatchesOwnId(a.seed, k, xs, i, rid);
    assert xs[i].id in Ids(xs);
  }

  lemma InPlaceIsReplace(xs: seq<Cached>, i: nat, entry: Cached)
    requires UniqueIds(xs) && i < |xs| && entry.id == xs[i].id
    ensures ReplaceById(xs, entry) == xs[i := entry]
  {
    forall j | 0 <= j < |xs| ensures ReplaceById(xs, entry)[j] == xs[i := entry][j] {
      ReplaceByIdAt(xs, entry, j);
    }
  }

  /** Editing an entry's configuration in place is a re-caching of it. */
  lemma EntryActivatedRecaches(a: State, b: State, k: Kind, id: string, e: Endpoint, seen: Option<Media>, fired: seq<Fired>)
    requires CachesOk(a.seed, a.streams) && e.legs != [] && PortsKnown(e)
    requires EntryActivated(a, b, k, id, e, seen, fired)
    ensures |fired| == 1 && fired[0].kind == k && fired[0].entry.id == id && id in a.Show(k)
    ensures fired[0].entry.config == ActivatedConfig(a.Show(k)[id], e, SeenBy(k, seen))
    ensures b == Recached(a, k, fired[0].entry)
  {
    var xs := a.streams.Of(k);
    var i :| 0 <= i < |xs| && xs[i].id == id &&
             var entry := xs[i].(config := ActivatedConfig(xs[i].config, e, SeenBy(k, seen)));
             b == a.(streams := With(a.streams, k, xs[i := entry])) && fired == [FiredFor(k, entry)];
    assert CacheOk(a.seed, k, xs) && xs[i] in xs;
    InPlaceIsReplace(xs, i, fired[0].entry);
    ViewOfUnique(xs, i);
  }

  lemma KindActivatedValid(a: State, b: State, k: Kind, rid: ResourceId, e: Endpoint, seen: Option<Media>, fired: seq<Fired>)
    requires Consistent(a) && Accepted(rid, e) && KindActivated(a, b, k, rid, e, seen, fired)
    ensures Consistent(b) && TargetOf(b, rid) == TargetOf(a, rid)
  {
    var t := TargetOf(a, rid);
    if t.Some? && t.value.0 == k {
      EntryActivatedRecaches(a, b, k, t.value.1, e, seen, fired);
      RecachedValid(a, k, fired[0].entry);
    }
  }

  lemma TargetType(s: State, rid: ResourceId)
    ensures TargetOf(s, rid).Some? ==> ConnType(TargetOf(s, rid).value.0) == rid.key.rtype
  {}

  /** The naming scheme makes the three searches of a handler find at most one stream between them. */
  lemma ThreeKinds(a: State, b0: State, b1: State, b: State, k0: Kind, k1: Kind, k2: Kind, rid: ResourceId, e: Endpoint,
                   seen: Option<Media>, f0: seq<Fired>, f1: seq<Fired>, f2: seq<Fired>)
    requires Accepted(rid, e)
    requires k0 != k1 && k0 != k2 && k1 != k2 && ConnType(k0) == ConnType(k1) == ConnType(k2)
    requires rid.key.rtype == ConnType(k0)
    requires forall k: Kind :: ConnType(k) == ConnType(k0) ==> k == k0 || k == k1 || k == k2
    requires KindActivated(a, b0, k0, rid, e, seen, f0) && KindActivated(b0, b1, k1, rid, e, seen, f1)
    requires KindActivated(b1, b, k2, rid, e, seen, f2)
    requires TargetOf(b0, rid) == TargetOf(a, rid) && TargetOf(b1, rid) == TargetOf(b0, rid)
    ensures ActivationDone(a, b, rid, e, seen, Done, f0 + f1 + f2)
  {
    TargetType(a, rid);
    hide TargetOf, EntryActivated, PortsKnown, PortsInRange;
    var t := TargetOf(a, rid);
    if t.Some? {
      if t.value.0 == k0 {
        assert f0 + f1 + f2 == f0;
      } else if t.value.0 == k1 {
        assert f0 + f1 + f2 == f1;
      } else {
        assert f0 + f1 + f2 == f2;
      }
    }
  }

  function MadeActive(s: State, rid: ResourceId, e: Endpoint): State
    requires rid in s.pub.conn
  {
    s.(pub := s.pub.(conn := s.pub.conn[rid := s.pub.conn[rid].(active := e)]))
  }

  lemma MadeActiveValid(s: State, rid: ResourceId, e: Endpoint)
    requires Consistent(s) && rid in s.pub.conn && |e.legs| == |s.pub.conn[rid].staged.legs|
    ensures Consistent(MadeActive(s, rid, e))
    ensures LegsAgree(s) ==> LegsAgree(MadeActive(s, rid, e))
  {
    var m := MadeActive(s, rid, e);
    if !s.shutdown {
      SameConnKeysAgree(s.seed, LiveOf(s.streams), s.pub, m.pub);
    }
    if LegsAgree(s) {
      forall k, id ensures LegsAgreeAt(m, k, id) {
        assert LegsAgreeAt(s, k, id);
      }
    }
  }

  lemma SameLegsAgree(a: State, b: State, k: Kind, id: string)
    requires LegsAgree(a) && b.pub == a.pub && b.seed == a.seed && id in a.Show(k)
    requires forall k' :: k' != k ==> b.Show(k') == a.Show(k')
    requires id in b.Show(k) && b.Show(k) == a.Show(k)[id := b.Show(k)[id]]
    requires LegCount(b.Show(k)[id]) == LegCount(a.Show(k)[id])
    ensures LegsAgree(b)
  {
    hide View, LegCount;
    forall k', id' ensures LegsAgreeAt(b, k', id') {
      assert LegsAgreeAt(a, k', id');
    }
  }

  /** An activation never turns redundancy on or off, so the leg counts stay right. */
  lemma ActivationLegs(a: State, b: State, rid: ResourceId, e: Endpoint, seen: Option<Media>, r: Outcome, fired: seq<Fired>)
    requires Consistent(a) && LegsAgree(a) && ActivationDone(a, b, rid, e, seen, r, fired)
    ensures LegsAgree(b)
  {
    hide EntryActivated, View, Agrees, UniqueIds, Stamped, ReplaceById, Observe;
    var t := TargetOf(a, rid);
    if t.Some? && Accepted(rid, e) {
      var (k, id) := t.value;
      EntryActivatedRecaches(a, b, k, id, e, seen, fired);
      RecachedValid(a, k, fired[0].entry);
      SameLegsAgree(a, b, k, id);
    }
  }

  // ----- restart -----

  /** What init_device publishes. */
  function JustStarted(seed: string): Published {
    Published([], [], [], [], map[NodeId(seed) := NodeInfo(UNKNOWN_CLOCK, false), DeviceId(seed) := DeviceInfo([], [])], map[])
  }

  /** A node that is up, with everything running as built. */
  ghost predicate Up(s: State) { Consistent(s) && !s.shutdown && LegsAgree(s) && AllFresh(s) }

  /** The cached streams under a new seed: only the sender ids differ. */
  function Restamped(seed: string, k: Kind, xs: seq<Cached>): (r: seq<Cached>)
    ensures |r| == |xs| && forall i :: 0 <= i < |xs| ==> r[i] == Stamp(seed, k, xs[i])
  {
    seq(|xs|, i requires 0 <= i < |xs| => Stamp(seed, k, xs[i]))
  }

  /** Of kind `k` the first `i` streams are back; the other kinds are as they were. */
  ghost predicate ReinsertedOf(seed: string, k: Kind, xs: seq<Cached>, was: Lists<ResourceId>, now: Lists<ResourceId>, i: nat)
    requires i <= |xs|
  {
    forall k' :: now.Of(k') == if k' == k then Restamped(seed, k, xs[..i]) else was.Of(k')
  }

  /** What re-inserting has done so far: the kinds before the `j`th entirely, of the `j`th the first `i` streams. */
  ghost predicate ReinsertedUpTo(seed: string, cached: Lists<ResourceId>, now: Lists<ResourceId>, j: nat, i: nat)
    requires j < 6
  {
    i <= |cached.Of(NODE_ORDER[j])| &&
    forall l :: 0 <= l < 6 ==>
      now.Of(NODE_ORDER[l]) == if l < j then Restamped(seed, NODE_ORDER[l], cached.Of(NODE_ORDER[l]))
                               else if l == j then Restamped(seed, NODE_ORDER[l], cached.Of(NODE_ORDER[l])[..i]) else []
  }

  lemma RestampedView(seed: string, k: Kind, xs: seq<Cached>)
    requires UniqueIds(xs)
    ensures View(Restamped(seed, k, xs)) == View(xs)
  {
    hide View, Ids;
    var r := Restamped(seed, k, xs);
    SameIdsInOrder(xs, r);
    IdsHaveIndices(xs);
    forall y | y in View(xs) ensures View(r)[y] == View(xs)[y] {
      var i :| 0 <= i < |xs| && xs[i].id == y;
      ViewOfUnique(xs, i);
      ViewOfUnique(r, i);
    }
  }

  lemma UnknownClockValid()
    ensures IsValidGmid(UNKNOWN_CLOCK)
  {}

  lemma JustStartedAgrees(seed: string)
    ensures Agrees(seed, {}, JustStarted(seed))
  {
    var p := JustStarted(seed);
    assert forall x :: Expected(seed, {}, x) <==> x == NodeId(seed) || x == DeviceId(seed);
    assert Linked(seed, p, NodeId(seed), p.node[NodeId(seed)]);
    assert Linked(seed, p, DeviceId(seed), p.node[DeviceId(seed)]);
    assert MapsAgree(seed, {}, p);
    assert ListsAgree(seed, {}, p);
  }

  lemma StartedUp(s: State)
    requires !s.shutdown && s.pub == JustStarted(s.seed) && InDomain(s.ptpDomain) && s.streams == Empty()
    ensures Up(s)
  {
    JustStartedAgrees(s.seed);
    UnknownClockValid();
    hide Agrees, IsValidGmid;
    assert LiveOf(s.streams) == {};
    assert forall k :: s.Show(k) == map[];
  }

  lemma NotYetReinserted(m: State, k: Kind, xs: seq<Cached>, i: nat)
    requires UniqueIds(xs) && i < |xs| && m.streams.Of(k) == Restamped(m.seed, k, xs[..i])
    ensures xs[i].id !in m.Show(k)
  {}

  lemma Reinserted(m: State, b: State, k: Kind, xs: seq<Cached>, i: nat)
    requires Up(m) && i < |xs| && xs[i].id !in m.Show(k) && Upserted(m, b, k, xs[i], Done)
    requires m.streams.Of(k) == Restamped(m.seed, k, xs[..i])
    ensures Up(b) && b == m.(streams := b.streams, pub := b.pub)
    ensures b.streams.Of(k) == Restamped(m.seed, k, xs[..i + 1])
  {
    hide View, Ids, AddedTo, Agrees, UniqueIds, AllFresh;
    assert b == Added(m, k, xs[i]);
    AddedFresh(m, k, xs[i]);
    AddedValid(m, k, xs[i]);
    assert xs[..i + 1] == xs[..i] + [xs[i]];
  }

  lemma OrderDistinct(i: nat)
    requires i < 6
    ensures forall j :: 0 <= j < 6 && j != i ==> NODE_ORDER[j] != NODE_ORDER[i]
  {}
}
