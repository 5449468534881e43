/** What the node has published: the IS-04 resources, the IS-05 connection resources and the lists of ids,
    and how they must agree with the set of live streams (src/node.cpp, Node::Impl). */
module Publication {
  import opened Wrappers
  import opened Naming
  import opened Streams
  import opened Resources

  /** `node` and `conn` are node_resources and connection_resources; the lists are kept beside them. */
  datatype Published = Published(
    senderIds: seq<ResourceId>,
    sourceIds: seq<ResourceId>,
    flowIds: seq<ResourceId>,
    receiverIds: seq<ResourceId>,
    node: map<ResourceId, NodeResource>,
    conn: map<ResourceId, Connection>)

  /** Which streams exist: kind and stream id. */
  type Live = set<(Kind, string)>

  // ----- whose resource an id is -----

  function PortOf(k: Kind): Port {
    match k
    case VideoSender => Video
    case VideoReceiver => Video
    case AudioSender => Audio
    case AudioReceiver => Audio
    case AncillarySender => Data
    case AncillaryReceiver => Data
  }

  function KindAt(t: ResourceType, p: Port): (r: Option<Kind>)
    ensures r.Some? ==> PortOf(r.value) == p && IsSender(r.value) == !t.ReceiverType?
    ensures r.Some? ==> !t.NodeType? && !t.DeviceType?
  {
    match (t, p)
    case (NodeType, _) => None
    case (DeviceType, _) => None
    case (ReceiverType, Video) => Some(VideoReceiver)
    case (ReceiverType, Audio) => Some(AudioReceiver)
    case (ReceiverType, Data) => Some(AncillaryReceiver)
    case (ReceiverType, _) => None
    case (_, Video) => Some(VideoSender)
    case (_, Audio) => Some(AudioSender)
    case (_, Data) => Some(AncillarySender)
    case _ => None
  }

  datatype Owner = Foreign | TheNode | TheDevice | OfStream(kind: Kind, rtype: ResourceType, id: string)

  function OwnerOf(seed: string, x: ResourceId): (o: Owner)
    ensures o.TheNode? ==> x == NodeId(seed)
    ensures o.TheDevice? ==> x == DeviceId(seed)
    ensures o.OfStream? ==> x == MakeId(seed, o.rtype, PortOf(o.kind), o.id)
    ensures o.OfStream? ==> IsSender(o.kind) == !o.rtype.ReceiverType? && !o.rtype.NodeType? && !o.rtype.DeviceType?
  {
    var Repeatable(s, Key(t, p, id)) := x;
    if s != seed || !Canonical(x.key) then Foreign
    else if t.NodeType? && p.NoPort? then TheNode
    else if t.DeviceType? && p.NoPort? then TheDevice
    else if KindAt(t, p).Some? then OfStream(KindAt(t, p).value, t, id)
    else Foreign
  }

  function NodeId(seed: string): ResourceId { MakeId(seed, NodeType, NoPort, "") }

  function DeviceId(seed: string): ResourceId { MakeId(seed, DeviceType, NoPort, "") }

  function SourceId(seed: string, k: Kind, id: string): ResourceId { MakeId(seed, SourceType, PortOf(k), id) }

  function FlowId(seed: string, k: Kind, id: string): ResourceId { MakeId(seed, FlowType, PortOf(k), id) }

  function ConnType(k: Kind): ResourceType { if IsSender(k) then SenderType else ReceiverType }

  /** The sender or receiver resource; its connection resource carries the same id. */
  function ConnId(seed: string, k: Kind, id: string): (r: ResourceId)
    ensures OwnerOf(seed, r) == OfStream(k, ConnType(k), id)
  {
    MakeId(seed, ConnType(k), PortOf(k), id)
  }

  predicate Owns(seed: string, k: Kind, id: string, x: ResourceId) {
    var o := OwnerOf(seed, x);
    o.OfStream? && o.kind == k && o.id == id
  }

  /** Every resource one stream owns: source, flow and sender, or just the receiver. */
  function Owned(seed: string, k: Kind, id: string): (r: set<ResourceId>)
    ensures forall x :: x in r <==> Owns(seed, k, id, x)
  {
    if IsSender(k) then {SourceId(seed, k, id), FlowId(seed, k, id), ConnId(seed, k, id)}
    else {ConnId(seed, k, id)}
  }

  // ----- id lists -----

  ghost predicate NoDup<T>(xs: seq<T>) {
    forall i, j :: 0 <= i < j < |xs| ==> xs[i] != xs[j]
  }

  /** Erasing the first match, as boost::range::find followed by erase does. */
  function EraseFirst<T(==)>(xs: seq<T>, x: T): seq<T> {
    if xs == [] then [] else if xs[0] == x then xs[1..] else [xs[0]] + EraseFirst(xs[1..], x)
  }

  lemma {:induction false} EraseFirstMembers<T>(xs: seq<T>, x: T)
    requires NoDup(xs)
    ensures forall y :: y in EraseFirst(xs, x) <==> y in xs && y != x
  {
    if xs != [] {
      EraseFirstMembers(xs[1..], x);
      assert xs == [xs[0]] + xs[1..];
    }
  }

  lemma {:induction false} EraseFirstNoDup<T>(xs: seq<T>, x: T)
    requires NoDup(xs)
    ensures NoDup(EraseFirst(xs, x))
  {
    if xs != [] && xs[0] != x {
      EraseFirstNoDup(xs[1..], x);
      EraseFirstMembers(xs[1..], x);
      assert forall j :: 0 <= j < |xs[1..]| ==> xs[1..][j] == xs[j + 1];
      var r := EraseFirst(xs[1..], x);
      forall j | 0 <= j < |r| ensures r[j] != xs[0] {
        assert r[j] in r;
      }
      assert EraseFirst(xs, x) == [xs[0]] + r;
    }
  }

  lemma {:induction false} EraseAppended<T>(xs: seq<T>, x: T)
    requires x !in xs
    ensures EraseFirst(xs + [x], x) == xs
  {
    if xs != [] {
      EraseAppended(xs[1..], x);
      assert (xs + [x])[1..] == xs[1..] + [x];
    }
  }

  // ----- the agreement -----

  predicate Expected(seed: string, live: Live, x: ResourceId) {
    var o := OwnerOf(seed, x);
    o.TheNode? || o.TheDevice? || (o.OfStream? && (o.kind, o.id) in live)
  }

  predicate IsOfType(seed: string, x: ResourceId, t: ResourceType) {
    OwnerOf(seed, x).OfStream? && OwnerOf(seed, x).rtype == t
  }

  /** `ids` holds exactly the ids of type `t` the live streams own, once each. */
  ghost predicate Enumerates(seed: string, live: Live, ids: seq<ResourceId>, t: ResourceType) {
    NoDup(ids) && forall x :: x in ids <==> Expected(seed, live, x) && IsOfType(seed, x, t)
  }

  predicate HasConn(seed: string, live: Live, x: ResourceId) {
    Expected(seed, live, x) && (IsOfType(seed, x, SenderType) || IsOfType(seed, x, ReceiverType))
  }

  /** A resource is of the type its id says and links to its own stream's resources. */
  predicate Linked(seed: string, p: Published, x: ResourceId, r: NodeResource) {
    match OwnerOf(seed, x)
    case Foreign => true
    case TheNode => r.NodeInfo?
    case TheDevice => r == DeviceInfo(p.senderIds, p.receiverIds)
    case OfStream(k, t, id) =>
      match t
      case SourceType => r.SourceInfo?
      case FlowType => r.FlowInfo? && r.source == SourceId(seed, k, id)
      case SenderType => r.SenderInfo? && r.flow == FlowId(seed, k, id)
      case _ => r.ReceiverInfo?
  }

  ghost predicate ListsAgree(seed: string, live: Live, p: Published) {
    && Enumerates(seed, live, p.senderIds, SenderType)
    && Enumerates(seed, live, p.sourceIds, SourceType)
    && Enumerates(seed, live, p.flowIds, FlowType)
    && Enumerates(seed, live, p.receiverIds, ReceiverType)
  }

  ghost predicate MapsAgree(seed: string, live: Live, p: Published) {
    && (forall x :: x in p.node <==> Expected(seed, live, x))
    && (forall x :: x in p.conn <==> HasConn(seed, live, x))
    && (forall x :: x in p.node ==> Linked(seed, p, x, p.node[x]))
  }

  /** Id lists, both resource maps and the device's lists all say what `live` says. */
  ghost predicate Agrees(seed: string, live: Live, p: Published) {
    ListsAgree(seed, live, p) && MapsAgree(seed, live, p)
  }

  /** What the connections hold is no part of the agreement, only which exist. */
  lemma SameConnKeysAgree(seed: string, live: Live, p: Published, q: Published)
    requires Agrees(seed, live, p) && q == p.(conn := q.conn) && q.conn.Keys == p.conn.Keys
    ensures Agrees(seed, live, q)
  {
    forall x | x in q.node ensures Linked(seed, q, x, q.node[x]) {
      assert Linked(seed, p, x, p.node[x]);
    }
  }

  lemma AgreementReaches(seed: string, live: Live, p: Published, x: ResourceId)
    requires Agrees(seed, live, p) && Expected(seed, live, x)
    ensures x in p.node && Linked(seed, p, x, p.node[x])
    ensures x in p.conn <==> HasConn(seed, live, x)
  {
    hide Enumerates, Linked, Expected, HasConn;
  }

  /** The agreement as an API consumer sees it: a sender resolves through its flow to its source, the stream
      has its connection, and the device lists it. */
  lemma AgreementResolves(seed: string, live: Live, p: Published, k: Kind, id: string)
    requires Agrees(seed, live, p) && (k, id) in live
    ensures ConnId(seed, k, id) in p.node && ConnId(seed, k, id) in p.conn
    ensures DeviceId(seed) in p.node && p.node[DeviceId(seed)].DeviceInfo?
    ensures ConnId(seed, k, id) in if IsSender(k) then p.node[DeviceId(seed)].senders else p.node[DeviceId(seed)].receivers
    ensures IsSender(k) ==>
              var snd := p.node[ConnId(seed, k, id)];
              snd.SenderInfo? && snd.flow in p.node && p.node[snd.flow].FlowInfo? &&
              p.node[snd.flow].source in p.node && p.node[p.node[snd.flow].source].SourceInfo?
  {
    hide NoDup, MapsAgree;
    AgreementReaches(seed, live, p, ConnId(seed, k, id));
    AgreementReaches(seed, live, p, DeviceId(seed));
    if IsSender(k) {
      AgreementReaches(seed, live, p, FlowId(seed, k, id));
      AgreementReaches(seed, live, p, SourceId(seed, k, id));
    }
  }

  lemma EmptyOrFirst<T>(xs: seq<T>)
    ensures xs == [] || exists x :: x in xs
  {
    if xs != [] {
      assert xs[0] in xs;
    }
  }

  lemma NothingEnumerated(seed: string, ids: seq<ResourceId>, t: ResourceType)
    requires Enumerates(seed, {}, ids, t)
    ensures ids == []
  {
    EmptyOrFirst(ids);
  }

  /** No orphans: with no stream live, only the node and the device are left anywhere. */
  lemma NothingLiveNothingPublished(seed: string, p: Published)
    requires Agrees(seed, {}, p)
    ensures p.senderIds == [] && p.sourceIds == [] && p.flowIds == [] && p.receiverIds == []
    ensures p.node.Keys == {NodeId(seed), DeviceId(seed)} && p.conn == map[]
    ensures p.node[DeviceId(seed)] == DeviceInfo([], [])
  {
    NothingEnumerated(seed, p.senderIds, SenderType);
    NothingEnumerated(seed, p.sourceIds, SourceType);
    NothingEnumerated(seed, p.flowIds, FlowType);
    NothingEnumerated(seed, p.receiverIds, ReceiverType);
    assert forall x :: Expected(seed, {}, x) <==> x in {NodeId(seed), DeviceId(seed)};
    assert forall x :: !HasConn(seed, {}, x);
    assert Linked(seed, p, DeviceId(seed), p.node[DeviceId(seed)]);
  }

  // ----- frames -----

  /** Nothing but one stream's resources, the id lists and the device's lists differs. */
  ghost predicate SameElsewhere(seed: string, a: Published, b: Published, k: Kind, id: string) {
    && (forall x :: !Owns(seed, k, id, x) ==> (x in a.conn <==> x in b.conn) && (x in a.conn ==> a.conn[x] == b.conn[x]))
    && (forall x :: !Owns(seed, k, id, x) && x != DeviceId(seed) ==>
          (x in a.node <==> x in b.node) && (x in a.node ==> a.node[x] == b.node[x]))
  }

  // ----- adding -----

  function NamesFor(c: Config, ifs: seq<Interface>): seq<string> { InterfaceNames(LegsChosen(c, ifs)) }

  /** The node resources of one stream, built afresh. */
  function Built(seed: string, k: Kind, id: string, c: Config, ifs: seq<Interface>): (m: map<ResourceId, NodeResource>)
    ensures m.Keys == Owned(seed, k, id)
  {
    if IsSender(k) then
      var src, flw, snd := SourceId(seed, k, id), FlowId(seed, k, id), ConnId(seed, k, id);
      map[src := SourceInfo(c), flw := FlowInfo(src, c), snd := SenderInfo(flw, c, NamesFor(c, ifs))]
    else
      map[ConnId(seed, k, id) := ReceiverInfo(c, NamesFor(c, ifs))]
  }

  /** The device update that ends every add and remove. */
  function Announce(seed: string, node: map<ResourceId, NodeResource>, k: Kind, ids: seq<ResourceId>):
    map<ResourceId, NodeResource>
  {
    var d := DeviceId(seed);
    if d in node && node[d].DeviceInfo? then
      node[d := if IsSender(k) then node[d].(senders := ids) else node[d].(receivers := ids)]
    else node
  }

  function AddedTo(seed: string, p: Published, k: Kind, id: string, c: Config, ifs: seq<Interface>): Published {
    var x := ConnId(seed, k, id);
    var node := p.node + Built(seed, k, id, c, ifs);
    var conn := p.conn[x := FreshConnection(k, c, ifs)];
    if IsSender(k) then
      Published(p.senderIds + [x], p.sourceIds + [SourceId(seed, k, id)], p.flowIds + [FlowId(seed, k, id)],
                p.receiverIds, Announce(seed, node, k, p.senderIds + [x]), conn)
    else
      Published(p.senderIds, p.sourceIds, p.flowIds, p.receiverIds + [x],
                Announce(seed, node, k, p.receiverIds + [x]), conn)
  }

  lemma ListGrows(seed: string, live: Live, ids: seq<ResourceId>, t: ResourceType, k: Kind, id: string)
    requires Enumerates(seed, live, ids, t) && (k, id) !in live
    requires OwnerOf(seed, MakeId(seed, t, PortOf(k), id)) == OfStream(k, t, id)
    ensures Enumerates(seed, live + {(k, id)}, ids + [MakeId(seed, t, PortOf(k), id)], t)
  {
    assert MakeId(seed, t, PortOf(k), id) !in ids;
    assert forall i :: 0 <= i < |ids| ==> ids[i] in ids;
  }

  lemma ListUntouched(seed: string, live: Live, ids: seq<ResourceId>, t: ResourceType, k: Kind, id: string)
    requires Enumerates(seed, live, ids, t) && IsSender(k) == t.ReceiverType?
    ensures Enumerates(seed, live + {(k, id)}, ids, t)
    ensures Enumerates(seed, live - {(k, id)}, ids, t)
  {}

  lemma AddedLists(seed: string, live: Live, p: Published, k: Kind, id: string, c: Config, ifs: seq<Interface>)
    requires ListsAgree(seed, live, p) && (k, id) !in live
    ensures ListsAgree(seed, live + {(k, id)}, AddedTo(seed, p, k, id, c, ifs))
  {
    if IsSender(k) {
      ListGrows(seed, live, p.senderIds, SenderType, k, id);
      ListGrows(seed, live, p.sourceIds, SourceType, k, id);
      ListGrows(seed, live, p.flowIds, FlowType, k, id);
      ListUntouched(seed, live, p.receiverIds, ReceiverType, k, id);
    } else {
      ListUntouched(seed, live, p.senderIds, SenderType, k, id);
      ListUntouched(seed, live, p.sourceIds, SourceType, k, id);
      ListUntouched(seed, live, p.flowIds, FlowType, k, id);
      ListGrows(seed, live, p.receiverIds, ReceiverType, k, id);
    }
  }

  lemma OwnedAdded(seed: string, live: Live, k: Kind, id: string)
    ensures forall x :: Expected(seed, live + {(k, id)}, x) <==> Expected(seed, live, x) || Owns(seed, k, id, x)
    ensures forall x :: HasConn(seed, live + {(k, id)}, x) <==> HasConn(seed, live, x) || x == ConnId(seed, k, id)
  {}

  lemma AddedKeys(seed: string, live: Live, p: Published, k: Kind, id: string, c: Config, ifs: seq<Interface>)
    requires MapsAgree(seed, live, p)
    ensures var a := AddedTo(seed, p, k, id, c, ifs);
            (forall x :: x in a.node <==> Expected(seed, live + {(k, id)}, x)) &&
            (forall x :: x in a.conn <==> HasConn(seed, live + {(k, id)}, x))
  {
    assert Expected(seed, live, DeviceId(seed));
    hide FreshConnection, NamesFor, Linked, Expected, HasConn;
    OwnedAdded(seed, live, k, id);
  }

  lemma {:induction false} AddedLinks(seed: string, live: Live, p: Published, k: Kind, id: string, c: Config, ifs: seq<Interface>)
    requires MapsAgree(seed, live, p)
    ensures var a := AddedTo(seed, p, k, id, c, ifs); forall x :: x in a.node ==> Linked(seed, a, x, a.node[x])
  {
    hide FreshConnection, NamesFor;
    var d, a := DeviceId(seed), AddedTo(seed, p, k, id, c, ifs);
    assert Expected(seed, live, d) && Linked(seed, p, d, p.node[d]);
    forall x | x in a.node ensures Linked(seed, a, x, a.node[x]) {
      if x in Built(seed, k, id, c, ifs) {
        assert x != d && a.node[x] == Built(seed, k, id, c, ifs)[x];
      } else {
        assert Linked(seed, p, x, p.node[x]);
      }
    }
  }

  lemma AddedElsewhere(seed: string, p: Published, k: Kind, id: string, c: Config, ifs: seq<Interface>)
    ensures SameElsewhere(seed, p, AddedTo(seed, p, k, id, c, ifs), k, id)
  {
    hide FreshConnection, NamesFor;
  }

  /** Publishing a new stream keeps everything in agreement. */
  lemma {:induction false} AddedAgrees(seed: string, live: Live, p: Published, k: Kind, id: string, c: Config, ifs: seq<Interface>)
    requires Agrees(seed, live, p) && (k, id) !in live
    ensures Agrees(seed, live + {(k, id)}, AddedTo(seed, p, k, id, c, ifs))
    ensures SameElsewhere(seed, p, AddedTo(seed, p, k, id, c, ifs), k, id)
  {
    hide AddedTo;
    AddedElsewhere(seed, p, k, id, c, ifs);
    AddedLists(seed, live, p, k, id, c, ifs);
    AddedKeys(seed, live, p, k, id, c, ifs);
    AddedLinks(seed, live, p, k, id, c, ifs);
  }

  // ----- removing -----

  function RemovedFrom(seed: string, p: Published, k: Kind, id: string): Published {
    var x := ConnId(seed, k, id);
    var node := p.node - Owned(seed, k, id);
    var conn := p.conn - {x};
    if IsSender(k) then
      Published(EraseFirst(p.senderIds, x), EraseFirst(p.sourceIds, SourceId(seed, k, id)),
                EraseFirst(p.flowIds, FlowId(seed, k, id)), p.receiverIds,
                Announce(seed, node, k, EraseFirst(p.senderIds, x)), conn)
    else
      Published(p.senderIds, p.sourceIds, p.flowIds, EraseFirst(p.receiverIds, x),
                Announce(seed, node, k, EraseFirst(p.receiverIds, x)), conn)
  }

  lemma ListShrinks(seed: string, live: Live, ids: seq<ResourceId>, t: ResourceType, k: Kind, id: string)
    requires Enumerates(seed, live, ids, t)
    requires OwnerOf(seed, MakeId(seed, t, PortOf(k), id)) == OfStream(k, t, id)
    ensures Enumerates(seed, live - {(k, id)}, EraseFirst(ids, MakeId(seed, t, PortOf(k), id)), t)
  {
    EraseFirstMembers(ids, MakeId(seed, t, PortOf(k), id));
    EraseFirstNoDup(ids, MakeId(seed, t, PortOf(k), id));
  }

  lemma RemovedLists(seed: string, live: Live, p: Published, k: Kind, id: string)
    requires ListsAgree(seed, live, p)
    ensures ListsAgree(seed, live - {(k, id)}, RemovedFrom(seed, p, k, id))
  {
    if IsSender(k) {
      ListShrinks(seed, live, p.senderIds, SenderType, k, id);
      ListShrinks(seed, live, p.sourceIds, SourceType, k, id);
      ListShrinks(seed, live, p.flowIds, FlowType, k, id);
      ListUntouched(seed, live, p.receiverIds, ReceiverType, k, id);
    } else {
      ListUntouched(seed, live, p.senderIds, SenderType, k, id);
      ListUntouched(seed, live, p.sourceIds, SourceType, k, id);
      ListUntouched(seed, live, p.flowIds, FlowType, k, id);
      ListShrinks(seed, live, p.receiverIds, ReceiverType, k, id);
    }
  }

  lemma OwnedRemoved(seed: string, live: Live, k: Kind, id: string)
    ensures forall x :: Expected(seed, live - {(k, id)}, x) <==> Expected(seed, live, x) && !Owns(seed, k, id, x)
    ensures forall x :: HasConn(seed, live - {(k, id)}, x) <==> HasConn(seed, live, x) && x != ConnId(seed, k, id)
    ensures DeviceId(seed) !in Owned(seed, k, id)
  {}

  lemma RemovedKeys(seed: string, live: Live, p: Published, k: Kind, id: string)
    requires MapsAgree(seed, live, p)
    ensures var r := RemovedFrom(seed, p, k, id);
            (forall x :: x in r.node <==> Expected(seed, live - {(k, id)}, x)) &&
            (forall x :: x in r.conn <==> HasConn(seed, live - {(k, id)}, x))
  {
    assert Expected(seed, live, DeviceId(seed));
    hide Linked, Expected, HasConn, OwnerOf;
    OwnedRemoved(seed, live, k, id);
  }

  lemma RemovedLinks(seed: string, live: Live, p: Published, k: Kind, id: string)
    requires MapsAgree(seed, live, p)
    ensures var r := RemovedFrom(seed, p, k, id); forall x :: x in r.node ==> Linked(seed, r, x, r.node[x])
  {
    var d, r := DeviceId(seed), RemovedFrom(seed, p, k, id);
    assert Expected(seed, live, d) && Linked(seed, p, d, p.node[d]);
    forall x | x in r.node ensures Linked(seed, r, x, r.node[x]) {
      assert Linked(seed, p, x, p.node[x]);
    }
  }

  lemma RemovedElsewhere(seed: string, p: Published, k: Kind, id: string)
    ensures SameElsewhere(seed, p, RemovedFrom(seed, p, k, id), k, id)
  {}

  /** Withdrawing a stream keeps everything in agreement. */
  lemma RemovedAgrees(seed: string, live: Live, p: Published, k: Kind, id: string)
    requires Agrees(seed, live, p)
    ensures Agrees(seed, live - {(k, id)}, RemovedFrom(seed, p, k, id))
    ensures SameElsewhere(seed, p, RemovedFrom(seed, p, k, id), k, id)
  {
    RemovedLists(seed, live, p, k, id);
    hide RemovedFrom;
    RemovedElsewhere(seed, p, k, id);
    RemovedKeys(seed, live, p, k, id);
    RemovedLinks(seed, live, p, k, id);
  }

  lemma RemoveUndoesAddMaps(seed: string, live: Live, p: Published, k: Kind, id: string, c: Config, ifs: seq<Interface>)
    requires MapsAgree(seed, live, p) && (k, id) !in live
    ensures p.node + Built(seed, k, id, c, ifs) - Owned(seed, k, id) == p.node
    ensures p.conn[ConnId(seed, k, id) := FreshConnection(k, c, ifs)] - {ConnId(seed, k, id)} == p.conn
  {
    hide FreshConnection, NamesFor, Linked;
    var m := p.node + Built(seed, k, id, c, ifs) - Owned(seed, k, id);
    assert forall x :: x in Owned(seed, k, id) ==> !Expected(seed, live, x) && !HasConn(seed, live, x);
    assert ConnId(seed, k, id) in Owned(seed, k, id);
    assert m.Keys == p.node.Keys;
  }

  /** A withdrawal undoes a publication completely: lists, both maps and the device. */
  lemma RemoveUndoesAdd(seed: string, live: Live, p: Published, k: Kind, id: string, c: Config, ifs: seq<Interface>)
    requires Agrees(seed, live, p) && (k, id) !in live
    ensures RemovedFrom(seed, AddedTo(seed, p, k, id, c, ifs), k, id) == p
  {
    var d, x := DeviceId(seed), ConnId(seed, k, id);
    var before := p.node + Built(seed, k, id, c, ifs);
    var owned := Owned(seed, k, id);
    assert forall y :: y in owned ==> !Expected(seed, live, y);
    assert Expected(seed, live, d) && Linked(seed, p, d, p.node[d]);
    RemoveUndoesAddMaps(seed, live, p, k, id, c, ifs);
    if IsSender(k) {
      EraseAppended(p.senderIds, x);
      EraseAppended(p.sourceIds, SourceId(seed, k, id));
      EraseAppended(p.flowIds, FlowId(seed, k, id));
      AnnounceUndone(seed, p.node, before, owned, k, p.senderIds + [x], p.senderIds);
    } else {
      EraseAppended(p.receiverIds, x);
      AnnounceUndone(seed, p.node, before, owned, k, p.receiverIds + [x], p.receiverIds);
    }
  }

  lemma AnnounceUndone(seed: string, node: map<ResourceId, NodeResource>, before: map<ResourceId, NodeResource>,
                       owned: set<ResourceId>, k: Kind, ids': seq<ResourceId>, ids: seq<ResourceId>)
    requires before - owned == node && DeviceId(seed) !in owned
    requires DeviceId(seed) in node && node[DeviceId(seed)].DeviceInfo?
    requires ids == if IsSender(k) then node[DeviceId(seed)].senders else node[DeviceId(seed)].receivers
    ensures Announce(seed, Announce(seed, before, k, ids') - owned, k, ids) == node
  {
    var d := DeviceId(seed);
    assert d in before && before[d] == (before - owned)[d] == node[d];
    var after := Announce(seed, before, k, ids') - owned;
    assert after.Keys == node.Keys;
    assert forall y :: y in node && y != d ==> after[y] == node[y];
  }

  // ----- rebuilding -----

  /** replace_*_resources: all a stream publishes is rebuilt; a running endpoint that still fits is kept. */
  function RebuiltIn(seed: string, p: Published, k: Kind, id: string, c: Config, ifs: seq<Interface>, tf: string): Published
    requires ConnId(seed, k, id) in p.conn
  {
    var x := ConnId(seed, k, id);
    p.(node := p.node + Built(seed, k, id, c, ifs),
       conn := p.conn[x := Replacement(k, c, ifs, p.conn[x]).(transportFile := tf)])
  }

  lemma RebuiltElsewhere(seed: string, p: Published, k: Kind, id: string, c: Config, ifs: seq<Interface>, tf: string)
    requires ConnId(seed, k, id) in p.conn
    ensures SameElsewhere(seed, p, RebuiltIn(seed, p, k, id, c, ifs, tf), k, id)
  {
    hide Replacement, NamesFor;
    assert Owns(seed, k, id, ConnId(seed, k, id));
  }

  lemma RebuiltLinks(seed: string, p: Published, k: Kind, id: string, c: Config, ifs: seq<Interface>, tf: string)
    requires ConnId(seed, k, id) in p.conn && forall x :: x in p.node ==> Linked(seed, p, x, p.node[x])
    ensures var b := RebuiltIn(seed, p, k, id, c, ifs, tf); forall x :: x in b.node ==> Linked(seed, b, x, b.node[x])
  {
    hide Replacement, NamesFor;
    var b := RebuiltIn(seed, p, k, id, c, ifs, tf);
    forall x | x in b.node ensures Linked(seed, b, x, b.node[x]) {
      if x !in Built(seed, k, id, c, ifs) {
        assert Linked(seed, p, x, p.node[x]);
      }
    }
  }

  lemma RebuiltKeys(seed: string, live: Live, p: Published, k: Kind, id: string, c: Config, ifs: seq<Interface>, tf: string)
    requires MapsAgree(seed, live, p) && (k, id) in live
    ensures ConnId(seed, k, id) in p.conn
    ensures var b := RebuiltIn(seed, p, k, id, c, ifs, tf);
            b == p.(node := b.node, conn := b.conn) && b.node.Keys == p.node.Keys && b.conn.Keys == p.conn.Keys
  {
    hide Replacement, NamesFor, Linked;
    assert HasConn(seed, live, ConnId(seed, k, id));
    assert forall x :: Owns(seed, k, id, x) ==> Expected(seed, live, x);
  }

  lemma RebuiltAgrees(seed: string, live: Live, p: Published, k: Kind, id: string, c: Config, ifs: seq<Interface>, tf: string)
    requires Agrees(seed, live, p) && (k, id) in live
    ensures ConnId(seed, k, id) in p.conn
    ensures Agrees(seed, live, RebuiltIn(seed, p, k, id, c, ifs, tf))
    ensures SameElsewhere(seed, p, RebuiltIn(seed, p, k, id, c, ifs, tf), k, id)
  {
    hide RebuiltIn, Linked, SameElsewhere, Enumerates, Expected, HasConn;
    RebuiltKeys(seed, live, p, k, id, c, ifs, tf);
    RebuiltElsewhere(seed, p, k, id, c, ifs, tf);
    RebuiltLinks(seed, p, k, id, c, ifs, tf);
    var b := RebuiltIn(seed, p, k, id, c, ifs, tf);
    assert forall x :: (x in b.node <==> x in b.node.Keys) && (x in b.conn <==> x in b.conn.Keys);
    assert forall x :: (x in p.node <==> x in p.node.Keys) && (x in p.conn <==> x in p.conn.Keys);
  }
}
