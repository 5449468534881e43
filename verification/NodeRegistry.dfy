/** Node::Impl's stream registry in the source's own form: fields updated in place, one resource at a time.
    stop() may set `shutdown` from another thread whenever a gated insert or remove lets go of the model
    lock, resource building and transport-file generation may throw at any call; each time `world` is asked. */
module NodeRegistry {
  import opened Wrappers
  import opened Naming
  import opened Streams
  import opened Resources
  import opened Publication
  import opened PtpClock
  import opened RegistryModel
  import opened RegistrySteps

  class Node {
    var seed: string
    var shutdown: bool
    var streams: Lists<ResourceId>
    var senderIds: seq<ResourceId>
    var sourceIds: seq<ResourceId>
    var flowIds: seq<ResourceId>
    var receiverIds: seq<ResourceId>
    var node: map<ResourceId, NodeResource>
    var conn: map<ResourceId, Connection>
    var interfaces: seq<Interface>
    var ptpDomain: int

    const world: World

    /** How often the world has been asked. */
    var asked: nat

    ghost function Pub(): Published
      reads this
    {
      Published(senderIds, sourceIds, flowIds, receiverIds, node, conn)
    }

    ghost function Abs(): State
      reads this
    {
      State(seed, shutdown, streams, Pub(), interfaces, ptpDomain)
    }

    ghost predicate Valid()
      reads this
    {
      Consistent(Abs())
    }

    /** A node that was never started: nothing cached, nothing published. */
    constructor (world: World)
      ensures shutdown && streams == Empty() && Valid()
      ensures this.world == world && asked == 0
    {
      this.world, asked := world, 0;
      seed, shutdown, streams := "", true, Empty();
      senderIds, sourceIds, flowIds, receiverIds := [], [], [], [];
      node, conn, interfaces, ptpDomain := map[], map[], [], DEFAULT_DOMAIN;
    }

    /** The next question: is there trouble? */
    method Ask() returns (trouble: bool)
      modifies this`asked
      ensures asked == old(asked) + 1 && trouble == world.trouble(old(asked))
    {
      trouble := world.trouble(asked);
      asked := asked + 1;
    }

    // ----- the gated model updates -----

    /** insert_resource_after on node_resources. */
    method InsertNode(x: ResourceId, r: NodeResource) returns (ok: bool)
      modifies this`node, this`shutdown, this`asked
      ensures asked == old(asked) + 1 && (shutdown <==> old(shutdown) || world.trouble(old(asked)))
      ensures ok <==> !shutdown && x !in old(node)
      ensures node == if ok then old(node)[x := r] else old(node)
    {
      var stops := Ask();
      if stops {
        shutdown := true;
      }
      if shutdown {
        return false;
      }
      ok := x !in node;
      if ok {
        node := node[x := r];
      }
    }

    /** insert_resource_after on connection_resources. */
    method InsertConn(x: ResourceId, c: Connection) returns (ok: bool)
      modifies this`conn, this`shutdown, this`asked
      ensures asked == old(asked) + 1 && (shutdown <==> old(shutdown) || world.trouble(old(asked)))
      ensures ok <==> !shutdown && x !in old(conn)
      ensures conn == if ok then old(conn)[x := c] else old(conn)
    {
      var stops := Ask();
      if stops {
        shutdown := true;
      }
      if shutdown {
        return false;
      }
      ok := x !in conn;
      if ok {
        conn := conn[x := c];
      }
    }

    /** remove_resource_after on node_resources. */
    method RemoveNode(x: ResourceId)
      modifies this`node, this`shutdown, this`asked
      ensures asked == old(asked) + 1 && (shutdown <==> old(shutdown) || world.trouble(old(asked)))
      ensures node == if shutdown then old(node) else old(node) - {x}
    {
      var stops := Ask();
      if stops {
        shutdown := true;
      }
      if !shutdown {
        node := node - {x};
      }
    }

    /** remove_resource_after on connection_resources. */
    method RemoveConn(x: ResourceId)
      modifies this`conn, this`shutdown, this`asked
      ensures asked == old(asked) + 1 && (shutdown <==> old(shutdown) || world.trouble(old(asked)))
      ensures conn == if shutdown then old(conn) else old(conn) - {x}
    {
      var stops := Ask();
      if stops {
        shutdown := true;
      }
      if !shutdown {
        conn := conn - {x};
      }
    }

    /** modify_resource on the device, publishing the current id list. */
    method AnnounceIds(k: Kind)
      modifies this`node
      ensures node == Announce(seed, old(node), k, if IsSender(k) then senderIds else receiverIds)
    {
      var d := DeviceId(seed);
      if d in node && node[d].DeviceInfo? {
        node := node[d := if IsSender(k) then node[d].(senders := senderIds) else node[d].(receivers := receiverIds)];
      }
    }

    // ----- add -----

    /** The four inserts of a new sender; each failure undoes the inserts before it. */
    method InsertSender(src: ResourceId, flw: ResourceId, snd: ResourceId, c: Config, k: Kind) returns (ok: bool)
      requires src != flw && src != snd && flw != snd
      requires !shutdown ==> src !in node && flw !in node && snd !in node && snd !in conn
      modifies this`node, this`conn, this`shutdown, this`asked
      ensures asked >= old(asked) && (ok <==> !old(shutdown) && Quiet(world, old(asked), asked))
      ensures old(shutdown) ==> shutdown
      ensures ok ==> !shutdown && conn == old(conn)[snd := FreshConnection(k, c, interfaces)] &&
                     node == old(node)[src := SourceInfo(c)][flw := FlowInfo(src, c)]
                                      [snd := SenderInfo(flw, c, NamesFor(c, interfaces))]
      ensures !ok ==> shutdown && node == old(node) && conn == old(conn)
    {
      hide FreshConnection, NamesFor;
      ok := InsertNode(src, SourceInfo(c));
      if !ok {
        return false;
      }
      ok := InsertNode(flw, FlowInfo(src, c));
      if !ok {
        node := node - {src};
        return false;
      }
      ok := InsertNode(snd, SenderInfo(flw, c, NamesFor(c, interfaces)));
      if !ok {
        node := node - {flw};
        node := node - {src};
        return false;
      }
      ok := InsertConn(snd, FreshConnection(k, c, interfaces));
      if !ok {
        node := node - {snd};
        node := node - {flw};
        node := node - {src};
        return false;
      }
    }

    /** The two inserts of a new receiver. */
    method InsertReceiver(rcv: ResourceId, c: Config, k: Kind) returns (ok: bool)
      requires !shutdown ==> rcv !in node && rcv !in conn
      modifies this`node, this`conn, this`shutdown, this`asked
      ensures asked >= old(asked) && (ok <==> !old(shutdown) && Quiet(world, old(asked), asked))
      ensures old(shutdown) ==> shutdown
      ensures ok ==> !shutdown && conn == old(conn)[rcv := FreshConnection(k, c, interfaces)] &&
                     node == old(node)[rcv := ReceiverInfo(c, NamesFor(c, interfaces))]
      ensures !ok ==> shutdown && node == old(node) && conn == old(conn)
    {
      ok := InsertNode(rcv, ReceiverInfo(c, NamesFor(c, interfaces)));
      if !ok {
        return false;
      }
      ok := InsertConn(rcv, FreshConnection(k, c, interfaces));
      if !ok {
        node := node - {rcv};
        return false;
      }
    }

    /** The erase_resource_if_present calls that open most adds; they ignore `shutdown`. */
    method Sweep(k: Kind, id: string)
      modifies this`node, this`conn
      ensures SweptAtMost(old(node), node, old(conn), conn, Owned(seed, k, id))
    {
      if !k.AncillarySender? {
        conn := conn - {ConnId(seed, k, id)};
        node := node - Owned(seed, k, id);
      }
    }

    /** Sweep, then publish a stream that is not there yet, or leave things as they were. */
    method PublishNew(k: Kind, id: string, c: Config) returns (ok: bool)
      requires !shutdown ==> forall x :: Owns(seed, k, id, x) ==> x !in node && x !in conn
      modifies this`node, this`conn, this`shutdown, this`asked
      ensures asked >= old(asked) && (ok <==> !old(shutdown) && Quiet(world, old(asked), asked))
      ensures old(shutdown) ==> shutdown
      ensures ok ==> !shutdown && node == old(node) + Built(seed, k, id, c, interfaces) &&
                     conn == old(conn)[ConnId(seed, k, id) := FreshConnection(k, c, interfaces)]
      ensures !ok ==> shutdown && SweptAtMost(old(node), node, old(conn), conn, Owned(seed, k, id))
      ensures !ok && !old(shutdown) ==> node == old(node) && conn == old(conn)
    {
      Sweep(k, id);
      assert !shutdown ==> node == old(node) && conn == old(conn) by {
        if !shutdown {
          NothingSwept(old(node), node, old(conn), conn, Owned(seed, k, id));
        }
      }
      var x := ConnId(seed, k, id);
      assert Owns(seed, k, id, x);
      if IsSender(k) {
        var src, flw := SourceId(seed, k, id), FlowId(seed, k, id);
        assert Owns(seed, k, id, src) && Owns(seed, k, id, flw);
        ok := InsertSender(src, flw, x, c, k);
      } else {
        ok := InsertReceiver(x, c, k);
      }
      assert ok ==> node == old(node) + Built(seed, k, id, c, interfaces);
    }

    /** Appends the ids of a stream just published to the lists and updates the device. */
    method ListNew(k: Kind, id: string)
      modifies this`senderIds, this`sourceIds, this`flowIds, this`receiverIds, this`node
      ensures senderIds == old(senderIds) + if IsSender(k) then [ConnId(seed, k, id)] else []
      ensures sourceIds == old(sourceIds) + if IsSender(k) then [SourceId(seed, k, id)] else []
      ensures flowIds == old(flowIds) + if IsSender(k) then [FlowId(seed, k, id)] else []
      ensures receiverIds == old(receiverIds) + if IsSender(k) then [] else [ConnId(seed, k, id)]
      ensures node == Announce(seed, old(node), k, if IsSender(k) then senderIds else receiverIds)
    {
      if IsSender(k) {
        senderIds := senderIds + [ConnId(seed, k, id)];
        sourceIds := sourceIds + [SourceId(seed, k, id)];
        flowIds := flowIds + [FlowId(seed, k, id)];
      } else {
        receiverIds := receiverIds + [ConnId(seed, k, id)];
      }
      AnnounceIds(k);
    }

    /** Caches and lists a stream just published; `a` is the state before it was. */
    method FileNew(k: Kind, item: Cached, ghost a: State)
      requires a == Abs().(pub := a.pub)
      requires Pub() == a.pub.(node := a.pub.node + Built(seed, k, item.id, item.config, interfaces),
                               conn := a.pub.conn[ConnId(seed, k, item.id) := FreshConnection(k, item.config, interfaces)])
      modifies this`streams, this`senderIds, this`sourceIds, this`flowIds, this`receiverIds, this`node
      ensures Abs() == Added(a, k, item)
    {
      hide Announce, Built, AddedTo, FreshConnection;
      streams := With(streams, k, streams.Of(k) +
                                  [if IsSender(k) then item.(senderId := Some(ConnId(seed, k, item.id))) else item]);
      ListNew(k, item.id);
      ListedIsAdded(a, Abs(), k, item);
    }

    /** Building the resources may throw before anything is touched. */
    method BuildAndPublish(k: Kind, id: string, c: Config) returns (ok: bool)
      requires !shutdown ==> forall x :: Owns(seed, k, id, x) ==> x !in node && x !in conn
      modifies this`node, this`conn, this`shutdown, this`asked
      ensures asked >= old(asked) && (ok <==> !old(shutdown) && Quiet(world, old(asked), asked))
      ensures old(shutdown) ==> shutdown
      ensures ok ==> !shutdown && node == old(node) + Built(seed, k, id, c, interfaces) &&
                     conn == old(conn)[ConnId(seed, k, id) := FreshConnection(k, c, interfaces)]
      ensures SweptAtMost(old(node), node, old(conn), conn, Owned(seed, k, id)) || ok
      ensures !ok && !old(shutdown) ==> node == old(node) && conn == old(conn)
    {
      hide Built, FreshConnection;
      var fails := Ask();
      ok := false;
      if !fails {
        ok := PublishNew(k, id, c);
      }
    }

    method AddNew(k: Kind, item: Cached) returns (r: Outcome)
      requires Valid() && item.id !in Abs().Show(k)
      modifies this
      ensures Valid() && Upserted(old(Abs()), Abs(), k, item, r)
      ensures asked >= old(asked) && (r.Done? <==> !old(shutdown) && Quiet(world, old(asked), asked))
      ensures r.Done? ==> !shutdown
    {
      hide Consistent, Upserted, View, Built, FreshConnection, SweptAtMost;
      ghost var a := Abs();
      OwnNothingYet(a, k, item.id);
      var ok := BuildAndPublish(k, item.id, item.config);
      if ok {
        FileNew(k, item, a);
        r := Done;
        SucceededAdd(a, Abs(), k, item);
      } else {
        r := Threw;
        FailedAdd(a, Abs(), k, item);
      }
    }

    // ----- remove -----

    /** The removals of a sender's resources, in the source's order. */
    method WithdrawSender(src: ResourceId, flw: ResourceId, snd: ResourceId)
      modifies this`node, this`conn, this`shutdown, this`asked
      ensures asked >= old(asked) && (shutdown <==> old(shutdown) || !Quiet(world, old(asked), asked))
      ensures SweptAtMost(old(node), node, old(conn), conn, {src, flw, snd})
      ensures !shutdown ==> node == old(node) - {src, flw, snd} && conn == old(conn) - {snd}
    {
      RemoveNode(snd);
      RemoveConn(snd);
      RemoveNode(src);
      RemoveNode(flw);
    }

    method WithdrawReceiver(rcv: ResourceId)
      modifies this`node, this`conn, this`shutdown, this`asked
      ensures asked >= old(asked) && (shutdown <==> old(shutdown) || !Quiet(world, old(asked), asked))
      ensures node == old(node) || node == old(node) - {rcv}
      ensures conn == old(conn) || conn == old(conn) - {rcv}
      ensures !shutdown ==> node == old(node) - {rcv} && conn == old(conn) - {rcv}
    {
      RemoveConn(rcv);
      RemoveNode(rcv);
    }

    /** Takes a stream's ids off the lists and updates the device. */
    method Unlist(k: Kind, id: string)
      modifies this`senderIds, this`sourceIds, this`flowIds, this`receiverIds, this`node
      ensures senderIds == if IsSender(k) then EraseFirst(old(senderIds), ConnId(seed, k, id)) else old(senderIds)
      ensures sourceIds == if IsSender(k) then EraseFirst(old(sourceIds), SourceId(seed, k, id)) else old(sourceIds)
      ensures flowIds == if IsSender(k) then EraseFirst(old(flowIds), FlowId(seed, k, id)) else old(flowIds)
      ensures receiverIds == if IsSender(k) then old(receiverIds) else EraseFirst(old(receiverIds), ConnId(seed, k, id))
      ensures node == Announce(seed, old(node), k, if IsSender(k) then senderIds else receiverIds)
    {
      if IsSender(k) {
        senderIds := EraseFirst(senderIds, ConnId(seed, k, id));
        sourceIds := EraseFirst(sourceIds, SourceId(seed, k, id));
        flowIds := EraseFirst(flowIds, FlowId(seed, k, id));
      } else {
        receiverIds := EraseFirst(receiverIds, ConnId(seed, k, id));
      }
      AnnounceIds(k);
    }

    /** Everything a remove does to the published side; `mid` is node_resources but for the device update. */
    method Withdraw(k: Kind, id: string) returns (ghost mid: map<ResourceId, NodeResource>)
      modifies this`node, this`conn, this`shutdown, this`asked
      modifies this`senderIds, this`sourceIds, this`flowIds, this`receiverIds
      ensures asked >= old(asked) && (shutdown <==> old(shutdown) || !Quiet(world, old(asked), asked))
      ensures SweptAtMost(old(node), mid, old(conn), conn, Owned(seed, k, id))
      ensures !shutdown ==> mid == old(node) - Owned(seed, k, id) && conn == old(conn) - {ConnId(seed, k, id)}
      ensures Pub() == UnlistedFrom(seed, old(Pub()), k, id, mid, conn)
    {
      var x := ConnId(seed, k, id);
      if IsSender(k) {
        WithdrawSender(SourceId(seed, k, id), FlowId(seed, k, id), x);
        mid := node;
        Unlist(k, id);
      } else {
        mid := node;
        Unlist(k, id);
        ghost var announced := node;
        WithdrawReceiver(x);
        if node != announced {
          AnnounceCommutes(seed, mid, k, receiverIds, x);
          mid := mid - {x};
        }
        ReceiverSwept(old(node), mid, old(conn), conn, seed, k, id);
        assert !shutdown ==> mid == old(node) - {x} by {
          if !shutdown && node == announced {
            AnnounceCommutes(seed, mid, k, receiverIds, x);
          }
        }
      }
    }

    /** remove_*_sender_by_sender_id and remove_*_receiver_by_id. */
    method Uncache(k: Kind, id: string)
      requires CacheOk(seed, k, streams.Of(k))
      modifies this`streams
      ensures streams == With(old(streams), k, Without(old(streams).Of(k), id))
    {
      if IsSender(k) {
        SenderIdNamesOne(seed, k, streams.Of(k), id);
        streams := With(streams, k, WithoutSenderId(streams.Of(k), ConnId(seed, k, id)));
      } else {
        streams := With(streams, k, Without(streams.Of(k), id));
      }
    }

    method RemoveCached(k: Kind, id: string, ghost a: State)
      requires a == Abs() && CacheOk(seed, k, streams.Of(k))
      modifies this
      ensures exists mid :: CutDown(a, Abs(), k, id, mid)
      ensures asked >= old(asked) && (shutdown <==> old(shutdown) || !Quiet(world, old(asked), asked))
    {
      ghost var mid := Withdraw(k, id);
      Uncache(k, id);
      assert CutDown(a, Abs(), k, id, mid);
    }

    /** remove_*: an id that is not cached is ignored. */
    method Remove(k: Kind, id: string)
      requires Valid()
      modifies this
      ensures Valid() && Withdrawn(old(Abs()), Abs(), k, id)
      ensures asked >= old(asked) && (shutdown <==> old(shutdown) || !Quiet(world, old(asked), asked))
    {
      ghost var a := Abs();
      if id in Ids(streams.Of(k)) {
        assert CacheOk(seed, k, a.streams.Of(k));
        RemoveCached(k, id, a);
        ghost var mid :| CutDown(a, Abs(), k, id, mid);
        FinishRemove(a, Abs(), k, id, mid);
      } else {
        NotThere(a, k, id);
      }
    }

    // ----- update -----

    /** replace_node_resource for each of a stream's resources; reports whether all were there. */
    method ReplaceNodeResources(k: Kind, id: string, c: Config) returns (all: bool)
      modifies this`node
      ensures all <==> Owned(seed, k, id) <= old(node).Keys
      ensures all ==> node == old(node) + Built(seed, k, id, c, interfaces)
      ensures node.Keys == old(node).Keys && node - Owned(seed, k, id) == old(node) - Owned(seed, k, id)
    {
      var built := Built(seed, k, id, c, interfaces);
      node := map x | x in node :: if x in built then built[x] else node[x];
      all := Owned(seed, k, id) <= node.Keys;
      assert all ==> node == old(node) + built;
    }

    /** The connection half of replace_*_resources; only a sender's transport file can fail. */
    method ReplaceConnection(k: Kind, x: ResourceId, c: Config) returns (r: Outcome, ghost tf: string)
      requires x in conn
      modifies this`conn, this`asked
      ensures conn == old(conn)[x := Replacement(k, c, interfaces, old(conn)[x]).(transportFile := tf)]
      ensures r.Threw? ==> tf == "" && IsSender(k)
      ensures asked >= old(asked) && (r.Done? <==> Quiet(world, old(asked), asked))
      ensures r.Done? && IsSender(k) ==> FileMade(world, Abs(), x, old(asked), asked)
    {
      tf := "";
      r := Done;
      conn := conn[x := Replacement(k, c, interfaces, conn[x])];
      if IsSender(k) {
        ghost var before := asked;
        var made := MakeFile(x);
        if made.None? {
          return Threw, "";
        }
        tf := made.value;
        conn := conn[x := conn[x].(transportFile := made.value)];
        assert conn[x].transportFile == world.file(before, node, x, conn[x].active, ptpDomain);
      }
    }

    /** set_transportfile, up to storing what it made. */
    method MakeFile(x: ResourceId) returns (made: Option<string>)
      requires x in conn
      modifies this`asked
      ensures asked == old(asked) + 1
      ensures made == if world.trouble(old(asked)) then None
                      else Some(world.file(old(asked), node, x, conn[x].active, ptpDomain))
    {
      var file := world.file(asked, node, x, conn[x].active, ptpDomain);
      var fails := Ask();
      made := if fails then None else Some(file);
    }

    /** replace_sender_resources and replace_receiver_resources. */
    method Rebuild(k: Kind, id: string, c: Config) returns (r: Outcome, ghost tf: string)
      modifies this`node, this`conn, this`asked
      ensures Replaced(old(Abs()), Abs(), k, id, c, if r.Done? then tf else "")
      ensures r.Threw? && AllThere(old(Abs()), k, id) ==> IsSender(k)
      ensures asked >= old(asked) && (r.Done? <==> AllThere(old(Abs()), k, id) && Quiet(world, old(asked), asked))
      ensures r.Done? ==> ConnId(seed, k, id) in conn
      ensures r.Done? && IsSender(k) ==> FileMade(world, Abs(), ConnId(seed, k, id), old(asked), asked)
    {
      hide Built, Replacement, Replaced, RebuiltIn, FileMade;
      ghost var a := Abs();
      var all := ReplaceNodeResources(k, id, c);
      if all && ConnId(seed, k, id) in conn {
        r, tf := ReplaceConnection(k, ConnId(seed, k, id), c);
      } else {
        r, tf := Threw, "";
      }
      ReplacedBySteps(a, Abs(), k, id, c, all, tf);
    }

    /** The body of update_* for a stream that is cached. */
    method UpdateCached(k: Kind, item: Cached) returns (r: Outcome)
      requires Valid() && item.id in Abs().Show(k)
      modifies this`node, this`conn, this`streams, this`asked
      ensures Valid() && Upserted(old(Abs()), Abs(), k, item, r)
      ensures asked >= old(asked) && (r.Done? ==> Quiet(world, old(asked), asked))
      ensures !shutdown && Quiet(world, old(asked), asked) ==> r.Done?
      ensures r.Done? && IsSender(k) ==>
                ConnId(seed, k, item.id) in conn && FileMade(world, Abs(), ConnId(seed, k, item.id), old(asked), asked)
    {
      hide Consistent, Upserted, View;
      var fails := Ask();
      assert Abs() == old(Abs());
      if !fails {
        r := ReplaceAndCache(k, item);
      } else {
        r := Threw;
        LeftAlone(Abs(), k, item);
      }
    }

    method ReplaceAndCache(k: Kind, item: Cached) returns (r: Outcome)
      requires Valid() && item.id in Abs().Show(k)
      modifies this`node, this`conn, this`streams, this`asked
      ensures Valid() && Upserted(old(Abs()), Abs(), k, item, r)
      ensures asked >= old(asked) && (r.Done? ==> Quiet(world, old(asked), asked))
      ensures !shutdown && Quiet(world, old(asked), asked) ==> r.Done?
      ensures r.Done? && IsSender(k) ==>
                ConnId(seed, k, item.id) in conn && FileMade(world, Abs(), ConnId(seed, k, item.id), old(asked), asked)
    {
      hide Consistent, Upserted, Replaced;
      ghost var a := Abs();
      AllThereWhenUp(a, k, item.id);
      ghost var tf;
      r, tf := Rebuild(k, item.id, item.config);
      ghost var m := Abs();
      RebuildStep(a, m, k, item, r, tf);
      if r.Done? {
        Recache(k, item);
        CacheStep(a, m, Abs(), k, item, tf);
      }
    }

    /** replace_cached_by_id, with the sender id filled in. */
    method Recache(k: Kind, item: Cached)
      modifies this`streams
      ensures Abs() == Recached(old(Abs()), k, item)
    {
      streams := With(streams, k, ReplaceById(streams.Of(k), Stamp(seed, k, item)));
    }

    // ----- the public operations -----

    /** add_*: falls back to update when the stream is already cached. */
    method Add(k: Kind, item: Cached) returns (r: Outcome)
      requires Valid()
      modifies this
      ensures Valid() && Upserted(old(Abs()), Abs(), k, item, r)
      ensures asked >= old(asked) && (r.Done? ==> Quiet(world, old(asked), asked))
      ensures !old(shutdown) && Quiet(world, old(asked), asked) ==> r.Done? && !shutdown
      ensures r.Done? && IsSender(k) && item.id in old(Abs()).Show(k) ==>
                ConnId(seed, k, item.id) in conn && FileMade(world, Abs(), ConnId(seed, k, item.id), old(asked), asked)
      decreases item.id in Ids(streams.Of(k))
    {
      if item.id in Ids(streams.Of(k)) {
        r := Update(k, item);
      } else {
        r := AddNew(k, item);
      }
    }

    /** update_*: falls back to add when the stream is not cached. */
    method Update(k: Kind, item: Cached) returns (r: Outcome)
      requires Valid()
      modifies this
      ensures Valid() && Upserted(old(Abs()), Abs(), k, item, r)
      ensures asked >= old(asked) && (r.Done? ==> Quiet(world, old(asked), asked))
      ensures !old(shutdown) && Quiet(world, old(asked), asked) ==> r.Done? && !shutdown
      ensures r.Done? && IsSender(k) && item.id in old(Abs()).Show(k) ==>
                ConnId(seed, k, item.id) in conn && FileMade(world, Abs(), ConnId(seed, k, item.id), old(asked), asked)
      decreases item.id !in Ids(streams.Of(k))
    {
      if item.id !in Ids(streams.Of(k)) {
        r := Add(k, item);
      } else {
        r := UpdateCached(k, item);
      }
    }

    // ----- refreshing every stream -----

    method RefreshFile(x: ResourceId) returns (r: Outcome)
      requires x in conn
      modifies this`conn, this`asked
      ensures asked == old(asked) + 1 && (r.Done? <==> Quiet(world, old(asked), asked))
      ensures r.Threw? ==> conn == old(conn)
      ensures r.Done? ==> x in conn && conn == old(conn)[x := old(conn)[x].(transportFile := conn[x].transportFile)] &&
                          FileMade(world, Abs(), x, old(asked), asked)
    {
      var made := MakeFile(x);
      if made.None? {
        return Threw;
      }
      conn := conn[x := conn[x].(transportFile := made.value)];
      r := Done;
      assert conn[x].transportFile == world.file(old(asked), node, x, conn[x].active, ptpDomain);
    }

    /** set_transportfile for each listed sender; it may throw part way through. */
    method RefreshTransportFiles() returns (r: Outcome)
      modifies this`conn, this`asked
      ensures FilesRefreshed(old(Abs()), Abs())
      ensures asked >= old(asked) && (r.Done? <==> Quiet(world, old(asked), asked))
      ensures r.Done? ==> AllFilesMade(world, Abs(), old(asked), asked)
    {
      hide FileMade, FilesRefreshed;
      NothingRefreshed(Abs());
      var i := 0;
      while i < |senderIds|
        invariant 0 <= i <= |senderIds| && FilesRefreshed(old(Abs()), Abs())
        invariant asked >= old(asked) && Quiet(world, old(asked), asked)
        invariant forall j :: 0 <= j < i && senderIds[j] in node && senderIds[j] in conn ==>
                    FileMade(world, Abs(), senderIds[j], old(asked), asked)
      {
        var x := senderIds[i];
        if x in node && x in conn {
          ghost var before, m := asked, Abs();
          r := RefreshFile(x);
          if r.Threw? {
            assert Abs() == m;
            return;
          }
          FileStored(old(Abs()), m, Abs(), x, conn[x].transportFile);
          FileMadeSince(world, Abs(), x, old(asked), before, asked);
          forall j | 0 <= j < i && senderIds[j] in node && senderIds[j] in conn
            ensures FileMade(world, Abs(), senderIds[j], old(asked), asked)
          {
            FileStays(world, m, Abs(), senderIds[j], x, old(asked), before, asked);
          }
        }
        i := i + 1;
      }
      r := Done;
    }

    method RefitOne(k: Kind, s: Cached, ghost a: State, ghost done: Live) returns (r: Outcome)
      requires Refitted(a, Abs(), done) && s.id in a.Show(k) && a.Show(k)[s.id] == s.config
      modifies this`node, this`conn, this`asked
      ensures Refitted(a, Abs(), if r.Done? then done + {(k, s.id)} else done)
      ensures asked >= old(asked) && (r.Done? ==> Quiet(world, old(asked), asked))
      ensures !shutdown && Quiet(world, old(asked), asked) ==> r.Done?
    {
      hide Refitted, Replaced, View, AllThere;
      var fails := Ask();
      assert Abs() == old(Abs());
      if fails {
        return Threw;
      }
      ghost var m := Abs();
      RefittedAllThere(a, m, done, k, s.id);
      ghost var tf;
      r, tf := Rebuild(k, s.id, s.config);
      RefitStep(a, m, Abs(), done, k, s.id, if r.Done? then tf else "");
      if r.Threw? {
        RefittedLess(a, Abs(), done + {(k, s.id)}, done);
      }
    }

    /** Rebuilds the cached streams of one kind from their own configurations. */
    method RefitKind(k: Kind, ghost a: State, ghost done: Live) returns (r: Outcome)
      requires CachesOk(a.seed, a.streams) && a.streams == streams && Refitted(a, Abs(), done)
      modifies this`node, this`conn, this`asked
      ensures Refitted(a, Abs(), if r.Done? then done + LiveOfKind(k, streams) else {})
      ensures asked >= old(asked) && (r.Done? ==> Quiet(world, old(asked), asked))
      ensures !shutdown && Quiet(world, old(asked), asked) ==> r.Done?
    {
      hide Refitted, Stamped, UniqueIds, View;
      var xs := streams.Of(k);
      ghost var here := done;
      var i := 0;
      while i < |xs|
        invariant 0 <= i <= |xs| && done <= here && Refitted(a, Abs(), here)
        invariant asked >= old(asked) && Quiet(world, old(asked), asked)
        invariant forall j :: 0 <= j < i ==> (k, xs[j].id) in here
      {
        CachedConfig(a, k, xs, i);
        r := RefitOne(k, xs[i], a, here);
        if r.Threw? {
          RefittedLess(a, Abs(), here, {});
          return;
        }
        here := here + {(k, xs[i].id)};
        i := i + 1;
      }
      r := Done;
      RefittedLess(a, Abs(), here, done + LiveOfKind(k, streams));
    }

    /** Rebuilds every cached stream from its own configuration. */
    method RefitAll(ghost a: State) returns (r: Outcome)
      requires CachesOk(a.seed, a.streams) && a.streams == streams && Refitted(a, Abs(), {})
      modifies this`node, this`conn, this`asked
      ensures Refitted(a, Abs(), if r.Done? then LiveOf(streams) else {})
      ensures asked >= old(asked) && (r.Done? ==> Quiet(world, old(asked), asked))
      ensures !shutdown && Quiet(world, old(asked), asked) ==> r.Done?
    {
      hide Refitted, CachesOk;
      ghost var done: Live := {};
      var i := 0;
      while i < |NODE_ORDER|
        invariant 0 <= i <= 6 && Refitted(a, Abs(), done)
        invariant asked >= old(asked) && Quiet(world, old(asked), asked)
        invariant forall j :: 0 <= j < i ==> LiveOfKind(NODE_ORDER[j], streams) <= done
      {
        r := RefitKind(NODE_ORDER[i], a, done);
        if r.Threw? {
          return;
        }
        done := done + LiveOfKind(NODE_ORDER[i], streams);
        i := i + 1;
      }
      r := Done;
      KindsCover(streams, done);
      RefittedLess(a, Abs(), done, LiveOf(streams));
    }

    /** set_runtime_interfaces: adopts the interfaces and rebuilds every cached stream on them. */
    method SetRuntimeInterfaces(ifs: seq<Interface>) returns (r: Outcome)
      requires Valid()
      modifies this`interfaces, this`node, this`conn, this`asked
      ensures Refitted(old(Abs()).(interfaces := ifs), Abs(), if r.Done? then LiveOf(streams) else {})
      ensures asked >= old(asked) && (r.Done? ==> Quiet(world, old(asked), asked))
      ensures !shutdown && Quiet(world, old(asked), asked) ==> r.Done?
      ensures r.Done? ==> AllFilesMade(world, Abs(), old(asked), asked)
    {
      hide Refitted, FilesRefreshed, AllFilesMade;
      interfaces := ifs;
      ghost var a := Abs();
      NewInterfacesValid(old(Abs()), ifs);
      r := RefitAll(a);
      if r.Threw? {
        return;
      }
      ghost var m, before := Abs(), asked;
      r := RefreshTransportFiles();
      if r.Done? {
        EarlierFiles(world, Abs(), old(asked), before, asked);
      }
      RefitFiles(a, m, Abs(), LiveOf(streams));
      RefittedLess(a, Abs(), LiveOf(streams), {});
    }

    /** set_ptp_clock: an id that does not normalise leaves the published clock alone. */
    method SetPtpClock(gmid: string, locked: bool, domain: int) returns (r: Outcome)
      requires Valid()
      modifies this`ptpDomain, this`node, this`conn, this`asked
      ensures Valid() && FilesRefreshed(Clocked(old(Abs()), gmid, locked, domain), Abs())
      ensures asked >= old(asked) && (r.Done? <==> Quiet(world, old(asked), asked))
      ensures r.Done? ==> AllFilesMade(world, Abs(), old(asked), asked)
    {
      ghost var a := Abs();
      var normalized := NormalizePtpGmid(gmid);
      ptpDomain := if 0 <= domain <= 127 then domain else DEFAULT_DOMAIN;
      var n := NodeId(seed);
      if IsValidGmid(normalized) && n in node && node[n].NodeInfo? {
        node := node[n := NodeInfo(normalized, locked)];
      }
      ClockedValid(a, gmid, locked, domain);
      ghost var m := Abs();
      assert m == Clocked(a, gmid, locked, domain);
      r := RefreshTransportFiles();
      FilesValid(m, Abs());
    }

    // ----- IS-05 activation -----

    /** find_*_by_sender_id and find_*_by_resource_id: the index of the first match, or -1. */
    method FindByResourceId(k: Kind, rid: ResourceId) returns (i: int)
      ensures -1 <= i < |streams.Of(k)|
      ensures i >= 0 ==> Matches(seed, k, streams.Of(k)[i], rid)
      ensures i < 0 ==> forall j :: 0 <= j < |streams.Of(k)| ==> !Matches(seed, k, streams.Of(k)[j], rid)
    {
      var xs := streams.Of(k);
      for n := 0 to |xs|
        invariant forall j :: 0 <= j < n ==> !Matches(seed, k, xs[j], rid)
      {
        if Matches(seed, k, xs[n], rid) {
          return n;
        }
      }
      return -1;
    }

    /** One kind's share of the activation handler. */
    method ActivateKind(k: Kind, rid: ResourceId, e: Endpoint, seen: Option<Media>) returns (fired: seq<Fired>)
      requires Valid() && Accepted(rid, e)
      modifies this`streams
      ensures KindActivated(old(Abs()), Abs(), k, rid, e, seen, fired)
    {
      ghost var a := Abs();
      var i := FindByResourceId(k, rid);
      if i < 0 {
        NoTarget(a, k, rid);
        return [];
      }
      var xs := streams.Of(k);
      var entry := xs[i].(config := ActivatedConfig(xs[i].config, e, SeenBy(k, seen)));
      streams := With(streams, k, xs[i := entry]);
      fired := [FiredFor(k, entry)];
      FoundTarget(a, k, rid, i, e, seen);
    }

    /** The handler's three searches, in its order. */
    method ActivateFirstOf(k0: Kind, k1: Kind, k2: Kind, rid: ResourceId, e: Endpoint, seen: Option<Media>)
      returns (fired: seq<Fired>)
      requires Valid() && Accepted(rid, e) && rid.key.rtype == ConnType(k0)
      requires k0 != k1 && k0 != k2 && k1 != k2 && ConnType(k0) == ConnType(k1) == ConnType(k2)
      requires forall k: Kind :: ConnType(k) == ConnType(k0) ==> k == k0 || k == k1 || k == k2
      modifies this`streams
      ensures Valid() && ActivationDone(old(Abs()), Abs(), rid, e, seen, Done, fired)
    {
      hide KindActivated, ActivationDone, Consistent, Accepted, TargetOf;
      ghost var a := Abs();
      var f0 := ActivateKind(k0, rid, e, seen);
      ghost var b0 := Abs();
      KindActivatedValid(a, b0, k0, rid, e, seen, f0);
      var f1 := ActivateKind(k1, rid, e, seen);
      ghost var b1 := Abs();
      KindActivatedValid(b0, b1, k1, rid, e, seen, f1);
      var f2 := ActivateKind(k2, rid, e, seen);
      KindActivatedValid(b1, Abs(), k2, rid, e, seen, f2);
      fired := f0 + f1 + f2;
      ThreeKinds(a, b0, b1, Abs(), k0, k1, k2, rid, e, seen, f0, f1, f2);
    }

    /** The activation handler. A sender whose ports cannot be used is ignored; a receiver's lets an
        exception out before anything is changed. Every callback is taken to be set. */
    method OnActivated(rid: ResourceId, e: Endpoint, seen: Option<Media>) returns (r: Outcome, fired: seq<Fired>)
      requires Valid()
      modifies this`streams
      ensures Valid() && ActivationDone(old(Abs()), Abs(), rid, e, seen, r, fired)
    {
      hide Consistent, EntryActivated;
      TargetType(Abs(), rid);
      r, fired := Done, [];
      if e.legs == [] {
        return;
      }
      if rid.key.rtype.ReceiverType? {
        if !PortsKnown(e) {
          return Threw, [];
        }
        fired := ActivateFirstOf(VideoReceiver, AudioReceiver, AncillaryReceiver, rid, e, seen);
      } else if rid.key.rtype.SenderType? {
        if PortsInRange(e) {
          fired := ActivateFirstOf(VideoSender, AudioSender, AncillarySender, rid, e, seen);
        }
      }
    }

    /** An IS-05 activation: the connection API makes the staged legs active, then the handler runs. */
    method Activate(rid: ResourceId, e: Endpoint, seen: Option<Media>) returns (r: Outcome, fired: seq<Fired>)
      requires Valid() && rid in conn && |e.legs| == |conn[rid].staged.legs|
      modifies this`streams, this`conn
      ensures Valid() && ActivationDone(MadeActive(old(Abs()), rid, e), Abs(), rid, e, seen, r, fired)
      ensures old(LegsAgree(Abs())) ==> LegsAgree(Abs())
    {
      ghost var a := Abs();
      conn := conn[rid := conn[rid].(active := e)];
      ghost var m := Abs();
      MadeActiveValid(a, rid, e);
      r, fired := OnActivated(rid, e, seen);
      if LegsAgree(a) {
        ActivationLegs(m, Abs(), rid, e, seen, r, fired);
      }
    }

    // ----- stop and restart -----

    /** The part of stop() that reaches the model; it may come at any moment. */
    method Shutdown()
      requires Valid()
      modifies this`shutdown
      ensures Valid() && Abs() == old(Abs()).(shutdown := true)
    {
      shutdown := true;
    }

    /** reset_model_state. */
    method ResetModelState()
      modifies this
      ensures Abs() == old(Abs()).(shutdown := false, pub := Published([], [], [], [], map[], map[])) && asked == old(asked)
    {
      shutdown := false;
      node, conn := map[], map[];
      senderIds, receiverIds, sourceIds, flowIds := [], [], [], [];
    }

    /** init_device: node and device are published under the seed now configured. Interfaces that are set stay;
        the host's are adopted only where there are none. Reading the settings and building may throw. */
    method InitDevice(newSeed: string, hostInterfaces: seq<Interface>) returns (r: Outcome)
      requires !shutdown && Pub() == Published([], [], [], [], map[], map[])
      modifies this`seed, this`interfaces, this`node, this`shutdown, this`asked
      ensures asked >= old(asked) && (r.Done? <==> Quiet(world, old(asked), asked))
      ensures r.Done? ==> !shutdown && seed == newSeed && Pub() == JustStarted(newSeed)
      ensures r.Threw? ==> node.Keys <= {NodeId(newSeed)}
      ensures old(interfaces) != [] ==> interfaces == old(interfaces)
      ensures old(interfaces) == [] && r.Done? ==> interfaces == hostInterfaces
    {
      seed := newSeed;
      var fails := Ask();
      if fails {
        return Threw;
      }
      if interfaces == [] {
        interfaces := hostInterfaces;
      }
      var ok := InsertNode(NodeId(seed), NodeInfo(UNKNOWN_CLOCK, false));
      if ok {
        fails := Ask();
        if fails {
          return Threw;
        }
        ok := InsertNode(DeviceId(seed), DeviceInfo([], []));
      }
      r := if ok then Done else Threw;
      assert ok ==> node == JustStarted(newSeed).node;
    }

    ghost predicate NothingRestarted(newSeed: string, cached: Lists<ResourceId>)
      reads this
    {
      streams == cached && conn == map[] && node.Keys <= {NodeId(newSeed)}
    }

    ghost predicate SomeReinserted(cached: Lists<ResourceId>)
      reads this
    {
      Valid() && exists j, i :: 0 <= j < 6 && 0 <= i < |cached.Of(NODE_ORDER[j])| && ReinsertedUpTo(seed, cached, streams, j, i)
    }

    method ReinsertKind(k: Kind, xs: seq<Cached>) returns (r: Outcome)
      requires Up(Abs()) && streams.Of(k) == [] && UniqueIds(xs)
      modifies this
      ensures r.Done? ==> Up(Abs()) && Abs() == old(Abs()).(streams := streams, pub := Pub())
      ensures r.Done? ==> forall k' :: streams.Of(k') == if k' == k then Restamped(seed, k, xs) else old(streams).Of(k')
      ensures Valid() && seed == old(seed)
      ensures asked >= old(asked) && (r.Done? <==> Quiet(world, old(asked), asked))
      ensures r.Threw? ==> exists i :: 0 <= i < |xs| && ReinsertedOf(seed, k, xs, old(streams), streams, i)
    {
      hide Consistent, LegsAgree, AllFresh, Upserted, View, UniqueIds;
      r := Done;
      var i := 0;
      assert Restamped(seed, k, xs[..0]) == [];
      while i < |xs|
        invariant asked >= old(asked) && Quiet(world, old(asked), asked)
        invariant 0 <= i <= |xs| && r.Done? && Up(Abs()) && Abs() == old(Abs()).(streams := streams, pub := Pub())
        invariant forall k' :: streams.Of(k') == if k' == k then Restamped(seed, k, xs[..i]) else old(streams).Of(k')
      {
        ghost var m := Abs();
        NotYetReinserted(m, k, xs, i);
        r := Add(k, xs[i]);
        if r.Threw? {
          CacheKept(m, Abs(), k, xs[i]);
          assert ReinsertedOf(seed, k, xs, old(streams), streams, i);
          return;
        }
        Reinserted(m, Abs(), k, xs, i);
        i := i + 1;
      }
      assert xs[..i] == xs;
    }

    /** reinsert_cached_resources: takes the cached streams out and adds them again one by one. If one of them
        throws, it and those after it are gone. */
    method ReinsertCached() returns (r: Outcome)
      requires !shutdown && Pub() == JustStarted(seed) && InDomain(ptpDomain)
      requires streams.Complete() && forall k :: UniqueIds(streams.Of(k))
      modifies this
      ensures asked >= old(asked) && (r.Done? <==> Quiet(world, old(asked), asked))
      ensures r.Done? ==> Up(Abs()) && interfaces == old(interfaces) && ptpDomain == old(ptpDomain)
      ensures r.Done? ==> forall k :: streams.Of(k) == Restamped(seed, k, old(streams).Of(k))
      ensures Valid() && seed == old(seed)
      ensures r.Threw? ==> SomeReinserted(old(streams))
    {
      var cached := streams;
      streams := Empty();
      StartedUp(Abs());
      var i := 0;
      while i < |NODE_ORDER|
        invariant 0 <= i <= 6 && Up(Abs()) && seed == old(seed) && interfaces == old(interfaces) && ptpDomain == old(ptpDomain)
        invariant asked >= old(asked) && Quiet(world, old(asked), asked)
        invariant forall j :: 0 <= j < 6 ==>
                    streams.Of(NODE_ORDER[j]) == if j < i then Restamped(seed, NODE_ORDER[j], cached.Of(NODE_ORDER[j])) else []
      {
        OrderDistinct(i);
        ghost var was := streams;
        r := ReinsertKind(NODE_ORDER[i], cached.Of(NODE_ORDER[i]));
        if r.Threw? {
          ghost var n :| 0 <= n < |cached.Of(NODE_ORDER[i])| &&
                         ReinsertedOf(seed, NODE_ORDER[i], cached.Of(NODE_ORDER[i]), was, streams, n);
          assert ReinsertedUpTo(seed, cached, streams, i, n);
          return;
        }
        i := i + 1;
      }
      r := Done;
      forall k ensures streams.Of(k) == Restamped(seed, k, old(streams).Of(k)) {
        OrderCovers(k);
      }
    }

    /** A stop followed by a start: whatever the shutdown left behind, everything is as if freshly added. If
        publishing node or device throws, the caches are left alone with nothing published for them; if adding
        a cached stream does, the node is in order with the streams before it. */
    method Restart(newSeed: string, hostInterfaces: seq<Interface>) returns (r: Outcome)
      requires Valid()
      modifies this
      ensures asked >= old(asked) && (r.Done? <==> Quiet(world, old(asked), asked))
      ensures r.Done? ==> Valid() && !shutdown && seed == newSeed && LegsAgree(Abs())
      ensures r.Done? ==> interfaces == (if old(interfaces) != [] then old(interfaces) else hostInterfaces)
      ensures r.Done? ==> ptpDomain == old(ptpDomain) && forall k, id :: id in old(Abs()).Show(k) ==> FreshAt(Abs(), k, id)
      ensures r.Done? ==> forall k :: streams.Of(k) == Restamped(newSeed, k, old(streams).Of(k))
      ensures r.Done? ==> forall k :: Abs().Show(k) == old(Abs()).Show(k)
      ensures r.Threw? ==> NothingRestarted(newSeed, old(streams)) || SomeReinserted(old(streams))
    {
      Shutdown();
      forall k ensures UniqueIds(streams.Of(k)) {
        assert CacheOk(seed, k, streams.Of(k));
      }
      ResetModelState();
      r := InitDevice(newSeed, hostInterfaces);
      if r.Done? {
        r := ReinsertCached();
        forall k ensures View(Restamped(newSeed, k, old(streams).Of(k))) == View(old(streams).Of(k)) {
          RestampedView(newSeed, k, old(streams).Of(k));
        }
      }
    }
  }
}
