/** The handlers of src/daemon/app.cpp over the node, the store and the sync request, each run without
    interleaving; AppMachine.dfy treats their interleavings. */
module App {
  import opened Wrappers
  import opened Naming
  import opened Streams
  import opened Resources
  import opened Publication
  import opened RegistryModel
  import opened RegistrySteps
  import opened NodeRegistry
  import opened ReconcileModel
  import opened ReconcileEngine
  import opened SyncState

  class Daemon {
    const node: Node
    const store: StateStore
    const request: SyncRequest

    constructor (world: World)
      ensures fresh(node) && fresh(store) && fresh(request)
      ensures node.Valid() && Coherent()
      ensures store.Abs() == Store(0, 0, false, false, false, false, None) && request.Abs() == Request(false, false, 0, 0, 0)
    {
      node := new Node(world);
      store := new StateStore();
      request := new SyncRequest();
    }

    /** The registered ids are those of the last snapshot, and the status says whether there are any. */
    ghost predicate Coherent()
      reads this, node, store
    {
      (forall k :: node.Abs().Show(k).Keys == Ids(CurrentOf(store.last).lists.Of(k))) &&
      (store.streamsRegistered <==> exists k :: node.Abs().Show(k).Keys != {})
    }

    method ScheduleSync(revision: int, now: int) returns (accepted: bool)
      modifies request
      ensures accepted == Accepts(old(request.Abs()), revision, store.lastApplied, NeedsResync(store.Abs()))
      ensures request.Abs() == Scheduled(old(request.Abs()), revision, store.lastApplied, NeedsResync(store.Abs()), now)
    {
      accepted := request.Schedule(revision, store.lastApplied, store.protection || !store.streamsRegistered, now);
    }

    /** The on_snapshot_changed callback: undisturbed, it always gets its sync. */
    method OnSnapshotChanged(revision: int, now: int)
      modifies store, request
      ensures store.Abs() == old(store.Abs()).(received := true, lastSeen := revision)
      ensures request.pending && request.force && request.revision >= revision && request.revision >= old(request.revision)
      ensures request.lastSignal == now && request.notBefore == 0
    {
      store.MarkSnapshotSignalReceived();
      store.SetLastSeenRevision(revision);
      request.SetForce();
      var accepted := ScheduleSync(revision, now);
      assert accepted;
    }

    /** perform_sync after the stop check; `fetched` is what the snapshot client returned, if it did not throw. */
    method PerformSync(revision: int, fetched: Option<Snapshot>, now: int, interval: int) returns (r: Outcome)
      requires node.Valid()
      modifies node, store, request
      ensures node.Valid()
      ensures fetched.None? ==> r.Threw? && node.Abs() == old(node.Abs())
      ensures r.Threw? ==> store.Abs() == old(store.Abs()) &&
                           request.Abs() == Repended(old(request.Abs()), revision, now, interval)
      ensures r.Done? ==> store.Abs() == ApplySucceeded(old(store.Abs()), revision, fetched.value) &&
                          request.Abs() == old(request.Abs())
      ensures r.Done? ==> store.lastApplied == store.lastSeen == revision && store.last == fetched && store.received &&
                          !store.protection && store.streamsRegistered == fetched.value.lists.HasAnyStreams() &&
                          store.pendingDrain == old(store.pendingDrain)
      ensures fetched.Some? ==> exists log: seq<(Kind, string)> ::
                Applied(old(node.Abs()), node.Abs(), CurrentOf(old(store.last)), fetched.value, r, log)
      ensures fetched.Some? && !old(node.shutdown) && Quiet(node.world, old(node.asked), node.asked) ==> r.Done?
      ensures r.Done? && old(Coherent()) ==> Coherent()
    {
      var current := store.last;
      r := Threw;
      if fetched.Some? {
        var log;
        r, log := ApplySnapshot(current, fetched.value, node);
        assert Applied(old(node.Abs()), node.Abs(), CurrentOf(current), fetched.value, r, log);
      }
      if r.Done? {
        store.MarkApplySuccess(revision, fetched.value);
        if old(Coherent()) {
          CoherentAfterApply(old(node.Abs()), node.Abs(), CurrentOf(current), fetched.value);
        }
      } else {
        request.Repend(revision, now, interval);
      }
    }

    /** handle_ws_connected; `notify` says whether the peer is told of a drain. */
    method HandleWsConnected(now: int) returns (notify: bool)
      modifies store, request
      ensures notify == old(store.pendingDrain) && !store.pendingDrain
      ensures store.Abs() == old(store.Abs()).(pendingDrain := false)
      ensures request.Abs() == Scheduled(old(request.Abs()), Max(old(store.lastSeen), 1), old(store.lastApplied),
                                         old(store.protection || !store.streamsRegistered), now)
      ensures old(store.protection || !store.streamsRegistered) ==> request.pending
    {
      notify := store.ConsumePendingDrainNotification();
      var revision := if store.lastSeen > 0 then store.lastSeen else 1;
      var accepted := ScheduleSync(revision, now);
    }

    /** handle_ws_disconnected: the drain takes away whatever the last snapshot lists. Nothing is left exactly if
        nothing else was registered, as a failed apply may have. */
    method HandleWsDisconnected()
      requires node.Valid()
      modifies node, store
      ensures node.Valid() && Drained(old(node.Abs()), node.Abs(), CurrentOf(old(store.last)))
      ensures store.Abs() == DrainMarked(old(store.Abs())).(last := None)
      ensures !store.streamsRegistered && store.protection && store.pendingDrain && store.last == None
      ensures store.lastApplied == old(store.lastApplied) && store.lastSeen == old(store.lastSeen) &&
              store.received == old(store.received)
      ensures (forall k :: node.Abs().Show(k) == map[]) <==>
              forall k :: old(node.Abs()).Show(k).Keys <= Ids(CurrentOf(old(store.last)).lists.Of(k))
      ensures old(Coherent()) ==> Coherent() && forall k :: node.Abs().Show(k) == map[]
    {
      hide Consistent, View;
      ghost var a := node.Abs();
      DrainAll(store.last, node);
      store.MarkDrainedDueToWsDisconnect();
      store.ClearLastSnapshot();
      NothingLeft(a, node.Abs(), CurrentOf(old(store.last)));
      NoSnapshotNoIds();
    }

    /** restart_node_runtime: the store forgets the snapshot the node's streams came from. `started` is what
        start() returns; None for `init` means the worker never got to init(). An exception in init() is
        swallowed there, so start() may well return true, and the sync is asked for, with it having failed. */
    method RestartNodeRuntime(seed: string, hostInterfaces: seq<Interface>, now: int)
      returns (started: bool, init: Option<Outcome>)
      requires node.Valid()
      modifies node, store, request
      ensures store.Abs() == old(store.Abs()).(last := None)
      ensures started ==> init.Some? &&
                          request.Abs() == Scheduled(old(request.Abs()), Max(old(store.lastSeen), 1), old(store.lastApplied),
                                                     old(store.protection || !store.streamsRegistered), now)
      ensures !started ==> request.Abs() == old(request.Abs())
      ensures init == None ==> node.streams == old(node.streams)
      ensures init == Some(Done) ==> node.Valid() && forall k :: node.Abs().Show(k) == old(node.Abs()).Show(k)
      ensures init == Some(Done) ==>
                node.interfaces == (if old(node.interfaces) != [] then old(node.interfaces) else hostInterfaces) &&
                forall k, id :: id in old(node.Abs()).Show(k) ==> FreshAt(node.Abs(), k, id)
      ensures Quiet(node.world, old(node.asked), node.asked) ==> started && init == Some(Done)
      ensures init == Some(Done) && old(Coherent()) ==> (Coherent() <==> !store.streamsRegistered)
      ensures init == Some(Threw) ==>
                node.NothingRestarted(seed, old(node.streams)) || node.SomeReinserted(old(node.streams))
    {
      hide Consistent, LegsAgree, View, FreshAt, Quiet, Scheduled, Accepts, ReinsertedUpTo;
      store.ClearLastSnapshot();
      started, init := StopAndStart(seed, hostInterfaces);
      ghost var b := node.Abs();
      if started {
        var revision := if store.lastSeen > 0 then store.lastSeen else 1;
        var accepted := ScheduleSync(revision, now);
      }
      assert node.Abs() == b;
      NoSnapshotNoIds();
    }

    /** stop() and start() of the node; the worker may get lost before init(), and start() fail after it. */
    method StopAndStart(seed: string, hostInterfaces: seq<Interface>) returns (started: bool, init: Option<Outcome>)
      requires node.Valid()
      modifies node
      ensures started ==> init.Some?
      ensures init == None ==> node.streams == old(node.streams)
      ensures init == Some(Done) ==> node.Valid() && forall k :: node.Abs().Show(k) == old(node.Abs()).Show(k)
      ensures init == Some(Done) ==>
                node.interfaces == (if old(node.interfaces) != [] then old(node.interfaces) else hostInterfaces) &&
                forall k, id :: id in old(node.Abs()).Show(k) ==> FreshAt(node.Abs(), k, id)
      ensures init == Some(Threw) ==>
                node.NothingRestarted(seed, old(node.streams)) || node.SomeReinserted(old(node.streams))
      ensures Quiet(node.world, old(node.asked), node.asked) ==> started && init == Some(Done)
    {
      hide Consistent, LegsAgree, View, FreshAt;
      started, init := false, None;
      var lost := node.Ask();
      var fails := node.Ask();
      assert node.Abs() == old(node.Abs());
      if lost {
        node.Shutdown();
        if * {
          node.ResetModelState();
        }
      } else {
        var r := node.Restart(seed, hostInterfaces);
        started, init := !fails, Some(r);
      }
    }
  }

  lemma MinusIsEmpty(m: Shown, ids: set<string>)
    ensures m - ids == map[] <==> m.Keys <= ids
  {
    if m.Keys <= ids {
      assert forall id :: id !in m - ids;
    } else {
      var id :| id in m && id !in ids;
      assert id in m - ids;
    }
  }

  lemma NothingLeft(a: State, b: State, s: Snapshot)
    requires Drained(a, b, s)
    ensures (forall k :: b.Show(k) == map[]) <==> forall k :: a.Show(k).Keys <= Ids(s.lists.Of(k))
  {
    hide Consistent, View;
    forall k ensures b.Show(k) == map[] <==> a.Show(k).Keys <= Ids(s.lists.Of(k)) {
      var m, ids := a.Show(k), Ids(s.lists.Of(k));
      assert b.Show(k) == m - ids;
      MinusIsEmpty(m, ids);
    }
  }

  lemma NoSnapshotNoIds()
    ensures forall k :: Ids(CurrentOf(None).lists.Of(k)) == {}
  {}

  /** What the next apply makes of a node that kept its streams over a restart: it registers exactly the new
      snapshot if and only if that still has every stream kept; a stream it lacks is never removed. */
  lemma ApplyAfterRestartExactly(a: State, b: State, next: Snapshot, log: seq<(Kind, string)>)
    requires Applied(a, b, CurrentOf(None), next, Done, log)
    ensures (forall k :: b.Show(k) == View(next.lists.Of(k))) <==> forall k :: a.Show(k).Keys <= Ids(next.lists.Of(k))
    ensures forall k, id :: id in a.Show(k) && id !in Ids(next.lists.Of(k)) ==>
              id in b.Show(k) && b.Show(k)[id] == a.Show(k)[id]
  {
    hide Consistent, View, Undisturbed;
    forall k
      ensures b.Show(k) == View(next.lists.Of(k)) <==> a.Show(k).Keys <= Ids(next.lists.Of(k))
      ensures forall id :: id in a.Show(k) && id !in Ids(next.lists.Of(k)) ==> id in b.Show(k) && b.Show(k)[id] == a.Show(k)[id]
    {
      assert EMPTY_SNAPSHOT.lists.Of(k) == [];
      ForgottenSnapshotExactly(a.Show(k), next.lists.Of(k));
      KeptOver(a.Show(k), next.lists.Of(k));
    }
  }

  lemma KeptOver(m: Shown, next: seq<Cached>)
    ensures forall id :: id in m && id !in Ids(next) ==>
              id in Overlay(m, PlanFor([], next)) && Overlay(m, PlanFor([], next))[id] == m[id]
  {
    var empty: seq<Cached> := [];
    var out := Overlay(m, PlanFor(empty, next));
    assert View(empty).Keys == {} && View(next).Keys == Ids(next);
    forall id | id in m && id !in Ids(next) ensures id in out && out[id] == m[id] {
      assert Look(out, id) == Look(m, id);
    }
  }

  lemma CoherentAfterApply(a: State, b: State, current: Snapshot, next: Snapshot)
    requires forall k :: a.Show(k).Keys == Ids(current.lists.Of(k))
    requires forall k :: b.Show(k) == Overlay(a.Show(k), PlanOf(current, next, k))
    ensures forall k :: b.Show(k).Keys == Ids(next.lists.Of(k))
    ensures next.lists.HasAnyStreams() <==> exists k :: b.Show(k).Keys != {}
  {
    forall k ensures b.Show(k).Keys == Ids(next.lists.Of(k)) {
      SameIdsAfterOverlay(a.Show(k), current.lists.Of(k), next.lists.Of(k));
    }
    HasAnyStreamsMeansSomeId(next.lists);
  }

  lemma SameIdsAfterOverlay(m: Shown, current: seq<Cached>, next: seq<Cached>)
    requires m.Keys == Ids(current)
    ensures Overlay(m, PlanFor(current, next)).Keys == Ids(next)
  {
    var out := Overlay(m, PlanFor(current, next));
    assert View(current).Keys == Ids(current) && View(next).Keys == Ids(next);
    forall id ensures id in out <==> id in Ids(next) {
      assert id in out <==> Look(out, id).Some?;
    }
  }
}
