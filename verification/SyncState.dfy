/** The daemon's shared state: the status the StateStore keeps (src/daemon/state_store.cpp) and the sync
    request of App (src/daemon/app.cpp). Each method is one critical section. */
module SyncState {
  import opened Wrappers
  import opened ReconcileEngine

  /** The fields of StateStore that decide anything; its texts and registry status are left out. */
  datatype Store = Store(
    lastSeen: int,
    lastApplied: int,
    streamsRegistered: bool,
    protection: bool,
    received: bool,
    pendingDrain: bool,
    last: Option<Snapshot>)

  /** `notBefore` is zero, the clock's epoch, unless a failed sync is waiting for its retry. */
  datatype Request = Request(pending: bool, force: bool, revision: int, lastSignal: int, notBefore: int)

  function ApplySucceeded(s: Store, revision: int, snapshot: Snapshot): Store {
    Store(revision, revision, snapshot.lists.HasAnyStreams(), false, true, s.pendingDrain, Some(snapshot))
  }

  function DrainMarked(s: Store): Store {
    s.(streamsRegistered := false, protection := true, pendingDrain := true)
  }

  /** What schedule_sync reads before it takes the request's lock. */
  function NeedsResync(s: Store): bool { s.protection || !s.streamsRegistered }

  /** schedule_sync drops a revision already applied, unless forced or something is known to be missing. */
  predicate Accepts(q: Request, revision: int, lastApplied: int, needs: bool) {
    q.force || revision > lastApplied || needs
  }

  function Max(a: int, b: int): int { if a < b then b else a }

  function Scheduled(q: Request, revision: int, lastApplied: int, needs: bool, now: int): (r: Request)
    ensures r.force == q.force && (q.pending ==> r.pending)
    ensures r.pending || !q.force
  {
    if Accepts(q, revision, lastApplied, needs)
    then Request(true, q.force, Max(q.revision, revision), now, 0)
    else q
  }

  /** A newer revision always leaves a request for at least it; an old one, with nothing forced or known to be
      missing, leaves the request as it was; and whatever is accepted cancels a retry's delay. */
  lemma ScheduledExactly(q: Request, revision: int, lastApplied: int, needs: bool, now: int)
    ensures var r := Scheduled(q, revision, lastApplied, needs, now);
            && (revision > lastApplied || q.force || needs ==>
                  r.pending && r.revision >= revision && r.revision >= q.revision && (r.revision == revision || r.revision == q.revision) &&
                  r.lastSignal == now && r.notBefore == 0)
            && (revision <= lastApplied && !q.force && !needs ==> r == q)
            && r.force == q.force
  {}

  function Taken(q: Request): (r: Request)
    ensures !r.pending && !r.force
  {
    Request(false, false, 0, q.lastSignal, 0)
  }

  function Repended(q: Request, revision: int, now: int, interval: int): (r: Request)
    ensures r.pending && r.force == q.force
  {
    Request(true, q.force, Max(q.revision, revision), now, now + interval)
  }

  class StateStore {
    var lastSeen: int
    var lastApplied: int
    var streamsRegistered: bool
    var protection: bool
    var received: bool
    var pendingDrain: bool
    var last: Option<Snapshot>

    ghost function Abs(): Store
      reads this
    {
      Store(lastSeen, lastApplied, streamsRegistered, protection, received, pendingDrain, last)
    }

    constructor ()
      ensures Abs() == Store(0, 0, false, false, false, false, None)
    {
      lastSeen, lastApplied, last := 0, 0, None;
      streamsRegistered, protection, received, pendingDrain := false, false, false, false;
    }

    method SetLastSeenRevision(revision: int)
      modifies this
      ensures Abs() == old(Abs()).(lastSeen := revision)
    {
      lastSeen := revision;
    }

    method MarkSnapshotSignalReceived()
      modifies this
      ensures Abs() == old(Abs()).(received := true)
    {
      received := true;
    }

    method MarkApplySuccess(revision: int, snapshot: Snapshot)
      modifies this
      ensures Abs() == ApplySucceeded(old(Abs()), revision, snapshot)
      ensures lastApplied == lastSeen == revision && last == Some(snapshot) && received && !protection
      ensures streamsRegistered == snapshot.lists.HasAnyStreams() && pendingDrain == old(pendingDrain)
    {
      lastApplied := revision;
      lastSeen := revision;
      streamsRegistered := snapshot.lists.HasAnyStreams();
      protection := false;
      received := true;
      last := Some(snapshot);
    }

    method MarkDrainedDueToWsDisconnect()
      modifies this
      ensures Abs() == DrainMarked(old(Abs()))
      ensures !streamsRegistered && protection && pendingDrain
      ensures lastApplied == old(lastApplied) && lastSeen == old(lastSeen) && received == old(received) && last == old(last)
    {
      streamsRegistered := false;
      protection := true;
      pendingDrain := true;
    }

    method ClearLastSnapshot()
      modifies this
      ensures Abs() == old(Abs()).(last := None)
    {
      last := None;
    }

    method ConsumePendingDrainNotification() returns (pending: bool)
      modifies this
      ensures pending == old(pendingDrain) && Abs() == old(Abs()).(pendingDrain := false)
    {
      pending := pendingDrain;
      pendingDrain := false;
    }
  }

  class SyncRequest {
    var pending: bool
    var force: bool
    var revision: int
    var lastSignal: int
    var notBefore: int

    ghost function Abs(): Request
      reads this
    {
      Request(pending, force, revision, lastSignal, notBefore)
    }

    constructor ()
      ensures Abs() == Request(false, false, 0, 0, 0)
    {
      pending, force, revision, lastSignal, notBefore := false, false, 0, 0, 0;
    }

    /** The locked block of the on_snapshot_changed callback. */
    method SetForce()
      modifies this
      ensures Abs() == old(Abs()).(force := true)
    {
      force := true;
    }

    /** The locked block of schedule_sync, given the status read before it. */
    method Schedule(rev: int, lastApplied: int, needs: bool, now: int) returns (accepted: bool)
      modifies this
      ensures accepted == Accepts(old(Abs()), rev, lastApplied, needs)
      ensures Abs() == Scheduled(old(Abs()), rev, lastApplied, needs, now)
    {
      if !force && rev <= lastApplied && !needs {
        return false;
      }
      pending := true;
      if rev > revision {
        revision := rev;
      }
      lastSignal := now;
      notBefore := 0;
      return true;
    }

    /** The end of a round of sync_loop: the request is taken and cleared. */
    method Take() returns (taken: int)
      modifies this
      ensures taken == old(revision) && Abs() == Taken(old(Abs()))
    {
      taken := revision;
      pending := false;
      force := false;
      revision := 0;
      notBefore := 0;
    }

    /** The locked block of perform_sync's catch clause. */
    method Repend(rev: int, now: int, interval: int)
      modifies this
      ensures Abs() == Repended(old(Abs()), rev, now, interval)
    {
      pending := true;
      if rev > revision {
        revision := rev;
      }
      lastSignal := now;
      notBefore := lastSignal + interval;
    }
  }
}
