/** What the store's status tells in every run: each field is decided by the latest of the deeds that bear on it. */
module StoreHistory {
  import opened Wrappers
  import opened Streams
  import opened Publication
  import opened RegistryModel
  import opened ReconcileEngine
  import opened SyncState
  import opened AppMachine

  type Deeds = seq<Deed>

  /** Kinds of deed. */
  datatype Mark =
    | OfSync
    | OfSyncAt(revision: int)
    | OfSyncTo(snapshot: Snapshot)
    | OfSyncWithStreams
    | OfSeeing
    | OfSeeingAt(revision: int)
    | OfDrain
    | OfNotice
    | OfForgetting
    | OfAny
    | EitherOr(one: Mark, other: Mark)

  predicate Is(d: Deed, m: Mark) {
    match m
    case OfSync => d.Synced?
    case OfSyncAt(revision) => d.Synced? && d.revision == revision
    case OfSyncTo(snapshot) => d.Synced? && d.snapshot == snapshot
    case OfSyncWithStreams => d.Synced? && exists k: Kind :: d.snapshot.lists.Of(k) != []
    case OfSeeing => d.Synced? || d.SawRevision?
    case OfSeeingAt(revision) => (d.Synced? || d.SawRevision?) && d.revision == revision
    case OfDrain => d.Emptied?
    case OfNotice => d.Notified?
    case OfForgetting => d.Forgot?
    case OfAny => d.Noted? || d.Synced?
    case EitherOr(one, other) => Is(d, one) || Is(d, other)
  }

  /** One of `did` was done, and none of `undone` since. */
  ghost predicate Stands(h: Deeds, did: Mark, undone: Mark) {
    exists i :: 0 <= i < |h| && Is(h[i], did) && forall j :: i < j < |h| ==> !Is(h[j], undone)
  }

  ghost predicate Ever(h: Deeds, did: Mark) {
    exists i :: 0 <= i < |h| && Is(h[i], did)
  }

  lemma StandsOn(h: Deeds, d: Deed, did: Mark, undone: Mark)
    requires Is(d, did) || (Stands(h, did, undone) && !Is(d, undone))
    ensures Stands(h + [d], did, undone)
  {
    hide Is;
    var n := h + [d];
    if Is(d, did) {
      assert n[|h|] == d;
    } else {
      var i :| 0 <= i < |h| && Is(h[i], did) && forall j :: i < j < |h| ==> !Is(h[j], undone);
      assert n[i] == h[i];
      forall j | i < j < |n| ensures !Is(n[j], undone) {
        assert n[j] == if j < |h| then h[j] else d;
      }
    }
  }

  lemma StoodBefore(h: Deeds, d: Deed, did: Mark, undone: Mark)
    requires Stands(h + [d], did, undone) && !Is(d, did)
    ensures Stands(h, did, undone) && !Is(d, undone)
  {
    hide Is;
    var n := h + [d];
    var i :| 0 <= i < |n| && Is(n[i], did) && forall j :: i < j < |n| ==> !Is(n[j], undone);
    assert n[|h|] == d && i < |h| && n[i] == h[i];
    forall j | i < j < |h| ensures !Is(h[j], undone) {
      assert n[j] == h[j];
    }
  }

  lemma StandsAfter(h: Deeds, d: Deed, did: Mark, undone: Mark)
    ensures Stands(h + [d], did, undone) <==> Is(d, did) || (Stands(h, did, undone) && !Is(d, undone))
  {
    hide Is, Stands;
    if Is(d, did) || (Stands(h, did, undone) && !Is(d, undone)) {
      StandsOn(h, d, did, undone);
    }
    if Stands(h + [d], did, undone) && !Is(d, did) {
      StoodBefore(h, d, did, undone);
    }
  }

  lemma EverAfter(h: Deeds, d: Deed, did: Mark)
    ensures Ever(h + [d], did) <==> Is(d, did) || Ever(h, did)
  {
    hide Is;
    var n := h + [d];
    if Is(d, did) {
      assert n[|h|] == d;
    }
    if i :| 0 <= i < |h| && Is(h[i], did) {
      assert n[i] == h[i];
    }
    if i :| 0 <= i < |n| && Is(n[i], did) && i < |h| {
      assert h[i] == n[i];
    }
  }

  /** What each field of the status tells. */
  ghost predicate Tells(t: Store, h: Deeds) {
    && (t.protection <==> Stands(h, OfDrain, OfSync))
    && (t.pendingDrain <==> Stands(h, OfDrain, OfNotice))
    && (t.streamsRegistered <==> Stands(h, OfSyncWithStreams, EitherOr(OfSync, OfDrain)))
    && (t.received <==> Ever(h, OfAny))
    && (if Ever(h, OfSync) then Stands(h, OfSyncAt(t.lastApplied), OfSync) else t.lastApplied == 0)
    && (if Ever(h, OfSeeing) then Stands(h, OfSeeingAt(t.lastSeen), OfSeeing) else t.lastSeen == 0)
    && (t.last == None <==> !Stands(h, OfSync, OfForgetting))
    && (t.last.Some? ==> Stands(h, OfSyncTo(t.last.value), EitherOr(OfSync, OfForgetting)))
  }

  lemma TellsAfterSync(t: Store, h: Deeds, revision: int, snapshot: Snapshot)
    requires Tells(t, h)
    ensures Tells(ApplySucceeded(t, revision, snapshot), h + [Synced(revision, snapshot)])
  {
    hide Stands, Ever;
    AllAfter(h, Synced(revision, snapshot), ApplySucceeded(t, revision, snapshot));
    if k: Kind :| snapshot.lists.Of(k) != [] {
      EveryKind(k);
    }
  }

  lemma TellsAfterDrain(t: Store, h: Deeds)
    requires Tells(t, h)
    ensures Tells(DrainMarked(t), h + [Emptied])
  {
    hide Stands, Ever;
    AllAfter(h, Emptied, DrainMarked(t));
  }

  lemma TellsAfterSmall(t: Store, h: Deeds, revision: int)
    requires Tells(t, h)
    ensures Tells(t.(last := None), h + [Forgot])
    ensures Tells(t.(received := true), h + [Noted])
    ensures Tells(t.(pendingDrain := false), h + [Notified])
    ensures Tells(t.(lastSeen := revision), h + [SawRevision(revision)])
  {
    hide Stands, Ever;
    AllAfter(h, Forgot, t.(last := None));
    AllAfter(h, Noted, t.(received := true));
    AllAfter(h, Notified, t.(pendingDrain := false));
    AllAfter(h, SawRevision(revision), t.(lastSeen := revision));
  }

  /** Everything Tells speaks of, one deed later. */
  lemma AllAfter(h: Deeds, d: Deed, t: Store)
    ensures Stands(h + [d], OfDrain, OfSync) <==> d.Emptied? || (Stands(h, OfDrain, OfSync) && !d.Synced?)
    ensures Stands(h + [d], OfDrain, OfNotice) <==> d.Emptied? || (Stands(h, OfDrain, OfNotice) && !d.Notified?)
    ensures Stands(h + [d], OfSyncWithStreams, EitherOr(OfSync, OfDrain)) <==>
            Is(d, OfSyncWithStreams) || (Stands(h, OfSyncWithStreams, EitherOr(OfSync, OfDrain)) && !d.Synced? && !d.Emptied?)
    ensures Ever(h + [d], OfAny) <==> d.Noted? || d.Synced? || Ever(h, OfAny)
    ensures Ever(h + [d], OfSync) <==> d.Synced? || Ever(h, OfSync)
    ensures Ever(h + [d], OfSeeing) <==> d.Synced? || d.SawRevision? || Ever(h, OfSeeing)
    ensures Stands(h + [d], OfSyncAt(t.lastApplied), OfSync) <==>
            Is(d, OfSyncAt(t.lastApplied)) || (Stands(h, OfSyncAt(t.lastApplied), OfSync) && !d.Synced?)
    ensures Stands(h + [d], OfSeeingAt(t.lastSeen), OfSeeing) <==>
            Is(d, OfSeeingAt(t.lastSeen)) || (Stands(h, OfSeeingAt(t.lastSeen), OfSeeing) && !d.Synced? && !d.SawRevision?)
    ensures Stands(h + [d], OfSync, OfForgetting) <==> d.Synced? || (Stands(h, OfSync, OfForgetting) && !d.Forgot?)
    ensures t.last.Some? ==>
              (Stands(h + [d], OfSyncTo(t.last.value), EitherOr(OfSync, OfForgetting)) <==>
               Is(d, OfSyncTo(t.last.value)) ||
               (Stands(h, OfSyncTo(t.last.value), EitherOr(OfSync, OfForgetting)) && !d.Synced? && !d.Forgot?))
  {
    hide Stands, Ever;
    StandsAfter(h, d, OfDrain, OfSync);
    StandsAfter(h, d, OfDrain, OfNotice);
    StandsAfter(h, d, OfSyncWithStreams, EitherOr(OfSync, OfDrain));
    EverAfter(h, d, OfAny);
    EverAfter(h, d, OfSync);
    EverAfter(h, d, OfSeeing);
    StandsAfter(h, d, OfSyncAt(t.lastApplied), OfSync);
    StandsAfter(h, d, OfSeeingAt(t.lastSeen), OfSeeing);
    StandsAfter(h, d, OfSync, OfForgetting);
    if t.last.Some? {
      StandsAfter(h, d, OfSyncTo(t.last.value), EitherOr(OfSync, OfForgetting));
    }
  }

  /** What a step does to the store and what it records are one of these. */
  predicate Recorded(t: Store, h: Deeds, t': Store, h': Deeds) {
    (t' == t && h' == h) ||
    (|h'| == |h| + 1 && h' == h + [h'[|h|]] &&
     match h'[|h|]
     case Noted => t' == t.(received := true)
     case SawRevision(revision) => t' == t.(lastSeen := revision)
     case Notified => t' == t.(pendingDrain := false)
     case Synced(revision, snapshot) => t' == ApplySucceeded(t, revision, snapshot)
     case Emptied => t' == DrainMarked(t)
     case Forgot => t' == t.(last := None))
  }

  lemma CallerRecorded(s: App, id: nat)
    requires id in s.callers
    ensures var n := CallerStepped(s, id); Recorded(s.store, s.deeds, n.store, n.deeds)
  {
    hide ApplySucceeded, DrainMarked;
  }

  lemma OtherRecorded(c: Settings, s: App, n: App, step: Step)
    requires StepTo(c, s, n, step) && !step.CallerSteps?
    ensures Recorded(s.store, s.deeds, n.store, n.deeds)
  {
    hide PlannedPairs, Acted, LiveOf, DrainMarked, ApplySucceeded, CurrentOf, Scheduled, Accepts, Taken, Repended,
      NeedsResync, RetryDue, MayTake, DebounceOver, MayRead, CallerStepped, CallerCommitted;
  }

  lemma StepRecorded(c: Settings, s: App, n: App, step: Step)
    requires StepTo(c, s, n, step)
    ensures Recorded(s.store, s.deeds, n.store, n.deeds)
  {
    hide Recorded, CallerStepped;
    if step.CallerSteps? {
      CallerRecorded(s, step.id);
    } else {
      hide StepTo;
      OtherRecorded(c, s, n, step);
    }
  }

  lemma RecordedTells(t: Store, h: Deeds, t': Store, h': Deeds)
    requires Tells(t, h) && Recorded(t, h, t', h')
    ensures Tells(t', h')
  {
    hide Tells, ApplySucceeded, DrainMarked;
    if h' != h {
      var d := h'[|h|];
      match d
      case Synced(revision, snapshot) => TellsAfterSync(t, h, revision, snapshot);
      case Emptied => TellsAfterDrain(t, h);
      case SawRevision(revision) => TellsAfterSmall(t, h, revision);
      case _ => TellsAfterSmall(t, h, 0);
    }
  }

  /** In every run, whatever the interleaving and whatever threw: protection mode is on exactly if a drain was
      marked since the last successful sync; a notification is owed exactly if one was marked since the last was
      asked for; the last applied revision is the last successful sync's, zero before the first; streams count as
      registered exactly if the last sync or drain was a sync with streams; and so on for the other fields. */
  lemma {:induction false} StatusTells(c: Settings, run: seq<App>)
    requires Run(c, run)
    ensures forall i :: 0 <= i < |run| ==> Tells(run[i].store, run[i].deeds)
  {
    hide Tells, Next, Init;
    var last := |run| - 1;
    if last == 0 {
      TellsAtFirst(c, run[0]);
    } else {
      StatusTells(c, run[..last]);
      assert Tells(run[..last][last - 1].store, run[..last][last - 1].deeds);
      TellsNext(c, run[last - 1], run[last]);
    }
  }

  lemma TellsAtFirst(c: Settings, s: App)
    requires Init(c, s)
    ensures Tells(s.store, s.deeds)
  {}

  lemma TellsNext(c: Settings, s: App, s': App)
    requires Tells(s.store, s.deeds) && Next(c, s, s')
    ensures Tells(s'.store, s'.deeds)
  {
    hide StepTo, Tells, Recorded;
    var n := s'.(tick := s.tick);
    var step :| StepTo(c, s, n, step);
    StepRecorded(c, s, n, step);
    RecordedTells(s.store, s.deeds, n.store, n.deeds);
  }
}
