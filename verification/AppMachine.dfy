/** The daemon's control plane as a state machine: App's sync loop, perform_sync, the WebSocket handlers and
    the store (src/daemon/app.cpp, src/daemon/state_store.cpp). A step is what one thread does between
    letting go of one lock and taking the next; steps of different threads interleave freely. */
module AppMachine {
  import opened Wrappers
  import opened Streams
  import opened Publication
  import opened RegistryModel
  import opened ReconcileModel
  import opened ReconcileEngine
  import opened SyncState

  datatype Settings = Settings(debounce: int, interval: int)

  /** Registered streams; the node's operations on them are the contracts of the reconcile engine. */
  type Registry = map<(Kind, string), Config>

  // ----- threads -----

  /** How far a WebSocket callback has got. A data-changed callback goes through every stage up to Forced and
      then into schedule_sync; a connected callback skips Forced. */
  datatype Stage = Arrived | Marked | Seen | Forced | Read(lastApplied: int, needs: bool) | Committed

  datatype Caller = Caller(signal: bool, revision: int, born: nat, stage: Stage)

  /** Where the sync thread is: in sync_loop's waits, or in perform_sync. */
  datatype SyncPc =
    | Waiting
    | Debouncing(deadline: int)
    | RetryWaiting
    | Entering(revision: int)
    | Blocked(revision: int)
    | Holding(revision: int)
    | Fetching(revision: int, current: Snapshot)
    | Applying(revision: int, current: Snapshot, next: Snapshot, todo: set<(Kind, string)>)
    | Failing(revision: int)
    | Leaving
    | Ended

  datatype DrainPc = Connected | Disconnecting | Draining(todo: set<(Kind, string)>) | Draining2 | Draining3

  /** Who has reconcile_mutex_. */
  datatype Holder = Free | Syncing | Drainer

  // ----- history -----

  /** The events the sync request goes through, with the clock at each. */
  datatype Event =
    | Accepted(revision: int, time: int)
    | Took(revision: int, retry: bool, time: int)
    | Refiled(revision: int, time: int)

  /** What was done to the store: a signal noted, its revision noted, a drain notification asked for, a sync
      filed, a drain marked, the last snapshot forgotten. */
  datatype Deed =
    | Noted
    | SawRevision(revision: int)
    | Notified
    | Synced(revision: int, snapshot: Snapshot)
    | Emptied
    | Forgot

  /** `tick` counts steps and dates everything; `takeTick`, `fetchTick` and `fetchedTick` date the last take,
      the last fetch begun and the fetch behind the last successful apply. `threw` records a failed apply. */
  datatype App = App(
    stopping: bool,
    now: int,
    tick: nat,
    request: Request,
    store: Store,
    registry: Registry,
    callers: map<nat, Caller>,
    sync: SyncPc,
    drain: DrainPc,
    holder: Holder,
    log: seq<Event>,
    deeds: seq<Deed>,
    takeTick: nat,
    fetchTick: nat,
    fetchedTick: nat,
    threw: bool)

  ghost predicate Init(c: Settings, s: App) {
    && !s.stopping && s.now > 0 && s.now + c.interval > 0 && s.tick == 1
    && s.request == Request(false, false, 0, 0, 0)
    && s.store == Store(0, 0, false, false, false, false, None)
    && s.registry == map[] && s.callers == map[]
    && s.sync == Waiting && s.drain == Connected && s.holder == Free
    && s.log == [] && s.deeds == [] && s.takeTick == s.fetchTick == s.fetchedTick == 0 && !s.threw
  }

  datatype Step =
    | ClockRuns(now: int)
    | Arrives(id: nat, signal: bool, revision: int)
    | CallerSteps(id: nat)
    | CallerReads(id: nat)
    | CallerCommits(id: nat)
    | LoopWakes
    | LoopRestarts
    | LoopDelays
    | LoopTakes
    | SyncChecks
    | SyncLocks
    | SyncFetches
    | SyncFetchFails
    | SyncFetched(next: Snapshot)
    | SyncActs(stream: (Kind, string))
    | SyncThrows
    | SyncSucceeds
    | SyncRefiles
    | SyncUnlocks
    | SyncEnds
    | DrainBegins
    | DrainLocks
    | DrainActs(stream: (Kind, string))
    | DrainMarks
    | DrainClears
    | DrainUnlocks
    | Activates(stream: (Kind, string), config: Config)
    | StopRequested

  // ----- steps -----

  function PlannedPairs(current: Snapshot, next: Snapshot): (r: set<(Kind, string)>)
    ensures forall t :: t in r <==> t.1 in PlanOf(current, next, t.0)
  {
    set t | t in LiveOf(current.lists) + LiveOf(next.lists) && t.1 in PlanOf(current, next, t.0)
  }

  function Acted(r: Registry, current: Snapshot, next: Snapshot, t: (Kind, string)): Registry {
    var target := Look(View(next.lists.Of(t.0)), t.1);
    if target.Some? then r[t := target.value] else r - {t}
  }

  /** The stages that only touch the store or raise `force`. */
  function CallerStepped(s: App, id: nat): (r: App)
    requires id in s.callers
    ensures r == s.(callers := r.callers, store := r.store, deeds := r.deeds, request := s.request.(force := r.request.force))
    ensures id in r.callers && r.callers == s.callers[id := r.callers[id]]
    ensures s.request.force ==> r.request.force
    ensures r.store == s.store.(lastSeen := r.store.lastSeen, received := r.store.received, pendingDrain := r.store.pendingDrain)
  {
    var c := s.callers[id];
    match c.stage
    case Arrived =>
      s.(callers := s.callers[id := c.(stage := Marked)],
         store := if c.signal then s.store.(received := true) else s.store.(pendingDrain := false),
         deeds := s.deeds + [if c.signal then Noted else Notified])
    case Marked =>
      if c.signal then
        s.(callers := s.callers[id := c.(stage := Seen)], store := s.store.(lastSeen := c.revision),
           deeds := s.deeds + [SawRevision(c.revision)])
      else
        s.(callers := s.callers[id := c.(stage := Seen, revision := if s.store.lastSeen > 0 then s.store.lastSeen else 1)])
    case Seen =>
      if c.signal then s.(callers := s.callers[id := c.(stage := Forced)], request := s.request.(force := true)) else s
    case _ => s
  }

  predicate MayRead(c: Caller) { if c.signal then c.stage == Forced else c.stage == Seen }

  function CallerCommitted(s: App, id: nat): (r: App)
    requires id in s.callers && s.callers[id].stage.Read?
    ensures r == s.(callers := r.callers, request := r.request, log := r.log)
    ensures id in r.callers && r.callers == s.callers[id := r.callers[id]]
    ensures r.request.force == s.request.force && (s.request.pending ==> r.request.pending)
  {
    var c := s.callers[id];
    var accepted := Accepts(s.request, c.revision, c.stage.lastApplied, c.stage.needs);
    s.(callers := s.callers[id := c.(stage := Committed)],
       request := Scheduled(s.request, c.revision, c.stage.lastApplied, c.stage.needs, s.now),
       log := if accepted then s.log + [Accepted(c.revision, s.now)] else s.log)
  }

  /** The debounce deadline has passed and no signal came after it. */
  predicate DebounceOver(s: App) {
    s.sync.Debouncing? && s.now >= s.sync.deadline && s.request.lastSignal <= s.sync.deadline
  }

  predicate RetryDue(s: App) { s.request.notBefore == 0 || s.now >= s.request.notBefore }

  predicate MayTake(s: App) {
    (DebounceOver(s) && RetryDue(s)) ||
    (s.sync.RetryWaiting? && s.request.notBefore != 0 && s.now >= s.request.notBefore)
  }

  function LoopTook(s: App): App {
    s.(sync := Entering(s.request.revision),
       log := s.log + [Took(s.request.revision, s.request.notBefore != 0, s.now)],
       request := Taken(s.request),
       takeTick := s.tick)
  }

  /** One step, but for the tick. A stop may be requested at any moment, also between a test of it and what
      follows, so the sync loop's steps are possible while stopping; only perform_sync's own test holds one up. */
  ghost predicate StepTo(c: Settings, s: App, n: App, step: Step) {
    match step
    case ClockRuns(now) => s.now <= now && n == s.(now := now)
    case Arrives(id, signal, revision) =>
      id !in s.callers && n == s.(callers := s.callers[id := Caller(signal, revision, s.tick, Arrived)])
    case CallerSteps(id) => id in s.callers && n == CallerStepped(s, id)
    case CallerReads(id) =>
      id in s.callers && MayRead(s.callers[id]) &&
      n == s.(callers := s.callers[id := s.callers[id].(stage := Read(s.store.lastApplied, NeedsResync(s.store)))])
    case CallerCommits(id) => id in s.callers && s.callers[id].stage.Read? && n == CallerCommitted(s, id)
    case LoopWakes => s.sync.Waiting? && s.request.pending && n == s.(sync := Debouncing(s.request.lastSignal + c.debounce))
    case LoopRestarts =>
      ((s.sync.Debouncing? && s.request.lastSignal > s.sync.deadline) || (s.sync.RetryWaiting? && s.request.notBefore == 0)) &&
      n == s.(sync := Waiting)
    case LoopDelays => DebounceOver(s) && !RetryDue(s) && n == s.(sync := RetryWaiting)
    case LoopTakes => MayTake(s) && n == LoopTook(s)
    case SyncChecks => s.sync.Entering? && !s.stopping && n == s.(sync := Blocked(s.sync.revision))
    case SyncLocks => s.sync.Blocked? && s.holder.Free? && n == s.(sync := Holding(s.sync.revision), holder := Syncing)
    case SyncFetches =>
      s.sync.Holding? &&
      n == s.(sync := Fetching(s.sync.revision, CurrentOf(s.store.last)), fetchTick := s.tick)
    case SyncFetchFails => s.sync.Fetching? && n == s.(sync := Failing(s.sync.revision))
    case SyncFetched(next) =>
      s.sync.Fetching? &&
      n == s.(sync := Applying(s.sync.revision, s.sync.current, next, PlannedPairs(s.sync.current, next)))
    case SyncActs(t) =>
      s.sync.Applying? && t in s.sync.todo &&
      n == s.(sync := s.sync.(todo := s.sync.todo - {t}), registry := Acted(s.registry, s.sync.current, s.sync.next, t))
    case SyncThrows => s.sync.Applying? && n == s.(sync := Failing(s.sync.revision), threw := true)
    case SyncSucceeds =>
      s.sync.Applying? && s.sync.todo == {} &&
      n == s.(sync := Leaving, store := ApplySucceeded(s.store, s.sync.revision, s.sync.next),
              deeds := s.deeds + [Synced(s.sync.revision, s.sync.next)], fetchedTick := s.fetchTick)
    case SyncRefiles =>
      s.sync.Failing? &&
      n == s.(sync := Leaving, request := Repended(s.request, s.sync.revision, s.now, c.interval),
              log := s.log + [Refiled(s.sync.revision, s.now)])
    case SyncUnlocks => s.sync.Leaving? && n == s.(sync := Waiting, holder := Free)
    case SyncEnds =>
      s.stopping && (s.sync.Waiting? || s.sync.Debouncing? || s.sync.RetryWaiting? || s.sync.Entering?) && n == s.(sync := Ended)
    case DrainBegins => s.drain.Connected? && n == s.(drain := Disconnecting)
    case DrainLocks =>
      s.drain.Disconnecting? && s.holder.Free? &&
      n == s.(drain := Draining(LiveOf(CurrentOf(s.store.last).lists)), holder := Drainer)
    case DrainActs(t) =>
      s.drain.Draining? && t in s.drain.todo && n == s.(drain := Draining(s.drain.todo - {t}), registry := s.registry - {t})
    case DrainMarks => s.drain.Draining? && s.drain.todo == {} &&
      n == s.(drain := Draining2, store := DrainMarked(s.store), deeds := s.deeds + [Emptied])
    case DrainClears =>
      s.drain.Draining2? && n == s.(drain := Draining3, store := s.store.(last := None), deeds := s.deeds + [Forgot])
    case DrainUnlocks => s.drain.Draining3? && n == s.(drain := Connected, holder := Free)
    case Activates(t, config) => t in s.registry && n == s.(registry := s.registry[t := config])
    case StopRequested => n == s.(stopping := true)
  }

  ghost predicate Next(c: Settings, s: App, s': App) {
    s'.tick == s.tick + 1 && exists step :: StepTo(c, s, s'.(tick := s.tick), step)
  }

  /** A run: any interleaving of any length. */
  ghost predicate Run(c: Settings, run: seq<App>) {
    |run| > 0 && Init(c, run[0]) && forall i :: 0 < i < |run| ==> Next(c, run[i - 1], run[i])
  }

  function Last(run: seq<App>): App
    requires run != []
  {
    run[|run| - 1]
  }

  lemma RunGrows(c: Settings, run: seq<App>, n: App, step: Step)
    requires Run(c, run) && StepTo(c, Last(run), n, step)
    ensures Run(c, run + [n.(tick := Last(run).tick + 1)])
  {
    hide Init, StepTo;
    var s := run[|run| - 1];
    var run' := run + [n.(tick := s.tick + 1)];
    StepKeepsTick(c, s, n, step);
    assert n.(tick := s.tick + 1).(tick := s.tick) == n;
    forall i | 0 < i < |run'| ensures Next(c, run'[i - 1], run'[i]) {
      if i < |run| {
        assert Next(c, run[i - 1], run[i]);
      } else {
        assert run'[i - 1] == s;
      }
    }
  }

  lemma StepKeepsTick(c: Settings, s: App, n: App, step: Step)
    requires StepTo(c, s, n, step)
    ensures n.tick == s.tick
  {
    hide PlannedPairs, Acted, LiveOf, CurrentOf, ApplySucceeded, DrainMarked, Scheduled, Accepts, Taken, Repended, NeedsResync,
      RetryDue, MayTake, DebounceOver, MayRead, CallerStepped, CallerCommitted;
  }

  // ----- locking -----

  predicate SyncHolds(pc: SyncPc) {
    pc.Holding? || pc.Fetching? || pc.Applying? || pc.Failing? || pc.Leaving?
  }

  predicate DrainHolds(pc: DrainPc) { pc.Draining? || pc.Draining2? || pc.Draining3? }

  /** reconcile_mutex_ is held by the thread that is inside it. */
  predicate LockOk(s: App) {
    (s.holder.Syncing? <==> SyncHolds(s.sync)) && (s.holder.Drainer? <==> DrainHolds(s.drain))
  }

  // ----- what is registered -----

  function RegisteredIds(s: App): set<(Kind, string)> { s.registry.Keys }

  function SnapshotIds(s: Snapshot): set<(Kind, string)> { LiveOf(s.lists) }

  /** The registry is what the last snapshot says, and the status says whether that is anything. */
  predicate Settled(s: App) {
    RegisteredIds(s) == SnapshotIds(CurrentOf(s.store.last)) && (s.store.streamsRegistered <==> s.registry.Keys != {})
  }

  /** The registry in the middle of an apply or a drain. */
  ghost predicate RegistryOk(s: App) {
    match s.holder
    case Free => Settled(s)
    case Syncing =>
      (match s.sync
       case Fetching(_, current) => Settled(s) && current == CurrentOf(s.store.last)
       case Applying(_, current, next, todo) =>
         forall t :: t in s.registry <==> t in if t in todo then SnapshotIds(current) else SnapshotIds(next)
       case _ => Settled(s))
    case Drainer =>
      (match s.drain
       case Draining(todo) => s.registry.Keys == todo
       case Draining2 => s.registry.Keys == {} && !s.store.streamsRegistered
       case _ => Settled(s))
  }

  ghost predicate SystemInv(s: App) { LockOk(s) && (!s.threw ==> RegistryOk(s)) }

  lemma SettledAfterApply(s: App, n: App)
    requires s.sync.Applying? && s.sync.todo == {} && s.registry.Keys == SnapshotIds(s.sync.next)
    requires n.registry == s.registry && n.store == ApplySucceeded(s.store, s.sync.revision, s.sync.next)
    ensures Settled(n)
  {
    var ls := s.sync.next.lists;
    HasAnyStreamsMeansSomeId(ls);
    if k: Kind :| Ids(ls.Of(k)) != {} {
      var id :| id in Ids(ls.Of(k));
      assert (k, id) in LiveOf(ls);
    }
    if s.registry.Keys != {} {
      var t :| t in LiveOf(ls);
      assert t.1 in Ids(ls.Of(t.0));
    }
  }

  /** Where the two snapshots agree on an id, it is in both or in neither. */
  lemma UnplannedInBoth(current: Snapshot, next: Snapshot, t: (Kind, string))
    requires t !in PlannedPairs(current, next)
    ensures t in SnapshotIds(current) <==> t in SnapshotIds(next)
  {
    assert t.1 in Ids(current.lists.Of(t.0)) <==> t.1 in View(current.lists.Of(t.0));
    assert t.1 in Ids(next.lists.Of(t.0)) <==> t.1 in View(next.lists.Of(t.0));
  }

  lemma SystemInit(c: Settings, s: App)
    requires Init(c, s)
    ensures SystemInv(s)
  {
    assert LiveOf(EMPTY_SNAPSHOT.lists) == {};
  }

  lemma LockStep(c: Settings, s: App, n: App, step: Step)
    requires LockOk(s) && StepTo(c, s, n, step)
    ensures LockOk(n)
  {
    hide PlannedPairs, Acted, LiveOf, DrainMarked, ApplySucceeded, CurrentOf, Scheduled, Accepts, Taken, Repended,
      NeedsResync, RetryDue, MayRead, CallerStepped, CallerCommitted;
  }

  /** Everything RegistryOk looks at is as it was. */
  predicate SameRegistryView(s: App, n: App) {
    n.registry == s.registry && n.store.last == s.store.last && n.store.streamsRegistered == s.store.streamsRegistered &&
    n.sync == s.sync && n.drain == s.drain && n.holder == s.holder && n.threw == s.threw
  }

  predicate AboutRegistry(step: Step) {
    step.SyncChecks? || step.SyncLocks? || step.SyncFetches? || step.SyncFetchFails? || step.SyncFetched? || step.SyncActs? || step.SyncThrows? ||
    step.SyncSucceeds? || step.SyncRefiles? || step.SyncUnlocks? || step.SyncEnds? || step.LoopWakes? || step.LoopRestarts? ||
    step.LoopDelays? || step.LoopTakes? || step.DrainBegins? || step.DrainLocks? || step.DrainActs? || step.DrainMarks? ||
    step.DrainClears? || step.DrainUnlocks? || step.Activates?
  }

  lemma OtherStep(c: Settings, s: App, n: App, step: Step)
    requires StepTo(c, s, n, step) && !AboutRegistry(step)
    ensures SameRegistryView(s, n)
  {
    hide PlannedPairs, Acted, LiveOf, DrainMarked, ApplySucceeded, CurrentOf, Scheduled, Accepts, Taken, Repended,
      NeedsResync, RetryDue, CallerStepped, CallerCommitted;
  }

  lemma SameViewOk(s: App, n: App)
    requires SameRegistryView(s, n) && RegistryOk(s)
    ensures RegistryOk(n)
  {
    hide LiveOf;
  }

  lemma TickIrrelevant(s: App, tick: nat)
    requires SystemInv(s)
    ensures SystemInv(s.(tick := tick))
  {
    hide LiveOf;
  }

  lemma FetchedStep(c: Settings, s: App, n: App, next: Snapshot)
    requires LockOk(s) && RegistryOk(s) && StepTo(c, s, n, SyncFetched(next))
    ensures RegistryOk(n)
  {
    hide LiveOf, PlannedPairs, View, PlanOf;
    forall t | t !in PlannedPairs(s.sync.current, next) { UnplannedInBoth(s.sync.current, next, t); }
  }

  lemma ActsStep(c: Settings, s: App, n: App, t: (Kind, string))
    requires LockOk(s) && RegistryOk(s) && StepTo(c, s, n, SyncActs(t))
    ensures RegistryOk(n)
  {
    hide LiveOf, PlannedPairs, View, PlanOf;
    var m := View(s.sync.next.lists.Of(t.0));
    assert t in SnapshotIds(s.sync.next) <==> t.1 in m;
  }

  lemma SucceedsStep(c: Settings, s: App, n: App)
    requires LockOk(s) && RegistryOk(s) && StepTo(c, s, n, SyncSucceeds)
    ensures RegistryOk(n)
  {
    hide LiveOf, PlannedPairs, View, PlanOf, Settled;
    assert s.registry.Keys == SnapshotIds(s.sync.next);
    SettledAfterApply(s, n);
  }

  lemma SyncStep(c: Settings, s: App, n: App, step: Step)
    requires LockOk(s) && RegistryOk(s) && StepTo(c, s, n, step) && AboutRegistry(step) && !n.threw
    requires !step.DrainBegins? && !step.DrainLocks? && !step.DrainActs? && !step.DrainMarks? && !step.DrainClears? &&
             !step.DrainUnlocks? && !step.Activates?
    ensures RegistryOk(n)
  {
    if step.SyncFetched? {
      FetchedStep(c, s, n, step.next);
    } else if step.SyncActs? {
      ActsStep(c, s, n, step.stream);
    } else if step.SyncSucceeds? {
      SucceedsStep(c, s, n);
    } else {
      hide LiveOf, PlannedPairs, PlanOf, Acted, Settled, MayTake, RetryDue, DebounceOver, Repended, Scheduled,
        Accepts, Taken, NeedsResync, MayRead, ApplySucceeded, DrainMarked, CurrentOf, CallerStepped, CallerCommitted;
    }
  }

  lemma ActivatesStep(c: Settings, s: App, n: App, step: Step)
    requires RegistryOk(s) && StepTo(c, s, n, step) && step.Activates?
    ensures RegistryOk(n)
  {
    hide LiveOf, CurrentOf, PlannedPairs;
    assert n.registry.Keys == s.registry.Keys;
  }

  lemma DrainActsStep(c: Settings, s: App, n: App, step: Step)
    requires LockOk(s) && RegistryOk(s) && StepTo(c, s, n, step) && step.DrainActs?
    ensures RegistryOk(n)
  {
    hide LiveOf, CurrentOf, PlannedPairs;
    assert n.registry.Keys == s.registry.Keys - {step.stream};
  }

  lemma DrainStep(c: Settings, s: App, n: App, step: Step)
    requires LockOk(s) && RegistryOk(s) && StepTo(c, s, n, step)
    requires step.DrainBegins? || step.DrainLocks? || step.DrainActs? || step.DrainMarks? || step.DrainClears? ||
             step.DrainUnlocks? || step.Activates?
    ensures RegistryOk(n)
  {
    NoSnapshotNoIds();
    if step.Activates? {
      ActivatesStep(c, s, n, step);
    } else if step.DrainActs? {
      DrainActsStep(c, s, n, step);
    } else {
      hide LiveOf, CurrentOf, PlannedPairs, Acted, ApplySucceeded, Scheduled, Accepts, Taken, Repended, NeedsResync, RetryDue,
        DebounceOver, MayTake, LoopTook, MayRead, CallerStepped, CallerCommitted;
    }
  }

  lemma NoSnapshotNoIds()
    ensures SnapshotIds(CurrentOf(None)) == {}
  {}

  lemma SystemStep(c: Settings, s: App, n: App, step: Step)
    requires SystemInv(s) && StepTo(c, s, n, step)
    ensures SystemInv(n)
  {
    hide StepTo, Settled;
    LockStep(c, s, n, step);
    if !n.threw {
      NeverUnthrown(c, s, n, step);
      if !AboutRegistry(step) {
        OtherStep(c, s, n, step);
        SameViewOk(s, n);
      } else if step.DrainBegins? || step.DrainLocks? || step.DrainActs? || step.DrainMarks? || step.DrainClears? ||
                step.DrainUnlocks? || step.Activates? {
        DrainStep(c, s, n, step);
      } else {
        SyncStep(c, s, n, step);
      }
    }
  }

  lemma NeverUnthrown(c: Settings, s: App, n: App, step: Step)
    requires StepTo(c, s, n, step)
    ensures s.threw ==> n.threw
  {
    hide PlannedPairs, Acted, LiveOf, DrainMarked, ApplySucceeded, CurrentOf, Scheduled, Accepts, Taken, Repended,
      NeedsResync, RetryDue, CallerStepped, CallerCommitted;
  }

  lemma {:induction false} SystemAlways(c: Settings, run: seq<App>)
    requires Run(c, run)
    ensures forall i :: 0 <= i < |run| ==> SystemInv(run[i])
  {
    hide SystemInv, Next, Init;
    var last := |run| - 1;
    if last == 0 {
      SystemInit(c, run[0]);
    } else {
      SystemAlways(c, run[..last]);
      assert SystemInv(run[..last][last - 1]);
      SystemNext(c, run[last - 1], run[last]);
    }
  }

  lemma SystemNext(c: Settings, s: App, s': App)
    requires SystemInv(s) && Next(c, s, s')
    ensures SystemInv(s')
  {
    hide StepTo, SystemInv;
    var n := s'.(tick := s.tick);
    var step :| StepTo(c, s, n, step);
    SystemStep(c, s, n, step);
    TickIrrelevant(n, s'.tick);
  }

  /** In every run in which no node operation throws, whenever reconcile_mutex_ is free the registered ids are
      exactly those of the last snapshot, none when there is none, and the status is right about whether any
      stream is registered. */
  lemma RegistryFollowsSnapshot(c: Settings, run: seq<App>, i: nat)
    requires Run(c, run) && i < |run| && !run[i].threw && run[i].holder.Free?
    ensures RegisteredIds(run[i]) == if run[i].store.last.Some? then SnapshotIds(run[i].store.last.value) else {}
    ensures run[i].store.streamsRegistered <==> exists t :: t in RegisteredIds(run[i])
  {
    SystemAlways(c, run);
    assert SystemInv(run[i]);
    assert LiveOf(EMPTY_SNAPSHOT.lists) == {};
  }

  // ----- no signal is lost -----

  predicate InFlight(pc: SyncPc) {
    pc.Entering? || pc.Blocked? || pc.Holding? || pc.Fetching? || pc.Applying? || pc.Failing?
  }

  /** A sync that will fetch, or has fetched, after tick `t`: requested, under way, or successfully applied. */
  predicate Covered(s: App, t: nat) {
    s.request.pending || (InFlight(s.sync) && s.takeTick > t) || s.fetchedTick > t
  }

  predicate CallerOk(s: App, c: Caller) {
    && c.born < s.tick
    && (c.signal && (c.stage.Forced? || c.stage.Read?) ==> s.request.force || Covered(s, c.born))
    && (c.signal && c.stage.Committed? ==> Covered(s, c.born))
  }

  /** The dates are in order: a fetch follows its take, and earlier successes come before a take. */
  predicate DatesOk(s: App) {
    && s.takeTick < s.tick && s.fetchTick < s.tick && s.fetchedTick < s.tick
    && (InFlight(s.sync) ==> s.fetchedTick <= s.takeTick)
    && (s.sync.Fetching? || s.sync.Applying? ==> s.fetchTick > s.takeTick)
  }

  ghost predicate SignalsOk(s: App) {
    s.sync.Ended? || (DatesOk(s) && forall id :: id in s.callers ==> CallerOk(s, s.callers[id]))
  }

  predicate OfSyncThread(step: Step) {
    step.LoopWakes? || step.LoopRestarts? || step.LoopDelays? || step.LoopTakes? || step.SyncChecks? || step.SyncLocks? ||
    step.SyncFetches? || step.SyncFetchFails? || step.SyncFetched? || step.SyncActs? || step.SyncThrows? ||
    step.SyncSucceeds? || step.SyncRefiles? || step.SyncUnlocks? || step.SyncEnds?
  }

  /** The other steps leave the sync thread and the dates alone. */
  lemma DatesKept(c: Settings, s: App, n: App, step: Step)
    requires StepTo(c, s, n, step) && !OfSyncThread(step)
    ensures n.sync == s.sync && n.takeTick == s.takeTick && n.fetchTick == s.fetchTick && n.fetchedTick == s.fetchedTick
  {
    hide PlannedPairs, Acted, LiveOf, DrainMarked, ApplySucceeded, CurrentOf, Scheduled, Accepts, Taken, Repended,
      NeedsResync, RetryDue, MayTake, DebounceOver, MayRead, CallerStepped, CallerCommitted;
  }

  lemma SyncDates(c: Settings, s: App, n: App, step: Step)
    requires DatesOk(s) && StepTo(c, s, n, step) && OfSyncThread(step)
    ensures n.sync.Ended? || DatesOk(n.(tick := s.tick + 1))
  {
    hide PlannedPairs, Acted, LiveOf, DrainMarked, ApplySucceeded, CurrentOf, Scheduled, Accepts, Taken, Repended,
      NeedsResync, RetryDue, MayTake, DebounceOver, MayRead, CallerStepped, CallerCommitted;
  }

  lemma DatesStep(c: Settings, s: App, n: App, step: Step)
    requires DatesOk(s) && StepTo(c, s, n, step)
    ensures n.sync.Ended? || DatesOk(n.(tick := s.tick + 1))
  {
    hide StepTo;
    if OfSyncThread(step) {
      SyncDates(c, s, n, step);
    } else {
      DatesKept(c, s, n, step);
    }
  }

  /** No step uncovers a signal: taking the request dates a new sync after it, and a failure asks again. */
  lemma CoveredStep(c: Settings, s: App, n: App, step: Step, t: nat)
    requires DatesOk(s) && StepTo(c, s, n, step) && Covered(s, t) && t < s.tick
    ensures n.sync.Ended? || Covered(n, t)
  {
    hide PlannedPairs, Acted, LiveOf, DrainMarked, ApplySucceeded, CurrentOf, Scheduled, Accepts, Taken, Repended,
      NeedsResync, RetryDue, CallerStepped, CallerCommitted;
  }

  /** Taking the request is the only step that clears `force`, and it covers everything received before. */
  lemma ForceStep(c: Settings, s: App, n: App, step: Step, t: nat)
    requires DatesOk(s) && StepTo(c, s, n, step) && s.request.force && t < s.tick
    ensures n.request.force || (InFlight(n.sync) && n.takeTick > t)
  {
    hide PlannedPairs, Acted, LiveOf, DrainMarked, ApplySucceeded, CurrentOf, Scheduled, Accepts, Taken, Repended,
      NeedsResync, RetryDue, CallerStepped, CallerCommitted, MayTake;
  }

  /** How a callback can have moved: it raised `force`, went from Forced to Read, or committed, in which case
      either the request is pending now or `force` was down. */
  predicate CallerMoved(s: App, n: App, was: Caller, now: Caller) {
    && now.born == was.born && now.signal == was.signal
    && (now.signal && now.stage.Forced? && !was.stage.Forced? ==> n.request.force)
    && (now.signal && now.stage.Read? && !was.stage.Read? ==> was.stage.Forced?)
    && (now.signal && now.stage.Committed? && !was.stage.Committed? ==>
          was.stage.Read? && (n.request.pending || !s.request.force))
  }

  lemma OwnCallerMoves(c: Settings, s: App, n: App, step: Step, id: nat)
    requires StepTo(c, s, n, step) && id in n.callers
    requires step == CallerSteps(id) || step == CallerReads(id) || step == CallerCommits(id)
    ensures id in s.callers && CallerMoved(s, n, s.callers[id], n.callers[id])
  {}

  lemma OtherCallers(c: Settings, s: App, n: App, step: Step, id: nat)
    requires StepTo(c, s, n, step) && id in n.callers
    requires step != CallerSteps(id) && step != CallerReads(id) && step != CallerCommits(id)
    ensures if id in s.callers then n.callers[id] == s.callers[id]
            else n.callers[id].born == s.tick && n.callers[id].stage.Arrived?
  {
    hide PlannedPairs, Acted, LiveOf, DrainMarked, ApplySucceeded, CurrentOf, Scheduled, Accepts, Taken, Repended,
      NeedsResync, RetryDue, MayTake, DebounceOver, CallerStepped, CallerCommitted;
  }

  lemma CallerMoves(c: Settings, s: App, n: App, step: Step, id: nat)
    requires StepTo(c, s, n, step) && id in n.callers
    ensures if id in s.callers then CallerMoved(s, n, s.callers[id], n.callers[id])
            else n.callers[id].born == s.tick && n.callers[id].stage.Arrived?
  {
    hide StepTo;
    if step == CallerSteps(id) || step == CallerReads(id) || step == CallerCommits(id) {
      OwnCallerMoves(c, s, n, step, id);
    } else {
      OtherCallers(c, s, n, step, id);
    }
  }

  lemma CallerStepOk(c: Settings, s: App, n: App, step: Step, id: nat)
    requires DatesOk(s) && StepTo(c, s, n, step) && id in n.callers && !n.sync.Ended?
    requires id in s.callers ==> CallerOk(s, s.callers[id])
    ensures CallerOk(n.(tick := s.tick + 1), n.callers[id])
  {
    hide StepTo;
    CallerMoves(c, s, n, step, id);
    if id in s.callers {
      var t := s.callers[id].born;
      if Covered(s, t) { CoveredStep(c, s, n, step, t); }
      if s.request.force { ForceStep(c, s, n, step, t); }
    }
  }

  lemma SignalsStep(c: Settings, s: App, n: App, step: Step)
    requires SignalsOk(s) && StepTo(c, s, n, step)
    ensures SignalsOk(n.(tick := s.tick + 1))
  {
    if s.sync.Ended? {
      EndedStays(c, s, n, step);
    } else if !n.sync.Ended? {
      hide StepTo, CallerOk, DatesOk;
      DatesStep(c, s, n, step);
      forall id | id in n.callers ensures CallerOk(n.(tick := s.tick + 1), n.callers[id]) {
        CallerStepOk(c, s, n, step, id);
      }
    }
  }

  lemma EndedStays(c: Settings, s: App, n: App, step: Step)
    requires s.sync.Ended? && StepTo(c, s, n, step)
    ensures n.sync.Ended?
  {
    hide PlannedPairs, Acted, LiveOf, DrainMarked, ApplySucceeded, CurrentOf, Scheduled, Accepts, Taken, Repended,
      NeedsResync, RetryDue, CallerStepped, CallerCommitted;
  }

  lemma {:induction false} SignalsAlways(c: Settings, run: seq<App>)
    requires Run(c, run)
    ensures forall i :: 0 <= i < |run| ==> SignalsOk(run[i])
  {
    hide SignalsOk, Next, Init;
    var last := |run| - 1;
    if last == 0 {
      SignalsInit(c, run[0]);
    } else {
      SignalsAlways(c, run[..last]);
      assert SignalsOk(run[..last][last - 1]);
      SignalsNext(c, run[last - 1], run[last]);
    }
  }

  lemma SignalsInit(c: Settings, s: App)
    requires Init(c, s)
    ensures SignalsOk(s)
  {}

  lemma SignalsNext(c: Settings, s: App, s': App)
    requires SignalsOk(s) && Next(c, s, s')
    ensures SignalsOk(s')
  {
    hide StepTo, SignalsOk;
    var n := s'.(tick := s.tick);
    var step :| StepTo(c, s, n, step);
    SignalsStep(c, s, n, step);
  }

  /** Under every interleaving, until the daemon stops: a data-changed signal whose callback has finished has a
      sync requested or under way, or an apply has succeeded whose fetch began after the signal arrived. Clearing
      `force` in between, dropping the revision as old, and failing syncs make no difference. */
  lemma NoSignalLost(c: Settings, run: seq<App>, i: nat, id: nat)
    requires Run(c, run) && i < |run| && !run[i].sync.Ended?
    requires id in run[i].callers && run[i].callers[id].signal && run[i].callers[id].stage.Committed?
    ensures run[i].request.pending ||
            (InFlight(run[i].sync) && run[i].takeTick > run[i].callers[id].born) ||
            run[i].fetchedTick > run[i].callers[id].born
  {
    SignalsAlways(c, run);
    assert SignalsOk(run[i]);
  }
}
