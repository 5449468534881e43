/** What a request can still come to: from wherever the threads have got to, a sync for it can begin, unless a
    stop was requested or the debounce setting is negative. */
module SyncProgress {
  import opened Wrappers
  import opened Streams
  import opened ReconcileEngine
  import opened SyncState
  import opened AppMachine
  import opened SyncTiming

  /** The run's last step is the sync loop taking the request. */
  predicate BeginsSync(run: seq<App>) {
    |run| > 1 && Last(run).sync.Entering? && Last(run).log != [] &&
    var e := Last(run).log[|Last(run).log| - 1];
    e.Took? && Last(run).log == run[|run| - 2].log + [e]
  }

  predicate Willing(s: App) { s.request.pending && !s.stopping && !s.sync.Ended? && LockOk(s) }

  /** Only time keeps the sync loop from taking the request. */
  predicate OnlyTime(s: App) {
    (s.sync.Debouncing? && s.request.lastSignal <= s.sync.deadline) || (s.sync.RetryWaiting? && s.request.notBefore != 0)
  }

  function DrainAhead(d: DrainPc): nat {
    match d
    case Draining(todo) => 3 + |todo|
    case Draining2 => 2
    case Draining3 => 1
    case _ => 0
  }

  /** How many steps of the sync thread, and of a drain it waits for, are ahead before only time is. */
  function Ahead(s: App): nat {
    match s.sync
    case Waiting => 1
    case Debouncing(_) => if OnlyTime(s) then 0 else 2
    case RetryWaiting => if OnlyTime(s) then 0 else 2
    case Leaving => 2
    case Failing(_) => 3
    case Applying(_, _, _, todo) => 3 + |todo|
    case Fetching(_, _) => 4
    case Holding(_) => 5
    case Blocked(_) => 6 + DrainAhead(s.drain)
    case Entering(_) => 7 + DrainAhead(s.drain)
    case Ended => 0
  }

  /** The step of a drain in progress. */
  lemma DrainForward(c: Settings, s: App) returns (n: App, step: Step)
    requires DrainHolds(s.drain)
    ensures StepTo(c, s, n, step) && DrainAhead(n.drain) < DrainAhead(s.drain)
    ensures n == s.(drain := n.drain, holder := n.holder, registry := n.registry, store := n.store, deeds := n.deeds)
  {
    match s.drain
    case Draining(todo) =>
      if todo == {} {
        step, n := DrainMarks, s.(drain := Draining2, store := DrainMarked(s.store), deeds := s.deeds + [Emptied]);
      } else {
        var t :| t in todo;
        step, n := DrainActs(t), s.(drain := Draining(todo - {t}), registry := s.registry - {t});
      }
    case Draining2 => step, n := DrainClears, s.(drain := Draining3, store := s.store.(last := None), deeds := s.deeds + [Forgot]);
    case Draining3 => step, n := DrainUnlocks, s.(drain := Connected, holder := Free);
  }

  /** The next step of a sync thread that is in perform_sync with the lock, or has to start its waits again. */
  lemma SyncForward(c: Settings, s: App) returns (n: App, step: Step)
    requires Willing(s) && !OnlyTime(s) && !s.sync.Blocked? && !s.sync.Entering? && c.debounce >= 0
    ensures StepTo(c, s, n, step) && Ahead(n) < Ahead(s)
    ensures n.request.pending && !n.stopping && !n.sync.Ended?
  {
    match s.sync
    case Waiting => step, n := LoopWakes, s.(sync := Debouncing(s.request.lastSignal + c.debounce));
    case Debouncing(_) => step, n := LoopRestarts, s.(sync := Waiting);
    case RetryWaiting => step, n := LoopRestarts, s.(sync := Waiting);
    case Leaving => step, n := SyncUnlocks, s.(sync := Waiting, holder := Free);
    case Failing(revision) =>
      step := SyncRefiles;
      n := s.(sync := Leaving, request := Repended(s.request, revision, s.now, c.interval),
              log := s.log + [Refiled(revision, s.now)]);
    case Applying(revision, current, next, todo) =>
      if todo == {} {
        step := SyncSucceeds;
        n := s.(sync := Leaving, store := ApplySucceeded(s.store, revision, next),
                deeds := s.deeds + [Synced(revision, next)], fetchedTick := s.fetchTick);
      } else {
        var t :| t in todo;
        step, n := SyncActs(t), s.(sync := s.sync.(todo := todo - {t}), registry := Acted(s.registry, current, next, t));
      }
    case Fetching(revision, _) => step, n := SyncFetchFails, s.(sync := Failing(revision));
    case Holding(revision) => step, n := SyncFetches, s.(sync := Fetching(revision, CurrentOf(s.store.last)), fetchTick := s.tick);
  }

  lemma Forward(c: Settings, s: App) returns (n: App, step: Step)
    requires Willing(s) && !OnlyTime(s) && c.debounce >= 0
    ensures StepTo(c, s, n, step) && Willing(n) && Ahead(n) < Ahead(s)
  {
    hide PlannedPairs, Acted, ApplySucceeded, DrainMarked, StepTo;
    if s.sync.Entering? {
      step, n := SyncChecks, s.(sync := Blocked(s.sync.revision));
      EnterSteps(c, s);
    } else if s.sync.Blocked? && s.holder.Drainer? {
      n, step := DrainForward(c, s);
    } else if s.sync.Blocked? {
      step, n := SyncLocks, s.(sync := Holding(s.sync.revision), holder := Syncing);
      EnterSteps(c, s);
    } else {
      n, step := SyncForward(c, s);
    }
    LockStep(c, s, n, step);
  }

  lemma EnterSteps(c: Settings, s: App)
    ensures s.sync.Entering? && !s.stopping ==> StepTo(c, s, s.(sync := Blocked(s.sync.revision)), SyncChecks)
    ensures s.sync.Blocked? && s.holder.Free? ==>
              StepTo(c, s, s.(sync := Holding(s.sync.revision), holder := Syncing), SyncLocks)
  {}

  lemma TimePasses(c: Settings, s: App, now: int)
    requires OnlyTime(s) && now >= s.now && now >= s.request.notBefore && (s.sync.Debouncing? ==> now >= s.sync.deadline)
    ensures StepTo(c, s, s.(now := now), ClockRuns(now))
    ensures var m := s.(now := now, tick := s.tick + 1); StepTo(c, m, LoopTook(m), LoopTakes)
  {}

  lemma SyncBegins(c: Settings, run: seq<App>)
    requires Run(c, run) && OnlyTime(Last(run))
    ensures exists more :: Run(c, run + more) && more != [] && BeginsSync(run + more)
  {
    hide Init, Next, StepTo;
    var s := Last(run);
    var now := Max(Max(s.now, s.request.notBefore), if s.sync.Debouncing? then s.sync.deadline else s.now);
    TimePasses(c, s, now);
    var m := s.(now := now, tick := s.tick + 1);
    RunGrows(c, run, s.(now := now), ClockRuns(now));
    var n := LoopTook(m).(tick := s.tick + 2);
    RunGrows(c, run + [m], LoopTook(m), LoopTakes);
    assert run + [m, n] == run + [m] + [n];
    assert BeginsSync(run + [m, n]);
  }

  lemma {:induction false} CanSync(c: Settings, run: seq<App>)
    requires Run(c, run) && c.debounce >= 0 && Willing(Last(run))
    ensures exists more :: Run(c, run + more) && more != [] && BeginsSync(run + more)
    decreases Ahead(Last(run))
  {
    hide Init, Next, StepTo, BeginsSync;
    var s := Last(run);
    if OnlyTime(s) {
      SyncBegins(c, run);
    } else {
      var n, step := Forward(c, s);
      RunGrows(c, run, n, step);
      var m := n.(tick := s.tick + 1);
      CanSync(c, run + [m]);
      var more :| Run(c, run + [m] + more) && more != [] && BeginsSync(run + [m] + more);
      assert run + ([m] + more) == run + [m] + more;
    }
  }

  /** As long as no stop was requested, and from wherever sync thread and drain have got to, a run with a request
      waiting can be continued to a sync for it if and only if the debounce setting is not negative. */
  lemma PendingSyncCanBeginExactly(c: Settings, run: seq<App>)
    requires Run(c, run) && Last(run).request.pending && !Last(run).stopping && !Last(run).sync.Ended?
    ensures (exists more :: Run(c, run + more) && more != [] && BeginsSync(run + more)) <==> c.debounce >= 0
  {
    hide Init, Next;
    SystemAlways(c, run);
    assert SystemInv(Last(run));
    if c.debounce >= 0 {
      CanSync(c, run);
    } else {
      forall more | Run(c, run + more) ensures !BeginsSync(run + more) {
        NegativeDebounceNeverSyncs(c, run + more);
        assert NeverOver(c, Last(run + more));
      }
    }
  }
}
