/** Coalescing and timing of the sync loop (src/daemon/app.cpp), stated over the history of the request:
    signals accepted, syncs begun, failures filed for retry. */
module SyncTiming {
  import opened Wrappers
  import opened RegistryModel
  import opened ReconcileEngine
  import opened SyncState
  import opened AppMachine

  type History = seq<Event>

  /** Whether anything was accepted or refiled since the last sync began. */
  predicate Outstanding(h: History) { h != [] && !h[|h| - 1].Took? }

  /** The largest revision accepted or refiled since the last sync began, floored at zero. */
  function Wanted(h: History): int {
    if !Outstanding(h) then 0 else Max(Wanted(h[..|h| - 1]), h[|h| - 1].revision)
  }

  /** When the request now outstanding was first made. */
  function Since(h: History): int
    requires Outstanding(h)
  {
    var before := h[..|h| - 1];
    if Outstanding(before) then Since(before) else h[|h| - 1].time
  }

  /** Nothing was accepted after the last failure. */
  predicate AwaitingRetry(h: History) { h != [] && h[|h| - 1].Refiled? }

  /** What must be true of a sync begun as `e` after the history `h`. */
  predicate SoundTake(c: Settings, h: History, e: Event)
    requires e.Took?
  {
    && Outstanding(h)
    && e.revision == Wanted(h)
    && e.time >= Since(h) + c.debounce
    && (e.retry <==> AwaitingRetry(h))
    && (e.retry ==> e.time >= h[|h| - 1].time + c.interval)
  }

  ghost predicate SoundHistory(c: Settings, h: History) {
    forall i :: 0 <= i < |h| && h[i].Took? ==> SoundTake(c, h[..i], h[i])
  }

  /** Wanted, said without recursion: it bounds every revision since the last take and is one of them or zero. */
  lemma {:induction false} WantedIsMaximum(h: History, from: nat)
    requires from <= |h| && (from == 0 || h[from - 1].Took?) && forall i :: from <= i < |h| ==> !h[i].Took?
    ensures forall i :: from <= i < |h| ==> h[i].revision <= Wanted(h)
    ensures Wanted(h) == 0 || exists i :: from <= i < |h| && h[i].revision == Wanted(h)
    ensures Wanted(h) >= 0
  {
    if from < |h| {
      var last := |h| - 1;
      WantedIsMaximum(h[..last], from);
      if Wanted(h) != 0 && Wanted(h) != h[last].revision {
        var i :| from <= i < last && h[..last][i].revision == Wanted(h[..last]);
        assert h[i].revision == Wanted(h);
      }
    }
  }

  /** The request, the loop and the clock agree with the history. */
  ghost predicate TimingOk(c: Settings, s: App) {
    && s.now > 0 && s.now + c.interval > 0
    && SoundHistory(c, s.log)
    && s.request.pending == Outstanding(s.log)
    && s.request.revision == Wanted(s.log)
    && s.request.lastSignal <= s.now
    && (s.request.notBefore != 0 <==> AwaitingRetry(s.log))
    && (AwaitingRetry(s.log) ==> s.request.notBefore == s.log[|s.log| - 1].time + c.interval)
    && (s.request.pending ==> Since(s.log) <= s.request.lastSignal)
    && (s.sync.Debouncing? ==> s.request.pending && s.sync.deadline >= Since(s.log) + c.debounce)
    && (s.sync.RetryWaiting? ==> s.request.pending && s.now >= Since(s.log) + c.debounce)
  }

  lemma SoundGrows(c: Settings, h: History, e: Event)
    requires SoundHistory(c, h) && (e.Took? ==> SoundTake(c, h, e))
    ensures SoundHistory(c, h + [e])
  {
    var h' := h + [e];
    forall i | 0 <= i < |h'| && h'[i].Took? ensures SoundTake(c, h'[..i], h'[i]) {
      if i < |h| {
        assert h'[..i] == h[..i];
      } else {
        assert h'[..i] == h;
      }
    }
  }

  lemma Appended(h: History, e: Event)
    ensures Outstanding(h + [e]) <==> !e.Took?
    ensures AwaitingRetry(h + [e]) <==> e.Refiled?
    ensures Wanted(h + [e]) == if e.Took? then 0 else Max(Wanted(h), e.revision)
    ensures !e.Took? ==> Since(h + [e]) == if Outstanding(h) then Since(h) else e.time
  {
    assert (h + [e])[..|h|] == h;
  }

  lemma CommitTiming(c: Settings, s: App, n: App, id: nat)
    requires TimingOk(c, s) && StepTo(c, s, n, CallerCommits(id))
    ensures TimingOk(c, n)
  {
    var caller := s.callers[id];
    if Accepts(s.request, caller.revision, caller.stage.lastApplied, caller.stage.needs) {
      var e := Accepted(caller.revision, s.now);
      SoundGrows(c, s.log, e);
      Appended(s.log, e);
    }
  }

  lemma TakeTiming(c: Settings, s: App, n: App)
    requires TimingOk(c, s) && StepTo(c, s, n, LoopTakes)
    ensures TimingOk(c, n)
  {
    var e := Took(s.request.revision, s.request.notBefore != 0, s.now);
    assert SoundTake(c, s.log, e);
    SoundGrows(c, s.log, e);
    Appended(s.log, e);
  }

  lemma RefileTiming(c: Settings, s: App, n: App)
    requires TimingOk(c, s) && StepTo(c, s, n, SyncRefiles)
    ensures TimingOk(c, n)
  {
    var e := Refiled(s.sync.revision, s.now);
    SoundGrows(c, s.log, e);
    Appended(s.log, e);
  }

  lemma TimingStep(c: Settings, s: App, n: App, step: Step)
    requires TimingOk(c, s) && StepTo(c, s, n, step)
    ensures TimingOk(c, n)
  {
    if step.CallerCommits? {
      CommitTiming(c, s, n, step.id);
    } else if step.LoopTakes? {
      TakeTiming(c, s, n);
    } else if step.SyncRefiles? {
      RefileTiming(c, s, n);
    } else {
      QuietStep(c, s, n, step);
    }
  }

  /** Steps that leave the history alone. */
  lemma QuietStep(c: Settings, s: App, n: App, step: Step)
    requires TimingOk(c, s) && StepTo(c, s, n, step)
    requires !step.CallerCommits? && !step.LoopTakes? && !step.SyncRefiles?
    ensures TimingOk(c, n)
  {
    hide SoundHistory, Wanted, Since, Outstanding, AwaitingRetry, PlannedPairs, Acted, LiveOf, CurrentOf,
      ApplySucceeded, DrainMarked, NeedsResync, MayRead, CallerStepped;
  }

  lemma {:induction false} TimingAlways(c: Settings, run: seq<App>)
    requires Run(c, run)
    ensures forall i :: 0 <= i < |run| ==> TimingOk(c, run[i])
  {
    hide TimingOk, Next, Init;
    var last := |run| - 1;
    if last == 0 {
      TimingInit(c, run[0]);
    } else {
      TimingAlways(c, run[..last]);
      assert TimingOk(c, run[..last][last - 1]);
      TimingNext(c, run[last - 1], run[last]);
    }
  }

  lemma TimingInit(c: Settings, s: App)
    requires Init(c, s)
    ensures TimingOk(c, s)
  {}

  lemma TimingNext(c: Settings, s: App, s': App)
    requires TimingOk(c, s) && Next(c, s, s')
    ensures TimingOk(c, s')
  {
    hide StepTo;
    var n := s'.(tick := s.tick);
    var step :| StepTo(c, s, n, step);
    TimingStep(c, s, n, step);
  }

  /** In every run, each sync is handed the largest revision asked for since the one before it, starts no sooner
      than the debounce time after it was first asked for, and is flagged a retry exactly when nothing was
      accepted since the failure it repeats, in which case the reconnect interval has passed since then. */
  lemma EverySyncIsSound(c: Settings, run: seq<App>, i: nat, j: nat)
    requires Run(c, run) && i < |run| && j < |run[i].log| && run[i].log[j].Took?
    ensures SoundTake(c, run[i].log[..j], run[i].log[j])
  {
    TimingAlways(c, run);
    assert TimingOk(c, run[i]);
  }

  // ----- a debounce below zero -----

  /** With a negative debounce the deadline always lies before the last signal. */
  predicate NeverOver(c: Settings, s: App) {
    s.request.lastSignal <= s.now && !s.sync.RetryWaiting? &&
    (s.sync.Debouncing? ==> s.sync.deadline < s.request.lastSignal) && forall i :: 0 <= i < |s.log| ==> !s.log[i].Took?
  }

  lemma NeverOverStep(c: Settings, s: App, n: App, step: Step)
    requires c.debounce < 0 && NeverOver(c, s) && StepTo(c, s, n, step)
    ensures NeverOver(c, n)
  {
    hide PlannedPairs, Acted, LiveOf, CurrentOf, ApplySucceeded, DrainMarked, NeedsResync, MayRead, CallerStepped;
  }

  /** The setting is not validated (src/daemon/config.cpp); below zero, no sync ever begins. */
  lemma {:induction false} NegativeDebounceNeverSyncs(c: Settings, run: seq<App>)
    requires Run(c, run) && c.debounce < 0
    ensures forall i :: 0 <= i < |run| ==> NeverOver(c, run[i])
  {
    hide NeverOver, Next, Init;
    var last := |run| - 1;
    if last == 0 {
      NeverOverInit(c, run[0]);
    } else {
      NegativeDebounceNeverSyncs(c, run[..last]);
      assert NeverOver(c, run[..last][last - 1]);
      NeverOverNext(c, run[last - 1], run[last]);
    }
  }

  lemma NeverOverInit(c: Settings, s: App)
    requires Init(c, s)
    ensures NeverOver(c, s)
  {}

  lemma NeverOverNext(c: Settings, s: App, s': App)
    requires c.debounce < 0 && NeverOver(c, s) && Next(c, s, s')
    ensures NeverOver(c, s')
  {
    hide StepTo;
    var n := s'.(tick := s.tick);
    var step :| StepTo(c, s, n, step);
    NeverOverStep(c, s, n, step);
  }
}
