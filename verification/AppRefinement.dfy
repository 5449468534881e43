/** The state machine of AppMachine.dfy sees the node only as a map of registered configurations and applies a
    snapshot one stream at a time. Here its steps are tied to what the real operations guarantee. */
module AppRefinement {
  import opened Wrappers
  import opened Naming
  import opened Streams
  import opened Resources
  import opened Publication
  import opened RegistryModel
  import opened RegistrySteps
  import opened ReconcileModel
  import opened ReconcileEngine
  import opened SyncState
  import opened AppMachine

  function LookUp(r: Registry, t: (Kind, string)): Option<Config> { if t in r then Some(r[t]) else None }

  /** The map holds exactly what the node has cached. */
  ghost predicate Shows(r: Registry, s: State) {
    forall t :: LookUp(r, t) == Look(s.Show(t.0), t.1)
  }

  /** The map after the planned actions on the streams in `done`. */
  function ActedOn(r: Registry, current: Snapshot, next: Snapshot, done: set<(Kind, string)>): (n: Registry)
    ensures forall t :: LookUp(n, t) == if t in done then Look(View(next.lists.Of(t.0)), t.1) else LookUp(r, t)
  {
    map t | t in r.Keys + done && (if t in done then Look(View(next.lists.Of(t.0)), t.1) else LookUp(r, t)).Some? ::
      (if t in done then Look(View(next.lists.Of(t.0)), t.1) else LookUp(r, t)).value
  }

  lemma SameRegistry(a: Registry, b: Registry)
    requires forall t :: LookUp(a, t) == LookUp(b, t)
    ensures a == b
  {
    assert forall t :: t in a <==> LookUp(a, t).Some?;
    assert forall t :: t in b <==> LookUp(b, t).Some?;
    forall t | t in a ensures a[t] == b[t] {
      assert LookUp(a, t) == LookUp(b, t);
    }
  }

  lemma OneMoreAct(r: Registry, current: Snapshot, next: Snapshot, done: set<(Kind, string)>, t: (Kind, string))
    ensures Acted(ActedOn(r, current, next, done), current, next, t) == ActedOn(r, current, next, done + {t})
  {
    hide View;
    SameRegistry(Acted(ActedOn(r, current, next, done), current, next, t), ActedOn(r, current, next, done + {t}));
  }

  /** The sync thread applying a snapshot, with the actions in `todo` ahead of it and all others behind it. */
  ghost predicate Progressed(s: App, start: Registry) {
    s.sync.Applying? &&
    s.sync.todo <= PlannedPairs(s.sync.current, s.sync.next) &&
    s.registry == ActedOn(start, s.sync.current, s.sync.next, PlannedPairs(s.sync.current, s.sync.next) - s.sync.todo)
  }

  lemma ProgressBegins(c: Settings, s: App, n: App, next: Snapshot)
    requires s.sync.Fetching?
    requires n == s.(sync := Applying(s.sync.revision, s.sync.current, next, PlannedPairs(s.sync.current, next)))
    ensures StepTo(c, s, n, SyncFetched(next)) && Progressed(n, s.registry)
  {
    hide View;
    var p := PlannedPairs(s.sync.current, next);
    assert p - p == {};
    SameRegistry(s.registry, ActedOn(s.registry, s.sync.current, next, {}));
  }

  lemma ProgressGoesOn(c: Settings, s: App, n: App, t: (Kind, string), start: Registry)
    requires Progressed(s, start) && t in s.sync.todo
    requires n == s.(sync := s.sync.(todo := s.sync.todo - {t}), registry := Acted(s.registry, s.sync.current, s.sync.next, t))
    ensures StepTo(c, s, n, SyncActs(t)) && Progressed(n, start)
  {
    hide View, PlannedPairs;
    var p := PlannedPairs(s.sync.current, s.sync.next);
    OneMoreAct(start, s.sync.current, s.sync.next, p - s.sync.todo, t);
    assert p - s.sync.todo + {t} == p - n.sync.todo;
  }

  /** `z` is `s` with the actions in `done` carried out as well. */
  ghost predicate DoneSince(s: App, z: App, done: set<(Kind, string)>, start: Registry) {
    s.sync.Applying? && z == s.(sync := s.sync.(todo := s.sync.todo - done), registry := z.registry, tick := z.tick) &&
    Progressed(z, start)
  }

  /** The machine can carry out any part of what is ahead of it. */
  lemma {:induction false} AnyActsCanHappen(c: Settings, run: seq<App>, done: set<(Kind, string)>, start: Registry)
    requires Run(c, run) && Progressed(Last(run), start) && done <= Last(run).sync.todo
    ensures exists more :: Run(c, run + more) && DoneSince(Last(run), Last(run + more), done, start)
    decreases |done|
  {
    hide Run, StepTo, Progressed, PlannedPairs, Acted;
    NotEmpty(c, run);
    var s := Last(run);
    ProgressApplies(s, start);
    if done == {} {
      assert run + [] == run && s.sync.todo - done == s.sync.todo;
      assert DoneSince(s, Last(run + []), done, start);
    } else {
      var t :| t in done;
      var n := s.(sync := s.sync.(todo := s.sync.todo - {t}), registry := Acted(s.registry, s.sync.current, s.sync.next, t));
      ProgressGoesOn(c, s, n, t, start);
      RunGrows(c, run, n, SyncActs(t));
      var m := n.(tick := s.tick + 1);
      ProgressTick(n, start, s.tick + 1);
      AnyActsCanHappen(c, run + [m], done - {t}, start);
      var more :| Run(c, run + [m] + more) && DoneSince(m, Last(run + [m] + more), done - {t}, start);
      assert run + ([m] + more) == run + [m] + more;
      assert s.sync.todo - {t} - (done - {t}) == s.sync.todo - done;
      assert DoneSince(s, Last(run + ([m] + more)), done, start);
    }
  }

  lemma NotEmpty(c: Settings, run: seq<App>)
    requires Run(c, run)
    ensures run != []
  {}

  lemma ProgressApplies(s: App, start: Registry)
    requires Progressed(s, start)
    ensures s.sync.Applying?
  {}

  lemma ProgressTick(s: App, start: Registry, tick: nat)
    requires Progressed(s, start)
    ensures Progressed(s.(tick := tick), start)
  {}

  lemma AppliedAt(a: State, b: State, current: Snapshot, next: Snapshot, o: Outcome, log: seq<(Kind, string)>, k: Kind, id: string)
    requires Applied(a, b, current, next, o, log)
    ensures Look(b.Show(k), id) == Look(a.Show(k), id) ||
            (id in PlanOf(current, next, k) && Look(b.Show(k), id) == PlanOf(current, next, k)[id])
    ensures o.Done? && id in PlanOf(current, next, k) ==> Look(b.Show(k), id) == PlanOf(current, next, k)[id]
  {
    hide View, Consistent, Undisturbed, Kept, PlanOf;
    assert Between(a.Show(k), b.Show(k), PlanOf(current, next, k));
  }

  /** Whatever apply_snapshot does to the node, the machine can do to the map: all planned actions if it
      returned, some of them if it threw. */
  lemma ApplyIsASetOfActs(r: Registry, a: State, b: State, current: Snapshot, next: Snapshot, o: Outcome,
                          log: seq<(Kind, string)>)
    requires Shows(r, a) && Applied(a, b, current, next, o, log)
    ensures exists done :: done <= PlannedPairs(current, next) && Shows(ActedOn(r, current, next, done), b) &&
              (o.Done? ==> done == PlannedPairs(current, next))
  {
    hide View, Applied;
    var done := if o.Done? then PlannedPairs(current, next)
                else set t | t in PlannedPairs(current, next) && Look(b.Show(t.0), t.1) != Look(a.Show(t.0), t.1);
    forall t ensures LookUp(ActedOn(r, current, next, done), t) == Look(b.Show(t.0), t.1) {
      AppliedAt(a, b, current, next, o, log, t.0, t.1);
      assert t in PlannedPairs(current, next) <==> t.1 in PlanOf(current, next, t.0);
    }
    assert Shows(ActedOn(r, current, next, done), b);
  }

  /** The machine after an apply: past the store's update if the engine returned, failing if it threw. */
  ghost predicate AfterApply(s: App, z: App, next: Snapshot, b: State, o: Outcome)
    requires s.sync.Fetching?
  {
    && Shows(z.registry, b) && z.holder == s.holder
    && if o.Done? then z.sync.Leaving? && z.store == ApplySucceeded(s.store, s.sync.revision, next) && z.threw == s.threw
       else z.sync == Failing(s.sync.revision) && z.store == s.store && z.threw
  }

  lemma ApplyEnds(c: Settings, run: seq<App>, s: App, next: Snapshot, b: State, o: Outcome)
    requires Run(c, run) && s.sync.Fetching?
    requires var y := Last(run);
             y.sync.Applying? && y.sync.revision == s.sync.revision && y.sync.next == next && Shows(y.registry, b) &&
             y.holder == s.holder && y.store == s.store && y.threw == s.threw && (o.Done? ==> y.sync.todo == {})
    ensures exists more :: Run(c, run + more) && AfterApply(s, Last(run + more), next, b, o)
  {
    hide Run, Shows, ApplySucceeded;
    NotEmpty(c, run);
    var y := Last(run);
    var step := if o.Done? then SyncSucceeds else SyncThrows;
    var n := if o.Done?
             then y.(sync := Leaving, store := ApplySucceeded(y.store, y.sync.revision, next),
                     deeds := y.deeds + [Synced(y.sync.revision, next)], fetchedTick := y.fetchTick)
             else y.(sync := Failing(y.sync.revision), threw := true);
    RunGrows(c, run, n, step);
    var m := n.(tick := y.tick + 1);
    assert AfterApply(s, Last(run + [m]), next, b, o);
  }

  lemma WhenDone(m: App, z: App, done: set<(Kind, string)>, start: Registry)
    requires DoneSince(m, z, done, start) && m.sync.Applying?
    requires m.sync.todo == PlannedPairs(m.sync.current, m.sync.next) && done <= m.sync.todo
    ensures z.sync == m.sync.(todo := m.sync.todo - done) && z.registry == ActedOn(start, m.sync.current, m.sync.next, done)
    ensures z.holder == m.holder && z.store == m.store && z.threw == m.threw
  {
    hide PlannedPairs;
    assert m.sync.todo - (m.sync.todo - done) == done;
  }

  /** Whatever the engine does to the real node, some run of the machine does to its map. */
  lemma ApplyIsARun(c: Settings, run: seq<App>, a: State, b: State, next: Snapshot, o: Outcome, log: seq<(Kind, string)>)
    requires Run(c, run) && Last(run).sync.Fetching? && Shows(Last(run).registry, a)
    requires Applied(a, b, Last(run).sync.current, next, o, log)
    ensures exists more :: Run(c, run + more) && AfterApply(Last(run), Last(run + more), next, b, o)
  {
    hide Run, StepTo, Shows, Applied, PlannedPairs, Progressed, DoneSince, AfterApply, ActedOn;
    NotEmpty(c, run);
    var s := Last(run);
    var p := PlannedPairs(s.sync.current, next);
    ApplyIsASetOfActs(s.registry, a, b, s.sync.current, next, o, log);
    var done :| done <= p && Shows(ActedOn(s.registry, s.sync.current, next, done), b) && (o.Done? ==> done == p);
    var n := s.(sync := Applying(s.sync.revision, s.sync.current, next, p));
    ProgressBegins(c, s, n, next);
    RunGrows(c, run, n, SyncFetched(next));
    var m := n.(tick := s.tick + 1);
    var begun := run + [m];
    ProgressTick(n, s.registry, s.tick + 1);
    assert Last(begun) == m;
    AnyActsCanHappen(c, begun, done, s.registry);
    var acts :| Run(c, begun + acts) && DoneSince(m, Last(begun + acts), done, s.registry);
    WhenDone(m, Last(begun + acts), done, s.registry);
    ApplyEnds(c, begun + acts, s, next, b, o);
    var end :| Run(c, begun + acts + end) && AfterApply(s, Last(begun + acts + end), next, b, o);
    assert run + ([m] + acts + end) == begun + acts + end;
  }

  /** So the machine's invariant speaks of the real node: as long as nothing has thrown, a successful apply
      leaves it with exactly the ids of the new snapshot. */
  lemma ApplySettlesTheNode(c: Settings, run: seq<App>, a: State, b: State, next: Snapshot, log: seq<(Kind, string)>)
    requires Run(c, run) && Last(run).sync.Fetching? && Shows(Last(run).registry, a) && !Last(run).threw
    requires Applied(a, b, Last(run).sync.current, next, Done, log)
    ensures forall k :: b.Show(k).Keys == Ids(next.lists.Of(k))
  {
    hide Run, StepTo, Applied, View;
    NotEmpty(c, run);
    var s := Last(run);
    ApplyIsARun(c, run, a, b, next, Done, log);
    var more :| Run(c, run + more) && AfterApply(s, Last(run + more), next, b, Done);
    var z := Last(run + more);
    SystemAlways(c, run);
    SystemAlways(c, run + more);
    assert SystemInv(s) && SystemInv(z) && Settled(z);
    forall k, id ensures id in b.Show(k) <==> id in Ids(next.lists.Of(k)) {
      assert LookUp(z.registry, (k, id)) == Look(b.Show(k), id);
      assert (k, id) in z.registry <==> (k, id) in LiveOf(next.lists);
    }
  }

  /** drain_all takes from the node what the machine's drain takes from the map. */
  lemma DrainIsRemoval(r: Registry, a: State, b: State, s: Snapshot)
    requires Shows(r, a) && Drained(a, b, s)
    ensures Shows(r - LiveOf(s.lists), b)
  {
    hide View, Consistent;
    forall t ensures LookUp(r - LiveOf(s.lists), t) == Look(b.Show(t.0), t.1) {
      assert b.Show(t.0) == a.Show(t.0) - Ids(s.lists.Of(t.0));
    }
  }

  ghost predicate DrainedSince(s: App, z: App) {
    s.drain.Draining? && z == s.(drain := Draining({}), registry := s.registry - s.drain.todo, tick := z.tick)
  }

  /** The machine can carry out all that is left of a drain. */
  lemma {:induction false} DrainCanFinish(c: Settings, run: seq<App>)
    requires Run(c, run) && Last(run).drain.Draining?
    ensures exists more :: Run(c, run + more) && DrainedSince(Last(run), Last(run + more))
    decreases |Last(run).drain.todo|
  {
    hide Init, Next, StepTo;
    var s := Last(run);
    if s.drain.todo == {} {
      assert run + [] == run && s.registry - {} == s.registry;
      assert DrainedSince(s, Last(run + []));
    } else {
      var t :| t in s.drain.todo;
      var n := s.(drain := Draining(s.drain.todo - {t}), registry := s.registry - {t});
      DrainShape(c, s, t);
      RunGrows(c, run, n, DrainActs(t));
      var m := n.(tick := s.tick + 1);
      DrainCanFinish(c, run + [m]);
      var more :| Run(c, run + [m] + more) && DrainedSince(m, Last(run + [m] + more));
      assert run + ([m] + more) == run + [m] + more;
      assert s.registry - {t} - (s.drain.todo - {t}) == s.registry - s.drain.todo;
      assert DrainedSince(s, Last(run + ([m] + more)));
    }
  }

  lemma DrainShape(c: Settings, s: App, t: (Kind, string))
    requires s.drain.Draining? && t in s.drain.todo
    ensures StepTo(c, s, s.(drain := Draining(s.drain.todo - {t}), registry := s.registry - {t}), DrainActs(t))
  {}

  /** Whatever a drain does to the real node, some run of the machine does to its map. */
  lemma DrainIsARun(c: Settings, run: seq<App>, a: State, b: State, last: Snapshot)
    requires Run(c, run) && Last(run).drain == Draining(LiveOf(last.lists))
    requires Shows(Last(run).registry, a) && Drained(a, b, last)
    ensures exists more :: Run(c, run + more) && DrainedSince(Last(run), Last(run + more)) && Shows(Last(run + more).registry, b)
  {
    hide Run, Shows, Drained;
    NotEmpty(c, run);
    DrainIsRemoval(Last(run).registry, a, b, last);
    DrainCanFinish(c, run);
  }

  ghost predicate ShowsOneChanged(r: Registry, b: State, t: (Kind, string), config: Config) {
    t in r && Shows(r[t := config], b)
  }

  /** An IS-05 activation is an Activates step of the machine, or none. */
  lemma ActivationIsActivates(r: Registry, a: State, b: State, rid: ResourceId, e: Endpoint, seen: Option<Media>,
                              o: Outcome, fired: seq<Fired>)
    requires Consistent(a) && Shows(r, a) && ActivationDone(a, b, rid, e, seen, o, fired)
    ensures Shows(r, b) || exists t, config :: ShowsOneChanged(r, b, t, config)
  {
    hide View, EntryActivated, Agrees, UniqueIds, ReplaceById, Observe, Stamp;
    var target := TargetOf(a, rid);
    if target.Some? && RegistrySteps.Accepted(rid, e) {
      var t := target.value;
      EntryActivatedRecaches(a, b, t.0, t.1, e, seen, fired);
      RecachedValid(a, t.0, fired[0].entry);
      assert LookUp(r, t) == Look(a.Show(t.0), t.1);
      var config := b.Show(t.0)[t.1];
      forall t' ensures LookUp(r[t := config], t') == Look(b.Show(t'.0), t'.1) {
        assert LookUp(r, t') == Look(a.Show(t'.0), t'.1);
      }
      assert ShowsOneChanged(r, b, t, config);
    }
  }
}
