/** What a reconcile is meant to do to one kind of stream, apart from the order it does it in. Registered
    streams are seen as a map from id to configuration. */
module ReconcileModel {
  import opened Wrappers
  import opened Streams

  type Shown = map<string, Config>

  /** For each id a reconcile acts on, what should be registered afterwards: a configuration or nothing. */
  type Plan = map<string, Option<Config>>

  function Look(m: Shown, id: string): Option<Config> { if id in m then Some(m[id]) else None }

  /** reconcile_list compares the two lists, not the registry: it acts on the ids whose first items differ. */
  function PlanFor<R>(current: seq<Stream<R>>, next: seq<Stream<R>>): (p: Plan)
    ensures forall id :: id in p <==> Look(View(current), id) != Look(View(next), id)
    ensures forall id :: id in p ==> p[id] == Look(View(next), id)
  {
    map id | id in View(current).Keys + View(next).Keys && Look(View(current), id) != Look(View(next), id) ::
      Look(View(next), id)
  }

  /** The registry after every action of a plan. */
  function Overlay(m: Shown, p: Plan): (r: Shown)
    ensures forall id :: Look(r, id) == if id in p then p[id] else Look(m, id)
  {
    map id | id in m.Keys + p.Keys && (if id in p then p[id] else Look(m, id)).Some? ::
      (if id in p then p[id] else Look(m, id)).value
  }

  function Restrict(p: Plan, ids: set<string>): (r: Plan)
    ensures forall id :: id in r <==> id in p && id in ids
    ensures forall id :: id in r ==> r[id] == p[id]
  {
    map id | id in p && id in ids :: p[id]
  }

  lemma SameShown(a: Shown, b: Shown)
    requires forall id :: Look(a, id) == Look(b, id)
    ensures a == b
  {
    assert forall id :: id in a <==> Look(a, id).Some?;
    assert forall id :: id in b <==> Look(b, id).Some?;
    forall id | id in a ensures a[id] == b[id] {
      assert Look(a, id) == Look(b, id);
    }
  }

  /** One action: remove, or an update or add, which both file the configuration. */
  function Act(m: Shown, id: string, target: Option<Config>): Shown {
    if target.Some? then m[id := target.value] else m - {id}
  }

  lemma ActExtends(m: Shown, p: Plan, done: set<string>, id: string)
    requires id in p
    ensures Act(Overlay(m, Restrict(p, done)), id, p[id]) == Overlay(m, Restrict(p, done + {id}))
  {
    SameShown(Act(Overlay(m, Restrict(p, done)), id, p[id]), Overlay(m, Restrict(p, done + {id})));
  }

  /** Taking the actions one after another. */
  function Play(m: Shown, p: Plan, order: seq<string>): Shown
    requires forall id :: id in order ==> id in p
  {
    if order == [] then m else
    var last := |order| - 1;
    Act(Play(m, p, order[..last]), order[last], p[order[last]])
  }

  function Elems(xs: seq<string>): (r: set<string>)
    ensures forall x :: x in r <==> x in xs
  {
    set x | x in xs
  }

  /** The order of the actions does not matter: any order that covers the plan lands in the same place. */
  lemma {:induction false} OrderDoesNotMatter(m: Shown, p: Plan, order: seq<string>)
    requires forall id :: id in order ==> id in p
    ensures Play(m, p, order) == Overlay(m, Restrict(p, Elems(order)))
    ensures Elems(order) == p.Keys ==> Play(m, p, order) == Overlay(m, p)
  {
    if order == [] {
      SameShown(m, Overlay(m, Restrict(p, {})));
      assert Elems(order) == {};
    } else {
      var last := |order| - 1;
      OrderDoesNotMatter(m, p, order[..last]);
      ActExtends(m, p, Elems(order[..last]), order[last]);
      assert Elems(order) == Elems(order[..last]) + {order[last]} by {
        assert order == order[..last] + [order[last]];
      }
    }
    if Elems(order) == p.Keys {
      assert Restrict(p, Elems(order)) == p;
    }
  }

  /** The incremental diff lands where a full rebuild would, when the registry is what `current` says. */
  lemma DiffEqualsRebuild<R>(current: seq<Stream<R>>, next: seq<Stream<R>>)
    ensures Overlay(View(current), PlanFor(current, next)) == View(next)
    ensures Overlay(map[], PlanFor([], next)) == View(next)
  {
    var empty: seq<Stream<R>> := [];
    assert View(empty) == map[];
    SameShown(Overlay(View(current), PlanFor(current, next)), View(next));
    SameShown(Overlay(map[], PlanFor([], next)), View(next));
  }

  /** For a registry that may have drifted: the reconcile lands on `next` exactly when every registered id is
      in one of the two lists, and every item the two lists share unchanged is registered that way. */
  lemma LandsExactly<R>(m: Shown, current: seq<Stream<R>>, next: seq<Stream<R>>)
    ensures Overlay(m, PlanFor(current, next)) == View(next) <==>
            (forall id :: id in m ==> id in Ids(current) || id in Ids(next)) &&
            (forall id :: id in Ids(current) && Look(View(current), id) == Look(View(next), id) ==>
               Look(m, id) == Look(View(next), id))
  {
    var p := PlanFor(current, next);
    var out := Overlay(m, p);
    assert View(current).Keys == Ids(current) && View(next).Keys == Ids(next);
    if out == View(next) {
      forall id | id in m ensures id in Ids(current) || id in Ids(next) {
        assert Look(out, id) == Look(View(next), id);
      }
      forall id | id in Ids(current) && Look(View(current), id) == Look(View(next), id)
        ensures Look(m, id) == Look(View(next), id)
      {
        assert Look(out, id) == Look(View(next), id) && id !in p;
      }
    }
    if (forall id :: id in m ==> id in Ids(current) || id in Ids(next)) &&
       (forall id :: id in Ids(current) && Look(View(current), id) == Look(View(next), id) ==>
          Look(m, id) == Look(View(next), id)) {
      forall id ensures Look(out, id) == Look(View(next), id) {
        if id !in p && id !in Ids(current) {
          assert Look(View(current), id) == None;
          assert id !in m;
        }
      }
      SameShown(out, View(next));
    }
  }

  /** After a restart the last snapshot is forgotten while the node keeps its streams: the next reconcile lands
      on its snapshot exactly when every stream kept is still in it, for nothing else is ever removed. */
  lemma ForgottenSnapshotExactly<R>(m: Shown, next: seq<Stream<R>>)
    ensures Overlay(m, PlanFor([], next)) == View(next) <==> m.Keys <= Ids(next)
  {
    var empty: seq<Stream<R>> := [];
    LandsExactly(m, empty, next);
    assert Ids(empty) == {};
  }

  // ----- interrupted reconciles -----

  /** A registry an interrupted reconcile can leave: each id is as before or as planned. */
  ghost predicate Between(before: Shown, m: Shown, p: Plan) {
    forall id :: Look(m, id) == Look(before, id) || (id in p && Look(m, id) == p[id])
  }

  lemma BetweenCompose(a: Shown, b: Shown, c: Shown, p: Plan)
    requires Between(a, b, p) && Between(b, c, p)
    ensures Between(a, c, p)
  {}

  /** However often applying a plan is cut short, carrying it out again lands where an undisturbed run does. */
  lemma RetryConverges(before: Shown, m: Shown, p: Plan)
    requires Between(before, m, p)
    ensures Overlay(m, p) == Overlay(before, p)
  {
    SameShown(Overlay(m, p), Overlay(before, p));
  }

  /** Retrying with another snapshot is different: after an interrupted run from `current` towards `failed`,
      a reconcile from `current` to `next` lands on `next` exactly when the interrupted run added no id that
      neither list knows and has not already touched an item that the two lists share unchanged. */
  lemma OtherSnapshotExactly<R>(current: seq<Stream<R>>, failed: seq<Stream<R>>, next: seq<Stream<R>>, done: set<string>)
    ensures var p := PlanFor(current, failed);
            var m := Overlay(View(current), Restrict(p, done));
            Overlay(m, PlanFor(current, next)) == View(next) <==>
              forall id :: id in p && id in done ==>
                if id in Ids(current) then id in PlanFor(current, next) else id in Ids(next)
  {
    var p, q := PlanFor(current, failed), PlanFor(current, next);
    var m := Overlay(View(current), Restrict(p, done));
    assert View(current).Keys == Ids(current) && View(next).Keys == Ids(next) && View(failed).Keys == Ids(failed);
    LandsExactly(m, current, next);
    forall id
      ensures id in p && id in done && id !in Ids(current) ==> id in m
      ensures id in p && id in done ==> Look(m, id) == Look(View(failed), id) != Look(View(current), id)
      ensures !(id in p && id in done) ==> Look(m, id) == Look(View(current), id)
    {}
  }

  /** The simplest way it goes wrong: a stream is removed by the interrupted run, the next snapshot still has
      it unchanged, and it stays missing. */
  lemma OtherSnapshotCanLoseAStream(s: Stream<int>)
    ensures var p := PlanFor([s], []);
            var m := Overlay(View([s]), p);
            Overlay(m, PlanFor([s], [s])) != View([s])
  {
    ViewFirstWins([s], 0);
    var e: seq<Stream<int>> := [];
    assert View(e) == map[];
    assert s.id in PlanFor([s], e);
    var m := Overlay(View([s]), PlanFor([s], e));
    assert Look(m, s.id) == None;
    assert Look(Overlay(m, PlanFor([s], [s])), s.id) == None;
    assert Look(View([s]), s.id) == Some(s.config);
  }
}
