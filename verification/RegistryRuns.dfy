/** Runs of registry operations of any length, in any order. */
module RegistryRuns {
  import opened Wrappers
  import opened Naming
  import opened Streams
  import opened Resources
  import opened Publication
  import opened PtpClock
  import opened RegistryModel
  import opened RegistrySteps

  /** One call, with what it returned. The contracts of the methods in NodeRegistry are its meaning. */
  datatype Op =
    | Upsert(kind: Kind, item: Cached, r: Outcome)
    | Withdraw(kind: Kind, id: string)
    | Activation(rid: ResourceId, e: Endpoint, seen: Option<Media>, r: Outcome, fired: seq<Fired>)
    | NewInterfaces(ifs: seq<Interface>, done: Live)
    | NewClock(gmid: string, locked: bool, domain: int)

  ghost predicate OpStep(a: State, b: State, op: Op) {
    Consistent(a) && Consistent(b) &&
    match op
    case Upsert(k, item, r) => Upserted(a, b, k, item, r)
    case Withdraw(k, id) => Withdrawn(a, b, k, id)
    case Activation(rid, e, seen, r, fired) =>
      rid in a.pub.conn && |e.legs| == |a.pub.conn[rid].staged.legs| && ActivationDone(MadeActive(a, rid, e), b, rid, e, seen, r, fired)
    case NewInterfaces(ifs, done) => Refitted(a.(interfaces := ifs), b, done)
    case NewClock(gmid, locked, domain) => FilesRefreshed(Clocked(a, gmid, locked, domain), b)
  }

  /** A sender's update that was to turn redundancy on or off and threw. */
  predicate BrokenToggle(a: State, op: Op) {
    op.Upsert? && op.r.Threw? && IsSender(op.kind) && op.item.id in a.Show(op.kind) &&
    op.item.config.redundancy.present != a.Show(op.kind)[op.item.id].redundancy.present
  }

  ghost predicate OpRun(states: seq<State>, ops: seq<Op>) {
    |states| == |ops| + 1 && forall i :: 0 <= i < |ops| ==> OpStep(states[i], states[i + 1], ops[i])
  }

  lemma UpsertKeepsLegs(a: State, b: State, op: Op)
    requires op.Upsert? && OpStep(a, b, op) && !BrokenToggle(a, op) && LegsAgree(a) && !b.shutdown
    ensures LegsAgree(b)
  {
    hide LegsAgree, Agrees, View, SameElsewhere, CachesOk, ClockOk;
    if op.item.id !in a.Show(op.kind) {
      AddedValid(a, op.kind, op.item);
    } else if op.r.Done? {
      var tf :| b == Updated(a, op.kind, op.item, tf);
      UpdatedValid(a, op.kind, op.item, tf);
    } else {
      ThrowingUpdateBreaksLegsExactly(a, b, op.kind, op.item);
    }
  }

  lemma ActivationKeepsLegs(a: State, b: State, op: Op)
    requires op.Activation? && OpStep(a, b, op) && LegsAgree(a)
    ensures LegsAgree(b)
  {
    hide LegsAgree, ActivationDone;
    MadeActiveValid(a, op.rid, op.e);
    ActivationLegs(MadeActive(a, op.rid, op.e), b, op.rid, op.e, op.seen, op.r, op.fired);
  }

  lemma InterfacesKeepLegs(a: State, b: State, op: Op)
    requires op.NewInterfaces? && OpStep(a, b, op) && LegsAgree(a) && !b.shutdown
    ensures LegsAgree(b)
  {
    hide BuiltAt, View, Consistent;
    assert forall k, id :: LegsAgreeAt(a, k, id) ==> LegsAgreeAt(a.(interfaces := op.ifs), k, id);
  }

  lemma StepKeepsLegs(a: State, b: State, op: Op)
    requires OpStep(a, b, op) && !BrokenToggle(a, op) && LegsAgree(a) && !b.shutdown
    ensures LegsAgree(b) && !a.shutdown
  {
    hide LegsAgree, Agrees, View, SameElsewhere, ActivationDone, Normalize;
    match op
    case Upsert(k, item, r) => UpsertKeepsLegs(a, b, op);
    case Withdraw(k, id) =>
      if id in a.Show(k) {
        RemovedValid(a, k, id);
      }
    case Activation(rid, e, seen, r, fired) =>
      ActivationKeepsLegs(a, b, op);
      ActivationNoShutdown(a, b, op);
    case NewInterfaces(ifs, done) => InterfacesKeepLegs(a, b, op);
    case NewClock(gmid, locked, domain) =>
      ClockedLegs(a, gmid, locked, domain);
      FilesLegs(Clocked(a, gmid, locked, domain), b);
  }

  lemma ActivationNoShutdown(a: State, b: State, op: Op)
    requires op.Activation? && OpStep(a, b, op)
    ensures b.shutdown == a.shutdown
  {
    hide Consistent, Accepted, TargetOf;
  }

  /** SMPTE ST 2022-7 over whole runs: starting from agreement, after any calls, thrown or not, except updates
      that were to turn a sender's redundancy on or off and threw, every cached stream has two staged and two
      active legs if it is redundant and one of each if not, as long as the node is up. */
  lemma {:induction false} LegsAgreeThroughout(states: seq<State>, ops: seq<Op>)
    requires OpRun(states, ops) && LegsAgree(states[0])
    requires forall i :: 0 <= i < |ops| ==> !BrokenToggle(states[i], ops[i])
    requires !states[|ops|].shutdown
    ensures LegsAgree(states[|ops|])
  {
    hide LegsAgree, OpStep, BrokenToggle;
    var n := |ops| - 1;
    if n >= 0 {
      assert OpStep(states[n], states[n + 1], ops[n]);
      ShutdownIsForGood(states[n], states[n + 1], ops[n]);
      LegsAgreeThroughout(states[..n + 1], ops[..n]);
      StepKeepsLegs(states[n], states[n + 1], ops[n]);
    }
  }

  lemma ShutdownIsForGood(a: State, b: State, op: Op)
    requires OpStep(a, b, op)
    ensures a.shutdown ==> b.shutdown
  {
    hide Consistent, Accepted, TargetOf, LegsAgree, BuiltAt, SameElsewhere;
  }

  lemma BrokenConnection(a: State, k: Kind, item: Cached)
    requires ConnId(a.seed, k, item.id) in a.pub.conn && item.id in a.Show(k)
    ensures var b := Rebuilt(a, k, item.id, item.config, "");
            LegsAgreeAt(b, k, item.id) <==> item.config.redundancy.present == a.Show(k)[item.id].redundancy.present
  {
    hide View;
    var b := Rebuilt(a, k, item.id, item.config, "");
    var x := ConnId(a.seed, k, item.id);
    assert b.Show(k) == a.Show(k);
    assert x in b.pub.conn && |b.pub.conn[x].staged.legs| == |b.pub.conn[x].active.legs| == LegCount(item.config);
  }

  lemma RebuiltShow(a: State, k: Kind, item: Cached)
    requires ConnId(a.seed, k, item.id) in a.pub.conn
    ensures var b := Rebuilt(a, k, item.id, item.config, ""); b.seed == a.seed && forall k' :: b.Show(k') == a.Show(k')
  {
    hide View, RebuiltIn;
  }

  lemma RebuiltBreaksLegsExactly(a: State, k: Kind, item: Cached)
    requires Consistent(a) && !a.shutdown && LegsAgree(a) && item.id in a.Show(k)
    ensures ConnId(a.seed, k, item.id) in a.pub.conn
    ensures LegsAgree(Rebuilt(a, k, item.id, item.config, "")) <==>
            item.config.redundancy.present == a.Show(k)[item.id].redundancy.present
  {
    hide Consistent, View, RebuiltIn, SameElsewhere, Rebuilt, LegsAgreeAt;
    RebuiltValid(a, k, item.id, item.config, "");
    BrokenConnection(a, k, item);
    RebuiltShow(a, k, item);
    if item.config.redundancy.present == a.Show(k)[item.id].redundancy.present {
      LegsCarryOver(a, Rebuilt(a, k, item.id, item.config, ""), k, item.id);
    } else {
      assert !LegsAgreeAt(Rebuilt(a, k, item.id, item.config, ""), k, item.id);
    }
  }

  /** What an update that throws does to the leg counts. If it got no further than building it did nothing, and
      a receiver's never gets further. If it threw at its transport file the connection is rebuilt with the new
      leg count while the cache keeps the old configuration: wrong exactly if redundancy was to change. */
  lemma ThrowingUpdateBreaksLegsExactly(a: State, b: State, k: Kind, item: Cached)
    requires Consistent(a) && !a.shutdown && LegsAgree(a) && item.id in a.Show(k)
    requires Upserted(a, b, k, item, Threw)
    ensures LegsAgree(b) <==> b == a || item.config.redundancy.present == a.Show(k)[item.id].redundancy.present
    ensures !IsSender(k) ==> b == a
  {
    hide Consistent, LegsAgree, View, SameElsewhere, Rebuilt;
    RebuiltBreaksLegsExactly(a, k, item);
  }
}
