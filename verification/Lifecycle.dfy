/** The start/stop/worker lifecycle of Node::Impl (src/node.cpp) as a state machine: one caller of start and
    stop, and the worker threads it creates. A step is what a thread does under one hold of a lock. */
module Lifecycle {

  datatype Phase = Stopped | Starting | Running | Stopping

  /** The worker: not there; setting up, with `cleared` once it has lowered the shutdown flag; waiting in
      wait_for_stop_signal; past the wait, or past a failed set-up, on its way out; finished, to be joined. */
  datatype Worker = NoWorker | SettingUp(cleared: bool) | AwaitingStop | WindingDown | Exiting | Finished

  /** The caller: between calls, inside start waiting for the outcome, or at a point of stop. */
  datatype Caller = Idle | InStart | InStop1 | InStop2 | InStop3(joined: bool)

  /** What the last call returned. */
  datatype Result = NoResult | StartReturned(ok: bool, seen: Phase) | StopReturned(joined: bool)

  /** `spawned` and `reaped` count workers created and joined. */
  datatype Node = Node(
    phase: Phase,
    stopRequested: bool,
    shutdown: bool,
    needsReset: bool,
    joinable: bool,
    worker: Worker,
    caller: Caller,
    result: Result,
    spawned: nat,
    reaped: nat)

  ghost predicate Init(s: Node) {
    s.phase == Stopped && !s.stopRequested && !s.needsReset && !s.joinable && s.worker == NoWorker &&
    s.caller == Idle && s.result == NoResult && s.spawned == 0 && s.reaped == 0
  }

  datatype Step =
    | StartCalled(threadStarts: bool)
    | StartSees
    | StopCalled
    | StopShutsDown
    | StopJoins
    | StopSettles
    | WorkerClears
    | WorkerRuns
    | WorkerFailsEarly
    | WorkerFails
    | WorkerWakes
    | WorkerLeaves
    | WorkerExits

  function Returned(s: Node, r: Result): Node { s.(caller := Idle, result := r) }

  ghost predicate StepTo(s: Node, n: Node, step: Step) {
    match step
    // start(): decides under both locks, resets the model if needed and creates the thread
    case StartCalled(threadStarts) =>
      s.caller.Idle? &&
      (if s.phase.Running? then n == Returned(s, StartReturned(true, Running))
       else if s.phase.Starting? || s.phase.Stopping? || s.joinable then n == Returned(s, StartReturned(false, s.phase))
       else
         var m := s.(stopRequested := false, needsReset := false, shutdown := if s.needsReset then false else s.shutdown);
         if threadStarts then
           n == m.(phase := Starting, joinable := true, worker := SettingUp(false), spawned := s.spawned + 1, caller := InStart)
         else n == Returned(m.(phase := Stopped), StartReturned(false, Stopped)))
    // ... and waits until the phase is no longer Starting
    case StartSees => s.caller.InStart? && !s.phase.Starting? && n == Returned(s, StartReturned(s.phase.Running?, s.phase))
    // stop(): asks the worker to stop unless there is nothing to stop
    case StopCalled =>
      s.caller.Idle? &&
      n == (if s.phase.Stopped? then s else s.(phase := Stopping, stopRequested := true)).(caller := InStop1)
    case StopShutsDown => s.caller.InStop1? && n == s.(shutdown := true, caller := InStop2)
    // joins the worker if there is one to join; the join waits for it to finish
    case StopJoins =>
      s.caller.InStop2? && (s.joinable ==> s.worker.Finished?) &&
      n == s.(caller := InStop3(s.joinable), joinable := false,
              worker := if s.joinable then NoWorker else s.worker, reaped := if s.joinable then s.reaped + 1 else s.reaped)
    case StopSettles =>
      s.caller.InStop3? &&
      n == Returned(s.(phase := Stopped, stopRequested := false, needsReset := true), StopReturned(s.caller.joined))
    // the worker
    case WorkerClears => s.worker == SettingUp(false) && n == s.(worker := SettingUp(true), shutdown := false)
    case WorkerRuns =>
      s.worker == SettingUp(true) &&
      n == s.(worker := AwaitingStop, phase := if s.phase.Starting? then Running else s.phase)
    // no configuration file: returns before the catch-all that resets the phase
    case WorkerFailsEarly => s.worker == SettingUp(true) && n == s.(worker := Exiting)
    case WorkerFails => s.worker == SettingUp(true) && n == s.(worker := WindingDown)
    case WorkerWakes => s.worker.AwaitingStop? && s.stopRequested && n == s.(worker := WindingDown)
    case WorkerLeaves =>
      s.worker.WindingDown? && n == s.(worker := Exiting, phase := if s.phase.Starting? then Stopped else s.phase)
    case WorkerExits => s.worker.Exiting? && n == s.(worker := Finished, phase := Stopped, stopRequested := false)
  }

  ghost predicate Next(s: Node, n: Node) { exists step :: StepTo(s, n, step) }

  ghost predicate Run(run: seq<Node>) {
    |run| > 0 && Init(run[0]) && forall i :: 0 < i < |run| ==> Next(run[i - 1], run[i])
  }

  predicate Live(w: Worker) { !w.NoWorker? && !w.Finished? }

  ghost predicate Inv(s: Node) {
    // a worker is there exactly while the thread is joinable, so never more than one
    && (s.joinable <==> !s.worker.NoWorker?)
    && s.spawned == s.reaped + (if s.joinable then 1 else 0)
    // start waits only while its own worker decides the outcome
    && (s.phase.Starting? ==> s.caller.InStart? && (s.worker.SettingUp? || s.worker.WindingDown? || s.worker.Exiting?))
    && (s.caller.InStart? ==> s.joinable && !s.stopRequested && !s.phase.Stopping?)
    && (s.phase.Running? ==> s.worker.AwaitingStop?)
    && (s.worker.SettingUp? ==> s.phase.Starting?)
    // a request to stop stands until the worker has passed its wait
    && (s.phase.Stopping? ==> s.caller.InStop1? || s.caller.InStop2? || s.caller.InStop3?)
    && (s.worker.AwaitingStop? && (s.caller.InStop1? || s.caller.InStop2?) ==> s.stopRequested)
    && (s.worker.AwaitingStop? && !s.stopRequested ==> s.phase.Running?)
    && (s.stopRequested ==> s.phase.Stopping?)
    && (s.caller.InStop3? ==> !s.joinable)
    && (s.caller.InStop2? ==> s.shutdown)
    // what the last call reported
    && (s.result.StartReturned? ==> (s.result.ok <==> s.result.seen.Running?))
    && (s.result.StopReturned? && s.caller.Idle? ==>
          s.phase.Stopped? && !s.joinable && !s.stopRequested && s.needsReset && s.worker.NoWorker?)
  }

  lemma InvStep(s: Node, n: Node, step: Step)
    requires Inv(s) && StepTo(s, n, step)
    ensures Inv(n)
  {}

  lemma InvInit(s: Node)
    requires Init(s)
    ensures Inv(s)
  {}

  lemma {:induction false} InvAlways(run: seq<Node>)
    requires Run(run)
    ensures forall i :: 0 <= i < |run| ==> Inv(run[i])
  {
    hide Inv, StepTo, Init;
    var last := |run| - 1;
    if last == 0 {
      InvInit(run[0]);
    } else {
      InvAlways(run[..last]);
      assert Inv(run[..last][last - 1]);
      var step :| StepTo(run[last - 1], run[last], step);
      InvStep(run[last - 1], run[last], step);
    }
  }

  /** At most one worker is ever alive, and every worker but the present one has been joined. */
  lemma OneWorker(run: seq<Node>, i: nat)
    requires Run(run) && i < |run|
    ensures run[i].spawned - run[i].reaped == if run[i].worker.NoWorker? then 0 else 1
    ensures run[i].spawned - run[i].reaped <= 1
  {
    InvAlways(run);
    assert Inv(run[i]);
  }

  /** A stop request is cleared only once the worker has passed its wait or is gone. */
  lemma StopRequestStands(run: seq<Node>, i: nat)
    requires Run(run) && 0 < i < |run| && run[i - 1].stopRequested && !run[i].stopRequested
    ensures run[i].worker.Finished? || run[i].worker.NoWorker?
  {
    InvAlways(run);
    assert Inv(run[i - 1]) && Inv(run[i]);
    var step :| StepTo(run[i - 1], run[i], step);
  }

  /** However start returns, at once or after waiting, it reports success exactly if the node was running then;
      and then a worker is there, past its set-up, with nothing asking it to stop. */
  lemma StartReportsRunning(run: seq<Node>, i: nat, step: Step)
    requires Run(run) && 0 < i < |run| && StepTo(run[i - 1], run[i], step)
    requires (step.StartCalled? || step.StartSees?) && run[i].caller.Idle?
    ensures run[i].result.StartReturned? && (run[i].result.ok <==> run[i - 1].phase.Running?)
    ensures run[i].result.ok ==> run[i].joinable && run[i].worker.AwaitingStop? && !run[i].stopRequested
    ensures !run[i].result.ok && step.StartSees? ==> run[i].phase.Stopped? && !run[i].worker.AwaitingStop?
  {
    InvAlways(run);
    assert Inv(run[i - 1]) && Inv(run[i]);
  }

  /** A stop that returned leaves the node stopped, with no thread, no request and a model reset due; this
      stays so until the next call. */
  lemma StopIsComplete(run: seq<Node>, i: nat)
    requires Run(run) && i < |run| && run[i].caller.Idle? && run[i].result.StopReturned?
    ensures run[i].phase.Stopped? && !run[i].joinable && !run[i].stopRequested && run[i].needsReset
    ensures !Live(run[i].worker)
  {
    InvAlways(run);
    assert Inv(run[i]);
  }

  /** Only a later start lowers the shutdown flag a stop raised: its model reset, or the worker it made. */
  lemma ShutdownStands(run: seq<Node>, i: nat)
    requires Run(run) && 0 < i < |run| && run[i - 1].shutdown && !run[i].shutdown
    ensures run[i].phase.Starting? || (run[i - 1].caller.Idle? && run[i].result == StartReturned(false, Stopped))
  {
    InvAlways(run);
    assert Inv(run[i - 1]);
    var step :| StepTo(run[i - 1], run[i], step);
  }
}
