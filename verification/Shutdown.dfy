/** Progress and shutdown: the bounded work and callback channels never block each other for good, and
after a cancel the work that is left only shrinks until Run returns, unless the run is blocked in its
start on the notification channel. */
module Shutdown {
  import opened Common
  import opened Tables
  import opened OrderEvents
  import opened Pipeline
  import opened ProcessorState
  import Flight = SingleFlight
  import StorageObject
  import Trigger
  import Worker

  // ---- No deadlock between the channels ----

  /** Steps that take an event to its next stage. */
  predicate MovesEvent(step: Step) {
    match step
    case OfMain(m) => m == ClearPending || m == HandOver
    case OfWorker(_, w) => w != Leave
    case OfCallback(c) => c != Quit
    case OfEnv(_) => false
  }

  lemma {:induction false} BusyWorkerCanMove(s: State, i: nat) returns (step: Step)
    requires i < |s.flow.workers| && Flight.Busy(s.flow.workers[i]) && s.flow.callbackCh == None
    ensures Enabled(s, step) && MovesEvent(step)
  {
    match s.flow.workers[i]
    case Taken(_) => step := OfWorker(i, CheckContext);
    case Checking(_) => step := OfWorker(i, ReadStatus(false));
    case Asking(_) => step := OfWorker(i, Ask(Worker.RequestFailed));
    case Marking(_, _) => step := OfWorker(i, Mark(Healthy));
    case Reporting(_, _) => step := OfWorker(i, Send);
  }

  lemma {:induction false} EngagedCallbackCanMove(s: State) returns (step: Step)
    requires Flight.Engaged(s.flow.callback)
    ensures Enabled(s, step) && MovesEvent(step)
  {
    match s.flow.callback
    case Deciding(_, _) => step := OfCallback(Decide(s.clock));
    case Enqueueing(_, _) => step := OfCallback(CheckAgain);
    case Postponing(_, _) => step := OfCallback(PutBack(Healthy));
    case Pending(_, _) => step := OfCallback(AddPending);
    case Leaving(_) => step := OfCallback(Release);
  }

  /** While any order is in flight, some stage can take its event further, whatever the pool size. */
  lemma {:induction false} SomeEventCanMove(s: State) returns (step: Step)
    requires Flight.Inv(s) && s.proc.inFlight != {}
    ensures Enabled(s, step) && MovesEvent(step)
  {
    var f, o := s.flow, Pick(s.proc.inFlight);
    assert Flight.FlightAt(s, o);
    if Flight.Engaged(f.callback) {
      step := EngagedCallbackCanMove(s);
    } else if f.callbackCh.Some? {
      step := OfCallback(TakeResult);
    } else if exists i :: 0 <= i < |f.workers| && Flight.Busy(f.workers[i]) {
      var i :| 0 <= i < |f.workers| && Flight.Busy(f.workers[i]);
      step := BusyWorkerCanMove(s, i);
    } else if f.workCh != [] {
      assert f.workers[0] == Idle;
      step := OfWorker(0, Receive);
    } else {
      Flight.FreeWorkersHoldNothing(f.workers, o);
      step := OfMain(if f.main.Unpending? then ClearPending else HandOver);
    }
  }

  /** No reachable state is stuck with orders in flight. */
  lemma {:induction false} NoDeadlock(steps: seq<Step>)
    requires After(INITIAL, steps).Some? && After(INITIAL, steps).value.proc.inFlight != {}
    ensures exists step :: Enabled(After(INITIAL, steps).value, step) && MovesEvent(step)
  {
    Flight.InitialInv();
    Flight.RunKeepsInv(INITIAL, steps);
    var step := SomeEventCanMove(After(INITIAL, steps).value);
  }

  // ---- The work left ----

  function MainWork(pc: MainPc): nat {
    match pc
    case Draining => 13
    case Signalling => 12
    case Launching => 11
    case Snapping => 24
    case Querying(_) => 23
    case Counting(_) => 22
    case Unpending(_) => 21
    case Handing(_) => 20
    case Starting => 8
    case Head => 7
    case Selecting => 6
    case Stopping => 5
    case Closing => 4
    case AwaitingWorkers => 3
    case AwaitingCallbacks => 2
    case Down => 0
  }

  function WorkerWork(pc: WorkerPc): nat {
    match pc
    case Exited => 0
    case Idle => 1
    case Taken(_) => 12
    case Checking(_) => 11
    case Asking(_) => 10
    case Marking(_, _) => 9
    case Reporting(_, _) => 8
  }

  function WorkersWork(pcs: seq<WorkerPc>): nat
    decreases |pcs|
  {
    if pcs == [] then 0 else WorkerWork(pcs[0]) + WorkersWork(pcs[1..])
  }

  function CallbackWork(pc: CallbackPc): nat {
    match pc
    case Absent => 0
    case Listening => 1
    case Deciding(_, _) => 6
    case Enqueueing(_, _) => 5
    case Postponing(_, _) => 4
    case Pending(_, _) => 3
    case Leaving(_) => 2
  }

  /** An upper bound on the steps a cancelled run still has to take, but for the workers it has yet to start. */
  function WorkLeft(f: Flow): nat {
    MainWork(f.main) + 12 * |f.workCh| + WorkersWork(f.workers)
    + (if f.callbackCh.Some? then 6 else 0) + CallbackWork(f.callback)
  }

  lemma {:induction false} WorkerWorkChanges(pcs: seq<WorkerPc>, i: nat, pc: WorkerPc)
    requires i < |pcs|
    ensures WorkersWork(pcs[i := pc]) == WorkersWork(pcs) - WorkerWork(pcs[i]) + WorkerWork(pc)
    decreases |pcs|
  {
    if i == 0 {
      assert pcs[i := pc][1..] == pcs[1..];
    } else {
      assert pcs[i := pc][1..] == pcs[1..][i - 1 := pc];
      WorkerWorkChanges(pcs[1..], i - 1, pc);
    }
  }

  /** The select of the main loop may still pick a notification or the timer before the cancel. */
  predicate TakesSignal(step: Step) {
    step == OfMain(TakeNotice) || step == OfMain(TakeTick)
  }

  /** Neither a new run nor a crash. */
  predicate SameRun(step: Step) {
    !(step.OfMain? && step.mainStep.StartRun?) && step != OfEnv(Crash)
  }

  /** What a step takes off the work left; launching a pool adds its workers. */
  function Progress(step: Step): int {
    if TakesSignal(step) then -1
    else if step.OfEnv? then 0
    else if step.OfMain? && step.mainStep.Launch? then 2 - step.mainStep.poolSize
    else 1
  }

  lemma {:induction false} WorkerReducesWork(s: State, i: nat, step: WorkerStep)
    requires WorkerEnabled(s, i, step)
    ensures WorkLeft(DoWorker(s, i, step).flow) + 1 <= WorkLeft(s.flow)
  {
    WorkerWorkChanges(s.flow.workers, i, NextWorkerPc(s, i, step));
  }

  lemma {:induction false} IdleWorkersWork(n: nat)
    ensures WorkersWork(seq(n, _ => Idle)) == n
    decreases n
  {
    if n > 0 {
      assert seq(n, _ => Idle)[1..] == seq(n - 1, _ => Idle);
      IdleWorkersWork(n - 1);
    }
  }

  lemma {:induction false} CancelledQueueStepReducesWork(s: State, step: MainStep)
    requires s.flow.cancelled && MainEnabled(s, step) && Flight.OfQueue(step)
    ensures WorkLeft(DoMain(s, step).flow) + 1 <= WorkLeft(s.flow)
    ensures DoMain(s, step).flow.cancelled
  {
  }

  lemma {:induction false} LaunchReducesWork(s: State, poolSize: nat)
    requires MainEnabled(s, Launch(poolSize))
    ensures WorkLeft(DoMain(s, Launch(poolSize)).flow) + 2 - poolSize <= WorkLeft(s.flow)
    ensures DoMain(s, Launch(poolSize)).flow.cancelled == s.flow.cancelled
  {
    IdleWorkersWork(poolSize);
  }

  lemma {:induction false} CancelledMainReducesWork(s: State, step: MainStep)
    requires s.flow.cancelled && MainEnabled(s, step) && !step.StartRun?
    ensures WorkLeft(DoMain(s, step).flow) + Progress(OfMain(step)) <= WorkLeft(s.flow)
    ensures DoMain(s, step).flow.cancelled
  {
    if Flight.OfQueue(step) {
      CancelledQueueStepReducesWork(s, step);
    } else if step.Launch? {
      LaunchReducesWork(s, step.poolSize);
    }
  }

  lemma {:induction false} CallbackReducesWork(s: State, step: CallbackStep)
    requires CallbackEnabled(s, step)
    ensures WorkLeft(DoCallback(s, step).flow) + 1 <= WorkLeft(s.flow)
  {
  }

  lemma {:induction false} CancelledStepReducesWork(s: State, step: Step)
    requires s.flow.cancelled && Enabled(s, step) && SameRun(step)
    ensures WorkLeft(Do(s, step).flow) + Progress(step) <= WorkLeft(s.flow)
    ensures Do(s, step).flow.cancelled
  {
    match step
    case OfMain(m) => CancelledMainReducesWork(s, m);
    case OfWorker(i, w) => WorkerReducesWork(s, i, w);
    case OfCallback(c) => CallbackReducesWork(s, c);
    case OfEnv(_) =>
  }

  function TotalProgress(steps: seq<Step>): int
    decreases |steps|
  {
    if steps == [] then 0 else Progress(steps[0]) + TotalProgress(steps[1..])
  }

  /** After a cancel, at whatever point of the run, it takes no more steps than the work it had left, plus
  two for every time its select picked a signal instead of the cancel, plus one per worker still started. */
  lemma {:induction false} CancelledRunsAreBounded(s: State, steps: seq<Step>)
    requires s.flow.cancelled
    requires After(s, steps).Some? && forall k :: 0 <= k < |steps| ==> SameRun(steps[k])
    ensures WorkLeft(After(s, steps).value.flow) + TotalProgress(steps) <= WorkLeft(s.flow)
    decreases |steps|
  {
    if steps != [] {
      CancelledStepReducesWork(s, steps[0]);
      CancelledRunsAreBounded(Do(s, steps[0]), steps[1..]);
    }
  }

  lemma {:induction false} QueryHasAnAnswer(s: State) returns (step: MainStep)
    requires s.flow.main.Querying?
    ensures MainEnabled(s, step) && (step.Found? || step.NoneFound?)
  {
    var db, exclude := s.books.db, s.flow.main.exclude;
    var candidates := set o | o in db.orders && StorageObject.Eligible(db, exclude, s.clock, o);
    if candidates == {} {
      assert forall o :: o in db.orders && StorageObject.Eligible(db, exclude, s.clock, o) ==> o in candidates;
      step := NoneFound;
    } else {
      var first := StorageObject.EarliestDue(db, candidates);
      assert forall o :: o in db.orders && StorageObject.Eligible(db, exclude, s.clock, o) ==> o in candidates;
      step := Found(first);
    }
  }

  lemma {:induction false} MainCanStop(s: State) returns (step: MainStep)
    requires Flight.FlowShape(s.flow) && s.flow.cancelled && !Flight.Resting(s.flow.main)
    requires !s.flow.main.Handing? && s.flow.main != AwaitingWorkers && s.flow.main != AwaitingCallbacks
    ensures MainEnabled(s, step) && step != TakeNotice && step != TakeTick && !step.StartRun?
  {
    match s.flow.main
    case Starting => step := BeginLoop;
    case Selecting => step := SeeCancel;
    case Head => step := CheckExpired;
    case Snapping => step := Snapshot;
    case Querying(_) => step := QueryHasAnAnswer(s);
    case Counting(_) => step := CountIn;
    case Unpending(_) => step := ClearPending;
    case Stopping => step := StopState;
    case Closing => step := CloseWork;
  }

  lemma HeldIsInFlight(s: State, o: OrderId)
    requires Flight.Inv(s) && Flight.Holders(s.flow, o) >= 1
    ensures o in s.proc.inFlight
  {
    assert Flight.FlightAt(s, o);
  }

  lemma {:induction false} AwaitedWorkersFinish(s: State) returns (step: Step)
    requires Flight.Inv(s) && s.proc.inFlight == {}
    requires s.flow.main == AwaitingWorkers || s.flow.main == AwaitingCallbacks
    ensures Enabled(s, step) && Progress(step) == 1 && SameRun(step)
  {
    var f := s.flow;
    if Flight.Engaged(f.callback) {
      HeldIsInFlight(s, f.callback.ev.order);
      assert false;
    } else if f.callbackCh.Some? {
      HeldIsInFlight(s, f.callbackCh.value.ev.order);
      assert false;
    } else if f.main == AwaitingCallbacks {
      step := if f.callback == Absent then OfMain(CallbacksGone) else OfCallback(Quit);
    } else if i :| 0 <= i < |f.workers| && f.workers[i] != Exited {
      step := AwaitedWorkerLeaves(s, i);
    } else {
      step := OfMain(WorkersGone);
    }
  }

  lemma {:induction false} AwaitedWorkerLeaves(s: State, i: nat) returns (step: Step)
    requires Flight.Inv(s) && s.proc.inFlight == {} && s.flow.main == AwaitingWorkers
    requires i < |s.flow.workers| && s.flow.workers[i] != Exited
    ensures Enabled(s, step) && Progress(step) == 1 && SameRun(step)
  {
    if Flight.Busy(s.flow.workers[i]) {
      Flight.WorkerHolds(s.flow.workers, i);
      HeldIsInFlight(s, s.flow.workers[i].ev.order);
      assert false;
    }
    if s.flow.workCh != [] {
      step := OfWorker(i, Receive);
    } else {
      step := OfWorker(i, Leave);
    }
  }

  /** A step that belongs to the run and brings it closer to its end. */
  predicate ClosesIn(step: Step) {
    ByItself(step) && Progress(step) == 1 && !(step.OfMain? && step.mainStep.Launch?)
  }

  /** A cancelled run past its start that has not returned yet always has a step that brings it closer to
  its end. */
  lemma {:induction false} CancelledRunCanProceed(s: State) returns (step: Step)
    requires Flight.Inv(s) && s.flow.cancelled && !Flight.Resting(s.flow.main)
    ensures Enabled(s, step) && ClosesIn(step)
  {
    if s.proc.inFlight != {} {
      step := SomeEventCanMove(s);
    } else if s.flow.main == AwaitingWorkers || s.flow.main == AwaitingCallbacks {
      step := AwaitedWorkersFinish(s);
    } else if s.flow.main.Handing? {
      HeldIsInFlight(s, s.flow.main.ev.order);
      assert false;
    } else {
      var m := MainCanStop(s);
      step := OfMain(m);
    }
  }

  lemma {:induction false} StartedRunCanReturn(s: State) returns (steps: seq<Step>)
    requires Flight.Inv(s) && s.flow.cancelled && (s.flow.main == Down || !Flight.Resting(s.flow.main))
    ensures After(s, steps).Some? && |steps| <= WorkLeft(s.flow)
    ensures forall k :: 0 <= k < |steps| ==> ClosesIn(steps[k])
    ensures var t := After(s, steps).value; t.flow.main == Down && Finished(t.proc)
    decreases WorkLeft(s.flow)
  {
    if s.flow.main == Down {
      steps := [];
      forall o
        ensures o !in s.proc.inFlight
      {
        assert Flight.FlightAt(s, o);
        Flight.RestingHoldsNothing(s, o);
      }
    } else {
      var step := CancelledRunCanProceed(s);
      CancelledStepReducesWork(s, step);
      Flight.StepKeepsInv(s, step);
      StartedRunStaysStarted(s, step);
      var rest := StartedRunCanReturn(Do(s, step));
      steps := [step] + rest;
      assert steps[1..] == rest;
    }
  }

  lemma MainStaysStarted(s: State, step: MainStep)
    requires !Flight.Resting(s.flow.main) && MainEnabled(s, step)
    ensures var pc := DoMain(s, step).flow.main; pc == Down || !Flight.Resting(pc)
  {
  }

  lemma WorkerLeavesMain(s: State, i: nat, step: WorkerStep)
    requires WorkerEnabled(s, i, step)
    ensures DoWorker(s, i, step).flow.main == s.flow.main
  {
  }

  lemma CallbackLeavesMain(s: State, step: CallbackStep)
    requires CallbackEnabled(s, step)
    ensures DoCallback(s, step).flow.main == s.flow.main
  {
  }

  lemma {:induction false} StartedRunStaysStarted(s: State, step: Step)
    requires !Flight.Resting(s.flow.main) && Enabled(s, step) && ByItself(step)
    ensures var pc := Do(s, step).flow.main; pc == Down || !Flight.Resting(pc)
  {
    match step
    case OfMain(m) => MainStaysStarted(s, m);
    case OfWorker(i, w) => WorkerLeavesMain(s, i, w);
    case OfCallback(c) => CallbackLeavesMain(s, c);
  }

  /** A cancelled run that is not blocked in its start can return by itself, whatever the size of its pool,
  within the work left and one step per worker; then nothing is in flight and nothing pending. */
  lemma {:induction false} CancelledRunCanReturn(s: State, poolSize: nat) returns (steps: seq<Step>)
    requires Flight.Inv(s) && s.flow.cancelled && !Trigger.Blocked(s) && poolSize >= 1
    ensures After(s, steps).Some? && |steps| <= WorkLeft(s.flow) + poolSize
    ensures Trigger.AllOfRun(steps, poolSize)
    ensures var t := After(s, steps).value; t.flow.main == Down && Finished(t.proc)
  {
    if s.flow.main == Down || !Flight.Resting(s.flow.main) {
      steps := StartedRunCanReturn(s);
    } else {
      var starting := Trigger.StartProceeds(s, poolSize);
      Flight.RunKeepsInv(s, starting);
      IdleWorkersWork(poolSize);
      var rest := StartedRunCanReturn(After(s, starting).value);
      AfterComposes(s, starting, rest);
      steps := starting + rest;
    }
  }

  /** A cancelled run returns by itself if and only if it is not blocked on its own notification. */
  lemma {:induction false} CancelledRunReturnsUnlessBlocked(s: State, poolSize: nat)
    requires Flight.Inv(s) && s.flow.cancelled && poolSize >= 1
    ensures Trigger.GetsTo(s, Down, poolSize) <==> !Trigger.Blocked(s)
  {
    if Trigger.Blocked(s) {
      if Trigger.GetsTo(s, Down, poolSize) {
        Trigger.BlockedGetsNowhere(s, Down, poolSize);
      }
    } else {
      var steps := CancelledRunCanReturn(s, poolSize);
    }
  }
}
