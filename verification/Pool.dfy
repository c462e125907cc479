/** The worker pool (order_event_worker_pool.go): the size of the pool, the work channel of that capacity,
and the workers receiving from it. Over whole runs the workers receive exactly the events that the pool has
taken, in that order, and every event received is reported back exactly once. */
module Pool {
  import opened Common
  import opened OrderEvents
  import opened Pipeline
  import Flight = SingleFlight

  const DEFAULT_POOL_SIZE := 2

  class OrderEventWorkerPool {
    var poolSize: nat
    var outgoingCh: seq<Event>
    var closed: bool
    var workers: seq<WorkerPc>

    predicate Valid()
      reads this
    {
      poolSize >= 1
    }

    /** A running pool as the work channel and the workers of a flow. */
    predicate Runs(f: Flow)
      reads this
    {
      outgoingCh == f.workCh && closed == f.workClosed && workers == f.workers && poolSize == |f.workers|
    }

    constructor ()
      ensures Valid() && poolSize == DEFAULT_POOL_SIZE && workers == []
    {
      poolSize, outgoingCh, closed, workers := DEFAULT_POOL_SIZE, [], true, [];
    }

    /** A pool never has less than one worker. */
    method SetPoolSize(size: nat)
      requires Valid()
      modifies this`poolSize
      ensures Valid() && poolSize == if size == 0 then 1 else size
    {
      poolSize := if size == 0 then 1 else size;
    }

    /** Starts the workers on a new channel with one place per worker: what Launch does to the flow. */
    method Start(ghost s: State)
      requires Valid() && s.flow.main == Launching
      modifies this
      ensures Valid() && poolSize == old(poolSize)
      ensures MainEnabled(s, Launch(poolSize)) && Runs(DoMain(s, Launch(poolSize)).flow)
      ensures |workers| == poolSize && (forall id :: 0 <= id < poolSize ==> workers[id] == Idle)
      ensures outgoingCh == [] && !closed
    {
      outgoingCh, closed, workers := [], false, [];
      for id := 0 to poolSize
        invariant workers == seq(id, _ => Idle)
        invariant poolSize == old(poolSize) && outgoingCh == [] && !closed
      {
        workers := workers + [Idle];
      }
    }

    /** Blocks while the channel is full; then what HandOver does to the flow. */
    method TakeEvent(ev: Event, ghost s: State)
      requires Valid() && Runs(s.flow) && s.flow.main == Handing(ev) && !closed
      requires |outgoingCh| < poolSize
      modifies this`outgoingCh
      ensures Valid() && MainEnabled(s, HandOver) && Runs(DoMain(s, HandOver).flow)
      ensures outgoingCh == old(outgoingCh) + [ev]
    {
      outgoingCh := outgoingCh + [ev];
    }

    /** The first part of Wait: no more work will come. */
    method CloseOutgoing(ghost s: State)
      requires Valid() && Runs(s.flow) && s.flow.main == Closing && !closed
      modifies this`closed
      ensures Valid() && MainEnabled(s, CloseWork) && Runs(DoMain(s, CloseWork).flow)
      ensures closed
    {
      closed := true;
    }
  }

  // ---- What goes in and what comes out ----

  ghost function HandedBy(s: State, step: Step): seq<Event>
    requires Enabled(s, step)
  {
    if step == OfMain(HandOver) then [s.flow.main.ev] else []
  }

  /** The events handed to the pool by the steps, in order. */
  ghost function Handed(s: State, steps: seq<Step>): seq<Event>
    requires After(s, steps).Some?
    decreases |steps|
  {
    if steps == [] then []
    else HandedBy(s, steps[0]) + Handed(Do(s, steps[0]), steps[1..])
  }

  predicate Receives(step: Step) {
    step.OfWorker? && step.workerStep.Receive?
  }

  predicate Reports(step: Step) {
    step.OfWorker? && step.workerStep.Send?
  }

  ghost function ReceivedBy(s: State, step: Step): seq<Event>
    requires Enabled(s, step)
  {
    if Receives(step) then [s.flow.workCh[0]] else []
  }

  /** The events received by any of the workers, in order. */
  ghost function Received(s: State, steps: seq<Step>): seq<Event>
    requires After(s, steps).Some?
    decreases |steps|
  {
    if steps == [] then []
    else ReceivedBy(s, steps[0]) + Received(Do(s, steps[0]), steps[1..])
  }

  /** How often the steps report an event of the order to the callback goroutine. */
  ghost function Reported(s: State, steps: seq<Step>, o: OrderId): nat
    requires After(s, steps).Some?
    decreases |steps|
  {
    if steps == [] then 0
    else (if Reports(steps[0]) then Flight.Is(s.flow.workers[steps[0].worker].ev, o) else 0)
         + Reported(Do(s, steps[0]), steps[1..], o)
  }

  /** The steps neither launch another pool nor end the process. */
  predicate SamePool(steps: seq<Step>) {
    forall k :: 0 <= k < |steps| ==> KeepsPool(steps[k])
  }

  predicate KeepsPool(step: Step) {
    !(step.OfMain? && step.mainStep.Launch?) && step != OfEnv(Crash)
  }

  lemma MainKeepsWork(s: State, step: MainStep)
    requires MainEnabled(s, step) && !step.Launch?
    ensures DoMain(s, step).flow.workCh == s.flow.workCh + if step == HandOver then [s.flow.main.ev] else []
    ensures DoMain(s, step).flow.workers == s.flow.workers
  {
  }

  lemma {:induction false} StepMovesWork(s: State, step: Step)
    requires Enabled(s, step) && KeepsPool(step)
    ensures s.flow.workCh + HandedBy(s, step) == ReceivedBy(s, step) + Do(s, step).flow.workCh
  {
    match step
    case OfMain(m) => MainKeepsWork(s, m);
    case _ =>
  }

  lemma QueueMovesCompose<T>(a: seq<T>, in1: seq<T>, out1: seq<T>, b: seq<T>, in2: seq<T>, out2: seq<T>, c: seq<T>)
    requires a + in1 == out1 + b && b + in2 == out2 + c
    ensures a + (in1 + in2) == (out1 + out2) + c
  {
    calc {
      a + (in1 + in2);
      (a + in1) + in2;
      out1 + (b + in2);
      out1 + (out2 + c);
      (out1 + out2) + c;
    }
  }

  /** What was in the work channel and what the pool takes is what the workers receive, in the same order,
  and what is left in the channel. */
  lemma {:induction false} WorkIsReceivedInOrder(s: State, steps: seq<Step>)
    requires After(s, steps).Some? && SamePool(steps)
    ensures s.flow.workCh + Handed(s, steps) == Received(s, steps) + After(s, steps).value.flow.workCh
    decreases |steps|
  {
    if steps != [] {
      var t, rest := Do(s, steps[0]), steps[1..];
      StepMovesWork(s, steps[0]);
      WorkIsReceivedInOrder(t, rest);
      QueueMovesCompose(s.flow.workCh, HandedBy(s, steps[0]), ReceivedBy(s, steps[0]), t.flow.workCh,
                        Handed(t, rest), Received(t, rest), After(t, rest).value.flow.workCh);
    } else {
      assert s.flow.workCh + [] == [] + s.flow.workCh;
    }
  }

  lemma {:induction false} WorkerMovesEvent(s: State, i: nat, step: WorkerStep, o: OrderId)
    requires WorkerEnabled(s, i, step)
    ensures Flight.InWorkers(s.flow.workers, o) + (if step.Receive? then Flight.Is(s.flow.workCh[0], o) else 0)
         == (if step.Send? then Flight.Is(s.flow.workers[i].ev, o) else 0)
            + Flight.InWorkers(DoWorker(s, i, step).flow.workers, o)
  {
    Flight.WorkerChanges(s.flow.workers, i, NextWorkerPc(s, i, step), o);
  }

  lemma {:induction false} StepMovesEvent(s: State, step: Step, o: OrderId)
    requires Enabled(s, step) && KeepsPool(step)
    ensures Flight.InWorkers(s.flow.workers, o) + Flight.InChannel(ReceivedBy(s, step), o)
         == (if Reports(step) then Flight.Is(s.flow.workers[step.worker].ev, o) else 0)
            + Flight.InWorkers(Do(s, step).flow.workers, o)
  {
    match step
    case OfMain(m) => MainKeepsWork(s, m);
    case OfWorker(i, w) => WorkerMovesEvent(s, i, w, o);
    case _ =>
  }

  lemma {:induction false} ChannelCounts(a: seq<Event>, b: seq<Event>, o: OrderId)
    ensures Flight.InChannel(a + b, o) == Flight.InChannel(a, o) + Flight.InChannel(b, o)
    decreases |a|
  {
    if a == [] {
      assert a + b == b;
    } else {
      assert (a + b)[1..] == a[1..] + b;
      ChannelCounts(a[1..], b, o);
    }
  }

  /** Every event that a worker receives is reported by a worker, unless one still has it. */
  lemma {:induction false} ReceivedEventsAreReported(s: State, steps: seq<Step>, o: OrderId)
    requires After(s, steps).Some? && SamePool(steps)
    ensures Flight.InWorkers(s.flow.workers, o) + Flight.InChannel(Received(s, steps), o)
         == Reported(s, steps, o) + Flight.InWorkers(After(s, steps).value.flow.workers, o)
    decreases |steps|
  {
    if steps != [] {
      StepMovesEvent(s, steps[0], o);
      ReceivedEventsAreReported(Do(s, steps[0]), steps[1..], o);
      ChannelCounts(ReceivedBy(s, steps[0]), Received(Do(s, steps[0]), steps[1..]), o);
    }
  }

  /** From its launch to the return of its run the pool neither loses nor duplicates work: the workers have
  received exactly the events handed over, in order, and have reported each of them exactly once. */
  lemma {:induction false} PoolFinishesItsWork(first: seq<Step>, poolSize: nat, steps: seq<Step>, o: OrderId)
    requires After(INITIAL, first).Some? && MainEnabled(After(INITIAL, first).value, Launch(poolSize))
    requires After(DoMain(After(INITIAL, first).value, Launch(poolSize)), steps).Some? && SamePool(steps)
    requires After(DoMain(After(INITIAL, first).value, Launch(poolSize)), steps).value.flow.main == Down
    ensures var s := DoMain(After(INITIAL, first).value, Launch(poolSize));
            && Received(s, steps) == Handed(s, steps)
            && Reported(s, steps, o) == Flight.InChannel(Handed(s, steps), o)
  {
    Flight.InitialInv();
    Flight.RunKeepsInv(INITIAL, first);
    var r := After(INITIAL, first).value;
    Flight.StepKeepsInv(r, OfMain(Launch(poolSize)));
    var s := DoMain(r, Launch(poolSize));
    Flight.RunKeepsInv(s, steps);
    var t := After(s, steps).value;
    WorkIsReceivedInOrder(s, steps);
    ReceivedEventsAreReported(s, steps, o);
    Flight.FreeWorkersHoldNothing(s.flow.workers, o);
    Flight.FreeWorkersHoldNothing(t.flow.workers, o);
    assert [] + Handed(s, steps) == Handed(s, steps);
    assert Received(s, steps) + [] == Received(s, steps);
  }
}
