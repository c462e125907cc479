/** No order is processed twice at the same time: the in-flight set and the events held by the stages
of the pipeline correspond one to one, in every reachable state. Also the states of the channels and
goroutines that go with each point of Run. */
module SingleFlight {
  import opened Common
  import opened OrderEvents
  import opened Pipeline
  import opened ProcessorState

  // ---- How often an order is held ----

  function Is(ev: Event, o: OrderId): nat {
    if ev.order == o then 1 else 0
  }

  predicate Carrying(pc: MainPc) {
    pc.Unpending? || pc.Handing?
  }

  function InMain(pc: MainPc, o: OrderId): nat {
    if Carrying(pc) then Is(pc.ev, o) else 0
  }

  function InChannel(ch: seq<Event>, o: OrderId): nat
    decreases |ch|
  {
    if ch == [] then 0 else Is(ch[0], o) + InChannel(ch[1..], o)
  }

  predicate Busy(pc: WorkerPc) {
    pc != Exited && pc != Idle
  }

  function InWorker(pc: WorkerPc, o: OrderId): nat {
    if Busy(pc) then Is(pc.ev, o) else 0
  }

  function InWorkers(pcs: seq<WorkerPc>, o: OrderId): nat
    decreases |pcs|
  {
    if pcs == [] then 0 else InWorker(pcs[0], o) + InWorkers(pcs[1..], o)
  }

  function InResult(ch: Option<Result>, o: OrderId): nat {
    if ch.Some? then Is(ch.value.ev, o) else 0
  }

  predicate Engaged(pc: CallbackPc) {
    pc != Absent && pc != Listening
  }

  function InCallback(pc: CallbackPc, o: OrderId): nat {
    if Engaged(pc) then Is(pc.ev, o) else 0
  }

  /** How many of the main goroutine, the work channel's places, the workers, the callback channel and
  the callback goroutine hold an event of the order. */
  function Holders(f: Flow, o: OrderId): nat {
    InMain(f.main, o) + InChannel(f.workCh, o) + InWorkers(f.workers, o)
    + InResult(f.callbackCh, o) + InCallback(f.callback, o)
  }

  lemma {:induction false} ChannelAppends(ch: seq<Event>, ev: Event, o: OrderId)
    ensures InChannel(ch + [ev], o) == InChannel(ch, o) + Is(ev, o)
    decreases |ch|
  {
    if ch == [] {
      assert ch + [ev] == [ev];
    } else {
      assert (ch + [ev])[1..] == ch[1..] + [ev];
      ChannelAppends(ch[1..], ev, o);
    }
  }

  lemma {:induction false} WorkerChanges(pcs: seq<WorkerPc>, i: nat, pc: WorkerPc, o: OrderId)
    requires i < |pcs|
    ensures InWorkers(pcs[i := pc], o) == InWorkers(pcs, o) - InWorker(pcs[i], o) + InWorker(pc, o)
    decreases |pcs|
  {
    if i == 0 {
      assert pcs[i := pc][1..] == pcs[1..];
    } else {
      assert pcs[i := pc][1..] == pcs[1..][i - 1 := pc];
      WorkerChanges(pcs[1..], i - 1, pc, o);
    }
  }

  lemma {:induction false} FreeWorkersHoldNothing(pcs: seq<WorkerPc>, o: OrderId)
    requires forall i :: 0 <= i < |pcs| ==> !Busy(pcs[i])
    ensures InWorkers(pcs, o) == 0
    decreases |pcs|
  {
    if pcs != [] {
      FreeWorkersHoldNothing(pcs[1..], o);
    }
  }

  lemma {:induction false} ChannelHolds(ch: seq<Event>, k: nat)
    requires k < |ch|
    ensures InChannel(ch, ch[k].order) >= 1
    decreases k
  {
    if k > 0 {
      ChannelHolds(ch[1..], k - 1);
    }
  }

  lemma {:induction false} WorkerHolds(pcs: seq<WorkerPc>, i: nat)
    requires i < |pcs| && Busy(pcs[i])
    ensures InWorkers(pcs, pcs[i].ev.order) >= 1
  {
    WorkerChanges(pcs, i, Idle, pcs[i].ev.order);
  }

  lemma {:induction false} TwoBusyWorkers(pcs: seq<WorkerPc>, i: nat, j: nat)
    requires i < |pcs| && j < |pcs| && i != j && Busy(pcs[i]) && Busy(pcs[j])
    requires pcs[i].ev.order == pcs[j].ev.order
    ensures InWorkers(pcs, pcs[i].ev.order) >= 2
  {
    WorkerChanges(pcs, i, Idle, pcs[i].ev.order);
    WorkerHolds(pcs[i := Idle], j);
  }

  // ---- The state of the goroutines and channels at each point of Run ----

  /** Between runs, and in a run before its goroutines are started. */
  predicate Resting(pc: MainPc) {
    pc == Down || pc == Draining || pc == Signalling || pc == Launching
  }

  /** From the start of the goroutines to the closing of the work channel. */
  predicate Working(pc: MainPc) {
    !Resting(pc) && pc != AwaitingWorkers && pc != AwaitingCallbacks
  }

  predicate NoneExited(workers: seq<WorkerPc>) {
    forall i :: 0 <= i < |workers| ==> workers[i] != Exited
  }

  predicate FlowShape(f: Flow) {
    && |f.workCh| <= |f.workers|
    && (Resting(f.main) ==> f.workCh == [] && AllExited(f.workers) && f.callbackCh == None && f.callback == Absent)
    && (Working(f.main) ==>
          |f.workers| >= 1 && !f.workClosed && !f.callbackClosed && f.callback != Absent && NoneExited(f.workers))
    && (f.main == AwaitingWorkers ==>
          && |f.workers| >= 1 && f.workClosed && !f.callbackClosed && f.callback != Absent
          && (f.workCh == [] || NoneExited(f.workers)))
    && (f.main == AwaitingCallbacks ==>
          && f.callbackClosed && f.workCh == [] && AllExited(f.workers)
          && (f.callback == Absent ==> f.callbackCh == None))
  }

  predicate ShapeInv(s: State) {
    && FlowShape(s.flow)
    && (s.proc.running <==> Working(s.flow.main) && s.flow.main != Starting && s.flow.main != Closing)
    && (!s.proc.running ==> s.proc.pending == map[])
  }

  /** The steps of processQueue, as opposed to those of starting and stopping a run. */
  predicate OfQueue(step: MainStep) {
    step.CheckExpired? || step.Snapshot? || step.Found? || step.NoneFound? || step.QueryFails?
    || step.CountIn? || step.ClearPending? || step.HandOver?
  }

  lemma {:induction false} QueueStepKeepsShape(s: State, step: MainStep)
    requires ShapeInv(s) && MainEnabled(s, step) && OfQueue(step)
    ensures ShapeInv(DoMain(s, step))
  {
  }

  /** The steps that end a run. */
  predicate OfEnd(step: MainStep) {
    step.StopState? || step.CloseWork? || step.WorkersGone? || step.CallbacksGone?
  }

  lemma {:induction false} EndStepKeepsShape(s: State, step: MainStep)
    requires ShapeInv(s) && MainEnabled(s, step) && OfEnd(step)
    ensures ShapeInv(DoMain(s, step))
  {
    if step == WorkersGone {
      assert s.flow.workers[0] == Exited;
    }
  }

  lemma {:induction false} RunStepKeepsShape(s: State, step: MainStep)
    requires ShapeInv(s) && MainEnabled(s, step) && !OfQueue(step)
    ensures ShapeInv(DoMain(s, step))
  {
    if OfEnd(step) {
      EndStepKeepsShape(s, step);
    }
  }

  lemma {:induction false} WorkerKeepsShape(s: State, i: nat, step: WorkerStep)
    requires ShapeInv(s) && WorkerEnabled(s, i, step)
    ensures ShapeInv(DoWorker(s, i, step))
  {
  }

  lemma {:induction false} CallbackKeepsShape(s: State, step: CallbackStep)
    requires ShapeInv(s) && CallbackEnabled(s, step)
    ensures ShapeInv(DoCallback(s, step))
  {
  }

  lemma {:induction false} EnvKeepsShape(s: State, step: EnvStep)
    requires ShapeInv(s) && EnvEnabled(s, step)
    ensures ShapeInv(DoEnv(s, step))
  {
  }

  // ---- Single flight ----

  /** An order in flight has exactly one holder, any other order has none. The query excludes all orders
  in flight, so the one it finds has no holder yet, although it is only added two steps later. */
  predicate FlightAt(s: State, o: OrderId) {
    && Holders(s.flow, o) == (if o in s.proc.inFlight then 1 else 0)
    && (s.flow.main.Querying? && o in s.proc.inFlight ==> o in s.flow.main.exclude)
    && (s.flow.main.Counting? && o in s.proc.inFlight ==> o != s.flow.main.ev.order)
    && (s.seen.quiet ==> o !in s.proc.inFlight && o !in s.proc.pending)
  }

  lemma {:induction false} RestingHoldsNothing(s: State, o: OrderId)
    requires FlowShape(s.flow) && Resting(s.flow.main)
    ensures Holders(s.flow, o) == 0
  {
    FreeWorkersHoldNothing(s.flow.workers, o);
  }

  lemma {:induction false} LaunchKeepsFlight(s: State, poolSize: nat, o: OrderId)
    requires ShapeInv(s) && FlightAt(s, o) && MainEnabled(s, Launch(poolSize))
    ensures FlightAt(DoMain(s, Launch(poolSize)), o)
  {
    RestingHoldsNothing(s, o);
    FreeWorkersHoldNothing(seq(poolSize, _ => Idle), o);
  }

  lemma {:induction false} HandOverKeepsFlight(s: State, o: OrderId)
    requires FlightAt(s, o) && MainEnabled(s, HandOver)
    ensures FlightAt(DoMain(s, HandOver), o)
  {
    ChannelAppends(s.flow.workCh, s.flow.main.ev, o);
  }

  lemma {:induction false} QueueStepKeepsFlight(s: State, step: MainStep, o: OrderId)
    requires FlightAt(s, o) && MainEnabled(s, step) && OfQueue(step)
    ensures FlightAt(DoMain(s, step), o)
  {
    if step == HandOver {
      HandOverKeepsFlight(s, o);
    }
  }

  lemma {:induction false} RunStepKeepsFlight(s: State, step: MainStep, o: OrderId)
    requires ShapeInv(s) && FlightAt(s, o) && MainEnabled(s, step) && !OfQueue(step)
    ensures FlightAt(DoMain(s, step), o)
  {
    match step
    case Launch(poolSize) => LaunchKeepsFlight(s, poolSize, o);
    case StartRun(_) => RestingHoldsNothing(s, o);
    case _ =>
  }

  /** A worker passes its event on or keeps it. */
  lemma {:induction false} WorkerKeepsHolders(s: State, i: nat, step: WorkerStep, o: OrderId)
    requires WorkerEnabled(s, i, step)
    ensures Holders(DoWorker(s, i, step).flow, o) == Holders(s.flow, o)
  {
    WorkerChanges(s.flow.workers, i, NextWorkerPc(s, i, step), o);
  }

  lemma {:induction false} WorkerKeepsFlight(s: State, i: nat, step: WorkerStep, o: OrderId)
    requires FlightAt(s, o) && WorkerEnabled(s, i, step)
    ensures FlightAt(DoWorker(s, i, step), o)
  {
    WorkerKeepsHolders(s, i, step, o);
  }

  lemma {:induction false} CallbackKeepsFlight(s: State, step: CallbackStep, o: OrderId)
    requires ShapeInv(s) && FlightAt(s, o) && CallbackEnabled(s, step)
    ensures FlightAt(DoCallback(s, step), o)
  {
  }

  lemma {:induction false} EnvKeepsFlight(s: State, step: EnvStep, o: OrderId)
    requires FlightAt(s, o) && EnvEnabled(s, step)
    ensures FlightAt(DoEnv(s, step), o)
  {
  }

  // ---- Every reachable state ----

  ghost predicate Inv(s: State) {
    ShapeInv(s) && forall o :: FlightAt(s, o)
  }

  lemma {:induction false} StepKeepsInv(s: State, step: Step)
    requires Inv(s) && Enabled(s, step)
    ensures Inv(Do(s, step))
  {
    match step
    case OfMain(m) =>
      if OfQueue(m) {
        QueueStepKeepsShape(s, m);
        forall o ensures FlightAt(DoMain(s, m), o) { QueueStepKeepsFlight(s, m, o); }
      } else {
        RunStepKeepsShape(s, m);
        forall o ensures FlightAt(DoMain(s, m), o) { RunStepKeepsFlight(s, m, o); }
      }
    case OfWorker(i, w) =>
      WorkerKeepsShape(s, i, w);
      forall o ensures FlightAt(DoWorker(s, i, w), o) { WorkerKeepsFlight(s, i, w, o); }
    case OfCallback(c) =>
      CallbackKeepsShape(s, c);
      forall o ensures FlightAt(DoCallback(s, c), o) { CallbackKeepsFlight(s, c, o); }
    case OfEnv(e) =>
      EnvKeepsShape(s, e);
      forall o ensures FlightAt(DoEnv(s, e), o) { EnvKeepsFlight(s, e, o); }
  }

  lemma {:induction false} RunKeepsInv(s: State, steps: seq<Step>)
    requires Inv(s) && After(s, steps).Some?
    ensures Inv(After(s, steps).value)
    decreases |steps|
  {
    if steps != [] {
      StepKeepsInv(s, steps[0]);
      RunKeepsInv(Do(s, steps[0]), steps[1..]);
    }
  }

  lemma InitialInv()
    ensures Inv(INITIAL)
  {
  }

  /** In every reachable state every order in flight is held exactly once and no other order is held. */
  lemma {:induction false} SingleFlight(steps: seq<Step>, o: OrderId)
    requires After(INITIAL, steps).Some?
    ensures var s := After(INITIAL, steps).value;
            Holders(s.flow, o) == if o in s.proc.inFlight then 1 else 0
  {
    InitialInv();
    RunKeepsInv(INITIAL, steps);
    assert FlightAt(After(INITIAL, steps).value, o);
  }

  // ---- Size of the in-flight set ----

  function ChannelOrders(ch: seq<Event>): set<OrderId>
    decreases |ch|
  {
    if ch == [] then {} else {ch[0].order} + ChannelOrders(ch[1..])
  }

  function WorkerOrders(pcs: seq<WorkerPc>): set<OrderId>
    decreases |pcs|
  {
    if pcs == [] then {}
    else (if Busy(pcs[0]) then {pcs[0].ev.order} else {}) + WorkerOrders(pcs[1..])
  }

  lemma {:induction false} ChannelOrdersCover(ch: seq<Event>, o: OrderId)
    ensures |ChannelOrders(ch)| <= |ch|
    ensures InChannel(ch, o) > 0 ==> o in ChannelOrders(ch)
    decreases |ch|
  {
    if ch != [] {
      ChannelOrdersCover(ch[1..], o);
    }
  }

  lemma {:induction false} WorkerOrdersCover(pcs: seq<WorkerPc>, o: OrderId)
    ensures |WorkerOrders(pcs)| <= |pcs|
    ensures InWorkers(pcs, o) > 0 ==> o in WorkerOrders(pcs)
    decreases |pcs|
  {
    if pcs != [] {
      WorkerOrdersCover(pcs[1..], o);
    }
  }

  lemma {:induction false} SubsetSize(small: set<OrderId>, large: set<OrderId>)
    requires small <= large
    ensures |small| <= |large|
    decreases small
  {
    if small != {} {
      var o := Pick(small);
      SubsetSize(small - {o}, large - {o});
    }
  }

  lemma {:induction false} FlowBoundsInFlight(s: State)
    requires FlowShape(s.flow) && forall o :: FlightAt(s, o)
    ensures |s.proc.inFlight| <= 2 * |s.flow.workers| + 3
  {
    var f := s.flow;
    var main := if Carrying(f.main) then {f.main.ev.order} else {};
    var result := if f.callbackCh.Some? then {f.callbackCh.value.ev.order} else {};
    var callback := if Engaged(f.callback) then {f.callback.ev.order} else {};
    var all := main + ChannelOrders(f.workCh) + WorkerOrders(f.workers) + result + callback;
    forall o | o in s.proc.inFlight
      ensures o in all
    {
      assert FlightAt(s, o);
      ChannelOrdersCover(f.workCh, o);
      WorkerOrdersCover(f.workers, o);
    }
    ChannelOrdersCover(f.workCh, 0);
    WorkerOrdersCover(f.workers, 0);
    SubsetSize(s.proc.inFlight, all);
  }

  /** At most two events per worker and three more are in flight. */
  lemma {:induction false} InFlightIsBounded(steps: seq<Step>)
    requires After(INITIAL, steps).Some?
    ensures var s := After(INITIAL, steps).value; |s.proc.inFlight| <= 2 * |s.flow.workers| + 3
  {
    InitialInv();
    RunKeepsInv(INITIAL, steps);
    FlowBoundsInFlight(After(INITIAL, steps).value);
  }

  // ---- Channels are not used after they are closed ----

  /** Whoever is about to send on the work or the callback channel finds it open. */
  lemma {:induction false} SendsFindTheirChannelOpen(steps: seq<Step>, i: nat)
    requires After(INITIAL, steps).Some?
    ensures var f := After(INITIAL, steps).value.flow;
            && (f.main.Handing? ==> !f.workClosed)
            && (f.main == Closing ==> !f.workClosed)
            && (f.main == AwaitingWorkers ==> !f.callbackClosed)
            && (i < |f.workers| && Busy(f.workers[i]) ==> !f.callbackClosed)
  {
    InitialInv();
    RunKeepsInv(INITIAL, steps);
  }

  // ---- Between runs ----

  /** When no Run is active, and in a new run until it dispatches its first order, nothing is in flight
  and nothing is pending. */
  lemma {:induction false} FinishedUntilNextDispatch(steps: seq<Step>)
    requires After(INITIAL, steps).Some?
    ensures var s := After(INITIAL, steps).value; s.flow.main == Down || s.seen.quiet ==> Finished(s.proc)
  {
    InitialInv();
    RunKeepsInv(INITIAL, steps);
    var s := After(INITIAL, steps).value;
    forall o | s.flow.main == Down || s.seen.quiet
      ensures o !in s.proc.inFlight && o !in s.proc.pending
    {
      assert FlightAt(s, o);
      if s.flow.main == Down {
        RestingHoldsNothing(s, o);
      }
    }
  }
}
