/** Which open orders the processor comes back to by itself: at the select of the main loop of a healthy run
an armed timer waits for an order that was handed out, is not in flight and is not settled, exactly when its
postponement was reported as stored and nothing has stranded it. */
module Resumption {
  import opened Common
  import opened Tables
  import opened Ledger
  import opened OrderEvents
  import opened Pipeline
  import opened ProcessorState
  import Flight = SingleFlight
  import Notification
  import Processing
  import StorageObject
  import Stranded
  import Trigger
  import Wakeups
  import Worker

  predicate Settled(db: Db, o: OrderId) {
    o in db.orders && !Open(db.orders[o].status)
  }

  /** An error that ends an event for good is only reported for a settled order. */
  predicate EndsSettled(db: Db, ev: Event, failure: OrderEvents.Failure) {
    !Retryable(failure) ==> Settled(db, ev.order)
  }

  predicate WorkerReportsTrue(db: Db, pc: WorkerPc) {
    pc.Reporting? ==> EndsSettled(db, pc.ev, pc.failure)
  }

  predicate ReportsTrue(db: Db, f: Flow) {
    && (forall i :: 0 <= i < |f.workers| ==> WorkerReportsTrue(db, f.workers[i]))
    && (f.callbackCh.Some? ==> EndsSettled(db, f.callbackCh.value.ev, f.callbackCh.value.failure))
    && (f.callback.Deciding? ==> EndsSettled(db, f.callback.ev, f.callback.failure))
  }

  /** What has become of an order that is not in flight any more. */
  predicate Accounted(s: State, o: OrderId) {
    o in s.proc.pending || o in s.seen.unreported || Settled(s.books.db, o)
  }

  predicate AccountedAt(s: State, o: OrderId) {
    && (s.seen.healthy && o in s.seen.dispatched ==> o in s.proc.inFlight || Accounted(s, o))
    && (s.seen.healthy && s.flow.callback.Leaving? && s.flow.callback.ev.order == o ==> Accounted(s, o))
    && (o in s.seen.unreported ==>
          o !in s.proc.pending && Flight.Holders(s.flow, o) == Wakeups.LateHolders(s.flow, o))
  }

  predicate IsStopping(pc: MainPc) {
    pc == Stopping || pc == Closing || pc == AwaitingWorkers || pc == AwaitingCallbacks
  }

  /** A run only stops when it is cancelled, and has dispatched nothing before it starts. */
  predicate StagesTold(s: State) {
    && (IsStopping(s.flow.main) ==> s.flow.cancelled)
    && (Trigger.IsStarting(s.flow.main) ==> s.seen.quiet)
  }

  ghost predicate Inv(s: State) {
    && Stranded.Inv(s)
    && StagesTold(s)
    && (s.seen.healthy ==> ReportsTrue(s.books.db, s.flow))
    && forall o :: AccountedAt(s, o)
  }

  lemma {:induction false} SettledStays(s: State, step: Step, o: OrderId)
    requires Processing.Inv(s) && Enabled(s, step) && Settled(s.books.db, o)
    ensures Settled(Do(s, step).books.db, o)
  {
    Processing.StepAdvances(s, step, o);
  }

  // ---- The stages of a run ----

  lemma MainKeepsStages(s: State, step: MainStep)
    requires StagesTold(s) && MainEnabled(s, step)
    ensures StagesTold(DoMain(s, step))
  {
  }

  lemma WorkerKeepsStages(s: State, i: nat, step: WorkerStep)
    requires StagesTold(s) && WorkerEnabled(s, i, step)
    ensures StagesTold(DoWorker(s, i, step))
  {
  }

  lemma CallbackKeepsStages(s: State, step: CallbackStep)
    requires StagesTold(s) && CallbackEnabled(s, step)
    ensures StagesTold(DoCallback(s, step))
  {
  }

  lemma EnvKeepsStages(s: State, step: EnvStep)
    requires StagesTold(s) && EnvEnabled(s, step)
    ensures StagesTold(DoEnv(s, step))
  {
  }

  lemma {:induction false} StepKeepsStages(s: State, step: Step)
    requires StagesTold(s) && Enabled(s, step)
    ensures StagesTold(Do(s, step))
  {
    match step
    case OfMain(m) => MainKeepsStages(s, m);
    case OfWorker(i, w) => WorkerKeepsStages(s, i, w);
    case OfCallback(c) => CallbackKeepsStages(s, c);
    case OfEnv(e) => EnvKeepsStages(s, e);
  }

  // ---- Reports ----

  /** The steps of one worker lead to a true report, or to none. */
  lemma {:induction false} OwnReportIsTrue(s: State, i: nat, step: WorkerStep)
    requires WorkerEnabled(s, i, step) && Processing.WorkerOk(s.books.db, s.flow.workers[i])
    requires !s.flow.cancelled
    ensures WorkerReportsTrue(DoWorker(s, i, step).books.db, NextWorkerPc(s, i, step))
  {
  }

  /** Settled orders stay settled, so that reports stay true. */
  lemma {:induction false} ReportsStayTrue(s: State, step: Step, f: Flow)
    requires Processing.Inv(s) && Enabled(s, step) && ReportsTrue(s.books.db, f)
    ensures ReportsTrue(Do(s, step).books.db, f)
  {
    var db, db' := s.books.db, Do(s, step).books.db;
    forall i | 0 <= i < |f.workers|
      ensures WorkerReportsTrue(db', f.workers[i])
    {
      assert WorkerReportsTrue(db, f.workers[i]);
      if f.workers[i].Reporting? && Settled(db, f.workers[i].ev.order) {
        SettledStays(s, step, f.workers[i].ev.order);
      }
    }
    if f.callbackCh.Some? && Settled(db, f.callbackCh.value.ev.order) {
      SettledStays(s, step, f.callbackCh.value.ev.order);
    }
    if f.callback.Deciding? && Settled(db, f.callback.ev.order) {
      SettledStays(s, step, f.callback.ev.order);
    }
  }

  lemma {:induction false} QueueStepKeepsReports(s: State, step: MainStep)
    requires MainEnabled(s, step) && Flight.OfQueue(step)
    ensures DoMain(s, step).seen.healthy ==> s.seen.healthy
    ensures ReportsTrue(s.books.db, s.flow) ==> ReportsTrue(s.books.db, DoMain(s, step).flow)
  {
  }

  lemma {:induction false} MainKeepsReports(s: State, step: MainStep)
    requires Flight.FlowShape(s.flow) && MainEnabled(s, step) && DoMain(s, step).seen.healthy
    requires s.seen.healthy ==> ReportsTrue(s.books.db, s.flow)
    ensures ReportsTrue(s.books.db, DoMain(s, step).flow)
  {
    if Flight.OfQueue(step) {
      QueueStepKeepsReports(s, step);
    }
  }

  lemma {:induction false} WorkerKeepsReports(s: State, i: nat, step: WorkerStep)
    requires Processing.Inv(s) && WorkerEnabled(s, i, step) && !s.flow.cancelled
    requires ReportsTrue(s.books.db, s.flow)
    ensures ReportsTrue(DoWorker(s, i, step).books.db, DoWorker(s, i, step).flow)
  {
    ReportsStayTrue(s, OfWorker(i, step), s.flow);
    assert Processing.WorkerOk(s.books.db, s.flow.workers[i]);
    OwnReportIsTrue(s, i, step);
    assert WorkerReportsTrue(s.books.db, s.flow.workers[i]);
    SentReportIsTrue(s, i, step);
  }

  lemma {:induction false} SentReportIsTrue(s: State, i: nat, step: WorkerStep)
    requires WorkerEnabled(s, i, step)
    requires ReportsTrue(DoWorker(s, i, step).books.db, s.flow)
    requires WorkerReportsTrue(DoWorker(s, i, step).books.db, NextWorkerPc(s, i, step))
    ensures ReportsTrue(DoWorker(s, i, step).books.db, DoWorker(s, i, step).flow)
  {
    assert WorkerReportsTrue(DoWorker(s, i, step).books.db, s.flow.workers[i]);
  }

  lemma {:induction false} CallbackKeepsReports(s: State, step: CallbackStep)
    requires Processing.Inv(s) && CallbackEnabled(s, step) && ReportsTrue(s.books.db, s.flow)
    ensures ReportsTrue(DoCallback(s, step).books.db, DoCallback(s, step).flow)
  {
    ReportsStayTrue(s, OfCallback(step), s.flow);
  }

  lemma {:induction false} EnvKeepsReports(s: State, step: EnvStep)
    requires Processing.Inv(s) && EnvEnabled(s, step) && ReportsTrue(s.books.db, s.flow)
    ensures ReportsTrue(DoEnv(s, step).books.db, DoEnv(s, step).flow)
  {
    ReportsStayTrue(s, OfEnv(step), s.flow);
  }

  lemma {:induction false} StepKeepsReports(s: State, step: Step)
    requires Inv(s) && Enabled(s, step) && Do(s, step).seen.healthy
    ensures ReportsTrue(Do(s, step).books.db, Do(s, step).flow)
  {
    match step
    case OfMain(m) =>
      Processing.MainLeavesBooks(s, m);
      MainKeepsReports(s, m);
    case OfWorker(i, w) => WorkerKeepsReports(s, i, w);
    case OfCallback(c) => CallbackKeepsReports(s, c);
    case OfEnv(e) => EnvKeepsReports(s, e);
  }

  // ---- Every order that was handed out is accounted for ----

  lemma {:induction false} HandOverKeepsAccounted(s: State, o: OrderId)
    requires Flight.FlightAt(s, o) && AccountedAt(s, o) && MainEnabled(s, HandOver)
    ensures AccountedAt(DoMain(s, HandOver), o)
  {
    Flight.ChannelAppends(s.flow.workCh, s.flow.main.ev, o);
  }

  lemma {:induction false} QueueStepKeepsAccounted(s: State, step: MainStep, o: OrderId)
    requires Flight.FlightAt(s, o) && AccountedAt(s, o) && MainEnabled(s, step) && Flight.OfQueue(step)
    ensures AccountedAt(DoMain(s, step), o)
  {
    if step == HandOver {
      HandOverKeepsAccounted(s, o);
    }
  }

  lemma {:induction false} LaunchKeepsAccounted(s: State, poolSize: nat, o: OrderId)
    requires Flight.FlowShape(s.flow) && AccountedAt(s, o) && MainEnabled(s, Launch(poolSize))
    ensures AccountedAt(DoMain(s, Launch(poolSize)), o)
  {
    Flight.FreeWorkersHoldNothing(seq(poolSize, _ => Idle), o);
  }

  lemma {:induction false} RunStepKeepsAccounted(s: State, step: MainStep, o: OrderId)
    requires Flight.FlowShape(s.flow) && StagesTold(s) && Notification.CancelSeen(s) && AccountedAt(s, o)
    requires MainEnabled(s, step) && !Flight.OfQueue(step)
    ensures AccountedAt(DoMain(s, step), o)
  {
    if step.Launch? {
      LaunchKeepsAccounted(s, step.poolSize, o);
    }
  }

  lemma {:induction false} WorkerKeepsAccounted(s: State, i: nat, step: WorkerStep, o: OrderId)
    requires Processing.Inv(s) && AccountedAt(s, o) && WorkerEnabled(s, i, step)
    ensures AccountedAt(DoWorker(s, i, step), o)
  {
    Flight.WorkerKeepsHolders(s, i, step, o);
    if Settled(s.books.db, o) {
      SettledStays(s, OfWorker(i, step), o);
    }
  }

  lemma {:induction false} DecideKeepsAccounted(s: State, at: Time, o: OrderId)
    requires AccountedAt(s, o) && CallbackEnabled(s, Decide(at)) && Notification.CancelSeen(s)
    requires s.seen.healthy ==> ReportsTrue(s.books.db, s.flow)
    ensures AccountedAt(DoCallback(s, Decide(at)), o)
  {
  }

  lemma {:induction false} PutBackKeepsAccounted(s: State, fault: Fault, o: OrderId)
    requires Processing.Inv(s) && AccountedAt(s, o) && Wakeups.PendingAt(s, o) && Flight.FlightAt(s, o)
    requires CallbackEnabled(s, PutBack(fault))
    ensures AccountedAt(DoCallback(s, PutBack(fault)), o)
  {
    if Settled(s.books.db, o) {
      SettledStays(s, OfCallback(PutBack(fault)), o);
    }
  }

  /** In a healthy run an order that was put back becomes pending: the run is neither starting nor stopping. */
  lemma {:induction false} AddPendingKeepsAccounted(s: State, o: OrderId)
    requires AccountedAt(s, o) && Flight.ShapeInv(s) && Flight.FlightAt(s, o)
    requires StagesTold(s) && Notification.CancelSeen(s) && CallbackEnabled(s, AddPending)
    ensures AccountedAt(DoCallback(s, AddPending), o)
  {
  }

  lemma {:induction false} OtherCallbackKeepsAccounted(s: State, step: CallbackStep, o: OrderId)
    requires AccountedAt(s, o) && Notification.CancelSeen(s) && CallbackEnabled(s, step)
    requires !step.Decide? && !step.PutBack? && !step.AddPending?
    ensures AccountedAt(DoCallback(s, step), o)
  {
  }

  lemma {:induction false} CallbackKeepsAccounted(s: State, step: CallbackStep, o: OrderId)
    requires Inv(s) && CallbackEnabled(s, step)
    ensures AccountedAt(DoCallback(s, step), o)
  {
    assert AccountedAt(s, o) && Wakeups.PendingAt(s, o) && Flight.FlightAt(s, o);
    match step
    case Decide(at) => DecideKeepsAccounted(s, at, o);
    case PutBack(fault) => PutBackKeepsAccounted(s, fault, o);
    case AddPending => AddPendingKeepsAccounted(s, o);
    case _ => OtherCallbackKeepsAccounted(s, step, o);
  }

  lemma {:induction false} EnvKeepsAccounted(s: State, step: EnvStep, o: OrderId)
    requires Processing.Inv(s) && AccountedAt(s, o) && EnvEnabled(s, step)
    ensures AccountedAt(DoEnv(s, step), o)
  {
    if Settled(s.books.db, o) {
      SettledStays(s, OfEnv(step), o);
    }
  }

  lemma {:induction false} StepKeepsAccounted(s: State, step: Step, o: OrderId)
    requires Inv(s) && Enabled(s, step)
    ensures AccountedAt(Do(s, step), o)
  {
    assert AccountedAt(s, o) && Flight.FlightAt(s, o);
    match step
    case OfMain(m) =>
      if Flight.OfQueue(m) {
        QueueStepKeepsAccounted(s, m, o);
      } else {
        RunStepKeepsAccounted(s, m, o);
      }
    case OfWorker(i, w) => WorkerKeepsAccounted(s, i, w, o);
    case OfCallback(c) => CallbackKeepsAccounted(s, c, o);
    case OfEnv(e) => EnvKeepsAccounted(s, e, o);
  }

  lemma {:induction false} StepKeepsInv(s: State, step: Step)
    requires Inv(s) && Enabled(s, step)
    ensures Inv(Do(s, step))
  {
    Stranded.StepKeepsInv(s, step);
    StepKeepsStages(s, step);
    if Do(s, step).seen.healthy {
      StepKeepsReports(s, step);
    }
    forall o
      ensures AccountedAt(Do(s, step), o)
    {
      StepKeepsAccounted(s, step, o);
    }
  }

  lemma {:induction false} RunKeepsInv(s: State, steps: seq<Step>)
    requires Inv(s) && After(s, steps).Some?
    ensures Inv(After(s, steps).value)
    decreases |steps|
  {
    if steps != [] {
      StepKeepsInv(s, steps[0]);
      RunKeepsInv(Do(s, steps[0]), steps[1..]);
    }
  }

  lemma InitialInv()
    ensures Inv(INITIAL)
  {
    Stranded.InitialInv();
  }

  /** At the select of the main loop of a healthy run, for an open order that this run has handed out and
  that is not in flight: it is pending under an armed timer if and only if its postponement was reported as
  stored and it is not stranded. */
  lemma {:induction false} ResumedExactlyUnlessUnreportedOrStranded(steps: seq<Step>, o: OrderId)
    requires After(INITIAL, steps).Some?
    requires var s := After(INITIAL, steps).value;
             && s.flow.main == Selecting && s.seen.healthy
             && o in s.seen.dispatched && o !in s.proc.inFlight
             && o in s.books.db.orders && Open(s.books.db.orders[o].status)
    ensures var s := After(INITIAL, steps).value;
            o in s.proc.pending && s.proc.timer.Some? <==> o !in s.seen.unreported && o !in s.seen.stranded
  {
    InitialInv();
    RunKeepsInv(INITIAL, steps);
    var s := After(INITIAL, steps).value;
    assert AccountedAt(s, o) && Stranded.WakeAt(s, o);
  }
}
