/** The pending orders and the wake-up timer over whole runs: a pending order is one that was put back
and whose queue row says when it is due, and when the timer ticks all of them are due. */
module Wakeups {
  import opened Common
  import opened Tables
  import opened Ledger
  import opened OrderEvents
  import opened Pipeline
  import opened ProcessorState
  import Flight = SingleFlight
  import Processing
  import StorageObject
  import Worker

  /** The holders a pending order may still or already have: the callback goroutine about to release it,
  or the main goroutine about to take it out of the pending set. */
  function LateHolders(f: Flow, o: OrderId): nat {
    (if f.main.Unpending? then Flight.Is(f.main.ev, o) else 0)
    + (if f.callback.Leaving? then Flight.Is(f.callback.ev, o) else 0)
  }

  predicate DueAt(db: Db, o: OrderId, at: Time) {
    o in db.queue && db.queue[o].processAfter == at
  }

  predicate PendingAt(s: State, o: OrderId) {
    && (o in s.proc.pending ==>
          DueAt(s.books.db, o, s.proc.pending[o]) && Flight.Holders(s.flow, o) == LateHolders(s.flow, o))
    && (s.flow.callback.Pending? && s.flow.callback.ev.order == o ==> DueAt(s.books.db, o, s.flow.callback.at))
  }

  ghost predicate Inv(s: State) {
    && Processing.Inv(s)
    && TimerCoversPending(s.proc)
    && (forall o :: PendingAt(s, o))
  }

  lemma {:induction false} HandOverKeepsPending(s: State, o: OrderId)
    requires PendingAt(s, o) && MainEnabled(s, HandOver)
    ensures PendingAt(DoMain(s, HandOver), o)
  {
    Flight.ChannelAppends(s.flow.workCh, s.flow.main.ev, o);
  }

  lemma {:induction false} QueueStepKeepsPending(s: State, step: MainStep, o: OrderId)
    requires PendingAt(s, o) && MainEnabled(s, step) && Flight.OfQueue(step)
    ensures PendingAt(DoMain(s, step), o)
  {
    if step == HandOver {
      HandOverKeepsPending(s, o);
    }
  }

  lemma {:induction false} RunStepKeepsPending(s: State, step: MainStep, o: OrderId)
    requires Flight.ShapeInv(s) && PendingAt(s, o) && MainEnabled(s, step) && !Flight.OfQueue(step)
    ensures PendingAt(DoMain(s, step), o)
  {
  }

  lemma {:induction false} WorkerKeepsPending(s: State, i: nat, step: WorkerStep, o: OrderId)
    requires PendingAt(s, o) && WorkerEnabled(s, i, step) && !step.Mark?
    ensures PendingAt(DoWorker(s, i, step), o)
  {
    Flight.WorkerKeepsHolders(s, i, step, o);
  }

  lemma CallsKeepDueTimes(op: Op, db: Db, fault: Fault, o: OrderId, at: Time)
    requires DueAt(db, o, at)
    requires Processing.IsMark(op) || op.Postpone? ==> op.order != o
    ensures DueAt(Attempted(op, db, fault).db, o, at)
  {
  }

  lemma {:induction false} MarkKeepsPending(s: State, i: nat, fault: Fault, o: OrderId)
    requires Processing.Inv(s) && PendingAt(s, o) && WorkerEnabled(s, i, Mark(fault))
    ensures PendingAt(DoWorker(s, i, Mark(fault)), o)
  {
    var pc, db := s.flow.workers[i], s.books.db;
    var op := Worker.MarkCall(pc.ev.user, pc.answer);
    assert Processing.WorkerOk(db, pc);
    Processing.MarkCallIsGuarded(db, pc);
    Flight.WorkerHolds(s.flow.workers, i);
    Flight.WorkerKeepsHolders(s, i, Mark(fault), o);
    assert Flight.FlightAt(s, o);
    if o in s.proc.pending {
      CallsKeepDueTimes(op, db, fault, o, s.proc.pending[o]);
    }
    if s.flow.callback.Pending? && s.flow.callback.ev.order == o {
      CallsKeepDueTimes(op, db, fault, o, s.flow.callback.at);
    }
  }

  lemma {:induction false} CallbackKeepsPending(s: State, step: CallbackStep, o: OrderId)
    requires Flight.FlightAt(s, o) && PendingAt(s, o) && CallbackEnabled(s, step) && !step.PutBack?
    ensures PendingAt(DoCallback(s, step), o)
  {
  }

  lemma {:induction false} PutBackKeepsPending(s: State, fault: Fault, o: OrderId)
    requires PendingAt(s, o) && CallbackEnabled(s, PutBack(fault))
    ensures PendingAt(DoCallback(s, PutBack(fault)), o)
  {
    var op := Postpone(s.flow.callback.ev.order, s.flow.callback.at);
    if o in s.proc.pending {
      CallsKeepDueTimes(op, s.books.db, fault, o, s.proc.pending[o]);
    }
  }

  lemma {:induction false} EnvKeepsPending(s: State, step: EnvStep, o: OrderId)
    requires PendingAt(s, o) && EnvEnabled(s, step)
    ensures PendingAt(DoEnv(s, step), o)
  {
    if ApiTransaction(s, step).Some? {
      var op := ApiTransaction(s, step).value;
      if o in s.proc.pending {
        CallsKeepDueTimes(op, s.books.db, step.fault, o, s.proc.pending[o]);
      }
      if s.flow.callback.Pending? && s.flow.callback.ev.order == o {
        CallsKeepDueTimes(op, s.books.db, step.fault, o, s.flow.callback.at);
      }
    }
  }

  lemma {:induction false} StepKeepsPending(s: State, step: Step, o: OrderId)
    requires Inv(s) && Enabled(s, step)
    ensures PendingAt(Do(s, step), o)
  {
    assert PendingAt(s, o) && Flight.FlightAt(s, o);
    match step
    case OfMain(m) =>
      if Flight.OfQueue(m) {
        QueueStepKeepsPending(s, m, o);
      } else {
        RunStepKeepsPending(s, m, o);
      }
    case OfWorker(i, w) =>
      if w.Mark? {
        MarkKeepsPending(s, i, w.fault, o);
      } else {
        WorkerKeepsPending(s, i, w, o);
      }
    case OfCallback(c) =>
      if c.PutBack? {
        PutBackKeepsPending(s, c.fault, o);
      } else {
        CallbackKeepsPending(s, c, o);
      }
    case OfEnv(e) => EnvKeepsPending(s, e, o);
  }

  /** The wake-up time never goes back, except with the process itself. */
  lemma {:induction false} StepKeepsTimer(s: State, step: Step)
    requires TimerCoversPending(s.proc) && Enabled(s, step)
    ensures TimerCoversPending(Do(s, step).proc)
    ensures step != OfEnv(Crash) ==> s.proc.nextWakeup <= Do(s, step).proc.nextWakeup
  {
    match step
    case OfMain(m) => MainKeepsTimer(s, m);
    case OfWorker(_, _) =>
    case OfCallback(c) => CallbackKeepsTimer(s, c);
    case OfEnv(_) =>
  }

  lemma {:induction false} MainKeepsTimer(s: State, step: MainStep)
    requires TimerCoversPending(s.proc) && MainEnabled(s, step)
    ensures TimerCoversPending(DoMain(s, step).proc)
    ensures s.proc.nextWakeup == DoMain(s, step).proc.nextWakeup
  {
  }

  lemma {:induction false} CallbackKeepsTimer(s: State, step: CallbackStep)
    requires TimerCoversPending(s.proc) && CallbackEnabled(s, step)
    ensures TimerCoversPending(DoCallback(s, step).proc)
    ensures s.proc.nextWakeup <= DoCallback(s, step).proc.nextWakeup
  {
  }

  lemma {:induction false} StepKeepsInv(s: State, step: Step)
    requires Inv(s) && Enabled(s, step)
    ensures Inv(Do(s, step))
  {
    Processing.StepKeepsInv(s, step);
    StepKeepsTimer(s, step);
    forall o
      ensures PendingAt(Do(s, step), o)
    {
      StepKeepsPending(s, step, o);
    }
  }

  lemma {:induction false} RunKeepsInv(s: State, steps: seq<Step>)
    requires Inv(s) && After(s, steps).Some?
    ensures Inv(After(s, steps).value)
    ensures (forall k :: 0 <= k < |steps| ==> steps[k] != OfEnv(Crash))
              ==> s.proc.nextWakeup <= After(s, steps).value.proc.nextWakeup
    decreases |steps|
  {
    if steps != [] {
      StepKeepsInv(s, steps[0]);
      StepKeepsTimer(s, steps[0]);
      RunKeepsInv(Do(s, steps[0]), steps[1..]);
    }
  }

  lemma InitialInv()
    ensures Inv(INITIAL)
  {
    Processing.InitialInv();
  }

  /** When the main loop takes a tick of the timer, every pending order is open, queued and due. */
  lemma {:induction false} TicksFindPendingOrdersDue(steps: seq<Step>, o: OrderId)
    requires After(INITIAL, steps).Some?
    requires var s := After(INITIAL, steps).value; MainEnabled(s, TakeTick) && o in s.proc.pending
    ensures var s := After(INITIAL, steps).value; StorageObject.Eligible(s.books.db, {}, s.clock, o)
  {
    InitialInv();
    RunKeepsInv(INITIAL, steps);
    var s := After(INITIAL, steps).value;
    assert PendingAt(s, o);
    CreditedOnce(s.books.log, o);
  }

  /** The wake-up time only moves forward while the process lives, across any number of runs. */
  lemma {:induction false} WakeupTimeNeverGoesBack(first: seq<Step>, second: seq<Step>)
    requires After(INITIAL, first).Some? && After(After(INITIAL, first).value, second).Some?
    requires forall k :: 0 <= k < |second| ==> second[k] != OfEnv(Crash)
    ensures var s := After(INITIAL, first).value;
            s.proc.nextWakeup <= After(s, second).value.proc.nextWakeup
  {
    InitialInv();
    RunKeepsInv(INITIAL, first);
    RunKeepsInv(After(INITIAL, first).value, second);
  }
}
