/** Which pending orders the wake-up timer leaves behind: at the select of the main loop the pending
orders without an armed timer are exactly those that one of three causes has befallen since the timer
was last armed. Two of the causes need no fault at all, and a run shows each of them. */
module Stranded {
  import opened Common
  import opened Tables
  import opened Ledger
  import opened OrderEvents
  import opened Pipeline
  import opened ProcessorState
  import Flight = SingleFlight
  import Notification
  import StorageObject
  import Wakeups

  /** The main loop will still query the queue, or is querying it without excluding the order. */
  predicate InSearch(pc: MainPc, o: OrderId) {
    || pc == Head || pc == Snapping || pc.Counting? || pc.Unpending? || pc.Handing?
    || (pc.Querying? && o !in pc.exclude)
  }

  /** A due order that is not in flight, or just being taken, and that the main loop is about to find. */
  predicate Sought(s: State, o: OrderId)
    requires o in s.proc.pending
  {
    && InSearch(s.flow.main, o)
    && s.proc.pending[o] <= s.clock
    && (o !in s.proc.inFlight || (s.flow.main.Unpending? && s.flow.main.ev.order == o))
  }

  predicate WakeAt(s: State, o: OrderId) {
    && (o in s.seen.stranded ==> o in s.proc.pending && s.proc.timer == None)
    && (o in s.proc.pending && s.proc.timer == None ==> o in s.seen.stranded || Sought(s, o))
    && (o in s.seen.stranded && s.seen.healthy ==> s.seen.stranded[o] != SearchAbandoned)
  }

  ghost predicate Inv(s: State) {
    && Wakeups.Inv(s)
    && Notification.CancelSeen(s)
    && forall o :: WakeAt(s, o)
  }

  /** A query that finds nothing finds no sought order. */
  lemma {:induction false} NoneFoundMeansNoneSought(s: State, o: OrderId)
    requires Wakeups.PendingAt(s, o) && RowsInOrder(s.books.db, o) && MainEnabled(s, NoneFound)
    requires o in s.proc.pending && o !in s.flow.main.exclude
    ensures s.proc.pending[o] > s.clock
  {
    if s.proc.pending[o] <= s.clock {
      assert StorageObject.Eligible(s.books.db, s.flow.main.exclude, s.clock, o);
    }
  }

  lemma {:induction false} QueueStepKeepsWake(s: State, step: MainStep, o: OrderId)
    requires WakeAt(s, o) && Wakeups.PendingAt(s, o) && RowsInOrder(s.books.db, o) && Notification.CancelSeen(s)
    requires MainEnabled(s, step) && Flight.OfQueue(step)
    ensures WakeAt(DoMain(s, step), o)
  {
    if step.NoneFound? && o in s.proc.pending && o !in s.flow.main.exclude {
      NoneFoundMeansNoneSought(s, o);
    }
  }

  /** At a tick every pending order is due; the one the callback goroutine still holds is stranded. */
  lemma {:induction false} TickKeepsWake(s: State, o: OrderId)
    requires WakeAt(s, o) && Wakeups.PendingAt(s, o) && Flight.FlightAt(s, o) && TimerCoversPending(s.proc)
    requires MainEnabled(s, TakeTick)
    ensures WakeAt(DoMain(s, TakeTick), o)
  {
  }

  lemma {:induction false} RunStepKeepsWake(s: State, step: MainStep, o: OrderId)
    requires WakeAt(s, o) && Flight.ShapeInv(s)
    requires MainEnabled(s, step) && !Flight.OfQueue(step) && !step.TakeTick?
    ensures WakeAt(DoMain(s, step), o)
  {
  }

  lemma {:induction false} CallbackKeepsWake(s: State, step: CallbackStep, o: OrderId)
    requires WakeAt(s, o) && CallbackEnabled(s, step)
    ensures WakeAt(DoCallback(s, step), o)
  {
  }

  lemma {:induction false} WorkerKeepsWake(s: State, i: nat, step: WorkerStep, o: OrderId)
    requires WakeAt(s, o) && WorkerEnabled(s, i, step)
    ensures WakeAt(DoWorker(s, i, step), o)
  {
  }

  lemma {:induction false} EnvKeepsWake(s: State, step: EnvStep, o: OrderId)
    requires WakeAt(s, o) && EnvEnabled(s, step)
    ensures WakeAt(DoEnv(s, step), o)
  {
  }

  lemma {:induction false} StepKeepsWake(s: State, step: Step, o: OrderId)
    requires Inv(s) && Enabled(s, step)
    ensures WakeAt(Do(s, step), o)
  {
    assert WakeAt(s, o) && Wakeups.PendingAt(s, o) && Flight.FlightAt(s, o);
    CreditedOnce(s.books.log, o);
    match step
    case OfMain(m) =>
      if Flight.OfQueue(m) {
        QueueStepKeepsWake(s, m, o);
      } else if m.TakeTick? {
        TickKeepsWake(s, o);
      } else {
        RunStepKeepsWake(s, m, o);
      }
    case OfWorker(i, w) => WorkerKeepsWake(s, i, w, o);
    case OfCallback(c) => CallbackKeepsWake(s, c, o);
    case OfEnv(e) => EnvKeepsWake(s, e, o);
  }

  lemma {:induction false} StepKeepsInv(s: State, step: Step)
    requires Inv(s) && Enabled(s, step)
    ensures Inv(Do(s, step))
  {
    Wakeups.StepKeepsInv(s, step);
    Notification.StepKeepsCancelSeen(s, step);
    forall o
      ensures WakeAt(Do(s, step), o)
    {
      StepKeepsWake(s, step, o);
    }
  }

  lemma {:induction false} RunKeepsInv(s: State, steps: seq<Step>)
    requires Inv(s) && After(s, steps).Some?
    ensures Inv(After(s, steps).value)
    decreases |steps|
  {
    if steps != [] {
      StepKeepsInv(s, steps[0]);
      RunKeepsInv(Do(s, steps[0]), steps[1..]);
    }
  }

  lemma InitialInv()
    ensures Inv(INITIAL)
  {
    Wakeups.InitialInv();
  }

  /** At the select of the main loop a pending order has no armed timer if and only if it is stranded; as
  long as the run is healthy it is so because its addition did not arm the timer, or because a tick came
  before its release. */
  lemma {:induction false} NoTimerExactlyForStranded(steps: seq<Step>, o: OrderId)
    requires After(INITIAL, steps).Some?
    requires var s := After(INITIAL, steps).value; s.flow.main == Selecting && o in s.proc.pending
    ensures var s := After(INITIAL, steps).value;
            && (s.proc.timer == None <==> o in s.seen.stranded)
            && (s.proc.timer == None && s.seen.healthy ==>
                  s.seen.stranded[o] == TimerNotArmed || s.seen.stranded[o] == TickBeforeRelease)
  {
    InitialInv();
    RunKeepsInv(INITIAL, steps);
    assert WakeAt(After(INITIAL, steps).value, o);
  }
}
