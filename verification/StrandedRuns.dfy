/** Runs without a cancel of the run and without a failed query after which a due order is left behind: it
was handed out and is open, nothing is in flight, the main loop is at its select, and no goroutine of the
processor can take a step however late it gets. There is a run for each cause: a tick before the release,
a wake-up time later than the order's own (left over from an earlier run, or from another order of the same
run), and a postponement that was not reported as stored. */
module StrandedRuns {
  import opened Common
  import opened Tables
  import opened OrderEvents
  import opened Pipeline
  import opened ProcessorState
  import Processor
  import StorageObject
  import Worker

  /** A handed out order that is due, while the processor is idle and only its environment can move. */
  ghost predicate LeftBehind(s: State, o: OrderId) {
    && o in s.seen.dispatched && s.proc.inFlight == {}
    && StorageObject.Eligible(s.books.db, {}, s.clock, o)
    && s.flow.main == Selecting && !s.flow.cancelled && s.seen.healthy
    && forall step :: ByItself(step) ==> !Enabled(s, step)
  }

  // ---- The flow of a pool of one worker ----

  const ONE_IDLE_WORKER := Flow(Selecting, false, [], false, [Idle], None, false, Listening)

  /** Nobody in the flow has anything to do. */
  lemma IdleFlowHasNoStep(s: State, step: Step)
    requires s.flow == ONE_IDLE_WORKER && !s.proc.notified && s.proc.timer == None && ByItself(step)
    ensures !Enabled(s, step)
  {
  }

  /** A fresh order: the caller commits it, drains the notification channel and fills it again. */
  lemma {:induction false} OrderArrives(s: State, p: nat, u: UserId, o: OrderId) returns (steps: seq<Step>)
    requires u in s.books.db.users && o !in s.books.db.orders && o !in s.books.db.queue && p !in s.producers
    ensures After(s, steps) == Some(s.(
      books := Transacted(s.books, Op.CreateOrder(o, u, s.clock), Healthy),
      proc := s.proc.(notified := true),
      seen := s.seen.(owed := s.seen.owed + {o})))
  {
    var submit := Submit(p, u, o, Healthy);
    assert After(s, []) == Some(s);
    AfterAppends(s, [], OfEnv(submit));
    steps := [] + [OfEnv(submit)];
    AfterAppends(s, steps, OfEnv(ProducerDrains(p)));
    steps := steps + [OfEnv(ProducerDrains(p))];
    AfterAppends(s, steps, OfEnv(ProducerSends(p)));
    steps := steps + [OfEnv(ProducerSends(p))];
    assert s.producers[p := ToDrain(o)][p := ToSend(o)] - {p} == s.producers;
  }

  function AtSelect(s: State): State {
    s.(flow := ONE_IDLE_WORKER, proc := Started(s.proc).(notified := true), seen := SeenAtStart(s, true))
  }

  lemma {:induction false} RunStarts(s: State) returns (steps: seq<Step>)
    requires s.flow.main == Down
    ensures After(s, steps) == Some(AtSelect(s))
  {
    assert After(s, []) == Some(s);
    AfterAppends(s, [], OfMain(StartRun(true)));
    steps := [] + [OfMain(StartRun(true))];
    AfterAppends(s, steps, OfMain(Drain));
    steps := steps + [OfMain(Drain)];
    AfterAppends(s, steps, OfMain(Signal));
    steps := steps + [OfMain(Signal)];
    AfterAppends(s, steps, OfMain(Launch(1)));
    steps := steps + [OfMain(Launch(1))];
    assert seq(1, _ => Idle) == [Idle];
    AfterAppends(s, steps, OfMain(BeginLoop));
    steps := steps + [OfMain(BeginLoop)];
  }

  /** From the head of the loop to the answer of the queue. */
  lemma {:induction false} Searches(s: State, answer: MainStep) returns (steps: seq<Step>)
    requires s.flow.main == Head && !s.flow.cancelled && Processor.QueueAnswers(s, answer) && answer != QueryFails
    ensures After(s, steps) == Some(
      if answer == NoneFound then s.(flow := s.flow.(main := Selecting))
      else s.(flow := s.flow.(main := Handing(EventFor(s.books.db, answer.order))),
              proc := WithoutPending(WithInFlight(s.proc, answer.order), answer.order),
              seen := s.seen.(quiet := false, stranded := s.seen.stranded - {answer.order},
                              unreported := s.seen.unreported - {answer.order})))
  {
    var snapping := DoMain(s, CheckExpired);
    var rest := Processor.MainStepsAreNextEvent(snapping, answer);
    AfterStarts(s, OfMain(CheckExpired), rest);
    steps := [OfMain(CheckExpired)] + rest;
  }

  /** The found order goes to the work channel, and the next query finds nothing. */
  lemma {:induction false} HandsOver(s: State) returns (steps: seq<Step>)
    requires s.flow.main.Handing? && !s.flow.cancelled && |s.flow.workCh| < |s.flow.workers|
    requires NothingToDispatch(s.books.db, s.proc.inFlight, s.clock)
    ensures After(s, steps) == Some(s.(
      flow := s.flow.(main := Selecting, workCh := s.flow.workCh + [s.flow.main.ev]),
      seen := s.seen.(dispatched := s.seen.dispatched + {s.flow.main.ev.order})))
  {
    var rest := Searches(DoMain(s, HandOver), NoneFound);
    AfterStarts(s, OfMain(HandOver), rest);
    steps := [OfMain(HandOver)] + rest;
  }

  function SeenOnceHandedOver(s: State, o: OrderId): Seen {
    s.seen.(quiet := false, stranded := s.seen.stranded - {o}, unreported := s.seen.unreported - {o},
            dispatched := s.seen.dispatched + {o})
  }

  /** From the head of the loop the only order that is due goes to the work channel. */
  lemma {:induction false} LoopHandsOver(s: State, o: OrderId) returns (steps: seq<Step>)
    requires s.flow.main == Head && !s.flow.cancelled && |s.flow.workCh| < |s.flow.workers|
    requires StorageObject.IsNext(s.books.db, s.proc.inFlight, s.clock, o)
    requires NothingToDispatch(s.books.db, s.proc.inFlight + {o}, s.clock)
    ensures After(s, steps) == Some(s.(
      flow := s.flow.(main := Selecting, workCh := s.flow.workCh + [EventFor(s.books.db, o)]),
      proc := WithoutPending(WithInFlight(s.proc, o), o),
      seen := SeenOnceHandedOver(s, o)))
  {
    var search := Searches(s, Found(o));
    var handing := After(s, search).value;
    assert handing.proc.inFlight == s.proc.inFlight + {o};
    var rest := HandsOver(handing);
    AfterComposes(s, search, rest);
    steps := search + rest;
  }

  function HandedOver(s: State, o: OrderId): State
    requires o in s.books.db.orders && o in s.books.db.queue
  {
    s.(flow := ONE_IDLE_WORKER.(workCh := [EventFor(s.books.db, o)]),
       proc := WithoutPending(WithInFlight(s.proc.(notified := false), o), o),
       seen := SeenOnceHandedOver(s, o))
  }

  /** The only order that is due goes to the work channel. */
  lemma {:induction false} OrderIsHandedOver(s: State, o: OrderId) returns (steps: seq<Step>)
    requires s.flow == ONE_IDLE_WORKER && s.proc.notified
    requires StorageObject.IsNext(s.books.db, s.proc.inFlight, s.clock, o)
    requires NothingToDispatch(s.books.db, s.proc.inFlight + {o}, s.clock)
    ensures After(s, steps) == Some(HandedOver(s, o))
  {
    var head := DoMain(s, TakeNotice);
    var rest := LoopHandsOver(head, o);
    assert head.flow.workCh + [EventFor(s.books.db, o)] == [EventFor(s.books.db, o)];
    AfterStarts(s, OfMain(TakeNotice), rest);
    steps := [OfMain(TakeNotice)] + rest;
  }

  /** The worker cannot read the order's status and reports that to the callback goroutine. */
  lemma {:induction false} EventFails(s: State, ev: Event) returns (steps: seq<Step>)
    requires s.flow == ONE_IDLE_WORKER.(workCh := [ev])
    ensures After(s, steps) == Some(s.(flow := ONE_IDLE_WORKER.(callback := Deciding(ev, Other))))
  {
    var taken := DoWorker(s, 0, Receive);
    var toReport := Processor.WorkerStepsAreProcessEvent(taken, 0, true, Worker.RequestFailed, Healthy);
    var reporting := After(taken, toReport).value;
    assert reporting.flow.workers == [Reporting(ev, Other)];
    var sent := DoWorker(reporting, 0, Send);
    assert sent.flow.workers == [Idle];
    var last := [OfWorker(0, Send)] + [OfCallback(TakeResult)];
    AfterStarts(sent, OfCallback(TakeResult), []);
    AfterStarts(reporting, OfWorker(0, Send), [OfCallback(TakeResult)]);
    assert [OfCallback(TakeResult)] + [] == [OfCallback(TakeResult)];
    AfterComposes(taken, toReport, last);
    AfterStarts(s, OfWorker(0, Receive), toReport + last);
    steps := [OfWorker(0, Receive)] + (toReport + last);
  }

  /** The callback goroutine puts the event back and makes its order pending. */
  lemma {:induction false} FailureIsPostponed(s: State, ev: Event, at: Time) returns (steps: seq<Step>)
    requires s.flow == ONE_IDLE_WORKER.(callback := Deciding(ev, Other)) && ev.order in s.books.db.queue
    ensures After(s, steps) == Some(s.(
      flow := ONE_IDLE_WORKER.(callback := Leaving(ev)),
      books := Transacted(s.books, Postpone(ev.order, at), Healthy),
      proc := WithPending(s.proc, ev.order, at),
      seen := SeenAtPending(s, ev.order, at)))
  {
    steps := Processor.CallbackPostponesEvent(s, at, Healthy);
    AfterAppends(s, steps, OfCallback(AddPending));
    steps := steps + [OfCallback(AddPending)];
  }

  /** The only order that is due is handed over and its worker fails. */
  lemma {:induction false} OrderFails(s: State, o: OrderId) returns (steps: seq<Step>)
    requires s.flow == ONE_IDLE_WORKER && s.proc.notified
    requires StorageObject.IsNext(s.books.db, s.proc.inFlight, s.clock, o)
    requires NothingToDispatch(s.books.db, s.proc.inFlight + {o}, s.clock)
    ensures After(s, steps) == Some(HandedOver(s, o).(
      flow := ONE_IDLE_WORKER.(callback := Deciding(EventFor(s.books.db, o), Other))))
  {
    var over := OrderIsHandedOver(s, o);
    var failing := EventFails(HandedOver(s, o), EventFor(s.books.db, o));
    AfterComposes(s, over, failing);
    steps := over + failing;
  }

  /** The state in which the order's event was put back but is still in flight. */
  function PutBackOnce(s: State, o: OrderId, at: Time): State
    requires o in s.books.db.orders && o in s.books.db.queue
  {
    var h := HandedOver(s, o);
    h.(flow := ONE_IDLE_WORKER.(callback := Leaving(EventFor(s.books.db, o))),
       books := Transacted(s.books, Postpone(o, at), Healthy),
       proc := WithPending(h.proc, o, at),
       seen := SeenAtPending(h, o, at))
  }

  lemma {:induction false} OrderIsPutBack(s: State, o: OrderId, at: Time) returns (steps: seq<Step>)
    requires s.flow == ONE_IDLE_WORKER && s.proc.notified
    requires StorageObject.IsNext(s.books.db, s.proc.inFlight, s.clock, o)
    requires NothingToDispatch(s.books.db, s.proc.inFlight + {o}, s.clock)
    ensures After(s, steps) == Some(PutBackOnce(s, o, at))
  {
    var failing := OrderFails(s, o);
    var postponing := FailureIsPostponed(After(s, failing).value, EventFor(s.books.db, o), at);
    AfterComposes(s, failing, postponing);
    steps := failing + postponing;
  }

  /** The timer fires while the callback goroutine has not released its order yet. */
  lemma {:induction false} TickIsTaken(s: State) returns (steps: seq<Step>)
    requires s.flow.main == Selecting && !s.flow.cancelled && TickReady(s.proc, s.clock)
    requires NothingToDispatch(s.books.db, s.proc.inFlight, s.clock)
    ensures After(s, steps) == Some(s.(proc := s.proc.(timer := None), seen := SeenAtTick(s)))
  {
    var search := Searches(DoMain(s, TakeTick), NoneFound);
    AfterStarts(s, OfMain(TakeTick), search);
    steps := [OfMain(TakeTick)] + search;
  }

  function Closed(s: State): State {
    s.(flow := ONE_IDLE_WORKER.(main := AwaitingWorkers, cancelled := true, workClosed := true),
       proc := Stopped(s.proc), seen := s.seen.(healthy := false, stranded := map[]))
  }

  lemma {:induction false} CancelClosesWork(s: State) returns (steps: seq<Step>)
    requires s.flow == ONE_IDLE_WORKER
    ensures After(s, steps) == Some(Closed(s))
  {
    assert After(s, []) == Some(s);
    AfterAppends(s, [], OfEnv(Cancel));
    steps := [] + [OfEnv(Cancel)];
    AfterAppends(s, steps, OfMain(SeeCancel));
    steps := steps + [OfMain(SeeCancel)];
    AfterAppends(s, steps, OfMain(StopState));
    steps := steps + [OfMain(StopState)];
    AfterAppends(s, steps, OfMain(CloseWork));
    steps := steps + [OfMain(CloseWork)];
  }

  lemma {:induction false} EverybodyLeaves(s: State) returns (steps: seq<Step>)
    requires s.flow == ONE_IDLE_WORKER.(main := AwaitingWorkers, cancelled := true, workClosed := true)
    ensures After(s, steps).Some?
    ensures var t := After(s, steps).value; t == s.(flow := t.flow) && t.flow.main == Down
  {
    assert After(s, []) == Some(s);
    AfterAppends(s, [], OfWorker(0, Leave));
    steps := [] + [OfWorker(0, Leave)];
    AfterAppends(s, steps, OfMain(WorkersGone));
    steps := steps + [OfMain(WorkersGone)];
    AfterAppends(s, steps, OfCallback(Quit));
    steps := steps + [OfCallback(Quit)];
    AfterAppends(s, steps, OfMain(CallbacksGone));
    steps := steps + [OfMain(CallbacksGone)];
  }

  /** A cancelled run of the idle pool returns. */
  lemma {:induction false} RunEnds(s: State) returns (steps: seq<Step>)
    requires s.flow == ONE_IDLE_WORKER
    ensures After(s, steps).Some?
    ensures var t := After(s, steps).value;
            && t == s.(flow := t.flow, proc := Stopped(s.proc), seen := s.seen.(healthy := false, stranded := map[]))
            && t.flow.main == Down
  {
    var closing := CancelClosesWork(s);
    var leaving := EverybodyLeaves(Closed(s));
    AfterComposes(s, closing, leaving);
    steps := closing + leaving;
  }

  // ---- The runs ----

  /** A run that starts with one due order puts it back. */
  lemma {:induction false} RunPutsBack(s: State, o: OrderId, at: Time) returns (steps: seq<Step>)
    requires s.flow.main == Down && s.proc.inFlight == {}
    requires StorageObject.IsNext(s.books.db, {}, s.clock, o) && NothingToDispatch(s.books.db, {o}, s.clock)
    ensures After(s, steps) == Some(PutBackOnce(AtSelect(s), o, at))
  {
    var starting := RunStarts(s);
    assert {} + {o} == {o};
    var back := OrderIsPutBack(AtSelect(s), o, at);
    AfterComposes(s, starting, back);
    steps := starting + back;
  }

  lemma {:induction false} Releases(s: State, first: seq<Step>, t: State, elapsed: nat) returns (steps: seq<Step>)
    requires After(s, first) == Some(t) && t.flow.callback.Leaving?
    ensures After(s, steps) == Some(Released(t, elapsed))
  {
    var last := ReleasesNow(t, elapsed);
    AfterComposes(s, first, last);
    steps := first + last;
  }

  function Released(s: State, elapsed: nat): State
    requires s.flow.callback.Leaving?
  {
    s.(flow := s.flow.(callback := Listening), proc := WithoutInFlight(s.proc, s.flow.callback.ev.order),
       clock := s.clock + elapsed)
  }

  lemma {:induction false} ReleasesNow(s: State, elapsed: nat) returns (steps: seq<Step>)
    requires s.flow.callback.Leaving?
    ensures After(s, steps) == Some(Released(s, elapsed))
  {
    assert After(s, []) == Some(s);
    AfterAppends(s, [], OfCallback(Release));
    steps := [] + [OfCallback(Release)];
    AfterAppends(s, steps, OfEnv(AdvanceClock(elapsed)));
    steps := steps + [OfEnv(AdvanceClock(elapsed))];
  }

  /** The tables after the registration of a user and the creation of an order at time 0. */
  lemma {:induction false} FirstOrder(u: UserId, o: OrderId) returns (steps: seq<Step>)
    ensures After(INITIAL, steps).Some?
    ensures var t := After(INITIAL, steps).value;
            && t.books.db.users == {u} && t.books.db.orders == map[o := OrderRow(u, New)]
            && t.books.db.queue == map[o := QueueRow(0, 0)]
            && t == INITIAL.(books := t.books, proc := IDLE.(notified := true), seen := INITIAL.seen.(owed := {o}))
  {
    var registered := DoEnv(INITIAL, Register(u, Healthy));
    var arriving := OrderArrives(registered, 0, u, o);
    AfterStarts(INITIAL, OfEnv(Register(u, Healthy)), arriving);
    steps := [OfEnv(Register(u, Healthy))] + arriving;
  }

  /** The state in which the first order was put back once and is still in flight. */
  predicate FirstIsPutBack(s: State, u: UserId, o: OrderId, at: Time) {
    && s.flow == ONE_IDLE_WORKER.(callback := Leaving(Event(u, o, 0)))
    && s.proc == View({o}, map[o := at], false, at, Some(at), true, true)
    && s.clock == 0 && s.producers == map[]
    && s.seen.healthy && s.seen.stranded == map[] && s.seen.dispatched == {o} && s.seen.unreported == {}
    && s.books.db.users == {u} && s.books.db.orders == map[o := OrderRow(u, New)]
    && s.books.db.queue == map[o := QueueRow(at, 1)]
  }

  lemma {:induction false} FirstOrderIsPutBack(u: UserId, o: OrderId, at: Time) returns (steps: seq<Step>)
    ensures After(INITIAL, steps).Some? && FirstIsPutBack(After(INITIAL, steps).value, u, o, at)
  {
    var first := FirstOrder(u, o);
    var s := After(INITIAL, first).value;
    var back := RunPutsBack(s, o, at);
    AfterComposes(INITIAL, first, back);
    steps := first + back;
  }

  lemma {:induction false} IdleFlowIsStuck(s: State)
    requires s.flow == ONE_IDLE_WORKER && !s.proc.notified && s.proc.timer == None
    ensures forall step :: ByItself(step) ==> !Enabled(s, step)
  {
    forall step | ByItself(step)
      ensures !Enabled(s, step)
    {
      IdleFlowHasNoStep(s, step);
    }
  }

  /** An order postponed to any instant: its tick is taken between AddPending and Release, the query still
  excludes it, and nothing wakes it afterwards. */
  lemma {:induction false} TickBeforeReleaseLeavesBehind(u: UserId, o: OrderId, at: Time) returns (steps: seq<Step>)
    ensures After(INITIAL, steps).Some?
    ensures var t := After(INITIAL, steps).value;
            LeftBehind(t, o) && o in t.proc.pending && t.seen.stranded == map[o := TickBeforeRelease]
  {
    var first := FirstOrderIsPutBack(u, o, at);
    var s := After(INITIAL, first).value;
    var ticking := LateTick(s, o, at);
    AfterComposes(INITIAL, first, ticking);
    steps := Releases(INITIAL, first + ticking, After(s, ticking).value, 0);
    IdleFlowIsStuck(After(INITIAL, steps).value);
  }

  lemma {:induction false} LateTick(s: State, o: OrderId, at: Time) returns (steps: seq<Step>)
    requires s.flow.main == Selecting && !s.flow.cancelled && s.proc.timer == Some(at) && s.proc.inFlight == {o}
    requires s.books.db.orders.Keys == {o}
    requires s.flow.callback.Leaving? && s.flow.callback.ev.order == o && o in s.proc.pending
    ensures After(s, steps) == Some(s.(
      clock := s.clock + at, proc := s.proc.(timer := None),
      seen := s.seen.(stranded := s.seen.stranded[o := TickBeforeRelease])))
  {
    var later := DoEnv(s, AdvanceClock(at));
    var ticking := TickIsTaken(later);
    AfterStarts(s, OfEnv(AdvanceClock(at)), ticking);
    steps := [OfEnv(AdvanceClock(at))] + ticking;
  }

  /** Two runs: the first postpones an order to a late instant, the second another order to an earlier one.
  The wake-up time of the first outlives its Stop, so the second order arms no timer. */
  lemma {:induction false} StaleWakeupTimeLeavesBehind(
      u: UserId, o: OrderId, p: OrderId, early: Time, late: Time)
    returns (steps: seq<Step>)
    requires o != p && early < late
    ensures After(INITIAL, steps).Some?
    ensures var t := After(INITIAL, steps).value;
            LeftBehind(t, p) && p in t.proc.pending && t.seen.stranded == map[p := TimerNotArmed]
  {
    var first := FirstOrderIsPutBack(u, o, late);
    var released := Releases(INITIAL, first, After(INITIAL, first).value, 0);
    var second := SecondRun(After(INITIAL, released).value, u, o, p, early);
    AfterComposes(INITIAL, released, second);
    steps := released + second;
  }

  /** The first run ends and another order arrives. */
  lemma {:induction false} AnotherOrder(s: State, u: UserId, o: OrderId, p: OrderId) returns (steps: seq<Step>)
    requires s.flow == ONE_IDLE_WORKER && s.producers == map[]
    requires s.books.db.users == {u} && s.books.db.orders.Keys == {o} && s.books.db.queue.Keys == {o} && o != p
    ensures After(s, steps).Some?
    ensures var t := After(s, steps).value;
            && t == s.(flow := t.flow, seen := t.seen, proc := Stopped(s.proc).(notified := true), books := t.books)
            && t.flow.main == Down && t.seen.stranded == map[]
            && t.books.db == Transact(Op.CreateOrder(p, u, s.clock), s.books.db).db
  {
    var ending := RunEnds(s);
    var down := After(s, ending).value;
    var arriving := OrderArrives(down, 0, u, p);
    AfterComposes(s, ending, arriving);
    steps := ending + arriving;
  }

  lemma OnlyTheNewOrderIsDue(db: Db, u: UserId, o: OrderId, p: OrderId, after: Db)
    requires db.users == {u} && db.orders.Keys == {o} && db.queue.Keys == {o} && o != p
    requires db.queue[o].processAfter > 0 && Transact(Op.CreateOrder(p, u, 0), db) == Committed(after)
    ensures StorageObject.IsNext(after, {}, 0, p) && NothingToDispatch(after, {p}, 0)
  {
  }

  /** The second run, from the idle pool of the first. */
  lemma {:induction false} SecondRun(s: State, u: UserId, o: OrderId, p: OrderId, early: Time)
    returns (steps: seq<Step>)
    requires s.flow == ONE_IDLE_WORKER && s.proc.inFlight == {} && s.producers == map[] && s.clock == 0
    requires s.books.db.users == {u} && s.books.db.orders.Keys == {o} && s.books.db.queue.Keys == {o} && o != p
    requires s.books.db.queue[o].processAfter == s.proc.nextWakeup > early
    ensures After(s, steps).Some?
    ensures var t := After(s, steps).value;
            LeftBehind(t, p) && p in t.proc.pending && t.seen.stranded == map[p := TimerNotArmed]
  {
    var before := AnotherOrder(s, u, o, p);
    var ready := After(s, before).value;
    OnlyTheNewOrderIsDue(s.books.db, u, o, p, ready.books.db);
    var back := RunPutsBack(ready, p, early);
    AfterComposes(s, before, back);
    steps := Releases(s, before + back, PutBackOnce(AtSelect(ready), p, early), early);
    IdleFlowIsStuck(After(s, steps).value);
  }

  // ---- The same cause within one run ----

  /** A worker asks about its event's order and marks it invalid; the callback goroutine lets it go. */
  lemma {:induction false} OrderIsSettled(s: State, ev: Event) returns (steps: seq<Step>)
    requires s.flow == ONE_IDLE_WORKER.(workCh := [ev]) && Worker.IsOpenFor(s.books.db, ev)
    ensures After(s, steps).Some?
    ensures var t := After(s, steps).value;
            && t.books.db == Transact(MarkInvalid(ev.order), s.books.db).db
            && t == s.(flow := ONE_IDLE_WORKER, proc := WithoutInFlight(s.proc, ev.order), books := t.books)
  {
    var taken := DoWorker(s, 0, Receive);
    var reply := Worker.Answered(Worker.Answer(ev.order, Worker.Rejected, 0));
    var asking := Processor.WorkerStepsAreProcessEvent(taken, 0, false, reply, Healthy);
    var reporting := After(taken, asking).value;
    assert reporting.flow == ONE_IDLE_WORKER.(workers := [Reporting(ev, NoFailure)]) by {
      assert taken.flow.workers == [Taken(ev)];
    }
    var letting := ReportIsDropped(reporting, ev);
    AfterComposes(taken, asking, letting);
    AfterStarts(s, OfWorker(0, Receive), asking + letting);
    steps := [OfWorker(0, Receive)] + (asking + letting);
  }

  lemma {:induction false} ReportIsDropped(s: State, ev: Event) returns (steps: seq<Step>)
    requires s.flow == ONE_IDLE_WORKER.(workers := [Reporting(ev, NoFailure)])
    ensures After(s, steps) == Some(s.(flow := ONE_IDLE_WORKER, proc := WithoutInFlight(s.proc, ev.order)))
  {
    var sent := DoWorker(s, 0, Send);
    assert sent.flow.workers == [Idle];
    var dropping := Processor.CallbackDropsEvent(DoCallback(sent, TakeResult), 0);
    AfterStarts(sent, OfCallback(TakeResult), dropping);
    AfterStarts(s, OfWorker(0, Send), [OfCallback(TakeResult)] + dropping);
    steps := [OfWorker(0, Send)] + ([OfCallback(TakeResult)] + dropping);
  }

  /** A decided postponement is stored and added when the timer's tick has been taken already. */
  lemma {:induction false} LateAddition(s: State, ev: Event, at: Time) returns (steps: seq<Step>)
    requires s.flow.callback == Enqueueing(ev, at) && !s.flow.cancelled && ev.order in s.books.db.queue
    requires s.proc.running && s.proc.timer == None && s.proc.nextWakeup > at
    ensures After(s, steps) == Some(s.(
      flow := s.flow.(callback := Listening),
      books := Transacted(s.books, Postpone(ev.order, at), Healthy),
      proc := s.proc.(pending := s.proc.pending[ev.order := at], inFlight := s.proc.inFlight - {ev.order}),
      seen := s.seen.(stranded := s.seen.stranded[ev.order := TimerNotArmed])))
  {
    assert After(s, []) == Some(s);
    AfterAppends(s, [], OfCallback(CheckAgain));
    steps := [] + [OfCallback(CheckAgain)];
    AfterAppends(s, steps, OfCallback(PutBack(Healthy)));
    steps := steps + [OfCallback(PutBack(Healthy))];
    AfterAppends(s, steps, OfCallback(AddPending));
    steps := steps + [OfCallback(AddPending)];
    AfterAppends(s, steps, OfCallback(Release));
    steps := steps + [OfCallback(Release)];
  }

  lemma {:induction false} DecidesEarly(s: State, p: Event, early: Time, elapsed: nat) returns (steps: seq<Step>)
    requires s.flow == ONE_IDLE_WORKER.(callback := Deciding(p, Other))
    ensures After(s, steps)
         == Some(s.(flow := ONE_IDLE_WORKER.(callback := Enqueueing(p, early)), clock := s.clock + elapsed))
  {
    assert After(s, []) == Some(s);
    AfterAppends(s, [], OfCallback(Decide(early)));
    steps := [] + [OfCallback(Decide(early))];
    AfterAppends(s, steps, OfEnv(AdvanceClock(elapsed)));
    steps := steps + [OfEnv(AdvanceClock(elapsed))];
  }

  /** The tick of the timer lets the main loop take the only order that is due. */
  lemma {:induction false} TickHandsOver(s: State, o: OrderId) returns (steps: seq<Step>)
    requires s.flow.main == Selecting && !s.flow.cancelled && TickReady(s.proc, s.clock)
    requires s.flow.callback.Enqueueing? && s.flow.workCh == [] && |s.flow.workers| > 0
    requires StorageObject.IsNext(s.books.db, s.proc.inFlight, s.clock, o)
    requires NothingToDispatch(s.books.db, s.proc.inFlight + {o}, s.clock)
    ensures After(s, steps) == Some(s.(
      flow := s.flow.(workCh := [EventFor(s.books.db, o)]),
      proc := WithoutPending(WithInFlight(s.proc.(timer := None), o), o),
      seen := SeenOnceHandedOver(s, o)))
  {
    var over := LoopHandsOver(DoMain(s, TakeTick), o);
    assert s.flow.workCh + [EventFor(s.books.db, o)] == [EventFor(s.books.db, o)];
    AfterStarts(s, OfMain(TakeTick), over);
    steps := [OfMain(TakeTick)] + over;
  }

  /** The callback goroutine decides on an instant and the timer fires later for another order. */
  lemma {:induction false} TickAfterDecision(s: State, p: Event, o: OrderId, early: Time, elapsed: nat)
    returns (steps: seq<Step>)
    requires s.flow == ONE_IDLE_WORKER.(callback := Deciding(p, Other)) && TickReady(s.proc, s.clock + elapsed)
    requires StorageObject.IsNext(s.books.db, s.proc.inFlight, s.clock + elapsed, o)
    requires NothingToDispatch(s.books.db, s.proc.inFlight + {o}, s.clock + elapsed)
    ensures After(s, steps) == Some(s.(
      clock := s.clock + elapsed,
      flow := ONE_IDLE_WORKER.(callback := Enqueueing(p, early), workCh := [EventFor(s.books.db, o)]),
      proc := WithoutPending(WithInFlight(s.proc.(timer := None), o), o),
      seen := SeenOnceHandedOver(s, o)))
  {
    var deciding := DecidesEarly(s, p, early, elapsed);
    var over := TickHandsOver(After(s, deciding).value, o);
    AfterComposes(s, deciding, over);
    steps := deciding + over;
  }

  /** An order is put back to a late instant. For another one an earlier instant is decided on, but the tick
  for the first comes before the second is added, so that its addition arms nothing. */
  lemma {:induction false} TickBeforeAdditionLeavesBehind(
      u: UserId, o: OrderId, p: OrderId, early: Time, late: Time)
    returns (steps: seq<Step>)
    requires o != p && early < late
    ensures After(INITIAL, steps).Some?
    ensures var t := After(INITIAL, steps).value;
            LeftBehind(t, p) && p in t.proc.pending && t.seen.stranded == map[p := TimerNotArmed]
  {
    var first := FirstOrderIsPutBack(u, o, late);
    var released := Releases(INITIAL, first, After(INITIAL, first).value, 0);
    var s := After(INITIAL, released).value;
    var failing := SecondOrderFails(s, u, o, p, late);
    var s1 := After(s, failing).value;
    var deciding := TickAfterDecision(s1, Event(u, p, 0), o, early, late);
    var s2 := After(s1, deciding).value;
    var ending := LateAdditionAndSettlement(s2, u, o, p, early, late);
    AfterComposes(s1, deciding, ending);
    AfterComposes(s, failing, deciding + ending);
    AfterComposes(INITIAL, released, failing + (deciding + ending));
    steps := released + (failing + (deciding + ending));
  }

  predicate TwoOrders(db: Db, u: UserId, o: OrderId, p: OrderId, late: Time) {
    && u in db.users && o != p
    && db.orders == map[o := OrderRow(u, New), p := OrderRow(u, New)]
    && db.queue == map[o := QueueRow(late, 1), p := QueueRow(0, 0)]
  }

  /** The second order arrives in the same run, is handed over and fails. */
  lemma {:induction false} SecondOrderFails(s: State, u: UserId, o: OrderId, p: OrderId, late: Time)
    returns (steps: seq<Step>)
    requires s.flow == ONE_IDLE_WORKER && s.producers == map[] && s.clock == 0 && o != p && late > 0
    requires s.proc == View({}, map[o := late], false, late, Some(late), true, true) && s.seen.healthy
    requires s.seen.stranded == map[] && s.seen.unreported == {}
    requires s.books.db.users == {u} && s.books.db.orders == map[o := OrderRow(u, New)]
    requires s.books.db.queue == map[o := QueueRow(late, 1)]
    ensures After(s, steps).Some?
    ensures var t := After(s, steps).value;
            && t.flow == ONE_IDLE_WORKER.(callback := Deciding(Event(u, p, 0), Other)) && t.clock == 0
            && t.proc == View({p}, map[o := late], false, late, Some(late), true, true)
            && t.seen.healthy && t.seen.stranded == map[] && p in t.seen.dispatched
            && TwoOrders(t.books.db, u, o, p, late)
            && StorageObject.IsNext(t.books.db, {p}, late, o) && NothingToDispatch(t.books.db, {p} + {o}, late)
  {
    var arriving := OrderArrives(s, 0, u, p);
    var s1 := After(s, arriving).value;
    OnlyTheNewOrderIsDue(s.books.db, u, o, p, s1.books.db);
    assert {} + {p} == {p};
    var failing := OrderFails(s1, p);
    AfterComposes(s, arriving, failing);
    steps := arriving + failing;
  }

  /** The second order is added too late; the first is settled by a worker. */
  lemma {:induction false} LateAdditionAndSettlement(
      s: State, u: UserId, o: OrderId, p: OrderId, early: Time, late: Time)
    returns (steps: seq<Step>)
    requires s.flow == ONE_IDLE_WORKER.(callback := Enqueueing(Event(u, p, 0), early), workCh := [Event(u, o, 1)])
    requires s.proc == View({p, o}, map[], false, late, None, true, true) && early < late == s.clock
    requires s.seen.healthy && s.seen.stranded == map[] && p in s.seen.dispatched
    requires TwoOrders(s.books.db, u, o, p, late)
    ensures After(s, steps).Some?
    ensures var t := After(s, steps).value;
            LeftBehind(t, p) && p in t.proc.pending && t.seen.stranded == map[p := TimerNotArmed]
  {
    var adding := LateAddition(s, Event(u, p, 0), early);
    var s1 := After(s, adding).value;
    assert s1.flow == ONE_IDLE_WORKER.(workCh := [Event(u, o, 1)]);
    var settling := OrderIsSettled(s1, Event(u, o, 1));
    AfterComposes(s, adding, settling);
    steps := adding + settling;
    IdleFlowIsStuck(After(s, steps).value);
  }

  // ---- A postponement that was not reported ----

  /** An order whose postponement broke, or was stored but not reported: it leaves the in-flight set without
  becoming pending, nothing arms a timer for it, and nothing looks for it again. */
  lemma {:induction false} UnreportedPostponementLeavesBehind(u: UserId, o: OrderId, at: Time, fault: Fault)
    returns (steps: seq<Step>)
    requires fault != Healthy
    ensures After(INITIAL, steps).Some?
    ensures var t := After(INITIAL, steps).value;
            && LeftBehind(t, o)
            && t.proc.pending == map[] && t.seen.stranded == map[] && t.seen.unreported == {o}
            && t.books.db.queue == map[o := if fault == LosesReply then QueueRow(at, 1) else QueueRow(0, 0)]
  {
    var first := FirstOrderFails(u, o);
    var s := After(INITIAL, first).value;
    var postponing := Processor.CallbackPostponesEvent(s, at, fault);
    AfterComposes(INITIAL, first, postponing);
    steps := Releases(INITIAL, first + postponing, After(s, postponing).value, at);
    IdleFlowIsStuck(After(INITIAL, steps).value);
  }

  lemma {:induction false} FirstOrderFails(u: UserId, o: OrderId) returns (steps: seq<Step>)
    ensures After(INITIAL, steps).Some?
    ensures var t := After(INITIAL, steps).value;
            && t.flow == ONE_IDLE_WORKER.(callback := Deciding(Event(u, o, 0), Other)) && t.clock == 0
            && t.proc == View({o}, map[], false, 0, None, true, true)
            && t.seen.healthy && t.seen.stranded == map[] && t.seen.dispatched == {o} && t.seen.unreported == {}
            && t.books.db.orders == map[o := OrderRow(u, New)] && t.books.db.queue == map[o := QueueRow(0, 0)]
  {
    var first := FirstOrder(u, o);
    var s := After(INITIAL, first).value;
    var failing := RunFails(s, o);
    AfterComposes(INITIAL, first, failing);
    steps := first + failing;
    assert s.seen.stranded - {o} == map[];
  }

  lemma {:induction false} RunFails(s: State, o: OrderId) returns (steps: seq<Step>)
    requires s.flow.main == Down && s.proc.inFlight == {}
    requires StorageObject.IsNext(s.books.db, {}, s.clock, o) && NothingToDispatch(s.books.db, {o}, s.clock)
    ensures After(s, steps) == Some(HandedOver(AtSelect(s), o).(
      flow := ONE_IDLE_WORKER.(callback := Deciding(EventFor(s.books.db, o), Other))))
  {
    var starting := RunStarts(s);
    assert {} + {o} == {o};
    var failing := OrderFails(AtSelect(s), o);
    AfterComposes(s, starting, failing);
    steps := starting + failing;
  }
}
