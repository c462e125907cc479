/** No lost notification: the single-slot notification channel, its drain-then-send use by concurrent
callers, and the main loop's "query until nothing is found" never leave an announced order behind. */
module Notification {
  import opened Common
  import opened Tables
  import opened OrderEvents
  import opened Pipeline
  import opened ProcessorState
  import Flight = SingleFlight
  import Processing
  import StorageObject
  import Worker

  /** Something will make the main loop query the queue again. */
  ghost predicate Signalled(s: State) {
    || s.proc.notified
    || s.flow.main == Draining || s.flow.main == Signalling
    || s.flow.main == Head || s.flow.main == Snapping || s.flow.main.Querying?
    || s.flow.main.Counting? || s.flow.main.Unpending? || s.flow.main.Handing?
    || exists p :: p in s.producers && s.producers[p].ToSend?
  }

  /** The call that created the order has not drained the channel yet. */
  ghost predicate Announcing(s: State, o: OrderId) {
    exists p :: p in s.producers && s.producers[p] == ToDrain(o)
  }

  /** Announced, but not handed to a worker of the latest run. */
  predicate Outstanding(s: State, o: OrderId) {
    o in s.seen.owed && o !in s.seen.dispatched
  }

  /** An outstanding order is open, queued and due, and something will make a healthy processor look for it. */
  ghost predicate CoveredAt(s: State, o: OrderId) {
    && (o in s.seen.owed ==> o in s.books.db.orders)
    && (Outstanding(s, o) ==> StorageObject.Eligible(s.books.db, {}, s.clock, o))
    && (s.seen.healthy && Outstanding(s, o) ==> Signalled(s) || Announcing(s, o))
  }

  /** What is in flight or excluded from the query was handed to the workers, or is about to be. */
  predicate DispatchedAt(s: State, o: OrderId) {
    && (o in s.proc.inFlight ==>
          o in s.seen.dispatched || (Flight.Carrying(s.flow.main) && s.flow.main.ev.order == o))
    && (s.flow.main.Querying? && o in s.flow.main.exclude ==> o in s.seen.dispatched)
  }

  ghost predicate Inv(s: State) {
    && Processing.Inv(s)
    && CancelSeen(s)
    && (forall o :: CoveredAt(s, o))
    && (forall o :: DispatchedAt(s, o))
  }

  // ---- The dispatched set ----

  lemma {:induction false} StepKeepsDispatched(s: State, step: Step, o: OrderId)
    requires Flight.ShapeInv(s) && Flight.FlightAt(s, o) && DispatchedAt(s, o) && Enabled(s, step)
    ensures DispatchedAt(Do(s, step), o)
  {
    match step
    case OfMain(m) =>
      if m.StartRun? {
        StartKeepsDispatched(s, m.preload, o);
      } else {
        MainKeepsDispatched(s, m, o);
      }
    case OfWorker(i, w) => WorkerKeepsDispatched(s, i, w, o);
    case OfCallback(c) => CallbackKeepsDispatched(s, c, o);
    case OfEnv(e) =>
  }

  lemma WorkerKeepsDispatched(s: State, i: nat, step: WorkerStep, o: OrderId)
    requires DispatchedAt(s, o) && WorkerEnabled(s, i, step)
    ensures DispatchedAt(DoWorker(s, i, step), o)
  {
  }

  lemma CallbackKeepsDispatched(s: State, step: CallbackStep, o: OrderId)
    requires DispatchedAt(s, o) && CallbackEnabled(s, step)
    ensures DispatchedAt(DoCallback(s, step), o)
  {
  }

  /** When a run starts nothing is in flight, so that its record of what it hands out can start anew. */
  lemma {:induction false} StartKeepsDispatched(s: State, preload: bool, o: OrderId)
    requires Flight.ShapeInv(s) && Flight.FlightAt(s, o) && MainEnabled(s, StartRun(preload))
    ensures DispatchedAt(DoMain(s, StartRun(preload)), o)
  {
    Flight.RestingHoldsNothing(s, o);
  }

  lemma {:induction false} MainKeepsDispatched(s: State, step: MainStep, o: OrderId)
    requires DispatchedAt(s, o) && MainEnabled(s, step) && !step.StartRun?
    ensures DispatchedAt(DoMain(s, step), o)
  {
  }

  /** A worker's or the callback goroutine's order was dispatched. */
  lemma {:induction false} HeldOrderWasDispatched(s: State, o: OrderId)
    requires Flight.FlightAt(s, o) && DispatchedAt(s, o)
    requires Flight.Holders(s.flow, o) > Flight.InMain(s.flow.main, o)
    ensures o in s.seen.dispatched
  {
  }

  // ---- The calls ----

  lemma CallsKeepEligible(op: Op, db: Db, now: Time, o: OrderId)
    requires StorageObject.Eligible(db, {}, now, o) && Transact(op, db).Committed?
    requires Processing.IsMark(op) || op.Postpone? ==> op.order != o
    ensures StorageObject.Eligible(Transact(op, db).db, {}, now, o)
  {
  }

  lemma CallsCreateEligible(op: Op, db: Db, now: Time, o: OrderId)
    requires o !in db.orders && Transact(op, db).Committed? && o in Transact(op, db).db.orders
    requires op.CreateOrder? ==> op.now <= now
    ensures StorageObject.Eligible(Transact(op, db).db, {}, now, o)
  {
  }

  lemma {:induction false} MarkedOrderWasDispatched(s: State, i: nat)
    requires Inv(s) && i < |s.flow.workers| && s.flow.workers[i].Marking?
    ensures s.flow.workers[i].ev.order in s.seen.dispatched
  {
    Flight.WorkerHolds(s.flow.workers, i);
    var o := s.flow.workers[i].ev.order;
    assert Flight.FlightAt(s, o) && DispatchedAt(s, o);
    HeldOrderWasDispatched(s, o);
  }

  lemma {:induction false} MarkKeepsCovered(s: State, i: nat, fault: Fault, o: OrderId)
    requires Inv(s) && WorkerEnabled(s, i, Mark(fault))
    ensures CoveredAt(DoWorker(s, i, Mark(fault)), o)
  {
    var pc := s.flow.workers[i];
    var op, s' := Worker.MarkCall(pc.ev.user, pc.answer), DoWorker(s, i, Mark(fault));
    assert Processing.WorkerOk(s.books.db, pc);
    Processing.MarkCallIsGuarded(s.books.db, pc);
    MarkedOrderWasDispatched(s, i);
    assert CoveredAt(s, o);
    if Worker.MarkAnswer(s.books.db, pc.ev.user, pc.answer, fault).committed {
      if Outstanding(s, o) {
        CallsKeepEligible(op, s.books.db, s.clock, o);
      }
      assert s'.books.db.orders.Keys == s.books.db.orders.Keys;
    }
    assert Signalled(s) ==> Signalled(s');
    assert Announcing(s, o) ==> Announcing(s', o);
  }

  lemma {:induction false} PutBackKeepsCovered(s: State, fault: Fault, o: OrderId)
    requires Inv(s) && CallbackEnabled(s, PutBack(fault))
    ensures CoveredAt(DoCallback(s, PutBack(fault)), o)
  {
    var op, s' := Postpone(s.flow.callback.ev.order, s.flow.callback.at), DoCallback(s, PutBack(fault));
    assert Flight.FlightAt(s, op.order) && DispatchedAt(s, op.order) && CoveredAt(s, o);
    HeldOrderWasDispatched(s, op.order);
    if Transact(op, s.books.db).Committed? && Outstanding(s, o) {
      CallsKeepEligible(op, s.books.db, s.clock, o);
    }
    assert Signalled(s) ==> Signalled(s');
    assert Announcing(s, o) ==> Announcing(s', o);
  }

  /** After a call of the API an order is still, or newly, eligible. */
  lemma {:induction false} ApiCallKeepsEligible(s: State, step: EnvStep, fault: Fault, o: OrderId)
    requires ApiTransaction(s, step).Some?
    ensures var before, after := s.books.db, Transacted(s.books, ApiTransaction(s, step).value, fault).db;
            && (o in before.orders ==> o in after.orders)
            && (StorageObject.Eligible(before, {}, s.clock, o) || (o !in before.orders && o in after.orders)
                ==> StorageObject.Eligible(after, {}, s.clock, o))
  {
    var op := ApiTransaction(s, step).value;
    if Transact(op, s.books.db).Committed? {
      if o !in s.books.db.orders {
        if o in Transact(op, s.books.db).db.orders {
          CallsCreateEligible(op, s.books.db, s.clock, o);
        }
      } else if StorageObject.Eligible(s.books.db, {}, s.clock, o) {
        CallsKeepEligible(op, s.books.db, s.clock, o);
      }
    }
  }

  lemma {:induction false} SubmitKeepsCovered(s: State, step: EnvStep, o: OrderId)
    requires CoveredAt(s, o) && EnvEnabled(s, step) && step.Submit?
    ensures CoveredAt(DoEnv(s, step), o)
  {
    var s', p := DoEnv(s, step), step.producer;
    if ApiTransaction(s, step).Some? {
      ApiCallKeepsEligible(s, step, step.fault, o);
      var op := ApiTransaction(s, step).value;
      if Attempted(op, s.books.db, step.fault).reported {
        assert p in s'.producers && s'.producers[p] == ToDrain(step.order);
        forall q | q in s.producers
          ensures q in s'.producers && s'.producers[q] == s.producers[q]
        {
        }
      }
    }
    assert Signalled(s) ==> Signalled(s');
    assert Announcing(s, o) ==> Announcing(s', o);
  }

  lemma {:induction false} ProducerKeepsCovered(s: State, step: EnvStep, o: OrderId)
    requires CoveredAt(s, o) && EnvEnabled(s, step) && (step.ProducerDrains? || step.ProducerSends?)
    ensures CoveredAt(DoEnv(s, step), o)
  {
    var s', p := DoEnv(s, step), step.producer;
    if step.ProducerDrains? {
      assert p in s'.producers && s'.producers[p].ToSend?;
    }
    assert Signalled(s');
  }

  lemma {:induction false} EnvKeepsCovered(s: State, step: EnvStep, o: OrderId)
    requires CoveredAt(s, o) && EnvEnabled(s, step)
    ensures CoveredAt(DoEnv(s, step), o)
  {
    match step
    case Submit(_, _, _, _) => SubmitKeepsCovered(s, step, o);
    case ProducerDrains(_) => ProducerKeepsCovered(s, step, o);
    case ProducerSends(_) => ProducerKeepsCovered(s, step, o);
    case Register(_, fault) => OtherCallKeepsCovered(s, step, fault, o);
    case Spend(_, _, _, fault) => OtherCallKeepsCovered(s, step, fault, o);
    case Cancel =>
    case AdvanceClock(_) =>
      assert Signalled(s) ==> Signalled(DoEnv(s, step));
      assert Announcing(s, o) ==> Announcing(DoEnv(s, step), o);
    case Crash =>
  }

  lemma {:induction false} OtherCallKeepsCovered(s: State, step: EnvStep, fault: Fault, o: OrderId)
    requires CoveredAt(s, o) && (step.Register? || step.Spend?)
    ensures CoveredAt(WithApiCall(s, ApiTransaction(s, step), fault), o)
  {
    var s' := WithApiCall(s, ApiTransaction(s, step), fault);
    if ApiTransaction(s, step).Some? {
      ApiCallKeepsEligible(s, step, fault, o);
    }
    assert Signalled(s) ==> Signalled(s');
    assert Announcing(s, o) ==> Announcing(s', o);
  }

  // ---- The processor's own steps ----

  /** A query that finds nothing leaves nothing outstanding. */
  lemma {:induction false} NoneFoundMeansAllDispatched(s: State, o: OrderId)
    requires CoveredAt(s, o) && DispatchedAt(s, o) && MainEnabled(s, NoneFound)
    ensures !Outstanding(s, o)
  {
    assert Outstanding(s, o) ==> StorageObject.Eligible(s.books.db, s.flow.main.exclude, s.clock, o);
  }

  lemma {:induction false} StartKeepsCovered(s: State, preload: bool, o: OrderId)
    requires CoveredAt(s, o) && MainEnabled(s, StartRun(preload))
    ensures CoveredAt(DoMain(s, StartRun(preload)), o)
  {
    var s' := DoMain(s, StartRun(preload));
    assert Signalled(s) ==> Signalled(s');
    assert Announcing(s, o) ==> Announcing(s', o);
  }

  lemma {:induction false} MainKeepsCovered(s: State, step: MainStep, o: OrderId)
    requires CoveredAt(s, o) && DispatchedAt(s, o) && MainEnabled(s, step)
    requires CancelSeen(s) && !step.NoneFound? && !step.StartRun?
    ensures CoveredAt(DoMain(s, step), o)
  {
    var s' := DoMain(s, step);
    assert (exists p :: p in s.producers && s.producers[p].ToSend?)
        ==> exists p :: p in s'.producers && s'.producers[p].ToSend?;
    assert Announcing(s, o) ==> Announcing(s', o);
  }

  lemma {:induction false} QuietStepKeepsCovered(s: State, s': State, o: OrderId)
    requires CoveredAt(s, o)
    requires s'.books == s.books && s'.clock == s.clock && s'.producers == s.producers
    requires s'.seen.(stranded := s.seen.stranded) == s.seen
    requires s'.flow.main == s.flow.main && s'.proc.notified == s.proc.notified
    ensures CoveredAt(s', o)
  {
    assert Signalled(s) ==> Signalled(s');
    assert Announcing(s, o) ==> Announcing(s', o);
  }

  lemma {:induction false} MainStepKeepsCovered(s: State, step: MainStep, o: OrderId)
    requires CoveredAt(s, o) && DispatchedAt(s, o) && CancelSeen(s) && MainEnabled(s, step)
    ensures CoveredAt(DoMain(s, step), o)
  {
    if step == NoneFound {
      NoneFoundMeansAllDispatched(s, o);
    } else if step.StartRun? {
      StartKeepsCovered(s, step.preload, o);
    } else {
      MainKeepsCovered(s, step, o);
    }
  }

  lemma {:induction false} WorkerKeepsCovered(s: State, i: nat, step: WorkerStep, o: OrderId)
    requires CoveredAt(s, o) && WorkerEnabled(s, i, step) && !step.Mark?
    ensures CoveredAt(DoWorker(s, i, step), o)
  {
    QuietStepKeepsCovered(s, DoWorker(s, i, step), o);
  }

  lemma {:induction false} CallbackKeepsCovered(s: State, step: CallbackStep, o: OrderId)
    requires CoveredAt(s, o) && CallbackEnabled(s, step) && !step.PutBack?
    ensures CoveredAt(DoCallback(s, step), o)
  {
    QuietStepKeepsCovered(s, DoCallback(s, step), o);
  }

  lemma {:induction false} StepKeepsCovered(s: State, step: Step, o: OrderId)
    requires Inv(s) && Enabled(s, step)
    ensures CoveredAt(Do(s, step), o)
  {
    assert CoveredAt(s, o) && DispatchedAt(s, o);
    match step
    case OfMain(m) => MainStepKeepsCovered(s, m, o);
    case OfWorker(i, w) =>
      if w.Mark? {
        MarkKeepsCovered(s, i, w.fault, o);
      } else {
        WorkerKeepsCovered(s, i, w, o);
      }
    case OfCallback(c) =>
      if c.PutBack? {
        PutBackKeepsCovered(s, c.fault, o);
      } else {
        CallbackKeepsCovered(s, c, o);
      }
    case OfEnv(e) => EnvKeepsCovered(s, e, o);
  }

  predicate CancelSeen(s: State) {
    s.flow.cancelled ==> !s.seen.healthy
  }

  lemma MainKeepsCancelSeen(s: State, step: MainStep)
    requires CancelSeen(s) && MainEnabled(s, step)
    ensures CancelSeen(DoMain(s, step))
  {
  }

  lemma WorkerKeepsCancelSeen(s: State, i: nat, step: WorkerStep)
    requires CancelSeen(s) && WorkerEnabled(s, i, step)
    ensures CancelSeen(DoWorker(s, i, step))
  {
  }

  lemma CallbackKeepsCancelSeen(s: State, step: CallbackStep)
    requires CancelSeen(s) && CallbackEnabled(s, step)
    ensures CancelSeen(DoCallback(s, step))
  {
  }

  /** A cancel makes a run unhealthy until the next run that preloads. */
  lemma {:induction false} StepKeepsCancelSeen(s: State, step: Step)
    requires CancelSeen(s) && Enabled(s, step)
    ensures CancelSeen(Do(s, step))
  {
    match step
    case OfMain(m) => MainKeepsCancelSeen(s, m);
    case OfWorker(i, w) => WorkerKeepsCancelSeen(s, i, w);
    case OfCallback(c) => CallbackKeepsCancelSeen(s, c);
    case OfEnv(_) =>
  }

  lemma {:induction false} StepKeepsInv(s: State, step: Step)
    requires Inv(s) && Enabled(s, step)
    ensures Inv(Do(s, step))
  {
    Processing.StepKeepsInv(s, step);
    StepKeepsCancelSeen(s, step);
    forall o
      ensures CoveredAt(Do(s, step), o)
    {
      StepKeepsCovered(s, step, o);
    }
    forall o
      ensures DispatchedAt(Do(s, step), o)
    {
      assert Flight.FlightAt(s, o) && DispatchedAt(s, o);
      StepKeepsDispatched(s, step, o);
    }
  }

  lemma {:induction false} RunKeepsInv(s: State, steps: seq<Step>)
    requires Inv(s) && After(s, steps).Some?
    ensures Inv(After(s, steps).value)
    decreases |steps|
  {
    if steps != [] {
      StepKeepsInv(s, steps[0]);
      RunKeepsInv(Do(s, steps[0]), steps[1..]);
    }
  }

  lemma InitialInv()
    ensures Inv(INITIAL)
  {
    Processing.InitialInv();
  }

  /** The processor is idle and nobody is between draining and filling the notification channel. */
  ghost predicate AtRest(s: State) {
    && s.flow.main == Selecting && !s.proc.notified
    && forall p :: p in s.producers ==> !s.producers[p].ToSend?
  }

  /** Whenever a healthy processor is idle, every order announced to it, by a finished CreateOrder call
  or by a preloading start that found it due, has been handed to a worker of the latest run. */
  lemma {:induction false} NoNotificationIsLost(steps: seq<Step>, o: OrderId)
    requires After(INITIAL, steps).Some?
    requires var s := After(INITIAL, steps).value;
             s.seen.healthy && AtRest(s) && o in s.seen.owed && !Announcing(s, o)
    ensures o in After(INITIAL, steps).value.seen.dispatched
  {
    InitialInv();
    RunKeepsInv(INITIAL, steps);
    assert CoveredAt(After(INITIAL, steps).value, o);
  }

  /** Some run has handed the order to a worker by one of the steps, or had done so before them. */
  ghost predicate HandedOut(s: State, steps: seq<Step>, o: OrderId) {
    exists k :: 0 <= k <= |steps| && After(s, steps[..k]).Some? && o in After(s, steps[..k]).value.seen.dispatched
  }

  lemma {:induction false} StepKeepsOwed(s: State, step: Step, o: OrderId)
    requires CoveredAt(s, o) && Enabled(s, step) && o in s.seen.owed
    ensures o in Do(s, step).seen.owed || (o in s.seen.dispatched && step.OfMain? && step.mainStep.StartRun?)
  {
    if step.OfMain? {
      MainKeepsOwed(s, step.mainStep, o);
    }
  }

  lemma MainKeepsOwed(s: State, step: MainStep, o: OrderId)
    requires CoveredAt(s, o) && MainEnabled(s, step) && o in s.seen.owed
    ensures o in DoMain(s, step).seen.owed || (o in s.seen.dispatched && step.StartRun?)
  {
  }

  /** An announced order stays announced at least until it has been handed out; only the start of a
  further run takes it off. */
  lemma {:induction false} OwedUntilHandedOut(s: State, steps: seq<Step>, o: OrderId)
    requires Inv(s) && After(s, steps).Some? && o in s.seen.owed
    ensures o in After(s, steps).value.seen.owed || HandedOut(s, steps, o)
    ensures (forall k :: 0 <= k < |steps| ==> !StartsRun(steps[k])) ==> o in After(s, steps).value.seen.owed
    decreases |steps|
  {
    if steps != [] {
      assert CoveredAt(s, o);
      StepKeepsOwed(s, steps[0], o);
      if o in Do(s, steps[0]).seen.owed {
        StepKeepsInv(s, steps[0]);
        OwedUntilHandedOut(Do(s, steps[0]), steps[1..], o);
        if HandedOut(Do(s, steps[0]), steps[1..], o) {
          HandedOutLater(s, steps, o);
        }
      } else {
        assert StartsRun(steps[0]);
        assert steps[..0] == [];
      }
    }
  }

  predicate StartsRun(step: Step) {
    step.OfMain? && step.mainStep.StartRun?
  }

  lemma {:induction false} HandedOutLater(s: State, steps: seq<Step>, o: OrderId)
    requires steps != [] && Enabled(s, steps[0]) && HandedOut(Do(s, steps[0]), steps[1..], o)
    ensures HandedOut(s, steps, o)
  {
    var t, rest := Do(s, steps[0]), steps[1..];
    var k :| 0 <= k <= |rest| && After(t, rest[..k]).Some? && o in After(t, rest[..k]).value.seen.dispatched;
    assert steps[..k + 1][1..] == rest[..k];
  }

  /** A successful CreateOrder announces its order and a preloading start every order that is due; what
  was announced stays so until it has been handed to a worker, and for the rest of the run. */
  lemma {:induction false} AnnouncedUntilHandedOut(s: State, step: Step, later: seq<Step>, o: OrderId)
    requires Inv(s) && Enabled(s, step) && After(Do(s, step), later).Some?
    requires || (step == OfMain(StartRun(true)) && StorageObject.Eligible(s.books.db, {}, s.clock, o))
             || (step.OfEnv? && step.envStep.Submit? && step.envStep.order == o
                 && Do(s, step).producers != s.producers)
    ensures o in After(Do(s, step), later).value.seen.owed || HandedOut(Do(s, step), later, o)
    ensures (forall k :: 0 <= k < |later| ==> !StartsRun(later[k])) ==> o in After(Do(s, step), later).value.seen.owed
  {
    StepKeepsInv(s, step);
    OwedUntilHandedOut(Do(s, step), later, o);
  }

  /** A preloading start hands out everything that is due when it starts, including what an earlier run
  or process had handed out and left unfinished. */
  lemma {:induction false} PreloadingHandsOutWhatIsDue(first: seq<Step>, later: seq<Step>, o: OrderId)
    requires After(INITIAL, first).Some?
    requires var s := After(INITIAL, first).value;
             && MainEnabled(s, StartRun(true)) && StorageObject.Eligible(s.books.db, {}, s.clock, o)
             && After(DoMain(s, StartRun(true)), later).Some?
    requires forall k :: 0 <= k < |later| ==> !StartsRun(later[k])
    requires var t := After(DoMain(After(INITIAL, first).value, StartRun(true)), later).value;
             t.seen.healthy && AtRest(t) && !Announcing(t, o)
    ensures var t := After(DoMain(After(INITIAL, first).value, StartRun(true)), later).value;
            o in t.seen.dispatched
  {
    var s, step := After(INITIAL, first).value, OfMain(StartRun(true));
    InitialInv();
    RunKeepsInv(INITIAL, first);
    AnnouncedUntilHandedOut(s, step, later, o);
    StepKeepsInv(s, step);
    RunKeepsInv(Do(s, step), later);
    assert CoveredAt(After(Do(s, step), later).value, o);
  }
}
