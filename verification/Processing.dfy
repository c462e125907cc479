/** The processor and the store together: in every reachable state the log of committed transactions is
guarded, because no order's status changes between a worker's status check and its Mark call. What the
store alone does not give (module Ledger) therefore holds of the composed system. */
module Processing {
  import opened Common
  import opened Tables
  import opened Ledger
  import opened OrderEvents
  import opened Pipeline
  import opened ProcessorState
  import Flight = SingleFlight
  import Reference
  import StorageObject
  import Worker

  /** An event names a stored order and its owner, and while the order is queued it carries the retry
  count of the queue row. */
  predicate EventOk(db: Db, ev: Event) {
    && ev.order in db.orders && db.orders[ev.order].user == ev.user
    && (ev.order in db.queue ==> db.queue[ev.order].retries == ev.retries)
  }

  predicate MainOk(db: Db, pc: MainPc) {
    pc.Counting? || pc.Unpending? || pc.Handing? ==> EventOk(db, pc.ev)
  }

  predicate ChannelOk(db: Db, ch: seq<Event>) {
    forall k :: 0 <= k < |ch| ==> EventOk(db, ch[k])
  }

  /** From the status check to the Mark call the order stays open. */
  predicate WorkerOk(db: Db, pc: WorkerPc) {
    Flight.Busy(pc) ==>
      && EventOk(db, pc.ev)
      && (pc.Asking? || pc.Marking? ==> Open(db.orders[pc.ev.order].status))
      && (pc.Marking? ==> pc.answer.order == pc.ev.order)
  }

  predicate WorkersOk(db: Db, pcs: seq<WorkerPc>) {
    forall i :: 0 <= i < |pcs| ==> WorkerOk(db, pcs[i])
  }

  predicate ResultOk(db: Db, ch: Option<Result>) {
    ch.Some? ==> EventOk(db, ch.value.ev)
  }

  /** Up to the postponement; afterwards the row counts one more. */
  predicate CallbackOk(db: Db, pc: CallbackPc) {
    pc.Deciding? || pc.Enqueueing? || pc.Postponing? ==> EventOk(db, pc.ev)
  }

  predicate EventsOk(db: Db, f: Flow) {
    && MainOk(db, f.main)
    && ChannelOk(db, f.workCh)
    && WorkersOk(db, f.workers)
    && ResultOk(db, f.callbackCh)
    && CallbackOk(db, f.callback)
  }

  predicate BooksOk(books: Books) {
    Guarded(books.log) && RunAll(books.log) == Some(books.db)
  }

  ghost predicate Inv(s: State) {
    Flight.Inv(s) && BooksOk(s.books) && EventsOk(s.books.db, s.flow)
  }

  // ---- What one transaction leaves alone ----

  lemma CallsKeepEvents(op: Op, db: Db, ev: Event)
    requires EventOk(db, ev) && Transact(op, db).Committed?
    requires op.Postpone? ==> op.order != ev.order
    ensures EventOk(Transact(op, db).db, ev)
  {
  }

  lemma CallsKeepOtherOrdersOpen(op: Op, db: Db, o: OrderId)
    requires o in db.orders && Transact(op, db).Committed?
    requires op.MarkProcessing? || op.MarkInvalid? || op.MarkProcessed? ==> op.order != o
    ensures o in Transact(op, db).db.orders && Transact(op, db).db.orders[o].status == db.orders[o].status
  {
  }

  predicate IsMark(op: Op) {
    op.MarkProcessing? || op.MarkInvalid? || op.MarkProcessed?
  }

  /** A transaction keeps every event whose order it does not mark or postpone. */
  lemma {:induction false} CallsKeepWorkers(op: Op, db: Db, pc: WorkerPc)
    requires WorkerOk(db, pc) && Transact(op, db).Committed?
    requires Flight.Busy(pc) && (IsMark(op) || op.Postpone?) ==> op.order != pc.ev.order
    ensures WorkerOk(Transact(op, db).db, pc)
  {
    if Flight.Busy(pc) {
      CallsKeepEvents(op, db, pc.ev);
      CallsKeepOtherOrdersOpen(op, db, pc.ev.order);
    }
  }

  /** The flow stays in order around a call that marks or postpones only orders of nobody in `f`. */
  lemma {:induction false} CallsKeepFlow(op: Op, db: Db, f: Flow)
    requires EventsOk(db, f) && Transact(op, db).Committed?
    requires forall i :: 0 <= i < |f.workers| && Flight.Busy(f.workers[i]) && (IsMark(op) || op.Postpone?)
               ==> op.order != f.workers[i].ev.order
    requires op.Postpone? ==> NotElsewhere(f, op.order)
    ensures EventsOk(Transact(op, db).db, f)
  {
    var db' := Transact(op, db).db;
    if f.main.Counting? || f.main.Unpending? || f.main.Handing? {
      CallsKeepEvents(op, db, f.main.ev);
    }
    forall k | 0 <= k < |f.workCh|
      ensures EventOk(db', f.workCh[k])
    {
      CallsKeepEvents(op, db, f.workCh[k]);
    }
    forall i | 0 <= i < |f.workers|
      ensures WorkerOk(db', f.workers[i])
    {
      CallsKeepWorkers(op, db, f.workers[i]);
    }
    if f.callbackCh.Some? {
      CallsKeepEvents(op, db, f.callbackCh.value.ev);
    }
    if f.callback.Deciding? || f.callback.Enqueueing? || f.callback.Postponing? {
      CallsKeepEvents(op, db, f.callback.ev);
    }
  }

  /** Neither the main goroutine, the channels nor the callback goroutine hold the order. */
  predicate NotElsewhere(f: Flow, o: OrderId) {
    && (f.main.Counting? || f.main.Unpending? || f.main.Handing? ==> f.main.ev.order != o)
    && (forall k :: 0 <= k < |f.workCh| ==> f.workCh[k].order != o)
    && (f.callbackCh.Some? ==> f.callbackCh.value.ev.order != o)
    && (f.callback.Deciding? || f.callback.Enqueueing? || f.callback.Postponing? ==> f.callback.ev.order != o)
  }

  // ---- Single flight at work ----

  lemma {:induction false} BusyWorkerIsAlone(s: State, i: nat, j: nat)
    requires Flight.Inv(s) && i < |s.flow.workers| && j < |s.flow.workers| && i != j
    requires Flight.Busy(s.flow.workers[i]) && Flight.Busy(s.flow.workers[j])
    ensures s.flow.workers[i].ev.order != s.flow.workers[j].ev.order
  {
    if s.flow.workers[i].ev.order == s.flow.workers[j].ev.order {
      assert Flight.FlightAt(s, s.flow.workers[i].ev.order);
      Flight.TwoBusyWorkers(s.flow.workers, i, j);
    }
  }

  lemma {:induction false} EngagedCallbackIsAlone(s: State)
    requires Flight.Inv(s) && Flight.Engaged(s.flow.callback)
    ensures NotElsewhere(s.flow.(callback := Listening), s.flow.callback.ev.order)
    ensures forall i :: 0 <= i < |s.flow.workers| && Flight.Busy(s.flow.workers[i])
              ==> s.flow.workers[i].ev.order != s.flow.callback.ev.order
  {
    var f, o := s.flow, s.flow.callback.ev.order;
    assert Flight.FlightAt(s, o);
    forall k | 0 <= k < |f.workCh|
      ensures f.workCh[k].order != o
    {
      Flight.ChannelHolds(f.workCh, k);
    }
    forall i | 0 <= i < |f.workers| && Flight.Busy(f.workers[i])
      ensures f.workers[i].ev.order != o
    {
      Flight.WorkerHolds(f.workers, i);
    }
  }

  // ---- Steps ----

  lemma {:induction false} CommittedKeepsBooks(books: Books, op: Op, fault: Fault)
    requires BooksOk(books) && Permitted(op, books.db)
    ensures BooksOk(Transacted(books, op, fault))
  {
    if Transact(op, books.db).Committed? {
      GuardedAppends(books.log, op);
    }
  }

  lemma MainLeavesBooks(s: State, step: MainStep)
    requires MainEnabled(s, step)
    ensures DoMain(s, step).books == s.books
  {
  }

  lemma {:induction false} QueueStepKeepsEvents(s: State, step: MainStep)
    requires EventsOk(s.books.db, s.flow) && MainEnabled(s, step) && Flight.OfQueue(step)
    ensures EventsOk(s.books.db, DoMain(s, step).flow)
  {
  }

  lemma {:induction false} RunStepKeepsEvents(s: State, step: MainStep)
    requires EventsOk(s.books.db, s.flow) && MainEnabled(s, step) && !Flight.OfQueue(step)
    ensures EventsOk(s.books.db, DoMain(s, step).flow)
  {
  }

  lemma {:induction false} MainKeepsInv(s: State, step: MainStep)
    requires Inv(s) && MainEnabled(s, step)
    ensures BooksOk(DoMain(s, step).books) && EventsOk(DoMain(s, step).books.db, DoMain(s, step).flow)
  {
    MainLeavesBooks(s, step);
    if Flight.OfQueue(step) {
      QueueStepKeepsEvents(s, step);
    } else {
      RunStepKeepsEvents(s, step);
    }
  }

  lemma MarkCallIsGuarded(db: Db, pc: WorkerPc)
    requires WorkerOk(db, pc) && pc.Marking?
    ensures Permitted(Worker.MarkCall(pc.ev.user, pc.answer), db) && IsMark(Worker.MarkCall(pc.ev.user, pc.answer))
    ensures Worker.MarkCall(pc.ev.user, pc.answer).order == pc.ev.order
  {
  }

  /** A committed Mark call of worker i keeps everybody else's events in order, and its own as well. */
  lemma {:induction false} CommittedMarkKeepsFlow(s: State, i: nat, op: Op, failure: OrderEvents.Failure)
    requires Inv(s) && i < |s.flow.workers| && Flight.Busy(s.flow.workers[i])
    requires IsMark(op) && op.order == s.flow.workers[i].ev.order && Transact(op, s.books.db).Committed?
    ensures EventsOk(Transact(op, s.books.db).db,
                     s.flow.(workers := s.flow.workers[i := Reporting(s.flow.workers[i].ev, failure)]))
  {
    var ev, db' := s.flow.workers[i].ev, Transact(op, s.books.db).db;
    var others := s.flow.(workers := s.flow.workers[i := Idle]);
    forall j | 0 <= j < |others.workers| && Flight.Busy(others.workers[j])
      ensures op.order != others.workers[j].ev.order
    {
      BusyWorkerIsAlone(s, i, j);
    }
    CallsKeepFlow(op, s.books.db, others);
    CallsKeepEvents(op, s.books.db, ev);
    var reporting := others.workers[i := Reporting(ev, failure)];
    assert WorkersOk(db', reporting);
    assert reporting == s.flow.workers[i := Reporting(ev, failure)];
  }

  lemma {:induction false} MarkKeepsBooks(books: Books, pc: WorkerPc, fault: Fault)
    requires BooksOk(books) && WorkerOk(books.db, pc) && pc.Marking?
    ensures BooksOk(Marked(books, pc.ev, pc.answer, fault))
  {
    MarkCallIsGuarded(books.db, pc);
    if Worker.MarkAnswer(books.db, pc.ev.user, pc.answer, fault).committed {
      GuardedAppends(books.log, Worker.MarkCall(pc.ev.user, pc.answer));
    }
  }

  lemma {:induction false} MarkKeepsInv(s: State, i: nat, fault: Fault)
    requires Inv(s) && WorkerEnabled(s, i, Mark(fault))
    ensures BooksOk(DoWorker(s, i, Mark(fault)).books)
    ensures EventsOk(DoWorker(s, i, Mark(fault)).books.db, DoWorker(s, i, Mark(fault)).flow)
  {
    var pc := s.flow.workers[i];
    var op := Worker.MarkCall(pc.ev.user, pc.answer);
    MarkCallIsGuarded(s.books.db, pc);
    MarkKeepsBooks(s.books, pc, fault);
    var marked := Worker.MarkAnswer(s.books.db, pc.ev.user, pc.answer, fault);
    if marked.committed {
      CommittedMarkKeepsFlow(s, i, op, marked.failure);
    } else {
      assert WorkerOk(s.books.db, Reporting(pc.ev, marked.failure));
    }
  }

  lemma {:induction false} WorkerKeepsInv(s: State, i: nat, step: WorkerStep)
    requires Inv(s) && WorkerEnabled(s, i, step) && !step.Mark?
    ensures BooksOk(DoWorker(s, i, step).books)
    ensures EventsOk(DoWorker(s, i, step).books.db, DoWorker(s, i, step).flow)
  {
    assert WorkerOk(s.books.db, s.flow.workers[i]);
    assert WorkerOk(s.books.db, NextWorkerPc(s, i, step));
  }

  lemma {:induction false} PutBackKeepsInv(s: State, fault: Fault)
    requires Inv(s) && CallbackEnabled(s, PutBack(fault))
    ensures BooksOk(DoCallback(s, PutBack(fault)).books)
    ensures EventsOk(DoCallback(s, PutBack(fault)).books.db, s.flow.(callback := Listening))
  {
    var op := Postpone(s.flow.callback.ev.order, s.flow.callback.at);
    CommittedKeepsBooks(s.books, op, fault);
    EngagedCallbackIsAlone(s);
    if Transact(op, s.books.db).Committed? {
      CallsKeepFlow(op, s.books.db, s.flow.(callback := Listening));
    }
  }

  lemma {:induction false} CallbackKeepsInv(s: State, step: CallbackStep)
    requires Inv(s) && CallbackEnabled(s, step)
    ensures BooksOk(DoCallback(s, step).books)
    ensures EventsOk(DoCallback(s, step).books.db, DoCallback(s, step).flow)
  {
    if step.PutBack? {
      PutBackKeepsInv(s, step.fault);
    }
  }

  predicate CallsApi(step: EnvStep) {
    step.Register? || step.Spend? || step.Submit?
  }

  lemma {:induction false} ApiCallKeepsInv(s: State, step: EnvStep)
    requires Inv(s) && CallsApi(step)
    ensures var books := WithApiCall(s, ApiTransaction(s, step), step.fault).books;
            BooksOk(books) && EventsOk(books.db, s.flow)
  {
    var op := ApiTransaction(s, step);
    if op.Some? {
      CommittedKeepsBooks(s.books, op.value, step.fault);
      if Transact(op.value, s.books.db).Committed? {
        CallsKeepFlow(op.value, s.books.db, s.flow);
      }
    }
  }

  lemma ApiCallsActOnBooks(s: State, step: EnvStep)
    requires EnvEnabled(s, step)
    ensures DoEnv(s, step).books
         == if CallsApi(step) then WithApiCall(s, ApiTransaction(s, step), step.fault).books else s.books
    ensures CallsApi(step) ==> DoEnv(s, step).flow == s.flow
  {
  }

  lemma {:induction false} EnvKeepsInv(s: State, step: EnvStep)
    requires Inv(s) && EnvEnabled(s, step)
    ensures BooksOk(DoEnv(s, step).books)
    ensures EventsOk(DoEnv(s, step).books.db, DoEnv(s, step).flow)
  {
    ApiCallsActOnBooks(s, step);
    if CallsApi(step) {
      ApiCallKeepsInv(s, step);
    }
  }

  lemma {:induction false} StepKeepsInv(s: State, step: Step)
    requires Inv(s) && Enabled(s, step)
    ensures Inv(Do(s, step))
  {
    Flight.StepKeepsInv(s, step);
    match step
    case OfMain(m) => MainKeepsInv(s, m);
    case OfWorker(i, w) =>
      if w.Mark? {
        MarkKeepsInv(s, i, w.fault);
      } else {
        WorkerKeepsInv(s, i, w);
      }
    case OfCallback(c) => CallbackKeepsInv(s, c);
    case OfEnv(e) => EnvKeepsInv(s, e);
  }

  lemma {:induction false} RunKeepsInv(s: State, steps: seq<Step>)
    requires Inv(s) && After(s, steps).Some?
    ensures Inv(After(s, steps).value)
    decreases |steps|
  {
    if steps != [] {
      StepKeepsInv(s, steps[0]);
      RunKeepsInv(Do(s, steps[0]), steps[1..]);
    }
  }

  lemma InitialInv()
    ensures Inv(INITIAL)
  {
    Flight.InitialInv();
  }

  // ---- Main results ----

  /** In every reachable state every Mark transaction ever committed found its order open. */
  lemma {:induction false} NoGuardIsEverNeeded(steps: seq<Step>)
    requires After(INITIAL, steps).Some?
    ensures var books := After(INITIAL, steps).value.books;
            Guarded(books.log) && RunAll(books.log) == Some(books.db)
  {
    InitialInv();
    RunKeepsInv(INITIAL, steps);
  }

  /** An order is queued exactly while it is open, so no unfinished order is dropped; it has points
  exactly when it is processed, and these were credited exactly once. */
  lemma {:induction false} OrdersAreCreditedOnce(steps: seq<Step>, o: OrderId)
    requires After(INITIAL, steps).Some?
    ensures var books := After(INITIAL, steps).value.books; OrderInOrder(books.log, books.db, o)
  {
    NoGuardIsEverNeeded(steps);
    CreditedOnce(After(INITIAL, steps).value.books.log, o);
  }

  /** Every user's balance is non-negative, what was withdrawn is the sum of the user's withdrawals, and
  both together are the points of the user's processed orders. */
  lemma {:induction false} BalancesAreEarned(steps: seq<Step>, u: UserId)
    requires After(INITIAL, steps).Some?
    ensures var db := After(INITIAL, steps).value.books.db;
            u in db.users ==>
              && u in db.balances
              && db.balances[u].current >= 0
              && db.balances[u].withdrawn == WithdrawnBy(db, u)
              && db.balances[u].current + db.balances[u].withdrawn == EarnedBy(db, u)
  {
    NoGuardIsEverNeeded(steps);
    BalanceIsEarnings(After(INITIAL, steps).value.books.log, u);
    MoneyIsConserved(After(INITIAL, steps).value.books.log, u);
  }

  /** The unguarded store and the guarded reference repository are in step in every reachable state. */
  lemma {:induction false} StoreAndReferenceAgree(steps: seq<Step>)
    requires After(INITIAL, steps).Some?
    ensures var books := After(INITIAL, steps).value.books;
            Reference.Replay(books.log).Accepted? && Reference.Agrees(books.db, Reference.Replay(books.log).ref)
  {
    NoGuardIsEverNeeded(steps);
    Reference.StoreRefinesReference(After(INITIAL, steps).value.books.log);
  }

  lemma AdvancesTransitively(a: Db, b: Db, c: Db, o: OrderId)
    requires OrderAdvances(a, b, o) && OrderAdvances(b, c, o)
    requires forall d :: d in {a, b} && o in d.orders ==> (o in d.queue <==> Open(d.orders[o].status))
    ensures OrderAdvances(a, c, o)
  {
  }

  lemma {:induction false} CallAdvances(op: Op, db: Db, fault: Fault, o: OrderId)
    requires Permitted(op, db)
    ensures OrderAdvances(db, Attempted(op, db, fault).db, o)
  {
    if Transact(op, db).Committed? {
      PermittedStepAdvances(op, db, o);
    }
  }

  lemma {:induction false} MarkAdvances(s: State, i: nat, fault: Fault, o: OrderId)
    requires Inv(s) && WorkerEnabled(s, i, Mark(fault))
    ensures OrderAdvances(s.books.db, DoWorker(s, i, Mark(fault)).books.db, o)
  {
    var pc := s.flow.workers[i];
    MarkCallIsGuarded(s.books.db, pc);
    CallAdvances(Worker.MarkCall(pc.ev.user, pc.answer), s.books.db, fault, o);
  }

  lemma {:induction false} WorkerAdvances(s: State, i: nat, step: WorkerStep, o: OrderId)
    requires Inv(s) && WorkerEnabled(s, i, step)
    ensures OrderAdvances(s.books.db, DoWorker(s, i, step).books.db, o)
  {
    if step.Mark? {
      MarkAdvances(s, i, step.fault, o);
    }
  }

  lemma {:induction false} CallbackAdvances(s: State, step: CallbackStep, o: OrderId)
    requires CallbackEnabled(s, step)
    ensures OrderAdvances(s.books.db, DoCallback(s, step).books.db, o)
  {
    if step.PutBack? {
      CallAdvances(Postpone(s.flow.callback.ev.order, s.flow.callback.at), s.books.db, step.fault, o);
    }
  }

  lemma {:induction false} EnvAdvances(s: State, step: EnvStep, o: OrderId)
    requires EnvEnabled(s, step)
    ensures OrderAdvances(s.books.db, DoEnv(s, step).books.db, o)
  {
    ApiCallsActOnBooks(s, step);
    if CallsApi(step) && ApiTransaction(s, step).Some? {
      CallAdvances(ApiTransaction(s, step).value, s.books.db, step.fault, o);
    }
  }

  lemma {:induction false} StepAdvances(s: State, step: Step, o: OrderId)
    requires Inv(s) && Enabled(s, step)
    ensures OrderAdvances(s.books.db, Do(s, step).books.db, o)
  {
    match step
    case OfMain(m) => MainLeavesBooks(s, m);
    case OfWorker(i, w) => WorkerAdvances(s, i, w, o);
    case OfCallback(c) => CallbackAdvances(s, c, o);
    case OfEnv(e) => EnvAdvances(s, e, o);
  }

  lemma {:induction false} RunAdvances(s: State, steps: seq<Step>, o: OrderId)
    requires Inv(s) && After(s, steps).Some?
    ensures OrderAdvances(s.books.db, After(s, steps).value.books.db, o)
    decreases |steps|
  {
    if steps != [] {
      var t := Do(s, steps[0]);
      StepAdvances(s, steps[0], o);
      StepKeepsInv(s, steps[0]);
      CreditedOnce(s.books.log, o);
      CreditedOnce(t.books.log, o);
      RunAdvances(t, steps[1..], o);
      AdvancesTransitively(s.books.db, t.books.db, After(s, steps).value.books.db, o);
    }
  }

  /** From any reachable state on, an order's status never falls back; Processed and Invalid are for
  good, together with the order's points and its absence from the queue. */
  lemma {:induction false} FinalStatusesAreAbsorbing(first: seq<Step>, second: seq<Step>, o: OrderId)
    requires After(INITIAL, first).Some?
    requires After(After(INITIAL, first).value, second).Some?
    ensures var s := After(INITIAL, first).value;
            OrderAdvances(s.books.db, After(s, second).value.books.db, o)
  {
    InitialInv();
    RunKeepsInv(INITIAL, first);
    RunAdvances(After(INITIAL, first).value, second, o);
  }

  /** An event is carried until its own postponement. */
  ghost predicate Carried(f: Flow, ev: Event) {
    || ((f.main.Counting? || f.main.Unpending? || f.main.Handing?) && f.main.ev == ev)
    || ev in f.workCh
    || (exists i :: 0 <= i < |f.workers| && Flight.Busy(f.workers[i]) && f.workers[i].ev == ev)
    || (f.callbackCh.Some? && f.callbackCh.value.ev == ev)
    || ((f.callback.Deciding? || f.callback.Enqueueing? || f.callback.Postponing?) && f.callback.ev == ev)
  }

  /** Every carried event of a queued order has the retry count of the stored row, which is the number
  of times the order was put back. */
  lemma {:induction false} RetriesAgreeWithTheQueue(steps: seq<Step>, ev: Event)
    requires After(INITIAL, steps).Some?
    requires Carried(After(INITIAL, steps).value.flow, ev)
    ensures var books := After(INITIAL, steps).value.books;
            ev.order in books.db.queue ==>
              ev.retries == books.db.queue[ev.order].retries == Postponements(books.log, ev.order)
  {
    InitialInv();
    RunKeepsInv(INITIAL, steps);
    var s := After(INITIAL, steps).value;
    QueueRowReflectsLog(s.books.log, ev.order);
    assert EventOk(s.books.db, ev) by {
      if ev in s.flow.workCh {
        var k :| 0 <= k < |s.flow.workCh| && s.flow.workCh[k] == ev;
      } else if exists i :: 0 <= i < |s.flow.workers| && Flight.Busy(s.flow.workers[i]) && s.flow.workers[i].ev == ev {
        var i :| 0 <= i < |s.flow.workers| && Flight.Busy(s.flow.workers[i]) && s.flow.workers[i].ev == ev;
        assert WorkerOk(s.books.db, s.flow.workers[i]);
      }
    }
  }

  /** An order whose row a transaction of the processor has locked: a worker marks it or the callback
  goroutine postpones it. */
  ghost predicate LockedByProcessor(f: Flow, o: OrderId) {
    || (exists i :: 0 <= i < |f.workers| && f.workers[i].Marking? && f.workers[i].ev.order == o)
    || (f.callback.Postponing? && f.callback.ev.order == o)
  }

  /** The queue query also skips locked rows, but in every reachable state the orders it skips are among
  those it excludes, so that it answers the same. */
  lemma {:induction false} SkippingLockedRowsChangesNothing(steps: seq<Step>, locked: set<OrderId>, o: OrderId)
    requires After(INITIAL, steps).Some?
    requires var f := After(INITIAL, steps).value.flow;
             f.main.Querying? && forall l :: l in locked ==> LockedByProcessor(f, l)
    ensures var s := After(INITIAL, steps).value;
            && StorageObject.IsNext(s.books.db, s.flow.main.exclude + locked, s.clock, o)
               == StorageObject.IsNext(s.books.db, s.flow.main.exclude, s.clock, o)
            && NothingToDispatch(s.books.db, s.flow.main.exclude + locked, s.clock)
               == NothingToDispatch(s.books.db, s.flow.main.exclude, s.clock)
  {
    Flight.InitialInv();
    Flight.RunKeepsInv(INITIAL, steps);
    var s := After(INITIAL, steps).value;
    forall l | l in locked
      ensures l in s.flow.main.exclude
    {
      assert Flight.FlightAt(s, l);
      if i :| 0 <= i < |s.flow.workers| && s.flow.workers[i].Marking? && s.flow.workers[i].ev.order == l {
        Flight.WorkerHolds(s.flow.workers, i);
      }
    }
    assert s.flow.main.exclude + locked == s.flow.main.exclude;
  }

  /** An order is dispatched no earlier than the time it was last put off to, and only while nobody else
  holds it. */
  lemma {:induction false} DispatchRespectsPostponement(steps: seq<Step>, o: OrderId)
    requires After(INITIAL, steps).Some? && MainEnabled(After(INITIAL, steps).value, Found(o))
    ensures var s := After(INITIAL, steps).value;
            && DueTime(s.books.log, o).Some? && DueTime(s.books.log, o).value <= s.clock
            && Flight.Holders(s.flow, o) == 0
  {
    InitialInv();
    RunKeepsInv(INITIAL, steps);
    var s := After(INITIAL, steps).value;
    QueueRowReflectsLog(s.books.log, o);
    assert Flight.FlightAt(s, o);
  }
}
