/** The order processor and the store as one transition system (order_processor.go,
order_event_worker.go, order_event_worker_pool.go, order_mgr.go).

A step is one channel operation, one critical section of the shared state, or one call of the store or
of the accrual system. Any order of steps is allowed: the main loop, every worker, the callback
goroutine, the callers of CreateOrder, WithdrawFunds and CreateUser, cancellation, the clock, and a
crash after which a new process starts on the same tables. A store call is one step because
transactions under row locks are serializable (module RowLocks). */
module Pipeline {
  import opened Common
  import opened Tables
  import opened OrderEvents
  import opened ProcessorState
  import StorageObject
  import Worker

  /** The main goroutine inside Run. */
  datatype MainPc =
    | Down                                // no Run is active
    | Draining | Signalling               // TriggerQueueProcessing on start
    | Launching | Starting                // startWorkers, state.Start
    | Selecting                           // the select of mainLoop
    | Head                                // the loop condition of processQueue
    | Snapping                            // NextEvent: copy the in-flight set,
    | Querying(exclude: set<OrderId>)     // query the queue,
    | Counting(ev: Event)                 // add to the in-flight set,
    | Unpending(ev: Event)                // remove from the pending set
    | Handing(ev: Event)                  // TakeEvent: send on the work channel
    | Stopping | Closing                  // state.Stop, close the work channel
    | AwaitingWorkers | AwaitingCallbacks // close the callback channel in between

  datatype WorkerPc =
    | Exited
    | Idle
    | Taken(ev: Event)
    | Checking(ev: Event)
    | Asking(ev: Event)
    | Marking(ev: Event, answer: Worker.Answer)
    | Reporting(ev: Event, failure: OrderEvents.Failure)

  datatype CallbackPc =
    | Absent
    | Listening
    | Deciding(ev: Event, failure: OrderEvents.Failure)
    | Enqueueing(ev: Event, at: Time)
    | Postponing(ev: Event, at: Time)
    | Pending(ev: Event, at: Time)
    | Leaving(ev: Event)

  /** A CreateOrder call between its commit and its return. */
  datatype ProducerPc = ToDrain(order: OrderId) | ToSend(order: OrderId)

  datatype Result = Result(ev: Event, failure: OrderEvents.Failure)

  /** The goroutines of a run and the channels between them. */
  datatype Flow = Flow(
    main: MainPc,
    cancelled: bool,
    workCh: seq<Event>,
    workClosed: bool,
    workers: seq<WorkerPc>,
    callbackCh: Option<Result>,
    callbackClosed: bool,
    callback: CallbackPc)

  /** The tables and the log of the transactions that made them. */
  datatype Books = Books(db: Db, log: seq<Op>)

  /** What can leave a pending order without a timer: it was added with an earlier time than the wake-up
  time while no timer was armed; the timer's tick was taken before the order left the in-flight set; or
  the main loop gave up looking for it because a query failed or the run was cancelled. */
  datatype Cause = TimerNotArmed | TickBeforeRelease | SearchAbandoned

  /** Observations that no step depends on: the orders announced to the processor, those handed to the
  workers by the latest run, whether there was no cancel and no failed query since a run was announced
  everything, whether the latest run has dispatched nothing yet, the pending orders that one of the
  causes has befallen since the timer was last armed, and the orders of this run whose last postponement
  was not reported as stored. */
  datatype Seen = Seen(
    owed: set<OrderId>,
    dispatched: set<OrderId>,
    healthy: bool,
    quiet: bool,
    stranded: map<OrderId, Cause>,
    unreported: set<OrderId>)

  datatype State = State(
    clock: Time,
    books: Books,
    proc: View,
    flow: Flow,
    producers: map<nat, ProducerPc>,
    seen: Seen)

  const NO_FLOW := Flow(Down, false, [], false, [], None, false, Absent)

  const INITIAL := State(0, Books(EMPTY_DB, []), IDLE, NO_FLOW, map[], Seen({}, {}, true, true, map[], {}))

  datatype MainStep =
    | StartRun(preload: bool) | Drain | Signal | Launch(poolSize: nat) | BeginLoop
    | SeeCancel | TakeNotice | TakeTick
    | CheckExpired | Snapshot | Found(order: OrderId) | NoneFound | QueryFails
    | CountIn | ClearPending | HandOver
    | StopState | CloseWork | WorkersGone | CallbacksGone

  datatype WorkerStep =
    | Receive | Leave | CheckContext | ReadStatus(fails: bool) | Ask(reply: Worker.Reply) | Mark(fault: Fault) | Send

  datatype CallbackStep =
    | TakeResult | Quit | Decide(at: Time) | CheckAgain | PutBack(fault: Fault) | AddPending | Release

  datatype EnvStep =
    | Cancel
    | AdvanceClock(elapsed: nat)
    | Crash
    | Register(user: UserId, fault: Fault)
    | Spend(user: UserId, order: OrderId, amount: Money, fault: Fault)
    | Submit(producer: nat, user: UserId, order: OrderId, fault: Fault)
    | ProducerDrains(producer: nat)
    | ProducerSends(producer: nat)

  datatype Step =
    | OfMain(mainStep: MainStep)
    | OfWorker(worker: nat, workerStep: WorkerStep)
    | OfCallback(callbackStep: CallbackStep)
    | OfEnv(envStep: EnvStep)

  // ---- The main goroutine ----

  ghost predicate MainEnabled(s: State, step: MainStep) {
    var f := s.flow;
    match step
    case StartRun(_) => f.main == Down
    case Drain => f.main == Draining
    case Signal => f.main == Signalling && !s.proc.notified
    case Launch(poolSize) => f.main == Launching && poolSize >= 1
    case BeginLoop => f.main == Starting
    case SeeCancel => f.main == Selecting && f.cancelled
    case TakeNotice => f.main == Selecting && s.proc.notified
    case TakeTick => f.main == Selecting && TickReady(s.proc, s.clock)
    case CheckExpired => f.main == Head
    case Snapshot => f.main == Snapping
    case Found(o) => f.main.Querying? && StorageObject.IsNext(s.books.db, f.main.exclude, s.clock, o)
    case NoneFound => f.main.Querying? && NothingToDispatch(s.books.db, f.main.exclude, s.clock)
    case QueryFails => f.main.Querying?
    case CountIn => f.main.Counting?
    case ClearPending => f.main.Unpending?
    case HandOver => f.main.Handing? && |f.workCh| < |f.workers|
    case StopState => f.main == Stopping
    case CloseWork => f.main == Closing
    case WorkersGone => f.main == AwaitingWorkers && AllExited(f.workers)
    case CallbacksGone => f.main == AwaitingCallbacks && f.callback == Absent
  }

  ghost predicate NothingToDispatch(db: Db, exclude: set<OrderId>, now: Time) {
    forall o :: o in db.orders ==> !StorageObject.Eligible(db, exclude, now, o)
  }

  predicate AllExited(workers: seq<WorkerPc>) {
    forall i :: 0 <= i < |workers| ==> workers[i] == Exited
  }

  function AtMain(s: State, pc: MainPc): State {
    s.(flow := s.flow.(main := pc))
  }

  /** A preloading start is to find what is due, any other start only what is still owed. */
  function SeenAtStart(s: State, preload: bool): Seen {
    var due := set o | o in s.books.db.orders && StorageObject.Eligible(s.books.db, {}, s.clock, o);
    s.seen.(owed := if preload then due else s.seen.owed - s.seen.dispatched,
            dispatched := {}, healthy := preload || s.seen.healthy, quiet := true, unreported := {})
  }

  function SeenAtTick(s: State): Seen {
    if s.flow.callback.Leaving? && s.flow.callback.ev.order in s.proc.pending
    then s.seen.(stranded := s.seen.stranded[s.flow.callback.ev.order := TickBeforeRelease])
    else s.seen
  }

  function SeenAtAbandon(s: State): Seen {
    if s.proc.timer == None
    then s.seen.(stranded := (map o | o in s.proc.pending :: SearchAbandoned) + s.seen.stranded)
    else s.seen
  }

  function SeenAtPutBack(s: State, o: OrderId, reported: bool): Seen {
    if reported then s.seen else s.seen.(unreported := s.seen.unreported + {o})
  }

  function SeenAtPending(s: State, o: OrderId, at: Time): Seen {
    if !s.proc.running then s.seen
    else if at >= s.proc.nextWakeup then s.seen.(stranded := map[])
    else if s.proc.timer == None then s.seen.(stranded := s.seen.stranded[o := TimerNotArmed])
    else s.seen
  }

  function DoMain(s: State, step: MainStep): State
    requires MainEnabled(s, step)
  {
    match step
    case StartRun(preload) =>
      s.(flow := s.flow.(main := if preload then Draining else Launching, cancelled := false),
         seen := SeenAtStart(s, preload))
    case Drain => AtMain(s, Signalling).(proc := s.proc.(notified := false))
    case Signal => AtMain(s, Launching).(proc := s.proc.(notified := true))
    case Launch(poolSize) =>
      s.(flow := Flow(Starting, s.flow.cancelled, [], false, seq(poolSize, _ => Idle), None, false, Listening))
    case BeginLoop => AtMain(s, Selecting).(proc := Started(s.proc))
    case SeeCancel => AtMain(s, Stopping)
    case TakeNotice => AtMain(s, Head).(proc := s.proc.(notified := false))
    case TakeTick => AtMain(s, Head).(proc := s.proc.(timer := None), seen := SeenAtTick(s))
    case CheckExpired =>
      if s.flow.cancelled then AtMain(s, Selecting).(seen := SeenAtAbandon(s)) else AtMain(s, Snapping)
    case Snapshot => AtMain(s, Querying(s.proc.inFlight))
    case Found(o) => AtMain(s, Counting(EventFor(s.books.db, o)))
    case NoneFound => AtMain(s, Selecting)
    case QueryFails => AtMain(s, Selecting).(seen := SeenAtAbandon(s).(healthy := false))
    case CountIn =>
      var ev := s.flow.main.ev;
      AtMain(s, Unpending(ev)).(proc := WithInFlight(s.proc, ev.order), seen := s.seen.(quiet := false))
    case ClearPending =>
      var ev := s.flow.main.ev;
      AtMain(s, Handing(ev)).(proc := WithoutPending(s.proc, ev.order),
                              seen := s.seen.(stranded := s.seen.stranded - {ev.order},
                                              unreported := s.seen.unreported - {ev.order}))
    case HandOver =>
      var ev := s.flow.main.ev;
      s.(flow := s.flow.(main := Head, workCh := s.flow.workCh + [ev]),
         seen := s.seen.(dispatched := s.seen.dispatched + {ev.order}))
    case StopState => AtMain(s, Closing).(proc := Stopped(s.proc), seen := s.seen.(stranded := map[]))
    case CloseWork => s.(flow := s.flow.(main := AwaitingWorkers, workClosed := true))
    case WorkersGone => s.(flow := s.flow.(main := AwaitingCallbacks, callbackClosed := true))
    case CallbacksGone => AtMain(s, Down)
  }

  function EventFor(db: Db, o: OrderId): Event
    requires o in db.orders && o in db.queue
  {
    Event(db.orders[o].user, o, db.queue[o].retries)
  }

  // ---- Workers ----

  predicate WorkerEnabled(s: State, i: nat, step: WorkerStep) {
    var f := s.flow;
    i < |f.workers| &&
    match step
    case Receive => f.workers[i] == Idle && f.workCh != []
    case Leave => f.workers[i] == Idle && f.workCh == [] && f.workClosed
    case CheckContext => f.workers[i].Taken?
    case ReadStatus(_) => f.workers[i].Checking?
    case Ask(reply) => f.workers[i].Asking? && AnswersTheQuestion(reply, f.workers[i].ev)
    case Mark(_) => f.workers[i].Marking?
    case Send => f.workers[i].Reporting? && f.callbackCh == None
  }

  /** The premise about the accrual system: an answer names the order it was asked about. */
  predicate AnswersTheQuestion(reply: Worker.Reply, ev: Event) {
    reply.Answered? ==> reply.answer.order == ev.order
  }

  /** Where a worker's own step takes it; receiving and sending involve a channel as well. */
  function NextWorkerPc(s: State, i: nat, step: WorkerStep): WorkerPc
    requires WorkerEnabled(s, i, step)
  {
    var pc := s.flow.workers[i];
    match step
    case Receive => Taken(s.flow.workCh[0])
    case Leave => Exited
    case CheckContext => if s.flow.cancelled then Reporting(pc.ev, NoFailure) else Checking(pc.ev)
    case ReadStatus(fails) =>
      if fails then Reporting(pc.ev, Other)
      else if Worker.IsOpenFor(s.books.db, pc.ev) then Asking(pc.ev)
      else Reporting(pc.ev, Worker.FailureOf(StorageObject.LookupError(s.books.db, pc.ev.user, pc.ev.order)))
    case Ask(reply) => if reply.Answered? then Marking(pc.ev, reply.answer) else Reporting(pc.ev, Other)
    case Mark(fault) => Reporting(pc.ev, Worker.MarkAnswer(s.books.db, pc.ev.user, pc.answer, fault).failure)
    case Send => Idle
  }

  function DoWorker(s: State, i: nat, step: WorkerStep): State
    requires WorkerEnabled(s, i, step)
  {
    var pc, moved := s.flow.workers[i], s.flow.(workers := s.flow.workers[i := NextWorkerPc(s, i, step)]);
    match step
    case Receive => s.(flow := moved.(workCh := s.flow.workCh[1..]))
    case Send => s.(flow := moved.(callbackCh := Some(Result(pc.ev, pc.failure))))
    case Mark(fault) => s.(flow := moved, books := Marked(s.books, pc.ev, pc.answer, fault))
    case _ => s.(flow := moved)
  }

  function Marked(books: Books, ev: Event, answer: Worker.Answer, fault: Fault): Books {
    var marked := Worker.MarkAnswer(books.db, ev.user, answer, fault);
    Books(marked.db, if marked.committed then books.log + [Worker.MarkCall(ev.user, answer)] else books.log)
  }

  // ---- The callback goroutine ----

  predicate CallbackEnabled(s: State, step: CallbackStep) {
    var f := s.flow;
    match step
    case TakeResult => f.callback == Listening && f.callbackCh.Some?
    case Quit => f.callback == Listening && f.callbackCh == None && f.callbackClosed
    case Decide(_) => f.callback.Deciding?
    case CheckAgain => f.callback.Enqueueing?
    case PutBack(_) => f.callback.Postponing?
    case AddPending => f.callback.Pending?
    case Release => f.callback.Leaving?
  }

  /** The books after a transaction run as one step. */
  function Transacted(books: Books, op: Op, fault: Fault): Books {
    var attempt := Attempted(op, books.db, fault);
    Books(attempt.db, if attempt.committed then books.log + [op] else books.log)
  }

  function AtCallback(s: State, pc: CallbackPc): State {
    s.(flow := s.flow.(callback := pc))
  }

  function DoCallback(s: State, step: CallbackStep): State
    requires CallbackEnabled(s, step)
  {
    var pc := s.flow.callback;
    match step
    case TakeResult =>
      var result := s.flow.callbackCh.value;
      s.(flow := s.flow.(callback := Deciding(result.ev, result.failure), callbackCh := None))
    case Quit => AtCallback(s, Absent)
    case Decide(at) =>
      AtCallback(s, if s.flow.cancelled || !Retryable(pc.failure) then Leaving(pc.ev) else Enqueueing(pc.ev, at))
    case CheckAgain => AtCallback(s, if s.flow.cancelled then Leaving(pc.ev) else Postponing(pc.ev, pc.at))
    case PutBack(fault) =>
      var op := Postpone(pc.ev.order, pc.at);
      var reported := Attempted(op, s.books.db, fault).reported;
      AtCallback(s, if reported then Pending(pc.ev, pc.at) else Leaving(pc.ev))
      .(books := Transacted(s.books, op, fault), seen := SeenAtPutBack(s, pc.ev.order, reported))
    case AddPending =>
      AtCallback(s, Leaving(pc.ev)).(proc := WithPending(s.proc, pc.ev.order, pc.at),
                                     seen := SeenAtPending(s, pc.ev.order, pc.at))
    case Release => AtCallback(s, Listening).(proc := WithoutInFlight(s.proc, pc.ev.order))
  }

  // ---- Everything else ----

  predicate EnvEnabled(s: State, step: EnvStep) {
    match step
    case Cancel => s.flow.main != Down
    case AdvanceClock(_) => true
    case Crash => true
    case Register(_, _) => true
    case Spend(_, _, _, _) => true
    case Submit(p, _, _, _) => p !in s.producers
    case ProducerDrains(p) => p in s.producers && s.producers[p].ToDrain?
    case ProducerSends(p) => p in s.producers && s.producers[p].ToSend? && !s.proc.notified
  }

  /** The transaction a call of the application's API runs, if its checks let it get that far. */
  function ApiTransaction(s: State, step: EnvStep): Option<Op> {
    var db := s.books.db;
    match step
    case Register(u, _) => if u in db.users then None else Some(CreateUser(u))
    case Spend(u, o, amount, _) => if amount <= 0 || u !in db.users then None else Some(Withdraw(o, u, amount))
    case Submit(_, u, o, _) => if u !in db.users || o in db.orders then None else Some(CreateOrder(o, u, s.clock))
    case _ => None
  }

  function DoEnv(s: State, step: EnvStep): State
    requires EnvEnabled(s, step)
  {
    match step
    case Cancel => s.(flow := s.flow.(cancelled := true), seen := s.seen.(healthy := false))
    case AdvanceClock(elapsed) => s.(clock := s.clock + elapsed)
    case Crash =>
      State(s.clock, s.books, IDLE, NO_FLOW, map[],
            s.seen.(healthy := false, quiet := true, stranded := map[], unreported := {}))
    case Register(_, fault) => WithApiCall(s, ApiTransaction(s, step), fault)
    case Spend(_, _, _, fault) => WithApiCall(s, ApiTransaction(s, step), fault)
    case Submit(p, _, o, fault) =>
      var op, s' := ApiTransaction(s, step), WithApiCall(s, ApiTransaction(s, step), fault);
      if op.Some? && Attempted(op.value, s.books.db, fault).reported
      then s'.(producers := s.producers[p := ToDrain(o)], seen := s.seen.(owed := s.seen.owed + {o}))
      else s'
    case ProducerDrains(p) =>
      s.(proc := s.proc.(notified := false), producers := s.producers[p := ToSend(s.producers[p].order)])
    case ProducerSends(p) =>
      s.(proc := s.proc.(notified := true), producers := s.producers - {p})
  }

  function WithApiCall(s: State, op: Option<Op>, fault: Fault): State {
    if op.Some? then s.(books := Transacted(s.books, op.value, fault)) else s
  }

  // ---- Runs ----

  ghost predicate Enabled(s: State, step: Step) {
    match step
    case OfMain(m) => MainEnabled(s, m)
    case OfWorker(i, w) => WorkerEnabled(s, i, w)
    case OfCallback(c) => CallbackEnabled(s, c)
    case OfEnv(e) => EnvEnabled(s, e)
  }

  function Do(s: State, step: Step): State
    requires Enabled(s, step)
  {
    match step
    case OfMain(m) => DoMain(s, m)
    case OfWorker(i, w) => DoWorker(s, i, w)
    case OfCallback(c) => DoCallback(s, c)
    case OfEnv(e) => DoEnv(s, e)
  }

  /** The state after a sequence of steps, if each of them is enabled when its turn comes. */
  ghost function After(s: State, steps: seq<Step>): Option<State>
    decreases |steps|
  {
    if steps == [] then Some(s)
    else if Enabled(s, steps[0]) then After(Do(s, steps[0]), steps[1..])
    else None
  }

  /** The steps that the processor takes once it is started, as opposed to its callers and its clock. */
  predicate ByItself(step: Step) {
    match step
    case OfMain(m) => !m.StartRun?
    case OfEnv(_) => false
    case _ => true
  }

  lemma AfterStarts(s: State, step: Step, rest: seq<Step>)
    requires Enabled(s, step)
    ensures After(s, [step] + rest) == After(Do(s, step), rest)
  {
    assert ([step] + rest)[1..] == rest;
  }

  lemma {:induction false} AfterComposes(s: State, first: seq<Step>, second: seq<Step>)
    requires After(s, first).Some?
    ensures After(s, first + second) == After(After(s, first).value, second)
    decreases |first|
  {
    if first == [] {
      assert first + second == second;
    } else {
      assert (first + second)[1..] == first[1..] + second;
      AfterComposes(Do(s, first[0]), first[1..], second);
    }
  }

  lemma {:induction false} AfterAppends(s: State, steps: seq<Step>, step: Step)
    requires After(s, steps).Some? && Enabled(After(s, steps).value, step)
    ensures After(s, steps + [step]) == Some(Do(After(s, steps).value, step))
    decreases |steps|
  {
    if steps == [] {
      assert [step][1..] == [];
      assert steps + [step] == [step];
    } else {
      assert (steps + [step])[1..] == steps[1..] + [step];
      AfterAppends(Do(s, steps[0]), steps[1..], step);
    }
  }
}
