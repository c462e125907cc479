/** The sequential code of the processor's goroutines (order_processor.go), and the proof that the
Pipeline's steps, taken without interference, do what that code does. */
module Processor {
  import opened Common
  import opened Tables
  import opened OrderEvents
  import opened Pipeline
  import opened ProcessorState
  import StorageObject
  import Worker

  /** The shared state and the tables after a callback: an event that goes back is postponed in the queue
  and, if that was reported, pending; either way its order leaves the in-flight set. */
  function AfterCallback(v: View, db: Db, o: OrderId, goesBack: bool, at: Time, fault: Fault): (View, Db) {
    if goesBack then
      var attempt := Attempted(Postpone(o, at), db, fault);
      (WithoutInFlight(if attempt.reported then WithPending(v, o, at) else v, o), attempt.db)
    else (WithoutInFlight(v, o), db)
  }

  class OrderProcessor {
    const state: OrderProcessorState
    const config: DelayConfig
    const preloadOnStart: bool

    constructor (state: OrderProcessorState, config: DelayConfig, preloadOnStart: bool)
      ensures this.state == state && this.config == config && this.preloadOnStart == preloadOnStart
    {
      this.state, this.config, this.preloadOnStart := state, config, preloadOnStart;
    }

    method StartEnqueueingProcessableOrders()
      requires state.Valid()
      modifies state
      ensures state.Valid()
      ensures state.State() == if preloadOnStart then old(state.State()).(notified := true) else old(state.State())
    {
      if !preloadOnStart {
        return;
      }
      state.TriggerQueueProcessing();
    }

    method NewOrderArrived()
      requires state.Valid()
      modifies state
      ensures state.Valid() && state.State() == old(state.State()).(notified := true)
    {
      state.TriggerQueueProcessing();
    }

    /** `expired` and `expiredLater` are the two looks at the run's context. */
    method ProcessCallback(ev: Event, failure: OrderEvents.Failure, expired: bool, expiredLater: bool,
                           jitter: nat, now: Time, fault: int, losesReply: bool)
      requires state.Valid()
      modifies state, state.queue
      ensures state.Valid()
      ensures var goesBack := !expired && Retryable(failure) && !expiredLater;
              var at := if Retryable(failure) then GetNextEvent(config, ev, failure, jitter, now).value.1 else now;
              && at >= now
              && (state.State(), state.queue.Tables())
                 == AfterCallback(old(state.State()), old(state.queue.Tables()), ev.order, goesBack, at,
                                  StorageObject.FaultOf(Postpone(ev.order, at), fault, losesReply))
      ensures state.ordersInFlight == old(state.ordersInFlight) - {ev.order}
      ensures expired || failure != Other || expiredLater ==>
        state.pendingOrders == old(state.pendingOrders) && state.queue.Tables() == old(state.queue.Tables())
      ensures !expired && failure == Other && !expiredLater && ev.order in old(state.queue.queue)
              && !(0 <= fault < 2) && !losesReply ==>
        var at := GetNextEvent(config, ev, failure, jitter, now).value.1;
        && state.queue.queue == old(state.queue.queue)[
             ev.order := QueueRow(at, old(state.queue.queue)[ev.order].retries + 1)]
        && state.pendingOrders
           == old(state.pendingOrders) + if old(state.isRunning) then {ev.order} else {}
    {
      if !expired {
        var next := GetNextEvent(config, ev, failure, jitter, now);
        if next.Some? {
          state.EnqueueEvent(next.value.0, next.value.1, expiredLater, fault, losesReply);
        }
      }
      state.DecrementEventsInFlight(ev.order);
    }
  }

  // ---- The steps of the Pipeline, without interference ----

  /** The callback goroutine's steps for an event that does not go back. */
  lemma {:induction false} CallbackDropsEvent(s: State, at: Time) returns (steps: seq<Step>)
    requires s.flow.callback.Deciding? && (s.flow.cancelled || !Retryable(s.flow.callback.failure))
    ensures After(s, steps)
         == Some(s.(flow := s.flow.(callback := Listening), proc := WithoutInFlight(s.proc, s.flow.callback.ev.order)))
  {
    assert After(s, []) == Some(s);
    AfterAppends(s, [], OfCallback(Decide(at)));
    steps := [] + [OfCallback(Decide(at))];
    AfterAppends(s, steps, OfCallback(Release));
    steps := steps + [OfCallback(Release)];
  }

  /** Its steps up to the postponement of an event that goes back. */
  lemma {:induction false} CallbackPostponesEvent(s: State, at: Time, fault: Fault) returns (steps: seq<Step>)
    requires s.flow.callback.Deciding? && !s.flow.cancelled && Retryable(s.flow.callback.failure)
    ensures var ev := s.flow.callback.ev;
            var op := Postpone(ev.order, at);
            After(s, steps) == Some(s.(
              flow := s.flow.(callback := if Attempted(op, s.books.db, fault).reported then Pending(ev, at)
                                          else Leaving(ev)),
              books := Transacted(s.books, op, fault),
              seen := SeenAtPutBack(s, ev.order, Attempted(op, s.books.db, fault).reported)))
  {
    assert After(s, []) == Some(s);
    AfterAppends(s, [], OfCallback(Decide(at)));
    steps := [] + [OfCallback(Decide(at))];
    AfterAppends(s, steps, OfCallback(CheckAgain));
    steps := steps + [OfCallback(CheckAgain)];
    AfterAppends(s, steps, OfCallback(PutBack(fault)));
    steps := steps + [OfCallback(PutBack(fault))];
  }

  /** Its last steps: the order becomes pending if its postponement was reported, and leaves. */
  lemma {:induction false} CallbackLetsGo(s: State) returns (steps: seq<Step>)
    requires s.flow.callback.Pending? || s.flow.callback.Leaving?
    ensures After(s, steps).Some?
    ensures var t, pc := After(s, steps).value, s.flow.callback;
            && t.proc == WithoutInFlight(if pc.Pending? then WithPending(s.proc, pc.ev.order, pc.at) else s.proc,
                                         pc.ev.order)
            && t.seen == (if pc.Pending? then SeenAtPending(s, pc.ev.order, pc.at) else s.seen)
            && t == s.(flow := s.flow.(callback := Listening), proc := t.proc, seen := t.seen)
  {
    steps := [];
    assert After(s, []) == Some(s);
    if s.flow.callback.Pending? {
      AfterAppends(s, steps, OfCallback(AddPending));
      steps := steps + [OfCallback(AddPending)];
    }
    AfterAppends(s, steps, OfCallback(Release));
    steps := steps + [OfCallback(Release)];
  }

  /** The callback goroutine's steps for one result are ProcessCallback. */
  lemma {:induction false} CallbackStepsAreProcessCallback(s: State, at: Time, fault: Fault) returns (steps: seq<Step>)
    requires s.flow.callback.Deciding?
    ensures After(s, steps).Some?
    ensures var t, pc := After(s, steps).value, s.flow.callback;
            && (t.proc, t.books.db) == AfterCallback(s.proc, s.books.db, pc.ev.order,
                                                     !s.flow.cancelled && Retryable(pc.failure), at, fault)
            && t.flow == s.flow.(callback := Listening)
            && t.seen.(stranded := s.seen.stranded, unreported := s.seen.unreported) == s.seen
            && t.producers == s.producers && t.clock == s.clock
  {
    if s.flow.cancelled || !Retryable(s.flow.callback.failure) {
      steps := CallbackDropsEvent(s, at);
      return;
    }
    var postponing := CallbackPostponesEvent(s, at, fault);
    var leaving := CallbackLetsGo(After(s, postponing).value);
    AfterComposes(s, postponing, leaving);
    steps := postponing + leaving;
  }

  /** What a query of the queue can answer. */
  ghost predicate QueueAnswers(s: State, answer: MainStep) {
    match answer
    case Found(o) => StorageObject.IsNext(s.books.db, s.proc.inFlight, s.clock, o)
    case NoneFound => NothingToDispatch(s.books.db, s.proc.inFlight, s.clock)
    case QueryFails => true
    case _ => false
  }

  /** The main goroutine's steps from the snapshot on are NextEvent: they take the order that was found,
  or change nothing when the queue is empty or cannot be read. */
  lemma {:induction false} MainStepsAreNextEvent(s: State, answer: MainStep) returns (steps: seq<Step>)
    requires s.flow.main == Snapping && QueueAnswers(s, answer)
    ensures After(s, steps).Some?
    ensures var t := After(s, steps).value;
            && t.books == s.books && t.producers == s.producers && t.clock == s.clock
            && (answer.Found? ==>
                  && t.proc == WithoutPending(WithInFlight(s.proc, answer.order), answer.order)
                  && t.flow == s.flow.(main := Handing(EventFor(s.books.db, answer.order)))
                  && t.seen == s.seen.(quiet := false, stranded := s.seen.stranded - {answer.order},
                                       unreported := s.seen.unreported - {answer.order}))
            && (!answer.Found? ==> t.proc == s.proc && t.flow == s.flow.(main := Selecting))
            && (answer == NoneFound ==> t.seen == s.seen)
            && (answer == QueryFails ==> t.seen == SeenAtAbandon(s).(healthy := false))
  {
    assert After(s, []) == Some(s);
    AfterAppends(s, [], OfMain(Snapshot));
    steps := [] + [OfMain(Snapshot)];
    AfterAppends(s, steps, OfMain(answer));
    steps := steps + [OfMain(answer)];
    if answer.Found? {
      AfterAppends(s, steps, OfMain(CountIn));
      steps := steps + [OfMain(CountIn)];
      AfterAppends(s, steps, OfMain(ClearPending));
      steps := steps + [OfMain(ClearPending)];
    }
  }

  /** The state in which worker i is about to report its event with the given error. */
  function AboutToReport(s: State, i: nat, failure: OrderEvents.Failure): State
    requires i < |s.flow.workers| && s.flow.workers[i].Taken?
  {
    s.(flow := s.flow.(workers := s.flow.workers[i := Reporting(s.flow.workers[i].ev, failure)]))
  }

  /** The steps of a worker that never gets to ask: its run is cancelled, the status cannot be read, or the
  event's order is missing, somebody else's, or settled. */
  lemma {:induction false} WorkerStepsWithoutQuestion(s: State, i: nat, statusFails: bool) returns (steps: seq<Step>)
    requires i < |s.flow.workers| && s.flow.workers[i].Taken?
    requires s.flow.cancelled || statusFails || !Worker.IsOpenFor(s.books.db, s.flow.workers[i].ev)
    ensures After(s, steps).Some?
    ensures var ev, db := s.flow.workers[i].ev, s.books.db;
            After(s, steps).value == AboutToReport(s, i,
              if s.flow.cancelled then NoFailure
              else if statusFails then Other
              else Worker.FailureOf(StorageObject.LookupError(db, ev.user, ev.order)))
  {
    assert After(s, []) == Some(s);
    AfterAppends(s, [], OfWorker(i, CheckContext));
    steps := [] + [OfWorker(i, CheckContext)];
    if !s.flow.cancelled {
      AfterAppends(s, steps, OfWorker(i, ReadStatus(statusFails)));
      steps := steps + [OfWorker(i, ReadStatus(statusFails))];
      var before, pc := s.flow.workers, After(s, steps).value.flow.workers[i];
      assert before[i := Checking(before[i].ev)][i := pc] == before[i := pc];
    }
  }

  /** The steps of a worker that finds its event's order open and asks. */
  lemma {:induction false} WorkerStepsWithQuestion(s: State, i: nat, reply: Worker.Reply, fault: Fault)
    returns (steps: seq<Step>)
    requires i < |s.flow.workers| && s.flow.workers[i].Taken? && !s.flow.cancelled
    requires AnswersTheQuestion(reply, s.flow.workers[i].ev)
    requires Worker.IsOpenFor(s.books.db, s.flow.workers[i].ev)
    ensures After(s, steps).Some?
    ensures var t, ev := After(s, steps).value, s.flow.workers[i].ev;
            && (!reply.Answered? ==> t == AboutToReport(s, i, Other))
            && (reply.Answered? ==>
                  var marked := Worker.MarkAnswer(s.books.db, ev.user, reply.answer, fault);
                  && t.books.db == marked.db
                  && t.(books := s.books) == AboutToReport(s, i, marked.failure))
  {
    assert After(s, []) == Some(s);
    AfterAppends(s, [], OfWorker(i, CheckContext));
    steps := [] + [OfWorker(i, CheckContext)];
    AfterAppends(s, steps, OfWorker(i, ReadStatus(false)));
    steps := steps + [OfWorker(i, ReadStatus(false))];
    AfterAppends(s, steps, OfWorker(i, Ask(reply)));
    steps := steps + [OfWorker(i, Ask(reply))];
    if reply.Answered? {
      AfterAppends(s, steps, OfWorker(i, Mark(fault)));
      steps := steps + [OfWorker(i, Mark(fault))];
    }
  }

  /** A worker's steps for one event are ProcessEvent: the error reported is that of a cancelled run, of
  the status check, or of the request, and only an answer about an open order changes tables. */
  lemma {:induction false} WorkerStepsAreProcessEvent(
      s: State, i: nat, statusFails: bool, reply: Worker.Reply, fault: Fault)
    returns (steps: seq<Step>)
    requires i < |s.flow.workers| && s.flow.workers[i].Taken?
    requires AnswersTheQuestion(reply, s.flow.workers[i].ev)
    ensures After(s, steps).Some?
    ensures var t, ev, db := After(s, steps).value, s.flow.workers[i].ev, s.books.db;
            var asked := !s.flow.cancelled && !statusFails && Worker.IsOpenFor(db, ev);
            && (!asked ==> t == AboutToReport(s, i,
                  if s.flow.cancelled then NoFailure
                  else if statusFails then Other
                  else Worker.FailureOf(StorageObject.LookupError(db, ev.user, ev.order))))
            && (asked && !reply.Answered? ==> t == AboutToReport(s, i, Other))
            && (asked && reply.Answered? ==>
                  var marked := Worker.MarkAnswer(db, ev.user, reply.answer, fault);
                  && t.books.db == marked.db
                  && t.(books := s.books) == AboutToReport(s, i, marked.failure))
  {
    if s.flow.cancelled || statusFails || !Worker.IsOpenFor(s.books.db, s.flow.workers[i].ev) {
      steps := WorkerStepsWithoutQuestion(s, i, statusFails);
    } else {
      steps := WorkerStepsWithQuestion(s, i, reply, fault);
    }
  }
}
