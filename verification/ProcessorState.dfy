/** The mutable state shared by the order processor's goroutines (order_processor_state.go).

Each function below is the effect of one critical section or channel operation; the class performs
them and the Pipeline module interleaves them. */
module ProcessorState {
  import opened Common
  import opened Tables
  import opened OrderEvents
  import StorageObject

  /** `pending` maps every pending order to the process time it was added with; the code keeps only the
  keys. `timer` is the instant the armed wake-up timer fires at, `notified` the one-slot channel. */
  datatype View = View(
    inFlight: set<OrderId>,
    pending: map<OrderId, Time>,
    notified: bool,
    nextWakeup: Time,
    timer: Option<Time>,
    running: bool,
    started: bool)

  const IDLE := View({}, map[], false, 0, None, false, false)

  function WithInFlight(v: View, o: OrderId): View {
    v.(inFlight := v.inFlight + {o})
  }

  function WithoutInFlight(v: View, o: OrderId): View {
    v.(inFlight := v.inFlight - {o})
  }

  function WithPending(v: View, o: OrderId, processAfter: Time): View {
    if !v.running then v
    else
      var added := v.(pending := v.pending[o := processAfter]);
      if v.nextWakeup > processAfter then added
      else added.(nextWakeup := processAfter, timer := Some(processAfter))
  }

  function WithoutPending(v: View, o: OrderId): View {
    v.(pending := v.pending - {o})
  }

  function Started(v: View): View {
    v.(running := true, started := true)
  }

  function Stopped(v: View): View {
    v.(pending := map[], timer := None, running := false)
  }

  predicate TickReady(v: View, now: Time) {
    v.timer.Some? && v.timer.value <= now
  }

  predicate Finished(v: View) {
    v.inFlight == {} && v.pending == map[]
  }

  /** The wake-up time is no earlier than any pending order's process time, and the timer obeys it. */
  predicate TimerCoversPending(v: View) {
    && (forall o :: o in v.pending ==> v.pending[o] <= v.nextWakeup)
    && (v.timer.Some? ==> v.timer.value == v.nextWakeup)
  }

  class OrderProcessorState {
    const queue: StorageObject.Storage
    var ordersInFlight: set<OrderId>
    var pendingOrders: set<OrderId>
    var notifyCh: bool
    var startedCh: bool
    var nextWakeupTime: Time
    var wakeupTimer: Option<Time>
    var isRunning: bool
    ghost var dueAt: map<OrderId, Time>

    ghost predicate Valid()
      reads this
    {
      dueAt.Keys == pendingOrders && TimerCoversPending(State())
    }

    ghost function State(): View
      reads this
    {
      View(ordersInFlight, dueAt, notifyCh, nextWakeupTime, wakeupTimer, isRunning, startedCh)
    }

    constructor (queue: StorageObject.Storage)
      ensures Valid() && State() == IDLE && this.queue == queue
    {
      this.queue := queue;
      ordersInFlight, pendingOrders, dueAt := {}, {}, map[];
      notifyCh, startedCh, isRunning := false, false, false;
      nextWakeupTime, wakeupTimer := 0, None;
    }

    method Start()
      requires Valid()
      modifies this`isRunning, this`startedCh
      ensures Valid() && State() == Started(old(State()))
      ensures isRunning && startedCh
    {
      isRunning := true;
      startedCh := true;
    }

    method Stop()
      requires Valid()
      modifies this`pendingOrders, this`dueAt, this`wakeupTimer, this`isRunning
      ensures Valid() && State() == Stopped(old(State()))
      ensures pendingOrders == {} && wakeupTimer == None && !isRunning
    {
      pendingOrders, dueAt := {}, map[];
      wakeupTimer := None;
      isRunning := false;
    }

    method HasFinished() returns (finished: bool)
      requires Valid()
      ensures finished <==> Finished(State())
      ensures finished <==> ordersInFlight == {} && pendingOrders == {}
    {
      finished := |ordersInFlight| == 0 && |pendingOrders| == 0;
      assert dueAt == map[] <==> pendingOrders == {};
    }

    /** Run by a single caller the drain makes room for the send. */
    method TriggerQueueProcessing()
      requires Valid()
      modifies this`notifyCh
      ensures Valid() && State() == old(State()).(notified := true)
    {
      if notifyCh {
        notifyCh := false;
      }
      notifyCh := true;
    }

    method DecrementEventsInFlight(o: OrderId)
      requires Valid()
      modifies this`ordersInFlight
      ensures Valid() && State() == WithoutInFlight(old(State()), o)
      ensures ordersInFlight == old(ordersInFlight) - {o}
    {
      ordersInFlight := ordersInFlight - {o};
    }

    method IncrementEventsInFlight(o: OrderId)
      requires Valid()
      modifies this`ordersInFlight
      ensures Valid() && State() == WithInFlight(old(State()), o)
      ensures ordersInFlight == old(ordersInFlight) + {o}
    {
      ordersInFlight := ordersInFlight + {o};
    }

    method AddPendingOrder(o: OrderId, processAfter: Time)
      requires Valid()
      modifies this`pendingOrders, this`dueAt, this`nextWakeupTime, this`wakeupTimer
      ensures Valid() && State() == WithPending(old(State()), o, processAfter)
      ensures pendingOrders == if old(isRunning) then old(pendingOrders) + {o} else old(pendingOrders)
      ensures if old(isRunning) && processAfter >= old(nextWakeupTime)
              then nextWakeupTime == processAfter && wakeupTimer == Some(processAfter)
              else nextWakeupTime == old(nextWakeupTime) && wakeupTimer == old(wakeupTimer)
    {
      if !isRunning {
        return;
      }
      pendingOrders, dueAt := pendingOrders + {o}, dueAt[o := processAfter];
      if nextWakeupTime > processAfter {
        return;
      }
      nextWakeupTime := processAfter;
      wakeupTimer := Some(nextWakeupTime);
    }

    method RemovePendingOrder(o: OrderId)
      requires Valid()
      modifies this`pendingOrders, this`dueAt
      ensures Valid() && State() == WithoutPending(old(State()), o)
      ensures pendingOrders == old(pendingOrders) - {o}
    {
      if o !in pendingOrders {
        assert dueAt - {o} == dueAt;
        return;
      }
      pendingOrders, dueAt := pendingOrders - {o}, dueAt - {o};
    }

    /** Takes the next order that is due, not in flight and not locked by another transaction; an error
    of the queue reads as none. */
    method NextEvent(locked: set<OrderId>, now: Time, queryFails: bool) returns (event: Option<Event>)
      requires Valid()
      modifies this`ordersInFlight, this`pendingOrders, this`dueAt
      ensures Valid()
      ensures event == None ==> State() == old(State())
      ensures event == None && !queryFails ==>
        forall o :: StorageObject.IsDue(queue.Tables(), now, o) ==> o in old(ordersInFlight) || o in locked
      ensures event.Some? ==>
        var o := event.value.order;
        && StorageObject.DueLongest(queue.Tables(), old(ordersInFlight) + locked, now, o)
        && ordersInFlight == old(ordersInFlight) + {o} && pendingOrders == old(pendingOrders) - {o}
      ensures event == None && !queryFails ==>
        forall o :: o in queue.orders ==>
          !StorageObject.Eligible(queue.Tables(), old(ordersInFlight) + locked, now, o)
      ensures event.Some? ==>
        var o := event.value.order;
        && o !in old(ordersInFlight)
        && StorageObject.IsNext(queue.Tables(), old(ordersInFlight) + locked, now, o)
        && event.value == Event(queue.orders[o].user, o, queue.queue[o].retries)
        && State() == WithoutPending(WithInFlight(old(State()), o), o)
    {
      var user, o, retries, err := queue.GetNextProcessableOrder(ordersInFlight, locked, now, queryFails);
      if err != StorageObject.NoError {
        return None;
      }
      IncrementEventsInFlight(o);
      RemovePendingOrder(o);
      event := Some(Event(user, o, retries));
    }

    /** Puts an event back: the order becomes pending only when the queue has stored its new time. */
    method EnqueueEvent(event: Event, processAfter: Time, expired: bool, fault: int, losesReply: bool)
      requires Valid()
      modifies this`pendingOrders, this`dueAt, this`nextWakeupTime, this`wakeupTimer, queue
      ensures Valid()
      ensures expired ==> State() == old(State()) && queue.Tables() == old(queue.Tables())
      ensures !expired ==>
        var attempt := Attempted(Postpone(event.order, processAfter), old(queue.Tables()),
                                 StorageObject.FaultOf(Postpone(event.order, processAfter), fault, losesReply));
        && queue.Tables() == attempt.db
        && State() == if attempt.reported then WithPending(old(State()), event.order, processAfter) else old(State())
      ensures expired ==> pendingOrders == old(pendingOrders)
      ensures !expired && event.order in old(queue.queue) && !(0 <= fault < 2) && !losesReply ==>
        && queue.queue == old(queue.queue)[
             event.order := QueueRow(processAfter, old(queue.queue)[event.order].retries + 1)]
        && pendingOrders == old(pendingOrders) + if old(isRunning) then {event.order} else {}
    {
      if expired {
        return;
      }
      var err := queue.PostponeOrderProcessing(event.order, processAfter, fault, losesReply);
      if err != StorageObject.NoError {
        return;
      }
      AddPendingOrder(event.order, processAfter);
    }
  }
}
