/** What a worker does with one event (order_event_worker.go). */
module Worker {
  import opened Common
  import opened Tables
  import opened OrderEvents
  import StorageObject

  /** The accrual system's order statuses; anything else is unknown. */
  datatype AccrualStatus = Registered | InProgress | Accrued | Rejected | Unknown

  datatype Answer = Answer(order: OrderId, status: AccrualStatus, points: Money)

  datatype Reply = Answered(answer: Answer) | TooManyRequests(retryAfter: nat) | RequestFailed

  predicate ShouldProcess(status: Status) {
    Open(status)
  }

  /** The call made for an answer; it is about the order that the answer names. */
  function MarkCall(u: UserId, answer: Answer): Op {
    match answer.status
    case Registered => MarkProcessing(answer.order)
    case InProgress => MarkProcessing(answer.order)
    case Accrued => MarkProcessed(answer.order, u, answer.points)
    case Rejected => MarkInvalid(answer.order)
    case Unknown => MarkInvalid(answer.order)
  }

  /** Whether the status check finds the event's order, and finds it open or settled. */
  predicate IsOpenFor(db: Db, event: Event) {
    && StorageObject.LookupError(db, event.user, event.order) == StorageObject.NoError
    && ShouldProcess(db.orders[event.order].status)
  }

  predicate IsSettledFor(db: Db, event: Event) {
    && StorageObject.LookupError(db, event.user, event.order) == StorageObject.NoError
    && !ShouldProcess(db.orders[event.order].status)
  }

  predicate IsReady(status: AccrualStatus) {
    status != Registered && status != InProgress
  }

  function FailureOf(err: StorageObject.Error): OrderEvents.Failure {
    if err == StorageObject.NoError then NoFailure
    else if err == StorageObject.OrderNotFound then OrderEvents.OrderNotFound
    else Other
  }

  datatype Marked = Marked(db: Db, committed: bool, failure: OrderEvents.Failure)

  /** The effect of the Mark call for an answer and the error the event ends with. */
  function MarkAnswer(db: Db, u: UserId, answer: Answer, fault: Fault): Marked {
    var op := MarkCall(u, answer);
    var lookup := StorageObject.LookupError(db, u, answer.order);
    if lookup != StorageObject.NoError then Marked(db, false, FailureOf(lookup))
    else
      var attempt := Attempted(op, db, fault);
      Marked(attempt.db, attempt.committed, if attempt.reported && IsReady(answer.status) then NoFailure else Other)
  }

  /** What an answer is for, on the tables: points for an accrued order, the end of a rejected or unknown one,
  a note that the others are being processed, and nothing for an order that is not the user's. */
  predicate DoneAsAnswered(before: Db, after: Db, u: UserId, answer: Answer, failure: OrderEvents.Failure) {
    var o := answer.order;
    if u !in before.users then after == before && failure == Other
    else if o !in before.orders || before.orders[o].user != u then
      after == before && failure == OrderEvents.OrderNotFound
    else if answer.status == Accrued then
      if u in before.balances && before.balances[u].current + answer.points >= 0 then
        var row := before.balances[u];
        && after == before.(orders := before.orders[o := OrderRow(u, Status.Processed)],
                            accruals := before.accruals[o := answer.points],
                            balances := before.balances[u := BalanceRow(row.current + answer.points, row.withdrawn)],
                            queue := before.queue - {o})
        && failure == NoFailure
      else after == before && failure == Other
    else if answer.status == Rejected || answer.status == Unknown then
      && after == before.(orders := before.orders[o := OrderRow(u, Status.Invalid)], queue := before.queue - {o})
      && failure == NoFailure
    else
      && after == before.(orders := before.orders[o := OrderRow(u, Status.Processing)])
      && failure == Other
  }

  lemma {:induction false} HealthyMarkDoesAsAnswered(db: Db, u: UserId, answer: Answer)
    ensures var marked := MarkAnswer(db, u, answer, Healthy);
            DoneAsAnswered(db, marked.db, u, answer, marked.failure)
  {
  }

  class OrderEventWorker {
    const orderRepo: StorageObject.Storage
    var pausedUntil: Time

    constructor (orderRepo: StorageObject.Storage)
      ensures this.orderRepo == orderRepo && pausedUntil == 0
    {
      this.orderRepo := orderRepo;
      pausedUntil := 0;
    }

    /** Changes the order's status as the answer says. */
    method ProcessAccrualClientOrder(u: UserId, answer: Answer, fault: int, losesReply: bool)
      returns (failure: OrderEvents.Failure)
      modifies orderRepo
      ensures var marked := MarkAnswer(old(orderRepo.Tables()), u, answer,
                                       StorageObject.FaultOf(MarkCall(u, answer), fault, losesReply));
              orderRepo.Tables() == marked.db && failure == marked.failure
      ensures !(0 <= fault < 8) && !losesReply ==>
        DoneAsAnswered(old(orderRepo.Tables()), orderRepo.Tables(), u, answer, failure)
    {
      HealthyMarkDoesAsAnswered(orderRepo.Tables(), u, answer);
      var err;
      var isReady := true;
      match answer.status {
        case Registered =>
          err := orderRepo.MarkOrderProcessing(u, answer.order, false, fault, losesReply);
          isReady := false;
        case InProgress =>
          err := orderRepo.MarkOrderProcessing(u, answer.order, false, fault, losesReply);
          isReady := false;
        case Accrued =>
          err := orderRepo.MarkOrderProcessed(u, answer.order, answer.points, false, fault, losesReply);
        case Rejected =>
          err := orderRepo.MarkOrderInvalid(u, answer.order, false, fault, losesReply);
        case Unknown =>
          err := orderRepo.MarkOrderInvalid(u, answer.order, false, fault, losesReply);
      }
      if err != StorageObject.NoError {
        failure := FailureOf(err);
      } else if !isReady {
        failure := Other;
      } else {
        failure := NoFailure;
      }
    }

    /** One event from the status check to the Mark call. An order in a final status is left alone, the
    accrual system is only asked about open ones, and only its refusal moves the shared pause. */
    method ProcessEvent(event: Event, statusFails: bool, expired: bool, reply: Reply, now: Time,
                        fault: int, losesReply: bool)
      returns (failure: OrderEvents.Failure, asked: bool)
      modifies this, orderRepo
      ensures asked <==> !statusFails && !expired && IsOpenFor(old(orderRepo.Tables()), event)
      ensures var db, u, o := old(orderRepo.Tables()), event.user, event.order;
              asked <==> !statusFails && !expired && u in db.users && o in db.orders && db.orders[o].user == u
                         && db.orders[o].status in {Status.New, Status.Processing}
      ensures asked && reply.Answered? && !(0 <= fault < 8) && !losesReply ==>
        DoneAsAnswered(old(orderRepo.Tables()), orderRepo.Tables(), event.user, reply.answer, failure)
      ensures var db, u, o := old(orderRepo.Tables()), event.user, event.order;
              !statusFails ==>
                && (u !in db.users ==> failure == Other)
                && (u in db.users && (o !in db.orders || db.orders[o].user != u) ==>
                      failure == OrderEvents.OrderNotFound)
      ensures statusFails ==> failure == Other
      ensures var lookup := StorageObject.LookupError(old(orderRepo.Tables()), event.user, event.order);
              !statusFails && lookup != StorageObject.NoError ==> failure == FailureOf(lookup)
      ensures !statusFails && IsSettledFor(old(orderRepo.Tables()), event) ==> failure == NoFailure
      ensures !statusFails && IsOpenFor(old(orderRepo.Tables()), event) && expired ==> failure == Other
      ensures asked && reply.Answered? ==>
        var marked := MarkAnswer(old(orderRepo.Tables()), event.user, reply.answer,
                                 StorageObject.FaultOf(MarkCall(event.user, reply.answer), fault, losesReply));
        orderRepo.Tables() == marked.db && failure == marked.failure
      ensures !(asked && reply.Answered?) ==> orderRepo.Tables() == old(orderRepo.Tables())
      ensures asked && !reply.Answered? ==> failure == Other
      ensures pausedUntil == if asked && reply.TooManyRequests? then now + reply.retryAfter else old(pausedUntil)
    {
      var status, err := orderRepo.GetOrderStatus(event.user, event.order, statusFails);
      if err != StorageObject.NoError {
        return FailureOf(err), false;
      }
      if !ShouldProcess(status) {
        return NoFailure, false;
      }
      if expired {
        return Other, false;
      }
      match reply
      case TooManyRequests(retryAfter) =>
        pausedUntil := now + retryAfter;
        return Other, true;
      case RequestFailed =>
        return Other, true;
      case Answered(answer) =>
        failure := ProcessAccrualClientOrder(event.user, answer, fault, losesReply);
        asked := true;
    }
  }
}
