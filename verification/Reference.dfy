/** The guarded in-memory order repository that the workers' tests run against
(internal/test/fakes/.../order_repository.go), and its agreement with the SQL store.

Unlike the store, its Mark calls test the order's status first. It has no withdrawals, so its balances
are the store's current and withdrawn amounts together; orders enter it as the test set-up puts them. */
module Reference {
  import opened Common
  import opened Tables
  import opened Ledger
  import StorageObject

  datatype RefOrder = RefOrder(user: UserId, status: Status, accrual: Money)

  datatype Ref = Ref(orders: map<OrderId, RefOrder>, balances: map<UserId, Money>, queue: map<OrderId, QueueRow>)

  const EMPTY_REF := Ref(map[], map[], map[])

  datatype RefOutcome = Accepted(ref: Ref) | Refused

  // ---- The guarded calls as functions ----

  function RefMarkInvalid(ref: Ref, u: UserId, o: OrderId): RefOutcome {
    if o !in ref.orders || ref.orders[o].user != u then Refused
    else if ref.orders[o].status == Processed then Refused
    else Accepted(ref.(orders := ref.orders[o := ref.orders[o].(status := Invalid)]))
  }

  function RefMarkProcessing(ref: Ref, u: UserId, o: OrderId): RefOutcome {
    if o !in ref.orders || ref.orders[o].user != u then Refused
    else
      match ref.orders[o].status
      case Invalid => Refused
      case Processed => Refused
      case Processing => Accepted(ref)
      case New => Accepted(ref.(orders := ref.orders[o := ref.orders[o].(status := Processing)]))
  }

  function RefMarkProcessed(ref: Ref, u: UserId, o: OrderId, points: Money): RefOutcome {
    if o !in ref.orders || ref.orders[o].user != u then Refused
    else
      match ref.orders[o].status
      case Invalid => Refused
      case Processed => Accepted(ref)
      case _ =>
        var balance := if u in ref.balances then ref.balances[u] else 0;
        Accepted(ref.(orders := ref.orders[o := RefOrder(u, Processed, points)],
                      balances := ref.balances[u := balance + points]))
  }

  function RefPostpone(ref: Ref, o: OrderId, processAfter: Time): RefOutcome {
    if o !in ref.orders || !Open(ref.orders[o].status) || o !in ref.queue then Accepted(ref)
    else Accepted(ref.(queue := ref.queue[o := QueueRow(processAfter, ref.queue[o].retries + 1)]))
  }

  predicate RefEligible(ref: Ref, exclude: set<OrderId>, now: Time, o: OrderId) {
    && o in ref.orders && Open(ref.orders[o].status)
    && o !in exclude
    && o in ref.queue && ref.queue[o].processAfter <= now
  }

  /** The repository as an object; `inject` makes a call return its configured error. */
  class TestOrderRepository {
    var orders: map<OrderId, RefOrder>
    var balances: map<UserId, Money>
    var queue: map<OrderId, QueueRow>

    function Data(): Ref
      reads this
    {
      Ref(orders, balances, queue)
    }

    /** Replaces the data; every open order is queued at the zero time. */
    method Setup(orders: map<OrderId, RefOrder>, balances: map<UserId, Money>)
      modifies this
      ensures this.orders == orders && this.balances == balances
      ensures queue == map o | o in orders && Open(orders[o].status) :: QueueRow(0, 0)
    {
      this.orders, this.balances := orders, balances;
      PopulateQueue();
    }

    method PopulateQueue()
      modifies this`queue
      ensures queue == map o | o in orders && Open(orders[o].status) :: QueueRow(0, 0)
    {
      queue := map[];
      var rest := orders.Keys;
      while rest != {}
        invariant rest <= orders.Keys
        invariant queue == map o | o in orders && Open(orders[o].status) && o !in rest :: QueueRow(0, 0)
        decreases rest
      {
        var o :| o in rest;
        rest := rest - {o};
        if Open(orders[o].status) {
          queue := queue[o := QueueRow(0, 0)];
        }
      }
    }

    method MarkOrderInvalid(u: UserId, o: OrderId, inject: bool) returns (ok: bool)
      modifies this
      ensures ok <==> !inject && RefMarkInvalid(old(Data()), u, o).Accepted?
      ensures Data() == if ok then RefMarkInvalid(old(Data()), u, o).ref else old(Data())
      ensures ok <==> !inject && o in old(orders) && old(orders)[o].user == u && old(orders)[o].status != Processed
      ensures balances == old(balances) && queue == old(queue)
      ensures orders == if ok then old(orders)[o := RefOrder(u, Invalid, old(orders)[o].accrual)] else old(orders)
    {
      if o !in orders || orders[o].user != u || orders[o].status == Processed || inject {
        return false;
      }
      orders := orders[o := orders[o].(status := Invalid)];
      ok := true;
    }

    method MarkOrderProcessing(u: UserId, o: OrderId, inject: bool) returns (ok: bool)
      modifies this
      ensures ok ==> RefMarkProcessing(old(Data()), u, o).Accepted?
      ensures !inject && RefMarkProcessing(old(Data()), u, o).Accepted? ==> ok
      ensures Data() == if ok then RefMarkProcessing(old(Data()), u, o).ref else old(Data())
      ensures ok <==> o in old(orders) && old(orders)[o].user == u
                      && (old(orders)[o].status == Processing || (old(orders)[o].status == New && !inject))
      ensures balances == old(balances) && queue == old(queue)
      ensures orders == if ok then old(orders)[o := RefOrder(u, Processing, old(orders)[o].accrual)] else old(orders)
    {
      if o !in orders || orders[o].user != u || orders[o].status == Invalid || orders[o].status == Processed {
        return false;
      }
      if orders[o].status == Processing {
        return true;
      }
      if inject {
        return false;
      }
      orders := orders[o := orders[o].(status := Processing)];
      ok := true;
    }

    method MarkOrderProcessed(u: UserId, o: OrderId, points: Money, inject: bool) returns (ok: bool)
      modifies this
      ensures ok ==> RefMarkProcessed(old(Data()), u, o, points).Accepted?
      ensures !inject && RefMarkProcessed(old(Data()), u, o, points).Accepted? ==> ok
      ensures Data() == if ok then RefMarkProcessed(old(Data()), u, o, points).ref else old(Data())
      ensures ok <==> o in old(orders) && old(orders)[o].user == u
                      && (old(orders)[o].status == Processed || (old(orders)[o].status != Invalid && !inject))
      ensures queue == old(queue)
      ensures !ok || old(orders)[o].status == Processed ==> orders == old(orders) && balances == old(balances)
      ensures ok && old(orders)[o].status != Processed ==>
        && orders == old(orders)[o := RefOrder(u, Processed, points)]
        && balances == old(balances)[u := (if u in old(balances) then old(balances)[u] else 0) + points]
    {
      if o !in orders || orders[o].user != u || orders[o].status == Invalid {
        return false;
      }
      if orders[o].status == Processed {
        return true;
      }
      if inject {
        return false;
      }
      orders := orders[o := orders[o].(status := Processed, accrual := points)];
      balances := balances[u := (if u in balances then balances[u] else 0) + points];
      ok := true;
    }

    method PostponeOrderProcessing(o: OrderId, processAfter: Time)
      modifies this
      ensures Accepted(Data()) == RefPostpone(old(Data()), o, processAfter)
      ensures orders == old(orders) && balances == old(balances)
      ensures queue == if o in old(queue) && o in orders && orders[o].status in {New, Processing}
                       then old(queue)[o := QueueRow(processAfter, old(queue)[o].retries + 1)] else old(queue)
    {
      if o !in orders || !Open(orders[o].status) {
        return;
      }
      if o !in queue {
        return;
      }
      queue := queue[o := QueueRow(processAfter, queue[o].retries + 1)];
    }

    method GetProcessableOrders(exclude: set<OrderId>, now: Time) returns (candidates: set<OrderId>)
      ensures candidates == set o | o in orders && RefEligible(Data(), exclude, now, o)
      ensures forall o :: o in candidates <==>
                o in orders && orders[o].status in {New, Processing} && o !in exclude
                && o in queue && queue[o].processAfter <= now
    {
      candidates := {};
      var rest := orders.Keys;
      while rest != {}
        invariant rest <= orders.Keys
        invariant candidates == set o | o in orders && RefEligible(Data(), exclude, now, o) && o !in rest
        decreases rest
      {
        var o :| o in rest;
        rest := rest - {o};
        if Open(orders[o].status) && o !in exclude && o in queue && queue[o].processAfter <= now {
          candidates := candidates + {o};
        }
      }
    }
  }

  // ---- Agreement with the SQL store ----

  /** An order with the same owner, status and points, and, while it is open, the same queue row. */
  predicate OrderAgrees(db: Db, ref: Ref, o: OrderId) {
    && (o in ref.orders <==> o in db.orders)
    && (o in db.orders ==>
          && ref.orders[o] == RefOrder(db.orders[o].user, db.orders[o].status,
                                       if o in db.accruals then db.accruals[o] else 0)
          && (Open(db.orders[o].status) ==> o in db.queue && o in ref.queue && ref.queue[o] == db.queue[o]))
  }

  /** A user whose reference balance is what is left plus what was withdrawn. */
  predicate UserAgrees(db: Db, ref: Ref, u: UserId) {
    && (u in ref.balances <==> u in db.balances)
    && (u in db.balances ==> ref.balances[u] == db.balances[u].current + db.balances[u].withdrawn)
  }

  ghost predicate Agrees(db: Db, ref: Ref) {
    && (forall o :: OrderAgrees(db, ref, o))
    && (forall u :: UserAgrees(db, ref, u))
  }

  /** What a committed transaction of the store corresponds to in the reference. */
  function RefTransact(op: Op, db: Db, ref: Ref): RefOutcome {
    match op
    case CreateUser(u) => Accepted(ref.(balances := ref.balances[u := 0]))
    case CreateOrder(o, u, now) =>
      Accepted(ref.(orders := ref.orders[o := RefOrder(u, New, 0)], queue := ref.queue[o := QueueRow(now, 0)]))
    case MarkProcessing(o) => RefMarkProcessing(ref, OwnerOf(db, o), o)
    case MarkInvalid(o) => RefMarkInvalid(ref, OwnerOf(db, o), o)
    case MarkProcessed(o, u, points) => RefMarkProcessed(ref, u, o, points)
    case Withdraw(_, _, _) => Accepted(ref)
    case Postpone(o, at) => RefPostpone(ref, o, at)
  }

  function OwnerOf(db: Db, o: OrderId): UserId {
    if o in db.orders then db.orders[o].user else UserId("")
  }

  lemma MarkedOrderAgrees(op: Op, db: Db, ref: Ref, o: OrderId)
    requires op.MarkProcessing? || op.MarkInvalid? || op.MarkProcessed?
    requires OrderAgrees(db, ref, o) && OrderAgrees(db, ref, op.order) && RowsInOrder(db, op.order)
    requires Permitted(op, db) && Transact(op, db).Committed?
    ensures RefTransact(op, db, ref).Accepted?
    ensures OrderAgrees(Transact(op, db).db, RefTransact(op, db, ref).ref, o)
  {
  }

  lemma OtherOrderAgrees(op: Op, db: Db, ref: Ref, o: OrderId)
    requires op.CreateUser? || op.CreateOrder? || op.Withdraw? || op.Postpone?
    requires OrderAgrees(db, ref, o) && RowsInOrder(db, o)
    requires op.CreateOrder? || op.Postpone? ==> OrderAgrees(db, ref, op.order) && RowsInOrder(db, op.order)
    requires Transact(op, db).Committed?
    ensures RefTransact(op, db, ref).Accepted?
    ensures OrderAgrees(Transact(op, db).db, RefTransact(op, db, ref).ref, o)
  {
  }

  lemma UserStaysAgreed(op: Op, db: Db, ref: Ref, u: UserId)
    requires UserAgrees(db, ref, u)
    requires op.MarkProcessed? ==> OrderAgrees(db, ref, op.order)
    requires Permitted(op, db) && Transact(op, db).Committed? && RefTransact(op, db, ref).Accepted?
    ensures UserAgrees(Transact(op, db).db, RefTransact(op, db, ref).ref, u)
  {
  }

  lemma {:induction false} PermittedStepAgrees(op: Op, db: Db, ref: Ref)
    requires Agrees(db, ref) && (forall o :: RowsInOrder(db, o))
    requires Permitted(op, db) && Transact(op, db).Committed?
    ensures RefTransact(op, db, ref).Accepted? && Agrees(Transact(op, db).db, RefTransact(op, db, ref).ref)
  {
    if op.MarkProcessing? || op.MarkInvalid? || op.MarkProcessed? {
      MarkedOrderAgrees(op, db, ref, op.order);
    }
    forall o
      ensures OrderAgrees(Transact(op, db).db, RefTransact(op, db, ref).ref, o)
    {
      if op.MarkProcessing? || op.MarkInvalid? || op.MarkProcessed? {
        MarkedOrderAgrees(op, db, ref, o);
      } else {
        OtherOrderAgrees(op, db, ref, o);
      }
    }
    forall u
      ensures UserAgrees(Transact(op, db).db, RefTransact(op, db, ref).ref, u)
    {
      UserStaysAgreed(op, db, ref, u);
    }
  }

  /** The reference after replaying a log of committed transactions, if its guards let them all pass. */
  function Replay(log: seq<Op>): RefOutcome
    decreases |log|
  {
    if log == [] then Accepted(EMPTY_REF)
    else
      var init := log[..|log| - 1];
      match Replay(init)
      case Refused => Refused
      case Accepted(ref) =>
        match RunAll(init)
        case None => Refused
        case Some(db) => RefTransact(log[|log| - 1], db, ref)
  }

  /** On every guarded log the unguarded store and the guarded reference are in step: no guard refuses
  anything, and statuses, points, balances and queue agree in the end. */
  lemma {:induction false} StoreRefinesReference(log: seq<Op>)
    requires Guarded(log)
    ensures RunAll(log).Some? && Replay(log).Accepted? && Agrees(RunAll(log).value, Replay(log).ref)
    decreases |log|
  {
    if log != [] {
      var init := log[..|log| - 1];
      StoreRefinesReference(init);
      var db := RunAll(init).value;
      forall o
        ensures RowsInOrder(db, o)
      {
        CreditedOnce(init, o);
      }
      PermittedStepAgrees(log[|log| - 1], db, Replay(init).ref);
    }
  }

  /** Agreeing stores offer the same orders for dispatch. */
  lemma AgreeingStoresOfferTheSame(db: Db, ref: Ref, exclude: set<OrderId>, now: Time, o: OrderId)
    requires OrderAgrees(db, ref, o)
    ensures StorageObject.Eligible(db, exclude, now, o) <==> RefEligible(ref, exclude, now, o)
  {
  }

  /** The statuses on which a Mark call of the store does what the guarded one does. */
  predicate GuardIsIdle(op: Op, db: Db)
    requires op.MarkProcessing? || op.MarkInvalid? || op.MarkProcessed?
    requires op.order in db.orders
  {
    var status := db.orders[op.order].status;
    match op
    case MarkProcessing(_) => Open(status)
    case MarkInvalid(_) => status != Processed
    case MarkProcessed(o, _, points) =>
      Open(status) || (status == Processed && points == 0 && o in db.accruals && db.accruals[o] == 0)
  }

  function RefAfter(op: Op, db: Db, ref: Ref): Ref {
    match RefTransact(op, db, ref)
    case Accepted(after) => after
    case Refused => ref
  }

  lemma BusyGuardBreaksAgreement(op: Op, db: Db, ref: Ref)
    requires op.MarkProcessing? || op.MarkInvalid? || op.MarkProcessed?
    requires op.order in db.orders && (op.MarkProcessed? ==> op.user == db.orders[op.order].user)
    requires OrderAgrees(db, ref, op.order) && RowsInOrder(db, op.order) && Transact(op, db).Committed?
    requires op.MarkProcessed? ==> UserAgrees(db, ref, op.user)
    requires !GuardIsIdle(op, db)
    ensures !OrderAgrees(Transact(op, db).db, RefAfter(op, db, ref), op.order)
         || (op.MarkProcessed? && !UserAgrees(Transact(op, db).db, RefAfter(op, db, ref), op.user))
  {
  }

  lemma IdleGuardOnFinalOrder(op: Op, db: Db, ref: Ref)
    requires op.MarkProcessing? || op.MarkInvalid? || op.MarkProcessed?
    requires op.order in db.orders && (op.MarkProcessed? ==> op.user == db.orders[op.order].user)
    requires OrderAgrees(db, ref, op.order) && RowsInOrder(db, op.order) && Transact(op, db).Committed?
    requires GuardIsIdle(op, db) && !Open(db.orders[op.order].status)
    ensures Transact(op, db).db == db && RefAfter(op, db, ref) == ref
  {
    var o, after := op.order, Transact(op, db).db;
    assert after.orders == db.orders && after.queue == db.queue;
    assert ref.orders[o := ref.orders[o]] == ref.orders;
    if op.MarkProcessed? {
      assert after.balances == db.balances && after.accruals == db.accruals;
    }
  }

  /** The store's Mark calls stay in agreement with the guarded ones exactly on those statuses. */
  lemma {:induction false} AgreementNeedsTheGuard(op: Op, db: Db, ref: Ref)
    requires op.MarkProcessing? || op.MarkInvalid? || op.MarkProcessed?
    requires op.order in db.orders && (op.MarkProcessed? ==> op.user == db.orders[op.order].user)
    requires Agrees(db, ref) && (forall o :: RowsInOrder(db, o)) && Transact(op, db).Committed?
    ensures Agrees(Transact(op, db).db, RefAfter(op, db, ref)) <==> GuardIsIdle(op, db)
  {
    if Open(db.orders[op.order].status) {
      PermittedStepAgrees(op, db, ref);
    } else if GuardIsIdle(op, db) {
      IdleGuardOnFinalOrder(op, db, ref);
    } else {
      BusyGuardBreaksAgreement(op, db, ref);
    }
  }
}
