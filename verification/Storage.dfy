/** The SQL storage as an object whose methods change the tables statement by statement and roll back
on the first error (store_*.go, trx_*.go, transaction.go), proved against the transactions of Tables.

Faults are inputs: `fault` is the index of the statement at which the connection breaks (no statement
when it is out of range) and `losesReply` makes a commit succeed although its caller gets an error. */
module StorageObject {
  import opened Common
  import opened Tables

  datatype Error =
    | NoError
    | UserNotFound
    | OrderNotFound
    | UserIdConflict
    | BalanceNotEnoughFunds
    | NoProcessableOrders
    | DatabaseError

  function FaultOf(op: Op, fault: int, losesReply: bool): Fault {
    if 0 <= fault < |Program(op)| then Breaks else if losesReply then LosesReply else Healthy
  }

  function ErrorOf(failure: Failure): Error {
    if failure == NotEnoughFunds then BalanceNotEnoughFunds else DatabaseError
  }

  /** What the lookup of a user's own order reports. */
  function LookupError(db: Db, u: UserId, o: OrderId): (err: Error)
    ensures err == NoError <==> u in db.users && o in db.orders && db.orders[o].user == u
  {
    if u !in db.users then UserNotFound
    else if o !in db.orders || db.orders[o].user != u then OrderNotFound
    else NoError
  }

  /** The outcome of a whole call that runs one transaction. */
  predicate RanAs(op: Op, before: Db, after: Db, err: Error, fault: int, losesReply: bool) {
    var attempt, kind := Attempted(op, before, FaultOf(op, fault, losesReply)), FaultOf(op, fault, losesReply);
    && after == attempt.db
    && (err == NoError <==> attempt.reported)
    && (err == NoError || err == DatabaseError || err == BalanceNotEnoughFunds)
    && (kind == Healthy && Transact(op, before).RolledBack? ==> err == ErrorOf(Transact(op, before).failure))
  }

  /** What a transaction comes to when its statements stop at the first error. */
  lemma RollsBackOrCommits(op: Op, before: Db, after: Db, err: Error, length: nat, fault: int, losesReply: bool)
    requires |Program(op)| == length
    requires 0 <= fault < length ==> after == before && (err == DatabaseError || err == BalanceNotEnoughFunds)
    requires !(0 <= fault < length) ==>
      match Transact(op, before)
      case RolledBack(f) => after == before && err == ErrorOf(f)
      case Committed(db) => after == db && err == if losesReply then DatabaseError else NoError
    ensures RanAs(op, before, after, err, fault, losesReply)
  {
  }

  /** MarkProcessed as the four groups of statements that it consists of. */
  lemma MarkProcessedInGroups(o: OrderId, u: UserId, points: Money, db: Db)
    ensures |Program(MarkProcessed(o, u, points))| == 8
    ensures var saved := WithStatus(db, o, Processed).(accruals := db.accruals[o := points]);
            Transact(MarkProcessed(o, u, points), db) ==
            match Moved(saved, u, points, 0)
            case RolledBack(f) => RolledBack(f)
            case Committed(moved) => Committed(moved.(queue := moved.queue - {o}))
  {
  }

  /** The outcome of a Mark call: nothing happens unless the order is found and belongs to the user. */
  predicate MarkedAs(
      op: Op, u: UserId, before: Db, after: Db, err: Error, lookupFails: bool, fault: int, losesReply: bool)
    requires op.MarkProcessing? || op.MarkInvalid? || op.MarkProcessed?
  {
    var lookup := if lookupFails then DatabaseError else LookupError(before, u, op.order);
    if lookup != NoError then after == before && err == lookup
    else RanAs(op, before, after, err, fault, losesReply)
  }

  /** An order that may be dispatched now. */
  predicate Eligible(db: Db, exclude: set<OrderId>, now: Time, o: OrderId) {
    && o in db.orders && Open(db.orders[o].status)
    && o !in exclude
    && o in db.queue && db.queue[o].processAfter <= now
  }

  predicate DueNoLater(db: Db, a: OrderId, b: OrderId) {
    a in db.queue && b in db.queue && db.queue[a].processAfter <= db.queue[b].processAfter
  }

  /** An eligible order that has been due for the longest time. */
  predicate IsNext(db: Db, exclude: set<OrderId>, now: Time, o: OrderId) {
    && Eligible(db, exclude, now, o)
    && forall other :: other in db.orders && Eligible(db, exclude, now, other) ==> DueNoLater(db, o, other)
  }

  /** On the rows: a new or processing order whose process time has come. */
  predicate IsDue(db: Db, now: Time, o: OrderId) {
    && o in db.orders && (db.orders[o].status == New || db.orders[o].status == Processing)
    && o in db.queue && db.queue[o].processAfter <= now
  }

  /** A due order outside `skipped` whose process time is no later than that of any other such order. */
  predicate DueLongest(db: Db, skipped: set<OrderId>, now: Time, o: OrderId) {
    && IsDue(db, now, o) && o !in skipped
    && forall other :: other in db.orders && IsDue(db, now, other) && other !in skipped
         ==> db.queue[o].processAfter <= db.queue[other].processAfter
  }

  lemma EligibleIsDue(db: Db, skipped: set<OrderId>, now: Time, o: OrderId)
    ensures Eligible(db, skipped, now, o) <==> IsDue(db, now, o) && o !in skipped
  {
  }

  lemma {:induction false} NextIsDueLongest(db: Db, skipped: set<OrderId>, now: Time, o: OrderId)
    ensures IsNext(db, skipped, now, o) <==> DueLongest(db, skipped, now, o)
  {
    forall other
      ensures Eligible(db, skipped, now, other) <==> IsDue(db, now, other) && other !in skipped
    {
      EligibleIsDue(db, skipped, now, other);
    }
  }

  lemma {:induction false} EarliestDue(db: Db, candidates: set<OrderId>) returns (first: OrderId)
    requires candidates != {} && candidates <= db.queue.Keys
    ensures first in candidates && forall o :: o in candidates ==> DueNoLater(db, first, o)
    decreases candidates
  {
    var some :| some in candidates;
    var rest := candidates - {some};
    first := some;
    if rest != {} {
      var best := EarliestDue(db, rest);
      if !DueNoLater(db, some, best) {
        first := best;
      }
    }
    assert forall o :: o in candidates ==> o == some || o in rest;
  }

  class Storage {
    var users: set<UserId>
    var orders: map<OrderId, OrderRow>
    var accruals: map<OrderId, Money>
    var balances: map<UserId, BalanceRow>
    var withdrawals: map<OrderId, WithdrawalRow>
    var queue: map<OrderId, QueueRow>

    function Tables(): Db
      reads this
    {
      Db(users, orders, accruals, balances, withdrawals, queue)
    }

    constructor ()
      ensures Tables() == EMPTY_DB
    {
      users, orders, accruals := {}, map[], map[];
      balances, withdrawals, queue := map[], map[], map[];
    }

    // ---- Statements and groups of statements inside a transaction ----

    method SetOrderStatus(o: OrderId, status: Status, fault: int) returns (err: Error)
      modifies this`orders
      ensures err == if fault == 0 then DatabaseError else NoError
      ensures Tables() == if fault == 0 then old(Tables()) else WithStatus(old(Tables()), o, status)
      ensures fault != 0 ==>
        orders == if o in old(orders) then old(orders)[o := OrderRow(old(orders)[o].user, status)] else old(orders)
    {
      if fault == 0 {
        return DatabaseError;
      }
      if o in orders {
        orders := orders[o := orders[o].(status := status)];
      }
      err := NoError;
    }

    method SetAccrualPoints(o: OrderId, amount: Money, fault: int) returns (err: Error)
      modifies this`accruals
      ensures err == if fault == 0 || fault == 1 then DatabaseError else NoError
      ensures err == NoError ==> accruals == old(accruals)[o := amount]
    {
      if fault == 0 {
        return DatabaseError;
      }
      var found := o in accruals;
      if fault == 1 {
        return DatabaseError;
      }
      if !found {
        accruals := accruals[o := amount];  // INSERT
      } else {
        accruals := accruals[o := amount];  // UPDATE
      }
      err := NoError;
    }

    method UpdateBalance(u: UserId, diffCurrent: Money, diffWithdrawn: Money, fault: int) returns (err: Error)
      modifies this`balances
      ensures err == if fault == 0 || u !in old(balances) then DatabaseError
                     else if WholePart(old(balances)[u].current) + WholePart(diffCurrent) < 0 then BalanceNotEnoughFunds
                     else if fault == 1 then DatabaseError
                     else NoError
      ensures err == NoError ==>
        balances == old(balances)[u := BalanceRow(old(balances)[u].current + diffCurrent,
                                                  old(balances)[u].withdrawn + diffWithdrawn)]
    {
      if fault == 0 || u !in balances {
        return DatabaseError;
      }
      var balance := balances[u];
      if WholePart(balance.current) + WholePart(diffCurrent) < 0 {
        return BalanceNotEnoughFunds;
      }
      if fault == 1 {
        return DatabaseError;
      }
      balances := balances[u := BalanceRow(balances[u].current + diffCurrent, balances[u].withdrawn + diffWithdrawn)];
      err := NoError;
    }

    method MaybeUpdateBalance(u: UserId, diffCurrent: Money, diffWithdrawn: Money, fault: int) returns (err: Error)
      modifies this`balances
      ensures 0 <= fault < 3 ==> err == DatabaseError || err == BalanceNotEnoughFunds
      ensures !(0 <= fault < 3) ==>
        match Moved(old(Tables()), u, diffCurrent, diffWithdrawn)
        case RolledBack(f) => err == ErrorOf(f)
        case Committed(moved) => err == NoError && Tables() == moved
      ensures !(0 <= fault < 3) ==>
        && (err == DatabaseError <==> u !in old(balances))
        && (err == BalanceNotEnoughFunds <==> u in old(balances) && old(balances)[u].current + diffCurrent < 0)
      ensures err == NoError ==>
        && u in old(balances)
        && balances == old(balances)[u := BalanceRow(old(balances)[u].current + diffCurrent,
                                                     old(balances)[u].withdrawn + diffWithdrawn)]
    {
      err := UpdateBalance(u, diffCurrent, diffWithdrawn, fault);
      if err != NoError {
        if u in old(balances) && WholePart(old(balances)[u].current) + WholePart(diffCurrent) < 0 {
          CoarseCheckIsImplied(old(balances)[u].current, diffCurrent);
        }
        return;
      }
      if fault == 2 {
        return DatabaseError;
      }
      if balances[u].current < 0 {
        err := BalanceNotEnoughFunds;
      }
    }

    method AddWithdrawalTransaction(u: UserId, o: OrderId, amount: Money, fault: int) returns (err: Error)
      modifies this`withdrawals
      ensures err == if fault == 0 || o in old(withdrawals) then DatabaseError else NoError
      ensures err == NoError ==> withdrawals == old(withdrawals)[o := WithdrawalRow(u, amount)]
    {
      if fault == 0 || o in withdrawals {
        return DatabaseError;
      }
      withdrawals := withdrawals[o := WithdrawalRow(u, amount)];
      err := NoError;
    }

    /** When there is no row the second fault position is that of the commit. */
    method RemoveProcessableOrder(o: OrderId, fault: int) returns (err: Error)
      modifies this`queue
      ensures err == if 0 <= fault < 2 then DatabaseError else NoError
      ensures err == NoError ==> queue == old(queue) - {o}
    {
      if fault == 0 {
        return DatabaseError;
      }
      var found := o in queue;
      if fault == 1 {
        return DatabaseError;
      }
      if found {
        queue := queue - {o};
      } else {
        assert queue - {o} == queue;
      }
      err := NoError;
    }

    // ---- Transactions ----

    method Restore(before: Db)
      modifies this
      ensures Tables() == before
    {
      users, orders, accruals := before.users, before.orders, before.accruals;
      balances, withdrawals, queue := before.balances, before.withdrawals, before.queue;
    }

    /** The end of Transaction.Run: roll back on an error, else commit. */
    method Finish(before: Db, failed: Error, losesReply: bool) returns (err: Error)
      modifies this
      ensures Tables() == if failed == NoError then old(Tables()) else before
      ensures err == if failed == NoError && losesReply then DatabaseError else failed
    {
      err := failed;
      if failed != NoError {
        Restore(before);
      } else if losesReply {
        err := DatabaseError;
      }
    }

    method TransactionCreateUserAndBalance(u: UserId, fault: int, losesReply: bool) returns (err: Error)
      modifies this
      ensures RanAs(Op.CreateUser(u), old(Tables()), Tables(), err, fault, losesReply)
    {
      var before := Tables();
      if fault == 0 || u in users {
        err := DatabaseError;
      } else {
        users := users + {u};
        if fault == 1 || u in balances {
          err := DatabaseError;
        } else {
          balances := balances[u := BalanceRow(0, 0)];
          err := NoError;
        }
      }
      err := Finish(before, err, losesReply);
    }

    method TransactionCreateOrder(u: UserId, o: OrderId, now: Time, fault: int, losesReply: bool) returns (err: Error)
      modifies this
      ensures RanAs(Op.CreateOrder(o, u, now), old(Tables()), Tables(), err, fault, losesReply)
    {
      var before := Tables();
      if fault == 0 || o in orders {
        err := DatabaseError;
      } else {
        orders := orders[o := OrderRow(u, New)];
        if fault == 1 || o in queue {
          err := DatabaseError;
        } else {
          queue := queue[o := QueueRow(now, 0)];
          err := NoError;
        }
      }
      err := Finish(before, err, losesReply);
    }

    method TransactionMarkOrderInvalid(o: OrderId, fault: int, losesReply: bool) returns (err: Error)
      modifies this
      ensures RanAs(MarkInvalid(o), old(Tables()), Tables(), err, fault, losesReply)
    {
      var before := Tables();
      err := SetOrderStatus(o, Invalid, fault);
      if err == NoError {
        err := RemoveProcessableOrder(o, fault - 1);
      }
      err := Finish(before, err, losesReply);
    }

    method TransactionMarkOrderProcessed(u: UserId, o: OrderId, points: Money, fault: int, losesReply: bool)
      returns (err: Error)
      modifies this
      ensures RanAs(MarkProcessed(o, u, points), old(Tables()), Tables(), err, fault, losesReply)
    {
      var before := Tables();
      err := SetOrderStatus(o, Processed, fault);
      if err == NoError {
        err := SetAccrualPoints(o, points, fault - 1);
      }
      if err == NoError {
        err := MaybeUpdateBalance(u, points, 0, fault - 3);
      }
      if err == NoError {
        err := RemoveProcessableOrder(o, fault - 6);
      }
      err := Finish(before, err, losesReply);
      MarkProcessedInGroups(o, u, points, before);
      RollsBackOrCommits(MarkProcessed(o, u, points), before, Tables(), err, 8, fault, losesReply);
    }

    method TransactionWithdrawFunds(u: UserId, o: OrderId, amount: Money, fault: int, losesReply: bool)
      returns (err: Error)
      modifies this
      ensures RanAs(Withdraw(o, u, amount), old(Tables()), Tables(), err, fault, losesReply)
    {
      var before := Tables();
      err := MaybeUpdateBalance(u, -1 * amount, amount, fault);
      if err == NoError {
        err := AddWithdrawalTransaction(u, o, amount, fault - 3);
      }
      err := Finish(before, err, losesReply);
      RollsBackOrCommits(Withdraw(o, u, amount), before, Tables(), err, 4, fault, losesReply);
    }

    method TransactionPostponeOrderProcessing(o: OrderId, processAfter: Time, fault: int, losesReply: bool)
      returns (err: Error)
      modifies this
      ensures RanAs(Postpone(o, processAfter), old(Tables()), Tables(), err, fault, losesReply)
    {
      var before := Tables();
      if fault == 0 || o !in queue {
        err := DatabaseError;
      } else {
        var processable := queue[o];
        processable := processable.(processAfter := processAfter);
        processable := processable.(retries := processable.retries + 1);
        if fault == 1 {
          err := DatabaseError;
        } else {
          queue := queue[o := processable];
          err := NoError;
        }
      }
      err := Finish(before, err, losesReply);
    }

    // ---- The calls; `lookupFails` breaks the connection before any transaction ----

    method CreateUser(u: UserId, lookupFails: bool, fault: int, losesReply: bool) returns (err: Error)
      modifies this
      ensures lookupFails || u in old(users) ==>
        Tables() == old(Tables()) && err == if lookupFails then DatabaseError else UserIdConflict
      ensures !lookupFails && u !in old(users) ==>
        RanAs(Op.CreateUser(u), old(Tables()), Tables(), err, fault, losesReply)
      ensures !lookupFails && u !in old(users) && u !in old(balances) && !(0 <= fault < 2) && !losesReply ==>
        && err == NoError
        && Tables() == old(Tables()).(users := old(users) + {u}, balances := old(balances)[u := BalanceRow(0, 0)])
    {
      if lookupFails {
        return DatabaseError;
      }
      if u in users {
        return UserIdConflict;
      }
      err := TransactionCreateUserAndBalance(u, fault, losesReply);
    }

    /** The owner of an order that exists already is returned together with `created` false. */
    method CreateOrder(u: UserId, o: OrderId, now: Time, lookupFails: bool, fault: int, losesReply: bool)
      returns (created: bool, owner: Option<UserId>, err: Error)
      modifies this
      ensures created ==> err == NoError && owner == Some(u) && o !in old(orders)
      ensures !created && err == NoError ==> o in old(orders) && owner == Some(old(orders)[o].user)
      ensures lookupFails || u !in old(users) || o in old(orders) ==> !created && Tables() == old(Tables())
      ensures lookupFails ==> err == DatabaseError
      ensures !lookupFails && u !in old(users) ==> err == UserNotFound
      ensures !lookupFails && u in old(users) && o in old(orders) ==> err == NoError
      ensures !lookupFails && u in old(users) && o !in old(orders) ==>
        RanAs(Op.CreateOrder(o, u, now), old(Tables()), Tables(), err, fault, losesReply)
      ensures !lookupFails && u in old(users) && o !in old(orders) ==> (created <==> err == NoError)
      ensures !lookupFails && u in old(users) && o !in old(orders) && o !in old(queue)
              && !(0 <= fault < 2) && !losesReply ==>
        && created
        && Tables() == old(Tables()).(orders := old(orders)[o := OrderRow(u, New)],
                                      queue := old(queue)[o := QueueRow(now, 0)])
    {
      if lookupFails {
        return false, None, DatabaseError;
      }
      if u !in users {
        return false, None, UserNotFound;
      }
      if o in orders {
        return false, Some(orders[o].user), NoError;
      }
      err := TransactionCreateOrder(u, o, now, fault, losesReply);
      created := err == NoError;
      owner := if created then Some(u) else None;
    }

    method FindUser(u: UserId, queryFails: bool) returns (found: bool, err: Error)
      ensures err == if queryFails then DatabaseError else NoError
      ensures err == NoError ==> found == (u in users)
    {
      found := !queryFails && u in users;
      err := if queryFails then DatabaseError else NoError;
    }

    method FindOrder(o: OrderId, queryFails: bool) returns (order: Option<OrderRow>, err: Error)
      ensures err == if queryFails then DatabaseError else NoError
      ensures err == NoError ==> order == if o in orders then Some(orders[o]) else None
    {
      order := if !queryFails && o in orders then Some(orders[o]) else None;
      err := if queryFails then DatabaseError else NoError;
    }

    /** A missing user is reported before a missing order is looked for, and somebody else's order as
    missing; otherwise the order is handed out as stored. */
    method GetOrderBelongingToUser(u: UserId, o: OrderId, lookupFails: bool)
      returns (order: Option<OrderRow>, err: Error)
      ensures lookupFails ==> err == DatabaseError
      ensures !lookupFails ==>
        && (err == UserNotFound <==> u !in users)
        && (err == OrderNotFound <==> u in users && (o !in orders || orders[o].user != u))
        && (err == NoError <==> u in users && o in orders && orders[o].user == u)
      ensures order.Some? <==> err == NoError
      ensures err == NoError ==> order == Some(orders[o])
      ensures !lookupFails ==> err == LookupError(Tables(), u, o)
    {
      var userExists;
      userExists, err := FindUser(u, lookupFails);
      if err != NoError {
        return None, err;
      }
      if !userExists {
        return None, UserNotFound;
      }
      order, err := FindOrder(o, lookupFails);
      if err != NoError {
        return None, err;
      }
      if order == None || order.value.user != u {
        return None, OrderNotFound;
      }
    }

    /** The stored status of the user's own order; a user or an order that is not there, or belongs to
    somebody else, is told apart by the error. */
    method GetOrderStatus(u: UserId, o: OrderId, lookupFails: bool) returns (status: Status, err: Error)
      ensures lookupFails ==> err == DatabaseError
      ensures !lookupFails ==>
        && (err == UserNotFound <==> u !in users)
        && (err == OrderNotFound <==> u in users && (o !in orders || orders[o].user != u))
        && (err == NoError <==> u in users && o in orders && orders[o].user == u)
      ensures err == NoError ==> status == orders[o].status
      ensures err != NoError ==> status == Invalid
    {
      var order;
      order, err := GetOrderBelongingToUser(u, o, lookupFails);
      status := if err == NoError then order.value.status else Invalid;
    }

    method MarkOrderProcessing(u: UserId, o: OrderId, lookupFails: bool, fault: int, losesReply: bool)
      returns (err: Error)
      modifies this
      ensures MarkedAs(MarkProcessing(o), u, old(Tables()), Tables(), err, lookupFails, fault, losesReply)
    {
      var order;
      order, err := GetOrderBelongingToUser(u, o, lookupFails);
      if err == NoError {
        err := SetOrderStatus(o, Processing, fault);
        if err == NoError && losesReply {
          err := DatabaseError;
        }
      }
    }

    method MarkOrderInvalid(u: UserId, o: OrderId, lookupFails: bool, fault: int, losesReply: bool)
      returns (err: Error)
      modifies this
      ensures MarkedAs(MarkInvalid(o), u, old(Tables()), Tables(), err, lookupFails, fault, losesReply)
    {
      var order;
      order, err := GetOrderBelongingToUser(u, o, lookupFails);
      if err == NoError {
        err := TransactionMarkOrderInvalid(o, fault, losesReply);
      }
    }

    method MarkOrderProcessed(u: UserId, o: OrderId, points: Money, lookupFails: bool, fault: int, losesReply: bool)
      returns (err: Error)
      modifies this
      ensures MarkedAs(MarkProcessed(o, u, points), u, old(Tables()), Tables(), err, lookupFails, fault, losesReply)
    {
      var order;
      order, err := GetOrderBelongingToUser(u, o, lookupFails);
      if err == NoError {
        err := TransactionMarkOrderProcessed(order.value.user, o, points, fault, losesReply);
      }
    }

    method WithdrawFunds(u: UserId, o: OrderId, amount: Money, lookupFails: bool, fault: int, losesReply: bool)
      returns (ok: bool, err: Error)
      modifies this
      ensures ok <==> err == NoError
      ensures lookupFails || u !in old(users) ==>
        Tables() == old(Tables()) && err == if lookupFails then DatabaseError else UserNotFound
      ensures !lookupFails && u in old(users) ==>
        RanAs(Withdraw(o, u, amount), old(Tables()), Tables(), err, fault, losesReply)
    {
      if lookupFails {
        return false, DatabaseError;
      }
      if u !in users {
        return false, UserNotFound;
      }
      err := TransactionWithdrawFunds(u, o, amount, fault, losesReply);
      ok := err == NoError;
    }

    /** `locked` are the orders whose rows another transaction has locked; the query skips them. */
    method GetNextProcessableOrder(exclude: set<OrderId>, locked: set<OrderId>, now: Time, queryFails: bool)
      returns (user: UserId, o: OrderId, retries: nat, err: Error)
      ensures queryFails ==> err == DatabaseError
      ensures !queryFails ==> err == NoError || err == NoProcessableOrders
      ensures err == NoError ==>
        IsNext(Tables(), exclude + locked, now, o) && user == orders[o].user && retries == queue[o].retries
      ensures err == NoError ==> DueLongest(Tables(), exclude + locked, now, o)
      ensures err == NoProcessableOrders ==>
        forall other :: other in orders ==> !Eligible(Tables(), exclude + locked, now, other)
      ensures err == NoProcessableOrders ==>
        forall other :: IsDue(Tables(), now, other) ==> other in exclude || other in locked
    {
      user, o, retries := UserId(""), 0, 0;
      var skipped := exclude + locked;
      if queryFails {
        return user, o, retries, DatabaseError;
      }
      var candidates := set other | other in orders && Eligible(Tables(), skipped, now, other);
      if candidates == {} {
        assert forall other :: other in orders && Eligible(Tables(), skipped, now, other) ==> other in candidates;
        forall other | IsDue(Tables(), now, other)
          ensures other in exclude || other in locked
        {
          EligibleIsDue(Tables(), skipped, now, other);
        }
        return user, o, retries, NoProcessableOrders;
      }
      ghost var first := EarliestDue(Tables(), candidates);
      assert first in candidates;
      o :| o in candidates && forall other :: other in candidates ==> DueNoLater(Tables(), o, other);
      assert forall other :: other in orders && Eligible(Tables(), skipped, now, other) ==> other in candidates;
      NextIsDueLongest(Tables(), skipped, now, o);
      user, retries, err := orders[o].user, queue[o].retries, NoError;
    }

    method PostponeOrderProcessing(o: OrderId, processAfter: Time, fault: int, losesReply: bool) returns (err: Error)
      modifies this
      ensures RanAs(Postpone(o, processAfter), old(Tables()), Tables(), err, fault, losesReply)
      ensures o in old(queue) && !(0 <= fault < 2) && !losesReply ==>
        && err == NoError
        && Tables() == old(Tables()).(queue := old(queue)[o := QueueRow(processAfter, old(queue)[o].retries + 1)])
    {
      err := TransactionPostponeOrderProcessing(o, processAfter, fault, losesReply);
    }
  }
}
