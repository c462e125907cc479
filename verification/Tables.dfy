/** The tables of the SQL store, the statements its transactions consist of, and what a transaction
does to the tables when it runs alone (trx_*.go, store_*.go of the sqldatabase package). */
module Tables {
  import opened Common

  datatype Status = New | Processing | Invalid | Processed

  /** The statuses of orders that are still to be processed. */
  predicate Open(status: Status) {
    status == New || status == Processing
  }

  /** How far an order has got; both final statuses rank the same. */
  function Rank(status: Status): nat {
    match status
    case New => 0
    case Processing => 1
    case Invalid => 2
    case Processed => 2
  }

  datatype OrderRow = OrderRow(user: UserId, status: Status)
  datatype BalanceRow = BalanceRow(current: Money, withdrawn: Money)
  datatype WithdrawalRow = WithdrawalRow(user: UserId, amount: Money)
  datatype QueueRow = QueueRow(processAfter: Time, retries: nat)

  /** `queue` is the processable_orders table. Withdrawals are keyed by their unique next order. */
  datatype Db = Db(
    users: set<UserId>,
    orders: map<OrderId, OrderRow>,
    accruals: map<OrderId, Money>,
    balances: map<UserId, BalanceRow>,
    withdrawals: map<OrderId, WithdrawalRow>,
    queue: map<OrderId, QueueRow>)

  const EMPTY_DB := Db({}, map[], map[], map[], map[], map[])

  const MONEY_SCALE := 10_000

  /** Go's `int(x)` for an amount: the fraction is dropped, toward zero. */
  function WholePart(amount: Money): int {
    if amount >= 0 then amount / MONEY_SCALE else -((-amount) / MONEY_SCALE)
  }

  // ---- Rows, writes and statements ----

  datatype Key =
    | UserKey(user: UserId)
    | OrderKey(order: OrderId)
    | AccrualKey(order: OrderId)
    | BalanceKey(user: UserId)
    | WithdrawalKey(order: OrderId)
    | QueueKey(order: OrderId)

  datatype Write =
    | PutUser(user: UserId)
    | PutOrder(order: OrderId, orderRow: OrderRow)
    | PutAccrual(order: OrderId, amount: Money)
    | PutBalance(user: UserId, balanceRow: BalanceRow)
    | PutWithdrawal(order: OrderId, withdrawalRow: WithdrawalRow)
    | PutQueue(order: OrderId, queueRow: QueueRow)
    | DropQueue(order: OrderId)

  function WrittenKey(w: Write): Key {
    match w
    case PutUser(u) => UserKey(u)
    case PutOrder(o, _) => OrderKey(o)
    case PutAccrual(o, _) => AccrualKey(o)
    case PutBalance(u, _) => BalanceKey(u)
    case PutWithdrawal(o, _) => WithdrawalKey(o)
    case PutQueue(o, _) => QueueKey(o)
    case DropQueue(o) => QueueKey(o)
  }

  function Apply(db: Db, w: Write): Db {
    match w
    case PutUser(u) => db.(users := db.users + {u})
    case PutOrder(o, row) => db.(orders := db.orders[o := row])
    case PutAccrual(o, amount) => db.(accruals := db.accruals[o := amount])
    case PutBalance(u, row) => db.(balances := db.balances[u := row])
    case PutWithdrawal(o, row) => db.(withdrawals := db.withdrawals[o := row])
    case PutQueue(o, row) => db.(queue := db.queue[o := row])
    case DropQueue(o) => db.(queue := db.queue - {o})
  }

  function ApplyAll(db: Db, writes: seq<Write>): Db
    decreases |writes|
  {
    if writes == [] then db else ApplyAll(Apply(db, writes[0]), writes[1..])
  }

  predicate HasRow(db: Db, key: Key) {
    match key
    case UserKey(u) => u in db.users
    case OrderKey(o) => o in db.orders
    case AccrualKey(o) => o in db.accruals
    case BalanceKey(u) => u in db.balances
    case WithdrawalKey(o) => o in db.withdrawals
    case QueueKey(o) => o in db.queue
  }

  predicate SameRow(a: Db, b: Db, key: Key) {
    && HasRow(a, key) == HasRow(b, key)
    && (HasRow(a, key) ==>
          match key
          case UserKey(_) => true
          case OrderKey(o) => a.orders[o] == b.orders[o]
          case AccrualKey(o) => a.accruals[o] == b.accruals[o]
          case BalanceKey(u) => a.balances[u] == b.balances[u]
          case WithdrawalKey(o) => a.withdrawals[o] == b.withdrawals[o]
          case QueueKey(o) => a.queue[o] == b.queue[o])
  }

  /** The statements, each of which looks at one row. The Lock* statements are the SELECT ... FOR
  UPDATE reads; LockBalance includes the coarse overdraft check on the value it read. */
  datatype Stmt =
    | InsertUser(user: UserId)
    | InsertBalance(user: UserId)
    | InsertOrder(order: OrderId, user: UserId)
    | InsertQueue(order: OrderId, processAfter: Time)
    | SetStatus(order: OrderId, status: Status)
    | LockAccrual(order: OrderId)
    | SaveAccrual(order: OrderId, amount: Money)
    | LockBalance(user: UserId, diffCurrent: Money)
    | IncrBalance(user: UserId, diffCurrent: Money, diffWithdrawn: Money)
    | CheckBalance(user: UserId)
    | InsertWithdrawal(order: OrderId, user: UserId, amount: Money)
    | LockQueue(order: OrderId, mustExist: bool)
    | DeleteQueue(order: OrderId)
    | DelayQueue(order: OrderId, processAfter: Time)

  function StmtKey(stmt: Stmt): Key {
    match stmt
    case InsertUser(u) => UserKey(u)
    case InsertBalance(u) => BalanceKey(u)
    case InsertOrder(o, _) => OrderKey(o)
    case InsertQueue(o, _) => QueueKey(o)
    case SetStatus(o, _) => OrderKey(o)
    case LockAccrual(o) => AccrualKey(o)
    case SaveAccrual(o, _) => AccrualKey(o)
    case LockBalance(u, _) => BalanceKey(u)
    case IncrBalance(u, _, _) => BalanceKey(u)
    case CheckBalance(u) => BalanceKey(u)
    case InsertWithdrawal(o, _, _) => WithdrawalKey(o)
    case LockQueue(o, _) => QueueKey(o)
    case DeleteQueue(o) => QueueKey(o)
    case DelayQueue(o, _) => QueueKey(o)
  }

  datatype Failure = MissingRow | DuplicateKey | NotEnoughFunds

  datatype Effect = Fails(failure: Failure) | Reads | Writes(write: Write)

  function EffectOf(stmt: Stmt, db: Db): Effect {
    match stmt
    case InsertUser(u) => if u in db.users then Fails(DuplicateKey) else Writes(PutUser(u))
    case InsertBalance(u) =>
      if u in db.balances then Fails(DuplicateKey) else Writes(PutBalance(u, BalanceRow(0, 0)))
    case InsertOrder(o, u) =>
      if o in db.orders then Fails(DuplicateKey) else Writes(PutOrder(o, OrderRow(u, New)))
    case InsertQueue(o, at) =>
      if o in db.queue then Fails(DuplicateKey) else Writes(PutQueue(o, QueueRow(at, 0)))
    case SetStatus(o, status) =>
      if o in db.orders then Writes(PutOrder(o, db.orders[o].(status := status))) else Reads
    case LockAccrual(_) => Reads
    case SaveAccrual(o, amount) => Writes(PutAccrual(o, amount))
    case LockBalance(u, diffCurrent) =>
      if u !in db.balances then Fails(MissingRow)
      else if WholePart(db.balances[u].current) + WholePart(diffCurrent) < 0 then Fails(NotEnoughFunds)
      else Reads
    case IncrBalance(u, diffCurrent, diffWithdrawn) =>
      if u in db.balances
      then Writes(PutBalance(u, BalanceRow(db.balances[u].current + diffCurrent,
                                           db.balances[u].withdrawn + diffWithdrawn)))
      else Reads
    case CheckBalance(u) =>
      if u !in db.balances then Fails(MissingRow)
      else if db.balances[u].current < 0 then Fails(NotEnoughFunds)
      else Reads
    case InsertWithdrawal(o, u, amount) =>
      if o in db.withdrawals then Fails(DuplicateKey) else Writes(PutWithdrawal(o, WithdrawalRow(u, amount)))
    case LockQueue(o, mustExist) => if mustExist && o !in db.queue then Fails(MissingRow) else Reads
    case DeleteQueue(o) => if o in db.queue then Writes(DropQueue(o)) else Reads
    case DelayQueue(o, at) =>
      if o in db.queue then Writes(PutQueue(o, QueueRow(at, db.queue[o].retries + 1))) else Reads
  }

  /** A statement depends on, and changes, no other row than its own. */
  lemma StatementsAreLocal(stmt: Stmt, a: Db, b: Db)
    requires SameRow(a, b, StmtKey(stmt))
    ensures EffectOf(stmt, a) == EffectOf(stmt, b)
    ensures EffectOf(stmt, a).Writes? ==> WrittenKey(EffectOf(stmt, a).write) == StmtKey(stmt)
  {
  }

  lemma WritesAreLocal(db: Db, w: Write, key: Key)
    requires key != WrittenKey(w)
    ensures SameRow(db, Apply(db, w), key)
  {
  }

  lemma WritesKeepAgreement(a: Db, b: Db, w: Write, key: Key)
    requires SameRow(a, b, key) || key == WrittenKey(w)
    ensures SameRow(Apply(a, w), Apply(b, w), key)
  {
  }

  // ---- Transactions ----

  /** The transactions of the store, named after the calls that run them. */
  datatype Op =
    | CreateUser(user: UserId)
    | CreateOrder(order: OrderId, user: UserId, now: Time)
    | MarkProcessing(order: OrderId)
    | MarkInvalid(order: OrderId)
    | MarkProcessed(order: OrderId, user: UserId, points: Money)
    | Withdraw(order: OrderId, user: UserId, amount: Money)
    | Postpone(order: OrderId, processAfter: Time)

  function Program(op: Op): seq<Stmt> {
    match op
    case CreateUser(u) => [InsertUser(u), InsertBalance(u)]
    case CreateOrder(o, u, now) => [InsertOrder(o, u), InsertQueue(o, now)]
    case MarkProcessing(o) => [SetStatus(o, Processing)]
    case MarkInvalid(o) => [SetStatus(o, Invalid), LockQueue(o, false), DeleteQueue(o)]
    case MarkProcessed(o, u, points) =>
      [SetStatus(o, Processed), LockAccrual(o), SaveAccrual(o, points),
       LockBalance(u, points), IncrBalance(u, points, 0), CheckBalance(u),
       LockQueue(o, false), DeleteQueue(o)]
    case Withdraw(o, u, amount) =>
      [LockBalance(u, -amount), IncrBalance(u, -amount, amount), CheckBalance(u), InsertWithdrawal(o, u, amount)]
    case Postpone(o, at) => [LockQueue(o, true), DelayQueue(o, at)]
  }

  datatype Trace = Broken(failure: Failure) | Ran(writes: seq<Write>)

  /** The writes a program issues when nothing interferes, or the failure that stops it. */
  function Effects(prog: seq<Stmt>, db: Db): Trace
    decreases |prog|
  {
    if prog == [] then Ran([])
    else
      match EffectOf(prog[0], db)
      case Fails(f) => Broken(f)
      case Reads => Effects(prog[1..], db)
      case Writes(w) =>
        match Effects(prog[1..], Apply(db, w))
        case Broken(f) => Broken(f)
        case Ran(ws) => Ran([w] + ws)
  }

  datatype Outcome = Committed(db: Db) | RolledBack(failure: Failure)

  function Execute(prog: seq<Stmt>, db: Db): Outcome {
    match Effects(prog, db)
    case Broken(f) => RolledBack(f)
    case Ran(writes) => Committed(ApplyAll(db, writes))
  }

  /** What each transaction is for, said without its statements. */
  function Transact(op: Op, db: Db): Outcome {
    match op
    case CreateUser(u) =>
      if u in db.users || u in db.balances then RolledBack(DuplicateKey)
      else Committed(db.(users := db.users + {u}, balances := db.balances[u := BalanceRow(0, 0)]))
    case CreateOrder(o, u, now) =>
      if o in db.orders || o in db.queue then RolledBack(DuplicateKey)
      else Committed(db.(orders := db.orders[o := OrderRow(u, New)], queue := db.queue[o := QueueRow(now, 0)]))
    case MarkProcessing(o) => Committed(WithStatus(db, o, Processing))
    case MarkInvalid(o) => Committed(WithStatus(db, o, Invalid).(queue := db.queue - {o}))
    case MarkProcessed(o, u, points) =>
      (match Moved(db, u, points, 0)
       case RolledBack(f) => RolledBack(f)
       case Committed(moved) =>
         Committed(WithStatus(moved, o, Processed).(accruals := db.accruals[o := points],
                                                    queue := db.queue - {o})))
    case Withdraw(o, u, amount) =>
      (match Moved(db, u, -amount, amount)
       case RolledBack(f) => RolledBack(f)
       case Committed(moved) =>
         if o in db.withdrawals then RolledBack(DuplicateKey)
         else Committed(moved.(withdrawals := db.withdrawals[o := WithdrawalRow(u, amount)])))
    case Postpone(o, at) =>
      if o !in db.queue then RolledBack(MissingRow)
      else Committed(db.(queue := db.queue[o := QueueRow(at, db.queue[o].retries + 1)]))
  }

  function WithStatus(db: Db, o: OrderId, status: Status): Db {
    if o in db.orders then db.(orders := db.orders[o := db.orders[o].(status := status)]) else db
  }

  /** A balance change: refused exactly when it would leave the balance negative. */
  function Moved(db: Db, u: UserId, diffCurrent: Money, diffWithdrawn: Money): Outcome {
    if u !in db.balances then RolledBack(MissingRow)
    else if db.balances[u].current + diffCurrent < 0 then RolledBack(NotEnoughFunds)
    else Committed(db.(balances := db.balances[u := BalanceRow(db.balances[u].current + diffCurrent,
                                                              db.balances[u].withdrawn + diffWithdrawn)]))
  }

  /** The coarse check on whole units refuses no change that the exact check would let pass. */
  lemma CoarseCheckIsImplied(current: Money, diff: Money)
    requires WholePart(current) + WholePart(diff) < 0
    ensures current + diff < 0
  {
  }

  lemma {:induction false} ExecuteStep(prog: seq<Stmt>, db: Db)
    requires prog != []
    ensures Execute(prog, db) ==
            match EffectOf(prog[0], db)
            case Fails(f) => RolledBack(f)
            case Reads => Execute(prog[1..], db)
            case Writes(w) => Execute(prog[1..], Apply(db, w))
  {
    if EffectOf(prog[0], db).Writes? {
      var w := EffectOf(prog[0], db).write;
      var tail := Effects(prog[1..], Apply(db, w));
      if tail.Ran? {
        assert ([w] + tail.writes)[1..] == tail.writes;
      }
    }
  }

  lemma {:induction false} BalanceStatements(
      prog: seq<Stmt>, db: Db, u: UserId, diffCurrent: Money, diffWithdrawn: Money)
    requires |prog| >= 3
    requires prog[..3] == [LockBalance(u, diffCurrent), IncrBalance(u, diffCurrent, diffWithdrawn), CheckBalance(u)]
    ensures Execute(prog, db) ==
            match Moved(db, u, diffCurrent, diffWithdrawn)
            case RolledBack(f) => RolledBack(f)
            case Committed(moved) => Execute(prog[3..], moved)
  {
    assert prog[0] == prog[..3][0] && prog[1] == prog[..3][1] && prog[2] == prog[..3][2];
    ExecuteStep(prog, db);
    if u in db.balances {
      if WholePart(db.balances[u].current) + WholePart(diffCurrent) < 0 {
        CoarseCheckIsImplied(db.balances[u].current, diffCurrent);
      } else {
        ExecuteStep(prog[1..], db);
        var moved := Apply(db, EffectOf(prog[1], db).write);
        assert prog[1..][1..] == prog[2..] && prog[2..][1..] == prog[3..];
        ExecuteStep(prog[2..], moved);
      }
    }
  }

  lemma {:induction false} QueueStatements(prog: seq<Stmt>, db: Db, o: OrderId)
    requires prog == [LockQueue(o, false), DeleteQueue(o)]
    ensures Execute(prog, db) == Committed(db.(queue := db.queue - {o}))
  {
    ExecuteStep(prog, db);
    ExecuteStep(prog[1..], db);
    if o !in db.queue {
      assert db.queue - {o} == db.queue;
    }
  }

  lemma {:induction false} MarkProcessedJob(prog: seq<Stmt>, db: Db, o: OrderId, u: UserId, points: Money)
    requires prog == [SetStatus(o, Processed), LockAccrual(o), SaveAccrual(o, points)]
                     + [LockBalance(u, points), IncrBalance(u, points, 0), CheckBalance(u)]
                     + [LockQueue(o, false), DeleteQueue(o)]
    ensures Execute(prog, db) == Transact(MarkProcessed(o, u, points), db)
  {
    var marked := WithStatus(db, o, Processed);
    ExecuteStep(prog, db);
    ExecuteStep(prog[1..], marked);
    assert prog[1..][1..] == prog[2..];
    ExecuteStep(prog[2..], marked);
    assert prog[2..][1..] == prog[3..];
    var saved := Apply(marked, PutAccrual(o, points));
    BalanceStatements(prog[3..], saved, u, points, 0);
    if Moved(saved, u, points, 0).Committed? {
      assert prog[3..][3..] == [LockQueue(o, false), DeleteQueue(o)];
      QueueStatements(prog[3..][3..], Moved(saved, u, points, 0).db, o);
    }
  }

  lemma {:induction false} WithdrawJob(prog: seq<Stmt>, db: Db, o: OrderId, u: UserId, amount: Money)
    requires prog == [LockBalance(u, -amount), IncrBalance(u, -amount, amount), CheckBalance(u)]
                     + [InsertWithdrawal(o, u, amount)]
    ensures Execute(prog, db) == Transact(Withdraw(o, u, amount), db)
  {
    BalanceStatements(prog, db, u, -amount, amount);
    if Moved(db, u, -amount, amount).Committed? {
      assert prog[3..] == [InsertWithdrawal(o, u, amount)];
      ExecuteStep(prog[3..], Moved(db, u, -amount, amount).db);
    }
  }

  lemma {:induction false} ShortJobs(op: Op, db: Db)
    requires op.CreateUser? || op.CreateOrder? || op.MarkProcessing? || op.MarkInvalid? || op.Postpone?
    ensures Execute(Program(op), db) == Transact(op, db)
  {
    var prog := Program(op);
    ExecuteStep(prog, db);
    match op
    case CreateUser(u) =>
      if u !in db.users {
        ExecuteStep(prog[1..], Apply(db, PutUser(u)));
      }
    case CreateOrder(o, u, now) =>
      if o !in db.orders {
        ExecuteStep(prog[1..], Apply(db, PutOrder(o, OrderRow(u, New))));
      }
    case MarkProcessing(o) =>
    case MarkInvalid(o) =>
      QueueStatements(prog[1..], WithStatus(db, o, Invalid), o);
    case Postpone(o, at) =>
      if o in db.queue {
        ExecuteStep(prog[1..], db);
      }
  }

  /** Running a transaction's statements one after the other does exactly what it is for. */
  lemma {:induction false} ProgramsDoTheirJob(op: Op, db: Db)
    ensures Execute(Program(op), db) == Transact(op, db)
  {
    match op
    case MarkProcessed(o, u, points) => MarkProcessedJob(Program(op), db, o, u, points);
    case Withdraw(o, u, amount) => WithdrawJob(Program(op), db, o, u, amount);
    case _ => ShortJobs(op, db);
  }

  /** For a non-negative balance a positive withdrawal fails for lack of funds exactly when it is
  larger than the balance, although the first test only looks at whole units. */
  lemma {:induction false} RefusedExactlyWhenTooLarge(db: Db, o: OrderId, u: UserId, amount: Money)
    requires u in db.balances && db.balances[u].current >= 0 && amount > 0
    ensures Execute(Program(Withdraw(o, u, amount)), db) == RolledBack(NotEnoughFunds)
       <==> amount > db.balances[u].current
  {
    ProgramsDoTheirJob(Withdraw(o, u, amount), db);
  }

  // ---- Faults and logs ----

  /** How the database connection behaves during one transaction. */
  datatype Fault = Healthy | Breaks | LosesReply

  /** The tables after an attempt, whether it committed, and whether the caller was told so. */
  datatype Attempt = Attempt(db: Db, committed: bool, reported: bool)

  function Attempted(op: Op, db: Db, fault: Fault): Attempt {
    match Transact(op, db)
    case RolledBack(_) => Attempt(db, false, false)
    case Committed(after) =>
      match fault
      case Healthy => Attempt(after, true, true)
      case Breaks => Attempt(db, false, false)
      case LosesReply => Attempt(after, true, false)
  }

  /** The tables after a log of transactions that all committed, starting from nothing. */
  function RunAll(log: seq<Op>): Option<Db>
    decreases |log|
  {
    if log == [] then Some(EMPTY_DB)
    else
      match RunAll(log[..|log| - 1])
      case None => None
      case Some(db) =>
        match Transact(log[|log| - 1], db)
        case RolledBack(_) => None
        case Committed(after) => Some(after)
  }

  lemma RunAllAppends(log: seq<Op>, op: Op)
    ensures RunAll(log + [op]) ==
            match RunAll(log)
            case None => None
            case Some(db) => if Transact(op, db).Committed? then Some(Transact(op, db).db) else None
  {
    assert (log + [op])[..|log + [op]| - 1] == log;
  }
}
