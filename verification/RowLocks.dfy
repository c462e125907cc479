/** Transactions of the SQL store interleaved statement by statement under row locks.

A running transaction sees the committed tables with its own writes on top. Reading FOR UPDATE,
updating or inserting a row locks it until the transaction ends; a SELECT FOR UPDATE that finds no
row locks nothing. Every other transaction waits for a locked row. The main results: the committed
tables are always those of some serial execution, and the transactions never wait in a circle. */
module RowLocks {
  import opened Common
  import opened Tables
  import Ledger

  /** A transaction that has executed `done` statements of its program. */
  datatype Txn = Txn(op: Op, done: nat, writes: seq<Write>, locks: set<Key>)

  /** `log` lists the committed transactions in the order of their commits. */
  datatype World = World(committed: Db, running: map<nat, Txn>, log: seq<Op>)

  datatype Step =
    | Begin(id: nat, op: Op)
    | Statement(id: nat)
    | Commit(id: nat)
    | Abort(id: nat)  // a fault or an expired context rolls the transaction back

  const INITIAL := World(EMPTY_DB, map[], [])

  /** What the callers have read before they open the transaction. */
  predicate Admissible(op: Op, db: Db) {
    match op
    case CreateUser(_) => true
    case CreateOrder(_, u, _) => u in db.users
    case MarkProcessing(o) => o in db.orders
    case MarkInvalid(o) => o in db.orders
    case MarkProcessed(o, u, _) => o in db.orders && db.orders[o].user == u
    case Withdraw(_, u, amount) => u in db.users && amount > 0
    case Postpone(_, _) => true
  }

  function View(w: World, t: Txn): Db {
    ApplyAll(w.committed, t.writes)
  }

  predicate Unfinished(t: Txn) {
    t.done < |Program(t.op)|
  }

  function NextKey(t: Txn): Key
    requires Unfinished(t)
  {
    StmtKey(Program(t.op)[t.done])
  }

  /** Whether a transaction waits for a row that another one has locked. */
  predicate Waiting(w: World, id: nat)
    requires id in w.running
  {
    Unfinished(w.running[id]) &&
    exists other :: other in w.running && other != id && NextKey(w.running[id]) in w.running[other].locks
  }

  predicate Enabled(w: World, step: Step) {
    match step
    case Begin(id, op) => id !in w.running && Admissible(op, w.committed)
    case Statement(id) => id in w.running && Unfinished(w.running[id]) && !Waiting(w, id)
    case Commit(id) => id in w.running && !Unfinished(w.running[id])
    case Abort(id) => id in w.running
  }

  function Progressed(view: Db, t: Txn): Option<Txn>
    requires Unfinished(t)
  {
    var key := NextKey(t);
    match EffectOf(Program(t.op)[t.done], view)
    case Fails(_) => None
    case Reads => Some(t.(done := t.done + 1, locks := if HasRow(view, key) then t.locks + {key} else t.locks))
    case Writes(write) => Some(t.(done := t.done + 1, writes := t.writes + [write], locks := t.locks + {key}))
  }

  function Do(w: World, step: Step): World
    requires Enabled(w, step)
  {
    match step
    case Begin(id, op) => w.(running := w.running[id := Txn(op, 0, [], {})])
    case Statement(id) =>
      var t := w.running[id];
      (match Progressed(View(w, t), t)
       case None => w.(running := w.running - {id})
       case Some(t') => w.(running := w.running[id := t']))
    case Commit(id) =>
      var t := w.running[id];
      World(View(w, t), w.running - {id}, w.log + [t.op])
    case Abort(id) => w.(running := w.running - {id})
  }

  function After(w: World, steps: seq<Step>): Option<World>
    decreases |steps|
  {
    if steps == [] then Some(w)
    else if Enabled(w, steps[0]) then After(Do(w, steps[0]), steps[1..])
    else None
  }

  // ---- What a transaction has touched ----

  ghost predicate Touched(t: Txn, key: Key)
    requires t.done <= |Program(t.op)|
  {
    exists i :: 0 <= i < t.done && StmtKey(Program(t.op)[i]) == key
  }

  /** A row that was looked for in vain is not locked; the order it belongs to is. */
  predicate GuardedByOrder(db: Db, t: Txn, key: Key) {
    && (t.op.MarkInvalid? || t.op.MarkProcessed?)
    && (key == AccrualKey(t.op.order) || key == QueueKey(t.op.order))
    && OrderKey(t.op.order) in t.locks
    && !HasRow(db, key)
  }

  ghost predicate TxnInv(db: Db, t: Txn) {
    && t.done <= |Program(t.op)|
    && Admissible(t.op, db)
    && Effects(Program(t.op)[..t.done], db) == Ran(t.writes)
    && (forall i :: 0 <= i < |t.writes| ==> WrittenKey(t.writes[i]) in t.locks)
    && (forall key :: key in t.locks ==> Touched(t, key))
    && (forall key {:trigger Touched(t, key)} :: Touched(t, key) ==> key in t.locks || GuardedByOrder(db, t, key))
  }

  ghost predicate Inv(w: World) {
    && RunAll(w.log) == Some(w.committed)
    && (forall id :: id in w.running ==> TxnInv(w.committed, w.running[id]))
    && (forall a, b :: a in w.running && b in w.running && a != b
          ==> w.running[a].locks !! w.running[b].locks)
  }

  // ---- Executions depend only on the rows they touch ----

  lemma {:induction false} EffectsAgree(prog: seq<Stmt>, a: Db, b: Db)
    requires forall i :: 0 <= i < |prog| ==> SameRow(a, b, StmtKey(prog[i]))
    ensures Effects(prog, a) == Effects(prog, b)
    decreases |prog|
  {
    if prog != [] {
      StatementsAreLocal(prog[0], a, b);
      match EffectOf(prog[0], a)
      case Fails(_) =>
      case Reads =>
        EffectsAgree(prog[1..], a, b);
      case Writes(w) =>
        forall i | 0 <= i < |prog[1..]|
          ensures SameRow(Apply(a, w), Apply(b, w), StmtKey(prog[1..][i]))
        {
          WritesKeepAgreement(a, b, w, StmtKey(prog[i + 1]));
        }
        EffectsAgree(prog[1..], Apply(a, w), Apply(b, w));
    }
  }

  lemma {:induction false} EffectsExtend(prog: seq<Stmt>, n: nat, db: Db)
    requires n < |prog| && Effects(prog[..n], db).Ran?
    ensures var writes := Effects(prog[..n], db).writes;
            Effects(prog[..n + 1], db) ==
            match EffectOf(prog[n], ApplyAll(db, writes))
            case Fails(f) => Broken(f)
            case Reads => Ran(writes)
            case Writes(w) => Ran(writes + [w])
    decreases n
  {
    var rest := prog[1..];
    if n == 0 {
      assert prog[..1][1..] == [];
    } else {
      assert prog[..n][1..] == rest[..n - 1] && prog[..n + 1][1..] == rest[..n];
      match EffectOf(prog[0], db)
      case Fails(_) =>
      case Reads =>
        EffectsExtend(rest, n - 1, db);
      case Writes(w) =>
        EffectsExtend(rest, n - 1, Apply(db, w));
        var tail := Effects(rest[..n - 1], Apply(db, w)).writes;
        assert ([w] + tail)[1..] == tail;
        if EffectOf(prog[n], ApplyAll(db, [w] + tail)).Writes? {
          var last := EffectOf(prog[n], ApplyAll(db, [w] + tail)).write;
          assert [w] + (tail + [last]) == ([w] + tail) + [last];
        }
    }
  }

  lemma {:induction false} UnwrittenRowsStay(db: Db, writes: seq<Write>, key: Key)
    requires forall i :: 0 <= i < |writes| ==> WrittenKey(writes[i]) != key
    ensures SameRow(db, ApplyAll(db, writes), key)
    decreases |writes|
  {
    if writes != [] {
      WritesAreLocal(db, writes[0], key);
      UnwrittenRowsStay(Apply(db, writes[0]), writes[1..], key);
    }
  }

  lemma {:induction false} KeptRowsStay(db: Db, writes: seq<Write>)
    ensures var after := ApplyAll(db, writes);
            db.users <= after.users && db.orders.Keys <= after.orders.Keys
    decreases |writes|
  {
    if writes != [] {
      KeptRowsStay(Apply(db, writes[0]), writes[1..]);
    }
  }

  lemma {:induction false} OwnersStay(prog: seq<Stmt>, db: Db, o: OrderId)
    requires Effects(prog, db).Ran? && o in db.orders
    ensures var after := ApplyAll(db, Effects(prog, db).writes);
            o in after.orders && after.orders[o].user == db.orders[o].user
    decreases |prog|
  {
    if prog != [] {
      match EffectOf(prog[0], db)
      case Fails(_) =>
      case Reads =>
        OwnersStay(prog[1..], db, o);
      case Writes(w) =>
        OwnersStay(prog[1..], Apply(db, w), o);
        var tail := Effects(prog[1..], Apply(db, w)).writes;
        assert ([w] + tail)[1..] == tail;
    }
  }

  // ---- The invariant ----

  /** The shape of the programs: who touches a balance, an order or a queue row, and what it did before. */
  lemma ProgramShape(op: Op, n: nat)
    requires n < |Program(op)|
    ensures var stmt := Program(op)[n];
            && (stmt.SetStatus? ==>
                  n == 0 && (op.MarkProcessing? || op.MarkInvalid? || op.MarkProcessed?) && stmt.order == op.order)
            && (stmt.IncrBalance? || stmt.CheckBalance? || stmt.DelayQueue? ==>
                  n > 0 && StmtKey(Program(op)[n - 1]) == StmtKey(stmt))
            && (stmt.LockAccrual? || stmt.DeleteQueue? || (stmt.LockQueue? && !stmt.mustExist) ==>
                  n > 0 && (op.MarkInvalid? || op.MarkProcessed?) && stmt.order == op.order
                  && StmtKey(Program(op)[0]) == OrderKey(op.order))
  {
  }

  /** A statement that reads a row which is not there and was not locked before is one of the searches
  for an accrual or queue row under the lock of the order. */
  lemma {:induction false} UnlockedReads(db: Db, t: Txn)
    requires TxnInv(db, t) && Unfinished(t)
    requires EffectOf(Program(t.op)[t.done], ApplyAll(db, t.writes)) == Reads
    requires NextKey(t) !in t.locks && !HasRow(ApplyAll(db, t.writes), NextKey(t))
    ensures GuardedByOrder(db, t, NextKey(t))
  {
    var view, stmt := ApplyAll(db, t.writes), Program(t.op)[t.done];
    ProgramShape(t.op, t.done);
    KeptRowsStay(db, t.writes);
    UnwrittenRowsStay(db, t.writes, NextKey(t));
    if stmt.IncrBalance? || stmt.CheckBalance? || stmt.DelayQueue? {
      assert Touched(t, StmtKey(Program(t.op)[t.done - 1]));
    } else if t.done > 0 {
      assert Touched(t, StmtKey(Program(t.op)[0]));
    }
  }

  lemma {:induction false} TouchesOneMore(t: Txn, t': Txn, key: Key)
    requires Unfinished(t) && t'.op == t.op && t'.done == t.done + 1
    ensures Touched(t', key) <==> key == NextKey(t) || Touched(t, key)
  {
    if key == NextKey(t) {
      assert StmtKey(Program(t'.op)[t.done]) == key;
    } else if i :| 0 <= i < t'.done && StmtKey(Program(t'.op)[i]) == key {
      assert i < t.done;
    }
  }

  lemma {:induction false} StatementKeepsTxnInv(db: Db, t: Txn)
    requires TxnInv(db, t) && Unfinished(t) && Progressed(ApplyAll(db, t.writes), t).Some?
    ensures TxnInv(db, Progressed(ApplyAll(db, t.writes), t).value)
  {
    var view := ApplyAll(db, t.writes);
    var prog, key, t' := Program(t.op), NextKey(t), Progressed(view, t).value;
    EffectsExtend(prog, t.done, db);
    StatementsAreLocal(prog[t.done], view, view);
    if EffectOf(prog[t.done], view) == Reads && key !in t.locks && !HasRow(view, key) {
      UnlockedReads(db, t);
    }
    forall k
      ensures Touched(t', k) <==> k == key || Touched(t, k)
    {
      TouchesOneMore(t, t', k);
    }
  }

  /** No running transaction has touched a row that another one is about to change. */
  lemma {:induction false} CommitSparesOthers(w: World, id: nat, other: nat, key: Key)
    requires Inv(w) && id in w.running && other in w.running && id != other
    requires Touched(w.running[other], key)
    ensures SameRow(w.committed, View(w, w.running[id]), key)
  {
    var s, t := w.running[id], w.running[other];
    if exists i :: 0 <= i < |s.writes| && WrittenKey(s.writes[i]) == key {
      assert key in s.locks && key !in t.locks;
      assert GuardedByOrder(w.committed, t, key);
      assert Touched(s, key);
      WritersHoldTheOrder(w.committed, s, key);
      assert false;
    }
    UnwrittenRowsStay(w.committed, s.writes, key);
  }

  /** Whoever has locked an accrual row, or a queue row that is not committed, holds its order too. */
  lemma {:induction false} WritersHoldTheOrder(db: Db, s: Txn, key: Key)
    requires TxnInv(db, s) && Touched(s, key) && key in s.locks && !HasRow(db, key)
    requires key.AccrualKey? || key.QueueKey?
    ensures OrderKey(key.order) in s.locks
  {
    if s.op.Postpone? {
      PostponeFoundItsRow(db, s);
      assert false;
    } else {
      KeysBelongToOrder(s.op, s.done, key);
      assert Touched(s, OrderKey(key.order));
    }
  }

  lemma PostponeFoundItsRow(db: Db, s: Txn)
    requires TxnInv(db, s) && s.op.Postpone? && s.done > 0
    ensures HasRow(db, QueueKey(s.op.order))
  {
    assert Program(s.op)[..s.done][0] == LockQueue(s.op.order, true);
  }

  lemma KeysBelongToOrder(op: Op, done: nat, key: Key)
    requires done <= |Program(op)| && !op.Postpone?
    requires key.AccrualKey? || key.QueueKey?
    requires exists i :: 0 <= i < done && StmtKey(Program(op)[i]) == key
    ensures done > 0 && StmtKey(Program(op)[0]) == OrderKey(key.order)
  {
  }

  lemma {:induction false} CommitKeepsTxnInv(w: World, id: nat, other: nat)
    requires Inv(w) && id in w.running && other in w.running && id != other
    ensures TxnInv(View(w, w.running[id]), w.running[other])
  {
    var s, t, after := w.running[id], w.running[other], View(w, w.running[id]);
    forall key | Touched(t, key)
      ensures SameRow(w.committed, after, key)
    {
      CommitSparesOthers(w, id, other, key);
    }
    forall i | 0 <= i < t.done
      ensures SameRow(w.committed, after, StmtKey(Program(t.op)[..t.done][i]))
    {
      assert Touched(t, StmtKey(Program(t.op)[i]));
    }
    EffectsAgree(Program(t.op)[..t.done], w.committed, after);
    KeptRowsStay(w.committed, s.writes);
    if t.op.MarkProcessed? {
      OwnersStay(Program(s.op)[..s.done], w.committed, t.op.order);
    }
  }

  /** A commit changes the committed tables as the transaction alone would. */
  lemma {:induction false} CommitIsAtomic(w: World, id: nat)
    requires Inv(w) && Enabled(w, Commit(id))
    ensures Transact(w.running[id].op, w.committed) == Committed(Do(w, Commit(id)).committed)
  {
    var t := w.running[id];
    ProgramsDoTheirJob(t.op, w.committed);
    assert Program(t.op)[..t.done] == Program(t.op);
  }

  /** A statement is not run while somebody else has locked its row, so the locks stay apart. */
  lemma {:induction false} StatementKeepsLocksApart(w: World, id: nat, other: nat)
    requires Inv(w) && Enabled(w, Statement(id)) && other in w.running && other != id
    requires Progressed(View(w, w.running[id]), w.running[id]).Some?
    ensures Progressed(View(w, w.running[id]), w.running[id]).value.locks !! w.running[other].locks
  {
    var t := w.running[id];
    assert Progressed(View(w, t), t).value.locks <= t.locks + {NextKey(t)};
  }

  lemma {:induction false} StatementKeepsInv(w: World, id: nat)
    requires Inv(w) && Enabled(w, Statement(id))
    ensures Inv(Do(w, Statement(id)))
  {
    var t := w.running[id];
    if Progressed(View(w, t), t).Some? {
      StatementKeepsTxnInv(w.committed, t);
      var after := Do(w, Statement(id));
      forall other | other in w.running && other != id
        ensures after.running[id].locks !! after.running[other].locks
      {
        StatementKeepsLocksApart(w, id, other);
      }
    }
  }

  lemma {:induction false} CommitKeepsInv(w: World, id: nat)
    requires Inv(w) && Enabled(w, Commit(id))
    ensures Inv(Do(w, Commit(id)))
  {
    CommitIsAtomic(w, id);
    RunAllAppends(w.log, w.running[id].op);
    forall other | other in w.running && other != id
      ensures TxnInv(Do(w, Commit(id)).committed, w.running[other])
    {
      CommitKeepsTxnInv(w, id, other);
    }
  }

  lemma {:induction false} StepKeepsInv(w: World, step: Step)
    requires Inv(w) && Enabled(w, step)
    ensures Inv(Do(w, step))
  {
    match step
    case Begin(id, op) =>
      assert Program(op)[..0] == [];
      assert TxnInv(w.committed, Txn(op, 0, [], {}));
    case Statement(id) =>
      StatementKeepsInv(w, id);
    case Commit(id) =>
      CommitKeepsInv(w, id);
    case Abort(id) =>
  }

  lemma {:induction false} RunKeepsInv(w: World, steps: seq<Step>)
    requires Inv(w) && After(w, steps).Some?
    ensures Inv(After(w, steps).value)
    decreases |steps|
  {
    if steps != [] {
      StepKeepsInv(w, steps[0]);
      RunKeepsInv(Do(w, steps[0]), steps[1..]);
    }
  }

  /** Whatever the interleaving, the committed tables are those of the committed transactions run one
  at a time in commit order; aborted transactions leave no trace. */
  lemma {:induction false} InterleavingsAreSerializable(steps: seq<Step>)
    requires After(INITIAL, steps).Some?
    ensures RunAll(After(INITIAL, steps).value.log) == Some(After(INITIAL, steps).value.committed)
  {
    RunKeepsInv(INITIAL, steps);
  }

  /** Hence at every moment every committed balance is non-negative and accounted for. */
  lemma {:induction false} CommittedMoneyIsConserved(steps: seq<Step>, u: UserId)
    requires After(INITIAL, steps).Some?
    ensures var w := After(INITIAL, steps).value; Ledger.BalanceExplained(w.log, w.committed, u)
  {
    InterleavingsAreSerializable(steps);
    Ledger.MoneyIsConserved(After(INITIAL, steps).value.log, u);
  }

  // ---- No circular wait ----

  /** The order in which all transactions take their locks. */
  function TableRank(key: Key): nat {
    match key
    case UserKey(_) => 0
    case OrderKey(_) => 1
    case AccrualKey(_) => 2
    case BalanceKey(_) => 3
    case WithdrawalKey(_) => 4
    case QueueKey(_) => 5
  }

  lemma ProgramsFollowTableOrder(op: Op, i: nat, j: nat)
    requires i <= j < |Program(op)|
    ensures var a, b := StmtKey(Program(op)[i]), StmtKey(Program(op)[j]);
            TableRank(a) <= TableRank(b) && (TableRank(a) == TableRank(b) ==> a == b)
  {
  }

  function Urgency(t: Txn): nat {
    if Unfinished(t) then TableRank(NextKey(t)) else 6
  }

  lemma {:induction false} MostUrgent(running: map<nat, Txn>, ids: set<nat>) returns (id: nat)
    requires ids != {} && ids <= running.Keys
    ensures id in ids && forall other :: other in ids ==> Urgency(running[other]) <= Urgency(running[id])
    decreases ids
  {
    var first :| first in ids;
    var rest := ids - {first};
    id := first;
    if rest != {} {
      var best := MostUrgent(running, rest);
      if Urgency(running[first]) <= Urgency(running[best]) {
        id := best;
      }
    }
    assert forall other :: other in ids ==> other == first || other in rest;
  }

  /** Whoever has locked the row that a most urgent transaction waits for needs no other row. */
  lemma {:induction false} HolderIsNotWaiting(w: World, id: nat, other: nat)
    requires Inv(w) && id in w.running && other in w.running && Unfinished(w.running[id])
    requires NextKey(w.running[id]) in w.running[other].locks
    requires Urgency(w.running[other]) <= Urgency(w.running[id])
    ensures !Waiting(w, other)
  {
    var t, key := w.running[other], NextKey(w.running[id]);
    assert Touched(t, key);
    var i :| 0 <= i < t.done && StmtKey(Program(t.op)[i]) == key;
    if Unfinished(t) {
      ProgramsFollowTableOrder(t.op, i, t.done);
    }
  }

  /** In every state with running transactions at least one of them is not waiting for a lock. */
  lemma {:induction false} SomeTransactionIsNotWaiting(w: World)
    requires Inv(w) && w.running != map[]
    ensures exists id :: id in w.running && !Waiting(w, id)
  {
    var id := MostUrgent(w.running, w.running.Keys);
    if Waiting(w, id) {
      var other :| other in w.running && other != id && NextKey(w.running[id]) in w.running[other].locks;
      HolderIsNotWaiting(w, id, other);
    }
  }

  /** The transaction can execute its next statement, or commit. */
  predicate CanGoOn(w: World, id: nat) {
    Enabled(w, Statement(id)) || Enabled(w, Commit(id))
  }

  lemma {:induction false} NoCircularWait(steps: seq<Step>)
    requires After(INITIAL, steps).Some? && After(INITIAL, steps).value.running != map[]
    ensures var w := After(INITIAL, steps).value; exists id :: id in w.running && !Waiting(w, id) && CanGoOn(w, id)
  {
    RunKeepsInv(INITIAL, steps);
    var w := After(INITIAL, steps).value;
    SomeTransactionIsNotWaiting(w);
    var id :| id in w.running && !Waiting(w, id);
    assert CanGoOn(w, id);
  }
}
