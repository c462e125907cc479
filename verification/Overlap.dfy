/** Transactions do run side by side: who may begin does not depend on who is running, transactions on
different rows overlap entirely, and one that needs a locked row waits exactly until its holder ends. */
module Overlap {
  import opened Common
  import opened Tables
  import opened RowLocks
  import Ledger

  lemma {:induction false} RunsCompose(w: World, first: seq<Step>, second: seq<Step>)
    requires After(w, first).Some?
    ensures After(w, first + second) == After(After(w, first).value, second)
    decreases |first|
  {
    if first == [] {
      assert first + second == second;
    } else {
      assert (first + second)[1..] == first[1..] + second;
      RunsCompose(Do(w, first[0]), first[1..], second);
    }
  }

  lemma RunOfOne(w: World, step: Step)
    requires Enabled(w, step)
    ensures After(w, [step]) == Some(Do(w, step))
  {
    assert [step][1..] == [];
  }

  /** Whatever is running, a transaction whose caller has found its user and its order can begin. */
  lemma AnyoneMayBegin(w: World, id: nat, op: Op)
    requires id !in w.running
    requires op.CreateOrder? || op.Withdraw? ==> op.user in w.committed.users
    requires op.Withdraw? ==> op.amount > 0
    requires op.MarkProcessing? || op.MarkInvalid? || op.MarkProcessed? ==> op.order in w.committed.orders
    requires op.MarkProcessed? ==> w.committed.orders[op.order].user == op.user
    ensures Enabled(w, Begin(id, op))
    ensures var t := Do(w, Begin(id, op));
            && t.committed == w.committed && t.log == w.log
            && t.running.Keys == w.running.Keys + {id}
            && (forall other :: other in w.running ==> t.running[other] == w.running[other])
  {
  }

  /** A running transaction may be rolled back at any moment; only it disappears. */
  lemma AnyoneMayAbort(w: World, id: nat)
    requires id in w.running
    ensures Enabled(w, Abort(id)) && Do(w, Abort(id)) == w.(running := w.running - {id})
  {
  }

  lemma {:induction false} PrefixRuns(prog: seq<Stmt>, n: nat, db: Db)
    requires n <= |prog| && Effects(prog, db).Ran?
    ensures Effects(prog[..n], db).Ran?
    decreases n
  {
    if n > 0 {
      assert prog[..n][1..] == prog[1..][..n - 1];
      match EffectOf(prog[0], db)
      case Reads => PrefixRuns(prog[1..], n - 1, db);
      case Writes(w) => PrefixRuns(prog[1..], n - 1, Apply(db, w));
    }
  }

  /** The state after some statements of one transaction: the others and the committed tables are untouched. */
  predicate HasRun(w: World, t: World, id: nat, done: nat) {
    && id in w.running && id in t.running
    && t == w.(running := w.running[id := t.running[id]])
    && t.running[id].op == w.running[id].op && t.running[id].done == done
  }

  /** A transaction that would commit, and whose next row nobody else has locked, executes its statement. */
  lemma {:induction false} NextStatementRuns(w: World, id: nat)
    requires Inv(w) && id in w.running && Unfinished(w.running[id]) && !Waiting(w, id)
    requires Transact(w.running[id].op, w.committed).Committed?
    ensures Enabled(w, Statement(id)) && HasRun(w, Do(w, Statement(id)), id, w.running[id].done + 1)
  {
    var t, db := w.running[id], w.committed;
    var prog := Program(t.op);
    ProgramsDoTheirJob(t.op, db);
    PrefixRuns(prog, t.done + 1, db);
    EffectsExtend(prog, t.done, db);
    assert Progressed(View(w, t), t).Some?;
  }

  /** None of the rows of the statements up to `upTo` is locked by anybody else. */
  ghost predicate Undisturbed(w: World, id: nat, upTo: nat)
    requires id in w.running && upTo <= |Program(w.running[id].op)|
  {
    forall i, other :: 0 <= i < upTo && other in w.running && other != id ==>
      StmtKey(Program(w.running[id].op)[i]) !in w.running[other].locks
  }

  /** Nobody else has locked anything. */
  lemma NoLocksDisturb(w: World, id: nat, upTo: nat)
    requires id in w.running && upTo <= |Program(w.running[id].op)|
    requires forall other :: other in w.running && other != id ==> w.running[other].locks == {}
    ensures Undisturbed(w, id, upTo)
  {
  }

  lemma {:induction false} RunsUpTo(w: World, id: nat, upTo: nat) returns (steps: seq<Step>)
    requires Inv(w) && id in w.running && w.running[id].done <= upTo <= |Program(w.running[id].op)|
    requires Undisturbed(w, id, upTo) && Transact(w.running[id].op, w.committed).Committed?
    ensures After(w, steps).Some? && HasRun(w, After(w, steps).value, id, upTo)
    ensures forall k :: 0 <= k < |steps| ==> steps[k] == Statement(id)
    ensures Inv(After(w, steps).value)
    decreases upTo - w.running[id].done
  {
    if w.running[id].done == upTo {
      steps := [];
      assert w.running[id := w.running[id]] == w.running;
    } else {
      UndisturbedGoesOn(w, id, upTo);
      NextStatementRuns(w, id);
      StepKeepsInv(w, Statement(id));
      var t := Do(w, Statement(id));
      UndisturbedStays(w, t, id, w.running[id].done + 1, upTo);
      var rest := RunsUpTo(t, id, upTo);
      steps := [Statement(id)] + rest;
      assert steps[1..] == rest;
      HasRunComposes(w, t, After(t, rest).value, id, w.running[id].done + 1, upTo);
    }
  }

  lemma HasRunComposes(a: World, b: World, c: World, id: nat, m: nat, n: nat)
    requires HasRun(a, b, id, m) && HasRun(b, c, id, n)
    ensures HasRun(a, c, id, n)
  {
    assert a.running[id := b.running[id]][id := c.running[id]] == a.running[id := c.running[id]];
  }

  lemma UndisturbedStays(a: World, b: World, id: nat, done: nat, upTo: nat)
    requires HasRun(a, b, id, done) && upTo <= |Program(a.running[id].op)| && Undisturbed(a, id, upTo)
    ensures Undisturbed(b, id, upTo)
  {
  }

  lemma UndisturbedGoesOn(w: World, id: nat, upTo: nat)
    requires id in w.running && w.running[id].done < upTo <= |Program(w.running[id].op)| && Undisturbed(w, id, upTo)
    ensures Unfinished(w.running[id]) && !Waiting(w, id)
  {
  }

  lemma {:induction false} LocksAreOwnRows(db: Db, t: Txn, key: Key)
    requires TxnInv(db, t) && key in t.locks
    ensures exists i :: 0 <= i < |Program(t.op)| && StmtKey(Program(t.op)[i]) == key
  {
    assert Touched(t, key);
    var i :| 0 <= i < t.done && StmtKey(Program(t.op)[i]) == key;
  }

  /** The two transactions look at no common row. */
  ghost predicate OnDifferentRows(a: Op, b: Op) {
    forall i, j :: 0 <= i < |Program(a)| && 0 <= j < |Program(b)| ==> StmtKey(Program(a)[i]) != StmtKey(Program(b)[j])
  }

  /** Two transactions that have begun. */
  predicate Begun(w: World, committed: Db, log: seq<Op>, x: nat, a: Op, y: nat, b: Op) {
    && w.committed == committed && w.log == log && x != y && w.running.Keys == {x, y}
    && w.running[x].op == a && w.running[y].op == b
  }

  predicate BothFinished(w: World, x: nat, y: nat) {
    && x in w.running && y in w.running
    && w.running[x].done == |Program(w.running[x].op)| && w.running[y].done == |Program(w.running[y].op)|
  }

  lemma {:induction false} BothBegin(w: World, x: nat, a: Op, y: nat, b: Op) returns (steps: seq<Step>)
    requires Inv(w) && w.running == map[] && x != y && Admissible(a, w.committed) && Admissible(b, w.committed)
    ensures After(w, steps).Some? && Inv(After(w, steps).value)
    ensures var t := After(w, steps).value;
            Begun(t, w.committed, w.log, x, a, y, b)
            && t.running[x] == Txn(a, 0, [], {}) && t.running[y] == Txn(b, 0, [], {})
  {
    var one := Do(w, Begin(x, a));
    StepKeepsInv(w, Begin(x, a));
    StepKeepsInv(one, Begin(y, b));
    RunOfOne(w, Begin(x, a));
    RunOfOne(one, Begin(y, b));
    RunsCompose(w, [Begin(x, a)], [Begin(y, b)]);
    steps := [Begin(x, a)] + [Begin(y, b)];
  }

  /** Two transactions begin and the first executes all its statements. */
  lemma {:induction false} FirstFinishes(w: World, x: nat, a: Op, y: nat, b: Op) returns (steps: seq<Step>)
    requires Inv(w) && w.running == map[] && x != y && Admissible(a, w.committed) && Admissible(b, w.committed)
    requires Transact(a, w.committed).Committed?
    ensures After(w, steps).Some? && Inv(After(w, steps).value)
    ensures var t := After(w, steps).value;
            Begun(t, w.committed, w.log, x, a, y, b)
            && t.running[x].done == |Program(a)| && t.running[y] == Txn(b, 0, [], {})
  {
    var beginning := BothBegin(w, x, a, y, b);
    var t := After(w, beginning).value;
    NoLocksDisturb(t, x, |Program(a)|);
    var ofX := RunsUpTo(t, x, |Program(a)|);
    RunsCompose(w, beginning, ofX);
    steps := beginning + ofX;
  }

  lemma {:induction false} OwnRowsStayFree(w: World, x: nat, a: Op, y: nat, b: Op)
    requires Inv(w) && x != y && w.running.Keys == {x, y} && w.running[x].op == a && w.running[y].op == b
    requires OnDifferentRows(a, b)
    ensures Undisturbed(w, y, |Program(b)|)
  {
    forall i | 0 <= i < |Program(b)|
      ensures StmtKey(Program(b)[i]) !in w.running[x].locks
    {
      assert TxnInv(w.committed, w.running[x]);
      if StmtKey(Program(b)[i]) in w.running[x].locks {
        LocksAreOwnRows(w.committed, w.running[x], StmtKey(Program(b)[i]));
      }
    }
  }

  /** Transactions on different rows execute all their statements side by side before either commits. */
  lemma {:induction false} DifferentRowsOverlap(w: World, x: nat, a: Op, y: nat, b: Op) returns (steps: seq<Step>)
    requires Inv(w) && w.running == map[] && x != y && Admissible(a, w.committed) && Admissible(b, w.committed)
    requires OnDifferentRows(a, b)
    requires Transact(a, w.committed).Committed? && Transact(b, w.committed).Committed?
    ensures After(w, steps).Some? && Inv(After(w, steps).value)
    ensures var t := After(w, steps).value; Begun(t, w.committed, w.log, x, a, y, b) && BothFinished(t, x, y)
  {
    var first := FirstFinishes(w, x, a, y, b);
    var t := After(w, first).value;
    OwnRowsStayFree(t, x, a, y, b);
    var second := RunsUpTo(t, y, |Program(b)|);
    RunsCompose(w, first, second);
    steps := first + second;
  }

  /** A transaction that has executed its last statement commits, whoever else is running. */
  lemma {:induction false} FinishedCommits(w: World, id: nat)
    requires Inv(w) && id in w.running && w.running[id].done == |Program(w.running[id].op)|
    ensures After(w, [Commit(id)]).Some? && Inv(After(w, [Commit(id)]).value)
    ensures Transact(w.running[id].op, w.committed) == Committed(After(w, [Commit(id)]).value.committed)
    ensures var t := After(w, [Commit(id)]).value;
            t == World(t.committed, w.running - {id}, w.log + [w.running[id].op])
  {
    CommitIsAtomic(w, id);
    StepKeepsInv(w, Commit(id));
    RunOfOne(w, Commit(id));
  }

  lemma {:induction false} BothCommit(w: World, x: nat, y: nat)
    requires Inv(w) && w.running.Keys == {x, y} && x != y && BothFinished(w, x, y)
    ensures After(w, [Commit(x)] + [Commit(y)]).Some?
    ensures var t, middle := After(w, [Commit(x)] + [Commit(y)]).value, Transact(w.running[x].op, w.committed);
            && t.running == map[] && t.log == w.log + [w.running[x].op] + [w.running[y].op]
            && middle.Committed? && Transact(w.running[y].op, middle.db) == Committed(t.committed)
  {
    FinishedCommits(w, x);
    var one := After(w, [Commit(x)]).value;
    FinishedCommits(one, y);
    RunsCompose(w, [Commit(x)], [Commit(y)]);
    assert After(one, [Commit(y)]).value.running.Keys == {};
  }

  /** A transaction runs alone from beginning to end. */
  lemma {:induction false} RunsAlone(w: World, id: nat, op: Op) returns (steps: seq<Step>)
    requires Inv(w) && w.running == map[] && Admissible(op, w.committed) && Transact(op, w.committed).Committed?
    ensures After(w, steps) == Some(World(Transact(op, w.committed).db, map[], w.log + [op]))
    ensures Inv(After(w, steps).value)
  {
    var t := Do(w, Begin(id, op));
    StepKeepsInv(w, Begin(id, op));
    var running := RunsUpTo(t, id, |Program(op)|);
    var finished := After(t, running).value;
    FinishedCommits(finished, id);
    assert finished.running - {id} == map[];
    RunsCompose(t, running, [Commit(id)]);
    RunOfOne(w, Begin(id, op));
    RunsCompose(w, [Begin(id, op)], running + [Commit(id)]);
    steps := [Begin(id, op)] + (running + [Commit(id)]);
  }

  // ---- Credits ----

  /** A new order of a user with an untouched balance. */
  predicate ReadyForCredit(db: Db, u: UserId, o: OrderId) {
    && u in db.users && u in db.balances && db.balances[u] == BalanceRow(0, 0)
    && o in db.orders && db.orders[o] == OrderRow(u, New) && o in db.queue
  }

  lemma {:induction false} UserIsRegistered(w: World, u: UserId) returns (steps: seq<Step>)
    requires Inv(w) && w.running == map[] && u !in w.committed.users && u !in w.committed.balances
    ensures After(w, steps).Some? && Inv(After(w, steps).value)
    ensures var t := After(w, steps).value;
            && t.running == map[]
            && t.committed == w.committed.(users := w.committed.users + {u},
                                           balances := w.committed.balances[u := BalanceRow(0, 0)])
  {
    steps := RunsAlone(w, 0, CreateUser(u));
  }

  lemma {:induction false} OrderIsCreated(w: World, u: UserId, o: OrderId) returns (steps: seq<Step>)
    requires Inv(w) && w.running == map[] && u in w.committed.users
    requires o !in w.committed.orders && o !in w.committed.queue
    ensures After(w, steps).Some? && Inv(After(w, steps).value)
    ensures var t := After(w, steps).value;
            && t.running == map[]
            && t.committed == w.committed.(orders := w.committed.orders[o := OrderRow(u, New)],
                                           queue := w.committed.queue[o := QueueRow(0, 0)])
  {
    steps := RunsAlone(w, 0, CreateOrder(o, u, 0));
  }

  lemma InitialInv()
    ensures Inv(INITIAL)
  {
  }

  /** Two users with an order each, who may be the same user. */
  lemma {:induction false} TwoOrdersExist(u: UserId, o: OrderId, v: UserId, p: OrderId) returns (steps: seq<Step>)
    requires o != p
    ensures After(INITIAL, steps).Some? && Inv(After(INITIAL, steps).value)
    ensures var t := After(INITIAL, steps).value;
            t.running == map[] && ReadyForCredit(t.committed, u, o) && ReadyForCredit(t.committed, v, p)
  {
    InitialInv();
    steps := UserIsRegistered(INITIAL, u);
    if v != u {
      var second := UserIsRegistered(After(INITIAL, steps).value, v);
      RunsCompose(INITIAL, steps, second);
      steps := steps + second;
    }
    var first := OrderIsCreated(After(INITIAL, steps).value, u, o);
    RunsCompose(INITIAL, steps, first);
    steps := steps + first;
    var last := OrderIsCreated(After(INITIAL, steps).value, v, p);
    RunsCompose(INITIAL, steps, last);
    steps := steps + last;
  }

  lemma CreditRows(o: OrderId, u: UserId, m: Money, i: nat)
    requires i < |Program(MarkProcessed(o, u, m))|
    ensures |Program(MarkProcessed(o, u, m))| == 8
    ensures StmtKey(Program(MarkProcessed(o, u, m))[i])
         == if i == 0 then OrderKey(o)
            else if i < 3 then AccrualKey(o)
            else if i < 6 then BalanceKey(u)
            else QueueKey(o)
  {
  }

  lemma {:induction false} CreditsUseOwnRows(o: OrderId, u: UserId, m: Money, p: OrderId, v: UserId, n: Money)
    requires o != p && u != v
    ensures OnDifferentRows(MarkProcessed(o, u, m), MarkProcessed(p, v, n))
  {
    var a, b := Program(MarkProcessed(o, u, m)), Program(MarkProcessed(p, v, n));
    forall i, j | 0 <= i < |a| && 0 <= j < |b|
      ensures StmtKey(a[i]) != StmtKey(b[j])
    {
      CreditRows(o, u, m, i);
      CreditRows(p, v, n, j);
    }
  }

  lemma CreditDoes(db: Db, o: OrderId, u: UserId, m: Money)
    requires o in db.orders && u in db.balances && db.balances[u].current + m >= 0
    ensures var outcome := Transact(MarkProcessed(o, u, m), db);
            && outcome.Committed?
            && outcome.db.balances == db.balances[u := BalanceRow(db.balances[u].current + m, db.balances[u].withdrawn)]
            && outcome.db.orders == db.orders[o := db.orders[o].(status := Processed)]
            && outcome.db.users == db.users
  {
  }

  /** For every two users, orders and amounts there is a run from the empty database in which the credits of
  both orders have executed all their statements and neither has committed; then both commit and both amounts
  are there. */
  lemma {:induction false} CreditsToTwoUsersOverlap(
      u: UserId, o: OrderId, m: Money, v: UserId, p: OrderId, n: Money)
    returns (steps: seq<Step>)
    requires u != v && o != p && m >= 0 && n >= 0
    ensures After(INITIAL, steps).Some?
    ensures var t := After(INITIAL, steps).value;
            && t.running.Keys == {0, 1} && BothFinished(t, 0, 1)
            && t.running[0].done == t.running[1].done == 8
            && t.running[0].op == MarkProcessed(o, u, m) && t.running[1].op == MarkProcessed(p, v, n)
            && u in t.committed.balances && t.committed.balances[u].current == 0
            && v in t.committed.balances && t.committed.balances[v].current == 0
    ensures var end := After(After(INITIAL, steps).value, [Commit(0)] + [Commit(1)]);
            && end.Some? && end.value.running == map[]
            && u in end.value.committed.balances && end.value.committed.balances[u].current == m
            && v in end.value.committed.balances && end.value.committed.balances[v].current == n
  {
    var a, b := MarkProcessed(o, u, m), MarkProcessed(p, v, n);
    var existing := TwoOrdersExist(u, o, v, p);
    var w := After(INITIAL, existing).value;
    CreditsUseOwnRows(o, u, m, p, v, n);
    CreditDoes(w.committed, o, u, m);
    CreditDoes(w.committed, p, v, n);
    CreditDoes(Transact(a, w.committed).db, p, v, n);
    CreditRows(o, u, m, 0);
    CreditRows(p, v, n, 0);
    var overlapping := DifferentRowsOverlap(w, 0, a, 1, b);
    RunsCompose(INITIAL, existing, overlapping);
    steps := existing + overlapping;
    BothCommit(After(INITIAL, steps).value, 0, 1);
  }

  // ---- Waiting ----

  /** From here on the transaction is running at every moment. */
  predicate RunsOn(w: World, steps: seq<Step>, id: nat)
    decreases |steps|
  {
    id in w.running && (steps == [] || (Enabled(w, steps[0]) && RunsOn(Do(w, steps[0]), steps[1..], id)))
  }

  predicate WaitsFor(w: World, id: nat, holder: nat) {
    && id in w.running && holder in w.running && id != holder && Unfinished(w.running[id])
    && NextKey(w.running[id]) in w.running[holder].locks
  }

  lemma {:induction false} WaitsOn(w: World, id: nat, holder: nat, step: Step)
    requires WaitsFor(w, id, holder) && Enabled(w, step)
    requires id in Do(w, step).running && holder in Do(w, step).running
    ensures WaitsFor(Do(w, step), id, holder) && Do(w, step).running[id] == w.running[id]
  {
    assert Waiting(w, id);
  }

  /** A transaction that has come to a locked row waits, without another statement, for as long as the holder
  of the row and it itself are running. */
  lemma {:induction false} WaitsUntilHolderEnds(w: World, id: nat, holder: nat, steps: seq<Step>)
    requires WaitsFor(w, id, holder) && RunsOn(w, steps, id) && RunsOn(w, steps, holder)
    ensures After(w, steps).Some?
    ensures var t := After(w, steps).value;
            id in t.running && Waiting(t, id) && t.running[id] == w.running[id]
    decreases |steps|
  {
    if steps == [] {
      assert Waiting(w, id);
    } else {
      WaitsOn(w, id, holder, steps[0]);
      WaitsUntilHolderEnds(Do(w, steps[0]), id, holder, steps[1..]);
    }
  }

  /** Up to its balance row a credit needs rows of its order only. */
  lemma {:induction false} SecondCreditRunsUpToBalance(w: World, u: UserId, o: OrderId, m: Money, p: OrderId, n: Money)
    requires Inv(w) && w.running.Keys == {0, 1} && o != p
    requires w.running[0].op == MarkProcessed(o, u, m) && w.running[1].op == MarkProcessed(p, u, n)
    ensures Undisturbed(w, 1, 3)
  {
    CreditRows(p, u, n, 0);
    forall i | 0 <= i < 3
      ensures StmtKey(Program(w.running[1].op)[i]) !in w.running[0].locks
    {
      CreditRows(p, u, n, i);
      CreditHoldsNoOtherOrder(w.committed, w.running[0], p);
    }
  }

  lemma {:induction false} CreditHoldsNoOtherOrder(db: Db, t: Txn, p: OrderId)
    requires TxnInv(db, t) && t.op.MarkProcessed? && t.op.order != p
    ensures OrderKey(p) !in t.locks && AccrualKey(p) !in t.locks
  {
    forall key | key in t.locks
      ensures key != OrderKey(p) && key != AccrualKey(p)
    {
      LocksAreOwnRows(db, t, key);
      var i :| 0 <= i < |Program(t.op)| && StmtKey(Program(t.op)[i]) == key;
      CreditRows(t.op.order, t.op.user, t.op.points, i);
    }
  }

  lemma {:induction false} FinishedCreditHoldsBalance(db: Db, t: Txn)
    requires TxnInv(db, t) && t.op.MarkProcessed? && t.done == |Program(t.op)|
    ensures BalanceKey(t.op.user) in t.locks
  {
    CreditRows(t.op.order, t.op.user, t.op.points, 3);
    assert StmtKey(Program(t.op)[3]) == BalanceKey(t.op.user);
    assert Touched(t, BalanceKey(t.op.user));
  }

  /** For every two orders of one user there is a run from the empty database in which the first credit has
  executed all its statements and the second has come to the balance row and waits for it, until the first
  ends; when the first has committed the second goes on, and both amounts are there. */
  lemma {:induction false} CreditsToOneUserQueueUp(u: UserId, o: OrderId, m: Money, p: OrderId, n: Money)
    returns (steps: seq<Step>, rest: seq<Step>)
    requires o != p && m >= 0 && n >= 0
    ensures After(INITIAL, steps).Some?
    ensures var t := After(INITIAL, steps).value;
            && t.running.Keys == {0, 1}
            && t.running[0].op == MarkProcessed(o, u, m) && t.running[1].op == MarkProcessed(p, u, n)
            && t.running[1].done == 3 && NextKey(t.running[1]) == BalanceKey(u)
            && Enabled(t, Commit(0)) && !Enabled(t, Statement(1))
            && (forall more :: RunsOn(t, more, 0) && RunsOn(t, more, 1) ==>
                  After(t, more).Some? && !Enabled(After(t, more).value, Statement(1)))
    ensures var end := After(After(INITIAL, steps).value, [Commit(0)] + rest);
            && end.Some? && end.value.running == map[]
            && u in end.value.committed.balances && end.value.committed.balances[u].current == m + n
  {
    var a, b := MarkProcessed(o, u, m), MarkProcessed(p, u, n);
    var existing := TwoOrdersExist(u, o, u, p);
    var w := After(INITIAL, existing).value;
    CreditDoes(w.committed, o, u, m);
    CreditDoes(w.committed, p, u, n);
    var queueing := BothReachBalance(w, u, o, m, p, n);
    RunsCompose(INITIAL, existing, queueing);
    steps := existing + queueing;
    var t := After(INITIAL, steps).value;
    assert WaitsFor(t, 1, 0);
    assert Waiting(t, 1);
    forall more | RunsOn(t, more, 0) && RunsOn(t, more, 1)
      ensures After(t, more).Some? && !Enabled(After(t, more).value, Statement(1))
    {
      WaitsUntilHolderEnds(t, 1, 0, more);
    }
    CreditDoes(Transact(a, w.committed).db, p, u, n);
    rest := SecondCreditGoesOn(t, b);
  }

  lemma {:induction false} BothReachBalance(w: World, u: UserId, o: OrderId, m: Money, p: OrderId, n: Money)
    returns (steps: seq<Step>)
    requires Inv(w) && w.running == map[] && o != p
    requires ReadyForCredit(w.committed, u, o) && ReadyForCredit(w.committed, u, p)
    requires Transact(MarkProcessed(o, u, m), w.committed).Committed?
    requires Transact(MarkProcessed(p, u, n), w.committed).Committed?
    ensures After(w, steps).Some? && Inv(After(w, steps).value)
    ensures var t := After(w, steps).value;
            && Begun(t, w.committed, w.log, 0, MarkProcessed(o, u, m), 1, MarkProcessed(p, u, n))
            && t.running[0].done == 8 == |Program(t.running[0].op)|
            && t.running[1].done == 3 && NextKey(t.running[1]) == BalanceKey(u)
            && BalanceKey(u) in t.running[0].locks
  {
    CreditRows(o, u, m, 3);
    CreditRows(p, u, n, 3);
    var first := FirstFinishes(w, 0, MarkProcessed(o, u, m), 1, MarkProcessed(p, u, n));
    var t := After(w, first).value;
    SecondCreditRunsUpToBalance(t, u, o, m, p, n);
    FinishedCreditHoldsBalance(t.committed, t.running[0]);
    var second := RunsUpTo(t, 1, 3);
    RunsCompose(w, first, second);
    steps := first + second;
  }

  /** Once the first has committed, the second runs to its end. */
  lemma {:induction false} SecondCreditGoesOn(w: World, b: Op) returns (rest: seq<Step>)
    requires Inv(w) && w.running.Keys == {0, 1} && w.running[1].op == b
    requires w.running[0].done == |Program(w.running[0].op)|
    requires Transact(w.running[0].op, w.committed).Committed?
    requires Transact(b, Transact(w.running[0].op, w.committed).db).Committed?
    ensures After(w, [Commit(0)] + rest).Some?
    ensures var t := After(w, [Commit(0)] + rest).value;
            && t.running == map[]
            && Transact(b, Transact(w.running[0].op, w.committed).db) == Committed(t.committed)
  {
    FinishedCommits(w, 0);
    var one := After(w, [Commit(0)]).value;
    assert one.running.Keys == {1} && TxnInv(one.committed, one.running[1]);
    var going := RunsUpTo(one, 1, |Program(b)|);
    var finished := After(one, going).value;
    FinishedCommits(finished, 1);
    assert (finished.running - {1}).Keys == {};
    RunsCompose(one, going, [Commit(1)]);
    rest := going + [Commit(1)];
    RunsCompose(w, [Commit(0)], rest);
  }
}
