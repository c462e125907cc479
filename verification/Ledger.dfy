/** What holds of the tables after any log of committed transactions: the money laws need nothing
more; the laws about order statuses need a log whose Mark transactions each found an open order. */
module Ledger {
  import opened Common
  import opened Tables

  // ---- Money ----

  ghost function WithdrawalFn(withdrawals: map<OrderId, WithdrawalRow>, u: UserId): OrderId -> int {
    o => if o in withdrawals && withdrawals[o].user == u then withdrawals[o].amount else 0
  }

  /** The sum of a user's withdrawal rows. */
  ghost function WithdrawnBy(db: Db, u: UserId): int {
    Sum(db.withdrawals.Keys, WithdrawalFn(db.withdrawals, u))
  }

  /** The points a log's transactions have added to a user's balance. */
  function CreditsTo(log: seq<Op>, u: UserId): int
    decreases |log|
  {
    if log == [] then 0
    else
      var op := log[|log| - 1];
      CreditsTo(log[..|log| - 1], u) + if op.MarkProcessed? && op.user == u then op.points else 0
  }

  ghost predicate BalanceExplained(log: seq<Op>, db: Db, u: UserId) {
    && (u in db.users <==> u in db.balances)
    && (u in db.balances ==>
          && db.balances[u].current >= 0
          && db.balances[u].withdrawn == WithdrawnBy(db, u)
          && db.balances[u].current + db.balances[u].withdrawn == CreditsTo(log, u))
    && (u !in db.balances ==> WithdrawnBy(db, u) == 0 && CreditsTo(log, u) == 0)
  }

  lemma {:induction false} WithdrawalRowAdds(db: Db, o: OrderId, row: WithdrawalRow, u: UserId)
    requires o !in db.withdrawals
    ensures WithdrawnBy(db.(withdrawals := db.withdrawals[o := row]), u)
         == WithdrawnBy(db, u) + if row.user == u then row.amount else 0
  {
    var after := db.withdrawals[o := row];
    SumChange(db.withdrawals.Keys, after.Keys, WithdrawalFn(db.withdrawals, u), WithdrawalFn(after, u), o);
  }

  lemma SameWithdrawals(a: Db, b: Db, u: UserId)
    requires a.withdrawals == b.withdrawals
    ensures WithdrawnBy(a, u) == WithdrawnBy(b, u)
  {
  }

  /** Every user's balance is non-negative and accounted for: what was withdrawn is the sum of the
  withdrawal rows, and together with the current amount it is the sum of all credits. */
  lemma {:induction false} MoneyIsConserved(log: seq<Op>, u: UserId)
    requires RunAll(log).Some?
    ensures BalanceExplained(log, RunAll(log).value, u)
    decreases |log|
  {
    if log != [] {
      var init, op := log[..|log| - 1], log[|log| - 1];
      MoneyIsConserved(init, u);
      var before, after := RunAll(init).value, RunAll(log).value;
      if op.Withdraw? {
        WithdrawalRowAdds(before, op.order, WithdrawalRow(op.user, op.amount), u);
        SameWithdrawals(after, before.(withdrawals := after.withdrawals), u);
      } else {
        SameWithdrawals(before, after, u);
      }
    }
  }

  // ---- Postponements ----

  /** The number of postponements of an order in a log. */
  function Postponements(log: seq<Op>, o: OrderId): nat
    decreases |log|
  {
    if log == [] then 0
    else
      var op := log[|log| - 1];
      Postponements(log[..|log| - 1], o) + if op.Postpone? && op.order == o then 1 else 0
  }

  /** The instant an order was last put off to, or else queued for. */
  function DueTime(log: seq<Op>, o: OrderId): Option<Time>
    decreases |log|
  {
    if log == [] then None
    else
      var op := log[|log| - 1];
      if op.CreateOrder? && op.order == o then Some(op.now)
      else if op.Postpone? && op.order == o then Some(op.processAfter)
      else DueTime(log[..|log| - 1], o)
  }

  lemma QueueStep(op: Op, before: Db, o: OrderId)
    requires Transact(op, before).Committed?
    ensures var after := Transact(op, before).db;
            && (o in before.orders ==> o in after.orders)
            && (if op.CreateOrder? && op.order == o
                then o !in before.orders && o in after.orders && o in after.queue
                     && after.queue[o] == QueueRow(op.now, 0)
                else if op.Postpone? && op.order == o
                then o in before.queue
                     && after.queue == before.queue[o := QueueRow(op.processAfter, before.queue[o].retries + 1)]
                     && (o in after.orders ==> o in before.orders)
                else (o in after.queue ==> o in before.queue && after.queue[o] == before.queue[o])
                     && (o in after.orders ==> o in before.orders))
  {
  }

  /** A queue row holds the order's last due time and counts its postponements. */
  lemma {:induction false} QueueRowReflectsLog(log: seq<Op>, o: OrderId)
    requires RunAll(log).Some?
    ensures o !in RunAll(log).value.orders ==> o !in RunAll(log).value.queue && Postponements(log, o) == 0
    ensures o in RunAll(log).value.queue ==>
              RunAll(log).value.queue[o] == QueueRow(DueTime(log, o).GetOr(0), Postponements(log, o))
              && DueTime(log, o).Some?
    decreases |log|
  {
    if log != [] {
      var init, op := log[..|log| - 1], log[|log| - 1];
      QueueRowReflectsLog(init, o);
      QueueStep(op, RunAll(init).value, o);
      assert RunAll(log) == Some(Transact(op, RunAll(init).value).db);
    }
  }

  // ---- Orders, when every Mark transaction found its order open ----

  /** The condition that the store itself never tests. */
  predicate Permitted(op: Op, db: Db) {
    match op
    case MarkProcessing(o) => o in db.orders && Open(db.orders[o].status)
    case MarkInvalid(o) => o in db.orders && Open(db.orders[o].status)
    case MarkProcessed(o, u, _) => o in db.orders && Open(db.orders[o].status) && db.orders[o].user == u
    case _ => true
  }

  /** A log of committed transactions whose Mark transactions all found their order open. */
  predicate Guarded(log: seq<Op>)
    decreases |log|
  {
    log == [] ||
    (var init := log[..|log| - 1];
     && Guarded(init)
     && RunAll(init).Some?
     && RunAll(log).Some?
     && Permitted(log[|log| - 1], RunAll(init).value))
  }

  lemma GuardedAppends(log: seq<Op>, op: Op)
    requires Guarded(log) && RunAll(log).Some?
    requires Transact(op, RunAll(log).value).Committed? && Permitted(op, RunAll(log).value)
    ensures Guarded(log + [op]) && RunAll(log + [op]) == Some(Transact(op, RunAll(log).value).db)
  {
    assert (log + [op])[..|log + [op]| - 1] == log;
  }

  /** How often an order's points were added to a balance. */
  function CreditCount(log: seq<Op>, o: OrderId): nat
    decreases |log|
  {
    if log == [] then 0
    else
      var op := log[|log| - 1];
      CreditCount(log[..|log| - 1], o) + if op.MarkProcessed? && op.order == o then 1 else 0
  }

  predicate RowsInOrder(db: Db, o: OrderId) {
    && (o in db.queue <==> o in db.orders && Open(db.orders[o].status))
    && (o in db.accruals <==> o in db.orders && db.orders[o].status == Processed)
  }

  predicate OrderInOrder(log: seq<Op>, db: Db, o: OrderId) {
    && RowsInOrder(db, o)
    && CreditCount(log, o) == (if o in db.accruals then 1 else 0)
  }

  /** A permitted transaction keeps an order's rows consistent and gives it points exactly by crediting it. */
  lemma PermittedStepKeepsRows(op: Op, before: Db, o: OrderId)
    requires RowsInOrder(before, o) && Permitted(op, before) && Transact(op, before).Committed?
    ensures RowsInOrder(Transact(op, before).db, o)
    ensures op.MarkProcessed? && op.order == o ==> o !in before.accruals
    ensures o in Transact(op, before).db.accruals <==> o in before.accruals || (op.MarkProcessed? && op.order == o)
  {
  }

  /** An order is queued exactly while it is open, has points exactly when it is processed, and was
  credited exactly once if it was processed and never otherwise. */
  lemma {:induction false} CreditedOnce(log: seq<Op>, o: OrderId)
    requires Guarded(log)
    ensures RunAll(log).Some? && OrderInOrder(log, RunAll(log).value, o)
    decreases |log|
  {
    if log != [] {
      var init, op := log[..|log| - 1], log[|log| - 1];
      CreditedOnce(init, o);
      PermittedStepKeepsRows(op, RunAll(init).value, o);
    }
  }

  ghost function EarnedFn(db: Db, u: UserId): OrderId -> int {
    o => if o in db.orders && o in db.accruals && db.orders[o] == OrderRow(u, Processed) then db.accruals[o] else 0
  }

  /** The points of a user's processed orders. */
  ghost function EarnedBy(db: Db, u: UserId): int {
    Sum(db.orders.Keys, EarnedFn(db, u))
  }

  lemma {:induction false} EarningsChangeAt(before: Db, after: Db, o: OrderId, u: UserId)
    requires o in after.orders && before.orders.Keys - {o} == after.orders.Keys - {o}
    requires forall j :: j in before.orders && j != o ==> EarnedFn(before, u)(j) == EarnedFn(after, u)(j)
    ensures EarnedBy(after, u) == EarnedBy(before, u) - EarnedFn(before, u)(o) + EarnedFn(after, u)(o)
  {
    SumChange(before.orders.Keys, after.orders.Keys, EarnedFn(before, u), EarnedFn(after, u), o);
  }

  /** A permitted transaction raises what a user has earned by exactly what it credits to the user. */
  lemma {:induction false} EarningsFollowCredits(op: Op, before: Db, u: UserId)
    requires Permitted(op, before) && Transact(op, before).Committed?
    requires op.CreateOrder? || op.MarkProcessed? ==> op.order !in before.accruals
    ensures EarnedBy(Transact(op, before).db, u)
         == EarnedBy(before, u) + if op.MarkProcessed? && op.user == u then op.points else 0
  {
    var after := Transact(op, before).db;
    if op.CreateUser? || op.Withdraw? || op.Postpone? {
      SumAgrees(before.orders.Keys, EarnedFn(before, u), EarnedFn(after, u));
    } else {
      EarningsChangeAt(before, after, op.order, u);
    }
  }

  /** All that was ever credited to a user is the points of the user's processed orders. */
  lemma {:induction false} CreditsAreEarnings(log: seq<Op>, u: UserId)
    requires Guarded(log)
    ensures RunAll(log).Some? && CreditsTo(log, u) == EarnedBy(RunAll(log).value, u)
    decreases |log|
  {
    if log != [] {
      var init, op := log[..|log| - 1], log[|log| - 1];
      CreditsAreEarnings(init, u);
      if op.CreateOrder? || op.MarkProcessed? {
        CreditedOnce(init, op.order);
      }
      EarningsFollowCredits(op, RunAll(init).value, u);
    }
  }

  /** A user's current and withdrawn amounts together are the points of the user's processed orders. */
  lemma {:induction false} BalanceIsEarnings(log: seq<Op>, u: UserId)
    requires Guarded(log)
    ensures RunAll(log).Some?
    ensures var db := RunAll(log).value;
            u in db.users ==> u in db.balances && db.balances[u].current + db.balances[u].withdrawn == EarnedBy(db, u)
  {
    CreditsAreEarnings(log, u);
    MoneyIsConserved(log, u);
  }

  /** One permitted transaction never takes an order back, away from its owner, or out of a final status. */
  predicate OrderAdvances(before: Db, after: Db, o: OrderId) {
    o in before.orders ==>
      && o in after.orders
      && after.orders[o].user == before.orders[o].user
      && Rank(before.orders[o].status) <= Rank(after.orders[o].status)
      && (before.orders[o].status == Processing ==> after.orders[o].status != New)
      && (!Open(before.orders[o].status) ==>
            && after.orders[o] == before.orders[o]
            && (o in before.accruals <==> o in after.accruals)
            && (o in before.accruals ==> before.accruals[o] == after.accruals[o])
            && (o !in before.queue ==> o !in after.queue))
  }

  lemma PermittedStepAdvances(op: Op, before: Db, o: OrderId)
    requires Permitted(op, before) && Transact(op, before).Committed?
    ensures OrderAdvances(before, Transact(op, before).db, o)
  {
  }

  /** Over a whole guarded log an order only moves forward, and its final status, points and absence
  from the queue stay for good. */
  lemma {:induction false} FinalMeansFinal(log: seq<Op>, k: nat, o: OrderId)
    requires Guarded(log) && k <= |log|
    ensures RunAll(log[..k]).Some? && RunAll(log).Some?
    ensures OrderAdvances(RunAll(log[..k]).value, RunAll(log).value, o)
    decreases |log|
  {
    if k == |log| {
      assert log[..k] == log;
    } else {
      var init := log[..|log| - 1];
      assert init[..k] == log[..k];
      FinalMeansFinal(init, k, o);
      PermittedStepAdvances(log[|log| - 1], RunAll(init).value, o);
    }
  }

  /** Without the condition the store credits a processed order again: exactly a committed
  MarkProcessed on an order with points counts a second time. */
  lemma {:induction false} UnguardedMarkCreditsAgain(log: seq<Op>, o: OrderId, u: UserId, points: Money)
    requires Guarded(log)
    requires Transact(MarkProcessed(o, u, points), RunAll(log).value).Committed?
    ensures CreditCount(log + [MarkProcessed(o, u, points)], o) > 1
       <==> o in RunAll(log).value.orders && RunAll(log).value.orders[o].status == Processed
  {
    CreditedOnce(log, o);
    assert (log + [MarkProcessed(o, u, points)])[..|log|] == log;
  }
}
