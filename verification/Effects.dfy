/** What single steps of the composed system do to the tables, row by row: payments, registrations and new
orders through the application's calls, the Mark call for an answer, and the choice of the next order. */
module Effects {
  import opened Common
  import opened Tables
  import opened Ledger
  import opened OrderEvents
  import opened Pipeline
  import Flight = SingleFlight
  import Processing
  import StorageObject
  import Worker

  // ---- Every order's owner is a registered user with a balance ----

  predicate OwnersKnown(db: Db) {
    forall o :: o in db.orders ==> db.orders[o].user in db.users
  }

  lemma CallKeepsOwners(op: Op, db: Db, fault: Fault)
    requires OwnersKnown(db) && (op.CreateOrder? ==> op.user in db.users)
    ensures OwnersKnown(Attempted(op, db, fault).db)
  {
  }

  lemma {:induction false} StepKeepsOwners(s: State, step: Step)
    requires OwnersKnown(s.books.db) && Enabled(s, step)
    ensures OwnersKnown(Do(s, step).books.db)
  {
    match step
    case OfMain(m) => Processing.MainLeavesBooks(s, m);
    case OfWorker(i, w) => WorkerKeepsOwners(s, i, w);
    case OfCallback(c) => CallbackKeepsOwners(s, c);
    case OfEnv(e) => EnvKeepsOwners(s, e);
  }

  lemma {:induction false} WorkerKeepsOwners(s: State, i: nat, step: WorkerStep)
    requires OwnersKnown(s.books.db) && WorkerEnabled(s, i, step)
    ensures OwnersKnown(DoWorker(s, i, step).books.db)
  {
    if step.Mark? {
      var pc := s.flow.workers[i];
      CallKeepsOwners(Worker.MarkCall(pc.ev.user, pc.answer), s.books.db, step.fault);
    }
  }

  lemma {:induction false} CallbackKeepsOwners(s: State, step: CallbackStep)
    requires OwnersKnown(s.books.db) && CallbackEnabled(s, step)
    ensures OwnersKnown(DoCallback(s, step).books.db)
  {
    if step.PutBack? {
      CallKeepsOwners(Postpone(s.flow.callback.ev.order, s.flow.callback.at), s.books.db, step.fault);
    }
  }

  lemma {:induction false} EnvKeepsOwners(s: State, step: EnvStep)
    requires OwnersKnown(s.books.db) && EnvEnabled(s, step)
    ensures OwnersKnown(DoEnv(s, step).books.db)
  {
    Processing.ApiCallsActOnBooks(s, step);
    if Processing.CallsApi(step) && ApiTransaction(s, step).Some? {
      CallKeepsOwners(ApiTransaction(s, step).value, s.books.db, step.fault);
    }
  }

  ghost predicate Inv(s: State) {
    Processing.Inv(s) && OwnersKnown(s.books.db)
  }

  lemma {:induction false} RunKeepsInv(s: State, steps: seq<Step>)
    requires Inv(s) && After(s, steps).Some?
    ensures Inv(After(s, steps).value)
    decreases |steps|
  {
    if steps != [] {
      Processing.StepKeepsInv(s, steps[0]);
      StepKeepsOwners(s, steps[0]);
      RunKeepsInv(Do(s, steps[0]), steps[1..]);
    }
  }

  lemma {:induction false} Reachable(steps: seq<Step>)
    requires After(INITIAL, steps).Some?
    ensures Inv(After(INITIAL, steps).value)
  {
    Processing.InitialInv();
    RunKeepsInv(INITIAL, steps);
  }

  /** Users and balance rows belong together, and no balance is negative. */
  lemma {:induction false} UsersHaveBalances(s: State, u: UserId)
    requires Processing.Inv(s)
    ensures u in s.books.db.users <==> u in s.books.db.balances
    ensures u in s.books.db.balances ==> s.books.db.balances[u].current >= 0
  {
    MoneyIsConserved(s.books.log, u);
  }

  // ---- The application's calls ----

  /** Callers, time and crashes are never held back; a caller makes one call at a time, and only an active run
  can be cancelled. */
  lemma EnvironmentIsFree(s: State, p: nat, u: UserId, o: OrderId, amount: Money, elapsed: nat, fault: Fault)
    ensures Enabled(s, OfEnv(Register(u, fault))) && Enabled(s, OfEnv(Spend(u, o, amount, fault)))
    ensures Enabled(s, OfEnv(Submit(p, u, o, fault))) <==> p !in s.producers
    ensures Enabled(s, OfEnv(AdvanceClock(elapsed))) && Enabled(s, OfEnv(Crash))
    ensures Enabled(s, OfEnv(Cancel)) <==> s.flow.main != Down
  {
  }

  /** A crash leaves nothing but the tables and the time; a cancel only tells the run; the clock only ticks. */
  lemma CrashCancelAndClockAct(s: State, elapsed: nat)
    ensures var t := DoEnv(s, Crash);
            && t.books == s.books && t.clock == s.clock && t.producers == map[]
            && t.proc.inFlight == {} && t.proc.pending == map[] && !t.proc.notified && t.proc.timer == None
            && t.proc.nextWakeup == 0 && !t.proc.running
            && t.flow.main == Down && t.flow.workers == [] && t.flow.workCh == [] && t.flow.callback == Absent
    ensures DoEnv(s, AdvanceClock(elapsed)) == s.(clock := s.clock + elapsed)
    ensures s.flow.main != Down ==>
      var t := DoEnv(s, Cancel); t.flow == s.flow.(cancelled := true) && t == s.(flow := t.flow, seen := t.seen)
  {
  }

  /** Whatever a worker, the callback or the main goroutine asks of the database and the accrual system may
  fail or succeed in every way; a pool of any size may be launched, and an event put off to any instant. */
  lemma AnswersAreFree(s: State, i: nat, fails: bool, reply: Worker.Reply, fault: Fault, at: Time, poolSize: nat)
    ensures i < |s.flow.workers| && s.flow.workers[i].Checking? ==> Enabled(s, OfWorker(i, ReadStatus(fails)))
    ensures i < |s.flow.workers| && s.flow.workers[i].Asking?
            && (reply.Answered? ==> reply.answer.order == s.flow.workers[i].ev.order)
            ==> Enabled(s, OfWorker(i, Ask(reply)))
    ensures i < |s.flow.workers| && s.flow.workers[i].Marking? ==> Enabled(s, OfWorker(i, Mark(fault)))
    ensures s.flow.callback.Deciding? ==> Enabled(s, OfCallback(Decide(at)))
    ensures s.flow.callback.Postponing? ==> Enabled(s, OfCallback(PutBack(fault)))
    ensures s.flow.main.Querying? ==> Enabled(s, OfMain(QueryFails))
    ensures s.flow.main == Launching && poolSize >= 1 ==> Enabled(s, OfMain(Launch(poolSize)))
    ensures s.flow.main == Down ==> Enabled(s, OfMain(StartRun(true))) && Enabled(s, OfMain(StartRun(false)))
  {
  }

  predicate CanPay(db: Db, u: UserId, o: OrderId, amount: Money) {
    && amount > 0 && u in db.users && o !in db.withdrawals
    && u in db.balances && amount <= db.balances[u].current
  }

  function AfterPayment(db: Db, u: UserId, o: OrderId, amount: Money): Db
    requires u in db.balances
  {
    var row := db.balances[u];
    db.(balances := db.balances[u := BalanceRow(row.current - amount, row.withdrawn + amount)],
        withdrawals := db.withdrawals[o := WithdrawalRow(u, amount)])
  }

  lemma SpendActs(s: State, u: UserId, o: OrderId, amount: Money, fault: Fault)
    requires u in s.books.db.users ==> u in s.books.db.balances
    ensures var t := DoEnv(s, Spend(u, o, amount, fault));
            && t == s.(books := t.books)
            && t.books == if CanPay(s.books.db, u, o, amount) && fault != Breaks
                          then Books(AfterPayment(s.books.db, u, o, amount), s.books.log + [Withdraw(o, u, amount)])
                          else s.books
  {
  }

  /** In every reachable state a payment of a positive amount that the balance covers, for an order without a
  withdrawal, moves the amount from current to withdrawn and leaves the withdrawal row, unless the connection
  breaks; any other payment leaves everything as it was. */
  lemma {:induction false} SpendMovesMoney(steps: seq<Step>, u: UserId, o: OrderId, amount: Money, fault: Fault)
    requires After(INITIAL, steps).Some?
    ensures var s := After(INITIAL, steps).value;
            && (u in s.books.db.users ==> u in s.books.db.balances)
            && DoEnv(s, Spend(u, o, amount, fault))
               == if CanPay(s.books.db, u, o, amount) && fault != Breaks
                  then s.(books := Books(AfterPayment(s.books.db, u, o, amount),
                                         s.books.log + [Withdraw(o, u, amount)]))
                  else s
  {
    Reachable(steps);
    UsersHaveBalances(After(INITIAL, steps).value, u);
    SpendActs(After(INITIAL, steps).value, u, o, amount, fault);
  }

  /** A registration adds a new user with an empty balance; a known user's changes nothing. */
  lemma {:induction false} RegisterAddsUser(steps: seq<Step>, u: UserId, fault: Fault)
    requires After(INITIAL, steps).Some?
    ensures var s := After(INITIAL, steps).value;
            var db, t := s.books.db, DoEnv(s, Register(u, fault));
            && t == s.(books := t.books)
            && if u !in db.users && fault != Breaks
               then
                 && t.books.db == db.(users := db.users + {u}, balances := db.balances[u := BalanceRow(0, 0)])
                 && t.books.log == s.books.log + [CreateUser(u)]
               else t.books == s.books
  {
    Reachable(steps);
    UsersHaveBalances(After(INITIAL, steps).value, u);
  }

  /** A known user's new order is stored and queued for now, and its caller goes on to notify the processor
  unless it was told of an error; any other creation leaves everything as it was. */
  lemma {:induction false} SubmitAddsOrder(steps: seq<Step>, p: nat, u: UserId, o: OrderId, fault: Fault)
    requires After(INITIAL, steps).Some? && p !in After(INITIAL, steps).value.producers
    ensures var s := After(INITIAL, steps).value;
            var db, t := s.books.db, DoEnv(s, Submit(p, u, o, fault));
            if u in db.users && o !in db.orders && fault != Breaks
            then
              && t.books.db == db.(orders := db.orders[o := OrderRow(u, New)],
                                   queue := db.queue[o := QueueRow(s.clock, 0)])
              && t.books.log == s.books.log + [CreateOrder(o, u, s.clock)]
              && t.producers == (if fault == Healthy then s.producers[p := ToDrain(o)] else s.producers)
              && t.seen.owed == (if fault == Healthy then s.seen.owed + {o} else s.seen.owed)
              && t.flow == s.flow && t.proc == s.proc && t.clock == s.clock
            else t == s
  {
    Reachable(steps);
    CreditedOnce(After(INITIAL, steps).value.books.log, o);
  }

  // ---- The Mark call ----

  /** In every reachable state a worker about to mark has an answer about its own event's order, which is open
  and belongs to a user with a balance; on a healthy database the call does what the answer is for. */
  lemma {:induction false} AnswersTakeEffect(steps: seq<Step>, i: nat)
    requires After(INITIAL, steps).Some?
    requires var f := After(INITIAL, steps).value.flow; i < |f.workers| && f.workers[i].Marking?
    ensures var s := After(INITIAL, steps).value;
            var pc, db, t := s.flow.workers[i], s.books.db, DoWorker(s, i, Mark(Healthy));
            && pc.answer.order == pc.ev.order && pc.ev.order in db.orders && db.orders[pc.ev.order].user == pc.ev.user
            && (db.orders[pc.ev.order].status == New || db.orders[pc.ev.order].status == Processing)
            && pc.ev.user in db.users && pc.ev.user in db.balances && db.balances[pc.ev.user].current >= 0
            && t.flow.workers[i].Reporting? && t.flow.workers[i].ev == pc.ev
            && Worker.DoneAsAnswered(db, t.books.db, pc.ev.user, pc.answer, t.flow.workers[i].failure)
  {
    Reachable(steps);
    var s := After(INITIAL, steps).value;
    var pc := s.flow.workers[i];
    assert Processing.WorkerOk(s.books.db, pc);
    UsersHaveBalances(s, pc.ev.user);
    Worker.HealthyMarkDoesAsAnswered(s.books.db, pc.ev.user, pc.answer);
  }

  // ---- The next order ----

  /** The query may answer with exactly the due orders outside the excluded ones that have been due longest. */
  lemma {:induction false} FoundExactlyWhenDueLongest(s: State, o: OrderId)
    ensures MainEnabled(s, Found(o))
       <==> s.flow.main.Querying? && StorageObject.DueLongest(s.books.db, s.flow.main.exclude, s.clock, o)
  {
    if s.flow.main.Querying? {
      StorageObject.NextIsDueLongest(s.books.db, s.flow.main.exclude, s.clock, o);
    }
  }

  predicate Logged(before: Books, after: Books) {
    || after == before
    || (&& |after.log| == |before.log| + 1
        && after.log == before.log + [after.log[|before.log|]]
        && Transact(after.log[|before.log|], before.db) == Committed(after.db))
  }

  lemma {:induction false} StepKeepsRow(s: State, step: Step, o: OrderId)
    requires Processing.Inv(s) && Enabled(s, step) && o in s.books.db.orders
    ensures var t := Do(s, step);
            && o in t.books.db.orders
            && Postponements(t.books.log, o) >= Postponements(s.books.log, o)
            && (Postponements(t.books.log, o) == Postponements(s.books.log, o) && o in t.books.db.queue ==>
                  o in s.books.db.queue && t.books.db.queue[o] == s.books.db.queue[o])
  {
    LogGrowsByOne(s, step);
    var t := Do(s, step);
    if t.books != s.books {
      var op := t.books.log[|s.books.log|];
      assert t.books.log[..|t.books.log| - 1] == s.books.log;
      QueueStep(op, s.books.db, o);
    }
  }

  /** A step leaves the books alone or adds one committed transaction to them. */
  lemma {:induction false} LogGrowsByOne(s: State, step: Step)
    requires Processing.Inv(s) && Enabled(s, step)
    ensures Logged(s.books, Do(s, step).books)
  {
    match step
    case OfMain(m) => Processing.MainLeavesBooks(s, m);
    case OfWorker(i, w) => WorkerLogs(s, i, w);
    case OfCallback(c) => CallbackLogs(s, c);
    case OfEnv(e) => EnvLogs(s, e);
  }

  lemma {:induction false} WorkerLogs(s: State, i: nat, step: WorkerStep)
    requires WorkerEnabled(s, i, step)
    ensures Logged(s.books, DoWorker(s, i, step).books)
  {
  }

  lemma {:induction false} CallbackLogs(s: State, step: CallbackStep)
    requires CallbackEnabled(s, step)
    ensures Logged(s.books, DoCallback(s, step).books)
  {
  }

  lemma {:induction false} EnvLogs(s: State, step: EnvStep)
    requires EnvEnabled(s, step)
    ensures Logged(s.books, DoEnv(s, step).books)
  {
    Processing.ApiCallsActOnBooks(s, step);
  }

  lemma {:induction false} RowStays(s: State, steps: seq<Step>, o: OrderId)
    requires Processing.Inv(s) && After(s, steps).Some? && o in s.books.db.orders
    ensures var t := After(s, steps).value;
            && Postponements(t.books.log, o) >= Postponements(s.books.log, o)
            && (Postponements(t.books.log, o) == Postponements(s.books.log, o) && o in t.books.db.queue ==>
                  o in s.books.db.queue && t.books.db.queue[o] == s.books.db.queue[o])
    decreases |steps|
  {
    if steps != [] {
      StepKeepsRow(s, steps[0], o);
      Processing.StepKeepsInv(s, steps[0]);
      RowStays(Do(s, steps[0]), steps[1..], o);
    }
  }

  /** Of two orders found one after the other, the second of which was due and not excluded already when the
  first was found and is not postponed in between, the first has the earlier process time. */
  lemma {:induction false} EarlierDueIsFoundFirst(first: seq<Step>, a: OrderId, later: seq<Step>, b: OrderId)
    requires After(INITIAL, first).Some? && MainEnabled(After(INITIAL, first).value, Found(a))
    requires var s := After(INITIAL, first).value;
             && StorageObject.IsDue(s.books.db, s.clock, b) && b !in s.flow.main.exclude
             && After(DoMain(s, Found(a)), later).Some?
    requires var s := After(INITIAL, first).value;
             var t := After(DoMain(s, Found(a)), later).value;
             && MainEnabled(t, Found(b))
             && Postponements(t.books.log, b) == Postponements(s.books.log, b)
    ensures var s := After(INITIAL, first).value;
            var t := After(DoMain(s, Found(a)), later).value;
            && a in s.books.db.queue && b in t.books.db.queue
            && s.books.db.queue[a].processAfter <= t.books.db.queue[b].processAfter
  {
    Reachable(first);
    var s := After(INITIAL, first).value;
    FoundExactlyWhenDueLongest(s, a);
    Processing.StepKeepsInv(s, OfMain(Found(a)));
    RowStays(DoMain(s, Found(a)), later, b);
    FoundExactlyWhenDueLongest(After(DoMain(s, Found(a)), later).value, b);
  }
}
