# Gophermart: order processing, store and check digits

A Dafny model of the loyalty-points service: users upload order numbers, an order processor asks the
accrual system about every order and credits the points, users spend points on new orders. The model
covers the concurrent processor (`internal/gophermart/service/workers`), the transactions of the SQL
store (`internal/gophermart/repository/sqldatabase`), the service calls in front of them, the Luhn
validation of order numbers (`pkg/luhn`) and the guarded in-memory repository the workers are developed
against. `dafny verify dfyconfig.toml` checks everything.

## What is modelled

- `Common`: identifiers, instants, amounts in units of 10^-4, finite sums.
- `Tables`: the tables as a value, each transaction as a list of statements that look at one row each
  (`Program`), and what the transaction is for in one expression (`Transact`); a run of the statements
  is proved equal to it.
- `Ledger`: laws of any log of committed transactions, and of logs whose Mark transactions all found
  their order open (`Guarded`). The store itself never tests that.
- `RowLocks`: any number of transactions interleaved statement by statement under row locks; `Overlap`:
  that they do overlap, and who waits for whom.
- `StorageObject`: the store as a class whose methods change tables in place and roll back.
- `Reference`: the guarded in-memory repository as a class, and its agreement with the store.
- `ProcessorState`, `Worker`, `Pool`, `Processor`, `Services`: the processor's shared state, a worker's
  handling of an event, the pool, the callback and start-up code, and the service calls, as classes.
- `Pipeline`: processor and store as one transition system. Its steps are channel operations, critical
  sections and store calls of the main goroutine, N workers, the callback goroutine and any number of
  API callers, plus cancel, clock and crash. `SingleFlight`, `Processing`, `Notification`, `Trigger`,
  `Shutdown`, `Wakeups`, `Stranded`, `Resumption` and `Pool` prove its properties over all runs from the
  empty database; `StrandedRuns` and `Trigger` give the runs in which the processor gets stuck; `Effects`
  says on the rows what payments, registrations, new orders, answers and the choice of the next order do.
- `RateLimit`: the shared pause of the accrual workers, with time.
- `OrderEvents`, `Luhn`: retry decisions and the 64-bit back-off bound; check digits.

The central argument: a worker checks an order's status and marks it later, and the store does not test
the status again. Because every order in flight has exactly one holder (`SingleFlight.SingleFlight`), no
status changes in between, so every Mark transaction ever committed found its order open
(`Processing.NoGuardIsEverNeeded`). Exactly-once crediting, absorbing final statuses, balances that equal
earnings and agreement with the guarded repository follow from that.

## Premises

- The accrual system's answer carries the order number it was asked about
  (`Pipeline.AnswersTheQuestion`). The worker uses the number in the answer
  (`order_event_worker.go:147`), so the code depends on this.
- One processor runs per database. Runs follow each other, and a crash ends a process entirely.
- Whether a transaction committed is settled when its call returns; the caller may still be told of an
  error (`LosesReply`).
- A row read FOR UPDATE, updated or inserted stays locked to the end of its transaction. A search FOR
  UPDATE that finds nothing locks nothing; `RowLocks` proves that this is harmless here.
- Amounts are multiples of 10^-4 and the clock never goes back. Timers behave as in Go 1.23 and later: no
  stale tick survives a Reset or Stop.

## Where the code differs from its documentation

- `TriggerQueueProcessing` says it never blocks. It does exactly while the last fill or drain of the
  channel is a fill (`Trigger.SendersWaitExactlyAfterAFill`): with two concurrent callers
  (`Trigger.TriggerCanBlock`), and in a preloading start when a caller sends between its drain and its
  send. The start then waits for a reader that only its own main loop would be, ignores a cancel, and goes
  on only if a further caller drains the channel (`Trigger.StartCanBlockForGood`,
  `Trigger.BlockedUntilRescued`). That is the one condition under which a start does not reach its loop
  and a cancelled run does not return (`Trigger.StartSucceedsUnlessBlocked`,
  `Shutdown.CancelledRunReturnsUnlessBlocked`).
- Processed and Invalid are documented as final, but the store overwrites them
  (`Ledger.UnguardedMarkCreditsAgain`). `Reference.AgreementNeedsTheGuard` says on which statuses the
  store agrees with the guarded repository, and on no others.
- The Mark calls and `GetOrderStatus` announce a user conflict for somebody else's order; the code returns
  "order not found", and the model follows it.
- `WithdrawFunds` announces a plain `false` for missing funds; the code also returns an error.
- The comment on `WakeupC` suggests that every postponed order is waited for. A wake-up time later than the
  order's own keeps it from arming the timer when no timer is armed, whether that time is left over from an
  earlier run (`StrandedRuns.StaleWakeupTimeLeavesBehind`) or belongs to another order of the same run whose
  tick came in between (`StrandedRuns.TickBeforeAdditionLeavesBehind`); and a tick taken before the order
  has left the in-flight set is lost for it (`StrandedRuns.TickBeforeReleaseLeavesBehind`).
- The comment on `EnqueueEvent` says that an order whose postponement fails will be picked up again. Such an
  order never becomes pending, and no timer waits for it, also when its new time was stored and only the
  reply was lost (`StrandedRuns.UnreportedPostponementLeavesBehind`).
- `Resumption.ResumedExactlyUnlessUnreportedOrStranded` says that in a healthy run these are the only ways in
  which an open order that was handed out stays without a timer. What remains for it is the next
  notification, another order's postponement, or the next preloading start.
- `luhn.Validate(0)` indexes an empty slice; the model reports this as its own verdict.
- The maximum back-off shift is computed through a floating-point logarithm; the model uses the exact one.

## Model

| member | source | states |
|---|---|---|
| Luhn.NumberToDigitsReversed | pkg/luhn/luhn.go:24-34 | for every 64-bit number the slice holds decimal digits without a leading zero, at most 20, and denotes the number in base 10 |
| Luhn.CalculateCheckDigit | pkg/luhn/luhn.go:36-50 | the expected digit is the last one, the actual one completes the Annex B sum of the others to a multiple of ten; the 64-bit sum never wraps |
| Luhn.Validate | pkg/luhn/luhn.go:11-19 | accepts exactly the positive numbers whose Annex B sum (ISO/IEC 7812-1) is 0 modulo 10; fails with an index error exactly for 0 |
| Luhn.SingleDigitErrorIsDetected | pkg/luhn/luhn.go:36-67 | changing any one digit of a valid number makes it invalid |
| Luhn.AdjacentSwapIsDetectedUnlessZeroNine | pkg/luhn/luhn.go:36-67 | swapping two unequal neighbouring digits keeps a valid number valid if and only if they are 0 and 9 |
| Luhn.ReplaceDigitChangesOnlyThatDigit | pkg/luhn/luhn.go:21-34 | the digit replacement of these two theorems changes one decimal digit and no other |
| Luhn.CheckDigitExistsAndIsUnique | pkg/luhn/luhn.go:36-50 | every positive payload has exactly one accepted check digit |
| OrderEvents.ShiftWithinLimit | internal/gophermart/service/workers/order_event_delay.go:46 | up to the limit the shifted 64-bit delay is positive, exact and grows with every step |
| OrderEvents.LimitIsLargest | internal/gophermart/service/workers/order_event_delay.go:46 | one shift more overflows to a negative delay, for every positive 64-bit initial delay |
| OrderEvents.ShiftIsExactUpToLimit | internal/gophermart/service/workers/order_event_delay.go:46 | for every n, shifting by n is multiplying by 2^n if and only if n is within the limit |
| OrderEvents.NewOrderEventDelayConfig | internal/gophermart/service/workers/order_event_delay.go:32-49 | every field has the value of the last option that sets it, or its default (100 ms, 100 ms, no maximum, 2 attempts); for a positive initial delay the bound is the largest shift whose product stays below 2^63, otherwise it is 62 less the converted logarithm, modulo 2^64 |
| OrderEvents.GetNextEvent | internal/gophermart/service/workers/order_event.go:44-102 | for every configuration, retries exactly the failures that are neither a discard nor a missing order, with one retry more, never in the past and never later than the maximum delay |
| OrderEvents.RetryTime | internal/gophermart/service/workers/order_event.go:44-102 | an event is retried if and only if it failed for another reason than a discard or a missing order, at now plus the random part before the back-off sets in, else plus the initial delay times 2 to the capped attempt and the random part, saturating, and capped by the maximum delay |
| OrderEvents.RetryDelaysNeverShrink | internal/gophermart/service/workers/order_event.go:62-80 | for every initial delay that is not negative, with equal jitter a later attempt waits at least as long |
| OrderEvents.NegativeDelaysCanShrink | internal/gophermart/service/workers/order_event_delay.go:46 | with a negative initial delay, and a bound that its converted logarithm has made large, an attempt whose bits are shifted out waits less than one whose shift is negative |
| Tables.ProgramsDoTheirJob | internal/gophermart/repository/sqldatabase/trx_order.go:12-79 | the statements of every transaction, run one after the other up to the first error, do exactly what the transaction is for |
| Tables.CoarseCheckIsImplied | internal/gophermart/repository/sqldatabase/store_balance.go:149-156 | the check on whole units refuses nothing that the exact check would allow |
| Tables.RefusedExactlyWhenTooLarge | internal/gophermart/repository/sqldatabase/store_balance.go:125-156 | for a non-negative balance a positive withdrawal fails for lack of funds if and only if it exceeds the balance |
| Ledger.MoneyIsConserved | internal/gophermart/repository/sqldatabase/store_balance.go:125-191 | after any committed transactions every balance is non-negative, withdrawn is the sum of the withdrawal rows, and current plus withdrawn is the sum of all credits |
| Ledger.QueueRowReflectsLog | internal/gophermart/repository/sqldatabase/trx_processable_order.go:18-35 | a queue row holds the last time its order was put off to and counts its postponements |
| Ledger.CreditedOnce | internal/gophermart/repository/sqldatabase/trx_order.go:42-79 | in guarded logs an order is queued exactly while open, has points exactly when processed, and was credited exactly once then and never otherwise |
| Ledger.CreditsAreEarnings | internal/gophermart/repository/sqldatabase/trx_order.go:56-79 | in guarded logs all credits of a user are the points of the user's processed orders |
| Ledger.FinalMeansFinal | internal/gophermart/domain/order.go:24-35 | in guarded logs no order falls back, changes owner, or leaves a final status |
| Ledger.UnguardedMarkCreditsAgain | internal/gophermart/repository/sqldatabase/store_order.go:155-167 | the store alone credits an order again exactly when it was processed before |
| RowLocks.CommitIsAtomic | internal/gophermart/repository/sqldatabase/transaction.go:19-32 | a commit changes the committed tables as if the transaction had run alone at that moment |
| RowLocks.InterleavingsAreSerializable | internal/gophermart/repository/sqldatabase/transaction.go:19-32 | for any interleaving of statements, commits and rollbacks the committed tables are those of the committed transactions in commit order |
| RowLocks.CommittedMoneyIsConserved | internal/gophermart/repository/sqldatabase/store_balance.go:125-191 | conservation of money at every moment of every interleaving |
| RowLocks.CommitSparesOthers | internal/gophermart/repository/sqldatabase/store_order.go:247-272 | no transaction changes a row another running one has touched, not even one it looked for in vain |
| RowLocks.ProgramsFollowTableOrder | internal/gophermart/repository/sqldatabase/trx_order.go:42-79 | every transaction takes its locks in one common table order, one row per table |
| RowLocks.NoCircularWait | internal/gophermart/repository/sqldatabase/trx_order.go:42-79 | in every reachable state with running transactions some transaction is not waiting and can execute its next statement or commit |
| Overlap.AnyoneMayBegin | internal/gophermart/repository/sqldatabase/transaction.go:19-32 | whatever is running, a transaction whose caller has found its user and order can begin, and disturbs nobody |
| Overlap.AnyoneMayAbort | internal/gophermart/repository/sqldatabase/transaction.go:19-32 | any running transaction can be rolled back at any moment, and only it disappears |
| Overlap.DifferentRowsOverlap | internal/gophermart/repository/sqldatabase/transaction.go:19-32 | any two transactions without a common row can execute all their statements before either commits |
| Overlap.CreditsToTwoUsersOverlap | internal/gophermart/repository/sqldatabase/trx_order.go:56-79 | for any two users, orders and amounts there is a run from the empty database in which both credits have executed all statements and neither has committed; then both commit and both amounts are there |
| Overlap.WaitsUntilHolderEnds | internal/gophermart/repository/sqldatabase/store_balance.go:125-191 | a transaction that has come to a locked row executes nothing for as long as the holder and it itself are running |
| Overlap.CreditsToOneUserQueueUp | internal/gophermart/repository/sqldatabase/trx_order.go:56-79 | for any two orders of one user there is a run in which the second credit waits at the balance row until the first ends, and then goes on, so that both amounts are there |
| StorageObject.Storage.SetOrderStatus | internal/gophermart/repository/sqldatabase/store_order.go:235-245 | sets the status of an existing order and nothing else, whatever the old status |
| StorageObject.Storage.SetAccrualPoints | internal/gophermart/repository/sqldatabase/store_order.go:247-272 | inserts or overwrites the points of an order |
| StorageObject.Storage.MaybeUpdateBalance | internal/gophermart/repository/sqldatabase/store_balance.go:125-170 | both checks and the update together move the balance, or refuse exactly a negative result |
| StorageObject.Storage.RemoveProcessableOrder | internal/gophermart/repository/sqldatabase/store_processable_order.go:69-87 | removes the queue row; a missing row is no error |
| StorageObject.Storage.TransactionCreateUserAndBalance | internal/gophermart/repository/sqldatabase/trx_user.go:11-41 | user and zero balance row are inserted together or not at all |
| StorageObject.Storage.TransactionCreateOrder | internal/gophermart/repository/sqldatabase/trx_order.go:12-40 | order and queue row are inserted together or not at all |
| StorageObject.Storage.TransactionMarkOrderInvalid | internal/gophermart/repository/sqldatabase/trx_order.go:42-54 | status and queue row change together or not at all, for a break at any statement |
| StorageObject.Storage.TransactionMarkOrderProcessed | internal/gophermart/repository/sqldatabase/trx_order.go:56-79 | status, points, balance and queue row change together or not at all, for a break at any statement or a lost reply |
| StorageObject.Storage.TransactionWithdrawFunds | internal/gophermart/repository/sqldatabase/trx_balance.go:10-24 | balance and withdrawal row change together or not at all |
| StorageObject.Storage.TransactionPostponeOrderProcessing | internal/gophermart/repository/sqldatabase/trx_processable_order.go:13-36 | the queue row gets the new time and one retry more; a missing row is an error |
| StorageObject.Storage.Finish | internal/gophermart/repository/sqldatabase/transaction.go:19-32 | any error restores all tables |
| StorageObject.Storage.CreateUser | internal/gophermart/repository/sqldatabase/store_user.go:18-39 | refuses an existing user without a change, else runs the transaction |
| StorageObject.Storage.CreateOrder | internal/gophermart/repository/sqldatabase/store_order.go:19-34 | creates the order for an existing user, or reports the owner of an existing one without a change and without an error |
| StorageObject.Storage.GetOrderBelongingToUser | internal/gophermart/repository/sqldatabase/store_order.go:207-233 | the stored row of the user's own order; "user not found" exactly for an unknown user, "order not found" exactly for a known user and a missing or foreign order |
| StorageObject.Storage.GetOrderStatus | internal/gophermart/repository/sqldatabase/store_order.go:105-116 | the stored status exactly when the user exists and owns the order; each error exactly in its own case, and the status then reads Invalid |
| StorageObject.Storage.MarkOrderProcessing | internal/gophermart/repository/sqldatabase/store_order.go:123-130 | status change for the user's own order, else an error and no change |
| StorageObject.Storage.MarkOrderInvalid | internal/gophermart/repository/sqldatabase/store_order.go:137-144 | the transaction for the user's own order, else an error and no change |
| StorageObject.Storage.MarkOrderProcessed | internal/gophermart/repository/sqldatabase/store_order.go:155-167 | the transaction for the user's own order, else an error and no change |
| StorageObject.Storage.WithdrawFunds | internal/gophermart/repository/sqldatabase/store_balance.go:18-39 | runs the withdrawal for an existing user; true exactly without an error |
| StorageObject.Storage.GetNextProcessableOrder | internal/gophermart/repository/sqldatabase/store_processable_order.go:19-45 | an open, queued and due order that is neither excluded nor locked and has been due longest, with its owner and retries; none exactly when there is no such order |
| Effects.FoundExactlyWhenDueLongest | internal/gophermart/repository/sqldatabase/store_processable_order.go:25-30 | the processor's query answers with exactly the new or processing orders whose time has come, that are not excluded, and whose process time no other such order precedes |
| Effects.EarlierDueIsFoundFirst | internal/gophermart/repository/sqldatabase/store_processable_order.go:25-30 | of two orders that are due together and found one after the other, without a postponement in between, the one with the earlier process time is found first, however many steps lie between |
| Processing.SkippingLockedRowsChangesNothing | internal/gophermart/repository/sqldatabase/store_processable_order.go:25-30 | in every reachable state the orders whose rows the processor has locked are excluded from the query anyway, so skipping them changes no answer |
| StorageObject.Storage.PostponeOrderProcessing | internal/gophermart/repository/sqldatabase/store_processable_order.go:50-56 | runs the postponement transaction |
| Reference.TestOrderRepository.MarkOrderInvalid | internal/test/fakes/gophermart/service/workers/order_repository.go:271-308 | refuses processed orders and foreign users, else marks the order |
| Reference.TestOrderRepository.MarkOrderProcessing | internal/test/fakes/gophermart/service/workers/order_repository.go:310-352 | refuses final statuses, succeeds without a change for Processing |
| Reference.TestOrderRepository.MarkOrderProcessed | internal/test/fakes/gophermart/service/workers/order_repository.go:354-401 | refuses invalid orders, succeeds without a second credit for processed ones |
| Reference.TestOrderRepository.PostponeOrderProcessing | internal/test/fakes/gophermart/service/workers/order_repository.go:202-233 | moves the row of an open order only |
| Reference.TestOrderRepository.GetProcessableOrders | internal/test/fakes/gophermart/service/workers/order_repository.go:448-476 | exactly the open, not excluded, queued and due orders |
| Reference.TestOrderRepository.Setup | internal/test/fakes/gophermart/service/workers/order_repository.go:119-125 | replaces the data and queues exactly the open orders, due at once and without retries |
| Reference.TestOrderRepository.PopulateQueue | internal/test/fakes/gophermart/service/workers/order_repository.go:478-495 | queues exactly the open orders, due at once and without retries |
| Reference.StoreRefinesReference | internal/test/fakes/gophermart/service/workers/order_repository.go:271-401 | on every guarded log no guard refuses anything and statuses, points, balances and queue agree |
| Reference.AgreeingStoresOfferTheSame | internal/test/fakes/gophermart/service/workers/order_repository.go:448-476 | agreeing stores have the same orders ready for dispatch |
| Reference.AgreementNeedsTheGuard | internal/gophermart/repository/sqldatabase/store_order.go:123-167 | an unguarded Mark call keeps the agreement if and only if the guard would have let it pass or it changes nothing |
| ProcessorState.OrderProcessorState.AddPendingOrder | internal/gophermart/service/workers/order_processor_state.go:210-237 | ignored when stopped; else the order is pending and the timer is only ever moved later |
| ProcessorState.OrderProcessorState.RemovePendingOrder | internal/gophermart/service/workers/order_processor_state.go:239-253 | removes exactly this order from the pending set |
| ProcessorState.OrderProcessorState.IncrementEventsInFlight | internal/gophermart/service/workers/order_processor_state.go:262-275 | adds exactly this order to the in-flight set |
| ProcessorState.OrderProcessorState.DecrementEventsInFlight | internal/gophermart/service/workers/order_processor_state.go:97-111 | removes exactly this order from the in-flight set |
| ProcessorState.OrderProcessorState.TriggerQueueProcessing | internal/gophermart/service/workers/order_processor_state.go:121-131 | without concurrent callers leaves one token in the channel |
| ProcessorState.OrderProcessorState.Start | internal/gophermart/service/workers/order_processor_state.go:147-158 | running and started, nothing else changed |
| ProcessorState.OrderProcessorState.Stop | internal/gophermart/service/workers/order_processor_state.go:176-190 | clears pending orders and the timer but not the wake-up time |
| ProcessorState.OrderProcessorState.HasFinished | internal/gophermart/service/workers/order_processor_state.go:195-208 | true exactly when nothing is in flight and nothing is pending |
| ProcessorState.OrderProcessorState.NextEvent | internal/gophermart/service/workers/order_processor_state.go:66-92 | takes the longest due order that is neither in flight nor locked, moves it from pending to in flight; none without a change |
| ProcessorState.OrderProcessorState.EnqueueEvent | internal/gophermart/service/workers/order_processor_state.go:45-61 | an order becomes pending only when its postponement was stored and reported |
| Worker.OrderEventWorker.ProcessEvent | internal/gophermart/service/workers/order_event_worker.go:54-138 | asks only about open orders, leaves settled ones alone, moves the pause only on "too many requests", and passes the answer on; every way not to get an answer has its own error |
| Worker.OrderEventWorker.ProcessAccrualClientOrder | internal/gophermart/service/workers/order_event_worker.go:140-171 | on a healthy database credits the points of an accrued order once and ends it, ends a rejected or unknown one without points, notes the others as processing and not ready, and leaves a missing or foreign order alone with its error |
| Effects.AnswersTakeEffect | internal/gophermart/service/workers/order_event_worker.go:140-171 | in every reachable state the order that a worker is about to mark is its own event's, open, and of a user with a balance, and the Mark step does to the tables what the answer is for |
| Effects.AnswersAreFree | internal/gophermart/service/workers/order_event_worker.go:54-138 | reads, requests, Mark calls and postponements can fail or succeed in every way, with every answer about the order |
| Pool.OrderEventWorkerPool.SetPoolSize | internal/gophermart/service/workers/order_event_worker_pool.go:48-54 | at least one worker |
| Pool.OrderEventWorkerPool.Start | internal/gophermart/service/workers/order_event_worker_pool.go:58-72 | one idle worker and one channel place per unit of the pool size, as in the transition system |
| Pool.OrderEventWorkerPool.TakeEvent | internal/gophermart/service/workers/order_event_worker_pool.go:87-93 | appends the event to the work channel, as in the transition system |
| Pool.OrderEventWorkerPool.CloseOutgoing | internal/gophermart/service/workers/order_event_worker_pool.go:75-76 | closes the work channel, as in the transition system |
| Pool.WorkIsReceivedInOrder | internal/gophermart/service/workers/order_event_worker_pool.go:58-93 | over any steps of one pool the workers receive what was in the channel and what was handed over, in that order, but for what is left in the channel |
| Pool.ReceivedEventsAreReported | internal/gophermart/service/workers/order_event_worker.go:38-52 | over any steps of one pool every event a worker has or receives is reported, but for those a worker still has |
| Pool.PoolFinishesItsWork | internal/gophermart/service/workers/order_event_worker_pool.go:75-83 | when a run has returned its workers have received exactly the events handed over, in order, and reported each exactly once |
| Processor.OrderProcessor.StartEnqueueingProcessableOrders | internal/gophermart/service/workers/order_processor.go:164-170 | a preloading start leaves a token in the channel |
| Processor.OrderProcessor.ProcessCallback | internal/gophermart/service/workers/order_processor.go:252-270 | puts a retryable event back unless the context has expired, and in every case ends with the order out of the in-flight set |
| Processor.CallbackStepsAreProcessCallback | internal/gophermart/service/workers/order_processor.go:252-270 | the transition system's callback steps for one result have exactly this effect |
| Processor.MainStepsAreNextEvent | internal/gophermart/service/workers/order_processor_state.go:66-92 | the transition system's steps from the snapshot on have exactly the effect of NextEvent, whether an order is found, none is, or the query fails |
| Processor.WorkerStepsAreProcessEvent | internal/gophermart/service/workers/order_event_worker.go:44-113 | the transition system's worker steps have exactly the effect of ProcessEvent: for a cancelled run, a failed status read, a missing, foreign or settled order, a rate limit, a failed request and every answer |
| Trigger.SendersWaitExactlyAfterAFill | internal/gophermart/service/workers/order_processor_state.go:121-131 | after any steps the channel is full, and every sender has to wait, if and only if the last step that fills or empties it fills it, or none does and it was full before |
| Trigger.TriggerCanBlock | internal/gophermart/service/workers/order_processor_state.go:121-131 | from any state with two callers before their drain there are steps after which one of them is blocked |
| Trigger.StartCanBlock | internal/gophermart/service/workers/order_processor.go:119-125 | from any state with a start and a caller before their drain there are steps after which the start is blocked and that caller has returned |
| Trigger.StartCanBlockForGood | internal/gophermart/service/workers/order_processor.go:119-125 | a run from the empty database after which a cancelled start is blocked, nothing of the processor can move, and it stays so under every continuation without a new order or a crash |
| Trigger.BlockedUntilRescued | internal/gophermart/service/workers/order_processor_state.go:121-131 | a blocked start goes on only after a further caller's drain or a crash |
| Trigger.StartSucceedsUnlessBlocked | internal/gophermart/service/workers/order_processor.go:119-125 | cancelled or not, a run gets from its start to its main loop by its own steps if and only if it is not blocked, for every pool size |
| Services.OrderManager.CreateOrder | internal/gophermart/service/order_mgr.go:29-45 | notifies only after a reported commit; an existing order is reported with its owner and nothing changes, an unknown user is refused, and a healthy call for a known user creates an order that is new to orders and queue |
| Effects.EnvironmentIsFree | internal/gophermart/service/order_mgr.go:29-45 | calls of the application, time and crashes are never held back by the processor or by each other |
| Effects.CrashCancelAndClockAct | internal/gophermart/service/workers/order_processor.go:119-130 | a crash leaves only the tables and the time, a cancel only the run's context changed, and the clock only the time |
| Effects.SpendMovesMoney | internal/gophermart/service/balance_mgr.go:61-81 | in every reachable state a payment of a positive amount that the balance covers, for an order without a withdrawal, moves it from current to withdrawn and leaves its row; every other payment changes nothing |
| Effects.RegisterAddsUser | internal/gophermart/repository/sqldatabase/store_user.go:18-39 | in every reachable state a registration adds a new user with an empty balance, and nothing for a known one |
| Effects.SubmitAddsOrder | internal/gophermart/service/order_mgr.go:29-45 | in every reachable state a known user's new order is stored and queued for now, and its caller goes on to notify exactly when it was told of the commit; every other creation changes nothing |
| Services.BalanceManager.PayForOrderFromBalance | internal/gophermart/service/balance_mgr.go:61-81 | non-positive amounts are refused first; a positive one is refused for funds exactly when it exceeds the balance, and a payment moves it from current to withdrawn |
| SingleFlight.SingleFlight | internal/gophermart/service/workers/order_processor_state.go:76-82 | in every reachable state an order in flight has exactly one holder among all stages and any other order has none |
| SingleFlight.InFlightIsBounded | internal/gophermart/service/workers/order_event_worker_pool.go:58-67 | at most 2 * poolSize + 3 orders are in flight |
| SingleFlight.SendsFindTheirChannelOpen | internal/gophermart/service/workers/order_event_worker_pool.go:75-93 | no reachable step sends on, or closes, a closed work or callback channel |
| SingleFlight.FinishedUntilNextDispatch | internal/gophermart/service/workers/order_processor.go:119-130 | nothing is in flight or pending when no run is active, nor in a new run until it dispatches |
| Processing.NoGuardIsEverNeeded | internal/gophermart/service/workers/order_event_worker.go:54-113 | in every reachable state all Mark transactions ever committed found their order open |
| Processing.OrdersAreCreditedOnce | internal/gophermart/repository/sqldatabase/trx_order.go:56-79 | over all runs, cancels, crashes and lost replies an order is credited at most once, exactly when it is processed, and is queued exactly while it is open |
| Processing.BalancesAreEarned | internal/gophermart/repository/sqldatabase/store_balance.go:125-191 | every user's balance is non-negative and with the withdrawals equals the points of the user's processed orders |
| Processing.FinalStatusesAreAbsorbing | internal/gophermart/service/workers/order_event_worker.go:96-101 | from any reachable state on, no order's status falls back and final ones never change |
| Processing.StoreAndReferenceAgree | internal/gophermart/repository/sqldatabase/store_order.go:123-167 | in every reachable state the unguarded store agrees with the guarded repository |
| Processing.RetriesAgreeWithTheQueue | internal/gophermart/service/workers/order_processor.go:258-269 | every event up to its own postponement has the retry count of its stored row |
| Processing.DispatchRespectsPostponement | internal/gophermart/service/workers/order_processor_state.go:66-92 | an order is dispatched no earlier than it was last put off to, and while nobody holds it |
| Notification.NoNotificationIsLost | internal/gophermart/service/workers/order_processor.go:188-225 | when a healthy processor is idle every announced order has been handed to a worker of the latest run |
| Notification.AnnouncedUntilHandedOut | internal/gophermart/service/order_mgr.go:29-45 | a successful creation announces its order and a preloading start every order that is due; each stays announced until it is handed out, and for the rest of the run |
| Notification.PreloadingHandsOutWhatIsDue | internal/gophermart/service/workers/order_processor.go:164-170 | every order due at a preloading start, also one that an earlier run or process left unfinished, has been handed to a worker of this run when it is idle and healthy |
| Shutdown.SomeEventCanMove | internal/gophermart/service/workers/order_event_worker.go:173-183 | while an order is in flight some stage can take its event further, for every pool size |
| Shutdown.NoDeadlock | internal/gophermart/service/workers/order_event_worker_pool.go:75-93 | no reachable state with orders in flight is stuck |
| Shutdown.CancelledRunsAreBounded | internal/gophermart/service/workers/order_processor.go:273-291 | after a cancel at any point every step of the run takes one off the work left, except a signal picked by the select, which adds one, and the launch of a pool of N, which adds N - 2 |
| Shutdown.CancelledRunCanReturn | internal/gophermart/service/workers/order_processor.go:119-130 | a cancelled run that is not blocked in its start has a continuation of its own steps, no longer than the work left plus the pool size, after which it has returned with nothing in flight or pending |
| Shutdown.CancelledRunReturnsUnlessBlocked | internal/gophermart/service/workers/order_processor.go:119-130 | from every cancelled state the run can return by its own steps if and only if it is not blocked on its own notification, for every pool size |
| Wakeups.TicksFindPendingOrdersDue | internal/gophermart/service/workers/order_processor_state.go:210-237 | at every tick of the timer every pending order is open, queued and due |
| Stranded.NoTimerExactlyForStranded | internal/gophermart/service/workers/order_processor_state.go:210-237 | at the select of every reachable state a pending order has no armed timer if and only if, since the timer was last armed, it was added with an earlier time than the wake-up time and no timer, a tick was taken between its addition and its release, or a search for it was abandoned; in a healthy run only the first two occur |
| StrandedRuns.TickBeforeReleaseLeavesBehind | internal/gophermart/service/workers/order_processor.go:252-270 | a first run from the empty database, for every process time, after which a due order is pending, not in flight, and no step of the processor is possible |
| StrandedRuns.StaleWakeupTimeLeavesBehind | internal/gophermart/service/workers/order_processor_state.go:176-237 | the same after two runs, for every two process times of which the later is that of the first run |
| StrandedRuns.TickBeforeAdditionLeavesBehind | internal/gophermart/service/workers/order_processor_state.go:210-237 | the same within one run, where the tick for the order with the later time comes between the decision on the earlier one and its addition |
| StrandedRuns.UnreportedPostponementLeavesBehind | internal/gophermart/service/workers/order_processor_state.go:41-61 | the same for an order whose postponement broke or was stored without a reply, for every process time: due, not pending, not in flight, not stranded |
| Resumption.ResumedExactlyUnlessUnreportedOrStranded | internal/gophermart/service/workers/order_processor_state.go:45-61 | at the select of every reachable healthy state an open order that the run has handed out and that is not in flight is pending under an armed timer if and only if its last postponement was reported and it is not stranded |
| Wakeups.WakeupTimeNeverGoesBack | internal/gophermart/service/workers/order_processor_state.go:225-231 | the wake-up time only moves forward while the process lives |
| RateLimit.AtMostOneEarlyRequestPerWorker | internal/gophermart/service/workers/order_event_worker.go:115-138 | against a server that answers every request with "retry after R" or more, N workers send at most N requests before the first answer's time plus R, and one more for each request of theirs that a time-out cuts off |
| RateLimit.PauseLastsAsLongAsAsked | internal/gophermart/service/workers/order_event_worker.go:128-135 | the pause that is stored ends exactly the asked time after its answer arrived, whatever happens before it is stored |
| RateLimit.WorkerMaySendOncePaused | internal/gophermart/service/workers/order_event_worker.go:199-207 | a worker that has read the pause may send if and only if the pause has passed |
| RateLimit.CutOffFreesWorker | internal/gophermart/service/workers/order_event_worker.go:115-138 | any request can be cut off, which frees its worker and stores no pause |
| RateLimit.EarlyRequestsCanReachPoolSize | internal/gophermart/service/workers/order_event_worker.go:185-207 | the bound is attained |

## Left out

- Wakeups.TicksFindPendingOrdersDue: does not say that every pending order is woken, nor that a tick finds an order out of flight, because the code ensures neither (`Stranded.NoTimerExactlyForStranded`).
- Stranded.NoTimerExactlyForStranded: speaks of pending orders; `Resumption.ResumedExactlyUnlessUnreportedOrStranded` covers those that never became pending. The causes are observations kept beside the state (`Pipeline.Seen`); a later arming of the timer clears them, because that timer serves every pending order.
- Notification.NoNotificationIsLost: holds for runs that preload or have been healthy from the start, as the code needs both a notification and a successful query to see an order. A preloading start announces what is due at that moment; the orders put off to later are the timer's.
- RateLimit.AtMostOneEarlyRequestPerWorker: covers the workers of one run, and a server whose answers are all "too many requests".
- Shutdown.CancelledRunCanReturn: no fairness of the Go scheduler is assumed, so it names a continuation instead of claiming that every one is taken; the callers of CreateOrder may keep the select busy.
- OrderEvents.NewOrderEventDelayConfig: what the conversion of the logarithm of a non-positive initial delay gives is not fixed by the language, so it is an input.
- Pipeline: blocking channel operations are steps that are not enabled. The pause of the workers is only in `RateLimit`, the choice of a retry's time only in `OrderEvents`; here a request may fail at any time and an event may be put off to any time. Retry counts are unbounded.
- RowLocks: a statement also waits for an uncommitted insert of its row that PostgreSQL would not show it; foreign keys and SQLite's own locking are not modelled. In `Pipeline` the queue query does not skip locked rows; `Processing.SkippingLockedRowsChangesNothing` shows that it need not.
- The shutdown time-out: the code creates a context for it that nothing waits on.
- HTTP handlers, validation of requests, configuration, logging, migrations, passwords and tokens: input, output and library glue.
- The accrual HTTP client, including its conversion of Retry-After: the delay is an input.
- The delay functions of the retry library: only the shifted back-off, the non-negative jitter and the saturating sum are taken over.
- Floating-point rounding and amounts finer than 10^-4: amounts are scaled integers.
- GetOrders, GetOrderAccruals, GetBalance, GetTotalAmountWithdrawn and GetWithdrawalTransactions: reads without a branch that matters, and one library sort each.
- The wake-up counter, numeric user ids and time stamps of orders and withdrawals: nothing depends on them.
- Error injection and delays of the guarded repository: one injected error per call is an input.
