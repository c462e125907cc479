/** The service calls in front of the store (order_mgr.go, balance_mgr.go). */
module Services {
  import opened Common
  import opened Tables
  import opened Processor
  import StorageObject

  datatype PaymentError = Paid | AmountIsNotPositive | CannotWithdraw(error: StorageObject.Error)

  datatype CreationError = Created | OrderIdAlreadyExists(owner: UserId) | CannotCreate(error: StorageObject.Error)

  class OrderManager {
    const orderRepo: StorageObject.Storage
    const orderProcessor: OrderProcessor

    constructor (orderRepo: StorageObject.Storage, orderProcessor: OrderProcessor)
      ensures this.orderRepo == orderRepo && this.orderProcessor == orderProcessor
    {
      this.orderRepo, this.orderProcessor := orderRepo, orderProcessor;
    }

    /** The processor is notified after the commit, and only when the call can tell that it happened. */
    method CreateOrder(u: UserId, o: OrderId, now: Time, lookupFails: bool, fault: int, losesReply: bool)
      returns (result: CreationError)
      requires orderProcessor.state.Valid()
      modifies orderRepo, orderProcessor.state
      ensures orderProcessor.state.Valid()
      ensures orderProcessor.state.State()
           == old(orderProcessor.state.State()).(notified := result == Created || old(orderProcessor.state.notifyCh))
      ensures result == Created ==>
        && u in old(orderRepo.users) && o !in old(orderRepo.orders)
        && Committed(orderRepo.Tables()) == Transact(Op.CreateOrder(o, u, now), old(orderRepo.Tables()))
      ensures result.OrderIdAlreadyExists? ==>
        && o in old(orderRepo.orders) && result.owner == old(orderRepo.orders)[o].user
        && orderRepo.Tables() == old(orderRepo.Tables())
      ensures lookupFails ==> result == CannotCreate(StorageObject.DatabaseError)
      ensures !lookupFails && u !in old(orderRepo.users) ==> result == CannotCreate(StorageObject.UserNotFound)
      ensures !lookupFails && u in old(orderRepo.users) && o in old(orderRepo.orders) ==> result.OrderIdAlreadyExists?
      ensures !lookupFails && u in old(orderRepo.users) && o !in old(orderRepo.orders) ==>
        !result.OrderIdAlreadyExists?
        && (!(0 <= fault < 2) && !losesReply ==> (result == Created <==> o !in old(orderRepo.queue)))
      ensures result.CannotCreate? && orderRepo.Tables() != old(orderRepo.Tables()) ==> losesReply
    {
      var created, owner, err := orderRepo.CreateOrder(u, o, now, lookupFails, fault, losesReply);
      if err != StorageObject.NoError {
        return CannotCreate(err);
      }
      if !created {
        return OrderIdAlreadyExists(owner.value);
      }
      orderProcessor.NewOrderArrived();
      result := Created;
    }
  }

  /** On a healthy database a positive amount is refused for lack of funds exactly when it exceeds the
  balance, and paid exactly when the balance covers it and the order has no withdrawal yet. */
  predicate PaidAsTheBalanceAllows(db: Db, u: UserId, o: OrderId, amount: Money, result: PaymentError) {
    amount > 0 && u in db.users && u in db.balances ==>
      var enough := amount <= db.balances[u].current;
      && (result == CannotWithdraw(StorageObject.BalanceNotEnoughFunds) <==> !enough)
      && (result == Paid <==> enough && o !in db.withdrawals)
  }

  class BalanceManager {
    const balanceRepo: StorageObject.Storage

    constructor (balanceRepo: StorageObject.Storage)
      ensures this.balanceRepo == balanceRepo
    {
      this.balanceRepo := balanceRepo;
    }

    /** A payment moves money from current to withdrawn and leaves a withdrawal row; a refusal that the
    caller can rely on leaves all tables as they were. */
    method PayForOrderFromBalance(u: UserId, o: OrderId, amount: Money, lookupFails: bool, fault: int, losesReply: bool)
      returns (result: PaymentError)
      modifies balanceRepo
      ensures amount <= 0 <==> result == AmountIsNotPositive
      ensures result == Paid ==>
        && u in old(balanceRepo.balances) && amount <= old(balanceRepo.balances)[u].current
        && var row := old(balanceRepo.balances)[u];
           balanceRepo.Tables() == old(balanceRepo.Tables()).(
             balances := old(balanceRepo.balances)[u := BalanceRow(row.current - amount, row.withdrawn + amount)],
             withdrawals := old(balanceRepo.withdrawals)[o := WithdrawalRow(u, amount)])
      ensures result != Paid && !losesReply ==> balanceRepo.Tables() == old(balanceRepo.Tables())
      ensures !lookupFails && !(0 <= fault < 4) && !losesReply ==>
        PaidAsTheBalanceAllows(old(balanceRepo.Tables()), u, o, amount, result)
    {
      if amount <= 0 {
        return AmountIsNotPositive;
      }
      var success, err := balanceRepo.WithdrawFunds(u, o, amount, lookupFails, fault, losesReply);
      if err != StorageObject.NoError {
        return CannotWithdraw(err);
      }
      if !success {
        return CannotWithdraw(StorageObject.BalanceNotEnoughFunds);
      }
      result := Paid;
    }
  }
}
