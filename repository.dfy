/** The repository the view models and the worker use. Every member forwards
    to the DAO member of the same name with the same arguments and hands back
    its result, DAO failures included; the one rule of its own is that a null
    total reads as 0.0. */
module Repository {
  import opened Wrappers
  import opened Entity
  import opened Dao

  class SubscriptionRepository {
    const dao: SubscriptionDao

    constructor (dao: SubscriptionDao)
      ensures this.dao == dao
    {
      this.dao := dao;
    }

    function GetAllActiveSubscriptions(): (r: seq<Subscription>)
      reads dao
      ensures r == Dao.GetAllActiveSubscriptions(dao.rows)
    {
      Dao.GetAllActiveSubscriptions(dao.rows)
    }

    /** A missing id gives None, not an error. */
    function GetSubscriptionById(id: int): (r: Option<Subscription>)
      reads dao
      ensures r == Dao.GetSubscriptionById(dao.rows, id)
      ensures r.None? <==> id !in dao.rows
    {
      Dao.GetSubscriptionById(dao.rows, id)
    }

    function GetSubscriptionsByCycle(cycle: PaymentCycle): (r: seq<Subscription>)
      reads dao
      ensures r == Dao.GetSubscriptionsByCycle(dao.rows, cycle)
    {
      Dao.GetSubscriptionsByCycle(dao.rows, cycle)
    }

    function GetSubscriptionsExpiringBetween(start: int, end: int): (r: seq<Subscription>)
      reads dao
      ensures r == Dao.GetSubscriptionsExpiringBetween(dao.rows, start, end)
    {
      Dao.GetSubscriptionsExpiringBetween(dao.rows, start, end)
    }

    /** The DAO's SUM with null read as 0.0: always the sum over the active rows
        of that cycle, 0.0 when there are none. */
    function GetTotalAmountByCycle(cycle: PaymentCycle): (r: real)
      reads dao
      ensures r == CycleSum(dao.rows, cycle)
      ensures Dao.GetTotalAmountByCycle(dao.rows, cycle).None? ==> r == 0.0
      ensures Dao.GetTotalAmountByCycle(dao.rows, cycle).Some? ==> Some(r) == Dao.GetTotalAmountByCycle(dao.rows, cycle)
    {
      Dao.GetTotalAmountByCycle(dao.rows, cycle).GetOr(0.0)
    }

    method InsertSubscription(s: Subscription, fault: bool) returns (r: Result<int, DbError>)
      requires dao.Valid()
      modifies dao
      ensures dao.Valid()
      ensures r == Failure(StorageFailure) <==> fault
      ensures r == Failure(ConstraintViolation) <==> !fault && !IsNew(s) && s.id in old(dao.rows)
      ensures r.Failure? ==> dao.rows == old(dao.rows) && dao.nextId == old(dao.nextId)
      ensures r.Success? ==> r.value == (if IsNew(s) then old(dao.nextId) else s.id)
      ensures r.Success? ==> r.value !in old(dao.rows) && dao.rows == old(dao.rows)[r.value := s.(id := r.value)]
      ensures r.Success? ==> dao.nextId == if r.value < old(dao.nextId) then old(dao.nextId) else r.value + 1
    {
      r := dao.InsertSubscription(s, fault);
    }

    method UpdateSubscription(s: Subscription, fault: bool) returns (r: Outcome<DbError>)
      requires dao.Valid()
      modifies dao
      ensures dao.Valid() && dao.nextId == old(dao.nextId)
      ensures r == (if fault then Fail(StorageFailure) else Pass)
      ensures dao.rows == if fault then old(dao.rows) else Updated(old(dao.rows), s)
    {
      r := dao.UpdateSubscription(s, fault);
    }

    method DeleteSubscription(s: Subscription, fault: bool) returns (r: Outcome<DbError>)
      requires dao.Valid()
      modifies dao
      ensures dao.Valid() && dao.nextId == old(dao.nextId)
      ensures r == (if fault then Fail(StorageFailure) else Pass)
      ensures dao.rows == if fault then old(dao.rows) else Deleted(old(dao.rows), s.id)
    {
      r := dao.DeleteSubscription(s, fault);
    }

    method DeactivateSubscription(id: int, fault: bool) returns (r: Outcome<DbError>)
      requires dao.Valid()
      modifies dao
      ensures dao.Valid() && dao.nextId == old(dao.nextId)
      ensures r == (if fault then Fail(StorageFailure) else Pass)
      ensures dao.rows == if fault then old(dao.rows) else Deactivated(old(dao.rows), id)
    {
      r := dao.DeactivateSubscription(id, fault);
    }
  }
}
