/** Order finalization (NotificationServiceImpl and RedisOrderStore): look the
    order up, then overwrite it with a terminal status. */
module Notification {
  import opened Wrappers
  import opened OrderModel
  import opened Redis

  /** The key the finalization side reads and writes. */
  function OrderKey(orderId: string): (k: string)
    ensures |k| == |orderId| + 6 && k[6..] == orderId
  {
    "order:" + orderId
  }

  /** Distinct orders have distinct keys. */
  lemma OrderKeyInjective(a: string, b: string)
    ensures OrderKey(a) == OrderKey(b) <==> a == b
  {
    if OrderKey(a) == OrderKey(b) {
      assert a == OrderKey(a)[6..];
    }
  }

  datatype MissingItem = MissingItem(productId: string, reason: string)

  /** The result as the notification service receives it. */
  datatype InventoryCheckResult = InventoryCheckResult(orderId: string, missingItems: Option<seq<MissingItem>>, approved: bool)

  function NewStatus(approved: bool): OrderStatus
  {
    if approved then Completed else Rejected
  }

  /** The copy written back: every field of the stored record, and the new status. */
  function Finalized(saved: OrderRecord, approved: bool): OrderRecord
  {
    OrderRecord(saved.orderId, saved.customerName, saved.items, saved.requestedAt, saved.createdAt, NewStatus(approved))
  }

  /** The copy differs from the stored record in its status only, the status is
      terminal and follows the approval, and finalizing again changes nothing. */
  lemma FinalizedKeepsOrder(saved: OrderRecord, approved: bool)
    ensures var f := Finalized(saved, approved);
      && f == saved.(status := f.status)
      && (f.status == Completed <==> approved)
      && (f.status == Rejected <==> !approved)
      && Finalized(f, approved) == f
  {
  }

  /** The store after processing a result whose lookup and write both go
      through: the record found under the result's key is rewritten, without
      TTL, under the key of its own orderId; no record found, no change. */
  function FinalizeStore(entries: map<string, Entry>, orderId: string, approved: bool): map<string, Entry>
  {
    if OrderKey(orderId) in entries then
      var saved := entries[OrderKey(orderId)].record;
      entries[OrderKey(saved.orderId) := Entry(Finalized(saved, approved), None)]
    else entries
  }

  /** Processing the same result twice leaves the store as processing it once. */
  lemma FinalizeStoreIdempotent(entries: map<string, Entry>, orderId: string, approved: bool)
    ensures FinalizeStore(FinalizeStore(entries, orderId, approved), orderId, approved)
         == FinalizeStore(entries, orderId, approved)
  {
    if OrderKey(orderId) in entries {
      var saved := entries[OrderKey(orderId)].record;
      OrderKeyInjective(saved.orderId, orderId);
    }
  }

  /** There is no guard on the current status: a later result overwrites a
      terminal order. */
  lemma TerminalOrderIsOverwritten(entries: map<string, Entry>, orderId: string)
    requires OrderKey(orderId) in entries && entries[OrderKey(orderId)].record.orderId == orderId
    ensures var once := FinalizeStore(entries, orderId, true);
      && once[OrderKey(orderId)].record.status == Completed
      && FinalizeStore(once, orderId, false)[OrderKey(orderId)].record.status == Rejected
  {
  }

  class RedisOrderStore {
    const redis: RedisStore

    constructor (redis: RedisStore)
      ensures this.redis == redis
    {
      this.redis := redis;
    }

    /** getOrderById: the record under the order's key, or none. */
    method GetOrderById(orderId: string, fails: bool) returns (r: Result<Option<OrderRecord>, StoreError>)
      modifies redis
      ensures redis.entries == old(redis.entries)
      ensures redis.log == old(redis.log) + [GetCmd(OrderKey(orderId))]
      ensures fails ==> r == Err(BackendError)
      ensures !fails ==> r == Ok(if OrderKey(orderId) in redis.entries
                                 then Some(redis.entries[OrderKey(orderId)].record) else None)
    {
      r := redis.Get(OrderKey(orderId), fails);
    }

    /** deleteOrder: removes the key and passes on whether it existed. */
    method DeleteOrder(orderId: string, fails: bool) returns (r: Result<bool, StoreError>)
      modifies redis
      ensures redis.log == old(redis.log) + [DeleteCmd(OrderKey(orderId))]
      ensures fails ==> redis.entries == old(redis.entries) && r == Err(BackendError)
      ensures !fails ==> redis.entries == old(redis.entries) - {OrderKey(orderId)}
                         && r == Ok(OrderKey(orderId) in old(redis.entries))
    {
      r := redis.Delete(OrderKey(orderId), fails);
    }

    /** updateOrderStatus: a full replace of the record under its own key; true
        whenever the SET completes, even when it reports false, and false only
        on a backend error. */
    method UpdateOrderStatus(record: OrderRecord, outcome: SetOutcome) returns (updated: bool)
      modifies redis
      ensures updated <==> outcome != Raised
      ensures redis.log == old(redis.log) + [SetCmd(OrderKey(record.orderId))]
      ensures redis.entries ==
        if outcome == Stored then old(redis.entries)[OrderKey(record.orderId) := Entry(record, None)]
        else old(redis.entries)
    {
      var r := redis.Set(OrderKey(record.orderId), record, None, outcome);
      updated := r.Ok?;
    }
  }

  class NotificationServiceImpl {
    const orderStore: RedisOrderStore

    constructor (orderStore: RedisOrderStore)
      ensures this.orderStore == orderStore
    {
      this.orderStore := orderStore;
    }

    /** processInventoryCheckResult: one lookup; if the order is found, one
        write of its terminal copy (a failed write is only logged); if not, no
        write and no error. A lookup error propagates. The missing items are
        only logged. */
    method ProcessInventoryCheckResult(result: InventoryCheckResult, lookupFails: bool, writeOutcome: SetOutcome)
      returns (r: Outcome<StoreError>)
      modifies orderStore.redis
      ensures r == if lookupFails then Fail(BackendError) else Pass
      ensures var key := OrderKey(result.orderId);
        if lookupFails || key !in old(orderStore.redis.entries) then
          && orderStore.redis.entries == old(orderStore.redis.entries)
          && orderStore.redis.log == old(orderStore.redis.log) + [GetCmd(key)]
        else
          var saved := old(orderStore.redis.entries)[key].record;
          && orderStore.redis.log == old(orderStore.redis.log) + [GetCmd(key), SetCmd(OrderKey(saved.orderId))]
          && orderStore.redis.entries ==
               if writeOutcome == Stored then FinalizeStore(old(orderStore.redis.entries), result.orderId, result.approved)
               else old(orderStore.redis.entries)
    {
      var orderId := result.orderId;
      var found := orderStore.GetOrderById(orderId, lookupFails);
      if found.Err? {
        return Fail(found.error);
      }
      r := Pass;
      match found.value
      case Some(savedOrder) =>
        var newStatus := NewStatus(result.approved);
        var updatedOrder := OrderRecord(savedOrder.orderId, savedOrder.customerName, savedOrder.items,
                                        savedOrder.requestedAt, savedOrder.createdAt, newStatus);
        var _ := orderStore.UpdateOrderStatus(updatedOrder, writeOutcome);
      case None =>
    }
  }
}
