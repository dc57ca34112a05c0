/** The services wired together on one shared store and one bus, and the
    end-to-end scenarios on the start-up catalog and the shared store, checked
    against the operations' contracts. */
module Saga {
  import opened Wrappers
  import opened Categories
  import opened OrderModel
  import opened Time
  import opened Redis
  import opened EventBus
  import opened OrderIntake
  import opened Notification
  import Inv = InventoryModel
  import opened ProductCatalog
  import opened InventoryValidation

  /** The intake side's key never equals the finalization side's key for the
      same order; the two meet only when the finalization side is asked about
      the id "pending:" + orderId. */
  lemma PendingKeyIsNotOrderKey(orderId: string, other: string)
    ensures PendingKey(orderId) != OrderKey(orderId)
    ensures OrderKey(other) == PendingKey(orderId) <==> other == "pending:" + orderId
  {
    if OrderKey(other) == PendingKey(orderId) {
      assert other == OrderKey(other)[6..] == PendingKey(orderId)[6..];
    }
  }

  /** An order taken in by intake is never finalized: the finalization lookup
      reads "order:<id>" while intake wrote "order:pending:<id>", so after a
      result for the order is processed the store still holds only the PENDING
      record, with its TTL. */
  method IntakeThenFinalize(request: CreateOrderRequest, freshId: string, now: Instant, approved: bool)
    returns (entries: map<string, Entry>)
    ensures entries == map[PendingKey(freshId) := Entry(PendingRecord(request, freshId, now), Some(DEFAULT_PENDING_TTL_SECONDS))]
    ensures entries[PendingKey(freshId)].record.status == Pending
  {
    var redis := new RedisStore();
    var pendingStore := new RedisPendingOrderStore(redis);
    var orderEvents := new Outbox<OrderCreatedEvent>();
    var intake := new OrderServiceImpl(pendingStore, orderEvents, None);
    var _ := intake.CreateOrder(request, freshId, now, Stored, false);
    var orderStore := new RedisOrderStore(redis);
    var finalization := new NotificationServiceImpl(orderStore);
    PendingKeyIsNotOrderKey(freshId, freshId);
    var outcome := finalization.ProcessInventoryCheckResult(InventoryCheckResult(freshId, None, approved), false, Stored);
    entries := redis.entries;
  }

  /** A stored order whose TTL elapses before its result arrives: the lookup
      misses, nothing changes and no error is raised. */
  method ExpiredBeforeResult(record: OrderRecord, ttlSeconds: int, approved: bool)
    returns (entries: map<string, Entry>, outcome: Outcome<StoreError>)
    ensures entries == map[] && outcome == Pass
  {
    var redis := new RedisStore();
    var _ := redis.Set(OrderKey(record.orderId), record, Some(ttlSeconds), Stored);
    redis.Expire(OrderKey(record.orderId));
    var orderStore := new RedisOrderStore(redis);
    var finalization := new NotificationServiceImpl(orderStore);
    outcome := finalization.ProcessInventoryCheckResult(InventoryCheckResult(record.orderId, None, approved), false, Stored);
    entries := redis.entries;
  }

  /** A stored order that receives its result: it is rewritten with the
      terminal status that follows the approval and without a TTL. */
  method FinalizeStoredOrder(record: OrderRecord, ttlSeconds: int, approved: bool)
    returns (entries: map<string, Entry>)
    ensures entries == map[OrderKey(record.orderId) := Entry(Finalized(record, approved), None)]
    ensures entries[OrderKey(record.orderId)].record.status == if approved then Completed else Rejected
  {
    var redis := new RedisStore();
    var _ := redis.Set(OrderKey(record.orderId), record, Some(ttlSeconds), Stored);
    var orderStore := new RedisOrderStore(redis);
    var finalization := new NotificationServiceImpl(orderStore);
    var _ := finalization.ProcessInventoryCheckResult(InventoryCheckResult(record.orderId, None, approved), false, Stored);
    entries := redis.entries;
  }

  /** Against the start-up catalog: 5 of the 10 units of standard product P1002
      are approved and leave 5; asking for 15 is rejected with one
      INSUFFICIENT_QUANTITY issue and leaves the catalog as it was. */
  lemma StandardStockScenarios(today: Day)
    ensures var c := SampleCatalog(today);
      var ok := CheckOrder("o1", [Inv.OrderItem("P1002", 5, Some(Standard))], c, today);
      ok.approved && UpdatedCatalog(c, ok)["P1002"].availableQuantity == 5
    ensures var c := SampleCatalog(today);
      var no := CheckOrder("o2", [Inv.OrderItem("P1002", 15, Some(Standard))], c, today);
      !no.approved && |no.issues| == 1 && no.issues[0].issueType == Inv.InsufficientQuantity
      && UpdatedCatalog(c, no) == c
  {
    var c := SampleCatalog(today);
    var ok := ValidatedItems(c, [Inv.OrderItem("P1002", 5, Some(Standard))], today);
    assert LastWrite(ok, "P1002") == Some(5);
    var no := ValidatedItems(c, [Inv.OrderItem("P1002", 15, Some(Standard))], today);
    assert no[..0] == [];
    assert IssuesOf(no) == IssuesOf(no[..0]) + [IssueFor(no[0])];
  }

  /** Against the start-up catalog: the expired yogurt P2002 is rejected with
      EXPIRED_PRODUCT, and an unknown id with PRODUCT_NOT_FOUND and an available
      quantity of 0. */
  lemma RejectionScenarios(today: Day)
    ensures var r := CheckOrder("o3", [Inv.OrderItem("P2002", 1, Some(Perishable))], SampleCatalog(today), today);
      !r.approved && |r.issues| == 1 && r.issues[0].issueType == Inv.ExpiredProduct
    ensures var r := CheckOrder("o4", [Inv.OrderItem("UNKNOWN", 1, Some(Standard))], SampleCatalog(today), today);
      !r.approved && |r.issues| == 1 && r.issues[0].issueType == Inv.ProductNotFound
      && r.validatedItems[0].availableQuantity == 0
  {
    var expired := ValidatedItems(SampleCatalog(today), [Inv.OrderItem("P2002", 1, Some(Perishable))], today);
    assert expired[..0] == [];
    assert IssuesOf(expired) == IssuesOf(expired[..0]) + [IssueFor(expired[0])];
    var unknown := ValidatedItems(SampleCatalog(today), [Inv.OrderItem("UNKNOWN", 1, Some(Standard))], today);
    assert unknown[..0] == [];
    assert IssuesOf(unknown) == IssuesOf(unknown[..0]) + [IssueFor(unknown[0])];
  }

  /** The validation service on the start-up catalog: an approved order of 5
      units of P1002 leaves 5 in stock and publishes one approved event with
      no missing items. */
  method ApprovedOrderEndToEnd(today: Day, now: Instant)
    returns (result: Inv.InventoryCheckResult, stock: int, ghost published: seq<Inv.InventoryCheckResultEvent>)
    ensures result.approved && stock == 5
    ensures |published| == 1 && published[0].approved && published[0].missingItems == None
  {
    var catalog := new InMemoryProductCatalog(today);
    var resultEvents := new Outbox<Inv.InventoryCheckResultEvent>();
    var service := new InventoryValidationService(catalog, resultEvents);
    StandardStockScenarios(today);
    result := service.ValidateOrder("o1", [Inv.OrderItem("P1002", 5, Some(Standard))], today, now, false);
    stock := catalog.products["P1002"].availableQuantity;
    published := resultEvents.sent;
  }
}
