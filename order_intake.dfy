/** Order intake (OrderServiceImpl and RedisPendingOrderStore): a new order is
    stored as PENDING under a TTL key, answered, and announced on the bus. */
module OrderIntake {
  import opened Wrappers
  import opened OrderModel
  import opened Time
  import opened Redis
  import opened EventBus

  /** The configured TTL of a pending order when none is set. */
  const DEFAULT_PENDING_TTL_SECONDS: int := 600

  /** The key a pending order is stored under. */
  function PendingKey(orderId: string): (k: string)
    ensures |k| == |orderId| + 14 && k[14..] == orderId
  {
    "order:pending:" + orderId
  }

  datatype CreateOrderRequest = CreateOrderRequest(customerName: string, items: seq<OrderItem>, requestedAt: Instant)

  datatype OrderResponse = OrderResponse(
    orderId: string,
    customerName: string,
    items: seq<OrderItem>,
    requestedAt: Instant,
    createdAt: Instant,
    status: string)

  datatype OrderCreatedEvent = OrderCreatedEvent(
    orderId: string,
    customerName: string,
    items: seq<OrderItem>,
    requestedAt: Instant,
    createdAt: Instant,
    status: string,
    eventType: string,
    eventTimestamp: Instant)

  /** The record saved for a new order. */
  function PendingRecord(request: CreateOrderRequest, orderId: string, createdAt: Instant): OrderRecord
  {
    OrderRecord(orderId, request.customerName, request.items, request.requestedAt, createdAt, Pending)
  }

  /** The answer to the client. */
  function ResponseFor(request: CreateOrderRequest, orderId: string, createdAt: Instant): OrderResponse
  {
    OrderResponse(orderId, request.customerName, request.items, request.requestedAt, createdAt, "PENDING")
  }

  /** The creation event; both arms of the requestedAt conditional pick the request's timestamp. */
  function CreatedEvent(request: CreateOrderRequest, orderId: string, createdAt: Instant, eventTimestamp: Instant): OrderCreatedEvent
  {
    OrderCreatedEvent(
      orderId, request.customerName, request.items,
      if createdAt > request.requestedAt then request.requestedAt else request.requestedAt,
      createdAt, "CREATED", "ORDER_CREATED", eventTimestamp)
  }

  /** The record, the response and the event describe the same order: same id,
      customer, items and timestamps; the record is PENDING, the response says
      "PENDING" and the event says "CREATED". */
  lemma IntakeArtifactsAgree(request: CreateOrderRequest, orderId: string, createdAt: Instant, eventTimestamp: Instant)
    ensures var rec := PendingRecord(request, orderId, createdAt);
      var resp := ResponseFor(request, orderId, createdAt);
      var ev := CreatedEvent(request, orderId, createdAt, eventTimestamp);
      && rec.orderId == resp.orderId == ev.orderId == orderId
      && rec.customerName == resp.customerName == ev.customerName == request.customerName
      && rec.items == resp.items == ev.items == request.items
      && rec.requestedAt == resp.requestedAt == ev.requestedAt == request.requestedAt
      && rec.createdAt == resp.createdAt == ev.createdAt == createdAt
      && rec.status == Pending && resp.status == "PENDING" && ev.status == "CREATED"
  {
  }

  class RedisPendingOrderStore {
    const redis: RedisStore

    constructor (redis: RedisStore)
      ensures this.redis == redis
    {
      this.redis := redis;
    }

    /** savePending: one SET of the unchanged record under its pending key with
        the given TTL; a backend failure is swallowed and nothing is returned. */
    method SavePending(record: OrderRecord, ttlSeconds: int, outcome: SetOutcome)
      modifies redis
      ensures redis.log == old(redis.log) + [SetCmd(PendingKey(record.orderId))]
      ensures redis.entries ==
        if outcome == Stored then old(redis.entries)[PendingKey(record.orderId) := Entry(record, Some(ttlSeconds))]
        else old(redis.entries)
    {
      var key := PendingKey(record.orderId);
      var _ := redis.Set(key, record, Some(ttlSeconds), outcome);
    }
  }

  class OrderServiceImpl {
    const pendingStore: RedisPendingOrderStore
    const producer: Outbox<OrderCreatedEvent>
    const pendingTtlSeconds: int

    /** `configuredTtl` is the orders.pending.ttl-seconds setting, if present. */
    constructor (pendingStore: RedisPendingOrderStore, producer: Outbox<OrderCreatedEvent>, configuredTtl: Option<int>)
      ensures this.pendingStore == pendingStore && this.producer == producer
      ensures pendingTtlSeconds == if configuredTtl.Some? then configuredTtl.value else DEFAULT_PENDING_TTL_SECONDS
    {
      this.pendingStore := pendingStore;
      this.producer := producer;
      pendingTtlSeconds := if configuredTtl.Some? then configuredTtl.value else DEFAULT_PENDING_TTL_SECONDS;
    }

    /** createOrder: save the PENDING record (exactly one write), build the
        response, then attempt to publish the creation event; a failed publish
        changes neither the response nor the saved record. `freshId` stands for
        the random UUID and `now` for the clock. */
    method CreateOrder(request: CreateOrderRequest, freshId: string, now: Instant,
                       saveOutcome: SetOutcome, publishFails: bool)
      returns (response: OrderResponse)
      modifies pendingStore.redis, producer
      ensures response == ResponseFor(request, freshId, now)
      ensures pendingStore.redis.log == old(pendingStore.redis.log) + [SetCmd(PendingKey(freshId))]
      ensures pendingStore.redis.entries ==
        if saveOutcome == Stored
        then old(pendingStore.redis.entries)[PendingKey(freshId) := Entry(PendingRecord(request, freshId, now), Some(pendingTtlSeconds))]
        else old(pendingStore.redis.entries)
      ensures producer.sent == old(producer.sent) + if publishFails then [] else [CreatedEvent(request, freshId, now, now)]
    {
      var orderId := freshId;
      var createdAt := now;
      var record := PendingRecord(request, orderId, createdAt);
      pendingStore.SavePending(record, pendingTtlSeconds, saveOutcome);
      response := ResponseFor(request, orderId, createdAt);
      var event := CreatedEvent(request, orderId, createdAt, now);
      var _ := producer.Publish(event, publishFails);
    }
  }
}
