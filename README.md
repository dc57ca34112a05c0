# Order saga: inventory validation, order intake and finalization

This project models the core of a three-service order saga.

- **Order intake** (order-service): a customer order becomes a PENDING `OrderRecord`. The record is stored in Redis under `order:pending:<id>` with a TTL of 600 seconds by default. An `OrderCreatedEvent` is then published.
- **Inventory validation** (inventory-service): every line of the order is checked against an in-memory product catalog. The rules depend on the catalog product's category:
  - STANDARD needs enough stock;
  - PERISHABLE also needs the product to be unexpired;
  - DIGITAL needs the product to be active.
  
  The result is approved only when every line is available. For an approved order, the catalog is decremented from the snapshot taken during validation. An `InventoryCheckResultEvent` is then published.
- **Finalization** (notification-service): the stored order is looked up under `order:<id>`. It is rewritten with status COMPLETED or REJECTED and no TTL.
- **Category codec**: the JSON form of a line category is its lower-case name. Parsing trims the text, upper-cases it and looks up the constant. A null input gives null, and an unknown name is an error.

Modules:

- `Categories`: the category codec.
- `InventoryModel`: the inventory records, plus the 32-bit `int` arithmetic of the Java code.
- `ProductCatalog`: the catalog as a class whose map field its methods update.
- `InventoryValidation`: the verdict functions, the specification of the catalog update, the result event, and the service class.
- `OrderModel`, `Redis`, `OrderIntake`, `Notification`: the two stores and the two order services, on one Redis key/value store.
- `EventBus`: a Kafka topic as an outbox of published events.
- `Saga`: the services wired together on one store and one bus, with end-to-end scenarios on the start-up catalog: approval, shortage, expiry, unknown product, TTL expiry before the result, finalization of a stored order, and intake followed by a result for the same order.

Some things are parameters of the operations:

- the current date and time (`today`, `now`);
- the generated order id (`freshId`);
- whether a publish or a store call fails (`publishFails`, `lookupFails`, the `SetOutcome` of a Redis SET).

The lemmas in `InventoryValidation` and `Saga` record two behaviours of the code:

- **Duplicate product lines.** An order can name the same product on two lines. Each line is checked against the same snapshot, and the update writes `available - requested` line by line, so the last line's write wins. Two lines of 6 against a stock of 10 are approved and leave 4, so the catalog is oversold by 2.
- **Intake and finalization keys differ.** Intake writes `order:pending:<id>` and finalization reads `order:<id>`. An order taken in by intake is therefore never finalized, and it stays PENDING until its TTL elapses.

Three things the code's own declarations suggest do not hold, and the model follows what the code does:

- The `ValidationIssueType` enum (`InventoryCheckResult.java`) declares INVALID_CATEGORY, but the code can never produce it: the issue type follows the validated item's category, which is the product's own category (one of three constants) or null for an unknown product.
- COMPLETED and REJECTED are terminal by name, but finalization has no guard on the current status, so a later result overwrites a terminal status.
- `availableQuantity` counts stock, but the update subtracts in 32-bit `int` arithmetic with no check, so a negative requested quantity can make the stock wrap around.

## Model

| member | source | states |
|---|---|---|
| Categories.ToJson | inventory-service/src/main/java/com/bank/poalim/inventory_service/model/OrderItemCategory.java:11-14 | the JSON form is the lower-case constant name ("standard", "perishable", "digital"), and upper-casing it gives the name back |
| Categories.ValueOf | inventory-service/src/main/java/com/bank/poalim/inventory_service/model/OrderItemCategory.java:21 | valueOf succeeds exactly on a constant's exact name and gives that constant, and fails with NoEnumConstant otherwise |
| Categories.FromJson | inventory-service/src/main/java/com/bank/poalim/inventory_service/model/OrderItemCategory.java:16-22 | null gives null; otherwise the result is category c exactly when the trimmed, upper-cased text is c's name, and an error exactly when it names no constant |
| Categories.TrimIgnoresPadding | inventory-service/src/main/java/com/bank/poalim/inventory_service/model/OrderItemCategory.java:21 | any leading and trailing characters at or below U+0020 added to a string do not change its trim |
| Categories.TrimResultUnpadded | inventory-service/src/main/java/com/bank/poalim/inventory_service/model/OrderItemCategory.java:21 | the trimmed text neither starts nor ends with a character at or below U+0020 |
| Categories.RoundTrip | inventory-service/src/main/java/com/bank/poalim/inventory_service/model/OrderItemCategory.java:11-22 | parsing the JSON form of every category gives that category back |
| Categories.FromJsonIgnoresPadding | inventory-service/src/main/java/com/bank/poalim/inventory_service/model/OrderItemCategory.java:21 | padding the text with blanks or control characters does not change the parse result |
| Categories.FromJsonIgnoresCase | inventory-service/src/main/java/com/bank/poalim/inventory_service/model/OrderItemCategory.java:21 | texts with the same upper-case form parse to the same result |
| Categories.ParseExamples | inventory-service/src/main/java/com/bank/poalim/inventory_service/model/OrderItemCategory.java:17-22 | " Standard " parses to STANDARD and "food" is rejected |
| ProductCatalog.InMemoryProductCatalog.constructor | inventory-service/src/main/java/com/bank/poalim/inventory_service/service/InMemoryProductCatalogService.java:18-86 | the catalog starts with exactly the seven sample products, each keyed by its own id |
| ProductCatalog.SampleCatalogFacts | inventory-service/src/main/java/com/bank/poalim/inventory_service/service/InMemoryProductCatalogService.java:22-86 | the seven sample ids, each keyed by its own id, all active, with their quantities and expiry dates (P2002 expired the day before start-up) |
| ProductCatalog.InMemoryProductCatalog.FindProduct | inventory-service/src/main/java/com/bank/poalim/inventory_service/service/InMemoryProductCatalogService.java:88-92 | the product is present exactly when the id is a key, it is the stored product, and its productId is the id asked for |
| ProductCatalog.InMemoryProductCatalog.GetAllProducts | inventory-service/src/main/java/com/bank/poalim/inventory_service/service/InMemoryProductCatalogService.java:94-97 | the list holds every stored product exactly once and nothing else |
| ProductCatalog.InMemoryProductCatalog.UpdateProductQuantity | inventory-service/src/main/java/com/bank/poalim/inventory_service/service/InMemoryProductCatalogService.java:99-108 | a known product gets the new quantity and keeps its other fields; an unknown id changes nothing |
| ProductCatalog.SetQuantityFrame | inventory-service/src/main/java/com/bank/poalim/inventory_service/service/InMemoryProductCatalogService.java:100-104 | a quantity update keeps the key set and every other product unchanged |
| ProductCatalog.InMemoryProductCatalog.AddProduct | inventory-service/src/main/java/com/bank/poalim/inventory_service/service/InMemoryProductCatalogService.java:110-114 | the product is stored under its own id, replacing any product stored there before |
| ProductCatalog.InMemoryProductCatalog.RemoveProduct | inventory-service/src/main/java/com/bank/poalim/inventory_service/service/InMemoryProductCatalogService.java:116-124 | the id is no longer a key and the other products stay |
| InventoryValidation.AvailabilityRules | inventory-service/src/main/java/com/bank/poalim/inventory_service/service/InventoryValidationService.java:73-130 | a line is available exactly when the product exists, is active and, by the product's category, (STANDARD) has enough stock, (PERISHABLE) also has an expiry date after today, or (DIGITAL) unconditionally; an inactive or unknown product reports 0 available, and an unknown one no category |
| InventoryValidation.AvailableLineIsCovered | inventory-service/src/main/java/com/bank/poalim/inventory_service/service/InventoryValidationService.java:92-106 | an available non-digital line never asks for more than the stock |
| InventoryValidation.IssueTypeOf | inventory-service/src/main/java/com/bank/poalim/inventory_service/service/InventoryValidationService.java:150-165 | the issue type follows the item's category, in both directions: none is PRODUCT_NOT_FOUND, STANDARD is INSUFFICIENT_QUANTITY, PERISHABLE is EXPIRED_PRODUCT, DIGITAL is PRODUCT_INACTIVE; never INVALID_CATEGORY |
| InventoryValidation.IssueReasonOf | inventory-service/src/main/java/com/bank/poalim/inventory_service/service/InventoryValidationService.java:132-148 | each reason in both directions: "not found" exactly for an item without category, the quantity-short reason exactly for STANDARD (carrying its requested and available quantities), "expired or insufficient" exactly for PERISHABLE, and "digital unavailable" exactly for DIGITAL |
| InventoryValidation.IssuesAreUnavailableLines | inventory-service/src/main/java/com/bank/poalim/inventory_service/service/InventoryValidationService.java:35-47 | there is one issue per unavailable line, in line order, naming that line's product |
| InventoryValidation.NoIssuesIffAllAvailable | inventory-service/src/main/java/com/bank/poalim/inventory_service/service/InventoryValidationService.java:33-50 | the issue list is empty exactly when every line is available |
| InventoryValidation.CheckOrderShape | inventory-service/src/main/java/com/bank/poalim/inventory_service/service/InventoryValidationService.java:28-55 | the result carries the order id, one validated item per line, and approved exactly when there are no issues |
| InventoryValidation.InactiveStandardReportsInsufficientQuantity | inventory-service/src/main/java/com/bank/poalim/inventory_service/service/InventoryValidationService.java:150-165 | an inactive STANDARD product is reported as INSUFFICIENT_QUANTITY with available 0, not as PRODUCT_INACTIVE |
| InventoryValidation.LastWriteIsLastLine | inventory-service/src/main/java/com/bank/poalim/inventory_service/service/InventoryValidationService.java:175-183 | the value written for a product is that of the last line naming it with a known, non-digital product |
| InventoryValidation.ApplyWritesStep | inventory-service/src/main/java/com/bank/poalim/inventory_service/service/InventoryValidationService.java:176-180 | one more line of the update loop is one updateProductQuantity of available - requested, or nothing for a digital or unknown line |
| InventoryValidation.UpdateFrame | inventory-service/src/main/java/com/bank/poalim/inventory_service/service/InventoryValidationService.java:167-184 | the key set is kept; a rejected order changes nothing; only quantities change; a product no known non-digital line names is untouched; otherwise it gets the snapshot quantity minus the request of the last line naming it |
| InventoryValidation.UpdateIdempotent | inventory-service/src/main/java/com/bank/poalim/inventory_service/service/InventoryValidationService.java:175-183 | applying the same result's update twice leaves the catalog as applying it once |
| InventoryValidation.ValidatedUpdateNeverNegative | inventory-service/src/main/java/com/bank/poalim/inventory_service/service/InventoryValidationService.java:176-180 | with non-negative requests, every quantity the update writes is non-negative |
| InventoryValidation.ValidatedUpdateSparesDigital | inventory-service/src/main/java/com/bank/poalim/inventory_service/service/InventoryValidationService.java:175-177 | a digital product, and a product no line names, keeps its entry |
| InventoryValidation.DuplicateLinesLastWriteWins | inventory-service/src/main/java/com/bank/poalim/inventory_service/service/InventoryValidationService.java:175-183 | two lines of 6 against a stock of 10 are approved and leave 4, not -2 |
| InventoryValidation.NegativeRequestWraps | inventory-service/src/main/java/com/bank/poalim/inventory_service/service/InventoryValidationService.java:178 | a request of -1 against a stock of 2147483647 is approved and stores -2147483648 |
| InventoryValidation.ToEvent | inventory-service/src/main/java/com/bank/poalim/inventory_service/service/InventoryValidationService.java:186-211 | the event carries the order id and verdict, type INVENTORY_CHECK_RESULT and the timestamp; the missing items are absent when approved or when there are no issues, and otherwise list each issue's product and reason |
| InventoryValidation.EventMissingItemsIffRejected | inventory-service/src/main/java/com/bank/poalim/inventory_service/service/InventoryValidationService.java:190-201 | for a validation result, the event's missing items are absent exactly when the order is approved |
| InventoryValidation.InventoryValidationService.ValidateOrder | inventory-service/src/main/java/com/bank/poalim/inventory_service/service/InventoryValidationService.java:28-71 | the result is the verdict on the catalog before the call; the catalog becomes the update of that verdict; exactly one event is published unless publishing fails |
| InventoryValidation.InventoryValidationService.ValidateItemIn | inventory-service/src/main/java/com/bank/poalim/inventory_service/service/InventoryValidationService.java:73-77 | a line's verdict is the specified verdict on the current catalog (the product's, or not found) |
| InventoryValidation.InventoryValidationService.UpdateInventoryForApprovedOrder | inventory-service/src/main/java/com/bank/poalim/inventory_service/service/InventoryValidationService.java:167-184 | the catalog becomes the specified update of the result |
| InventoryValidation.InventoryValidationService.PublishInventoryCheckResultEvent | inventory-service/src/main/java/com/bank/poalim/inventory_service/service/InventoryValidationService.java:186-216 | the event of the result is appended to the topic unless sending fails, and a failure is swallowed |
| EventBus.Outbox.Publish | inventory-service/src/main/java/com/bank/poalim/inventory_service/service/InventoryValidationService.java:205-210 | a successful send appends exactly that event to the topic; a failed one appends nothing |
| OrderIntake.PendingKey | order-service/src/main/java/com/bank/poalim/order_service/store/RedisPendingOrderStore.java:30-32 | the pending key is "order:pending:" followed by the order id |
| OrderIntake.RedisPendingOrderStore.SavePending | order-service/src/main/java/com/bank/poalim/order_service/store/RedisPendingOrderStore.java:20-28 | exactly one SET with the TTL under the pending key; the record is stored when the SET goes through, and an error changes nothing and is swallowed |
| OrderIntake.IntakeArtifactsAgree | order-service/src/main/java/com/bank/poalim/order_service/service/OrderServiceImpl.java:38-68 | the stored record, the response and the event carry the same id, customer, items and times; the record and response are PENDING, the event CREATED |
| OrderIntake.OrderServiceImpl.constructor | order-service/src/main/java/com/bank/poalim/order_service/service/OrderServiceImpl.java:26-27 | the pending TTL is the configured value, or 600 seconds when none is configured |
| OrderIntake.OrderServiceImpl.CreateOrder | order-service/src/main/java/com/bank/poalim/order_service/service/OrderServiceImpl.java:30-78 | the response is PENDING with the fresh id; exactly one pending SET with the configured TTL; one OrderCreatedEvent published unless sending fails; the response is the same either way |
| Notification.OrderKey | notification-service/src/main/java/com/bank/poalim/notification_service/store/RedisOrderStore.java:42-44 | the key is "order:" followed by the order id |
| Notification.OrderKeyInjective | notification-service/src/main/java/com/bank/poalim/notification_service/store/RedisOrderStore.java:42-44 | distinct order ids have distinct keys |
| Notification.RedisOrderStore.GetOrderById | notification-service/src/main/java/com/bank/poalim/notification_service/store/RedisOrderStore.java:20-23 | gives the record under the order's key when there is one, or an error when the lookup fails; nothing changes |
| Notification.RedisOrderStore.DeleteOrder | notification-service/src/main/java/com/bank/poalim/notification_service/store/RedisOrderStore.java:26-30 | removes the order's key and says whether it was there |
| Notification.RedisOrderStore.UpdateOrderStatus | notification-service/src/main/java/com/bank/poalim/notification_service/store/RedisOrderStore.java:33-40 | one SET without TTL under the record's key; true unless the SET raised, which is turned into false |
| Notification.FinalizedKeepsOrder | notification-service/src/main/java/com/bank/poalim/notification_service/service/NotificationServiceImpl.java:36-45 | the written copy differs from the stored record only in its status, which is COMPLETED exactly when approved and REJECTED exactly when not |
| Notification.FinalizeStoreIdempotent | notification-service/src/main/java/com/bank/poalim/notification_service/service/NotificationServiceImpl.java:31-52 | processing the same result twice leaves the store as processing it once |
| Notification.TerminalOrderIsOverwritten | notification-service/src/main/java/com/bank/poalim/notification_service/service/NotificationServiceImpl.java:34-47 | a later result overwrites an already terminal status |
| Notification.NotificationServiceImpl.ProcessInventoryCheckResult | notification-service/src/main/java/com/bank/poalim/notification_service/service/NotificationServiceImpl.java:25-64 | one GET of the order's key; a found order is written back once, under its own id's key, with the new status and no TTL; a missing order changes nothing; only a failed lookup is reported as an error |
| Saga.PendingKeyIsNotOrderKey | order-service/src/main/java/com/bank/poalim/order_service/store/RedisPendingOrderStore.java:30-32 | the pending key of an order is never its finalization key; the finalization key of id x equals it only when x is "pending:" + the order id |
| Saga.IntakeThenFinalize | notification-service/src/main/java/com/bank/poalim/notification_service/service/NotificationServiceImpl.java:31-55 | after intake and a result for the same order, the store holds only the PENDING record under the pending key, with its 600-second TTL |
| Saga.ExpiredBeforeResult | notification-service/src/main/java/com/bank/poalim/notification_service/service/NotificationServiceImpl.java:53-55 | an order whose TTL elapsed before its result is not found, nothing is written and no error is raised |
| Saga.FinalizeStoredOrder | notification-service/src/main/java/com/bank/poalim/notification_service/service/NotificationServiceImpl.java:31-52 | a stored order receiving its result is rewritten with its terminal status and without a TTL |
| Saga.StandardStockScenarios | inventory-service/src/main/java/com/bank/poalim/inventory_service/service/InventoryValidationService.java:28-60 | on the sample catalog, 5 of P1002 is approved and leaves 5; 15 is rejected with one INSUFFICIENT_QUANTITY issue and leaves the catalog unchanged |
| Saga.RejectionScenarios | inventory-service/src/main/java/com/bank/poalim/inventory_service/service/InventoryValidationService.java:79-165 | on the sample catalog, the expired P2002 is rejected as EXPIRED_PRODUCT, and an unknown id as PRODUCT_NOT_FOUND with 0 available |
| Saga.ApprovedOrderEndToEnd | inventory-service/src/main/java/com/bank/poalim/inventory_service/service/InventoryValidationService.java:28-71 | on the sample catalog, the service approves 5 of P1002, leaves 5 in stock and publishes one approved event without missing items |

## Left out

- Kafka plumbing: listeners, consumer and producer configuration, serialization, retries and offsets. A topic is an outbox of published events, and a send either succeeds or fails.
- The inventory listener's `onOrderCreated`, which receives the `OrderValidationResult` of `validateOrder` and, when it is approved, calls `updateInventoryForApprovedOrder` a second time for the same result; `UpdateIdempotent` shows that this second call changes nothing.
- Reactive `Mono` and `subscribe()`. Every store call completes before the next statement. Concurrent orders, interleaved updates of the shared catalog and racing finalizations are not modelled.
- Ordering across objects: "update the catalog, then publish" and "save the pending order, then publish" hold only in the statement order of the method bodies. No contract states the order between two objects' histories.
- Real TTL clocks: expiry is an explicit `Expire` step on the store.
- Logging, the HTTP controllers, request validation annotations and Lombok-generated accessors.
- Reasons as text: a reason is an `IssueReason` value, not the `String.format` message. The notification side's `MissingItem.reason` stays a plain string.
- Java nulls apart from a category: a product is assumed to have a category, and the quantities and flags are assumed non-null. The code would throw a NullPointerException in those cases.
- The `default` branches of the category switches and the INVALID_CATEGORY issue and reason: unreachable, because the category has three constants.
- Aliasing of `Product` objects. The Java catalog stores the objects handed to `addProduct` and returns them from `findProduct`/`getAllProducts`, so a caller's later change shows up in the catalog. The model stores product values.
- Separate record types: the order-service and notification-service `OrderRecord` classes are one shared `OrderModel.OrderRecord`, and their `OrderItemDto` classes one `OrderModel.OrderItem`; the inventory side keeps its own `InventoryModel.OrderItem` (32-bit quantity, optional category). All three services share one `Categories.Category`.
- Time: intake takes one `now` for both `createdAt` and the event timestamp.
- Character case: case mapping covers ASCII letters only, while Java's `toUpperCase` and `toLowerCase` are locale- and Unicode-aware.
- ValidatedUpdateNeverNegative: requires non-negative requested quantities, which the code does not check; `NegativeRequestWraps` shows what happens without that requirement.
- `retrieveAndDeleteOrder` of the `OrderStore` interface is not part of this model; only its Redis implementation's three operations are.
