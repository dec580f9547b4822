# Smart-home telemetry and commerce services, modelled in Dafny

This project models the decision-making parts of a smart-home platform made of two groups of services.

**Telemetry:**
- The **collector** maps incoming protobuf sensor events to their Avro form.
- The **aggregator** folds sensor events into one in-memory snapshot per hub. It discards stale and unchanged readings.
- The **analyzer** holds a registry from hub-event payload type to handler. It dispatches each polled batch in order, stopping at the first error. It has three handlers:
  - removing a device;
  - adding a scenario, after an existence check on the sensors it references;
  - removing a scenario.

**Commerce:**
- The **warehouse** keeps per-product stock. It handles new products, stock increases, availability checks, order assembly, returns, and the hand-off of a booking to delivery.
- The **shopping cart** keeps one cart per user. A cart maps product ids to quantities and is ACTIVE until deactivated.

Each service that updates state in place is a class:
- `SnapshotAggregator` with its `snapshots` map;
- `Repositories` and `HubEventProcessor`;
- `WarehouseServiceImpl` with its product and booking tables;
- `ShoppingCartServiceImpl` with its cart table.

Each method is proved equal to a pure function of the old state: `Update`, `Handle`/`Run`, `CheckStock`/`Assemble`/`ReturnProducts`, and `GetCart`/`AddProducts`/`Deactivate`/`RemoveProducts`/`ChangeQuantity`. Those functions carry the properties, and lemmas relate them. The lemmas cover:
- idempotence of aggregation, removal and deactivation;
- replay of duplicated deliveries;
- in-order dispatch and stop-at-first-failure of a batch;
- return undoing assembly;
- remove undoing add;
- set-quantity agreeing with add.

Java semantics are written out where they matter:

| Java | Dafny model |
|---|---|
| `int` / `long` | the subset types `Int` / `Long` |
| `long` addition and subtraction | the two's-complement wrap `WrapLong` |
| `null` | `Option` |
| a thrown exception | an explicit error value: `Result`, `Outcome`, or the `NullPointer` / `Discarded` cases |
| `String.isBlank` | written out over `Character.isWhitespace` |
| `Instant.ofEpochSecond` | with both of its exceptions |
| an `Instant` | a count of nanoseconds |

Things outside a service's own code are parameters of the model:
- the warehouse as seen from the cart;
- the sensor repository's `existsByIdInAndHubId` query;
- `UUID.fromString`.

## Where the code and the intended behaviour differ

The model follows the code in each case.

- **Snapshot timestamp.** A snapshot's timestamp is meant to be the maximum over its states. `SnapshotAggregator.updateState` sets it to the accepted event's timestamp, even when that is older than other sensors' states. `SnapshotAggregation.Update` states the code's rule.
- **Null stored data in the aggregator.** A stored sensor state whose data is null makes `getData().equals(...)` throw `NullPointerException`. The model returns `NullPointer` and leaves the map unchanged.
- **Scenario replacement.**
  - Adding a scenario is meant to replace the scenario with the same (hub id, name).
  - `ScenarioAddedEventHandler` looks the prior scenario up with the arguments swapped: `findByHubIdAndName(name, hubId)`. `ScenarioRemovedEventHandler` passes them the right way round.
  - So the row deleted is the one keyed (name, hub id). When the name differs from the hub id, an existing (hub id, name) scenario stays next to the new one. `HubEventHandlers.ScenarioAddedKeepsSameKeyScenario` shows the count going from 1 to 2.
  - `findByHubIdAndName` returns an `Optional`, so it is a single-result query; when several rows match it throws `IncorrectResultSizeDataAccessException`. After such a duplicate arises, removing that scenario throws, and so does adding a scenario whose swapped key is duplicated. `ScenarioAddedKeepsSameKeyScenario` also shows the removal failing.
  - Only the scenario row is saved. Its conditions and actions are not stored.
- **Unknown payload type and failing handlers.** An unregistered payload type, or a handler that throws, ends `run` itself. The remaining records of the batch are not handled. The `finally` block then calls `commitSync`, which commits the offsets of the whole poll, including the failing record and the ones after it. Those records are never delivered again. Delivery is therefore at most once for a failing batch, where at least once is intended. `ProcessBatch` counts that synchronous commit. With only the three modelled handlers registered, a `DeviceAddedEventAvro` event finds no handler.
- **Warehouse bookings.** `assemblingProductsForOrder` creates no booking. `shippedProductsToWarehouse` succeeds only for bookings already in the table.
- **Adding to a cart.** `addProductsToShoppingCart` stores a newly created cart even when the warehouse check rejects the products that follow.
- **Changing a quantity.** `changeProductQuantity` stores the new quantity, with no positivity filter, before it asks the warehouse. A rejection still leaves the change stored.

## Model

| member | source | states |
|---|---|---|
| JavaLang.WrapLong | commerce/warehouse/src/main/java/ru/yandex/practicum/service/WarehouseServiceImpl.java:55 | `long` addition: the result is congruent to the exact sum modulo 2^64, and equals it whenever the sum fits in a `long` |
| JavaLang.IsBlank | commerce/shopping-cart/src/main/java/ru/yandex/practicum/service/ShoppingCartServiceImpl.java:165 | a string is blank exactly when every character is Java whitespace; a no-break space makes it non-blank |
| CollectorMapper.OfEpochSecond | telemetry/collector/src/main/java/ru/yandex/practicum/mapper/ProtoToAvroSensorEventMapper.java:15-18 | succeeds exactly when seconds plus the whole seconds of nanos lie in the `Instant` range, with value seconds·10^9 + nanos; fails with the arithmetic overflow exactly when that sum leaves the `long` range |
| CollectorMapper.ToAvro | telemetry/collector/src/main/java/ru/yandex/practicum/mapper/ProtoToAvroSensorEventMapper.java:11-65 | fails only for an out-of-range timestamp, with that error; otherwise copies id and hub id, sets the instant seconds·10^9 + nanos, carries the payload unchanged, and leaves it unset exactly for PAYLOAD_NOT_SET |
| CollectorMapper.PayloadRoundTrip | telemetry/collector/src/main/java/ru/yandex/practicum/mapper/ProtoToAvroSensorEventMapper.java:22-64 | the payload switch is a bijection between protobuf cases and optional Avro payloads that copies every field |
| CollectorMapper.PayloadKeepsKind | telemetry/collector/src/main/java/ru/yandex/practicum/mapper/ProtoToAvroSensorEventMapper.java:22-64 | each sensor case yields the Avro record of the same kind; only PAYLOAD_NOT_SET yields none |
| CollectorMapper.NoPayloadDoesNotFail | telemetry/collector/src/main/java/ru/yandex/practicum/mapper/ProtoToAvroSensorEventMapper.java:63 | an event without a payload maps successfully, to an event with no payload, whenever its timestamp is one `Instant.ofEpochSecond` accepts |
| SnapshotAggregation.Decide | telemetry/aggregator/src/main/java/ru/yandex/practicum/service/SnapshotAggregator.java:33-44 | discards exactly when a stored state is strictly newer or holds equal non-null data; throws exactly when a not-newer stored state has null data; accepts exactly when nothing is stored or a not-newer state holds different non-null data |
| SnapshotAggregation.Update | telemetry/aggregator/src/main/java/ru/yandex/practicum/service/SnapshotAggregator.java:18-62 | null event or id: nothing changes. Accepts exactly when nothing is stored for the sensor, or the stored state is not newer and has different non-null data. On acceptance the sensor holds (event timestamp, payload), the snapshot timestamp is the event's, other sensors and hubs are unchanged, and hub ids stay equal to their keys. |
| SnapshotAggregation.UpdateIdempotent | telemetry/aggregator/src/main/java/ru/yandex/practicum/service/SnapshotAggregator.java:36-51 | applying an event a second time returns nothing and leaves the map as the first application left it |
| SnapshotAggregation.Replay | telemetry/aggregator/src/main/java/ru/yandex/practicum/service/SnapshotAggregator.java:18-62 | a sequence of events emits at most one snapshot per event and keeps every snapshot's hub id equal to its key |
| SnapshotAggregation.ReplayDuplicatedIsReplay | telemetry/aggregator/src/main/java/ru/yandex/practicum/service/SnapshotAggregator.java:36-43 | delivering every event twice in a row ends in the same map, with the same number of emitted snapshots, as delivering it once |
| SnapshotAggregation.SnapshotAggregator.UpdateState | telemetry/aggregator/src/main/java/ru/yandex/practicum/service/SnapshotAggregator.java:18-62 | the in-place update (computeIfAbsent, copy, put) leaves the field and returns exactly what `Update` gives for the old map, and keeps hub ids equal to their keys |
| HubEventHandlers.EventType | telemetry/analyzer/src/main/java/ru/yandex/practicum/handler/hub/ScenarioAddedEventHandler.java:27-30 | each handler's event type is the payload class name of exactly its own payload kind, as in the other two handlers |
| HubEventHandlers.SensorIds | telemetry/analyzer/src/main/java/ru/yandex/practicum/handler/hub/ScenarioAddedEventHandler.java:35-40 | the sensor ids of the conditions (or of the actions), one per element, in order |
| HubEventHandlers.DeviceRemoved | telemetry/analyzer/src/main/java/ru/yandex/practicum/handler/hub/DeviceRemovedEventHandler.java:21-24 | fails (class cast) exactly for another payload; otherwise removes exactly the sensor (payload id, event hub id) and keeps every other sensor and all scenarios |
| HubEventHandlers.ScenarioRemoved | telemetry/analyzer/src/main/java/ru/yandex/practicum/handler/hub/ScenarioRemovedEventHandler.java:26-35 | class cast exactly for another payload; a non-unique result exactly when two or more (hub id, name) rows exist; otherwise no such row remains, every other row keeps its count, and sensors are untouched |
| HubEventHandlers.ScenarioAdded | telemetry/analyzer/src/main/java/ru/yandex/practicum/handler/hub/ScenarioAddedEventHandler.java:33-60 | class cast exactly for another payload. Fails with "devices not found" exactly when the existence query rejects the condition ids or the action ids on the hub. Otherwise it fails with a non-unique result exactly when two or more swapped (name, hub id) rows exist. On success the sensors are untouched, the swapped (name, hub id) rows are deleted, one (hub id, name) row is added, and every other row is unchanged. |
| HubEventHandlers.HandleMatchingPayload | telemetry/analyzer/src/main/java/ru/yandex/practicum/handler/hub/ScenarioAddedEventHandler.java:34-48 | a handler given a payload of its own type never fails the cast; device removal always succeeds; scenario removal fails exactly on a duplicated key; any failure is a non-unique result or, for scenario addition, missing devices |
| HubEventHandlers.DeviceRemovedIdempotent | telemetry/analyzer/src/main/java/ru/yandex/practicum/handler/hub/DeviceRemovedEventHandler.java:23 | removing a device twice equals removing it once; removing an absent device changes nothing |
| HubEventHandlers.ScenarioRemovedIdempotent | telemetry/analyzer/src/main/java/ru/yandex/practicum/handler/hub/ScenarioRemovedEventHandler.java:28-34 | a successful removal repeated gives the same result; an absent scenario is a silent no-op |
| HubEventHandlers.ScenarioAddedKeepsSameKeyScenario | telemetry/analyzer/src/main/java/ru/yandex/practicum/handler/hub/ScenarioAddedEventHandler.java:48-59 | when name and hub id differ, adding a scenario whose (hub id, name) already exists leaves two such rows, after which removing that scenario throws |
| HubEventHandlers.Repositories.DeleteSensorByIdAndHubId | telemetry/analyzer/src/main/java/ru/yandex/practicum/handler/hub/DeviceRemovedEventHandler.java:23 | removes exactly that sensor row; scenarios unchanged |
| HubEventHandlers.Repositories.FindScenarioByHubIdAndName | telemetry/analyzer/src/main/java/ru/yandex/practicum/handler/hub/ScenarioRemovedEventHandler.java:28-29 | throws a non-unique result exactly when several rows have that (hub id, name); otherwise finds a scenario exactly when one row has it, and returns that key |
| HubEventHandlers.Repositories.DeleteScenarioByHubIdAndName | telemetry/analyzer/src/main/java/ru/yandex/practicum/handler/hub/ScenarioRemovedEventHandler.java:33 | deletes every row with that key and nothing else |
| HubEventHandlers.Repositories.SaveScenario | telemetry/analyzer/src/main/java/ru/yandex/practicum/handler/hub/ScenarioAddedEventHandler.java:59 | adds one row; sensors unchanged |
| HubEventHandlers.HandleEvent | telemetry/analyzer/src/main/java/ru/yandex/practicum/handler/hub/ScenarioAddedEventHandler.java:33-60 | the handlers' repository calls, made in order, leave the repositories as `Handle` says; a throwing handler changes nothing |
| HubEventProcessing.BuildRegistry | telemetry/analyzer/src/main/java/ru/yandex/practicum/processor/HubEventProcessor.java:32-33 | succeeds exactly when the handlers' event types are distinct; the keys are exactly those types, and each maps to its own handler |
| HubEventProcessing.DispatchFindsMatchingHandler | telemetry/analyzer/src/main/java/ru/yandex/practicum/processor/HubEventProcessor.java:46-54 | an event finds a handler exactly when some registered handler has its payload type; that handler is the one found, and it never fails the cast |
| HubEventProcessing.RunCompletes | telemetry/analyzer/src/main/java/ru/yandex/practicum/processor/HubEventProcessor.java:44-56 | a completed batch passed each record, in order and once, to the handler registered for its payload type |
| HubEventProcessing.RunStops | telemetry/analyzer/src/main/java/ru/yandex/practicum/processor/HubEventProcessor.java:49-54 | a batch failing at record k completed records before k; the failure is "no handler" exactly when the type is unregistered, in which case no handler is invoked; the repositories are as after the prefix |
| HubEventProcessing.RunStopsAt | telemetry/analyzer/src/main/java/ru/yandex/practicum/processor/HubEventProcessor.java:44-56 | once a prefix of the batch has failed, the records after it change nothing |
| HubEventProcessing.HubEventProcessor.Create | telemetry/analyzer/src/main/java/ru/yandex/practicum/processor/HubEventProcessor.java:30-34 | construction fails with the duplicate key exactly when building the registry does; otherwise the processor holds that registry |
| HubEventProcessing.HubEventProcessor.ProcessBatch | telemetry/analyzer/src/main/java/ru/yandex/practicum/processor/HubEventProcessor.java:43-68 | the record loop leaves repositories, invocations and failure as `Run` gives; one asynchronous commit exactly when a non-empty batch completed, and one synchronous commit exactly when it failed |
| Warehouse.MissingIds | commerce/warehouse/src/main/java/ru/yandex/practicum/service/WarehouseServiceImpl.java:90-92 | the requested ids absent from the product table; empty exactly when all are present |
| Warehouse.CheckStock | commerce/warehouse/src/main/java/ru/yandex/practicum/service/WarehouseServiceImpl.java:61-119 | null or empty cart: not fragile. Otherwise it passes exactly when every product is known and in stock. Missing ids are reported first. Low stock reports exactly the short products, each with requested − stock. On a pass, fragile is the OR of the products' flags. |
| Warehouse.Assemble | commerce/warehouse/src/main/java/ru/yandex/practicum/service/WarehouseServiceImpl.java:142-210 | empty request fails; otherwise it fails or succeeds as `CheckStock` does; every failure leaves stock unchanged; success lowers each requested stock by exactly its amount (staying ≥ 0), keeps other products, and ORs the fragile flags |
| Warehouse.ReturnProducts | commerce/warehouse/src/main/java/ru/yandex/practicum/service/WarehouseServiceImpl.java:214-245 | empty or null input, and any missing id, fail with the stock unchanged; otherwise each strictly positive quantity is added and null or non-positive ones are ignored |
| Warehouse.ReturnUndoesAssembly | commerce/warehouse/src/main/java/ru/yandex/practicum/service/WarehouseServiceImpl.java:236-242 | returning exactly what a successful assembly of positive quantities took restores the product table |
| Warehouse.WarehouseServiceImpl.AddNewProduct | commerce/warehouse/src/main/java/ru/yandex/practicum/service/WarehouseServiceImpl.java:37-47 | a known id is refused with nothing changed; otherwise the product is stored with quantity 0 and fragile only for a true flag |
| Warehouse.WarehouseServiceImpl.IncreaseProductQuantity | commerce/warehouse/src/main/java/ru/yandex/practicum/service/WarehouseServiceImpl.java:51-57 | an unparseable id is an illegal argument, an unknown one `NoSpecifiedProductInWarehouse` naming that id, both changing nothing; otherwise only that product's stock changes, to old + quantity (exactly, when it fits in a `long`) |
| Warehouse.WarehouseServiceImpl.CheckAvailability | commerce/warehouse/src/main/java/ru/yandex/practicum/service/WarehouseServiceImpl.java:61-119 | the filter and the pass that fills the shortfall map and the fragile flag return exactly `CheckStock` of the product table, which they do not change |
| Warehouse.WarehouseServiceImpl.AssemblingProductsForOrder | commerce/warehouse/src/main/java/ru/yandex/practicum/service/WarehouseServiceImpl.java:142-210 | the checks and the decrementing pass leave the table and return exactly what `Assemble` gives |
| Warehouse.WarehouseServiceImpl.ReturnProductsToWarehouse | commerce/warehouse/src/main/java/ru/yandex/practicum/service/WarehouseServiceImpl.java:214-245 | the checks and the restocking pass leave the table and return exactly what `ReturnProducts` gives |
| Warehouse.WarehouseServiceImpl.ShippedProductsToWarehouse | commerce/warehouse/src/main/java/ru/yandex/practicum/service/WarehouseServiceImpl.java:249-264 | null request or order id: illegal argument. No booking: `NoOrderFound`. Both change nothing. Otherwise only that booking changes, taking the request's delivery id. |
| ShoppingCart.CheckUsername | commerce/shopping-cart/src/main/java/ru/yandex/practicum/service/ShoppingCartServiceImpl.java:163-168 | a username is accepted exactly when it is non-null and has a non-whitespace character |
| ShoppingCart.FindOrCreate | commerce/shopping-cart/src/main/java/ru/yandex/practicum/service/ShoppingCartServiceImpl.java:170-178 | the cart returned is the one stored under the username afterwards; only that entry may be added and every other cart is kept; an existing cart comes back with the table unchanged; a created one belongs to the user, is ACTIVE and has no products |
| ShoppingCart.ValidProducts | commerce/shopping-cart/src/main/java/ru/yandex/practicum/service/ShoppingCartServiceImpl.java:69-71 | keeps exactly the entries with a non-null, strictly positive quantity, with that quantity |
| ShoppingCart.MissingFromCart | commerce/shopping-cart/src/main/java/ru/yandex/practicum/service/ShoppingCartServiceImpl.java:129-131 | the listed ids the cart lacks; empty exactly when the cart holds every listed id |
| ShoppingCart.GetCart | commerce/shopping-cart/src/main/java/ru/yandex/practicum/service/ShoppingCartServiceImpl.java:37-44 | a null or blank username is refused with nothing changed; otherwise it succeeds with the cart stored under the username afterwards, keeps every other cart, returns an existing cart with the table unchanged, and otherwise creates the user's ACTIVE cart with no products |
| ShoppingCart.AddProducts | commerce/shopping-cart/src/main/java/ru/yandex/practicum/service/ShoppingCartServiceImpl.java:47-92 | Only the user's cart is touched. A deactivated cart is refused, and so is a non-empty valid set the warehouse rejects; both keep only the created cart. On success the valid entries overwrite, and every other entry is kept. |
| ShoppingCart.Deactivate | commerce/shopping-cart/src/main/java/ru/yandex/practicum/service/ShoppingCartServiceImpl.java:96-104 | the user's cart, found or created, becomes DEACTIVATED with its products kept; other carts unchanged |
| ShoppingCart.RemoveProducts | commerce/shopping-cart/src/main/java/ru/yandex/practicum/service/ShoppingCartServiceImpl.java:108-145 | Every failure leaves the table unchanged. It refuses: a missing cart, a deactivated cart, an empty cart, and, on an active non-empty cart, any listed id the cart lacks, with `ProductsNotInCart` reporting exactly those ids. It succeeds exactly otherwise, removing exactly the listed ids and keeping the other entries. |
| ShoppingCart.ChangeQuantity | commerce/shopping-cart/src/main/java/ru/yandex/practicum/service/ShoppingCartServiceImpl.java:148-161 | It refuses a missing or deactivated cart. A null product map throws. Otherwise the new quantity is stored unfiltered, other entries are kept, and the call succeeds exactly when the warehouse accepts the whole cart. |
| ShoppingCart.GetCartStable | commerce/shopping-cart/src/main/java/ru/yandex/practicum/service/ShoppingCartServiceImpl.java:40-41 | reading a cart again returns the same cart and changes nothing |
| ShoppingCart.DeactivateIdempotent | commerce/shopping-cart/src/main/java/ru/yandex/practicum/service/ShoppingCartServiceImpl.java:102-103 | deactivating twice equals deactivating once |
| ShoppingCart.DeactivatedCartRefusesChanges | commerce/shopping-cart/src/main/java/ru/yandex/practicum/service/ShoppingCartServiceImpl.java:55-57 | after deactivation, add, remove and change quantity are all refused as deactivated and change nothing |
| ShoppingCart.RemoveUndoesAdd | commerce/shopping-cart/src/main/java/ru/yandex/practicum/service/ShoppingCartServiceImpl.java:139-141 | removing exactly the ids just added, none held before, succeeds and gives back the earlier products |
| ShoppingCart.ChangeAgreesWithAdd | commerce/shopping-cart/src/main/java/ru/yandex/practicum/service/ShoppingCartServiceImpl.java:156 | on an active cart, setting a positive quantity stores what adding that single product stores |
| ShoppingCart.ShoppingCartServiceImpl.CreateShoppingCart | commerce/shopping-cart/src/main/java/ru/yandex/practicum/service/ShoppingCartServiceImpl.java:170-178 | stores and returns an ACTIVE cart with no products under the username |
| ShoppingCart.ShoppingCartServiceImpl.FindOrCreateCart | commerce/shopping-cart/src/main/java/ru/yandex/practicum/service/ShoppingCartServiceImpl.java:51-52 | the table and cart are as `FindOrCreate` gives |
| ShoppingCart.ShoppingCartServiceImpl.GetShoppingCart | commerce/shopping-cart/src/main/java/ru/yandex/practicum/service/ShoppingCartServiceImpl.java:37-44 | leaves the table and returns exactly what `GetCart` gives, keeping carts keyed by username |
| ShoppingCart.ShoppingCartServiceImpl.AddProductsToShoppingCart | commerce/shopping-cart/src/main/java/ru/yandex/practicum/service/ShoppingCartServiceImpl.java:47-92 | leaves the table and returns exactly what `AddProducts` gives with the service's warehouse client |
| ShoppingCart.ShoppingCartServiceImpl.DeactivateShoppingCart | commerce/shopping-cart/src/main/java/ru/yandex/practicum/service/ShoppingCartServiceImpl.java:96-104 | leaves the table and returns exactly what `Deactivate` gives |
| ShoppingCart.ShoppingCartServiceImpl.RemoveProductsFromShoppingCart | commerce/shopping-cart/src/main/java/ru/yandex/practicum/service/ShoppingCartServiceImpl.java:108-145 | the checks and the one-by-one removal from a copy leave the table and return exactly what `RemoveProducts` gives |
| ShoppingCart.ShoppingCartServiceImpl.ChangeProductQuantity | commerce/shopping-cart/src/main/java/ru/yandex/practicum/service/ShoppingCartServiceImpl.java:148-161 | stores the change, then asks the warehouse, leaving the table and returning exactly what `ChangeQuantity` gives |

## Left out

- Kafka and gRPC plumbing is not modelled. That covers the `AggregationStarter` poll loop and the subscribe, poll, shutdown hook and `close` calls in `HubEventProcessor.run`; `commitSync` is only counted. It also covers the producer service, the gRPC controller, the Avro serializer and the Kafka configuration. These are I/O through libraries whose behaviour is not visible here. `ProcessBatch` models the body of one poll iteration. A failure ends the batch there and is followed by the `finally` block's `commitSync`. The model does not capture that the failure also ends `run`, nor the `WakeupException` path.
- The per-sensor mapper subclasses (`MotionSensorEventMapper` and the others) depend on a base class that is not part of this model, and they duplicate `toAvro`.
- `DeviceAddedEventHandler` is not part of this model; the registry holds only the three modelled handlers.
- The Avro schema is not part of this model. An event built with PAYLOAD_NOT_SET is taken to carry a null payload, as the aggregator reads it.
- The weight and volume totals of `BookedProductsDto` are floating point and not modelled; only `fragile` is. The random warehouse address and `getWarehouseAddress` are not modelled either.
- `OrderServiceImpl`, `PaymentServiceImpl`, `DeliveryServiceImpl` and `ShoppingStoreServiceImpl` are not modelled: they are orchestration over remote clients, floating-point pricing, or plain CRUD.
- The scenario table's schema is not part of this model. No unique constraint on (hub id, name) is assumed, so duplicate rows can be saved; if the database had one, the save in `ScenarioAddedEventHandler` would throw instead. A find that matches several rows is modelled as the `IncorrectResultSizeDataAccessException` Spring Data throws.
- Repository semantics:
  - `existsByIdInAndHubId` is an uninterpreted query of the sensor table.
  - Derived deletes remove every row with the key.
  - A failing `@Transactional` method changes nothing.
  - A method without a transaction keeps what it saved before failing.
  - `getShoppingCart` stores the cart it creates, as the code reads. Whether its read-only transaction flushes that insert is not modelled.
- Generated ids are not modelled: a cart's UUID. Carts are keyed by username and bookings by order id. Products are keyed by product id, which is the product table's own primary key in the source. Operations return the stored cart rather than its `ShoppingCartDto`.
- At most one booking per order id and one cart per username are assumed; the source does not enforce either. `findByOrderId` and `findByUsername` are single-result queries that would throw `IncorrectResultSizeDataAccessException` on duplicates. Within the modelled code, `FindOrCreate` never creates a second cart for a username, and the warehouse never writes a booking.
- `UUID.fromString` is an input: the parsed id, or none when the string does not parse.
- Null values the code does not test for are not modelled. These are:
  - null quantities inside the maps given to `checkAvailability` and `assemblingProductsForOrder`;
  - a null cart or assembly request object;
  - a null id list for removal;
  - a null change request.

  Each of these throws `NullPointerException` in the code.
- The warehouse client seen from the cart is a fixed predicate on product maps. Transport failures and rejections are not told apart.
- Concurrency between the aggregator and analyzer threads is not modelled, and logging is not modelled.
- Warehouse.CheckStock: states the reported shortfall as requested − stock only where the stock is non-negative. In general the value is the `long`-wrapped difference, which the function computes but its contract states only in that case.
- Warehouse.Assemble: states that the new stock is old − requested and stays non-negative only for non-negative requested quantities. Other quantities are only described by the wrapped decrement in `Decremented`.
