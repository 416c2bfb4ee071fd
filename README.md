# Eyeflow order choreography, modelled in Dafny

Eyeflow handles eyewear orders through an event choreography. Four aggregates
each guard their own lifecycle:

- an **inventory** item (frames or lenses) with a quantity and a minimum stock
  level;
- an **order** that is placed, confirmed, cancelled or completed;
- an **assembly** of components that is started and completed once every
  component is acquired;
- a **shipping** record that goes from pending to shipped to delivered.

Application services load an aggregate, apply one operation, save it and
publish a domain event on an in-memory event bus. Event handlers react to
those events by calling other services:

- a failed availability check or a critically low stock level triggers a
  supplier order;
- a placed order checks stock;
- a confirmed order creates an assembly;
- a delivery completes the order after a grace period.

The model works as follows:

- **Aggregates** are Dafny classes (`inventory.dfy`, `order.dfy`,
  `assembly.dfy`, `shipping.dfy`). Their operations are methods that modify
  only the receiver. A rejected `require` becomes a `Fail`/`Failure` carrying
  the source's message.
- **Services** (`*_service.dfy`) are classes over a repository map and the
  sequence of events they have published.
- **Handlers** (`*_handler.dfy`) are pure functions from an event to the
  commands (service calls) they issue (`commands.dfy`). The shipping handler
  instead returns a chain of steps, and `Performed` runs that chain.
- **The event bus** (`event_bus.dfy`) is a class over a map from event type to
  the events emitted into that type's sink, the set of terminated sinks, and
  the list of subscriptions, each with the point in its sink where it started. `events.dfy` gives the event classes and their subtype
  relation.
- **Scenarios** (`scenarios.dfy`) chains services and handlers on concrete
  data.

Identifiers and clock readings come in as parameters (`freshId`, `now`), and
the reactive `Mono`/`Flux` plumbing becomes plain calls and returned replies.
`Reply` stands for a `Mono`: `Value` for a value, `Empty` for an empty
completion, `Error` for an error signal.

Things the code does that the model keeps as written:

- Both `shipOrder` and `deliverOrder` save and return the receiver, not the
  new record that `ship`/`deliver` return. A stored shipment therefore never
  leaves PENDING. It can be "shipped" again and again, each time announcing a
  shipment, and it can never be delivered (`ShippingApp`,
  `Scenarios.ShipTwiceNeverDelivered`).
- No order operation sets ASSEMBLED, SHIPPED or DELIVERED. An order can
  therefore never be completed, and the completion triggered by a delivery
  event always errors (`OrderModel.ReachableFromPlaced`,
  `Scenarios.DeliveryOfUndeliveredOrder`).
- `acquireFrame` and `acquireLens` find an item by code alone. The
  low-stock event from `acquireFrame` is typed FRAME and the one from
  `acquireLens` is typed LENS, whatever the stored item's own type.
- After any failed availability check of a placed order, the order handler
  orders every frame and lens of the order from suppliers, not only the
  missing ones.
- The confirmed-order handler creates an assembly with no components.
- Availability checks for a placed order run one after another, in item order
  (`Flux.concat`), rather than concurrently.
- The bus keeps one shared multicast sink per event type, created by the first
  subscription to that type. Events published before a type is first
  subscribed to are never delivered to it. A later subscription to an existing
  sink sees only the events emitted after it subscribed. The program does
  subscribe twice to the shipped and delivered events (order and shipping
  handlers).
- A publish whose emission into a sink fails (its buffer is full) does not
  retry: the sink terminates with an error, and that event and every later
  event of its type are lost to its subscribers.

## Model

| member | source | states |
|---|---|---|
| InventoryModel.Inventory.CheckAvailability | src/main/kotlin/com/assignment/eyeflow/domain/model/inventory/Inventory.kt:44-46 | true exactly when the stock covers the required quantity |
| InventoryModel.Inventory.IsLowOnStock | src/main/kotlin/com/assignment/eyeflow/domain/model/inventory/Inventory.kt:68-70 | true exactly when the stock is at or below the minimum level |
| InventoryModel.Inventory.Restore | src/main/kotlin/com/assignment/eyeflow/domain/model/inventory/Inventory.kt:9-18 | every field takes the given value; the item's id, type, code, description, minimum and creation time are immutable (`const`) |
| InventoryModel.Inventory.Create | src/main/kotlin/com/assignment/eyeflow/domain/model/inventory/Inventory.kt:20-41 | succeeds iff the initial quantity and the minimum are both non-negative; a negative quantity is rejected first with its own message, then a negative minimum; a created item is fresh, satisfies the invariant and carries the given fields with both timestamps `now` |
| InventoryModel.Inventory.Acquire | src/main/kotlin/com/assignment/eyeflow/domain/model/inventory/Inventory.kt:48-59 | a non-positive quantity is an error; otherwise the answer is whether enough stock was there; only a `true` answer lowers the quantity by exactly that amount and moves `updatedAt`; the non-negative invariant is preserved |
| InventoryModel.Inventory.Restock | src/main/kotlin/com/assignment/eyeflow/domain/model/inventory/Inventory.kt:61-66 | passes iff the quantity is positive, then raises the stock by exactly that amount; a failure changes nothing and carries the source's message; the invariant is preserved |
| OrderModel.Step | src/main/kotlin/com/assignment/eyeflow/domain/model/order/Order.kt:31-49 | an allowed operation sets its target status and a rejected one keeps the status, so the result is the old status, CONFIRMED, CANCELLED or COMPLETED |
| OrderModel.Run | src/main/kotlin/com/assignment/eyeflow/domain/model/order/Order.kt:31-49 | after any sequence of operations the status is the start status or the target of one of the operations attempted |
| OrderModel.CancelAllowedFrom | src/main/kotlin/com/assignment/eyeflow/domain/model/order/Order.kt:37-43 | cancelling is allowed exactly from PLACED, CONFIRMED, ASSEMBLED, SHIPPED and DELIVERED |
| OrderModel.NoTransitionSetsFulfilmentStatus | src/main/kotlin/com/assignment/eyeflow/domain/model/order/Order.kt:31-49 | no order operation moves an order into ASSEMBLED, SHIPPED or DELIVERED |
| OrderModel.TerminalIsAbsorbing | src/main/kotlin/com/assignment/eyeflow/domain/model/order/Order.kt:37-49 | from CANCELLED or COMPLETED, any sequence of operations leaves the status unchanged |
| OrderModel.EarlyStatusesAreClosed | src/main/kotlin/com/assignment/eyeflow/domain/model/order/Order.kt:31-49 | from PLACED, CONFIRMED or CANCELLED, any sequence of operations stays within those three statuses |
| OrderModel.ReachableFromPlaced | src/main/kotlin/com/assignment/eyeflow/domain/model/order/Order.kt:18-49 | a placed order only ever reaches PLACED, CONFIRMED or CANCELLED, never COMPLETED |
| OrderModel.Order.Place | src/main/kotlin/com/assignment/eyeflow/domain/model/order/Order.kt:18-28 | a new order is PLACED with the given customer and items and both timestamps `now` |
| OrderModel.Order.Apply | src/main/kotlin/com/assignment/eyeflow/domain/model/order/Order.kt:31-49 | an operation passes iff its precondition holds on the old status; the new status is the transition function's result; a rejection carries that operation's message; `updatedAt` moves only on success |
| OrderModel.Order.Confirm | src/main/kotlin/com/assignment/eyeflow/domain/model/order/Order.kt:31-35 | passes iff the order was PLACED, and then it is CONFIRMED; otherwise nothing changes |
| OrderModel.Order.Cancel | src/main/kotlin/com/assignment/eyeflow/domain/model/order/Order.kt:37-43 | passes iff the order was neither COMPLETED nor CANCELLED, and then it is CANCELLED; otherwise nothing changes |
| OrderModel.Order.Complete | src/main/kotlin/com/assignment/eyeflow/domain/model/order/Order.kt:45-49 | passes iff the order was DELIVERED, and then it is COMPLETED; otherwise nothing changes |
| AssemblyModel.FirstWithId | src/main/kotlin/com/assignment/eyeflow/domain/model/assembly/Assembly.kt:46 | `find` returns the position of a component with that id that has no earlier match, or nothing iff no component has that id |
| AssemblyModel.MarkAcquired | src/main/kotlin/com/assignment/eyeflow/domain/model/assembly/Assembly.kt:45-50 | acquiring keeps the shape of the list and never clears a flag; when some component has that id, one such component ends up acquired |
| AssemblyModel.ApplyOp | src/main/kotlin/com/assignment/eyeflow/domain/model/assembly/Assembly.kt:32-50 | a rejected operation changes nothing; the components keep their shape; starting moves to IN_PROGRESS, completing moves to COMPLETED with every component acquired, and acquiring leaves the status alone |
| AssemblyModel.FirstWithIdOnlyReadsIds | src/main/kotlin/com/assignment/eyeflow/domain/model/assembly/Assembly.kt:45-50 | the lookup depends only on the component ids, not on their acquired flags |
| AssemblyModel.MarkAcquiredFlagsFirstMatch | src/main/kotlin/com/assignment/eyeflow/domain/model/assembly/Assembly.kt:45-50 | acquiring keeps every component's id, type and description, sets the flag of the first match only, and leaves every other flag alone |
| AssemblyModel.MarkAcquiredIdempotent | src/main/kotlin/com/assignment/eyeflow/domain/model/assembly/Assembly.kt:45-50 | acquiring the same component twice is the same as acquiring it once |
| AssemblyModel.MarkAcquiredUnknownId | src/main/kotlin/com/assignment/eyeflow/domain/model/assembly/Assembly.kt:47-49 | acquiring an id that no component has changes no component |
| AssemblyModel.RunOpsKeepsShape | src/main/kotlin/com/assignment/eyeflow/domain/model/assembly/Assembly.kt:32-50 | any sequence of operations keeps the component ids and types; no sequence leads into CANCELLED; a COMPLETED assembly stays COMPLETED |
| AssemblyModel.AcquireIgnoresStatus | src/main/kotlin/com/assignment/eyeflow/domain/model/assembly/Assembly.kt:45-50 | acquiring succeeds iff some component has that id, in every status, and never changes the status |
| AssemblyModel.Assembly.Create | src/main/kotlin/com/assignment/eyeflow/domain/model/assembly/Assembly.kt:19-29 | a new assembly is PENDING with the given order and components |
| AssemblyModel.Assembly.StartAssembly | src/main/kotlin/com/assignment/eyeflow/domain/model/assembly/Assembly.kt:32-36 | passes iff the assembly was PENDING; the new progress is the transition function's; a failure carries the source's message |
| AssemblyModel.Assembly.CompleteAssembly | src/main/kotlin/com/assignment/eyeflow/domain/model/assembly/Assembly.kt:38-43 | passes iff the assembly was IN_PROGRESS and every component is acquired; the status check comes first, so each failure carries its own message |
| AssemblyModel.Assembly.AcquireComponent | src/main/kotlin/com/assignment/eyeflow/domain/model/assembly/Assembly.kt:45-50 | passes iff some component has that id, and then flags the first such component; an unknown id gives the not-found message; proved for the loop that searches the components |
| ShippingModel.StatusOf | src/main/kotlin/com/assignment/eyeflow/domain/model/shipping/Shipping.kt:18 | the status is PENDING, SHIPPED or DELIVERED exactly when the state is that variant |
| ShippingModel.TrackingNumberOf | src/main/kotlin/com/assignment/eyeflow/domain/model/shipping/Shipping.kt:19-23 | there is no tracking number iff the state is pending; otherwise it is the state's |
| ShippingModel.CarrierOf | src/main/kotlin/com/assignment/eyeflow/domain/model/shipping/Shipping.kt:24-28 | there is no carrier iff the state is pending; otherwise it is the state's |
| ShippingModel.ShipState | src/main/kotlin/com/assignment/eyeflow/domain/model/shipping/Shipping.kt:44-55 | shipping succeeds iff the record is PENDING, and then the state is SHIPPED with exactly the given tracking number and carrier; otherwise it fails with the source's message |
| ShippingModel.DeliverState | src/main/kotlin/com/assignment/eyeflow/domain/model/shipping/Shipping.kt:57-69 | delivery succeeds iff the record is SHIPPED, and then the state is DELIVERED with the same tracking number and carrier; otherwise it fails with the source's message |
| ShippingModel.ShipExposesDetails | src/main/kotlin/com/assignment/eyeflow/domain/model/shipping/Shipping.kt:44-55 | shipping a pending record succeeds with status SHIPPED and exposes exactly the given tracking number and carrier |
| ShippingModel.DeliverKeepsDetails | src/main/kotlin/com/assignment/eyeflow/domain/model/shipping/Shipping.kt:57-69 | delivery succeeds iff the record is shipped, and the delivered state keeps the tracking number and carrier |
| ShippingModel.NoSecondShipNoEarlyDelivery | src/main/kotlin/com/assignment/eyeflow/domain/model/shipping/Shipping.kt:44-69 | a shipped state cannot be shipped again, and a pending one cannot be delivered; each failure carries its message |
| ShippingModel.TransitionsAreOneWay | src/main/kotlin/com/assignment/eyeflow/domain/model/shipping/Shipping.kt:44-69 | ship succeeds iff PENDING and deliver iff SHIPPED; a delivered state can be neither shipped nor delivered again |
| ShippingModel.Shipping.Restore | src/main/kotlin/com/assignment/eyeflow/domain/model/shipping/Shipping.kt:10-17 | every field takes the given value; only `updatedAt` is mutable |
| ShippingModel.Shipping.Create | src/main/kotlin/com/assignment/eyeflow/domain/model/shipping/Shipping.kt:31-41 | a new record is pending, with no tracking number and no carrier |
| ShippingModel.Shipping.Ship | src/main/kotlin/com/assignment/eyeflow/domain/model/shipping/Shipping.kt:44-55 | succeeds iff pending, and then returns a fresh record with a new id, the same order, the shipped state and the given details; only the receiver's `updatedAt` changes |
| ShippingModel.Shipping.Deliver | src/main/kotlin/com/assignment/eyeflow/domain/model/shipping/Shipping.kt:57-69 | succeeds iff shipped, and then returns a fresh delivered record with the same tracking number and carrier; only the receiver's `updatedAt` changes |
| DomainEvents.TypeOf | src/main/kotlin/com/assignment/eyeflow/domain/event/DomainEvent.kt:9-20 | every event's concrete class is one of the fourteen event classes, never the `DomainEvent` interface or the `BaseDomainEvent` base class |
| DomainEvents.SubtypeIsPartialOrder | src/main/kotlin/com/assignment/eyeflow/domain/event/DomainEvent.kt:9-20 | the class hierarchy's subtype relation is reflexive, transitive and antisymmetric |
| DomainEvents.AssignableTags | src/main/kotlin/com/assignment/eyeflow/infrastructure/messaging/InMemoryEventBus.kt:26 | an event is assignable to exactly its own class, `BaseDomainEvent` and `DomainEvent` |
| Messaging.OfType | src/main/kotlin/com/assignment/eyeflow/infrastructure/messaging/InMemoryEventBus.kt:51 | the filtered stream is no longer than its input and holds only events of the requested type |
| Messaging.Register | src/main/kotlin/com/assignment/eyeflow/infrastructure/messaging/InMemoryEventBus.kt:46-48 | a new type starts with an empty sink; a registered type keeps its own sink; no other type is touched |
| Messaging.Emit | src/main/kotlin/com/assignment/eyeflow/infrastructure/messaging/InMemoryEventBus.kt:26-31 | no sink loses or reorders what it held; a sink grows by one event, the published one, exactly when the event is assignable to its type and the sink is not blocked; no type is added |
| Messaging.EmitToStep | src/main/kotlin/com/assignment/eyeflow/infrastructure/messaging/InMemoryEventBus.kt:29-31 | handling one more compatible type appends the event to that type's sink alone, unless that sink is blocked |
| Messaging.EmitToAll | src/main/kotlin/com/assignment/eyeflow/infrastructure/messaging/InMemoryEventBus.kt:26-31 | once every compatible registered type has been handled, the result is one whole emission |
| Messaging.PublishStep | src/main/kotlin/com/assignment/eyeflow/infrastructure/messaging/InMemoryEventBus.kt:22-33 | a publish adds no type; a terminated sink stays terminated and receives nothing; a sink terminates only when the event is assignable to it and its emission fails, and then the event is dropped |
| Messaging.EmitAll | src/main/kotlin/com/assignment/eyeflow/infrastructure/messaging/InMemoryEventBus.kt:35-39 | publishing a list adds no type and never revives a terminated sink |
| Messaging.OfTypeKeepsTyped | src/main/kotlin/com/assignment/eyeflow/infrastructure/messaging/InMemoryEventBus.kt:51 | filtering a sequence whose events all fit the type returns it unchanged |
| Messaging.PublishStepKeepsWellFormed | src/main/kotlin/com/assignment/eyeflow/infrastructure/messaging/InMemoryEventBus.kt:22-33 | after a publish every sink still holds only events of its type, and only registered types have terminated |
| Messaging.PublishStepKeepsCovers | src/main/kotlin/com/assignment/eyeflow/infrastructure/messaging/InMemoryEventBus.kt:22-33 | a publish only extends sinks, so every subscription still starts within its sink |
| Messaging.EmitAllKeepsWellFormed | src/main/kotlin/com/assignment/eyeflow/infrastructure/messaging/InMemoryEventBus.kt:35-39 | after publishing a list every sink still holds only events of its type |
| Messaging.EmitWithoutSubscriberIsNoop | src/main/kotlin/com/assignment/eyeflow/infrastructure/messaging/InMemoryEventBus.kt:26-31 | with no compatible registered type, publishing changes nothing |
| Messaging.EmitAllDeliversInOrder | src/main/kotlin/com/assignment/eyeflow/infrastructure/messaging/InMemoryEventBus.kt:35-39 | while a sink stays live and none of its emissions fails, it receives exactly the published events assignable to its type, each once, in list order |
| Messaging.TerminatedSinkStaysSilent | src/main/kotlin/com/assignment/eyeflow/infrastructure/messaging/InMemoryEventBus.kt:28-31 | a terminated sink stays terminated and receives nothing more, whatever is published |
| Messaging.FailedEmissionLosesTheRest | src/main/kotlin/com/assignment/eyeflow/infrastructure/messaging/InMemoryEventBus.kt:30 | a failed emission is not a one-off loss: the sink terminates, and that event and every later one are lost to it |
| Messaging.SubscriptionSeesLaterEvents | src/main/kotlin/com/assignment/eyeflow/infrastructure/messaging/InMemoryEventBus.kt:42-51 | a subscription sees exactly the events of its type published after it subscribed, in order, while its sink is live |
| Messaging.SecondSubscriberMissesEarlierEvents | src/main/kotlin/com/assignment/eyeflow/infrastructure/messaging/InMemoryEventBus.kt:46-51 | of two subscriptions to one type, the later one misses what was published before it subscribed, while the earlier one sees everything |
| Messaging.EmitAllEmptyIsNoop | src/main/kotlin/com/assignment/eyeflow/infrastructure/messaging/InMemoryEventBus.kt:35-39 | publishing an empty list changes nothing |
| Messaging.LateSubscriberMissesEarlierEvents | src/main/kotlin/com/assignment/eyeflow/infrastructure/messaging/InMemoryEventBus.kt:46-48 | a type first subscribed to after some publishes starts with an empty sink |
| Messaging.RegisterIdempotent | src/main/kotlin/com/assignment/eyeflow/infrastructure/messaging/InMemoryEventBus.kt:46-48 | subscribing twice registers the same sinks as subscribing once |
| Messaging.InMemoryEventBus.constructor | src/main/kotlin/com/assignment/eyeflow/infrastructure/messaging/InMemoryEventBus.kt:20 | the bus starts with no registered type, no terminated sink and no subscription |
| Messaging.InMemoryEventBus.Stream | src/main/kotlin/com/assignment/eyeflow/infrastructure/messaging/InMemoryEventBus.kt:42-51 | subscription `k` carries the events emitted into its sink since it subscribed, each of its type |
| Messaging.InMemoryEventBus.Subscribe | src/main/kotlin/com/assignment/eyeflow/infrastructure/messaging/InMemoryEventBus.kt:42-51 | registers an empty sink for the type unless one exists, and records a subscription that starts at the sink's current end, so its stream is empty |
| Messaging.InMemoryEventBus.Publish | src/main/kotlin/com/assignment/eyeflow/infrastructure/messaging/InMemoryEventBus.kt:22-33 | the loop over compatible types performs exactly one `PublishStep` of the old state; subscriptions are unchanged and the bus stays well formed |
| Messaging.InMemoryEventBus.PublishAll | src/main/kotlin/com/assignment/eyeflow/infrastructure/messaging/InMemoryEventBus.kt:35-39 | publishes the events one after another in list order, which is `EmitAll` of the old state |
| InventoryHandler.HandleFrameAvailabilityChecked | src/main/kotlin/com/assignment/eyeflow/application/eventhandler/InventoryEventHandler.kt:110-135 | at most one command, issued iff the check failed with stock short of the request; it orders the same frame code from the default frame supplier, shortfall plus ten units, so more than ten |
| InventoryHandler.HandleLensAvailabilityChecked | src/main/kotlin/com/assignment/eyeflow/application/eventhandler/InventoryEventHandler.kt:137-162 | the same for lenses, with the default lens supplier |
| InventoryHandler.CriticallyLowIsFifth | src/main/kotlin/com/assignment/eyeflow/application/eventhandler/InventoryEventHandler.kt:26 | below 0.2 times the minimum is exactly five times the current quantity below the minimum |
| InventoryHandler.HandleInventoryLevelLow | src/main/kotlin/com/assignment/eyeflow/application/eventhandler/InventoryEventHandler.kt:164-198 | a reorder is issued iff the quantity is below a fifth of the minimum; it is a frame order iff the event says FRAME, for the same code and that type's default supplier, and brings the quantity to twice the minimum |
| InventoryHandler.React | src/main/kotlin/com/assignment/eyeflow/application/eventhandler/InventoryEventHandler.kt:34-108 | the inventory handler issues at most one command per event, always a supplier order, and only for the two check events and the low-stock event |
| InventoryHandler.ServiceCheckReordersIffShort | src/main/kotlin/com/assignment/eyeflow/application/service/InventoryServiceImpl.kt:45-85 | for a check event as the service publishes it, a reorder follows iff stock is short of the request, for exactly the shortfall plus ten |
| InventoryHandler.ReorderRestoresTwiceMinimum | src/main/kotlin/com/assignment/eyeflow/application/eventhandler/InventoryEventHandler.kt:171-172 | the reorder brings the stock to exactly twice the minimum, and orders more than the minimum |
| OrderHandler.AvailabilityChecks | src/main/kotlin/com/assignment/eyeflow/application/eventhandler/OrderEventHandler.kt:112-118 | two checks per item, in item order: frame then lens, with that item's codes and quantity |
| OrderHandler.SupplierOrders | src/main/kotlin/com/assignment/eyeflow/application/eventhandler/OrderEventHandler.kt:136-159 | two supplier orders per item, in item order: the frame from the default frame supplier, then the lens from the default lens supplier, each for the item's quantity |
| OrderHandler.HandleOrderPlaced | src/main/kotlin/com/assignment/eyeflow/application/eventhandler/OrderEventHandler.kt:107-134 | the checks always come first; supplier orders follow iff some check answered false, and then they cover every item |
| OrderHandler.HandleOrderConfirmed | src/main/kotlin/com/assignment/eyeflow/application/eventhandler/OrderEventHandler.kt:161-183 | exactly one command: create an assembly for that order with no components |
| OrderHandler.React | src/main/kotlin/com/assignment/eyeflow/application/eventhandler/OrderEventHandler.kt:185-244 | every order event other than placed and confirmed is handled without a command, and the order handler never completes an order |
| OrderHandler.Answers | src/main/kotlin/com/assignment/eyeflow/application/eventhandler/OrderEventHandler.kt:120-122 | one answer per check, in order, each the stock's answer to that check |
| OrderHandler.ReordersIffSomethingShort | src/main/kotlin/com/assignment/eyeflow/application/eventhandler/OrderEventHandler.kt:107-159 | with the answers of a given stock, supplier orders are issued iff some frame or lens of the order is short |
| ShippingHandler.HandleOrderShipped | src/main/kotlin/com/assignment/eyeflow/application/eventhandler/ShippingEventHandler.kt:52-61 | three steps about that order, in order: customer notification with the tracking details, tracking update, external systems; none calls a service |
| ShippingHandler.HandleOrderDelivered | src/main/kotlin/com/assignment/eyeflow/application/eventhandler/ShippingEventHandler.kt:63-71 | delivery notification, a seven-day wait, completion of that order, feedback collection, in that order; completion is the only service call |
| ShippingHandler.Performed | src/main/kotlin/com/assignment/eyeflow/application/eventhandler/ShippingEventHandler.kt:66-70 | a `then` chain performs a prefix of its steps that stops right after the first call that errors, and performs them all if none does |
| ShippingHandler.FeedbackIffCompletionSucceeds | src/main/kotlin/com/assignment/eyeflow/application/eventhandler/ShippingEventHandler.kt:134-144 | feedback is collected iff completing the order does not error; completion is always attempted |
| ShippingHandler.ShipmentStepsAllRun | src/main/kotlin/com/assignment/eyeflow/application/eventhandler/ShippingEventHandler.kt:52-61 | every step of the shipped-order chain is performed |
| InventoryApp.InventoryService.Seeded | src/main/kotlin/com/assignment/eyeflow/application/service/InventoryServiceImpl.kt:19-23 | a service over stored items with unique codes, nothing published yet |
| InventoryApp.InventoryService.FindByItemCode | src/main/kotlin/com/assignment/eyeflow/application/service/InventoryServiceImpl.kt:239-241 | finds nothing iff no stored item has the code; otherwise the id of a stored item with that code |
| InventoryApp.InventoryService.CheckFrameAvailability | src/main/kotlin/com/assignment/eyeflow/application/service/InventoryServiceImpl.kt:45-64 | an unknown code answers false and publishes nothing; otherwise answers whether stock covers the request and publishes one check event with the current quantity; no stock moves |
| InventoryApp.InventoryService.CheckLensAvailability | src/main/kotlin/com/assignment/eyeflow/application/service/InventoryServiceImpl.kt:66-85 | the same for lens codes |
| InventoryApp.InventoryService.AcquireStored | src/main/kotlin/com/assignment/eyeflow/application/service/InventoryServiceImpl.kt:92-96 | acquiring on the stored item changes that item alone, as the aggregate's `acquire` says |
| InventoryApp.InventoryService.AcquireFrame | src/main/kotlin/com/assignment/eyeflow/application/service/InventoryServiceImpl.kt:87-129 | an unknown code answers false; a non-positive quantity is an error; only a successful acquisition lowers the stored stock and publishes, first the acquisition with the remaining quantity, then a FRAME-typed low-stock event iff the remainder is at or below the minimum |
| InventoryApp.InventoryService.AcquireLens | src/main/kotlin/com/assignment/eyeflow/application/service/InventoryServiceImpl.kt:131-173 | the same for lens codes, with a LENS-typed low-stock event |
| InventoryApp.InventoryService.OrderFrameWithSupplier | src/main/kotlin/com/assignment/eyeflow/application/service/InventoryServiceImpl.kt:175-196 | returns a new ORDERED frame purchase for that code and quantity and publishes one event with its id and supplier; no stored item changes |
| InventoryApp.InventoryService.OrderLensWithSupplier | src/main/kotlin/com/assignment/eyeflow/application/service/InventoryServiceImpl.kt:198-219 | the same for lenses |
| InventoryApp.InventoryService.RestockInventory | src/main/kotlin/com/assignment/eyeflow/application/service/InventoryServiceImpl.kt:221-229 | an unknown id completes empty; a non-positive quantity is the aggregate's error; otherwise the stored stock rises by the quantity; nothing is published |
| OrderApp.ToDtos | src/main/kotlin/com/assignment/eyeflow/application/service/OrderServiceImpl.kt:39 | one event line per order line, in order, field for field |
| OrderApp.OrderService.constructor | src/main/kotlin/com/assignment/eyeflow/application/service/OrderServiceImpl.kt:23-27 | an empty repository and nothing published |
| OrderApp.OrderService.PlaceOrder | src/main/kotlin/com/assignment/eyeflow/application/service/OrderServiceImpl.kt:29-45 | saves a new PLACED order and publishes one placed event with its id, customer and items |
| OrderApp.OrderService.Transit | src/main/kotlin/com/assignment/eyeflow/application/service/OrderServiceImpl.kt:47-90 | an unknown id completes empty; otherwise the stored order takes the transition and the reply is a value iff it was allowed; an event is published only on success |
| OrderApp.OrderService.ConfirmOrder | src/main/kotlin/com/assignment/eyeflow/application/service/OrderServiceImpl.kt:47-60 | only a PLACED order is confirmed, and only then is a confirmed event published |
| OrderApp.OrderService.CancelOrder | src/main/kotlin/com/assignment/eyeflow/application/service/OrderServiceImpl.kt:62-75 | any order neither completed nor cancelled is cancelled, and a cancelled event with the reason is published |
| OrderApp.OrderService.CompleteOrder | src/main/kotlin/com/assignment/eyeflow/application/service/OrderServiceImpl.kt:77-90 | only a DELIVERED order is completed, and only then is a completed event published; any other stored order errors |
| AssemblyApp.AssemblyService.constructor | src/main/kotlin/com/assignment/eyeflow/application/service/AssemblyServiceImpl.kt:18-23 | an empty repository and nothing published |
| AssemblyApp.AssemblyService.CreateAssembly | src/main/kotlin/com/assignment/eyeflow/application/service/AssemblyServiceImpl.kt:25-31 | saves a new PENDING assembly with the given components; publishes nothing |
| AssemblyApp.AssemblyService.Perform | src/main/kotlin/com/assignment/eyeflow/application/service/AssemblyServiceImpl.kt:33-66 | an unknown id completes empty; otherwise the stored assembly's progress follows the transition function, and the reply is a value iff the operation was allowed |
| AssemblyApp.AssemblyService.StartAssembly | src/main/kotlin/com/assignment/eyeflow/application/service/AssemblyServiceImpl.kt:33-41 | only a PENDING assembly starts; nothing is published |
| AssemblyApp.AssemblyService.CompleteAssembly | src/main/kotlin/com/assignment/eyeflow/application/service/AssemblyServiceImpl.kt:43-56 | completes iff IN_PROGRESS with every component acquired, and then publishes exactly one assembled event for its order; otherwise publishes nothing |
| AssemblyApp.AssemblyService.AcquireComponent | src/main/kotlin/com/assignment/eyeflow/application/service/AssemblyServiceImpl.kt:58-66 | flags the first component with that id in any status, errors iff there is none; publishes nothing |
| ShippingApp.ShippingService.constructor | src/main/kotlin/com/assignment/eyeflow/application/service/ShippingServiceImpl.kt:20-24 | an empty repository, every stored record pending, nothing published |
| ShippingApp.ShippingService.CreateShipping | src/main/kotlin/com/assignment/eyeflow/application/service/ShippingServiceImpl.kt:26-32 | saves a new pending record; publishes nothing |
| ShippingApp.ShippingService.ShipOrder | src/main/kotlin/com/assignment/eyeflow/application/service/ShippingServiceImpl.kt:34-51 | succeeds iff the stored record is pending, returns that unchanged record and publishes one shipped event with the given details; every stored record stays pending |
| ShippingApp.ShippingService.DeliverOrder | src/main/kotlin/com/assignment/eyeflow/application/service/ShippingServiceImpl.kt:53-66 | succeeds iff the stored record is shipped; so for records this service created it never succeeds |
| Scenarios.FrameShortfallReorder | src/main/kotlin/com/assignment/eyeflow/application/eventhandler/InventoryEventHandler.kt:110-135 | with 5 F001 frames and a minimum of 10, a check for 8 fails and leads to an order of 13 frames from the default frame supplier |
| Scenarios.CriticalLensReorder | src/main/kotlin/com/assignment/eyeflow/application/eventhandler/InventoryEventHandler.kt:164-198 | acquiring 2 of 3 L002 lenses (minimum 20) publishes the acquisition and a low-stock event, which leads to an order of 39 lenses |
| Scenarios.AssembleTwoComponents | src/main/kotlin/com/assignment/eyeflow/application/service/AssemblyServiceImpl.kt:43-66 | with one of two components acquired, completion errors; after acquiring the other it succeeds, and exactly one assembled event is published |
| Scenarios.ShipTwiceNeverDelivered | src/main/kotlin/com/assignment/eyeflow/application/service/ShippingServiceImpl.kt:34-66 | the same record is shipped twice, with two shipped events, and delivering it then errors |
| Scenarios.ConfirmedOrderAssembly | src/main/kotlin/com/assignment/eyeflow/application/eventhandler/OrderEventHandler.kt:161-183 | a confirmed order leads to an empty assembly that completes at once, while the order stays CONFIRMED |
| Scenarios.DeliveryOfUndeliveredOrder | src/main/kotlin/com/assignment/eyeflow/application/eventhandler/ShippingEventHandler.kt:63-71 | for a confirmed order, the delivery chain's completion errors and the chain stops before feedback |

## Left out

- Event ids and occurrence times (`eventId`, `occurredOn`) are not modelled: no property depends on them.
- The price of an order line is not modelled: no operation reads it.
- Order timestamps other than `updatedAt`/`createdAt` are not modelled, and neither is logging.
- `createInventoryItem` is not modelled as a service call. Items enter the model through `InventoryApp.InventoryService.Seeded`, which assumes item codes are unique. With two items of the same code, the repository's `findByItemCode` would signal an error, and the model does not capture that.
- The queries `findById`, `findByItemType`, `findByOrderId` and `findLowStockItems` are not modelled: they only read the repository.
- The repository is a map of the stored objects. A database-backed repository that hands out copies (so that an unsaved change is lost) is not modelled. Neither is aliasing between an assembly's component list and the caller's list.
- Messaging.InMemoryEventBus.Publish: the capacity of a sink's buffer and the pace at which subscribers drain it are not modelled. Which emissions fail is an input (`failing`), and a failure always means a full buffer.
- Messaging.InMemoryEventBus.Stream: the overflow error that ends a terminated sink's stream is not an element of the stream. The stream simply stops growing. Cancelling a subscription, and the sink's cancellation when its last subscriber leaves, are not modelled.
- Reactor scheduling, threads and concurrent `ConcurrentHashMap` access are not modelled. Service calls and publishes happen one at a time, in program order.
- Handler subscriptions (`initialize`) are not modelled as calls on the bus. The handlers are functions from one event to the service calls they make. An error inside a handler, which in the code ends that handler's subscription for all later events, is not modelled.
- The seven-day delay before completion is a `Wait(7)` step, not a timer.
- The other no-op handlers (acquired, ordered-with-supplier, canceled, assembled, shipped, delivered and completed events in the order and inventory handlers) only log. `InventoryHandler.React` and `OrderHandler.React` return no command for them.
- The `else` branch of the level-low handler's item-type match is unreachable: `ItemType` has exactly two values, so it is not modelled.
- InventoryModel.Inventory.Acquire: does not model 32-bit `Int` overflow of the quantity arithmetic. Quantities are unbounded integers here. The same holds for `Restock` and for the reorder quantities of the inventory handler.
- InventoryHandler.HandleInventoryLevelLow: the 0.2 threshold is an exact rational, not a `Double`. Binary rounding of `minimumStockLevel * 0.2` is not modelled.
- Supplier order ids are `Uuid` values (natural numbers). Their `toString` form in the event is not modelled.
- Supplier-order failures and repository failures (database errors) are not modelled. Every save succeeds.
