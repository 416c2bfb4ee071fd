/**
 * The event catalogue: every fact the aggregates publish, as one datatype,
 * and the type tags the bus uses to route them. The Kotlin class hierarchy
 * (each concrete event class extends BaseDomainEvent, which implements
 * DomainEvent) becomes an explicit tag per class and a subtype relation.
 */
module DomainEvents {
  import opened Common
  import InventoryModel
  import OrderModel

  /** An order line as events carry it (price is not part of the model). */
  datatype OrderItemDto = OrderItemDto(productId: string, frameType: string, lensType: string, quantity: int)

  datatype Event =
    | FrameAvailabilityChecked(inventoryId: InventoryModel.InventoryId, frameCode: string,
                               isAvailable: bool, requestedQuantity: int, availableQuantity: int)
    | LensAvailabilityChecked(inventoryId: InventoryModel.InventoryId, lensCode: string,
                              isAvailable: bool, requestedQuantity: int, availableQuantity: int)
    | InventoryLevelLow(inventoryId: InventoryModel.InventoryId, itemType: InventoryModel.ItemType,
                        itemCode: string, currentQuantity: int, minimumStockLevel: int)
    | FrameAcquired(inventoryId: InventoryModel.InventoryId, frameCode: string, quantity: int, remainingQuantity: int)
    | LensAcquired(inventoryId: InventoryModel.InventoryId, lensCode: string, quantity: int, remainingQuantity: int)
    | FrameOrderedWithSupplier(supplierOrderId: Uuid, frameCode: string, quantity: int, supplierId: string)
    | LensOrderedWithSupplier(supplierOrderId: Uuid, lensCode: string, quantity: int, supplierId: string)
    | OrderPlaced(orderId: OrderModel.OrderId, customerId: OrderModel.CustomerId, items: seq<OrderItemDto>)
    | OrderConfirmed(orderId: OrderModel.OrderId)
    | OrderCanceled(orderId: OrderModel.OrderId, reason: string)
    | OrderAssembled(orderId: OrderModel.OrderId)
    | OrderShipped(orderId: OrderModel.OrderId, trackingNumber: string, carrier: string)
    | OrderDelivered(orderId: OrderModel.OrderId)
    | OrderCompleted(orderId: OrderModel.OrderId)

  /** One tag per event class, plus the two supertypes every event has. */
  datatype EventType =
    | DomainEventType
    | BaseDomainEventType
    | FrameAvailabilityCheckedType
    | LensAvailabilityCheckedType
    | InventoryLevelLowType
    | FrameAcquiredType
    | LensAcquiredType
    | FrameOrderedWithSupplierType
    | LensOrderedWithSupplierType
    | OrderPlacedType
    | OrderConfirmedType
    | OrderCanceledType
    | OrderAssembledType
    | OrderShippedType
    | OrderDeliveredType
    | OrderCompletedType

  /** The concrete class of an event (`event.javaClass`). */
  function TypeOf(e: Event): (t: EventType)
    ensures t != DomainEventType && t != BaseDomainEventType
  {
    match e
    case FrameAvailabilityChecked(_, _, _, _, _) => FrameAvailabilityCheckedType
    case LensAvailabilityChecked(_, _, _, _, _) => LensAvailabilityCheckedType
    case InventoryLevelLow(_, _, _, _, _) => InventoryLevelLowType
    case FrameAcquired(_, _, _, _) => FrameAcquiredType
    case LensAcquired(_, _, _, _) => LensAcquiredType
    case FrameOrderedWithSupplier(_, _, _, _) => FrameOrderedWithSupplierType
    case LensOrderedWithSupplier(_, _, _, _) => LensOrderedWithSupplierType
    case OrderPlaced(_, _, _) => OrderPlacedType
    case OrderConfirmed(_) => OrderConfirmedType
    case OrderCanceled(_, _) => OrderCanceledType
    case OrderAssembled(_) => OrderAssembledType
    case OrderShipped(_, _, _) => OrderShippedType
    case OrderDelivered(_) => OrderDeliveredType
    case OrderCompleted(_) => OrderCompletedType
  }

  /**
   * `sub` is `sup` or one of its subtypes: every class is below
   * BaseDomainEvent except DomainEvent itself, and everything is below
   * DomainEvent.
   */
  predicate Subtype(sub: EventType, sup: EventType) {
    sub == sup
    || sup == DomainEventType
    || (sup == BaseDomainEventType && sub != DomainEventType)
  }

  /** `sup.isAssignableFrom(e.javaClass)`. */
  predicate AssignableTo(e: Event, sup: EventType) {
    Subtype(TypeOf(e), sup)
  }

  /** The subtype relation is a partial order. */
  lemma SubtypeIsPartialOrder(a: EventType, b: EventType, c: EventType)
    ensures Subtype(a, a)
    ensures Subtype(a, b) && Subtype(b, c) ==> Subtype(a, c)
    ensures Subtype(a, b) && Subtype(b, a) ==> a == b
  {
  }

  /**
   * An event is assignable to exactly three tags: its own class,
   * BaseDomainEvent and DomainEvent.
   */
  lemma AssignableTags(e: Event, t: EventType)
    ensures AssignableTo(e, t) <==> t in {TypeOf(e), BaseDomainEventType, DomainEventType}
  {
  }
}
