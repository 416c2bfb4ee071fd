/**
 * The order application service: places orders and applies the three
 * transitions to a stored order, saving it and then publishing one event
 * per successful transition. A rejected transition saves and publishes
 * nothing; an unknown id completes empty.
 */
module OrderApp {
  import opened Common
  import opened OrderModel
  import opened DomainEvents

  /** An order line as the order-placed event carries it, field for field. */
  function ToDto(item: OrderItem): OrderItemDto {
    OrderItemDto(item.productId, item.frameType, item.lensType, item.quantity)
  }

  /** `items.map { OrderItemDto(...) }`. */
  function ToDtos(items: seq<OrderItem>): (ds: seq<OrderItemDto>)
    ensures |ds| == |items|
    ensures forall i :: 0 <= i < |items| ==>
      ds[i].productId == items[i].productId && ds[i].frameType == items[i].frameType &&
      ds[i].lensType == items[i].lensType && ds[i].quantity == items[i].quantity
  {
    seq(|items|, i requires 0 <= i < |items| => ToDto(items[i]))
  }

  /** The event a successful transition publishes. */
  function Announcement(t: Transition, orderId: OrderId, reason: string): Event {
    match t
    case Confirming => OrderConfirmed(orderId)
    case Cancelling => OrderCanceled(orderId, reason)
    case Completing => OrderCompleted(orderId)
  }

  class OrderService {
    var repo: map<OrderId, Order>
    var published: seq<Event>

    /** Each order is stored under its own id. */
    ghost predicate Valid()
      reads this`repo
    {
      forall k :: k in repo ==> repo[k].id == k
    }

    /** The stored order with this id, if any. */
    function Stored(orderId: OrderId): set<Order>
      reads this`repo
    {
      if orderId in repo then {repo[orderId]} else {}
    }

    constructor ()
      ensures Valid() && repo == map[] && published == []
    {
      repo := map[];
      published := [];
    }

    /**
     * `placeOrder`: saves a new PLACED order and publishes one order-placed
     * event carrying its id, its customer and its items, in order.
     */
    method PlaceOrder(freshId: Uuid, customerId: CustomerId, items: seq<OrderItem>, now: Timestamp)
      returns (order: Order)
      requires Valid()
      requires OrderId(freshId) !in repo
      modifies this`repo, this`published
      ensures Valid()
      ensures fresh(order) && order.id == OrderId(freshId) && order.status == Placed
      ensures order.customerId == customerId && order.items == items
      ensures order.createdAt == now && order.updatedAt == now
      ensures repo == old(repo)[order.id := order]
      ensures published == old(published) + [OrderPlaced(order.id, customerId, ToDtos(items))]
    {
      order := new Order.Place(freshId, customerId, items, now);
      repo := repo[order.id := order];
      published := published + [OrderPlaced(order.id, order.customerId, ToDtos(order.items))];
    }

    /**
     * The shared shape of the three transitions: find, apply, save, then
     * publish the transition's event only if it passed.
     */
    method Transit(orderId: OrderId, t: Transition, reason: string, now: Timestamp) returns (r: Reply<Order>)
      requires Valid()
      modifies this`published, Stored(orderId)
      ensures Valid() && repo == old(repo)
      ensures r.Empty? <==> orderId !in repo
      ensures orderId in repo ==>
        (r.Value? <==> Allowed(old(repo[orderId].status), t)) &&
        (r.Error? <==> !Allowed(old(repo[orderId].status), t)) &&
        repo[orderId].status == Step(old(repo[orderId].status), t) &&
        repo[orderId].updatedAt == (if r.Value? then now else old(repo[orderId].updatedAt))
      ensures r.Error? ==> r.message == Rejection(t)
      ensures r.Value? ==> orderId in repo && r.value == repo[orderId]
      ensures published == old(published) + (if r.Value? then [Announcement(t, orderId, reason)] else [])
    {
      if orderId !in repo {
        return Empty;
      }
      var order := repo[orderId];
      var outcome := order.Apply(t, now);
      if outcome.Fail? {
        return Error(outcome.message);
      }
      published := published + [Announcement(t, order.id, reason)];
      r := Value(order);
    }

    /** `confirmOrder`: only a PLACED order is confirmed and announced. */
    method ConfirmOrder(orderId: OrderId, now: Timestamp) returns (r: Reply<Order>)
      requires Valid()
      modifies this`published, Stored(orderId)
      ensures Valid() && repo == old(repo)
      ensures (r.Empty? <==> orderId !in repo) && (r.Empty? ==> published == old(published))
      ensures orderId in repo ==>
        (r.Value? <==> old(repo[orderId].status) == Placed) &&
        repo[orderId].status == (if r.Value? then Confirmed else old(repo[orderId].status))
      ensures r.Error? ==> r.message == ConfirmRejected
      ensures published == old(published) + (if r.Value? then [OrderConfirmed(orderId)] else [])
    {
      r := Transit(orderId, Confirming, "", now);
    }

    /** `cancelOrder`: any order not yet completed or cancelled; the event carries the reason. */
    method CancelOrder(orderId: OrderId, reason: string, now: Timestamp) returns (r: Reply<Order>)
      requires Valid()
      modifies this`published, Stored(orderId)
      ensures Valid() && repo == old(repo)
      ensures (r.Empty? <==> orderId !in repo) && (r.Empty? ==> published == old(published))
      ensures orderId in repo ==>
        (r.Value? <==> old(repo[orderId].status) !in {Completed, Cancelled}) &&
        repo[orderId].status == (if r.Value? then Cancelled else old(repo[orderId].status))
      ensures r.Error? ==> r.message == CancelRejected
      ensures published == old(published) + (if r.Value? then [OrderCanceled(orderId, reason)] else [])
    {
      r := Transit(orderId, Cancelling, reason, now);
    }

    /** `completeOrder`: only a DELIVERED order is completed and announced. */
    method CompleteOrder(orderId: OrderId, now: Timestamp) returns (r: Reply<Order>)
      requires Valid()
      modifies this`published, Stored(orderId)
      ensures Valid() && repo == old(repo)
      ensures (r.Empty? <==> orderId !in repo) && (r.Empty? ==> published == old(published))
      ensures orderId in repo ==>
        (r.Value? <==> old(repo[orderId].status) == Delivered) &&
        (r.Error? <==> old(repo[orderId].status) != Delivered) &&
        repo[orderId].status == (if r.Value? then Completed else old(repo[orderId].status))
      ensures r.Error? ==> r.message == CompleteRejected
      ensures published == old(published) + (if r.Value? then [OrderCompleted(orderId)] else [])
    {
      r := Transit(orderId, Completing, "", now);
    }
  }
}
