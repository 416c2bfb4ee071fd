/**
 * The shipping application service. `shipOrder` and `deliverOrder` call the
 * aggregate's `ship` / `deliver`, but then save and announce the receiver,
 * not the new record those operations return, so a stored record never
 * leaves the state it was created in. A shipment can therefore be announced
 * again and again, and a record created here can never be delivered.
 */
module ShippingApp {
  import opened Common
  import opened ShippingModel
  import OrderModel
  import DomainEvents

  class ShippingService {
    var repo: map<ShippingId, Shipping>
    var published: seq<DomainEvents.Event>

    /** Each record is stored under its own id. */
    ghost predicate Valid()
      reads this`repo
    {
      forall k :: k in repo ==> repo[k].id == k
    }

    /** Every stored record is still Pending, as every record this service creates stays. */
    ghost predicate AllPending()
      reads this`repo
    {
      forall k :: k in repo ==> repo[k].state == Pending
    }

    /** The stored record with this id, if any. */
    function Stored(shippingId: ShippingId): set<Shipping>
      reads this`repo
    {
      if shippingId in repo then {repo[shippingId]} else {}
    }

    constructor ()
      ensures Valid() && AllPending() && repo == map[] && published == []
    {
      repo := map[];
      published := [];
    }

    /** `createShipping`: saves a new Pending record; publishes nothing. */
    method CreateShipping(freshId: Uuid, orderId: OrderModel.OrderId, address: ShippingAddress, now: Timestamp)
      returns (s: Shipping)
      requires Valid()
      modifies this`repo
      ensures Valid() && (old(AllPending()) ==> AllPending())
      ensures fresh(s) && s.id == ShippingId(freshId) && s.orderId == orderId && s.address == address
      ensures s.state == Pending
      ensures repo == old(repo)[s.id := s] && published == old(published)
    {
      s := Shipping.Create(freshId, orderId, address, now);
      repo := repo[s.id := s];
    }

    /**
     * `shipOrder`: a Pending record is "shipped": the record `ship` returns is
     * dropped, the unchanged receiver (only its `updatedAt` moves) is saved
     * and returned, and one shipment event with the record's order id and the
     * given tracking number and carrier is published.
     */
    method ShipOrder(shippingId: ShippingId, trackingNumber: string, carrier: string, freshId: Uuid, now: Timestamp)
      returns (r: Reply<Shipping>)
      requires Valid()
      modifies this`published, Stored(shippingId)
      ensures Valid() && repo == old(repo)
      ensures old(AllPending()) ==> AllPending()
      ensures (r.Empty? <==> shippingId !in repo) && (r.Empty? ==> published == old(published))
      ensures shippingId in repo ==>
        (r.Value? <==> repo[shippingId].state.Pending?) &&
        repo[shippingId].updatedAt == (if r.Value? then now else old(repo[shippingId].updatedAt))
      ensures r.Error? ==> r.message == ShipRejected && published == old(published)
      ensures r.Value? ==>
        shippingId in repo && r.value == repo[shippingId] && r.value.state == Pending &&
        published == old(published) + [DomainEvents.OrderShipped(r.value.orderId, trackingNumber, carrier)]
    {
      if shippingId !in repo {
        return Empty;
      }
      var s := repo[shippingId];
      var next := s.Ship(trackingNumber, carrier, freshId, now);
      if next.Failure? {
        return Error(next.message);
      }
      published := published + [DomainEvents.OrderShipped(s.orderId, trackingNumber, carrier)];
      r := Value(s);
    }

    /**
     * `deliverOrder`: only a Shipped record passes `deliver`; the receiver is
     * saved and one delivery event with its order id is published.
     */
    method DeliverOrder(shippingId: ShippingId, freshId: Uuid, now: Timestamp) returns (r: Reply<Shipping>)
      requires Valid()
      modifies this`published, Stored(shippingId)
      ensures Valid() && repo == old(repo)
      ensures old(AllPending()) ==> AllPending() && !r.Value?
      ensures (r.Empty? <==> shippingId !in repo) && (r.Empty? ==> published == old(published))
      ensures shippingId in repo ==>
        (r.Value? <==> repo[shippingId].state.Shipped?) &&
        repo[shippingId].updatedAt == (if r.Value? then now else old(repo[shippingId].updatedAt))
      ensures r.Error? ==> r.message == DeliverRejected && published == old(published)
      ensures r.Value? ==>
        shippingId in repo && r.value == repo[shippingId] &&
        published == old(published) + [DomainEvents.OrderDelivered(r.value.orderId)]
    {
      if shippingId !in repo {
        return Empty;
      }
      var s := repo[shippingId];
      var next := s.Deliver(freshId, now);
      if next.Failure? {
        return Error(next.message);
      }
      published := published + [DomainEvents.OrderDelivered(s.orderId)];
      r := Value(s);
    }
  }
}
