/**
 * The Shipping aggregate. Its state is a sealed sum: Pending, or Shipped /
 * Delivered carrying a tracking number and a carrier. `Ship` and `Deliver`
 * never change the receiver's state: they return a new record in the next
 * state and only touch the receiver's `updatedAt`.
 */
module ShippingModel {
  import opened Common
  import OrderModel

  datatype ShippingId = ShippingId(value: Uuid)

  datatype ShippingAddress = ShippingAddress(
    street: string, city: string, state: string, postalCode: string, country: string)

  datatype ShippingStatus = PendingStatus | ShippedStatus | DeliveredStatus

  datatype ShippingState =
    | Pending
    | Shipped(trackingNumber: string, carrier: string)
    | Delivered(trackingNumber: string, carrier: string)

  const ShipRejected := "Shipping can only be initiated when in PENDING status"
  const DeliverRejected := "Order can only be delivered when in SHIPPED status"

  /** `status`: each variant names its own status. */
  function StatusOf(s: ShippingState): (st: ShippingStatus)
    ensures st == PendingStatus <==> s.Pending?
    ensures st == ShippedStatus <==> s.Shipped?
    ensures st == DeliveredStatus <==> s.Delivered?
  {
    match s
    case Pending => PendingStatus
    case Shipped(_, _) => ShippedStatus
    case Delivered(_, _) => DeliveredStatus
  }

  /** `trackingNumber`: absent exactly while pending. */
  function TrackingNumberOf(s: ShippingState): (t: Option<string>)
    ensures t.None? <==> s.Pending?
    ensures t.Some? ==> t.value == s.trackingNumber
  {
    match s
    case Shipped(tn, _) => Some(tn)
    case Delivered(tn, _) => Some(tn)
    case Pending => None
  }

  /** `carrier`: absent exactly while pending. */
  function CarrierOf(s: ShippingState): (c: Option<string>)
    ensures c.None? <==> s.Pending?
    ensures c.Some? ==> c.value == s.carrier
  {
    match s
    case Shipped(_, c) => Some(c)
    case Delivered(_, c) => Some(c)
    case Pending => None
  }

  /** The state `ship` gives the new record: legal only from Pending. */
  function ShipState(s: ShippingState, trackingNumber: string, carrier: string): (r: Result<ShippingState>)
    ensures r.Ok? <==> StatusOf(s) == PendingStatus
    ensures r.Ok? ==>
      StatusOf(r.value) == ShippedStatus &&
      TrackingNumberOf(r.value) == Some(trackingNumber) && CarrierOf(r.value) == Some(carrier)
    ensures r.Failure? ==> r.message == ShipRejected
  {
    if s.Pending? then Ok(Shipped(trackingNumber, carrier)) else Failure(ShipRejected)
  }

  /** The state `deliver` gives the new record: legal only from Shipped, keeping its details. */
  function DeliverState(s: ShippingState): (r: Result<ShippingState>)
    ensures r.Ok? <==> StatusOf(s) == ShippedStatus
    ensures r.Ok? ==>
      StatusOf(r.value) == DeliveredStatus &&
      TrackingNumberOf(r.value) == TrackingNumberOf(s) && CarrierOf(r.value) == CarrierOf(s)
    ensures r.Failure? ==> r.message == DeliverRejected
  {
    match s
    case Shipped(tn, c) => Ok(Delivered(tn, c))
    case _ => Failure(DeliverRejected)
  }

  /** Shipping exposes exactly the given tracking number and carrier. */
  lemma ShipExposesDetails(trackingNumber: string, carrier: string)
    ensures ShipState(Pending, trackingNumber, carrier).Ok?
    ensures var s := ShipState(Pending, trackingNumber, carrier).value;
      StatusOf(s) == ShippedStatus && TrackingNumberOf(s) == Some(trackingNumber) && CarrierOf(s) == Some(carrier)
  {
  }

  /** Delivery keeps the tracking number and the carrier, whatever they are. */
  lemma {:induction false} DeliverKeepsDetails(s: ShippingState)
    ensures DeliverState(s).Ok? <==> s.Shipped?
    ensures DeliverState(s).Ok? ==>
      StatusOf(DeliverState(s).value) == DeliveredStatus &&
      TrackingNumberOf(DeliverState(s).value) == TrackingNumberOf(s) &&
      CarrierOf(DeliverState(s).value) == CarrierOf(s)
  {
  }

  /** Shipping twice fails, and so does delivering what was never shipped. */
  lemma NoSecondShipNoEarlyDelivery(trackingNumber: string, carrier: string, tn2: string, c2: string)
    ensures ShipState(ShipState(Pending, trackingNumber, carrier).value, tn2, c2) == Failure(ShipRejected)
    ensures DeliverState(Pending) == Failure(DeliverRejected)
  {
  }

  /** Every state other than Pending rejects `ship`; every state other than Shipped rejects `deliver`. */
  lemma TransitionsAreOneWay(s: ShippingState, tn: string, c: string)
    ensures ShipState(s, tn, c).Ok? <==> StatusOf(s) == PendingStatus
    ensures DeliverState(s).Ok? <==> StatusOf(s) == ShippedStatus
    ensures DeliverState(s).Ok? ==> ShipState(DeliverState(s).value, tn, c).Failure?
    ensures DeliverState(s).Ok? ==> DeliverState(DeliverState(s).value).Failure?
  {
  }

  class Shipping {
    const id: ShippingId
    const orderId: OrderModel.OrderId
    const state: ShippingState
    const address: ShippingAddress
    const createdAt: Timestamp
    var updatedAt: Timestamp

    function Status(): ShippingStatus { StatusOf(state) }
    function TrackingNumber(): Option<string> { TrackingNumberOf(state) }
    function Carrier(): Option<string> { CarrierOf(state) }

    /** The private all-fields constructor. */
    constructor Restore(id: ShippingId, orderId: OrderModel.OrderId, state: ShippingState,
                        address: ShippingAddress, createdAt: Timestamp, updatedAt: Timestamp)
      ensures this.id == id && this.orderId == orderId && this.state == state
      ensures this.address == address && this.createdAt == createdAt && this.updatedAt == updatedAt
    {
      this.id := id;
      this.orderId := orderId;
      this.state := state;
      this.address := address;
      this.createdAt := createdAt;
      this.updatedAt := updatedAt;
    }

    /** `create`: a new record is Pending, with neither tracking number nor carrier. */
    static method Create(freshId: Uuid, orderId: OrderModel.OrderId, address: ShippingAddress, now: Timestamp)
      returns (s: Shipping)
      ensures fresh(s)
      ensures s.id == ShippingId(freshId) && s.orderId == orderId && s.address == address
      ensures s.state == Pending && s.Status() == PendingStatus
      ensures s.TrackingNumber() == None && s.Carrier() == None
      ensures s.createdAt == now && s.updatedAt == now
    {
      s := new Shipping.Restore(ShippingId(freshId), orderId, Pending, address, now, now);
    }

    /**
     * `ship`: legal only from Pending. Returns a new record (fresh id, same
     * order, address and creation time) in the Shipped state; the receiver's
     * state stays as it was, only its `updatedAt` moves.
     */
    method Ship(trackingNumber: string, carrier: string, freshId: Uuid, now: Timestamp)
      returns (r: Result<Shipping>)
      modifies this`updatedAt
      ensures r.Ok? <==> state.Pending?
      ensures r.Failure? ==> r.message == ShipRejected && updatedAt == old(updatedAt)
      ensures r.Ok? ==> fresh(r.value) && updatedAt == now
      ensures r.Ok? ==> r.value.id == ShippingId(freshId) && r.value.orderId == orderId
                        && r.value.address == address && r.value.createdAt == createdAt
                        && r.value.updatedAt == now
      ensures r.Ok? ==> r.value.state == ShipState(state, trackingNumber, carrier).value
      ensures r.Ok? ==> r.value.TrackingNumber() == Some(trackingNumber) && r.value.Carrier() == Some(carrier)
    {
      if !state.Pending? {
        return Failure(ShipRejected);
      }
      updatedAt := now;
      var next := new Shipping.Restore(ShippingId(freshId), orderId, Shipped(trackingNumber, carrier),
                                       address, createdAt, updatedAt);
      r := Ok(next);
    }

    /**
     * `deliver`: legal only from Shipped. Returns a new record in the
     * Delivered state with the same tracking number and carrier.
     */
    method Deliver(freshId: Uuid, now: Timestamp) returns (r: Result<Shipping>)
      modifies this`updatedAt
      ensures r.Ok? <==> state.Shipped?
      ensures r.Failure? ==> r.message == DeliverRejected && updatedAt == old(updatedAt)
      ensures r.Ok? ==> fresh(r.value) && updatedAt == now
      ensures r.Ok? ==> r.value.id == ShippingId(freshId) && r.value.orderId == orderId
                        && r.value.address == address && r.value.createdAt == createdAt
                        && r.value.updatedAt == now
      ensures r.Ok? ==> r.value.state == DeliverState(state).value
      ensures r.Ok? ==> r.value.TrackingNumber() == TrackingNumber() && r.value.Carrier() == Carrier()
    {
      if !state.Shipped? {
        return Failure(DeliverRejected);
      }
      updatedAt := now;
      var next := new Shipping.Restore(ShippingId(freshId), orderId,
                                       Delivered(state.trackingNumber, state.carrier),
                                       address, createdAt, updatedAt);
      r := Ok(next);
    }
  }
}
