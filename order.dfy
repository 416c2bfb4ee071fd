/**
 * The Order aggregate: a customer's list of line items and a status that
 * `Confirm`, `Cancel` and `Complete` overwrite, each only from the statuses
 * its rule allows.
 */
module OrderModel {
  import opened Common

  datatype OrderId = OrderId(value: Uuid)
  datatype CustomerId = CustomerId(value: Uuid)

  /** One line of an order (its price is not part of the model). */
  datatype OrderItem = OrderItem(productId: string, frameType: string, lensType: string, quantity: int)

  datatype OrderStatus = Placed | Confirmed | Cancelled | Assembled | Shipped | Delivered | Completed

  /** The three operations an order offers after it has been placed. */
  datatype Transition = Confirming | Cancelling | Completing

  const ConfirmRejected := "Order can only be confirmed when in PLACED status"
  const CancelRejected := "Cannot cancel an order that is already completed or cancelled"
  const CompleteRejected := "Order can only be completed when in DELIVERED status"

  /** The rule each transition checks before it changes anything. */
  predicate Allowed(s: OrderStatus, t: Transition) {
    match t
    case Confirming => s == Placed
    case Cancelling => s != Completed && s != Cancelled
    case Completing => s == Delivered
  }

  /** The status a transition sets when its rule holds. */
  function Target(t: Transition): OrderStatus {
    match t
    case Confirming => Confirmed
    case Cancelling => Cancelled
    case Completing => Completed
  }

  function Rejection(t: Transition): string {
    match t
    case Confirming => ConfirmRejected
    case Cancelling => CancelRejected
    case Completing => CompleteRejected
  }

  /** The status after attempting `t`: a rejected transition leaves it unchanged. */
  function Step(s: OrderStatus, t: Transition): (r: OrderStatus)
    ensures Allowed(s, t) ==> r == Target(t)
    ensures !Allowed(s, t) ==> r == s
    ensures r in {s, Confirmed, Cancelled, Completed}
  {
    if Allowed(s, t) then Target(t) else s
  }

  /**
   * The status after attempting each transition of `ts` in turn: the start
   * status, or the target of one of the transitions attempted.
   */
  function Run(s: OrderStatus, ts: seq<Transition>): (r: OrderStatus)
    ensures r == s || exists i :: 0 <= i < |ts| && r == Target(ts[i])
    decreases |ts|
  {
    if ts == [] then s else Run(Step(s, ts[0]), ts[1..])
  }

  /** Cancellation succeeds from every status but the two terminal ones. */
  lemma CancelAllowedFrom(s: OrderStatus)
    ensures Allowed(s, Cancelling) <==> s in {Placed, Confirmed, Assembled, Shipped, Delivered}
  {
  }

  /** No transition sets ASSEMBLED, SHIPPED or DELIVERED. */
  lemma NoTransitionSetsFulfilmentStatus(s: OrderStatus, t: Transition)
    ensures Step(s, t) in {Assembled, Shipped, Delivered} ==> Step(s, t) == s
  {
  }

  /** CANCELLED and COMPLETED are absorbing, however many transitions follow. */
  lemma {:induction false} TerminalIsAbsorbing(s: OrderStatus, ts: seq<Transition>)
    requires s == Cancelled || s == Completed
    ensures Run(s, ts) == s
    decreases |ts|
  {
    if ts != [] {
      assert Step(s, ts[0]) == s;
      TerminalIsAbsorbing(s, ts[1..]);
    }
  }

  /** From PLACED, CONFIRMED or CANCELLED, no sequence of transitions leaves those three. */
  lemma {:induction false} EarlyStatusesAreClosed(s: OrderStatus, ts: seq<Transition>)
    requires s in {Placed, Confirmed, Cancelled}
    ensures Run(s, ts) in {Placed, Confirmed, Cancelled}
    decreases |ts|
  {
    if ts != [] {
      EarlyStatusesAreClosed(Step(s, ts[0]), ts[1..]);
    }
  }

  /** A freshly placed order can only ever be PLACED, CONFIRMED or CANCELLED. */
  lemma ReachableFromPlaced(ts: seq<Transition>)
    ensures Run(Placed, ts) in {Placed, Confirmed, Cancelled}
    ensures Run(Placed, ts) != Completed
  {
    EarlyStatusesAreClosed(Placed, ts);
  }

  class Order {
    const id: OrderId
    var status: OrderStatus
    const customerId: CustomerId
    const items: seq<OrderItem>
    const createdAt: Timestamp
    var updatedAt: Timestamp

    /** `place`: a new order is PLACED and keeps the given items in the given order. */
    constructor Place(freshId: Uuid, customerId: CustomerId, items: seq<OrderItem>, now: Timestamp)
      ensures id == OrderId(freshId) && status == Placed
      ensures this.customerId == customerId && this.items == items
      ensures createdAt == now && updatedAt == now
    {
      id := OrderId(freshId);
      status := Placed;
      this.customerId := customerId;
      this.items := items;
      createdAt := now;
      updatedAt := now;
    }

    /** Applies one transition; the rule is checked before anything is assigned. */
    method Apply(t: Transition, now: Timestamp) returns (r: Outcome)
      modifies this`status, this`updatedAt
      ensures r.Pass? <==> Allowed(old(status), t)
      ensures r.Fail? ==> r.message == Rejection(t)
      ensures status == Step(old(status), t)
      ensures updatedAt == if r.Pass? then now else old(updatedAt)
    {
      if !Allowed(status, t) {
        return Fail(Rejection(t));
      }
      status := Target(t);
      updatedAt := now;
      r := Pass;
    }

    /** `confirm`: only from PLACED; sets CONFIRMED. */
    method Confirm(now: Timestamp) returns (r: Outcome)
      modifies this`status, this`updatedAt
      ensures r.Pass? <==> old(status) == Placed
      ensures status == if r.Pass? then Confirmed else old(status)
      ensures updatedAt == if r.Pass? then now else old(updatedAt)
    {
      r := Apply(Confirming, now);
    }

    /** `cancel`: from every status but COMPLETED and CANCELLED; the reason is not stored. */
    method Cancel(reason: string, now: Timestamp) returns (r: Outcome)
      modifies this`status, this`updatedAt
      ensures r.Pass? <==> old(status) != Completed && old(status) != Cancelled
      ensures status == if r.Pass? then Cancelled else old(status)
      ensures updatedAt == if r.Pass? then now else old(updatedAt)
    {
      r := Apply(Cancelling, now);
    }

    /** `complete`: only from DELIVERED; sets COMPLETED. */
    method Complete(now: Timestamp) returns (r: Outcome)
      modifies this`status, this`updatedAt
      ensures r.Pass? <==> old(status) == Delivered
      ensures status == if r.Pass? then Completed else old(status)
      ensures updatedAt == if r.Pass? then now else old(updatedAt)
    {
      r := Apply(Completing, now);
    }
  }
}
