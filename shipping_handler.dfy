/**
 * The shipping choreography: fixed chains of steps run after a shipment and
 * after a delivery. Notifications, tracking and feedback only log; the one
 * step that changes state is the `completeOrder` call after a seven-day wait.
 * The chain is built with `then`, so a step that signals an error stops the
 * steps after it, while an empty reply does not.
 */
module ShippingHandler {
  import opened DomainEvents
  import opened Commands
  import OrderModel

  /** The grace period before a delivered order is completed. */
  const CompletionDelayDays := 7

  datatype Step =
    | SendShippingNotification(orderId: OrderModel.OrderId, trackingNumber: string, carrier: string)
    | UpdateShippingTracking(orderId: OrderModel.OrderId, carrier: string)
    | UpdateExternalSystems(orderId: OrderModel.OrderId)
    | SendDeliveryNotification(orderId: OrderModel.OrderId)
    | Wait(days: nat)
    | Invoke(command: Command)
    | CollectDeliveryFeedback(orderId: OrderModel.OrderId)

  /** `updateOrderStatus`: wait, then complete the order. */
  function UpdateOrderStatus(orderId: OrderModel.OrderId): seq<Step> {
    [Wait(CompletionDelayDays), Invoke(CompleteOrder(orderId))]
  }

  /** `handleOrderShipped`: notify, update tracking, update external systems; no service call. */
  function HandleOrderShipped(e: Event): (steps: seq<Step>)
    requires e.OrderShipped?
    ensures |steps| == 3
    ensures steps[0] == SendShippingNotification(e.orderId, e.trackingNumber, e.carrier)
    ensures steps[1] == UpdateShippingTracking(e.orderId, e.carrier) && steps[2] == UpdateExternalSystems(e.orderId)
    ensures forall k :: 0 <= k < |steps| ==> !steps[k].Invoke? && steps[k].orderId == e.orderId
  {
    [SendShippingNotification(e.orderId, e.trackingNumber, e.carrier),
     UpdateShippingTracking(e.orderId, e.carrier),
     UpdateExternalSystems(e.orderId)]
  }

  /**
   * `handleOrderDelivered`: notify, then (after seven days) complete the
   * order, then collect feedback. Completing this order is the only call.
   */
  function HandleOrderDelivered(e: Event): (steps: seq<Step>)
    requires e.OrderDelivered?
    ensures |steps| == 4
    ensures steps[0] == SendDeliveryNotification(e.orderId)
    ensures steps[1] == Wait(7) && steps[2] == Invoke(CompleteOrder(e.orderId))
    ensures steps[3] == CollectDeliveryFeedback(e.orderId)
    ensures forall k :: 0 <= k < |steps| && steps[k].Invoke? ==> steps[k].command == CompleteOrder(e.orderId)
  {
    [SendDeliveryNotification(e.orderId)] + UpdateOrderStatus(e.orderId) + [CollectDeliveryFeedback(e.orderId)]
  }

  /**
   * The steps of a `then` chain that actually run, when the calls in
   * `erroring` signal an error: everything up to and including the first
   * failing call.
   */
  function Performed(steps: seq<Step>, erroring: set<Command>): (run: seq<Step>)
    ensures |run| <= |steps| && run == steps[..|run|]
    ensures forall k :: 0 <= k < |run| - 1 ==> !(run[k].Invoke? && run[k].command in erroring)
    ensures |run| < |steps| ==> run != [] && run[|run| - 1].Invoke? && run[|run| - 1].command in erroring
    decreases |steps|
  {
    if steps == [] then []
    else if steps[0].Invoke? && steps[0].command in erroring then [steps[0]]
    else [steps[0]] + Performed(steps[1..], erroring)
  }

  /** Feedback after a delivery is collected exactly when completing the order does not fail. */
  lemma {:induction false} FeedbackIffCompletionSucceeds(e: Event, erroring: set<Command>)
    requires e.OrderDelivered?
    ensures CollectDeliveryFeedback(e.orderId) in Performed(HandleOrderDelivered(e), erroring)
            <==> CompleteOrder(e.orderId) !in erroring
    ensures Invoke(CompleteOrder(e.orderId)) in Performed(HandleOrderDelivered(e), erroring)
  {
    var steps := HandleOrderDelivered(e);
    var run := Performed(steps, erroring);
    if CompleteOrder(e.orderId) in erroring {
      assert run == steps[..3];
    } else {
      assert run == steps;
    }
  }

  /** The steps after a shipment never fail, so all of them run. */
  lemma ShipmentStepsAllRun(e: Event, erroring: set<Command>)
    requires e.OrderShipped?
    ensures Performed(HandleOrderShipped(e), erroring) == HandleOrderShipped(e)
  {
  }
}
