/**
 * Worked examples of the choreography, end to end: a service call, the
 * events it publishes, and what the subscribed handler asks for next.
 */
module Scenarios {
  import opened Common
  import InventoryModel
  import OrderModel
  import AssemblyModel
  import ShippingModel
  import opened DomainEvents
  import opened Commands
  import InventoryApp
  import OrderApp
  import AssemblyApp
  import ShippingApp
  import InventoryHandler
  import OrderHandler
  import ShippingHandler

  /**
   * Frame F001 holds 5 units with a minimum of 10. A check for 8 fails, the
   * check event reports 5 available, and the inventory handler reorders
   * (8 - 5) + 10 = 13 frames from the default frame supplier.
   */
  method FrameShortfallReorder() returns (available: bool, checked: Event, reaction: seq<Command>)
    ensures !available
    ensures checked.FrameAvailabilityChecked? && checked.frameCode == "F001"
    ensures !checked.isAvailable && checked.requestedQuantity == 8 && checked.availableQuantity == 5
    ensures reaction == [OrderFrameWithSupplier("F001", 13, DefaultFrameSupplier)]
  {
    var created := InventoryModel.Inventory.Create(1, InventoryModel.Frame, "F001", "frame", 5, 10, 0);
    var item := created.value;
    var service := new InventoryApp.InventoryService.Seeded(map[item.id := item]);
    assert item.id in service.repo && service.repo[item.id].itemCode == "F001";
    available := service.CheckFrameAvailability("F001", 8);
    checked := service.published[0];
    reaction := InventoryHandler.React(checked);
  }

  /**
   * Lens L002 holds 3 units with a minimum of 20. Acquiring 2 leaves 1 and
   * publishes the acquisition and then a low-stock event; since 1 is below
   * a fifth of 20, the handler reorders (20 * 2) - 1 = 39 lenses.
   */
  method CriticalLensReorder() returns (acquired: Result<bool>, events: seq<Event>, reaction: seq<Command>)
    ensures acquired == Ok(true)
    ensures |events| == 2 && events[0].LensAcquired? && events[0].remainingQuantity == 1
    ensures events[1].InventoryLevelLow? && events[1].itemType == InventoryModel.Lens
    ensures events[1].currentQuantity == 1 && events[1].minimumStockLevel == 20
    ensures reaction == [OrderLensWithSupplier("L002", 39, DefaultLensSupplier)]
  {
    var created := InventoryModel.Inventory.Create(2, InventoryModel.Lens, "L002", "lens", 3, 20, 0);
    var item := created.value;
    var service := new InventoryApp.InventoryService.Seeded(map[item.id := item]);
    assert item.id in service.repo && service.repo[item.id].itemCode == "L002";
    acquired := service.AcquireLens("L002", 2, 1);
    events := service.published;
    reaction := InventoryHandler.React(events[1]);
  }

  /**
   * An assembly of two components, one already acquired, cannot be
   * completed; once the second is acquired it can, and exactly one
   * order-assembled event is published.
   */
  method AssembleTwoComponents() returns (early: Reply<AssemblyModel.Assembly>, late: Reply<AssemblyModel.Assembly>,
                                          events: seq<Event>)
    ensures early == Error(AssemblyModel.ComponentsMissing)
    ensures late.Value? && late.value.status == AssemblyModel.Completed
    ensures events == [OrderAssembled(OrderModel.OrderId(7))]
  {
    var frame := AssemblyModel.AssemblyComponent("frame-1", AssemblyModel.Frame, "frame", true);
    var lens := AssemblyModel.AssemblyComponent("lens-1", AssemblyModel.Lens, "lens", false);
    var service := new AssemblyApp.AssemblyService();
    var a := service.CreateAssembly(3, OrderModel.OrderId(7), [frame, lens], 0);
    var started := service.StartAssembly(a.id, 1);
    assert !AssemblyModel.AllAcquired(a.components) by { assert !a.components[1].acquired; }
    early := service.CompleteAssembly(a.id, 2);
    var acquired := service.AcquireComponent(a.id, "lens-1", 3);
    assert a.components == [frame, lens.(acquired := true)];
    late := service.CompleteAssembly(a.id, 4);
    events := service.published;
  }

  /**
   * Because the service keeps the unchanged receiver, shipping the same
   * record twice succeeds twice and announces the shipment twice, and the
   * record can still not be delivered.
   */
  method ShipTwiceNeverDelivered() returns (first: Reply<ShippingModel.Shipping>, second: Reply<ShippingModel.Shipping>,
                                            delivered: Reply<ShippingModel.Shipping>, events: seq<Event>)
    ensures first.Value? && second.Value? && first.value == second.value
    ensures first.value.state == ShippingModel.Pending
    ensures events == [OrderShipped(OrderModel.OrderId(7), "TRK-1", "carrier"),
                       OrderShipped(OrderModel.OrderId(7), "TRK-1", "carrier")]
    ensures delivered == Error(ShippingModel.DeliverRejected)
  {
    var address := ShippingModel.ShippingAddress("street", "city", "state", "00000", "country");
    var service := new ShippingApp.ShippingService();
    var s := service.CreateShipping(4, OrderModel.OrderId(7), address, 0);
    first := service.ShipOrder(s.id, "TRK-1", "carrier", 5, 1);
    second := service.ShipOrder(s.id, "TRK-1", "carrier", 6, 2);
    delivered := service.DeliverOrder(s.id, 8, 3);
    events := service.published;
  }

  /**
   * A confirmed order makes the order handler create an assembly with no
   * components, which can be started and completed at once; the order
   * itself stays CONFIRMED, since no order operation records assembly.
   */
  method ConfirmedOrderAssembly() returns (reaction: seq<Command>, completed: Reply<AssemblyModel.Assembly>,
                                           status: OrderModel.OrderStatus)
    ensures reaction == [CreateAssembly(OrderModel.OrderId(9), [])]
    ensures completed.Value? && completed.value.status == AssemblyModel.Completed
    ensures status == OrderModel.Confirmed
  {
    var orders := new OrderApp.OrderService();
    var item := OrderModel.OrderItem("p-1", "F001", "L002", 1);
    var order := orders.PlaceOrder(9, OrderModel.CustomerId(1), [item], 0);
    var confirmed := orders.ConfirmOrder(order.id, 1);
    reaction := OrderHandler.React(orders.published[1], []);
    var assemblies := new AssemblyApp.AssemblyService();
    var a := assemblies.CreateAssembly(10, reaction[0].orderId, reaction[0].components, 2);
    var started := assemblies.StartAssembly(a.id, 3);
    completed := assemblies.CompleteAssembly(a.id, 4);
    status := order.status;
  }

  /**
   * A delivery event for an order that is only CONFIRMED: the completion
   * call after the grace period fails, so feedback is never collected.
   */
  method DeliveryOfUndeliveredOrder() returns (completion: Reply<OrderModel.Order>, performed: seq<ShippingHandler.Step>)
    ensures completion == Error(OrderModel.CompleteRejected)
    ensures |performed| == 3 && performed[2] == ShippingHandler.Invoke(CompleteOrder(OrderModel.OrderId(11)))
  {
    var orders := new OrderApp.OrderService();
    var order := orders.PlaceOrder(11, OrderModel.CustomerId(1), [], 0);
    var confirmed := orders.ConfirmOrder(order.id, 1);
    var steps := ShippingHandler.HandleOrderDelivered(OrderDelivered(order.id));
    completion := orders.CompleteOrder(order.id, 2);
    var erroring := if completion.Error? then {CompleteOrder(order.id)} else {};
    ShippingHandler.FeedbackIffCompletionSucceeds(OrderDelivered(order.id), erroring);
    performed := ShippingHandler.Performed(steps, erroring);
  }
}
