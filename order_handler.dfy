/**
 * The order choreography: a placed order is checked item by item against
 * the inventory, and if any check fails every item is reordered from the
 * suppliers; a confirmed order gets an (empty) assembly. The checks run one
 * after another (`Flux.concat`), so their answers come back in issue order.
 */
module OrderHandler {
  import opened DomainEvents
  import opened Commands

  /** The checks for the items: frame then lens, per item, in item order. */
  function AvailabilityChecks(items: seq<OrderItemDto>): (cs: seq<Command>)
    ensures |cs| == 2 * |items|
    ensures forall i :: 0 <= i < |items| ==>
      cs[2 * i] == CheckFrameAvailability(items[i].frameType, items[i].quantity) &&
      cs[2 * i + 1] == CheckLensAvailability(items[i].lensType, items[i].quantity)
    ensures forall c :: c in cs ==> c.CheckFrameAvailability? || c.CheckLensAvailability?
    decreases |items|
  {
    if items == [] then []
    else
      [CheckFrameAvailability(items[0].frameType, items[0].quantity),
       CheckLensAvailability(items[0].lensType, items[0].quantity)]
      + AvailabilityChecks(items[1..])
  }

  /**
   * `handleInventoryUnavailability`: a frame order and a lens order for every
   * item, with the item's quantity and the fixed supplier ids.
   */
  function SupplierOrders(items: seq<OrderItemDto>): (cs: seq<Command>)
    ensures |cs| == 2 * |items|
    ensures forall i :: 0 <= i < |items| ==>
      cs[2 * i] == OrderFrameWithSupplier(items[i].frameType, items[i].quantity, DefaultFrameSupplier) &&
      cs[2 * i + 1] == OrderLensWithSupplier(items[i].lensType, items[i].quantity, DefaultLensSupplier)
    ensures forall c :: c in cs ==> IsSupplierOrder(c)
    decreases |items|
  {
    if items == [] then []
    else
      [OrderFrameWithSupplier(items[0].frameType, items[0].quantity, DefaultFrameSupplier),
       OrderLensWithSupplier(items[0].lensType, items[0].quantity, DefaultLensSupplier)]
      + SupplierOrders(items[1..])
  }

  predicate AllTrue(results: seq<bool>) {
    forall k :: 0 <= k < |results| ==> results[k]
  }

  /**
   * `handleOrderPlaced`: the availability checks, then, given their answers
   * `results`, the supplier orders unless every answer was true.
   */
  function HandleOrderPlaced(e: Event, results: seq<bool>): (cs: seq<Command>)
    requires e.OrderPlaced?
    ensures 2 * |e.items| <= |cs|
    ensures cs[..2 * |e.items|] == AvailabilityChecks(e.items)
    ensures |cs| == 2 * |e.items| <==> AllTrue(results) || e.items == []
    ensures !AllTrue(results) ==> cs[2 * |e.items|..] == SupplierOrders(e.items)
  {
    var checks := AvailabilityChecks(e.items);
    if AllTrue(results) then checks else checks + SupplierOrders(e.items)
  }

  /** `handleOrderConfirmed` / `createAssemblyForOrder`: an assembly with no components. */
  function HandleOrderConfirmed(e: Event): (cs: seq<Command>)
    requires e.OrderConfirmed?
    ensures |cs| == 1 && cs[0].CreateAssembly?
    ensures cs[0].orderId == e.orderId && cs[0].components == []
  {
    [CreateAssembly(e.orderId, [])]
  }

  /**
   * The handler as a whole. Cancellation, assembly, shipping, delivery and
   * completion are only logged; other events are not subscribed to.
   */
  function React(e: Event, results: seq<bool>): (cs: seq<Command>)
    ensures e.OrderConfirmed? ==> cs == [CreateAssembly(e.orderId, [])]
    ensures !e.OrderPlaced? && !e.OrderConfirmed? ==> cs == []
    ensures forall c :: c in cs ==> !c.CompleteOrder?
  {
    match e
    case OrderPlaced(_, _, _) => HandleOrderPlaced(e, results)
    case OrderConfirmed(_) => HandleOrderConfirmed(e)
    case OrderCanceled(_, _) => []
    case OrderAssembled(_) => []
    case OrderShipped(_, _, _) => []
    case OrderDelivered(_) => []
    case OrderCompleted(_) => []
    case _ => []
  }

  /** What the inventory service answers to a check, given the stock per item code. */
  function Answer(stock: map<string, int>, c: Command): bool {
    match c
    case CheckFrameAvailability(code, q) => code in stock && stock[code] >= q
    case CheckLensAvailability(code, q) => code in stock && stock[code] >= q
    case _ => false
  }

  /** The answers to a list of checks, in order. */
  function Answers(stock: map<string, int>, cs: seq<Command>): (rs: seq<bool>)
    ensures |rs| == |cs| && forall k :: 0 <= k < |cs| ==> rs[k] == Answer(stock, cs[k])
  {
    seq(|cs|, k requires 0 <= k < |cs| => Answer(stock, cs[k]))
  }

  /** Every item has both its frame and its lens in stock in the quantity it asks for. */
  predicate AllInStock(stock: map<string, int>, items: seq<OrderItemDto>) {
    forall i :: 0 <= i < |items| ==>
      items[i].frameType in stock && stock[items[i].frameType] >= items[i].quantity &&
      items[i].lensType in stock && stock[items[i].lensType] >= items[i].quantity
  }

  /**
   * Against a fixed stock, a placed order triggers supplier orders exactly
   * when some frame or lens is unknown or short, and then for every item.
   */
  lemma ReordersIffSomethingShort(stock: map<string, int>, e: Event)
    requires e.OrderPlaced?
    ensures var cs := HandleOrderPlaced(e, Answers(stock, AvailabilityChecks(e.items)));
      (|cs| > 2 * |e.items| <==> !AllInStock(stock, e.items)) &&
      (!AllInStock(stock, e.items) ==> |cs| == 4 * |e.items|)
  {
    var items := e.items;
    var checks := AvailabilityChecks(items);
    var rs := Answers(stock, checks);
    if AllInStock(stock, items) {
      forall k | 0 <= k < |rs|
        ensures rs[k]
      {
        var i := k / 2;
        if k == 2 * i {
          assert checks[k] == CheckFrameAvailability(items[i].frameType, items[i].quantity);
        } else {
          assert k == 2 * i + 1;
          assert checks[k] == CheckLensAvailability(items[i].lensType, items[i].quantity);
        }
      }
    } else {
      var i :| 0 <= i < |items| && !(
        items[i].frameType in stock && stock[items[i].frameType] >= items[i].quantity &&
        items[i].lensType in stock && stock[items[i].lensType] >= items[i].quantity);
      assert !rs[2 * i] || !rs[2 * i + 1];
    }
  }
}
