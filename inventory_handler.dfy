/**
 * The inventory choreography: what the inventory event handler asks the
 * inventory service to do when an availability check, a low-stock warning,
 * an acquisition or a supplier order is published. Every reaction is at most
 * one supplier order.
 */
module InventoryHandler {
  import opened DomainEvents
  import opened Commands
  import InventoryModel

  /** Reorder automatically only below this fraction of the minimum stock level. */
  const AutoReorderThreshold: real := 0.2

  /** The buffer added on top of a shortfall. */
  const DefaultReorderQuantity := 10

  /** The `defaultSupplierIds` table, which has an entry for both item types. */
  function DefaultSupplier(t: InventoryModel.ItemType): string {
    match t
    case Frame => DefaultFrameSupplier
    case Lens => DefaultLensSupplier
  }

  /** The item code a supplier order is for. */
  function OrderedCode(c: Command): string
    requires IsSupplierOrder(c)
  {
    if c.OrderFrameWithSupplier? then c.frameCode else c.lensCode
  }

  /** `handleLowFrameInventory`: a frame reorder for the shortfall plus the buffer. */
  function HandleLowFrameInventory(frameCode: string, shortfall: int): Command {
    OrderFrameWithSupplier(frameCode, shortfall + DefaultReorderQuantity, DefaultSupplier(InventoryModel.Frame))
  }

  /** `handleLowLensInventory`: a lens reorder for the shortfall plus the buffer. */
  function HandleLowLensInventory(lensCode: string, shortfall: int): Command {
    OrderLensWithSupplier(lensCode, shortfall + DefaultReorderQuantity, DefaultSupplier(InventoryModel.Lens))
  }

  /**
   * `handleFrameAvailabilityChecked`: a failed check that found fewer frames
   * than requested reorders enough to cover the request with ten to spare.
   */
  function HandleFrameAvailabilityChecked(e: Event): (cs: seq<Command>)
    requires e.FrameAvailabilityChecked?
    ensures |cs| <= 1
    ensures cs != [] <==> !e.isAvailable && e.availableQuantity < e.requestedQuantity
    ensures cs != [] ==> cs[0].OrderFrameWithSupplier? && cs[0].frameCode == e.frameCode
                         && cs[0].supplierId == DefaultFrameSupplier
                         && e.availableQuantity + cs[0].quantity == e.requestedQuantity + DefaultReorderQuantity
                         && cs[0].quantity > DefaultReorderQuantity
  {
    if !e.isAvailable && e.availableQuantity < e.requestedQuantity then
      [HandleLowFrameInventory(e.frameCode, e.requestedQuantity - e.availableQuantity)]
    else
      []
  }

  /** `handleLensAvailabilityChecked`: the same rule for lenses. */
  function HandleLensAvailabilityChecked(e: Event): (cs: seq<Command>)
    requires e.LensAvailabilityChecked?
    ensures |cs| <= 1
    ensures cs != [] <==> !e.isAvailable && e.availableQuantity < e.requestedQuantity
    ensures cs != [] ==> cs[0].OrderLensWithSupplier? && cs[0].lensCode == e.lensCode
                         && cs[0].supplierId == DefaultLensSupplier
                         && e.availableQuantity + cs[0].quantity == e.requestedQuantity + DefaultReorderQuantity
                         && cs[0].quantity > DefaultReorderQuantity
  {
    if !e.isAvailable && e.availableQuantity < e.requestedQuantity then
      [HandleLowLensInventory(e.lensCode, e.requestedQuantity - e.availableQuantity)]
    else
      []
  }

  /** The stock is below a fifth of the minimum (`current < minimum * 0.2`). */
  predicate CriticallyLow(current: int, minimum: int) {
    (current as real) < (minimum as real) * AutoReorderThreshold
  }

  /** On integers the fractional threshold is the same as `5 * current < minimum`. */
  lemma CriticallyLowIsFifth(current: int, minimum: int)
    ensures CriticallyLow(current, minimum) <==> 5 * current < minimum
  {
    assert (minimum as real) * AutoReorderThreshold == (minimum as real) / 5.0;
  }

  /**
   * `handleInventoryLevelLow`: below a fifth of the minimum, reorder the
   * item, by its type, up to twice the minimum; otherwise do nothing.
   */
  function HandleInventoryLevelLow(e: Event): (cs: seq<Command>)
    requires e.InventoryLevelLow?
    ensures |cs| <= 1
    ensures cs != [] <==> 5 * e.currentQuantity < e.minimumStockLevel
    ensures cs != [] ==> IsSupplierOrder(cs[0])
                         && (cs[0].OrderFrameWithSupplier? <==> e.itemType == InventoryModel.Frame)
                         && OrderedCode(cs[0]) == e.itemCode
                         && cs[0].supplierId == DefaultSupplier(e.itemType)
                         && e.currentQuantity + cs[0].quantity == 2 * e.minimumStockLevel
    ensures cs != [] && e.currentQuantity >= 0 ==> cs[0].quantity > 0
  {
    CriticallyLowIsFifth(e.currentQuantity, e.minimumStockLevel);
    if CriticallyLow(e.currentQuantity, e.minimumStockLevel) then
      var reorderQuantity := e.minimumStockLevel * 2 - e.currentQuantity;
      match e.itemType
      case Frame => [OrderFrameWithSupplier(e.itemCode, reorderQuantity, DefaultSupplier(e.itemType))]
      case Lens => [OrderLensWithSupplier(e.itemCode, reorderQuantity, DefaultSupplier(e.itemType))]
    else
      []
  }

  /**
   * The handler as a whole: the three rules above, while acquisitions and
   * supplier orders are only logged. Other events are not subscribed to.
   */
  function React(e: Event): (cs: seq<Command>)
    ensures |cs| <= 1
    ensures forall c :: c in cs ==> IsSupplierOrder(c)
    ensures cs != [] ==> e.FrameAvailabilityChecked? || e.LensAvailabilityChecked? || e.InventoryLevelLow?
  {
    match e
    case FrameAvailabilityChecked(_, _, _, _, _) => HandleFrameAvailabilityChecked(e)
    case LensAvailabilityChecked(_, _, _, _, _) => HandleLensAvailabilityChecked(e)
    case InventoryLevelLow(_, _, _, _, _) => HandleInventoryLevelLow(e)
    case FrameAcquired(_, _, _, _) => []
    case LensAcquired(_, _, _, _) => []
    case FrameOrderedWithSupplier(_, _, _, _) => []
    case LensOrderedWithSupplier(_, _, _, _) => []
    case _ => []
  }

  /**
   * For a check the inventory service published (its `isAvailable` is
   * `quantity >= requested`), the handler reorders exactly when the stock
   * falls short of the request.
   */
  lemma ServiceCheckReordersIffShort(id: InventoryModel.InventoryId, code: string, requested: int, available: int)
    ensures var cs := React(FrameAvailabilityChecked(id, code, available >= requested, requested, available));
      cs != [] <==> available < requested
    ensures var cs := React(LensAvailabilityChecked(id, code, available >= requested, requested, available));
      cs != [] <==> available < requested
  {
  }

  /** A reorder after a low-stock warning restocks to exactly twice the minimum. */
  lemma ReorderRestoresTwiceMinimum(e: Event)
    requires e.InventoryLevelLow? && e.currentQuantity >= 0
    ensures React(e) != [] ==> e.currentQuantity + React(e)[0].quantity == 2 * e.minimumStockLevel
    ensures React(e) != [] ==> React(e)[0].quantity > e.minimumStockLevel
  {
  }
}
