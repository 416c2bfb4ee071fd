/**
 * The service calls the event handlers make. A handler is modelled as a pure
 * function from the event it receives to the list of calls it issues, in
 * the order it issues them.
 */
module Commands {
  import OrderModel
  import AssemblyModel

  /** The supplier ids the handlers use for every reorder. */
  const DefaultFrameSupplier := "default-frame-supplier"
  const DefaultLensSupplier := "default-lens-supplier"

  datatype Command =
    | CheckFrameAvailability(frameCode: string, requiredQuantity: int)
    | CheckLensAvailability(lensCode: string, requiredQuantity: int)
    | OrderFrameWithSupplier(frameCode: string, quantity: int, supplierId: string)
    | OrderLensWithSupplier(lensCode: string, quantity: int, supplierId: string)
    | CreateAssembly(orderId: OrderModel.OrderId, components: seq<AssemblyModel.AssemblyComponent>)
    | CompleteOrder(orderId: OrderModel.OrderId)

  /** A call that buys stock from a supplier. */
  predicate IsSupplierOrder(c: Command) {
    c.OrderFrameWithSupplier? || c.OrderLensWithSupplier?
  }
}
