/**
 * The Inventory aggregate: the stock of one frame or lens model, with an
 * integer quantity that `Acquire` lowers and `Restock` raises.
 */
module InventoryModel {
  import opened Common

  datatype InventoryId = InventoryId(value: Uuid)

  datatype ItemType = Frame | Lens

  datatype SupplierOrderStatus = Ordered | Received | Cancelled

  /** A purchase of stock from a supplier; a plain value, never updated. */
  datatype SupplierOrder = SupplierOrder(
    id: Uuid,
    itemType: ItemType,
    itemCode: string,
    quantity: int,
    status: SupplierOrderStatus,
    orderedAt: Timestamp)

  const InitialQuantityNegative := "Initial quantity cannot be negative"
  const MinimumStockNegative := "Minimum stock level cannot be negative"
  const AcquireNotPositive := "Quantity to acquire must be positive"
  const RestockNotPositive := "Quantity to add must be positive"

  class Inventory {
    const id: InventoryId
    const itemType: ItemType
    const itemCode: string
    const description: string
    var quantity: int
    const minimumStockLevel: int
    const createdAt: Timestamp
    var updatedAt: Timestamp

    /** The invariant `Create` establishes and every operation keeps. */
    ghost predicate Valid()
      reads this
    {
      quantity >= 0 && minimumStockLevel >= 0
    }

    /** The private all-fields constructor; it checks nothing. */
    constructor Restore(id: InventoryId, itemType: ItemType, itemCode: string, description: string,
                        quantity: int, minimumStockLevel: int, createdAt: Timestamp, updatedAt: Timestamp)
      ensures this.id == id && this.itemType == itemType && this.itemCode == itemCode
      ensures this.description == description && this.quantity == quantity
      ensures this.minimumStockLevel == minimumStockLevel
      ensures this.createdAt == createdAt && this.updatedAt == updatedAt
    {
      this.id := id;
      this.itemType := itemType;
      this.itemCode := itemCode;
      this.description := description;
      this.quantity := quantity;
      this.minimumStockLevel := minimumStockLevel;
      this.createdAt := createdAt;
      this.updatedAt := updatedAt;
    }

    /** The factory: rejects a negative initial quantity, then a negative minimum. */
    static method Create(freshId: Uuid, itemType: ItemType, itemCode: string, description: string,
                         initialQuantity: int, minimumStockLevel: int, now: Timestamp)
      returns (r: Result<Inventory>)
      ensures r.Ok? <==> initialQuantity >= 0 && minimumStockLevel >= 0
      ensures initialQuantity < 0 ==> r == Failure(InitialQuantityNegative)
      ensures initialQuantity >= 0 && minimumStockLevel < 0 ==> r == Failure(MinimumStockNegative)
      ensures r.Ok? ==> fresh(r.value) && r.value.Valid()
      ensures r.Ok? ==> r.value.id == InventoryId(freshId) && r.value.itemType == itemType
                        && r.value.itemCode == itemCode && r.value.description == description
                        && r.value.quantity == initialQuantity
                        && r.value.minimumStockLevel == minimumStockLevel
                        && r.value.createdAt == now && r.value.updatedAt == now
    {
      if initialQuantity < 0 {
        return Failure(InitialQuantityNegative);
      }
      if minimumStockLevel < 0 {
        return Failure(MinimumStockNegative);
      }
      var item := new Inventory.Restore(InventoryId(freshId), itemType, itemCode, description,
                                        initialQuantity, minimumStockLevel, now, now);
      r := Ok(item);
    }

    /** `checkAvailability`: whether the stock covers the required quantity. */
    function CheckAvailability(requiredQuantity: int): (r: bool)
      reads this
      ensures r == (quantity >= requiredQuantity)
    {
      quantity >= requiredQuantity
    }

    /** `isLowOnStock`: whether the stock has fallen to the minimum level or below. */
    function IsLowOnStock(): (r: bool)
      reads this
      ensures r == (quantity <= minimumStockLevel)
    {
      quantity <= minimumStockLevel
    }

    /**
     * Takes `quantityToAcquire` units out of stock. A non-positive amount
     * violates the operation's rule; too large an amount is refused with
     * `false` and changes nothing.
     */
    method Acquire(quantityToAcquire: int, now: Timestamp) returns (r: Result<bool>)
      modifies this`quantity, this`updatedAt
      ensures quantityToAcquire <= 0 ==> r == Failure(AcquireNotPositive)
      ensures quantityToAcquire > 0 ==> r == Ok(old(CheckAvailability(quantityToAcquire)))
      ensures quantity == if r == Ok(true) then old(quantity) - quantityToAcquire else old(quantity)
      ensures updatedAt == if r == Ok(true) then now else old(updatedAt)
      ensures old(Valid()) ==> Valid()
    {
      if quantityToAcquire <= 0 {
        return Failure(AcquireNotPositive);
      }
      if quantity < quantityToAcquire {
        return Ok(false);
      }
      quantity := quantity - quantityToAcquire;
      updatedAt := now;
      r := Ok(true);
    }

    /** Adds `quantityToAdd` units to stock; the amount must be positive. */
    method Restock(quantityToAdd: int, now: Timestamp) returns (r: Outcome)
      modifies this`quantity, this`updatedAt
      ensures r.Pass? <==> quantityToAdd > 0
      ensures r.Fail? ==> r.message == RestockNotPositive
      ensures quantity == if r.Pass? then old(quantity) + quantityToAdd else old(quantity)
      ensures updatedAt == if r.Pass? then now else old(updatedAt)
      ensures old(Valid()) ==> Valid()
    {
      if quantityToAdd <= 0 {
        return Fail(RestockNotPositive);
      }
      quantity := quantity + quantityToAdd;
      updatedAt := now;
      r := Pass;
    }
  }
}
