/**
 * The inventory application service: looks items up by code or id, applies
 * the aggregate's operations, saves the item and publishes what happened.
 * The repository is a map from id to the stored item; the event bus, as the
 * service sees it, is the sequence of events published so far.
 */
module InventoryApp {
  import opened Common
  import opened InventoryModel
  import opened DomainEvents

  class InventoryService {
    var repo: map<InventoryId, Inventory>
    var published: seq<Event>

    /**
     * Each item is stored under its own id and keeps its invariant, and item
     * codes are unique, so a lookup by code finds at most one item.
     */
    ghost predicate Valid()
      reads this`repo, repo.Values
    {
      (forall k :: k in repo ==> repo[k].id == k && repo[k].Valid()) &&
      (forall k, k' :: k in repo && k' in repo && repo[k].itemCode == repo[k'].itemCode ==> k == k')
    }

    /** The stored item with this code, if any (at most one, by `Valid`). */
    function Holding(code: string): set<Inventory>
      reads this`repo
    {
      set k | k in repo && repo[k].itemCode == code :: repo[k]
    }

    /** The stored item with this id, if any. */
    function Stored(inventoryId: InventoryId): set<Inventory>
      reads this`repo
    {
      if inventoryId in repo then {repo[inventoryId]} else {}
    }

    /** Some stored item has this code. */
    ghost predicate HasCode(code: string)
      reads this`repo
    {
      exists k :: k in repo && repo[k].itemCode == code
    }

    /** A service over already stored items (the seeding itself is not modelled). */
    constructor Seeded(items: map<InventoryId, Inventory>)
      requires forall k :: k in items ==> items[k].id == k && items[k].Valid()
      requires forall k, k' :: k in items && k' in items && items[k].itemCode == items[k'].itemCode ==> k == k'
      ensures Valid() && repo == items && published == []
    {
      repo := items;
      published := [];
    }

    /** `findByItemCode`: the id of the item with this code, if one is stored. */
    method FindByItemCode(code: string) returns (found: Option<InventoryId>)
      ensures found.None? <==> !HasCode(code)
      ensures found.Some? ==> found.value in repo && repo[found.value].itemCode == code
    {
      if k :| k in repo && repo[k].itemCode == code {
        found := Some(k);
      } else {
        found := None;
      }
    }

    /**
     * `checkFrameAvailability`: an unknown code answers false and publishes
     * nothing; a known one answers `quantity >= requiredQuantity` and
     * publishes one check event carrying the current quantity. No stock moves.
     */
    method CheckFrameAvailability(frameCode: string, requiredQuantity: int) returns (available: bool)
      requires Valid()
      modifies this`published
      ensures Valid()
      ensures !HasCode(frameCode) ==> !available && published == old(published)
      ensures forall k :: k in repo && repo[k].itemCode == frameCode ==>
        available == (repo[k].quantity >= requiredQuantity) &&
        published == old(published) +
          [FrameAvailabilityChecked(k, frameCode, available, requiredQuantity, repo[k].quantity)]
    {
      var found := FindByItemCode(frameCode);
      if found.None? {
        return false;
      }
      var item := repo[found.value];
      available := item.CheckAvailability(requiredQuantity);
      published := published + [FrameAvailabilityChecked(item.id, frameCode, available, requiredQuantity, item.quantity)];
    }

    /** `checkLensAvailability`: the same for a lens code. */
    method CheckLensAvailability(lensCode: string, requiredQuantity: int) returns (available: bool)
      requires Valid()
      modifies this`published
      ensures Valid()
      ensures !HasCode(lensCode) ==> !available && published == old(published)
      ensures forall k :: k in repo && repo[k].itemCode == lensCode ==>
        available == (repo[k].quantity >= requiredQuantity) &&
        published == old(published) +
          [LensAvailabilityChecked(k, lensCode, available, requiredQuantity, repo[k].quantity)]
    {
      var found := FindByItemCode(lensCode);
      if found.None? {
        return false;
      }
      var item := repo[found.value];
      available := item.CheckAvailability(requiredQuantity);
      published := published + [LensAvailabilityChecked(item.id, lensCode, available, requiredQuantity, item.quantity)];
    }

    /** `acquire` on the stored item `k`, which is then saved in place. */
    method AcquireStored(k: InventoryId, quantity: int, now: Timestamp) returns (r: Result<bool>)
      requires Valid() && k in repo
      modifies repo[k]
      ensures Valid()
      ensures quantity <= 0 ==> r == Failure(AcquireNotPositive)
      ensures quantity > 0 ==> r == Ok(old(repo[k].quantity) >= quantity)
      ensures repo[k].quantity == if r == Ok(true) then old(repo[k].quantity) - quantity else old(repo[k].quantity)
      ensures repo[k].updatedAt == if r == Ok(true) then now else old(repo[k].updatedAt)
    {
      var item := repo[k];
      assert forall j :: j in repo && j != k ==> repo[j] != item;
      r := item.Acquire(quantity, now);
    }

    /**
     * `acquireFrame`: an unknown code or too little stock answers false and
     * changes nothing; a non-positive quantity is the aggregate's error.
     * Otherwise the stored quantity drops by `quantity`, and an acquisition
     * event is published, followed by a low-stock event (typed FRAME
     * whatever the item's own type) when the new quantity is at or below the
     * minimum.
     */
    method AcquireFrame(frameCode: string, quantity: int, now: Timestamp) returns (r: Result<bool>)
      requires Valid()
      modifies this`published, Holding(frameCode)
      ensures Valid()
      ensures !HasCode(frameCode) ==> r == Ok(false)
      ensures HasCode(frameCode) && quantity <= 0 ==> r == Failure(AcquireNotPositive)
      ensures r != Ok(true) ==> published == old(published)
      ensures forall k :: k in repo && repo[k].itemCode == frameCode ==>
        (quantity > 0 ==> r == Ok(old(repo[k].quantity) >= quantity)) &&
        repo[k].quantity == (if r == Ok(true) then old(repo[k].quantity) - quantity else old(repo[k].quantity)) &&
        repo[k].updatedAt == (if r == Ok(true) then now else old(repo[k].updatedAt))
      ensures forall k :: k in repo && repo[k].itemCode == frameCode && r == Ok(true) ==>
        published == old(published) + [FrameAcquired(k, frameCode, quantity, repo[k].quantity)] +
          (if repo[k].quantity <= repo[k].minimumStockLevel
           then [InventoryLevelLow(k, Frame, frameCode, repo[k].quantity, repo[k].minimumStockLevel)]
           else [])
    {
      var found := FindByItemCode(frameCode);
      if found.None? {
        return Ok(false);
      }
      var item := repo[found.value];
      r := AcquireStored(found.value, quantity, now);
      if r != Ok(true) {
        return;
      }
      published := published + [FrameAcquired(item.id, frameCode, quantity, item.quantity)];
      if item.IsLowOnStock() {
        published := published + [InventoryLevelLow(item.id, Frame, frameCode, item.quantity, item.minimumStockLevel)];
      }
    }

    /** `acquireLens`: the same for a lens code; its low-stock event is typed LENS. */
    method AcquireLens(lensCode: string, quantity: int, now: Timestamp) returns (r: Result<bool>)
      requires Valid()
      modifies this`published, Holding(lensCode)
      ensures Valid()
      ensures !HasCode(lensCode) ==> r == Ok(false)
      ensures HasCode(lensCode) && quantity <= 0 ==> r == Failure(AcquireNotPositive)
      ensures r != Ok(true) ==> published == old(published)
      ensures forall k :: k in repo && repo[k].itemCode == lensCode ==>
        (quantity > 0 ==> r == Ok(old(repo[k].quantity) >= quantity)) &&
        repo[k].quantity == (if r == Ok(true) then old(repo[k].quantity) - quantity else old(repo[k].quantity)) &&
        repo[k].updatedAt == (if r == Ok(true) then now else old(repo[k].updatedAt))
      ensures forall k :: k in repo && repo[k].itemCode == lensCode && r == Ok(true) ==>
        published == old(published) + [LensAcquired(k, lensCode, quantity, repo[k].quantity)] +
          (if repo[k].quantity <= repo[k].minimumStockLevel
           then [InventoryLevelLow(k, Lens, lensCode, repo[k].quantity, repo[k].minimumStockLevel)]
           else [])
    {
      var found := FindByItemCode(lensCode);
      if found.None? {
        return Ok(false);
      }
      var item := repo[found.value];
      r := AcquireStored(found.value, quantity, now);
      if r != Ok(true) {
        return;
      }
      published := published + [LensAcquired(item.id, lensCode, quantity, item.quantity)];
      if item.IsLowOnStock() {
        published := published + [InventoryLevelLow(item.id, Lens, lensCode, item.quantity, item.minimumStockLevel)];
      }
    }

    /**
     * `orderFrameWithSupplier`: a new ORDERED frame purchase, announced by
     * one event that carries its id; no stored item is touched.
     */
    method OrderFrameWithSupplier(frameCode: string, quantity: int, supplierId: string, freshId: Uuid, now: Timestamp)
      returns (order: SupplierOrder)
      modifies this`published
      ensures order.id == freshId && order.itemType == Frame && order.status == Ordered
      ensures order.itemCode == frameCode && order.quantity == quantity && order.orderedAt == now
      ensures published == old(published) + [FrameOrderedWithSupplier(order.id, frameCode, quantity, supplierId)]
    {
      order := SupplierOrder(freshId, Frame, frameCode, quantity, Ordered, now);
      published := published + [FrameOrderedWithSupplier(order.id, frameCode, quantity, supplierId)];
    }

    /** `orderLensWithSupplier`: the same for lenses. */
    method OrderLensWithSupplier(lensCode: string, quantity: int, supplierId: string, freshId: Uuid, now: Timestamp)
      returns (order: SupplierOrder)
      modifies this`published
      ensures order.id == freshId && order.itemType == Lens && order.status == Ordered
      ensures order.itemCode == lensCode && order.quantity == quantity && order.orderedAt == now
      ensures published == old(published) + [LensOrderedWithSupplier(order.id, lensCode, quantity, supplierId)]
    {
      order := SupplierOrder(freshId, Lens, lensCode, quantity, Ordered, now);
      published := published + [LensOrderedWithSupplier(order.id, lensCode, quantity, supplierId)];
    }

    /**
     * `restockInventory`: an unknown id completes empty; a non-positive
     * quantity is the aggregate's error; otherwise the stored quantity rises
     * by `quantity`. Nothing is published either way.
     */
    method RestockInventory(inventoryId: InventoryId, quantity: int, now: Timestamp) returns (r: Reply<Inventory>)
      requires Valid()
      modifies Stored(inventoryId)
      ensures Valid() && published == old(published)
      ensures inventoryId !in repo ==> r.Empty?
      ensures inventoryId in repo && quantity <= 0 ==> r == Error(RestockNotPositive)
      ensures inventoryId in repo && quantity > 0 ==> r == Value(repo[inventoryId])
      ensures inventoryId in repo ==>
        repo[inventoryId].quantity == (if r.Value? then old(repo[inventoryId].quantity) + quantity
                                       else old(repo[inventoryId].quantity)) &&
        repo[inventoryId].updatedAt == (if r.Value? then now else old(repo[inventoryId].updatedAt))
    {
      if inventoryId !in repo {
        return Empty;
      }
      var item := repo[inventoryId];
      assert forall j :: j in repo && j != inventoryId ==> repo[j] != item;
      var outcome := item.Restock(quantity, now);
      if outcome.Fail? {
        return Error(outcome.message);
      }
      r := Value(item);
    }
  }
}
