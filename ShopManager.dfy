/** The adult's shop: the owner asks, the server validates the request,
    takes the price, puts the item in the inventory, and gives the price
    back if the inventory refuses the item. */
module Shop {
  import opened Common
  import opened Adult

  /** One entry of the shop menu: name, price and the prefab it grants. */
  datatype ShopItem = ShopItem(itemName: string, price: int, itemPrefab: Option<ItemRef>)

  /** What the shop reads from the adult's network controller: whether
      this peer owns it, its AdultManager and its shop menu (each may be
      missing). */
  datatype AdultController = AdultController(
    isOwner: bool,
    adultManager: AdultManager?,
    shopItems: Option<seq<ShopItem>>)

  /** Which step ended a purchase request on the server. */
  datatype PurchaseOutcome =
    | NoController
    | NoAdultManager
    | InvalidItem
    | NotEnoughCoins
    | InventoryFull
    | NoPrefab
    | Purchased(itemName: string)  // the success notification is sent
    | Refunded                     // the inventory refused: price given back

  class ShopManager {
    var adultController: Option<AdultController>

    constructor ()
      ensures adultController == None
    {
      adultController := None;
    }

    method SetAdultController(controller: AdultController)
      modifies this
      ensures adultController == Some(controller)
    {
      adultController := Some(controller);
    }

    /** The adult manager the server-side purchase may change. */
    function Buyer(): set<AdultManager>
      reads this
    {
      if adultController.Some? && adultController.value.adultManager != null
      then {adultController.value.adultManager}
      else {}
    }

    /** Client side: a request is sent only by the owner of the controller. */
    method TryPurchaseItem(itemIndex: int) returns (sent: bool)
      ensures sent <==> adultController.Some? && adultController.value.isOwner
    {
      if adultController.None? {
        return false;
      }
      if !adultController.value.isOwner {
        return false;
      }
      sent := true;
    }

    /** The controller and its AdultManager are both present. */
    predicate HasManager()
      reads this
    {
      adultController.Some? && adultController.value.adultManager != null
    }

    function Manager(): AdultManager
      reads this
      requires HasManager()
    {
      adultController.value.adultManager
    }

    /** The request gets past the index check. */
    predicate Reaches(itemIndex: int)
      reads this
    {
      HasManager() && ValidIndex(adultController.value.shopItems, itemIndex)
    }

    function ItemAt(itemIndex: int): ShopItem
      reads this
      requires Reaches(itemIndex)
    {
      adultController.value.shopItems.value[itemIndex]
    }

    /** Server side. `accepts` stands for the inventory's own verdict
        beyond its capacity. */
    method PurchaseItemServerRpc(itemIndex: int, accepts: bool) returns (outcome: PurchaseOutcome)
      modifies Buyer()`coins, Buyer()`inventory
      // the checks before the item is read, in the order the server makes them
      ensures outcome == NoController <==> adultController.None?
      ensures outcome == NoAdultManager <==> adultController.Some? && !HasManager()
      ensures outcome == InvalidItem <==> HasManager() && !Reaches(itemIndex)
      // the checks on the item, then the transaction
      ensures Reaches(itemIndex) ==>
        var m, item := Manager(), ItemAt(itemIndex);
        var affordable := old(m.coins) >= item.price;
        var room := !old(m.IsInventoryFull());
        && (outcome == NotEnoughCoins <==> !affordable)
        && (outcome == InventoryFull <==> affordable && !room)
        && (outcome == NoPrefab <==> affordable && room && item.itemPrefab.None?)
        && (outcome.Purchased? <==> affordable && room && item.itemPrefab.Some? && accepts)
        && (outcome == Refunded <==> affordable && room && item.itemPrefab.Some? && !accepts)
        && (outcome.Purchased? ==>
              && outcome.itemName == item.itemName
              && m.coins == old(m.coins) - item.price
              && m.inventory == old(m.inventory) + [item.itemPrefab.value])
      // anything but a purchase leaves money and inventory as they were
      ensures HasManager() && !outcome.Purchased? ==>
        Manager().coins == old(Manager().coins) && Manager().inventory == old(Manager().inventory)
    {
      if adultController.None? {
        return NoController;
      }
      var controller := adultController.value;
      var adultManager := controller.adultManager;
      if adultManager == null {
        return NoAdultManager;
      }
      if controller.shopItems.None? || itemIndex < 0 || itemIndex >= |controller.shopItems.value| {
        return InvalidItem;
      }
      var item := controller.shopItems.value[itemIndex];
      if adultManager.GetCoins() < item.price {
        return NotEnoughCoins;
      }
      if adultManager.IsInventoryFull() {
        return InventoryFull;
      }
      if item.itemPrefab.None? {
        return NoPrefab;
      }

      adultManager.RemoveCoins(true, item.price);
      var success := adultManager.AddItemToInventory(item.itemPrefab.value, accepts);
      if success {
        outcome := Purchased(item.itemName);
      } else {
        adultManager.AddCoins(true, item.price);  // refund
        outcome := Refunded;
      }
    }
  }

  /** The index names an item of an existing shop menu. */
  predicate ValidIndex(shopItems: Option<seq<ShopItem>>, itemIndex: int)
  {
    shopItems.Some? && 0 <= itemIndex < |shopItems.value|
  }
}
