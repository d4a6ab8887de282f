/** The adult's replicated resources: coins, the preparation-phase flag
    and the trap inventory that the shop fills.
    Each public operation, when called off the server, is forwarded as a
    server RPC whose body is the server-side body; the model applies the
    forwarded call to the authoritative object, so both routes are stated
    with the same postcondition. */
module Adult {
  import opened Common

  /** A prefab that can sit in the inventory (a trap to place). */
  type ItemRef = nat

  class AdultManager {
    var coins: int
    var isPreparationPhase: bool

    // The inventory is used by the shop but not defined in the adult's
    // component: it is modelled as a bounded list of prefabs.
    var inventory: seq<ItemRef>
    const inventoryCapacity: nat

    constructor (capacity: nat)
      ensures coins == 0 && isPreparationPhase
      ensures inventory == [] && inventoryCapacity == capacity
    {
      coins := 0;
      isPreparationPhase := true;
      inventory := [];
      inventoryCapacity := capacity;
    }

    method SetCoins(isServer: bool, amount: int)
      modifies this`coins
      ensures coins == Max(0, amount) && coins >= 0
      ensures amount >= 0 ==> coins == amount
    {
      if !isServer {
        SetCoinsServerRpc(amount);
        return;
      }
      coins := Max(0, amount);
    }

    method SetCoinsServerRpc(amount: int)
      modifies this`coins
      ensures coins == Max(0, amount) && coins >= 0
    {
      coins := Max(0, amount);
    }

    /** Adding is not clamped: a negative amount lowers the count. */
    method AddCoins(isServer: bool, amount: int)
      modifies this`coins
      ensures coins == old(coins) + amount
    {
      if !isServer {
        AddCoinsServerRpc(amount);
        return;
      }
      coins := coins + amount;
    }

    method AddCoinsServerRpc(amount: int)
      modifies this`coins
      ensures coins == old(coins) + amount
    {
      coins := coins + amount;
    }

    method RemoveCoins(isServer: bool, amount: int)
      modifies this`coins
      ensures coins == Max(0, old(coins) - amount) && coins >= 0
      ensures amount <= old(coins) ==> coins == old(coins) - amount
    {
      if !isServer {
        RemoveCoinsServerRpc(amount);
        return;
      }
      coins := Max(0, coins - amount);
    }

    method RemoveCoinsServerRpc(amount: int)
      modifies this`coins
      ensures coins == Max(0, old(coins) - amount) && coins >= 0
    {
      coins := Max(0, coins - amount);
    }

    function GetCoins(): int
      reads this
    {
      coins
    }

    method SetPreparationPhase(isServer: bool, isPhase: bool)
      modifies this`isPreparationPhase
      ensures isPreparationPhase == isPhase
    {
      if !isServer {
        SetPreparationPhaseServerRpc(isPhase);
        return;
      }
      isPreparationPhase := isPhase;
    }

    method SetPreparationPhaseServerRpc(isPhase: bool)
      modifies this`isPreparationPhase
      ensures isPreparationPhase == isPhase
    {
      isPreparationPhase := isPhase;
    }

    function IsPreparationPhase(): bool
      reads this
    {
      isPreparationPhase
    }

    /** Resets the coins only; the phase flag and the inventory are kept. */
    method ResetStats(isServer: bool)
      modifies this`coins
      ensures coins == 0
    {
      if !isServer {
        ResetStatsServerRpc();
        return;
      }
      coins := 0;
    }

    method ResetStatsServerRpc()
      modifies this`coins
      ensures coins == 0
    {
      coins := 0;
    }

    function IsInventoryFull(): bool
      reads this
    {
      |inventory| >= inventoryCapacity
    }

    /** Appends the prefab when there is room and the inventory accepts it;
        `accepts` stands for whatever else the inventory checks, which is
        not part of this model. */
    method AddItemToInventory(item: ItemRef, accepts: bool) returns (added: bool)
      modifies this`inventory
      ensures added == (accepts && !old(IsInventoryFull()))
      ensures inventory == if added then old(inventory) + [item] else old(inventory)
    {
      added := accepts && !IsInventoryFull();
      if added {
        inventory := inventory + [item];
      }
    }
  }
}
