/** The equipment of js/equipmentManager.js: three named slots, equipping
    and unequipping that swap items with the inventory, and the integer
    formulas for weapon damage and total defense. */
module Equipment {
  import opened Common
  import Inventory
  import Weapons

  datatype Slot = WeaponSlot | ArmorSlot | AccessorySlot

  /** The `equipment` object: each slot holds one item or is empty. */
  datatype Loadout = Loadout(weapon: Option<Item>, armor: Option<Item>, accessory: Option<Item>)
  {
    function Get(s: Slot): Option<Item> {
      match s
      case WeaponSlot => weapon
      case ArmorSlot => armor
      case AccessorySlot => accessory
    }

    function With(s: Slot, v: Option<Item>): (r: Loadout)
      ensures r.Get(s) == v
      ensures forall t :: t != s ==> r.Get(t) == Get(t)
    {
      match s
      case WeaponSlot => this.(weapon := v)
      case ArmorSlot => this.(armor := v)
      case AccessorySlot => this.(accessory := v)
    }
  }

  const EmptyLoadout: Loadout := Loadout(None, None, None)

  /** The slot an item goes to: weapon before armor before accessory, each
      matched on either the item's type or its category. */
  function SlotFor(item: Item): (r: Option<Slot>)
    ensures r == Some(WeaponSlot) <==> HasKind(item, "weapon")
    ensures r == Some(ArmorSlot) <==> !HasKind(item, "weapon") && HasKind(item, "armor")
    ensures r == Some(AccessorySlot) <==>
      !HasKind(item, "weapon") && !HasKind(item, "armor") && HasKind(item, "accessory")
    ensures r == None <==>
      !HasKind(item, "weapon") && !HasKind(item, "armor") && !HasKind(item, "accessory")
  {
    if HasKind(item, "weapon") then Some(WeaponSlot)
    else if HasKind(item, "armor") then Some(ArmorSlot)
    else if HasKind(item, "accessory") then Some(AccessorySlot)
    else None
  }

  /** The copy a slot holds: `{ ...item, equipped: true, quantity: 1 }`. */
  function EquippedCopy(item: Item): Item {
    item.(equipped := true, quantity := 1)
  }

  /** The inventory after equipping `item` from it: one unit of the item is
      removed, then the displaced item, if any, is added back as one unit
      with `equipped: false`. */
  function AfterEquip(items: seq<Item>, item: Item, previous: Option<Item>): seq<Item> {
    var taken := Inventory.Removed(items, item.id, 1);
    if previous.Some? then Inventory.Added(taken, previous.value.(equipped := false), 1) else taken
  }

  /** Equipping from the inventory moves one unit of the item out of it and
      one unit of the displaced item into it; every other id keeps its
      total. */
  lemma AfterEquipCounts(items: seq<Item>, item: Item, previous: Option<Item>, id: string)
    requires var k := Inventory.FindIndex(items, item.id);
      k >= 0 && items[k].quantity >= 1
    ensures Inventory.Count(AfterEquip(items, item, previous), id)
         == Inventory.Count(items, id)
            - (if id == item.id then 1 else 0)
            + (if previous.Some? && id == previous.value.id then 1 else 0)
  {
    var taken := Inventory.Removed(items, item.id, 1);
    Inventory.RemovedCount(items, item.id, 1, id);
    if previous.Some? {
      var back := previous.value.(equipped := false);
      Inventory.PutCount(taken, back, 1, back.stackable(), id);
    }
  }

  /** What `equipItem` reports: success and the displaced item. */
  datatype EquipResult = EquipResult(success: bool, previousItem: Option<Item>)

  /** `getTotalDefense()`: half the defense stat, rounded down, plus the
      armor's and the accessory's defense. */
  function TotalDefense(lo: Loadout, defenseStat: int): (d: int)
    ensures d == FloorDiv(defenseStat, 2) + SlotDefense(lo.armor) + SlotDefense(lo.accessory)
  {
    var d := FloorDiv(defenseStat, 2);
    var d := if lo.armor.Some? then d + lo.armor.value.props.defense else d;
    if lo.accessory.Some? && lo.accessory.value.props.defense != 0 then d + lo.accessory.value.props.defense else d
  }

  /** Defense an optional slot contributes; an empty slot or a missing value
      counts as 0. */
  function SlotDefense(s: Option<Item>): int {
    if s.Some? then s.value.props.defense else 0
  }

  /** Damage of the weapon used bare-handed: the catalogue's "fists" when a
      weapon manager exists (its built-in fists deal 1), else 1. */
  function FistsDamage(weaponManager: Option<seq<Weapons.Weapon>>): int {
    match weaponManager
    case None => 1
    case Some(ws) => Weapons.GetWeapon(ws, "fists").value.damage
  }

  /** `getWeaponDamage()`: the equipped weapon's damage (missing is 0), or
      the fists' damage, plus half the attack stat rounded down. */
  function WeaponDamage(lo: Loadout, attack: int, weaponManager: Option<seq<Weapons.Weapon>>): (d: int)
    ensures var base := if lo.weapon.Some? then lo.weapon.value.props.damage else FistsDamage(weaponManager);
      2 * (d - base) <= attack < 2 * (d - base) + 2
  {
    var bonus := FloorDiv(attack, 2);
    if lo.weapon.None? then FistsDamage(weaponManager) + bonus
    else lo.weapon.value.props.damage + bonus
  }

  /** Equipping a weapon makes its own damage the base of the formula. */
  lemma EquipWeaponDamage(lo: Loadout, w: Item, attack: int, weaponManager: Option<seq<Weapons.Weapon>>)
    requires SlotFor(w) == Some(WeaponSlot)
    ensures WeaponDamage(lo.With(WeaponSlot, Some(EquippedCopy(w))), attack, weaponManager)
         == w.props.damage + FloorDiv(attack, 2)
  {
  }

  /** Damage never falls when the attack stat rises. */
  lemma WeaponDamageMonotone(lo: Loadout, a1: int, a2: int, weaponManager: Option<seq<Weapons.Weapon>>)
    requires a1 <= a2
    ensures WeaponDamage(lo, a1, weaponManager) <= WeaponDamage(lo, a2, weaponManager)
  {
  }

  /** With no weapon and no catalogue the fists deal 1; a catalogue without
      a "fists" entry deals the built-in fists' 1 too. */
  lemma FistsFallback(ws: seq<Weapons.Weapon>)
    requires forall i :: 0 <= i < |ws| ==> ws[i].id != "fists"
    ensures FistsDamage(Some(ws)) == 1 && FistsDamage(None) == 1
  {
  }

  /** Taking off the armor removes exactly its defense from the total. */
  lemma UnequipArmorDefense(lo: Loadout, defenseStat: int)
    ensures TotalDefense(lo.With(ArmorSlot, None), defenseStat)
         == TotalDefense(lo, defenseStat) - SlotDefense(lo.armor)
  {
  }

  /** The equipment manager with the slice of the game it uses: the game's
      inventory manager (possibly absent), the bare `game.inventory` array
      used when there is none, and the stats and weapon catalogue the
      formulas read. */
  class EquipmentManager {
    var equipment: Loadout
    const inventoryManager: Inventory.InventoryManager?
    var gameInventory: seq<Item>
    var playerStats: Stats
    const weaponManager: Option<seq<Weapons.Weapon>>

    constructor (inventoryManager: Inventory.InventoryManager?, gameInventory: seq<Item>,
                 playerStats: Stats, weaponManager: Option<seq<Weapons.Weapon>>)
      ensures equipment == EmptyLoadout
      ensures this.inventoryManager == inventoryManager && this.gameInventory == gameInventory
      ensures this.playerStats == playerStats && this.weaponManager == weaponManager
    {
      equipment := EmptyLoadout;
      this.inventoryManager := inventoryManager;
      this.gameInventory := gameInventory;
      this.playerStats := playerStats;
      this.weaponManager := weaponManager;
    }

    /** `equipItem(item, fromInventory)`; `None` is a null item. */
    method EquipItem(item: Option<Item>, fromInventory: bool) returns (r: EquipResult)
      modifies this`equipment, this`gameInventory, inventoryManager
      ensures item.None? || SlotFor(item.value).None? ==>
        !r.success && r.previousItem.None? && equipment == old(equipment)
        && gameInventory == old(gameInventory)
        && (inventoryManager != null ==> inventoryManager.items == old(inventoryManager.items))
      ensures item.Some? && SlotFor(item.value).Some? ==>
        var it := item.value;
        var slot := SlotFor(it).value;
        var prev := old(equipment).Get(slot);
        r == EquipResult(true, prev)
        && equipment == old(equipment).With(slot, Some(EquippedCopy(it)))
        && (if !fromInventory then
              gameInventory == old(gameInventory)
              && (inventoryManager != null ==> inventoryManager.items == old(inventoryManager.items))
            else if inventoryManager != null then
              gameInventory == old(gameInventory)
              && inventoryManager.items == AfterEquip(old(inventoryManager.items), it, prev)
            else
              gameInventory == AfterEquip(old(gameInventory), it, prev))
    {
      if item.None? {
        return EquipResult(false, None);
      }
      var it := item.value;
      var found := SlotFor(it);
      if found.None? {
        return EquipResult(false, None);
      }
      var slot := found.value;
      var current := equipment.Get(slot);
      equipment := equipment.With(slot, Some(EquippedCopy(it)));
      if fromInventory && inventoryManager != null {
        var removed := inventoryManager.RemoveItem(it.id, 1);
        if current.Some? {
          var added := inventoryManager.AddItem(Some(current.value.(equipped := false)), 1);
        }
      } else if fromInventory {
        var k := Inventory.FindIndex(gameInventory, it.id);
        if k != -1 {
          if gameInventory[k].quantity > 1 {
            gameInventory := gameInventory[k := gameInventory[k].(quantity := gameInventory[k].quantity - 1)];
          } else {
            gameInventory := gameInventory[..k] + gameInventory[k + 1..];
          }
        }
        assert gameInventory == Inventory.Removed(old(gameInventory), it.id, 1);
        if current.Some? {
          var back := current.value.(equipped := false);
          var e := Inventory.FindIndex(gameInventory, back.id);
          if e != -1 && back.stackable() {
            gameInventory := gameInventory[e := gameInventory[e].(quantity := gameInventory[e].quantity + 1)];
          } else {
            gameInventory := gameInventory + [back.(quantity := 1)];
          }
        }
      }
      return EquipResult(true, current);
    }

    /** `unequipItem(slot)`: an empty slot is refused; otherwise the slot is
        emptied and, when there is an inventory manager, the item goes back
        to it with `equipped: false`. */
    method UnequipItem(slot: Slot) returns (ok: bool)
      modifies this`equipment, inventoryManager
      ensures ok <==> old(equipment).Get(slot).Some?
      ensures equipment == if ok then old(equipment).With(slot, None) else old(equipment)
      ensures inventoryManager != null ==>
        inventoryManager.items ==
          if ok then Inventory.Added(old(inventoryManager.items), old(equipment).Get(slot).value.(equipped := false), 1)
          else old(inventoryManager.items)
    {
      var current := equipment.Get(slot);
      if current.None? {
        return false;
      }
      equipment := equipment.With(slot, None);
      if inventoryManager != null {
        var added := inventoryManager.AddItem(Some(current.value.(equipped := false)), 1);
      }
      return true;
    }

    function GetWeaponDamage(): int
      reads this
    {
      WeaponDamage(equipment, playerStats.attack, weaponManager)
    }

    function GetTotalDefense(): int
      reads this
    {
      TotalDefense(equipment, playerStats.defense)
    }

    method Save() returns (saved: Loadout)
      ensures saved == equipment
    {
      return equipment;
    }

    /** `load(equipment)`: a missing record yields three empty slots. */
    method Load(data: Option<Loadout>)
      modifies this`equipment
      ensures equipment == if data.Some? then data.value else EmptyLoadout
    {
      equipment := if data.Some? then data.value else EmptyLoadout;
    }
  }

  /** Equipping an item held in a managed inventory and then unequipping
      the same slot leaves that slot empty and hands the previously
      equipped item back: the item's own unit returns, and only the
      displaced item's id has one more unit than before. */
  method EquipThenUnequip(m: EquipmentManager, it: Item)
    requires m.inventoryManager != null
    requires SlotFor(it).Some?
    requires var k := Inventory.FindIndex(m.inventoryManager.items, it.id);
      k >= 0 && m.inventoryManager.items[k].quantity >= 1
    modifies m, m.inventoryManager
    ensures m.equipment == old(m.equipment).With(SlotFor(it).value, None)
    ensures var prev := old(m.equipment).Get(SlotFor(it).value);
      forall id :: Inventory.Count(m.inventoryManager.items, id)
                   == Inventory.Count(old(m.inventoryManager.items), id)
                      + (if prev.Some? && id == prev.value.id then 1 else 0)
  {
    var slot := SlotFor(it).value;
    ghost var before := m.inventoryManager.items;
    ghost var prev := m.equipment.Get(slot);
    var r := m.EquipItem(Some(it), true);
    ghost var middle := m.inventoryManager.items;
    var ok := m.UnequipItem(slot);
    forall id: string
      ensures Inventory.Count(m.inventoryManager.items, id)
              == Inventory.Count(before, id) + (if prev.Some? && id == prev.value.id then 1 else 0)
    {
      AfterEquipCounts(before, it, prev, id);
      var back := EquippedCopy(it).(equipped := false);
      Inventory.PutCount(middle, back, 1, back.stackable(), id);
    }
  }
}
