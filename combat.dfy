/** The turn-based combat engine of js/combat.js: enemy resolution with a
    fixed fallback, turn ownership, damage with a floor of 1, item use in
    combat, the XP reward, loot stacking and the level-up check.

    The damage formulas are computed over `real`; the random draws of the
    source (`Math.random()` for a critical hit and for the XP bonus, and the
    loot system's roll) are parameters, and the delayed calls the source
    schedules with `setTimeout` are reported as a `Scheduled` value and
    modelled by the methods named after them. */
module Combat {
  import opened Common
  import Inventory

  /** An enemy record.  `id` is "" when the record has none; `name` is ""
      when it is missing; `loot` is the record's own loot list. */
  datatype Enemy = Enemy(
    id: string,
    name: string,
    health: int,
    attack: int,
    defense: int,
    speed: int,
    isTutorial: bool,
    loot: Option<seq<Item>>,
    currentHealth: int)

  /** The enemy `initiateCombat` falls back to. */
  const BearWarrior: Enemy := Enemy("", "Bear Warrior", 30, 8, 3, 4, false, None, 0)

  /** What `initiateCombat` is given: an enemy id, or an enemy record that
      may be null. */
  datatype EnemyArg = ById(id: string) | Given(enemy: Option<Enemy>)

  /** The enemy a fight is started against.  An id is looked up in the loot
      system's enemy table, whose `getEnemy` hands back a copy of the entry
      stamped with the id it was found under; a null or nameless result, or
      an id the table does not resolve, gives the Bear Warrior. */
  function ResolveEnemy(arg: EnemyArg, lootSystem: Option<map<string, Enemy>>): (e: Enemy)
    ensures e.name != ""
    ensures arg.Given? && arg.enemy.Some? && arg.enemy.value.name != "" ==> e == arg.enemy.value
    ensures arg.ById? && lootSystem.Some? && arg.id in lootSystem.value && lootSystem.value[arg.id].name != ""
            ==> e == lootSystem.value[arg.id].(id := arg.id)
    ensures arg.ById? && e != BearWarrior ==> e.id == arg.id
    ensures e != BearWarrior ==>
      (arg.Given? && arg.enemy == Some(e))
      || (arg.ById? && lootSystem.Some? && arg.id in lootSystem.value && lootSystem.value[arg.id].(id := arg.id) == e)
    ensures arg.Given? && (arg.enemy.None? || arg.enemy.value.name == "") ==> e == BearWarrior
    ensures arg.ById? && (lootSystem.None? || arg.id !in lootSystem.value) ==> e == BearWarrior
  {
    var found: Option<Enemy> :=
      match arg
      case Given(x) => x
      case ById(id) => if lootSystem.Some? && id in lootSystem.value then Some(lootSystem.value[id].(id := id)) else None;
    if found.Some? && found.value.name != "" then found.value else BearWarrior
  }

  // ------------------------------------------------------------------ damage

  /** `Math.min(luck * 0.008, 0.2)`: the chance of a critical hit. */
  function CritChance(luck: int): (c: real)
    ensures c <= 0.2
    ensures luck > 0 <==> c > 0.0
  {
    var c := luck as real * 0.008;
    if c < 0.2 then c else 0.2
  }

  /** A draw of `Math.random()` gives a critical hit when below the chance. */
  predicate IsCritical(roll: real, luck: int) {
    roll < CritChance(luck)
  }

  /** The player's hit: the base damage with an attack bonus of one percent
      per attack point, plus half the base on a critical hit, reduced by one
      percent per point of enemy defense, at least 1, rounded down. */
  function AttackDamage(base: int, attack: int, critical: bool, enemyDefense: int): (d: int)
    ensures d >= 1
  {
    var b := base as real;
    var raw := b + b * (attack as real * 0.01);
    var withCrit := if critical then raw + b * 0.5 else raw;
    AtLeastOne(withCrit - withCrit * (enemyDefense as real * 0.01))
  }

  /** `Math.floor(Math.max(1, x))` */
  function AtLeastOne(x: real): (d: int)
    ensures d >= 1
  {
    (if x < 1.0 then 1.0 else x).Floor
  }

  lemma AtLeastOneMonotone(x: real, y: real)
    requires x <= y
    ensures AtLeastOne(x) <= AtLeastOne(y)
  {
  }

  /** Against an enemy whose defense is at most 100, a critical hit never
      does less damage than a plain one with a non-negative base. */
  lemma CriticalNeverWeaker(base: int, attack: int, enemyDefense: int)
    requires base >= 0 && enemyDefense <= 100
    ensures AttackDamage(base, attack, true, enemyDefense) >= AttackDamage(base, attack, false, enemyDefense)
  {
    var b := base as real;
    var raw := b + b * (attack as real * 0.01);
    var f := 1.0 - enemyDefense as real * 0.01;
    assert f >= 0.0;
    var plain := raw - raw * (enemyDefense as real * 0.01);
    var crit := (raw + b * 0.5) - (raw + b * 0.5) * (enemyDefense as real * 0.01);
    assert plain == raw * f;
    assert crit == (raw + b * 0.5) * f;
    assert crit - plain == (b * 0.5) * f;
    MulNonNegative(b * 0.5, f);
    assert AttackDamage(base, attack, false, enemyDefense) == AtLeastOne(plain);
    assert AttackDamage(base, attack, true, enemyDefense) == AtLeastOne(crit);
    AtLeastOneMonotone(plain, crit);
  }

  lemma MulNonNegative(x: real, y: real)
    requires x >= 0.0 && y >= 0.0
    ensures x * y >= 0.0
  {
  }

  /** An ordinary enemy's hit: its attack reduced by one percent per point
      of the player's defense, at least 1, rounded down. */
  function EnemyDamage(attack: int, playerDefense: int): (d: int)
    ensures d >= 1
  {
    var a := attack as real;
    AtLeastOne(a - a * (playerDefense as real * 0.01))
  }

  /** More defense never lets a non-negative attack do more damage. */
  lemma DefenseNeverHurts(attack: int, d1: int, d2: int)
    requires attack >= 0 && d1 <= d2
    ensures EnemyDamage(attack, d2) <= EnemyDamage(attack, d1)
  {
    var a := attack as real;
    MulNonNegative(a, (d2 - d1) as real * 0.01);
    assert a * (d2 as real * 0.01) - a * (d1 as real * 0.01) == a * ((d2 - d1) as real * 0.01);
    AtLeastOneMonotone(a - a * (d2 as real * 0.01), a - a * (d1 as real * 0.01));
  }

  /** The tutorial enemy's hit: a tenth of the player's health, rounded
      down, at least 1. */
  function TutorialDamage(playerHealth: int): (d: int)
    ensures d >= 1
    ensures playerHealth >= 10 ==> 10 * d <= playerHealth
  {
    Max(1, FloorDiv(playerHealth, 10))
  }

  /** The tutorial enemy cannot win against a player with 2 or more health:
      one hit always leaves at least 1. */
  lemma TutorialNeverKills(playerHealth: int)
    requires playerHealth >= 2
    ensures playerHealth - TutorialDamage(playerHealth) >= 1
  {
  }

  /** `calculateXpReward()`: half the enemy's health plus twice its attack
      plus ten times a draw of `Math.random()`, rounded down. */
  function XpReward(health: int, attack: int, roll: real): (xp: int)
    ensures 0.0 <= roll < 1.0 ==>
      FloorDiv(health, 2) + 2 * attack <= xp <= FloorDiv(health, 2) + 2 * attack + 10
  {
    (health as real * 0.5 + attack as real * 2.0 + roll * 10.0).Floor
  }

  // ------------------------------------------------------------ inventory

  /** `getEquippedWeapon()`: the first inventory entry of category weapon
      marked equipped. */
  function EquippedWeapon(inventory: seq<Item>): (r: Option<Item>)
    ensures r.None? <==>
      forall i :: 0 <= i < |inventory| ==> !(inventory[i].props.category == Some("weapon") && inventory[i].equipped)
    ensures r.Some? ==>
      exists k :: 0 <= k < |inventory| && inventory[k] == r.value
        && r.value.props.category == Some("weapon") && r.value.equipped
        && forall j :: 0 <= j < k ==> !(inventory[j].props.category == Some("weapon") && inventory[j].equipped)
  {
    if |inventory| == 0 then None
    else if inventory[0].props.category == Some("weapon") && inventory[0].equipped then Some(inventory[0])
    else
      var r := EquippedWeapon(inventory[1..]);
      assert forall i :: 0 <= i < |inventory| - 1 ==> inventory[1..][i] == inventory[i + 1];
      r
  }

  /** `weapon.damage || 5`, the fists dealing 5. */
  function WeaponBase(inventory: seq<Item>): (b: int)
    ensures b != 0
    ensures EquippedWeapon(inventory).None? ==> b == 5
    ensures EquippedWeapon(inventory).Some? && EquippedWeapon(inventory).value.props.damage != 0
            ==> b == EquippedWeapon(inventory).value.props.damage
  {
    match EquippedWeapon(inventory)
    case None => 5
    case Some(w) => if w.props.damage != 0 then w.props.damage else 5
  }

  /** The entries the combat item menu offers: consumables with a positive
      quantity, in inventory order. */
  function Usable(inventory: seq<Item>): (r: seq<Item>)
    ensures |r| <= |inventory|
    ensures forall x :: x in r <==> x in inventory && x.props.category == Some("consumable") && x.quantity > 0
  {
    if |inventory| == 0 then []
    else
      assert inventory == [inventory[0]] + inventory[1..];
      (if inventory[0].props.category == Some("consumable") && inventory[0].quantity > 0 then [inventory[0]] else [])
      + Usable(inventory[1..])
  }

  /** The menu filter distributes over concatenation, so it keeps the
      inventory's order and its repeated entries: the n-th menu line is the
      n-th usable entry of the inventory. */
  lemma {:induction false} UsableAppend(a: seq<Item>, b: seq<Item>)
    ensures Usable(a + b) == Usable(a) + Usable(b)
    decreases |a|
  {
    if |a| == 0 {
      assert a + b == b;
    } else {
      assert (a + b)[0] == a[0];
      assert (a + b)[1..] == a[1..] + b;
      UsableAppend(a[1..], b);
    }
  }

  /** Every item the menu offers has an entry, under its id, that
      `applyItemEffect` finds. */
  lemma UsableIsHeld(inventory: seq<Item>, i: int)
    requires 0 <= i < |Usable(inventory)|
    ensures Inventory.FindIndex(inventory, Usable(inventory)[i].id) >= 0
  {
    var x := Usable(inventory)[i];
    assert x in Usable(inventory);
    assert x in inventory;
    var k :| 0 <= k < |inventory| && inventory[k] == x;
    assert inventory[k].id == x.id;
  }

  /** `applyItemEffect(item)` on the inventory and game state: the first
      entry with the item's id loses one unit and stays in the list even at
      0; a heal restores up to the maximum health; a custom effect runs. */
  function ItemEffect(inventory: seq<Item>, gs: GameState, item: Item): (r: (seq<Item>, GameState))
    requires Inventory.FindIndex(inventory, item.id) >= 0
    requires gs.playerHealth.Some?
    ensures var k := Inventory.FindIndex(inventory, item.id);
      |r.0| == |inventory| && r.0[k] == inventory[k].(quantity := inventory[k].quantity - 1)
      && forall i :: 0 <= i < |inventory| && i != k ==> r.0[i] == inventory[i]
    ensures r.1.playerHealth.Some?
    ensures item.props.heal != 0 ==>
      r.1.playerHealth.value == Min(MaxPlayerHealth, gs.playerHealth.value + item.props.heal)
    ensures item.props.heal == 0 ==> r.1.playerHealth == gs.playerHealth
    ensures r.1.isInjured == (gs.isInjured && !(item.props.custom && item.id == "healingSalve"))
    ensures r.1.(playerHealth := gs.playerHealth, isInjured := gs.isInjured) == gs
  {
    var k := Inventory.FindIndex(inventory, item.id);
    var inv := inventory[k := inventory[k].(quantity := inventory[k].quantity - 1)];
    var gs1 := if item.props.heal != 0
      then gs.(playerHealth := Some(Min(MaxPlayerHealth, gs.playerHealth.value + item.props.heal)))
      else gs;
    var gs2 := if item.props.custom then CustomItemEffect(gs1, item.id) else gs1;
    (inv, gs2)
  }

  /** Using an item in combat takes exactly one unit from its id's total and
      never lifts health above the maximum when it was not above it. */
  lemma ItemEffectAccounts(inventory: seq<Item>, gs: GameState, item: Item, id: string)
    requires Inventory.FindIndex(inventory, item.id) >= 0
    requires gs.playerHealth.Some? && gs.playerHealth.value <= MaxPlayerHealth
    ensures var r := ItemEffect(inventory, gs, item);
      Inventory.Count(r.0, id) == Inventory.Count(inventory, id) - (if id == item.id then 1 else 0)
      && r.1.playerHealth.value <= MaxPlayerHealth
  {
    var k := Inventory.FindIndex(inventory, item.id);
    var x := inventory[k].(quantity := inventory[k].quantity - 1);
    assert ItemEffect(inventory, gs, item).0 == inventory[k := x];
    Inventory.CountUpdate(inventory, k, x, id);
  }

  /** `addItemsToInventory(loot)`: each loot entry, with a missing quantity
      read as 1, is stacked onto the first entry with its id whatever its
      `stackable` says, or else appended as a copy. */
  function Looted(inventory: seq<Item>, loot: seq<Item>): seq<Item>
    decreases |loot|
  {
    if |loot| == 0 then inventory
    else
      var last := loot[|loot| - 1];
      Inventory.Put(Looted(inventory, loot[..|loot| - 1]), last, Inventory.QuantityOr1(last), true)
  }

  /** Looting loses nothing: every id's total grows by what the loot holds
      under it. */
  lemma {:induction false} LootedCount(inventory: seq<Item>, loot: seq<Item>, id: string)
    ensures Inventory.Count(Looted(inventory, loot), id) == Inventory.Count(inventory, id) + Inventory.Requested(loot, id)
    decreases |loot|
  {
    if |loot| > 0 {
      var last := loot[|loot| - 1];
      LootedCount(inventory, loot[..|loot| - 1], id);
      Inventory.PutCount(Looted(inventory, loot[..|loot| - 1]), last, Inventory.QuantityOr1(last), true, id);
    }
  }

  /** No two entries share an id. */
  predicate UniqueIds(items: seq<Item>) {
    forall i, j :: 0 <= i < j < |items| ==> items[i].id != items[j].id
  }

  /** Since loot always stacks, it never creates a second entry for an id:
      an inventory without duplicate ids keeps none. */
  lemma {:induction false} LootedKeepsIdsUnique(inventory: seq<Item>, loot: seq<Item>)
    requires UniqueIds(inventory)
    ensures UniqueIds(Looted(inventory, loot))
    decreases |loot|
  {
    if |loot| > 0 {
      var last := loot[|loot| - 1];
      var before := Looted(inventory, loot[..|loot| - 1]);
      LootedKeepsIdsUnique(inventory, loot[..|loot| - 1]);
      var after := Inventory.Put(before, last, Inventory.QuantityOr1(last), true);
      var k := Inventory.FindIndex(before, last.id);
      if k >= 0 {
        assert forall i :: 0 <= i < |after| ==> after[i].id == before[i].id;
      } else {
        assert forall i :: 0 <= i < |before| ==> after[i] == before[i];
      }
    }
  }

  /** The loot a victory yields: the loot system's roll when there is a loot
      system and the enemy has an id, else the enemy's own list, else none. */
  function LootFor(e: Enemy, hasLootSystem: bool, generated: seq<Item>): seq<Item> {
    if hasLootSystem && e.id != "" then generated
    else if e.loot.Some? then e.loot.value
    else []
  }

  /** An enemy fetched from the loot system by a non-empty id carries that
      id, so beating it rolls the loot system's loot, whatever loot list the
      table entry has. */
  lemma FetchedEnemyRollsLoot(id: string, table: map<string, Enemy>, generated: seq<Item>)
    requires id != "" && id in table && table[id].name != ""
    ensures LootFor(ResolveEnemy(ById(id), Some(table)), true, generated) == generated
  {
  }

  // ---------------------------------------------------------------- engine

  /** The delayed call a combat step leaves behind. */
  datatype Scheduled =
    | NothingScheduled
    | EnemyTurnLater     // processEnemyTurn after 1.5 s
    | VictoryLater       // FinishVictory after 3 s
    | DefeatLater        // FinishDefeat after 3 s

  /** The random draws one combat step may consume. */
  datatype Rolls = Rolls(critical: real, xpBonus: real, generatedLoot: seq<Item>)

  /** The combat system with the slice of the game it reads and writes. */
  class CombatSystem {
    var inCombat: bool
    var currentEnemy: Option<Enemy>
    var playerTurn: bool
    var inputMode: string
    var playerStats: Stats
    var gameState: GameState
    var inventory: seq<Item>
    var currentScene: string
    var nextSceneAfterCombat: string
    var defeatSceneAfterCombat: string
    /** The loot system's enemy table; `None` when there is no loot system. */
    const lootSystem: Option<map<string, Enemy>>

    /** During a fight there is an enemy and the player's health is set. */
    predicate Valid()
      reads this
    {
      inCombat ==> currentEnemy.Some? && gameState.playerHealth.Some?
    }

    constructor (playerStats: Stats, gameState: GameState, inventory: seq<Item>,
                 lootSystem: Option<map<string, Enemy>>)
      ensures !inCombat && currentEnemy.None? && !playerTurn && Valid()
      ensures this.playerStats == playerStats && this.gameState == gameState
      ensures this.inventory == inventory && this.lootSystem == lootSystem
    {
      inCombat := false;
      currentEnemy := None;
      playerTurn := false;
      inputMode := "normal";
      this.playerStats := playerStats;
      this.gameState := gameState;
      this.inventory := inventory;
      currentScene := "";
      nextSceneAfterCombat := "";
      defeatSceneAfterCombat := "";
      this.lootSystem := lootSystem;
    }

    /** `initiateCombat(enemy)`: the fight starts against the resolved enemy
        at full health; missing player health is set to the maximum; the
        faster side moves first, the player winning ties. */
    method InitiateCombat(arg: EnemyArg) returns (s: Scheduled)
      modifies this`inCombat, this`currentEnemy, this`playerTurn, this`gameState, this`inputMode
      ensures Valid() && inCombat && inputMode == "combat"
      ensures var e := ResolveEnemy(arg, lootSystem);
        currentEnemy == Some(e.(currentHealth := e.health))
        && (playerTurn <==> playerStats.speed >= e.speed)
      ensures gameState == if old(gameState.playerHealth).None?
        then old(gameState).(playerHealth := Some(MaxPlayerHealth)) else old(gameState)
      ensures s == if playerTurn then NothingScheduled else EnemyTurnLater
    {
      inCombat := true;
      var enemy := ResolveEnemy(arg, lootSystem);
      currentEnemy := Some(enemy.(currentHealth := enemy.health));
      if gameState.playerHealth.None? {
        gameState := gameState.(playerHealth := Some(MaxPlayerHealth));
      }
      playerTurn := playerStats.speed >= enemy.speed;
      s := if !playerTurn then EnemyTurnLater else NothingScheduled;
      inputMode := "combat";
    }

    /** The state after the player's attack: the enemy has lost the damage;
        at or below 0 health the fight is won, otherwise the turn passes. */
    twostate predicate Attacked(rolls: Rolls, s: Scheduled)
      reads this
    {
      old(currentEnemy).Some?
      && var e := old(currentEnemy).value;
      var damage := AttackDamage(WeaponBase(old(inventory)), old(playerStats).attack,
                                 IsCritical(rolls.critical, old(playerStats).luck), e.defense);
      var hit := e.(currentHealth := e.currentHealth - damage);
      currentEnemy == Some(hit)
      && playerStats == old(playerStats) && inputMode == old(inputMode)
      && currentScene == old(currentScene)
      && if hit.currentHealth <= 0 then
           Won(old(gameState), old(inventory), hit, rolls, s) && playerTurn == old(playerTurn)
         else
           inCombat == old(inCombat) && !playerTurn && s == EnemyTurnLater
           && gameState == old(gameState) && inventory == old(inventory)
    }

    /** The state `endCombat(true)` leaves. */
    predicate Won(gs0: GameState, inv0: seq<Item>, e: Enemy, rolls: Rolls, s: Scheduled)
      reads this
    {
      !inCombat && s == VictoryLater
      && gameState == gs0.(playerXp := gs0.playerXp + XpReward(e.health, e.attack, rolls.xpBonus))
      && inventory == Looted(inv0, LootFor(e, lootSystem.Some?, rolls.generatedLoot))
    }

    /** `processPlayerAction(action)`: ignored unless in combat on the
        player's turn; "1"/"attack" attacks, "2"/"use item" opens the item
        menu, anything else (including "3", the enemy description) only
        prints. */
    method ProcessPlayerAction(action: string, rolls: Rolls) returns (s: Scheduled)
      requires Valid()
      modifies this`inCombat, this`currentEnemy, this`playerTurn, this`gameState, this`inventory, this`inputMode
      ensures Valid()
      ensures !old(inCombat && playerTurn) ==> unchanged(this) && s == NothingScheduled
      ensures old(inCombat && playerTurn) ==>
        var a := Lower(action);
        if a == "1" || a == "attack" then Attacked(rolls, s)
        else if a == "2" || a == "use item" then
          s == NothingScheduled && inputMode == OpenedMenu(old(inputMode), old(inventory))
          && unchanged(this`inCombat, this`currentEnemy, this`playerTurn, this`gameState, this`inventory)
        else unchanged(this) && s == NothingScheduled
    {
      if !inCombat || !playerTurn {
        return NothingScheduled;
      }
      var a := Lower(action);
      if a == "1" || a == "attack" {
        s := PlayerAttack(rolls);
      } else if a == "2" || a == "use item" {
        ShowInventory();
        s := NothingScheduled;
      } else {
        s := NothingScheduled;
      }
    }

    /** `playerAttack()` */
    method PlayerAttack(rolls: Rolls) returns (s: Scheduled)
      requires currentEnemy.Some?
      modifies this`currentEnemy, this`inCombat, this`playerTurn, this`gameState, this`inventory
      ensures Attacked(rolls, s)
    {
      var base := WeaponBase(inventory);
      var critical := IsCritical(rolls.critical, playerStats.luck);
      var e := currentEnemy.value;
      var damage := AttackDamage(base, playerStats.attack, critical, e.defense);
      currentEnemy := Some(e.(currentHealth := e.currentHealth - damage));
      if currentEnemy.value.currentHealth <= 0 {
        s := EndCombat(true, rolls);
        return;
      }
      playerTurn := false;
      s := EnemyTurnLater;
    }

    /** `processEnemyTurn()`: ignored out of combat; otherwise the player
        takes the tutorial or the ordinary hit, and either loses the fight
        at or below 0 health or gets the turn. */
    method ProcessEnemyTurn(rolls: Rolls) returns (s: Scheduled)
      requires Valid()
      modifies this`inCombat, this`playerTurn, this`gameState, this`inventory
      ensures Valid()
      ensures !old(inCombat) ==> unchanged(this) && s == NothingScheduled
      ensures old(inCombat) ==>
        var e := currentEnemy.value;
        var h := old(gameState.playerHealth.value);
        var left := h - (if e.isTutorial then TutorialDamage(h) else EnemyDamage(e.attack, playerStats.defense));
        gameState == old(gameState).(playerHealth := Some(left))
        && inventory == old(inventory)
        && if left <= 0 then !inCombat && s == DefeatLater && playerTurn == old(playerTurn)
           else inCombat && playerTurn && s == NothingScheduled
    {
      if !inCombat {
        return NothingScheduled;
      }
      var e := currentEnemy.value;
      var h := gameState.playerHealth.value;
      var damage := if e.isTutorial then TutorialDamage(h) else EnemyDamage(e.attack, playerStats.defense);
      gameState := gameState.(playerHealth := Some(h - damage));
      if h - damage <= 0 {
        s := EndCombat(false, rolls);
        return;
      }
      playerTurn := true;
      s := NothingScheduled;
    }

    /** `showInventory()`: the item menu opens only when something is
        usable. */
    method ShowInventory()
      modifies this`inputMode
      ensures inputMode == OpenedMenu(old(inputMode), inventory)
    {
      var usable := Usable(inventory);
      if |usable| == 0 {
        return;
      }
      inputMode := "combat-item";
    }

    /** `useItem(selection)` in the item menu: "0" or "back" returns to the
        combat menu with the turn kept; a selection that is not a number in
        1..n re-opens the menu; a valid one applies the n-th usable item and
        passes the turn. */
    method UseItem(selection: string) returns (s: Scheduled)
      requires gameState.playerHealth.Some?
      modifies this`inputMode, this`playerTurn, this`inventory, this`gameState
      ensures var usable := Usable(old(inventory));
        var n := ParseInt(selection);
        if selection == "0" || selection == "back" then
          inputMode == "combat" && s == NothingScheduled
          && unchanged(this`playerTurn, this`inventory, this`gameState)
        else if n.None? || n.value < 1 || n.value > |usable| then
          inputMode == OpenedMenu(old(inputMode), old(inventory)) && s == NothingScheduled
          && unchanged(this`playerTurn, this`inventory, this`gameState)
        else
          Inventory.FindIndex(old(inventory), usable[n.value - 1].id) >= 0
          && (inventory, gameState) == ItemEffect(old(inventory), old(gameState), usable[n.value - 1])
          && !playerTurn && inputMode == "combat" && s == EnemyTurnLater
    {
      var usable := Usable(inventory);
      if selection == "0" || selection == "back" {
        inputMode := "combat";
        return NothingScheduled;
      }
      var n := ParseInt(selection);
      if n.None? || n.value - 1 < 0 || n.value - 1 >= |usable| {
        ShowInventory();
        return NothingScheduled;
      }
      UsableIsHeld(inventory, n.value - 1);
      ApplyItemEffect(usable[n.value - 1]);
      playerTurn := false;
      inputMode := "combat";
      s := EnemyTurnLater;
    }

    /** `applyItemEffect(item)` */
    method ApplyItemEffect(item: Item)
      requires Inventory.FindIndex(inventory, item.id) >= 0
      requires gameState.playerHealth.Some?
      modifies this`inventory, this`gameState
      ensures (inventory, gameState) == ItemEffect(old(inventory), old(gameState), item)
    {
      var k := Inventory.FindIndex(inventory, item.id);
      inventory := inventory[k := inventory[k].(quantity := inventory[k].quantity - 1)];
      if item.props.heal != 0 {
        gameState := gameState.(playerHealth := Some(Min(MaxPlayerHealth, gameState.playerHealth.value + item.props.heal)));
      }
      if item.props.custom {
        gameState := CustomItemEffect(gameState, item.id);
      }
    }

    /** `endCombat(victory)`: the fight ends; a victory adds the XP reward,
        runs the level-up check and adds the loot; a defeat changes nothing
        else until its delayed continuation. */
    method EndCombat(victory: bool, rolls: Rolls) returns (s: Scheduled)
      requires currentEnemy.Some?
      modifies this`inCombat, this`gameState, this`inventory
      ensures victory ==> Won(old(gameState), old(inventory), currentEnemy.value, rolls, s)
      ensures !victory ==>
        !inCombat && s == DefeatLater && gameState == old(gameState) && inventory == old(inventory)
    {
      inCombat := false;
      if !victory {
        return DefeatLater;
      }
      var e := currentEnemy.value;
      var reward := XpReward(e.health, e.attack, rolls.xpBonus);
      gameState := gameState.(playerXp := gameState.playerXp + reward);
      CheckLevelUp();
      var loot := LootFor(e, lootSystem.Some?, rolls.generatedLoot);
      if |loot| > 0 {
        AddItemsToInventory(loot);
      }
      s := VictoryLater;
    }

    /** `addItemsToInventory(loot)` */
    method AddItemsToInventory(loot: seq<Item>)
      modifies this`inventory
      ensures inventory == Looted(old(inventory), loot)
    {
      var i := 0;
      while i < |loot|
        invariant 0 <= i <= |loot|
        invariant inventory == Looted(old(inventory), loot[..i])
      {
        var x := loot[i];
        var q := Inventory.QuantityOr1(x);
        var k := Inventory.FindIndex(inventory, x.id);
        if k >= 0 {
          inventory := inventory[k := inventory[k].(quantity := inventory[k].quantity + q)];
        } else {
          inventory := inventory + [x.(quantity := q)];
        }
        assert loot[..i + 1][..i] == loot[..i];
        i := i + 1;
      }
      assert loot[..|loot|] == loot;
    }

    /** `checkLevelUp()` as written: both levels are computed from the same,
        already increased, XP, so no level is ever gained and the stat pool
        is never touched. */
    method CheckLevelUp()
      modifies this`gameState
      ensures gameState == old(gameState)
    {
      var oldLevel := FloorDiv(gameState.playerXp, XpPerLevel);
      var newLevel := FloorDiv(gameState.playerXp, XpPerLevel);
      var gained := newLevel - oldLevel;
      gameState := if gained > 0
        then gameState.(statPool := Some(PoolOrZero(gameState) + gained))
        else gameState;
    }

    /** The continuation `endCombat(true)` schedules, up to the call that
        plays the scene. */
    method FinishVictory()
      modifies this`currentScene, this`inputMode
      ensures currentScene == nextSceneAfterCombat && inputMode == "normal"
    {
      currentScene := nextSceneAfterCombat;
      inputMode := "normal";
    }

    /** The continuation `endCombat(false)` schedules: the defeat scene, at
        full health. */
    method FinishDefeat()
      modifies this`currentScene, this`inputMode, this`gameState
      ensures currentScene == defeatSceneAfterCombat && inputMode == "normal"
      ensures gameState == old(gameState).(playerHealth := Some(MaxPlayerHealth))
    {
      currentScene := defeatSceneAfterCombat;
      inputMode := "normal";
      gameState := gameState.(playerHealth := Some(MaxPlayerHealth));
    }
  }

  /** The mode after `showInventory()`: "combat-item" when something is
      usable, the previous mode otherwise. */
  function OpenedMenu(mode: string, inventory: seq<Item>): string {
    if |Usable(inventory)| == 0 then mode else "combat-item"
  }
}
