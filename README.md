# Game-state bookkeeping of the frosty-gates text RPG

This project models the bookkeeping core of a browser text RPG and proves
properties about it. The core covers:

- the inventory, the three equipment slots and the weapon list;
- the three variants of stat-point allocation;
- talent unlocking and the turn-based combat engine;
- the input-mode state machine, which dispatches typed commands on `inputMode`;
- the two scene engines (`js/gameLogic.js` and `js/game.js`) and the earlier
  button-driven game in the root `game.js`;
- resolving the player's position on the world map.

There is one Dafny module per source file:

| module | source |
|---|---|
| `Inventory` | js/inventoryManager.js |
| `Equipment` | js/equipmentManager.js |
| `StatPoints` | js/statsPointsHandler.js |
| `Talents` | js/talentManager.js |
| `Combat` | js/combat.js |
| `InputHandlers` | js/inputHandlers.js |
| `GameLogic` | js/gameLogic.js |
| `SceneFlow` | js/game.js |
| `LegacyGame` | game.js |
| `EquipmentUI` | js/equipmentManagerUI.js |
| `Weapons` | js/weaponManager.js |
| `WorldMap` | js/map.js |

Two more modules hold shared definitions:
- `Common` holds the item and game-state records, the stats, the constants of
  js/constants.js, floor division, ASCII lower-casing and JavaScript's
  `parseInt`.
- `Story` holds scenes, choices and the story index with its chapter lookup.

Each source class that updates its fields becomes a Dafny class. That class
holds the part of the shared `game` object the file reads and writes. Every
method names, field by field, what it may change. Each method is proved
against a specification function on values, for example
`Inventory.Removed` or `StatPoints.Adjust`. Lemmas then state what the
source promises about those functions: conservation of stat plus pool,
round trips, first-match lookups, and branch priorities.

JavaScript's loose values are modelled as follows:
- `x || 0` on a field becomes an integer where 0 means absent.
- A field tested with `=== undefined` becomes an `Option`.
- A null mode or scene id becomes the empty string.
- A `TypeError` the source would throw becomes an explicit outcome
  (`Fault`, `Thrown`), with the state left as it was.

Calls the source defers with `setTimeout` or `await` become returned values
(`Effect`, `Scheduled`, `Outcome`). The deferred continuations are separate
methods.

## Model

| member | source | states |
|---|---|---|
| Common.FloorDiv | js/talentManager.js:33 | `Math.floor(a / b)`: the quotient rounded toward negative infinity, for either sign of the divisor |
| Common.Lower | js/inputHandlers.js:54 | `toLowerCase`: same length, each ASCII capital replaced by its small letter, every other character kept |
| Common.ParseInt | js/inputHandlers.js:153 | `parseInt` without a radix: the empty text and text not starting with a digit or sign are NaN |
| Common.ParseIntDigits | js/inputHandlers.js:153 | a run of decimal digits followed by a non-digit parses to the digits' decimal value |
| Story.ChapterForScene | js/gameLogic.js:88-95 | the first chapter, in mapping order, whose scene list holds the scene; none exactly when no chapter lists it |
| Story.FindChapter | js/gameLogic.js:88-95 | the search loop returns exactly the first-match chapter |
| Story.ChapterToLoad | js/gameLogic.js:80-84 | the chapter the callers act on: the first-match chapter when its id is non-empty, none when no chapter lists the scene or the first one is the key "" (a falsy id) |
| Story.EmptyKeyIsNoChapter | js/gameLogic.js:80-84 | a scene listed first under the key "" has no chapter to load, whatever later chapters list |
| Inventory.FindIndex | js/inventoryManager.js:46 | the first index holding the id, or -1 exactly when no entry has it |
| Inventory.GetItem | js/inventoryManager.js:60-62 | the first entry with the id; none exactly when the id is absent |
| Inventory.HasItem | js/inventoryManager.js:73-76 | true iff the first entry with the id holds at least the quantity |
| Inventory.GetItemsByType | js/inventoryManager.js:79-83 | exactly the entries whose type or category is the given one |
| Inventory.GetItemsByTypeAppend | js/inventoryManager.js:79-83 | filtering distributes over concatenation, so the selection keeps inventory order |
| Inventory.Put | js/inventoryManager.js:17-30 | when stacking and the id is present, that entry grows by q and nothing else changes; otherwise one copy with quantity q is appended |
| Inventory.Removed | js/inventoryManager.js:45-57 | an absent id changes nothing; the first match loses q and is deleted at or below 0, the others keeping their order |
| Inventory.PutCount | js/inventoryManager.js:13-31 | adding q raises the total under the item's id by exactly q, and no other id's total changes |
| Inventory.RemovedCount | js/inventoryManager.js:45-57 | removing takes q, or the whole entry, from the id's total, and other ids keep theirs |
| Inventory.AddedAllCount | js/inventoryManager.js:34-42 | `addItems` grows every id's total by what the list asked for, missing quantities counting as 1 |
| Inventory.RemovedUndoesPut | js/inventoryManager.js:13-57 | for a positive quantity, `removeItem(id, q)` undoes `addItem(item, q)` when the stack it hits is positive |
| Inventory.NonStackableDuplicates | js/inventoryManager.js:24-29 | a non-stackable item whose id is held gets a second entry with the same id |
| Inventory.InventoryManager.constructor | js/inventoryManager.js:2-5 | an empty list |
| Inventory.InventoryManager.AddItem | js/inventoryManager.js:13-31 | a null item is refused with no change; otherwise the list becomes `Put` with the item's stackable flag |
| Inventory.InventoryManager.AddItems | js/inventoryManager.js:34-42 | a null or empty list is refused with no change; otherwise each item is added in order with `quantity \|\| 1` |
| Inventory.InventoryManager.RemoveItem | js/inventoryManager.js:45-57 | succeeds iff the id is held; the list becomes `Removed` |
| Inventory.InventoryManager.UseItem | js/inventoryManager.js:86-106 | missing, material and other non-consumable items fail with no change; a consumable loses one unit exactly when the hook reports success |
| Inventory.InventoryManager.Save | js/inventoryManager.js:109-111 | the list as it stands |
| Inventory.InventoryManager.Load | js/inventoryManager.js:114-116 | the saved list, or the empty list for a missing one |
| Inventory.SaveLoadRoundTrip | js/inventoryManager.js:109-116 | loading what `save` returned restores the list |
| Equipment.SlotFor | js/equipmentManager.js:20-31 | weapon before armor before accessory, each matched on type or category; none for any other kind |
| Equipment.AfterEquipCounts | js/equipmentManager.js:40-75 | equipping from the inventory takes one unit of the item and gives one unit of the displaced item back |
| Equipment.TotalDefense | js/equipmentManager.js:121-138 | half the defense stat rounded down, plus the armor's and the accessory's defense, absent values counting as 0 |
| Equipment.WeaponDamage | js/equipmentManager.js:104-118 | the weapon's damage, or the fists' damage, plus half the attack stat rounded down |
| Equipment.EquipWeaponDamage | js/equipmentManager.js:37-118 | after equipping a weapon the damage is its damage plus half the attack rounded down |
| Equipment.WeaponDamageMonotone | js/equipmentManager.js:111-117 | more attack never lowers the weapon damage |
| Equipment.FistsFallback | js/equipmentManager.js:105-111 | without a loaded fists weapon, or without a weapon manager, fists deal 1 |
| Equipment.UnequipArmorDefense | js/equipmentManager.js:92 | emptying the armor slot lowers total defense by exactly the armor's defense |
| Equipment.EquipmentManager.constructor | js/equipmentManager.js:2-9 | three empty slots |
| Equipment.EquipmentManager.EquipItem | js/equipmentManager.js:17-83 | a null or unequippable item fails with no change; otherwise the slot holds a copy with `equipped` set and quantity 1, the other slots are unchanged, and the displaced item is returned; the inventory changes only when equipping from it |
| Equipment.EquipmentManager.UnequipItem | js/equipmentManager.js:86-101 | an empty slot fails with no change; otherwise the slot empties and the item returns to the inventory with `equipped` cleared |
| Equipment.EquipmentManager.Save | js/equipmentManager.js:141-143 | the three slots as they stand |
| Equipment.EquipmentManager.Load | js/equipmentManager.js:146-148 | the saved slots, or three empty slots for a missing save |
| Equipment.EquipThenUnequip | js/equipmentManager.js:17-101 | equipping from the inventory and unequipping again leaves the slot empty and every id's total as before, plus the displaced item |
| Weapons.FindWeapon | js/weaponManager.js:52 | the first loaded weapon with the id; none exactly when no weapon has it |
| Weapons.GetWeapon | js/weaponManager.js:51-57 | a loaded weapon wins; a missing "fists" is the built-in one with damage 1; any other missing id is undefined |
| Weapons.GetAvailableWeapons | js/weaponManager.js:60-65 | exactly the weapons with no strength requirement, or one the attack stat meets |
| Weapons.GetAvailableWeaponsAppend | js/weaponManager.js:60-65 | the filter distributes over concatenation, so the order is kept |
| Weapons.AvailableGrowsWithAttack | js/weaponManager.js:60-65 | raising attack never removes a weapon from the available list |
| StatPoints.Adjust | js/statsPointsHandler.js:13-41 | refused iff an increment exceeds the selected pool or a decrement goes below the baseline; on success the stat moves by the change, stat plus selected pool is conserved, the sum of both pools drops by the change, and the other pool is untouched |
| StatPoints.AdjustKeepsBounds | js/statsPointsHandler.js:22-37 | from a non-negative pool and a stat at or above its baseline, no successful adjustment breaks either bound |
| StatPoints.AdjustUndo | js/statsPointsHandler.js:13-41 | an increment followed by the matching decrement restores the stats and both pools |
| StatPoints.Consolidated | js/statsPointsHandler.js:44-48 | moves everything into the persistent pool, zeroes the temporary pool and keeps the total |
| StatPoints.ConsolidateIdempotent | js/statsPointsHandler.js:44-48 | consolidating twice is consolidating once |
| StatPoints.StatsPointsHandler.constructor | js/statsPointsHandler.js:2-4 | the handler works on the game's stats, pools and initial stats as given |
| StatPoints.StatsPointsHandler.AdjustStat | js/statsPointsHandler.js:13-41 | returns whether `Adjust` allows the change, and the stats and pools become its result or stay as they were |
| StatPoints.StatsPointsHandler.ConsolidateForSave | js/statsPointsHandler.js:44-48 | both pools become `Consolidated` of the old pools |
| StatPoints.StatsPointsHandler.ResetAfterLoad | js/statsPointsHandler.js:51-53 | only the temporary pool is zeroed |
| Talents.GetTalent | js/talentManager.js:21-23 | the first talent with the id; none exactly when no talent has it |
| Talents.Check | js/talentManager.js:29-48 | unlocking is allowed iff the talent exists, is not acquired, a non-zero required level is met by the level (XP over `xpPerLevel \|\| 100`, rounded down), every prerequisite is acquired, no acquired talent holds the same non-zero tier, and talent points remain; an unknown or acquired id is the first refusal |
| Talents.WithSpell | js/talentManager.js:54-59 | the spell is added once; no spell is lost and nothing else is added |
| Talents.WithSpellNoDuplicates | js/talentManager.js:56-58 | a spell list without duplicates keeps none |
| Talents.WithBonusesAdds | js/talentManager.js:60-64 | each stat gains the sum of its bonuses, a missing stat counting as 0 |
| Talents.UnlockKeepsConsistent | js/talentManager.js:29-51 | an allowed unlock keeps "every acquired id names a talent, at most one per tier, no duplicates" |
| Talents.TalentManager.constructor | js/talentManager.js:2-6 | no talent acquired |
| Talents.TalentManager.UnlockTalent | js/talentManager.js:29-67 | succeeds iff `Check` allows; a refusal changes nothing; success appends the id once, spends one talent point, adds the spell and applies the bonuses |
| Talents.TalentManager.Grant | js/talentManager.js:50-64 | the id is appended, one talent point spent, the spell added and the bonuses applied |
| Talents.TalentManager.PrerequisitesMet | js/talentManager.js:35-37 | true iff every prerequisite is acquired |
| Talents.TalentManager.TierFree | js/talentManager.js:39-44 | true iff no acquired talent holds the tier |
| Talents.TalentManager.ApplyBonuses | js/talentManager.js:60-64 | the stats after adding every bonus in order |
| Talents.TalentManager.Save | js/talentManager.js:69-73 | the acquired list as it stands |
| Talents.TalentManager.Load | js/talentManager.js:75-77 | the saved list, or the empty list for missing data |
| Talents.SaveLoadRoundTrip | js/talentManager.js:69-77 | loading what `save` returned restores the acquired list |
| Combat.ResolveEnemy | js/combat.js:19-40 | a named record is used as given; an id the enemy table resolves to a named record gives that record stamped with the id, as `getEnemy` returns it; anything else gives the Bear Warrior (30, 8, 3, 4) |
| Combat.FetchedEnemyRollsLoot | js/combat.js:307-309 | an enemy fetched by id carries that id, so with a loot table its defeat rolls the generated loot rather than its own list |
| Combat.CritChance | js/combat.js:114 | at most 0.2, and positive exactly for positive luck |
| Combat.AttackDamage | js/combat.js:104-125 | the player's damage is at least 1 |
| Combat.AtLeastOneMonotone | js/combat.js:124-125 | `floor(max(1, x))` is monotone |
| Combat.CriticalNeverWeaker | js/combat.js:117-125 | a critical hit never deals less than a normal one |
| Combat.EnemyDamage | js/combat.js:163-168 | the enemy's damage is at least 1 |
| Combat.DefenseNeverHurts | js/combat.js:163-168 | more defense never raises the damage taken |
| Combat.TutorialDamage | js/combat.js:153 | at least 1, and at most a tenth of the health from 10 health up |
| Combat.TutorialNeverKills | js/combat.js:151-159 | from 2 health up, a tutorial hit leaves the player alive |
| Combat.XpReward | js/combat.js:371-378 | between half the health plus twice the attack and 10 more, for a draw in [0, 1) |
| Combat.EquippedWeapon | js/combat.js:189-199 | the first equipped item of category "weapon"; none exactly when there is none |
| Combat.WeaponBase | js/combat.js:104-107 | the weapon's damage when it has one, 5 otherwise |
| Combat.Usable | js/combat.js:213-216 | exactly the consumables with a positive quantity, in inventory order (with `Combat.UsableAppend`) |
| Combat.UsableAppend | js/combat.js:213-216 | the menu filter distributes over concatenation, so the menu keeps inventory order and repeated entries, which fixes the item a numbered selection uses |
| Combat.UsableIsHeld | js/combat.js:264-265 | a usable item is always found in the inventory by id |
| Combat.ItemEffect | js/combat.js:262-286 | the first entry with the id loses one unit without being removed; healing caps at the maximum health; the salve's custom effect cures the injury; nothing else changes |
| Combat.ItemEffectAccounts | js/combat.js:262-276 | using an item takes exactly one unit from its id, and health stays within the maximum |
| Combat.LootedCount | js/combat.js:345-369 | looting grows every id's total by what the loot holds under it, a missing quantity counting as 1 |
| Combat.LootedKeepsIdsUnique | js/combat.js:358-367 | loot always stacks, so an inventory without duplicate ids keeps none |
| Combat.CombatSystem.constructor | js/combat.js:4-11 | not in combat, no enemy |
| Combat.CombatSystem.InitiateCombat | js/combat.js:13-71 | the resolved enemy at full health; missing player health set to the maximum; the player moves first iff at least as fast; mode "combat"; the enemy turn is scheduled otherwise |
| Combat.CombatSystem.ProcessPlayerAction | js/combat.js:85-100 | nothing happens unless in combat on the player's turn; "1"/"attack" attacks, "2"/"use item" opens the menu, anything else changes nothing |
| Combat.CombatSystem.PlayerAttack | js/combat.js:102-145 | the enemy loses the computed damage; at or below 0 the fight is won with XP and loot, otherwise the turn passes to the enemy |
| Combat.CombatSystem.ProcessEnemyTurn | js/combat.js:147-187 | nothing happens out of combat; the player loses the tutorial or normal damage, then loses the fight at or below 0 or gets the turn back |
| Combat.CombatSystem.ShowInventory | js/combat.js:213-231 | the item menu opens only when some item is usable |
| Combat.CombatSystem.UseItem | js/combat.js:233-260 | "0"/"back" returns to "combat" without passing the turn; an invalid index changes nothing; a valid one applies the item and passes the turn |
| Combat.CombatSystem.ApplyItemEffect | js/combat.js:262-286 | inventory and game state become `ItemEffect` of the old ones |
| Combat.CombatSystem.EndCombat | js/combat.js:288-342 | victory adds the XP reward and the loot; defeat changes nothing but ends the fight |
| Combat.CombatSystem.AddItemsToInventory | js/combat.js:345-369 | the inventory becomes `Looted` of the old one |
| Combat.CombatSystem.CheckLevelUp | js/combat.js:380-400 | the game state is unchanged: both levels come from the same XP, so no point is ever granted |
| Combat.CombatSystem.FinishVictory | js/combat.js:325-329 | the scene after combat, mode "normal" |
| Combat.CombatSystem.FinishDefeat | js/combat.js:335-340 | the defeat scene, mode "normal", health reset to the maximum |
| InputHandlers.Dispatch | js/inputHandlers.js:47-92 | nothing while typing; the input is lower-cased except in "loadGame"; "notes"/"note" comes before the mode; an unknown mode handles nothing |
| InputHandlers.LowerIdempotent | js/inputHandlers.js:54 | lower-casing the already lowered input again changes nothing |
| InputHandlers.ChoiceTarget | js/inputHandlers.js:153-158 | a choice is selected iff `parseInt` gives n in 1..count, and it is choice n's next scene |
| InputHandlers.ChoiceByDigit | js/inputHandlers.js:153-158 | typing digit k selects the k-th choice |
| InputHandlers.ChoiceNeedsNumber | js/inputHandlers.js:153-158 | text not starting with a digit or a sign selects nothing |
| InputHandlers.StatNamed | js/inputHandlers.js:236-238 | exactly attack, defense, charisma, speed and luck are accepted; intelligence is not |
| InputHandlers.ClassifyStatInput | js/inputHandlers.js:166-268 | reductions only during initial allocation; while awaiting confirmation only confirm, cancel or repeat; "intelligence" is invalid |
| InputHandlers.UseArgument | js/inputHandlers.js:336 | `/^use\s+(.+)$/` captures the non-empty text after "use" and its spaces |
| InputHandlers.FindByName | js/inputHandlers.js:340-342 | the first item whose lower-cased name or id is the text; none exactly when no item matches |
| InputHandlers.Resumed | js/inputHandlers.js:508 | `previousMode \|\| "normal"`: never the null mode, and the previous mode when there is one |
| InputHandlers.InputHandlers.constructor | js/inputHandlers.js:2-6 | not in initial allocation and not awaiting confirmation |
| InputHandlers.InputHandlers.HandleInput | js/inputHandlers.js:47-92 | the route is `Dispatch`; each route leaves the whole state its handler leaves (the title, normal, choice, stat, inventory and load handlers' states, the recovery effect), and the ignored, notes and combat routes change nothing here |
| InputHandlers.InputHandlers.HandleTitleInput | js/inputHandlers.js:94-102 | "1"/"new game" starts a new game and touches nothing outside it; "2"/"load game" changes only the mode, to the load prompt; anything else changes nothing |
| InputHandlers.InputHandlers.HandleNormalInput | js/inputHandlers.js:104-127 | "inventory"/"i" opens the overlay remembering the mode and changes nothing else; "save" yields the record; "load" changes only the mode, to the prompt; quit words return to the title; other input changes nothing |
| InputHandlers.InputHandlers.HandleChoiceInput | js/inputHandlers.js:129-163 | "load" changes only the mode; an invalid choice changes nothing; a valid one moves to its scene in mode "normal" and changes nothing else; a missing scene or missing choices throw before any change |
| InputHandlers.InputHandlers.MakeChoice | js/inputHandlers.js:429-435 | the scene becomes the choice's, input no longer awaited, mode "normal" |
| InputHandlers.InputHandlers.ProceedAfterStatAllocation | js/inputHandlers.js:271-283 | after the initial allocation: scene "intro", mode "normal", flag cleared; otherwise the previous mode or "normal" |
| InputHandlers.InputHandlers.HandleStatInput | js/inputHandlers.js:166-268 | "start"/"done" with unspent points only sets the confirmation flag; confirm proceeds, cancel clears it; an accepted stat rises by one only when the active pool is positive, and that pool pays exactly one point |
| InputHandlers.InputHandlers.FinishAllocation | js/inputHandlers.js:205-221 | with points left in the active pool only the confirmation flag is set; otherwise the game proceeds with the stats untouched |
| InputHandlers.InputHandlers.IncreaseStat | js/inputHandlers.js:238-256 | with a positive active pool the stat gains one and that pool pays exactly one point; otherwise nothing changes |
| InputHandlers.InputHandlers.ReduceStatPoint | js/inputHandlers.js:286-316 | only during initial allocation, only for an accepted stat above its initial value; the point goes to the persistent pool when that is defined, else to the temporary pool |
| InputHandlers.InputHandlers.HandleInventoryInput | js/inputHandlers.js:318-354 | "back"/"exit" restores the previous mode; "use <name>" uses the first matching item; anything else changes nothing; nothing outside the overlay's mode, the inventory and the game state ever changes |
| InputHandlers.ClassifyInventoryInput | js/inputHandlers.js:320-353 | "back"/"exit" and only those close the overlay; a use names a held item by name or id; no use is found only when no item matches |
| InputHandlers.InputHandlers.UseItem | js/inputHandlers.js:536-551 | an effect item applies its custom effect, a consumable loses one unit, and the overlay reopens |
| InputHandlers.InputHandlers.UseItemById | js/inputHandlers.js:553-560 | succeeds iff the id is held, using its first entry; otherwise nothing changes |
| InputHandlers.InputHandlers.RemoveItemFromInventory | js/inputHandlers.js:562-574 | succeeds iff the id is held; the inventory becomes `Inventory.Removed` |
| InputHandlers.InputHandlers.ShowInventory | js/inputHandlers.js:516-518 | the current mode is remembered and the mode becomes "inventory" |
| InputHandlers.InputHandlers.ResumeAfterInventory | js/inputHandlers.js:507-514 | the remembered mode or "normal" comes back, the memory is cleared, and the scene plays when back in "normal" |
| InputHandlers.InputHandlers.HandleLoadGameInput | js/inputHandlers.js:356-368 | "back" goes to the title; an invalid code changes nothing; a null record changes nothing and goes to the title; a record is loaded |
| InputHandlers.InputHandlers.LoadSaveData | js/inputHandlers.js:634-656 | scene, stats, inventory and game state are replaced; the notes only when the record has some |
| InputHandlers.InputHandlers.FinishLoad | js/inputHandlers.js:647-651 | mode "normal", then the scene plays |
| InputHandlers.InputHandlers.SaveGame | js/inputHandlers.js:612-632 | the record of scene, stats, inventory, game state and notes |
| InputHandlers.InputHandlers.HandleErrorRecoveryInput | js/inputHandlers.js:370-379 | the effect is `RecoveryEffect`, with no state change |
| InputHandlers.RecoveryEffect | js/inputHandlers.js:370-379 | "restart" and only it goes to the title, "continue" and only it replays the scene, anything else does nothing |
| InputHandlers.InputHandlers.StartNewGame | js/inputHandlers.js:381-408 | empty inventory, initial stats, 5 temporary points and 0 persistent ones, initial health and XP, mode "stats" with "title" as the previous mode |
| InputHandlers.InputHandlers.ShowLoadGamePrompt | js/inputHandlers.js:410-427 | the mode becomes "loadGame" |
| InputHandlers.InputHandlers.AdjustStat | js/inputHandlers.js:585-602 | an increment the temporary pool cannot pay for is refused with no change; anything else moves stat and pool in opposite directions |
| InputHandlers.InputHandlers.ConfirmStats | js/inputHandlers.js:604-610 | mode "normal" and on to the recorded next scene |
| InputHandlers.InventoryOverlayRestores | js/inputHandlers.js:507-518 | opening and closing the inventory overlay restores the mode it was opened from |
| InputHandlers.SaveLoadRoundTrip | js/inputHandlers.js:612-656 | loading the record a save produced restores scene, stats, inventory, game state and notes |
| GameLogic.SceneItemsCount | js/gameLogic.js:39-52 | every id's total grows by exactly what the scene hands out under it |
| GameLogic.SceneItemsStack | js/gameLogic.js:41-43 | items already held stack with no stackable check, so no entry is added |
| GameLogic.SceneEffectsCure | js/gameLogic.js:48-50 | the injury is cured exactly when an effect-bearing item of the scene is the healing salve, and nothing else changes |
| GameLogic.Branch | js/gameLogic.js:26-36 | a "stats" scene first, then choices, then a next scene |
| GameLogic.GameLogic.constructor | js/gameLogic.js:2-4 | the story index, content and scene as given |
| GameLogic.GameLogic.EnsureSceneLoaded | js/gameLogic.js:78-86 | true at once for a loaded scene; false with no change when no chapter, or only the falsy key "", maps it; otherwise the chapter load decides |
| GameLogic.GameLogic.HandleSceneLoadError | js/gameLogic.js:97-102 | mode "errorRecovery", input awaited, nothing else |
| GameLogic.GameLogic.AddItemsToInventory | js/gameLogic.js:39-52 | the inventory becomes `WithSceneItems` and the game state `AfterSceneEffects` of the old ones |
| GameLogic.GameLogic.HandleCustomItemEffect | js/gameLogic.js:124-131 | the healing salve cures the injury; any other item changes nothing |
| GameLogic.GameLogic.ShowStatAllocation | js/gameLogic.js:104-114 | mode "stats", input awaited, the next scene recorded |
| GameLogic.GameLogic.ShowChoices | js/gameLogic.js:116-122 | mode "choices", input awaited |
| GameLogic.GameLogic.PlayScene | js/gameLogic.js:6-37 | the load fails exactly when the scene is missing and no non-empty chapter id maps to it or none was loaded, and then only the error-recovery mode is set; otherwise the content is the loaded chapter (or unchanged), the scene's items are received and `Branch` decides the mode |
| GameLogic.GameLogic.AdvanceLater | js/gameLogic.js:31-35 | the scene becomes the next scene |
| SceneFlow.ActionOf | js/game.js:81-95 | combat before choices before a next scene before the end |
| SceneFlow.RunStopsForItsReason | js/game.js:11-95 | wherever a run of scenes stops, the final scene explains why: missing, has text, or its highest-priority action is the one reported |
| SceneFlow.TextWaits | js/game.js:24-33 | a scene with text never moves on by itself |
| SceneFlow.Game.constructor | js/game.js:3-9 | notes hidden and empty |
| SceneFlow.Game.PlayScene | js/game.js:11-37 | a missing scene changes nothing; otherwise mode "normal" and the run goes on as `Run` says |
| SceneFlow.Game.FinishTyping | js/game.js:26-31 | the mode becomes "awaiting-continuation" |
| SceneFlow.Game.ProcessSceneActions | js/game.js:81-95 | only a next scene changes anything, by moving there and playing it |
| SceneFlow.Game.HandleInput | js/game.js:39-79 | on the lower-cased input, notes, save, load and help come first; while awaiting continuation only a continue word moves on; any other input changes nothing |
| SceneFlow.Game.ToggleNotes | js/game.js:123-131 | the notes' visibility flips |
| SceneFlow.Game.SaveNotes | js/game.js:133-138 | the editor's content becomes the notes and is returned |
| SceneFlow.Game.LoadNotes | js/game.js:140-146 | only non-empty content replaces the notes |
| SceneFlow.ToggleTwice | js/game.js:123-131 | toggling twice restores visibility |
| SceneFlow.NotesRoundTrip | js/game.js:133-146 | loading saved notes gives back the editor's content |
| LegacyGame.Merged | game.js:91 | the chapter's scenes override existing ids; other ids keep their scenes |
| LegacyGame.MergeLastWins | game.js:91 | loading two chapters in turn is loading their merge: the later one wins |
| LegacyGame.Clicked | game.js:274-281 | refused iff decrementing a stat at or below 1 or incrementing with no points; otherwise stat plus pool is conserved and other stats are unchanged |
| LegacyGame.ButtonsKeepBounds | game.js:276-280 | with steps of one a stat never drops below 1 and the pool never goes negative |
| LegacyGame.LargeIncrementOverdraws | game.js:277 | the guard only asks for a positive pool, so an increment of 2 from 1 point leaves -1 |
| LegacyGame.ShownFor | game.js:186-190 | stat allocation for a "stats" scene, choices when present, nothing else |
| LegacyGame.Game.constructor | game.js:2-54 | empty content, 10 points |
| LegacyGame.Game.LoadChapter | game.js:76-97 | a chapter missing from the index, or a failed fetch, changes nothing; otherwise its scenes are merged in |
| LegacyGame.Game.EnsureSceneLoaded | game.js:99-111 | true at once for a loaded scene; false with no change without a chapter or with the falsy key ""; otherwise the chapter load |
| LegacyGame.LoadedWith | game.js:99-111 | a loaded scene keeps the content; a load never drops a scene; it fails only for a missing or empty chapter id, a chapter without a path or a failed fetch |
| LegacyGame.LoadedAgain | game.js:99-111 | ensuring the same scene twice with the same fetch gives the content the first time gave |
| LegacyGame.Game.PlayScene | game.js:166-192 | a failed load shows the error and keeps the content; otherwise the content is the loaded one and the scene's kind decides what is shown |
| LegacyGame.Game.StartNewGame | game.js:125-130 | the scene becomes "intro", it is loaded and its screen is shown |
| LegacyGame.Game.MakeChoice | game.js:210-213 | the scene becomes the argument, it is loaded and its screen is shown |
| LegacyGame.Game.AdjustStat | game.js:274-288 | stats and pool become `Clicked` of the old ones, or stay as they were |
| LegacyGame.Game.SaveGame | game.js:290-301 | exactly scene, stats and game state |
| LegacyGame.Game.LoadGame | game.js:303-330 | an undecodable code changes nothing; otherwise exactly the three fields are restored, a failed scene load is a content error with the content kept, and a successful one plays the restored scene on the loaded content |
| LegacyGame.SaveLoadRoundTrip | game.js:290-330 | loading a save restores scene, stats and game state |
| EquipmentUI.Split | js/equipmentManagerUI.js:461-498 | refused iff an increment exceeds both pools together or a decrement goes below the baseline; an increment drains the persistent pool first, then the temporary one, floored at 0; a decrement credits the persistent pool |
| EquipmentUI.SplitConserves | js/equipmentManagerUI.js:481-498 | a successful adjustment moves points between the stat and the pools without creating or losing any |
| EquipmentUI.SplitKeepsPoolsNonNegative | js/equipmentManagerUI.js:484-498 | from non-negative pools no pool goes negative |
| EquipmentUI.SplitExtendsHandler | js/equipmentManagerUI.js:461-498 | outside initial allocation, wherever the handler allows a non-zero change, the panel does the same |
| EquipmentUI.ConfirmedStatsAreFloor | js/equipmentManagerUI.js:462-478 | once the stats are confirmed as they stand, no stat can be lowered |
| EquipmentUI.EquipmentManagerUI.constructor | js/equipmentManagerUI.js:13 | the confirmation flag comes from the game state |
| EquipmentUI.EquipmentManagerUI.AdjustStat | js/equipmentManagerUI.js:461-545 | returns whether `Split` allows the change, and the stats and pools become its result or stay as they were |
| EquipmentUI.EquipmentManagerUI.ConfirmStats | js/equipmentManagerUI.js:548-573 | refused while points remain or when the player declines; otherwise both pools are zeroed, the flags set and the stats snapshotted |
| EquipmentUI.EquipmentManagerUI.Toggle | js/equipmentManagerUI.js:53-81 | closing in "equipment" mode restores the previous mode or "normal" and clears it; asking for the current state changes nothing |
| EquipmentUI.ConfirmThenLower | js/equipmentManagerUI.js:548-573 | after an accepted confirmation, lowering a stat is refused |
| WorldMap.CaptureFrom | js/map.js:112 | the leftmost match of `locations\/(\w+)` and its greedy word |
| WorldMap.LocationCapture | js/map.js:112-113 | a non-empty word of `\w` characters; none exactly when the pattern never matches |
| WorldMap.CapturePath | js/map.js:112-115 | a chapter path `locations/<word>` followed by a non-word character yields the word |
| WorldMap.FirstContained | js/map.js:118-123 | the first location, in declaration order, whose id the scene id contains |
| WorldMap.SceneNamedAfterLocation | js/map.js:118-123 | a scene named exactly after a location resolves to it when no earlier id occurs in its name |
| WorldMap.Resolve | js/map.js:97-126 | no index, no scene or a falsy chapter id ("") keeps the location; otherwise the chapter's word, else the first contained location |
| WorldMap.EmptyChapterKeepsLocation | js/map.js:107-110 | a scene whose chapter key is "" keeps the location even when a location id occurs in it |
| WorldMap.MapManager.constructor | js/map.js:2-14 | hidden, no locations, no current location |
| WorldMap.MapManager.InitLocations | js/map.js:81-95 | the seven locations in order, then the player is placed |
| WorldMap.MapManager.UpdatePlayerLocation | js/map.js:97-132 | the location becomes `Resolve`'s answer, or stays when there is none, including under a chapter key "" |
| WorldMap.MapManager.Toggle | js/map.js:306-343 | on mobile the map data goes to a new tab; without a panel, or in the asked state already, nothing changes |
| WorldMap.MapManager.GetMapData | js/map.js:357-372 | the current locations and current location |
| WorldMap.MapManager.Close | js/map.js:374-393 | with a panel the map is hidden; without one nothing changes |

## Left out

- Rendering: printing, the DOM, CSS transitions, audio, the typing animation and the title screen. Where they matter they are returned values.
- Fetching chapters, weapons, talents and spells. Each fetch result is a parameter.
- SceneFlow.Game.HandleInput: "save" and "load" are reported as `SaveRequested` and `LoadRequested`, and `unchanged(this)` covers only the handler itself. The game's own `saveGame`, which first stores the notes editor's content, and `loadGame`, which restores the saved scene and plays it, are not part of this model.
- Base64 (section 4 of RFC 4648) and JSON. Save codes are modelled at record level, and the decoded value is a parameter.
- `window.confirm`, and `Math.random`. The player's answer and the random draws are parameters.
- `setTimeout` and `await`. A deferred call is returned as a value, and its continuation is a separate method.
- IEEE floating point. Damage is computed over exact reals with `floor`, so rounding of `0.01`-scaled products is not modelled.
- Unicode. Lower-casing is ASCII only, `trim` is not modelled, and `\s` is space and tab.
- Aliasing. The source shares item objects: scene items are pushed by reference, and saved lists are the live arrays. The model copies values, so a later in-place change to a shared item does not show up elsewhere.
- `getAllItems`, `getAllEquipment` and `findItemByName` of the managers: plain accessors with no logic. `isTalentUnlocked` is the membership test `id in acquired` inside `Talents.Check`.
- `Inventory.InventoryManager.UseItem`: `game.useConsumable` is a hook outside this code; only whether it reports success is a parameter.
- `game.loadChapter` for js/gameLogic.js is not part of this model. Its outcome is a parameter: the content after loading, or none.
- `GameLogic.GameLogic.PlayScene` and `SceneFlow.Game.PlayScene`: the game object's `getCurrentScene` and the combat and choice screens they call are not part of this model.
- `SceneFlow.Game.PlayScene`: a cycle of scenes without text overflows the JavaScript stack. The model takes the depth the engine allows as a parameter and reports `StackExhausted`.
- `showInitialStatAllocation` of js/inputHandlers.js changes only the initial-allocation flag, so it is part of `InputHandlers.InputHandlers.StartNewGame`. Its printed instructions are rendering, and so are `showStats`, `showHelp`, `showStatHelp` and `showInventoryHelp`.
- `handleCombatInput` and `handleCombatItemInput` only forward to the combat engine. `InputHandlers.InputHandlers.HandleInput` returns that forwarding as an effect, and the notes words are caught by `InputHandlers.Dispatch` before the mode is consulted.
- `handleCustomItemEffect` of js/inputHandlers.js is `Common.CustomItemEffect`, applied inside `InputHandlers.InputHandlers.UseItem`.
- `InputHandlers.InputHandlers.SaveGame`: the editor content that `saveNotes` captures first is not modelled. That capture is `SceneFlow.Game.SaveNotes`.
- `InputHandlers.InputHandlers.HandleLoadGameInput`: a decoded JSON value that is not an object is treated as a record or as null.
- `Combat.CombatSystem.UseItem` requires the player's health to be set. `initiateCombat` sets it, and the item menu only opens during a fight.
- `Combat.CombatSystem.ProcessPlayerAction` and `Combat.CombatSystem.ProcessEnemyTurn` require that an enemy exists during a fight. Every way into a fight establishes this.
- `EquipmentUI.Split`: the baseline expression at js/equipmentManagerUI.js:463 mixes `??` and `||` without parentheses, which JavaScript rejects. The model reads it as `confirmed ?? (initial || 0)`, as js/statsPointsHandler.js:16 writes it.
- `EquipmentUI.EquipmentManagerUI.Toggle`: closing the notes and map panels when opening is not modelled; the map's own `Toggle` and `Close` cover them.
- `WorldMap.MapManager.Toggle`: the scenery in the map data (forests, mountains, rivers) is fixed and not modelled, and mobile detection is a constant.
- The talent panel spends a second point after a successful unlock (js/talentTreeUI.js:96-97), and the stats panel snapshots `confirmedStats` in its own confirm handler. Both are UI files outside this model.
- The root game.js has no intelligence stat; the shared `Stats` record carries it, and the root game never reads or changes it.
