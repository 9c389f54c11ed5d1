/** The scene engine of js/gameLogic.js: make sure the current scene is
    loaded (looking its chapter up in the story index), hand out the
    scene's items, and branch to stat allocation, choices or the next
    scene.  A failed load switches to the error-recovery mode.

    `game.loadChapter` is not part of this model: its outcome is a
    parameter, the story content after a successful load or `None`. */
module GameLogic {
  import opened Common
  import Story
  import Inventory

  // ------------------------------------------------------------ scene items

  /** The inventory after `addItemsToInventory(items)`: each item stacks
      onto the first entry with its id, whatever its `stackable` flag, and
      is appended as it is otherwise. */
  function WithSceneItems(inventory: seq<Item>, items: seq<Item>): seq<Item>
    decreases |items|
  {
    if |items| == 0 then inventory
    else
      var last := items[|items| - 1];
      Inventory.Put(WithSceneItems(inventory, items[..|items| - 1]), last, last.quantity, true)
  }

  /** The game state after the custom effects of the items that carry one. */
  function AfterSceneEffects(gs: GameState, items: seq<Item>): GameState
    decreases |items|
  {
    if |items| == 0 then gs
    else
      var last := items[|items| - 1];
      var before := AfterSceneEffects(gs, items[..|items| - 1]);
      if last.props.effect then CustomItemEffect(before, last.id) else before
  }

  /** Total quantity the items carry under `id`. */
  function Supplied(items: seq<Item>, id: string): int
    decreases |items|
  {
    if |items| == 0 then 0
    else Supplied(items[..|items| - 1], id) + (if items[|items| - 1].id == id then items[|items| - 1].quantity else 0)
  }

  /** The scene's items are all received: every id's total grows by exactly
      what the scene hands out under it. */
  lemma {:induction false} SceneItemsCount(inventory: seq<Item>, items: seq<Item>, id: string)
    ensures Inventory.Count(WithSceneItems(inventory, items), id) == Inventory.Count(inventory, id) + Supplied(items, id)
    decreases |items|
  {
    if |items| > 0 {
      var last := items[|items| - 1];
      SceneItemsCount(inventory, items[..|items| - 1], id);
      Inventory.PutCount(WithSceneItems(inventory, items[..|items| - 1]), last, last.quantity, true, id);
    }
  }

  /** An item already held never gets a second entry from a scene: the
      number of entries grows only by the ids that were new. */
  lemma {:induction false} SceneItemsStack(inventory: seq<Item>, items: seq<Item>)
    requires forall i :: 0 <= i < |items| ==> Inventory.FindIndex(inventory, items[i].id) >= 0
    ensures |WithSceneItems(inventory, items)| == |inventory|
    ensures forall i :: 0 <= i < |inventory| ==> WithSceneItems(inventory, items)[i].id == inventory[i].id
    decreases |items|
  {
    if |items| > 0 {
      var last := items[|items| - 1];
      var before := WithSceneItems(inventory, items[..|items| - 1]);
      SceneItemsStack(inventory, items[..|items| - 1]);
      var k := Inventory.FindIndex(inventory, last.id);
      assert inventory[k].id == last.id;
      assert before[k].id == last.id;
      assert Inventory.FindIndex(before, last.id) >= 0;
    }
  }

  /** Only the healing salve has an effect: the injury is cured exactly when
      some effect-bearing item of the scene is the salve, and nothing else
      in the game state moves. */
  lemma {:induction false} SceneEffectsCure(gs: GameState, items: seq<Item>)
    ensures AfterSceneEffects(gs, items)
         == if exists i :: 0 <= i < |items| && items[i].props.effect && items[i].id == "healingSalve"
            then gs.(isInjured := false) else gs
    decreases |items|
  {
    if |items| > 0 {
      var init := items[..|items| - 1];
      SceneEffectsCure(gs, init);
      var cures := exists i :: 0 <= i < |items| && items[i].props.effect && items[i].id == "healingSalve";
      var curesInit := exists i :: 0 <= i < |init| && init[i].props.effect && init[i].id == "healingSalve";
      if curesInit {
        var i :| 0 <= i < |init| && init[i].props.effect && init[i].id == "healingSalve";
        assert items[i] == init[i];
      }
      if cures && !curesInit {
        var i :| 0 <= i < |items| && items[i].props.effect && items[i].id == "healingSalve";
        assert i == |items| - 1;
      }
    }
  }

  // ---------------------------------------------------------------- branch

  /** What comes after a scene's text and items. */
  datatype Next =
    | StatAllocation(nextScene: string)
    | ChoicesOffered(choices: seq<Story.Choice>)
    | NextSceneLater(nextScene: string)   // after 2 s
    | SceneEnds

  /** The branch of `playScene`: a "stats" scene first, then choices, then a
      next scene. */
  function Branch(scene: Story.Scene): (n: Next)
    ensures n.StatAllocation? <==> scene.sceneType == "stats"
    ensures n.ChoicesOffered? <==> scene.sceneType != "stats" && scene.choices.Some?
    ensures n.NextSceneLater? <==> scene.sceneType != "stats" && scene.choices.None? && scene.nextScene != ""
    ensures n.StatAllocation? ==> n.nextScene == scene.nextScene
    ensures n.ChoicesOffered? ==> n.choices == scene.choices.value
    ensures n.NextSceneLater? ==> n.nextScene == scene.nextScene
  {
    if scene.sceneType == "stats" then StatAllocation(scene.nextScene)
    else if scene.choices.Some? then ChoicesOffered(scene.choices.value)
    else if scene.nextScene != "" then NextSceneLater(scene.nextScene)
    else SceneEnds
  }

  /** How `playScene` ended. */
  datatype Outcome =
    | LoadFailed
    | Thrown                 // the loaded content still lacks the scene
    | Played(next: Next)

  /** The scene engine with the slice of the game it reads and writes. */
  class GameLogic {
    var currentScene: string
    var storyContent: map<string, Story.Scene>
    const storyIndex: Story.StoryIndex
    var inventory: seq<Item>
    var gameState: GameState
    var inputMode: string
    var awaitingInput: bool
    var nextScene: string

    constructor (storyIndex: Story.StoryIndex, storyContent: map<string, Story.Scene>, currentScene: string)
      ensures this.storyIndex == storyIndex && this.storyContent == storyContent
      ensures this.currentScene == currentScene && inventory == [] && gameState == EmptyGameState
    {
      this.storyIndex := storyIndex;
      this.storyContent := storyContent;
      this.currentScene := currentScene;
      inventory := [];
      gameState := EmptyGameState;
      inputMode := "normal";
      awaitingInput := false;
      nextScene := "";
    }

    /** `ensureSceneLoaded(sceneId)`: true at once for a loaded scene; false
        with no change when no chapter, or only the key "", maps to it;
        otherwise the chapter load decides. */
    method EnsureSceneLoaded(sceneId: string, chapterLoad: Option<map<string, Story.Scene>>) returns (ok: bool)
      modifies this`storyContent
      ensures sceneId in old(storyContent) ==> ok && unchanged(this)
      ensures sceneId !in old(storyContent) && Story.ChapterToLoad(storyIndex.sceneMapping, sceneId).None? ==>
        !ok && unchanged(this)
      ensures sceneId !in old(storyContent) && Story.ChapterToLoad(storyIndex.sceneMapping, sceneId).Some? ==>
        ok == chapterLoad.Some? && storyContent == (if ok then chapterLoad.value else old(storyContent))
    {
      if sceneId in storyContent {
        return true;
      }
      var chapter := Story.FindChapter(storyIndex.sceneMapping, sceneId);
      if chapter.None? || chapter.value == "" {
        return false;
      }
      if chapterLoad.None? {
        return false;
      }
      storyContent := chapterLoad.value;
      return true;
    }

    /** `handleSceneLoadError()`: the error-recovery mode, waiting for
        input; nothing else changes. */
    method HandleSceneLoadError()
      modifies this`inputMode, this`awaitingInput
      ensures inputMode == "errorRecovery" && awaitingInput
    {
      inputMode := "errorRecovery";
      awaitingInput := true;
    }

    /** `addItemsToInventory(items)` */
    method AddItemsToInventory(items: seq<Item>)
      modifies this`inventory, this`gameState
      ensures inventory == WithSceneItems(old(inventory), items)
      ensures gameState == AfterSceneEffects(old(gameState), items)
    {
      var i := 0;
      while i < |items|
        invariant 0 <= i <= |items|
        invariant inventory == WithSceneItems(old(inventory), items[..i])
        invariant gameState == AfterSceneEffects(old(gameState), items[..i])
      {
        var item := items[i];
        assert items[..i + 1][..i] == items[..i] && items[..i + 1][i] == item;
        ghost var expected := Inventory.Put(inventory, item, item.quantity, true);
        assert expected == WithSceneItems(old(inventory), items[..i + 1]);
        var k := Inventory.FindIndex(inventory, item.id);
        if k >= 0 {
          inventory := inventory[k := inventory[k].(quantity := inventory[k].quantity + item.quantity)];
        } else {
          assert item.(quantity := item.quantity) == item;
          inventory := inventory + [item];
        }
        assert inventory == expected;
        if item.props.effect {
          HandleCustomItemEffect(item);
        }
        i := i + 1;
      }
      assert items[..|items|] == items;
    }

    /** `handleCustomItemEffect(item)` */
    method HandleCustomItemEffect(item: Item)
      modifies this`gameState
      ensures gameState == CustomItemEffect(old(gameState), item.id)
      ensures item.id == "healingSalve" ==> !gameState.isInjured
      ensures item.id != "healingSalve" ==> gameState == old(gameState)
    {
      if item.id == "healingSalve" {
        gameState := gameState.(isInjured := false);
      }
    }

    /** `showStatAllocation(nextScene)` */
    method ShowStatAllocation(next: string)
      modifies this`awaitingInput, this`inputMode, this`nextScene
      ensures awaitingInput && inputMode == "stats" && nextScene == next
    {
      awaitingInput := true;
      inputMode := "stats";
      nextScene := next;
    }

    /** `showChoices(choices)` */
    method ShowChoices()
      modifies this`awaitingInput, this`inputMode
      ensures awaitingInput && inputMode == "choices"
    {
      awaitingInput := true;
      inputMode := "choices";
    }

    /** `playScene()` up to the point where it waits: on a failed load only
        the mode and the input flag change; otherwise the scene's items are
        received and the branch decides the mode.  A "2 s later" next scene
        is left for the caller to play. */
    method PlayScene(chapterLoad: Option<map<string, Story.Scene>>) returns (o: Outcome)
      modifies this`storyContent, this`inventory, this`gameState, this`inputMode, this`awaitingInput,
               this`nextScene
      ensures o == LoadFailed <==>
        currentScene !in old(storyContent)
        && (Story.ChapterToLoad(storyIndex.sceneMapping, currentScene).None? || chapterLoad.None?)
      ensures o != LoadFailed ==>
        storyContent == if currentScene in old(storyContent) then old(storyContent) else chapterLoad.value
      ensures o == LoadFailed ==>
        inputMode == "errorRecovery" && awaitingInput
        && unchanged(this`storyContent, this`inventory, this`gameState, this`nextScene)
      ensures o == Thrown ==>
        currentScene !in storyContent
        && unchanged(this`inventory, this`gameState, this`inputMode, this`awaitingInput, this`nextScene)
      ensures o.Played? ==>
        currentScene in storyContent
        && (var scene := storyContent[currentScene];
            var items := if scene.items.Some? then scene.items.value else [];
            o.next == Branch(scene)
            && inventory == WithSceneItems(old(inventory), items)
            && gameState == AfterSceneEffects(old(gameState), items)
            && match o.next
               case StatAllocation(n) => inputMode == "stats" && awaitingInput && nextScene == n
               case ChoicesOffered(_) => inputMode == "choices" && awaitingInput && nextScene == old(nextScene)
               case _ => unchanged(this`inputMode, this`awaitingInput, this`nextScene))
    {
      var loaded := EnsureSceneLoaded(currentScene, chapterLoad);
      if !loaded {
        HandleSceneLoadError();
        return LoadFailed;
      }
      if currentScene !in storyContent {
        return Thrown;
      }
      var scene := storyContent[currentScene];
      if scene.items.Some? {
        AddItemsToInventory(scene.items.value);
      } else {
        assert WithSceneItems(inventory, []) == inventory;
      }
      var next := Branch(scene);
      if next.StatAllocation? {
        ShowStatAllocation(next.nextScene);
      } else if next.ChoicesOffered? {
        ShowChoices();
      }
      o := Played(next);
    }

    /** The callback `playScene` schedules for a next scene. */
    method AdvanceLater(next: string)
      modifies this`currentScene
      ensures currentScene == next
    {
      currentScene := next;
    }
  }
}
