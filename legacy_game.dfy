/** The earlier, button-driven game of the root game.js: chapters are
    loaded on demand and merged into the story content, scenes show stat
    allocation or choice buttons, and a save code carries the current
    scene, the stats and the game state.

    Fetching a chapter file is a parameter: the chapter's scenes, or `None`
    when the request or its JSON fails.  Decoding a save code (Base64, then
    JSON) is a parameter as well: the record, or `None` when it throws. */
module LegacyGame {
  import opened Common
  import Story

  /** The story content after merging a chapter's scenes: a scene id the
      chapter defines takes the chapter's scene, every other id keeps its
      scene. */
  function Merged(content: map<string, Story.Scene>, scenes: map<string, Story.Scene>): (r: map<string, Story.Scene>)
    ensures r.Keys == content.Keys + scenes.Keys
    ensures forall id :: id in scenes ==> r[id] == scenes[id]
    ensures forall id :: id in content && id !in scenes ==> r[id] == content[id]
  {
    content + scenes
  }

  /** Loading two chapters one after the other is loading their merge: the
      chapter loaded last wins on every id both define. */
  lemma MergeLastWins(content: map<string, Story.Scene>, first: map<string, Story.Scene>,
                      second: map<string, Story.Scene>)
    ensures Merged(Merged(content, first), second) == Merged(content, Merged(first, second))
  {
  }

  /** The story content once `ensureSceneLoaded(sceneId)` has run, or `None`
      when it fails: a loaded scene needs nothing; otherwise the chapter the
      index maps the scene to must be a non-empty id, listed with a path and
      fetched, and
      its scenes are merged in. */
  function LoadedWith(index: Story.StoryIndex, content: map<string, Story.Scene>, sceneId: string,
                      fetched: Option<map<string, Story.Scene>>): (r: Option<map<string, Story.Scene>>)
    ensures sceneId in content ==> r == Some(content)
    ensures r.Some? ==> content.Keys <= r.value.Keys
    ensures r.None? ==> fetched.None? || Story.ChapterToLoad(index.sceneMapping, sceneId).None?
                        || Story.ChapterToLoad(index.sceneMapping, sceneId).value !in index.chapters
                        || index.chapters[Story.ChapterToLoad(index.sceneMapping, sceneId).value] == ""
  {
    if sceneId in content then Some(content)
    else match Story.ChapterToLoad(index.sceneMapping, sceneId)
      case None => None
      case Some(chapter) =>
        if chapter in index.chapters && index.chapters[chapter] != "" && fetched.Some? then
          Some(Merged(content, fetched.value))
        else None
  }

  /** Ensuring the same scene again with the same fetch changes nothing
      more: a chapter merged twice is merged once. */
  lemma LoadedAgain(index: Story.StoryIndex, content: map<string, Story.Scene>, sceneId: string,
                    fetched: Option<map<string, Story.Scene>>)
    requires LoadedWith(index, content, sceneId, fetched).Some?
    ensures var once := LoadedWith(index, content, sceneId, fetched).value;
      LoadedWith(index, once, sceneId, fetched) == Some(once)
  {
    if sceneId !in content {
      var once := Merged(content, fetched.value);
      if sceneId !in once {
        MergeLastWins(content, fetched.value, fetched.value);
        assert Merged(fetched.value, fetched.value) == fetched.value;
      }
    }
  }

  /** `adjustStat(stat, change)`: a decrement of a stat at or below 1 and an
      increment with no points left are refused; anything else moves the
      stat and the pool in opposite directions. */
  function Clicked(stats: Stats, pool: int, stat: Stat, change: int): (r: Option<(Stats, int)>)
    ensures r.None? <==> (change < 0 && stats.Get(stat) <= 1) || (change > 0 && pool <= 0)
    ensures r.Some? ==>
      r.value.0.Get(stat) + r.value.1 == stats.Get(stat) + pool
      && r.value.0.Get(stat) == stats.Get(stat) + change
      && forall t :: t != stat ==> r.value.0.Get(t) == stats.Get(t)
  {
    if change < 0 && stats.Get(stat) <= 1 then None
    else if change > 0 && pool <= 0 then None
    else Some((stats.With(stat, stats.Get(stat) + change), pool - change))
  }

  /** With the "+" and "-" buttons, which adjust by one, a stat never drops
      below 1 and the pool never goes negative. */
  lemma ButtonsKeepBounds(stats: Stats, pool: int, stat: Stat, change: int)
    requires change == 1 || change == -1
    requires stats.Get(stat) >= 1 && pool >= 0
    ensures var r := Clicked(stats, pool, stat, change);
      r.Some? ==> r.value.0.Get(stat) >= 1 && r.value.1 >= 0
  {
  }

  /** The guard only asks for a positive pool, so a larger increment than
      the buttons make could overdraw it. */
  lemma LargeIncrementOverdraws()
    ensures var r := Clicked(InitialStats, 1, Attack, 2);
      r.Some? && r.value.1 == -1
  {
  }

  /** The save code's content. */
  datatype Record = Record(currentScene: string, playerStats: Stats, gameState: GameState)

  /** What the scene screen shows after `playScene()`. */
  datatype Shown =
    | LoadError
    | Thrown                // the loaded content still lacks the scene
    | StatButtons(nextScene: string)
    | ChoiceButtons(choices: seq<Story.Choice>)
    | TextOnly

  /** The branch at the end of `playScene`: stat allocation for a "stats"
      scene, choice buttons for a scene with choices, nothing else. */
  function ShownFor(scene: Story.Scene): (s: Shown)
    ensures s.StatButtons? <==> scene.sceneType == "stats"
    ensures s.ChoiceButtons? <==> scene.sceneType != "stats" && scene.choices.Some?
    ensures s == TextOnly <==> scene.sceneType != "stats" && scene.choices.None?
    ensures s.StatButtons? ==> s.nextScene == scene.nextScene
    ensures s.ChoiceButtons? ==> s.choices == scene.choices.value
  {
    if scene.sceneType == "stats" then StatButtons(scene.nextScene)
    else if scene.choices.Some? then ChoiceButtons(scene.choices.value)
    else TextOnly
  }

  /** How `loadGame()` went. */
  datatype LoadOutcome = InvalidCode | ContentError | Playing(shown: Shown)

  class Game {
    var currentScene: string
    var playerStats: Stats
    var gameState: GameState
    var availableStatPoints: int
    var storyContent: map<string, Story.Scene>
    const storyIndex: Story.StoryIndex

    constructor (storyIndex: Story.StoryIndex)
      ensures this.storyIndex == storyIndex && storyContent == map[]
      ensures playerStats == InitialStats && availableStatPoints == 10 && currentScene == ""
    {
      this.storyIndex := storyIndex;
      storyContent := map[];
      currentScene := "";
      playerStats := InitialStats;
      gameState := EmptyGameState;
      availableStatPoints := 10;
    }

    /** `loadChapter(chapterId)`: a chapter the index does not list, or
        lists with an empty path, is refused, as is a failed fetch, with no
        change; otherwise its scenes are merged in. */
    method LoadChapter(chapterId: string, fetched: Option<map<string, Story.Scene>>) returns (ok: bool)
      modifies this`storyContent
      ensures ok <==> chapterId in storyIndex.chapters && storyIndex.chapters[chapterId] != "" && fetched.Some?
      ensures storyContent == if ok then Merged(old(storyContent), fetched.value) else old(storyContent)
    {
      if chapterId !in storyIndex.chapters || storyIndex.chapters[chapterId] == "" {
        return false;
      }
      if fetched.None? {
        return false;
      }
      storyContent := storyContent + fetched.value;
      return true;
    }

    /** `ensureSceneLoaded(sceneId)`: true at once for a loaded scene, false
        with no change when no chapter, or only the key "", maps to it, otherwise the outcome of
        loading that chapter. */
    method EnsureSceneLoaded(sceneId: string, fetched: Option<map<string, Story.Scene>>) returns (ok: bool)
      modifies this`storyContent
      ensures sceneId in old(storyContent) ==> ok && storyContent == old(storyContent)
      ensures sceneId !in old(storyContent) ==>
        var chapter := Story.ChapterToLoad(storyIndex.sceneMapping, sceneId);
        if chapter.None? then !ok && storyContent == old(storyContent)
        else (ok <==> chapter.value in storyIndex.chapters && storyIndex.chapters[chapter.value] != "" && fetched.Some?)
             && storyContent == if ok then Merged(old(storyContent), fetched.value) else old(storyContent)
    {
      if sceneId in storyContent {
        return true;
      }
      var chapter := Story.FindChapter(storyIndex.sceneMapping, sceneId);
      if chapter.None? || chapter.value == "" {
        return false;
      }
      ok := LoadChapter(chapter.value, fetched);
    }

    /** The content and screen `playScene()` leaves for the current scene:
        the load error when the scene cannot be loaded, otherwise the loaded
        content, and the scene's screen when that content has it. */
    twostate predicate SceneShown(fetched: Option<map<string, Story.Scene>>, s: Shown)
      reads this
    {
      match LoadedWith(storyIndex, old(storyContent), currentScene, fetched)
      case None => s == LoadError && storyContent == old(storyContent)
      case Some(content) =>
        storyContent == content
        && s == if currentScene in content then ShownFor(content[currentScene]) else Thrown
    }

    /** `playScene()`: after loading, the scene's kind decides what is
        shown; the scene itself does not change. */
    method PlayScene(fetched: Option<map<string, Story.Scene>>) returns (s: Shown)
      modifies this`storyContent
      ensures SceneShown(fetched, s)
      ensures s == LoadError || s == Thrown || currentScene in storyContent
      ensures s == Thrown <==> s != LoadError && currentScene !in storyContent
      ensures s != LoadError && s != Thrown ==> s == ShownFor(storyContent[currentScene])
      ensures old(currentScene) in old(storyContent) ==> s == ShownFor(old(storyContent)[currentScene])
    {
      var loaded := EnsureSceneLoaded(currentScene, fetched);
      if !loaded {
        return LoadError;
      }
      if currentScene !in storyContent {
        return Thrown;
      }
      s := ShownFor(storyContent[currentScene]);
    }

    /** `startNewGame()` */
    method StartNewGame(fetched: Option<map<string, Story.Scene>>) returns (s: Shown)
      modifies this`currentScene, this`storyContent
      ensures currentScene == "intro" && SceneShown(fetched, s)
    {
      currentScene := "intro";
      s := PlayScene(fetched);
    }

    /** `makeChoice(nextScene)`, and the "Confirm Stats" button, which does
        the same with the stat scene's next scene. */
    method MakeChoice(next: string, fetched: Option<map<string, Story.Scene>>) returns (s: Shown)
      modifies this`currentScene, this`storyContent
      ensures currentScene == next && SceneShown(fetched, s)
      ensures next in old(storyContent) ==> s == ShownFor(old(storyContent)[next])
    {
      currentScene := next;
      s := PlayScene(fetched);
    }

    method AdjustStat(stat: Stat, change: int)
      modifies this`playerStats, this`availableStatPoints
      ensures var r := Clicked(old(playerStats), old(availableStatPoints), stat, change);
        (playerStats, availableStatPoints) == if r.Some? then r.value else (old(playerStats), old(availableStatPoints))
    {
      if change < 0 && playerStats.Get(stat) <= 1 {
        return;
      }
      if change > 0 && availableStatPoints <= 0 {
        return;
      }
      playerStats := playerStats.With(stat, playerStats.Get(stat) + change);
      availableStatPoints := availableStatPoints - change;
    }

    /** `saveGame()`: scene, stats and game state, nothing else. */
    method SaveGame() returns (r: Record)
      ensures r == Record(currentScene, playerStats, gameState)
    {
      r := Record(currentScene, playerStats, gameState);
    }

    /** `loadGame()`: a code that does not decode changes nothing; otherwise
        the three saved fields are restored before the scene is loaded and
        played. */
    method LoadGame(decoded: Option<Record>, fetched: Option<map<string, Story.Scene>>) returns (o: LoadOutcome)
      modifies this`currentScene, this`playerStats, this`gameState, this`storyContent
      ensures decoded.None? ==> o == InvalidCode && unchanged(this)
      ensures decoded.Some? ==>
        currentScene == decoded.value.currentScene && playerStats == decoded.value.playerStats
        && gameState == decoded.value.gameState && o != InvalidCode
      ensures decoded.Some? ==>
        match LoadedWith(storyIndex, old(storyContent), decoded.value.currentScene, fetched)
        case None => o == ContentError && storyContent == old(storyContent)
        case Some(content) =>
          storyContent == content
          && o == Playing(if currentScene in content then ShownFor(content[currentScene]) else Thrown)
      ensures availableStatPoints == old(availableStatPoints)
    {
      if decoded.None? {
        return InvalidCode;
      }
      currentScene := decoded.value.currentScene;
      playerStats := decoded.value.playerStats;
      gameState := decoded.value.gameState;
      var loaded := EnsureSceneLoaded(currentScene, fetched);
      if !loaded {
        return ContentError;
      }
      LoadedAgain(storyIndex, old(storyContent), currentScene, fetched);
      var s := PlayScene(fetched);
      o := Playing(s);
    }
  }

  /** Loading the code a save produced restores the three saved fields. */
  method SaveLoadRoundTrip(g: Game, fetched: Option<map<string, Story.Scene>>)
    modifies g
    ensures g.currentScene == old(g.currentScene) && g.playerStats == old(g.playerStats)
    ensures g.gameState == old(g.gameState)
  {
    var r := g.SaveGame();
    var o := g.LoadGame(Some(r), fetched);
  }
}
