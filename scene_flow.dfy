/** The continue-gated scene flow of js/game.js: a scene with text waits
    for "continue" (or "next", "done", "complete") before its actions run;
    a scene's actions are, in priority order, a fight, choices, a next
    scene, or the end of the story.

    `playScene` and `processSceneActions` call each other for chains of
    scenes without text.  A cyclic chain ends in JavaScript's stack
    overflow; the model gives the call depth the engine allows as
    `depth`. */
module SceneFlow {
  import opened Common
  import Story

  /** What a scene's actions do, in `processSceneActions`' order. */
  datatype Action =
    | Fight(combat: Story.CombatSpec)
    | Choose(choices: seq<Story.Choice>)
    | GoTo(next: string)
    | End

  function ActionOf(scene: Story.Scene): (a: Action)
    ensures a.Fight? <==> scene.combat.Some?
    ensures a.Choose? <==> scene.combat.None? && scene.choices.Some?
    ensures a.GoTo? <==> scene.combat.None? && scene.choices.None? && scene.nextScene != ""
    ensures a.Fight? ==> a.combat == scene.combat.value
    ensures a.Choose? ==> a.choices == scene.choices.value
    ensures a.GoTo? ==> a.next == scene.nextScene
  {
    if scene.combat.Some? then Fight(scene.combat.value)
    else if scene.choices.Some? then Choose(scene.choices.value)
    else if scene.nextScene != "" then GoTo(scene.nextScene)
    else End
  }

  /** Where a run of `playScene` stops. */
  datatype Flow =
    | SceneMissing
    | TypingThenAwait              // the text is typed, then the game waits for "continue"
    | CombatStarted(combat: Story.CombatSpec)
    | ChoicesShown(choices: seq<Story.Choice>)
    | StoryEnds
    | StackExhausted

  /** The scene the game ends up on and how it stopped, from playing the
      scene `id`. */
  function Run(content: map<string, Story.Scene>, id: string, depth: nat): (string, Flow)
    decreases depth, 1
  {
    if id !in content then (id, SceneMissing)
    else if content[id].text != "" then (id, TypingThenAwait)
    else Act(content, content[id], id, depth)
  }

  /** The same, from the actions of `scene` while on scene `current`. */
  function Act(content: map<string, Story.Scene>, scene: Story.Scene, current: string, depth: nat): (string, Flow)
    decreases depth, 0
  {
    match ActionOf(scene)
    case Fight(c) => (current, CombatStarted(c))
    case Choose(cs) => (current, ChoicesShown(cs))
    case End => (current, StoryEnds)
    case GoTo(n) => if depth == 0 then (n, StackExhausted) else Run(content, n, depth - 1)
  }

  /** Wherever a run stops, the scene it stops on explains why: a missing
      scene, a scene with text, or a textless scene whose highest-priority
      action is the one reported. */
  lemma {:induction false} RunStopsForItsReason(content: map<string, Story.Scene>, id: string, depth: nat)
    ensures var (final, flow) := Run(content, id, depth);
      (flow == SceneMissing ==> final !in content)
      && (flow != SceneMissing && flow != StackExhausted ==> final in content)
      && (flow == TypingThenAwait ==> final in content && content[final].text != "")
      && (flow.CombatStarted? ==> final in content && content[final].text == ""
                                  && content[final].combat == Some(flow.combat))
      && (flow.ChoicesShown? ==> final in content && content[final].text == ""
                                 && content[final].combat.None? && content[final].choices == Some(flow.choices))
      && (flow == StoryEnds ==> final in content && content[final].text == ""
                                && ActionOf(content[final]) == End)
    decreases depth
  {
    if id in content && content[id].text == "" {
      match ActionOf(content[id])
      case GoTo(n) =>
        if depth > 0 {
          RunStopsForItsReason(content, n, depth - 1);
        }
      case _ =>
    }
  }

  /** A scene with text never moves on by itself. */
  lemma TextWaits(content: map<string, Story.Scene>, id: string, depth: nat)
    requires id in content && content[id].text != ""
    ensures Run(content, id, depth) == (id, TypingThenAwait)
  {
  }

  /** What `handleInput` did. */
  datatype Handled =
    | NotesToggled
    | SaveRequested
    | LoadRequested
    | HelpShown
    | Continued(flow: Flow)
    | Thrown                 // the current scene is missing
    | HintShown
    | NotHandled

  predicate IsContinueWord(input: string) {
    input in {"continue", "next", "done", "complete"}
  }

  /** The game object with the fields this part of it reads and writes. */
  class Game {
    var currentScene: string
    const storyContent: map<string, Story.Scene>
    var inputMode: string
    var notesVisible: bool
    var notesContent: string

    /** The constructor with `initNotes()`. */
    constructor (storyContent: map<string, Story.Scene>, currentScene: string)
      ensures this.storyContent == storyContent && this.currentScene == currentScene
      ensures !notesVisible && notesContent == ""
    {
      this.storyContent := storyContent;
      this.currentScene := currentScene;
      inputMode := "normal";
      notesVisible := false;
      notesContent := "";
    }

    /** `playScene()`: a missing scene changes nothing; otherwise the mode
        is reset to "normal" and the run goes on as `Run` says. */
    method PlayScene(depth: nat) returns (f: Flow)
      modifies this`currentScene, this`inputMode
      ensures (currentScene, f) == Run(storyContent, old(currentScene), depth)
      ensures inputMode == if old(currentScene) in storyContent then "normal" else old(inputMode)
      decreases depth, 1
    {
      if currentScene !in storyContent {
        return SceneMissing;
      }
      var scene := storyContent[currentScene];
      inputMode := "normal";
      if scene.text != "" {
        return TypingThenAwait;
      }
      f := ProcessSceneActions(scene, depth);
    }

    /** The callback run once the scene's text has been typed. */
    method FinishTyping()
      modifies this`inputMode
      ensures inputMode == "awaiting-continuation"
    {
      inputMode := "awaiting-continuation";
    }

    /** `processSceneActions(scene)`: only a next scene changes anything,
        by moving there and playing it. */
    method ProcessSceneActions(scene: Story.Scene, depth: nat) returns (f: Flow)
      modifies this`currentScene, this`inputMode
      ensures (currentScene, f) == Act(storyContent, scene, old(currentScene), depth)
      ensures inputMode == if ActionOf(scene).GoTo? && depth > 0 && ActionOf(scene).next in storyContent
                           then "normal" else old(inputMode)
      decreases depth, 0
    {
      var a := ActionOf(scene);
      match a
      case Fight(c) => f := CombatStarted(c);
      case Choose(cs) => f := ChoicesShown(cs);
      case End => f := StoryEnds;
      case GoTo(n) =>
        currentScene := n;
        if depth == 0 {
          f := StackExhausted;
        } else {
          f := PlayScene(depth - 1);
        }
    }

    /** `handleInput(raw)`: the input is lower-cased, then the global
        commands come first; in "awaiting-continuation" only a continue word
        moves on. */
    method HandleInput(raw: string, depth: nat) returns (h: Handled)
      modifies this`currentScene, this`inputMode, this`notesVisible
      ensures Lower(raw) == "notes" || Lower(raw) == "note" ==>
        h == NotesToggled && notesVisible == !old(notesVisible)
        && unchanged(this`currentScene, this`inputMode)
      ensures Lower(raw) == "save" ==> h == SaveRequested && unchanged(this)
      ensures Lower(raw) == "load" ==> h == LoadRequested && unchanged(this)
      ensures Lower(raw) == "help" ==> h == HelpShown && unchanged(this)
      ensures Lower(raw) !in {"notes", "note", "save", "load", "help"} && old(inputMode) != "awaiting-continuation" ==>
        h == NotHandled && unchanged(this)
      ensures Lower(raw) !in {"notes", "note", "save", "load", "help"} && old(inputMode) == "awaiting-continuation" ==>
        notesVisible == old(notesVisible)
        && if !IsContinueWord(Lower(raw)) then h == HintShown && unchanged(this)
           else if old(currentScene) !in storyContent then
             h == Thrown && inputMode == "normal" && currentScene == old(currentScene)
           else h.Continued?
                && (currentScene, h.flow) == Act(storyContent, storyContent[old(currentScene)], old(currentScene), depth)
                && inputMode == "normal"
    {
      var input := Lower(raw);
      if input == "notes" || input == "note" {
        ToggleNotes();
        return NotesToggled;
      }
      if input == "save" {
        return SaveRequested;
      }
      if input == "load" {
        return LoadRequested;
      }
      if input == "help" {
        return HelpShown;
      }
      if inputMode == "awaiting-continuation" {
        if IsContinueWord(input) {
          inputMode := "normal";
          if currentScene !in storyContent {
            return Thrown;
          }
          var f := ProcessSceneActions(storyContent[currentScene], depth);
          return Continued(f);
        }
        return HintShown;
      }
      return NotHandled;
    }

    /** `toggleNotes()` */
    method ToggleNotes()
      modifies this`notesVisible
      ensures notesVisible == !old(notesVisible)
    {
      notesVisible := !notesVisible;
    }

    /** `saveNotes()`: the editor's content becomes the notes. */
    method SaveNotes(editor: string) returns (notes: string)
      modifies this`notesContent
      ensures notesContent == editor && notes == editor
    {
      notesContent := editor;
      notes := notesContent;
    }

    /** `loadNotes(content)`: only non-empty content replaces the notes. */
    method LoadNotes(content: string)
      modifies this`notesContent
      ensures notesContent == if content != "" then content else old(notesContent)
    {
      if content != "" {
        notesContent := content;
      }
    }
  }

  /** Toggling the notes twice leaves them as they were. */
  method ToggleTwice(g: Game)
    modifies g`notesVisible
    ensures g.notesVisible == old(g.notesVisible)
  {
    g.ToggleNotes();
    g.ToggleNotes();
  }

  /** Loading the notes a save captured gives back what the editor
      held. */
  method NotesRoundTrip(g: Game, editor: string)
    modifies g`notesContent
    ensures g.notesContent == editor
  {
    var saved := g.SaveNotes(editor);
    g.LoadNotes(saved);
  }
}
