/** The input-mode state machine of js/inputHandlers.js: dispatch on the
    current `inputMode`, choice validation, the stat-allocation sub-mode
    with its confirmation step, the inventory overlay that saves and
    restores the previous mode, and saving and loading at the level of the
    saved record.

    Calls into parts of the game this module does not contain (the title
    screen, playing a scene, the notes panel, the combat system) are
    reported as an `Effect`. */
module InputHandlers {
  import opened Common
  import Story
  import Inventory
  import StatPoints

  /** The call a handler leaves to the rest of the game. */
  datatype Effect =
    | NoEffect
    | NotesToggled
    | TitleScreen
    | TitleScreenLater         // after 1 s
    | PlayScene
    | PlaySceneLater           // after 1.5 s
    | CombatAction(action: string)
    | CombatItem(selection: string)
    | Saved(record: SaveRecord)
    | Fault                    // the handler threw: a property of a missing object was read

  /** The record `saveGame()` encodes. */
  datatype SaveRecord = SaveRecord(
    currentScene: string,
    playerStats: Stats,
    inventory: seq<Item>,
    gameState: GameState,
    notes: string)

  /** What a pasted save code decodes to: not Base64 or not JSON, the JSON
      value `null`, or a record. */
  datatype Decoded = Invalid | NullRecord | Record(record: SaveRecord)

  // -------------------------------------------------------------- dispatch

  /** The handler `handleInput()` hands the input to. */
  datatype Route =
    | Ignored
    | Notes
    | Title(input: string)
    | Normal(input: string)
    | Choices(input: string)
    | StatsInput(input: string)
    | InventoryInput(input: string)
    | LoadGame(raw: string)
    | ErrorRecovery(input: string)
    | Combat(input: string)
    | CombatItemInput(input: string)

  /** `handleInput()` on the trimmed input: nothing while text is typing;
      the input is lower-cased except in "loadGame" mode; "notes"/"note"
      toggles the notes before any mode is consulted; an unknown mode
      handles nothing. */
  function Dispatch(mode: string, raw: string, isTyping: bool): (r: Route)
    ensures isTyping ==> r == Ignored
    ensures !isTyping && (if mode == "loadGame" then raw else Lower(raw)) in {"notes", "note"} ==> r == Notes
    ensures (r.Normal? || r.Choices? || r.StatsInput? || r.InventoryInput? || r.ErrorRecovery?
             || r.Combat? || r.CombatItemInput? || r.Title?) ==> r.input == Lower(raw)
    ensures r.LoadGame? ==> mode == "loadGame" && r.raw == raw
    ensures (mode !in {"title", "normal", "choices", "stats", "inventory", "loadGame", "errorRecovery",
                       "combat", "combat-item"}) ==> r == Ignored || r == Notes
  {
    if isTyping then Ignored
    else
      var input := if mode == "loadGame" then raw else Lower(raw);
      if input == "notes" || input == "note" then Notes
      else if mode == "title" then Title(input)
      else if mode == "normal" then Normal(input)
      else if mode == "choices" then Choices(input)
      else if mode == "stats" then StatsInput(input)
      else if mode == "inventory" then InventoryInput(input)
      else if mode == "loadGame" then LoadGame(raw)
      else if mode == "errorRecovery" then ErrorRecovery(input)
      else if mode == "combat" then Combat(input)
      else if mode == "combat-item" then CombatItemInput(input)
      else Ignored
  }

  /** Lower-casing twice is lower-casing once, so the handlers that lower
      the already lowered input again see the same text. */
  lemma LowerIdempotent(s: string)
    ensures Lower(Lower(s)) == Lower(s)
  {
  }

  // --------------------------------------------------------------- choices

  /** The scene a choice input leads to: a `parseInt` result n in 1..count
      selects choice n; anything else is rejected. */
  function ChoiceTarget(choices: seq<Story.Choice>, input: string): (r: Option<string>)
    ensures r.Some? <==> ParseInt(input).Some? && 1 <= ParseInt(input).value <= |choices|
    ensures r.Some? ==> r.value == choices[ParseInt(input).value - 1].nextScene
  {
    match ParseInt(input)
    case None => None
    case Some(n) => if n - 1 < 0 || n - 1 >= |choices| then None else Some(choices[n - 1].nextScene)
  }

  /** Typing the digit k, for a scene with at least k choices (k <= 9),
      selects the k-th choice, whatever follows the digit if it is not
      itself a digit. */
  lemma ChoiceByDigit(choices: seq<Story.Choice>, k: int, rest: string)
    requires 1 <= k <= 9 && k <= |choices|
    requires |rest| > 0 ==> !IsDigit(rest[0])
    ensures ChoiceTarget(choices, [('0' as int + k) as char] + rest) == Some(choices[k - 1].nextScene)
  {
    var d := [('0' as int + k) as char];
    ParseIntDigits(d, rest);
    assert DigitsValue(d, false) == DigitsValue(d[..0], false) * 10 + HexValue(d[0]);
    assert d[..0] == [];
  }

  /** A text that does not start with a digit or a sign never selects a
      choice. */
  lemma ChoiceNeedsNumber(choices: seq<Story.Choice>, input: string)
    requires |input| == 0 || (!IsDigit(input[0]) && input[0] != '+' && input[0] != '-')
    ensures ChoiceTarget(choices, input) == None
  {
  }

  // ----------------------------------------------------------------- stats

  /** The stats the stat screen accepts by name; intelligence is not one. */
  function StatNamed(name: string): (r: Option<Stat>)
    ensures r.Some? <==> name in {"attack", "defense", "charisma", "speed", "luck"}
    ensures r != Some(Intelligence)
  {
    if name == "attack" then Some(Attack)
    else if name == "defense" then Some(Defense)
    else if name == "charisma" then Some(Charisma)
    else if name == "speed" then Some(Speed)
    else if name == "luck" then Some(Luck)
    else None
  }

  /** The stat-screen command an input is. */
  datatype StatCommand =
    | StatNotes
    | BackToTitle
    | ProceedAnyway
    | CancelProceed
    | RepeatPrompt
    | Finish
    | StatHelp
    | Reduce(name: string)
    | Increase(stat: Stat)
    | InvalidStat

  /** `handleStatInput(input)`'s decision, in the order it tests. */
  function ClassifyStatInput(input: string, initialAllocation: bool, awaitingConfirmation: bool): (c: StatCommand)
    ensures c.Reduce? ==> initialAllocation && !awaitingConfirmation
    ensures c == BackToTitle ==> initialAllocation
    ensures c.Increase? ==> !awaitingConfirmation && StatNamed(Lower(input)) == Some(c.stat)
    ensures awaitingConfirmation && c != StatNotes && c != BackToTitle ==>
      c == ProceedAnyway || c == CancelProceed || c == RepeatPrompt
    ensures Lower(input) == "intelligence" && !awaitingConfirmation ==> c == InvalidStat
  {
    var s := Lower(input);
    if input == "notes" || input == "note" then StatNotes
    else if s == "back" && initialAllocation then BackToTitle
    else if awaitingConfirmation then
      if s == "confirm" || s == "yes" || s == "continue" then ProceedAnyway
      else if s == "no" || s == "cancel" then CancelProceed
      else RepeatPrompt
    else if s == "start" || s == "done" then Finish
    else if s == "help" then StatHelp
    else if initialAllocation && |s| > 0 && s[0] == '-' then Reduce(s[1..])
    else match StatNamed(s)
      case Some(st) => Increase(st)
      case None => InvalidStat
  }

  // ------------------------------------------------------------- inventory

  predicate IsSpace(c: char) { c == ' ' || c == '\t' }

  /** Length of the run of spaces starting at `from`. */
  function SpaceRun(s: string, from: nat): (n: nat)
    requires from <= |s|
    ensures from + n <= |s|
    ensures forall i :: from <= i < from + n ==> IsSpace(s[i])
    ensures from + n < |s| ==> !IsSpace(s[from + n])
    decreases |s| - from
  {
    if from == |s| || !IsSpace(s[from]) then 0 else 1 + SpaceRun(s, from + 1)
  }

  /** The capture of `/^use\s+(.+)$/`: after "use" and the longest run of
      spaces, the rest; when nothing is left the run gives its last space
      back to the capture. */
  function UseArgument(input: string): (r: Option<string>)
    ensures r.Some? ==> |input| > 4 && input[..3] == "use" && IsSpace(input[3]) && |r.value| > 0
    ensures |input| > 3 && input[..3] == "use" && IsSpace(input[3]) && !IsSpace(input[|input| - 1])
            ==> r.Some? && r.value == input[3 + SpaceRun(input, 3)..]
  {
    if |input| < 4 || input[..3] != "use" || !IsSpace(input[3]) then None
    else
      var n := SpaceRun(input, 3);
      if 3 + n < |input| then Some(input[3 + n..])
      else if n >= 2 then Some(input[|input| - 1..])
      else None
  }

  /** The first item whose lower-cased name or id is the given text. */
  function FindByName(items: seq<Item>, name: string): (r: Option<Item>)
    ensures r.None? <==> forall i :: 0 <= i < |items| ==> Lower(items[i].name()) != name && Lower(items[i].id) != name
    ensures r.Some? ==>
      exists k :: 0 <= k < |items| && items[k] == r.value
        && (Lower(r.value.name()) == name || Lower(r.value.id) == name)
        && forall j :: 0 <= j < k ==> Lower(items[j].name()) != name && Lower(items[j].id) != name
  {
    if |items| == 0 then None
    else if Lower(items[0].name()) == name || Lower(items[0].id) == name then Some(items[0])
    else
      var r := FindByName(items[1..], name);
      assert forall i :: 0 <= i < |items| - 1 ==> items[1..][i] == items[i + 1];
      r
  }

  /** The inventory-screen command an input is. */
  datatype InventoryCommand =
    | InventoryNotes
    | CloseInventory
    | InventoryHelp
    | UseFound(item: Item)
    | NothingToUse

  /** `handleInventoryInput(input)`'s decision, in the order it tests: "use
      <name>" finds the first held item of that name or id. */
  function ClassifyInventoryInput(input: string, items: seq<Item>): (c: InventoryCommand)
    ensures c == CloseInventory <==> input == "back" || input == "exit"
    ensures c.UseFound? ==>
      c.item in items && UseArgument(input).Some?
      && (Lower(c.item.name()) == Lower(UseArgument(input).value) || Lower(c.item.id) == Lower(UseArgument(input).value))
    ensures c == NothingToUse && UseArgument(input).Some? ==>
      forall i :: 0 <= i < |items| ==>
        Lower(items[i].name()) != Lower(UseArgument(input).value) && Lower(items[i].id) != Lower(UseArgument(input).value)
  {
    if input == "notes" || input == "note" then InventoryNotes
    else if input == "back" || input == "exit" then CloseInventory
    else if input == "help" then InventoryHelp
    else match UseArgument(input)
      case None => NothingToUse
      case Some(arg) =>
        match FindByName(items, Lower(arg))
          case Some(item) => UseFound(item)
          case None => NothingToUse
  }

  /** `previousMode || "normal"`, with "" standing for a null mode. */
  function Resumed(previousMode: string): (m: string)
    ensures m != ""
    ensures previousMode != "" ==> m == previousMode
  {
    if previousMode == "" then "normal" else previousMode
  }

  /** What `handleErrorRecoveryInput(input)` does next: "restart" returns to
      the title screen, "continue" replays the scene, anything else waits. */
  function RecoveryEffect(input: string): (e: Effect)
    ensures e == TitleScreen <==> input == "restart"
    ensures e == PlayScene <==> input == "continue"
    ensures e != NoEffect <==> input == "restart" || input == "continue"
  {
    if input == "restart" then TitleScreen else if input == "continue" then PlayScene else NoEffect
  }

  // --------------------------------------------------------------- handlers

  /** The input handlers with the slice of the game they read and write.
      `previousMode` is "" while it is null. */
  class InputHandlers {
    var isInitialAllocation: bool
    var awaitingUnspentPointsConfirmation: bool
    var inputMode: string
    var previousMode: string
    var currentScene: string
    var nextScene: string
    var awaitingInput: bool
    var playerStats: Stats
    const initialPlayerStats: Stats
    var availableStatPoints: int
    var gameState: GameState
    var inventory: seq<Item>
    var notesContent: string
    const storyContent: map<string, Story.Scene>

    constructor (storyContent: map<string, Story.Scene>, initialPlayerStats: Stats)
      ensures this.storyContent == storyContent && this.initialPlayerStats == initialPlayerStats
      ensures !isInitialAllocation && !awaitingUnspentPointsConfirmation
      ensures inputMode == "title" && previousMode == ""
    {
      this.storyContent := storyContent;
      this.initialPlayerStats := initialPlayerStats;
      isInitialAllocation := false;
      awaitingUnspentPointsConfirmation := false;
      inputMode := "title";
      previousMode := "";
      currentScene := "";
      nextScene := "";
      awaitingInput := false;
      playerStats := initialPlayerStats;
      availableStatPoints := 0;
      gameState := EmptyGameState;
      inventory := [];
      notesContent := "";
    }

    /** The points the stat screen currently spends. */
    function AvailablePoints(): int
      reads this
    {
      StatPoints.Available(isInitialAllocation, availableStatPoints, gameState)
    }

    /** `handleInput()`: the route taken, and the new state the handler it
        reaches leaves; the routes that reach no handler here change
        nothing. */
    method HandleInput(raw: string, isTyping: bool, decoded: Decoded) returns (route: Route, e: Effect)
      modifies this
      ensures route == Dispatch(old(inputMode), raw, isTyping)
      ensures match route
        case Ignored => unchanged(this) && e == NoEffect
        case Notes => unchanged(this) && e == NotesToggled
        case Title(input) => TitleHandled(input, e)
        case Normal(input) => NormalHandled(input, e)
        case Choices(input) => ChoiceHandled(input, e)
        case StatsInput(input) => StatHandled(input, e)
        case InventoryInput(input) => InventoryHandled(input, e)
        case LoadGame(r) => LoadHandled(r, decoded, e)
        case ErrorRecovery(input) => unchanged(this) && e == RecoveryEffect(input)
        case Combat(input) => unchanged(this) && e == CombatAction(input)
        case CombatItemInput(input) => unchanged(this) && e == CombatItem(input)
    {
      route := Dispatch(inputMode, raw, isTyping);
      match route
      case Ignored => e := NoEffect;
      case Notes => e := NotesToggled;
      case Title(input) => e := HandleTitleInput(input);
      case Normal(input) => e := HandleNormalInput(input);
      case Choices(input) => e := HandleChoiceInput(input);
      case StatsInput(input) => e := HandleStatInput(input);
      case InventoryInput(input) => e := HandleInventoryInput(input);
      case LoadGame(r) => e := HandleLoadGameInput(r, decoded);
      case ErrorRecovery(input) => e := HandleErrorRecoveryInput(input);
      case Combat(input) => e := CombatAction(input);
      case CombatItemInput(input) => e := CombatItem(input);
    }

    /** Only the input mode changed. */
    twostate predicate OnlyModeChanged()
      reads this
    {
      unchanged(this`isInitialAllocation, this`awaitingUnspentPointsConfirmation, this`previousMode,
                this`currentScene, this`nextScene, this`awaitingInput, this`playerStats,
                this`availableStatPoints, this`gameState, this`inventory, this`notesContent)
    }

    /** Only the input mode and the remembered mode changed. */
    twostate predicate OnlyModesChanged()
      reads this
    {
      unchanged(this`isInitialAllocation, this`awaitingUnspentPointsConfirmation,
                this`currentScene, this`nextScene, this`awaitingInput, this`playerStats,
                this`availableStatPoints, this`gameState, this`inventory, this`notesContent)
    }

    /** The state `handleTitleInput(input)` leaves. */
    twostate predicate TitleHandled(input: string, e: Effect)
      reads this
    {
      if input == "1" || Lower(input) == "new game" then
        NewGameStarted() && e == NoEffect
        && gameState == old(gameState).(playerHealth := Some(InitialPlayerHealth),
                                         playerXp := InitialPlayerXp, statPool := Some(0))
        && unchanged(this`awaitingUnspentPointsConfirmation, this`currentScene, this`nextScene,
                     this`awaitingInput, this`notesContent)
      else if input == "2" || Lower(input) == "load game" then
        inputMode == "loadGame" && OnlyModeChanged() && e == NoEffect
      else
        unchanged(this) && e == NoEffect
    }

    /** `handleTitleInput(input)`: "1" or "new game" starts a new game,
        "2" or "load game" opens the load prompt, anything else only
        prints. */
    method HandleTitleInput(input: string) returns (e: Effect)
      modifies this`inventory, this`playerStats, this`availableStatPoints, this`gameState,
               this`inputMode, this`previousMode, this`isInitialAllocation
      ensures TitleHandled(input, e)
    {
      if input == "1" || Lower(input) == "new game" {
        StartNewGame();
        e := NoEffect;
      } else if input == "2" || Lower(input) == "load game" {
        ShowLoadGamePrompt();
        e := NoEffect;
      } else {
        e := NoEffect;
      }
    }

    /** The state `handleNormalInput(input)` leaves: "inventory"/"i" opens
        the overlay remembering the mode, "load" opens the load prompt, and
        every other command changes nothing. */
    twostate predicate NormalHandled(input: string, e: Effect)
      reads this
    {
      if input == "notes" || input == "note" then unchanged(this) && e == NotesToggled
      else if input == "inventory" || input == "i" then
        previousMode == old(inputMode) && inputMode == "inventory" && OnlyModesChanged() && e == NoEffect
      else if input == "save" then unchanged(this) && e == Saved(old(Record()))
      else if input == "load" then inputMode == "loadGame" && OnlyModeChanged() && e == NoEffect
      else if input == "quit" || input == "exit" || input == "title" then unchanged(this) && e == TitleScreenLater
      else unchanged(this) && e == NoEffect
    }

    /** `handleNormalInput(input)` */
    method HandleNormalInput(input: string) returns (e: Effect)
      modifies this`previousMode, this`inputMode
      ensures NormalHandled(input, e)
    {
      if input == "notes" || input == "note" {
        return NotesToggled;
      }
      if input == "help" {
        e := NoEffect;
      } else if input == "inventory" || input == "i" {
        ShowInventory();
        e := NoEffect;
      } else if input == "stats" || input == "s" {
        e := NoEffect;
      } else if input == "save" {
        var r := SaveGame();
        e := Saved(r);
      } else if input == "load" {
        ShowLoadGamePrompt();
        e := NoEffect;
      } else if input == "quit" || input == "exit" || input == "title" {
        e := TitleScreenLater;
      } else {
        e := NoEffect;
      }
    }

    /** The state `handleChoiceInput(input)` leaves. */
    twostate predicate ChoiceHandled(input: string, e: Effect)
      reads this
    {
      if input == "notes" || input == "note" then unchanged(this) && e == NotesToggled
      else if input == "save" then unchanged(this) && e == Saved(old(Record()))
      else if input == "load" then inputMode == "loadGame" && OnlyModeChanged() && e == NoEffect
      else if input == "help" then unchanged(this) && e == NoEffect
      else if !(old(currentScene) in storyContent && storyContent[old(currentScene)].choices.Some?) then
        unchanged(this) && e == Fault
      else
        var target := ChoiceTarget(storyContent[old(currentScene)].choices.value, input);
        if target.None? then unchanged(this) && e == NoEffect
        else
          currentScene == target.value && inputMode == "normal" && !awaitingInput && e == PlayScene
          && unchanged(this`isInitialAllocation, this`awaitingUnspentPointsConfirmation, this`previousMode,
                       this`nextScene, this`playerStats, this`availableStatPoints, this`gameState,
                       this`inventory, this`notesContent)
    }

    /** `handleChoiceInput(input)`: the commands first; then a valid choice
        number moves to that choice's scene, anything else changes
        nothing.  A current scene that is missing or has no choices makes
        the handler throw before it changes anything. */
    method HandleChoiceInput(input: string) returns (e: Effect)
      modifies this`inputMode, this`currentScene, this`awaitingInput
      ensures ChoiceHandled(input, e)
    {
      if input == "notes" || input == "note" {
        return NotesToggled;
      }
      if input == "save" {
        var r := SaveGame();
        return Saved(r);
      }
      if input == "load" {
        ShowLoadGamePrompt();
        return NoEffect;
      }
      if input == "help" {
        return NoEffect;
      }
      if currentScene !in storyContent || storyContent[currentScene].choices.None? {
        return Fault;
      }
      var choices := storyContent[currentScene].choices.value;
      var target := ChoiceTarget(choices, input);
      if target.None? {
        return NoEffect;
      }
      e := MakeChoice(target.value);
    }

    /** `makeChoice(nextScene)` */
    method MakeChoice(next: string) returns (e: Effect)
      modifies this`currentScene, this`awaitingInput, this`inputMode
      ensures currentScene == next && !awaitingInput && inputMode == "normal" && e == PlayScene
    {
      currentScene := next;
      awaitingInput := false;
      inputMode := "normal";
      e := PlayScene;
    }

    /** The state `proceedAfterStatAllocation()` leaves: after the initial
        allocation the adventure starts at "intro"; otherwise the previous
        mode comes back. */
    twostate predicate Proceeded(e: Effect)
      reads this
    {
      if old(isInitialAllocation) then
        !isInitialAllocation && currentScene == "intro" && inputMode == "normal" && e == PlaySceneLater
      else
        isInitialAllocation == old(isInitialAllocation) && currentScene == old(currentScene)
        && inputMode == Resumed(old(previousMode)) && e == NoEffect
    }

    method ProceedAfterStatAllocation() returns (e: Effect)
      modifies this`isInitialAllocation, this`currentScene, this`inputMode
      ensures Proceeded(e)
    {
      if isInitialAllocation {
        isInitialAllocation := false;
        currentScene := "intro";
        inputMode := "normal";
        e := PlaySceneLater;
      } else {
        inputMode := Resumed(previousMode);
        e := NoEffect;
      }
    }

    /** The state `handleStatInput(input)` leaves, command by command. */
    twostate predicate StatHandled(input: string, e: Effect)
      reads this
    {
      unchanged(this`previousMode, this`nextScene, this`awaitingInput, this`inventory, this`notesContent)
      && (var c := ClassifyStatInput(input, old(isInitialAllocation), old(awaitingUnspentPointsConfirmation));
        match c
        case StatNotes => unchanged(this) && e == NotesToggled
        case BackToTitle =>
          !isInitialAllocation && e == TitleScreen
          && unchanged(this`awaitingUnspentPointsConfirmation, this`currentScene, this`inputMode,
                       this`playerStats, this`availableStatPoints, this`gameState)
        case ProceedAnyway =>
          !awaitingUnspentPointsConfirmation && Proceeded(e)
          && unchanged(this`playerStats, this`availableStatPoints, this`gameState)
        case CancelProceed =>
          !awaitingUnspentPointsConfirmation && e == NoEffect
          && unchanged(this`isInitialAllocation, this`currentScene, this`inputMode,
                       this`playerStats, this`availableStatPoints, this`gameState)
        case Finish => Finished(e)
        case Reduce(name) => Reduced(name) && e == NoEffect
        case Increase(stat) => Increased(stat) && e == NoEffect
        case _ => unchanged(this) && e == NoEffect)
    }

    /** `handleStatInput(input)` */
    method HandleStatInput(input: string) returns (e: Effect)
      modifies this`isInitialAllocation, this`awaitingUnspentPointsConfirmation, this`currentScene,
               this`inputMode, this`playerStats, this`availableStatPoints, this`gameState
      ensures StatHandled(input, e)
    {
      var c := ClassifyStatInput(input, isInitialAllocation, awaitingUnspentPointsConfirmation);
      match c
      case StatNotes => e := NotesToggled;
      case BackToTitle =>
        isInitialAllocation := false;
        e := TitleScreen;
      case ProceedAnyway =>
        awaitingUnspentPointsConfirmation := false;
        e := ProceedAfterStatAllocation();
      case CancelProceed =>
        awaitingUnspentPointsConfirmation := false;
        e := NoEffect;
      case RepeatPrompt => e := NoEffect;
      case Finish =>
        e := FinishAllocation();
      case StatHelp => e := NoEffect;
      case Reduce(name) =>
        ReduceStatPoint(name);
        e := NoEffect;
      case Increase(stat) =>
        IncreaseStat(stat);
        e := NoEffect;
      case InvalidStat => e := NoEffect;
    }

    /** The state "start"/"done" leaves on the stat screen: with points
        still unspent the player is asked to confirm; otherwise the game
        proceeds. */
    twostate predicate Finished(e: Effect)
      reads this
    {
      if old(AvailablePoints()) > 0 then
        awaitingUnspentPointsConfirmation && e == NoEffect
        && unchanged(this`isInitialAllocation, this`currentScene, this`inputMode,
                     this`playerStats, this`availableStatPoints, this`gameState)
      else
        Proceeded(e) && unchanged(this`awaitingUnspentPointsConfirmation, this`playerStats,
                                  this`availableStatPoints, this`gameState)
    }

    method FinishAllocation() returns (e: Effect)
      modifies this`isInitialAllocation, this`awaitingUnspentPointsConfirmation, this`currentScene,
               this`inputMode
      ensures Finished(e)
    {
      var points := if isInitialAllocation then availableStatPoints else PoolOrZero(gameState);
      if points > 0 {
        awaitingUnspentPointsConfirmation := true;
        e := NoEffect;
      } else {
        e := ProceedAfterStatAllocation();
      }
    }

    /** The state a stat name leaves on the stat screen: with a point to
        spend, the stat gains one and the pool in use (the temporary one
        during the initial allocation, the persistent one otherwise) loses
        one; without one nothing changes. */
    twostate predicate Increased(stat: Stat)
      reads this
    {
      unchanged(this`isInitialAllocation, this`awaitingUnspentPointsConfirmation,
                this`currentScene, this`inputMode)
      && if old(AvailablePoints()) > 0 then
           playerStats == old(playerStats).With(stat, old(playerStats).Get(stat) + 1)
           && AvailablePoints() == old(AvailablePoints()) - 1
           && (if old(isInitialAllocation) then gameState == old(gameState)
               else availableStatPoints == old(availableStatPoints)
                    && gameState == old(gameState).(statPool := Some(PoolOrZero(old(gameState)) - 1)))
         else unchanged(this)
    }

    method IncreaseStat(stat: Stat)
      modifies this`playerStats, this`availableStatPoints, this`gameState
      ensures Increased(stat)
    {
      var points := if isInitialAllocation then availableStatPoints else PoolOrZero(gameState);
      if points > 0 {
        playerStats := playerStats.With(stat, playerStats.Get(stat) + 1);
        if isInitialAllocation {
          availableStatPoints := availableStatPoints - 1;
        } else {
          gameState := gameState.(statPool := Some(PoolOrZero(gameState) - 1));
        }
      }
    }

    /** The state `reduceStatPoint(name)` leaves: outside the initial
        allocation, for a name that is not an accepted stat, or at or below
        the initial value nothing changes; otherwise the stat loses a point
        and the persistent pool gets it back when it is defined, the
        temporary pool otherwise. */
    twostate predicate Reduced(name: string)
      reads this
    {
      var s := StatNamed(name);
      if !old(isInitialAllocation) || s.None?
         || old(playerStats).Get(s.value) <= initialPlayerStats.Get(s.value) then
        unchanged(this)
      else
        playerStats == old(playerStats).With(s.value, old(playerStats).Get(s.value) - 1)
        && isInitialAllocation == old(isInitialAllocation)
        && awaitingUnspentPointsConfirmation == old(awaitingUnspentPointsConfirmation)
        && currentScene == old(currentScene) && inputMode == old(inputMode)
        && if old(gameState).statPool.Some? then
             gameState == old(gameState).(statPool := Some(old(gameState).statPool.value + 1))
             && availableStatPoints == old(availableStatPoints)
           else
             gameState == old(gameState) && availableStatPoints == old(availableStatPoints) + 1
    }

    method ReduceStatPoint(name: string)
      modifies this`playerStats, this`availableStatPoints, this`gameState
      ensures Reduced(name)
    {
      if !isInitialAllocation {
        return;
      }
      var s := StatNamed(name);
      if s.None? {
        return;
      }
      var stat := s.value;
      if playerStats.Get(stat) > initialPlayerStats.Get(stat) {
        playerStats := playerStats.With(stat, playerStats.Get(stat) - 1);
        if gameState.statPool.Some? {
          gameState := gameState.(statPool := Some(gameState.statPool.value + 1));
        } else {
          availableStatPoints := availableStatPoints + 1;
        }
      }
    }

    /** The state `handleInventoryInput(input)` leaves. */
    twostate predicate InventoryHandled(input: string, e: Effect)
      reads this
    {
      unchanged(this`isInitialAllocation, this`awaitingUnspentPointsConfirmation, this`currentScene,
                this`nextScene, this`awaitingInput, this`playerStats, this`availableStatPoints,
                this`notesContent)
      && match ClassifyInventoryInput(input, old(inventory))
        case InventoryNotes => unchanged(this) && e == NotesToggled
        case CloseInventory =>
          inputMode == Resumed(old(previousMode)) && previousMode == ""
          && unchanged(this`inventory, this`gameState)
          && e == (if inputMode == "normal" then PlayScene else NoEffect)
        case InventoryHelp => unchanged(this) && e == NoEffect
        case UseFound(item) => ItemUsed(item) && e == NoEffect
        case NothingToUse => unchanged(this) && e == NoEffect
    }

    /** `handleInventoryInput(input)`: "back"/"exit" closes the overlay;
        "use <name>" uses the first item of that name or id. */
    method HandleInventoryInput(input: string) returns (e: Effect)
      modifies this`inputMode, this`previousMode, this`inventory, this`gameState
      ensures InventoryHandled(input, e)
    {
      match ClassifyInventoryInput(input, inventory)
      case InventoryNotes =>
        e := NotesToggled;
      case CloseInventory =>
        e := ResumeAfterInventory();
      case UseFound(item) =>
        UseItem(item);
        e := NoEffect;
      case _ =>
        e := NoEffect;
    }

    /** The state `useItem(item)` leaves: an effect item applies its custom
        effect, a consumable loses one unit, and the inventory view is shown
        again, which records the current mode, "inventory" itself, as the
        previous mode. */
    twostate predicate ItemUsed(item: Item)
      reads this
    {
      gameState == (if item.props.effect then CustomItemEffect(old(gameState), item.id) else old(gameState))
      && inventory == (if item.props.consumable then Inventory.Removed(old(inventory), item.id, 1) else old(inventory))
      && previousMode == old(inputMode) && inputMode == "inventory"
    }

    method UseItem(item: Item)
      modifies this`gameState, this`inventory, this`previousMode, this`inputMode
      ensures ItemUsed(item)
    {
      if item.props.effect {
        gameState := CustomItemEffect(gameState, item.id);
      }
      if item.props.consumable {
        var removed := RemoveItemFromInventory(item.id, 1);
      }
      ShowInventory();
    }

    /** `useItemById(id)`: the first item with that id is used; an id the
        inventory does not hold is refused with no change. */
    method UseItemById(id: string) returns (ok: bool)
      modifies this`gameState, this`inventory, this`previousMode, this`inputMode
      ensures ok <==> Inventory.GetItem(old(inventory), id).Some?
      ensures ok ==> ItemUsed(Inventory.GetItem(old(inventory), id).value)
      ensures !ok ==> unchanged(this)
    {
      var item := Inventory.GetItem(inventory, id);
      if item.None? {
        return false;
      }
      UseItem(item.value);
      return true;
    }

    /** `removeItemFromInventory(id, quantity)`: the same rule as the
        inventory manager's `removeItem`, applied to `game.inventory`. */
    method RemoveItemFromInventory(id: string, quantity: int) returns (ok: bool)
      modifies this`inventory
      ensures ok <==> Inventory.FindIndex(old(inventory), id) >= 0
      ensures inventory == Inventory.Removed(old(inventory), id, quantity)
    {
      var k := Inventory.FindIndex(inventory, id);
      if k == -1 {
        return false;
      }
      var left := inventory[k].quantity - quantity;
      if left <= 0 {
        inventory := inventory[..k] + inventory[k + 1..];
      } else {
        inventory := inventory[k := inventory[k].(quantity := left)];
      }
      return true;
    }

    /** `showInventory()`: the overlay opens and remembers the mode. */
    method ShowInventory()
      modifies this`previousMode, this`inputMode
      ensures previousMode == old(inputMode) && inputMode == "inventory"
    {
      previousMode := inputMode;
      inputMode := "inventory";
    }

    /** `resumeAfterInventory()`: the remembered mode, or "normal", comes
        back and the memory is cleared; back in "normal" the scene plays. */
    method ResumeAfterInventory() returns (e: Effect)
      modifies this`inputMode, this`previousMode
      ensures inputMode == Resumed(old(previousMode)) && previousMode == ""
      ensures e == if inputMode == "normal" then PlayScene else NoEffect
    {
      inputMode := Resumed(previousMode);
      previousMode := "";
      e := if inputMode == "normal" then PlayScene else NoEffect;
    }

    /** The state `handleLoadGameInput(raw)` leaves. */
    twostate predicate LoadHandled(raw: string, decoded: Decoded, e: Effect)
      reads this
    {
      if Lower(raw) == "back" then unchanged(this) && e == TitleScreen
      else match decoded
        case Invalid => unchanged(this) && e == NoEffect
        case NullRecord => unchanged(this) && e == TitleScreen
        case Record(r) =>
          Loaded(r) && e == PlaySceneLater
          && unchanged(this`isInitialAllocation, this`awaitingUnspentPointsConfirmation, this`inputMode,
                       this`previousMode, this`nextScene, this`awaitingInput, this`availableStatPoints)
    }

    /** `handleLoadGameInput(raw)`: "back" goes to the title screen; a code
        that does not decode changes nothing; a decoded value is loaded. */
    method HandleLoadGameInput(raw: string, decoded: Decoded) returns (e: Effect)
      modifies this`currentScene, this`playerStats, this`inventory, this`gameState, this`notesContent
      ensures LoadHandled(raw, decoded, e)
    {
      if Lower(raw) == "back" {
        return TitleScreen;
      }
      match decoded
      case Invalid => e := NoEffect;
      case NullRecord => e := TitleScreen;
      case Record(r) => e := LoadSaveData(r);
    }

    /** The state `loadSaveData(record)` leaves: scene, stats, inventory and
        game state are replaced; the notes only when the record has some. */
    twostate predicate Loaded(r: SaveRecord)
      reads this
    {
      currentScene == r.currentScene && playerStats == r.playerStats
      && inventory == r.inventory && gameState == r.gameState
      && notesContent == (if r.notes != "" then r.notes else old(notesContent))
    }

    method LoadSaveData(r: SaveRecord) returns (e: Effect)
      modifies this`currentScene, this`playerStats, this`inventory, this`gameState, this`notesContent
      ensures Loaded(r) && e == PlaySceneLater
    {
      currentScene := r.currentScene;
      playerStats := r.playerStats;
      inventory := r.inventory;
      gameState := r.gameState;
      if r.notes != "" {
        notesContent := r.notes;
      }
      e := PlaySceneLater;
    }

    /** The continuation `loadSaveData` schedules, up to playing the
        scene. */
    method FinishLoad() returns (e: Effect)
      modifies this`inputMode
      ensures inputMode == "normal" && e == PlayScene
    {
      inputMode := "normal";
      e := PlayScene;
    }

    function Record(): SaveRecord
      reads this
    {
      SaveRecord(currentScene, playerStats, inventory, gameState, notesContent)
    }

    /** `saveGame()`: the record of scene, stats, inventory, game state and
        notes. */
    method SaveGame() returns (r: SaveRecord)
      ensures r == Record()
    {
      r := SaveRecord(currentScene, playerStats, inventory, gameState, notesContent);
    }

    /** `handleErrorRecoveryInput(input)` */
    method HandleErrorRecoveryInput(input: string) returns (e: Effect)
      ensures e == RecoveryEffect(input)
    {
      if input == "restart" {
        e := TitleScreen;
      } else if input == "continue" {
        e := PlayScene;
      } else {
        e := NoEffect;
      }
    }

    /** The state `startNewGame()` leaves. */
    predicate NewGameStarted()
      reads this
    {
      inventory == [] && playerStats == initialPlayerStats
      && availableStatPoints == StartingStatPoints
      && gameState.playerHealth == Some(InitialPlayerHealth) && gameState.playerXp == InitialPlayerXp
      && gameState.statPool == Some(0)
      && inputMode == "stats" && previousMode == "title" && isInitialAllocation
    }

    method StartNewGame()
      modifies this`inventory, this`playerStats, this`availableStatPoints, this`gameState,
               this`inputMode, this`previousMode, this`isInitialAllocation
      ensures NewGameStarted()
      ensures gameState == old(gameState).(playerHealth := Some(InitialPlayerHealth),
                                            playerXp := InitialPlayerXp, statPool := Some(0))
    {
      inventory := [];
      playerStats := initialPlayerStats;
      availableStatPoints := StartingStatPoints;
      gameState := gameState.(playerHealth := Some(InitialPlayerHealth), playerXp := InitialPlayerXp,
                              statPool := Some(0));
      inputMode := "stats";
      previousMode := "title";
      isInitialAllocation := true;
    }

    /** `showLoadGamePrompt()` once its title animation has finished. */
    method ShowLoadGamePrompt()
      modifies this`inputMode
      ensures inputMode == "loadGame"
    {
      inputMode := "loadGame";
    }

    /** `adjustStat(stat, change)` of the input handlers: an increment the
        temporary pool cannot pay for is refused; anything else, including
        any decrement, moves the stat and the pool in opposite directions
        with no floor. */
    method AdjustStat(stat: Stat, change: int) returns (ok: bool)
      modifies this`playerStats, this`availableStatPoints
      ensures ok <==> !(change > 0 && old(availableStatPoints) < change)
      ensures ok ==> playerStats == old(playerStats).With(stat, old(playerStats).Get(stat) + change)
                     && availableStatPoints == old(availableStatPoints) - change
      ensures !ok ==> unchanged(this)
    {
      if change > 0 && availableStatPoints < change {
        return false;
      }
      playerStats := playerStats.With(stat, playerStats.Get(stat) + change);
      availableStatPoints := availableStatPoints - change;
      return true;
    }

    /** `confirmStats()` of the input handlers: on to the scene recorded as
        next. */
    method ConfirmStats() returns (e: Effect)
      modifies this`inputMode, this`currentScene
      ensures inputMode == "normal" && currentScene == nextScene && e == PlayScene
    {
      inputMode := "normal";
      currentScene := nextScene;
      e := PlayScene;
    }
  }

  /** Opening the inventory overlay and closing it again restores the mode
      the game was in, from any mode other than the null one. */
  method InventoryOverlayRestores(h: InputHandlers)
    requires h.inputMode != ""
    modifies h
    ensures h.inputMode == old(h.inputMode) && h.previousMode == ""
  {
    h.ShowInventory();
    var e := h.ResumeAfterInventory();
  }

  /** Loading the record a save produced restores scene, stats, inventory,
      game state and notes. */
  method SaveLoadRoundTrip(h: InputHandlers)
    modifies h
    ensures h.Record() == old(h.Record())
  {
    var r := h.SaveGame();
    var e := h.LoadSaveData(r);
  }
}
