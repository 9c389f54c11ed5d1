/** Values shared by every part of the game: optional values, the player's
    stats, inventory items, the persistent game-state record, the defaults of
    js/constants.js and the few JavaScript built-ins (Math.floor on a quotient,
    ASCII toLowerCase, parseInt) whose behaviour the game logic depends on. */
module Common {

  datatype Option<T> = None | Some(value: T)

  // ---------------------------------------------------------------- constants

  /** Points granted for the initial allocation (js/constants.js). */
  const StartingStatPoints: int := 5
  const InitialPlayerHealth: int := 100
  const MaxPlayerHealth: int := 100
  const InitialPlayerXp: int := 0
  const XpPerLevel: int := 100

  // ------------------------------------------------------------------- stats

  datatype Stat = Attack | Defense | Charisma | Intelligence | Speed | Luck

  /** The `playerStats` object: one integer per stat. */
  datatype Stats = Stats(attack: int, defense: int, charisma: int,
                         intelligence: int, speed: int, luck: int)
  {
    function Get(s: Stat): int {
      match s
      case Attack => attack
      case Defense => defense
      case Charisma => charisma
      case Intelligence => intelligence
      case Speed => speed
      case Luck => luck
    }

    /** `playerStats[s] = v`: only stat `s` changes. */
    function With(s: Stat, v: int): (r: Stats)
      ensures r.Get(s) == v
      ensures forall t :: t != s ==> r.Get(t) == Get(t)
    {
      match s
      case Attack => this.(attack := v)
      case Defense => this.(defense := v)
      case Charisma => this.(charisma := v)
      case Intelligence => this.(intelligence := v)
      case Speed => this.(speed := v)
      case Luck => this.(luck := v)
    }
  }

  /** Every stat starts at 5, intelligence included (js/constants.js). */
  const InitialStats: Stats := Stats(5, 5, 5, 5, 5, 5)

  // ------------------------------------------------------------------- items

  /** An inventory record: its id and quantity, whether it is equipped,
      and the properties the content file gives it. */
  datatype Item = Item(id: string, quantity: int, equipped: bool, props: ItemProps)
  {
    function name(): string { props.name }
    function stackable(): bool { props.stackable }
  }

  /** Item properties.  `itemType` and `category` are the two spellings of
      the kind the content files use; `stackable` is false only when the
      record says `stackable: false` explicitly; numeric fields the record
      leaves out read as 0, which every use of them treats like a missing
      value (`damage || 0`, `if (effects.heal)`). */
  datatype ItemProps = ItemProps(
    name: string,
    itemType: Option<string>,
    category: Option<string>,
    stackable: bool,
    damage: int,
    defense: int,
    heal: int,
    custom: bool,
    effect: bool,
    consumable: bool)

  /** `item.type === t || item.category === t` */
  predicate HasKind(it: Item, t: string) {
    it.props.itemType == Some(t) || it.props.category == Some(t)
  }

  // -------------------------------------------------------------- game state

  /** The persistent `gameState` record.  `playerHealth` and the stat pool
      are tested against `undefined` by the source, so they are optional. */
  datatype GameState = GameState(
    playerHealth: Option<int>,
    playerXp: int,
    statPool: Option<int>,
    talentPoints: int,
    statsConfirmed: bool,
    confirmedStats: Option<Stats>,
    isInjured: bool)

  /** `gameState.availableStatPoints || 0` */
  function PoolOrZero(gs: GameState): int {
    match gs.statPool
    case None => 0
    case Some(p) => p
  }

  /** The record a new game starts from before any field is assigned. */
  const EmptyGameState: GameState :=
    GameState(None, 0, None, 0, false, None, false)

  /** `handleCustomItemEffect(item)`: the only custom effect, the healing
      salve's, cures the injury; any other item changes nothing. */
  function CustomItemEffect(gs: GameState, itemId: string): GameState {
    if itemId == "healingSalve" then gs.(isInjured := false) else gs
  }

  // ------------------------------------------------------------- arithmetic

  /** `Math.floor(a / b)` for a non-zero divisor.  Dafny's `/` is Euclidean,
      which is the floor only for a positive divisor. */
  function FloorDiv(a: int, b: int): (q: int)
    requires b != 0
    ensures b > 0 ==> q * b <= a < q * b + b
    ensures b < 0 ==> q * b + b < a <= q * b
  {
    if b > 0 then a / b else (-a) / (-b)
  }

  /** The player's level: `Math.floor(xp / xpPerLevel)`. */
  function Level(xp: int): int {
    FloorDiv(xp, XpPerLevel)
  }

  function Max(a: int, b: int): int { if a < b then b else a }
  function Min(a: int, b: int): int { if a < b then a else b }

  // ----------------------------------------------------------------- strings

  function LowerChar(c: char): char {
    if 'A' <= c <= 'Z' then (c as int + 32) as char else c
  }

  /** `s.toLowerCase()` restricted to ASCII letters. */
  function Lower(s: string): (r: string)
    ensures |r| == |s|
    ensures forall i :: 0 <= i < |s| ==> r[i] == LowerChar(s[i])
  {
    seq(|s|, i requires 0 <= i < |s| => LowerChar(s[i]))
  }

  predicate IsDigit(c: char) { '0' <= c <= '9' }

  predicate IsHexDigit(c: char) {
    IsDigit(c) || 'a' <= c <= 'f' || 'A' <= c <= 'F'
  }

  function HexValue(c: char): int
    requires IsHexDigit(c)
  {
    if IsDigit(c) then c as int - '0' as int
    else if 'a' <= c <= 'f' then c as int - 'a' as int + 10
    else c as int - 'A' as int + 10
  }

  /** Length of the longest prefix of `s` made of digits of the radix. */
  function DigitRun(s: string, hex: bool): (n: nat)
    ensures n <= |s|
    ensures forall i :: 0 <= i < n ==> (if hex then IsHexDigit(s[i]) else IsDigit(s[i]))
    ensures n < |s| ==> !(if hex then IsHexDigit(s[n]) else IsDigit(s[n]))
  {
    if |s| == 0 || !(if hex then IsHexDigit(s[0]) else IsDigit(s[0])) then 0
    else 1 + DigitRun(s[1..], hex)
  }

  /** Value of a digit string read most significant digit first. */
  function DigitsValue(s: string, hex: bool): int
    requires forall i :: 0 <= i < |s| ==> IsHexDigit(s[i])
  {
    if |s| == 0 then 0
    else DigitsValue(s[..|s| - 1], hex) * (if hex then 16 else 10) + HexValue(s[|s| - 1])
  }

  /** Unsigned part of `parseInt`: a `0x` prefix selects radix 16, and the
      longest run of digits after it is read; no digit at all is NaN. */
  function ParseUnsigned(s: string): Option<int> {
    var hex := |s| >= 2 && s[0] == '0' && (s[1] == 'x' || s[1] == 'X');
    var body := if hex then s[2..] else s;
    var n := DigitRun(body, hex);
    if n == 0 then None else Some(DigitsValue(body[..n], hex))
  }

  /** JavaScript `parseInt(s)` (radix omitted) on a string without leading
      white space: an optional sign, then `ParseUnsigned`; `None` is NaN. */
  function ParseInt(s: string): (r: Option<int>)
    ensures |s| == 0 ==> r == None
    ensures |s| > 0 && !IsDigit(s[0]) && s[0] != '+' && s[0] != '-' ==> r == None
  {
    if |s| > 0 && (s[0] == '+' || s[0] == '-') then
      match ParseUnsigned(s[1..])
      case None => None
      case Some(v) => Some(if s[0] == '-' then -v else v)
    else ParseUnsigned(s)
  }

  /** `parseInt` reads a run of decimal digits that is not followed by
      another digit, whatever comes after it, as its decimal value. */
  lemma {:induction false} ParseIntDigits(ds: string, rest: string)
    requires |ds| > 0 && ds[0] != '0'
    requires forall i :: 0 <= i < |ds| ==> IsDigit(ds[i])
    requires |rest| > 0 ==> !IsDigit(rest[0])
    ensures ParseInt(ds + rest) == Some(DigitsValue(ds, false))
  {
    var s := ds + rest;
    assert s[0] == ds[0];
    DigitRunPrefix(ds, rest);
    assert s[..|ds|] == ds;
  }

  lemma {:induction false} DigitRunPrefix(ds: string, rest: string)
    requires forall i :: 0 <= i < |ds| ==> IsDigit(ds[i])
    requires |rest| > 0 ==> !IsDigit(rest[0])
    ensures DigitRun(ds + rest, false) == |ds|
  {
    if |ds| > 0 {
      assert (ds + rest)[1..] == ds[1..] + rest;
      DigitRunPrefix(ds[1..], rest);
    } else {
      assert ds + rest == rest;
    }
  }
}
