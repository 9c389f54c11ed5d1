/** The stat-point allocator of js/statsPointsHandler.js.  Points live in
    two pools: the temporary `game.availableStatPoints`, used during the
    initial allocation, and the persistent `gameState.availableStatPoints`,
    used afterwards.  A stat may not be lowered below its baseline. */
module StatPoints {
  import opened Common

  /** `getTotal()`: both pools, a missing one counting as 0. */
  function Total(gs: GameState, temp: int): int {
    PoolOrZero(gs) + temp
  }

  /** The value a stat may not be reduced below: the initial value during the
      initial allocation, otherwise the confirmed value, falling back to the
      initial one before any confirmation. */
  function Baseline(stat: Stat, initialAllocation: bool, initial: Stats, gs: GameState): int {
    if initialAllocation then initial.Get(stat)
    else match gs.confirmedStats
      case Some(c) => c.Get(stat)
      case None => initial.Get(stat)
  }

  /** The pool an adjustment draws on. */
  function Available(initialAllocation: bool, temp: int, gs: GameState): int {
    if initialAllocation then temp else PoolOrZero(gs)
  }

  /** The fields `adjustStat` reads and writes. */
  datatype Points = Points(stats: Stats, temp: int, gs: GameState)

  /** Points left in the pool selected by `initialAllocation`. */
  function Selected(p: Points, initialAllocation: bool): int {
    Available(initialAllocation, p.temp, p.gs)
  }

  /** `adjustStat(stat, change, isInitialAllocation)`: `None` is a refusal
      (an increment the selected pool cannot pay for, or a decrement below
      the baseline); otherwise the stat moves by `change` and the selected
      pool pays for it, so their sum is kept and nothing else moves. */
  function Adjust(p: Points, initial: Stats, stat: Stat, change: int, initialAllocation: bool): (r: Option<Points>)
    ensures r.None? <==>
      (change > 0 && Selected(p, initialAllocation) < change)
      || (change < 0 && p.stats.Get(stat) + change < Baseline(stat, initialAllocation, initial, p.gs))
    ensures r.Some? ==>
      r.value.stats.Get(stat) == p.stats.Get(stat) + change
      && (forall t :: t != stat ==> r.value.stats.Get(t) == p.stats.Get(t))
      && r.value.stats.Get(stat) + Selected(r.value, initialAllocation)
         == p.stats.Get(stat) + Selected(p, initialAllocation)
      && Total(r.value.gs, r.value.temp) == Total(p.gs, p.temp) - change
    ensures r.Some? && initialAllocation ==> r.value.gs == p.gs
    ensures r.Some? && !initialAllocation ==>
      r.value.temp == p.temp && r.value.gs == p.gs.(statPool := Some(PoolOrZero(p.gs) - change))
  {
    var available := Available(initialAllocation, p.temp, p.gs);
    if change > 0 && available < change then None
    else if change < 0 && p.stats.Get(stat) + change < Baseline(stat, initialAllocation, initial, p.gs) then None
    else
      var stats := p.stats.With(stat, p.stats.Get(stat) + change);
      if initialAllocation then Some(Points(stats, p.temp - change, p.gs))
      else Some(Points(stats, p.temp, p.gs.(statPool := Some(PoolOrZero(p.gs) - change))))
  }

  /** A successful adjustment never overdraws a pool that was not negative,
      and never takes a stat that was at or above its baseline below it. */
  lemma AdjustKeepsBounds(p: Points, initial: Stats, stat: Stat, change: int, initialAllocation: bool)
    requires Selected(p, initialAllocation) >= 0
    requires p.stats.Get(stat) >= Baseline(stat, initialAllocation, initial, p.gs)
    ensures var r := Adjust(p, initial, stat, change, initialAllocation);
      r.Some? ==>
        Selected(r.value, initialAllocation) >= 0
        && r.value.stats.Get(stat) >= Baseline(stat, initialAllocation, initial, r.value.gs)
  {
    var r := Adjust(p, initial, stat, change, initialAllocation);
    if r.Some? && !initialAllocation {
      assert r.value.gs.confirmedStats == p.gs.confirmedStats;
    }
  }

  /** Raising a stat and lowering it again by the same amount restores every
      field, provided the persistent pool was present when it is the one
      in use. */
  lemma {:induction false} AdjustUndo(p: Points, initial: Stats, stat: Stat, change: int, initialAllocation: bool)
    requires change > 0
    requires !initialAllocation ==> p.gs.statPool.Some?
    requires p.stats.Get(stat) >= Baseline(stat, initialAllocation, initial, p.gs)
    requires Adjust(p, initial, stat, change, initialAllocation).Some?
    ensures Adjust(Adjust(p, initial, stat, change, initialAllocation).value, initial, stat, -change, initialAllocation)
         == Some(p)
  {
    var q := Adjust(p, initial, stat, change, initialAllocation).value;
    assert q.gs.confirmedStats == p.gs.confirmedStats;
    var back := Adjust(q, initial, stat, -change, initialAllocation);
    assert back.Some?;
    assert back.value.stats == p.stats by {
      assert forall t :: back.value.stats.Get(t) == p.stats.Get(t);
      StatsExtensional(back.value.stats, p.stats);
    }
  }

  /** Two stat records agreeing on every stat are equal. */
  lemma StatsExtensional(a: Stats, b: Stats)
    requires forall t :: a.Get(t) == b.Get(t)
    ensures a == b
  {
    assert a.Get(Attack) == b.Get(Attack) && a.Get(Defense) == b.Get(Defense);
    assert a.Get(Charisma) == b.Get(Charisma) && a.Get(Intelligence) == b.Get(Intelligence);
    assert a.Get(Speed) == b.Get(Speed) && a.Get(Luck) == b.Get(Luck);
  }

  /** `consolidateForSave()`: everything moves into the persistent pool. */
  function Consolidated(gs: GameState, temp: int): (r: (GameState, int))
    ensures Total(r.0, r.1) == Total(gs, temp)
    ensures r.1 == 0 && r.0.statPool.Some?
    ensures r.0 == gs.(statPool := r.0.statPool)
  {
    (gs.(statPool := Some(Total(gs, temp))), 0)
  }

  /** Consolidating twice is consolidating once. */
  lemma ConsolidateIdempotent(gs: GameState, temp: int)
    ensures var c := Consolidated(gs, temp); Consolidated(c.0, c.1) == c
  {
  }

  /** The handler with the slice of the game it works on. */
  class StatsPointsHandler {
    var playerStats: Stats
    const initialPlayerStats: Stats
    var availableStatPoints: int
    var gameState: GameState

    constructor (playerStats: Stats, initialPlayerStats: Stats, availableStatPoints: int, gameState: GameState)
      ensures this.playerStats == playerStats && this.initialPlayerStats == initialPlayerStats
      ensures this.availableStatPoints == availableStatPoints && this.gameState == gameState
    {
      this.playerStats := playerStats;
      this.initialPlayerStats := initialPlayerStats;
      this.availableStatPoints := availableStatPoints;
      this.gameState := gameState;
    }

    function State(): Points
      reads this
    {
      Points(playerStats, availableStatPoints, gameState)
    }

    function GetTotal(): int
      reads this
    {
      Total(gameState, availableStatPoints)
    }

    method AdjustStat(stat: Stat, change: int, isInitialAllocation: bool) returns (ok: bool)
      modifies this`playerStats, this`availableStatPoints, this`gameState
      ensures var r := Adjust(old(State()), initialPlayerStats, stat, change, isInitialAllocation);
        ok == r.Some? && State() == if ok then r.value else old(State())
    {
      ghost var r := Adjust(State(), initialPlayerStats, stat, change, isInitialAllocation);
      var baseline := if isInitialAllocation then initialPlayerStats.Get(stat)
        else if gameState.confirmedStats.Some? then gameState.confirmedStats.value.Get(stat)
        else initialPlayerStats.Get(stat);
      var available := if isInitialAllocation then availableStatPoints else PoolOrZero(gameState);
      if change > 0 && available < change {
        assert r.None?;
        return false;
      }
      if change < 0 && playerStats.Get(stat) + change < baseline {
        assert r.None?;
        return false;
      }
      var stats := playerStats.With(stat, playerStats.Get(stat) + change);
      if isInitialAllocation {
        assert r == Some(Points(stats, availableStatPoints - change, gameState));
        playerStats := stats;
        availableStatPoints := availableStatPoints - change;
      } else {
        assert r == Some(Points(stats, availableStatPoints, gameState.(statPool := Some(PoolOrZero(gameState) - change))));
        playerStats := stats;
        gameState := gameState.(statPool := Some(PoolOrZero(gameState) - change));
      }
      return true;
    }

    method ConsolidateForSave()
      modifies this`availableStatPoints, this`gameState
      ensures (gameState, availableStatPoints) == Consolidated(old(gameState), old(availableStatPoints))
    {
      var total := GetTotal();
      gameState := gameState.(statPool := Some(total));
      availableStatPoints := 0;
    }

    /** `resetAfterLoad()`: only the temporary pool is cleared. */
    method ResetAfterLoad()
      modifies this`availableStatPoints
      ensures availableStatPoints == 0
    {
      availableStatPoints := 0;
    }
  }
}
