/** The stat allocation of the equipment panel, js/equipmentManagerUI.js:
    one adjustment may draw on both point pools, the persistent one first,
    and confirming consolidates both pools to zero and snapshots the
    stats as the new baseline.  Closing the panel restores the input mode
    the game was in.

    The player's answer to the confirmation dialog is a parameter. */
module EquipmentUI {
  import opened Common
  import StatPoints
  import InputHandlers

  /** The value a stat may not be reduced below: the confirmed value once
      the panel has confirmed (the initial value when none is recorded),
      the initial value before. */
  function UiBaseline(stat: Stat, confirmed: bool, initial: Stats, gs: GameState): int {
    if confirmed then
      match gs.confirmedStats
      case Some(c) => c.Get(stat)
      case None => initial.Get(stat)
    else initial.Get(stat)
  }

  /** `adjustStat(stat, change)`: refused when an increment exceeds both
      pools together or a decrement goes below the baseline.  An increment
      is paid by the persistent pool when it can; otherwise that pool is
      emptied and the rest comes out of the temporary pool, floored at 0.
      A decrement credits the persistent pool. */
  function Split(p: StatPoints.Points, initial: Stats, confirmed: bool, stat: Stat, change: int): (r: Option<StatPoints.Points>)
    ensures r.None? <==>
      (change > 0 && StatPoints.Total(p.gs, p.temp) < change)
      || (change < 0 && p.stats.Get(stat) + change < UiBaseline(stat, confirmed, initial, p.gs))
    ensures r.Some? ==>
      r.value.stats == p.stats.With(stat, p.stats.Get(stat) + change)
      && r.value.gs == p.gs.(statPool := r.value.gs.statPool)
    ensures r.Some? && change > 0 && p.gs.statPool.Some? && p.gs.statPool.value >= change ==>
      r.value.temp == p.temp && r.value.gs.statPool == Some(p.gs.statPool.value - change)
    ensures r.Some? && change > 0 && !(p.gs.statPool.Some? && p.gs.statPool.value >= change) ==>
      r.value.gs.statPool == Some(0)
    ensures r.Some? && change < 0 ==>
      r.value.temp == p.temp && r.value.gs.statPool == Some(PoolOrZero(p.gs) - change)
    ensures r.Some? && change == 0 ==> r.value == p
  {
    var total := StatPoints.Total(p.gs, p.temp);
    if change > 0 && total < change then None
    else if change < 0 && p.stats.Get(stat) + change < UiBaseline(stat, confirmed, initial, p.gs) then None
    else
      var stats := p.stats.With(stat, p.stats.Get(stat) + change);
      if change > 0 then
        if p.gs.statPool.Some? && p.gs.statPool.value >= change then
          Some(StatPoints.Points(stats, p.temp, p.gs.(statPool := Some(p.gs.statPool.value - change))))
        else
          var remaining := change - PoolOrZero(p.gs);
          Some(StatPoints.Points(stats, Max(0, p.temp - remaining), p.gs.(statPool := Some(0))))
      else if change < 0 then
        Some(StatPoints.Points(stats, p.temp, p.gs.(statPool := Some(PoolOrZero(p.gs) - change))))
      else
        assert stats == p.stats by {
          StatPoints.StatsExtensional(stats, p.stats);
        }
        Some(p)
  }

  /** Whatever the signs of the pools, a successful adjustment moves points
      between the stat and the pools without creating or losing any: the
      floor at 0 never bites, because the refusal already guarantees that
      the pools together cover the change. */
  lemma SplitConserves(p: StatPoints.Points, initial: Stats, confirmed: bool, stat: Stat, change: int)
    ensures var r := Split(p, initial, confirmed, stat, change);
      r.Some? ==>
        StatPoints.Total(r.value.gs, r.value.temp) == StatPoints.Total(p.gs, p.temp) - change
        && r.value.stats.Get(stat) + StatPoints.Total(r.value.gs, r.value.temp)
           == p.stats.Get(stat) + StatPoints.Total(p.gs, p.temp)
  {
    var r := Split(p, initial, confirmed, stat, change);
    if r.Some? && change > 0 && !(p.gs.statPool.Some? && p.gs.statPool.value >= change) {
      assert p.temp - (change - PoolOrZero(p.gs)) >= 0;
    }
  }

  /** Starting from non-negative pools, no pool goes negative. */
  lemma SplitKeepsPoolsNonNegative(p: StatPoints.Points, initial: Stats, confirmed: bool, stat: Stat, change: int)
    requires PoolOrZero(p.gs) >= 0 && p.temp >= 0
    ensures var r := Split(p, initial, confirmed, stat, change);
      r.Some? ==> PoolOrZero(r.value.gs) >= 0 && r.value.temp >= 0
  {
  }

  /** The panel's allocator agrees with the stat-point handler outside the
      initial allocation wherever the handler allows a non-zero change and
      the panel's confirmation flag matches the recorded snapshot; the panel
      additionally lets an increment draw on the temporary pool. */
  lemma SplitExtendsHandler(p: StatPoints.Points, initial: Stats, stat: Stat, change: int)
    requires change != 0 && p.temp >= 0
    requires StatPoints.Adjust(p, initial, stat, change, false).Some?
    ensures Split(p, initial, p.gs.confirmedStats.Some?, stat, change) == StatPoints.Adjust(p, initial, stat, change, false)
  {
  }

  /** Once confirmed, the snapshot is the baseline, so no stat can be
      lowered. */
  lemma ConfirmedStatsAreFloor(p: StatPoints.Points, initial: Stats, stat: Stat, change: int)
    requires p.gs.confirmedStats == Some(p.stats)
    requires change < 0
    ensures Split(p, initial, true, stat, change).None?
  {
  }

  /** The panel with the slice of the game it reads and writes. */
  class EquipmentManagerUI {
    var statPointsConfirmed: bool
    var visible: bool
    var playerStats: Stats
    const initialPlayerStats: Stats
    var availableStatPoints: int
    var gameState: GameState
    var inputMode: string
    var previousMode: string

    /** The constructor takes the confirmation flag from the game state. */
    constructor (playerStats: Stats, initialPlayerStats: Stats, availableStatPoints: int, gameState: GameState,
                 inputMode: string, previousMode: string)
      ensures statPointsConfirmed == gameState.statsConfirmed && !visible
      ensures this.playerStats == playerStats && this.initialPlayerStats == initialPlayerStats
      ensures this.availableStatPoints == availableStatPoints && this.gameState == gameState
      ensures this.inputMode == inputMode && this.previousMode == previousMode
    {
      statPointsConfirmed := gameState.statsConfirmed;
      visible := false;
      this.playerStats := playerStats;
      this.initialPlayerStats := initialPlayerStats;
      this.availableStatPoints := availableStatPoints;
      this.gameState := gameState;
      this.inputMode := inputMode;
      this.previousMode := previousMode;
    }

    function State(): StatPoints.Points
      reads this
    {
      StatPoints.Points(playerStats, availableStatPoints, gameState)
    }

    method AdjustStat(stat: Stat, change: int) returns (ok: bool)
      modifies this`playerStats, this`availableStatPoints, this`gameState
      ensures var r := Split(old(State()), initialPlayerStats, statPointsConfirmed, stat, change);
        ok == r.Some? && State() == if ok then r.value else old(State())
    {
      ghost var r := Split(State(), initialPlayerStats, statPointsConfirmed, stat, change);
      var baseline := UiBaseline(stat, statPointsConfirmed, initialPlayerStats, gameState);
      var total := PoolOrZero(gameState) + availableStatPoints;
      if change > 0 && total < change {
        assert r.None?;
        return false;
      }
      if change < 0 && playerStats.Get(stat) + change < baseline {
        assert r.None?;
        return false;
      }
      assert r.Some?;
      playerStats := playerStats.With(stat, playerStats.Get(stat) + change);
      if change > 0 {
        if gameState.statPool.Some? && gameState.statPool.value >= change {
          gameState := gameState.(statPool := Some(gameState.statPool.value - change));
        } else {
          var fromGameState := PoolOrZero(gameState);
          var remaining := change - fromGameState;
          gameState := gameState.(statPool := Some(0));
          availableStatPoints := Max(0, availableStatPoints - remaining);
        }
      } else if change < 0 {
        gameState := gameState.(statPool := Some(PoolOrZero(gameState) - change));
      }
      assert State() == r.value;
      return true;
    }

    /** `confirmStats()`: refused while points remain; otherwise, if the
        player agrees, both pools are zeroed, the stats are marked confirmed
        and snapshotted. */
    method ConfirmStats(agreed: bool) returns (ok: bool)
      modifies this`statPointsConfirmed, this`availableStatPoints, this`gameState
      ensures ok <==> StatPoints.Total(old(gameState), old(availableStatPoints)) <= 0 && agreed
      ensures !ok ==> unchanged(this)
      ensures ok ==>
        statPointsConfirmed && availableStatPoints == 0
        && gameState == old(gameState).(statPool := Some(0), statsConfirmed := true,
                                         confirmedStats := Some(playerStats))
    {
      var total := PoolOrZero(gameState) + availableStatPoints;
      if total > 0 {
        return false;
      }
      if !agreed {
        return false;
      }
      gameState := gameState.(statPool := Some(0));
      availableStatPoints := 0;
      statPointsConfirmed := true;
      gameState := gameState.(statsConfirmed := true, confirmedStats := Some(playerStats));
      return true;
    }

    /** The state part of `toggle(show)`: closing the open panel while in
        "equipment" mode restores the previous mode (or "normal") and
        clears it; asking for the state the panel is already in changes
        nothing. */
    method Toggle(show: bool)
      modifies this`visible, this`inputMode, this`previousMode
      ensures visible == show
      ensures show == old(visible) ==> unchanged(this)
      ensures !show && old(visible) && old(inputMode) == "equipment" ==>
        inputMode == InputHandlers.Resumed(old(previousMode)) && previousMode == ""
      ensures !(!show && old(visible) && old(inputMode) == "equipment") ==>
        inputMode == old(inputMode) && previousMode == old(previousMode)
    {
      if !show && visible {
        if inputMode == "equipment" {
          inputMode := InputHandlers.Resumed(previousMode);
          previousMode := "";
        }
      }
      if show == visible {
        return;
      }
      visible := show;
    }
  }

  /** After a confirmation, the panel refuses every decrement until the
      stats change again. */
  method ConfirmThenLower(ui: EquipmentManagerUI, stat: Stat, change: int)
    requires change < 0
    modifies ui`statPointsConfirmed, ui`availableStatPoints, ui`gameState, ui`playerStats
    ensures old(StatPoints.Total(ui.gameState, ui.availableStatPoints)) <= 0 ==> ui.playerStats == old(ui.playerStats)
  {
    var ok := ui.ConfirmStats(true);
    if ok {
      ConfirmedStatsAreFloor(ui.State(), ui.initialPlayerStats, stat, change);
    }
    var lowered := ui.AdjustStat(stat, change);
  }
}
