/** Talent unlocking, js/talentManager.js: a chain of guards (unknown or
    already acquired, level, prerequisites, tier exclusivity, talent
    points), then append-only acquisition and the talent's effects. */
module Talents {
  import opened Common

  /** A talent definition.  `tier` and `requiredLevel` are 0 when absent
      (the source only tests them for truthiness); an absent prerequisite
      list behaves as an empty one; `unlockSpell` is "" and `statBonuses`
      empty when the talent has no such effect. */
  datatype Talent = Talent(
    id: string,
    tier: int,
    requiredLevel: int,
    prerequisites: seq<string>,
    unlockSpell: string,
    statBonuses: seq<(Stat, int)>)

  /** `getTalent(id)`: the first definition with that id. */
  function GetTalent(talents: seq<Talent>, id: string): (r: Option<Talent>)
    ensures r.None? <==> forall i :: 0 <= i < |talents| ==> talents[i].id != id
    ensures r.Some? ==>
      r.value.id == id
      && exists k :: 0 <= k < |talents| && talents[k] == r.value
           && forall j :: 0 <= j < k ==> talents[j].id != id
  {
    if |talents| == 0 then None
    else if talents[0].id == id then Some(talents[0])
    else
      var r := GetTalent(talents[1..], id);
      assert forall i :: 0 <= i < |talents| - 1 ==> talents[1..][i] == talents[i + 1];
      r
  }

  /** `Math.floor(playerXp / (xpPerLevel || 100))` */
  function LevelOf(xp: int, xpPerLevel: int): int {
    FloorDiv(xp, if xpPerLevel == 0 then 100 else xpPerLevel)
  }

  /** Some acquired talent already holds this (non-zero) tier. */
  predicate TierHeld(talents: seq<Talent>, acquired: seq<string>, tier: int) {
    tier != 0
    && exists i :: 0 <= i < |acquired| && GetTalent(talents, acquired[i]).Some?
                   && GetTalent(talents, acquired[i]).value.tier == tier
  }

  /** Why `unlockTalent` says no, in the order the source checks. */
  datatype Refusal = UnknownOrAcquired | LevelTooLow | MissingPrerequisite | TierTaken | NoPoints

  /** The guard chain of `unlockTalent(id)`: `None` lets the unlock go
      ahead. */
  function Check(talents: seq<Talent>, acquired: seq<string>, gs: GameState, xpPerLevel: int, id: string): (r: Option<Refusal>)
    ensures r.None? <==>
      GetTalent(talents, id).Some? && id !in acquired
      && (var t := GetTalent(talents, id).value;
          (t.requiredLevel == 0 || LevelOf(gs.playerXp, xpPerLevel) >= t.requiredLevel)
          && (forall p :: p in t.prerequisites ==> p in acquired)
          && !TierHeld(talents, acquired, t.tier)
          && gs.talentPoints > 0)
    ensures r == Some(UnknownOrAcquired) <==> GetTalent(talents, id).None? || id in acquired
  {
    match GetTalent(talents, id)
    case None => Some(UnknownOrAcquired)
    case Some(t) =>
      if id in acquired then Some(UnknownOrAcquired)
      else if t.requiredLevel != 0 && LevelOf(gs.playerXp, xpPerLevel) < t.requiredLevel then Some(LevelTooLow)
      else if !(forall p :: p in t.prerequisites ==> p in acquired) then Some(MissingPrerequisite)
      else if TierHeld(talents, acquired, t.tier) then Some(Refusal.TierTaken)
      else if gs.talentPoints <= 0 then Some(NoPoints)
      else None
  }

  /** The spell list after unlocking `spell`: appended unless absent or
      already known. */
  function WithSpell(spells: seq<string>, spell: string): (r: seq<string>)
    ensures spell != "" ==> spell in r
    ensures forall s :: s in spells ==> s in r
    ensures forall s :: s in r ==> s in spells || s == spell
  {
    if spell == "" || spell in spells then spells else spells + [spell]
  }

  /** No entry appears twice. */
  predicate NoDuplicates(xs: seq<string>) {
    forall i, j :: 0 <= i < j < |xs| ==> xs[i] != xs[j]
  }

  lemma WithSpellNoDuplicates(spells: seq<string>, spell: string)
    requires NoDuplicates(spells)
    ensures NoDuplicates(WithSpell(spells, spell))
  {
  }

  /** The stats after the bonuses, applied in order, each adding to the
      current value. */
  function WithBonuses(stats: Stats, bonuses: seq<(Stat, int)>): Stats
    decreases |bonuses|
  {
    if |bonuses| == 0 then stats
    else
      var b := bonuses[|bonuses| - 1];
      var s := WithBonuses(stats, bonuses[..|bonuses| - 1]);
      s.With(b.0, s.Get(b.0) + b.1)
  }

  /** Sum of the bonuses a list grants to one stat. */
  function BonusFor(bonuses: seq<(Stat, int)>, stat: Stat): int
    decreases |bonuses|
  {
    if |bonuses| == 0 then 0
    else BonusFor(bonuses[..|bonuses| - 1], stat)
         + (if bonuses[|bonuses| - 1].0 == stat then bonuses[|bonuses| - 1].1 else 0)
  }

  /** Each stat ends up raised by exactly the bonuses listed for it. */
  lemma {:induction false} WithBonusesAdds(stats: Stats, bonuses: seq<(Stat, int)>, stat: Stat)
    ensures WithBonuses(stats, bonuses).Get(stat) == stats.Get(stat) + BonusFor(bonuses, stat)
    decreases |bonuses|
  {
    if |bonuses| > 0 {
      WithBonusesAdds(stats, bonuses[..|bonuses| - 1], stat);
    }
  }

  /** The bookkeeping the game relies on: no talent acquired twice, every
      acquired id known, and no two acquired talents sharing a tier. */
  predicate Consistent(talents: seq<Talent>, acquired: seq<string>) {
    NoDuplicates(acquired)
    && (forall i :: 0 <= i < |acquired| ==> GetTalent(talents, acquired[i]).Some?)
    && (forall i, j :: 0 <= i < j < |acquired| ==>
          GetTalent(talents, acquired[i]).value.tier == 0
          || GetTalent(talents, acquired[i]).value.tier != GetTalent(talents, acquired[j]).value.tier)
  }

  /** A permitted unlock keeps the bookkeeping consistent. */
  lemma UnlockKeepsConsistent(talents: seq<Talent>, acquired: seq<string>, gs: GameState, xpPerLevel: int, id: string)
    requires Consistent(talents, acquired)
    requires Check(talents, acquired, gs, xpPerLevel, id).None?
    ensures Consistent(talents, acquired + [id])
  {
    var after := acquired + [id];
    var t := GetTalent(talents, id).value;
    forall i, j | 0 <= i < j < |after|
      ensures GetTalent(talents, after[i]).value.tier == 0
           || GetTalent(talents, after[i]).value.tier != GetTalent(talents, after[j]).value.tier
    {
      if j == |acquired| {
        assert after[j] == id && after[i] == acquired[i];
        if GetTalent(talents, acquired[i]).value.tier == t.tier && t.tier != 0 {
          assert TierHeld(talents, acquired, t.tier);
        }
      }
    }
  }

  /** The manager with the slice of the game it reads and writes. */
  class TalentManager {
    const talents: seq<Talent>
    var acquired: seq<string>
    var gameState: GameState
    var playerSpells: seq<string>
    var playerStats: Stats
    const xpPerLevel: int

    constructor (talents: seq<Talent>, gameState: GameState, playerSpells: seq<string>,
                 playerStats: Stats, xpPerLevel: int)
      ensures this.talents == talents && acquired == []
      ensures this.gameState == gameState && this.playerSpells == playerSpells
      ensures this.playerStats == playerStats && this.xpPerLevel == xpPerLevel
    {
      this.talents := talents;
      acquired := [];
      this.gameState := gameState;
      this.playerSpells := playerSpells;
      this.playerStats := playerStats;
      this.xpPerLevel := xpPerLevel;
    }

    /** `unlockTalent(id)`: refused with no change when a guard fails;
        otherwise the id is appended, one talent point is spent, and the
        talent's spell and stat bonuses are granted. */
    method UnlockTalent(id: string) returns (ok: bool)
      modifies this`acquired, this`gameState, this`playerSpells, this`playerStats
      ensures ok <==> Check(talents, old(acquired), old(gameState), xpPerLevel, id).None?
      ensures !ok ==> unchanged(this)
      ensures ok ==>
        var t := GetTalent(talents, id).value;
        acquired == old(acquired) + [id]
        && gameState == old(gameState).(talentPoints := old(gameState).talentPoints - 1)
        && playerSpells == WithSpell(old(playerSpells), t.unlockSpell)
        && playerStats == WithBonuses(old(playerStats), t.statBonuses)
    {
      ghost var verdict := Check(talents, acquired, gameState, xpPerLevel, id);
      var found := GetTalent(talents, id);
      if found.None? || id in acquired {
        assert verdict == Some(UnknownOrAcquired);
        return false;
      }
      var t := found.value;
      var level := LevelOf(gameState.playerXp, xpPerLevel);
      if t.requiredLevel != 0 && level < t.requiredLevel {
        assert verdict == Some(LevelTooLow);
        return false;
      }
      var met := PrerequisitesMet(t.prerequisites);
      if !met {
        assert verdict == Some(MissingPrerequisite);
        return false;
      }
      var free := true;
      if t.tier != 0 {
        free := TierFree(t.tier);
      }
      if !free {
        assert verdict == Some(Refusal.TierTaken);
        return false;
      }
      if gameState.talentPoints <= 0 {
        assert verdict == Some(NoPoints);
        return false;
      }
      assert verdict.None?;
      Grant(id, t);
      return true;
    }

    /** The effects of a permitted unlock. */
    method Grant(id: string, t: Talent)
      modifies this`acquired, this`gameState, this`playerSpells, this`playerStats
      ensures acquired == old(acquired) + [id]
      ensures gameState == old(gameState).(talentPoints := old(gameState).talentPoints - 1)
      ensures playerSpells == WithSpell(old(playerSpells), t.unlockSpell)
      ensures playerStats == WithBonuses(old(playerStats), t.statBonuses)
    {
      acquired := acquired + [id];
      gameState := gameState.(talentPoints := gameState.talentPoints - 1);
      if t.unlockSpell != "" && t.unlockSpell !in playerSpells {
        playerSpells := playerSpells + [t.unlockSpell];
      }
      ApplyBonuses(t.statBonuses);
    }

    /** `prerequisites.every(isTalentUnlocked)` */
    method PrerequisitesMet(prerequisites: seq<string>) returns (met: bool)
      ensures met <==> forall p :: p in prerequisites ==> p in acquired
    {
      var i := 0;
      while i < |prerequisites|
        invariant 0 <= i <= |prerequisites|
        invariant forall k :: 0 <= k < i ==> prerequisites[k] in acquired
      {
        if prerequisites[i] !in acquired {
          return false;
        }
        i := i + 1;
      }
      return true;
    }

    /** No acquired talent holds the tier: `acquired.some(...)` negated. */
    method TierFree(tier: int) returns (free: bool)
      requires tier != 0
      ensures free <==> !TierHeld(talents, acquired, tier)
    {
      var j := 0;
      while j < |acquired|
        invariant 0 <= j <= |acquired|
        invariant forall k :: 0 <= k < j ==>
          !(GetTalent(talents, acquired[k]).Some? && GetTalent(talents, acquired[k]).value.tier == tier)
      {
        var other := GetTalent(talents, acquired[j]);
        if other.Some? && other.value.tier == tier {
          return false;
        }
        j := j + 1;
      }
      return true;
    }

    /** The `statBonuses` loop: each bonus is added to the current value. */
    method ApplyBonuses(bonuses: seq<(Stat, int)>)
      modifies this`playerStats
      ensures playerStats == WithBonuses(old(playerStats), bonuses)
    {
      var b := 0;
      while b < |bonuses|
        invariant 0 <= b <= |bonuses|
        invariant playerStats == WithBonuses(old(playerStats), bonuses[..b])
      {
        var bonus := bonuses[b];
        playerStats := playerStats.With(bonus.0, playerStats.Get(bonus.0) + bonus.1);
        assert bonuses[..b + 1][..b] == bonuses[..b];
        b := b + 1;
      }
      assert bonuses[..|bonuses|] == bonuses;
    }

    method Save() returns (saved: seq<string>)
      ensures saved == acquired
    {
      return acquired;
    }

    /** `load(data)`: `None` is missing data or a missing `acquired` list. */
    method Load(data: Option<seq<string>>)
      modifies this`acquired
      ensures acquired == if data.Some? then data.value else []
    {
      acquired := if data.Some? then data.value else [];
    }
  }

  /** Loading what was saved restores the acquired list. */
  method SaveLoadRoundTrip(m: TalentManager)
    modifies m
    ensures m.acquired == old(m.acquired)
  {
    var saved := m.Save();
    m.Load(Some(saved));
  }
}
