/** The weapon catalogue of js/weaponManager.js: lookup by id with a
    built-in bare-fists fallback, and the strength filter. */
module Weapons {
  import opened Common

  /** A weapon definition; a missing `strengthRequirement` reads as 0, which
      the filter treats exactly like a missing one. */
  datatype Weapon = Weapon(id: string, name: string, damage: int, strengthRequirement: int)

  /** The weapon `getWeapon('fists')` makes up when none is loaded. */
  const BuiltInFists: Weapon := Weapon("fists", "Fists", 1, 0)

  /** `weapons.find(w => w.id === id)` */
  function FindWeapon(weapons: seq<Weapon>, id: string): (r: Option<Weapon>)
    ensures r.None? <==> forall i :: 0 <= i < |weapons| ==> weapons[i].id != id
    ensures r.Some? ==> exists k :: 0 <= k < |weapons| && weapons[k] == r.value && r.value.id == id
                                    && forall j :: 0 <= j < k ==> weapons[j].id != id
  {
    if |weapons| == 0 then None
    else if weapons[0].id == id then Some(weapons[0])
    else
      var r := FindWeapon(weapons[1..], id);
      assert forall i :: 0 <= i < |weapons| - 1 ==> weapons[1..][i] == weapons[i + 1];
      r
  }

  /** `getWeapon(id)`: the first loaded weapon with that id; for "fists"
      the built-in one when none is loaded; otherwise nothing. */
  function GetWeapon(weapons: seq<Weapon>, id: string): (r: Option<Weapon>)
    ensures FindWeapon(weapons, id).Some? ==> r == FindWeapon(weapons, id)
    ensures FindWeapon(weapons, id).None? && id == "fists" ==> r == Some(BuiltInFists)
    ensures FindWeapon(weapons, id).None? && id != "fists" ==> r == None
    ensures r.Some? ==> r.value.id == id
  {
    match FindWeapon(weapons, id)
    case Some(w) => Some(w)
    case None => if id == "fists" then Some(BuiltInFists) else None
  }

  /** Whether a weapon's strength requirement is met by an attack stat. */
  predicate Wieldable(w: Weapon, strength: int) {
    w.strengthRequirement == 0 || strength >= w.strengthRequirement
  }

  /** `getAvailableWeapons(stats)`: the weapons with no requirement or one
      the attack stat meets. */
  function GetAvailableWeapons(weapons: seq<Weapon>, stats: Stats): (r: seq<Weapon>)
    ensures |r| <= |weapons|
    ensures forall w :: w in r <==> w in weapons && Wieldable(w, stats.attack)
  {
    if |weapons| == 0 then []
    else
      assert weapons == [weapons[0]] + weapons[1..];
      (if Wieldable(weapons[0], stats.attack) then [weapons[0]] else [])
      + GetAvailableWeapons(weapons[1..], stats)
  }

  /** The filter keeps the catalogue's order. */
  lemma {:induction false} GetAvailableWeaponsAppend(a: seq<Weapon>, b: seq<Weapon>, stats: Stats)
    ensures GetAvailableWeapons(a + b, stats) == GetAvailableWeapons(a, stats) + GetAvailableWeapons(b, stats)
  {
    if |a| == 0 {
      assert a + b == b;
    } else {
      assert (a + b)[0] == a[0];
      assert (a + b)[1..] == a[1..] + b;
      GetAvailableWeaponsAppend(a[1..], b, stats);
    }
  }

  /** Raising attack never removes a weapon from the available list, and
      never shortens it. */
  lemma {:induction false} AvailableGrowsWithAttack(weapons: seq<Weapon>, s1: Stats, s2: Stats)
    requires s1.attack <= s2.attack
    ensures forall w :: w in GetAvailableWeapons(weapons, s1) ==> w in GetAvailableWeapons(weapons, s2)
    ensures |GetAvailableWeapons(weapons, s1)| <= |GetAvailableWeapons(weapons, s2)|
  {
    if |weapons| > 0 {
      AvailableGrowsWithAttack(weapons[1..], s1, s2);
    }
  }
}
