/**
 A unit of the game: damage arithmetic, the death sweep, and the dirty flag.

 Sprite coordinates are whole numbers, which is all the game ever stores in
 them, and damage is exact integer arithmetic.
 */
module GameUnit {

  datatype UnitData = UnitData(
    refName: string,
    isEnemy: bool,
    attack: int,
    armour: int,
    maxActionPoints: int,
    x: int,
    y: int,
    squad: int,
    health: int,
    actionPoints: int,
    dead: bool,
    changed: bool)

  /** Division of the source language: the quotient is truncated toward zero. */
  function TruncDiv(a: int, b: int): int
    requires b != 0
  {
    if a >= 0 then a / b else -((-a) / b)
  }

  function TruncMod(a: int, b: int): int
    requires b != 0
  {
    a - TruncDiv(a, b) * b
  }

  /** Damage one unit deals to another: attack times squad, less what the target's armour mitigates. */
  function DamageTo(target: UnitData, dealer: UnitData): int {
    var raw := dealer.attack * dealer.squad;
    raw - raw * TruncDiv(target.armour, 100)
  }

  /** A unit hit for some damage; with a health of 0 the division is undefined and the unit is left alone here. */
  function Hit(u: UnitData, damage: int): UnitData {
    if u.health == 0 then u
    else u.(health := u.health - TruncMod(damage, u.health), squad := u.squad - TruncDiv(damage, u.health), changed := true)
  }

  function TakeDamage(u: UnitData, dealer: UnitData): UnitData { Hit(u, DamageTo(u, dealer)) }

  const GRAVEYARD := -200

  /** What an update does to a unit: a squad with nobody left is moved off the board, once. */
  function Sweep(u: UnitData): UnitData {
    if u.squad <= 0 && !u.dead then u.(x := GRAVEYARD, y := GRAVEYARD, dead := true) else u
  }

  // ----- the object -----

  class Unit {
    var refName: string
    var isEnemy: bool
    var attack: int
    var armour: int
    var maxActionPoints: int
    var x: int
    var y: int
    var squad: int
    var health: int
    var actionPoints: int
    var dead: bool
    var changed: bool

    constructor (d: UnitData)
      ensures Abs() == d
    {
      refName, isEnemy, attack, armour, maxActionPoints := d.refName, d.isEnemy, d.attack, d.armour, d.maxActionPoints;
      x, y, squad, health, actionPoints, dead, changed := d.x, d.y, d.squad, d.health, d.actionPoints, d.dead, d.changed;
    }

    ghost function Abs(): UnitData
      reads this
    {
      UnitData(refName, isEnemy, attack, armour, maxActionPoints, x, y, squad, health, actionPoints, dead, changed)
    }

    method TakeDamageFrom(dealer: Unit)
      requires health != 0
      modifies this`health, this`squad, this`changed
      ensures Abs() == TakeDamage(old(Abs()), old(dealer.Abs()))
    {
      var raw := dealer.attack * dealer.squad;
      var mitigated := raw * TruncDiv(armour, 100);
      var damage := raw - mitigated;
      var squadDamage := TruncDiv(damage, health);
      var healthDamage := TruncMod(damage, health);
      health := health - healthDamage;
      squad := squad - squadDamage;
      changed := true;
    }

    method Update()
      modifies this`x, this`y, this`dead
      ensures Abs() == Sweep(old(Abs()))
    {
      if squad <= 0 && !dead {
        x := GRAVEYARD;
        y := GRAVEYARD;
        dead := true;
      }
    }

    method ReduceActionPoints(reduction: int)
      modifies this`actionPoints
      ensures Abs() == old(Abs()).(actionPoints := old(actionPoints) - reduction)
    {
      actionPoints := actionPoints - reduction;
    }

    method ResetActionPoints()
      modifies this`actionPoints
      ensures Abs() == old(Abs()).(actionPoints := maxActionPoints)
    {
      actionPoints := maxActionPoints;
    }
  }

  /** Sweeping takes a unit with nobody left off the board and marks it dead; nothing else changes, and doing it again does nothing. */
  lemma SweepOnce(u: UnitData)
    ensures var v := Sweep(u);
            && v.dead == (u.dead || u.squad <= 0)
            && v == u.(x := v.x, y := v.y, dead := v.dead)
            && (if v.dead && !u.dead then v.x < -117 && v.y < -117 else v == u)
            && Sweep(v) == v
  {
  }

  // ----- one hit -----

  /** The damage is never of the opposite sign to the attacker's squad. */
  lemma DamageSign(target: UnitData, dealer: UnitData)
    requires 0 <= target.armour < 200 && dealer.attack >= 0
    ensures dealer.squad >= 0 ==> DamageTo(target, dealer) >= 0
    ensures dealer.squad <= 0 ==> DamageTo(target, dealer) <= 0
  {
    var k := TruncDiv(target.armour, 100);
    assert k == 0 || k == 1;
    var raw := dealer.attack * dealer.squad;
    assert DamageTo(target, dealer) == if k == 0 then raw else 0;
  }

  /** Mitigation by whole hundreds: armour below a hundred is worth nothing, and from a hundred on it stops everything. */
  lemma ArmourStops(target: UnitData, dealer: UnitData)
    requires 0 <= target.armour < 200
    ensures target.armour < 100 ==> DamageTo(target, dealer) == dealer.attack * dealer.squad
    ensures target.armour >= 100 ==> DamageTo(target, dealer) == 0
  {
    var k := TruncDiv(target.armour, 100);
    assert k == if target.armour < 100 then 0 else 1;
  }

  /** Quotient and remainder of a damage, for a positive health. */
  lemma Parts(damage: int, health: int)
    requires health >= 1
    ensures damage == TruncDiv(damage, health) * health + TruncMod(damage, health)
    ensures damage >= 0 ==> TruncDiv(damage, health) >= 0 && 0 <= TruncMod(damage, health) < health
    ensures damage <= 0 ==> TruncDiv(damage, health) <= 0 && -health < TruncMod(damage, health) <= 0
  {
  }

  /** Health per soldier stays at least 1 under any hit whatever, so no hit ever divides by zero. */
  lemma HitKeepsHealth(u: UnitData, damage: int)
    requires u.health >= 1
    ensures Hit(u, damage).health >= 1
    ensures damage <= 0 ==> Hit(u, damage).squad >= u.squad
    ensures damage >= 0 ==> Hit(u, damage).squad <= u.squad
  {
    Parts(damage, u.health);
  }

  /**
   What a hit takes adds up to the damage: whole soldiers, each with a full health,
   and from the health of the others less than one soldier's.
   */
  lemma DamageAccounted(u: UnitData, damage: int)
    requires u.health >= 1
    ensures var v := Hit(u, damage);
            && u.health * (u.squad - v.squad) + (u.health - v.health) == damage
            && (damage >= 0 ==> 1 <= v.health <= u.health)
            && (damage <= 0 ==> u.health <= v.health < 2 * u.health)
  {
    Parts(damage, u.health);
  }

  /** A hit wipes the squad out exactly when the damage covers everybody's health. */
  lemma WipedExactly(u: UnitData, damage: int)
    requires u.health >= 1 && damage >= 0
    ensures Hit(u, damage).squad <= 0 <==> damage >= u.health * u.squad
  {
    Parts(damage, u.health);
    var q, r := TruncDiv(damage, u.health), TruncMod(damage, u.health);
    if q >= u.squad {
      assert u.health * q >= u.health * u.squad;
    } else {
      assert u.health * (q + 1) <= u.health * u.squad;
      assert u.health * (q + 1) == q * u.health + u.health;
    }
  }

  /** A squad that survives a hit loses at least the damage from its total health. */
  lemma SurvivorLosesDamage(u: UnitData, damage: int)
    requires u.health >= 1 && damage >= 0 && Hit(u, damage).squad > 0
    ensures Hit(u, damage).health * Hit(u, damage).squad <= u.health * u.squad - damage
  {
    Parts(damage, u.health);
    var q, r := TruncDiv(damage, u.health), TruncMod(damage, u.health);
    var s := u.squad - q;
    assert (u.health - r) * s == u.health * s - r * s;
    assert u.health * s == u.health * u.squad - q * u.health;
    assert r * s >= r;
  }

  /** Every damaging hit costs health or soldiers. */
  lemma DamagingHitCosts(u: UnitData, damage: int)
    requires u.health >= 1 && damage > 0
    ensures Hit(u, damage).health + Hit(u, damage).squad < u.health + u.squad
  {
    Parts(damage, u.health);
    var q, r := TruncDiv(damage, u.health), TruncMod(damage, u.health);
    assert q == 0 ==> q * u.health == 0;
  }

  // ----- any sequence of hits -----

  function HitAll(u: UnitData, damages: seq<int>): UnitData
    decreases |damages|
  {
    if damages == [] then u else HitAll(Hit(u, damages[0]), damages[1..])
  }

  predicate NonNegative(damages: seq<int>) { forall i :: 0 <= i < |damages| ==> damages[i] >= 0 }

  function Total(damages: seq<int>): int {
    if damages == [] then 0 else damages[0] + Total(damages[1..])
  }

  function Damaging(damages: seq<int>): nat {
    if damages == [] then 0 else (if damages[0] > 0 then 1 else 0) + Damaging(damages[1..])
  }

  /** A wiped squad stays wiped. */
  lemma {:induction false} StaysWiped(u: UnitData, damages: seq<int>)
    requires u.health >= 1 && NonNegative(damages)
    ensures HitAll(u, damages).health >= 1 && HitAll(u, damages).squad <= u.squad
    decreases |damages|
  {
    if damages != [] {
      HitKeepsHealth(u, damages[0]);
      StaysWiped(Hit(u, damages[0]), damages[1..]);
    }
  }

  /**
   Over any sequence of hits: health stays positive; a squad that survives has
   taken at most its initial total health less its final one; and the damaging
   hits among them are bounded by the drop in health plus squad.
   */
  lemma {:induction false} SurvivesHits(u: UnitData, damages: seq<int>)
    requires u.health >= 1 && NonNegative(damages)
    ensures var v := HitAll(u, damages);
            && v.health >= 1
            && (v.squad > 0 ==> Total(damages) + v.health * v.squad <= u.health * u.squad)
            && (v.squad > 0 ==> Damaging(damages) + v.health + v.squad <= u.health + u.squad)
    decreases |damages|
  {
    if damages != [] {
      var u1 := Hit(u, damages[0]);
      HitKeepsHealth(u, damages[0]);
      StaysWiped(u1, damages[1..]);
      SurvivesHits(u1, damages[1..]);
      if HitAll(u, damages).squad > 0 {
        SurvivorLosesDamage(u, damages[0]);
        if damages[0] > 0 {
          DamagingHitCosts(u, damages[0]);
        }
      }
    }
  }

  /** So enough damage in total wipes a squad out however it is dealt, and so do enough damaging hits. */
  lemma EnoughDamageWipes(u: UnitData, damages: seq<int>)
    requires u.health >= 1 && u.squad >= 1 && NonNegative(damages)
    requires Total(damages) >= u.health * u.squad || Damaging(damages) >= u.health + u.squad - 1
    ensures HitAll(u, damages).squad <= 0
  {
    SurvivesHits(u, damages);
    var v := HitAll(u, damages);
    assert v.squad > 0 ==> v.health * v.squad >= 1;
  }
}
