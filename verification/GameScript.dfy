/**
 Games given by the points of the screen the players press: what selecting,
 moving and attacking do, and how presses, frames and passed turns add up to a
 run in which every click is one the player can make.
 */
module GameScript {
  import opened Wrappers
  import opened GameUnit
  import opened GameClient
  import opened GameWorld
  import opened GamePlay
  import opened GameHops
  import opened GameTurns
  import opened GameBoard

  // ----- one click -----

  predicate Over(p: Spot, u: UnitData) { u.x <= p.x <= u.x + SPRITE_SIZE && u.y <= p.y <= u.y + SPRITE_SIZE }

  /** A client that may act, with the units of the two teams where they belong. */
  predicate Acting(c: Client, s: Side) {
    && Sized(c) && InSeat(c, s) && c.turn == Role(s)
    && forall i :: 0 <= i < UNIT_COUNT ==> c.units[i].isEnemy == (i < 4)
  }

  /** Only unit k is selected; none if there is no such unit. */
  function Alone(k: int): (r: seq<bool>)
    ensures |r| == UNIT_COUNT
  {
    seq(UNIT_COUNT, i => i == k)
  }

  predicate OffButton(p: Spot) { OnScreen(p) && !InArea(p, Spot(0, 0), BUTTON) }

  function FirstOf(s: Side): int { if s == One then 0 else 4 }

  predicate NoneUnder(units: seq<UnitData>, p: Spot) { forall i :: 0 <= i < |units| ==> !Over(p, units[i]) }

  /** No unit of a team under a point. */
  predicate NoneOf(units: seq<UnitData>, t: int, p: Spot) { forall i :: t <= i < t + 4 && 0 <= i < |units| ==> !Over(p, units[i]) }

  /** Which unit is selected once units a and b have been tried in turn. */
  function Tried(units: seq<UnitData>, p: Spot, a: int, b: int, j: int): int
    requires |units| == UNIT_COUNT && 0 <= a < UNIT_COUNT && 0 <= b < UNIT_COUNT
  {
    if Over(p, units[b]) then b else if Over(p, units[a]) then a else j
  }

  /** The last of the units of a team under a point, in the order infantry, tank, sniper, artillery. */
  function LastTried(units: seq<UnitData>, t: int, p: Spot, j: int): int
    requires |units| == UNIT_COUNT && (t == 0 || t == 4)
  {
    Tried(units, p, t + 1, t + 2, Tried(units, p, t, t + 3, j))
  }

  lemma {:induction false} NoTargets(units: seq<UnitData>, click: Click, dealer: UnitData, n: nat)
    requires n <= |units| && forall i :: 0 <= i < n ==> !IsTarget(units, click, dealer, i)
    ensures Targets(units, click, dealer, n) == 0
  {
    if n > 0 {
      NoTargets(units, click, dealer, n - 1);
    }
  }

  /** An attack that finds no opponent under the click changes nothing. */
  lemma IdleAttack(c: Client, click: Click, k: int)
    requires Sized(c) && 0 <= k < UNIT_COUNT && forall i :: 0 <= i < UNIT_COUNT ==> !IsTarget(c.units, click, c.units[k], i)
    ensures Attacked(c, click, k) == c
  {
    NoTargets(c.units, click, c.units[k], UNIT_COUNT);
    assert Attacked(c, click, k).units == c.units;
  }

  /** Nor does one with nothing selected, or with only units of the click's own team. */
  lemma AttackNobody(c: Client, s: Side, click: Click, t: int, j: int)
    requires Acting(c, s) && (t == 0 || t == 4) && c.selected == Alone(j) && (0 <= j < UNIT_COUNT ==> Owner(j) == Role(s))
    requires forall i :: 0 <= i < UNIT_COUNT && Owner(i) != Role(s) ==> !MouseOn(click, c.units[i])
    ensures AttackFirst(c, click, t) == c
  {
    assert forall i :: t <= i < t + 4 && CanAttack(c, click, i) ==> i == j;
    if t <= j < t + 4 && CanAttack(c, click, j) {
      IdleAttack(c, click, j);
    }
  }

  /** The flags after unit i of a team is tried. */
  function TriedAt(selected: seq<bool>, units: seq<UnitData>, p: Spot, t: int, i: int): (r: seq<bool>)
    requires |selected| == |units| == UNIT_COUNT && (t == 0 || t == 4) && t <= i < t + 4
    ensures |r| == UNIT_COUNT
  {
    if Over(p, units[i]) then Toggled(selected, t, i) else selected
  }

  lemma TriedOne(units: seq<UnitData>, p: Spot, t: int, i: int, j: int)
    requires |units| == UNIT_COUNT && (t == 0 || t == 4) && t <= i < t + 4
    requires (0 <= j < UNIT_COUNT ==> t <= j < t + 4) && (Over(p, units[i]) ==> i != j)
    ensures TriedAt(Alone(j), units, p, t, i) == Alone(if Over(p, units[i]) then i else j)
  {
  }

  lemma TeamTries(c: Client, p: Spot, click: Click, t: int)
    requires Sized(c) && (t == 0 || t == 4) && click.x == p.x && click.y == p.y
    ensures var s1 := TriedAt(c.selected, c.units, p, t, t);
            var s2 := TriedAt(s1, c.units, p, t, t + 3);
            var s3 := TriedAt(s2, c.units, p, t, t + 1);
            ToggleTeam(c, click, t) == c.(selected := TriedAt(s3, c.units, p, t, t + 2))
  {
    assert forall i :: 0 <= i < UNIT_COUNT ==> (MouseOn(click, c.units[i]) <==> Over(p, c.units[i]));
  }

  /** No unit but those of one team, and of these none under the point, is selected. */
  predicate Fresh(units: seq<UnitData>, t: int, p: Spot, j: int)
    requires |units| == UNIT_COUNT && (t == 0 || t == 4)
  {
    0 <= j < UNIT_COUNT ==> t <= j < t + 4 && !Over(p, units[j])
  }

  lemma ToggleLast(c: Client, p: Spot, click: Click, t: int, j: int)
    requires Sized(c) && (t == 0 || t == 4) && click.x == p.x && click.y == p.y && c.selected == Alone(j)
    requires Fresh(c.units, t, p, j)
    ensures ToggleTeam(c, click, t) == c.(selected := Alone(LastTried(c.units, t, p, j)))
  {
    TeamTries(c, p, click, t);
    TriesEnd(c.units, p, t, j);
  }

  lemma TriesEnd(units: seq<UnitData>, p: Spot, t: int, j: int)
    requires |units| == UNIT_COUNT && (t == 0 || t == 4) && Fresh(units, t, p, j)
    ensures var s1 := TriedAt(Alone(j), units, p, t, t);
            var s2 := TriedAt(s1, units, p, t, t + 3);
            var s3 := TriedAt(s2, units, p, t, t + 1);
            TriedAt(s3, units, p, t, t + 2) == Alone(LastTried(units, t, p, j))
  {
    TriedOne(units, p, t, t, j);
    var j1 := if Over(p, units[t]) then t else j;
    TriedOne(units, p, t, t + 3, j1);
    var j2 := Tried(units, p, t, t + 3, j);
    TriedOne(units, p, t, t + 1, j2);
    var j3 := if Over(p, units[t + 1]) then t + 1 else j2;
    TriedOne(units, p, t, t + 2, j3);
  }

  /** Pressing on units of one's own: the last one tried is selected, if none of them was. */
  lemma SelectStep(c: Client, shown: Highlights, s: Side, p: Spot, j: int)
    requires Acting(c, s) && OffButton(p) && c.selected == Alone(j) && Fresh(c.units, FirstOf(s), p, j)
    requires NoneOf(c.units, FirstOf(Other(s)), p) && !NoneUnder(c.units, p)
    ensures HandleClick(c, ClickAt(shown, p)) == c.(selected := Alone(LastTried(c.units, FirstOf(s), p, j)))
  {
    var click := ClickAt(shown, p);
    assert forall i :: 0 <= i < UNIT_COUNT ==> (MouseOn(click, c.units[i]) <==> Over(p, c.units[i]));
    AttackNobody(c, s, click, 0, j);
    AttackNobody(c, s, click, 4, j);
    assert AttackClickedUnit(c, click) == c && PlaceUnitAtClick(c, click) == c;
    ToggleLast(c, p, click, FirstOf(s), j);
  }

  function MovedTo(u: UnitData, p: Spot): UnitData {
    u.(x := Snapped(p).x, y := Snapped(p).y, actionPoints := u.actionPoints - 1, changed := true)
  }

  lemma TeamMoves(c: Client, click: Click, t: int, k: int)
    requires Sized(c) && (t == 0 || t == 4) && c.selected == Alone(k)
    requires t <= k < t + 4 ==> CanMove(c, click, k)
    ensures MoveFirst(c, click, t) == if t <= k < t + 4 then Moved(c, click, k) else c
  {
    assert forall i :: t <= i < t + 4 ==> (CanMove(c, click, i) <==> i == k);
  }

  lemma ToggleNone(c: Client, click: Click, t: int)
    requires Sized(c) && (t == 0 || t == 4) && forall i :: t <= i < t + 4 ==> !MouseOn(click, c.units[i])
    ensures ToggleTeam(c, click, t) == c
  {
  }

  lemma ToggleOff(c: Client, p: Spot, click: Click, t: int, k: int)
    requires Sized(c) && (t == 0 || t == 4) && t <= k < t + 4 && c.selected == Alone(k) && click.x == p.x && click.y == p.y
    requires forall i :: t <= i < t + 4 ==> (Over(p, c.units[i]) <==> i == k)
    ensures ToggleTeam(c, click, t) == c.(selected := Alone(-1))
  {
    TeamTries(c, p, click, t);
    assert Toggled(c.selected, t, k) == Alone(-1);
  }

  /** Pressing on an empty spot in the move highlight: the unit goes there, and is deselected unless the press fell in a gap between cells. */
  lemma MoveStep(c: Client, shown: Highlights, s: Side, k: int, p: Spot)
    requires Acting(c, s) && OffButton(p) && 0 <= k < UNIT_COUNT && Owner(k) == Role(s) && c.selected == Alone(k)
    requires NoneUnder(c.units, p) && InArea(p, shown[k], MoveArea(k)) && c.units[k].actionPoints > 0 && 40 < p.x < 1200
    ensures var u := MovedTo(c.units[k], p);
            HandleClick(c, ClickAt(shown, p)) == c.(units := c.units[k := u], selected := Alone(if Over(p, u) then -1 else k))
  {
    var click := ClickAt(shown, p);
    var c2 := c.(units := c.units[k := MovedTo(c.units[k], p)]);
    MovePlaces(c, click, k);
    assert PlaceUnitAtClick(c, click) == c2;
    AttackNobody(c2, s, click, 0, k);
    AttackNobody(c2, s, click, 4, k);
    AfterMove(c2, s, p, click, k);
  }

  lemma MovePlaces(c: Client, click: Click, k: int)
    requires Sized(c) && 0 <= k < UNIT_COUNT && c.selected == Alone(k) && CanMove(c, click, k)
    ensures MoveFirst(MoveFirst(c, click, 0), click, 4) == Moved(c, click, k)
  {
    TeamMoves(c, click, 0, k);
    TeamMoves(if k < 4 then Moved(c, click, k) else c, click, 4, k);
  }

  lemma AfterMove(c: Client, s: Side, p: Spot, click: Click, k: int)
    requires click.x == p.x && click.y == p.y && Acting(c, s) && 0 <= k < UNIT_COUNT && Owner(k) == Role(s) && c.selected == Alone(k)
    requires forall i :: 0 <= i < UNIT_COUNT && i != k ==> !MouseOn(click, c.units[i])
    ensures SetSelected(c, click) == c.(selected := Alone(if MouseOn(click, c.units[k]) then -1 else k))
  {
    if MouseOn(click, c.units[k]) {
      ToggleOff(c, p, click, FirstOf(s), k);
    } else {
      ToggleNone(c, click, FirstOf(s));
    }
  }

  lemma TeamAttacks(c: Client, click: Click, t: int, k: int)
    requires Sized(c) && (t == 0 || t == 4) && c.selected == Alone(k)
    requires t <= k < t + 4 ==> CanAttack(c, click, k)
    ensures AttackFirst(c, click, t) == if t <= k < t + 4 then Attacked(c, click, k) else c
  {
    assert forall i :: t <= i < t + 4 ==> (CanAttack(c, click, i) <==> i == k);
  }

  lemma AttackPicks(c: Client, click: Click, k: int)
    requires Sized(c) && 0 <= k < UNIT_COUNT && c.selected == Alone(k) && CanAttack(c, click, k)
    ensures AttackFirst(AttackFirst(c, click, 0), click, 4) == Attacked(c, click, k)
  {
    TeamAttacks(c, click, 0, k);
    TeamAttacks(if k < 4 then Attacked(c, click, k) else c, click, 4, k);
  }

  function Blow(u: UnitData, dealer: UnitData, p: Spot): UnitData {
    if Over(p, u) && dealer.isEnemy != u.isEnemy then TakeDamage(u, dealer) else u
  }

  /** How many opponents of unit k are under a point. */
  function Opponents(units: seq<UnitData>, k: int, p: Spot): nat
    requires |units| == UNIT_COUNT && 0 <= k < UNIT_COUNT
  {
    |set i | 0 <= i < UNIT_COUNT && Over(p, units[i]) && units[i].isEnemy != units[k].isEnemy|
  }

  /** After an attack: every opponent under the point has been hit, and the attacker has paid two points for each. */
  predicate Struck(units: seq<UnitData>, units': seq<UnitData>, k: int, p: Spot)
    requires |units| == |units'| == UNIT_COUNT && 0 <= k < UNIT_COUNT
  {
    && (forall i {:trigger Blow(units[i], units[k], p)} :: 0 <= i < UNIT_COUNT && i != k ==> units'[i] == Blow(units[i], units[k], p))
    && units'[k] == units[k].(actionPoints := units[k].actionPoints - 2 * Opponents(units, k, p))
  }

  lemma {:induction false} TargetsCount(units: seq<UnitData>, click: Click, dealer: UnitData, n: nat)
    requires n <= |units|
    ensures Targets(units, click, dealer, n) == |set i | 0 <= i < n && MouseOn(click, units[i]) && dealer.isEnemy != units[i].isEnemy|
  {
    if n > 0 {
      TargetsCount(units, click, dealer, n - 1);
      var before := set i | 0 <= i < n - 1 && MouseOn(click, units[i]) && dealer.isEnemy != units[i].isEnemy;
      var all := set i | 0 <= i < n && MouseOn(click, units[i]) && dealer.isEnemy != units[i].isEnemy;
      assert all == if IsTarget(units, click, dealer, n - 1) then before + {n - 1} else before;
    }
  }

  lemma OpponentsAre(units: seq<UnitData>, click: Click, k: int, p: Spot)
    requires |units| == UNIT_COUNT && 0 <= k < UNIT_COUNT && click.x == p.x && click.y == p.y
    ensures Targets(units, click, units[k], UNIT_COUNT) == Opponents(units, k, p)
  {
    TargetsCount(units, click, units[k], UNIT_COUNT);
    assert (set i | 0 <= i < UNIT_COUNT && MouseOn(click, units[i]) && units[k].isEnemy != units[i].isEnemy)
        == (set i | 0 <= i < UNIT_COUNT && Over(p, units[i]) && units[i].isEnemy != units[k].isEnemy);
  }

  lemma AttackedStruck(c: Client, click: Click, k: int, p: Spot)
    requires Sized(c) && 0 <= k < UNIT_COUNT && click.x == p.x && click.y == p.y && !Over(p, c.units[k])
    ensures var r := Attacked(c, click, k); r == c.(units := r.units) && Struck(c.units, r.units, k, p)
  {
    OpponentsAre(c.units, click, k, p);
  }

  /** Pressing on opponents in the attack highlight. */
  lemma AttackStep(c: Client, shown: Highlights, s: Side, k: int, p: Spot)
    requires Acting(c, s) && OffButton(p) && 0 <= k < UNIT_COUNT && Owner(k) == Role(s) && c.selected == Alone(k)
    requires NoneOf(c.units, FirstOf(s), p) && !NoneUnder(c.units, p)
    requires InArea(p, shown[k], AttackArea(k)) && c.units[k].actionPoints >= 2 && 40 < p.x < 1200
    ensures var r := HandleClick(c, ClickAt(shown, p)); r == c.(units := r.units) && Struck(c.units, r.units, k, p)
  {
    var click := ClickAt(shown, p);
    assert forall i :: 0 <= i < UNIT_COUNT ==> (MouseOn(click, c.units[i]) <==> Over(p, c.units[i]));
    AttackPicks(c, click, k);
    AttackedStruck(c, click, k, p);
    var c3 := Attacked(c, click, k);
    AttackKeepsPlace(c, click, k, FirstOf(s));
    ToggleNone(c3, click, FirstOf(s));
  }

  // ----- presses that do nothing -----

  lemma CannotMove(c: Client, click: Click, k: int, t: int)
    requires Sized(c) && (t == 0 || t == 4) && c.selected == Alone(k) && (t <= k < t + 4 ==> !CanMove(c, click, k))
    ensures MoveFirst(c, click, t) == c
  {
    assert forall i :: t <= i < t + 4 && CanMove(c, click, i) ==> i == k;
  }

  lemma CannotAttack(c: Client, click: Click, k: int, t: int)
    requires Sized(c) && (t == 0 || t == 4) && c.selected == Alone(k) && (t <= k < t + 4 ==> !CanAttack(c, click, k))
    ensures AttackFirst(c, click, t) == c
  {
    assert forall i :: t <= i < t + 4 && CanAttack(c, click, i) ==> i == k;
  }

  /** Pressing on an empty spot does nothing without a point to spend, or outside the unit's move highlight, or off the board. */
  lemma MoveRefused(c: Client, shown: Highlights, s: Side, k: int, p: Spot)
    requires Acting(c, s) && OffButton(p) && 0 <= k < UNIT_COUNT && c.selected == Alone(k) && NoneUnder(c.units, p)
    requires c.units[k].actionPoints <= 0 || !InArea(p, shown[k], MoveArea(k)) || !(40 < p.x < 1200)
    ensures HandleClick(c, ClickAt(shown, p)) == c
  {
    var click := ClickAt(shown, p);
    assert forall i :: 0 <= i < UNIT_COUNT ==> !MouseOn(click, c.units[i]);
    CannotMove(c, click, k, 0);
    CannotMove(c, click, k, 4);
    ToggleNone(c, click, FirstOf(s));
  }

  /** Pressing on opponents does nothing without two points to spend, or outside the unit's attack highlight, or off the board. */
  lemma AttackRefused(c: Client, shown: Highlights, s: Side, k: int, p: Spot)
    requires Acting(c, s) && OffButton(p) && 0 <= k < UNIT_COUNT && c.selected == Alone(k)
    requires NoneOf(c.units, FirstOf(s), p) && !NoneUnder(c.units, p)
    requires c.units[k].actionPoints < 2 || !InArea(p, shown[k], AttackArea(k)) || !(40 < p.x < 1200)
    ensures HandleClick(c, ClickAt(shown, p)) == c
  {
    var click := ClickAt(shown, p);
    assert forall i :: 0 <= i < UNIT_COUNT ==> (MouseOn(click, c.units[i]) <==> Over(p, c.units[i]));
    CannotAttack(c, click, k, 0);
    CannotAttack(c, click, k, 4);
    ToggleNone(c, click, FirstOf(s));
  }

  /** With nothing selected a press off the button changes no unit. */
  lemma UnselectedStays(c: Client, shown: Highlights, s: Side, p: Spot)
    requires Acting(c, s) && OffButton(p) && c.selected == Alone(-1)
    ensures HandleClick(c, ClickAt(shown, p)).units == c.units
  {
    var click := ClickAt(shown, p);
    CannotMove(c, click, -1, 0);
    CannotMove(c, click, -1, 4);
    CannotAttack(c, click, -1, 0);
    CannotAttack(c, click, -1, 4);
    assert AttackClickedUnit(PlaceUnitAtClick(c, click), click) == c;
  }

  lemma AttackKeepsPlace(c: Client, click: Click, k: int, t: int)
    requires Sized(c) && 0 <= k < UNIT_COUNT && (t == 0 || t == 4)
    requires forall i :: t <= i < t + 4 ==> !MouseOn(click, c.units[i])
    ensures forall i :: t <= i < t + 4 ==> !MouseOn(click, Attacked(c, click, k).units[i])
  {
  }

  /** The damage of a hit by quotient and remainder, for armour too thin to count. */
  lemma BlowIs(u: UnitData, dealer: UnitData, q: int, r: int)
    requires u.health > 0 && 0 <= u.armour < 100 && dealer.attack * dealer.squad == q * u.health + r
    requires if dealer.attack * dealer.squad >= 0 then 0 <= r < u.health else -u.health < r <= 0
    ensures TakeDamage(u, dealer) == u.(squad := u.squad - q, health := u.health - r, changed := true)
  {
    var damage := dealer.attack * dealer.squad;
    assert TruncDiv(u.armour, 100) == 0;
    assert damage * 0 == 0;
    assert DamageTo(u, dealer) == damage;
    QuotientIs(damage, u.health, q, r);
  }

  /** What one hit of an attack does, and what it spares. */
  lemma Hits(units: seq<UnitData>, units': seq<UnitData>, k: int, p: Spot, i: int, q: int, r: int)
    requires |units| == |units'| == UNIT_COUNT && 0 <= k < UNIT_COUNT && Struck(units, units', k, p)
    requires 0 <= i < UNIT_COUNT && Over(p, units[i]) && units[k].isEnemy != units[i].isEnemy
    requires units[i].health > 0 && 0 <= units[i].armour < 100 && units[k].attack * units[k].squad == q * units[i].health + r
    requires if units[k].attack * units[k].squad >= 0 then 0 <= r < units[i].health else -units[i].health < r <= 0
    ensures units'[i] == units[i].(squad := units[i].squad - q, health := units[i].health - r, changed := true)
  {
    assert units'[i] == Blow(units[i], units[k], p);
    BlowIs(units[i], units[k], q, r);
  }

  lemma Spares(units: seq<UnitData>, units': seq<UnitData>, k: int, p: Spot, i: int)
    requires |units| == |units'| == UNIT_COUNT && 0 <= k < UNIT_COUNT && Struck(units, units', k, p)
    requires 0 <= i < UNIT_COUNT && i != k && !Over(p, units[i])
    ensures units'[i] == units[i]
  {
    assert units'[i] == Blow(units[i], units[k], p);
  }

  lemma QuotientIs(a: int, b: int, q: int, r: int)
    requires b > 0 && a == q * b + r && if a >= 0 then 0 <= r < b else -b < r <= 0
    ensures TruncDiv(a, b) == q && TruncMod(a, b) == r
  {
    if a >= 0 {
      Divides(a, b, q, r);
    } else {
      assert -a == (-q) * b + (-r);
      Divides(-a, b, -q, -r);
    }
  }

  lemma Divides(a: int, b: int, q: int, r: int)
    requires b > 0 && a == q * b + r && 0 <= r < b
    ensures a / b == q
  {
    var d := a / b - q;
    assert d * b == r - a % b;
    if d != 0 {
      Larger(d, b);
      assert false;
    }
  }

  lemma Larger(d: int, b: int)
    requires d != 0 && b > 0
    ensures d * b >= b || d * b <= -b
  {
  }

  // ----- several clicks of one turn -----

  /** The client after its player has pressed at some points, with the highlights where they are. */
  function After(c: Client, shown: Highlights, ps: seq<Spot>): (r: Client)
    requires Sized(c)
    ensures Sized(r)
  {
    if ps == [] then c else HandleClick(After(c, shown, ps[..|ps| - 1]), ClickAt(shown, ps[|ps| - 1]))
  }

  lemma AfterOne(c: Client, shown: Highlights, ps: seq<Spot>, p: Spot)
    requires Sized(c)
    ensures After(c, shown, ps + [p]) == HandleClick(After(c, shown, ps), ClickAt(shown, p))
  {
    assert (ps + [p])[..|ps + [p]| - 1] == ps;
  }

  predicate AllOff(ps: seq<Spot>) { forall i :: 0 <= i < |ps| ==> OffButton(ps[i]) }

  /** Pressing at p while unit j is selected, if any, selects unit k. */
  predicate Selects(units: seq<UnitData>, s: Side, p: Spot, j: int, k: int)
    requires |units| == UNIT_COUNT
  {
    && OffButton(p) && Fresh(units, FirstOf(s), p, j) && NoneOf(units, FirstOf(Other(s)), p)
    && FirstOf(s) <= k < FirstOf(s) + 4 && Over(p, units[k]) && LastTried(units, FirstOf(s), p, j) == k
  }

  predicate Moves(units: seq<UnitData>, shown: Highlights, k: int, p: Spot)
    requires |units| == UNIT_COUNT && 0 <= k < UNIT_COUNT
  {
    OffButton(p) && NoneUnder(units, p) && InArea(p, shown[k], MoveArea(k)) && units[k].actionPoints > 0 && 40 < p.x < 1200
  }

  predicate Attacks(units: seq<UnitData>, shown: Highlights, s: Side, k: int, p: Spot)
    requires |units| == UNIT_COUNT && 0 <= k < UNIT_COUNT
  {
    && OffButton(p) && NoneOf(units, FirstOf(s), p) && !NoneUnder(units, p)
    && InArea(p, shown[k], AttackArea(k)) && units[k].actionPoints >= 2 && 40 < p.x < 1200
  }

  /** A client in the middle of its turn: this table, and unit j selected, if any. */
  predicate Turning(c: Client, s: Side, units: seq<UnitData>, j: int) {
    Acting(c, s) && c.units == units && c.selected == Alone(j)
  }

  lemma Select(c: Client, shown: Highlights, ps: seq<Spot>, s: Side, j: int, k: int, p: Spot)
    requires Sized(c) && AllOff(ps) && var c1 := After(c, shown, ps); Turning(c1, s, c1.units, j) && Selects(c1.units, s, p, j, k)
    ensures AllOff(ps + [p]) && Turning(After(c, shown, ps + [p]), s, After(c, shown, ps).units, k)
  {
    AfterOne(c, shown, ps, p);
    SelectStep(After(c, shown, ps), shown, s, p, j);
  }

  lemma Move(c: Client, shown: Highlights, ps: seq<Spot>, s: Side, k: int, p: Spot)
    requires Sized(c) && AllOff(ps) && FirstOf(s) <= k < FirstOf(s) + 4
    requires var c1 := After(c, shown, ps); Turning(c1, s, c1.units, k) && Moves(c1.units, shown, k, p)
    ensures var c1 := After(c, shown, ps);
            var u := MovedTo(c1.units[k], p);
            AllOff(ps + [p]) && Turning(After(c, shown, ps + [p]), s, c1.units[k := u], if Over(p, u) then -1 else k)
  {
    AfterOne(c, shown, ps, p);
    MoveStep(After(c, shown, ps), shown, s, k, p);
  }

  lemma Attack(c: Client, shown: Highlights, ps: seq<Spot>, s: Side, k: int, p: Spot, units: seq<UnitData>)
    requires Sized(c) && AllOff(ps) && FirstOf(s) <= k < FirstOf(s) + 4 && |units| == UNIT_COUNT
    requires Turning(After(c, shown, ps), s, units, k) && Attacks(units, shown, s, k, p)
    ensures var r := After(c, shown, ps + [p]); AllOff(ps + [p]) && Turning(r, s, r.units, k) && Struck(units, r.units, k, p)
  {
    AfterOne(c, shown, ps, p);
    var c1 := After(c, shown, ps);
    AttackStep(c1, shown, s, k, p);
    StruckTurning(c1, HandleClick(c1, ClickAt(shown, p)), s, k, p);
  }

  lemma StruckTurning(c: Client, r: Client, s: Side, k: int, p: Spot)
    requires Turning(c, s, c.units, k) && 0 <= k < UNIT_COUNT && Sized(r) && r == c.(units := r.units) && Struck(c.units, r.units, k, p)
    ensures Turning(r, s, r.units, k)
  {
    forall i | 0 <= i < UNIT_COUNT ensures r.units[i].isEnemy == (i < 4) {
      assert i != k ==> r.units[i] == Blow(c.units[i], c.units[k], p);
    }
  }

  /** The player of client c has pressed at these points; that left this table, and unit j selected, if any. */
  predicate Here(c: Client, shown: Highlights, ps: seq<Spot>, s: Side, units: seq<UnitData>, j: int) {
    Sized(c) && AllOff(ps) && |units| == UNIT_COUNT && Turning(After(c, shown, ps), s, units, j)
  }

  /** Pressing at one point and then another selects a unit and moves it; after that j' is selected. */
  predicate Goes(units: seq<UnitData>, shown: Highlights, s: Side, j: int, k: int, from: Spot, to: Spot, units': seq<UnitData>, j': int)
    requires |units| == UNIT_COUNT && 0 <= k < UNIT_COUNT
  {
    && Selects(units, s, from, j, k) && Moves(units, shown, k, to)
    && units' == units[k := MovedTo(units[k], to)] && j' == if Over(to, MovedTo(units[k], to)) then -1 else k
  }

  lemma Go(c: Client, shown: Highlights, ps: seq<Spot>, s: Side, units: seq<UnitData>, j: int, k: int, from: Spot, to: Spot,
           units': seq<UnitData>, j': int) returns (qs: seq<Spot>)
    requires Here(c, shown, ps, s, units, j) && 0 <= k < UNIT_COUNT && Goes(units, shown, s, j, k, from, to, units', j')
    ensures Here(c, shown, qs, s, units', j')
  {
    Select(c, shown, ps, s, j, k, from);
    Move(c, shown, ps + [from], s, k, to);
    qs := ps + [from] + [to];
  }

  /** Pressing at a point attacks with the selected unit. */
  lemma Shoot(c: Client, shown: Highlights, ps: seq<Spot>, s: Side, units: seq<UnitData>, k: int, to: Spot)
    returns (qs: seq<Spot>, units': seq<UnitData>)
    requires Here(c, shown, ps, s, units, k) && FirstOf(s) <= k < FirstOf(s) + 4 && Attacks(units, shown, s, k, to)
    ensures Here(c, shown, qs, s, units', k) && Struck(units, units', k, to)
  {
    Attack(c, shown, ps, s, k, to, units);
    qs := ps + [to];
    units' := After(c, shown, qs).units;
  }

  /** Pressing at one point and then another selects a unit and attacks with it. */
  lemma Fire(c: Client, shown: Highlights, ps: seq<Spot>, s: Side, units: seq<UnitData>, j: int, k: int, from: Spot, to: Spot)
    returns (qs: seq<Spot>, units': seq<UnitData>)
    requires Here(c, shown, ps, s, units, j) && 0 <= k < UNIT_COUNT
    requires Selects(units, s, from, j, k) && Attacks(units, shown, s, k, to)
    ensures Here(c, shown, qs, s, units', k) && Struck(units, units', k, to)
  {
    Select(c, shown, ps, s, j, k, from);
    qs, units' := Shoot(c, shown, ps + [from], s, units, k, to);
  }

  // ----- a game so far -----

  datatype Game = Game(w: World, shown: Pair<Highlights>, steps: seq<Step>)

  /** The steps lead there from the start, and every click among them is one the players can make. */
  predicate Played(t: seq<UnitData>, shown: Pair<Highlights>, g: Game) {
    && AllInPlay(g.steps) && Playable(Initial(t), shown, g.steps)
    && g.w == Run(Initial(t), g.steps) && g.shown == ShownAfter(Initial(t), shown, g.steps)
  }

  function Onward(g: Game, more: seq<Step>): Game {
    Game(Run(g.w, more), ShownAfter(g.w, g.shown, more), g.steps + more)
  }

  lemma Extend(t: seq<UnitData>, shown: Pair<Highlights>, g: Game, more: seq<Step>)
    requires Played(t, shown, g) && AllInPlay(more) && Playable(g.w, g.shown, more)
    ensures Played(t, shown, Onward(g, more))
  {
    RunConcat(Initial(t), g.steps, more);
    PlayableConcat(Initial(t), shown, g.steps, more);
    AllInPlayConcat(g.steps, more);
  }

  lemma OneStep(w: World, step: Step)
    ensures Run(w, [step]) == Next(w, step)
  {
    assert [step][1..] == [];
  }

  /** The presses of a turn, made in the game. */
  lemma {:induction false} Presses(t: seq<UnitData>, shown: Pair<Highlights>, g: Game, h: Side, ps: seq<Spot>) returns (g': Game)
    requires Played(t, shown, g) && HasTurn(g.w, h) && Sized(g.w.clients.At(h)) && AllOff(ps)
    ensures Played(t, shown, g') && HasTurn(g'.w, h) && g'.shown == g.shown
    ensures g'.w == SetClient(g.w, h, After(g.w.clients.At(h), g.shown.At(h), ps))
    decreases |ps|
  {
    if ps == [] {
      g' := g;
      SetTwice(g.w, h, g.w.clients.At(h), g.w.clients.At(h));
    } else {
      var front, p := ps[..|ps| - 1], ps[|ps| - 1];
      var g1 := Presses(t, shown, g, h, front);
      g' := OnePress(t, shown, g1, h, p);
      var c := After(g.w.clients.At(h), g.shown.At(h), front);
      SetTwice(g.w, h, c, HandleClick(c, ClickAt(g.shown.At(h), p)));
    }
  }

  lemma OnePress(t: seq<UnitData>, shown: Pair<Highlights>, g: Game, h: Side, p: Spot) returns (g': Game)
    requires Played(t, shown, g) && HasTurn(g.w, h) && Sized(g.w.clients.At(h)) && OffButton(p)
    ensures Played(t, shown, g') && HasTurn(g'.w, h) && g'.shown == g.shown
    ensures g'.w == SetClient(g.w, h, HandleClick(g.w.clients.At(h), ClickAt(g.shown.At(h), p)))
  {
    var step := Clicked(h, ClickAt(g.shown.At(h), p));
    ClickTurn(g.w, h, step.click);
    OneStep(g.w, step);
    PlayableOne(g.w, g.shown, step);
    g' := Onward(g, [step]);
    Extend(t, shown, g, [step]);
  }

  /** A frame of the client that may act, when no unit of its table is wiped: only the highlights follow. */
  lemma Tick(t: seq<UnitData>, shown: Pair<Highlights>, g: Game, h: Side) returns (g': Game)
    requires Played(t, shown, g) && HasTurn(g.w, h) && Sized(g.w.clients.At(h)) && SweepAll(g.w.clients.At(h).units) == g.w.clients.At(h).units
    ensures Played(t, shown, g') && g'.w == g.w
    ensures g'.shown == g.shown.With(h, Follow(g.w.clients.At(h).units, g.shown.At(h)))
  {
    var step := Framed(h);
    TickIdle(g.w, h);
    OneStep(g.w, step);
    PlayableOne(g.w, g.shown, step);
    g' := Onward(g, [step]);
    Extend(t, shown, g, [step]);
  }

  lemma TickIdle(w: World, h: Side)
    requires HasTurn(w, h) && SweepAll(w.clients.At(h).units) == w.clients.At(h).units
    ensures Next(w, Framed(h)) == w
  {
    var c := w.clients.At(h);
    assert Frame(c) == c;
    SetTwice(w, h, c, c);
  }

  /** Passing the turn: the other side's highlights follow its table as it was before the messages. */
  lemma PassTurn(t: seq<UnitData>, shown: Pair<Highlights>, g: Game, h: Side) returns (g': Game)
    requires Played(t, shown, g) && HasTurn(g.w, h) && Sized(g.w.clients.At(Other(h)))
    ensures Played(t, shown, g') && TurnPassed(g.w, g'.w, h)
    ensures g'.shown == g.shown.With(Other(h), Follow(g.w.clients.At(Other(h)).units, g.shown.At(Other(h))))
  {
    var press := ButtonPress(g.shown.At(h));
    var hops := PlayPass(g.w, h, press);
    var steps := PassSteps(h, press, hops);
    g' := Onward(g, steps);
    PassShows(g.w, g.shown, h, hops);
    PassInPlay(h, press, hops);
    Extend(t, shown, g, steps);
  }

  lemma PassInPlay(h: Side, press: Click, hops: seq<Step>)
    requires AllHops(hops)
    ensures AllInPlay(PassSteps(h, press, hops))
  {
  }

  lemma PassShows(w: World, shown: Pair<Highlights>, h: Side, hops: seq<Step>)
    requires AllHops(hops)
    requires var o := Run(Next(w, Clicked(h, ButtonPress(shown.At(h)))), hops).clients.At(Other(h));
             Playing(o, w.clients.At(Other(h)).units)
    ensures var steps := PassSteps(h, ButtonPress(shown.At(h)), hops);
            && Playable(w, shown, steps)
            && ShownAfter(w, shown, steps) == shown.With(Other(h), Follow(w.clients.At(Other(h)).units, shown.At(Other(h))))
  {
    var o, press := Other(h), Clicked(h, ButtonPress(shown.At(h)));
    var w1 := Next(w, press);
    PressIsMade(h, shown);
    PlayableOne(w, shown, press);
    OneStep(w, press);
    HopsShow(w1, shown, hops);
    PlayableConcat(w1, shown, hops, [Framed(o)]);
    PlayableOne(Run(w1, hops), shown, Framed(o));
    PlayableConcat(w, shown, [press], hops + [Framed(o)]);
    ConcatAssociates([press], hops, [Framed(o)]);
  }

  /** In the middle of a game, with this table. */
  predicate Playing(c: Client, units: seq<UnitData>) {
    !c.lobby && !c.reconnecting && !c.finished && c.units == units && |units| == UNIT_COUNT
  }
}
