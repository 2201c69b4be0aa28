/**
 What action points are for: between two presses of the next-turn button that
 give them back, a unit's blows, at two points each, and its moves, at one, never
 cost more than the points it had, over every interleaving of play.
 */
module GamePoints {
  import opened GameUnit
  import opened GameClient
  import opened GameWorld
  import opened GamePlay
  import opened GameOutcome
  import opened GameScript

  // ----- what a step shows -----

  /** A click of side s, with unit k selected, after which some unit of the opponent is not as it was. */
  predicate Strikes(w: World, step: Step, s: Side, k: int)
    requires Sized(w.clients.At(s)) && 0 <= k < UNIT_COUNT
  {
    && step.Clicked? && step.side == s && w.clients.At(s).selected[k]
    && Sized(Next(w, step).clients.At(s))
    && exists i :: 0 <= i < UNIT_COUNT && Owner(i) != Role(s) && Next(w, step).clients.At(s).units[i] != w.clients.At(s).units[i]
  }

  /** A click of side s after which unit k stands elsewhere. */
  predicate Travels(w: World, step: Step, s: Side, k: int)
    requires Sized(w.clients.At(s)) && 0 <= k < UNIT_COUNT
  {
    && step.Clicked? && step.side == s && Sized(Next(w, step).clients.At(s))
    && var u, u' := w.clients.At(s).units[k], Next(w, step).clients.At(s).units[k];
       u'.x != u.x || u'.y != u.y
  }

  /** The press that ends the turn of side s and gives its units their points back. */
  predicate EndsTurn(w: World, step: Step, s: Side) {
    step.Clicked? && step.side == s && PassesTurn(w.clients.At(s), step.click)
  }

  function Blows(w: World, steps: seq<Step>, s: Side, k: int): nat
    requires 0 <= k < UNIT_COUNT
    decreases |steps|
  {
    if steps == [] then 0
    else Count(Sized(w.clients.At(s)) && Strikes(w, steps[0], s, k)) + Blows(Next(w, steps[0]), steps[1..], s, k)
  }

  function Moves(w: World, steps: seq<Step>, s: Side, k: int): nat
    requires 0 <= k < UNIT_COUNT
    decreases |steps|
  {
    if steps == [] then 0
    else Count(Sized(w.clients.At(s)) && Travels(w, steps[0], s, k)) + Moves(Next(w, steps[0]), steps[1..], s, k)
  }

  predicate WithinTurn(w: World, steps: seq<Step>, s: Side)
    decreases |steps|
  {
    steps != [] ==> !EndsTurn(w, steps[0], s) && WithinTurn(Next(w, steps[0]), steps[1..], s)
  }

  /** What a unit has left to spend; a blow on several units may leave it in debt. */
  function Left(points: int): nat { if points > 0 then points else 0 }

  // ----- one click -----

  lemma AloneSelected(c: Client, s: Side) returns (j: int)
    requires Sized(c) && SelectionOk(c, Role(s))
    ensures c.selected == Alone(j) && (0 <= j < UNIT_COUNT ==> Owner(j) == Role(s))
  {
    if i :| 0 <= i < UNIT_COUNT && c.selected[i] {
      j := i;
    } else {
      j := -1;
    }
    assert c.selected == Alone(j);
  }

  /** What the click does before it selects. */
  function Acted(c: Client, click: Click): (r: Client)
    requires Sized(c)
    ensures Sized(r)
  {
    AttackClickedUnit(PlaceUnitAtClick(c, click), click)
  }

  lemma SelectingKeepsUnits(c: Client, s: Side, click: Click)
    requires Acting(c, s) && !click.onNextTurn
    ensures HandleClick(c, click).units == Acted(c, click).units
  {
    assert HandleClick(c, click) == SetSelected(Acted(c, click), click);
    SelectingKeeps(Acted(c, click), click);
  }

  lemma SelectingKeeps(c: Client, click: Click)
    requires Sized(c)
    ensures SetSelected(c, click).units == c.units
  {
    TogglingKeeps(c, click, 0);
    TogglingKeeps(c, click, 4);
  }

  lemma TogglingKeeps(c: Client, click: Click, t: int)
    requires Sized(c) && (t == 0 || t == 4)
    ensures var r := ToggleTeam(c, click, t); r.units == c.units && r.team == c.team
  {
    var c1 := Toggle(c, click, t, t);
    var c2 := Toggle(c1, click, t, t + 3);
    var c3 := Toggle(c2, click, t, t + 1);
    assert c1.units == c.units && c2.units == c1.units && c3.units == c2.units;
    assert Toggle(c3, click, t, t + 2).units == c3.units;
  }

  lemma ActedOutcome(c: Client, s: Side, click: Click, j: int)
    requires Acting(c, s) && c.selected == Alone(j) && (0 <= j < UNIT_COUNT ==> Owner(j) == Role(s))
    ensures var r := Acted(c, click);
            || r == c
            || (0 <= j < UNIT_COUNT && CanMove(c, click, j) && r == Moved(c, click, j))
            || (0 <= j < UNIT_COUNT && CanAttack(c, click, j) && r == Attacked(c, click, j))
  {
    if AnyHit(c.units, click) {
      HitOutcome(c, click, j);
    } else if 0 <= j < UNIT_COUNT && CanMove(c, click, j) {
      MovedOutcome(c, s, click, j);
    } else {
      CannotMove(c, click, j, 0);
      CannotMove(c, click, j, 4);
    }
  }

  /** A click off the button moves the selected unit, or attacks with it, or changes no unit. */
  lemma ClickOutcome(c: Client, s: Side, click: Click, j: int)
    requires Acting(c, s) && c.selected == Alone(j) && (0 <= j < UNIT_COUNT ==> Owner(j) == Role(s)) && !click.onNextTurn
    ensures var r := HandleClick(c, click);
            || r.units == c.units
            || (0 <= j < UNIT_COUNT && CanMove(c, click, j) && r.units == Moved(c, click, j).units)
            || (0 <= j < UNIT_COUNT && CanAttack(c, click, j) && r.units == Attacked(c, click, j).units)
  {
    SelectingKeepsUnits(c, s, click);
    ActedOutcome(c, s, click, j);
  }

  lemma MovedOutcome(c: Client, s: Side, click: Click, j: int)
    requires Acting(c, s) && 0 <= j < UNIT_COUNT && c.selected == Alone(j) && Owner(j) == Role(s)
    requires !AnyHit(c.units, click) && CanMove(c, click, j)
    ensures AttackClickedUnit(PlaceUnitAtClick(c, click), click) == Moved(c, click, j)
  {
    MovePlaces(c, click, j);
    AttackNobody(Moved(c, click, j), s, click, 0, j);
    AttackNobody(Moved(c, click, j), s, click, 4, j);
  }

  lemma HitOutcome(c: Client, click: Click, j: int)
    requires Sized(c) && c.selected == Alone(j)
    ensures var r := AttackFirst(AttackFirst(c, click, 0), click, 4);
            r == c || (0 <= j < UNIT_COUNT && CanAttack(c, click, j) && r == Attacked(c, click, j))
  {
    if 0 <= j < UNIT_COUNT && CanAttack(c, click, j) {
      AttackPicks(c, click, j);
    } else {
      CannotAttack(c, click, j, 0);
      CannotAttack(c, click, j, 4);
    }
  }

  /** A click on any unit moves none. */
  lemma OccupiedStays(c: Client, s: Side, click: Click, k: int)
    requires Acting(c, s) && SelectionOk(c, Role(s)) && !click.onNextTurn && 0 <= k < UNIT_COUNT
    requires exists i :: 0 <= i < UNIT_COUNT && MouseOn(click, c.units[i])
    ensures var u, u' := c.units[k], HandleClick(c, click).units[k]; u'.x == u.x && u'.y == u.y
  {
    var j := AloneSelected(c, s);
    SelectingKeepsUnits(c, s, click);
    HitOutcome(c, click, j);
  }

  lemma {:induction false} SomeTarget(units: seq<UnitData>, click: Click, dealer: UnitData, n: nat, i: int)
    requires n <= |units| && 0 <= i < n && IsTarget(units, click, dealer, i)
    ensures Targets(units, click, dealer, n) >= 1
  {
    if i < n - 1 {
      SomeTarget(units, click, dealer, n - 1, i);
    }
  }

  /** What a click costs unit k, from what it shows. */
  lemma ClickSpends(c: Client, s: Side, click: Click, k: int)
    requires Acting(c, s) && SelectionOk(c, Role(s)) && !click.onNextTurn && 0 <= k < UNIT_COUNT && Owner(k) == Role(s)
    ensures var u, u', r := c.units[k], HandleClick(c, click).units[k], HandleClick(c, click);
            var struck := c.selected[k] && exists i :: 0 <= i < UNIT_COUNT && Owner(i) != Role(s) && r.units[i] != c.units[i];
            2 * Count(struck) + Count(u'.x != u.x || u'.y != u.y) + Left(u'.actionPoints) <= Left(u.actionPoints)
  {
    var j := AloneSelected(c, s);
    var r := HandleClick(c, click);
    ClickOutcome(c, s, click, j);
    if r.units == c.units {
    } else if CanMove(c, click, j) && r.units == Moved(c, click, j).units {
    } else {
      AttackSpends(c, s, click, j, k);
    }
  }

  lemma AttackSpends(c: Client, s: Side, click: Click, j: int, k: int)
    requires Acting(c, s) && c.selected == Alone(j) && 0 <= j < UNIT_COUNT && Owner(j) == Role(s) && CanAttack(c, click, j)
    requires 0 <= k < UNIT_COUNT && Owner(k) == Role(s)
    ensures var u, r := c.units[k], Attacked(c, click, j);
            var struck := c.selected[k] && exists i :: 0 <= i < UNIT_COUNT && Owner(i) != Role(s) && r.units[i] != c.units[i];
            && r.units[k].x == u.x && r.units[k].y == u.y
            && 2 * Count(struck) + Left(r.units[k].actionPoints) <= Left(u.actionPoints)
  {
    var r := Attacked(c, click, j);
    if i :| 0 <= i < UNIT_COUNT && Owner(i) != Role(s) && r.units[i] != c.units[i] {
      SomeTarget(c.units, click, c.units[j], UNIT_COUNT, i);
    }
  }

  // ----- every step of play -----

  lemma PointsKept(c: Client, s: Side, t: seq<UnitData>, k: int)
    requires GoodTable(t) && ClientOk(c, s, t) && LogOk(c.unitQueue, t) && 0 <= k < UNIT_COUNT
    ensures |Frame(c).units| == UNIT_COUNT && Frame(c).units[k].actionPoints == c.units[k].actionPoints
  {
    FrameIsPlayFrame(c, s, t);
    SweepKeepsKind(c.units, t);
    ApplyAllEffect(AssignTeam(c).(units := SweepAll(c.units)), c.unitQueue, t);
  }

  /** Steps other than the side's own clicks leave its units' points alone. */
  lemma OtherStep(w: World, step: Step, s: Side, k: int)
    requires PlayInv(w) && InPlay(step) && !(step.Clicked? && step.side == s) && 0 <= k < UNIT_COUNT
    ensures Sized(w.clients.At(s)) && |Next(w, step).clients.At(s).units| == UNIT_COUNT
    ensures Next(w, step).clients.At(s).units[k].actionPoints == w.clients.At(s).units[k].actionPoints
  {
    if step == Framed(s) {
      PlayQueueOk(w, s);
      PointsKept(w.clients.At(s), s, w.table, k);
    } else if Hop(step) {
      HopUnits(w, step, s);
    }
  }

  lemma HopUnits(w: World, step: Step, s: Side)
    requires PlayInv(w) && Hop(step)
    ensures Next(w, step).clients.At(s).units == w.clients.At(s).units
  {
    HopKeepsTraffic(w, step);
    assert SameTraffic(w, Next(w, step), s);
    assert Core(Next(w, step).clients.At(s)).units == Core(w.clients.At(s)).units;
  }

  lemma OwnClick(w: World, step: Step, s: Side, k: int)
    requires PlayInv(w) && step.Clicked? && step.side == s && !EndsTurn(w, step, s) && 0 <= k < UNIT_COUNT && Owner(k) == Role(s)
    ensures var w' := Next(w, step);
            && Sized(w.clients.At(s)) && Sized(w'.clients.At(s))
            && 2 * Count(Strikes(w, step, s, k)) + Count(Travels(w, step, s, k)) + Left(w'.clients.At(s).units[k].actionPoints)
               <= Left(w.clients.At(s).units[k].actionPoints)
  {
    var c, click := w.clients.At(s), step.click;
    if c.turn != c.team {
      IdleClick(c, s, w.table, click);
    } else if !c.lobby && !c.reconnecting {
      ActorActs(w, s);
      ClickSpends(c, s, click, k);
    }
  }

  lemma ActorActs(w: World, s: Side)
    requires PlayInv(w) && w.clients.At(s).turn == w.clients.At(s).team && !w.clients.At(s).lobby && !w.clients.At(s).reconnecting
    ensures Acting(w.clients.At(s), s)
  {
  }

  /** What a step costs a unit, from what it shows. */
  lemma StepSpends(w: World, step: Step, s: Side, k: int)
    requires PlayInv(w) && InPlay(step) && !EndsTurn(w, step, s) && 0 <= k < UNIT_COUNT && Owner(k) == Role(s)
    ensures Sized(w.clients.At(s)) && |Next(w, step).clients.At(s).units| == UNIT_COUNT
    ensures 2 * Count(Strikes(w, step, s, k)) + Count(Travels(w, step, s, k)) + Left(Next(w, step).clients.At(s).units[k].actionPoints)
            <= Left(w.clients.At(s).units[k].actionPoints)
  {
    if step.Clicked? && step.side == s {
      OwnClick(w, step, s, k);
    } else {
      OtherStep(w, step, s, k);
    }
  }

  /**
   Within a turn, and over every run of play, what a unit's blows and moves cost
   comes out of the points it began with.
   */
  lemma {:induction false} PointsBound(w: World, steps: seq<Step>, s: Side, k: int)
    requires PlayInv(w) && AllInPlay(steps) && WithinTurn(w, steps, s) && 0 <= k < UNIT_COUNT && Owner(k) == Role(s)
    ensures Sized(w.clients.At(s)) && Sized(Run(w, steps).clients.At(s))
    ensures 2 * Blows(w, steps, s, k) + Moves(w, steps, s, k) + Left(Run(w, steps).clients.At(s).units[k].actionPoints)
            <= Left(w.clients.At(s).units[k].actionPoints)
    decreases |steps|
  {
    if steps != [] {
      StepKeepsPlay(w, steps[0]);
      PointsBound(Next(w, steps[0]), steps[1..], s, k);
      StepSpends(w, steps[0], s, k);
    }
  }

  /** A unit with at most three points, as all shipped units, deals blows with at most one click of a turn. */
  lemma OneBlowATurn(w: World, steps: seq<Step>, s: Side, k: int)
    requires PlayInv(w) && AllInPlay(steps) && WithinTurn(w, steps, s) && 0 <= k < UNIT_COUNT && Owner(k) == Role(s)
    requires Sized(w.clients.At(s)) && w.clients.At(s).units[k].actionPoints <= 3
    ensures Blows(w, steps, s, k) <= 1
    ensures Blows(w, steps, s, k) == 1 ==> Moves(w, steps, s, k) <= 1
  {
    PointsBound(w, steps, s, k);
  }
}
