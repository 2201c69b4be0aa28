/**
 The board as the game sets it up: the units with their statistics and starting
 cells, the highlight of each unit for moving and attacking, the grid and the
 next-turn button. Clicks elsewhere say which highlights they fall in; here is
 which ones a click at a point of the screen can fall in.
 */
module GameBoard {
  import opened GameUnit
  import opened GameClient
  import opened GameWorld
  import opened GamePlay

  // ----- the starting table -----

  datatype Kind = Infantry | Sniper | Artillery | Tank

  /** In the order of the unit table, for either team. */
  function KindOf(k: int): Kind
    requires 0 <= k < UNIT_COUNT
  {
    match k % 4
    case 0 => Infantry
    case 1 => Sniper
    case 2 => Artillery
    case _ => Tank
  }

  datatype Stats = Stats(squad: int, health: int, attack: int, armour: int, actionPoints: int)

  function StatsOf(kind: Kind): Stats {
    match kind
    case Infantry => Stats(10, 20, 5, 50, 3)
    case Sniper => Stats(5, 10, 15, 30, 2)
    case Artillery => Stats(2, 5, 20, 0, 2)
    case Tank => Stats(1, 100, 15, 75, 3)
  }

  function RefName(k: int): string
    requires 0 <= k < UNIT_COUNT
  {
    ["infantry_enemy", "sniper_enemy", "artillery_enemy", "tank_enemy",
     "infantry_ally", "sniper_ally", "artillery_ally", "tank_ally"][k]
  }

  /** A unit with all its action points and nothing to ship. */
  function Piece(k: int, x: int, y: int, squad: int, health: int): UnitData
    requires 0 <= k < UNIT_COUNT
  {
    var stats := StatsOf(KindOf(k));
    UnitData(RefName(k), k < 4, stats.attack, stats.armour, stats.actionPoints, x, y, squad, health, stats.actionPoints, false, false)
  }

  /** A unit with its full strength. */
  function Full(k: int, x: int, y: int): UnitData
    requires 0 <= k < UNIT_COUNT
  {
    Piece(k, x, y, StatsOf(KindOf(k)).squad, StatsOf(KindOf(k)).health)
  }

  /** The first team in the leftmost column of the grid, the second in the rightmost. */
  function StartTable(): seq<UnitData> {
    [Full(0, 40, 3), Full(1, 40, 123), Full(2, 40, 243), Full(3, 40, 363),
     Full(4, 1120, 3), Full(5, 1120, 123), Full(6, 1120, 243), Full(7, 1120, 363)]
  }

  lemma StartIsGood()
    ensures GoodTable(StartTable())
  {
    var t := StartTable();
    forall j, k | 0 <= j < k < |t| ensures t[j].refName != t[k].refName {
      assert t[j].refName == RefName(j) && t[k].refName == RefName(k);
      assert |RefName(j)| != |RefName(k)| || RefName(j)[0] != RefName(k)[0];
    }
    forall k | 0 <= k < |t| ensures t[k].refName != "endturn" && t[k].refName != "endgame" {
      assert |t[k].refName| > 7;
    }
  }

  /** The armour of no unit of the game takes anything off a blow. */
  lemma ArmourIsIdle(k: int, dealer: UnitData)
    requires 0 <= k < UNIT_COUNT
    ensures DamageTo(StartTable()[k], dealer) == dealer.attack * dealer.squad
  {
    ArmourStops(StartTable()[k], dealer);
  }

  /** Every unit has two or three action points to spend a turn, and starts with all of them. */
  lemma StartPoints(k: int)
    requires 0 <= k < UNIT_COUNT
    ensures 2 <= StartTable()[k].actionPoints == StartTable()[k].maxActionPoints <= 3
  {
  }

  // ----- points and areas of the screen -----

  datatype Spot = Spot(x: int, y: int)

  /** An area of the screen, by its distance from some spot. */
  datatype Area = Area(dx: int, dy: int, width: int, height: int)

  predicate InArea(p: Spot, at: Spot, area: Area) {
    && at.x + area.dx <= p.x <= at.x + area.dx + area.width
    && at.y + area.dy <= p.y <= at.y + area.dy + area.height
  }

  predicate OnScreen(p: Spot) { 0 <= p.x < 1280 && 0 <= p.y < 720 }

  const BUTTON := Area(1170, 610, 100, 100)

  function MoveArea(k: int): Area
    requires 0 <= k < UNIT_COUNT
  {
    match KindOf(k)
    case Infantry => Area(-240, -240, 600, 600)
    case Sniper => Area(-120, -120, 360, 360)
    case Artillery => Area(0, -120, 120, 360)
    case Tank => Area(-240, -120, 600, 360)
  }

  function AttackArea(k: int): Area
    requires 0 <= k < UNIT_COUNT
  {
    match KindOf(k)
    case Infantry => Area(-120, -120, 360, 360)
    case Sniper => Area(if k < 4 then 0 else -720, 0, 720, 120)
    case Artillery => Area(if k < 4 then 600 else -840, -120, 360, 360)
    case Tank => Area(if k < 4 then 0 else -120, -120, 240, 360)
  }

  /** A cell as seen from the one a unit stands in: columns toward the opponent's side, and rows down. */
  datatype Cell = Cell(ahead: int, down: int)

  predicate Near(cell: Cell, columns: int, rows: int) { -columns <= cell.ahead <= columns && -rows <= cell.down <= rows }

  predicate MoveReach(kind: Kind, cell: Cell) {
    match kind
    case Infantry => Near(cell, 2, 2)
    case Sniper => Near(cell, 1, 1)
    case Artillery => Near(cell, 0, 1)
    case Tank => Near(cell, 2, 1)
  }

  /** The teams reach alike but for the snipers, of which the second team's reaches one cell further. */
  predicate AttackReach(kind: Kind, firstTeam: bool, cell: Cell) {
    match kind
    case Infantry => Near(cell, 1, 1)
    case Sniper => cell.down == 0 && if firstTeam then 0 <= cell.ahead <= 5 else 1 <= cell.ahead <= 6
    case Artillery => 5 <= cell.ahead <= 7 && -1 <= cell.down <= 1
    case Tank => 0 <= cell.ahead <= 1 && -1 <= cell.down <= 1
  }

  predicate InsideCell(p: Spot, at: Spot, k: int, cell: Cell) {
    && 0 < p.x - (at.x + 120 * if k < 4 then cell.ahead else -cell.ahead) < 120
    && 0 < p.y - (at.y + 120 * cell.down) < 120
  }

  /** Which cells the highlights of a unit cover. */
  lemma ReachInCells(k: int, at: Spot, p: Spot, cell: Cell)
    requires 0 <= k < UNIT_COUNT && InsideCell(p, at, k, cell)
    ensures InArea(p, at, MoveArea(k)) <==> MoveReach(KindOf(k), cell)
    ensures InArea(p, at, AttackArea(k)) <==> AttackReach(KindOf(k), k < 4, cell)
  {
  }

  /**
   The corner of the cell a unit moved to a point ends up in. The branches for
   when all eight units are selected at once are left out: selections never hold
   more than one unit.
   */
  function Snapped(p: Spot): Spot {
    Spot((p.x - 40) / 120 * 120 + 40, if p.y - 3 > 600 then 483 else (p.y - 3) / 120 * 120 + 3)
  }

  /** A corner of the grid. */
  predicate OnGrid(p: Spot) { (p.x - 40) % 120 == 0 && (p.y - 3) % 120 == 0 }

  /** A point snaps to the corner of the cell it lies in, and below the grid to the last row; a corner snaps to itself. */
  lemma SnapsToItsCell(p: Spot)
    ensures var q := Snapped(p);
            && OnGrid(q) && q.x <= p.x < q.x + 120
            && (if p.y <= 603 then q.y <= p.y < q.y + 120 else q.y == 483)
            && Snapped(q) == q
  {
  }

  /** A move lands on a unit that stands on the grid, without the press having been on it, exactly from the last two pixels of its cell. */
  lemma LandsOnUnit(p: Spot, click: Click, u: UnitData)
    requires p.y <= 603 && OnGrid(Spot(u.x, u.y)) && click.x == p.x && click.y == p.y
    ensures Snapped(p) == Spot(u.x, u.y) && !MouseOn(click, u)
            <==> 0 <= p.x - u.x < 120 && 0 <= p.y - u.y < 120 && (p.x - u.x >= 118 || p.y - u.y >= 118)
  {
    SnapsToItsCell(p);
    SameCell(Snapped(p).x, u.x, p.x, 40);
    SameCell(Snapped(p).y, u.y, p.y, 3);
  }

  lemma SameCell(a: int, b: int, x: int, offset: int)
    requires (a - offset) % 120 == 0 && (b - offset) % 120 == 0 && a <= x < a + 120
    ensures b <= x < b + 120 ==> a == b
  {
  }

  // ----- highlights -----

  /** Where each unit's highlights stand: at its position in the last frame that found it alive. */
  type Highlights = s: seq<Spot> | |s| == UNIT_COUNT witness seq(UNIT_COUNT, i => Spot(0, 0))

  function Follow(units: seq<UnitData>, shown: Highlights): Highlights
    requires |units| == UNIT_COUNT
  {
    seq(UNIT_COUNT, k requires 0 <= k < UNIT_COUNT => if Sweep(units[k]).dead then shown[k] else Spot(units[k].x, units[k].y))
  }

  /** What a frame of play does to the highlights; it places them before it applies the opponent's messages. */
  function Refreshed(c: Client, shown: Highlights): Highlights {
    if c.lobby || c.reconnecting || c.finished || |c.units| != UNIT_COUNT then shown else Follow(c.units, shown)
  }

  /** The click a player makes by pressing the mouse at a point. */
  function ClickAt(shown: Highlights, p: Spot): Click {
    Click(p.x, p.y, InArea(p, Spot(0, 0), BUTTON),
          (set k | 0 <= k < UNIT_COUNT && InArea(p, shown[k], MoveArea(k))),
          (set k | 0 <= k < UNIT_COUNT && InArea(p, shown[k], AttackArea(k))),
          Snapped(p).x, Snapped(p).y)
  }

  /** A press of the next-turn button. */
  function ButtonPress(shown: Highlights): (click: Click)
    ensures click.onNextTurn && click == ClickAt(shown, Spot(1220, 660))
  {
    ClickAt(shown, Spot(1220, 660))
  }

  lemma PressIsMade(s: Side, shown: Pair<Highlights>)
    ensures MadeAt(Clicked(s, ButtonPress(shown.At(s))), shown)
  {
  }

  function NextShown(w: World, shown: Pair<Highlights>, step: Step): Pair<Highlights> {
    if step.Framed? then shown.With(step.side, Refreshed(w.clients.At(step.side), shown.At(step.side))) else shown
  }

  function ShownAfter(w: World, shown: Pair<Highlights>, steps: seq<Step>): Pair<Highlights>
    decreases |steps|
  {
    if steps == [] then shown else ShownAfter(Next(w, steps[0]), NextShown(w, shown, steps[0]), steps[1..])
  }

  predicate MadeAt(step: Step, shown: Pair<Highlights>) {
    step.Clicked? ==>
      var p := Spot(step.click.x, step.click.y);
      OnScreen(p) && step.click == ClickAt(shown.At(step.side), p)
  }

  /** Every click of the run is one a player can make on the screen as it then is. */
  predicate Playable(w: World, shown: Pair<Highlights>, steps: seq<Step>)
    decreases |steps|
  {
    steps != [] ==> MadeAt(steps[0], shown) && Playable(Next(w, steps[0]), NextShown(w, shown, steps[0]), steps[1..])
  }

  lemma {:induction false} PlayableConcat(w: World, shown: Pair<Highlights>, a: seq<Step>, b: seq<Step>)
    ensures Playable(w, shown, a + b) <==> Playable(w, shown, a) && Playable(Run(w, a), ShownAfter(w, shown, a), b)
    ensures ShownAfter(w, shown, a + b) == ShownAfter(Run(w, a), ShownAfter(w, shown, a), b)
    decreases |a|
  {
    if a == [] {
      assert a + b == b;
    } else {
      assert (a + b)[0] == a[0] && (a + b)[1..] == a[1..] + b;
      PlayableConcat(Next(w, a[0]), NextShown(w, shown, a[0]), a[1..], b);
    }
  }

  lemma PlayableOne(w: World, shown: Pair<Highlights>, step: Step)
    ensures Playable(w, shown, [step]) <==> MadeAt(step, shown)
    ensures ShownAfter(w, shown, [step]) == NextShown(w, shown, step)
  {
    assert [step][1..] == [];
  }

  /** Without clicks there is nothing to make. */
  lemma {:induction false} ClicklessPlayable(w: World, shown: Pair<Highlights>, steps: seq<Step>)
    requires forall i :: 0 <= i < |steps| ==> !steps[i].Clicked?
    ensures Playable(w, shown, steps)
    decreases |steps|
  {
    if steps != [] {
      ClicklessPlayable(Next(w, steps[0]), NextShown(w, shown, steps[0]), steps[1..]);
    }
  }

  /** Hops of messages leave the highlights where they are. */
  lemma {:induction false} HopsShow(w: World, shown: Pair<Highlights>, hops: seq<Step>)
    requires forall i :: 0 <= i < |hops| ==> Hop(hops[i])
    ensures Playable(w, shown, hops) && ShownAfter(w, shown, hops) == shown
    decreases |hops|
  {
    if hops != [] {
      HopsShow(Next(w, hops[0]), shown, hops[1..]);
    }
  }
}
