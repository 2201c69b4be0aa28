/**
 A game after which each player has been told of having won, played with the
 units the game ships with, from where it puts them, by pressing at points of
 the screen.

 The second player's artillery is wiped; it moves before it is swept, so that it
 is back on the first player's board, where the first player's artillery, itself
 wiped and not yet swept, revives it by dealing it negative damage. The first
 player goes on to wipe the rest of the second army, and the revived artillery
 to wipe the rest of the first. Both armies are then marked dead, and both
 players press the next-turn button.
 */
module GameDispute {
  import opened GameUnit
  import opened GameClient
  import opened GameWorld
  import opened GamePlay
  import opened GameOutcome
  import opened GameVerdict
  import opened GameTurns
  import opened GameBoard
  import opened GameScript

  // ----- units and turns -----

  /** A unit that has used up some action points and is to be shipped. */
  function Used(u: UnitData, points: int): UnitData { u.(actionPoints := u.maxActionPoints - points, changed := true) }

  /** A unit that has attacked and has these action points left. */
  function Spent(u: UnitData, points: int): UnitData { u.(actionPoints := points) }

  function Hurt(u: UnitData): UnitData { u.(changed := true) }

  function Dead(u: UnitData): UnitData { u.(dead := true) }

  function Buried(u: UnitData): UnitData { u.(x := GRAVEYARD, y := GRAVEYARD, dead := true) }

  /** The highlights of a team stand at its units. */
  predicate Lit(shown: Highlights, units: seq<UnitData>, t: int)
    requires |units| == UNIT_COUNT && (t == 0 || t == 4)
  {
    forall k :: t <= k < t + 4 ==> shown[k] == Spot(units[k].x, units[k].y)
  }

  /** What a turn that ends with this table leaves, when d is the other's table. */
  predicate Leaves(units: seq<UnitData>, d: seq<UnitData>, units': seq<UnitData>, d': seq<UnitData>) {
    && |units| == |d| == |units'| == |d'| == UNIT_COUNT
    && forall k :: 0 <= k < UNIT_COUNT ==> Settled(units[k]) == units'[k] && Caught(d[k], units[k]) == d'[k]
  }

  // ----- the first turn: the first player sends its units forward -----

  function Forward1(): seq<UnitData> {
    [Full(0, 40, 3), Full(1, 40, 123), Used(Full(2, 160, 243), 1), Full(3, 40, 363),
     Full(4, 1120, 3), Full(5, 1120, 123), Full(6, 1120, 243), Full(7, 1120, 363)]
  }

  function Forward2(): seq<UnitData> {
    [Full(0, 40, 3), Used(Full(1, 280, 123), 1), Used(Full(2, 160, 243), 1), Full(3, 40, 363),
     Full(4, 1120, 3), Full(5, 1120, 123), Full(6, 1120, 243), Full(7, 1120, 363)]
  }

  function Forward3(): seq<UnitData> {
    [Full(0, 40, 3), Used(Full(1, 280, 123), 1), Used(Full(2, 160, 243), 1), Used(Full(3, 400, 363), 1),
     Full(4, 1120, 3), Full(5, 1120, 123), Full(6, 1120, 243), Full(7, 1120, 363)]
  }

  function Forward4(): seq<UnitData> {
    [Used(Full(0, 400, 3), 1), Used(Full(1, 280, 123), 1), Used(Full(2, 160, 243), 1), Used(Full(3, 400, 363), 1),
     Full(4, 1120, 3), Full(5, 1120, 123), Full(6, 1120, 243), Full(7, 1120, 363)]
  }

  lemma Advance1(shown: Highlights)
    requires Lit(shown, StartTable(), 0)
    ensures Goes(StartTable(), shown, One, -1, 2, Spot(100, 300), Spot(160, 300), Forward1(), -1)
  {
  }

  lemma Advance2(shown: Highlights)
    requires Lit(shown, StartTable(), 0)
    ensures Goes(Forward1(), shown, One, -1, 1, Spot(100, 180), Spot(280, 180), Forward2(), -1)
  {
  }

  lemma Advance3(shown: Highlights)
    requires Lit(shown, StartTable(), 0)
    ensures Goes(Forward2(), shown, One, -1, 3, Spot(100, 400), Spot(400, 400), Forward3(), -1)
  {
  }

  lemma Advance4(shown: Highlights)
    requires Lit(shown, StartTable(), 0)
    ensures Goes(Forward3(), shown, One, -1, 0, Spot(100, 60), Spot(400, 60), Forward4(), -1)
  {
  }

  /** The turn up to a frame, which lets the highlights follow. */
  lemma Advance(c: Client, shown: Highlights) returns (ps: seq<Spot>)
    requires Turning(c, One, StartTable(), -1) && Lit(shown, StartTable(), 0)
    ensures Here(c, shown, ps, One, Forward4(), -1)
  {
    ps := [];
    Advance1(shown);
    ps := Go(c, shown, ps, One, StartTable(), -1, 2, Spot(100, 300), Spot(160, 300), Forward1(), -1);
    Advance2(shown);
    ps := Go(c, shown, ps, One, Forward1(), -1, 1, Spot(100, 180), Spot(280, 180), Forward2(), -1);
    Advance3(shown);
    ps := Go(c, shown, ps, One, Forward2(), -1, 3, Spot(100, 400), Spot(400, 400), Forward3(), -1);
    Advance4(shown);
    ps := Go(c, shown, ps, One, Forward3(), -1, 0, Spot(100, 60), Spot(400, 60), Forward4(), -1);
  }

  function Forward5(): seq<UnitData> {
    [Used(Full(0, 400, 3), 1), Used(Full(1, 520, 123), 2), Used(Full(2, 160, 243), 1), Used(Full(3, 400, 363), 1),
     Full(4, 1120, 3), Full(5, 1120, 123), Full(6, 1120, 243), Full(7, 1120, 363)]
  }

  function Forward6(): seq<UnitData> {
    [Used(Full(0, 400, 3), 1), Used(Full(1, 520, 123), 2), Used(Full(2, 160, 243), 1), Used(Full(3, 640, 243), 2),
     Full(4, 1120, 3), Full(5, 1120, 123), Full(6, 1120, 243), Full(7, 1120, 363)]
  }

  function Forward7(): seq<UnitData> {
    [Used(Full(0, 640, 123), 2), Used(Full(1, 520, 123), 2), Used(Full(2, 160, 243), 1), Used(Full(3, 640, 243), 2),
     Full(4, 1120, 3), Full(5, 1120, 123), Full(6, 1120, 243), Full(7, 1120, 363)]
  }

  /** After the first turn, at both players. */
  function Board1(): seq<UnitData> {
    [Full(0, 640, 123), Full(1, 520, 123), Full(2, 160, 243), Full(3, 640, 243),
     Full(4, 1120, 3), Full(5, 1120, 123), Full(6, 1120, 243), Full(7, 1120, 363)]
  }

  lemma Arrive1(shown: Highlights)
    requires Lit(shown, Forward4(), 0)
    ensures Goes(Forward4(), shown, One, -1, 1, Spot(300, 180), Spot(520, 180), Forward5(), -1)
  {
  }

  lemma Arrive2(shown: Highlights)
    requires Lit(shown, Forward4(), 0)
    ensures Goes(Forward5(), shown, One, -1, 3, Spot(450, 400), Spot(640, 300), Forward6(), -1)
  {
  }

  lemma Arrive3(shown: Highlights)
    requires Lit(shown, Forward4(), 0)
    ensures Goes(Forward6(), shown, One, -1, 0, Spot(450, 60), Spot(640, 150), Forward7(), -1)
  {
  }

  lemma ArriveLeaves()
    ensures Leaves(Forward7(), StartTable(), Board1(), Board1())
  {
  }

  lemma Arrive(c: Client, shown: Highlights) returns (ps: seq<Spot>)
    requires Turning(c, One, Forward4(), -1) && Lit(shown, Forward4(), 0)
    ensures AllOff(ps) && Leaves(After(c, shown, ps).units, StartTable(), Board1(), Board1())
  {
    ps := [];
    Arrive1(shown);
    ps := Go(c, shown, ps, One, Forward4(), -1, 1, Spot(300, 180), Spot(520, 180), Forward5(), -1);
    Arrive2(shown);
    ps := Go(c, shown, ps, One, Forward5(), -1, 3, Spot(450, 400), Spot(640, 300), Forward6(), -1);
    Arrive3(shown);
    ps := Go(c, shown, ps, One, Forward6(), -1, 0, Spot(450, 60), Spot(640, 150), Forward7(), -1);
    ArriveLeaves();
  }

  // ----- the second turn: presses in the gap between two cells put three units on one -----

  function Gather1(): seq<UnitData> {
    [Full(0, 640, 123), Full(1, 520, 123), Full(2, 160, 243), Full(3, 640, 243),
     Full(4, 1120, 3), Used(Full(5, 1000, 123), 1), Full(6, 1120, 243), Full(7, 1120, 363)]
  }

  function Gather2(): seq<UnitData> {
    [Full(0, 640, 123), Full(1, 520, 123), Full(2, 160, 243), Full(3, 640, 243),
     Full(4, 1120, 3), Used(Full(5, 1000, 123), 1), Full(6, 1120, 243), Used(Full(7, 880, 243), 1)]
  }

  function Gather3(): seq<UnitData> {
    [Full(0, 640, 123), Full(1, 520, 123), Full(2, 160, 243), Full(3, 640, 243),
     Used(Full(4, 880, 243), 1), Used(Full(5, 1000, 123), 1), Full(6, 1120, 243), Used(Full(7, 880, 243), 1)]
  }

  function Gather4(): seq<UnitData> {
    [Full(0, 640, 123), Full(1, 520, 123), Full(2, 160, 243), Full(3, 640, 243),
     Used(Full(4, 880, 243), 1), Used(Full(5, 880, 243), 2), Full(6, 1120, 243), Used(Full(7, 880, 243), 1)]
  }

  /** After the second turn, at both players. */
  function Board2(): seq<UnitData> {
    [Full(0, 640, 123), Full(1, 520, 123), Full(2, 160, 243), Full(3, 640, 243),
     Full(4, 880, 243), Full(5, 880, 243), Full(6, 1120, 243), Full(7, 880, 243)]
  }

  lemma Collect1(shown: Highlights)
    requires Lit(shown, StartTable(), 4)
    ensures Goes(Board1(), shown, Two, -1, 5, Spot(1150, 180), Spot(1000, 180), Gather1(), -1)
  {
  }

  lemma Collect2(shown: Highlights)
    requires Lit(shown, StartTable(), 4)
    ensures Goes(Gather1(), shown, Two, -1, 7, Spot(1150, 400), Spot(998, 300), Gather2(), 7)
  {
  }

  lemma Collect3(shown: Highlights)
    requires Lit(shown, StartTable(), 4)
    ensures Goes(Gather2(), shown, Two, 7, 4, Spot(1150, 60), Spot(998, 300), Gather3(), 4)
  {
  }

  lemma Collect(c: Client, shown: Highlights) returns (ps: seq<Spot>)
    requires Turning(c, Two, Board1(), -1) && Lit(shown, StartTable(), 4)
    ensures Here(c, shown, ps, Two, Gather3(), 4)
  {
    ps := [];
    Collect1(shown);
    ps := Go(c, shown, ps, Two, Board1(), -1, 5, Spot(1150, 180), Spot(1000, 180), Gather1(), -1);
    Collect2(shown);
    ps := Go(c, shown, ps, Two, Gather1(), -1, 7, Spot(1150, 400), Spot(998, 300), Gather2(), 7);
    Collect3(shown);
    ps := Go(c, shown, ps, Two, Gather2(), 7, 4, Spot(1150, 60), Spot(998, 300), Gather3(), 4);
  }

  lemma Collect4(shown: Highlights)
    requires Lit(shown, Gather3(), 4)
    ensures Goes(Gather3(), shown, Two, 4, 5, Spot(1050, 180), Spot(998, 300), Gather4(), 5)
  {
  }

  lemma CollectLeaves()
    ensures Leaves(Gather4(), Board1(), Board2(), Board2())
  {
  }

  lemma Complete(c: Client, shown: Highlights) returns (ps: seq<Spot>)
    requires Turning(c, Two, Gather3(), 4) && Lit(shown, Gather3(), 4)
    ensures AllOff(ps) && Leaves(After(c, shown, ps).units, Board1(), Board2(), Board2())
  {
    ps := [];
    Collect4(shown);
    ps := Go(c, shown, ps, Two, Gather3(), 4, 5, Spot(1050, 180), Spot(998, 300), Gather4(), 5);
    CollectLeaves();
  }

  // ----- the third turn: the second player's artillery is wiped -----

  function Aimed(): seq<UnitData> {
    [Full(0, 640, 123), Used(Full(1, 640, 243), 1), Full(2, 160, 243), Full(3, 640, 243),
     Full(4, 880, 243), Full(5, 880, 243), Full(6, 1120, 243), Full(7, 880, 243)]
  }

  function Wiped(points: int): seq<UnitData> {
    [Full(0, 640, 123), Used(Full(1, 640, 243), 1), Spent(Full(2, 160, 243), points), Full(3, 640, 243),
     Full(4, 880, 243), Full(5, 880, 243), Hurt(Piece(6, 1120, 243, -6, 5)), Full(7, 880, 243)]
  }

  /** After the third turn, at both players: the wiped artillery is not swept yet. */
  function Board3(): seq<UnitData> {
    [Full(0, 640, 123), Full(1, 640, 243), Full(2, 160, 243), Full(3, 640, 243),
     Full(4, 880, 243), Full(5, 880, 243), Piece(6, 1120, 243, -6, 5), Full(7, 880, 243)]
  }

  lemma Wipe1(shown: Highlights)
    requires Lit(shown, Board1(), 0)
    ensures Goes(Board2(), shown, One, -1, 1, Spot(550, 180), Spot(758, 300), Aimed(), 1)
  {
  }

  lemma WipeHits(units: seq<UnitData>)
    requires |units| == UNIT_COUNT && Struck(Aimed(), units, 2, Spot(1120, 300))
    ensures units == Wiped(units[2].actionPoints)
  {
    Hits(Aimed(), units, 2, Spot(1120, 300), 6, 8, 0);
    Spares(Aimed(), units, 2, Spot(1120, 300), 0);
    Spares(Aimed(), units, 2, Spot(1120, 300), 1);
    Spares(Aimed(), units, 2, Spot(1120, 300), 3);
    Spares(Aimed(), units, 2, Spot(1120, 300), 4);
    Spares(Aimed(), units, 2, Spot(1120, 300), 5);
    Spares(Aimed(), units, 2, Spot(1120, 300), 7);
  }

  lemma Wipe2(shown: Highlights)
    requires Lit(shown, Board1(), 0)
    ensures Selects(Aimed(), One, Spot(200, 300), 1, 2) && Attacks(Aimed(), shown, One, 2, Spot(1120, 300))
  {
    assert Over(Spot(1120, 300), Aimed()[6]);
  }

  lemma WipeLeaves(points: int)
    ensures Leaves(Wiped(points), Board2(), Board3(), Board3())
  {
  }

  lemma Wipe(c: Client, shown: Highlights) returns (ps: seq<Spot>)
    requires Turning(c, One, Board2(), -1) && Lit(shown, Board1(), 0)
    ensures AllOff(ps) && Leaves(After(c, shown, ps).units, Board2(), Board3(), Board3())
  {
    ps := [];
    Wipe1(shown);
    ps := Go(c, shown, ps, One, Board2(), -1, 1, Spot(550, 180), Spot(758, 300), Aimed(), 1);
    var units;
    Wipe2(shown);
    ps, units := Fire(c, shown, ps, One, Aimed(), 1, 2, Spot(200, 300), Spot(1120, 300));
    WipeHits(units);
    WipeLeaves(units[2].actionPoints);
  }

  // ----- the fourth turn: the wiped artillery moves, and the sniper wipes the other one -----

  function Fled(): seq<UnitData> {
    [Full(0, 640, 123), Full(1, 640, 243), Full(2, 160, 243), Full(3, 640, 243),
     Full(4, 880, 243), Full(5, 880, 243), Used(Piece(6, 1120, 363, -6, 5), 1), Full(7, 880, 243)]
  }

  function Avenged(points: int): seq<UnitData> {
    [Full(0, 640, 123), Full(1, 640, 243), Hurt(Piece(2, 160, 243, -13, 5)), Full(3, 640, 243),
     Full(4, 880, 243), Spent(Full(5, 880, 243), points), Used(Piece(6, 1120, 363, -6, 5), 1), Full(7, 880, 243)]
  }

  /** After the fourth turn, at the second player. */
  function Second4(): seq<UnitData> {
    [Full(0, 640, 123), Full(1, 640, 243), Piece(2, 160, 243, -13, 5), Full(3, 640, 243),
     Full(4, 880, 243), Full(5, 880, 243), Piece(6, 1120, 363, -6, 5), Full(7, 880, 243)]
  }

  /** At the first player the artillery is marked dead, but back on the board. */
  function First4(): seq<UnitData> {
    [Full(0, 640, 123), Full(1, 640, 243), Piece(2, 160, 243, -13, 5), Full(3, 640, 243),
     Full(4, 880, 243), Full(5, 880, 243), Dead(Piece(6, 1120, 363, -6, 5)), Full(7, 880, 243)]
  }

  lemma Avenge1(shown: Highlights)
    requires Lit(shown, Board2(), 4)
    ensures Goes(Board3(), shown, Two, -1, 6, Spot(1150, 300), Spot(1180, 420), Fled(), -1)
  {
  }

  lemma AvengeHits(units: seq<UnitData>)
    requires |units| == UNIT_COUNT && Struck(Fled(), units, 5, Spot(200, 300))
    ensures units == Avenged(units[5].actionPoints)
  {
    Hits(Fled(), units, 5, Spot(200, 300), 2, 15, 0);
    Spares(Fled(), units, 5, Spot(200, 300), 0);
    Spares(Fled(), units, 5, Spot(200, 300), 1);
    Spares(Fled(), units, 5, Spot(200, 300), 3);
    Spares(Fled(), units, 5, Spot(200, 300), 4);
    Spares(Fled(), units, 5, Spot(200, 300), 6);
    Spares(Fled(), units, 5, Spot(200, 300), 7);
  }

  lemma Avenge2(shown: Highlights)
    requires Lit(shown, Board2(), 4)
    ensures Selects(Fled(), Two, Spot(950, 300), -1, 5) && Attacks(Fled(), shown, Two, 5, Spot(200, 300))
  {
    assert Over(Spot(200, 300), Fled()[2]);
  }

  lemma AvengeLeaves(points: int)
    ensures Leaves(Avenged(points), Board3(), Second4(), First4())
  {
  }

  lemma Avenge(c: Client, shown: Highlights) returns (ps: seq<Spot>)
    requires Turning(c, Two, Board3(), -1) && Lit(shown, Board2(), 4)
    ensures AllOff(ps) && Leaves(After(c, shown, ps).units, Board3(), Second4(), First4())
  {
    ps := [];
    Avenge1(shown);
    ps := Go(c, shown, ps, Two, Board3(), -1, 6, Spot(1150, 300), Spot(1180, 420), Fled(), -1);
    var units;
    Avenge2(shown);
    ps, units := Fire(c, shown, ps, Two, Fled(), -1, 5, Spot(950, 300), Spot(200, 300));
    AvengeHits(units);
    AvengeLeaves(units[5].actionPoints);
  }

  // ----- the fifth turn: the wiped artillery revives the other, and the rest of the second army is wiped -----

  function Revived(a: int): seq<UnitData> {
    [Full(0, 640, 123), Full(1, 640, 243), Spent(Piece(2, 160, 243, -13, 5), a), Full(3, 640, 243),
     Full(4, 880, 243), Full(5, 880, 243), Hurt(Dead(Piece(6, 1120, 363, 46, 5))), Full(7, 880, 243)]
  }

  function Weakened(a: int, b: int): seq<UnitData> {
    [Full(0, 640, 123), Spent(Full(1, 640, 243), b), Spent(Piece(2, 160, 243, -13, 5), a), Full(3, 640, 243),
     Hurt(Piece(4, 880, 243, 7, 5)), Hurt(Piece(5, 880, 243, -2, 5)), Hurt(Dead(Piece(6, 1120, 363, 46, 5))), Hurt(Piece(7, 880, 243, 1, 25))]
  }

  function Closed(a: int, b: int): seq<UnitData> {
    [Used(Full(0, 640, 243), 1), Spent(Full(1, 640, 243), b), Spent(Piece(2, 160, 243, -13, 5), a), Full(3, 640, 243),
     Hurt(Piece(4, 880, 243, 7, 5)), Hurt(Piece(5, 880, 243, -2, 5)), Hurt(Dead(Piece(6, 1120, 363, 46, 5))), Hurt(Piece(7, 880, 243, 1, 25))]
  }

  function Finished(a: int, b: int, e: int): seq<UnitData> {
    [Spent(Hurt(Full(0, 640, 243)), e), Spent(Full(1, 640, 243), b), Spent(Piece(2, 160, 243, -13, 5), a), Full(3, 640, 243),
     Hurt(Piece(4, 880, 243, -3, 5)), Hurt(Piece(5, 880, 243, -12, 5)), Hurt(Dead(Piece(6, 1120, 363, 46, 5))), Hurt(Piece(7, 880, 243, -1, 25))]
  }

  /** After the fifth turn, at the first player. */
  function First5(): seq<UnitData> {
    [Full(0, 640, 243), Full(1, 640, 243), Piece(2, 160, 243, -13, 5), Full(3, 640, 243),
     Piece(4, 880, 243, -3, 5), Piece(5, 880, 243, -12, 5), Dead(Piece(6, 1120, 363, 46, 5)), Piece(7, 880, 243, -1, 25)]
  }

  /** At the second player the wiped artillery has been swept. */
  function Second5(): seq<UnitData> {
    [Full(0, 640, 243), Full(1, 640, 243), Buried(Piece(2, 160, 243, -13, 5)), Full(3, 640, 243),
     Piece(4, 880, 243, -3, 5), Piece(5, 880, 243, -12, 5), Dead(Piece(6, 1120, 363, 46, 5)), Piece(7, 880, 243, -1, 25)]
  }

  lemma ReviveHits(units: seq<UnitData>)
    requires |units| == UNIT_COUNT && Struck(First4(), units, 2, Spot(1120, 420))
    ensures units == Revived(units[2].actionPoints)
  {
    Hits(First4(), units, 2, Spot(1120, 420), 6, -52, 0);
    Spares(First4(), units, 2, Spot(1120, 420), 0);
    Spares(First4(), units, 2, Spot(1120, 420), 1);
    Spares(First4(), units, 2, Spot(1120, 420), 3);
    Spares(First4(), units, 2, Spot(1120, 420), 4);
    Spares(First4(), units, 2, Spot(1120, 420), 5);
    Spares(First4(), units, 2, Spot(1120, 420), 7);
  }

  lemma Revive(shown: Highlights)
    requires Lit(shown, Board3(), 0)
    ensures Selects(First4(), One, Spot(200, 300), -1, 2) && Attacks(First4(), shown, One, 2, Spot(1120, 420))
  {
    assert Over(Spot(1120, 420), First4()[6]);
  }

  lemma WeakenHits(a: int, units: seq<UnitData>)
    requires |units| == UNIT_COUNT && Struck(Revived(a), units, 1, Spot(950, 300))
    ensures units == Weakened(a, units[1].actionPoints)
  {
    Hits(Revived(a), units, 1, Spot(950, 300), 4, 3, 15);
    Hits(Revived(a), units, 1, Spot(950, 300), 5, 7, 5);
    Hits(Revived(a), units, 1, Spot(950, 300), 7, 0, 75);
    Spares(Revived(a), units, 1, Spot(950, 300), 0);
    Spares(Revived(a), units, 1, Spot(950, 300), 2);
    Spares(Revived(a), units, 1, Spot(950, 300), 3);
    Spares(Revived(a), units, 1, Spot(950, 300), 6);
  }

  lemma Weaken(shown: Highlights, a: int)
    requires Lit(shown, Board3(), 0)
    ensures Selects(Revived(a), One, Spot(700, 300), 2, 1) && Attacks(Revived(a), shown, One, 1, Spot(950, 300))
  {
    assert Over(Spot(950, 300), Revived(a)[4]);
  }

  lemma Close(shown: Highlights, a: int, b: int)
    requires Lit(shown, Board3(), 0)
    ensures Goes(Weakened(a, b), shown, One, 1, 0, Spot(700, 180), Spot(758, 300), Closed(a, b), 0)
  {
  }

  lemma FinishHits(a: int, b: int, units: seq<UnitData>)
    requires |units| == UNIT_COUNT && Struck(Closed(a, b), units, 0, Spot(880, 300))
    ensures units == Finished(a, b, units[0].actionPoints)
  {
    Hits(Closed(a, b), units, 0, Spot(880, 300), 4, 10, 0);
    Hits(Closed(a, b), units, 0, Spot(880, 300), 5, 10, 0);
    Hits(Closed(a, b), units, 0, Spot(880, 300), 7, 2, 0);
    Spares(Closed(a, b), units, 0, Spot(880, 300), 1);
    Spares(Closed(a, b), units, 0, Spot(880, 300), 2);
    Spares(Closed(a, b), units, 0, Spot(880, 300), 3);
    Spares(Closed(a, b), units, 0, Spot(880, 300), 6);
  }

  lemma Finish(shown: Highlights, a: int, b: int)
    requires Lit(shown, Board3(), 0)
    ensures Attacks(Closed(a, b), shown, One, 0, Spot(880, 300))
  {
    assert Over(Spot(880, 300), Closed(a, b)[4]);
  }

  lemma FinishLeaves(a: int, b: int, e: int)
    ensures Leaves(Finished(a, b, e), Second4(), First5(), Second5())
  {
  }

  lemma Revenge(c: Client, shown: Highlights) returns (ps: seq<Spot>)
    requires Turning(c, One, First4(), -1) && Lit(shown, Board3(), 0)
    ensures AllOff(ps) && Leaves(After(c, shown, ps).units, Second4(), First5(), Second5())
  {
    ps := [];
    var units;
    Revive(shown);
    ps, units := Fire(c, shown, ps, One, First4(), -1, 2, Spot(200, 300), Spot(1120, 420));
    ReviveHits(units);
    var a := units[2].actionPoints;
    Weaken(shown, a);
    ps, units := Fire(c, shown, ps, One, Revived(a), 2, 1, Spot(700, 300), Spot(950, 300));
    WeakenHits(a, units);
    var b := units[1].actionPoints;
    Close(shown, a, b);
    ps := Go(c, shown, ps, One, Weakened(a, b), 1, 0, Spot(700, 180), Spot(758, 300), Closed(a, b), 0);
    Finish(shown, a, b);
    ps, units := Shoot(c, shown, ps, One, Closed(a, b), 0, Spot(880, 300));
    FinishHits(a, b, units);
    FinishLeaves(a, b, units[0].actionPoints);
  }

  // ----- the sixth turn: the revived artillery wipes the rest of the first army -----

  function Ended(points: int): seq<UnitData> {
    [Hurt(Piece(0, 640, 243, -36, 20)), Hurt(Piece(1, 640, 243, -87, 10)), Buried(Piece(2, 160, 243, -13, 5)), Hurt(Piece(3, 640, 243, -8, 80)),
     Piece(4, 880, 243, -3, 5), Piece(5, 880, 243, -12, 5), Spent(Dead(Piece(6, 1120, 363, 46, 5)), points), Piece(7, 880, 243, -1, 25)]
  }

  /** After the sixth turn, at the second player. */
  function Second6(): seq<UnitData> {
    [Piece(0, 640, 243, -36, 20), Piece(1, 640, 243, -87, 10), Buried(Piece(2, 160, 243, -13, 5)), Piece(3, 640, 243, -8, 80),
     Piece(4, 880, 243, -3, 5), Piece(5, 880, 243, -12, 5), Dead(Piece(6, 1120, 363, 46, 5)), Piece(7, 880, 243, -1, 25)]
  }

  /** At the first player the second army is marked dead. */
  function First6(): seq<UnitData> {
    [Piece(0, 640, 243, -36, 20), Piece(1, 640, 243, -87, 10), Buried(Piece(2, 160, 243, -13, 5)), Piece(3, 640, 243, -8, 80),
     Buried(Piece(4, 880, 243, -3, 5)), Buried(Piece(5, 880, 243, -12, 5)), Dead(Piece(6, 1120, 363, 46, 5)), Buried(Piece(7, 880, 243, -1, 25))]
  }

  lemma EndHits(units: seq<UnitData>)
    requires |units| == UNIT_COUNT && Struck(Second5(), units, 6, Spot(640, 300))
    ensures units == Ended(units[6].actionPoints)
  {
    Hits(Second5(), units, 6, Spot(640, 300), 0, 46, 0);
    Hits(Second5(), units, 6, Spot(640, 300), 1, 92, 0);
    Hits(Second5(), units, 6, Spot(640, 300), 3, 9, 20);
    Spares(Second5(), units, 6, Spot(640, 300), 2);
    Spares(Second5(), units, 6, Spot(640, 300), 4);
    Spares(Second5(), units, 6, Spot(640, 300), 5);
    Spares(Second5(), units, 6, Spot(640, 300), 7);
  }

  lemma End(shown: Highlights)
    requires shown[6] == Spot(1120, 243)
    ensures Selects(Second5(), Two, Spot(1150, 420), -1, 6) && Attacks(Second5(), shown, Two, 6, Spot(640, 300))
  {
    assert Over(Spot(640, 300), Second5()[0]);
  }

  lemma EndLeaves(points: int)
    ensures Leaves(Ended(points), First5(), Second6(), First6())
  {
  }

  lemma LastTurn(c: Client, shown: Highlights) returns (ps: seq<Spot>)
    requires Turning(c, Two, Second5(), -1) && shown[6] == Spot(1120, 243)
    ensures AllOff(ps) && Leaves(After(c, shown, ps).units, First5(), Second6(), First6())
  {
    ps := [];
    var units;
    End(shown);
    ps, units := Fire(c, shown, ps, Two, Second5(), -1, 6, Spot(1150, 420), Spot(640, 300));
    EndHits(units);
    EndLeaves(units[6].actionPoints);
  }

  // ----- the whole game -----

  /** The turn of h, with these tables at h and at the other side, and unit j selected, if any. */
  predicate Stands(t: seq<UnitData>, shown: Pair<Highlights>, g: Game, h: Side, c: seq<UnitData>, d: seq<UnitData>, j: int) {
    && Played(t, shown, g) && HasTurn(g.w, h) && |c| == |d| == UNIT_COUNT
    && Turning(g.w.clients.At(h), h, c, j) && g.w.clients.At(Other(h)).units == d
  }

  lemma LeavesPassed(c: seq<UnitData>, d: seq<UnitData>, c': seq<UnitData>, d': seq<UnitData>, c2: seq<UnitData>, d2: seq<UnitData>)
    requires Leaves(c, d, c', d') && Passed(c, d, c2, d2)
    ensures c2 == c' && d2 == d'
  {
  }

  lemma LeavesUndecided(c: Client, h: Side, d: seq<UnitData>, c': seq<UnitData>, d': seq<UnitData>, alive: int)
    requires Sized(c) && c.team == Role(h) && Leaves(c.units, d, c', d') && FirstOf(Other(h)) <= alive < FirstOf(Other(h)) + 4 && !c'[alive].dead
    ensures !Won(c)
  {
    assert Settled(c.units[alive]) == c'[alive];
  }

  lemma TurnStarts(w: World, h: Side)
    requires HasTurn(w, h) && NoneSelected(w.clients.At(h)) && Sized(w.clients.At(h))
    ensures Turning(w.clients.At(h), h, w.clients.At(h).units, -1)
  {
    assert w.clients.At(h).selected == Alone(-1);
  }

  /** Nobody of a team is wiped. */
  predicate Upright(units: seq<UnitData>, t: int) {
    |units| == UNIT_COUNT && (t == 0 || t == 4) && forall k :: t <= k < t + 4 ==> !Sweep(units[k]).dead
  }

  /** Highlights that follow a team with nobody wiped stand at its units. */
  lemma FollowLit(units: seq<UnitData>, shown: Highlights, t: int)
    requires Upright(units, t)
    ensures Lit(Follow(units, shown), units, t)
  {
  }

  /** A turn's presses, and then the button. */
  lemma EndOf(t: seq<UnitData>, shown: Pair<Highlights>, g: Game, h: Side, ps: seq<Spot>, d: seq<UnitData>,
              c': seq<UnitData>, d': seq<UnitData>, alive: int) returns (g': Game)
    requires Played(t, shown, g) && HasTurn(g.w, h) && Sized(g.w.clients.At(h)) && AllOff(ps)
    requires g.w.clients.At(Other(h)).units == d && Sized(g.w.clients.At(Other(h)))
    requires Leaves(After(g.w.clients.At(h), g.shown.At(h), ps).units, d, c', d')
    requires FirstOf(Other(h)) <= alive < FirstOf(Other(h)) + 4 && !c'[alive].dead
    ensures Stands(t, shown, g', Other(h), d', c', -1)
    ensures g'.shown == g.shown.With(Other(h), Follow(d, g.shown.At(Other(h))))
    ensures Upright(d, FirstOf(Other(h))) ==> Lit(g'.shown.At(Other(h)), d, FirstOf(Other(h)))
  {
    if Upright(d, FirstOf(Other(h))) {
      FollowLit(d, g.shown.At(Other(h)), FirstOf(Other(h)));
    }
    var g1 := Presses(t, shown, g, h, ps);
    var c := g1.w.clients.At(h);
    LeavesUndecided(c, h, d, c', d', alive);
    g' := PassTurn(t, shown, g1, h);
    LeavesPassed(c.units, d, c', d', g'.w.clients.At(h).units, g'.w.clients.At(Other(h)).units);
    TurnStarts(g'.w, Other(h));
  }

  lemma StandsSized(t: seq<UnitData>, shown: Pair<Highlights>, g: Game, h: Side, c: seq<UnitData>, d: seq<UnitData>, j: int)
    requires Stands(t, shown, g, h, c, d, j)
    ensures Sized(g.w.clients.At(h)) && Sized(g.w.clients.At(Other(h)))
  {
  }

  /** The presses of the first part of a turn, and a frame. */
  lemma PartOf(t: seq<UnitData>, shown: Pair<Highlights>, g: Game, h: Side, ps: seq<Spot>, c: seq<UnitData>, d: seq<UnitData>,
               c1: seq<UnitData>, j: int) returns (g': Game)
    requires Stands(t, shown, g, h, c, d, -1) && Here(g.w.clients.At(h), g.shown.At(h), ps, h, c1, j)
    requires Upright(c1, 0) && Upright(c1, 4)
    ensures Stands(t, shown, g', h, c1, d, j) && Lit(g'.shown.At(h), c1, FirstOf(h))
  {
    var g1 := Presses(t, shown, g, h, ps);
    UprightStays(c1);
    g' := Tick(t, shown, g1, h);
    FollowLit(c1, g.shown.At(h), FirstOf(h));
  }

  lemma UprightStays(units: seq<UnitData>)
    requires Upright(units, 0) && Upright(units, 4)
    ensures SweepAll(units) == units
  {
  }

  lemma StartUpright()
    ensures Upright(StartTable(), 0) && Upright(StartTable(), 4)
  {
  }

  lemma Forward4Upright()
    ensures Upright(Forward4(), 0) && Upright(Forward4(), 4)
  {
  }

  lemma Gather3Upright()
    ensures Upright(Gather3(), 0) && Upright(Gather3(), 4)
  {
  }

  lemma BoardsUpright()
    ensures Upright(Board1(), 0) && Upright(Board2(), 4) && Upright(Board3(), 0) && Sweep(Second4()[6]).dead
  {
  }

  lemma Turn1Part(shown: Pair<Highlights>, g: Game) returns (g': Game)
    requires Stands(StartTable(), shown, g, One, StartTable(), StartTable(), -1) && Lit(g.shown.one, StartTable(), 0)
    ensures Stands(StartTable(), shown, g', One, Forward4(), StartTable(), -1) && Lit(g'.shown.one, Forward4(), 0)
  {
    Forward4Upright();
    var ps := Advance(g.w.clients.one, g.shown.one);
    g' := PartOf(StartTable(), shown, g, One, ps, StartTable(), StartTable(), Forward4(), -1);
  }

  lemma Turn1(shown: Pair<Highlights>, g: Game) returns (g': Game)
    requires Stands(StartTable(), shown, g, One, Forward4(), StartTable(), -1) && Lit(g.shown.one, Forward4(), 0)
    ensures Stands(StartTable(), shown, g', Two, Board1(), Board1(), -1) && Lit(g'.shown.two, StartTable(), 4)
  {
    StandsSized(StartTable(), shown, g, One, Forward4(), StartTable(), -1);
    var ps := Arrive(g.w.clients.one, g.shown.one);
    StartUpright();
    g' := EndOf(StartTable(), shown, g, One, ps, StartTable(), Board1(), Board1(), 4);
  }

  lemma Turn2Part(shown: Pair<Highlights>, g: Game) returns (g': Game)
    requires Stands(StartTable(), shown, g, Two, Board1(), Board1(), -1) && Lit(g.shown.two, StartTable(), 4)
    ensures Stands(StartTable(), shown, g', Two, Gather3(), Board1(), 4) && Lit(g'.shown.two, Gather3(), 4)
  {
    Gather3Upright();
    var ps := Collect(g.w.clients.two, g.shown.two);
    g' := PartOf(StartTable(), shown, g, Two, ps, Board1(), Board1(), Gather3(), 4);
  }

  lemma Turn2(shown: Pair<Highlights>, g: Game) returns (g': Game)
    requires Stands(StartTable(), shown, g, Two, Gather3(), Board1(), 4) && Lit(g.shown.two, Gather3(), 4)
    ensures Stands(StartTable(), shown, g', One, Board2(), Board2(), -1) && Lit(g'.shown.one, Board1(), 0)
  {
    StandsSized(StartTable(), shown, g, Two, Gather3(), Board1(), 4);
    var ps := Complete(g.w.clients.two, g.shown.two);
    BoardsUpright();
    g' := EndOf(StartTable(), shown, g, Two, ps, Board1(), Board2(), Board2(), 0);
  }

  lemma Turn3(shown: Pair<Highlights>, g: Game) returns (g': Game)
    requires Stands(StartTable(), shown, g, One, Board2(), Board2(), -1) && Lit(g.shown.one, Board1(), 0)
    ensures Stands(StartTable(), shown, g', Two, Board3(), Board3(), -1) && Lit(g'.shown.two, Board2(), 4)
  {
    StandsSized(StartTable(), shown, g, One, Board2(), Board2(), -1);
    var ps := Wipe(g.w.clients.one, g.shown.one);
    BoardsUpright();
    g' := EndOf(StartTable(), shown, g, One, ps, Board2(), Board3(), Board3(), 4);
  }

  lemma Turn4(shown: Pair<Highlights>, g: Game) returns (g': Game)
    requires Stands(StartTable(), shown, g, Two, Board3(), Board3(), -1) && Lit(g.shown.two, Board2(), 4)
    ensures Stands(StartTable(), shown, g', One, First4(), Second4(), -1) && Lit(g'.shown.one, Board3(), 0) && g'.shown.two[6] == Spot(1120, 243)
  {
    StandsSized(StartTable(), shown, g, Two, Board3(), Board3(), -1);
    var ps := Avenge(g.w.clients.two, g.shown.two);
    BoardsUpright();
    g' := EndOf(StartTable(), shown, g, Two, ps, Board3(), Second4(), First4(), 0);
    assert Lit(g.shown.two, Board2(), 4) && g'.shown.two == g.shown.two;
  }

  /** The artillery's highlights stay where they were before it was swept. */
  lemma Turn5(shown: Pair<Highlights>, g: Game) returns (g': Game)
    requires Stands(StartTable(), shown, g, One, First4(), Second4(), -1) && Lit(g.shown.one, Board3(), 0) && g.shown.two[6] == Spot(1120, 243)
    ensures Stands(StartTable(), shown, g', Two, Second5(), First5(), -1) && g'.shown.two[6] == Spot(1120, 243)
  {
    StandsSized(StartTable(), shown, g, One, First4(), Second4(), -1);
    var ps := Revenge(g.w.clients.one, g.shown.one);
    BoardsUpright();
    g' := EndOf(StartTable(), shown, g, One, ps, Second4(), First5(), Second5(), 4);
  }

  lemma Turn6(shown: Pair<Highlights>, g: Game) returns (g': Game)
    requires Stands(StartTable(), shown, g, Two, Second5(), First5(), -1) && g.shown.two[6] == Spot(1120, 243)
    ensures Stands(StartTable(), shown, g', One, First6(), Second6(), -1)
  {
    StandsSized(StartTable(), shown, g, Two, Second5(), First5(), -1);
    var ps := LastTurn(g.w.clients.two, g.shown.two);
    g' := EndOf(StartTable(), shown, g, Two, ps, First5(), Second6(), First6(), 0);
  }

  /** The first player's press announces its win; the second player's is a late win. */
  lemma Finale(shown: Pair<Highlights>, g: Game) returns (steps: seq<Step>)
    requires Stands(StartTable(), shown, g, One, First6(), Second6(), -1)
    ensures AllInPlay(steps) && Playable(Initial(StartTable()), shown, steps) && HasLateWin(Initial(StartTable()), steps)
  {
    var t := StartTable();
    StandsSized(t, shown, g, One, First6(), Second6(), -1);
    var g1 := PassTurn(t, shown, g, One);
    var last := Clicked(Two, ButtonPress(g1.shown.two));
    LatePress(g.w, g1.w, last.click);
    PressIsMade(Two, g1.shown);
    PlayableOne(g1.w, g1.shown, last);
    Extend(t, shown, g1, [last]);
    LateAtEnd(Initial(t), g1.steps, last);
    steps := g1.steps + [last];
  }

  lemma LatePress(w: World, w': World, click: Click)
    requires TurnPassed(w, w', One) && Sized(w.clients.one) && w.clients.one.units == First6() && w.clients.two.units == Second6()
    requires w.clients.one.team == Player1 && click.onNextTurn
    ensures LateWin(w', Clicked(Two, click))
  {
    FirstHasWon(w.clients.one);
    SecondHasWon(w.clients.one.units, w.clients.two.units, w'.clients.one.units, w'.clients.two.units, w'.clients.two);
    HeldActs(w', Two, click);
  }

  lemma HeldActs(w: World, h: Side, click: Click)
    requires Seated(w) && Held(w, h) && click.onNextTurn
    ensures PassesTurn(w.clients.At(h), click)
  {
  }

  lemma FirstHasWon(c: Client)
    requires Sized(c) && c.units == First6() && c.team == Player1
    ensures Won(c)
  {
  }

  lemma SecondHasWon(c: seq<UnitData>, d: seq<UnitData>, c': seq<UnitData>, d': seq<UnitData>, r: Client)
    requires c == First6() && d == Second6() && Passed(c, d, c', d') && Sized(r) && r.units == d' && r.team == Player2
    ensures Won(r)
  {
    forall k | 0 <= k < 4 ensures d'[k].dead {
      assert d'[k] == Caught(d[k], c[k]);
    }
  }

  lemma {:induction false} LateAtEnd(w: World, steps: seq<Step>, last: Step)
    requires LateWin(Run(w, steps), last)
    ensures HasLateWin(w, steps + [last])
    decreases |steps|
  {
    if steps == [] {
      assert steps + [last] == [last];
    } else {
      assert (steps + [last])[1..] == steps[1..] + [last];
      LateAtEnd(Next(w, steps[0]), steps[1..], last);
    }
  }

  /** The game is on, and a frame has placed the first player's highlights. */
  lemma Begin(shown: Pair<Highlights>) returns (g: Game)
    ensures Stands(StartTable(), shown, g, One, StartTable(), StartTable(), -1) && Lit(g.shown.one, StartTable(), 0)
  {
    var t := StartTable();
    StartIsGood();
    var steps := Opening(t);
    var g0 := Game(Run(Initial(t), steps), ShownAfter(Initial(t), shown, steps), steps);
    ClicklessPlayable(Initial(t), shown, steps);
    StartUpright();
    UprightStays(t);
    HeldSized(g0.w, One);
    g := Tick(t, shown, g0, One);
    FollowLit(t, g0.shown.one, 0);
    TurnStarts(g.w, One);
  }

  /**
   From the table the game starts with, and wherever the highlights stand before
   the first frame, there is a game that two players can play after which the
   two clients have finished with different winners.
   */
  lemma WinnersCanDisagree(shown: Pair<Highlights>) returns (steps: seq<Step>)
    ensures AllInPlay(steps) && Playable(Initial(StartTable()), shown, steps)
    ensures Disagree(Run(Initial(StartTable()), steps))
  {
    var g := Begin(shown);
    g := Turn1Part(shown, g);
    g := Turn1(shown, g);
    g := Turn2Part(shown, g);
    g := Turn2(shown, g);
    g := Turn3(shown, g);
    g := Turn4(shown, g);
    g := Turn5(shown, g);
    g := Turn6(shown, g);
    steps := Finale(shown, g);
    StartIsGood();
    OutcomeAgreement(StartTable(), steps);
  }
}
