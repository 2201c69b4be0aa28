/**
 Who wins, over every interleaving of normal play. The clients come to record
 different winners exactly when a player who has already been told the game is
 over ends a turn with every opposing unit swept; and that never happens when
 players act only with units that are alive.
 */
module GameVerdict {
  import opened Wrappers
  import opened Wire
  import opened GameUnit
  import opened GameClient
  import opened GameWorld
  import opened GamePlay
  import opened GameOutcome

  // ----- how far the outcome has got -----

  /**
   No verdict yet; announced by a side, and under way to the other; known to
   both; or declared a second time by the other.
   */
  datatype Stage = Undecided | Announced(h: Side) | Agreed(h: Side) | Disputed(h: Side)

  predicate TeamDead(units: seq<UnitData>, team: Team) {
    forall k :: 0 <= k < |units| && Owner(k) == team ==> units[k].dead
  }

  predicate OnlyVerdict(ms: seq<UnitMsg>, team: Team) {
    forall i :: 0 <= i < |ms| && ms[i].name == "endgame" ==> ms[i].x == TeamNumber(team)
  }

  predicate BothFinished(w: World) { w.clients.one.finished && w.clients.two.finished }

  predicate InStage(w: World, stage: Stage) {
    && PlayInv(w)
    && match stage
       case Undecided =>
         && !w.clients.one.finished && !w.clients.two.finished
         && LastVerdict(Log(w, One)).None? && LastVerdict(Log(w, Two)).None?
       case Announced(h) =>
         var c, d, ms := w.clients.At(h), w.clients.At(Other(h)), Log(w, Other(h));
         && Passing(w, h)
         && c.finished && c.winner == Role(h) && TeamDead(c.units, Role(Other(h)))
         && !d.finished && OnlyVerdict(ms, Role(h)) && LastVerdict(ms).Some?
       case Agreed(h) =>
         && !Held(w, h) && BothFinished(w) && TeamDead(w.clients.At(h).units, Role(Other(h)))
         && w.clients.one.winner == Role(h) && w.clients.two.winner == Role(h)
       case Disputed(h) =>
         && Passing(w, Other(h)) && BothFinished(w)
         && w.clients.At(h).winner == Role(h) && w.clients.At(Other(h)).winner == Role(Other(h))
  }

  /** Both clients have finished, and they do not record the same winner. */
  predicate Disagree(w: World) { BothFinished(w) && w.clients.one.winner != w.clients.two.winner }

  /** A client already told of the end presses next turn, and by its own table it has won. */
  predicate LateWin(w: World, step: Step) {
    && step.Clicked?
    && var c := w.clients.At(step.side); Sized(c) && c.finished && PassesTurn(c, step.click) && Won(c)
  }

  predicate HasLateWin(w: World, steps: seq<Step>)
    decreases |steps|
  {
    steps != [] && (LateWin(w, steps[0]) || HasLateWin(Next(w, steps[0]), steps[1..]))
  }

  // ----- verdicts in a log -----

  lemma {:induction false} VerdictConcat(a: seq<UnitMsg>, b: seq<UnitMsg>)
    ensures LastVerdict(a + b) == if LastVerdict(b).Some? then LastVerdict(b) else LastVerdict(a)
  {
    if b == [] {
      assert a + b == a;
    } else {
      assert (a + b)[..|a + b| - 1] == a + b[..|b| - 1];
      VerdictConcat(a, b[..|b| - 1]);
    }
  }

  lemma {:induction false} VerdictIs(ms: seq<UnitMsg>, s: Side)
    requires OnlyVerdict(ms, Role(s))
    ensures LastVerdict(ms).Some? ==> LastVerdict(ms).value == Role(s)
  {
    if ms != [] && ms[|ms| - 1].name != "endgame" {
      VerdictIs(ms[..|ms| - 1], s);
    }
  }

  predicate NoEndGame(ms: seq<UnitMsg>) { forall i :: 0 <= i < |ms| ==> ms[i].name != "endgame" }

  lemma {:induction false} NoVerdict(ms: seq<UnitMsg>)
    requires NoEndGame(ms)
    ensures LastVerdict(ms) == None
  {
    if ms != [] {
      NoVerdict(ms[..|ms| - 1]);
    }
  }

  lemma {:induction false} DirtyNoEndGame(units: seq<UnitData>, n: nat, t: seq<UnitData>)
    requires GoodTable(t) && SameUnits(units, t) && n <= |units|
    ensures NoEndGame(Dirty(units, n))
  {
    if n > 0 {
      DirtyNoEndGame(units, n - 1, t);
      DirtyStep(units, n);
    }
  }

  lemma DeadAlike(c: Client, c': Client)
    requires Sized(c) && Sized(c') && c'.team == c.team
    requires forall k :: 0 <= k < UNIT_COUNT ==> c'.units[k].dead == c.units[k].dead
    ensures Won(c') == Won(c)
  {
  }

  lemma WonIgnoresShipping(c: Client)
    requires Sized(c)
    ensures Won(ShipUnits(c)) == Won(c)
  {
    DeadAlike(c, ShipUnits(c));
  }

  lemma LastVerdictOne(m: UnitMsg)
    ensures LastVerdict([m]) == if m.name == "endgame" then Some(if m.x == 1 then Player1 else Player2) else None
  {
    assert [m][..0] == [];
  }

  /** What the end of a turn announces. */
  lemma ShippedVerdict(c: Client, s: Side, t: seq<UnitData>)
    requires GoodTable(t) && ClientOk(c, s, t) && c.team == Role(s)
    ensures LastVerdict(Shipped(c)).Some? == Won(c)
    ensures OnlyVerdict(Shipped(c), Role(s))
  {
    WonIgnoresShipping(c);
    ProtocolNames();
    var dirty := Dirty(c.units, UNIT_COUNT);
    var extra := if Won(c) then [EndGame(c.team)] else [];
    DirtyNoEndGame(c.units, UNIT_COUNT, t);
    NoVerdict(dirty);
    VerdictConcat(dirty, extra);
    VerdictConcat(dirty + extra, [END_TURN]);
    LastVerdictOne(END_TURN);
    LastVerdictOne(EndGame(c.team));
  }

  lemma WonTeamDead(c: Client, s: Side)
    requires Sized(c) && c.team == Role(s) && Won(c)
    ensures TeamDead(c.units, Role(Other(s)))
  {
  }

  // ----- what each step does to the stage -----

  lemma HeldIsTurn(w: World, s: Side)
    requires PlayInv(w)
    ensures Held(w, s) <==> Holds(w, s)
  {
    if Holds(w, s) {
      TurnHeld(w, s);
    }
  }

  lemma PassingIs(w: World, s: Side)
    requires PlayInv(w)
    ensures Passing(w, s) <==> !Holds(w, One) && !Holds(w, Two) && Log(w, Other(s)) != []
  {
  }

  lemma QuietStage(w: World, w': World, stage: Stage)
    requires InStage(w, stage) && PlayInv(w') && QuietStep(w, w')
    ensures InStage(w', stage)
  {
    assert QuietSide(w, w', One) && QuietSide(w, w', Two);
    HeldIsTurn(w, One);
    HeldIsTurn(w, Two);
    HeldIsTurn(w', One);
    HeldIsTurn(w', Two);
    PassingIs(w, One);
    PassingIs(w, Two);
    PassingIs(w', One);
    PassingIs(w', Two);
    match stage
    case Undecided =>
    case Announced(h) =>
      QuietDead(w, w', h, Role(Other(h)));
      assert QuietSide(w, w', h) && QuietSide(w, w', Other(h));
    case Agreed(h) =>
      QuietDead(w, w', h, Role(Other(h)));
    case Disputed(h) =>
  }

  lemma QuietDead(w: World, w': World, s: Side, team: Team)
    requires QuietSide(w, w', s) && TeamDead(w.clients.At(s).units, team)
    ensures TeamDead(w'.clients.At(s).units, team)
  {
  }

  /** A turn is held only before any verdict, or by the side that did not announce it. */
  lemma HeldStage(w: World, s: Side, stage: Stage)
    requires InStage(w, stage) && Held(w, s)
    ensures stage.Undecided? || stage == Agreed(Other(s))
  {
  }

  lemma ActStage(w: World, w': World, s: Side, click: Click, stage: Stage)
    requires InStage(w, stage) && PlayInv(w') && ActStep(w, w', s, click)
    ensures InStage(w', stage)
  {
    HeldStage(w, s, stage);
    HeldLogs(w, s);
    HeldLogs(w', s);
    HeldIsTurn(w', One);
    HeldIsTurn(w', Two);
  }

  lemma EndStage(w: World, w': World, s: Side, stage: Stage) returns (stage': Stage)
    requires InStage(w, stage) && PlayInv(w') && EndStep(w, w', s)
    ensures InStage(w', stage')
    ensures stage'.Disputed? <==> w.clients.At(s).finished && Won(w.clients.At(s))
  {
    var c := w.clients.At(s);
    HeldStage(w, s, stage);
    ShippedVerdict(c, s, w.table);
    WonIgnoresShipping(c);
    HeldIsTurn(w', One);
    HeldIsTurn(w', Two);
    EndFields(w, w', s);
    if Won(c) {
      WonTeamDead(c, s);
      stage' := if stage.Undecided? then Announced(s) else Disputed(Other(s));
    } else {
      stage' := stage;
    }
  }

  lemma EndTurnVerdict(c: Client)
    requires Sized(c)
    ensures var r := EndTurn(c);
            && r.finished == (c.finished || Won(c)) && r.winner == (if Won(c) then c.team else c.winner)
            && |r.units| == |c.units| && (forall k :: 0 <= k < UNIT_COUNT ==> r.units[k].dead == c.units[k].dead)
  {
    WonIgnoresShipping(c);
  }

  lemma SameDead(a: seq<UnitData>, b: seq<UnitData>, team: Team)
    requires |a| == |b| && forall k :: 0 <= k < |a| ==> a[k].dead == b[k].dead
    ensures TeamDead(a, team) == TeamDead(b, team)
  {
  }

  lemma EndLogs(w: World, w': World, s: Side)
    requires EndStep(w, w', s)
    ensures Log(w', s) == [] && Log(w', Other(s)) == Shipped(w.clients.At(s))
    ensures !Holds(w', s) && !Holds(w', Other(s))
  {
  }

  /** What the end of a turn leaves behind. */
  lemma EndFields(w: World, w': World, s: Side)
    requires PlayInv(w) && EndStep(w, w', s)
    ensures var c, c' := w.clients.At(s), w'.clients.At(s);
            && c'.finished == (c.finished || Won(c)) && c'.winner == (if Won(c) then Role(s) else c.winner)
            && w'.clients.At(Other(s)) == w.clients.At(Other(s))
            && Log(w', s) == [] && Log(w', Other(s)) == Shipped(c)
            && !Holds(w', s) && !Holds(w', Other(s))
            && (forall team :: TeamDead(c'.units, team) <==> TeamDead(c.units, team))
  {
    var c, c' := w.clients.At(s), w'.clients.At(s);
    EndTurnVerdict(c);
    EndLogs(w, w', s);
    forall team ensures TeamDead(c'.units, team) <==> TeamDead(c.units, team) {
      SameDead(c'.units, c.units, team);
    }
  }

  /** Draining part of an announcement. */
  lemma DrainAgreed(w: World, w': World, s: Side)
    requires InStage(w, Announced(Other(s))) && PlayInv(w') && DrainStep(w, w', s)
    requires LastVerdict(w.clients.At(s).unitQueue) == Some(Role(Other(s)))
    ensures InStage(w', Agreed(Other(s)))
  {
    HeldIsTurn(w', Other(s));
  }

  lemma OnlyVerdictParts(q: seq<UnitMsg>, rest: seq<UnitMsg>, team: Team)
    requires OnlyVerdict(q + rest, team)
    ensures OnlyVerdict(q, team) && OnlyVerdict(rest, team)
  {
    assert forall i :: 0 <= i < |q| ==> q[i] == (q + rest)[i];
    assert forall i :: 0 <= i < |rest| ==> rest[i] == (q + rest)[|q| + i];
  }

  lemma DrainStillAnnounced(w: World, w': World, s: Side)
    requires InStage(w, Announced(Other(s))) && PlayInv(w') && DrainStep(w, w', s)
    requires LastVerdict(w.clients.At(s).unitQueue).None?
    ensures InStage(w', Announced(Other(s)))
  {
    var q, rest := w.clients.At(s).unitQueue, Log(w', s);
    VerdictConcat(q, rest);
    OnlyVerdictParts(q, rest, Role(Other(s)));
    DrainAnnounced(w', s);
  }

  lemma DrainStage(w: World, w': World, s: Side, stage: Stage) returns (stage': Stage)
    requires InStage(w, stage) && PlayInv(w') && DrainStep(w, w', s)
    ensures InStage(w', stage') && !stage'.Disputed?
  {
    var q := w.clients.At(s).unitQueue;
    DrainedStage(w, s, stage);
    if stage.Undecided? {
      stage' := stage;
      DrainUndecided(w, w', s);
    } else {
      OnlyVerdictParts(q, Log(w', s), Role(Other(s)));
      VerdictIs(q, Other(s));
      if LastVerdict(q).Some? {
        stage' := Agreed(Other(s));
        DrainAgreed(w, w', s);
      } else {
        stage' := stage;
        DrainStillAnnounced(w, w', s);
      }
    }
  }

  lemma DrainedStage(w: World, s: Side, stage: Stage)
    requires InStage(w, stage) && Passing(w, Other(s)) && !w.clients.At(s).finished
    ensures stage.Undecided? || stage == Announced(Other(s))
  {
  }

  lemma DrainUndecided(w: World, w': World, s: Side)
    requires InStage(w, Undecided) && PlayInv(w') && DrainStep(w, w', s)
    ensures InStage(w', Undecided)
  {
    var q, rest := w.clients.At(s).unitQueue, Log(w', s);
    VerdictConcat(q, rest);
    if Held(w', s) {
      HeldLogs(w', s);
    }
  }

  /** While a verdict is under way the turn has not been handed over. */
  lemma DrainAnnounced(w: World, s: Side)
    requires LastVerdict(Log(w, s)).Some? && (Held(w, s) || Passing(w, Other(s)))
    ensures Passing(w, Other(s))
  {
    if Held(w, s) {
      HeldLogs(w, s);
    }
  }

  lemma FrameStage(w: World, s: Side, stage: Stage) returns (stage': Stage)
    requires InStage(w, stage) && PlayInv(Next(w, Framed(s)))
    ensures InStage(Next(w, Framed(s)), stage') && (stage'.Disputed? <==> stage.Disputed?)
  {
    var w' := Next(w, Framed(s));
    stage' := stage;
    FrameStep(w, s);
    if QuietStep(w, w') {
      QuietStage(w, w', stage);
    } else {
      DrainedStage(w, s, stage);
      stage' := DrainStage(w, w', s, stage);
    }
  }

  lemma StepStage(w: World, step: Step, stage: Stage) returns (stage': Stage)
    requires InStage(w, stage) && InPlay(step)
    ensures InStage(Next(w, step), stage')
    ensures stage'.Disputed? <==> stage.Disputed? || LateWin(w, step)
  {
    var w' := Next(w, step);
    stage' := stage;
    StepKeepsPlay(w, step);
    match step
    case Clicked(s, click) =>
      ClickStep(w, s, click);
      if EndStep(w, w', s) {
        HeldStage(w, s, stage);
        stage' := EndStage(w, w', s, stage);
      } else if QuietStep(w, w') {
        QuietStage(w, w', stage);
      } else {
        ActStage(w, w', s, click, stage);
      }
    case Framed(s) =>
      stage' := FrameStage(w, s, stage);
    case _ =>
      HopIsQuiet(w, step);
      QuietStage(w, w', stage);
  }

  lemma {:induction false} RunStage(w: World, steps: seq<Step>, stage: Stage) returns (stage': Stage)
    requires InStage(w, stage) && AllInPlay(steps)
    ensures InStage(Run(w, steps), stage')
    ensures stage'.Disputed? <==> stage.Disputed? || HasLateWin(w, steps)
    decreases |steps|
  {
    if steps == [] {
      stage' := stage;
    } else {
      var stage1 := StepStage(w, steps[0], stage);
      stage' := RunStage(Next(w, steps[0]), steps[1..], stage1);
    }
  }

  lemma InitialStage(t: seq<UnitData>)
    requires GoodTable(t)
    ensures InStage(Initial(t), Undecided)
  {
    InitialArmies(t);
    assert Log(Initial(t), One) == [] && Log(Initial(t), Two) == [];
  }

  lemma StageDisagrees(w: World, stage: Stage)
    requires InStage(w, stage)
    ensures Disagree(w) <==> stage.Disputed?
  {
  }

  /**
   Outcome agreement, exactly: after any run of normal play the two clients have
   finished with different winners if and only if some step of the run was a
   late win.
   */
  lemma OutcomeAgreement(t: seq<UnitData>, steps: seq<Step>)
    requires GoodTable(t) && AllInPlay(steps)
    ensures Disagree(Run(Initial(t), steps)) <==> HasLateWin(Initial(t), steps)
  {
    InitialStage(t);
    var stage := RunStage(Initial(t), steps, Undecided);
    StageDisagrees(Run(Initial(t), steps), stage);
  }

  // ----- players who act only with live units -----

  /** No wiped unit of the clicking player's own army is under the click. */
  predicate CalmClick(c: Client, s: Side, click: Click) {
    forall k :: 0 <= k < |c.units| && Owner(k) == Role(s) && MouseOn(click, c.units[k]) ==> c.units[k].squad > 0
  }

  predicate Calm(w: World, step: Step) {
    step.Clicked? ==> CalmClick(w.clients.At(step.side), step.side, step.click)
  }

  predicate AllCalm(w: World, steps: seq<Step>)
    decreases |steps|
  {
    steps != [] ==> Calm(w, steps[0]) && AllCalm(Next(w, steps[0]), steps[1..])
  }

  /** Once the wiped units are off the board, every click on the screen is calm. */
  lemma SweptIsCalm(c: Client, s: Side, click: Click)
    requires click.x >= 0
    requires forall k :: 0 <= k < |c.units| && Owner(k) == Role(s) && c.units[k].squad <= 0 ==> c.units[k].x == GRAVEYARD
    ensures CalmClick(c, s, click)
  {
  }

  predicate DeadWiped(units: seq<UnitData>) { forall k :: 0 <= k < |units| && units[k].dead ==> units[k].squad <= 0 }

  /** The leader's squads are no larger, nobody dead has soldiers, and only live units are selected. */
  predicate CalmInv(w: World, a: Side)
    requires PlayInv(w)
  {
    var c, d := w.clients.At(a), w.clients.At(Other(a));
    && SquadsGrow(c.units, d.units)
    && DeadWiped(c.units) && DeadWiped(d.units)
    && SelectedAlive(c) && SelectedAlive(d)
  }

  lemma PlacedCalm(c: Client, s: Side, click: Click, units: seq<UnitData>)
    requires Sized(c) && SelectionOk(c, Role(s)) && SelectedAlive(c) && CalmClick(c, s, click)
    requires units == PlaceUnitAtClick(c, click).units
    ensures CalmClick(c.(units := units), s, click)
  {
    var k := MoveFirstPick(c, click, 0);
    var c1 := MoveFirst(c, click, 0);
    var j := MoveFirstPick(c1, click, 4);
    forall i | 0 <= i < UNIT_COUNT && Owner(i) == Role(s) && MouseOn(click, units[i]) ensures units[i].squad > 0 {
      if !c.selected[i] {
        MovesOnlySelected(c, click, i);
      } else {
        PlaceSquads(c, click);
      }
    }
  }

  lemma MovesOnlySelected(c: Client, click: Click, i: int)
    requires Sized(c) && 0 <= i < UNIT_COUNT && !c.selected[i]
    ensures PlaceUnitAtClick(c, click).units[i] == c.units[i]
  {
    MoveFirstOnlySelected(c, click, 0, i);
    MoveFirstOnlySelected(MoveFirst(c, click, 0), click, 4, i);
  }

  lemma MoveFirstOnlySelected(c: Client, click: Click, p: int, i: int)
    requires Sized(c) && (p == 0 || p == 4) && 0 <= i < UNIT_COUNT && !c.selected[i]
    ensures MoveFirst(c, click, p).units[i] == c.units[i] && MoveFirst(c, click, p).selected == c.selected
  {
    var k := MoveFirstPick(c, click, p);
  }

  /** Only units under the click become selected. */
  lemma ToggleSelects(c: Client, click: Click, t: int, k: int)
    requires Sized(c) && 0 <= t <= k < t + 4 <= UNIT_COUNT
    ensures forall i :: 0 <= i < UNIT_COUNT && Toggle(c, click, t, k).selected[i] ==>
              c.selected[i] || (i == k && MouseOn(click, c.units[i]))
  {
  }

  lemma ToggleTeamSelects(c: Client, click: Click, t: int)
    requires Sized(c) && (t == 0 || t == 4)
    ensures forall i :: 0 <= i < UNIT_COUNT && ToggleTeam(c, click, t).selected[i] ==>
              c.selected[i] || (t <= i < t + 4 && MouseOn(click, c.units[i]))
  {
    var c1 := Toggle(c, click, t, t);
    var c2 := Toggle(c1, click, t, t + 3);
    var c3 := Toggle(c2, click, t, t + 1);
    ToggleSelects(c, click, t, t);
    ToggleSelects(c1, click, t, t + 3);
    ToggleSelects(c2, click, t, t + 1);
    ToggleSelects(c3, click, t, t + 2);
  }

  lemma SelectCalm(c: Client, s: Side, click: Click)
    requires Sized(c) && SelectionOk(c, Role(s)) && c.turn == Role(s) && c.team == Role(s)
    requires SelectedAlive(c) && CalmClick(c, s, click)
    ensures SelectedAlive(SetSelected(c, click))
  {
    ToggleTeamSelects(c, click, if s == One then 0 else 4);
    ToggleTeamKeepsSelection(c, click, if s == One then 0 else 4, Role(s));
  }

  /** A unit's own army does not lose or move anybody else in an attack. */
  lemma AttackedCalm(c: Client, s: Side, click: Click, t: seq<UnitData>)
    requires Sized(c) && SelectionOk(c, Role(s)) && GoodTable(t) && SameUnits(c.units, t) && CalmClick(c, s, click)
    ensures CalmClick(AttackClickedUnit(c, click), s, click)
  {
    var r := AttackClickedUnit(c, click).units;
    AttackActs(c, click, t, Role(s));
    forall i | 0 <= i < UNIT_COUNT && Owner(i) == Role(s) && MouseOn(click, r[i]) ensures r[i].squad > 0 {
      assert ActedUnit(c.units[i], r[i], true);
      AttackKeepsPlaces(c, click, i);
    }
  }

  lemma AttackFirstKeepsPlaces(c: Client, click: Click, p: int, i: int)
    requires Sized(c) && (p == 0 || p == 4) && 0 <= i < UNIT_COUNT
    ensures var u, v := c.units[i], AttackFirst(c, click, p).units[i]; v.x == u.x && v.y == u.y
  {
    var k := AttackFirstPick(c, click, p);
  }

  lemma AttackKeepsPlaces(c: Client, click: Click, i: int)
    requires Sized(c) && 0 <= i < UNIT_COUNT
    ensures var u, v := c.units[i], AttackClickedUnit(c, click).units[i]; v.x == u.x && v.y == u.y
  {
    AttackFirstKeepsPlaces(c, click, 0, i);
    AttackFirstKeepsPlaces(AttackFirst(c, click, 0), click, 4, i);
  }

  /** A calm click leaves only live units selected. */
  lemma ClickKeepsAlive(c: Client, s: Side, t: seq<UnitData>, click: Click)
    requires GoodTable(t) && ClientOk(c, s, t) && c.turn == c.team && !click.onNextTurn
    requires SelectedAlive(c) && CalmClick(c, s, click)
    ensures SelectedAlive(HandleClick(c, click))
  {
    if !c.lobby && !c.reconnecting {
      var role := Role(s);
      PlaceActs(c, click, role);
      var c2 := PlaceUnitAtClick(c, click);
      PlacedCalm(c, s, click, c2.units);
      PlaceSquads(c, click);
      ActedKeepsKind(c.units, c2.units, t, role);
      AttackedCalm(c2, s, click, t);
      AttackActs(c2, click, t, role);
      var c3 := AttackClickedUnit(c2, click);
      SelectedSquadsKept(c2, c3.units, role);
      SelectCalm(c3, s, click);
    }
  }

  lemma QuietCalm(w: World, w': World, a: Side)
    requires PlayInv(w) && CalmInv(w, a) && PlayInv(w') && QuietStep(w, w')
    ensures CalmInv(w', a)
  {
    assert QuietSide(w, w', a) && QuietSide(w, w', Other(a));
    SweptSquads(w.clients.At(a).units, w'.clients.At(a).units);
    SweptSquads(w.clients.At(Other(a)).units, w'.clients.At(Other(a)).units);
  }

  lemma SweptSquads(u: seq<UnitData>, v: seq<UnitData>)
    requires Swept(u, v)
    ensures SquadsGrow(u, v) && SquadsGrow(v, u) && (DeadWiped(u) ==> DeadWiped(v))
  {
  }

  lemma ActedDead(u: seq<UnitData>, v: seq<UnitData>, role: Team)
    requires Acted(u, v, role) && SquadsGrow(v, u) && DeadWiped(u)
    ensures DeadWiped(v)
  {
    forall k | 0 <= k < |v| && v[k].dead ensures v[k].squad <= 0 {
      assert ActedUnit(u[k], v[k], Owner(k) == role);
    }
  }

  predicate Smaller(a: Client, b: Client)
    requires Sized(a)
  {
    SquadsGrow(a.units, b.units) && SelectedAlive(a) && DeadWiped(a.units)
  }

  lemma ShrinkCalm(w: World, w': World, a: Side)
    requires PlayInv(w) && CalmInv(w, a) && PlayInv(w')
    requires Smaller(w'.clients.At(a), w.clients.At(a)) && w'.clients.At(Other(a)) == w.clients.At(Other(a))
    ensures CalmInv(w', a)
  {
  }

  lemma ClickShrinks(c: Client, s: Side, t: seq<UnitData>, click: Click)
    requires GoodTable(t) && ClientOk(c, s, t) && c.turn == c.team && !click.onNextTurn
    requires SelectedAlive(c) && CalmClick(c, s, click) && DeadWiped(c.units)
    ensures Smaller(HandleClick(c, click), c)
  {
    ClickSquads(c, click, t, s);
    ClickKeepsAlive(c, s, t, click);
    ActingClick(c, s, t, click);
    ActedDead(c.units, HandleClick(c, click).units, Role(s));
  }

  lemma ActCalm(w: World, w': World, a: Side, click: Click)
    requires PlayInv(w) && CalmInv(w, a) && PlayInv(w') && ActStep(w, w', a, click)
    requires CalmClick(w.clients.At(a), a, click)
    ensures CalmInv(w', a)
  {
    ClickShrinks(w.clients.At(a), a, w.table, click);
    ShrinkCalm(w, w', a);
  }

  lemma EndTurnShrinks(c: Client)
    requires Sized(c) && DeadWiped(c.units)
    ensures Smaller(EndTurn(c), c)
  {
    EndSquads(c);
    EndTurnVerdict(c);
    EndTurnDeselects(c);
  }

  lemma EndTurnDeselects(c: Client)
    requires Sized(c)
    ensures NoneSelected(EndTurn(c))
  {
    assert EndTurn(c).selected == AllClear();
  }

  lemma EndCalm(w: World, w': World, a: Side)
    requires PlayInv(w) && CalmInv(w, a) && PlayInv(w') && EndStep(w, w', a)
    ensures CalmInv(w', a)
  {
    EndTurnShrinks(w.clients.At(a));
    ShrinkCalm(w, w', a);
  }

  /** A table whose queue was applied after the sweep, with squads from the old table or the leader's. */
  lemma DrainedTable(c: seq<UnitData>, d: seq<UnitData>, d': seq<UnitData>, q: seq<UnitMsg>)
    requires |c| == |d| == |d'| == UNIT_COUNT && SquadsGrow(c, d) && DeadWiped(d)
    requires forall k :: 0 <= k < UNIT_COUNT ==> d'[k] == Pending(Sweep(d[k]), q)
    requires forall k :: 0 <= k < UNIT_COUNT ==> d'[k].squad == d[k].squad || d'[k].squad == c[k].squad
    ensures DeadWiped(d') && SquadsGrow(c, d')
  {
    forall k | 0 <= k < |d'| && d'[k].dead ensures d'[k].squad <= 0 {
      assert d'[k] == Pending(Sweep(d[k]), q);
    }
  }

  lemma DrainedDead(w: World, w': World, s: Side)
    requires PlayInv(w) && Faithful(w, Other(s)) && CalmInv(w, Other(s)) && PlayInv(w') && DrainStep(w, w', s)
    ensures DeadWiped(w'.clients.At(s).units) && SquadsGrow(w'.clients.At(Other(s)).units, w'.clients.At(s).units)
  {
    DrainSquads(w, w', s);
    DrainedTable(w.clients.At(Other(s)).units, w.clients.At(s).units, w'.clients.At(s).units, w.clients.At(s).unitQueue);
  }

  lemma DrainCalm(w: World, w': World, s: Side, a': Side)
    requires PlayInv(w) && Faithful(w, Other(s)) && CalmInv(w, Other(s)) && PlayInv(w') && DrainStep(w, w', s)
    requires Lead(w', a')
    ensures CalmInv(w', a')
  {
    DrainedDead(w, w', s);
    PassingHolds(w, s);
    if Held(w', s) {
      DrainClean(w, w', s);
      HeldSquads(w', s);
      LeadIs(w', a', s);
      EqualCalm(w', s);
    } else {
      LeadIs(w', a', Other(s));
    }
  }

  lemma EqualCalm(w: World, s: Side)
    requires PlayInv(w) && DeadWiped(w.clients.At(s).units) && DeadWiped(w.clients.At(Other(s)).units)
    requires SelectedAlive(w.clients.At(s)) && SelectedAlive(w.clients.At(Other(s)))
    requires forall k :: 0 <= k < UNIT_COUNT ==> w.clients.At(s).units[k].squad == w.clients.At(Other(s)).units[k].squad
    ensures CalmInv(w, s)
  {
  }

  lemma PassingHolds(w: World, s: Side)
    requires PlayInv(w) && Passing(w, Other(s))
    ensures !Holds(w, s) && NoneSelected(w.clients.At(s))
  {
  }

  lemma LeadIs(w: World, a: Side, b: Side)
    requires PlayInv(w) && Lead(w, a) && Lead(w, b)
    ensures a == b
  {
  }

  /** Everything calm play keeps, besides the stage. */
  predicate CalmPlay(w: World, a: Side, k: int) { Armies(w, a, k) && CalmInv(w, a) }

  lemma ClickCalm(w: World, s: Side, click: Click, a: Side)
    requires PlayInv(w) && Lead(w, a) && CalmInv(w, a) && CalmClick(w.clients.At(s), s, click)
    ensures PlayInv(Next(w, Clicked(s, click))) && Lead(Next(w, Clicked(s, click)), a)
    ensures CalmInv(Next(w, Clicked(s, click)), a)
  {
    var w' := Next(w, Clicked(s, click));
    ClickKeepsPlay(w, s, click);
    ClickStep(w, s, click);
    LeaderActs(w, w', a, s, click);
    if QuietStep(w, w') {
      QuietCalm(w, w', a);
      QuietLead(w, w', a);
    } else if ActStep(w, w', s, click) {
      ActCalm(w, w', a, click);
    } else {
      EndCalm(w, w', a);
    }
  }

  lemma FrameCalm(w: World, s: Side, a: Side, a': Side)
    requires PlayInv(w) && Lead(w, a) && Faithful(w, a) && CalmInv(w, a)
    requires PlayInv(Next(w, Framed(s))) && Lead(Next(w, Framed(s)), a')
    ensures CalmInv(Next(w, Framed(s)), a')
  {
    var w' := Next(w, Framed(s));
    FrameStep(w, s);
    if QuietStep(w, w') {
      QuietCalm(w, w', a);
      QuietLead(w, w', a);
      LeadIs(w', a', a);
    } else {
      LeadIs(w, a, Other(s));
      DrainCalm(w, w', s, a');
    }
  }

  lemma StepCalm(w: World, step: Step, a: Side, k: int) returns (a': Side, k': int)
    requires CalmPlay(w, a, k) && InPlay(step) && Calm(w, step)
    ensures CalmPlay(Next(w, step), a', k')
  {
    var w' := Next(w, step);
    a', k' := StepArmies(w, step, a, k);
    match step
    case Clicked(s, click) =>
      ClickCalm(w, s, click, a);
      LeadIs(w', a', a);
    case Framed(s) =>
      FrameCalm(w, s, a, a');
    case _ =>
      HopCalm(w, step, a, a');
  }

  lemma HopCalm(w: World, step: Step, a: Side, a': Side)
    requires PlayInv(w) && Lead(w, a) && CalmInv(w, a) && Hop(step)
    requires PlayInv(Next(w, step)) && Lead(Next(w, step), a')
    ensures CalmInv(Next(w, step), a')
  {
    var w' := Next(w, step);
    HopIsQuiet(w, step);
    QuietCalm(w, w', a);
    QuietLead(w, w', a);
    LeadIs(w', a', a);
  }

  lemma QuietLead(w: World, w': World, a: Side)
    requires PlayInv(w) && Lead(w, a) && PlayInv(w') && QuietStep(w, w')
    ensures Lead(w', a)
  {
    assert QuietSide(w, w', One) && QuietSide(w, w', Two);
    HeldIsTurn(w, a);
    HeldIsTurn(w', a);
    PassingIs(w, a);
    PassingIs(w', a);
  }

  /** In calm play nobody wins late: the announcer's table has this army dead, and this one's has the other. */
  lemma CalmNoLateWin(w: World, step: Step, a: Side, k: int, stage: Stage)
    requires CalmPlay(w, a, k) && InStage(w, stage) && InPlay(step)
    ensures !LateWin(w, step)
  {
    if LateWin(w, step) {
      var s := step.side;
      ClickStep(w, s, step.click);
      LeadIs(w, a, s);
      HeldStage(w, s, stage);
      var c, d := w.clients.At(s).units, w.clients.At(Other(s)).units;
      WonTeamDead(w.clients.At(s), s);
    }
  }

  lemma StepCalmStage(w: World, step: Step, a: Side, k: int, stage: Stage) returns (a': Side, k': int, stage': Stage)
    requires CalmPlay(w, a, k) && InStage(w, stage) && InPlay(step) && Calm(w, step)
    ensures !LateWin(w, step) && CalmPlay(Next(w, step), a', k') && InStage(Next(w, step), stage')
  {
    CalmNoLateWin(w, step, a, k, stage);
    a', k' := StepCalm(w, step, a, k);
    stage' := StepStage(w, step, stage);
  }

  lemma {:induction false} RunCalm(w: World, steps: seq<Step>, a: Side, k: int, stage: Stage)
    requires CalmPlay(w, a, k) && InStage(w, stage) && AllInPlay(steps) && AllCalm(w, steps)
    ensures !HasLateWin(w, steps)
    decreases |steps|
  {
    if steps != [] {
      var a1, k1, stage1 := StepCalmStage(w, steps[0], a, k, stage);
      var w1, rest := Next(w, steps[0]), steps[1..];
      assert AllInPlay(rest) && AllCalm(w1, rest);
      RunCalm(w1, rest, a1, k1, stage1);
    }
  }

  /** When no click ever falls on a wiped unit of the player's own, the winners always agree. */
  lemma CalmOutcome(t: seq<UnitData>, steps: seq<Step>)
    requires GoodTable(t) && AllInPlay(steps) && AllCalm(Initial(t), steps)
    ensures !Disagree(Run(Initial(t), steps))
  {
    InitialArmies(t);
    InitialStage(t);
    RunCalm(Initial(t), steps, One, 0, Undecided);
    OutcomeAgreement(t, steps);
  }

  // ----- after the end -----

  /** The client's table, turn and outcome are as they were. */
  predicate SameOutcome(c: Client, c': Client) {
    c'.units == c.units && c'.turn == c.turn && c'.winner == c.winner && c'.finished == c.finished
  }

  lemma HopOutcome(w: World, step: Step, s: Side)
    requires PlayInv(w) && Hop(step)
    ensures SameOutcome(w.clients.At(s), Next(w, step).clients.At(s))
  {
    HopKeepsTraffic(w, step);
    var c, c' := w.clients.At(s), Next(w, step).clients.At(s);
    assert SameTraffic(w, Next(w, step), s);
    assert Core(c').units == Core(c).units && Core(c').turn == Core(c).turn;
    assert Core(c').winner == Core(c).winner && Core(c').finished == Core(c).finished;
  }

  lemma FinishedFrame(c: Client)
    requires c.finished && !c.updateComplete
    ensures SameOutcome(c, Frame(c))
  {
  }

  lemma FinishedStep(w: World, step: Step, s: Side)
    requires PlayInv(w) && InPlay(step) && w.clients.At(s).finished && !(step.Clicked? && step.side == s)
    ensures SameOutcome(w.clients.At(s), Next(w, step).clients.At(s))
  {
    if Hop(step) {
      HopOutcome(w, step, s);
    } else if step.side == s {
      FinishedFrame(w.clients.At(s));
    } else {
      OthersStep(w, step, s);
    }
  }

  lemma OthersStep(w: World, step: Step, s: Side)
    requires (step.Clicked? || step.Framed?) && step.side != s
    ensures Next(w, step).clients.At(s) == w.clients.At(s)
  {
  }

  /** A client that has been told of the end, or has declared it, takes nothing more from the other: only its own clicks change what it shows. */
  lemma {:induction false} FinishedIsFinal(w: World, steps: seq<Step>, s: Side)
    requires PlayInv(w) && AllInPlay(steps) && w.clients.At(s).finished
    requires forall i :: 0 <= i < |steps| ==> !(steps[i].Clicked? && steps[i].side == s)
    ensures SameOutcome(w.clients.At(s), Run(w, steps).clients.At(s))
    decreases |steps|
  {
    if steps != [] {
      FinishedStep(w, steps[0], s);
      StepKeepsPlay(w, steps[0]);
      FinishedIsFinal(Next(w, steps[0]), steps[1..], s);
    }
  }
}
