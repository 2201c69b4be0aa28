/**
 How a game ends, over every interleaving of normal play: the two armies are
 never both wiped out, and exactly when the two clients record different
 winners.
 */
module GameOutcome {
  import opened Wrappers
  import opened Wire
  import opened GameUnit
  import opened GameClient
  import opened GameWorld
  import opened GamePlay

  // ----- the four things a step of play can do -----

  /** Nobody's turn, verdict, selection or log changes; at most the dead are swept. */
  predicate QuietStep(w: World, w': World) {
    forall s: Side :: QuietSide(w, w', s)
  }

  predicate QuietSide(w: World, w': World, s: Side) {
    var c, c' := w.clients.At(s), w'.clients.At(s);
    && Quiet(w, w', s)
    && c'.finished == c.finished && c'.winner == c.winner && c'.selected == c.selected
  }

  /** The holder moves, attacks or selects. */
  predicate ActStep(w: World, w': World, s: Side, click: Click) {
    var c := w.clients.At(s);
    && Held(w, s) && Held(w', s) && c.turn == c.team && Sized(c)
    && !click.onNextTurn && !c.lobby && !c.reconnecting
    && w' == SetClient(w, s, HandleClick(c, click))
    && HandleClick(c, click) == c.(units := HandleClick(c, click).units, selected := HandleClick(c, click).selected)
    && Acted(c.units, HandleClick(c, click).units, Role(s))
  }

  /** The holder passes the turn. */
  predicate EndStep(w: World, w': World, s: Side) {
    var c := w.clients.At(s);
    && Held(w, s) && Passing(w', s) && c.team == Role(s) && Sized(c)
    && w' == SetClient(w, s, EndTurn(c))
    && Log(w', Other(s)) == Shipped(c)
  }

  /** The idle side applies part of what is under way to it. */
  predicate DrainStep(w: World, w': World, s: Side) {
    var c, c' := w.clients.At(s), w'.clients.At(s);
    var q := c.unitQueue;
    && Passing(w, Other(s)) && (Held(w', s) || Passing(w', Other(s)))
    && q != [] && Log(w, s) == q + Log(w', s)
    && w'.clients.At(Other(s)) == w.clients.At(Other(s))
    && |c'.units| == |c.units| && !c.finished && c'.selected == c.selected
    && (forall k :: 0 <= k < |c.units| ==> c'.units[k] == Pending(Sweep(c.units[k]), q))
    && c'.finished == LastVerdict(q).Some?
    && c'.winner == LastVerdict(q).GetOr(c.winner)
  }

  /** The winner named by the last announcement among some messages. */
  function LastVerdict(ms: seq<UnitMsg>): Option<Team> {
    if ms == [] then None
    else
      var m := ms[|ms| - 1];
      if m.name == "endgame" then Some(if m.x == 1 then Player1 else Player2)
      else LastVerdict(ms[..|ms| - 1])
  }

  lemma {:induction false} ApplyAllVerdict(c: Client, ms: seq<UnitMsg>)
    ensures ApplyAll(c, ms).finished == (c.finished || LastVerdict(ms).Some?)
    ensures ApplyAll(c, ms).winner == LastVerdict(ms).GetOr(c.winner)
    ensures ApplyAll(c, ms).selected == c.selected
  {
    if ms != [] {
      ApplyAllVerdict(c, ms[..|ms| - 1]);
    }
  }

  lemma HopIsQuiet(w: World, step: Step)
    requires PlayInv(w) && Hop(step)
    ensures QuietStep(w, Next(w, step))
  {
    var w' := Next(w, step);
    HopKeepsTraffic(w, step);
    forall s: Side ensures QuietSide(w, w', s) {
      assert SameTraffic(w, w', s);
      var a, b := Core(w.clients.At(s)), Core(w'.clients.At(s));
      assert a.units == b.units && a.turn == b.turn && a.finished == b.finished;
      assert a.winner == b.winner && a.selected == b.selected;
    }
  }

  /** The click falls on the next-turn button of a client that may press it. */
  predicate PassesTurn(c: Client, click: Click) {
    c.turn == c.team && click.onNextTurn && !c.lobby && !c.reconnecting
  }

  lemma UnchangedIsQuiet(w: World)
    ensures QuietStep(w, w)
  {
  }

  lemma NotBoth(w: World, s: Side)
    ensures !(Held(w, s) && Passing(w, s))
  {
  }

  lemma PassStep(w: World, s: Side, click: Click)
    requires PlayInv(w) && PassesTurn(w.clients.At(s), click)
    ensures EndStep(w, Next(w, Clicked(s, click)), s)
  {
    ActorHolds(w, s);
    NextTurnKeepsPlay(w, s, click);
    NextTurnClick(w.clients.At(s), s, w.table, click);
    PassLogs(w, s);
  }

  lemma PassLogs(w: World, s: Side)
    requires Held(w, s) && Sized(w.clients.At(s))
    ensures Log(SetClient(w, s, EndTurn(w.clients.At(s))), Other(s)) == Shipped(w.clients.At(s))
  {
    HeldLogs(w, s);
    EndTurnLogs(w, s);
  }

  lemma HeldLogs(w: World, s: Side)
    requires Held(w, s)
    ensures Log(w, One) == [] && Log(w, Two) == []
  {
  }

  lemma ActingStep(w: World, s: Side, click: Click)
    requires PlayInv(w) && w.clients.At(s).turn == w.clients.At(s).team
    requires !click.onNextTurn && !w.clients.At(s).lobby && !w.clients.At(s).reconnecting
    ensures ActStep(w, Next(w, Clicked(s, click)), s, click)
  {
    var c, w' := w.clients.At(s), Next(w, Clicked(s, click));
    ActorHolds(w, s);
    ActingClickKeepsPlay(w, s, click);
    ActingClick(c, s, w.table, click);
    TurnHeld(w', s);
  }

  /** In normal play the client that believes it holds the turn does. */
  lemma TurnHeld(w: World, s: Side)
    requires PlayInv(w) && w.clients.At(s).turn == Role(s)
    ensures Held(w, s)
  {
  }

  lemma ClickStep(w: World, s: Side, click: Click)
    requires PlayInv(w)
    ensures var w' := Next(w, Clicked(s, click));
            QuietStep(w, w') || ActStep(w, w', s, click) || EndStep(w, w', s)
    ensures EndStep(w, Next(w, Clicked(s, click)), s) <==> PassesTurn(w.clients.At(s), click)
  {
    var c, w' := w.clients.At(s), Next(w, Clicked(s, click));
    if PassesTurn(c, click) {
      PassStep(w, s, click);
    } else if c.turn == c.team && !c.lobby && !c.reconnecting {
      ActingStep(w, s, click);
      NotBoth(w', s);
    } else {
      if c.turn != c.team {
        IdleClick(c, s, w.table, click);
      }
      assert w' == w;
      UnchangedIsQuiet(w);
      NotBoth(w, s);
    }
  }

  /** What draining does to a client. */
  lemma DrainedClient(c: Client, s: Side, t: seq<UnitData>)
    requires GoodTable(t) && ClientOk(c, s, t) && LogOk(c.unitQueue, t) && !c.finished
    ensures var q, r := c.unitQueue, UnitNetworkUpdate(AssignTeam(c).(units := SweepAll(c.units)));
            && r.sending == c.sending && r.received == c.received && r.unitQueue == []
            && |r.units| == |c.units| && r.selected == c.selected
            && (forall k :: 0 <= k < |c.units| ==> r.units[k] == Pending(Sweep(c.units[k]), q))
            && r.finished == LastVerdict(q).Some?
            && r.winner == LastVerdict(q).GetOr(c.winner)
  {
    var c1 := AssignTeam(c).(units := SweepAll(c.units));
    SweepKeepsKind(c.units, t);
    ApplyAllEffect(c1, c.unitQueue, t);
    ApplyAllVerdict(c1, c.unitQueue);
  }

  /** Does this frame drain the queue? */
  predicate Drains(c: Client) {
    var c0 := AssignTeam(c);
    && !c0.lobby && !c0.reconnecting && !c0.finished
    && c0.turn != c0.team && c0.team != NoTeam && c0.unitQueue != []
  }

  lemma DrainingPhase(w: World, s: Side)
    requires PlayInv(w) && Drains(w.clients.At(s))
    ensures Passing(w, Other(s))
  {
    assert Log(w, s) != [];
    LeaderPhase(w);
  }

  lemma DrainedPhase(w: World, s: Side, w': World)
    requires PlayInv(w') && Passing(w, Other(s)) && w'.clients.At(Other(s)) == w.clients.At(Other(s))
    requires Log(w', Other(s)) == Log(w, Other(s))
    ensures Held(w', s) || Passing(w', Other(s))
  {
  }

  lemma DrainingClient(c: Client, s: Side, t: seq<UnitData>)
    requires GoodTable(t) && ClientOk(c, s, t) && LogOk(c.unitQueue, t) && Drains(c)
    ensures Frame(c) == UnitNetworkUpdate(AssignTeam(c).(units := SweepAll(c.units)))
  {
    FrameIsPlayFrame(c, s, t);
  }

  lemma DrainingFrame(w: World, s: Side)
    requires PlayInv(w) && Drains(w.clients.At(s))
    ensures DrainStep(w, Next(w, Framed(s)), s)
  {
    var c := w.clients.At(s);
    var w' := Next(w, Framed(s));
    QueueOk(c.unitQueue, UnitMsgs(Pipe(w, s)), w.table);
    DrainingClient(c, s, w.table);
    DrainedClient(c, s, w.table);
    assert w' == SetClient(w, s, Frame(c));
    DrainLogs(w, s, w'.clients.At(s));
    DrainingPhase(w, s);
    FrameKeepsPlay(w, s);
    DrainedPhase(w, s, w');
  }

  lemma IdleFrame(c: Client, s: Side, t: seq<UnitData>)
    requires GoodTable(t) && ClientOk(c, s, t) && LogOk(c.unitQueue, t) && !Drains(c)
    ensures var c0 := AssignTeam(c); Frame(c) == c0 || Frame(c) == c0.(units := SweepAll(c0.units))
  {
    FrameIsPlayFrame(c, s, t);
  }

  lemma IdleFrameStep(w: World, s: Side, c': Client)
    requires var c0 := AssignTeam(w.clients.At(s)); c' == c0 || c' == c0.(units := SweepAll(c0.units))
    ensures QuietStep(w, SetClient(w, s, c'))
  {
    var c, w' := w.clients.At(s), SetClient(w, s, c');
    QuietClientFields(c, c');
    QuietVerdict(c, c');
    QuietBoth(w, s, c');
    BothQuiet(w, w', s, c');
  }

  lemma QuietVerdict(c: Client, c': Client)
    requires var c0 := AssignTeam(c); c' == c0 || c' == c0.(units := SweepAll(c0.units))
    ensures c'.finished == c.finished && c'.winner == c.winner && c'.selected == c.selected
  {
  }

  lemma BothQuiet(w: World, w': World, s: Side, c': Client)
    requires w' == SetClient(w, s, c') && Quiet(w, w', One) && Quiet(w, w', Two)
    requires var c := w.clients.At(s); c'.finished == c.finished && c'.winner == c.winner && c'.selected == c.selected
    ensures QuietStep(w, w')
  {
    forall p: Side ensures QuietSide(w, w', p) {
      assert Quiet(w, w', p);
      assert w'.clients.At(p) == if p == s then c' else w.clients.At(p);
    }
  }

  lemma FrameStep(w: World, s: Side)
    requires PlayInv(w)
    ensures QuietStep(w, Next(w, Framed(s))) || DrainStep(w, Next(w, Framed(s)), s)
  {
    var c := w.clients.At(s);
    if Drains(c) {
      DrainingFrame(w, s);
    } else {
      QueueOk(c.unitQueue, UnitMsgs(Pipe(w, s)), w.table);
      IdleFrame(c, s, w.table);
      IdleFrameStep(w, s, Frame(c));
    }
  }

  // ----- both armies are never wiped out -----

  predicate Lead(w: World, a: Side) { Held(w, a) || Passing(w, a) }

  /** Messages about a unit all carry this squad size. */
  predicate SquadIn(ms: seq<UnitMsg>, name: string, squad: int) {
    forall i :: 0 <= i < |ms| && ms[i].name == name ==> ms[i].squad == squad
  }

  /**
   What is under way to the idle side carries the leader's squad sizes, and the
   leader's own army, which a turn cannot change, has the same sizes at both.
   */
  predicate Faithful(w: World, a: Side)
    requires PlayInv(w)
  {
    var c, d, ms := w.clients.At(a).units, w.clients.At(Other(a)).units, Log(w, Other(a));
    forall k :: 0 <= k < UNIT_COUNT ==>
      (Owner(k) == Role(a) ==> d[k].squad == c[k].squad) && SquadIn(ms, w.table[k].refName, c[k].squad)
  }

  predicate Survivor(w: World, k: int)
    requires PlayInv(w)
  {
    0 <= k < UNIT_COUNT && w.clients.one.units[k].squad > 0 && w.clients.two.units[k].squad > 0
  }

  /** The leader and some unit that is alive in both tables. */
  predicate Armies(w: World, a: Side, k: int) {
    PlayInv(w) && Lead(w, a) && Faithful(w, a) && Survivor(w, k)
  }

  predicate SquadsGrow(a: seq<UnitData>, b: seq<UnitData>) {
    |a| == |b| && forall k :: 0 <= k < |a| ==> a[k].squad <= b[k].squad
  }

  lemma AttackedSquads(c: Client, click: Click, k: int, t: seq<UnitData>)
    requires Sized(c) && 0 <= k < UNIT_COUNT && GoodTable(t) && SameUnits(c.units, t)
    ensures c.units[k].squad <= 0 ==> SquadsGrow(c.units, Attacked(c, click, k).units)
    ensures c.units[k].squad >= 0 ==> SquadsGrow(Attacked(c, click, k).units, c.units)
  {
    var r := Attacked(c, click, k).units;
    forall i | 0 <= i < UNIT_COUNT
      ensures c.units[k].squad <= 0 ==> c.units[i].squad <= r[i].squad
      ensures c.units[k].squad >= 0 ==> r[i].squad <= c.units[i].squad
    {
      assert t[i].armour == c.units[i].armour && t[k].attack == c.units[k].attack;
      DamageSign(c.units[i], c.units[k]);
      HitKeepsHealth(c.units[i], DamageTo(c.units[i], c.units[k]));
    }
  }

  /** Every selected unit is wiped; every selected unit is alive. */
  predicate SelectedWiped(c: Client)
    requires Sized(c)
  {
    forall k :: 0 <= k < UNIT_COUNT && c.selected[k] ==> c.units[k].squad <= 0
  }

  predicate SelectedAlive(c: Client)
    requires Sized(c)
  {
    forall k :: 0 <= k < UNIT_COUNT && c.selected[k] ==> c.units[k].squad > 0
  }

  lemma AttackFirstSquads(c: Client, click: Click, p: int, t: seq<UnitData>)
    requires Sized(c) && (p == 0 || p == 4) && GoodTable(t) && SameUnits(c.units, t)
    ensures SelectedWiped(c) ==> SquadsGrow(c.units, AttackFirst(c, click, p).units)
    ensures SelectedAlive(c) ==> SquadsGrow(AttackFirst(c, click, p).units, c.units)
  {
    var k := AttackFirstPick(c, click, p);
    if k != -1 {
      AttackedSquads(c, click, k, t);
    }
  }

  lemma SelectedSquadsKept(c: Client, units: seq<UnitData>, role: Team)
    requires Sized(c) && SelectionOk(c, role) && Acted(c.units, units, role)
    ensures var r := c.(units := units);
            && (forall k :: 0 <= k < UNIT_COUNT && Owner(k) == role ==> units[k].squad == c.units[k].squad)
            && (SelectedWiped(c) ==> SelectedWiped(r)) && (SelectedAlive(c) ==> SelectedAlive(r))
  {
    forall k | 0 <= k < UNIT_COUNT && Owner(k) == role ensures units[k].squad == c.units[k].squad {
      assert ActedUnit(c.units[k], units[k], Owner(k) == role);
    }
  }

  lemma AttackSquads(c: Client, click: Click, t: seq<UnitData>, role: Team)
    requires Sized(c) && SelectionOk(c, role) && GoodTable(t) && SameUnits(c.units, t)
    ensures SelectedWiped(c) ==> SquadsGrow(c.units, AttackClickedUnit(c, click).units)
    ensures SelectedAlive(c) ==> SquadsGrow(AttackClickedUnit(c, click).units, c.units)
  {
    var c1 := AttackFirst(c, click, 0);
    AttackFirstSquads(c, click, 0, t);
    AttackFirstActs(c, click, 0, t, role);
    ActedKeepsKind(c.units, c1.units, t, role);
    SelectedSquadsKept(c, c1.units, role);
    AttackFirstSquads(c1, click, 4, t);
  }

  lemma MoveFirstSquads(c: Client, click: Click, t: int)
    requires Sized(c) && (t == 0 || t == 4)
    ensures var r := MoveFirst(c, click, t).units; forall k :: 0 <= k < UNIT_COUNT ==> r[k].squad == c.units[k].squad
  {
    var k := MoveFirstPick(c, click, t);
  }

  lemma PlaceSquads(c: Client, click: Click)
    requires Sized(c)
    ensures var r := PlaceUnitAtClick(c, click).units; forall k :: 0 <= k < UNIT_COUNT ==> r[k].squad == c.units[k].squad
  {
    MoveFirstSquads(c, click, 0);
    MoveFirstSquads(MoveFirst(c, click, 0), click, 4);
  }

  lemma PlacedSelection(c: Client, units: seq<UnitData>)
    requires Sized(c) && |units| == UNIT_COUNT && forall k :: 0 <= k < UNIT_COUNT ==> units[k].squad == c.units[k].squad
    ensures var r := c.(units := units);
            && (SelectedWiped(c) ==> SelectedWiped(r)) && (SelectedAlive(c) ==> SelectedAlive(r))
            && SquadsGrow(c.units, units) && SquadsGrow(units, c.units)
  {
  }

  lemma GrowTwice(a: seq<UnitData>, b: seq<UnitData>, c: seq<UnitData>)
    requires SquadsGrow(a, b) && SquadsGrow(b, c)
    ensures SquadsGrow(a, c)
  {
  }

  /** The units after the attacks of a click. */
  lemma AttackedSquadsOf(c: Client, click: Click, t: seq<UnitData>, role: Team)
    requires Sized(c) && SelectionOk(c, role) && GoodTable(t) && SameUnits(c.units, t)
    ensures var r := AttackClickedUnit(PlaceUnitAtClick(c, click), click);
            && (SelectedWiped(c) ==> SquadsGrow(c.units, r.units))
            && (SelectedAlive(c) ==> SquadsGrow(r.units, c.units))
  {
    PlaceActs(c, click, role);
    PlaceSquads(c, click);
    var c2 := PlaceUnitAtClick(c, click);
    PlacedSelection(c, c2.units);
    ActedKeepsKind(c.units, c2.units, t, role);
    AttackSquads(c2, click, t, role);
    var c3 := AttackClickedUnit(c2, click);
    if SelectedWiped(c) { GrowTwice(c.units, c2.units, c3.units); }
    if SelectedAlive(c) { GrowTwice(c3.units, c2.units, c.units); }
  }

  lemma SelectionLast(c: Client, click: Click)
    requires Sized(c)
    ensures SetSelected(c, click).units == c.units
  {
  }

  /** A click with wiped units kills nobody; a click with live units heals nobody. */
  lemma ClickSquads(c: Client, click: Click, t: seq<UnitData>, s: Side)
    requires GoodTable(t) && ClientOk(c, s, t) && c.turn == c.team && !click.onNextTurn
    ensures SelectedWiped(c) ==> SquadsGrow(c.units, HandleClick(c, click).units)
    ensures SelectedAlive(c) ==> SquadsGrow(HandleClick(c, click).units, c.units)
  {
    if !c.lobby && !c.reconnecting {
      AttackedSquadsOf(c, click, t, Role(s));
      SelectionLast(AttackClickedUnit(PlaceUnitAtClick(c, click), click), click);
    }
  }

  lemma QuietArmies(w: World, w': World, a: Side, k: int)
    requires Armies(w, a, k) && PlayInv(w') && QuietStep(w, w') && w'.table == w.table
    ensures Armies(w', a, k)
  {
    assert QuietSide(w, w', a) && QuietSide(w, w', Other(a));
    QuietSquads(w, w', One);
    QuietSquads(w, w', Two);
    QuietFaithful(w, w', a);
    LeaderPhase(w');
  }

  lemma QuietSquads(w: World, w': World, s: Side)
    requires PlayInv(w) && PlayInv(w') && QuietStep(w, w')
    ensures forall i :: 0 <= i < UNIT_COUNT ==> w'.clients.At(s).units[i].squad == w.clients.At(s).units[i].squad
  {
    assert QuietSide(w, w', s);
  }

  lemma QuietFaithful(w: World, w': World, a: Side)
    requires PlayInv(w) && Faithful(w, a) && PlayInv(w') && QuietStep(w, w') && w'.table == w.table
    ensures Faithful(w', a)
  {
    assert QuietSide(w, w', Other(a));
    QuietSquads(w, w', a);
    QuietSquads(w, w', Other(a));
  }

  lemma ActArmies(w: World, w': World, a: Side, k: int, click: Click) returns (k': int)
    requires Armies(w, a, k) && PlayInv(w') && ActStep(w, w', a, click)
    ensures Armies(w', a, k')
  {
    var c, d := w.clients.At(a), w.clients.At(Other(a));
    var r := HandleClick(c, click);
    SelectedSquadsKept(c, r.units, Role(a));
    if j :| 0 <= j < UNIT_COUNT && Owner(j) == Role(a) && c.units[j].squad > 0 {
      k' := j;
    } else {
      ClickSquads(c, click, w.table, a);
      assert SelectedWiped(c);
      k' := k;
    }
    ActFaithful(w, w', a, click);
    SurvivorAt(w', a, k');
  }

  lemma SurvivorAt(w: World, a: Side, k: int)
    requires PlayInv(w) && 0 <= k < UNIT_COUNT
    requires w.clients.At(a).units[k].squad > 0 && w.clients.At(Other(a)).units[k].squad > 0
    ensures Survivor(w, k)
  {
  }

  lemma ActFaithful(w: World, w': World, a: Side, click: Click)
    requires PlayInv(w) && Faithful(w, a) && PlayInv(w') && ActStep(w, w', a, click)
    ensures Faithful(w', a)
  {
    var c := w.clients.At(a);
    SelectedSquadsKept(c, HandleClick(c, click).units, Role(a));
    QuietLogFaithful(w', a);
  }

  lemma QuietLogFaithful(w: World, a: Side)
    requires PlayInv(w) && Log(w, Other(a)) == []
    requires forall k :: 0 <= k < UNIT_COUNT && Owner(k) == Role(a) ==>
               w.clients.At(Other(a)).units[k].squad == w.clients.At(a).units[k].squad
    ensures Faithful(w, a)
  {
  }

  lemma ShippedSquads(c: Client, t: seq<UnitData>, k: int)
    requires GoodTable(t) && Sized(c) && SameUnits(c.units, t) && 0 <= k < UNIT_COUNT
    ensures SquadIn(Shipped(c), t[k].refName, c.units[k].squad)
  {
    DirtySquads(c.units, UNIT_COUNT, t, k);
  }

  lemma {:induction false} DirtySquads(units: seq<UnitData>, n: nat, t: seq<UnitData>, k: int)
    requires GoodTable(t) && SameUnits(units, t) && n <= |units| && 0 <= k < UNIT_COUNT
    ensures SquadIn(Dirty(units, n), t[k].refName, units[k].squad)
  {
    if n > 0 {
      DirtySquads(units, n - 1, t, k);
      DirtyStep(units, n);
      assert n - 1 < k ==> t[n - 1].refName != t[k].refName;
      assert k < n - 1 ==> t[k].refName != t[n - 1].refName;
    }
  }

  lemma EndArmies(w: World, w': World, a: Side, k: int)
    requires Armies(w, a, k) && PlayInv(w') && EndStep(w, w', a)
    ensures Armies(w', a, k)
  {
    EndFaithful(w, w', a);
    EndSquads(w.clients.At(a));
    SurvivorAt(w', a, k);
  }

  lemma EndSquads(c: Client)
    requires Sized(c)
    ensures forall i :: 0 <= i < UNIT_COUNT ==> EndTurn(c).units[i].squad == c.units[i].squad
  {
  }

  lemma EndFaithful(w: World, w': World, a: Side)
    requires PlayInv(w) && Faithful(w, a) && PlayInv(w') && EndStep(w, w', a)
    ensures Faithful(w', a)
  {
    var c := w.clients.At(a);
    EndSquads(c);
    forall i | 0 <= i < UNIT_COUNT
      ensures SquadIn(Shipped(c), w.table[i].refName, c.units[i].squad)
    {
      ShippedSquads(c, w.table, i);
    }
  }

  /** A unit after part of a log: its own squad or the one the log carries. */
  lemma PendingSquad(u: UnitData, ms: seq<UnitMsg>, squad: int)
    requires SquadIn(ms, u.refName, squad)
    ensures Pending(u, ms).squad == u.squad || Pending(u, ms).squad == squad
  {
    var i := LastForIn(u.refName, ms);
  }

  lemma {:induction false} LastForIn(name: string, ms: seq<UnitMsg>) returns (i: int)
    ensures LastFor(name, ms).Some? ==> 0 <= i < |ms| && ms[i] == LastFor(name, ms).value && ms[i].name == name
  {
    i := -1;
    if ms != [] {
      if ms[|ms| - 1].name == name {
        i := |ms| - 1;
      } else {
        i := LastForIn(name, ms[..|ms| - 1]);
      }
    }
  }

  lemma SquadInRest(q: seq<UnitMsg>, rest: seq<UnitMsg>, name: string, squad: int)
    requires SquadIn(q + rest, name, squad)
    ensures SquadIn(q, name, squad) && SquadIn(rest, name, squad)
  {
    assert forall i :: 0 <= i < |q| ==> q[i] == (q + rest)[i];
    assert forall i :: 0 <= i < |rest| ==> rest[i] == (q + rest)[|q| + i];
  }

  lemma DrainSquad(w: World, w': World, s: Side, k: int)
    requires PlayInv(w) && DrainStep(w, w', s) && 0 <= k < UNIT_COUNT
    requires SquadIn(Log(w, s), w.table[k].refName, w.clients.At(Other(s)).units[k].squad)
    ensures |w'.clients.At(s).units| == UNIT_COUNT
    ensures var c, d, d' := w.clients.At(Other(s)).units[k], w.clients.At(s).units[k], w'.clients.At(s).units[k];
            d'.squad == d.squad || d'.squad == c.squad
  {
    var d := w.clients.At(s).units;
    var q, squad := w.clients.At(s).unitQueue, w.clients.At(Other(s)).units[k].squad;
    SquadInRest(q, Log(w', s), w.table[k].refName, squad);
    assert d[k].refName == w.table[k].refName;
    PendingSquad(Sweep(d[k]), q, squad);
  }

  /** What draining does to the squads of the idle side. */
  lemma DrainSquads(w: World, w': World, s: Side)
    requires PlayInv(w) && Faithful(w, Other(s)) && PlayInv(w') && DrainStep(w, w', s)
    ensures var c, d, d' := w.clients.At(Other(s)).units, w.clients.At(s).units, w'.clients.At(s).units;
            forall k :: 0 <= k < UNIT_COUNT ==> d'[k].squad == d[k].squad || d'[k].squad == c[k].squad
  {
    var c, d, d' := w.clients.At(Other(s)).units, w.clients.At(s).units, w'.clients.At(s).units;
    forall k | 0 <= k < UNIT_COUNT ensures d'[k].squad == d[k].squad || d'[k].squad == c[k].squad {
      DrainSquad(w, w', s, k);
    }
  }

  /** On gaining the turn the two tables have the same squads. */
  lemma HeldSquads(w: World, s: Side)
    requires PlayInv(w) && Held(w, s) && Clean(w.clients.At(s).units)
    ensures forall k :: 0 <= k < UNIT_COUNT ==> w.clients.At(s).units[k].squad == w.clients.At(Other(s)).units[k].squad
  {
    HeldSameView(w, s);
    var a, b := w.clients.At(s).units, w.clients.At(Other(s)).units;
    forall k | 0 <= k < UNIT_COUNT ensures a[k].squad == b[k].squad {
      assert UnitView(a[k]) == UnitView(b[k]);
      assert UnitView(a[k]).squad == a[k].squad && UnitView(b[k]).squad == b[k].squad;
    }
  }

  lemma DrainClean(w: World, w': World, s: Side)
    requires DrainStep(w, w', s)
    ensures Clean(w'.clients.At(s).units)
  {
    var d, d', q := w.clients.At(s).units, w'.clients.At(s).units, w.clients.At(s).unitQueue;
    forall k | 0 <= k < |d'| ensures !d'[k].changed {
      assert d'[k] == Pending(Sweep(d[k]), q);
      assert !d[k].changed;
    }
  }

  lemma FaithfulWhenEqual(w: World, s: Side)
    requires PlayInv(w) && Held(w, s)
    requires forall k :: 0 <= k < UNIT_COUNT ==> w.clients.At(s).units[k].squad == w.clients.At(Other(s)).units[k].squad
    ensures Faithful(w, s)
  {
    HeldLogs(w, s);
    assert Log(w, Other(s)) == [];
  }

  lemma DrainFaithful(w: World, w': World, s: Side)
    requires PlayInv(w) && Faithful(w, Other(s)) && PlayInv(w') && DrainStep(w, w', s) && w'.table == w.table
    ensures Faithful(w', Other(s))
  {
    DrainSquads(w, w', s);
    var c, d' := w'.clients.At(Other(s)).units, w'.clients.At(s).units;
    forall k | 0 <= k < UNIT_COUNT
      ensures Owner(k) == Role(Other(s)) ==> d'[k].squad == c[k].squad
      ensures SquadIn(Log(w', s), w.table[k].refName, c[k].squad)
    {
      SquadInRest(w.clients.At(s).unitQueue, Log(w', s), w.table[k].refName, c[k].squad);
    }
  }

  lemma DrainArmies(w: World, w': World, s: Side, k: int) returns (a': Side)
    requires Armies(w, Other(s), k) && PlayInv(w') && DrainStep(w, w', s) && w'.table == w.table
    ensures Armies(w', a', k)
  {
    DrainSquads(w, w', s);
    SurvivorAt(w', s, k);
    if Held(w', s) {
      a' := s;
      DrainClean(w, w', s);
      HeldSquads(w', s);
      FaithfulWhenEqual(w', s);
    } else {
      a' := Other(s);
      DrainFaithful(w, w', s);
    }
  }

  /** Only the leader acts and only the other side drains. */
  lemma LeaderActs(w: World, w': World, a: Side, s: Side, click: Click)
    requires PlayInv(w) && Lead(w, a)
    ensures ActStep(w, w', s, click) ==> s == a
    ensures EndStep(w, w', s) ==> s == a
    ensures DrainStep(w, w', s) ==> s == Other(a)
  {
  }

  lemma ClickArmies(w: World, s: Side, click: Click, a: Side, k: int) returns (k': int)
    requires Armies(w, a, k) && PlayInv(Next(w, Clicked(s, click))) && Next(w, Clicked(s, click)).table == w.table
    ensures Armies(Next(w, Clicked(s, click)), a, k')
  {
    var w' := Next(w, Clicked(s, click));
    k' := k;
    ClickStep(w, s, click);
    LeaderActs(w, w', a, s, click);
    if QuietStep(w, w') {
      QuietArmies(w, w', a, k);
    } else if ActStep(w, w', s, click) {
      k' := ActArmies(w, w', a, k, click);
    } else {
      EndArmies(w, w', a, k);
    }
  }

  lemma FrameArmies(w: World, s: Side, a: Side, k: int) returns (a': Side)
    requires Armies(w, a, k) && PlayInv(Next(w, Framed(s))) && Next(w, Framed(s)).table == w.table
    ensures Armies(Next(w, Framed(s)), a', k)
  {
    var w' := Next(w, Framed(s));
    FrameStep(w, s);
    if QuietStep(w, w') {
      a' := a;
      QuietArmies(w, w', a, k);
    } else {
      LeaderDrains(w, w', a, s);
      a' := DrainArmies(w, w', s, k);
    }
  }

  lemma LeaderDrains(w: World, w': World, a: Side, s: Side)
    requires Lead(w, a) && DrainStep(w, w', s)
    ensures a == Other(s)
  {
  }

  lemma StepKeepsTable(w: World, step: Step)
    ensures Next(w, step).table == w.table
  {
  }

  lemma StepArmies(w: World, step: Step, a: Side, k: int) returns (a': Side, k': int)
    requires Armies(w, a, k) && InPlay(step)
    ensures Armies(Next(w, step), a', k')
  {
    a', k' := a, k;
    StepKeepsPlay(w, step);
    StepKeepsTable(w, step);
    match step
    case Clicked(s, click) =>
      k' := ClickArmies(w, s, click, a, k);
    case Framed(s) =>
      a' := FrameArmies(w, s, a, k);
    case _ =>
      HopIsQuiet(w, step);
      QuietArmies(w, Next(w, step), a, k);
  }

  lemma InitialArmies(t: seq<UnitData>)
    requires GoodTable(t)
    ensures Armies(Initial(t), One, 0)
  {
    var w := Initial(t);
    InitialPlay(t);
    assert Log(w, One) == [] && Log(w, Two) == [];
    assert Held(w, One);
  }

  lemma {:induction false} RunArmies(w: World, steps: seq<Step>, a: Side, k: int) returns (a': Side, k': int)
    requires Armies(w, a, k) && AllInPlay(steps)
    ensures Armies(Run(w, steps), a', k')
    decreases |steps|
  {
    if steps == [] {
      a', k' := a, k;
    } else {
      var a1, k1 := StepArmies(w, steps[0], a, k);
      a', k' := RunArmies(Next(w, steps[0]), steps[1..], a1, k1);
    }
  }

  predicate WipedOut(units: seq<UnitData>, team: Team) {
    forall k :: 0 <= k < |units| && Owner(k) == team ==> units[k].squad <= 0
  }

  /** In every reachable state, at either client, at most one army is wiped out. */
  lemma NeverBothWiped(t: seq<UnitData>, steps: seq<Step>, s: Side)
    requires GoodTable(t) && AllInPlay(steps)
    ensures var units := Run(Initial(t), steps).clients.At(s).units;
            !(WipedOut(units, Player1) && WipedOut(units, Player2))
  {
    InitialArmies(t);
    var a, k := RunArmies(Initial(t), steps, One, 0);
    var w := Run(Initial(t), steps);
    assert w.clients.At(s).units[k].squad > 0;
  }
}
