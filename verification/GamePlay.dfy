/**
 Safety of normal play, over every interleaving of clicks, frames and message
 hops: the turn is never lost and never held twice, the idle client's table
 plus what is in flight is the acting client's table, and selections stay with
 the client that may act.
 */
module GamePlay {
  import opened Wrappers
  import opened Wire
  import opened Messages
  import opened GameUnit
  import opened GameClient
  import opened GameWorld

  // ----- well-formed tables, clients and links -----

  /** What unit tables the game starts from: the two protocol names are not unit names. */
  predicate GoodTable(t: seq<UnitData>) {
    && |t| == UNIT_COUNT
    && (forall j, k :: 0 <= j < k < |t| ==> t[j].refName != t[k].refName)
    && (forall k :: 0 <= k < |t| ==>
        && t[k].refName != "endturn" && t[k].refName != "endgame"
        && t[k].isEnemy == (k < 4)
        && t[k].attack >= 0 && 0 <= t[k].armour < 200 && t[k].health >= 1 && t[k].squad >= 1
        && !t[k].dead && !t[k].changed)
  }

  /** The same units as in the table, each with some health per soldier. */
  predicate SameUnits(units: seq<UnitData>, t: seq<UnitData>) {
    && |units| == |t|
    && forall k :: 0 <= k < |t| ==>
        && units[k].refName == t[k].refName && units[k].isEnemy == t[k].isEnemy
        && units[k].attack == t[k].attack && units[k].armour == t[k].armour
        && units[k].health >= 1
  }

  predicate MsgOk(m: UnitMsg, t: seq<UnitData>) {
    forall k :: 0 <= k < |t| && m.name == t[k].refName ==> m.hp >= 1
  }

  predicate LogOk(ms: seq<UnitMsg>, t: seq<UnitData>) { forall i :: 0 <= i < |ms| ==> MsgOk(ms[i], t) }

  /** At most one unit is selected, and only while this client may act, and only one of its own. */
  predicate SelectionOk(c: Client, role: Team)
    requires Sized(c)
  {
    && (forall k :: 0 <= k < UNIT_COUNT && c.selected[k] ==> c.turn == role && c.team == role && Owner(k) == role)
    && (forall j, k :: 0 <= j < UNIT_COUNT && 0 <= k < UNIT_COUNT && c.selected[j] && c.selected[k] ==> j == k)
  }

  predicate ClientOk(c: Client, s: Side, t: seq<UnitData>) {
    && Sized(c) && SameUnits(c.units, t) && SelectionOk(c, Role(s))
    && c.turn != NoTeam
    && (c.team == NoTeam || c.team == Role(s))
    && (c.userId == -1 || c.userId == IdOf(s))
    && !c.readyToSend && !c.updateComplete
  }

  function IdOf(s: Side): int { if s == One then 0 else 1 }

  /** The kinds of message under way to the client of side s in normal play. */
  predicate PlayMsg(m: Msg, s: Side) {
    m.Chat? || m.UnitUpdate? || m.Start? || m == Init(IdOf(s)) || m == Reconnect(false)
  }

  predicate PipeOk(ms: seq<Msg>, s: Side) { forall i :: 0 <= i < |ms| ==> PlayMsg(ms[i], s) }

  // ----- what a log says about a unit -----

  /** What both players see of a unit, once wiped squads are swept off the board. */
  datatype View = View(x: int, y: int, squad: int, health: int)

  function ViewOf(x: int, y: int, squad: int, health: int): View {
    if squad <= 0 then View(GRAVEYARD, GRAVEYARD, squad, health) else View(x, y, squad, health)
  }

  function UnitView(u: UnitData): View { ViewOf(u.x, u.y, u.squad, u.health) }

  function LastFor(name: string, ms: seq<UnitMsg>): Option<UnitMsg> {
    if ms == [] then None
    else if ms[|ms| - 1].name == name then Some(ms[|ms| - 1])
    else LastFor(name, ms[..|ms| - 1])
  }

  /** The unit as it will be once the log is applied. */
  function Pending(u: UnitData, ms: seq<UnitMsg>): UnitData {
    var last := LastFor(u.refName, ms);
    if last.None? then u
    else u.(x := last.value.x, y := last.value.y, squad := last.value.squad, health := last.value.hp)
  }

  /** Except for units the sender has yet to ship, the receiver with its log agrees with the sender. */
  predicate Agree(sender: seq<UnitData>, receiver: seq<UnitData>, ms: seq<UnitMsg>) {
    && |sender| == |receiver|
    && forall k :: 0 <= k < |sender| ==> sender[k].changed || UnitView(sender[k]) == UnitView(Pending(receiver[k], ms))
  }

  predicate Clean(units: seq<UnitData>) { forall k :: 0 <= k < |units| ==> !units[k].changed }

  function EndTurns(ms: seq<UnitMsg>): nat {
    if ms == [] then 0 else EndTurns(ms[..|ms| - 1]) + if ms[|ms| - 1].name == "endturn" then 1 else 0
  }

  // ----- the invariant -----

  /** The client of side h may act; nothing is in flight. */
  predicate Held(w: World, h: Side) {
    var c, d := w.clients.At(h), w.clients.At(Other(h));
    && c.turn == Role(h) && d.turn == Role(h)
    && Log(w, One) == [] && Log(w, Two) == []
    && Clean(d.units) && Agree(c.units, d.units, [])
  }

  /** The client of side s has passed the turn and its log is on its way to the other. */
  predicate Passing(w: World, s: Side) {
    var c, d := w.clients.At(s), w.clients.At(Other(s));
    var ms := Log(w, Other(s));
    && c.turn == Role(Other(s)) && d.turn == Role(s)
    && Log(w, s) == []
    && ms != [] && ms[|ms| - 1] == END_TURN && EndTurns(ms[..|ms| - 1]) == 0
    && Clean(c.units) && Clean(d.units) && Agree(c.units, d.units, ms)
  }

  predicate Phase(w: World) { Held(w, One) || Held(w, Two) || Passing(w, One) || Passing(w, Two) }

  predicate PlayInv(w: World) {
    && GoodTable(w.table)
    && w.present == Pair(true, true)
    && ClientOk(w.clients.one, One, w.table) && ClientOk(w.clients.two, Two, w.table)
    && PipeOk(Pipe(w, One), One) && PipeOk(Pipe(w, Two), Two)
    && LogOk(Log(w, One), w.table) && LogOk(Log(w, Two), w.table)
    && Phase(w)
  }

  lemma InitialPlay(t: seq<UnitData>)
    requires GoodTable(t)
    ensures PlayInv(Initial(t))
  {
    var w := Initial(t);
    assert Pipe(w, One) == [Init(0), Start];
    assert Pipe(w, Two) == [Init(1), Start];
    assert [Init(0), Start][1..] == [Start] && [Init(1), Start][1..] == [Start] && [Start][1..] == [];
    assert UnitMsgs([Start]) == [];
    assert Held(w, One);
  }

  // ----- hops of messages change nobody's view -----

  /** The part of a client that hops leave alone. */
  function Core(c: Client): Client {
    c.(userId := 0, lobby := false, reconnecting := false, dataSender := false, sending := [], received := [], unitQueue := [])
  }

  predicate Hop(step: Step) { step.Chatted? || step.Sent? || step.Relayed? || step.Delivered? || step.Processed? }

  /** What a hop keeps of the traffic toward side s. */
  predicate SameTraffic(w: World, w': World, s: Side) {
    && Log(w', s) == Log(w, s)
    && PipeOk(Pipe(w', s), s)
    && Core(w'.clients.At(s)) == Core(w.clients.At(s))
    && (w.clients.At(s).userId in {-1, IdOf(s)} ==> w'.clients.At(s).userId in {-1, IdOf(s)})
  }

  lemma SentPipes(w: World, s: Side, m: Msg, sending: seq<Msg>)
    requires w.clients.At(s).sending == [m] + sending && w.present.At(s)
    ensures var w' := Next(w, Sent(s));
            Pipe(w', s) == Pipe(w, s) && Pipe(w', Other(s)) == Pipe(w, Other(s))
  {
    var w' := Next(w, Sent(s));
    assert w.clients.At(s).sending[1..] == sending;
    assert Pipe(w', Other(s)) == Pipe(w, Other(s));
    assert Pipe(w', s) == Pipe(w, s);
  }

  lemma SentKeeps(w: World, s: Side)
    requires PipeOk(Pipe(w, One), One) && PipeOk(Pipe(w, Two), Two)
    ensures var w' := Next(w, Sent(s)); SameTraffic(w, w', One) && SameTraffic(w, w', Two)
  {
    var sending := w.clients.At(s).sending;
    if sending != [] && w.present.At(s) {
      assert sending == [sending[0]] + sending[1..];
      SentPipes(w, s, sending[0], sending[1..]);
      SentCore(w, s, One);
      SentCore(w, s, Two);
      SamePipes(w, Next(w, Sent(s)), s);
      SamePipes(w, Next(w, Sent(s)), Other(s));
    }
  }

  lemma SentCore(w: World, s: Side, p: Side)
    ensures var c, c' := w.clients.At(p), Next(w, Sent(s)).clients.At(p);
            Core(c') == Core(c) && c'.unitQueue == c.unitQueue && c'.userId == c.userId
  {
  }

  /** Steps that move messages along a pipe and touch nothing else. */
  lemma SamePipes(w: World, w': World, p: Side)
    requires PipeOk(Pipe(w, p), p) && Pipe(w', p) == Pipe(w, p)
    requires var c, c' := w.clients.At(p), w'.clients.At(p);
             Core(c') == Core(c) && c'.unitQueue == c.unitQueue && c'.userId == c.userId
    ensures SameTraffic(w, w', p)
  {
  }

  /** A message that carries no unit can be dropped from the middle of a pipe. */
  lemma DropMessage(before: seq<Msg>, m: Msg, after: seq<Msg>, s: Side)
    requires PipeOk(before + [m] + after, s) && !m.UnitUpdate?
    ensures PipeOk(before + after, s) && UnitMsgs(before + after) == UnitMsgs(before + [m] + after)
  {
    UnitMsgsConcat(before + [m], after);
    UnitMsgsConcat(before, [m]);
    UnitMsgsConcat(before, after);
    assert UnitMsgs([m]) == [];
    assert UnitMsgs(before) + [] == UnitMsgs(before);
    forall i | 0 <= i < |before + after| ensures PlayMsg((before + after)[i], s) {
      assert (before + after)[i] == (before + [m] + after)[if i < |before| then i else i + 1];
    }
  }

  lemma RelayedPipes(w: World, s: Side, m: Msg, up: seq<Msg>)
    requires w.up.At(s) == [m] + up && w.present == Pair(true, true) && !m.Resume?
    ensures var w' := Next(w, Relayed(s));
            var before := w.clients.At(Other(s)).received + w.down.At(Other(s));
            var after := up + w.clients.At(s).sending;
            && w'.clients == w.clients && w'.table == w.table && w'.present == w.present
            && Pipe(w', s) == Pipe(w, s)
            && Pipe(w, Other(s)) == before + [m] + after
            && Pipe(w', Other(s)) == if Forwarded(m) then before + [m] + after else before + after
  {
    assert w.up.At(s)[1..] == up;
  }

  lemma RelayedKeeps(w: World, s: Side)
    requires w.present == Pair(true, true)
    requires PipeOk(Pipe(w, One), One) && PipeOk(Pipe(w, Two), Two)
    ensures var w' := Next(w, Relayed(s)); SameTraffic(w, w', One) && SameTraffic(w, w', Two)
  {
    if w.up.At(s) != [] {
      var m, up := w.up.At(s)[0], w.up.At(s)[1..];
      assert w.up.At(s) == [m] + up;
      var before := w.clients.At(Other(s)).received + w.down.At(Other(s));
      var after := up + w.clients.At(s).sending;
      assert Pipe(w, Other(s))[|before|] == m;
      RelayedPipes(w, s, m, up);
      if !Forwarded(m) {
        DropMessage(before, m, after, Other(s));
      }
    }
  }

  lemma DeliveredKeeps(w: World, s: Side)
    requires PipeOk(Pipe(w, One), One) && PipeOk(Pipe(w, Two), Two)
    ensures var w' := Next(w, Delivered(s)); SameTraffic(w, w', One) && SameTraffic(w, w', Two)
  {
    var w' := Next(w, Delivered(s));
    var down := w.down.At(s);
    if down != [] {
      assert down == [down[0]] + down[1..];
      assert Pipe(w', s) == Pipe(w, s);
      assert Pipe(w', Other(s)) == Pipe(w, Other(s));
    }
  }

  /** Taking the first received message off the pipe, whatever is made of it. */
  lemma TakenPipes(w: World, s: Side, m: Msg, c': Client)
    requires w.clients.At(s).received == [m] + c'.received
    requires c'.sending == w.clients.At(s).sending
    ensures var w' := SetClient(w, s, c');
            Pipe(w, s) == [m] + Pipe(w', s) && Pipe(w', Other(s)) == Pipe(w, Other(s))
  {
  }

  lemma ProcessedClient(c: Client, m: Msg, s: Side)
    requires PlayMsg(m, s)
    ensures var c' := ProcessReceived(c, m);
            && c'.sending == c.sending && c'.received == c.received
            && c'.unitQueue == c.unitQueue + (if m.UnitUpdate? then [m.unit] else [])
            && Core(c') == Core(c) && (c.userId in {-1, IdOf(s)} ==> c'.userId in {-1, IdOf(s)})
  {
    assert c.unitQueue + [] == c.unitQueue;
    match m
    case Init(_) =>
    case UnitUpdate(_) =>
    case Reconnect(_) =>
    case _ =>
  }

  lemma ProcessedKeeps(w: World, s: Side)
    requires PipeOk(Pipe(w, One), One) && PipeOk(Pipe(w, Two), Two)
    ensures var w' := Next(w, Processed(s)); SameTraffic(w, w', One) && SameTraffic(w, w', Two)
  {
    if w.clients.At(s).received != [] {
      var m, received := w.clients.At(s).received[0], w.clients.At(s).received[1..];
      assert w.clients.At(s).received == [m] + received;
      assert Pipe(w, s)[0] == m;
      ProcessedTaken(w, s, m, w.clients.At(s).(received := received));
    }
  }

  lemma ProcessedTaken(w: World, s: Side, m: Msg, c: Client)
    requires PipeOk(Pipe(w, One), One) && PipeOk(Pipe(w, Two), Two) && PlayMsg(m, s)
    requires w.clients.At(s).received == [m] + c.received && c == w.clients.At(s).(received := c.received)
    ensures var w' := SetClient(w, s, ProcessReceived(c, m)); SameTraffic(w, w', One) && SameTraffic(w, w', Two)
  {
    ProcessedClient(c, m, s);
    TakenKeeps(w, s, m, ProcessReceived(c, m));
  }

  lemma TakenKeeps(w: World, s: Side, m: Msg, c': Client)
    requires PipeOk(Pipe(w, One), One) && PipeOk(Pipe(w, Two), Two)
    requires w.clients.At(s).received == [m] + c'.received
    requires c'.sending == w.clients.At(s).sending
    requires c'.unitQueue == w.clients.At(s).unitQueue + (if m.UnitUpdate? then [m.unit] else [])
    requires Core(c') == Core(w.clients.At(s))
    requires w.clients.At(s).userId in {-1, IdOf(s)} ==> c'.userId in {-1, IdOf(s)}
    ensures var w' := SetClient(w, s, c'); SameTraffic(w, w', One) && SameTraffic(w, w', Two)
  {
    var w' := SetClient(w, s, c');
    TakenPipes(w, s, m, c');
    assert Pipe(w, s)[0] == m && Pipe(w, s)[1..] == Pipe(w', s);
    forall i | 0 <= i < |Pipe(w', s)| ensures PlayMsg(Pipe(w', s)[i], s) {
      assert Pipe(w', s)[i] == Pipe(w, s)[i + 1];
    }
    assert Log(w', s) == Log(w, s);
    assert Log(w', Other(s)) == Log(w, Other(s));
  }

  lemma ChattedKeeps(w: World, s: Side, username: string, text: string)
    requires PipeOk(Pipe(w, One), One) && PipeOk(Pipe(w, Two), Two)
    ensures var w' := Next(w, Chatted(s, username, text)); SameTraffic(w, w', One) && SameTraffic(w, w', Two)
  {
    var w' := Next(w, Chatted(s, username, text));
    var chat := Chat(username, text);
    assert Pipe(w', s) == Pipe(w, s);
    if w' != w {
      assert Pipe(w', Other(s)) == Pipe(w, Other(s)) + [chat];
      UnitMsgsConcat(Pipe(w, Other(s)), [chat]);
      assert UnitMsgs([chat]) == [];
    }
  }

  lemma HopKeepsTraffic(w: World, step: Step)
    requires Hop(step) && w.present == Pair(true, true)
    requires PipeOk(Pipe(w, One), One) && PipeOk(Pipe(w, Two), Two)
    ensures var w' := Next(w, step); SameTraffic(w, w', One) && SameTraffic(w, w', Two)
    ensures Next(w, step).table == w.table && Next(w, step).present == w.present
  {
    match step
    case Chatted(s, username, text) => ChattedKeeps(w, s, username, text);
    case Sent(s) => SentKeeps(w, s);
    case Relayed(s) => RelayedKeeps(w, s);
    case Delivered(s) => DeliveredKeeps(w, s);
    case Processed(s) => ProcessedKeeps(w, s);
  }

  lemma ClientCore(c: Client, c': Client, s: Side, t: seq<UnitData>)
    requires ClientOk(c, s, t) && Core(c') == Core(c) && c'.userId in {-1, IdOf(s)}
    ensures ClientOk(c', s, t)
  {
    assert Core(c').units == Core(c).units && Core(c').selected == Core(c).selected;
    assert Core(c').turn == Core(c).turn && Core(c').team == Core(c).team;
    assert Core(c').readyToSend == Core(c).readyToSend && Core(c').updateComplete == Core(c).updateComplete;
  }

  lemma PhaseCore(w: World, w': World)
    requires Phase(w)
    requires SameTraffic(w, w', One) && SameTraffic(w, w', Two)
    ensures Phase(w')
  {
    forall s: Side
      ensures w'.clients.At(s).units == w.clients.At(s).units && w'.clients.At(s).turn == w.clients.At(s).turn
    {
      assert Core(w'.clients.At(s)).units == Core(w.clients.At(s)).units;
      assert Core(w'.clients.At(s)).turn == Core(w.clients.At(s)).turn;
    }
    if Held(w, One) {
      assert Held(w', One);
    } else if Held(w, Two) {
      assert Held(w', Two);
    } else if Passing(w, One) {
      assert Passing(w', One);
    } else {
      assert Passing(w', Two);
    }
  }

  lemma HopKeepsPlay(w: World, step: Step)
    requires PlayInv(w) && Hop(step)
    ensures PlayInv(Next(w, step))
  {
    HopKeepsTraffic(w, step);
    ClientCore(w.clients.one, Next(w, step).clients.one, One, w.table);
    ClientCore(w.clients.two, Next(w, step).clients.two, Two, w.table);
    PhaseCore(w, Next(w, step));
  }

  // ----- clicks -----

  /**
   What a click by the player of `role` may do to the table: move its own units,
   hit the other's, and mark as dirty whatever it touches.
   */
  predicate Acted(before: seq<UnitData>, after: seq<UnitData>, role: Team) {
    && |after| == |before|
    && forall k :: 0 <= k < |before| ==> ActedUnit(before[k], after[k], Owner(k) == role)
  }

  predicate ActedUnit(u: UnitData, v: UnitData, own: bool) {
    && v.refName == u.refName && v.isEnemy == u.isEnemy && v.attack == u.attack && v.armour == u.armour
    && v.maxActionPoints == u.maxActionPoints && v.dead == u.dead
    && (u.changed ==> v.changed)
    && (own ==> v.squad == u.squad && v.health == u.health)
    && (!own ==> v.x == u.x && v.y == u.y && v.actionPoints == u.actionPoints)
    && (v.changed || (v.x == u.x && v.y == u.y && v.squad == u.squad && v.health == u.health))
    && (u.health >= 1 ==> v.health >= 1)
  }

  predicate NoneSelected(c: Client)
    requires Sized(c)
  {
    forall k :: 0 <= k < UNIT_COUNT ==> !c.selected[k]
  }

  lemma NoSelectionNoAction(c: Client, click: Click)
    requires Sized(c) && NoneSelected(c)
    ensures PlaceUnitAtClick(c, click) == c && AttackClickedUnit(c, click) == c
  {
    assert MoveFirst(c, click, 0) == c && MoveFirst(c, click, 4) == c;
    assert AttackFirst(c, click, 0) == c && AttackFirst(c, click, 4) == c;
  }

  /** A client that may not act is not affected by any click. */
  lemma IdleClick(c: Client, s: Side, t: seq<UnitData>, click: Click)
    requires ClientOk(c, s, t) && c.turn != c.team
    ensures HandleClick(c, click) == c
  {
    NoSelectionNoAction(c, click);
  }

  /** After the next-turn button the rest of the click does nothing. */
  lemma NextTurnClick(c: Client, s: Side, t: seq<UnitData>, click: Click)
    requires ClientOk(c, s, t) && c.turn == c.team && click.onNextTurn && !c.lobby && !c.reconnecting
    ensures HandleClick(c, click) == EndTurn(c)
  {
    var c1 := EndTurn(c);
    assert c1.selected == AllClear() && c1.turn == Opponent(c.turn) && c1.team == c.team;
    NoSelectionNoAction(c1, click);
  }

  lemma MovedActs(c: Client, click: Click, k: int, role: Team)
    requires Sized(c) && 0 <= k < UNIT_COUNT && Owner(k) == role
    ensures Acted(c.units, Moved(c, click, k).units, role)
  {
  }

  /** Which unit, if any, a team moves: one that is selected. */
  lemma MoveFirstPick(c: Client, click: Click, t: int) returns (k: int)
    requires Sized(c) && (t == 0 || t == 4)
    ensures k == -1 || (t <= k < t + 4 && CanMove(c, click, k))
    ensures MoveFirst(c, click, t) == if k == -1 then c else Moved(c, click, k)
  {
    k := if CanMove(c, click, t) then t
         else if CanMove(c, click, t + 2) then t + 2
         else if CanMove(c, click, t + 3) then t + 3
         else if CanMove(c, click, t + 1) then t + 1
         else -1;
  }

  lemma UntouchedActs(units: seq<UnitData>, role: Team)
    ensures Acted(units, units, role)
  {
  }

  lemma MoveFirstActs(c: Client, click: Click, t: int, role: Team)
    requires Sized(c) && SelectionOk(c, role) && (t == 0 || t == 4)
    ensures var r := MoveFirst(c, click, t); r == c.(units := r.units) && Acted(c.units, r.units, role)
  {
    var k := MoveFirstPick(c, click, t);
    if k == -1 {
      UntouchedActs(c.units, role);
    } else {
      MovedActs(c, click, k, role);
    }
  }

  lemma TakeDamageActs(u: UnitData, dealer: UnitData)
    ensures ActedUnit(u, TakeDamage(u, dealer), false)
  {
    if u.health >= 1 {
      HitKeepsHealth(u, DamageTo(u, dealer));
    }
  }

  lemma AttackedActs(c: Client, click: Click, k: int, t: seq<UnitData>, role: Team)
    requires Sized(c) && 0 <= k < UNIT_COUNT && Owner(k) == role && GoodTable(t) && SameUnits(c.units, t)
    ensures Acted(c.units, Attacked(c, click, k).units, role)
  {
    var dealer := c.units[k];
    var r := Attacked(c, click, k).units;
    forall i | 0 <= i < UNIT_COUNT ensures ActedUnit(c.units[i], r[i], Owner(i) == role) {
      assert c.units[i].isEnemy == t[i].isEnemy && dealer.isEnemy == t[k].isEnemy;
      TakeDamageActs(c.units[i], dealer);
    }
  }

  /** Which unit, if any, of a team attacks: one that is selected. */
  lemma AttackFirstPick(c: Client, click: Click, t: int) returns (k: int)
    requires Sized(c) && (t == 0 || t == 4)
    ensures k == -1 || (t <= k < t + 4 && CanAttack(c, click, k))
    ensures AttackFirst(c, click, t) == if k == -1 then c else Attacked(c, click, k)
  {
    k := if CanAttack(c, click, t) then t
         else if CanAttack(c, click, t + 2) then t + 2
         else if CanAttack(c, click, t + 3) then t + 3
         else if CanAttack(c, click, t + 1) then t + 1
         else -1;
  }

  lemma AttackFirstActs(c: Client, click: Click, p: int, t: seq<UnitData>, role: Team)
    requires Sized(c) && SelectionOk(c, role) && (p == 0 || p == 4) && GoodTable(t) && SameUnits(c.units, t)
    ensures var r := AttackFirst(c, click, p); r == c.(units := r.units) && Acted(c.units, r.units, role)
  {
    var k := AttackFirstPick(c, click, p);
    if k == -1 {
      UntouchedActs(c.units, role);
    } else {
      AttackedActs(c, click, k, t, role);
    }
  }

  lemma ActedTwice(a: seq<UnitData>, b: seq<UnitData>, c: seq<UnitData>, role: Team)
    requires Acted(a, b, role) && Acted(b, c, role)
    ensures Acted(a, c, role)
  {
    forall k | 0 <= k < |a| ensures ActedUnit(a[k], c[k], Owner(k) == role) {
      assert ActedUnit(a[k], b[k], Owner(k) == role) && ActedUnit(b[k], c[k], Owner(k) == role);
    }
  }

  lemma ActedKeepsKind(a: seq<UnitData>, b: seq<UnitData>, t: seq<UnitData>, role: Team)
    requires Acted(a, b, role) && SameUnits(a, t)
    ensures SameUnits(b, t)
  {
    forall k | 0 <= k < |t|
      ensures b[k].refName == t[k].refName && b[k].isEnemy == t[k].isEnemy && b[k].attack == t[k].attack
              && b[k].armour == t[k].armour && b[k].health >= 1
    {
      assert ActedUnit(a[k], b[k], Owner(k) == role);
    }
  }

  lemma PlaceActs(c: Client, click: Click, role: Team)
    requires Sized(c) && SelectionOk(c, role)
    ensures var r := PlaceUnitAtClick(c, click); r == c.(units := r.units) && Acted(c.units, r.units, role)
  {
    MoveFirstActs(c, click, 0, role);
    var c1 := MoveFirst(c, click, 0);
    MoveFirstActs(c1, click, 4, role);
    ActedTwice(c.units, c1.units, MoveFirst(c1, click, 4).units, role);
    UntouchedActs(c.units, role);
  }

  lemma AttackActs(c: Client, click: Click, t: seq<UnitData>, role: Team)
    requires Sized(c) && SelectionOk(c, role) && GoodTable(t) && SameUnits(c.units, t)
    ensures var r := AttackClickedUnit(c, click); r == c.(units := r.units) && Acted(c.units, r.units, role)
  {
    AttackFirstActs(c, click, 0, t, role);
    var c1 := AttackFirst(c, click, 0);
    ActedKeepsKind(c.units, c1.units, t, role);
    AttackFirstActs(c1, click, 4, t, role);
    ActedTwice(c.units, c1.units, AttackFirst(c1, click, 4).units, role);
    UntouchedActs(c.units, role);
  }

  lemma ToggleKeepsSelection(c: Client, click: Click, t: int, k: int, role: Team)
    requires Sized(c) && SelectionOk(c, role) && c.turn == role && c.team == role
    requires (t == 0 || t == 4) && t <= k < t + 4 && Owner(t) == role
    ensures SelectionOk(Toggle(c, click, t, k), role)
  {
  }

  lemma ToggleTeamKeepsSelection(c: Client, click: Click, t: int, role: Team)
    requires Sized(c) && SelectionOk(c, role) && c.turn == role && c.team == role
    requires (t == 0 || t == 4) && Owner(t) == role
    ensures var r := ToggleTeam(c, click, t); r == c.(selected := r.selected) && SelectionOk(r, role)
  {
    var c1 := Toggle(c, click, t, t);
    var c2 := Toggle(c1, click, t, t + 3);
    var c3 := Toggle(c2, click, t, t + 1);
    ToggleKeepsSelection(c, click, t, t, role);
    ToggleKeepsSelection(c1, click, t, t + 3, role);
    ToggleKeepsSelection(c2, click, t, t + 1, role);
    ToggleKeepsSelection(c3, click, t, t + 2, role);
  }

  lemma SetSelectedKeepsSelection(c: Client, click: Click, role: Team)
    requires Sized(c) && SelectionOk(c, role) && c.turn == role && c.team == role && role != NoTeam
    ensures var r := SetSelected(c, click); r == c.(selected := r.selected) && SelectionOk(r, role)
  {
    if role == Player1 {
      ToggleTeamKeepsSelection(c, click, 0, role);
    } else {
      ToggleTeamKeepsSelection(c, click, 4, role);
    }
  }

  /** A click of the acting player other than on the next-turn button. */
  lemma ActingClick(c: Client, s: Side, t: seq<UnitData>, click: Click)
    requires GoodTable(t) && ClientOk(c, s, t) && c.turn == c.team && !click.onNextTurn
    ensures var r := HandleClick(c, click);
            && r == c.(units := r.units, selected := r.selected)
            && Acted(c.units, r.units, Role(s)) && ClientOk(r, s, t)
  {
    var role := Role(s);
    UntouchedActs(c.units, role);
    if !c.lobby && !c.reconnecting {
      PlaceActs(c, click, role);
      var c2 := PlaceUnitAtClick(c, click);
      ActedKeepsKind(c.units, c2.units, t, role);
      AttackActs(c2, click, t, role);
      var c3 := AttackClickedUnit(c2, click);
      ActedTwice(c.units, c2.units, c3.units, role);
      ActedKeepsKind(c.units, c3.units, t, role);
      SetSelectedKeepsSelection(c3, click, role);
    }
  }

  // ----- logs -----

  predicate NoEndTurn(ms: seq<UnitMsg>) { forall i :: 0 <= i < |ms| ==> ms[i].name != "endturn" }

  lemma {:induction false} EndTurnsNone(ms: seq<UnitMsg>)
    ensures EndTurns(ms) == 0 <==> NoEndTurn(ms)
  {
    if ms != [] {
      var n := |ms| - 1;
      EndTurnsNone(ms[..n]);
      assert ms == ms[..n] + [ms[n]];
    }
  }

  lemma {:induction false} LastForConcat(name: string, a: seq<UnitMsg>, b: seq<UnitMsg>)
    ensures LastFor(name, a + b) == if LastFor(name, b).Some? then LastFor(name, b) else LastFor(name, a)
  {
    if b == [] {
      assert a + b == a;
    } else {
      assert (a + b)[..|a + b| - 1] == a + b[..|b| - 1];
      LastForConcat(name, a, b[..|b| - 1]);
    }
  }

  /** Applying a log in two parts is applying it whole. */
  lemma PendingConcat(u: UnitData, a: seq<UnitMsg>, b: seq<UnitMsg>)
    ensures Pending(Pending(u, a), b) == Pending(u, a + b)
  {
    LastForConcat(u.refName, a, b);
  }

  lemma {:induction false} UpdateFromAt(units: seq<UnitData>, m: UnitMsg, p: nat, k: nat)
    requires k < |units|
    requires forall i, j :: 0 <= i < j < |units| ==> units[i].refName != units[j].refName
    ensures UpdateFrom(units, m, p)[k] == if p <= k then Pending(units[k], [m]) else units[k]
    decreases |units| - p
  {
    assert LastFor(units[k].refName, []) == None;
    if p < |units| && units[p].refName != m.name {
      UpdateFromAt(units, m, p + 1, k);
    }
  }

  function Flip(t: Team, n: nat): Team { if n == 0 then t else Opponent(Flip(t, n - 1)) }

  /** Applying a log: each unit takes its last message, and each end of turn flips the turn. */
  lemma {:induction false} ApplyAllEffect(c: Client, ms: seq<UnitMsg>, t: seq<UnitData>)
    requires GoodTable(t) && SameUnits(c.units, t) && LogOk(ms, t)
    ensures var r := ApplyAll(c, ms);
            && r == c.(units := r.units, turn := r.turn, winner := r.winner, finished := r.finished)
            && SameUnits(r.units, t)
            && r.turn == Flip(c.turn, EndTurns(ms))
            && forall k :: 0 <= k < |t| ==> r.units[k] == Pending(c.units[k], ms)
  {
    if ms != [] {
      var n := |ms| - 1;
      ApplyAllEffect(c, ms[..n], t);
      ApplyMsgEffect(ApplyAll(c, ms[..n]), ms[n], t);
      forall k | 0 <= k < |t| ensures ApplyAll(c, ms).units[k] == Pending(c.units[k], ms) {
        PendingConcat(c.units[k], ms[..n], [ms[n]]);
        assert ms[..n] + [ms[n]] == ms;
      }
    }
  }

  lemma LastForOne(name: string, m: UnitMsg)
    ensures LastFor(name, [m]) == if m.name == name then Some(m) else None
  {
    assert [m][..0] == [];
  }

  lemma ProtocolNames()
    ensures "endturn" != "endgame"
  {
    assert "endturn"[3] != "endgame"[3];
  }

  lemma UpdateUnitEffect(units: seq<UnitData>, m: UnitMsg, t: seq<UnitData>)
    requires GoodTable(t) && SameUnits(units, t) && MsgOk(m, t)
    ensures var r := UpdateUnit(units, m);
            SameUnits(r, t) && forall k :: 0 <= k < |t| ==> r[k] == Pending(units[k], [m])
  {
    var r := UpdateUnit(units, m);
    forall k | 0 <= k < |t|
      ensures r[k] == Pending(units[k], [m])
      ensures r[k].refName == t[k].refName && r[k].isEnemy == t[k].isEnemy
      ensures r[k].attack == t[k].attack && r[k].armour == t[k].armour && r[k].health >= 1
    {
      LastForOne(units[k].refName, m);
      UpdateFromAt(units, m, 0, k);
    }
  }

  lemma ApplyMsgEffect(c: Client, m: UnitMsg, t: seq<UnitData>)
    requires GoodTable(t) && SameUnits(c.units, t) && MsgOk(m, t)
    ensures var r := ApplyMsg(c, m);
            && r == c.(units := r.units, turn := r.turn, winner := r.winner, finished := r.finished)
            && SameUnits(r.units, t)
            && r.turn == (if m.name == "endturn" then Opponent(c.turn) else c.turn)
            && forall k :: 0 <= k < |t| ==> r.units[k] == Pending(c.units[k], [m])
  {
    ProtocolNames();
    UpdateUnitEffect(c.units, m, t);
    if m.name == "endgame" {
      forall k | 0 <= k < |t| ensures c.units[k] == Pending(c.units[k], [m]) {
        LastForOne(c.units[k].refName, m);
      }
    }
  }

  /** The unit messages for the dirty units among the first n. */
  function Dirty(units: seq<UnitData>, n: nat): seq<UnitMsg>
    requires n <= |units|
  {
    UnitMsgs(DirtyMsgs(units, n))
  }

  lemma {:induction false} DirtyStep(units: seq<UnitData>, n: nat)
    requires 0 < n <= |units|
    ensures Dirty(units, n) == Dirty(units, n - 1) + if units[n - 1].changed then [MsgFor(units[n - 1])] else []
  {
    var one := if units[n - 1].changed then [UnitUpdate(MsgFor(units[n - 1]))] else [];
    UnitMsgsConcat(DirtyMsgs(units, n - 1), one);
    assert units[n - 1].changed ==> UnitMsgs(one) == [MsgFor(units[n - 1])];
  }

  lemma {:induction false} DirtyLast(units: seq<UnitData>, n: nat, t: seq<UnitData>, k: nat)
    requires GoodTable(t) && SameUnits(units, t) && n <= |units| && k < |t|
    ensures LastFor(t[k].refName, Dirty(units, n)) == if k < n && units[k].changed then Some(MsgFor(units[k])) else None
  {
    if n > 0 {
      DirtyLast(units, n - 1, t, k);
      DirtyStep(units, n);
      var m := MsgFor(units[n - 1]);
      LastForOne(t[k].refName, m);
      assert k < n - 1 ==> t[k].refName != t[n - 1].refName;
      assert n - 1 < k ==> t[n - 1].refName != t[k].refName;
      LastForConcat(t[k].refName, Dirty(units, n - 1), if units[n - 1].changed then [m] else []);
    }
  }

  lemma {:induction false} DirtyOk(units: seq<UnitData>, n: nat, t: seq<UnitData>)
    requires GoodTable(t) && SameUnits(units, t) && n <= |units|
    ensures LogOk(Dirty(units, n), t) && NoEndTurn(Dirty(units, n))
  {
    if n > 0 {
      DirtyOk(units, n - 1, t);
      DirtyStep(units, n);
    }
  }

  /** Everything the end of a turn puts into the log. */
  function Shipped(c: Client): seq<UnitMsg>
    requires Sized(c)
  {
    Dirty(c.units, UNIT_COUNT) + (if Won(ShipUnits(c)) then [EndGame(c.team)] else []) + [END_TURN]
  }

  lemma {:induction false} DirtyIgnoresReset(units: seq<UnitData>, n: nat)
    requires n <= |units|
    ensures DirtyMsgs(ResetAll(units), n) == DirtyMsgs(units, n)
  {
    if n > 0 {
      DirtyIgnoresReset(units, n - 1);
    }
  }

  function ShippedMsgs(c: Client): seq<Msg>
    requires Sized(c)
  {
    DirtyMsgs(c.units, UNIT_COUNT) + (if Won(ShipUnits(c)) then [UnitUpdate(EndGame(c.team))] else []) + [UnitUpdate(END_TURN)]
  }

  lemma EndTurnShips(c: Client)
    requires Sized(c)
    ensures EndTurn(c).sending == c.sending + ShippedMsgs(c)
    ensures UnitMsgs(ShippedMsgs(c)) == Shipped(c)
    ensures forall i :: 0 <= i < |ShippedMsgs(c)| ==> ShippedMsgs(c)[i].UnitUpdate?
  {
    DirtyIgnoresReset(c.units, UNIT_COUNT);
    var dirty := DirtyMsgs(c.units, UNIT_COUNT);
    var announcement := if Won(ShipUnits(c)) then [UnitUpdate(EndGame(c.team))] else [];
    var last := [UnitUpdate(END_TURN)];
    assert EndTurn(c).sending == ((c.sending + dirty) + announcement) + last;
    UnitMsgsConcat(dirty, announcement);
    UnitMsgsConcat(dirty + announcement, last);
    assert UnitMsgs(last) == [END_TURN];
    assert UnitMsgs(announcement) == if Won(ShipUnits(c)) then [EndGame(c.team)] else [];
    DirtyOnlyUnits(c.units, UNIT_COUNT);
  }

  lemma {:induction false} DirtyOnlyUnits(units: seq<UnitData>, n: nat)
    requires n <= |units|
    ensures forall i :: 0 <= i < |DirtyMsgs(units, n)| ==> DirtyMsgs(units, n)[i].UnitUpdate?
  {
    if n > 0 {
      DirtyOnlyUnits(units, n - 1);
    }
  }

  /** What was shipped brings an agreeing receiver fully up to date. */
  lemma ShippedAgrees(c: Client, receiver: seq<UnitData>, t: seq<UnitData>)
    requires GoodTable(t) && Sized(c) && SameUnits(c.units, t) && SameUnits(receiver, t)
    requires Agree(c.units, receiver, [])
    ensures var ms := Shipped(c);
            && LogOk(ms, t) && ms != [] && ms[|ms| - 1] == END_TURN && NoEndTurn(ms[..|ms| - 1])
            && Agree(EndTurn(c).units, receiver, ms)
  {
    var ms := Shipped(c);
    var dirty := Dirty(c.units, UNIT_COUNT);
    var extra := if Won(ShipUnits(c)) then [EndGame(c.team)] else [];
    assert "endturn"[3] == 't' && "endgame"[3] == 'g';
    DirtyOk(c.units, UNIT_COUNT, t);
    assert ms[..|ms| - 1] == dirty + extra;
    forall k | 0 <= k < |t|
      ensures UnitView(EndTurn(c).units[k]) == UnitView(Pending(receiver[k], ms))
    {
      var name := t[k].refName;
      LastForConcat(name, dirty + extra, [END_TURN]);
      LastForConcat(name, dirty, extra);
      DirtyLast(c.units, UNIT_COUNT, t, k);
      assert LastFor(name, [END_TURN][..0]) == None;
      assert LastFor(name, extra[..0]) == None;
      assert LastFor(name, ms) == LastFor(name, dirty);
      assert Pending(receiver[k], []) == receiver[k];
    }
  }

  // ----- clicks keep the invariant -----

  /** Replacing a client by one with the same queues leaves all traffic as it is. */
  lemma SameQueues(w: World, s: Side, c': Client)
    requires var c := w.clients.At(s); c'.sending == c.sending && c'.received == c.received && c'.unitQueue == c.unitQueue
    ensures var w' := SetClient(w, s, c'); forall p :: Pipe(w', p) == Pipe(w, p) && Log(w', p) == Log(w, p)
  {
  }

  /** In normal play only the client that holds the turn finds its own team's turn. */
  lemma ActorHolds(w: World, s: Side)
    requires PlayInv(w) && w.clients.At(s).turn == w.clients.At(s).team
    ensures w.clients.At(s).team == Role(s) && Held(w, s)
  {
  }

  lemma ActedAgrees(before: seq<UnitData>, after: seq<UnitData>, receiver: seq<UnitData>, role: Team)
    requires Acted(before, after, role) && Agree(before, receiver, [])
    ensures Agree(after, receiver, [])
  {
    forall k | 0 <= k < |after|
      ensures after[k].changed || UnitView(after[k]) == UnitView(Pending(receiver[k], []))
    {
      assert ActedUnit(before[k], after[k], Owner(k) == role);
    }
  }

  lemma ActingClickKeepsPlay(w: World, s: Side, click: Click)
    requires PlayInv(w) && w.clients.At(s).turn == w.clients.At(s).team && !click.onNextTurn
    ensures PlayInv(Next(w, Clicked(s, click)))
  {
    ActorHolds(w, s);
    var c, d := w.clients.At(s), w.clients.At(Other(s));
    ActingClick(c, s, w.table, click);
    var c' := HandleClick(c, click);
    SameQueues(w, s, c');
    ActedAgrees(c.units, c'.units, d.units, Role(s));
    assert Held(Next(w, Clicked(s, click)), s);
  }

  lemma ExtendLog(queue: seq<UnitMsg>, pipe: seq<Msg>, more: seq<Msg>)
    ensures queue + UnitMsgs(pipe + more) == queue + UnitMsgs(pipe) + UnitMsgs(more)
  {
    UnitMsgsConcat(pipe, more);
  }

  /** Replacing a client by one that has queued more messages to send. */
  lemma MoreToSend(w: World, s: Side, c': Client, more: seq<Msg>)
    requires var c := w.clients.At(s);
             c'.sending == c.sending + more && c'.received == c.received && c'.unitQueue == c.unitQueue
    ensures var w' := SetClient(w, s, c');
            && Pipe(w', s) == Pipe(w, s) && Log(w', s) == Log(w, s)
            && Pipe(w', Other(s)) == Pipe(w, Other(s)) + more
            && Log(w', Other(s)) == Log(w, Other(s)) + UnitMsgs(more)
  {
    var w' := SetClient(w, s, c');
    var before := w.clients.At(Other(s)).received + w.down.At(Other(s)) + w.up.At(s);
    assert before + (w.clients.At(s).sending + more) == before + w.clients.At(s).sending + more;
    assert Pipe(w', s) == Pipe(w, s);
    ExtendLog(w.clients.At(Other(s)).unitQueue, Pipe(w, Other(s)), more);
  }

  lemma EndTurnLogs(w: World, s: Side)
    requires Sized(w.clients.At(s))
    ensures var w' := SetClient(w, s, EndTurn(w.clients.At(s)));
            && Pipe(w', s) == Pipe(w, s) && Log(w', s) == Log(w, s)
            && Pipe(w', Other(s)) == Pipe(w, Other(s)) + ShippedMsgs(w.clients.At(s))
            && Log(w', Other(s)) == Log(w, Other(s)) + Shipped(w.clients.At(s))
  {
    EndTurnShips(w.clients.At(s));
    MoreToSend(w, s, EndTurn(w.clients.At(s)), ShippedMsgs(w.clients.At(s)));
  }

  lemma EndTurnPasses(w: World, w': World, s: Side, ms: seq<UnitMsg>)
    requires Held(w, s) && w.clients.At(s).turn != NoTeam
    requires Sized(w.clients.At(s))
    requires w'.clients.At(s).turn == Opponent(w.clients.At(s).turn)
    requires w'.clients.At(Other(s)) == w.clients.At(Other(s))
    requires Clean(w'.clients.At(s).units) && Agree(w'.clients.At(s).units, w.clients.At(Other(s)).units, ms)
    requires Log(w', s) == [] && Log(w', Other(s)) == ms
    requires ms != [] && ms[|ms| - 1] == END_TURN && NoEndTurn(ms[..|ms| - 1])
    ensures Passing(w', s)
  {
    EndTurnsNone(ms[..|ms| - 1]);
  }

  lemma EndTurnClient(c: Client, s: Side, t: seq<UnitData>)
    requires GoodTable(t) && ClientOk(c, s, t)
    ensures ClientOk(EndTurn(c), s, t)
  {
    assert EndTurn(c).selected == AllClear();
  }

  lemma UnitPipeOk(pipe: seq<Msg>, more: seq<Msg>, s: Side)
    requires PipeOk(pipe, s) && forall i :: 0 <= i < |more| ==> more[i].UnitUpdate?
    ensures PipeOk(pipe + more, s)
  {
  }

  /** The traffic and clients after the end of a turn. */
  lemma NextTurnTraffic(w: World, s: Side)
    requires PlayInv(w) && Held(w, s)
    ensures var w' := SetClient(w, s, EndTurn(w.clients.At(s)));
            && PipeOk(Pipe(w', One), One) && PipeOk(Pipe(w', Two), Two)
            && LogOk(Log(w', One), w.table) && LogOk(Log(w', Two), w.table)
            && Passing(w', s)
  {
    var c, d := w.clients.At(s), w.clients.At(Other(s));
    EndTurnLogs(w, s);
    ShippedAgrees(c, d.units, w.table);
    EndTurnPasses(w, SetClient(w, s, EndTurn(c)), s, Shipped(c));
    EndTurnShips(c);
    UnitPipeOk(Pipe(w, Other(s)), ShippedMsgs(c), Other(s));
  }

  lemma NextTurnKeepsPlay(w: World, s: Side, click: Click)
    requires PlayInv(w) && w.clients.At(s).turn == w.clients.At(s).team && click.onNextTurn
    requires !w.clients.At(s).lobby && !w.clients.At(s).reconnecting
    ensures PlayInv(Next(w, Clicked(s, click))) && Passing(Next(w, Clicked(s, click)), s)
  {
    var c := w.clients.At(s);
    ActorHolds(w, s);
    NextTurnClick(c, s, w.table, click);
    assert Next(w, Clicked(s, click)) == SetClient(w, s, EndTurn(c));
    NextTurnTraffic(w, s);
    EndTurnClient(c, s, w.table);
  }

  lemma ClickKeepsPlay(w: World, s: Side, click: Click)
    requires PlayInv(w)
    ensures PlayInv(Next(w, Clicked(s, click)))
  {
    var c := w.clients.At(s);
    if c.turn != c.team {
      IdleClick(c, s, w.table, click);
      assert Next(w, Clicked(s, click)) == w;
    } else if !click.onNextTurn {
      ActingClickKeepsPlay(w, s, click);
    } else if c.lobby || c.reconnecting {
      assert Next(w, Clicked(s, click)) == w;
    } else {
      NextTurnKeepsPlay(w, s, click);
    }
  }

  // ----- frames keep the invariant -----

  lemma SweepView(u: UnitData, ms: seq<UnitMsg>)
    ensures UnitView(Sweep(u)) == UnitView(u)
    ensures UnitView(Pending(Sweep(u), ms)) == UnitView(Pending(u, ms))
  {
  }

  /** Swept, or not. */
  predicate Swept(before: seq<UnitData>, after: seq<UnitData>) { after == before || after == SweepAll(before) }

  /** A sweep on either side does not disturb agreement. */
  lemma SweptAgrees(a: seq<UnitData>, a': seq<UnitData>, b: seq<UnitData>, b': seq<UnitData>, ms: seq<UnitMsg>)
    requires Swept(a, a') && Swept(b, b') && Agree(a, b, ms)
    ensures Agree(a', b', ms)
  {
    forall k | 0 <= k < |a|
      ensures a'[k].changed || UnitView(a'[k]) == UnitView(Pending(b'[k], ms))
    {
      SweepView(a[k], ms);
      SweepView(b[k], ms);
    }
  }

  lemma SweptClean(a: seq<UnitData>, a': seq<UnitData>)
    requires Swept(a, a')
    ensures Clean(a') == Clean(a)
  {
    assert forall k :: 0 <= k < |a| ==> a'[k].changed == a[k].changed;
  }

  /** A frame in normal play, as far as the table and the turn go. */
  function PlayFrame(c: Client): Client {
    var c0 := AssignTeam(c);
    if c0.lobby || c0.reconnecting || c0.finished then c0
    else
      var c1 := c0.(units := SweepAll(c0.units));
      if c1.turn != c1.team && c1.team != NoTeam then UnitNetworkUpdate(c1) else c1
  }

  lemma FrameIsPlayFrame(c: Client, s: Side, t: seq<UnitData>)
    requires GoodTable(t) && ClientOk(c, s, t) && LogOk(c.unitQueue, t)
    ensures Frame(c) == PlayFrame(c)
  {
    var c0 := AssignTeam(c);
    var c1 := c0.(units := SweepAll(c0.units));
    ApplyAllEffect(c1, c1.unitQueue, t);
  }

  lemma SweepKeepsKind(units: seq<UnitData>, t: seq<UnitData>)
    requires SameUnits(units, t)
    ensures SameUnits(SweepAll(units), t)
  {
  }

  lemma QuietClient(c: Client, c': Client, s: Side, t: seq<UnitData>)
    requires ClientOk(c, s, t)
    requires var c0 := AssignTeam(c); c' == c0 || c' == c0.(units := SweepAll(c0.units))
    ensures ClientOk(c', s, t)
  {
    SweepKeepsKind(c.units, t);
  }

  /** Nothing happened on side s but a sweep. */
  predicate Quiet(w: World, w': World, s: Side) {
    var c, c' := w.clients.At(s), w'.clients.At(s);
    c'.turn == c.turn && Swept(c.units, c'.units) && Log(w', s) == Log(w, s)
  }

  lemma PhaseQuiet(w: World, w': World)
    requires Phase(w) && Quiet(w, w', One) && Quiet(w, w', Two)
    ensures Phase(w')
  {
    var a, a', b, b' := w.clients.one.units, w'.clients.one.units, w.clients.two.units, w'.clients.two.units;
    SweptClean(a, a');
    SweptClean(b, b');
    if Held(w, One) {
      SweptAgrees(a, a', b, b', []);
      assert Held(w', One);
    } else if Held(w, Two) {
      SweptAgrees(b, b', a, a', []);
      assert Held(w', Two);
    } else if Passing(w, One) {
      SweptAgrees(a, a', b, b', Log(w, Two));
      assert Passing(w', One);
    } else {
      SweptAgrees(b, b', a, a', Log(w, One));
      assert Passing(w', Two);
    }
  }

  lemma QuietBoth(w: World, s: Side, c': Client)
    requires var c := w.clients.At(s);
             && c'.sending == c.sending && c'.received == c.received && c'.unitQueue == c.unitQueue
             && c'.turn == c.turn && Swept(c.units, c'.units)
    ensures var w' := SetClient(w, s, c'); Quiet(w, w', One) && Quiet(w, w', Two)
  {
    SameQueues(w, s, c');
  }

  /** A frame in which nothing is applied: at most the team is assigned and the dead are swept. */
  lemma QuietFrameKeepsPlay(w: World, s: Side, c': Client)
    requires PlayInv(w)
    requires var c0 := AssignTeam(w.clients.At(s)); c' == c0 || c' == c0.(units := SweepAll(c0.units))
    ensures PlayInv(SetClient(w, s, c'))
  {
    QuietClient(w.clients.At(s), c', s, w.table);
    QuietClientFields(w.clients.At(s), c');
    SameQueues(w, s, c');
    QuietBoth(w, s, c');
    PhaseQuiet(w, SetClient(w, s, c'));
    SameLogsPlay(w, SetClient(w, s, c'));
  }

  lemma QuietClientFields(c: Client, c': Client)
    requires var c0 := AssignTeam(c); c' == c0 || c' == c0.(units := SweepAll(c0.units))
    ensures c'.sending == c.sending && c'.received == c.received && c'.unitQueue == c.unitQueue
    ensures c'.turn == c.turn && Swept(c.units, c'.units)
  {
  }

  lemma SameLogsPlay(w: World, w': World)
    requires PlayInv(w) && w'.table == w.table && w'.present == w.present
    requires forall p :: Pipe(w', p) == Pipe(w, p) && Log(w', p) == Log(w, p)
    requires ClientOk(w'.clients.one, One, w.table) && ClientOk(w'.clients.two, Two, w.table)
    requires Phase(w')
    ensures PlayInv(w')
  {
    assert Pipe(w', One) == Pipe(w, One) && Pipe(w', Two) == Pipe(w, Two);
    assert Log(w', One) == Log(w, One) && Log(w', Two) == Log(w, Two);
  }

  /** Draining the queue: the log loses the part that is applied. */
  lemma DrainLogs(w: World, s: Side, c': Client)
    requires var c := w.clients.At(s); c'.sending == c.sending && c'.received == c.received && c'.unitQueue == []
    ensures var w' := SetClient(w, s, c');
            && (forall p :: Pipe(w', p) == Pipe(w, p))
            && Log(w, s) == w.clients.At(s).unitQueue + Log(w', s)
            && Log(w', Other(s)) == Log(w, Other(s))
  {
  }

  lemma {:induction false} EndTurnsConcat(a: seq<UnitMsg>, b: seq<UnitMsg>)
    ensures EndTurns(a + b) == EndTurns(a) + EndTurns(b)
  {
    if b == [] {
      assert a + b == a;
    } else {
      assert (a + b)[..|a + b| - 1] == a + b[..|b| - 1];
      EndTurnsConcat(a, b[..|b| - 1]);
    }
  }

  /** Only part of the log has arrived: the turn does not change yet. */
  lemma DrainPart(w: World, w': World, s: Side)
    requires Passing(w, Other(s))
    requires var q := w.clients.At(s).unitQueue;
             && Log(w, s) == q + Log(w', s) && Log(w', s) != [] && Log(w', Other(s)) == Log(w, Other(s))
             && w'.clients.At(Other(s)) == w.clients.At(Other(s))
             && w'.clients.At(s).turn == Flip(w.clients.At(s).turn, EndTurns(q))
             && |w'.clients.At(s).units| == |w.clients.At(s).units|
             && forall k :: 0 <= k < |w.clients.At(s).units| ==>
                  w'.clients.At(s).units[k] == Pending(w.clients.At(s).units[k], q)
    ensures Passing(w', Other(s))
  {
    var q, rest := w.clients.At(s).unitQueue, Log(w', s);
    LastOfRest(q, rest);
    EndTurnsConcat(q, rest[..|rest| - 1]);
    PendingRest(w.clients.At(s).units, w'.clients.At(s).units, w.clients.At(Other(s)).units, q, rest);
  }

  lemma LastOfRest(q: seq<UnitMsg>, rest: seq<UnitMsg>)
    requires rest != []
    ensures var ms := q + rest; ms[|ms| - 1] == rest[|rest| - 1] && ms[..|ms| - 1] == q + rest[..|rest| - 1]
  {
  }

  /** Applying part of a log leaves the rest to say what all of it said. */
  lemma PendingRest(d: seq<UnitData>, d': seq<UnitData>, c: seq<UnitData>, q: seq<UnitMsg>, rest: seq<UnitMsg>)
    requires |d'| == |d| && forall k :: 0 <= k < |d| ==> d'[k] == Pending(d[k], q)
    requires Clean(d) && Agree(c, d, q + rest)
    ensures Clean(d') && Agree(c, d', rest)
  {
    forall k | 0 <= k < |d| ensures Pending(d'[k], rest) == Pending(d[k], q + rest) && !d'[k].changed {
      PendingConcat(d[k], q, rest);
    }
  }

  /** The whole log has arrived, with the end of the turn: this client may act, and the tables agree. */
  lemma DrainAll(w: World, w': World, s: Side)
    requires Passing(w, Other(s))
    requires var q := w.clients.At(s).unitQueue;
             && Log(w, s) == q && Log(w', s) == [] && Log(w', Other(s)) == Log(w, Other(s))
             && w'.clients.At(Other(s)) == w.clients.At(Other(s))
             && w'.clients.At(s).turn == Flip(w.clients.At(s).turn, EndTurns(q))
             && |w'.clients.At(s).units| == |w.clients.At(s).units|
             && forall k :: 0 <= k < |w.clients.At(s).units| ==>
                  w'.clients.At(s).units[k] == Pending(w.clients.At(s).units[k], q)
    ensures Held(w', s)
  {
    var q := w.clients.At(s).unitQueue;
    assert EndTurns(q) == 1;
    assert Flip(w.clients.At(s).turn, 1) == Opponent(Flip(w.clients.At(s).turn, 0));
    forall k | 0 <= k < |w.clients.At(s).units|
      ensures Pending(w'.clients.At(Other(s)).units[k], []) == w'.clients.At(Other(s)).units[k]
    {
    }
  }

  lemma DrainClient(c: Client, s: Side, t: seq<UnitData>)
    requires GoodTable(t) && ClientOk(c, s, t) && LogOk(c.unitQueue, t)
    requires c.turn != c.team
    ensures ClientOk(UnitNetworkUpdate(c), s, t)
  {
    ApplyAllEffect(c, c.unitQueue, t);
    FlipTeam(c.turn, EndTurns(c.unitQueue));
  }

  lemma {:induction false} FlipTeam(t: Team, n: nat)
    requires t != NoTeam
    ensures Flip(t, n) != NoTeam
  {
    if n > 0 {
      FlipTeam(t, n - 1);
    }
  }

  /** Applying the queue, as a client does while it is the opponent's turn. */
  lemma ApplyKeepsPlay(w: World, s: Side)
    requires PlayInv(w)
    requires w.clients.At(s).turn == Role(Other(s)) && w.clients.At(s).team == Role(s)
    ensures PlayInv(SetClient(w, s, UnitNetworkUpdate(w.clients.At(s))))
  {
    var c := w.clients.At(s);
    var q := c.unitQueue;
    var c' := UnitNetworkUpdate(c);
    var w' := SetClient(w, s, c');
    if q == [] {
      assert c' == c;
      assert w' == w;
    } else {
      assert Log(w, s) != [];
      assert Passing(w, Other(s));
      QueueOk(q, UnitMsgs(Pipe(w, s)), w.table);
      ApplyAllEffect(c, q, w.table);
      DrainClient(c, s, w.table);
      DrainLogs(w, s, c');
      if Log(w', s) == [] {
        DrainAll(w, w', s);
      } else {
        DrainPart(w, w', s);
      }
      QueueOk(q, Log(w', s), w.table);
      DrainedPlay(w, w');
    }
  }

  lemma QueueOk(q: seq<UnitMsg>, rest: seq<UnitMsg>, t: seq<UnitData>)
    requires LogOk(q + rest, t)
    ensures LogOk(q, t) && LogOk(rest, t)
  {
    forall i | 0 <= i < |q| ensures MsgOk(q[i], t) { assert (q + rest)[i] == q[i]; }
    forall i | 0 <= i < |rest| ensures MsgOk(rest[i], t) { assert (q + rest)[|q| + i] == rest[i]; }
  }

  lemma DrainedPlay(w: World, w': World)
    requires PlayInv(w) && w'.table == w.table && w'.present == w.present
    requires forall p :: Pipe(w', p) == Pipe(w, p)
    requires LogOk(Log(w', One), w.table) && LogOk(Log(w', Two), w.table)
    requires ClientOk(w'.clients.one, One, w.table) && ClientOk(w'.clients.two, Two, w.table)
    requires Phase(w')
    ensures PlayInv(w')
  {
    assert Pipe(w', One) == Pipe(w, One) && Pipe(w', Two) == Pipe(w, Two);
  }

  /** What a frame of play comes to. */
  lemma FrameCases(c: Client, s: Side, t: seq<UnitData>)
    requires GoodTable(t) && ClientOk(c, s, t) && LogOk(c.unitQueue, t)
    ensures var c0 := AssignTeam(c);
            var c1 := c0.(units := SweepAll(c0.units));
            || Frame(c) == c0 || Frame(c) == c1
            || (c1.turn == Role(Other(s)) && c1.team == Role(s) && Frame(c) == UnitNetworkUpdate(c1))
  {
    FrameIsPlayFrame(c, s, t);
  }

  lemma PlayQueueOk(w: World, s: Side)
    requires LogOk(Log(w, s), w.table)
    ensures LogOk(w.clients.At(s).unitQueue, w.table)
  {
    QueueOk(w.clients.At(s).unitQueue, UnitMsgs(Pipe(w, s)), w.table);
  }

  lemma FrameKeepsPlay(w: World, s: Side)
    requires PlayInv(w)
    ensures PlayInv(Next(w, Framed(s)))
  {
    var c := w.clients.At(s);
    PlayQueueOk(w, s);
    FrameCases(c, s, w.table);
    var c0 := AssignTeam(c);
    var c1 := c0.(units := SweepAll(c0.units));
    if Frame(c) == c0 || Frame(c) == c1 {
      QuietFrameKeepsPlay(w, s, Frame(c));
    } else {
      QuietFrameKeepsPlay(w, s, c1);
      SweptThenApplied(w, s, c1);
    }
  }

  lemma SweptThenApplied(w: World, s: Side, c1: Client)
    requires PlayInv(SetClient(w, s, c1)) && c1.turn == Role(Other(s)) && c1.team == Role(s)
    ensures PlayInv(SetClient(w, s, UnitNetworkUpdate(c1)))
  {
    ApplyKeepsPlay(SetClient(w, s, c1), s);
    assert SetClient(SetClient(w, s, c1), s, UnitNetworkUpdate(c1)) == SetClient(w, s, UnitNetworkUpdate(c1));
  }

  // ----- every run -----

  /** A step of normal play: nobody leaves. */
  predicate InPlay(step: Step) { !step.Left? && !step.Joined? }

  lemma StepKeepsPlay(w: World, step: Step)
    requires PlayInv(w) && InPlay(step)
    ensures PlayInv(Next(w, step))
  {
    match step
    case Clicked(s, click) => ClickKeepsPlay(w, s, click);
    case Framed(s) => FrameKeepsPlay(w, s);
    case _ => HopKeepsPlay(w, step);
  }

  predicate AllInPlay(steps: seq<Step>) { forall i :: 0 <= i < |steps| ==> InPlay(steps[i]) }

  lemma {:induction false} RunKeepsPlay(w: World, steps: seq<Step>)
    requires PlayInv(w) && AllInPlay(steps)
    ensures PlayInv(Run(w, steps))
    decreases |steps|
  {
    if steps != [] {
      StepKeepsPlay(w, steps[0]);
      RunKeepsPlay(Next(w, steps[0]), steps[1..]);
    }
  }

  predicate Holds(w: World, s: Side) { w.clients.At(s).turn == Role(s) }

  function Count(b: bool): nat { if b then 1 else 0 }

  /** Clients that hold the turn, and ends of turn still under way. */
  function Tokens(w: World): nat {
    Count(Holds(w, One)) + Count(Holds(w, Two)) + EndTurns(Log(w, One)) + EndTurns(Log(w, Two))
  }

  lemma PlayHasOneToken(w: World)
    requires PlayInv(w)
    ensures Tokens(w) == 1
  {
    if Passing(w, One) {
      assert Log(w, Two) != [];
    } else if Passing(w, Two) {
      assert Log(w, One) != [];
    }
  }

  /**
   Turn-token conservation: from the start of a game, after any sequence of
   clicks, frames and message hops, there is exactly one token: either one
   client holds the turn or one end of turn is on its way.
   */
  lemma TokenConservation(t: seq<UnitData>, steps: seq<Step>)
    requires GoodTable(t) && AllInPlay(steps)
    ensures Tokens(Run(Initial(t), steps)) == 1
  {
    InitialPlay(t);
    RunKeepsPlay(Initial(t), steps);
    PlayHasOneToken(Run(Initial(t), steps));
  }

  /** The client whose table is ahead: it holds the turn, or was the last to. */
  function Leader(w: World): Side {
    if Holds(w, One) then One
    else if Holds(w, Two) then Two
    else if EndTurns(Log(w, Two)) > 0 then One
    else Two
  }

  /** A table brought up to date by a sequence of unit messages. */
  function Updated(units: seq<UnitData>, ms: seq<UnitMsg>): (r: seq<UnitData>)
    ensures |r| == |units|
  {
    if ms == [] then units else UpdateUnit(Updated(units, ms[..|ms| - 1]), ms[|ms| - 1])
  }

  lemma {:induction false} UpdatedEffect(units: seq<UnitData>, ms: seq<UnitMsg>, t: seq<UnitData>)
    requires GoodTable(t) && SameUnits(units, t) && LogOk(ms, t)
    ensures SameUnits(Updated(units, ms), t)
    ensures forall k :: 0 <= k < |t| ==> Updated(units, ms)[k] == Pending(units[k], ms)
  {
    if ms != [] {
      var n := |ms| - 1;
      UpdatedEffect(units, ms[..n], t);
      UpdateUnitEffect(Updated(units, ms[..n]), ms[n], t);
      forall k | 0 <= k < |t| ensures Updated(units, ms)[k] == Pending(units[k], ms) {
        PendingConcat(units[k], ms[..n], [ms[n]]);
        assert ms[..n] + [ms[n]] == ms;
      }
    }
  }

  /** The two tables show the same units, up to the sweep of the dead. */
  predicate SameView(a: seq<UnitData>, b: seq<UnitData>) {
    |a| == |b| && forall k :: 0 <= k < |a| ==> UnitView(a[k]) == UnitView(b[k])
  }

  lemma LeaderPhase(w: World)
    requires PlayInv(w)
    ensures Held(w, Leader(w)) || Passing(w, Leader(w))
  {
    if Passing(w, One) {
      assert Log(w, Two)[|Log(w, Two)| - 1] == END_TURN;
    } else if Passing(w, Two) {
      assert Log(w, One)[|Log(w, One)| - 1] == END_TURN;
      assert EndTurns([]) == 0;
    }
  }

  lemma DirtyCatchUp(sender: seq<UnitData>, receiver: seq<UnitData>, ms: seq<UnitMsg>, t: seq<UnitData>)
    requires GoodTable(t) && SameUnits(sender, t) && SameUnits(receiver, t) && LogOk(ms, t)
    requires Agree(sender, receiver, ms)
    ensures SameView(Updated(Updated(receiver, ms), Dirty(sender, |sender|)), sender)
  {
    var dirty := Dirty(sender, |sender|);
    DirtyOk(sender, |sender|, t);
    UpdatedEffect(receiver, ms, t);
    UpdatedEffect(Updated(receiver, ms), dirty, t);
    forall k | 0 <= k < |t|
      ensures UnitView(Updated(Updated(receiver, ms), dirty)[k]) == UnitView(sender[k])
    {
      DirtyLast(sender, |sender|, t, k);
    }
  }

  /**
   Replica simulation: in every reachable state, applying to the other client's
   table the messages under way to it, and then messages for the leader's units
   that are still dirty, gives exactly the leader's table, up to the sweep.
   */
  lemma ReplicaSimulation(t: seq<UnitData>, steps: seq<Step>)
    requires GoodTable(t) && AllInPlay(steps)
    ensures var w := Run(Initial(t), steps);
            var a := Leader(w);
            var leader, other := w.clients.At(a).units, w.clients.At(Other(a)).units;
            SameView(Updated(Updated(other, Log(w, Other(a))), Dirty(leader, |leader|)), leader)
  {
    InitialPlay(t);
    RunKeepsPlay(Initial(t), steps);
    var w := Run(Initial(t), steps);
    var a := Leader(w);
    LeaderPhase(w);
    DirtyCatchUp(w.clients.At(a).units, w.clients.At(Other(a)).units, Log(w, Other(a)), w.table);
  }

  /** When the turn holder has changed nothing, as on gaining the turn, both tables agree. */
  lemma TablesAgree(t: seq<UnitData>, steps: seq<Step>, h: Side)
    requires GoodTable(t) && AllInPlay(steps)
    requires Holds(Run(Initial(t), steps), h) && Clean(Run(Initial(t), steps).clients.At(h).units)
    ensures SameView(Run(Initial(t), steps).clients.one.units, Run(Initial(t), steps).clients.two.units)
  {
    InitialPlay(t);
    RunKeepsPlay(Initial(t), steps);
    var w := Run(Initial(t), steps);
    LeaderPhase(w);
    HeldSameView(w, h);
  }

  /** Messages and sweeps do not mark anything dirty. */
  lemma PlayFrameClean(c: Client, s: Side, t: seq<UnitData>)
    requires GoodTable(t) && ClientOk(c, s, t) && LogOk(c.unitQueue, t) && Clean(c.units)
    ensures Clean(PlayFrame(c).units)
  {
    var c1 := AssignTeam(c).(units := SweepAll(c.units));
    SweptClean(c.units, c1.units);
    SweepKeepsKind(c.units, t);
    ApplyAllEffect(c1, c1.unitQueue, t);
  }

  lemma HeldSameView(w: World, s: Side)
    requires Held(w, s) && Clean(w.clients.At(s).units)
    ensures SameView(w.clients.one.units, w.clients.two.units)
  {
    var c, d := w.clients.At(s).units, w.clients.At(Other(s)).units;
    forall k | 0 <= k < |c| ensures UnitView(c[k]) == UnitView(d[k]) {
      assert Pending(d[k], []) == d[k];
    }
  }

  /** A frame in which a client gains the turn leaves it with nothing dirty, and both tables agree. */
  lemma GainedClean(w: World, s: Side)
    requires PlayInv(w) && !Holds(w, s) && Holds(Next(w, Framed(s)), s)
    ensures Clean(Next(w, Framed(s)).clients.At(s).units)
    ensures SameView(Next(w, Framed(s)).clients.one.units, Next(w, Framed(s)).clients.two.units)
  {
    var c, w' := w.clients.At(s), Next(w, Framed(s));
    FrameKeepsPlay(w, s);
    LeaderPhase(w);
    LeaderPhase(w');
    QueueOk(c.unitQueue, UnitMsgs(Pipe(w, s)), w.table);
    FrameIsPlayFrame(c, s, w.table);
    PlayFrameClean(c, s, w.table);
    HeldSameView(w', s);
  }

  /**
   Selection safety: in every reachable state each client has at most one unit
   selected, only while it may act, and only one of its own.
   */
  lemma SelectionSafety(t: seq<UnitData>, steps: seq<Step>, s: Side)
    requires GoodTable(t) && AllInPlay(steps)
    ensures var c := Run(Initial(t), steps).clients.At(s); Sized(c) && SelectionOk(c, Role(s))
  {
    InitialPlay(t);
    RunKeepsPlay(Initial(t), steps);
  }

  /** The squads, health and places a click may change. */
  predicate LegalClick(before: seq<UnitData>, after: seq<UnitData>, role: Team) {
    && |after| == |before|
    && forall k :: 0 <= k < |before| ==>
         if Owner(k) == role then after[k].squad == before[k].squad && after[k].health == before[k].health
         else after[k].x == before[k].x && after[k].y == before[k].y
  }

  lemma LegalClient(c: Client, s: Side, t: seq<UnitData>, click: Click)
    requires GoodTable(t) && ClientOk(c, s, t)
    ensures LegalClick(c.units, HandleClick(c, click).units, Role(s))
    ensures c.turn != Role(s) || c.team != Role(s) ==> HandleClick(c, click).units == c.units
  {
    if c.turn != c.team {
      IdleClick(c, s, t, click);
    } else if !click.onNextTurn {
      ActingClick(c, s, t, click);
      forall k | 0 <= k < UNIT_COUNT
        ensures ActedUnit(c.units[k], HandleClick(c, click).units[k], Owner(k) == Role(s))
      {
      }
    } else if !c.lobby && !c.reconnecting {
      NextTurnClick(c, s, t, click);
    }
  }

  /**
   And therefore, in every reachable state, a click changes a table only at the
   client that holds the turn, where it moves only its own units and damages
   only the opponent's.
   */
  lemma ClicksStayLegal(t: seq<UnitData>, steps: seq<Step>, s: Side, click: Click)
    requires GoodTable(t) && AllInPlay(steps)
    ensures var w := Run(Initial(t), steps);
            var w' := Next(w, Clicked(s, click));
            && (!Holds(w, s) || w.clients.At(s).team != Role(s) ==> w'.clients.At(s).units == w.clients.At(s).units)
            && w'.clients.At(Other(s)) == w.clients.At(Other(s))
            && LegalClick(w.clients.At(s).units, w'.clients.At(s).units, Role(s))
  {
    InitialPlay(t);
    RunKeepsPlay(Initial(t), steps);
    var w := Run(Initial(t), steps);
    LegalClient(w.clients.At(s), s, w.table, click);
  }

  /** In every reachable state no hit divides by zero: every unit has some health per soldier. */
  lemma HealthStaysPositive(t: seq<UnitData>, steps: seq<Step>, s: Side)
    requires GoodTable(t) && AllInPlay(steps)
    ensures var units := Run(Initial(t), steps).clients.At(s).units;
            forall k :: 0 <= k < |units| ==> units[k].health >= 1
  {
    InitialPlay(t);
    RunKeepsPlay(Initial(t), steps);
  }
}
