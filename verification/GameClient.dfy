/**
 One client of the game: its copy of the unit table, whose turn it believes it
 is, the selection, the protocol flags and its queues. The functions here are
 the specification of the client's operations; module GameScene has the object
 that performs them in place.
 */
module GameClient {
  import opened Wrappers
  import opened Wire
  import opened Messages
  import opened GameUnit

  datatype Team = NoTeam | Player1 | Player2

  function Opponent(t: Team): Team {
    match t
    case NoTeam => NoTeam
    case Player1 => Player2
    case Player2 => Player1
  }

  const UNIT_COUNT := 8

  /** The units of the first team come first in the table. */
  function Owner(k: int): Team { if k < 4 then Player1 else Player2 }

  datatype Client = Client(
    units: seq<UnitData>,
    selected: seq<bool>,
    turn: Team,
    team: Team,
    winner: Team,
    finished: bool,
    userId: int,
    lobby: bool,
    reconnecting: bool,
    dataSender: bool,
    readyToSend: bool,
    updateComplete: bool,
    sentTurn: int,
    sentPlayer: int,
    sending: seq<Msg>,
    received: seq<Msg>,
    unitQueue: seq<UnitMsg>)

  /** A table of eight units and one selection flag for each. */
  predicate Sized(c: Client) { |c.units| == UNIT_COUNT && |c.selected| == UNIT_COUNT }

  // ----- a click -----

  /**
   A click: where it fell, whether on the next-turn button, the units whose
   move and attack highlights it fell in, and the grid position it snaps to.
   */
  datatype Click = Click(x: int, y: int, onNextTurn: bool, inMove: set<int>, inAttack: set<int>, snapX: int, snapY: int)

  const SPRITE_SIZE := 117

  predicate MouseOn(click: Click, u: UnitData) {
    u.x <= click.x <= u.x + SPRITE_SIZE && u.y <= click.y <= u.y + SPRITE_SIZE
  }

  predicate OnBoard(click: Click) { 40 < click.x < 1200 }

  function AllClear(): seq<bool> { seq(UNIT_COUNT, i => false) }

  function ResetAll(units: seq<UnitData>): (r: seq<UnitData>)
    ensures |r| == |units|
  {
    seq(|units|, i requires 0 <= i < |units| => units[i].(actionPoints := units[i].maxActionPoints))
  }

  function MsgFor(u: UnitData): UnitMsg { UnitMsg(u.refName, u.x, u.y, u.squad, u.health) }

  /** The messages for the dirty units among the first n, in table order. */
  function DirtyMsgs(units: seq<UnitData>, n: nat): seq<Msg>
    requires n <= |units|
  {
    if n == 0 then []
    else DirtyMsgs(units, n - 1) + if units[n - 1].changed then [UnitUpdate(MsgFor(units[n - 1]))] else []
  }

  function CleanAll(units: seq<UnitData>): (r: seq<UnitData>)
    ensures |r| == |units|
  {
    seq(|units|, i requires 0 <= i < |units| => units[i].(changed := false))
  }

  predicate AllDead(units: seq<UnitData>, lo: nat, hi: nat)
    requires lo <= hi <= |units|
  {
    forall k :: lo <= k < hi ==> units[k].dead
  }

  /** The opponent's four units are all swept: this client has won. */
  predicate Won(c: Client)
    requires Sized(c)
  {
    || (c.team == Player1 && AllDead(c.units, 4, 8))
    || (c.team == Player2 && AllDead(c.units, 0, 4))
  }

  function TeamNumber(t: Team): int { if t == Player1 then 1 else 2 }

  const END_TURN := UnitMsg("endturn", 0, 0, 0, 0)

  function EndGame(winner: Team): UnitMsg { UnitMsg("endgame", TeamNumber(winner), 0, 0, 0) }

  function EndgameCheck(c: Client): (r: Client)
    requires Sized(c)
    ensures Sized(r)
  {
    if Won(c) then c.(finished := true, winner := c.team) else c
  }

  /** The part of a turn's end that ships the dirty units. */
  function ShipUnits(c: Client): (r: Client)
    requires Sized(c)
    ensures Sized(r)
  {
    var units := ResetAll(c.units);
    c.(selected := AllClear(), units := CleanAll(units), sending := c.sending + DirtyMsgs(units, UNIT_COUNT))
  }

  /** The next-turn button: ship the dirty units, announce a win, pass the turn. */
  function EndTurn(c: Client): (r: Client)
    requires Sized(c)
    ensures Sized(r)
  {
    var shipped := ShipUnits(c);
    var c1 := EndgameCheck(shipped);
    var announcement := if Won(shipped) then [UnitUpdate(EndGame(c1.winner))] else [];
    c1.(sending := c1.sending + announcement + [UnitUpdate(END_TURN)], turn := Opponent(c1.turn))
  }

  function NextTurnPressed(c: Client, click: Click): (r: Client)
    requires Sized(c)
    ensures Sized(r)
  {
    if c.turn == c.team && click.onNextTurn then EndTurn(c) else c
  }

  predicate AnyHit(units: seq<UnitData>, click: Click) {
    exists k :: 0 <= k < |units| && MouseOn(click, units[k])
  }

  predicate CanMove(c: Client, click: Click, k: int)
    requires Sized(c) && 0 <= k < UNIT_COUNT
  {
    k in click.inMove && c.selected[k] && c.units[k].actionPoints > 0 && OnBoard(click)
  }

  predicate CanAttack(c: Client, click: Click, k: int)
    requires Sized(c) && 0 <= k < UNIT_COUNT
  {
    k in click.inAttack && c.selected[k] && c.units[k].actionPoints >= 2 && OnBoard(click)
  }

  function Moved(c: Client, click: Click, k: int): (r: Client)
    requires Sized(c) && 0 <= k < UNIT_COUNT
    ensures Sized(r)
  {
    c.(units := c.units[k := c.units[k].(x := click.snapX, y := click.snapY, actionPoints := c.units[k].actionPoints - 1, changed := true)])
  }

  /** The first unit of a team that can move does. */
  function MoveFirst(c: Client, click: Click, t: int): (r: Client)
    requires Sized(c) && (t == 0 || t == 4)
    ensures Sized(r)
  {
    if CanMove(c, click, t) then Moved(c, click, t)
    else if CanMove(c, click, t + 2) then Moved(c, click, t + 2)
    else if CanMove(c, click, t + 3) then Moved(c, click, t + 3)
    else if CanMove(c, click, t + 1) then Moved(c, click, t + 1)
    else c
  }

  function PlaceUnitAtClick(c: Client, click: Click): (r: Client)
    requires Sized(c)
    ensures Sized(r)
  {
    if AnyHit(c.units, click) then c else MoveFirst(MoveFirst(c, click, 0), click, 4)
  }

  predicate IsTarget(units: seq<UnitData>, click: Click, dealer: UnitData, i: int)
    requires 0 <= i < |units|
  {
    MouseOn(click, units[i]) && dealer.isEnemy != units[i].isEnemy
  }

  function Targets(units: seq<UnitData>, click: Click, dealer: UnitData, n: nat): nat
    requires n <= |units|
  {
    if n == 0 then 0
    else Targets(units, click, dealer, n - 1) + if IsTarget(units, click, dealer, n - 1) then 1 else 0
  }

  const ATTACK_COST := 2

  /** Every unit under the click that is not on the attacker's side is hit, and each costs action points. */
  function Attacked(c: Client, click: Click, k: int): (r: Client)
    requires Sized(c) && 0 <= k < UNIT_COUNT
    ensures Sized(r)
  {
    var dealer := c.units[k];
    var hit := seq(UNIT_COUNT, i requires 0 <= i < UNIT_COUNT =>
      if IsTarget(c.units, click, dealer, i) then TakeDamage(c.units[i], dealer) else c.units[i]);
    var cost := ATTACK_COST * Targets(c.units, click, dealer, UNIT_COUNT);
    c.(units := hit[k := hit[k].(actionPoints := hit[k].actionPoints - cost)])
  }

  function AttackFirst(c: Client, click: Click, t: int): (r: Client)
    requires Sized(c) && (t == 0 || t == 4)
    ensures Sized(r)
  {
    if CanAttack(c, click, t) then Attacked(c, click, t)
    else if CanAttack(c, click, t + 2) then Attacked(c, click, t + 2)
    else if CanAttack(c, click, t + 3) then Attacked(c, click, t + 3)
    else if CanAttack(c, click, t + 1) then Attacked(c, click, t + 1)
    else c
  }

  function AttackClickedUnit(c: Client, click: Click): (r: Client)
    requires Sized(c)
    ensures Sized(r)
  {
    if AnyHit(c.units, click) then AttackFirst(AttackFirst(c, click, 0), click, 4) else c
  }

  /** The flags after a click on unit k of the team starting at t: deselected, or selected alone within the team. */
  function Toggled(selected: seq<bool>, t: int, k: int): (r: seq<bool>)
    requires |selected| == UNIT_COUNT && 0 <= t <= k < t + 4 <= UNIT_COUNT
    ensures |r| == UNIT_COUNT
  {
    if selected[k] then selected[k := false]
    else seq(UNIT_COUNT, i requires 0 <= i < UNIT_COUNT => if t <= i < t + 4 then i == k else selected[i])
  }

  function Toggle(c: Client, click: Click, t: int, k: int): (r: Client)
    requires Sized(c) && 0 <= t <= k < t + 4 <= UNIT_COUNT
    ensures Sized(r) && r == c.(selected := r.selected)
  {
    if MouseOn(click, c.units[k]) then c.(selected := Toggled(c.selected, t, k)) else c
  }

  /** The units of a team in the order infantry, tank, sniper, artillery. */
  function ToggleTeam(c: Client, click: Click, t: int): (r: Client)
    requires Sized(c) && (t == 0 || t == 4)
    ensures Sized(r)
  {
    var c1 := Toggle(c, click, t, t);
    var c2 := Toggle(c1, click, t, t + 3);
    var c3 := Toggle(c2, click, t, t + 1);
    Toggle(c3, click, t, t + 2)
  }

  function SetSelected(c: Client, click: Click): (r: Client)
    requires Sized(c)
    ensures Sized(r)
  {
    var c1 := if c.team == Player1 && c.turn == Player1 then ToggleTeam(c, click, 0) else c;
    if c1.team == Player2 && c1.turn == Player2 then ToggleTeam(c1, click, 4) else c1
  }

  function HandleClick(c: Client, click: Click): (r: Client)
    requires Sized(c)
    ensures Sized(r)
  {
    if c.lobby || c.reconnecting then c
    else
      var c1 := NextTurnPressed(c, click);
      var c2 := PlaceUnitAtClick(c1, click);
      var c3 := AttackClickedUnit(c2, click);
      SetSelected(c3, click)
  }

  /** The messages are one for each dirty unit, in table order. */
  lemma {:induction false} DirtyInOrder(units: seq<UnitData>, n: nat)
    requires n <= |units|
    ensures DirtyMsgs(units, n)
            == Gathered((u: UnitData) => [UnitUpdate(MsgFor(u))], Filtered((u: UnitData) => u.changed, units[..n]))
  {
    if n > 0 {
      var message, changed := (u: UnitData) => [UnitUpdate(MsgFor(u))], (u: UnitData) => u.changed;
      DirtyInOrder(units, n - 1);
      assert units[..n] == units[..n - 1] + [units[n - 1]];
      FilteredConcat(changed, units[..n - 1], [units[n - 1]]);
      assert [units[n - 1]][1..] == [];
      GatheredConcat(message, Filtered(changed, units[..n - 1]), Filtered(changed, [units[n - 1]]));
      OneMessage(units[n - 1], message, changed);
    }
  }

  lemma OneMessage(u: UnitData, message: UnitData -> seq<Msg>, changed: UnitData -> bool)
    requires message(u) == [UnitUpdate(MsgFor(u))] && changed(u) == u.changed
    ensures Gathered(message, Filtered(changed, [u])) == if u.changed then [UnitUpdate(MsgFor(u))] else []
  {
    assert [u][1..] == [] && [u] + [] == [u];
  }

  /** A unit's state travels: sent as bytes and applied to a table, it is the state of the first unit of that name there. */
  lemma StateTravels(u: UnitData, units: seq<UnitData>, k: nat)
    requires Sendable(UnitUpdate(MsgFor(u)))
    requires k < |units| && units[k].refName == u.refName && forall j :: 0 <= j < k ==> units[j].refName != u.refName
    ensures HoldsPacket(Encode(ToPacket(UnitUpdate(MsgFor(u)))))
    ensures var arrived := FromPacket(Decode(Encode(ToPacket(UnitUpdate(MsgFor(u))))));
            && arrived.Some? && arrived.value.UnitUpdate?
            && UpdateUnit(units, arrived.value.unit)
               == units[k := units[k].(x := u.x, y := u.y, squad := u.squad, health := u.health)]
  {
    MessageRoundTrip(UnitUpdate(MsgFor(u)));
    FirstNamed(units, MsgFor(u), k, 0);
  }

  lemma {:induction false} FirstNamed(units: seq<UnitData>, m: UnitMsg, k: nat, from: nat)
    requires from <= k < |units| && units[k].refName == m.name && forall j :: 0 <= j < k ==> units[j].refName != m.name
    ensures UpdateFrom(units, m, from) == units[k := units[k].(x := m.x, y := m.y, squad := m.squad, health := m.hp)]
    decreases k - from
  {
    if from < k {
      FirstNamed(units, m, k, from + 1);
    }
  }

  // ----- a frame -----

  function AssignTeam(c: Client): Client {
    if c.team == NoTeam && c.userId != -1 then c.(team := if c.userId % 2 == 0 then Player1 else Player2) else c
  }

  function SweepAll(units: seq<UnitData>): (r: seq<UnitData>)
    ensures |r| == |units|
  {
    seq(|units|, i requires 0 <= i < |units| => Sweep(units[i]))
  }

  /** Writes a message into the first unit of that name among positions k on, if there is one. */
  function UpdateFrom(units: seq<UnitData>, m: UnitMsg, k: nat): (r: seq<UnitData>)
    ensures |r| == |units|
    decreases |units| - k
  {
    if k >= |units| then units
    else if units[k].refName == m.name then units[k := units[k].(x := m.x, y := m.y, squad := m.squad, health := m.hp)]
    else UpdateFrom(units, m, k + 1)
  }

  function UpdateUnit(units: seq<UnitData>, m: UnitMsg): (r: seq<UnitData>)
    ensures |r| == |units|
  {
    UpdateFrom(units, m, 0)
  }

  function ApplyMsg(c: Client, m: UnitMsg): Client {
    var c1 := if m.name == "endturn" then c.(turn := Opponent(c.turn)) else c;
    if m.name == "endgame" then c1.(winner := if m.x == 1 then Player1 else Player2, finished := true)
    else c1.(units := UpdateUnit(c1.units, m))
  }

  function ApplyAll(c: Client, ms: seq<UnitMsg>): Client {
    if ms == [] then c else ApplyMsg(ApplyAll(c, ms[..|ms| - 1]), ms[|ms| - 1])
  }

  /** Drains the queue of unit messages into the table. */
  function UnitNetworkUpdate(c: Client): Client {
    ApplyAll(c, c.unitQueue).(unitQueue := [])
  }

  function AllMsgs(units: seq<UnitData>): seq<Msg> {
    seq(|units|, i requires 0 <= i < |units| => UnitUpdate(MsgFor(units[i])))
  }

  /** The survivor's snapshot for a newcomer: its team, the turn, every unit, and an end mark. */
  function SnapshotMsgs(c: Client): seq<Msg> {
    [Player(if c.team == Player1 then 2 else 1), Turn(TeamNumber(c.turn))] + AllMsgs(c.units) + [UpdateComplete]
  }

  /** The newcomer takes over the turn and team it was sent, then the units, and asks to resume. */
  function TakeOver(c: Client): Client {
    var c1 := if c.sentTurn == 1 then c.(turn := Player1) else if c.sentTurn == 2 then c.(turn := Player2) else c;
    var c2 :=
      if c1.sentPlayer == 1 then c1.(team := Player1, userId := 0)
      else if c1.sentPlayer == 2 then c1.(team := Player2, userId := 1)
      else c1;
    var c3 := UnitNetworkUpdate(c2);
    c3.(units := SweepAll(c3.units), sending := c3.sending + [Resume], updateComplete := false)
  }

  /** One frame. In play the death sweep comes first, then the opponent's messages while it is the opponent's turn. */
  function Frame(c0: Client): Client {
    var c := AssignTeam(c0);
    if c.lobby || c.reconnecting then
      if c.reconnecting && c.dataSender && c.readyToSend then
        c.(sending := c.sending + SnapshotMsgs(c), readyToSend := false)
      else if c.reconnecting && c.updateComplete then TakeOver(c)
      else c
    else if c.finished then c
    else
      var c1 := c.(units := SweepAll(c.units));
      var c2 := if c1.turn == Player1 && c1.team == Player2 then UnitNetworkUpdate(c1) else c1;
      if c2.turn == Player2 && c2.team == Player1 then UnitNetworkUpdate(c2) else c2
  }

  // ----- the network thread -----

  /** What a received message does to the flags and queues. */
  function ProcessReceived(c: Client, m: Msg): Client {
    match m
    case Init(id) => c.(userId := id)
    case UnitUpdate(u) => c.(unitQueue := c.unitQueue + [u])
    case Turn(n) => c.(sentTurn := n)
    case Player(n) => c.(sentPlayer := n)
    case Reconnect(on) =>
      if on then c.(reconnecting := true, lobby := false) else c.(reconnecting := false, dataSender := false)
    case Start => c.(lobby := false)
    case DataSender => c.(dataSender := true, reconnecting := true)
    case Ready => c.(readyToSend := true)
    case UpdateComplete => c.(updateComplete := true)
    case Chat(_, _) => c
    case Resume => c
  }

  /** Processing a message touches neither of the queues between the threads and the network. */
  lemma ProcessedQueues(c: Client, m: Msg)
    ensures ProcessReceived(c, m).received == c.received && ProcessReceived(c, m).sending == c.sending
  {
    match m
    case Init(_) =>
    case UnitUpdate(_) =>
    case Turn(_) =>
    case Player(_) =>
    case Reconnect(on) => if on { } else { }
    case Start =>
    case DataSender =>
    case Ready =>
    case UpdateComplete =>
    case Chat(_, _) =>
    case Resume =>
  }

  /** Nor does it look at them. */
  lemma ProcessedReceived(c: Client, m: Msg, received: seq<Msg>)
    ensures ProcessReceived(c.(received := received), m) == ProcessReceived(c, m).(received := received)
  {
    match m
    case Init(n) => ProcessedNumbers(c, n, received);
    case Turn(n) => ProcessedNumbers(c, n, received);
    case Player(n) => ProcessedNumbers(c, n, received);
    case UnitUpdate(u) => ProcessedUnit(c, u, received);
    case Reconnect(on) => ProcessedReconnect(c, on, received);
    case Start => ProcessedFlags(c, received);
    case DataSender => ProcessedFlags(c, received);
    case Ready => ProcessedFlags(c, received);
    case UpdateComplete => ProcessedFlags(c, received);
    case Chat(_, _) =>
    case Resume =>
  }

  lemma ProcessedNumbers(c: Client, n: int, received: seq<Msg>)
    ensures ProcessReceived(c.(received := received), Init(n)) == ProcessReceived(c, Init(n)).(received := received)
    ensures ProcessReceived(c.(received := received), Turn(n)) == ProcessReceived(c, Turn(n)).(received := received)
    ensures ProcessReceived(c.(received := received), Player(n)) == ProcessReceived(c, Player(n)).(received := received)
  {
  }

  lemma ProcessedUnit(c: Client, u: UnitMsg, received: seq<Msg>)
    ensures ProcessReceived(c.(received := received), UnitUpdate(u)) == ProcessReceived(c, UnitUpdate(u)).(received := received)
  {
    var q := c.unitQueue + [u];
    assert ProcessReceived(c, UnitUpdate(u)) == c.(unitQueue := q);
  }

  lemma ProcessedReconnect(c: Client, on: bool, received: seq<Msg>)
    ensures ProcessReceived(c.(received := received), Reconnect(on)) == ProcessReceived(c, Reconnect(on)).(received := received)
  {
  }

  lemma ProcessedFlags(c: Client, received: seq<Msg>)
    ensures ProcessReceived(c.(received := received), Start) == ProcessReceived(c, Start).(received := received)
    ensures ProcessReceived(c.(received := received), DataSender) == ProcessReceived(c, DataSender).(received := received)
    ensures ProcessReceived(c.(received := received), Ready) == ProcessReceived(c, Ready).(received := received)
    ensures ProcessReceived(c.(received := received), UpdateComplete) == ProcessReceived(c, UpdateComplete).(received := received)
  {
  }
}
