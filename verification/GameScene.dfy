/**
 The client's two objects: the network component, whose queues and flags the
 network thread updates, and the scene, which updates its units in place. Each
 method is proved to do exactly what module GameClient says of the operation.
 */
module GameScene {
  import opened Wrappers
  import opened Wire
  import opened Messages
  import opened GameUnit
  import opened GameClient

  // ----- the network component -----

  class ClientComponent {
    var userId: int
    var lobby: bool
    var reconnecting: bool
    var dataSender: bool
    var readyToSend: bool
    var updateComplete: bool
    var playerTurn: int
    var assignedPlayer: int
    var sendingQueue: seq<Msg>
    var receivedQueue: seq<Msg>
    var unitUpdateQueue: seq<UnitMsg>

    /** The part of a client's state that this component has. */
    ghost function Net(): Client
      reads this
    {
      Client([], [], NoTeam, NoTeam, NoTeam, false, userId, lobby, reconnecting, dataSender, readyToSend,
             updateComplete, playerTurn, assignedPlayer, sendingQueue, receivedQueue, unitUpdateQueue)
    }

    constructor ()
      ensures Net() == Client([], [], NoTeam, NoTeam, NoTeam, false, -1, true, false, false, false, false, -1, -1, [], [], [])
    {
      userId, lobby, reconnecting, dataSender, readyToSend, updateComplete := -1, true, false, false, false, false;
      playerTurn, assignedPlayer, sendingQueue, receivedQueue, unitUpdateQueue := -1, -1, [], [], [];
    }

    method Send(m: Msg)
      modifies this`sendingQueue
      ensures sendingQueue == old(sendingQueue) + [m]
    {
      sendingQueue := sendingQueue + [m];
    }

    method OnData(m: Msg)
      modifies this`receivedQueue
      ensures receivedQueue == old(receivedQueue) + [m]
    {
      receivedQueue := receivedQueue + [m];
    }

    method ProcessReceivedPacket(m: Msg)
      modifies this
      ensures Net() == ProcessReceived(old(Net()), m)
    {
      if m.Init? {
        userId := m.id;
      } else if m.UnitUpdate? {
        unitUpdateQueue := unitUpdateQueue + [m.unit];
      } else if m.Turn? {
        playerTurn := m.turn;
      } else if m.Player? {
        assignedPlayer := m.player;
      } else if m.Reconnect? {
        if m.on {
          reconnecting := true;
          lobby := false;
        } else {
          reconnecting := false;
          dataSender := false;
        }
      } else if m.Start? {
        lobby := false;
      } else if m.DataSender? {
        dataSender := true;
        reconnecting := true;
      } else if m.Ready? {
        readyToSend := true;
      } else if m.UpdateComplete? {
        updateComplete := true;
      }
    }

    /** Takes the front of the sending queue. */
    method SendFrontOfQueue() returns (m: Msg)
      requires sendingQueue != []
      modifies this`sendingQueue
      ensures old(sendingQueue) == [m] + sendingQueue
    {
      m := sendingQueue[0];
      sendingQueue := sendingQueue[1..];
    }

    /** Processes everything received. */
    method ProcessQueue()
      modifies this
      ensures Net() == ProcessAll(old(Net()), old(receivedQueue)).(received := [])
    {
      ghost var all := ProcessAll(Net(), receivedQueue).(received := []);
      while receivedQueue != []
        invariant ProcessAll(Net(), receivedQueue).(received := []) == all
        decreases |receivedQueue|
      {
        ghost var before := Net();
        ProcessReceivedPacket(receivedQueue[0]);
        ProcessedQueues(before, before.received[0]);
        ghost var after, rest := Net(), before.received[1..];
        receivedQueue := receivedQueue[1..];
        assert Net() == after.(received := rest);
        ProcessAllReceived(after, rest, rest);
      }
    }

    /** Hands everything queued to the network library, oldest first. */
    method SendQueue() returns (sent: seq<Msg>)
      modifies this`sendingQueue
      ensures sent == old(sendingQueue) && sendingQueue == []
    {
      sent := [];
      while sendingQueue != []
        invariant sent + sendingQueue == old(sendingQueue)
        decreases |sendingQueue|
      {
        var m := SendFrontOfQueue();
        sent := sent + [m];
      }
    }
  }

  function ProcessAll(c: Client, ms: seq<Msg>): Client
    decreases |ms|
  {
    if ms == [] then c else ProcessAll(ProcessReceived(c, ms[0]), ms[1..])
  }

  /** Processing does not look at the received queue. */
  lemma {:induction false} ProcessAllReceived(c: Client, ms: seq<Msg>, received: seq<Msg>)
    ensures ProcessAll(c.(received := received), ms).(received := []) == ProcessAll(c, ms).(received := [])
    decreases |ms|
  {
    if ms != [] {
      ProcessedReceived(c, ms[0], received);
      ProcessAllReceived(ProcessReceived(c, ms[0]), ms[1..], received);
    }
  }

  // ----- the scene -----

  class Scene {
    const units: seq<Unit>
    const component: ClientComponent
    var selected: seq<bool>
    var playerTurn: Team
    var assignedTeam: Team
    var winningPlayer: Team
    var gameFinished: bool

    /** Eight distinct units and one selection flag for each. */
    ghost predicate Valid()
      reads this
    {
      && |units| == UNIT_COUNT && |selected| == UNIT_COUNT
      && (forall j, k :: 0 <= j < k < |units| ==> units[j] != units[k])
    }

    ghost function Table(): seq<UnitData>
      reads units
    {
      seq(|units|, i requires 0 <= i < |units| reads units => units[i].Abs())
    }

    /** What this scene and its component are as a client. */
    ghost function Abs(): Client
      reads this, units, component
    {
      component.Net().(units := Table(), selected := selected, turn := playerTurn, team := assignedTeam,
                       winner := winningPlayer, finished := gameFinished)
    }

    constructor (units: seq<Unit>, component: ClientComponent)
      requires |units| == UNIT_COUNT && forall j, k :: 0 <= j < k < |units| ==> units[j] != units[k]
      ensures Valid() && this.units == units && this.component == component
      ensures selected == AllClear() && playerTurn == Player1 && assignedTeam == NoTeam && winningPlayer == NoTeam && !gameFinished
    {
      this.units, this.component := units, component;
      selected := AllClear();
      playerTurn, assignedTeam, winningPlayer, gameFinished := Player1, NoTeam, NoTeam, false;
    }

    // ----- the next-turn button -----

    method DeselectAllUnits()
      modifies this`selected
      ensures selected == AllClear()
    {
      selected := AllClear();
    }

    method ResetActionPoints()
      requires Valid()
      modifies units
      ensures Table() == ResetAll(old(Table()))
    {
      for i := 0 to |units|
        invariant forall k :: 0 <= k < i ==> units[k].Abs() == old(units[k].Abs()).(actionPoints := old(units[k].maxActionPoints))
        invariant forall k :: i <= k < |units| ==> units[k].Abs() == old(units[k].Abs())
      {
        units[i].ResetActionPoints();
      }
    }

    /** Queues a message for every dirty unit and marks it clean. */
    method ShipDirtyUnits()
      requires Valid()
      modifies units, component`sendingQueue
      ensures Table() == CleanAll(old(Table()))
      ensures component.sendingQueue == old(component.sendingQueue) + DirtyMsgs(old(Table()), UNIT_COUNT)
    {
      for i := 0 to |units|
        invariant forall k :: 0 <= k < i ==> units[k].Abs() == old(units[k].Abs()).(changed := false)
        invariant forall k :: i <= k < |units| ==> units[k].Abs() == old(units[k].Abs())
        invariant component.sendingQueue == old(component.sendingQueue) + DirtyMsgs(old(Table()), i)
      {
        var u := units[i];
        assert u.Abs() == old(Table())[i];
        if u.changed {
          component.Send(UnitUpdate(UnitMsg(u.refName, u.x, u.y, u.squad, u.health)));
          u.changed := false;
        }
      }
    }

    method EndgameCheck() returns (won: bool)
      requires Valid()
      modifies this`gameFinished, this`winningPlayer
      ensures won == Won(old(Abs()))
      ensures gameFinished == (old(gameFinished) || won)
      ensures winningPlayer == if won then assignedTeam else old(winningPlayer)
    {
      won := false;
      assert forall k :: 0 <= k < |units| ==> Table()[k].dead == units[k].dead;
      if assignedTeam == Player1 {
        if units[4].dead && units[6].dead && units[5].dead && units[7].dead {
          gameFinished := true;
          winningPlayer := Player1;
          won := true;
        }
      } else if assignedTeam == Player2 {
        if units[0].dead && units[2].dead && units[1].dead && units[3].dead {
          gameFinished := true;
          winningPlayer := Player2;
          won := true;
        }
      }
    }

    method PassTurn()
      requires Valid()
      modifies this`playerTurn
      ensures playerTurn == Opponent(old(playerTurn))
    {
      if playerTurn == Player1 {
        playerTurn := Player2;
      } else if playerTurn == Player2 {
        playerTurn := Player1;
      }
    }

    /** Deselects, gives every unit its action points back, and ships what is dirty. */
    method ShipTurn()
      requires Valid()
      modifies this`selected, units, component`sendingQueue
      ensures Valid() && Abs() == ShipUnits(old(Abs()))
    {
      DeselectAllUnits();
      ResetActionPoints();
      ShipDirtyUnits();
    }

    /** Announces a win, if there is one. */
    method AnnounceWin()
      requires Valid()
      modifies this`gameFinished, this`winningPlayer, component`sendingQueue
      ensures var c := old(Abs());
              var news := if Won(c) then [UnitUpdate(EndGame(c.team))] else [];
              Valid() && Abs() == GameClient.EndgameCheck(c).(sending := c.sending + news)
    {
      var won := EndgameCheck();
      if won {
        var victor := if winningPlayer == Player1 then 1 else 2;
        component.Send(UnitUpdate(UnitMsg("endgame", victor, 0, 0, 0)));
      }
    }

    /** Announces a win, if there is one, and the end of the turn. */
    method AnnounceTurn()
      requires Valid()
      modifies this`gameFinished, this`winningPlayer, this`playerTurn, component`sendingQueue
      ensures var c := old(Abs());
              var news := (if Won(c) then [UnitUpdate(EndGame(c.team))] else []) + [UnitUpdate(END_TURN)];
              Valid() && Abs() == GameClient.EndgameCheck(c).(sending := c.sending + news, turn := Opponent(c.turn))
    {
      ghost var c := Abs();
      AnnounceWin();
      component.Send(UnitUpdate(END_TURN));
      PassTurn();
      ConcatAssociates(c.sending, if Won(c) then [UnitUpdate(EndGame(c.team))] else [], [UnitUpdate(END_TURN)]);
    }

    method NextTurnPressed(click: Click)
      requires Valid()
      modifies this, units, component`sendingQueue
      ensures Valid() && Abs() == GameClient.NextTurnPressed(old(Abs()), click)
    {
      if playerTurn == assignedTeam {
        if click.onNextTurn {
          ghost var c := Abs();
          ShipTurn();
          AnnounceTurn();
          TurnEnds(c);
        }
      }
    }

    // ----- moving and attacking -----

    /** Is any unit under the click? */
    method SpriteOnTarget(click: Click) returns (hit: bool)
      requires Valid()
      ensures hit == AnyHit(Table(), click)
    {
      hit := false;
      for i := 0 to |units|
        invariant !hit
        invariant forall k :: 0 <= k < i ==> !MouseOn(click, Table()[k])
      {
        assert units[i].Abs() == Table()[i];
        if units[i].x <= click.x <= units[i].x + SPRITE_SIZE && units[i].y <= click.y <= units[i].y + SPRITE_SIZE {
          hit := true;
          return;
        }
      }
    }

    method MovingUnit(click: Click, k: int)
      requires Valid() && 0 <= k < UNIT_COUNT
      modifies units[k]
      ensures Abs() == Moved(old(Abs()), click, k)
    {
      var u := units[k];
      u.x := click.snapX;
      u.y := click.snapY;
      u.ReduceActionPoints(1);
      u.changed := true;
      assert Table() == Moved(old(Abs()), click, k).units;
    }

    predicate Movable(click: Click, k: int)
      requires Valid() && 0 <= k < UNIT_COUNT
      reads this, units
    {
      k in click.inMove && selected[k] && units[k].actionPoints > 0 && click.x > 40 && click.x < 1200
    }

    lemma MovableIs(click: Click, k: int)
      requires Valid() && 0 <= k < UNIT_COUNT
      ensures Movable(click, k) == CanMove(Abs(), click, k)
    {
      assert Table()[k] == units[k].Abs();
    }

    method MoveTeam(click: Click, t: int)
      requires Valid() && (t == 0 || t == 4)
      modifies units
      ensures Abs() == MoveFirst(old(Abs()), click, t)
    {
      MovableIs(click, t);
      MovableIs(click, t + 1);
      MovableIs(click, t + 2);
      MovableIs(click, t + 3);
      if Movable(click, t) {
        MovingUnit(click, t);
      } else if Movable(click, t + 2) {
        MovingUnit(click, t + 2);
      } else if Movable(click, t + 3) {
        MovingUnit(click, t + 3);
      } else if Movable(click, t + 1) {
        MovingUnit(click, t + 1);
      }
    }

    method PlaceUnitAtClick(click: Click)
      requires Valid()
      modifies units
      ensures Abs() == GameClient.PlaceUnitAtClick(old(Abs()), click)
    {
      var hit := SpriteOnTarget(click);
      if !hit {
        MoveTeam(click, 0);
        MoveTeam(click, 4);
      }
    }

    /** No hit may divide by zero. */
    ghost predicate Healthy()
      reads units
    {
      forall k :: 0 <= k < |units| ==> units[k].health >= 1
    }

    /** The attack on one unit, if it is a target. */
    method AttackOne(click: Click, u: Unit, dealer: Unit)
      requires u.health >= 1
      modifies u, dealer
      ensures var target := MouseOn(click, old(u.Abs())) && old(dealer.isEnemy) != old(u.isEnemy);
              && (target ==> u.Abs() == TakeDamage(old(u.Abs()), old(dealer.Abs())))
              && (target ==> dealer.Abs() == old(dealer.Abs()).(actionPoints := old(dealer.actionPoints) - ATTACK_COST))
              && (!target ==> u.Abs() == old(u.Abs()) && dealer.Abs() == old(dealer.Abs()))
    {
      if u.x <= click.x <= u.x + SPRITE_SIZE && u.y <= click.y <= u.y + SPRITE_SIZE {
        if dealer.isEnemy != u.isEnemy {
          u.TakeDamageFrom(dealer);
          dealer.ReduceActionPoints(ATTACK_COST);
        }
      }
    }

    /** The attack of unit k on unit i: nobody else is affected. */
    method AttackAt(click: Click, k: int, i: int)
      requires Valid() && 0 <= k < UNIT_COUNT && 0 <= i < UNIT_COUNT && units[i].health >= 1
      modifies units
      ensures Table() == AttackOn(old(Table()), click, k, i)
    {
      ghost var before := Table();
      assert units[i].Abs() == before[i] && units[k].Abs() == before[k];
      AttackOne(click, units[i], units[k]);
      forall j | 0 <= j < |units|
        ensures units[j].Abs() == AttackOn(before, click, k, i)[j]
      {
        if j != i && j != k {
          assert units[j].Abs() == old(units[j].Abs()) == before[j];
        }
      }
    }

    method AttackingOtherUnit(click: Click, k: int)
      requires Valid() && Healthy() && 0 <= k < UNIT_COUNT
      modifies units
      ensures Abs() == Attacked(old(Abs()), click, k) && Healthy()
    {
      ghost var before := Table();
      for i := 0 to |units|
        invariant Table() == AttackedUpTo(before, click, k, i)
      {
        assert units[i].Abs() == Table()[i];
        assert before[i].health == old(units[i].health);
        AttackStep(before, click, k, i);
        AttackAt(click, k, i);
      }
      assert Table() == Attacked(old(Abs()), click, k).units;
      forall i | 0 <= i < |units| ensures units[i].health >= 1 {
        assert before[i].health >= 1 && units[i].Abs() == Table()[i];
        if before[i].health >= 1 { HitKeepsHealth(before[i], DamageTo(before[i], before[k])); }
      }
    }

    predicate Attackable(click: Click, k: int)
      requires Valid() && 0 <= k < UNIT_COUNT
      reads this, units
    {
      k in click.inAttack && selected[k] && units[k].actionPoints >= 2 && click.x > 40 && click.x < 1200
    }

    lemma AttackableIs(click: Click, k: int)
      requires Valid() && 0 <= k < UNIT_COUNT
      ensures Attackable(click, k) == CanAttack(Abs(), click, k)
    {
      assert Table()[k] == units[k].Abs();
    }

    method AttackTeam(click: Click, t: int)
      requires Valid() && Healthy() && (t == 0 || t == 4)
      modifies units
      ensures Abs() == AttackFirst(old(Abs()), click, t) && Healthy()
    {
      AttackableIs(click, t);
      AttackableIs(click, t + 1);
      AttackableIs(click, t + 2);
      AttackableIs(click, t + 3);
      if Attackable(click, t) {
        AttackingOtherUnit(click, t);
      } else if Attackable(click, t + 2) {
        AttackingOtherUnit(click, t + 2);
      } else if Attackable(click, t + 3) {
        AttackingOtherUnit(click, t + 3);
      } else if Attackable(click, t + 1) {
        AttackingOtherUnit(click, t + 1);
      }
    }

    method AttackClickedUnit(click: Click)
      requires Valid() && Healthy()
      modifies units
      ensures Abs() == GameClient.AttackClickedUnit(old(Abs()), click)
    {
      var hit := SpriteOnTarget(click);
      if hit {
        AttackTeam(click, 0);
        AttackTeam(click, 4);
      }
    }

    // ----- selecting -----

    method ToggleUnit(click: Click, t: int, k: int)
      requires Valid() && 0 <= t <= k < t + 4 <= UNIT_COUNT
      modifies this`selected
      ensures Valid() && Abs() == Toggle(old(Abs()), click, t, k)
    {
      var u := units[k];
      assert u.Abs() == Table()[k];
      if u.x <= click.x <= u.x + SPRITE_SIZE && u.y <= click.y <= u.y + SPRITE_SIZE {
        if !selected[k] {
          ghost var before := selected;
          selected := selected[t := false][t + 1 := false][t + 2 := false][t + 3 := false][k := true];
          assert selected == Toggled(before, t, k);
        } else {
          selected := selected[k := false];
        }
      }
    }

    method SetSelected(click: Click)
      requires Valid()
      modifies this`selected
      ensures Valid() && Abs() == GameClient.SetSelected(old(Abs()), click)
    {
      if assignedTeam == Player1 && playerTurn == Player1 {
        ToggleUnit(click, 0, 0);
        ToggleUnit(click, 0, 3);
        ToggleUnit(click, 0, 1);
        ToggleUnit(click, 0, 2);
      }
      if assignedTeam == Player2 && playerTurn == Player2 {
        ToggleUnit(click, 4, 4);
        ToggleUnit(click, 4, 7);
        ToggleUnit(click, 4, 5);
        ToggleUnit(click, 4, 6);
      }
    }

    method ClickHandler(click: Click)
      requires Valid() && Healthy()
      modifies this, units, component`sendingQueue
      ensures Valid() && Abs() == HandleClick(old(Abs()), click)
    {
      if !component.lobby && !component.reconnecting {
        NextTurnPressed(click);
        StillHealthy(old(Abs()), click);
        assert forall k :: 0 <= k < |units| ==> units[k].health == Table()[k].health && old(units[k].health) == old(Table())[k].health;
        PlaceUnitAtClick(click);
        assert forall k :: 0 <= k < |units| ==> units[k].health == Table()[k].health;
        AttackClickedUnit(click);
        SetSelected(click);
      }
    }

    // ----- a frame -----

    method UnitsUpdate()
      requires Valid()
      modifies units
      ensures Table() == SweepAll(old(Table())) && Abs() == old(Abs()).(units := SweepAll(old(Abs()).units))
    {
      for i := 0 to |units|
        invariant forall k :: 0 <= k < i ==> units[k].Abs() == Sweep(old(units[k].Abs()))
        invariant forall k :: i <= k < |units| ==> units[k].Abs() == old(units[k].Abs())
      {
        units[i].Update();
      }
    }

    /** Writes a message into the unit of that name. */
    method UpdateUnitNamed(m: UnitMsg)
      requires Valid()
      modifies units
      ensures Table() == UpdateUnit(old(Table()), m)
    {
      ghost var before := Table();
      for i := 0 to |units|
        invariant Table() == before && UpdateFrom(before, m, 0) == UpdateFrom(before, m, i)
      {
        assert units[i].Abs() == before[i];
        if m.name == units[i].refName {
          units[i].x := m.x;
          units[i].y := m.y;
          units[i].squad := m.squad;
          units[i].health := m.hp;
          assert Table() == before[i := before[i].(x := m.x, y := m.y, squad := m.squad, health := m.hp)];
          return;
        }
      }
    }

    /** Applies one unit message. */
    method ApplyFront(m: UnitMsg)
      requires Valid()
      modifies this`playerTurn, this`winningPlayer, this`gameFinished, units
      ensures Valid() && Abs() == ApplyMsg(old(Abs()), m)
    {
      if m.name == "endturn" {
        PassTurn();
      }
      if m.name == "endgame" {
        if m.x == 1 {
          winningPlayer := Player1;
        } else {
          winningPlayer := Player2;
        }
        gameFinished := true;
      } else {
        UpdateUnitNamed(m);
      }
    }

    method PopFront()
      requires component.unitUpdateQueue != []
      modifies component`unitUpdateQueue
      ensures Abs() == old(Abs()).(unitQueue := old(component.unitUpdateQueue)[1..])
    {
      component.unitUpdateQueue := component.unitUpdateQueue[1..];
    }

    method UnitNetworkUpdate()
      requires Valid()
      modifies this`playerTurn, this`winningPlayer, this`gameFinished, units, component`unitUpdateQueue
      ensures Valid() && Abs() == GameClient.UnitNetworkUpdate(old(Abs()))
    {
      ghost var c := Abs();
      while component.unitUpdateQueue != []
        invariant Valid()
        invariant GameClient.UnitNetworkUpdate(Abs()) == GameClient.UnitNetworkUpdate(c)
        decreases |component.unitUpdateQueue|
      {
        ghost var d := Abs();
        var m := component.unitUpdateQueue[0];
        ApplyFront(m);
        PopFront();
        assert d.unitQueue == [m] + component.unitUpdateQueue;
        ApplyFirst(d, m, component.unitUpdateQueue);
      }
    }

    /** Sends a newcomer this client's view of the game. */
    method UpdateReconnectee()
      requires Valid()
      modifies component`sendingQueue
      ensures component.sendingQueue == old(component.sendingQueue) + SnapshotMsgs(old(Abs()))
    {
      var opponent := if assignedTeam == Player1 then 2 else 1;
      var turn := if playerTurn == Player1 then 1 else 2;
      component.Send(Player(opponent));
      component.Send(Turn(turn));
      ghost var queue := component.sendingQueue;
      for i := 0 to |units|
        invariant component.sendingQueue == queue + AllMsgs(Table())[..i]
      {
        assert units[i].Abs() == Table()[i];
        component.Send(UnitUpdate(UnitMsg(units[i].refName, units[i].x, units[i].y, units[i].squad, units[i].health)));
        assert AllMsgs(Table())[..i + 1] == AllMsgs(Table())[..i] + [AllMsgs(Table())[i]];
      }
      assert AllMsgs(Table())[..|units|] == AllMsgs(Table());
      component.Send(UpdateComplete);
    }

    /** The turn the snapshot gives a newcomer. */
    method AdoptTurn()
      requires Valid()
      modifies this`playerTurn
      ensures Valid() && Abs() == TurnAdopted(old(Abs()))
    {
      if component.playerTurn != -1 {
        if component.playerTurn == 1 {
          playerTurn := Player1;
        } else if component.playerTurn == 2 {
          playerTurn := Player2;
        }
      }
    }

    /** The team it gives, and the id that goes with it. */
    method AdoptTeam()
      requires Valid()
      modifies this`assignedTeam, component`userId
      ensures Valid() && Abs() == TeamAdopted(old(Abs()))
    {
      if component.assignedPlayer != -1 {
        if component.assignedPlayer == 1 {
          assignedTeam := Player1;
          component.userId := 0;
        } else if component.assignedPlayer == 2 {
          assignedTeam := Player2;
          component.userId := 1;
        }
      }
    }

    method AdoptSeat()
      requires Valid()
      modifies this`playerTurn, this`assignedTeam, component`userId
      ensures Valid() && Abs() == AdoptedSeat(old(Abs()))
    {
      AdoptTurn();
      AdoptTeam();
    }

    /** The newcomer's side of a reconnection. */
    method ResumeAsNewcomer()
      requires Valid()
      modifies this, component, units
      ensures Valid() && Abs() == TakeOver(old(Abs()))
    {
      ghost var c := Abs();
      AdoptSeat();
      ReplaySnapshot();
      AskToResume();
      TakeOverParts(c);
    }

    method ReplaySnapshot()
      requires Valid()
      modifies this`playerTurn, this`winningPlayer, this`gameFinished, units, component`unitUpdateQueue
      ensures Valid() && Abs() == Replayed(old(Abs()))
    {
      UnitNetworkUpdate();
      UnitsUpdate();
    }

    method AskToResume()
      modifies component`sendingQueue, component`updateComplete
      ensures Abs() == old(Abs()).(sending := old(Abs()).sending + [Resume], updateComplete := false)
    {
      component.Send(Resume);
      component.updateComplete := false;
    }

    method AssignTeam()
      requires Valid()
      modifies this`assignedTeam
      ensures Valid() && Abs() == GameClient.AssignTeam(old(Abs()))
    {
      if component.userId % 2 == 0 && assignedTeam == NoTeam && component.userId != -1 {
        assignedTeam := Player1;
      } else if component.userId % 2 != 0 && assignedTeam == NoTeam && component.userId != -1 {
        assignedTeam := Player2;
      }
    }

    /** Sweeps, then applies the opponent's messages while it is the opponent's turn. */
    method UpdatePlay()
      requires Valid()
      modifies this`playerTurn, this`winningPlayer, this`gameFinished, units, component`unitUpdateQueue
      ensures Valid() && Abs() == PlayUpdated(old(Abs()))
    {
      UnitsUpdate();
      if playerTurn == Player1 && assignedTeam == Player2 {
        UnitNetworkUpdate();
      }
      if playerTurn == Player2 && assignedTeam == Player1 {
        UnitNetworkUpdate();
      }
    }

    /** Takes the snapshot. */
    method SendSnapshot()
      requires Valid()
      modifies component`sendingQueue, component`readyToSend
      ensures Valid() && Abs() == old(Abs()).(sending := old(Abs()).sending + SnapshotMsgs(old(Abs())), readyToSend := false)
    {
      UpdateReconnectee();
      component.readyToSend := false;
    }

    method Update()
      requires Valid()
      modifies this, component, units
      ensures Valid() && Abs() == Frame(old(Abs()))
    {
      AssignTeam();
      if component.lobby || component.reconnecting {
        if component.reconnecting && component.dataSender && component.readyToSend {
          SendSnapshot();
        } else if component.reconnecting && component.updateComplete {
          ResumeAsNewcomer();
        }
      } else {
        if !gameFinished {
          UpdatePlay();
        }
      }
    }
  }

  lemma DamageIgnoresPoints(u: UnitData, dealer: UnitData, points: int)
    ensures TakeDamage(u, dealer.(actionPoints := points)) == TakeDamage(u, dealer)
  {
  }

  /** The end of a turn in two parts. */
  lemma TurnEnds(c: Client)
    requires Sized(c)
    ensures var shipped := ShipUnits(c);
            var news := (if Won(shipped) then [UnitUpdate(EndGame(shipped.team))] else []) + [UnitUpdate(END_TURN)];
            EndTurn(c) == EndgameCheck(shipped).(sending := shipped.sending + news, turn := Opponent(shipped.turn))
  {
    var shipped := ShipUnits(c);
    var announcement := if Won(shipped) then [UnitUpdate(EndGame(shipped.team))] else [];
    assert shipped.sending + (announcement + [UnitUpdate(END_TURN)]) == shipped.sending + announcement + [UnitUpdate(END_TURN)];
  }

  /** A table after unit k has attacked unit i, if that is a target. */
  function AttackOn(units: seq<UnitData>, click: Click, k: int, i: int): seq<UnitData>
    requires 0 <= k < |units| && 0 <= i < |units|
  {
    if IsTarget(units, click, units[k], i) then
      units[i := TakeDamage(units[i], units[k])][k := units[k].(actionPoints := units[k].actionPoints - ATTACK_COST)]
    else units
  }

  /** A table after unit k has attacked the targets among the first n. */
  function AttackedUpTo(units: seq<UnitData>, click: Click, k: int, n: nat): seq<UnitData>
    requires 0 <= k < |units| && n <= |units|
  {
    seq(|units|, i requires 0 <= i < |units| =>
      if i == k then units[k].(actionPoints := units[k].actionPoints - ATTACK_COST * Targets(units, click, units[k], n))
      else if i < n && IsTarget(units, click, units[k], i) then TakeDamage(units[i], units[k])
      else units[i])
  }

  lemma AttackStep(units: seq<UnitData>, click: Click, k: int, n: nat)
    requires 0 <= k < |units| && n < |units|
    ensures AttackedUpTo(units, click, k, n + 1) == AttackOn(AttackedUpTo(units, click, k, n), click, k, n)
    ensures AttackedUpTo(units, click, k, n)[n].health == units[n].health
  {
    var a, b := AttackedUpTo(units, click, k, n), AttackedUpTo(units, click, k, n + 1);
    DamageIgnoresPoints(units[n], units[k], a[k].actionPoints);
    assert IsTarget(a, click, a[k], n) == IsTarget(units, click, units[k], n);
    assert a[k] == units[k].(actionPoints := a[k].actionPoints);
    forall i | 0 <= i < |units| ensures b[i] == AttackOn(a, click, k, n)[i] {
    }
  }

  /** A click on the next-turn button and a move leave everybody's health alone. */
  lemma StillHealthy(c: Client, click: Click)
    requires Sized(c)
    ensures var c1 := GameClient.NextTurnPressed(c, click);
            var c2 := GameClient.PlaceUnitAtClick(c1, click);
            forall k :: 0 <= k < UNIT_COUNT ==> c2.units[k].health == c1.units[k].health == c.units[k].health
  {
    var c1 := GameClient.NextTurnPressed(c, click);
    var c2 := MoveFirst(c1, click, 0);
    assert forall k :: 0 <= k < UNIT_COUNT ==> c1.units[k].health == c.units[k].health;
    MoveKeepsHealth(c1, click, 0);
    MoveKeepsHealth(c2, click, 4);
  }

  lemma MovedKeepsHealth(c: Client, click: Click, i: int)
    requires Sized(c) && 0 <= i < UNIT_COUNT
    ensures forall k :: 0 <= k < UNIT_COUNT ==> Moved(c, click, i).units[k].health == c.units[k].health
  {
  }

  lemma MoveKeepsHealth(c: Client, click: Click, t: int)
    requires Sized(c) && (t == 0 || t == 4)
    ensures forall k :: 0 <= k < UNIT_COUNT ==> MoveFirst(c, click, t).units[k].health == c.units[k].health
  {
    MovedKeepsHealth(c, click, t);
    MovedKeepsHealth(c, click, t + 1);
    MovedKeepsHealth(c, click, t + 2);
    MovedKeepsHealth(c, click, t + 3);
  }

  /** The turn and team a newcomer was sent. */
  function TurnAdopted(c: Client): Client {
    if c.sentTurn == 1 then c.(turn := Player1) else if c.sentTurn == 2 then c.(turn := Player2) else c
  }

  function TeamAdopted(c: Client): Client {
    if c.sentPlayer == 1 then c.(team := Player1, userId := 0)
    else if c.sentPlayer == 2 then c.(team := Player2, userId := 1)
    else c
  }

  function AdoptedSeat(c: Client): Client { TeamAdopted(TurnAdopted(c)) }

  function Replayed(c: Client): Client {
    var r := GameClient.UnitNetworkUpdate(c);
    r.(units := SweepAll(r.units))
  }

  lemma TakeOverParts(c: Client)
    ensures var r := Replayed(AdoptedSeat(c));
            TakeOver(c) == r.(sending := r.sending + [Resume], updateComplete := false)
  {
  }

  /** A frame of play, once the team is assigned. */
  function PlayUpdated(c: Client): Client {
    var c1 := c.(units := SweepAll(c.units));
    var c2 := if c1.turn == Player1 && c1.team == Player2 then GameClient.UnitNetworkUpdate(c1) else c1;
    if c2.turn == Player2 && c2.team == Player1 then GameClient.UnitNetworkUpdate(c2) else c2
  }

  /** Applying a queue from its front. */
  lemma {:induction false} ApplyFromFront(c: Client, m: UnitMsg, rest: seq<UnitMsg>)
    ensures ApplyAll(c, [m] + rest) == ApplyAll(ApplyMsg(c, m), rest)
  {
    if rest == [] {
      assert [m] + rest == [m] && [m][..0] == [];
    } else {
      var n := |rest| - 1;
      assert ([m] + rest)[..|[m] + rest| - 1] == [m] + rest[..n];
      ApplyFromFront(c, m, rest[..n]);
    }
  }

  lemma ApplyMsgIgnoresQueue(c: Client, m: UnitMsg, queue: seq<UnitMsg>)
    ensures ApplyMsg(c.(unitQueue := queue), m) == ApplyMsg(c, m).(unitQueue := queue)
  {
    var d := c.(unitQueue := queue);
    var turn := if m.name == "endturn" then Opponent(c.turn) else c.turn;
    if m.name == "endgame" {
      var winner := if m.x == 1 then Player1 else Player2;
      assert ApplyMsg(c, m) == c.(turn := turn, winner := winner, finished := true);
      assert ApplyMsg(d, m) == d.(turn := turn, winner := winner, finished := true);
    } else {
      assert ApplyMsg(c, m) == c.(turn := turn, units := UpdateUnit(c.units, m));
      assert ApplyMsg(d, m) == d.(turn := turn, units := UpdateUnit(c.units, m));
    }
  }

  lemma {:induction false} ApplyIgnoresQueue(c: Client, ms: seq<UnitMsg>, queue: seq<UnitMsg>)
    ensures ApplyAll(c.(unitQueue := queue), ms) == ApplyAll(c, ms).(unitQueue := queue)
  {
    if ms != [] {
      var n := |ms| - 1;
      ApplyIgnoresQueue(c, ms[..n], queue);
      ApplyMsgIgnoresQueue(ApplyAll(c, ms[..n]), ms[n], queue);
    }
  }

  lemma ApplyFirst(c: Client, m: UnitMsg, rest: seq<UnitMsg>)
    requires c.unitQueue == [m] + rest
    ensures GameClient.UnitNetworkUpdate(c) == GameClient.UnitNetworkUpdate(ApplyMsg(c, m).(unitQueue := rest))
  {
    ApplyFromFront(c, m, rest);
    ApplyIgnoresQueue(ApplyMsg(c, m), rest, rest);
  }
}
