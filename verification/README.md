# Verified model of the networked strategy game and its libraries

The game is a two-player, turn-based strategy game. Each client keeps a full
copy of the unit table; the player whose turn it is changes it, ships the dirty
units and an end of turn through the server, and the other client replays them.
When a player drops out, the survivor re-seeds a newcomer. The game rests on the
enetpp wrapper around ENet, which runs a worker thread beside the game thread,
and ships with the jsoncons JSON library. This project models these parts and
proves what they are for.

**The game.** `Wire` and `Messages` are the packet format. `GameUnit` is the
damage arithmetic. `GameClient` says what each client operation does;
`GameScene` has the objects that do it in place. `GameWorld` puts two clients,
the server's relay and the links together as a transition system in which every
interleaving of clicks, frames and message hops is a run. `GamePlay` proves what
every run of normal play keeps: one turn token, one table up to what is in
flight, selections with the turn holder. `GameOutcome` and `GameVerdict` are
about the end of a game, `GameNewcomer`, `GameReconnect`, `GameResume` and
`GameRecovery` about losing and replacing a player, `GameHops` about composing
runs and `GameTurns` about composing whole turns. `GameBoard` is the board as the
game sets it up: the shipped units, their starting cells and highlights, and
which clicks a point of the screen can give. `GameScript` plays games by pressing
at such points and says which presses are refused, `GamePoints` bounds what a unit
can do between two turns, and `GameDispute` is one such game. `GamePresses` lets presses of
the next-turn button race. `SessionServer` is the server's session logic, shown
to send what `GameWorld` assumes.

**enetpp.** `EnetServer` and `EnetClient` are two-thread state machines with
histories; `EnetServerObject` and `EnetClientObject` are the objects whose
methods take those steps.

**jsoncons.** `JsonTree` has values and events, `JsonEscape` the escaping of
strings, `JsonSerializer` the serializer and the recursive printer it agrees
with, `JsonReader` a reader for RFC 8259 sections 2 to 5 and 7, `JsonPretty` the
indenting mode, `JsonPrettyReader` a printer for it and reading its text back,
`JsonDecoder` the decoder and `JsonFilter` the filters.

Operations that update objects in place are classes whose methods are proved
against functions on values; the properties are proved of those functions over
all runs.

## Where the code falls short of what it is for

Each of these is proved, with the exact condition under which the code does meet
the property.

- A player who has been told the game is over, and holds the turn, can still
  press the next-turn button, and the win check then makes that player the
  winner too. The clients disagree about the winner if and only if that happens
  (`GameVerdict.OutcomeAgreement`). It happens with the units of
  `Resources/Data/Units.json` from their starting cells, every click being one
  that a point of the screen gives (`GameDispute.WinnersCanDisagree`). It needs a
  player to act with units that are wiped but not yet swept: when no click falls
  on such a unit the winners agree (`GameVerdict.CalmOutcome`).
- A reconnection keeps exactly one turn token if and only if no end of turn was
  pending, in either direction, when the survivor took its snapshot
  (`GameResume.ReconnectRestores`). Unit messages still to be applied by the
  survivor then, even without an end of turn, set the two tables apart on exactly
  the units they change. The snapshot does not say that a game has ended: the
  newcomer knows it if and only if the announcement was itself still on its way
  to it. From every table there is a game that loses the turn and one that
  doubles it (`GameRecovery.TurnCanBeLost`, `GameRecovery.TurnCanBeDoubled`).
- The input library may run the callbacks of clicks on threads of their own
  (`Source/Client/MyNetGame.cpp:31`). However any number of presses of the
  next-turn button then interleave, one turn token is left if and only if no press
  passed its test while another was still being handled
  (`GamePresses.TokenSurvivesPresses`); two can leave three
  (`GamePresses.TwoPressesCanTriple`).
- The two players of a game are told different sides if and only if the first
  of them has an even uid (`SessionServer.SidesDiffer`). The reset of the uid
  counter in `Source/Server/Server.cpp:199` is meant to start each session
  afresh, but the counter is a `static` variable in a header, so that file resets
  a copy of its own; the model keeps counting, as the code does.
- A unit's armour is divided by 100 in whole numbers, so armour below 100 is worth
  nothing (`GameUnit.ArmourStops`), and that is the armour of every unit there is
  (`GameBoard.ArmourIsIdle`).
- Two units can come to stand in one cell: a sprite is a little smaller than its
  cell, and a press beside a unit snaps onto it if and only if it falls in the last
  two pixels of the unit's cell (`GameBoard.LandsOnUnit`).
- The second team's sniper reaches the six cells ahead of it, the first team's its
  own cell and the five ahead; all other highlights mirror each other
  (`GameBoard.ReachInCells`).
- `endgame_check` falls off its end without a value when the opponent still has
  living units; the model takes that as false.
- A packet round-trips exactly when its strings hold no NUL, and a unit message
  exactly when its name holds no `&`.

## Model

| member | source | states |
|---|---|---|
| `Wire.Data` | Source/Common/CustomPacket.cpp:30-47 | the filled buffer is the three strings, each NUL-terminated |
| `Wire.PacketRoundTrip` | Source/Common/CustomPacket.cpp:8-13 | decoding an encoded packet is always in bounds and gives the packet back if and only if its strings are NUL-free |
| `Wire.StoiOfIntText` | Source/Client/GameScene.cpp:956-962 | stoi of to_string of any 32-bit integer is that integer, whatever non-digit follows |
| `Wire.StoiReads` | Source/Common/CustomPacket.cpp:66-75 | stoi of blanks, a sign or none, and digits is that number if it fits in 32 bits and out of range otherwise, whatever non-digit follows |
| `Wire.UnitDataDecipher` | Source/Common/CustomPacket.cpp:49-76 | the splitting loop, which terminates, and the conversions give the message of the `&`-terminated fields, or the conversion error |
| `Wire.UnitRoundTrip` | Source/Common/CustomPacket.cpp:49-76 | for 32-bit integers, deciphering the payload built for a unit gives the same values back if and only if the name is `&`-free |
| `Messages.MessageRoundTrip` | Source/Client/ClientNetworking.cpp:59-67 | every message the game sends is understood by the receiver as the same message |
| `Messages.SameBytesSameMessage` | Source/Common/CustomPacket.cpp:30-47 | no two different messages have the same bytes |
| `Messages.TextsOnTheWire` | Source/Server/Server.cpp:124-165 | a chat message and the two reconnection messages as their bytes |
| `Messages.NumbersOnTheWire` | Source/Client/GameScene.cpp:362-363 | messages that carry a number as their bytes |
| `Messages.MarksOnTheWire` | Source/Server/Server.cpp:151-205 | messages that carry nothing as their bytes |
| `Messages.UnitOnTheWire` | Source/Client/GameScene.cpp:956-962 | a unit message as its bytes, coordinates with six decimals |
| `Messages.AnnouncementsOnTheWire` | Source/Client/GameScene.cpp:985-991 | the texts that announce the end of a turn and of the game |
| `GameUnit.Unit.TakeDamageFrom` | Source/Client/Unit.cpp:271-286 | health, squad and dirty flag after a hit, by the truncating division of the source; nothing else changes |
| `GameUnit.Unit.Update` | Source/Client/Unit.cpp:145-156 | a wiped squad is moved off the board and marked dead, once |
| `GameUnit.Unit.ReduceActionPoints` | Source/Client/Unit.cpp:313-316 | only action points change |
| `GameUnit.Unit.ResetActionPoints` | Source/Client/Unit.cpp:318-321 | action points return to the maximum |
| `GameUnit.SweepOnce` | Source/Client/Unit.cpp:145-156 | a unit is dead afterwards if and only if it was or nobody is left; a newly dead one lies off the board; nothing else changes, nor does a second sweep |
| `GameUnit.ArmourStops` | Source/Client/Unit.cpp:274-276 | armour below 100 takes nothing off a blow, armour from 100 to 199 everything |
| `GameUnit.DamageAccounted` | Source/Client/Unit.cpp:279-283 | what a hit takes in whole soldiers and in the health of the others adds up to exactly the damage, which fixes both |
| `GameUnit.DamageSign` | Source/Client/Unit.cpp:274-276 | damage never has the opposite sign to the attacker's squad |
| `GameUnit.HitKeepsHealth` | Source/Client/Unit.cpp:279-283 | no hit takes health below 1, and the squad moves against the sign of the damage |
| `GameUnit.WipedExactly` | Source/Client/Unit.cpp:279-283 | a squad is wiped if and only if the damage is at least health times squad |
| `GameUnit.SurvivorLosesDamage` | Source/Client/Unit.cpp:279-283 | while a squad survives, health times squad falls by at least the damage |
| `GameUnit.DamagingHitCosts` | Source/Client/Unit.cpp:279-283 | every damaging hit lowers health plus squad |
| `GameUnit.SurvivesHits` | Source/Client/Unit.cpp:271-286 | over any sequence of hits: health stays positive, total damage is bounded by the fall of health times squad, and the number of damaging hits by the fall of health plus squad |
| `GameUnit.EnoughDamageWipes` | Source/Client/Unit.cpp:271-286 | enough total damage, or enough damaging hits, wipes the squad however it is dealt |
| `GameScene.ClientComponent.OnData` | Source/Client/ClientNetworking.cpp:59-67 | received messages are queued in order |
| `GameScene.ClientComponent.ProcessReceivedPacket` | Source/Client/ClientNetworking.cpp:107-171 | flags and queues after each kind of message |
| `GameScene.ClientComponent.ProcessQueue` | Source/Client/ClientNetworking.cpp:30-38 | the loop processes everything received, oldest first, and empties the queue |
| `GameScene.ClientComponent.SendFrontOfQueue` | Source/Client/ClientNetworking.cpp:93-105 | exactly the oldest queued message is taken |
| `GameScene.ClientComponent.SendQueue` | Source/Client/ClientNetworking.cpp:40-43 | everything queued is handed on in order, once |
| `GameScene.Scene.constructor` | Source/Client/GameScene.h:120-159 | a new scene has nothing selected, no team, no winner, and the first player's turn |
| `GameScene.Scene.NextTurnPressed` | Source/Client/GameScene.cpp:941-1007 | in place: deselects, resets action points, ships exactly the dirty units in table order and cleans them, announces a win, passes the turn |
| `GameScene.Scene.DeselectAllUnits` | Source/Client/GameScene.cpp:1008-1018 | no unit is selected |
| `GameScene.Scene.EndgameCheck` | Source/Client/GameScene.cpp:1111-1144 | true, and the winner recorded, exactly when the opponent's four units are marked dead |
| `GameScene.Scene.SpriteOnTarget` | Source/Client/Collision.cpp:31-58 | whether any unit's sprite is under the click |
| `GameScene.Scene.MovingUnit` | Source/Client/GameScene.cpp:742-751 | only the moved unit changes: place, one action point, dirty flag |
| `GameScene.Scene.PlaceUnitAtClick` | Source/Client/GameScene.cpp:615-665 | nothing if a sprite is hit; otherwise in each team the first unit that can move moves |
| `GameScene.Scene.AttackingOtherUnit` | Source/Client/GameScene.cpp:720-741 | every opposing unit under the click is hit once and each costs two action points; nobody else changes; health stays positive |
| `GameScene.Scene.AttackClickedUnit` | Source/Client/GameScene.cpp:666-719 | in each team the first unit that can attack does |
| `GameScene.Scene.SetSelected` | Source/Client/GameScene.cpp:807-928 | the flags after the four toggles of the acting player's team |
| `GameScene.Scene.ClickHandler` | Source/Client/GameScene.cpp:595-614 | the four parts of a click, in order, and nothing in the lobby or while reconnecting |
| `GameScene.Scene.UnitsUpdate` | Source/Client/GameScene.cpp:252-260 | every unit is swept |
| `GameScene.Scene.UnitNetworkUpdate` | Source/Client/GameScene.cpp:277-332 | the loop applies the whole queue in order and empties it |
| `GameScene.Scene.UpdateReconnectee` | Source/Client/GameScene.cpp:353-391 | the snapshot is queued: the newcomer's team, the turn, every unit, the end mark |
| `GameScene.Scene.ResumeAsNewcomer` | Source/Client/GameScene.cpp:206-230 | the newcomer adopts turn and team, replays the snapshot, sweeps, and asks to resume |
| `GameScene.Scene.Update` | Source/Client/GameScene.cpp:171-251 | one frame, in the order of the code |
| `GameClient.DirtyInOrder` | Source/Client/GameScene.cpp:952-970 | one message is shipped for each dirty unit, in table order |
| `GameClient.StateTravels` | Source/Client/GameScene.cpp:277-332 | a unit sent as bytes and applied to a table gives its place, squad and health to the first unit of that name, and changes nothing else |
| `GameWorld.UnitMsgsConcat` | Source/Client/ClientNetworking.cpp:120-124 | unit messages of a pipeline are those of its parts in order |
| `GamePlay.IdleClick` | Source/Client/GameScene.cpp:595-614 | no click changes anything at a client that may not act |
| `GamePlay.ActingClick` | Source/Client/GameScene.cpp:595-614 | a click of the acting player moves only its own units, damages only the other's, marks what it touches dirty, and keeps the selection rules |
| `GamePlay.ApplyAllEffect` | Source/Client/GameScene.cpp:277-332 | after a log each unit has its last message and the turn has flipped once for each end of turn |
| `GamePlay.ShippedAgrees` | Source/Client/GameScene.cpp:952-995 | what the end of a turn ships brings an agreeing receiver fully up to date and ends with the only end of turn |
| `GamePlay.RunKeepsPlay` | Source/Client/GameScene.cpp:171-251 | the invariant of normal play holds after every run |
| `GamePlay.TokenConservation` | Source/Client/GameScene.cpp:943-1004 | in every reachable state, clients that may act plus ends of turn in flight is exactly one |
| `GamePlay.ReplicaSimulation` | Source/Client/GameScene.cpp:952-970 | in every reachable state, the idle table after the messages in flight and those for the leader's dirty units shows exactly the leader's table, up to the sweep |
| `GamePlay.TablesAgree` | Source/Client/GameScene.cpp:277-332 | a holder with nothing dirty and the other client show the same table |
| `GamePlay.GainedClean` | Source/Client/GameScene.cpp:238-248 | the frame in which a client gains the turn leaves it with nothing dirty and both tables equal |
| `GamePlay.SelectionSafety` | Source/Client/GameScene.cpp:807-928 | in every reachable state at most one unit is selected, only by the turn holder, only its own |
| `GamePlay.ClicksStayLegal` | Source/Client/GameScene.cpp:595-741 | in every reachable state a click changes only the holder's table, moves only its own units and damages only the opponent's |
| `GamePlay.HealthStaysPositive` | Source/Client/Unit.cpp:279-280 | in every reachable state no hit divides by zero |
| `GameOutcome.ClickStep` | Source/Client/GameScene.cpp:941-945 | a click passes the turn if and only if it presses the button of a client that holds it, out of lobby and reconnection |
| `GameOutcome.ClickSquads` | Source/Client/GameScene.cpp:720-741 | a click with wiped units kills nobody and a click with live units heals nobody |
| `GameOutcome.NeverBothWiped` | Source/Client/GameScene.cpp:720-741 | in every reachable state, in either table, at most one army is wiped out |
| `GameVerdict.ShippedVerdict` | Source/Client/GameScene.cpp:972-990 | an end of turn announces exactly the sender's win, exactly when its check succeeds |
| `GameVerdict.OutcomeAgreement` | Source/Client/GameScene.cpp:302-315 | after any run the clients have finished with different winners if and only if some step pressed next turn at a client already told of the end whose own check succeeds |
| `GameVerdict.FinishedIsFinal` | Source/Client/GameScene.cpp:232-249 | over every run, a client that has finished keeps its table, turn and winner until its own player clicks |
| `GameVerdict.SweptIsCalm` | Source/Client/Unit.cpp:150-155 | once wiped units are swept, no click on the screen falls on one |
| `GameVerdict.CalmOutcome` | Source/Client/GameScene.cpp:1111-1144 | when no click falls on a wiped unit of the player's own, the winners agree |
| `GameTurns.Flush` | Source/Server/Server.cpp:61-72 | from any state of play hops alone deliver everything sent to a side |
| `GameBoard.StartIsGood` | Resources/Data/Units.json:1-65 | the shipped units in their starting cells are a table that every result about play starts from |
| `GameBoard.StartPoints` | Resources/Data/Units.json:1-65 | every shipped unit has two or three action points |
| `GameBoard.ArmourIsIdle` | Resources/Data/Units.json:1-65 | the armour of no shipped unit takes anything off a blow |
| `GameBoard.ReachInCells` | Source/Client/Unit.cpp:162-247 | a point inside a cell is in a unit's move or attack highlight if and only if the cell is in reach of its kind; the teams mirror each other but for the snipers |
| `GameBoard.SnapsToItsCell` | Source/Client/GameScene.cpp:752-806 | a press snaps to the corner of the cell it falls in, below the grid to the last row, and a corner to itself |
| `GameBoard.LandsOnUnit` | Source/Client/GameScene.cpp:752-806 | a press that is not on a unit snaps to the cell that unit stands in if and only if it falls in the last two pixels of that cell |
| `GameScript.SelectStep` | Source/Client/GameScene.cpp:807-928 | a press on a player's own units, none of them selected, selects the last of them in the order tried and changes nothing else |
| `GameScript.MoveStep` | Source/Client/GameScene.cpp:742-806 | a press on an empty spot in the selected unit's move highlight puts it on the cell of that spot, dirty and a point poorer, and deselects it unless the press fell in the gap beside the cell |
| `GameScript.AttackStep` | Source/Client/GameScene.cpp:666-741 | a press on opponents in the selected unit's attack highlight hits each of them once, costs the attacker two action points for each, and changes nothing else |
| `GameScript.MoveRefused` | Source/Client/GameScene.cpp:615-665 | a press on an empty spot does nothing if the selected unit has no action point, or the press is outside its move highlight or off the board |
| `GameScript.AttackRefused` | Source/Client/GameScene.cpp:666-719 | a press on opponents does nothing if the selected unit has fewer than two action points, or the press is outside its attack highlight or off the board |
| `GameScript.UnselectedStays` | Source/Client/GameScene.cpp:615-719 | with nothing selected no press off the button changes a unit |
| `GamePoints.OccupiedStays` | Source/Client/Collision.cpp:31-58 | a click on any unit moves none |
| `GamePoints.PointsBound` | Source/Client/GameScene.cpp:720-751 | over every run between two presses that give action points back, twice the clicks with which a unit deals blows, plus its moves, plus the points left, is at most the points it began with |
| `GamePoints.OneBlowATurn` | Source/Client/GameScene.h:95-96 | a unit with at most three points deals blows with at most one click of a turn, and then moves at most once |
| `GamePresses.TokenSurvivesPresses` | Source/Client/GameScene.cpp:941-1006 | with test, shipping, reading and writing of the turn as separate steps, over every interleaving of any number of presses exactly one turn token is left if and only if none passed its test while another was pending |
| `GamePresses.TwoPressesCanTriple` | Source/Client/GameScene.cpp:991-1004 | an interleaving of two presses that leaves the turn and two ends of turn |
| `GameDispute.WinnersCanDisagree` | Source/Client/GameScene.cpp:972-990 | from the shipped units in their starting cells, and wherever the highlights stand before the first frame, a game whose every click is one a point of the screen gives, after which both clients have finished with different winners |
| `GameNewcomer.RunKeepsFull` | Source/Client/ClientNetworking.cpp:107-171 | besides, clients send only chat and unit messages, and each has its id or is about to |
| `GameNewcomer.AbsorbSnapshot` | Source/Client/ClientNetworking.cpp:126-170 | what a newcomer's flags and queue are after a whole snapshot |
| `GameNewcomer.NewcomerIdle` | Source/Client/GameScene.cpp:604-604 | a newcomer's clicks and frames do nothing before the whole snapshot is there |
| `GameReconnect.LeftWaits` | Source/Server/Server.cpp:203-212 | whenever a player leaves normal play the survivor is waiting, with at most one token |
| `GameReconnect.JoinedWaits` | Source/Server/Server.cpp:163-182 | a newcomer joining keeps the wait, and finds exactly the survivor's unrelayed messages before the snapshot |
| `GameReconnect.StepWaits` | Source/Client/GameScene.cpp:196-204 | every step of either client short of the snapshot keeps the wait |
| `GameResume.SnapshotDecides` | Source/Client/GameScene.cpp:370-384 | whatever came before it, the snapshot decides every unit |
| `GameResume.TakeOverJoins` | Source/Client/GameScene.cpp:206-230 | the newcomer's take-over gives it the other team, the survivor's table, and the survivor's turn flipped once for each stale end of turn |
| `GameResume.NewcomerCannotAct` | Source/Client/GameScene.cpp:604-604 | over every run until the resumption is relayed, no click of the newcomer changes anything |
| `GameResume.ReconnectRestores` | Source/Server/Server.cpp:114-133 | after the resumption is relayed: opposite teams, same table; same turn if and only if no end of turn was pending outward; exactly one token if and only if none was pending either way; full normal play if and only if no end of turn was pending outward and the survivor had nothing to apply; the newcomer knows of the end of a game what was under way to it and no more; what a survivor out of turn had to apply sets the tables apart on exactly the units it changes |
| `GameResume.PlayAfterReconnect` | Source/Client/ClientNetworking.cpp:144-148 | when the survivor had nothing to apply and no end of turn was pending outward, every property of normal play holds after any further play, so reconnections can follow one another |
| `GameResume.ReachableFull` | Source/Client/GameScene.cpp:171-251 | every reachable state of a game may be the start of a reconnection |
| `GameRecovery.ReconnectCompletes` | Source/Client/GameScene.cpp:196-230 | from every state and whatever happens before the newcomer joins, some steps complete the reconnection with exactly what was pending at the join |
| `GameRecovery.TurnCanBeLost` | Source/Client/GameScene.cpp:991-1004 | for every table, a game by clicks the screen gives and a reconnection after which nobody holds the turn and none is on its way |
| `GameRecovery.TurnCanBeDoubled` | Source/Client/GameScene.cpp:290-300 | for every table, a game by clicks the screen gives and a reconnection after which there are two turn tokens |
| `SessionServer.Server.OnClientData` | Source/Server/Server.cpp:41-135 | what is relayed to whom for each kind of message |
| `SessionServer.Server.OnClientConnect` | Source/Server/Server.cpp:137-184 | the id, the start of a game at two clients, or the reconnection messages |
| `SessionServer.Server.OnClientDisconnect` | Source/Server/Server.cpp:186-214 | the session ends with its last client; otherwise the first remaining client becomes data sender |
| `SessionServer.Server.AssignClientLocalID` | Source/Server/Server.cpp:216-250 | the loop sends 1 if and only if some other connected client has an even uid, else 0 |
| `SessionServer.SidesDiffer` | Source/Server/Server.cpp:216-250 | over all sequences of arrivals and departures, a game starts with different sides if and only if the first player's uid, the number of earlier arrivals, is even |
| `SessionServer.FirstGameDiffers` | Source/Server/ServerNetworking.h:5-11 | the first two arrivals play different sides |
| `SessionServer.OneEarlyLeaverCollides` | Source/Server/Server.cpp:195-201 | one client leaving before the game makes both players play the first side |
| `SessionServer.RelayMatches` | Source/Server/Server.cpp:41-135 | the server object's mail for a message is what the two-client world does |
| `SessionServer.LeaveMatches` | Source/Server/Server.cpp:186-214 | likewise for a departure |
| `SessionServer.JoinMatches` | Source/Server/Server.cpp:163-182 | likewise for an arrival during a game |
| `SessionServer.StartMatches` | Source/Server/Server.cpp:144-161 | with an even first uid, the mail of the two arrivals is the state every game is proved from |
| `EnetServer.HandledInOrder` | Libs/enetpp/include/enetpp/server.h:122-162 | over every interleaving, callbacks, batch and queue concatenate to what the worker enqueued, in its order |
| `EnetServer.EventGrammar` | Libs/enetpp/include/enetpp/server.h:266-311 | the events of one client, enqueued or delivered, are a prefix of CONNECT RECEIVE* DISCONNECT |
| `EnetServer.ConnectedExactly` | Libs/enetpp/include/enetpp/server.h:134-148 | a client is in the connected list, once, exactly when its connect has been handled and its disconnect has not, and deleted once exactly when its disconnect has |
| `EnetServer.AssertionsHold` | Libs/enetpp/include/enetpp/server.h:140-148 | the assertions on disconnecting clients and on the peer map never fail, and no event is handled for a deleted client |
| `EnetServer.OwnedOnce` | Libs/enetpp/include/enetpp/server.h:83-93 | in every run that ends in a stop, each allocated client object is deleted exactly once and each received packet destroyed exactly once |
| `EnetServer.HandedInOrder` | Libs/enetpp/include/enetpp/server.h:210-234 | packets handed to peers are, send by send in order, exactly those whose client was mapped and connected when drained; a broadcast is never interleaved |
| `EnetServer.HandedToClient` | Libs/enetpp/include/enetpp/server.h:95-115 | each client is handed, in sending order, exactly its packets of the sends drained while it was reachable |
| `EnetServer.HandsToConnectedPeers` | Libs/enetpp/include/enetpp/server.h:210-234 | in every running state, sending hands over exactly the queued packets whose client is mapped to a peer in the connected state, in order, and leaves none queued |
| `EnetServer.SendQueuesOne` | Libs/enetpp/include/enetpp/server.h:95-102 | a packet for one client is queued behind the others unless the server is stopping |
| `EnetServer.BroadcastReaches` | Libs/enetpp/include/enetpp/server.h:104-115 | in every reachable state, a broadcast queues, in the order of the connected, exactly one packet for each client connected and chosen and none for any other |
| `EnetServer.ReportsAreQueued` | Libs/enetpp/include/enetpp/server.h:266-311 | in every reachable state with the worker running, what a peer reports is queued behind everything before; a connecting peer gets a client nobody has had, found from the peer and back |
| `EnetServer.TakesEverything` | Libs/enetpp/include/enetpp/server.h:122-129 | with nothing left of the last batch the game takes everything queued |
| `EnetServer.EndedForgets` | Libs/enetpp/include/enetpp/server.h:202-208 | in every reachable state a worker that has ended has no peer mapped |
| `EnetServer.StopCompletes` | Libs/enetpp/include/enetpp/server.h:83-93 | from every reachable state between two consumptions, stopping can run to its end, and then each client is deleted exactly once |
| `EnetServerObject.ServerObject.HandleConnectEvent` | Libs/enetpp/include/enetpp/server.h:266-289 | takes the connect step in place |
| `EnetServerObject.ServerObject.HandleDisconnectEvent` | Libs/enetpp/include/enetpp/server.h:291-303 | takes the disconnect step, its assertions proved |
| `EnetServerObject.ServerObject.HandleReceiveEvent` | Libs/enetpp/include/enetpp/server.h:305-311 | takes the receive step; a peer without a client is ignored |
| `EnetServerObject.ServerObject.SendQueuedPackets` | Libs/enetpp/include/enetpp/server.h:210-234 | the loop empties the queue and hands over, in order, exactly the packets whose client is mapped to a peer in the connected state |
| `EnetServerObject.ServerObject.DisconnectAllPeers` | Libs/enetpp/include/enetpp/server.h:202-208 | both maps are emptied and no event is queued |
| `EnetServerObject.ServerObject.SendPacketTo` | Libs/enetpp/include/enetpp/server.h:95-102 | one packet is queued |
| `EnetServerObject.ServerObject.SendPacketToAllIf` | Libs/enetpp/include/enetpp/server.h:104-115 | the loop queues one packet for each connected client that is chosen, in the order of the connected, as one group |
| `EnetServerObject.ServerObject.ConsumeEvents` | Libs/enetpp/include/enetpp/server.h:117-164 | takes the whole queue as a batch, handles all of it in order, keeps the invariant |
| `EnetServerObject.ServerObject.FinishStopListening` | Libs/enetpp/include/enetpp/server.h:89-92 | the three cleanup loops together are the cleanup step |
| `EnetServerObject.ServerObject.DestroyAllQueuedEvents` | Libs/enetpp/include/enetpp/server.h:321-343 | clients of queued connects are deleted and queued received packets destroyed |
| `EnetServerObject.ConsumeIsRun` | Libs/enetpp/include/enetpp/server.h:131-162 | taking the queue and handling all of it is a run of atomic steps |
| `EnetClient.HandledInOrder` | Libs/enetpp/include/enetpp/client.h:107-161 | over every interleaving, callbacks, batch, queue and dropped events concatenate to the worker's order; nothing follows a disconnect |
| `EnetClient.SentOnce` | Libs/enetpp/include/enetpp/client.h:98-105 | every packet sent is passed to the peer once, still queued, or destroyed once; those passed come first, in order |
| `EnetClient.DestroyedOnce` | Libs/enetpp/include/enetpp/client.h:168-188 | once disconnected with the batch handled, every received packet is destroyed exactly once and the queues are empty |
| `EnetClient.NeverDestroyedTwice` | Libs/enetpp/include/enetpp/client.h:142-153 | at no time is a packet destroyed twice, or before it is handled |
| `EnetClient.StatusFlag` | Libs/enetpp/include/enetpp/client.h:212-257 | the connected flag is set exactly while the worker is in its loop |
| `EnetClient.SendQueuesOne` | Libs/enetpp/include/enetpp/client.h:98-105 | a packet is queued behind the others unless the client is disconnecting or has |
| `EnetClient.WorkerPassesAll` | Libs/enetpp/include/enetpp/client.h:262-278 | in every reachable state with the worker running, its next send leaves everything sent so far passed to the peer |
| `EnetClient.ReportsAreQueued` | Libs/enetpp/include/enetpp/client.h:241-254 | in the loop, what the peer does is queued in order, its connect once |
| `EnetClient.TakesEverything` | Libs/enetpp/include/enetpp/client.h:112-120 | with nothing left of the last batch the game takes everything queued |
| `EnetClient.DisconnectCompletes` | Libs/enetpp/include/enetpp/client.h:87-96 | from every reachable state disconnecting can run to its end |
| `EnetClientObject.ClientObject.SendQueuedPackets` | Libs/enetpp/include/enetpp/client.h:262-278 | the loop passes the whole queue in order |
| `EnetClientObject.ClientObject.CaptureEvents` | Libs/enetpp/include/enetpp/client.h:241-254 | events are queued up to and including the first disconnect, which ends the worker |
| `EnetClientObject.ClientObject.SendPacket` | Libs/enetpp/include/enetpp/client.h:98-105 | a packet is queued unless the thread is gone |
| `EnetClientObject.ClientObject.ConsumeBatch` | Libs/enetpp/include/enetpp/client.h:112-154 | takes and handles the whole queue, and says whether the disconnect was in it |
| `EnetClientObject.ClientObject.FinishDisconnect` | Libs/enetpp/include/enetpp/client.h:87-96 | after the worker has ended, both queues are destroyed |
| `EnetClientObject.ConsumeIsRun` | Libs/enetpp/include/enetpp/client.h:112-154 | taking the queue and handling all of it is a run of atomic steps |
| `JsonEscape.EscapeString` | Libs/jsoncons/include/jsoncons/json_serializer.hpp:135-234 | the loop appends the escape of every codepoint in order |
| `JsonEscape.EscapeRoundTrip` | Libs/jsoncons/include/jsoncons/json_serializer.hpp:135-234 | for every string and option setting, reading the escaped text by RFC 8259 section 7 gives the string and leaves what followed |
| `JsonEscape.EscapeInjective` | Libs/jsoncons/include/jsoncons/json_serializer.hpp:135-234 | no two strings have the same escaped text |
| `JsonEscape.SurrogatesRecombine` | Libs/jsoncons/include/jsoncons/json_serializer.hpp:197-226 | the halves of a codepoint above FFFF lie in D800..DBFF and DC00..DFFF and recombine exactly, as in RFC 2781 section 2.1 |
| `JsonEscape.EscapeAllIsAscii` | Libs/jsoncons/include/jsoncons/detail/type_traits_helper.hpp:105-122 | with all non-ASCII escaped the output is printable ASCII |
| `JsonEscape.WrittenForms` | Libs/jsoncons/include/jsoncons/json_serializer.hpp:135-234 | how each kind of character is written under each option setting |
| `JsonEscape.PlainStays` | Libs/jsoncons/include/jsoncons/json_serializer.hpp:135-234 | with escape_solidus off, printable ASCII without quotes and backslashes escapes to itself |
| `JsonEscape.SolidusAlwaysEscaped` | Libs/jsoncons/include/jsoncons/json_serializer.hpp:176-180 | with escape_solidus on, every solidus of the output follows a backslash |
| `JsonEscape.NonAsciiStays` | Libs/jsoncons/include/jsoncons/json_serializer.hpp:181-227 | with escape_all_non_ascii off, the output has the non-ASCII characters of the string, in order, and no others |
| `JsonSerializer.Serializer.DoBeginObject` | Libs/jsoncons/include/jsoncons/json_serializer.hpp:245-288 | stack, indentation and output after the handler |
| `JsonSerializer.Serializer.DoEndObject` | Libs/jsoncons/include/jsoncons/json_serializer.hpp:290-305 | likewise; refused on an empty stack |
| `JsonSerializer.Serializer.DoBeginArray` | Libs/jsoncons/include/jsoncons/json_serializer.hpp:308-357 | likewise |
| `JsonSerializer.Serializer.DoEndArray` | Libs/jsoncons/include/jsoncons/json_serializer.hpp:359-373 | likewise; refused on an empty stack |
| `JsonSerializer.Serializer.DoName` | Libs/jsoncons/include/jsoncons/json_serializer.hpp:375-400 | likewise |
| `JsonSerializer.Serializer.DoValue` | Libs/jsoncons/include/jsoncons/json_serializer.hpp:402-546 | likewise, for the scalar handlers |
| `JsonSerializer.Serializer.DoWriteIndent` | Libs/jsoncons/include/jsoncons/json_serializer.hpp:558-578 | a line break and as many spaces as the indentation; the structure is marked |
| `JsonSerializer.NothingWritten` | Libs/jsoncons/include/jsoncons/json_serializer.hpp:290-305 | an end with nothing open is refused, and the begin and end of a document write nothing |
| `JsonSerializer.CompactValue` | Libs/jsoncons/include/jsoncons/json_serializer.hpp:245-427 | from any state, the events of a tree write its separator and its printed text and count one child |
| `JsonSerializer.CompactIsPrint` | Libs/jsoncons/include/jsoncons/json_serializer.hpp:504-546 | the compact output of a tree's events is the recursive printer's text |
| `JsonReader.ReadPrinted` | Libs/jsoncons/include/jsoncons/json_serializer.hpp:245-427 | reading undoes printing, whatever may follow |
| `JsonReader.TextDeterminesValue` | Libs/jsoncons/include/jsoncons/json_serializer.hpp:245-427 | a reader for RFC 8259 recovers the value from its text |
| `JsonReader.PrintInjective` | Libs/jsoncons/include/jsoncons/json_serializer.hpp:245-427 | two values with the same text are equal |
| `JsonReader.SerializeThenRead` | Libs/jsoncons/include/jsoncons/json_serializer.hpp:245-546 | serializing a tree's events and reading the text gives the tree |
| `JsonPretty.PrettyAddsOnlyWhitespace` | Libs/jsoncons/include/jsoncons/json_serializer.hpp:258-287 | for any event sequence and options, erasing whitespace outside strings from the indented output gives the compact output, and the indentation is the depth times the configured indent |
| `JsonPretty.PrettyTree` | Libs/jsoncons/include/jsoncons/json_serializer.hpp:548-578 | for a tree that is the printer's text, and the indentation ends at 0 |
| `JsonPrettyReader.ValueWritten` | Libs/jsoncons/include/jsoncons/json_serializer.hpp:245-427 | from any state, the events of a tree write what leads up to it and the text of a printer that knows only the tree, the options, where the value stands and the depth |
| `JsonPrettyReader.PrettyIsPrint` | Libs/jsoncons/include/jsoncons/json_serializer.hpp:504-578 | the indented output of a tree's events is that printer's text, which says of every element, name and bracket whether it begins a line and how far it is indented, for each combination of line-split options |
| `JsonPrettyReader.SpacesAre` | Libs/jsoncons/include/jsoncons/json_serializer.hpp:570-578 | the indentation is exactly as many spaces as its width |
| `JsonPrettyReader.ReadPretty` | Libs/jsoncons/include/jsoncons/json_serializer.hpp:548-578 | reading undoes indented printing, whatever may follow |
| `JsonPrettyReader.PrettyReadsBack` | Libs/jsoncons/include/jsoncons/json_serializer.hpp:245-578 | for every tree and options, the indented text of its events reads back as the tree by RFC 8259, so the added whitespace is between tokens |
| `JsonDecoder.Decoder.DoBeginJson` | Libs/jsoncons/include/jsoncons/json_decoder.hpp:150-158 | the stacks are reset |
| `JsonDecoder.Decoder.DoEndJson` | Libs/jsoncons/include/jsoncons/json_decoder.hpp:159-166 | the result is taken exactly when one value is there |
| `JsonDecoder.Decoder.EndStructure` | Libs/jsoncons/include/jsoncons/json_decoder.hpp:190-216 | the loops move the children, in order, into the structure they close |
| `JsonDecoder.Decoder.DoName` | Libs/jsoncons/include/jsoncons/json_decoder.hpp:218-221 | a named slot is pushed |
| `JsonDecoder.Decoder.DoValue` | Libs/jsoncons/include/jsoncons/json_decoder.hpp:223-305 | the value fills the named slot or is pushed |
| `JsonDecoder.Decoder.GetResult` | Libs/jsoncons/include/jsoncons/json_decoder.hpp:97-101 | the result is handed out and the decoder is no longer valid |
| `JsonDecoder.DecodesValue` | Libs/jsoncons/include/jsoncons/json_decoder.hpp:112-216 | from any state with an open structure the events of a value place exactly that value and restore the offsets |
| `JsonDecoder.DecodesDocument` | Libs/jsoncons/include/jsoncons/json_decoder.hpp:150-166 | from any state a document of some values is decoded, and is valid if and only if there is one, which is the result |
| `JsonDecoder.DecoderInvertsEvents` | Libs/jsoncons/include/jsoncons/json_decoder.hpp:218-306 | from any state, the decoder gets through the event stream of a tree, to the tree and nothing else |
| `JsonFilter.RenameThenDecode` | Libs/jsoncons/include/jsoncons/json_filter.hpp:382-421 | a decoder behind the rename filter gets through, to exactly the tree with that member name replaced everywhere and strings untouched |
| `JsonFilter.RenameThenSerialize` | Libs/jsoncons/include/jsoncons/json_filter.hpp:382-421 | and a serializer behind it writes text that reads back as the renamed tree |
| `JsonFilter.RenameRemoves` | Libs/jsoncons/include/jsoncons/json_filter.hpp:382-421 | renaming to another name removes the old one everywhere |
| `JsonFilter.RenameUndone` | Libs/jsoncons/include/jsoncons/json_filter.hpp:382-421 | renaming back gives the tree again if and only if it had no member of the new name |
| `JsonFilter.FragmentsDecodeToArray` | Libs/jsoncons/include/jsoncons/json_filter.hpp:361-380 | documents fed through the fragment filter inside one array decode, to exactly the array of their values |

## Left out

- Rendering, sprites, audio, menus, scenes and the chat window; sprite coordinates are kept as whole numbers.
- Which highlight sprites a click falls in and where it snaps to on the grid are parameters of a click, and the results about all runs hold for any; `GameBoard.ClickAt` says which a point of the screen gives. The scene flag that disables clicks outside the game scene is taken as set.
- GameUnit.Unit.TakeDamageFrom: does not model the float rounding of very large damages or 32-bit overflow of squads and health; the arithmetic is exact.
- GameUnit.Hit: a unit whose health is 0 is left alone, because the source divides by zero there; that no reachable state has one is proved.
- Wire.FloatText: coordinates whose value is not a whole number are not modelled; the game only stores whole ones.
- GameScene.ClientComponent.OnData: queues hold messages rather than packets; that each survives the wire unchanged is `Messages.MessageRoundTrip`, and a conversion that throws ends the thread in the source.
- Chat messages are relayed but not kept: the queue the chat window reads is not modelled.
- GameWorld: frames are atomic against the network thread; the locks inside a frame are not modelled. Clicks are atomic against frames and against each other, although their callbacks may run on threads of their own; presses of the next-turn button that race are `GamePresses`, other clicks and the shipped units under a race are not modelled.
- GameResume.ReconnectRestores: nobody leaves again before the resumption; a newcomer that leaves before it has the snapshot is not modelled, nor is a survivor that leaves.
- GameOutcome.NeverBothWiped: for play without a reconnection, as `GameVerdict.OutcomeAgreement`; what a newcomer knows of an ended game is part of `GameResume.ReconnectRestores`.
- GameWorld: a game starts with two admitted players on different sides; when that is so is `SessionServer.SidesDiffer`. Leaving the game scene and starting a second game in the same client are not modelled.
- SessionServer.Server.OnClientData: a request to resume is only specified with two connected clients, because the source indexes the second one without a check.
- SessionServer: more than two clients cannot connect, because the library refuses them; uids do not wrap around.
- ENet itself: links are reliable and in order, and each peer reports a connect, then receives, then a disconnect. Time is abstracted to the choice of steps.
- EnetServerObject.ServerObject.HandleReceiveEvent: a packet from a peer without a client is never destroyed in the source (`Libs/enetpp/include/enetpp/server.h:305-311`); the model does not count it among the packets received.
- EnetServer: reference counts of packets shared by a broadcast live in ENet and are not modelled; packets are values. Callbacks do not stop or consume re-entrantly, and their own sends are separate steps.
- EnetClient: one connection; connecting again starts a new one.
- jsoncons' object container: members are a sequence, without sorting or removal of duplicate names.
- jsoncons' numbers are opaque tokens of number characters; formatting of doubles, NaN and byte strings is not modelled.
- JsonEscape.EscapeString: works on codepoints; decoding of UTF-8 and the exception for invalid sequences are not modelled.
- jsoncons' parser and json_reader are not part of this model; the reader here is an independent one for RFC 8259.
- Action points have no proved lower bound: one attack on several units under the click charges each.
