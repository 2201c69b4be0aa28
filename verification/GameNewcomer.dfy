/**
 What a newcomer makes of the messages of a reconnection: nothing it can act
 on until it has the survivor's whole snapshot. Also two more facts that every
 run of normal play keeps.
 */
module GameNewcomer {
  import opened Wrappers
  import opened Wire
  import opened Messages
  import opened GameUnit
  import opened GameClient
  import opened GameWorld
  import opened GamePlay

  // ----- two more facts about normal play -----

  function Outgoing(w: World, s: Side): seq<Msg> { w.up.At(s) + w.clients.At(s).sending }

  function Inbound(w: World, s: Side): seq<Msg> { w.clients.At(s).received + w.down.At(s) }

  /** In normal play clients send only chat and unit messages. */
  predicate Sendables(ms: seq<Msg>) { forall i :: 0 <= i < |ms| ==> ms[i].Chat? || ms[i].UnitUpdate? }

  /** The client has its id or is about to receive it. */
  predicate Admitted(w: World, s: Side) {
    w.clients.At(s).userId == IdOf(s) || Init(IdOf(s)) in Inbound(w, s)
  }

  predicate FullPlay(w: World) {
    PlayInv(w) && forall s: Side :: Sendables(Outgoing(w, s)) && Admitted(w, s)
  }

  lemma InitialFull(t: seq<UnitData>)
    requires GoodTable(t)
    ensures FullPlay(Initial(t))
  {
    InitialPlay(t);
    var w := Initial(t);
    assert Inbound(w, One)[0] == Init(0) && Inbound(w, Two)[0] == Init(1);
  }

  /** Processing a message of play keeps the id or takes it. */
  lemma ProcessedAdmitted(c: Client, m: Msg, rest: seq<Msg>, s: Side)
    requires PlayMsg(m, s) && (c.userId == IdOf(s) || Init(IdOf(s)) in [m] + rest)
    ensures ProcessReceived(c, m).userId == IdOf(s) || Init(IdOf(s)) in rest
  {
    match m
    case Init(_) =>
    case Reconnect(_) =>
    case _ =>
  }

  lemma SentFull(w: World, s: Side, p: Side)
    requires w.present.At(s) && Sendables(Outgoing(w, p)) && Admitted(w, p)
    ensures var w' := Next(w, Sent(s)); Sendables(Outgoing(w', p)) && Admitted(w', p)
  {
    var w' := Next(w, Sent(s));
    var sending := w.clients.At(s).sending;
    if sending != [] {
      assert sending == [sending[0]] + sending[1..];
      assert Outgoing(w', p) == Outgoing(w, p);
      assert Inbound(w', p) == Inbound(w, p);
    }
  }

  lemma RelayedFull(w: World, s: Side, p: Side)
    requires w.present == Pair(true, true) && Sendables(Outgoing(w, p)) && Sendables(Outgoing(w, s)) && Admitted(w, p)
    ensures var w' := Next(w, Relayed(s)); Sendables(Outgoing(w', p)) && Admitted(w', p)
  {
    var w' := Next(w, Relayed(s));
    var up := w.up.At(s);
    if up != [] {
      assert Outgoing(w, s)[0] == up[0];
      assert Outgoing(w', p) == Outgoing(w, p) || Outgoing(w', p) == Outgoing(w, p)[1..];
      assert forall m :: m in Inbound(w, p) ==> m in Inbound(w', p);
    }
  }

  lemma DeliveredFull(w: World, s: Side, p: Side)
    requires w.present.At(s) && Sendables(Outgoing(w, p)) && Admitted(w, p)
    ensures var w' := Next(w, Delivered(s)); Sendables(Outgoing(w', p)) && Admitted(w', p)
  {
    var w' := Next(w, Delivered(s));
    var down := w.down.At(s);
    if down != [] {
      assert down == [down[0]] + down[1..];
      assert Inbound(w', p) == Inbound(w, p);
      assert Outgoing(w', p) == Outgoing(w, p);
    }
  }

  lemma ProcessedFull(w: World, s: Side, p: Side)
    requires w.present.At(s) && Sendables(Outgoing(w, p)) && Admitted(w, p)
    requires w.clients.At(s).received != [] ==> PlayMsg(w.clients.At(s).received[0], s)
    ensures var w' := Next(w, Processed(s)); Sendables(Outgoing(w', p)) && Admitted(w', p)
  {
    var received := w.clients.At(s).received;
    if received != [] {
      ProcessedOne(w, s, p, w.clients.At(s).(received := received[1..]), received[0]);
    }
  }

  lemma ProcessedOne(w: World, s: Side, p: Side, c: Client, m: Msg)
    requires Sendables(Outgoing(w, p)) && Admitted(w, p) && PlayMsg(m, s)
    requires w.clients.At(s).received == [m] + c.received && c == w.clients.At(s).(received := c.received)
    ensures var w' := SetClient(w, s, ProcessReceived(c, m)); Sendables(Outgoing(w', p)) && Admitted(w', p)
  {
    var w' := SetClient(w, s, ProcessReceived(c, m));
    ProcessedQueues(c, m);
    assert Outgoing(w', p) == Outgoing(w, p);
    if p == s {
      assert Inbound(w, s) == [m] + Inbound(w', s);
      ProcessedAdmitted(c, m, Inbound(w', s), s);
    }
  }

  /** What a click or frame of normal play leaves alone, and what it may queue. */
  predicate SendsMore(c: Client, c': Client) {
    && c'.received == c.received && c'.userId == c.userId
    && |c'.sending| >= |c.sending| && c'.sending[..|c.sending|] == c.sending
    && Sendables(c'.sending[|c.sending|..])
  }

  lemma MoreFull(w: World, s: Side, c': Client, p: Side)
    requires SendsMore(w.clients.At(s), c') && Sendables(Outgoing(w, p)) && Admitted(w, p)
    ensures var w' := SetClient(w, s, c'); Sendables(Outgoing(w', p)) && Admitted(w', p)
  {
    var w', n := SetClient(w, s, c'), |w.clients.At(s).sending|;
    if p == s {
      assert Outgoing(w', s) == Outgoing(w, s) + c'.sending[n..];
    }
  }

  lemma ClickSends(c: Client, s: Side, t: seq<UnitData>, click: Click)
    requires GoodTable(t) && ClientOk(c, s, t)
    ensures SendsMore(c, HandleClick(c, click))
  {
    if c.turn != c.team {
      IdleClick(c, s, t, click);
      SendsNothing(c, c);
    } else if !click.onNextTurn {
      ActingClick(c, s, t, click);
      SendsNothing(c, HandleClick(c, click));
    } else if c.lobby || c.reconnecting {
      SendsNothing(c, HandleClick(c, click));
    } else {
      NextTurnClick(c, s, t, click);
      EndTurnSends(c);
    }
  }

  lemma SendsNothing(c: Client, c': Client)
    requires c'.sending == c.sending && c'.received == c.received && c'.userId == c.userId
    ensures SendsMore(c, c')
  {
  }

  lemma EndTurnSends(c: Client)
    requires Sized(c)
    ensures SendsMore(c, EndTurn(c))
  {
    EndTurnShips(c);
    assert (c.sending + ShippedMsgs(c))[|c.sending|..] == ShippedMsgs(c);
  }

  lemma FrameSends(c: Client, s: Side, t: seq<UnitData>)
    requires GoodTable(t) && ClientOk(c, s, t) && LogOk(c.unitQueue, t)
    ensures SendsMore(c, Frame(c))
  {
    FrameIsPlayFrame(c, s, t);
    ApplyAllEffect(AssignTeam(c).(units := SweepAll(c.units)), c.unitQueue, t);
  }

  lemma ChatSends(c: Client, chat: Msg)
    requires chat.Chat?
    ensures SendsMore(c, c.(sending := c.sending + [chat]))
  {
    assert (c.sending + [chat])[|c.sending|..] == [chat];
  }

  lemma StepFullSide(w: World, step: Step, p: Side)
    requires FullPlay(w) && InPlay(step)
    ensures Sendables(Outgoing(Next(w, step), p)) && Admitted(Next(w, step), p)
  {
    var c := w.clients.At(step.side);
    match step
    case Clicked(s, click) =>
      ClickSends(c, s, w.table, click);
      MoreFull(w, s, HandleClick(c, click), p);
    case Framed(s) =>
      QueueOk(c.unitQueue, UnitMsgs(Pipe(w, s)), w.table);
      FrameSends(c, s, w.table);
      MoreFull(w, s, Frame(c), p);
    case Chatted(s, username, text) =>
      ChatSends(c, Chat(username, text));
      MoreFull(w, s, c.(sending := c.sending + [Chat(username, text)]), p);
    case Sent(s) => SentFull(w, s, p);
    case Relayed(s) => RelayedFull(w, s, p);
    case Delivered(s) => DeliveredFull(w, s, p);
    case Processed(s) =>
      if c.received != [] {
        assert Pipe(w, s)[0] == c.received[0];
      }
      ProcessedFull(w, s, p);
  }

  lemma StepKeepsFull(w: World, step: Step)
    requires FullPlay(w) && InPlay(step)
    ensures FullPlay(Next(w, step))
  {
    StepKeepsPlay(w, step);
    forall p: Side ensures Sendables(Outgoing(Next(w, step), p)) && Admitted(Next(w, step), p) {
      StepFullSide(w, step, p);
    }
  }

  lemma {:induction false} RunKeepsFull(w: World, steps: seq<Step>)
    requires FullPlay(w) && AllInPlay(steps)
    ensures FullPlay(Run(w, steps))
    decreases |steps|
  {
    if steps != [] {
      StepKeepsFull(w, steps[0]);
      RunKeepsFull(Next(w, steps[0]), steps[1..]);
    }
  }

  // ----- what a newcomer makes of what it is sent -----

  function Absorb(c: Client, ms: seq<Msg>): Client
    decreases |ms|
  {
    if ms == [] then c else Absorb(ProcessReceived(c, ms[0]), ms[1..])
  }

  lemma {:induction false} AbsorbConcat(c: Client, a: seq<Msg>, b: seq<Msg>)
    ensures Absorb(c, a + b) == Absorb(Absorb(c, a), b)
    decreases |a|
  {
    if a == [] {
      assert a + b == b;
    } else {
      assert (a + b)[1..] == a[1..] + b;
      AbsorbConcat(ProcessReceived(c, a[0]), a[1..], b);
    }
  }

  lemma ProcessedSendable(c: Client, m: Msg)
    requires m.Chat? || m.UnitUpdate?
    ensures ProcessReceived(c, m) == c.(unitQueue := c.unitQueue + if m.UnitUpdate? then [m.unit] else [])
  {
    assert c.unitQueue + [] == c.unitQueue;
  }

  /** Chat and unit messages only fill the queue. */
  lemma {:induction false} AbsorbSendables(c: Client, ms: seq<Msg>)
    requires Sendables(ms)
    ensures Absorb(c, ms) == c.(unitQueue := c.unitQueue + UnitMsgs(ms))
    decreases |ms|
  {
    if ms == [] {
      assert c.unitQueue + [] == c.unitQueue;
    } else {
      ProcessedSendable(c, ms[0]);
      AbsorbSendables(ProcessReceived(c, ms[0]), ms[1..]);
      var head := if ms[0].UnitUpdate? then [ms[0].unit] else [];
      assert c.unitQueue + head + UnitMsgs(ms[1..]) == c.unitQueue + (head + UnitMsgs(ms[1..]));
    }
  }

  /** Kinds of message a newcomer is sent before it resumes. */
  predicate RejoinMsg(m: Msg) {
    m == Reconnect(true) || m.Chat? || m.UnitUpdate? || m.Player? || m.Turn? || m.UpdateComplete?
  }

  predicate RejoinMsgs(ms: seq<Msg>) { forall i :: 0 <= i < |ms| ==> RejoinMsg(ms[i]) }

  /** What absorbing such messages leaves alone. */
  function Base(c: Client): Client {
    c.(unitQueue := [], lobby := false, reconnecting := false, sentTurn := 0, sentPlayer := 0, updateComplete := false)
  }

  lemma ProcessedBase(c: Client, m: Msg)
    requires RejoinMsg(m)
    ensures Base(ProcessReceived(c, m)) == Base(c)
  {
  }

  lemma {:induction false} AbsorbBase(c: Client, ms: seq<Msg>)
    requires RejoinMsgs(ms)
    ensures Base(Absorb(c, ms)) == Base(c)
    decreases |ms|
  {
    if ms != [] {
      ProcessedBase(c, ms[0]);
      AbsorbBase(ProcessReceived(c, ms[0]), ms[1..]);
    }
  }

  /** A newcomer that has been told to reconnect and has received some unit messages. */
  function Opened(t: seq<UnitData>, q: seq<UnitMsg>): Client {
    NewClient(t).(lobby := false, reconnecting := true, unitQueue := q)
  }

  function UnitsOf(units: seq<UnitData>): seq<UnitMsg> {
    seq(|units|, i requires 0 <= i < |units| => MsgFor(units[i]))
  }

  lemma {:induction false} UnitMsgsOfAll(units: seq<UnitData>)
    ensures UnitMsgs(AllMsgs(units)) == UnitsOf(units)
    decreases |units|
  {
    if units != [] {
      UnitMsgsOfAll(units[1..]);
      assert AllMsgs(units)[1..] == AllMsgs(units[1..]);
      assert UnitsOf(units) == [MsgFor(units[0])] + UnitsOf(units[1..]);
    }
  }

  /** A newcomer that has received the whole snapshot of a survivor. */
  function Informed(t: seq<UnitData>, q: seq<UnitMsg>, c: Client): Client {
    Opened(t, q).(
      sentPlayer := if c.team == Player1 then 2 else 1,
      sentTurn := TeamNumber(c.turn),
      unitQueue := q + UnitsOf(c.units),
      updateComplete := true)
  }

  lemma AbsorbSnapshot(t: seq<UnitData>, q: seq<UnitMsg>, c: Client)
    ensures Absorb(Opened(t, q), SnapshotMsgs(c)) == Informed(t, q, c)
  {
    var head := [Player(if c.team == Player1 then 2 else 1), Turn(TeamNumber(c.turn))];
    var d := Opened(t, q);
    AbsorbConcat(d, head + AllMsgs(c.units), [UpdateComplete]);
    AbsorbConcat(d, head, AllMsgs(c.units));
    AbsorbOne(d, head[0]);
    AbsorbOne(ProcessReceived(d, head[0]), head[1]);
    assert head == [head[0]] + [head[1]];
    AbsorbConcat(d, [head[0]], [head[1]]);
    var d1 := Absorb(d, head);
    AbsorbSendables(d1, AllMsgs(c.units));
    UnitMsgsOfAll(c.units);
    AbsorbOne(Absorb(d1, AllMsgs(c.units)), UpdateComplete);
  }

  lemma AbsorbOne(c: Client, m: Msg)
    ensures Absorb(c, [m]) == ProcessReceived(c, m)
  {
    assert [m][1..] == [];
  }

  /** What the client of a side will be once it has processed all that is under way to it. */
  function Fate(w: World, s: Side): Client { Absorb(w.clients.At(s).(received := []), Pipe(w, s)) }

  /** Processing one message does not change what the client will come to. */
  lemma ProcessedFate(w: World, s: Side)
    requires w.present.At(s)
    ensures Fate(Next(w, Processed(s)), s) == Fate(w, s)
  {
    var c := w.clients.At(s);
    if c.received != [] {
      var m, rest := c.received[0], c.received[1..];
      var w' := Next(w, Processed(s));
      ProcessedQueues(c.(received := rest), m);
      assert Pipe(w, s) == [m] + Pipe(w', s);
      assert Pipe(w, s)[1..] == Pipe(w', s);
      ProcessedReceived(c, m, rest);
      ProcessedReceived(c, m, []);
    }
  }

  // ----- the newcomer waits -----

  predicate Locked(c: Client) { c.lobby || c.reconnecting }

  /** A newcomer to whom only messages of the reconnection are under way. */
  predicate Newcomer(w: World, b: Side) {
    var d := w.clients.At(b);
    && w.present.At(b) && Locked(d) && RejoinMsgs(Pipe(w, b))
    && Base(d.(received := [])) == Base(NewClient(w.table)) && |w.table| == UNIT_COUNT
    && w.up.At(b) == []
  }

  lemma BaseFields(d: Client, t: seq<UnitData>)
    requires Base(d.(received := [])) == Base(NewClient(t))
    ensures d.units == t && d.selected == AllClear() && d.team == NoTeam && d.userId == -1
    ensures !d.dataSender && !d.readyToSend && d.sending == []
  {
    var x, y := Base(d.(received := [])), Base(NewClient(t));
    assert x.units == y.units && x.selected == y.selected && x.team == y.team && x.userId == y.userId;
    assert x.dataSender == y.dataSender && x.readyToSend == y.readyToSend && x.sending == y.sending;
  }

  /** A newcomer cannot act: clicks, frames and chat do nothing until it has the whole snapshot. */
  lemma NewcomerIdle(w: World, b: Side, click: Click)
    requires Newcomer(w, b)
    ensures Sized(w.clients.At(b)) && HandleClick(w.clients.At(b), click) == w.clients.At(b)
    ensures !w.clients.At(b).updateComplete ==> Frame(w.clients.At(b)) == w.clients.At(b)
  {
    BaseFields(w.clients.At(b), w.table);
  }

  /** The pieces of a newcomer processing its first received message. */
  lemma NewcomerTakes(w: World, b: Side, m: Msg, rest: seq<Msg>)
    requires w.present.At(b) && w.clients.At(b).received == [m] + rest
    ensures var c', w' := ProcessReceived(w.clients.At(b).(received := rest), m), Next(w, Processed(b));
            && w' == SetClient(w, b, c') && Pipe(w, b) == [m] + Pipe(w', b) && c'.received == rest
  {
    var c := w.clients.At(b);
    assert c.received[0] == m && c.received[1..] == rest;
    ProcessedQueues(c.(received := rest), m);
  }

  lemma NewcomerClient(c: Client, m: Msg, rest: seq<Msg>)
    requires RejoinMsg(m) && Locked(c)
    ensures var c' := ProcessReceived(c.(received := rest), m);
            Locked(c') && Base(c'.(received := [])) == Base(c.(received := []))
  {
    ProcessedBase(c.(received := []), m);
    ProcessedReceived(c, m, rest);
    ProcessedReceived(c, m, []);
  }

  lemma MoveUnit(queue: seq<UnitMsg>, m: Msg, pipe: seq<Msg>)
    ensures (queue + if m.UnitUpdate? then [m.unit] else []) + UnitMsgs(pipe) == queue + UnitMsgs([m] + pipe)
  {
    assert ([m] + pipe)[1..] == pipe;
    ConcatAssociates(queue, if m.UnitUpdate? then [m.unit] else [], UnitMsgs(pipe));
  }

  lemma NewcomerLog(w: World, b: Side, m: Msg, rest: seq<Msg>)
    requires w.present.At(b) && w.clients.At(b).received == [m] + rest
    ensures Log(Next(w, Processed(b)), b) == Log(w, b)
  {
    NewcomerTakes(w, b, m, rest);
    QueuedUnits(w.clients.At(b).(received := rest), m);
    MoveUnit(w.clients.At(b).unitQueue, m, Pipe(Next(w, Processed(b)), b));
  }

  lemma NewcomerProcesses(w: World, b: Side)
    requires Newcomer(w, b)
    ensures Newcomer(Next(w, Processed(b)), b)
    ensures Fate(Next(w, Processed(b)), b) == Fate(w, b)
    ensures Log(Next(w, Processed(b)), b) == Log(w, b)
  {
    ProcessedFate(w, b);
    var received := w.clients.At(b).received;
    if received != [] {
      var m, rest := received[0], received[1..];
      assert received == [m] + rest;
      NewcomerTakes(w, b, m, rest);
      RejoinTail(m, Pipe(Next(w, Processed(b)), b));
      NewcomerClient(w.clients.At(b), m, rest);
      NewcomerLog(w, b, m, rest);
    }
  }

  lemma RejoinTail(m: Msg, rest: seq<Msg>)
    requires RejoinMsgs([m] + rest)
    ensures RejoinMsg(m) && RejoinMsgs(rest)
  {
    assert ([m] + rest)[0] == m;
    assert forall i :: 0 <= i < |rest| ==> rest[i] == ([m] + rest)[i + 1];
  }

  lemma QueuedUnits(c: Client, m: Msg)
    ensures ProcessReceived(c, m).unitQueue == c.unitQueue + if m.UnitUpdate? then [m.unit] else []
  {
    assert c.unitQueue + [] == c.unitQueue;
  }
}
