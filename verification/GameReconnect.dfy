/**
 Reconnection: a player leaves at any moment of play, and a fresh client takes
 the place. The survivor's snapshot brings the newcomer's team, turn and unit
 table into line, and normal play resumes exactly when nothing that matters was
 still pending when the snapshot was taken.
 */
module GameReconnect {
  import opened Wrappers
  import opened Wire
  import opened Messages
  import opened GameUnit
  import opened GameClient
  import opened GameWorld
  import opened GamePlay
  import opened GameNewcomer

  // ----- the survivor, from the loss of its opponent to its snapshot -----

  /** A client whose own state is in order, whatever its opponent is doing. */
  predicate Solo(c: Client, s: Side, t: seq<UnitData>) {
    ClientOk(c.(readyToSend := false), s, t) && (c.turn == Role(s) || Clean(c.units))
  }

  /** What follows the news of the loss: once a newcomer has joined, that it is ready. */
  function Tail(w: World, a: Side): seq<Msg> { if w.present.At(Other(a)) then [Ready] else [] }

  /** Messages of play, then the news that the other player has left, then `tail`. */
  predicate NewsIn(ms: seq<Msg>, tail: seq<Msg>, a: Side) {
    ms != [] && if ms[0] == DataSender then ms[1..] == tail else PlayMsg(ms[0], a) && NewsIn(ms[1..], tail, a)
  }

  predicate Unaware(w: World, a: Side) {
    var c, ms := w.clients.At(a), Inbound(w, a);
    NewsIn(ms, Tail(w, a), a) && !c.readyToSend && (c.userId == IdOf(a) || Init(IdOf(a)) in ms)
  }

  predicate Paused(c: Client, a: Side) { c.reconnecting && c.dataSender && c.userId == IdOf(a) }

  predicate Aware(w: World, a: Side) {
    var c := w.clients.At(a);
    Paused(c, a) && !c.readyToSend && Inbound(w, a) == Tail(w, a)
  }

  /** Ready to send: the next frame takes the snapshot. */
  predicate Prompted(w: World, a: Side) {
    var c := w.clients.At(a);
    Paused(c, a) && c.readyToSend && w.present.At(Other(a)) && Inbound(w, a) == []
  }

  /** Unit messages the survivor has still to apply. */
  function InLog(w: World, a: Side): seq<UnitMsg> { w.clients.At(a).unitQueue + UnitMsgs(Inbound(w, a)) }

  /** Unit messages of the survivor that a newcomer will find before the snapshot. */
  function OutLog(w: World, a: Side): seq<UnitMsg> {
    if w.present.At(Other(a)) then Log(w, Other(a)) else UnitMsgs(Outgoing(w, a))
  }

  /** Turn tokens left on the survivor's side. */
  function SoloTokens(w: World, a: Side): nat {
    Count(Holds(w, a)) + EndTurns(InLog(w, a)) + EndTurns(OutLog(w, a))
  }

  predicate Survivor(w: World, a: Side) {
    && GoodTable(w.table) && w.present.At(a) && w.up.At(Other(a)) == []
    && Solo(w.clients.At(a), a, w.table)
    && Sendables(Outgoing(w, a))
    && LogOk(InLog(w, a), w.table) && LogOk(OutLog(w, a), w.table)
    && SoloTokens(w, a) <= 1
  }

  predicate Signals(w: World, a: Side) { Unaware(w, a) || Aware(w, a) || Prompted(w, a) }

  predicate Opening(w: World, b: Side) { Newcomer(w, b) && Fate(w, b) == Opened(w.table, Log(w, b)) }

  /** From the loss of the other player until the survivor takes its snapshot. */
  predicate Waiting(w: World, a: Side) {
    && Survivor(w, a) && Signals(w, a)
    && if w.present.At(Other(a)) then Opening(w, Other(a)) else w.down.At(Other(a)) == []
  }

  // ----- leaving and joining -----

  /** A log is what has come in and what is still with the sender. */
  lemma LogSplit(w: World, s: Side)
    ensures Log(w, s) == InLog(w, s) + UnitMsgs(Outgoing(w, Other(s)))
  {
    assert Pipe(w, s) == Inbound(w, s) + Outgoing(w, Other(s));
    UnitMsgsConcat(Inbound(w, s), Outgoing(w, Other(s)));
  }

  lemma TokensSplit(w: World, a: Side)
    requires PlayInv(w)
    ensures Count(Holds(w, a)) + EndTurns(InLog(w, a)) + EndTurns(UnitMsgs(Outgoing(w, a))) <= 1
  {
    PlayHasOneToken(w);
    LogSplit(w, a);
    LogSplit(w, Other(a));
    EndTurnsConcat(InLog(w, a), UnitMsgs(Outgoing(w, Other(a))));
    EndTurnsConcat(InLog(w, Other(a)), UnitMsgs(Outgoing(w, a)));
  }

  lemma PlaySolo(w: World, a: Side)
    requires PlayInv(w)
    ensures Solo(w.clients.At(a), a, w.table)
  {
    var c := w.clients.At(a);
    assert c == c.(readyToSend := false);
  }

  lemma {:induction false} NewsAtEnd(ms: seq<Msg>, a: Side)
    requires PipeOk(ms, a)
    ensures NewsIn(ms + [DataSender], [], a)
  {
    if ms == [] {
      assert ms + [DataSender] == [DataSender];
      assert [DataSender][1..] == [];
    } else {
      assert (ms + [DataSender])[1..] == ms[1..] + [DataSender];
      NewsAtEnd(ms[1..], a);
    }
  }

  lemma LeftSignals(w: World, w': World, a: Side)
    requires PipeOk(Inbound(w, a), a) && Admitted(w, a) && !w.clients.At(a).readyToSend
    requires Inbound(w', a) == Inbound(w, a) + [DataSender] && !w'.present.At(Other(a))
    requires w'.clients.At(a) == w.clients.At(a)
    ensures Unaware(w', a)
  {
    NewsAtEnd(Inbound(w, a), a);
  }

  lemma LeftWorld(w: World, a: Side)
    requires w.present == Pair(true, true)
    ensures var w' := Next(w, Left(Other(a)));
            && w'.table == w.table && w'.present.At(a) && !w'.present.At(Other(a))
            && w'.clients == w.clients && w'.up.At(Other(a)) == [] && w'.down.At(Other(a)) == []
            && Inbound(w', a) == Inbound(w, a) + [DataSender] && Outgoing(w', a) == Outgoing(w, a)
  {
    var w' := Next(w, Left(Other(a)));
    assert Inbound(w', a) == Inbound(w, a) + [DataSender];
  }

  /** When a player leaves normal play the other starts to wait. */
  lemma LeftWaits(w: World, a: Side)
    requires FullPlay(w)
    ensures Waiting(Next(w, Left(Other(a))), a)
  {
    var w' := Next(w, Left(Other(a)));
    LeftWorld(w, a);
    PlaySolo(w, a);
    TokensSplit(w, a);
    LogSplit(w, a);
    LogSplit(w, Other(a));
    UnitMsgsConcat(Inbound(w, a), [DataSender]);
    assert UnitMsgs([DataSender]) == [];
    assert InLog(w', a) == InLog(w, a);
    QueueOk(InLog(w, a), UnitMsgs(Outgoing(w, Other(a))), w.table);
    QueueOk(InLog(w, Other(a)), UnitMsgs(Outgoing(w, a)), w.table);
    InboundOk(w, a);
    LeftSignals(w, w', a);
  }

  lemma InboundOk(w: World, a: Side)
    requires PipeOk(Pipe(w, a), a)
    ensures PipeOk(Inbound(w, a), a)
  {
    assert Pipe(w, a) == Inbound(w, a) + Outgoing(w, Other(a));
    forall i | 0 <= i < |Inbound(w, a)| ensures PlayMsg(Inbound(w, a)[i], a) {
      assert Pipe(w, a)[i] == Inbound(w, a)[i];
    }
  }

  lemma JoinedWorld(w: World, a: Side)
    requires w.present.At(a) && !w.present.At(Other(a)) && w.up.At(Other(a)) == [] && w.down.At(Other(a)) == []
    ensures var b := Other(a);
            var w' := Next(w, Joined(b));
            && w'.table == w.table && w'.present.At(a) && w'.present.At(b)
            && w'.clients.At(a) == w.clients.At(a) && w'.clients.At(b) == NewClient(w.table)
            && w'.up.At(b) == [] && Outgoing(w', a) == Outgoing(w, a)
            && Inbound(w', a) == Inbound(w, a) + [Ready]
            && Pipe(w', b) == [Reconnect(true)] + Outgoing(w, a)
  {
    var b := Other(a);
    var w' := Next(w, Joined(b));
    assert w'.down.At(b) == [Reconnect(true)] && w'.down.At(a) == w.down.At(a) + [Ready];
    assert Inbound(w', a) == Inbound(w, a) + [Ready];
  }

  lemma {:induction false} NewsThenReady(ms: seq<Msg>, a: Side)
    requires NewsIn(ms, [], a)
    ensures NewsIn(ms + [Ready], [Ready], a)
  {
    assert (ms + [Ready])[1..] == ms[1..] + [Ready];
    if ms[0] != DataSender {
      NewsThenReady(ms[1..], a);
    }
  }

  lemma JoinedSignals(w: World, w': World, a: Side)
    requires Signals(w, a) && !w.present.At(Other(a)) && w'.present.At(Other(a))
    requires w'.clients.At(a) == w.clients.At(a) && Inbound(w', a) == Inbound(w, a) + [Ready]
    ensures Signals(w', a)
  {
    if Unaware(w, a) {
      NewsThenReady(Inbound(w, a), a);
      assert Unaware(w', a);
    } else {
      assert Aware(w', a);
    }
  }

  lemma JoinedOpens(w': World, b: Side, out: seq<Msg>)
    requires w'.present.At(b) && w'.clients.At(b) == NewClient(w'.table) && w'.up.At(b) == [] && |w'.table| == UNIT_COUNT
    requires Sendables(out) && Pipe(w', b) == [Reconnect(true)] + out
    ensures Opening(w', b) && Log(w', b) == UnitMsgs(out)
  {
    var d := NewClient(w'.table);
    UnitMsgsConcat([Reconnect(true)], out);
    assert UnitMsgs([Reconnect(true)]) == [];
    AbsorbConcat(d, [Reconnect(true)], out);
    AbsorbOne(d, Reconnect(true));
    AbsorbSendables(ProcessReceived(d, Reconnect(true)), out);
    assert d.(received := []) == d;
  }

  /** A newcomer joins. */
  lemma JoinedWaits(w: World, a: Side)
    requires Waiting(w, a) && !w.present.At(Other(a))
    ensures Waiting(Next(w, Joined(Other(a))), a)
  {
    var w' := Next(w, Joined(Other(a)));
    JoinedWorld(w, a);
    JoinedSignals(w, w', a);
    JoinedOpens(w', Other(a), Outgoing(w, a));
    UnitMsgsConcat(Inbound(w, a), [Ready]);
    assert UnitMsgs([Ready]) == [];
    assert InLog(w', a) == InLog(w, a);
  }

  // ----- what the newcomer sees of each step -----

  /** The newcomer's lot is unchanged. */
  predicate SameLot(w: World, w': World, b: Side) {
    && Newcomer(w', b) && w'.table == w.table && Fate(w', b) == Fate(w, b) && Log(w', b) == Log(w, b)
  }

  lemma SameLotBy(w: World, w': World, b: Side)
    requires Newcomer(w, b) && w'.table == w.table && w'.present.At(b) && w'.up.At(b) == []
    requires Pipe(w', b) == Pipe(w, b)
    requires w'.clients.At(b).(received := []) == w.clients.At(b).(received := [])
    ensures SameLot(w, w', b)
  {
    var d, d' := w.clients.At(b).(received := []), w'.clients.At(b).(received := []);
    assert d.lobby == d'.lobby && d.reconnecting == d'.reconnecting && d.unitQueue == d'.unitQueue;
  }

  lemma SentLot(w: World, a: Side)
    requires Newcomer(w, Other(a)) && w.present.At(a)
    ensures SameLot(w, Next(w, Sent(a)), Other(a))
  {
    var w', b, sending := Next(w, Sent(a)), Other(a), w.clients.At(a).sending;
    if sending != [] {
      assert sending == [sending[0]] + sending[1..];
      SentPipes(w, a, sending[0], sending[1..]);
    }
    SameLotBy(w, w', b);
  }

  lemma RelayedLot(w: World, a: Side)
    requires Newcomer(w, Other(a)) && w.present.At(a)
    requires w.up.At(a) != [] ==> Forwarded(w.up.At(a)[0])
    ensures SameLot(w, Next(w, Relayed(a)), Other(a))
  {
    var w', b, up := Next(w, Relayed(a)), Other(a), w.up.At(a);
    if up != [] {
      assert up == [up[0]] + up[1..];
      assert w.present == Pair(true, true);
      RelayedPipes(w, a, up[0], up[1..]);
    }
    SameLotBy(w, w', b);
  }

  lemma DeliveredLot(w: World, a: Side)
    requires Newcomer(w, Other(a)) && w.present.At(a)
    ensures SameLot(w, Next(w, Delivered(a)), Other(a))
  {
    SameLotBy(w, Next(w, Delivered(a)), Other(a));
  }

  lemma ProcessedLot(w: World, a: Side)
    requires Newcomer(w, Other(a)) && w.present.At(a)
    ensures SameLot(w, Next(w, Processed(a)), Other(a))
  {
    var c := w.clients.At(a);
    if c.received != [] {
      ProcessedQueues(c.(received := c.received[1..]), c.received[0]);
    }
    SameLotBy(w, Next(w, Processed(a)), Other(a));
  }

  /** What the newcomer does itself before it has the whole snapshot. */
  lemma NewcomerStepLot(w: World, step: Step, b: Side)
    requires Newcomer(w, b) && InPlay(step) && step.side == b
    requires step.Framed? ==> !w.clients.At(b).updateComplete
    ensures SameLot(w, Next(w, step), b)
    ensures Next(w, step).clients.At(Other(b)) == w.clients.At(Other(b))
    ensures Inbound(Next(w, step), Other(b)) == Inbound(w, Other(b))
    ensures Outgoing(Next(w, step), Other(b)) == Outgoing(w, Other(b))
    ensures Next(w, step).present == w.present
  {
    var d, w' := w.clients.At(b), Next(w, step);
    BaseFields(d, w.table);
    match step
    case Clicked(_, click) =>
      NewcomerIdle(w, b, click);
    case Framed(_) =>
      NewcomerIdle(w, b, Click(0, 0, false, {}, {}, 0, 0));
    case Chatted(_, _, _) =>
    case Sent(_) =>
    case Relayed(_) =>
    case Delivered(_) =>
      if w.down.At(b) != [] {
        assert w.down.At(b) == [w.down.At(b)[0]] + w.down.At(b)[1..];
        assert Pipe(w', b) == Pipe(w, b);
        SameLotBy(w, w', b);
      }
    case Processed(_) =>
      NewcomerProcesses(w, b);
  }

  // ----- each step of the wait -----

  predicate SuffixOf(a: seq<UnitMsg>, b: seq<UnitMsg>) { |a| <= |b| && b[|b| - |a|..] == a }

  /** A hop on the survivor's side. */
  lemma HopSurvivor(w: World, w': World, a: Side)
    requires Survivor(w, a) && w'.table == w.table && w'.present.At(a) && w'.up.At(Other(a)) == []
    requires Solo(w'.clients.At(a), a, w.table) && Holds(w', a) == Holds(w, a)
    requires Sendables(Outgoing(w', a)) && InLog(w', a) == InLog(w, a) && SuffixOf(OutLog(w', a), OutLog(w, a))
    ensures Survivor(w', a)
  {
    var out, out' := OutLog(w, a), OutLog(w', a);
    var n := |out| - |out'|;
    assert out == out[..n] + out';
    EndTurnsConcat(out[..n], out');
    QueueOk(out[..n], out', w.table);
  }

  /** The other side is as it was. */
  predicate OtherSame(w: World, w': World, a: Side) {
    var b := Other(a);
    w'.table == w.table && w'.present == w.present
    && if w.present.At(b) then SameLot(w, w', b) else w'.down.At(b) == w.down.At(b)
  }

  lemma HopWaits(w: World, w': World, a: Side)
    requires Waiting(w, a) && Survivor(w', a) && Signals(w', a) && OtherSame(w, w', a)
    ensures Waiting(w', a)
  {
  }

  /** A hop that leaves the survivor's inbox and flags as they are. */
  lemma OutHopWaits(w: World, w': World, a: Side)
    requires Waiting(w, a) && OtherSame(w, w', a) && w'.up.At(Other(a)) == []
    requires Core(w'.clients.At(a)) == Core(w.clients.At(a)) && SameFlags(w.clients.At(a), w'.clients.At(a))
    requires w'.clients.At(a).unitQueue == w.clients.At(a).unitQueue
    requires Inbound(w', a) == Inbound(w, a)
    requires Sendables(Outgoing(w', a)) && SuffixOf(OutLog(w', a), OutLog(w, a))
    ensures Waiting(w', a)
  {
    SoloCore(w.clients.At(a), w'.clients.At(a), a, w.table);
    HopSurvivor(w, w', a);
    SignalsSame(w, w', a);
    HopWaits(w, w', a);
  }

  predicate SameFlags(c: Client, c': Client) {
    && c'.reconnecting == c.reconnecting && c'.dataSender == c.dataSender
    && c'.readyToSend == c.readyToSend && c'.userId == c.userId
  }

  lemma SoloCore(c: Client, c': Client, s: Side, t: seq<UnitData>)
    requires Solo(c, s, t) && Core(c') == Core(c) && c'.userId in {-1, IdOf(s)}
    ensures Solo(c', s, t) && c'.turn == c.turn
  {
    assert Core(c').units == Core(c).units && Core(c').turn == Core(c).turn;
    ClientCore(c.(readyToSend := false), c'.(readyToSend := false), s, t);
  }

  lemma SignalsSame(w: World, w': World, a: Side)
    requires Signals(w, a) && w'.present == w.present && Inbound(w', a) == Inbound(w, a)
    requires SameFlags(w.clients.At(a), w'.clients.At(a))
    ensures Signals(w', a)
  {
    if Unaware(w, a) {
      assert Unaware(w', a);
    } else if Aware(w, a) {
      assert Aware(w', a);
    } else {
      assert Prompted(w', a);
    }
  }

  lemma SentOut(w: World, a: Side)
    requires w.present.At(a)
    ensures var c, w' := w.clients.At(a), Next(w, Sent(a));
            && w'.clients.At(a) == c.(sending := w'.clients.At(a).sending) && w'.up.At(Other(a)) == w.up.At(Other(a))
            && Outgoing(w', a) == Outgoing(w, a) && Inbound(w', a) == Inbound(w, a)
            && w'.present == w.present && w'.table == w.table && w'.down == w.down
  {
    var sending := w.clients.At(a).sending;
    if sending != [] {
      assert sending == [sending[0]] + sending[1..];
    }
  }

  lemma SentWaits(w: World, a: Side)
    requires Waiting(w, a)
    ensures Waiting(Next(w, Sent(a)), a)
  {
    SentOut(w, a);
    if w.present.At(Other(a)) { SentLot(w, a); }
    OutHopWaits(w, Next(w, Sent(a)), a);
  }

  lemma RelayedOther(w: World, a: Side)
    requires Waiting(w, a)
    ensures OtherSame(w, Next(w, Relayed(a)), a)
  {
    var up := w.up.At(a);
    if up != [] {
      assert Outgoing(w, a)[0] == up[0];
    }
    if w.present.At(Other(a)) { RelayedLot(w, a); }
  }

  lemma RelayedOut(w: World, a: Side)
    requires Waiting(w, a) && w.up.At(a) != []
    ensures var w' := Next(w, Relayed(a));
            && w'.clients == w.clients && Inbound(w', a) == Inbound(w, a) && w'.up.At(Other(a)) == []
            && Outgoing(w', a) == Outgoing(w, a)[1..] && SuffixOf(OutLog(w', a), OutLog(w, a))
  {
    var w', up, out := Next(w, Relayed(a)), w.up.At(a), Outgoing(w, a);
    RelayedOther(w, a);
    assert out[0] == up[0];
    assert Outgoing(w', a) == out[1..];
    assert out == [out[0]] + out[1..];
    UnitMsgsConcat([out[0]], out[1..]);
  }

  lemma RelayedWaits(w: World, a: Side)
    requires Waiting(w, a)
    ensures Waiting(Next(w, Relayed(a)), a)
  {
    if w.up.At(a) != [] {
      RelayedOther(w, a);
      RelayedOut(w, a);
      OutHopWaits(w, Next(w, Relayed(a)), a);
    }
  }

  lemma DeliveredIn(w: World, a: Side)
    requires w.present.At(a)
    ensures var c, w' := w.clients.At(a), Next(w, Delivered(a));
            && w'.clients.At(a) == c.(received := w'.clients.At(a).received) && w'.up == w.up
            && Outgoing(w', a) == Outgoing(w, a) && Inbound(w', a) == Inbound(w, a)
            && w'.present == w.present && w'.table == w.table && w'.down.At(Other(a)) == w.down.At(Other(a))
  {
    var down := w.down.At(a);
    if down != [] {
      assert down == [down[0]] + down[1..];
    }
  }

  lemma DeliveredWaits(w: World, a: Side)
    requires Waiting(w, a)
    ensures Waiting(Next(w, Delivered(a)), a)
  {
    DeliveredIn(w, a);
    if w.present.At(Other(a)) { DeliveredLot(w, a); }
    OutHopWaits(w, Next(w, Delivered(a)), a);
  }

  /** What the survivor makes of the first message it processes. */
  lemma ProcessedCore(c: Client, m: Msg, s: Side)
    requires PlayMsg(m, s) || m == DataSender || m == Ready
    ensures var r := ProcessReceived(c, m);
            && Core(r).(readyToSend := false) == Core(c).(readyToSend := false)
            && (c.userId in {-1, IdOf(s)} ==> r.userId in {-1, IdOf(s)})
  {
    if m != DataSender && m != Ready {
      ProcessedClient(c, m, s);
    }
  }

  lemma ProcessedSolo(c: Client, m: Msg, s: Side, t: seq<UnitData>)
    requires Solo(c, s, t) && (PlayMsg(m, s) || m == DataSender || m == Ready)
    ensures Solo(ProcessReceived(c, m), s, t) && ProcessReceived(c, m).turn == c.turn
  {
    var r := ProcessReceived(c, m);
    ProcessedCore(c, m, s);
    assert Core(r).(readyToSend := false) == Core(r.(readyToSend := false));
    assert Core(c).(readyToSend := false) == Core(c.(readyToSend := false));
    SoloCore(c.(readyToSend := false), r.(readyToSend := false), s, t);
  }

  /** The world after the survivor processes its first received message. */
  lemma ProcessedWorld(w: World, a: Side, m: Msg, rest: seq<Msg>)
    requires w.present.At(a) && w.clients.At(a).received == [m] + rest
    ensures var w', c := Next(w, Processed(a)), w.clients.At(a).(received := rest);
            && w' == SetClient(w, a, ProcessReceived(c, m))
            && w'.clients.At(a).received == rest && Outgoing(w', a) == Outgoing(w, a)
  {
    var c := w.clients.At(a);
    HeadTail(m, rest);
    ProcessedQueues(c.(received := rest), m);
  }

  lemma ProcessedIn(w: World, a: Side, m: Msg, rest: seq<Msg>)
    requires w.present.At(a) && w.clients.At(a).received == [m] + rest
    ensures var w', c := Next(w, Processed(a)), w.clients.At(a).(received := rest);
            && w' == SetClient(w, a, ProcessReceived(c, m))
            && Inbound(w, a) == [m] + Inbound(w', a) && Outgoing(w', a) == Outgoing(w, a)
            && InLog(w', a) == InLog(w, a)
  {
    var c, w' := w.clients.At(a), Next(w, Processed(a));
    ProcessedWorld(w, a, m, rest);
    ConcatAssociates([m], rest, w.down.At(a));
    QueuedUnits(c.(received := rest), m);
    MoveUnit(c.unitQueue, m, Inbound(w', a));
  }

  lemma HeadTail(m: Msg, rest: seq<Msg>)
    ensures ([m] + rest)[0] == m && ([m] + rest)[1..] == rest
  {
  }

  lemma SignalsProgress(w: World, w': World, a: Side, m: Msg, c: Client)
    requires Signals(w, a) && Inbound(w, a) == [m] + Inbound(w', a) && w'.present == w.present
    requires c == w.clients.At(a).(received := c.received) && w'.clients.At(a) == ProcessReceived(c, m)
    ensures PlayMsg(m, a) || m == DataSender || m == Ready
    ensures Signals(w', a)
  {
    var rest := Inbound(w', a);
    HeadTail(m, rest);
    if Unaware(w, a) {
      if m == DataSender {
        assert Init(IdOf(a)) !in Tail(w, a);
        assert Aware(w', a);
      } else {
        ProcessedAdmitted(c, m, rest, a);
        ProcessedReady(c, m, a);
        assert Unaware(w', a);
      }
    } else if Aware(w, a) {
      assert Tail(w, a) == [Ready] == [m] + rest;
      assert m == Ready && rest == [];
      assert Prompted(w', a);
    }
  }

  lemma ProcessedReady(c: Client, m: Msg, s: Side)
    requires PlayMsg(m, s)
    ensures ProcessReceived(c, m).readyToSend == c.readyToSend
  {
  }

  lemma ProcessedSurvivor(w: World, a: Side, m: Msg, rest: seq<Msg>)
    requires Waiting(w, a) && w.clients.At(a).received == [m] + rest
    requires PlayMsg(m, a) || m == DataSender || m == Ready
    requires OtherSame(w, Next(w, Processed(a)), a)
    ensures Survivor(Next(w, Processed(a)), a)
  {
    var c, w' := w.clients.At(a), Next(w, Processed(a));
    ProcessedIn(w, a, m, rest);
    SoloReceived(c, rest, a, w.table);
    ProcessedSolo(c.(received := rest), m, a, w.table);
    ProcessedKeepsLogs(w, w', a);
    HopSurvivor(w, w', a);
  }

  lemma SoloReceived(c: Client, received: seq<Msg>, s: Side, t: seq<UnitData>)
    requires Solo(c, s, t)
    ensures Solo(c.(received := received), s, t)
  {
    SoloCore(c, c.(received := received), s, t);
  }

  lemma ProcessedKeepsLogs(w: World, w': World, a: Side)
    requires OtherSame(w, w', a) && Outgoing(w', a) == Outgoing(w, a)
    ensures SuffixOf(OutLog(w', a), OutLog(w, a))
  {
  }

  lemma ProcessedWaits(w: World, a: Side)
    requires Waiting(w, a)
    ensures Waiting(Next(w, Processed(a)), a)
  {
    var c, w' := w.clients.At(a), Next(w, Processed(a));
    if c.received != [] {
      var m, rest := c.received[0], c.received[1..];
      assert c.received == [m] + rest;
      ProcessedIn(w, a, m, rest);
      SignalsProgress(w, w', a, m, c.(received := rest));
      if w.present.At(Other(a)) { ProcessedLot(w, a); }
      ProcessedSurvivor(w, a, m, rest);
      HopWaits(w, w', a);
    }
  }

  /** The survivor queues more chat and unit messages. */
  lemma MoreLot(w: World, a: Side, c': Client, more: seq<Msg>)
    requires Opening(w, Other(a)) && Sendables(more)
    requires var c := w.clients.At(a);
             c'.sending == c.sending + more && c'.received == c.received && c'.unitQueue == c.unitQueue
    ensures var w' := SetClient(w, a, c');
            Opening(w', Other(a)) && Log(w', Other(a)) == Log(w, Other(a)) + UnitMsgs(more)
  {
    var w', b := SetClient(w, a, c'), Other(a);
    MoreToSend(w, a, c', more);
    var d := w.clients.At(b).(received := []);
    AbsorbConcat(d, Pipe(w, b), more);
    AbsorbSendables(Fate(w, b), more);
    assert w'.clients.At(b) == w.clients.At(b);
  }

  lemma MoreOut(w: World, a: Side, c': Client, more: seq<Msg>)
    requires Waiting(w, a) && Sendables(more)
    requires var c := w.clients.At(a);
             c'.sending == c.sending + more && c'.received == c.received && c'.unitQueue == c.unitQueue
    ensures var w' := SetClient(w, a, c');
            && OutLog(w', a) == OutLog(w, a) + UnitMsgs(more) && InLog(w', a) == InLog(w, a)
            && Inbound(w', a) == Inbound(w, a) && Sendables(Outgoing(w', a))
            && (w.present.At(Other(a)) ==> Opening(w', Other(a)))
  {
    var w' := SetClient(w, a, c');
    assert Outgoing(w', a) == Outgoing(w, a) + more;
    if w.present.At(Other(a)) {
      MoreLot(w, a, c', more);
    } else {
      UnitMsgsConcat(Outgoing(w, a), more);
    }
  }

  predicate Spends(c: Client, c': Client, more: seq<Msg>, a: Side, t: seq<UnitData>) {
    && Sendables(more) && LogOk(UnitMsgs(more), t)
    && c'.sending == c.sending + more && c'.received == c.received && c'.unitQueue == c.unitQueue && SameFlags(c, c')
    && Solo(c', a, t)
    && Count(c'.turn == Role(a)) + EndTurns(UnitMsgs(more)) <= Count(c.turn == Role(a))
  }

  lemma MoreWaits(w: World, a: Side, c': Client, more: seq<Msg>)
    requires Waiting(w, a) && Spends(w.clients.At(a), c', more, a, w.table)
    ensures Waiting(SetClient(w, a, c'), a)
  {
    var w' := SetClient(w, a, c');
    MoreOut(w, a, c', more);
    EndTurnsConcat(OutLog(w, a), UnitMsgs(more));
    SignalsSame(w, w', a);
  }

  lemma ClickSpends(c: Client, a: Side, t: seq<UnitData>, click: Click) returns (more: seq<Msg>)
    requires GoodTable(t) && Solo(c, a, t) && (c.readyToSend ==> c.reconnecting)
    ensures Spends(c, HandleClick(c, click), more, a, t)
  {
    more := [];
    assert c.sending + [] == c.sending;
    if !c.lobby && !c.reconnecting {
      assert c == c.(readyToSend := false);
      if c.turn != c.team {
        IdleClick(c, a, t, click);
      } else if !click.onNextTurn {
        ActingClick(c, a, t, click);
      } else {
        more := ShippedMsgs(c);
        NextTurnClick(c, a, t, click);
        EndTurnSpends(c, a, t);
      }
    }
  }

  lemma EndTurnSpends(c: Client, a: Side, t: seq<UnitData>)
    requires GoodTable(t) && ClientOk(c, a, t) && c.turn == c.team
    ensures Spends(c, EndTurn(c), ShippedMsgs(c), a, t)
  {
    EndTurnShips(c);
    EndTurnClient(c, a, t);
    var ms := Shipped(c);
    ShippedOk(c, t);
    EndTurnsNone(ms[..|ms| - 1]);
    assert Clean(EndTurn(c).units);
  }

  lemma ShippedOk(c: Client, t: seq<UnitData>)
    requires GoodTable(t) && Sized(c) && SameUnits(c.units, t)
    ensures var ms := Shipped(c);
            LogOk(ms, t) && ms != [] && ms[|ms| - 1] == END_TURN && NoEndTurn(ms[..|ms| - 1])
  {
    ProtocolNames();
    DirtyOk(c.units, UNIT_COUNT, t);
    var extra := if Won(ShipUnits(c)) then [EndGame(c.team)] else [];
    assert Shipped(c)[..|Shipped(c)| - 1] == Dirty(c.units, UNIT_COUNT) + extra;
  }

  lemma ClickWaits(w: World, a: Side, click: Click)
    requires Waiting(w, a)
    ensures Waiting(Next(w, Clicked(a, click)), a)
  {
    var c := w.clients.At(a);
    var more := ClickSpends(c, a, w.table, click);
    MoreWaits(w, a, HandleClick(c, click), more);
  }

  lemma ChatWaits(w: World, a: Side, username: string, text: string)
    requires Waiting(w, a)
    ensures Waiting(Next(w, Chatted(a, username, text)), a)
  {
    var c := w.clients.At(a);
    if !c.lobby && !c.reconnecting {
      var chat := Chat(username, text);
      assert UnitMsgs([chat]) == [] by { assert [chat][1..] == []; }
      var c' := c.(sending := c.sending + [chat]);
      assert c'.(readyToSend := false).units == c.units;
      SoloCore(c.(readyToSend := false), c'.(readyToSend := false), a, w.table);
      MoreWaits(w, a, c', [chat]);
    }
  }

  /** What a frame of the survivor changes. */
  predicate Drained(c: Client, r: Client, a: Side, t: seq<UnitData>) {
    && Solo(r, a, t) && r.sending == c.sending && r.received == c.received && SameFlags(c, r)
    && (r.unitQueue == c.unitQueue || r.unitQueue == [])
    && Count(r.turn == Role(a)) + EndTurns(r.unitQueue) <= Count(c.turn == Role(a)) + EndTurns(c.unitQueue)
  }

  lemma AppliedClean(c: Client, t: seq<UnitData>)
    requires GoodTable(t) && SameUnits(c.units, t) && LogOk(c.unitQueue, t) && Clean(c.units)
    ensures Clean(UnitNetworkUpdate(c).units)
  {
    ApplyAllEffect(c, c.unitQueue, t);
  }

  lemma SoloDrain(c: Client, a: Side, t: seq<UnitData>)
    requires GoodTable(t) && ClientOk(c, a, t) && LogOk(c.unitQueue, t) && c.turn != Role(a) && c.team == Role(a) && Clean(c.units)
    ensures Drained(c, UnitNetworkUpdate(c), a, t)
  {
    var r := UnitNetworkUpdate(c);
    DrainClient(c, a, t);
    AppliedClean(c, t);
    ApplyAllEffect(c, c.unitQueue, t);
    assert r.(readyToSend := false) == r;
  }

  lemma SoloSweep(c: Client, a: Side, t: seq<UnitData>)
    requires Solo(c, a, t) && !c.readyToSend
    ensures var c0 := AssignTeam(c); Drained(c, c0, a, t) && Drained(c, c0.(units := SweepAll(c0.units)), a, t)
  {
    var c0 := AssignTeam(c);
    var c1 := c0.(units := SweepAll(c0.units));
    assert c.(readyToSend := false) == c && c0.(readyToSend := false) == c0 && c1.(readyToSend := false) == c1;
    QuietClient(c, c0, a, t);
    QuietClient(c, c1, a, t);
    SweptClean(c.units, c1.units);
  }

  /** A frame before the snapshot. */
  lemma SoloFrame(c: Client, a: Side, t: seq<UnitData>)
    requires GoodTable(t) && Solo(c, a, t) && !c.readyToSend && LogOk(c.unitQueue, t)
    ensures Drained(c, Frame(c), a, t)
  {
    var c0 := AssignTeam(c);
    var c1 := c0.(units := SweepAll(c0.units));
    assert c == c.(readyToSend := false);
    FrameIsPlayFrame(c, a, t);
    SoloSweep(c, a, t);
    if PlayFrame(c) != c0 && PlayFrame(c) != c1 {
      assert c1 == c1.(readyToSend := false);
      SoloDrain(c1, a, t);
    }
  }

  lemma FrameSurvivor(w: World, a: Side, c': Client)
    requires Survivor(w, a) && Drained(w.clients.At(a), c', a, w.table)
    requires OutLog(SetClient(w, a, c'), a) == OutLog(w, a)
    ensures Survivor(SetClient(w, a, c'), a)
  {
    var w', c := SetClient(w, a, c'), w.clients.At(a);
    assert Inbound(w', a) == Inbound(w, a) && Outgoing(w', a) == Outgoing(w, a);
    QueueOk(c.unitQueue, UnitMsgs(Inbound(w, a)), w.table);
    EndTurnsConcat(c.unitQueue, UnitMsgs(Inbound(w, a)));
    EndTurnsConcat(c'.unitQueue, UnitMsgs(Inbound(w, a)));
  }

  lemma FrameInWaits(w: World, a: Side, c': Client)
    requires Waiting(w, a) && Drained(w.clients.At(a), c', a, w.table)
    ensures Waiting(SetClient(w, a, c'), a)
  {
    var w' := SetClient(w, a, c');
    SignalsSame(w, w', a);
    if w.present.At(Other(a)) { SameLotBy(w, w', Other(a)); }
    assert Outgoing(w', a) == Outgoing(w, a);
    FrameSurvivor(w, a, c');
    HopWaits(w, w', a);
  }

  lemma FrameWaits(w: World, a: Side)
    requires Waiting(w, a) && !Prompted(w, a)
    ensures Waiting(Next(w, Framed(a)), a)
  {
    var c := w.clients.At(a);
    QueueOk(c.unitQueue, UnitMsgs(Inbound(w, a)), w.table);
    SoloFrame(c, a, w.table);
    FrameInWaits(w, a, Frame(c));
  }

  /** Before the snapshot the newcomer has not been told that it is complete. */
  lemma {:induction false} AbsorbComplete(c: Client, ms: seq<Msg>)
    requires RejoinMsgs(ms)
    ensures Absorb(c, ms).updateComplete == (c.updateComplete || UpdateComplete in ms)
    decreases |ms|
  {
    if ms != [] {
      AbsorbComplete(ProcessReceived(c, ms[0]), ms[1..]);
      assert ms == [ms[0]] + ms[1..];
    }
  }

  lemma OtherStepWaits(w: World, step: Step, a: Side)
    requires Waiting(w, a) && InPlay(step) && step.side == Other(a)
    ensures Waiting(Next(w, step), a)
  {
    var w', b := Next(w, step), Other(a);
    if w.present.At(b) {
      AbsorbComplete(w.clients.At(b).(received := []), Pipe(w, b));
      NewcomerStepLot(w, step, b);
      OutSame(w, w', a);
    }
  }

  lemma OutSame(w: World, w': World, a: Side)
    requires Waiting(w, a) && w.present.At(Other(a)) && SameLot(w, w', Other(a)) && w'.present == w.present
    requires w'.clients.At(a) == w.clients.At(a) && Inbound(w', a) == Inbound(w, a) && Outgoing(w', a) == Outgoing(w, a)
    ensures Waiting(w', a)
  {
    SignalsSame(w, w', a);
  }

  /** Every step of the wait but the snapshot keeps waiting. */
  lemma StepWaits(w: World, step: Step, a: Side)
    requires Waiting(w, a) && InPlay(step) && !(step == Framed(a) && Prompted(w, a))
    ensures Waiting(Next(w, step), a)
  {
    if step.side == Other(a) {
      OtherStepWaits(w, step, a);
    } else {
      match step
      case Clicked(_, click) => ClickWaits(w, a, click);
      case Framed(_) => FrameWaits(w, a);
      case Chatted(_, username, text) => ChatWaits(w, a, username, text);
      case Sent(_) => SentWaits(w, a);
      case Relayed(_) => RelayedWaits(w, a);
      case Delivered(_) => DeliveredWaits(w, a);
      case Processed(_) => ProcessedWaits(w, a);
    }
  }
}
