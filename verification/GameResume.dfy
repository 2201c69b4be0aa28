/**
 The rest of a reconnection: the snapshot on its way, the newcomer taking over,
 and what the two clients agree on once the server has relayed the resumption.
 */
module GameResume {
  import opened Wrappers
  import opened Wire
  import opened Messages
  import opened GameUnit
  import opened GameClient
  import opened GameWorld
  import opened GamePlay
  import opened GameNewcomer
  import opened GameReconnect
  import O = GameOutcome
  import T = GameTurns
  import V = GameVerdict

  // ----- the snapshot under way -----

  /** The survivor after its snapshot: it does nothing, with `p` still to apply. */
  predicate Frozen(w: World, a: Side, p: seq<UnitMsg>) {
    var c := w.clients.At(a);
    && Solo(c, a, w.table) && Paused(c, a) && !c.readyToSend && c.team == Role(a)
    && c.unitQueue == p && Inbound(w, a) == []
  }

  /** The end mark of the snapshot has arrived, or is the last message under way. */
  predicate Closing(complete: bool, ms: seq<Msg>) {
    if complete then ms == []
    else ms != [] && ms[|ms| - 1] == UpdateComplete && UpdateComplete !in ms[..|ms| - 1]
  }

  predicate AllForwarded(ms: seq<Msg>) { forall i :: 0 <= i < |ms| ==> Forwarded(ms[i]) }

  /** At most one token: the survivor's turn, an end of turn it has to apply, or one it sent before the snapshot. */
  predicate AtMostOne(turn: Team, a: Side, p: seq<UnitMsg>, q: seq<UnitMsg>) {
    Count(turn == Role(a)) + EndTurns(p) + EndTurns(q) <= 1
  }

  predicate BothThere(w: World) { GoodTable(w.table) && w.present == Pair(true, true) }

  predicate Streaming(w: World, a: Side, p: seq<UnitMsg>, q: seq<UnitMsg>) {
    var c, d := w.clients.At(a), w.clients.At(Other(a));
    && BothThere(w) && Frozen(w, a, p) && LogOk(p, w.table) && LogOk(q, w.table) && AtMostOne(c.turn, a, p, q)
    && AllForwarded(Outgoing(w, a))
    && Newcomer(w, Other(a)) && Fate(w, Other(a)) == Informed(w.table, q, c)
    && Closing(d.updateComplete, Pipe(w, Other(a)))
  }

  lemma SnapshotShape(c: Client)
    ensures var ms := SnapshotMsgs(c);
            AllForwarded(ms) && RejoinMsgs(ms) && Closing(false, ms)
  {
  }

  lemma ClosingAfter(before: seq<Msg>, ms: seq<Msg>)
    requires UpdateComplete !in before && Closing(false, ms)
    ensures Closing(false, before + ms)
  {
    assert (before + ms)[..|before + ms| - 1] == before + ms[..|ms| - 1];
  }

  lemma SnapshotSends(c: Client, a: Side)
    requires Paused(c, a) && c.readyToSend
    ensures var c0, r := AssignTeam(c), Frame(c);
            r == c0.(sending := c.sending + SnapshotMsgs(c0), readyToSend := false) && SnapshotMsgs(c0) == SnapshotMsgs(r)
  {
  }

  /** The survivor's frame that takes the snapshot. */
  lemma SnapshotFrame(w: World, a: Side)
    requires Waiting(w, a) && Prompted(w, a)
    ensures var c, r := w.clients.At(a), Frame(w.clients.At(a));
            var ms := SnapshotMsgs(AssignTeam(c));
            && r == AssignTeam(c).(sending := c.sending + ms, readyToSend := false)
            && ms == SnapshotMsgs(r) && r.team == Role(a) && Solo(r, a, w.table)
  {
    var c := w.clients.At(a);
    var r := Frame(c);
    SnapshotSends(c, a);
    QuietClient(c.(readyToSend := false), AssignTeam(c.(readyToSend := false)), a, w.table);
    SoloCore(AssignTeam(c).(readyToSend := false), r, a, w.table);
  }

  lemma SnapshotFate(w: World, a: Side, r: Client, ms: seq<Msg>)
    requires Waiting(w, a) && w.present.At(Other(a))
    requires ms == SnapshotMsgs(r) && r.sending == w.clients.At(a).sending + ms
    requires r.received == w.clients.At(a).received && r.unitQueue == w.clients.At(a).unitQueue
    ensures var w', b := SetClient(w, a, r), Other(a);
            && Newcomer(w', b) && Fate(w', b) == Informed(w.table, Log(w, b), r)
            && Closing(w'.clients.At(b).updateComplete, Pipe(w', b))
  {
    var w', b := SetClient(w, a, r), Other(a);
    var d := w.clients.At(b).(received := []);
    MoreToSend(w, a, r, ms);
    SnapshotShape(r);
    AbsorbConcat(d, Pipe(w, b), ms);
    AbsorbSnapshot(w.table, Log(w, b), r);
    AbsorbComplete(d, Pipe(w, b));
    ClosingAfter(Pipe(w, b), ms);
    assert w'.clients.At(b) == w.clients.At(b);
  }

  lemma AllForwardedConcat(x: seq<Msg>, y: seq<Msg>)
    requires Sendables(x) && AllForwarded(y)
    ensures AllForwarded(x + y)
  {
  }

  /** The survivor's side after the snapshot. */
  lemma SnapshotFreezes(w: World, a: Side, r: Client, ms: seq<Msg>)
    requires Waiting(w, a) && Prompted(w, a) && AllForwarded(ms)
    requires r == AssignTeam(w.clients.At(a)).(sending := w.clients.At(a).sending + ms, readyToSend := false)
    requires r.team == Role(a) && Solo(r, a, w.table)
    ensures var w' := SetClient(w, a, r);
            BothThere(w') && Frozen(w', a, w.clients.At(a).unitQueue) && AllForwarded(Outgoing(w', a))
  {
    var w' := SetClient(w, a, r);
    assert Outgoing(w', a) == Outgoing(w, a) + ms;
    AllForwardedConcat(Outgoing(w, a), ms);
    assert w'.present == Pair(true, true);
  }

  lemma SnapshotTokens(w: World, a: Side)
    requires Waiting(w, a) && Prompted(w, a)
    ensures var p, q := w.clients.At(a).unitQueue, Log(w, Other(a));
            Log(w, a) == p && LogOk(p, w.table) && LogOk(q, w.table) && AtMostOne(w.clients.At(a).turn, a, p, q)
  {
    NothingFromNewcomer(w, a);
  }

  lemma SnapshotStreams(w: World, a: Side)
    requires Waiting(w, a) && Prompted(w, a)
    ensures Streaming(Next(w, Framed(a)), a, Log(w, a), Log(w, Other(a)))
    ensures Log(w, a) == w.clients.At(a).unitQueue
  {
    var c, r := w.clients.At(a), Frame(w.clients.At(a));
    SnapshotFrame(w, a);
    var ms := SnapshotMsgs(r);
    SnapshotShape(r);
    SnapshotFate(w, a, r, ms);
    SnapshotFreezes(w, a, r, ms);
    SnapshotTokens(w, a);
    FrameSets(w, a);
  }

  lemma FrameSets(w: World, a: Side)
    requires w.present.At(a)
    ensures Next(w, Framed(a)) == SetClient(w, a, Frame(w.clients.At(a)))
  {
  }

  lemma NothingFromNewcomer(w: World, a: Side)
    requires Newcomer(w, Other(a)) && Inbound(w, a) == []
    ensures Log(w, a) == w.clients.At(a).unitQueue && Log(w, a) == InLog(w, a)
  {
    BaseFields(w.clients.At(Other(a)), w.table);
    assert Pipe(w, a) == [];
  }

  // ----- steps while the snapshot is under way -----

  /** A frozen survivor's clicks, frames and chat do nothing. */
  lemma FrozenIdle(w: World, step: Step, a: Side, p: seq<UnitMsg>)
    requires Frozen(w, a, p) && w.present.At(a) && InPlay(step) && step.side == a
    requires !step.Sent? && !step.Relayed?
    ensures Next(w, step) == w
  {
    match step
    case Clicked(_, _) =>
    case Framed(_) =>
    case Chatted(_, _, _) =>
    case Delivered(_) =>
    case Processed(_) =>
  }

  lemma FrozenSame(w: World, w': World, a: Side, p: seq<UnitMsg>)
    requires Frozen(w, a, p) && w'.table == w.table && Inbound(w', a) == Inbound(w, a)
    requires Core(w'.clients.At(a)) == Core(w.clients.At(a)) && SameFlags(w.clients.At(a), w'.clients.At(a))
    requires w'.clients.At(a).unitQueue == w.clients.At(a).unitQueue
    ensures Frozen(w', a, p)
    ensures Informed(w.table, [], w'.clients.At(a)) == Informed(w.table, [], w.clients.At(a))
  {
    var c, c' := w.clients.At(a), w'.clients.At(a);
    SoloCore(c, c', a, w.table);
    assert Core(c).team == Core(c').team && Core(c).turn == Core(c').turn && Core(c).units == Core(c').units;
  }

  lemma InformedSame(t: seq<UnitData>, q: seq<UnitMsg>, c: Client, c': Client)
    requires Core(c) == Core(c')
    ensures Informed(t, q, c) == Informed(t, q, c') && c.turn == c'.turn
  {
    assert Core(c).team == Core(c').team && Core(c).turn == Core(c').turn && Core(c).units == Core(c').units;
  }

  lemma SurvivorSendsStreaming(w: World, step: Step, a: Side, p: seq<UnitMsg>, q: seq<UnitMsg>)
    requires Streaming(w, a, p, q) && (step == Sent(a) || step == Relayed(a))
    ensures Streaming(Next(w, step), a, p, q)
  {
    var w' := Next(w, step);
    if step == Sent(a) {
      SentOut(w, a);
      SentLot(w, a);
      SentBoth(w, a);
    } else if w.up.At(a) != [] {
      assert Outgoing(w, a)[0] == w.up.At(a)[0];
      RelayedLot(w, a);
      RelayedForwards(w, a);
    }
    FrozenSame(w, w', a, p);
    InformedSame(w.table, q, w.clients.At(a), w'.clients.At(a));
  }

  lemma SentBoth(w: World, a: Side)
    requires w.present.At(a)
    ensures Pipe(Next(w, Sent(a)), Other(a)) == Pipe(w, Other(a))
    ensures Next(w, Sent(a)).clients.At(Other(a)) == w.clients.At(Other(a))
  {
    var sending := w.clients.At(a).sending;
    if sending != [] {
      assert sending == [sending[0]] + sending[1..];
      SentPipes(w, a, sending[0], sending[1..]);
    }
  }

  lemma RelayedForwards(w: World, a: Side)
    requires w.present == Pair(true, true) && w.up.At(a) != [] && AllForwarded(Outgoing(w, a))
    ensures var w' := Next(w, Relayed(a));
            && w'.clients == w.clients && w'.table == w.table && w'.present == w.present
            && Inbound(w', a) == Inbound(w, a) && w'.up.At(Other(a)) == w.up.At(Other(a))
            && AllForwarded(Outgoing(w', a)) && Pipe(w', Other(a)) == Pipe(w, Other(a))
  {
    var w', up := Next(w, Relayed(a)), w.up.At(a);
    assert Outgoing(w, a)[0] == up[0];
    assert up == [up[0]] + up[1..];
    assert Outgoing(w', a) == Outgoing(w, a)[1..];
    RelayedPipes(w, a, up[0], up[1..]);
  }

  lemma ClosingProgress(c: Client, m: Msg, rest: seq<Msg>)
    requires Closing(c.updateComplete, [m] + rest)
    ensures Closing(ProcessReceived(c, m).updateComplete, rest)
  {
    var ms := [m] + rest;
    if rest == [] {
      assert ms[|ms| - 1] == m;
    } else {
      assert ms[..|ms| - 1] == [m] + rest[..|rest| - 1];
      assert m in ms[..|ms| - 1];
    }
  }

  lemma NewcomerCloses(w: World, step: Step, b: Side)
    requires Newcomer(w, b) && InPlay(step) && step.side == b && Closing(w.clients.At(b).updateComplete, Pipe(w, b))
    requires step.Framed? ==> !w.clients.At(b).updateComplete
    ensures var w' := Next(w, step); Closing(w'.clients.At(b).updateComplete, Pipe(w', b))
  {
    var d, w' := w.clients.At(b), Next(w, step);
    BaseFields(d, w.table);
    match step
    case Clicked(_, click) =>
      NewcomerIdle(w, b, click);
    case Framed(_) =>
      NewcomerIdle(w, b, Click(0, 0, false, {}, {}, 0, 0));
    case Chatted(_, _, _) =>
    case Sent(_) =>
    case Relayed(_) =>
    case Delivered(_) =>
      if w.down.At(b) != [] {
        assert w.down.At(b) == [w.down.At(b)[0]] + w.down.At(b)[1..];
        assert Pipe(w', b) == Pipe(w, b);
      }
    case Processed(_) =>
      if d.received != [] {
        var m, rest := d.received[0], d.received[1..];
        assert d.received == [m] + rest;
        NewcomerTakes(w, b, m, rest);
        ClosingProgress(d.(received := rest), m, Pipe(w', b));
      }
  }

  lemma NewcomerStreaming(w: World, step: Step, a: Side, p: seq<UnitMsg>, q: seq<UnitMsg>)
    requires Streaming(w, a, p, q) && InPlay(step) && step.side == Other(a)
    requires step.Framed? ==> !w.clients.At(Other(a)).updateComplete
    ensures Streaming(Next(w, step), a, p, q)
  {
    NewcomerStepLot(w, step, Other(a));
    NewcomerCloses(w, step, Other(a));
  }

  lemma StepStreams(w: World, step: Step, a: Side, p: seq<UnitMsg>, q: seq<UnitMsg>)
    requires Streaming(w, a, p, q) && InPlay(step)
    requires step == Framed(Other(a)) ==> !w.clients.At(Other(a)).updateComplete
    ensures Streaming(Next(w, step), a, p, q)
  {
    if step.side == Other(a) {
      NewcomerStreaming(w, step, a, p, q);
    } else if step.Sent? || step.Relayed? {
      SurvivorSendsStreaming(w, step, a, p, q);
    } else {
      FrozenIdle(w, step, a, p);
    }
  }

  // ----- the newcomer takes over -----

  /** A newcomer that has taken over the survivor's view of the game. */
  predicate Inducted(d: Client, c: Client, b: Side, q: seq<UnitMsg>, t: seq<UnitData>) {
    && ClientOk(d, b, t) && Clean(d.units) && d.team == Role(b) && d.userId == IdOf(b)
    && d.reconnecting && !d.dataSender && d.unitQueue == []
    && d.turn == Flip(c.turn, EndTurns(q)) && SameView(d.units, c.units)
    && Told(d, q)
  }

  /** The client knows of the end of the game what these messages say, and no more. */
  predicate Told(d: Client, q: seq<UnitMsg>) {
    d.finished == O.LastVerdict(q).Some? && d.winner == O.LastVerdict(q).GetOr(NoTeam)
  }

  /** The newcomer has taken over; its request to resume is under way to the server. */
  predicate TookOver(w: World, a: Side, p: seq<UnitMsg>, q: seq<UnitMsg>) {
    var c, d := w.clients.At(a), w.clients.At(Other(a));
    && BothThere(w) && Frozen(w, a, p) && LogOk(p, w.table) && AtMostOne(c.turn, a, p, q)
    && Inducted(d, c, Other(a), q, w.table)
    && Pipe(w, Other(a)) == [] && Outgoing(w, Other(a)) == [Resume]
  }

  lemma {:induction false} LastForSnapshot(units: seq<UnitData>, t: seq<UnitData>, n: nat, k: nat)
    requires GoodTable(t) && SameUnits(units, t) && n <= |units| && k < |t|
    ensures LastFor(t[k].refName, UnitsOf(units)[..n]) == if k < n then Some(MsgFor(units[k])) else None
  {
    if n > 0 {
      LastForSnapshot(units, t, n - 1, k);
      assert UnitsOf(units)[..n][..n - 1] == UnitsOf(units)[..n - 1];
      assert k < n - 1 ==> t[k].refName != t[n - 1].refName;
      assert n - 1 < k ==> t[n - 1].refName != t[k].refName;
    }
  }

  lemma SnapshotOk(units: seq<UnitData>, t: seq<UnitData>)
    requires GoodTable(t) && SameUnits(units, t)
    ensures LogOk(UnitsOf(units), t) && EndTurns(UnitsOf(units)) == 0
  {
    var ms := UnitsOf(units);
    forall i | 0 <= i < |ms| ensures MsgOk(ms[i], t) && ms[i].name != "endturn" {
      assert units[i].refName == t[i].refName && units[i].health >= 1;
    }
    EndTurnsNone(ms);
  }

  /** Whatever came before it, the snapshot decides every unit. */
  lemma SnapshotDecides(u: UnitData, units: seq<UnitData>, q: seq<UnitMsg>, t: seq<UnitData>, k: nat)
    requires GoodTable(t) && SameUnits(units, t) && k < |t| && u.refName == t[k].refName
    ensures var m := MsgFor(units[k]);
            Pending(u, q + UnitsOf(units)) == u.(x := m.x, y := m.y, squad := m.squad, health := m.hp)
  {
    var ms := UnitsOf(units);
    LastForSnapshot(units, t, |units|, k);
    assert ms[..|units|] == ms;
    LastForConcat(u.refName, q, ms);
  }

  /** Turn and team as the snapshot gives them. */
  function Seated(t: seq<UnitData>, q: seq<UnitMsg>, c: Client, b: Side): Client {
    Informed(t, q, c).(turn := c.turn, team := Role(b), userId := IdOf(b))
  }

  lemma TakeOverSeats(t: seq<UnitData>, q: seq<UnitMsg>, c: Client, a: Side)
    requires c.turn != NoTeam && c.team == Role(a)
    ensures var d := Informed(t, q, c);
            var r := UnitNetworkUpdate(Seated(t, q, c, Other(a)));
            && Frame(d) == TakeOver(d)
            && TakeOver(d) == r.(units := SweepAll(r.units), sending := r.sending + [Resume], updateComplete := false)
  {
  }

  lemma LogOkConcat(a: seq<UnitMsg>, b: seq<UnitMsg>, t: seq<UnitData>)
    requires LogOk(a, t) && LogOk(b, t)
    ensures LogOk(a + b, t)
  {
    forall i | 0 <= i < |a + b| ensures MsgOk((a + b)[i], t) {
      assert (a + b)[i] == if i < |a| then a[i] else b[i - |a|];
    }
  }

  /** Units brought up to date by messages that end with a snapshot. */
  lemma TakenView(r: seq<UnitData>, t: seq<UnitData>, units: seq<UnitData>, q: seq<UnitMsg>)
    requires GoodTable(t) && SameUnits(units, t)
    requires |r| == |t| && forall k :: 0 <= k < |t| ==> r[k] == Pending(t[k], q + UnitsOf(units))
    ensures Clean(r) && SameView(r, units)
  {
    forall k | 0 <= k < |t| ensures !r[k].changed && UnitView(r[k]) == UnitView(units[k]) {
      SnapshotDecides(t[k], units, q, t, k);
    }
  }

  lemma TableIsItself(t: seq<UnitData>)
    requires GoodTable(t)
    ensures SameUnits(t, t)
  {
  }

  /** The snapshot itself says nothing of the end of a game. */
  lemma SnapshotVerdict(d: Client, units: seq<UnitData>, q: seq<UnitMsg>, t: seq<UnitData>)
    requires GoodTable(t) && SameUnits(units, t)
    ensures var r := ApplyAll(d, q + UnitsOf(units));
            r.finished == (d.finished || O.LastVerdict(q).Some?) && r.winner == O.LastVerdict(q).GetOr(d.winner)
  {
    var ms := UnitsOf(units);
    forall i | 0 <= i < |ms| ensures ms[i].name != "endgame" {
      assert units[i].refName == t[i].refName;
    }
    V.NoVerdict(ms);
    V.VerdictConcat(q, ms);
    O.ApplyAllVerdict(d, q + ms);
  }

  lemma TakenQueue(d: Client, t: seq<UnitData>, units: seq<UnitData>, q: seq<UnitMsg>)
    requires GoodTable(t) && SameUnits(units, t) && LogOk(q, t)
    requires d.units == t && d.unitQueue == q + UnitsOf(units)
    ensures var r := UnitNetworkUpdate(d);
            && r == d.(units := r.units, turn := r.turn, winner := r.winner, finished := r.finished, unitQueue := [])
            && SameUnits(r.units, t) && Clean(r.units) && SameView(r.units, units)
            && r.turn == Flip(d.turn, EndTurns(q))
            && (!d.finished && d.winner == NoTeam ==> Told(r, q))
  {
    SnapshotVerdict(d, units, q, t);
    TableIsItself(t);
    SnapshotOk(units, t);
    EndTurnsConcat(q, UnitsOf(units));
    LogOkConcat(q, UnitsOf(units), t);
    ApplyAllEffect(d, q + UnitsOf(units), t);
    TakenView(UnitNetworkUpdate(d).units, t, units, q);
  }

  lemma TakenUnits(t: seq<UnitData>, q: seq<UnitMsg>, c: Client, b: Side)
    requires GoodTable(t) && SameUnits(c.units, t) && LogOk(q, t)
    ensures var r := UnitNetworkUpdate(Seated(t, q, c, b));
            && r == Seated(t, q, c, b).(units := r.units, turn := r.turn, winner := r.winner, finished := r.finished, unitQueue := [])
            && SameUnits(r.units, t) && Clean(r.units) && SameView(r.units, c.units)
            && r.turn == Flip(c.turn, EndTurns(q)) && Told(r, q)
  {
    TakenQueue(Seated(t, q, c, b), t, c.units, q);
  }

  lemma SweptView(units: seq<UnitData>, other: seq<UnitData>)
    requires SameView(units, other)
    ensures SameView(SweepAll(units), other)
  {
    forall k | 0 <= k < |units| ensures UnitView(SweepAll(units)[k]) == UnitView(other[k]) {
      SweepView(units[k], []);
      assert UnitView(units[k]) == UnitView(other[k]);
    }
  }

  lemma TakeOverJoins(t: seq<UnitData>, q: seq<UnitMsg>, c: Client, a: Side)
    requires GoodTable(t) && Solo(c, a, t) && c.team == Role(a) && LogOk(q, t)
    ensures var d := Informed(t, q, c);
            && Inducted(Frame(d), c, Other(a), q, t)
            && Frame(d).sending == [Resume] && Frame(d).received == []
  {
    var b := Other(a);
    var r := UnitNetworkUpdate(Seated(t, q, c, b));
    TakeOverSeats(t, q, c, a);
    TakenUnits(t, q, c, b);
    SweepKeepsKind(r.units, t);
    SweptClean(r.units, SweepAll(r.units));
    SweptView(r.units, c.units);
    FlipTeam(c.turn, EndTurns(q));
    assert r.sending == [];
    assert [] + [Resume] == [Resume];
  }

  lemma StreamsTakeOver(w: World, a: Side, p: seq<UnitMsg>, q: seq<UnitMsg>)
    requires Streaming(w, a, p, q) && w.clients.At(Other(a)).updateComplete
    ensures TookOver(Next(w, Framed(Other(a))), a, p, q)
  {
    var b := Other(a);
    var c, d, w' := w.clients.At(a), w.clients.At(b), Next(w, Framed(b));
    assert Pipe(w, b) == [];
    assert d == d.(received := []) == Informed(w.table, q, c);
    TakeOverJoins(w.table, q, c, a);
    FrozenSame(w, w', a, p);
  }

  /** Until the server relays the resumption nothing else happens. */
  lemma StepTookOver(w: World, step: Step, a: Side, p: seq<UnitMsg>, q: seq<UnitMsg>)
    requires TookOver(w, a, p, q) && InPlay(step) && !RelaysResume(w, step, Other(a))
    ensures TookOver(Next(w, step), a, p, q)
  {
    var b := Other(a);
    if step.side == a {
      assert w.clients.At(a).sending == [] && w.up.At(a) == [];
      if !step.Sent? && !step.Relayed? {
        FrozenIdle(w, step, a, p);
      }
    } else {
      JoinedStep(w, step, a, p, q);
    }
  }

  predicate RelaysResume(w: World, step: Step, b: Side) {
    step == Relayed(b) && w.up.At(b) != [] && w.up.At(b)[0] == Resume
  }

  lemma ResumeAlone(x: seq<Msg>, y: seq<Msg>)
    requires x + y == [Resume]
    ensures (x == [Resume] && y == []) || (x == [] && y == [Resume])
  {
    if x != [] {
      assert (x + y)[0] == x[0];
      assert |x| == 1;
    }
  }

  lemma JoinedStep(w: World, step: Step, a: Side, p: seq<UnitMsg>, q: seq<UnitMsg>)
    requires TookOver(w, a, p, q) && InPlay(step) && step.side == Other(a) && !RelaysResume(w, step, Other(a))
    ensures TookOver(Next(w, step), a, p, q)
  {
    var b := Other(a);
    var d, w' := w.clients.At(b), Next(w, step);
    ResumeAlone(w.up.At(b), d.sending);
    match step
    case Clicked(_, _) => assert w' == w;
    case Framed(_) => assert w' == w;
    case Chatted(_, _, _) => assert w' == w;
    case Sent(_) =>
      if d.sending != [] {
        JoinedSends(w, a, p, q);
      }
    case Relayed(_) =>
    case Delivered(_) => assert w' == w;
    case Processed(_) => assert w' == w;
  }

  lemma JoinedSends(w: World, a: Side, p: seq<UnitMsg>, q: seq<UnitMsg>)
    requires TookOver(w, a, p, q) && w.clients.At(Other(a)).sending == [Resume] && w.up.At(Other(a)) == []
    ensures TookOver(Next(w, Sent(Other(a))), a, p, q)
  {
    var b := Other(a);
    var d, w' := w.clients.At(b), Next(w, Sent(b));
    assert [Resume][1..] == [];
    assert w'.clients.At(b) == d.(sending := []) && w'.up.At(b) == [Resume];
    assert Inbound(w', a) == Inbound(w, a);
  }

  // ----- resumed -----

  /** The state the resumption leaves, with `p` still to be applied by the survivor. */
  lemma ResumedWorld(w: World, a: Side, p: seq<UnitMsg>, q: seq<UnitMsg>)
    requires TookOver(w, a, p, q) && RelaysResume(w, Relayed(Other(a)), Other(a))
    ensures var b := Other(a);
            var w' := Next(w, Relayed(b));
            && w'.clients == w.clients && w'.table == w.table && w'.present == w.present
            && Pipe(w', a) == [Reconnect(false)] && Pipe(w', b) == [Reconnect(false)]
            && Outgoing(w', a) == [] && Outgoing(w', b) == [] && w'.down.At(a) == [Reconnect(false)]
            && Log(w', a) == p && Log(w', b) == []
  {
    var b := Other(a);
    ResumeAlone(w.up.At(b), w.clients.At(b).sending);
    assert w.up.At(b)[1..] == [];
    assert UnitMsgs([Reconnect(false)]) == [] by { assert [Reconnect(false)][1..] == []; }
  }

  /** The survivor has handled the resumption and drawn a frame. */
  function FirstFrame(w: World, a: Side): World {
    Next(Next(Next(w, Step.Delivered(a)), Processed(a)), Framed(a))
  }

  /** Two tables show the same of a unit, but for where the messages change what the survivor showed. */
  predicate Diverges(c: seq<UnitData>, c': seq<UnitData>, d: seq<UnitData>, p: seq<UnitMsg>) {
    && |c| == |c'| == |d|
    && forall k :: 0 <= k < |c| ==>
        && UnitView(c'[k]) == UnitView(Pending(c[k], p))
        && (UnitView(c'[k]) == UnitView(d[k]) <==> UnitView(Pending(c[k], p)) == UnitView(c[k]))
  }

  /** What a survivor with messages left to apply does to its table in its first frame, out of turn. */
  predicate StaleApplied(w: World, a: Side, p: seq<UnitMsg>) {
    var c, w' := w.clients.At(a), FirstFrame(w, a);
    p != [] && c.turn != Role(a) && !c.finished && !c.lobby ==>
      && w'.clients.At(Other(a)) == w.clients.At(Other(a)) && w'.clients.At(a).unitQueue == []
      && Diverges(c.units, w'.clients.At(a).units, w.clients.At(Other(a)).units, p)
  }

  lemma FirstFrameClient(w: World, a: Side)
    requires w.present.At(a) && w.down.At(a) == [Reconnect(false)] && w.clients.At(a).received == []
    ensures FirstFrame(w, a).clients == w.clients.With(a, Frame(w.clients.At(a).(reconnecting := false, dataSender := false)))
  {
    var c, m := w.clients.At(a), Reconnect(false);
    assert [m] == [m] + [] && c.received + [m] == [m];
    SameWith(w, a);
    T.TakesDelivery(w, a, c, m, []);
    T.Processes(w, a, c, m, [], []);
    assert c.(received := []) == c;
    T.Frames(w, a, ProcessReceived(c, m), []);
  }

  lemma SameWith(w: World, s: Side)
    ensures w == T.With(w, s, w.clients.At(s), w.down.At(s))
  {
  }

  lemma StaleFrame(c: Client, a: Side, t: seq<UnitData>, d: seq<UnitData>)
    requires GoodTable(t) && ClientOk(c, a, t) && LogOk(c.unitQueue, t) && c.unitQueue != []
    requires c.team == Role(a) && c.turn != Role(a) && !c.lobby && !c.reconnecting && !c.finished
    requires SameView(c.units, d)
    ensures var r := Frame(c); r.unitQueue == [] && Diverges(c.units, r.units, d, c.unitQueue)
  {
    O.DrainingClient(c, a, t);
    O.DrainedClient(c, a, t);
    var r := Frame(c);
    forall k | 0 <= k < |c.units|
      ensures UnitView(r.units[k]) == UnitView(Pending(c.units[k], c.unitQueue)) && UnitView(c.units[k]) == UnitView(d[k])
    {
      assert r.units[k] == Pending(Sweep(c.units[k]), c.unitQueue);
      SweepView(c.units[k], c.unitQueue);
    }
  }

  lemma ResumedStale(w: World, a: Side, p: seq<UnitMsg>)
    requires BothThere(w) && Solo(w.clients.At(a), a, w.table) && w.clients.At(a).team == Role(a) && !w.clients.At(a).readyToSend
    requires w.clients.At(a).unitQueue == p && LogOk(p, w.table) && Pipe(w, a) == [Reconnect(false)]
    requires w.down.At(a) == [Reconnect(false)] && SameView(w.clients.At(a).units, w.clients.At(Other(a)).units)
    ensures StaleApplied(w, a, p)
  {
    var c := w.clients.At(a);
    assert c == c.(readyToSend := false);
    OnlyDown(c.received, w.down.At(a), w.up.At(Other(a)) + w.clients.At(Other(a)).sending, Reconnect(false)) by {
      ConcatAssociates(c.received + w.down.At(a), w.up.At(Other(a)), w.clients.At(Other(a)).sending);
    }
    FirstFrameClient(w, a);
    if p != [] && c.turn != Role(a) && !c.finished && !c.lobby {
      StaleFrame(c.(reconnecting := false, dataSender := false), a, w.table, w.clients.At(Other(a)).units);
    }
  }

  lemma OnlyDown(x: seq<Msg>, y: seq<Msg>, z: seq<Msg>, m: Msg)
    requires x + y + z == [m] && y == [m]
    ensures x == []
  {
    assert |x + y + z| == |x| + |y| + |z|;
  }

  /**
   Both clients play opposite teams and show the same table; the turn and tokens
   come out as stated; of the end of the game the newcomer knows what was on its
   way to it at the snapshot, and no more; and what the survivor had left to
   apply sets the tables apart.
   */
  predicate Resumed(w: World, a: Side, p: seq<UnitMsg>, q: seq<UnitMsg>) {
    var c, d := w.clients.At(a), w.clients.At(Other(a));
    && c.team == Role(a) && d.team == Role(Other(a))
    && SameView(c.units, d.units)
    && (c.turn == d.turn <==> EndTurns(q) == 0)
    && (Tokens(w) == 1 <==> EndTurns(p) == 0 && EndTurns(q) == 0)
    && (EndTurns(p) == 1 ==> Tokens(w) == 2) && (EndTurns(q) == 1 ==> Tokens(w) == 0)
    && (FullPlay(w) <==> p == [] && EndTurns(q) == 0)
    && Told(d, q) && StaleApplied(w, a, p)
  }

  lemma ResumedTokens(w: World, a: Side, p: seq<UnitMsg>, q: seq<UnitMsg>)
    requires var c, d := w.clients.At(a), w.clients.At(Other(a));
             c.turn != NoTeam && d.turn == Flip(c.turn, EndTurns(q)) && AtMostOne(c.turn, a, p, q)
    requires Log(w, a) == p && Log(w, Other(a)) == []
    ensures w.clients.At(a).turn == w.clients.At(Other(a)).turn <==> EndTurns(q) == 0
    ensures Tokens(w) == 1 <==> EndTurns(p) == 0 && EndTurns(q) == 0
    ensures EndTurns(p) == 1 ==> Tokens(w) == 2
    ensures EndTurns(q) == 1 ==> Tokens(w) == 0
  {
    var t := w.clients.At(a).turn;
    assert Flip(t, 0) == t;
    assert Flip(t, 1) == Opponent(Flip(t, 0));
    assert EndTurns([]) == 0;
  }

  lemma ViewAgrees(c: seq<UnitData>, d: seq<UnitData>)
    requires SameView(d, c)
    ensures Agree(c, d, []) && Agree(d, c, []) && SameView(c, d)
  {
    forall k | 0 <= k < |c|
      ensures UnitView(c[k]) == UnitView(Pending(d[k], [])) && UnitView(d[k]) == UnitView(Pending(c[k], []))
      ensures UnitView(c[k]) == UnitView(d[k])
    {
      assert UnitView(d[k]) == UnitView(c[k]);
      assert Pending(d[k], []) == d[k] && Pending(c[k], []) == c[k];
    }
  }

  lemma ResumedPhase(w: World, a: Side, q: seq<UnitMsg>)
    requires BothThere(w) && Frozen(w.(down := Pair([], [])), a, [])
    requires Inducted(w.clients.At(Other(a)), w.clients.At(a), Other(a), q, w.table) && EndTurns(q) == 0
    requires Log(w, a) == [] && Log(w, Other(a)) == []
    ensures Phase(w)
  {
    var c, d := w.clients.At(a), w.clients.At(Other(a));
    ViewAgrees(c.units, d.units);
    assert d.turn == Flip(c.turn, 0) == c.turn;
    if c.turn == Role(a) {
      assert Held(w, a);
    } else {
      assert Held(w, Other(a));
    }
  }

  lemma ResumedFull(w: World, a: Side, q: seq<UnitMsg>)
    requires BothThere(w) && Frozen(w.(down := Pair([], [])), a, [])
    requires Inducted(w.clients.At(Other(a)), w.clients.At(a), Other(a), q, w.table) && EndTurns(q) == 0
    requires Log(w, a) == [] && Log(w, Other(a)) == []
    requires Pipe(w, a) == [Reconnect(false)] && Pipe(w, Other(a)) == [Reconnect(false)]
    requires Outgoing(w, a) == [] && Outgoing(w, Other(a)) == []
    ensures FullPlay(w)
  {
    ResumedPhase(w, a, q);
    var c := w.clients.At(a);
    assert c == c.(readyToSend := false);
    assert Outgoing(w, One) == [] && Outgoing(w, Two) == [];
    assert Pipe(w, One) == [Reconnect(false)] && Pipe(w, Two) == [Reconnect(false)];
  }

  lemma FullHasNothingPending(w: World, a: Side)
    requires PlayInv(w) && w.clients.At(a).turn == w.clients.At(Other(a)).turn
    ensures Log(w, a) == []
  {
    assert w.clients.At(a).turn == Role(a) || w.clients.At(Other(a)).turn == Role(Other(a));
    if Holds(w, a) {
      TurnHolder(w, a);
    } else {
      TurnHolder(w, Other(a));
    }
  }

  lemma TurnHolder(w: World, s: Side)
    requires PlayInv(w) && Holds(w, s)
    ensures Log(w, One) == [] && Log(w, Two) == []
  {
  }

  lemma ResumeGives(w: World, a: Side, p: seq<UnitMsg>, q: seq<UnitMsg>)
    requires TookOver(w, a, p, q) && RelaysResume(w, Relayed(Other(a)), Other(a))
    ensures Resumed(Next(w, Relayed(Other(a))), a, p, q)
  {
    var b := Other(a);
    var w' := Next(w, Relayed(b));
    ResumedWorld(w, a, p, q);
    ResumedTokens(w', a, p, q);
    ViewAgrees(w.clients.At(a).units, w.clients.At(b).units);
    ResumedStale(w', a, p);
    if p == [] && EndTurns(q) == 0 {
      FrozenAside(w, w', a);
      ResumedFull(w', a, q);
    }
    if FullPlay(w') {
      PlayHasOneToken(w');
      FullHasNothingPending(w', a);
    }
  }

  lemma FrozenAside(w: World, w': World, a: Side)
    requires Frozen(w, a, []) && w'.clients == w.clients && w'.table == w.table
    ensures Frozen(w'.(down := Pair([], [])), a, [])
  {
  }

  // ----- whole reconnections -----

  /** How far a reconnection has got; `p` and `q` are what was pending, in and out, at the snapshot. */
  datatype Stage = Waits | Streams(p: seq<UnitMsg>, q: seq<UnitMsg>) | Taken(p: seq<UnitMsg>, q: seq<UnitMsg>)

  predicate Rejoining(w: World, a: Side, stage: Stage) {
    match stage
    case Waits => Waiting(w, a) && w.present.At(Other(a))
    case Streams(p, q) => Streaming(w, a, p, q)
    case Taken(p, q) => TookOver(w, a, p, q)
  }

  /** The survivor takes its snapshot. */
  predicate TakesSnapshot(w: World, step: Step, a: Side) {
    var c := w.clients.At(a);
    step == Framed(a) && c.reconnecting && c.dataSender && c.readyToSend
  }

  lemma SnapshotIsPrompted(w: World, a: Side)
    requires Waiting(w, a)
    ensures TakesSnapshot(w, Framed(a), a) <==> Prompted(w, a)
  {
  }

  lemma StepRejoins(w: World, step: Step, a: Side, stage: Stage) returns (stage': Stage)
    requires Rejoining(w, a, stage) && InPlay(step) && !RelaysResume(w, step, Other(a))
    ensures Rejoining(Next(w, step), a, stage')
    ensures stage' == (if stage.Waits? then if TakesSnapshot(w, step, a) then Streams(Log(w, a), Log(w, Other(a))) else Waits
                       else if stage.Streams? && stage'.Streams? then stage else Taken(stage.p, stage.q))
  {
    match stage
    case Waits =>
      SnapshotIsPrompted(w, a);
      if step == Framed(a) && Prompted(w, a) {
        SnapshotStreams(w, a);
        stage' := Streams(Log(w, a), Log(w, Other(a)));
      } else {
        StepWaits(w, step, a);
        StepKeepsPresent(w, step);
        stage' := Waits;
      }
    case Streams(p, q) =>
      if step == Framed(Other(a)) && w.clients.At(Other(a)).updateComplete {
        StreamsTakeOver(w, a, p, q);
        stage' := Taken(p, q);
      } else {
        StepStreams(w, step, a, p, q);
        stage' := stage;
      }
    case Taken(p, q) =>
      StepTookOver(w, step, a, p, q);
      stage' := stage;
  }

  lemma StepKeepsPresent(w: World, step: Step)
    requires InPlay(step)
    ensures Next(w, step).present == w.present
  {
  }

  predicate NoSnapshot(w: World, steps: seq<Step>, a: Side)
    decreases |steps|
  {
    steps == [] || (!TakesSnapshot(w, steps[0], a) && NoSnapshot(Next(w, steps[0]), steps[1..], a))
  }

  predicate NoResume(w: World, steps: seq<Step>, b: Side)
    decreases |steps|
  {
    steps == [] || (!RelaysResume(w, steps[0], b) && NoResume(Next(w, steps[0]), steps[1..], b))
  }

  lemma {:induction false} RunRejoins(w: World, steps: seq<Step>, a: Side, stage: Stage) returns (stage': Stage)
    requires Rejoining(w, a, stage) && AllInPlay(steps) && NoResume(w, steps, Other(a))
    ensures Rejoining(Run(w, steps), a, stage')
    ensures !stage.Waits? ==> !stage'.Waits? && stage'.p == stage.p && stage'.q == stage.q
    ensures stage.Waits? && NoSnapshot(w, steps, a) ==> stage' == Waits
    decreases |steps|
  {
    stage' := stage;
    if steps != [] {
      var stage1 := StepRejoins(w, steps[0], a, stage);
      stage' := RunRejoins(Next(w, steps[0]), steps[1..], a, stage1);
    }
  }

  lemma {:induction false} RunWaits(w: World, steps: seq<Step>, a: Side)
    requires Waiting(w, a) && !w.present.At(Other(a)) && AllInPlay(steps)
    ensures Waiting(Run(w, steps), a) && !Run(w, steps).present.At(Other(a))
    decreases |steps|
  {
    if steps != [] {
      StepWaits(w, steps[0], a);
      StepKeepsPresent(w, steps[0]);
      RunWaits(Next(w, steps[0]), steps[1..], a);
    }
  }

  /** The world once a player has left, `mid` has happened, and a newcomer has joined. */
  function Replaced(w: World, b: Side, mid: seq<Step>): World {
    Next(Run(Next(w, Left(b)), mid), Joined(b))
  }

  lemma ReplacedRejoins(w: World, b: Side, mid: seq<Step>)
    requires FullPlay(w) && AllInPlay(mid)
    ensures Rejoining(Replaced(w, b, mid), Other(b), Waits)
  {
    var a := Other(b);
    LeftWaits(w, a);
    LeftWorld(w, a);
    RunWaits(Next(w, Left(b)), mid, a);
    JoinedWaits(Run(Next(w, Left(b)), mid), a);
    JoinedWorld(Run(Next(w, Left(b)), mid), a);
  }

  /** Until the server has relayed the resumption, no click of the newcomer does anything. */
  lemma NewcomerCannotAct(w: World, b: Side, mid: seq<Step>, steps: seq<Step>, click: Click)
    requires FullPlay(w) && AllInPlay(mid) && AllInPlay(steps) && NoResume(Replaced(w, b, mid), steps, b)
    ensures var w' := Run(Replaced(w, b, mid), steps); Next(w', Clicked(b, click)) == w'
  {
    ReplacedRejoins(w, b, mid);
    var stage := RunRejoins(Replaced(w, b, mid), steps, Other(b), Waits);
    RejoiningIdle(Run(Replaced(w, b, mid), steps), Other(b), stage, click);
  }

  lemma RejoiningIdle(w: World, a: Side, stage: Stage, click: Click)
    requires Rejoining(w, a, stage)
    ensures Next(w, Clicked(Other(a), click)) == w
  {
    if stage.Taken? {
      assert w.clients.At(Other(a)).reconnecting;
    } else {
      NewcomerIdle(w, Other(a), click);
    }
  }

  /**
   Reconnection, whole: a player leaves normal play at any point, a newcomer
   joins, the survivor takes its snapshot in some later state, and the server
   relays the newcomer's request to resume. Then the two play opposite teams on
   the same table; there is exactly one turn token if and only if no end of turn
   was still pending at the snapshot in either direction; and normal play
   resumes in full if and only if, besides, the survivor had no unit message
   left to apply.
   */
  lemma ReconnectRestores(w: World, b: Side, mid: seq<Step>, wait: seq<Step>, rest: seq<Step>)
    requires FullPlay(w) && AllInPlay(mid) && AllInPlay(wait) && AllInPlay(rest)
    requires var w1 := Replaced(w, b, mid);
             && NoSnapshot(w1, wait, Other(b)) && NoResume(w1, wait, b)
             && TakesSnapshot(Run(w1, wait), Framed(Other(b)), Other(b))
    requires var w2 := Next(Run(Replaced(w, b, mid), wait), Framed(Other(b)));
             NoResume(w2, rest, b) && RelaysResume(Run(w2, rest), Relayed(b), b)
    ensures var a := Other(b);
            var snapshot := Run(Replaced(w, b, mid), wait);
            var w3 := Next(Run(Next(snapshot, Framed(a)), rest), Relayed(b));
            Resumed(w3, a, Log(snapshot, a), Log(snapshot, b))
  {
    var a := Other(b);
    var w1 := Replaced(w, b, mid);
    var snapshot := Run(w1, wait);
    ReplacedRejoins(w, b, mid);
    var stage := RunRejoins(w1, wait, a, Waits);
    var stage1 := StepRejoins(snapshot, Framed(a), a, Waits);
    var w2 := Next(snapshot, Framed(a));
    var stage2 := RunRejoins(w2, rest, a, stage1);
    ResumeNeedsTaken(Run(w2, rest), a, stage2);
    ResumeGives(Run(w2, rest), a, stage2.p, stage2.q);
  }

  lemma ResumeNeedsTaken(w: World, a: Side, stage: Stage)
    requires Rejoining(w, a, stage) && RelaysResume(w, Relayed(Other(a)), Other(a))
    ensures stage.Taken?
  {
  }

  /** When the survivor has nothing left to apply and has sent no end of turn, everything proved of normal play holds again, for any further play. */
  lemma PlayAfterReconnect(w: World, a: Side, p: seq<UnitMsg>, q: seq<UnitMsg>, steps: seq<Step>)
    requires Resumed(w, a, p, q) && p == [] && EndTurns(q) == 0 && AllInPlay(steps)
    ensures FullPlay(Run(w, steps)) && Tokens(Run(w, steps)) == 1
  {
    RunKeepsFull(w, steps);
    PlayHasOneToken(Run(w, steps));
  }

  /** The states in which a reconnection may start include every state of a game so far. */
  lemma ReachableFull(t: seq<UnitData>, steps: seq<Step>)
    requires GoodTable(t) && AllInPlay(steps)
    ensures FullPlay(Run(Initial(t), steps))
  {
    InitialFull(t);
    RunKeepsFull(Initial(t), steps);
  }
}
