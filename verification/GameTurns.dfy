/**
 Whole turns of normal play, put together from steps: getting every message
 across, a series of clicks, passing the turn, and the opening of a game.
 */
module GameTurns {
  import opened Wrappers
  import opened Messages
  import opened GameUnit
  import opened GameClient
  import opened GameWorld
  import opened GamePlay
  import opened GameHops
  import opened GameOutcome
  import opened GameVerdict

  // ----- getting every message across -----

  predicate InSeat(c: Client, s: Side) { !c.lobby && !c.reconnecting && c.team == Role(s) }

  /** Both clients are in play and know their team. */
  predicate Seated(w: World) { InSeat(w.clients.one, One) && InSeat(w.clients.two, Two) }

  lemma ProcessedSeated(c: Client, m: Msg, s: Side, p: Side)
    requires PlayMsg(m, s) && InSeat(c, p)
    ensures InSeat(ProcessReceived(c, m), p)
  {
    match m
    case Init(_) =>
    case Reconnect(_) =>
    case UnitUpdate(_) =>
    case _ =>
  }

  lemma HopSeated(w: World, step: Step)
    requires w.present == Pair(true, true) && Seated(w) && Hop(step) && !step.Chatted?
    requires step.Processed? && w.clients.At(step.side).received != [] ==> PlayMsg(w.clients.At(step.side).received[0], step.side)
    ensures Seated(Next(w, step))
  {
    var c := w.clients.At(step.side);
    match step
    case Processed(s) =>
      if c.received != [] {
        ProcessedSeated(c.(received := c.received[1..]), c.received[0], s, s);
      }
    case Sent(_) =>
    case Relayed(s) => RelayedSeats(w, s);
    case Delivered(_) =>
  }

  lemma RelayedSeats(w: World, s: Side)
    requires w.present.At(s)
    ensures Next(w, Relayed(s)).clients == w.clients
  {
  }

  /** Only messages have moved. */
  predicate OnlyMoved(w: World, w': World) {
    && w'.table == w.table
    && Core(w'.clients.one) == Core(w.clients.one) && Core(w'.clients.two) == Core(w.clients.two)
    && Log(w', One) == Log(w, One) && Log(w', Two) == Log(w, Two)
  }

  lemma OneHop(w: World, s: Side)
    requires PlayInv(w) && Seated(w) && Distance(w, s) > 0
    ensures var w' := Next(w, HopToward(w, s));
            PlayInv(w') && Seated(w') && OnlyMoved(w, w') && Distance(w', s) < Distance(w, s)
  {
    var step := HopToward(w, s);
    HopKeepsPlay(w, step);
    HopKeepsTraffic(w, step);
    if w.clients.At(s).received != [] {
      assert Pipe(w, s)[0] == w.clients.At(s).received[0];
    }
    HopSeated(w, step);
    HopCloser(w, s);
  }

  lemma NothingLeft(w: World, s: Side)
    requires Distance(w, s) == 0
    ensures w.clients.At(s).unitQueue == Log(w, s)
  {
    assert Pipe(w, s) == [];
  }

  /** Everything sent to a side is in its queue, and nothing else has happened. */
  predicate Flushed(w: World, w': World, s: Side) {
    PlayInv(w') && Seated(w') && OnlyMoved(w, w') && w'.clients.At(s).unitQueue == Log(w, s)
  }

  lemma FlushedAfter(w: World, w1: World, w2: World, s: Side)
    requires OnlyMoved(w, w1) && Flushed(w1, w2, s)
    ensures Flushed(w, w2, s)
  {
  }

  predicate AllHops(steps: seq<Step>) { forall i :: 0 <= i < |steps| ==> Hop(steps[i]) }

  lemma HopsCons(step: Step, rest: seq<Step>)
    requires Hop(step) && AllHops(rest)
    ensures AllHops([step] + rest)
  {
  }

  lemma HopsInPlay(steps: seq<Step>)
    requires AllHops(steps)
    ensures AllInPlay(steps)
  {
  }

  /** From any state of play, hops alone bring everything sent to a side into its queue. */
  lemma {:induction false} Flush(w: World, s: Side, n: nat) returns (steps: seq<Step>)
    requires PlayInv(w) && Seated(w) && n == Distance(w, s)
    ensures AllHops(steps) && Flushed(w, Run(w, steps), s)
    decreases n
  {
    if n == 0 {
      NothingLeft(w, s);
      steps := [];
    } else {
      var step := HopToward(w, s);
      var w1 := Next(w, step);
      OneHop(w, s);
      var rest := Flush(w1, s, Distance(w1, s));
      steps := [step] + rest;
      RunFirst(w, step, rest);
      HopsCons(step, rest);
      FlushedAfter(w, w1, Run(w1, rest), s);
    }
  }

  // ----- a turn -----

  predicate HasTurn(w: World, h: Side) {
    PlayInv(w) && Seated(w) && Held(w, h) && !w.clients.one.finished && !w.clients.two.finished
  }

  lemma ClickTurn(w: World, h: Side, click: Click)
    requires HasTurn(w, h) && !click.onNextTurn
    ensures var w' := Next(w, Clicked(h, click)); HasTurn(w', h) && w' == SetClient(w, h, HandleClick(w.clients.At(h), click))
  {
    ActingStep(w, h, click);
    ClickKeepsPlay(w, h, click);
  }

  lemma SetTwice(w: World, h: Side, c: Client, d: Client)
    ensures SetClient(SetClient(w, h, c), h, d) == SetClient(w, h, d)
    ensures SetClient(w, h, w.clients.At(h)) == w
  {
  }

  lemma HeldSized(w: World, h: Side)
    requires PlayInv(w)
    ensures Sized(w.clients.At(h))
  {
  }

  /** A unit at the idle side after it has swept and applied what the holder shipped. */
  function Caught(d: UnitData, c: UnitData): UnitData {
    var u := Sweep(d);
    if c.changed then u.(x := c.x, y := c.y, squad := c.squad, health := c.health) else u
  }

  function Settled(c: UnitData): UnitData { c.(actionPoints := c.maxActionPoints, changed := false) }

  /** The tables after a turn is passed. */
  predicate Passed(c: seq<UnitData>, d: seq<UnitData>, c': seq<UnitData>, d': seq<UnitData>) {
    && |c| == |d| == |c'| == |d'| == UNIT_COUNT
    && forall k :: 0 <= k < UNIT_COUNT ==> c'[k] == Settled(c[k]) && d'[k] == Caught(d[k], c[k])
  }

  lemma ShippedLast(c: Client, t: seq<UnitData>, k: int)
    requires GoodTable(t) && Sized(c) && SameUnits(c.units, t) && 0 <= k < UNIT_COUNT
    ensures LastFor(t[k].refName, Shipped(c)) == if c.units[k].changed then Some(MsgFor(c.units[k])) else None
  {
    var name := t[k].refName;
    var dirty := Dirty(c.units, UNIT_COUNT);
    var extra := if Won(ShipUnits(c)) then [EndGame(c.team)] else [];
    DirtyLast(c.units, UNIT_COUNT, t, k);
    LastForConcat(name, dirty + extra, [END_TURN]);
    LastForConcat(name, dirty, extra);
    LastForOne(name, END_TURN);
    LastForOne(name, EndGame(c.team));
    assert LastFor(name, []) == None;
  }

  lemma CaughtIsPending(c: Client, d: UnitData, t: seq<UnitData>, k: int)
    requires GoodTable(t) && Sized(c) && SameUnits(c.units, t) && 0 <= k < UNIT_COUNT && d.refName == t[k].refName
    ensures Pending(Sweep(d), Shipped(c)) == Caught(d, c.units[k])
  {
    ShippedLast(c, t, k);
  }

  lemma EndTurnSettles(c: Client)
    requires Sized(c)
    ensures forall k :: 0 <= k < UNIT_COUNT ==> EndTurn(c).units[k] == Settled(c.units[k])
  {
    assert EndTurn(c).units == CleanAll(ResetAll(c.units));
  }

  lemma EndTurnSeat(c: Client, s: Side)
    requires Sized(c) && InSeat(c, s)
    ensures InSeat(EndTurn(c), s)
  {
  }

  /** The press itself. */
  lemma Press(w: World, h: Side, press: Click)
    requires HasTurn(w, h) && press.onNextTurn
    ensures var c, w' := w.clients.At(h), Next(w, Clicked(h, press));
            && PlayInv(w') && Seated(w') && Passing(w', h) && w' == SetClient(w, h, EndTurn(c))
            && Log(w', Other(h)) == Shipped(c)
  {
    PassStep(w, h, press);
    ClickKeepsPlay(w, h, press);
    EndTurnSeat(w.clients.At(h), h);
  }

  lemma DrainedSeat(c: Client, s: Side, t: seq<UnitData>)
    requires GoodTable(t) && ClientOk(c, s, t) && LogOk(c.unitQueue, t) && InSeat(c, s)
    ensures InSeat(Frame(c), s) && (Drains(c) ==> Frame(c).unitQueue == [])
  {
    FrameIsPlayFrame(c, s, t);
    SweepKeepsKind(c.units, t);
    ApplyAllEffect(c.(units := SweepAll(c.units)), c.unitQueue, t);
  }

  /** The idle side's frame once everything has arrived: it holds the turn. */
  lemma Receive(w: World, h: Side)
    requires PlayInv(w) && Seated(w) && Passing(w, h) && !w.clients.At(Other(h)).finished
    requires w.clients.At(Other(h)).unitQueue == Log(w, Other(h))
    ensures var o := Other(h);
            var w' := Next(w, Framed(o));
            && PlayInv(w') && Seated(w') && Held(w', o) && DrainStep(w, w', o)
            && w'.clients.At(h) == w.clients.At(h)
  {
    var o := Other(h);
    var c, w' := w.clients.At(o), Next(w, Framed(o));
    IdleDrains(w, h);
    DrainingFrame(w, o);
    FrameKeepsPlay(w, o);
    QueueOk(c.unitQueue, UnitMsgs(Pipe(w, o)), w.table);
    DrainedSeat(c, o, w.table);
    AllDrained(Log(w, o), Log(w', o));
    NothingToPass(w', h);
  }

  lemma IdleDrains(w: World, h: Side)
    requires Seated(w) && Passing(w, h) && !w.clients.At(Other(h)).finished
    requires w.clients.At(Other(h)).unitQueue == Log(w, Other(h))
    ensures Drains(w.clients.At(Other(h)))
  {
  }

  lemma NothingToPass(w: World, h: Side)
    requires Log(w, Other(h)) == []
    ensures !Passing(w, h)
  {
  }

  lemma AllDrained<T>(q: seq<T>, rest: seq<T>)
    requires q == q + rest
    ensures rest == []
  {
    assert |q| == |q| + |rest|;
  }

  lemma DrainGives(w: World, w': World, h: Side, c: Client)
    requires PlayInv(w) && Passing(w, h) && DrainStep(w, w', Other(h)) && Sized(c) && SameUnits(c.units, w.table)
    requires w.clients.At(Other(h)).unitQueue == Shipped(c)
    ensures var d, d' := w.clients.At(Other(h)).units, w'.clients.At(Other(h)).units;
            |d'| == |d| == UNIT_COUNT && forall k :: 0 <= k < UNIT_COUNT ==> d'[k] == Caught(d[k], c.units[k])
  {
    var d, d' := w.clients.At(Other(h)).units, w'.clients.At(Other(h)).units;
    forall k | 0 <= k < UNIT_COUNT ensures d'[k] == Caught(d[k], c.units[k]) {
      CaughtIsPending(c, d[k], w.table, k);
    }
  }

  /** A turn is passed and everything gets across. */
  predicate TurnPassed(w: World, w': World, h: Side) {
    var c, d, c', d' := w.clients.At(h), w.clients.At(Other(h)), w'.clients.At(h), w'.clients.At(Other(h));
    && PlayInv(w') && Seated(w') && Held(w', Other(h))
    && Passed(c.units, d.units, c'.units, d'.units)
    && Sized(c) && c'.finished == Won(c) && d'.finished == Won(c) && Sized(d') && NoneSelected(d')
  }

  /** The press, the hops that bring everything across, and the frame that takes the turn. */
  function PassSteps(h: Side, press: Click, hops: seq<Step>): seq<Step> {
    [Clicked(h, press)] + hops + [Framed(Other(h))]
  }

  lemma PlayPass(w: World, h: Side, press: Click) returns (hops: seq<Step>)
    requires HasTurn(w, h) && press.onNextTurn
    ensures AllHops(hops) && TurnPassed(w, Run(w, PassSteps(h, press, hops)), h)
    ensures var d, d' := w.clients.At(Other(h)), Run(Next(w, Clicked(h, press)), hops).clients.At(Other(h));
            d'.units == d.units && !d'.lobby && !d'.reconnecting && !d'.finished
  {
    var o := Other(h);
    Press(w, h, press);
    var w1 := Next(w, Clicked(h, press));
    hops := Flush(w1, o, Distance(w1, o));
    var w2 := Run(w1, hops);
    StillPassing(w1, w2, h);
    Receive(w2, h);
    RunPass(w, h, press, hops);
    Summed(w, w1, w2, Next(w2, Framed(o)), h);
    CoreFields(w1.clients.At(o), w2.clients.At(o));
  }

  lemma RunPass(w: World, h: Side, press: Click, hops: seq<Step>)
    ensures Run(w, PassSteps(h, press, hops)) == Next(Run(Next(w, Clicked(h, press)), hops), Framed(Other(h)))
  {
    var last := [Framed(Other(h))];
    ConcatAssociates([Clicked(h, press)], hops, last);
    RunFirst(w, Clicked(h, press), hops + last);
    RunConcat(Next(w, Clicked(h, press)), hops, last);
    assert last[1..] == [];
  }

  lemma StillPassing(w: World, w': World, h: Side)
    requires Passing(w, h) && PlayInv(w') && OnlyMoved(w, w')
    ensures Passing(w', h)
  {
    CoreFields(w.clients.one, w'.clients.one);
    CoreFields(w.clients.two, w'.clients.two);
    PassingIs(w', h);
  }

  lemma CoreFields(c: Client, c': Client)
    requires Core(c') == Core(c)
    ensures c'.units == c.units && c'.turn == c.turn && c'.finished == c.finished && c'.winner == c.winner && c'.selected == c.selected
  {
    assert Core(c').units == Core(c).units && Core(c').turn == Core(c).turn && Core(c').finished == Core(c).finished;
    assert Core(c').winner == Core(c).winner && Core(c').selected == Core(c).selected;
  }

  lemma SummedTables(w: World, w1: World, w2: World, w3: World, h: Side)
    requires HasTurn(w, h) && w1 == SetClient(w, h, EndTurn(w.clients.At(h))) && Log(w1, Other(h)) == Shipped(w.clients.At(h))
    requires Flushed(w1, w2, Other(h)) && Passing(w2, h) && DrainStep(w2, w3, Other(h)) && w3.clients.At(h) == w2.clients.At(h)
    ensures Sized(w.clients.At(h))
    ensures Passed(w.clients.At(h).units, w.clients.At(Other(h)).units, w3.clients.At(h).units, w3.clients.At(Other(h)).units)
  {
    var c := w.clients.At(h);
    TurnTable(w, h);
    CoreFields(w1.clients.At(h), w2.clients.At(h));
    CoreFields(w1.clients.At(Other(h)), w2.clients.At(Other(h)));
    EndTurnSettles(c);
    SameTable(w1, w2, c);
    DrainGives(w2, w3, h, c);
  }

  lemma Summed(w: World, w1: World, w2: World, w3: World, h: Side)
    requires HasTurn(w, h) && w1 == SetClient(w, h, EndTurn(w.clients.At(h))) && Log(w1, Other(h)) == Shipped(w.clients.At(h))
    requires Flushed(w1, w2, Other(h)) && Passing(w2, h)
    requires PlayInv(w3) && Seated(w3) && Held(w3, Other(h)) && DrainStep(w2, w3, Other(h)) && w3.clients.At(h) == w2.clients.At(h)
    ensures TurnPassed(w, w3, h)
  {
    var o := Other(h);
    var c := w.clients.At(h);
    TurnTable(w, h);
    CoreFields(w1.clients.At(h), w2.clients.At(h));
    CoreFields(w1.clients.At(o), w2.clients.At(o));
    EndTurnVerdict(c);
    SummedTables(w, w1, w2, w3, h);
    ShippedVerdict(c, h, w.table);
    PassingHolds(w2, o);
    assert w3.clients.At(o).selected == w2.clients.At(o).selected;
  }

  lemma TurnTable(w: World, h: Side)
    requires HasTurn(w, h)
    ensures GoodTable(w.table) && ClientOk(w.clients.At(h), h, w.table) && w.clients.At(h).team == Role(h)
  {
  }

  lemma SameTable(w1: World, w2: World, c: Client)
    requires OnlyMoved(w1, w2) && SameUnits(c.units, w1.table)
    ensures SameUnits(c.units, w2.table)
  {
  }

  // ----- the opening -----

  function Admitted(t: seq<UnitData>, s: Side): Client {
    NewClient(t).(userId := IdOf(s), lobby := false, team := Role(s), units := SweepAll(t))
  }

  function AdmitSteps(s: Side): seq<Step> {
    [Step.Delivered(s), Step.Delivered(s), Processed(s), Processed(s), Framed(s)]
  }

  lemma RunFive(w: World, a: Step, b: Step, c: Step, d: Step, e: Step)
    ensures Run(w, [a, b, c, d, e]) == Next(Next(Next(Next(Next(w, a), b), c), d), e)
  {
    assert [a, b, c, d, e] == [a] + [b, c, d, e];
    RunFirst(w, a, [b, c, d, e]);
    var w1 := Next(w, a);
    assert [b, c, d, e] == [b] + [c, d, e];
    RunFirst(w1, b, [c, d, e]);
    var w2 := Next(w1, b);
    assert [c, d, e] == [c] + [d, e];
    RunFirst(w2, c, [d, e]);
    var w3 := Next(w2, c);
    assert [d, e] == [d] + [e];
    RunFirst(w3, d, [e]);
    assert [e][1..] == [];
  }

  /** The world with one client replaced and its link emptied so far. */
  function With(w: World, s: Side, c: Client, down: seq<Msg>): World {
    w.(clients := w.clients.With(s, c), down := w.down.With(s, down))
  }

  lemma TakesDelivery(w: World, s: Side, c: Client, m: Msg, rest: seq<Msg>)
    requires w.present.At(s)
    ensures Next(With(w, s, c, [m] + rest), Step.Delivered(s)) == With(w, s, c.(received := c.received + [m]), rest)
  {
    assert ([m] + rest)[0] == m && ([m] + rest)[1..] == rest;
  }

  lemma Processes(w: World, s: Side, c: Client, m: Msg, rest: seq<Msg>, down: seq<Msg>)
    requires w.present.At(s)
    ensures Next(With(w, s, c.(received := [m] + rest), down), Processed(s)) == With(w, s, ProcessReceived(c.(received := rest), m), down)
  {
    assert ([m] + rest)[0] == m && ([m] + rest)[1..] == rest;
    assert c.(received := [m] + rest).(received := rest) == c.(received := rest);
  }

  lemma Frames(w: World, s: Side, c: Client, down: seq<Msg>)
    requires w.present.At(s)
    ensures Next(With(w, s, c, down), Framed(s)) == With(w, s, Frame(c), down)
  {
  }

  lemma BothDelivered(w: World, s: Side, c: Client, m: Msg, n: Msg)
    requires w.present.At(s) && c.received == []
    ensures Next(Next(With(w, s, c, [m, n]), Step.Delivered(s)), Step.Delivered(s)) == With(w, s, c.(received := [m, n]), [])
  {
    assert [m, n] == [m] + [n] && [n] == [n] + [];
    assert c.received + [m] == [m];
    TakesDelivery(w, s, c, m, [n]);
    TakesDelivery(w, s, c.(received := [m]), n, []);
  }

  lemma BothProcessed(w: World, s: Side, c: Client)
    requires w.present.At(s) && c.received == []
    ensures Next(Next(With(w, s, c.(received := [Init(IdOf(s)), Start]), []), Processed(s)), Processed(s))
            == With(w, s, c.(userId := IdOf(s), lobby := false), [])
  {
    var init, start := Init(IdOf(s)), Start;
    assert [init, start] == [init] + [start] && [start] == [start] + [];
    Processes(w, s, c, init, [start], []);
    var c1 := c.(userId := IdOf(s));
    assert ProcessReceived(c.(received := [start]), init) == c1.(received := [start]);
    Processes(w, s, c1, start, [], []);
    assert ProcessReceived(c1.(received := []), start) == c.(userId := IdOf(s), lobby := false);
  }

  lemma Admit(w: World, s: Side)
    requires w.present == Pair(true, true) && w.clients.At(s) == NewClient(w.table) && w.down.At(s) == [Init(IdOf(s)), Start]
    ensures Run(w, AdmitSteps(s)) == With(w, s, Admitted(w.table, s), [])
  {
    var c := NewClient(w.table);
    RunFive(w, Step.Delivered(s), Step.Delivered(s), Processed(s), Processed(s), Framed(s));
    assert w == With(w, s, c, [Init(IdOf(s)), Start]);
    BothDelivered(w, s, c, Init(IdOf(s)), Start);
    BothProcessed(w, s, c);
    Frames(w, s, c.(userId := IdOf(s), lobby := false), []);
    AdmittedFrame(w.table, s);
  }

  lemma AdmittedFrame(t: seq<UnitData>, s: Side)
    ensures Frame(NewClient(t).(userId := IdOf(s), lobby := false)) == Admitted(t, s)
  {
    var c := Admitted(t, s);
    assert UnitNetworkUpdate(c) == c;
  }

  lemma UnsweptTable(t: seq<UnitData>)
    requires GoodTable(t)
    ensures SweepAll(t) == t
  {
  }

  /** The game is on and the first player holds the turn. */
  lemma Opening(t: seq<UnitData>) returns (steps: seq<Step>)
    requires GoodTable(t)
    ensures AllInPlay(steps) && forall i :: 0 <= i < |steps| ==> !steps[i].Clicked?
    ensures var w := Run(Initial(t), steps);
            HasTurn(w, One) && w.clients.one.units == t && w.clients.two.units == t && NoneSelected(w.clients.one)
  {
    var w := Initial(t);
    steps := AdmitSteps(One) + AdmitSteps(Two);
    AdmitBoth(t);
    UnsweptTable(t);
    InitialPlay(t);
    RunKeepsPlay(w, steps);
    OpeningTurn(Run(w, steps), t);
  }

  lemma AdmitBoth(t: seq<UnitData>)
    ensures var w := Run(Initial(t), AdmitSteps(One) + AdmitSteps(Two));
            w.clients.one == Admitted(t, One) && w.clients.two == Admitted(t, Two)
  {
    var w := Initial(t);
    RunConcat(w, AdmitSteps(One), AdmitSteps(Two));
    Admit(w, One);
    Admit(Run(w, AdmitSteps(One)), Two);
  }

  lemma OpeningTurn(w: World, t: seq<UnitData>)
    requires PlayInv(w) && w.clients.one == Admitted(t, One) && w.clients.two == Admitted(t, Two) && SweepAll(t) == t
    ensures HasTurn(w, One) && w.clients.one.units == t && w.clients.two.units == t && NoneSelected(w.clients.one)
  {
    TurnHeld(w, One);
  }
}
