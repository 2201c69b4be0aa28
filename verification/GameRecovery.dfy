/**
 Every reconnection can be completed, so what GameResume proves of completed
 ones is not empty; and two concrete families in which it goes wrong: an end of
 turn still on its way out when the other player leaves loses the turn, and one
 still to be applied doubles it.
 */
module GameRecovery {
  import opened Wire
  import opened Messages
  import opened GameUnit
  import opened GameClient
  import opened GameWorld
  import opened GamePlay
  import opened GameHops
  import opened GameNewcomer
  import opened GameReconnect
  import opened GameResume
  import B = GameBoard
  import T = GameTurns

  /** Steps of play among which the survivor has no frame and the newcomer's messages are not relayed. */
  predicate Free(steps: seq<Step>, a: Side) {
    forall i :: 0 <= i < |steps| ==> InPlay(steps[i]) && steps[i] != Framed(a) && steps[i] != Relayed(Other(a))
  }

  lemma {:induction false} FreeRuns(w: World, steps: seq<Step>, a: Side)
    requires Free(steps, a)
    ensures AllInPlay(steps) && NoSnapshot(w, steps, a) && NoResume(w, steps, Other(a))
    decreases |steps|
  {
    if steps != [] {
      FreeRuns(Next(w, steps[0]), steps[1..], a);
    }
  }

  lemma FreeCons(step: Step, rest: seq<Step>, a: Side)
    requires Free([step], a) && Free(rest, a)
    ensures Free([step] + rest, a)
  {
    assert [step][0] == step;
  }

  // ----- the survivor gets to its snapshot -----

  /** The newcomer sends nothing, so what the survivor has to apply has all come in. */
  lemma NewcomerSilent(w: World, a: Side)
    requires Newcomer(w, Other(a))
    ensures Log(w, a) == InLog(w, a)
  {
    BaseFields(w.clients.At(Other(a)), w.table);
    LogSplit(w, a);
    assert Outgoing(w, Other(a)) == [];
  }

  predicate SameLogs(w: World, w': World, a: Side) {
    Log(w', a) == Log(w, a) && Log(w', Other(a)) == Log(w, Other(a))
  }

  lemma InLogKept(w: World, a: Side)
    requires w.present.At(a) && w.clients.At(a).received != []
    ensures InLog(Next(w, Processed(a)), a) == InLog(w, a)
  {
    var received := w.clients.At(a).received;
    assert received == [received[0]] + received[1..];
    ProcessedIn(w, a, received[0], received[1..]);
  }

  lemma InboxProcessed(w: World, a: Side)
    requires Waiting(w, a) && w.present.At(Other(a)) && w.clients.At(a).received != []
    ensures var w' := Next(w, Processed(a));
            Waiting(w', a) && w'.present == w.present && SameLogs(w, w', a) && InboxSize(w', a) < InboxSize(w, a)
  {
    var received := w.clients.At(a).received;
    ProcessedWaits(w, a);
    ProcessedLot(w, a);
    InLogKept(w, a);
    ProcessedCloser(w, a);
    StepKeepsPresent(w, Processed(a));
    StillSilent(w, Next(w, Processed(a)), a);
  }

  lemma StillSilent(w: World, w': World, a: Side)
    requires Newcomer(w, Other(a)) && Newcomer(w', Other(a)) && InLog(w', a) == InLog(w, a)
    ensures Log(w', a) == Log(w, a)
  {
    NewcomerSilent(w, a);
    NewcomerSilent(w', a);
  }

  lemma InboxDelivered(w: World, a: Side)
    requires Waiting(w, a) && w.present.At(Other(a)) && w.down.At(a) != []
    ensures var w' := Next(w, Step.Delivered(a));
            Waiting(w', a) && w'.present == w.present && SameLogs(w, w', a) && InboxSize(w', a) < InboxSize(w, a)
  {
    DeliveredWaits(w, a);
    DeliveredLot(w, a);
    DeliveredIn(w, a);
    DeliveredCloser(w, a);
    StillSilent(w, Next(w, Step.Delivered(a)), a);
  }

  lemma InboxStep(w: World, a: Side) returns (step: Step)
    requires Waiting(w, a) && w.present.At(Other(a)) && Inbound(w, a) != []
    ensures Free([step], a) && Waiting(Next(w, step), a) && Next(w, step).present == w.present && SameLogs(w, Next(w, step), a)
    ensures InboxSize(Next(w, step), a) < InboxSize(w, a)
  {
    if w.clients.At(a).received != [] {
      step := Processed(a);
      InboxProcessed(w, a);
    } else {
      step := Step.Delivered(a);
      InboxDelivered(w, a);
    }
    assert [step][0] == step;
  }

  function InboxSize(w: World, a: Side): nat { 2 * |w.down.At(a)| + |w.clients.At(a).received| }

  lemma EmptyInboxPrompted(w: World, a: Side)
    requires Waiting(w, a) && w.present.At(Other(a)) && Inbound(w, a) == []
    ensures Prompted(w, a)
  {
  }

  lemma {:induction false} Prompt(w: World, a: Side, n: nat) returns (steps: seq<Step>)
    requires Waiting(w, a) && w.present.At(Other(a)) && n == InboxSize(w, a)
    ensures Free(steps, a)
    ensures var w' := Run(w, steps); Waiting(w', a) && Prompted(w', a) && SameLogs(w, w', a)
    decreases n
  {
    if n == 0 {
      EmptyInboxPrompted(w, a);
      steps := [];
    } else {
      var step := InboxStep(w, a);
      var rest := Prompt(Next(w, step), a, InboxSize(Next(w, step), a));
      steps := [step] + rest;
      RunFirst(w, step, rest);
      FreeCons(step, rest, a);
    }
  }

  // ----- the newcomer gets to ask to resume -----

  lemma StreamStep(w: World, a: Side, p: seq<UnitMsg>, q: seq<UnitMsg>)
    requires Streaming(w, a, p, q) && Distance(w, Other(a)) > 0
    ensures var step := HopToward(w, Other(a));
            Free([step], a) && Streaming(Next(w, step), a, p, q) && Distance(Next(w, step), Other(a)) < Distance(w, Other(a))
  {
    var step := HopToward(w, Other(a));
    assert [step][0] == step;
    StepStreams(w, step, a, p, q);
    HopCloser(w, Other(a));
  }

  lemma {:induction false} StreamAll(w: World, a: Side, p: seq<UnitMsg>, q: seq<UnitMsg>, n: nat) returns (steps: seq<Step>)
    requires Streaming(w, a, p, q) && n == Distance(w, Other(a))
    ensures Free(steps, a) && Streaming(Run(w, steps), a, p, q) && Distance(Run(w, steps), Other(a)) == 0
    decreases n
  {
    if n == 0 {
      steps := [];
    } else {
      var step := HopToward(w, Other(a));
      StreamStep(w, a, p, q);
      var rest := StreamAll(Next(w, step), a, p, q, Distance(Next(w, step), Other(a)));
      steps := [step] + rest;
      RunFirst(w, step, rest);
      FreeCons(step, rest, a);
    }
  }

  lemma RequestSent(w: World, b: Side)
    requires w.present.At(b) && w.up.At(b) == [] && Outgoing(w, b) == [Resume]
    ensures RelaysResume(Next(w, Sent(b)), Relayed(b), b)
  {
    assert w.clients.At(b).sending == [Resume];
  }

  lemma StreamComplete(w: World, a: Side, p: seq<UnitMsg>, q: seq<UnitMsg>)
    requires Streaming(w, a, p, q) && Distance(w, Other(a)) == 0
    ensures w.clients.At(Other(a)).updateComplete && w.up.At(Other(a)) == []
  {
    assert Pipe(w, Other(a)) == [];
  }

  lemma FrameKeepsUp(w: World, b: Side)
    ensures Next(w, Framed(b)).up == w.up
  {
  }

  lemma TakenAsks(w: World, a: Side, p: seq<UnitMsg>, q: seq<UnitMsg>)
    requires TookOver(w, a, p, q) && w.up.At(Other(a)) == []
    ensures RelaysResume(Next(w, Sent(Other(a))), Relayed(Other(a)), Other(a))
  {
    RequestSent(w, Other(a));
  }

  /** The newcomer takes over and its request reaches the server. */
  lemma AskToResume(w: World, a: Side, p: seq<UnitMsg>, q: seq<UnitMsg>) returns (steps: seq<Step>)
    requires Streaming(w, a, p, q) && Distance(w, Other(a)) == 0
    ensures Free(steps, a) && RelaysResume(Run(w, steps), Relayed(Other(a)), Other(a))
  {
    var b := Other(a);
    var w1 := Next(w, Framed(b));
    StreamComplete(w, a, p, q);
    StreamsTakeOver(w, a, p, q);
    FrameKeepsUp(w, b);
    TakenAsks(w1, a, p, q);
    steps := [Framed(b)] + [Sent(b)];
    RunFirst(w, Framed(b), [Sent(b)]);
    OneStep(w1, Sent(b));
    FreeRequest(a);
  }

  lemma FreeRequest(a: Side)
    ensures Free([Framed(Other(a))] + [Sent(Other(a))], a)
  {
  }

  lemma OneStep(w: World, step: Step)
    ensures Run(w, [step]) == Next(w, step)
  {
    assert [step][1..] == [];
  }

  lemma FreeConcat(x: seq<Step>, y: seq<Step>, a: Side)
    requires Free(x, a) && Free(y, a)
    ensures Free(x + y, a)
  {
  }

  /**
   Whenever a player leaves normal play and a newcomer joins, some further steps
   complete the reconnection, with exactly what was pending at the join still
   pending at the snapshot.
   */
  lemma ReconnectCompletes(w: World, b: Side, mid: seq<Step>) returns (wait: seq<Step>, rest: seq<Step>)
    requires FullPlay(w) && AllInPlay(mid)
    ensures Completes(w, b, mid, wait, rest)
    ensures SameLogs(Replaced(w, b, mid), Run(Replaced(w, b, mid), wait), Other(b))
  {
    var a := Other(b);
    var w1 := Replaced(w, b, mid);
    ReplacedRejoins(w, b, mid);
    wait := Prompt(w1, a, InboxSize(w1, a));
    FreeRuns(w1, wait, a);
    var snapshot := Run(w1, wait);
    SnapshotStreams(snapshot, a);
    var w2 := Next(snapshot, Framed(a));
    var p, q := Log(snapshot, a), Log(snapshot, b);
    var stream := StreamAll(w2, a, p, q, Distance(w2, b));
    var ask := AskToResume(Run(w2, stream), a, p, q);
    rest := stream + ask;
    RunConcat(w2, stream, ask);
    FreeConcat(stream, ask, a);
    FreeRuns(w2, rest, a);
  }

  /** The steps make a completed reconnection, as GameResume has it. */
  predicate Completes(w: World, b: Side, mid: seq<Step>, wait: seq<Step>, rest: seq<Step>) {
    var w1 := Replaced(w, b, mid);
    var snapshot := Run(w1, wait);
    var w2 := Next(snapshot, Framed(Other(b)));
    && AllInPlay(wait) && AllInPlay(rest)
    && NoSnapshot(w1, wait, Other(b)) && NoResume(w1, wait, b)
    && TakesSnapshot(snapshot, Framed(Other(b)), Other(b))
    && NoResume(w2, rest, b) && RelaysResume(Run(w2, rest), Relayed(b), b)
  }

  /** The state a completed reconnection ends in. */
  function Outcome(w: World, b: Side, mid: seq<Step>, wait: seq<Step>, rest: seq<Step>): World {
    Next(Run(Next(Run(Replaced(w, b, mid), wait), Framed(Other(b))), rest), Relayed(b))
  }

  lemma NoUnits(ms: seq<Msg>, m: Msg)
    requires !m.UnitUpdate?
    ensures UnitMsgs(ms + [m]) == UnitMsgs(ms) && UnitMsgs([m] + ms) == UnitMsgs(ms)
  {
    UnitMsgsConcat(ms, [m]);
    UnitMsgsConcat([m], ms);
    assert UnitMsgs([m]) == [] by { assert [m][1..] == []; }
  }

  /** The links once a newcomer has joined at once. */
  lemma JoinedAtOnce(w: World, b: Side)
    requires FullPlay(w)
    ensures var a, w1 := Other(b), Replaced(w, b, []);
            && w1.clients.At(a) == w.clients.At(a) && w1.clients.At(b) == NewClient(w.table)
            && Inbound(w1, a) == Inbound(w, a) + [DataSender] + [Ready]
            && Pipe(w1, b) == [Reconnect(true)] + Outgoing(w, a)
            && Newcomer(w1, b)
  {
    var a := Other(b);
    var gone := Next(w, Left(b));
    LeftWorld(w, a);
    LeftWaits(w, a);
    JoinedWorld(gone, a);
    JoinedWaits(gone, a);
  }

  /** What is pending when a newcomer joins at once: what had come in to the survivor, and what it had yet to get relayed. */
  lemma PendingAtJoin(w: World, b: Side)
    requires FullPlay(w)
    ensures Log(Replaced(w, b, []), Other(b)) == InLog(w, Other(b))
    ensures Log(Replaced(w, b, []), b) == UnitMsgs(Outgoing(w, Other(b)))
  {
    var a := Other(b);
    JoinedAtOnce(w, b);
    NewcomerSilent(Replaced(w, b, []), a);
    NoUnits(Inbound(w, a), DataSender);
    NoUnits(Inbound(w, a) + [DataSender], Ready);
    NoUnits(Outgoing(w, a), Reconnect(true));
  }

  // ----- two ways it goes wrong -----

  lemma ShippedEnds(c: Client, t: seq<UnitData>)
    requires GoodTable(t) && Sized(c) && SameUnits(c.units, t)
    ensures EndTurns(Shipped(c)) == 1
  {
    ShippedOk(c, t);
    var ms := Shipped(c);
    EndTurnsNone(ms[..|ms| - 1]);
  }

  lemma NothingCameIn(w: World, s: Side)
    requires Held(w, Other(s))
    ensures InLog(w, s) == []
  {
    LogSplit(w, s);
    assert Log(w, s) == [];
  }

  /** The first player has pressed next turn, and nothing of it has reached the other side. */
  lemma Pressed(t: seq<UnitData>, shown: Pair<B.Highlights>) returns (steps: seq<Step>)
    requires GoodTable(t)
    ensures AllInPlay(steps) && B.Playable(Initial(t), shown, steps)
    ensures var w := Run(Initial(t), steps);
            PlayInv(w) && T.Seated(w) && EndTurns(Log(w, Two)) == 1 && UnitMsgs(Outgoing(w, One)) == Log(w, Two)
  {
    var opening := T.Opening(t);
    var w := Run(Initial(t), opening);
    var click := PlayablePress(t, shown, opening);
    var press := Clicked(One, click);
    T.Press(w, One, click);
    steps := opening + [press];
    RunConcat(Initial(t), opening, [press]);
    var w' := Next(w, press);
    OneStep(w, press);
    NothingCameIn(w, Two);
    LogSplit(w', Two);
    assert InLog(w', Two) == InLog(w, Two);
    T.TurnTable(w, One);
    ShippedEnds(w.clients.one, w.table);
  }

  /** Pressing the button after some steps without clicks. */
  lemma PlayablePress(t: seq<UnitData>, shown: Pair<B.Highlights>, steps: seq<Step>) returns (press: Click)
    requires forall i :: 0 <= i < |steps| ==> !steps[i].Clicked?
    ensures press.onNextTurn && B.Playable(Initial(t), shown, steps + [Clicked(One, press)])
  {
    var w, after := Run(Initial(t), steps), B.ShownAfter(Initial(t), shown, steps);
    press := B.ButtonPress(after.one);
    B.ClicklessPlayable(Initial(t), shown, steps);
    B.PlayableConcat(Initial(t), shown, steps, [Clicked(One, press)]);
    B.PlayableOne(w, after, Clicked(One, press));
    B.PressIsMade(One, after);
  }

  /**
   From every table: a game in which the second player leaves just after the
   first ends its turn, and once play resumes nobody holds the turn and no end
   of turn is on its way.
   */
  lemma TurnCanBeLost(t: seq<UnitData>, shown: Pair<B.Highlights>) returns (before: seq<Step>, wait: seq<Step>, rest: seq<Step>)
    requires GoodTable(t)
    ensures AllInPlay(before) && B.Playable(Initial(t), shown, before)
    ensures Completes(Run(Initial(t), before), Two, [], wait, rest)
    ensures Tokens(Outcome(Run(Initial(t), before), Two, [], wait, rest)) == 0
  {
    before := Pressed(t, shown);
    var w := Run(Initial(t), before);
    ReachableFull(t, before);
    wait, rest := ReconnectCompletes(w, Two, []);
    PendingAtJoin(w, Two);
    ReconnectRestores(w, Two, [], wait, rest);
  }

  /**
   From every table: a game in which the first player leaves once its end of
   turn has arrived but before it is applied, and once play resumes there are
   two tokens: the newcomer's turn, and the end of turn still to be applied.
   */
  lemma TurnCanBeDoubled(t: seq<UnitData>, shown: Pair<B.Highlights>) returns (before: seq<Step>, wait: seq<Step>, rest: seq<Step>)
    requires GoodTable(t)
    ensures AllInPlay(before) && B.Playable(Initial(t), shown, before)
    ensures Completes(Run(Initial(t), before), One, [], wait, rest)
    ensures Tokens(Outcome(Run(Initial(t), before), One, [], wait, rest)) == 2
  {
    var pressed := Pressed(t, shown);
    var w0 := Run(Initial(t), pressed);
    var hops := T.Flush(w0, Two, Distance(w0, Two));
    before := pressed + hops;
    RunConcat(Initial(t), pressed, hops);
    T.HopsInPlay(hops);
    AllInPlayConcat(pressed, hops);
    B.HopsShow(w0, B.ShownAfter(Initial(t), shown, pressed), hops);
    B.PlayableConcat(Initial(t), shown, pressed, hops);
    var w := Run(Initial(t), before);
    ReachableFull(t, before);
    wait, rest := ReconnectCompletes(w, One, []);
    PendingAtJoin(w, One);
    AllIn(w, Two);
    ReconnectRestores(w, One, [], wait, rest);
  }

  lemma AllIn(w: World, s: Side)
    requires w.clients.At(s).unitQueue == Log(w, s)
    ensures InLog(w, s) == Log(w, s)
  {
    LogSplit(w, s);
    var c := w.clients.At(s);
    assert |InLog(w, s)| >= |c.unitQueue|;
    assert InLog(w, s) + UnitMsgs(Outgoing(w, Other(s))) == c.unitQueue;
    assert UnitMsgs(Outgoing(w, Other(s))) == [];
  }
}
