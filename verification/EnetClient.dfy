/**
 The threaded client of the network library over one connection, as atomic
 steps of its worker thread and of the game thread with the histories both leave
 behind. A received packet is known by a number fresh for each; outgoing packets
 are values.
 */
module EnetClient {
  import opened Wrappers

  datatype Event = Connect | Receive(packet: nat) | Disconnect

  /** The worker: not yet started, in its loop, in its loop after asking to disconnect, or ended. */
  datatype Worker = Starting | Running | Leaving | Ended

  /**
   `isConnected` is the flag the game reads, `exit` the worker's order to stop,
   `waiting` says the game thread is blocked in disconnect, and `joined` that it
   has returned. Then the shared queues and the batch being consumed. The rest is
   history: events enqueued, handled and dropped unhandled; received packets
   destroyed; packets sent, passed to the peer, and destroyed unsent.
   */
  datatype Client = Client(
    worker: Worker,
    greeted: bool,
    isConnected: bool,
    exit: bool,
    waiting: bool,
    joined: bool,
    nextPacket: nat,
    packets: seq<int>,
    events: seq<Event>,
    batch: seq<Event>,
    enqueued: seq<Event>,
    handled: seq<Event>,
    dropped: seq<Event>,
    destroyed: seq<nat>,
    sent: seq<int>,
    passed: seq<int>,
    unsent: seq<int>)

  datatype Step =
    | WorkerStarts(ok: bool)
    | WorkerSends
    | WorkerAsksToLeave
    | WorkerTimesOut
    | CapturesConnect
    | CapturesReceive
    | CapturesDisconnect
    | TakeBatch
    | HandleEvent
    | SendPacket(body: int)
    | BeginDisconnect
    | FinishDisconnect

  function Initial(): Client {
    Client(Starting, false, false, false, false, false, 0, [], [], [], [], [], [], [], [], [], [])
  }

  predicate InLoop(s: Client) { s.worker == Running || s.worker == Leaving }

  function Enqueue(s: Client, e: Event): Client { s.(events := s.events + [e], enqueued := s.enqueued + [e]) }

  /** The peer is gone: the loop ends, and nothing more is captured. */
  function CaptureDisconnect(s: Client): Client {
    Enqueue(s.(worker := Ended, isConnected := false), Disconnect)
  }

  function SendQueued(s: Client): Client { s.(passed := s.passed + s.packets, packets := []) }

  function PacketOf(e: Event): seq<nat> { if e.Receive? then [e.packet] else [] }

  /** The packets received, in order. */
  function Packets(es: seq<Event>): seq<nat> { Gathered(PacketOf, es) }

  /** Handles the front of the batch: the callback, then the packet is destroyed. */
  function HandleFront(s: Client): Client
    requires s.batch != []
  {
    var e := s.batch[0];
    s.(batch := s.batch[1..], handled := s.handled + [e],
       destroyed := s.destroyed + if e.Receive? then [e.packet] else [])
  }

  /** The cleanup once the worker has ended. */
  function Cleanup(s: Client): Client {
    s.(waiting := false, joined := true,
       unsent := s.unsent + s.packets, packets := [],
       destroyed := s.destroyed + Packets(s.events), dropped := s.dropped + s.events, events := [])
  }

  /** One atomic step; the peer follows the network library's contract. A callback may itself disconnect. */
  function Next(s: Client, step: Step): Client {
    match step
    case WorkerStarts(ok) =>
      if s.worker != Starting then s
      else if ok then s.(worker := Running, isConnected := true)
      else s.(worker := Ended)
    case WorkerSends => if s.worker == Running then SendQueued(s) else s
    case WorkerAsksToLeave => if s.worker == Running && s.exit then s.(worker := Leaving) else s
    case WorkerTimesOut => if s.worker == Leaving then s.(worker := Ended, isConnected := false) else s
    case CapturesConnect => if InLoop(s) && !s.greeted then Enqueue(s.(greeted := true), Connect) else s
    case CapturesReceive =>
      if InLoop(s) && s.greeted then Enqueue(s.(nextPacket := s.nextPacket + 1), Receive(s.nextPacket)) else s
    case CapturesDisconnect => if InLoop(s) then CaptureDisconnect(s) else s
    case TakeBatch => if !s.waiting && s.batch == [] then s.(batch := s.events, events := []) else s
    case HandleEvent => if !s.waiting && s.batch != [] then HandleFront(s) else s
    case SendPacket(body) =>
      if !s.waiting && !s.joined then s.(packets := s.packets + [body], sent := s.sent + [body]) else s
    case BeginDisconnect => if !s.waiting then s.(waiting := true, exit := s.exit || !s.joined) else s
    case FinishDisconnect => if s.waiting && (s.worker == Ended || s.joined) then Cleanup(s) else s
  }

  function Run(s: Client, steps: seq<Step>): Client
    decreases |steps|
  {
    if steps == [] then s else Run(Next(s, steps[0]), steps[1..])
  }

  // ----- the shape of what is captured -----

  predicate AllReceive(es: seq<Event>) { forall i :: 0 <= i < |es| ==> es[i].Receive? }

  /** A connection so far: nothing, or one connect and then receives. */
  predicate Open(es: seq<Event>) { es == [] || (es[0].Connect? && AllReceive(es[1..])) }

  /** An open connection, or one followed by its disconnect and nothing more. */
  predicate Grammar(es: seq<Event>) {
    Open(es) || (es != [] && es[|es| - 1].Disconnect? && Open(es[..|es| - 1]))
  }

  lemma GrammarPrefix(a: seq<Event>, b: seq<Event>)
    requires Grammar(a + b)
    ensures Grammar(a)
    ensures b != [] ==> Open(a)
  {
    if b == [] {
      assert a + b == a;
    } else if Open(a + b) {
      OpenPrefix(a, b);
    } else {
      assert (a + b)[..|a + b| - 1] == a + b[..|b| - 1];
      OpenPrefix(a, b[..|b| - 1]);
    }
  }

  lemma OpenPrefix(a: seq<Event>, b: seq<Event>)
    requires Open(a + b)
    ensures Open(a)
  {
    if a != [] {
      assert (a + b)[0] == a[0];
      forall i | 0 <= i < |a[1..]| ensures a[1..][i].Receive? {
        assert a[1..][i] == (a + b)[1..][i];
      }
    }
  }

  // ----- the invariant -----

  predicate EventsInv(s: Client) {
    && s.handled + s.batch + s.events + s.dropped == s.enqueued
    && (InLoop(s) || s.worker == Starting ==> Open(s.enqueued) && (s.greeted <==> s.enqueued != []))
    && Grammar(s.enqueued)
    && (s.joined ==> s.events == [])
    && (!s.joined ==> s.dropped == [])
    && Packets(s.enqueued) == seq(s.nextPacket, i => i)
    && multiset(s.destroyed) == multiset(Packets(s.handled)) + multiset(Packets(s.dropped))
  }

  predicate ThreadInv(s: Client) {
    && (s.isConnected <==> InLoop(s))
    && (s.joined ==> s.worker == Ended)
    && (s.worker == Leaving ==> s.exit)
    && (s.exit ==> s.waiting || s.joined)
    && (s.waiting && !s.joined ==> s.exit)
  }

  predicate OutInv(s: Client) {
    && s.passed + s.unsent + s.packets == s.sent
    && (s.joined ==> s.packets == [])
    && (!s.joined ==> s.unsent == [])
  }

  predicate Inv(s: Client) { EventsInv(s) && ThreadInv(s) && OutInv(s) }

  lemma AppendLast<T>(a: seq<T>, b: seq<T>, c: seq<T>, e: T)
    ensures a + b + (c + [e]) + [] == a + b + c + [] + [e]
  {
  }

  lemma OpenLast(es: seq<Event>, e: Event)
    requires Open(es)
    ensures e.Connect? && es == [] ==> Open(es + [e])
    ensures e.Receive? && es != [] ==> Open(es + [e])
    ensures e.Disconnect? ==> Grammar(es + [e])
  {
    var r := es + [e];
    assert r[..|r| - 1] == es;
    if es != [] {
      assert r[1..] == es[1..] + [e];
    }
  }

  lemma CountOne(n: nat)
    ensures seq(n + 1, i => i) == seq(n, i => i) + [n]
  {
  }

  lemma EnqueueKeeps(s: Client, s': Client, e: Event)
    requires EventsInv(s) && InLoop(s) && !s.joined
    requires s' == s.(worker := s'.worker, greeted := s'.greeted, isConnected := s'.isConnected, nextPacket := s'.nextPacket,
                      events := s.events + [e], enqueued := s.enqueued + [e])
    requires e.Connect? ==> !s.greeted && InLoop(s') && s'.greeted
    requires e.Receive? ==> s.greeted && InLoop(s') && s'.greeted && e.packet == s.nextPacket
    requires e.Disconnect? ==> s'.worker == Ended
    requires s'.nextPacket == s.nextPacket + if e.Receive? then 1 else 0
    ensures EventsInv(s')
  {
    AppendLast(s.handled, s.batch, s.events, e);
    GatheredOne(PacketOf, s.enqueued, e);
    OpenLast(s.enqueued, e);
    CountOne(s.nextPacket);
  }

  lemma TakeKeeps(s: Client)
    requires EventsInv(s) && s.batch == []
    ensures EventsInv(s.(batch := s.events, events := []))
  {
    assert s.handled + [] + s.events + s.dropped == s.handled + s.events + [] + s.dropped;
  }

  lemma MoveFront<T>(a: seq<T>, e: T, rest: seq<T>, c: seq<T>, d: seq<T>)
    ensures a + ([e] + rest) + c + d == (a + [e]) + rest + c + d
  {
  }

  lemma HandleKeeps(s: Client)
    requires EventsInv(s) && s.batch != []
    ensures EventsInv(HandleFront(s))
  {
    var e, rest := s.batch[0], s.batch[1..];
    assert s.batch == [e] + rest;
    MoveFront(s.handled, e, rest, s.events, s.dropped);
    GatheredOne(PacketOf, s.handled, e);
    HandledParts(s, HandleFront(s), e, rest);
  }

  lemma HandledParts(s: Client, s': Client, e: Event, rest: seq<Event>)
    requires EventsInv(s)
    requires s' == s.(batch := rest, handled := s.handled + [e], destroyed := s.destroyed + if e.Receive? then [e.packet] else [])
    requires s'.handled + s'.batch + s'.events + s'.dropped == s.enqueued
    requires Packets(s'.handled) == Packets(s.handled) + if e.Receive? then [e.packet] else []
    ensures EventsInv(s')
  {
  }

  lemma DropAll<T>(a: seq<T>, b: seq<T>, c: seq<T>, d: seq<T>)
    requires c == [] || d == []
    ensures a + b + [] + (d + c) == a + b + c + d
  {
  }

  lemma CleanupKeeps(s: Client)
    requires EventsInv(s) && OutInv(s) && s.worker == Ended
    ensures EventsInv(Cleanup(s)) && OutInv(Cleanup(s))
  {
    DropAll(s.handled, s.batch, s.events, s.dropped);
    GatheredConcat(PacketOf, s.dropped, s.events);
    CleanedOut(s);
  }

  lemma CleanedOut(s: Client)
    requires OutInv(s)
    ensures OutInv(Cleanup(s))
  {
    assert s.passed + (s.unsent + s.packets) + [] == s.passed + s.unsent + s.packets;
  }

  lemma EventsSame(s: Client, s': Client)
    requires EventsInv(s)
    requires s' == s.(worker := s'.worker, isConnected := s'.isConnected, exit := s'.exit, waiting := s'.waiting,
                      packets := s'.packets, sent := s'.sent, passed := s'.passed)
    requires InLoop(s') || s'.worker == Starting ==> InLoop(s) || s.worker == Starting
    ensures EventsInv(s')
  {
  }

  predicate TouchesNoEvent(step: Step) {
    || step.WorkerStarts? || step.WorkerSends? || step.WorkerAsksToLeave? || step.WorkerTimesOut?
    || step.SendPacket? || step.BeginDisconnect?
  }

  lemma QuietOut(s: Client, step: Step)
    requires OutInv(s) && (s.joined ==> s.worker == Ended) && TouchesNoEvent(step)
    ensures OutInv(Next(s, step))
  {
    match step
    case WorkerSends =>
      if s.worker == Running {
        assert s.unsent == [];
        assert s.passed + s.packets + [] + [] == s.passed + [] + s.packets;
      }
    case SendPacket(body) =>
      assert s.passed + s.unsent + (s.packets + [body]) == s.passed + s.unsent + s.packets + [body];
    case WorkerStarts(_) =>
    case _ =>
  }

  lemma QuietThread(s: Client, step: Step)
    requires ThreadInv(s) && TouchesNoEvent(step)
    ensures ThreadInv(Next(s, step))
  {
  }

  lemma QuietKeeps(s: Client, step: Step)
    requires Inv(s) && TouchesNoEvent(step)
    ensures Inv(Next(s, step))
  {
    EventsSame(s, Next(s, step));
    QuietOut(s, step);
    QuietThread(s, step);
  }

  /** Steps of the worker that capture an event. */
  lemma CaptureKeeps(s: Client, step: Step)
    requires Inv(s)
    requires step.CapturesConnect? || step.CapturesReceive? || step.CapturesDisconnect?
    ensures Inv(Next(s, step))
  {
    var s' := Next(s, step);
    match step
    case CapturesConnect =>
      if InLoop(s) && !s.greeted { EnqueueKeeps(s, s', Connect); }
    case CapturesReceive =>
      if InLoop(s) && s.greeted { EnqueueKeeps(s, s', Receive(s.nextPacket)); }
    case CapturesDisconnect =>
      if InLoop(s) { EnqueueKeeps(s, s', Disconnect); }
  }

  lemma StepKeeps(s: Client, step: Step)
    requires Inv(s)
    ensures Inv(Next(s, step))
  {
    match step
    case CapturesConnect => CaptureKeeps(s, step);
    case CapturesReceive => CaptureKeeps(s, step);
    case CapturesDisconnect => CaptureKeeps(s, step);
    case TakeBatch =>
      if !s.waiting && s.batch == [] { TakeKeeps(s); }
    case HandleEvent =>
      if !s.waiting && s.batch != [] { HandleKeeps(s); }
    case FinishDisconnect =>
      if s.waiting && (s.worker == Ended || s.joined) { CleanupKeeps(s); }
    case _ => QuietKeeps(s, step);
  }

  lemma InitialInv()
    ensures Inv(Initial())
  {
    assert seq(0, i => i) == [];
  }

  lemma {:induction false} RunKeeps(s: Client, steps: seq<Step>)
    requires Inv(s)
    ensures Inv(Run(s, steps))
    decreases |steps|
  {
    if steps != [] {
      StepKeeps(s, steps[0]);
      RunKeeps(Next(s, steps[0]), steps[1..]);
    }
  }

  // ----- what that means for every interleaving -----

  /**
   The callbacks, then the batch still to be handled, then what is queued or was
   dropped at the end, are exactly what the worker enqueued, in its order; that
   is a connect, receives and a disconnect at the most, with nothing after the
   disconnect, and so are the callbacks.
   */
  lemma HandledInOrder(steps: seq<Step>)
    ensures var s := Run(Initial(), steps);
            && s.handled + s.batch + s.events + s.dropped == s.enqueued
            && Grammar(s.enqueued) && Grammar(s.handled)
            && (Disconnect in s.handled ==> s.handled == s.enqueued)
  {
    InitialInv();
    RunKeeps(Initial(), steps);
    var s := Run(Initial(), steps);
    ThreeLeft(s.handled, s.batch, s.events, s.dropped);
    HandledPrefix(s.handled, s.batch + s.events + s.dropped);
  }

  lemma ThreeLeft<T>(a: seq<T>, b: seq<T>, c: seq<T>, d: seq<T>)
    ensures a + b + c + d == a + (b + c + d)
  {
  }

  lemma HandledPrefix(handled: seq<Event>, rest: seq<Event>)
    requires Grammar(handled + rest)
    ensures Grammar(handled) && (Disconnect in handled ==> handled == handled + rest)
  {
    GrammarPrefix(handled, rest);
    if rest != [] {
      assert handled != [] ==> handled == [handled[0]] + handled[1..];
    } else {
      assert handled + [] == handled;
    }
  }

  /**
   Every packet sent is passed to the peer once, still queued once, or destroyed
   unsent once; those passed come first, in order.
   */
  lemma SentOnce(steps: seq<Step>)
    ensures var s := Run(Initial(), steps);
            && s.passed + s.unsent + s.packets == s.sent
            && (s.joined ==> s.packets == []) && (!s.joined ==> s.unsent == [])
  {
    InitialInv();
    RunKeeps(Initial(), steps);
  }

  lemma SeqCounts(n: nat, p: nat)
    ensures multiset(seq(n, i => i))[p] == if p < n then 1 else 0
    decreases n
  {
    if n > 0 {
      SeqCounts(n - 1, p);
      assert seq(n, i => i) == seq(n - 1, i => i) + [n - 1];
    } else {
      assert seq(0, i => i) == [];
    }
  }

  /**
   Once disconnect has returned and the batch is handled, every received packet
   has been destroyed exactly once, and the queues are empty, as the destructor
   requires.
   */
  lemma DestroyedOnce(steps: seq<Step>, p: nat)
    requires var s := Run(Initial(), steps); s.joined && s.batch == []
    ensures var s := Run(Initial(), steps);
            && multiset(s.destroyed)[p] == (if p < s.nextPacket then 1 else 0)
            && s.packets == [] && s.events == []
  {
    InitialInv();
    RunKeeps(Initial(), steps);
    var s := Run(Initial(), steps);
    NothingBetween(s.handled, s.dropped);
    GatheredConcat(PacketOf, s.handled, s.dropped);
    SeqCounts(s.nextPacket, p);
    assert multiset(Packets(s.handled) + Packets(s.dropped)) == multiset(s.destroyed);
  }

  lemma NothingBetween<T>(a: seq<T>, d: seq<T>)
    ensures a + [] + [] + d == a + d
  {
  }

  /** At any time no received packet has been destroyed twice, and none that is still to be handled. */
  lemma NeverDestroyedTwice(steps: seq<Step>, p: nat)
    ensures var s := Run(Initial(), steps);
            && multiset(s.destroyed)[p] <= 1
            && (Receive(p) in s.batch ==> p !in s.destroyed)
  {
    InitialInv();
    RunKeeps(Initial(), steps);
    var s := Run(Initial(), steps);
    SeqCounts(s.nextPacket, p);
    GatheredConcat(PacketOf, s.handled + s.batch + s.events, s.dropped);
    GatheredConcat(PacketOf, s.handled + s.batch, s.events);
    GatheredConcat(PacketOf, s.handled, s.batch);
    PacketsIn(s.batch, p);
    assert p in s.destroyed ==> p in multiset(s.destroyed);
  }

  lemma {:induction false} PacketsIn(es: seq<Event>, p: nat)
    ensures Receive(p) in es ==> p in multiset(Packets(es))
    decreases |es|
  {
    if es != [] {
      PacketsIn(es[1..], p);
      assert es == [es[0]] + es[1..];
    }
  }

  /** The flag behind the reported status is set exactly while the worker is in its loop. */
  lemma StatusFlag(steps: seq<Step>)
    ensures var s := Run(Initial(), steps); s.isConnected <==> InLoop(s)
  {
    InitialInv();
    RunKeeps(Initial(), steps);
  }

  // ----- nothing is refused without cause -----

  /** A packet is queued behind the others unless the game has begun or finished disconnecting. */
  lemma SendQueuesOne(s: Client, body: int)
    ensures Next(s, SendPacket(body)).packets == if s.waiting || s.joined then s.packets else s.packets + [body]
  {
  }

  /** Once the running worker has sent, everything sent so far has been passed to the peer. */
  lemma WorkerPassesAll(steps: seq<Step>)
    requires var s := Run(Initial(), steps); s.worker == Running && !s.joined
    ensures var s := Run(Initial(), steps);
            Next(s, WorkerSends).passed == s.sent && Next(s, WorkerSends).packets == []
  {
    SentOnce(steps);
    var s := Run(Initial(), steps);
    assert s.passed + [] + s.packets == s.passed + s.packets;
  }

  /**
   Disconnecting ends: from every reachable state the order to disconnect, the
   worker's start if that is still to come, its end and the cleanup can follow,
   and then the call has returned.
   */
  lemma DisconnectCompletes(steps: seq<Step>)
    ensures var ordered := Next(Next(Run(Initial(), steps), BeginDisconnect), WorkerStarts(true));
            var s := Next(Next(Next(ordered, WorkerAsksToLeave), WorkerTimesOut), FinishDisconnect);
            s.joined && !s.waiting && !s.isConnected && s.packets == [] && s.events == []
  {
    InitialInv();
    RunKeeps(Initial(), steps);
    WorkerEnds(Run(Initial(), steps));
  }

  lemma WorkerEnds(s: Client)
    requires ThreadInv(s)
    ensures var s' := Next(Next(Next(Next(s, BeginDisconnect), WorkerStarts(true)), WorkerAsksToLeave), WorkerTimesOut);
            s'.waiting && s'.worker == Ended && !s'.isConnected
  {
    var ordered := Next(Next(s, BeginDisconnect), WorkerStarts(true));
    QuietThread(s, BeginDisconnect);
    assert ordered.waiting && (ordered.joined || ordered.exit) && ordered.worker != Starting;
  }

  /** While the worker is in its loop, what the peer does is queued in order: its connect once, then what it sends, and its disconnect. */
  lemma ReportsAreQueued(s: Client)
    requires s.worker == Running || s.worker == Leaving
    ensures Next(s, CapturesConnect).events == if s.greeted then s.events else s.events + [Connect]
    ensures Next(s, CapturesReceive).events == if s.greeted then s.events + [Receive(s.nextPacket)] else s.events
    ensures Next(s, CapturesDisconnect).events == s.events + [Disconnect] && !Next(s, CapturesDisconnect).isConnected
    ensures Next(s, CapturesDisconnect).worker == Ended
  {
  }

  /** With nothing left of the last batch, the game takes everything queued. */
  lemma TakesEverything(s: Client)
    requires !s.waiting && s.batch == []
    ensures Next(s, TakeBatch).batch == s.events && Next(s, TakeBatch).events == []
  {
  }
}
