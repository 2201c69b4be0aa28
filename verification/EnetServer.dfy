/**
 The threaded server of the network library, as atomic steps of its worker
 thread and of the game thread with the histories both leave behind. A client
 object is known by its uid, which is fresh for each; a received packet by a
 number fresh for each.
 */
module EnetServer {
  import opened Wrappers

  datatype Event = Connect(client: nat) | Receive(client: nat, packet: nat) | Disconnect(client: nat)

  /** A queued outgoing packet. */
  datatype Out = Out(client: nat, body: int)

  /**
   The worker has `data` (the client of each peer), `peerOf` (its inverse, the
   thread peer map), `up` (peers in the connected state) and two counters. The
   threads share `packets` and `events`. The game thread has `batch` and
   `connected`. The rest is history: events enqueued and handled, client objects
   deleted, received packets destroyed; each send as a group, the clients that
   could be reached when a group was drained, and what was handed to the peers.
   */
  datatype Server = Server(
    nextClient: nat,
    nextPacket: nat,
    data: map<nat, nat>,
    peerOf: map<nat, nat>,
    up: set<nat>,
    running: bool,
    exit: bool,
    stopped: bool,
    packets: seq<Out>,
    events: seq<Event>,
    batch: seq<Event>,
    connected: seq<nat>,
    enqueued: seq<Event>,
    handled: seq<Event>,
    deleted: seq<nat>,
    destroyed: seq<nat>,
    groups: seq<seq<Out>>,
    reach: seq<set<nat>>,
    handed: seq<Out>)

  datatype Step =
    | PeerConnects(peer: nat)
    | PeerSends(peer: nat)
    | PeerLeaves(peer: nat)
    | PeerState(peer: nat, isUp: bool)
    | WorkerSends
    | WorkerExits
    | HostFails
    | TakeBatch
    | HandleEvent
    | SendTo(client: nat, body: int)
    | SendToAllIf(chosen: set<nat>, body: int)
    | StopListening
    | FinishStopping

  function Initial(): Server {
    Server(0, 0, map[], map[], {}, true, false, false, [], [], [], [], [], [], [], [], [], [], [])
  }

  // ----- the worker -----

  function Enqueue(s: Server, e: Event): Server { s.(events := s.events + [e], enqueued := s.enqueued + [e]) }

  /** A new client object is allocated for the peer at once, in this thread. */
  function Mapped(s: Server, peer: nat): Server {
    var c := s.nextClient;
    s.(nextClient := c + 1, data := s.data[peer := c], peerOf := s.peerOf[c := peer], up := s.up + {peer})
  }

  function HandleConnect(s: Server, peer: nat): Server { Enqueue(Mapped(s, peer), Connect(s.nextClient)) }

  function HandleReceive(s: Server, peer: nat): Server {
    if peer !in s.data then s
    else Enqueue(s.(nextPacket := s.nextPacket + 1), Receive(s.data[peer], s.nextPacket))
  }

  function HandleDisconnect(s: Server, peer: nat): Server {
    if peer !in s.data then s
    else
      var c := s.data[peer];
      Enqueue(s.(data := s.data - {peer}, peerOf := s.peerOf - {c}, up := s.up - {peer}), Disconnect(c))
  }

  /** The clients whose peer is mapped and in the connected state. */
  function Reachable(s: Server): set<nat> { set c | c in s.peerOf && s.peerOf[c] in s.up }

  function Kept(ps: seq<Out>, reach: set<nat>): seq<Out> {
    if ps == [] then [] else (if ps[0].client in reach then [ps[0]] else []) + Kept(ps[1..], reach)
  }

  function Repeated<T>(n: nat, x: T): seq<T> { seq(n, i => x) }

  /** Drains the packet queue under its lock. */
  function SendQueued(s: Server): Server {
    s.(packets := [], handed := s.handed + Kept(s.packets, Reachable(s)),
       reach := s.reach + Repeated(if |s.reach| <= |s.groups| then |s.groups| - |s.reach| else 0, Reachable(s)))
  }

  /** Disconnects every peer without any event, and ends. */
  function Exit(s: Server): Server { s.(data := map[], peerOf := map[], up := {}, running := false) }

  // ----- the game thread -----

  function IndexOf(x: nat, xs: seq<nat>): (i: nat)
    ensures i <= |xs| && (i < |xs| ==> xs[i] == x) && (forall j :: 0 <= j < i ==> xs[j] != x)
  {
    if xs == [] || xs[0] == x then 0 else 1 + IndexOf(x, xs[1..])
  }

  /** The sequence without the first occurrence of a value. */
  function Erased(xs: seq<nat>, x: nat): seq<nat> {
    var i := IndexOf(x, xs);
    if i < |xs| then xs[..i] + xs[i + 1..] else xs
  }

  /** Handles the front of the batch: the callback, and what the library does around it. */
  function HandleFront(s: Server): Server
    requires s.batch != []
  {
    var e := s.batch[0];
    var s1 := s.(batch := s.batch[1..], handled := s.handled + [e]);
    match e
    case Connect(c) => s1.(connected := s1.connected + [c])
    case Disconnect(c) => s1.(connected := Erased(s1.connected, c), deleted := s1.deleted + [c])
    case Receive(_, p) => s1.(destroyed := s1.destroyed + [p])
  }

  function QueueGroup(s: Server, group: seq<Out>): Server {
    s.(packets := s.packets + group, groups := s.groups + [group])
  }

  /** One packet for each connected client that is chosen. */
  function Broadcast(connected: seq<nat>, chosen: set<nat>, body: int): seq<Out> {
    if connected == [] then []
    else (if connected[0] in chosen then [Out(connected[0], body)] else []) + Broadcast(connected[1..], chosen, body)
  }

  /** Clients whose connect event was never handled. */
  function Unhandled(es: seq<Event>): seq<nat> {
    if es == [] then [] else (if es[0].Connect? then [es[0].client] else []) + Unhandled(es[1..])
  }

  function PacketOf(e: Event): seq<nat> { if e.Receive? then [e.packet] else [] }

  /** The packets received, in order. */
  function Packets(es: seq<Event>): seq<nat> { Gathered(PacketOf, es) }

  function QueuesDestroyed(s: Server): Server {
    s.(packets := [], events := [], deleted := s.deleted + Unhandled(s.events), destroyed := s.destroyed + Packets(s.events))
  }

  /** The cleanup once the worker has ended. */
  function Cleanup(s: Server): Server {
    var s1 := QueuesDestroyed(s);
    s1.(deleted := s1.deleted + s1.connected, connected := [], stopped := true)
  }

  /** The game thread may run: it is not waiting for the worker to end. */
  predicate Playing(s: Server) { !s.exit }

  /** One atomic step; the peers follow the network library's contract for each of them. */
  function Next(s: Server, step: Step): Server {
    match step
    case PeerConnects(peer) => if s.running && peer !in s.data then HandleConnect(s, peer) else s
    case PeerSends(peer) => if s.running then HandleReceive(s, peer) else s
    case PeerLeaves(peer) => if s.running then HandleDisconnect(s, peer) else s
    case PeerState(peer, isUp) => s.(up := if isUp then s.up + {peer} else s.up - {peer})
    case WorkerSends => if s.running then SendQueued(s) else s
    case WorkerExits => if s.running && s.exit then Exit(s) else s
    case HostFails => if s.nextClient == 0 then s.(running := false) else s
    case TakeBatch => if Playing(s) && s.batch == [] then s.(batch := s.events, events := []) else s
    case HandleEvent => if Playing(s) && s.batch != [] then HandleFront(s) else s
    case SendTo(client, body) => if Playing(s) then QueueGroup(s, [Out(client, body)]) else s
    case SendToAllIf(chosen, body) => if Playing(s) then QueueGroup(s, Broadcast(s.connected, chosen, body)) else s
    case StopListening => if s.batch == [] then s.(exit := true) else s
    case FinishStopping => if s.exit && !s.running && !s.stopped then Cleanup(s) else s
  }

  function Run(s: Server, steps: seq<Step>): Server
    decreases |steps|
  {
    if steps == [] then s else Run(Next(s, steps[0]), steps[1..])
  }

  // ----- the life of one client in a sequence of events -----

  datatype Life = Unborn | Live | Gone

  function LifeAfter(life: Life, e: Event, c: nat): Life {
    if e.client != c then life else if e.Connect? then Live else if e.Disconnect? then Gone else life
  }

  function LifeOf(es: seq<Event>, c: nat): Life {
    if es == [] then Unborn else LifeAfter(LifeOf(es[..|es| - 1], c), es[|es| - 1], c)
  }

  /** The event may come next: a connect for a client not seen, anything else for a live one. */
  predicate Allowed(es: seq<Event>, e: Event) {
    LifeOf(es, e.client) == if e.Connect? then Unborn else Live
  }

  predicate Lawful(es: seq<Event>) {
    es == [] || (Lawful(es[..|es| - 1]) && Allowed(es[..|es| - 1], es[|es| - 1]))
  }

  /** The events of one client. */
  function Of(es: seq<Event>, c: nat): seq<Event> {
    if es == [] then [] else Of(es[..|es| - 1], c) + if es[|es| - 1].client == c then [es[|es| - 1]] else []
  }

  predicate AllReceive(es: seq<Event>) { forall i :: 0 <= i < |es| ==> es[i].Receive? }

  /** A prefix of: one connect, any number of receives, one disconnect. */
  predicate Grammar(es: seq<Event>) {
    || es == []
    || (es[0].Connect? && AllReceive(es[1..]))
    || (|es| >= 2 && es[0].Connect? && AllReceive(es[1..|es| - 1]) && es[|es| - 1].Disconnect?)
  }

  lemma SnocParts<T>(es: seq<T>, e: T)
    ensures (es + [e])[..|es + [e]| - 1] == es && (es + [e])[|es|] == e
  {
  }

  lemma {:induction false} LawfulShape(es: seq<Event>, c: nat)
    requires Lawful(es)
    ensures var p := Of(es, c);
            match LifeOf(es, c)
            case Unborn => p == []
            case Live => p != [] && p[0].Connect? && AllReceive(p[1..])
            case Gone => |p| >= 2 && p[0].Connect? && AllReceive(p[1..|p| - 1]) && p[|p| - 1].Disconnect?
  {
    if es != [] {
      var n := |es| - 1;
      LawfulShape(es[..n], c);
      var p, q := Of(es[..n], c), Of(es, c);
      if es[n].client != c {
        assert q == p;
      } else if p != [] {
        assert q[1..] == p[1..] + [es[n]];
        assert q[1..|q| - 1] == p[1..];
      }
    }
  }

  lemma {:induction false} LawfulPrefix(a: seq<Event>, b: seq<Event>)
    requires Lawful(a + b)
    ensures Lawful(a)
  {
    if b == [] {
      assert a + b == a;
    } else {
      assert (a + b)[..|a + b| - 1] == a + b[..|b| - 1];
      LawfulPrefix(a, b[..|b| - 1]);
    }
  }

  // ----- what handling a sequence of events leaves -----

  /** The clients connected after handling some events, in order. */
  function ConnectedAfter(es: seq<Event>): seq<nat> {
    if es == [] then []
    else
      var before, e := ConnectedAfter(es[..|es| - 1]), es[|es| - 1];
      if e.Connect? then before + [e.client] else if e.Disconnect? then Erased(before, e.client) else before
  }

  function DeletedAfter(es: seq<Event>): seq<nat> {
    if es == [] then []
    else DeletedAfter(es[..|es| - 1]) + if es[|es| - 1].Disconnect? then [es[|es| - 1].client] else []
  }

  /** Number of connect events for a client. */
  function Connects(es: seq<Event>, c: nat): nat {
    if es == [] then 0 else Connects(es[..|es| - 1], c) + if es[|es| - 1] == Connect(c) then 1 else 0
  }

  lemma ErasedCount(xs: seq<nat>, x: nat, c: nat)
    requires x in xs
    ensures multiset(Erased(xs, x))[c] == multiset(xs)[c] - if c == x then 1 else 0
  {
    var i := IndexOf(x, xs);
    assert xs == xs[..i] + [xs[i]] + xs[i + 1..];
    assert multiset(xs) == multiset(xs[..i]) + multiset{x} + multiset(xs[i + 1..]);
    assert multiset(Erased(xs, x)) == multiset(xs[..i]) + multiset(xs[i + 1..]);
  }

  /** The connected clients are exactly the live ones, each once; the deleted exactly the gone ones, each once. */
  lemma {:induction false} ConnectedIsLive(es: seq<Event>, c: nat)
    requires Lawful(es)
    ensures multiset(ConnectedAfter(es))[c] == if LifeOf(es, c) == Live then 1 else 0
    ensures multiset(DeletedAfter(es))[c] == if LifeOf(es, c) == Gone then 1 else 0
    ensures Connects(es, c) == if LifeOf(es, c) == Unborn then 0 else 1
  {
    if es != [] {
      var n := |es| - 1;
      var e := es[n];
      ConnectedIsLive(es[..n], c);
      if e.Disconnect? {
        ConnectedIsLive(es[..n], e.client);
        ErasedCount(ConnectedAfter(es[..n]), e.client, c);
      }
    }
  }

  lemma {:induction false} ConnectsConcat(a: seq<Event>, b: seq<Event>, c: nat)
    ensures Connects(a + b, c) == Connects(a, c) + Connects(b, c)
  {
    if b == [] {
      assert a + b == a;
    } else {
      assert (a + b)[..|a + b| - 1] == a + b[..|b| - 1];
      ConnectsConcat(a, b[..|b| - 1], c);
    }
  }

  lemma {:induction false} UnhandledCount(es: seq<Event>, c: nat)
    ensures multiset(Unhandled(es))[c] == Connects(es, c)
    decreases |es|
  {
    if es != [] {
      UnhandledCount(es[1..], c);
      assert es == [es[0]] + es[1..];
      ConnectsConcat([es[0]], es[1..], c);
      assert [es[0]][..0] == [];
    }
  }

  // ----- the invariant -----

  /** The two maps of the worker are inverse to each other. */
  predicate MapsAgree(s: Server) {
    && (forall p :: p in s.data ==> s.data[p] in s.peerOf && s.peerOf[s.data[p]] == p)
    && (forall c :: c in s.peerOf ==> s.peerOf[c] in s.data && s.data[s.peerOf[c]] == c)
  }

  /** What the worker has enqueued: lawful, and consistent with its counters and map. */
  ghost predicate WorkerInv(s: Server) {
    && Lawful(s.enqueued) && MapsAgree(s)
    && (forall c: nat :: LifeOf(s.enqueued, c) == Unborn <==> c >= s.nextClient)
    && (s.running ==> forall c: nat :: LifeOf(s.enqueued, c) == Live <==> c in s.peerOf)
    && Packets(s.enqueued) == seq(s.nextPacket, i => i)
  }

  /** The game thread is part way through what the worker has enqueued. */
  predicate GameInv(s: Server) {
    if s.stopped then s.exit && !s.running && s.batch == []
    else
      && s.handled + s.batch + s.events == s.enqueued
      && s.connected == ConnectedAfter(s.handled)
      && s.deleted == DeletedAfter(s.handled)
      && s.destroyed == Packets(s.handled)
      && (s.exit ==> s.batch == [])
  }

  function Flatten(groups: seq<seq<Out>>): seq<Out> {
    if groups == [] then [] else Flatten(groups[..|groups| - 1]) + groups[|groups| - 1]
  }

  /** What is handed over of some groups, each drained while the clients of its set could be reached. */
  function HandedOver(groups: seq<seq<Out>>, reach: seq<set<nat>>): seq<Out>
    requires |groups| == |reach|
  {
    if groups == [] then []
    else HandedOver(groups[..|groups| - 1], reach[..|reach| - 1]) + Kept(groups[|groups| - 1], reach[|reach| - 1])
  }

  predicate OutInv(s: Server) {
    var n := |s.reach|;
    && n <= |s.groups|
    && (!s.stopped ==> s.packets == Flatten(s.groups[n..]))
    && s.handed == HandedOver(s.groups[..n], s.reach)
  }

  ghost predicate Inv(s: Server) { WorkerInv(s) && GameInv(s) && OutInv(s) }

  // ----- each step keeps it -----

  lemma EnqueueLawful(es: seq<Event>, e: Event, c: nat)
    requires Lawful(es) && Allowed(es, e)
    ensures Lawful(es + [e]) && LifeOf(es + [e], c) == LifeAfter(LifeOf(es, c), e, c)
  {
    SnocParts(es, e);
  }

  /** The worker part when an event is enqueued. */
  lemma EnqueueGame(s: Server, s': Server, e: Event)
    requires GameInv(s) && !s.stopped
    requires s' == s.(nextClient := s'.nextClient, nextPacket := s'.nextPacket, data := s'.data, peerOf := s'.peerOf, up := s'.up,
                      events := s.events + [e], enqueued := s.enqueued + [e])
    ensures GameInv(s')
  {
    assert s.handled + s.batch + (s.events + [e]) == (s.handled + s.batch + s.events) + [e];
  }

  lemma ConnectKeeps(s: Server, peer: nat)
    requires Inv(s) && s.running && peer !in s.data
    ensures Inv(HandleConnect(s, peer))
  {
    var c := s.nextClient;
    var s' := HandleConnect(s, peer);
    var e := Connect(c);
    assert Allowed(s.enqueued, e);
    forall d: nat ensures LifeOf(s'.enqueued, d) == if d == c then Live else LifeOf(s.enqueued, d) {
      EnqueueLawful(s.enqueued, e, d);
    }
    EnqueueLawful(s.enqueued, e, c);
    GatheredOne(PacketOf, s.enqueued, e);
    assert c !in s.peerOf;
    EnqueueGame(s, s', e);
  }

  lemma ReceiveKeeps(s: Server, peer: nat)
    requires Inv(s) && s.running
    ensures Inv(HandleReceive(s, peer))
  {
    if peer in s.data {
      var c := s.data[peer];
      var s' := HandleReceive(s, peer);
      var e := Receive(c, s.nextPacket);
      assert LifeOf(s.enqueued, c) == Live;
      forall d: nat ensures LifeOf(s'.enqueued, d) == LifeOf(s.enqueued, d) {
        EnqueueLawful(s.enqueued, e, d);
      }
      EnqueueLawful(s.enqueued, e, c);
      GatheredOne(PacketOf, s.enqueued, e);
      assert seq(s.nextPacket + 1, i => i) == seq(s.nextPacket, i => i) + [s.nextPacket];
      EnqueueGame(s, s', e);
    }
  }

  lemma DisconnectKeeps(s: Server, peer: nat)
    requires Inv(s) && s.running
    ensures Inv(HandleDisconnect(s, peer))
  {
    if peer in s.data {
      var c := s.data[peer];
      var s' := HandleDisconnect(s, peer);
      var e := Disconnect(c);
      assert LifeOf(s.enqueued, c) == Live;
      forall d: nat ensures LifeOf(s'.enqueued, d) == if d == c then Gone else LifeOf(s.enqueued, d) {
        EnqueueLawful(s.enqueued, e, d);
      }
      EnqueueLawful(s.enqueued, e, c);
      GatheredOne(PacketOf, s.enqueued, e);
      EnqueueGame(s, s', e);
    }
  }

  lemma {:induction false} FlattenConcat(a: seq<seq<Out>>, b: seq<seq<Out>>)
    ensures Flatten(a + b) == Flatten(a) + Flatten(b)
  {
    if b == [] {
      assert a + b == a;
    } else {
      assert (a + b)[..|a + b| - 1] == a + b[..|b| - 1];
      FlattenConcat(a, b[..|b| - 1]);
    }
  }

  lemma {:induction false} KeptConcat(a: seq<Out>, b: seq<Out>, reach: set<nat>)
    ensures Kept(a + b, reach) == Kept(a, reach) + Kept(b, reach)
    decreases |a|
  {
    if a == [] {
      assert a + b == b;
    } else {
      assert (a + b)[1..] == a[1..] + b && (a + b)[0] == a[0];
      KeptConcat(a[1..], b, reach);
      var head := if a[0].client in reach then [a[0]] else [];
      assert head + (Kept(a[1..], reach) + Kept(b, reach)) == head + Kept(a[1..], reach) + Kept(b, reach);
    }
  }

  /** Draining some whole groups at once is handing over each of them. */
  lemma {:induction false} DrainedGroups(before: seq<seq<Out>>, reach: seq<set<nat>>, groups: seq<seq<Out>>, now: set<nat>)
    requires |before| == |reach|
    ensures HandedOver(before + groups, reach + Repeated(|groups|, now))
            == HandedOver(before, reach) + Kept(Flatten(groups), now)
    decreases |groups|
  {
    var n := |groups|;
    if groups == [] {
      assert before + groups == before && reach + Repeated(0, now) == reach;
    } else {
      var first, last := groups[..n - 1], groups[n - 1];
      DrainedGroups(before, reach, first, now);
      KeptConcat(Flatten(first), last, now);
      assert (before + groups)[..|before + groups| - 1] == before + first;
      var r := reach + Repeated(n, now);
      assert r[..|r| - 1] == reach + Repeated(n - 1, now);
    }
  }

  lemma SendKeeps(s: Server)
    requires Inv(s) && s.running
    ensures Inv(SendQueued(s))
  {
    var n, now := |s.reach|, Reachable(s);
    var s' := SendQueued(s);
    DrainedGroups(s.groups[..n], s.reach, s.groups[n..], now);
    assert s.groups[..n] + s.groups[n..] == s.groups;
    assert s'.groups[..|s'.reach|] == s.groups && s'.groups[|s'.reach|..] == [];
  }

  lemma GroupKeeps(s: Server, group: seq<Out>)
    requires Inv(s)
    ensures Inv(QueueGroup(s, group))
  {
    var n := |s.reach|;
    var s' := QueueGroup(s, group);
    assert s'.groups[..n] == s.groups[..n];
    assert s'.groups[n..] == s.groups[n..] + [group];
    FlattenConcat(s.groups[n..], [group]);
    assert [group][..0] == [];
  }

  /** The event at the front of the batch may come next after those handled. */
  lemma FrontAllowed(s: Server)
    requires Inv(s) && !s.stopped && s.batch != []
    ensures Lawful(s.handled + [s.batch[0]]) && Lawful(s.handled) && Allowed(s.handled, s.batch[0])
  {
    var e := s.batch[0];
    assert s.handled + s.batch + s.events == (s.handled + [e]) + (s.batch[1..] + s.events);
    LawfulPrefix(s.handled + [e], s.batch[1..] + s.events);
    SnocParts(s.handled, e);
  }

  lemma HandleGame(s: Server, e: Event, rest: seq<Event>)
    requires GameInv(s) && !s.stopped && s.batch == [e] + rest
    ensures GameInv(HandleFront(s))
  {
    var s' := HandleFront(s);
    assert s.batch[1..] == rest;
    MoveFront(s.handled, e, rest, s.events);
    SnocParts(s.handled, e);
    GatheredOne(PacketOf, s.handled, e);
    HandledParts(s, s', e);
  }

  lemma MoveFront<T>(a: seq<T>, e: T, rest: seq<T>, c: seq<T>)
    ensures a + ([e] + rest) + c == (a + [e]) + rest + c
  {
  }

  lemma HandledParts(s: Server, s': Server, e: Event)
    requires GameInv(s) && !s.stopped && s.batch != [] && s.batch[0] == e && s' == HandleFront(s)
    requires s'.handled + s'.batch + s'.events == s.enqueued
    requires ConnectedAfter(s'.handled) ==
             (match e case Connect(c) => s.connected + [c] case Disconnect(c) => Erased(s.connected, c) case Receive(_, _) => s.connected)
    requires DeletedAfter(s'.handled) == s.deleted + (if e.Disconnect? then [e.client] else [])
    requires Packets(s'.handled) == s.destroyed + if e.Receive? then [e.packet] else []
    ensures GameInv(s')
  {
  }

  /** The game thread does not touch what the worker and the sends keep. */
  lemma GameLeavesWorker(s: Server, s': Server)
    requires WorkerInv(s) && OutInv(s)
    requires s' == s.(batch := s'.batch, handled := s'.handled, connected := s'.connected, deleted := s'.deleted, destroyed := s'.destroyed)
    ensures WorkerInv(s') && OutInv(s')
  {
  }

  lemma HandleKeeps(s: Server)
    requires Inv(s) && !s.stopped && s.batch != []
    ensures Inv(HandleFront(s))
  {
    assert s.batch == [s.batch[0]] + s.batch[1..];
    HandleGame(s, s.batch[0], s.batch[1..]);
    FrontFields(s);
    GameLeavesWorker(s, HandleFront(s));
  }

  lemma FrontFields(s: Server)
    requires s.batch != []
    ensures var s' := HandleFront(s);
            s' == s.(batch := s'.batch, handled := s'.handled, connected := s'.connected, deleted := s'.deleted, destroyed := s'.destroyed)
  {
  }

  lemma TakeKeeps(s: Server)
    requires Inv(s) && !s.exit && s.batch == []
    ensures Inv(s.(batch := s.events, events := []))
  {
    assert s.handled + s.batch + s.events == s.handled + s.events + [];
  }

  lemma StepKeeps(s: Server, step: Step)
    requires Inv(s)
    ensures Inv(Next(s, step))
  {
    match step
    case PeerConnects(peer) =>
      if s.running && peer !in s.data { ConnectKeeps(s, peer); }
    case PeerSends(peer) =>
      if s.running { ReceiveKeeps(s, peer); }
    case PeerLeaves(peer) =>
      if s.running { DisconnectKeeps(s, peer); }
    case PeerState(_, _) =>
    case WorkerSends =>
      if s.running { SendKeeps(s); }
    case WorkerExits =>
    case HostFails =>
    case TakeBatch =>
      if Playing(s) && s.batch == [] { TakeKeeps(s); }
    case HandleEvent =>
      if Playing(s) && s.batch != [] { HandleKeeps(s); }
    case SendTo(client, body) =>
      GroupKeeps(s, [Out(client, body)]);
    case SendToAllIf(chosen, body) =>
      GroupKeeps(s, Broadcast(s.connected, chosen, body));
    case StopListening =>
    case FinishStopping =>
  }

  lemma InitialInv()
    ensures Inv(Initial())
  {
    var s := Initial();
    assert s.groups[..0] == [] && s.groups[0..] == [];
    assert seq(0, i => i) == [];
  }

  lemma {:induction false} RunKeeps(s: Server, steps: seq<Step>)
    requires Inv(s)
    ensures Inv(Run(s, steps))
    decreases |steps|
  {
    if steps != [] {
      StepKeeps(s, steps[0]);
      RunKeeps(Next(s, steps[0]), steps[1..]);
    }
  }

  // ----- what that means for every interleaving -----

  /** The callbacks, with the batch and the queue still to come, are exactly what the worker enqueued, in its order. */
  lemma HandledInOrder(steps: seq<Step>)
    ensures var s := Run(Initial(), steps);
            !s.stopped ==> s.handled + s.batch + s.events == s.enqueued
  {
    InitialInv();
    RunKeeps(Initial(), steps);
  }

  /**
   The callbacks delivered for one client are always a prefix of one connect,
   receives, and one disconnect; and so is everything enqueued for it.
   */
  lemma EventGrammar(steps: seq<Step>, c: nat)
    ensures var s := Run(Initial(), steps);
            Grammar(Of(s.enqueued, c)) && (!s.stopped ==> Grammar(Of(s.handled, c)))
  {
    InitialInv();
    RunKeeps(Initial(), steps);
    var s := Run(Initial(), steps);
    LawfulGrammar(s.enqueued, c);
    if !s.stopped {
      HandledLawful(s);
      LawfulGrammar(s.handled, c);
    }
  }

  lemma LawfulGrammar(es: seq<Event>, c: nat)
    requires Lawful(es)
    ensures Grammar(Of(es, c))
  {
    LawfulShape(es, c);
  }

  lemma HandledLawful(s: Server)
    requires Inv(s) && !s.stopped
    ensures Lawful(s.handled)
  {
    assert s.enqueued == s.handled + (s.batch + s.events);
    LawfulPrefix(s.handled, s.batch + s.events);
  }

  /** While the server runs: a client is connected, once, exactly when its connect has been handled and its disconnect has not. */
  lemma ConnectedExactly(steps: seq<Step>, c: nat)
    requires !Run(Initial(), steps).stopped
    ensures var s := Run(Initial(), steps);
            && multiset(s.connected)[c] == (if Connect(c) in s.handled && Disconnect(c) !in s.handled then 1 else 0)
            && multiset(s.deleted)[c] == (if Disconnect(c) in s.handled then 1 else 0)
  {
    InitialInv();
    RunKeeps(Initial(), steps);
    var s := Run(Initial(), steps);
    HandledLawful(s);
    ConnectedIsLive(s.handled, c);
    LifeSeen(s.handled, c);
  }

  lemma {:induction false} LifeSeen(es: seq<Event>, c: nat)
    requires Lawful(es)
    ensures LifeOf(es, c) != Unborn <==> Connect(c) in es
    ensures LifeOf(es, c) == Gone <==> Disconnect(c) in es
  {
    if es != [] {
      var n := |es| - 1;
      LifeSeen(es[..n], c);
      assert es == es[..n] + [es[n]];
    }
  }

  /**
   The assertions the code makes hold in every reachable state: a disconnecting
   client is among the connected; a leaving peer's client is mapped back to that
   peer; and no event is handled for a client object that is already deleted.
   */
  lemma AssertionsHold(steps: seq<Step>, peer: nat)
    ensures var s := Run(Initial(), steps);
            && (peer in s.data ==> s.data[peer] in s.peerOf && s.peerOf[s.data[peer]] == peer)
            && (!s.stopped && s.batch != [] ==>
                  && s.batch[0].client !in s.deleted
                  && (!s.batch[0].Connect? ==> s.batch[0].client in s.connected))
  {
    InitialInv();
    RunKeeps(Initial(), steps);
    var s := Run(Initial(), steps);
    if !s.stopped && s.batch != [] {
      var c := s.batch[0].client;
      FrontAllowed(s);
      ConnectedIsLive(s.handled, c);
      assert multiset(s.deleted)[c] == 0;
      assert c in s.deleted ==> c in multiset(s.deleted);
    }
  }

  /**
   Exactly-once ownership: when a run ends in the cleanup of a stop, every
   client object ever allocated has been deleted exactly once, nothing else has,
   and the packets destroyed are exactly those received, each once, in order.
   */
  lemma OwnedOnce(steps: seq<Step>, c: nat)
    requires var s := Run(Initial(), steps); s.exit && !s.running && !s.stopped
    ensures var s := Next(Run(Initial(), steps), FinishStopping);
            && s.stopped
            && multiset(s.deleted)[c] == (if c < s.nextClient then 1 else 0)
            && s.destroyed == seq(s.nextPacket, i => i)
            && s.packets == [] && s.events == [] && s.batch == [] && s.connected == []
  {
    InitialInv();
    RunKeeps(Initial(), steps);
    Finished(Run(Initial(), steps), c);
  }

  lemma Finished(s: Server, c: nat)
    requires Inv(s) && s.exit && !s.running && !s.stopped
    ensures var s' := Next(s, FinishStopping);
            && s'.stopped
            && multiset(s'.deleted)[c] == (if c < s'.nextClient then 1 else 0)
            && s'.destroyed == seq(s'.nextPacket, i => i)
            && s'.packets == [] && s'.events == [] && s'.batch == [] && s'.connected == []
  {
    CleanedUp(s, c);
  }

  lemma CleanedUp(s: Server, c: nat)
    requires Inv(s) && s.exit && !s.stopped
    ensures multiset(Cleanup(s).deleted)[c] == (if c < s.nextClient then 1 else 0)
    ensures Cleanup(s).destroyed == seq(s.nextPacket, i => i)
    ensures Cleanup(s).batch == []
  {
    assert s.handled + s.batch + s.events == s.handled + s.events;
    CleanupDeletes(s, c);
    GatheredConcat(PacketOf, s.handled, s.events);
  }

  lemma CleanupDeletes(s: Server, c: nat)
    requires WorkerInv(s) && s.enqueued == s.handled + s.events
    requires s.connected == ConnectedAfter(s.handled) && s.deleted == DeletedAfter(s.handled)
    ensures multiset(Cleanup(s).deleted)[c] == if c < s.nextClient then 1 else 0
  {
    LawfulPrefix(s.handled, s.events);
    ConnectedIsLive(s.handled, c);
    ConnectedIsLive(s.enqueued, c);
    ConnectsConcat(s.handled, s.events, c);
    UnhandledCount(s.events, c);
    assert multiset(s.deleted + Unhandled(s.events) + s.connected)
        == multiset(s.deleted) + multiset(Unhandled(s.events)) + multiset(s.connected);
  }

  /**
   Outgoing order: in every reachable state the packets handed over are, group by
   group in the order of the sends, exactly those whose client could be reached
   when that group was drained; a broadcast is never interleaved with anything.
   */
  lemma HandedInOrder(steps: seq<Step>)
    ensures var s := Run(Initial(), steps);
            var n := |s.reach|;
            && n <= |s.groups|
            && s.handed == HandedOver(s.groups[..n], s.reach)
            && (!s.stopped ==> s.packets == Flatten(s.groups[n..]))
  {
    InitialInv();
    RunKeeps(Initial(), steps);
  }

  // ----- per client -----

  function OutOf(ps: seq<Out>, c: nat): seq<Out> {
    if ps == [] then [] else (if ps[0].client == c then [ps[0]] else []) + OutOf(ps[1..], c)
  }

  /** For one client: of each group, everything if it could be reached and nothing if not. */
  function HandedTo(groups: seq<seq<Out>>, reach: seq<set<nat>>, c: nat): seq<Out>
    requires |groups| == |reach|
  {
    if groups == [] then []
    else
      var n := |groups| - 1;
      HandedTo(groups[..n], reach[..n], c) + if c in reach[n] then OutOf(groups[n], c) else []
  }

  lemma {:induction false} KeptFor(ps: seq<Out>, reach: set<nat>, c: nat)
    ensures OutOf(Kept(ps, reach), c) == if c in reach then OutOf(ps, c) else []
    decreases |ps|
  {
    if ps != [] {
      KeptFor(ps[1..], reach, c);
      OutOfConcat(if ps[0].client in reach then [ps[0]] else [], Kept(ps[1..], reach), c);
      assert [ps[0]][1..] == [];
    }
  }

  lemma {:induction false} OutOfConcat(a: seq<Out>, b: seq<Out>, c: nat)
    ensures OutOf(a + b, c) == OutOf(a, c) + OutOf(b, c)
    decreases |a|
  {
    if a == [] {
      assert a + b == b;
    } else {
      assert (a + b)[1..] == a[1..] + b && (a + b)[0] == a[0];
      OutOfConcat(a[1..], b, c);
      var head := if a[0].client == c then [a[0]] else [];
      assert head + (OutOf(a[1..], c) + OutOf(b, c)) == head + OutOf(a[1..], c) + OutOf(b, c);
    }
  }

  lemma {:induction false} HandedOverFor(groups: seq<seq<Out>>, reach: seq<set<nat>>, c: nat)
    requires |groups| == |reach|
    ensures OutOf(HandedOver(groups, reach), c) == HandedTo(groups, reach, c)
    decreases |groups|
  {
    if groups != [] {
      var n := |groups| - 1;
      HandedOverFor(groups[..n], reach[..n], c);
      OutOfConcat(HandedOver(groups[..n], reach[..n]), Kept(groups[n], reach[n]), c);
      KeptFor(groups[n], reach[n], c);
    }
  }

  /** A client is handed, in the order they were sent, all packets of the sends drained while it could be reached. */
  lemma HandedToClient(steps: seq<Step>, c: nat)
    ensures var s := Run(Initial(), steps);
            |s.reach| <= |s.groups| && OutOf(s.handed, c) == HandedTo(s.groups[..|s.reach|], s.reach, c)
  {
    HandedInOrder(steps);
    var s := Run(Initial(), steps);
    HandedOverFor(s.groups[..|s.reach|], s.reach, c);
  }

  // ----- what the two kinds of send mean -----

  lemma {:induction false} KeptFiltered(ps: seq<Out>, reach: set<nat>, keep: Out -> bool)
    requires forall p :: keep(p) <==> p.client in reach
    ensures Kept(ps, reach) == Filtered(keep, ps)
  {
    if ps != [] {
      KeptFiltered(ps[1..], reach, keep);
    }
  }

  lemma SendQueuedHands(s: Server)
    ensures SendQueued(s).handed == s.handed + Filtered((p: Out) => p.client in s.peerOf && s.peerOf[p.client] in s.up, s.packets)
  {
    KeptFiltered(s.packets, Reachable(s), (p: Out) => p.client in s.peerOf && s.peerOf[p.client] in s.up);
  }

  /**
   The worker hands over, in order, exactly the queued packets whose client has
   a peer in the connected state, and leaves nothing queued.
   */
  lemma HandsToConnectedPeers(s: Server)
    requires s.running
    ensures var s' := Next(s, WorkerSends);
            && s'.handed == s.handed + Filtered((p: Out) => p.client in s.peerOf && s.peerOf[p.client] in s.up, s.packets)
            && s'.packets == [] && s'.events == s.events
  {
    SendQueuedHands(s);
  }

  /** The same packet for each of some clients. */
  function Addressed(to: seq<nat>, body: int): seq<Out> { seq(|to|, i requires 0 <= i < |to| => Out(to[i], body)) }

  lemma {:induction false} BroadcastTo(connected: seq<nat>, chosen: set<nat>, body: int, keep: nat -> bool)
    requires forall c :: keep(c) <==> c in chosen
    ensures Broadcast(connected, chosen, body) == Addressed(Filtered(keep, connected), body)
  {
    if connected != [] {
      BroadcastTo(connected[1..], chosen, body, keep);
    }
  }

  lemma {:induction false} OutOfAddressed(to: seq<nat>, body: int, c: nat)
    ensures OutOf(Addressed(to, body), c) == Repeated(multiset(to)[c], Out(c, body))
  {
    if to != [] {
      assert Addressed(to, body)[1..] == Addressed(to[1..], body);
      assert to == [to[0]] + to[1..];
      OutOfAddressed(to[1..], body, c);
    }
  }

  lemma OneForEach(connected: seq<nat>, chosen: set<nat>, body: int, c: nat, keep: nat -> bool)
    requires multiset(connected)[c] <= 1 && (keep(c) <==> c in chosen)
    ensures OutOf(Addressed(Filtered(keep, connected), body), c) == if c in connected && c in chosen then [Out(c, body)] else []
  {
    FilteredCount(keep, connected, c);
    OutOfAddressed(Filtered(keep, connected), body, c);
    assert c in connected <==> multiset(connected)[c] > 0;
  }

  /**
   A broadcast queues one packet for each client that is connected and chosen,
   in the order in which they connected, and nothing for anybody else.
   */
  lemma BroadcastReaches(steps: seq<Step>, chosen: set<nat>, body: int, c: nat)
    requires !Run(Initial(), steps).exit
    ensures var s := Run(Initial(), steps);
            var news := Addressed(Filtered((c: nat) => c in chosen, s.connected), body);
            && Next(s, SendToAllIf(chosen, body)).packets == s.packets + news
            && OutOf(news, c) == if c in s.connected && c in chosen then [Out(c, body)] else []
  {
    var s := Run(Initial(), steps);
    BroadcastTo(s.connected, chosen, body, (c: nat) => c in chosen);
    NotStopped(steps);
    ConnectedExactly(steps, c);
    OneForEach(s.connected, chosen, body, c, (c: nat) => c in chosen);
  }

  lemma NotStopped(steps: seq<Step>)
    ensures !Run(Initial(), steps).exit ==> !Run(Initial(), steps).stopped
  {
    InitialInv();
    RunKeeps(Initial(), steps);
  }

  /** A packet for one client is queued behind the others, unless the server is stopping. */
  lemma SendQueuesOne(s: Server, client: nat, body: int)
    ensures Next(s, SendTo(client, body)).packets == if s.exit then s.packets else s.packets + [Out(client, body)]
  {
  }

  /** With nothing left of the last batch, the game takes everything queued, unless the server is stopping. */
  lemma TakesEverything(s: Server)
    requires !s.exit && s.batch == []
    ensures Next(s, TakeBatch).batch == s.events && Next(s, TakeBatch).events == []
  {
  }

  /** A worker that has ended has forgotten every peer. */
  lemma EndedForgets(steps: seq<Step>)
    ensures var s := Run(Initial(), steps); s.running || (s.data == map[] && s.peerOf == map[])
  {
    InitialInv();
    RunForgets(Initial(), steps);
  }

  predicate Forgetful(s: Server) { s.running || (s.data == map[] && s.peerOf == map[]) }

  lemma {:induction false} RunForgets(s: Server, steps: seq<Step>)
    requires Inv(s) && Forgetful(s)
    ensures Forgetful(Run(s, steps))
    decreases |steps|
  {
    if steps != [] {
      StepKeeps(s, steps[0]);
      StepForgets(s, steps[0]);
      RunForgets(Next(s, steps[0]), steps[1..]);
    }
  }

  lemma StepForgets(s: Server, step: Step)
    requires Inv(s) && Forgetful(s)
    ensures Forgetful(Next(s, step))
  {
    if step.HostFails? && s.nextClient == 0 && s.running {
      NoPeersYet(s);
    }
  }

  lemma NoPeersYet(s: Server)
    requires Inv(s) && s.running && s.nextClient == 0
    ensures s.data == map[] && s.peerOf == map[]
  {
    forall c: nat ensures c !in s.peerOf {
      assert LifeOf(s.enqueued, c) == Unborn;
    }
    assert s.peerOf.Keys == {} && s.data.Keys == {};
  }

  // ----- every report of the network is queued -----

  /**
   While the worker runs, a peer that connects gets a client object nobody has
   had, found from the peer and back; what the peer sends and its leaving are
   queued for that client, behind everything queued before.
   */
  lemma ReportsAreQueued(steps: seq<Step>, peer: nat)
    requires Run(Initial(), steps).running
    ensures var s := Run(Initial(), steps);
            var sent, left := Next(s, PeerSends(peer)), Next(s, PeerLeaves(peer));
            if peer in s.data then
              && sent.events == s.events + [Receive(s.data[peer], s.nextPacket)]
              && left.events == s.events + [Disconnect(s.data[peer])] && peer !in left.data
              && (s.data[peer] in s.peerOf && s.peerOf[s.data[peer]] == peer) && s.data[peer] !in left.peerOf
            else
              var s' := Next(s, PeerConnects(peer));
              && sent == s && left == s
              && s'.events == s.events + [Connect(s.nextClient)] && Connect(s.nextClient) !in s.enqueued
              && peer in s'.data && s'.data[peer] == s.nextClient
              && s.nextClient in s'.peerOf && s'.peerOf[s.nextClient] == peer && peer in s'.up
  {
    InitialInv();
    RunKeeps(Initial(), steps);
    LifeSeen(Run(Initial(), steps).enqueued, Run(Initial(), steps).nextClient);
  }

  /**
   Stopping ends: from every reachable state in which nothing taken is still to be
   handled, the order to stop, the worker's end and the cleanup can follow, and
   then every client object ever allocated has been deleted exactly once.
   */
  lemma StopCompletes(steps: seq<Step>, c: nat)
    requires var s := Run(Initial(), steps); !s.stopped && s.batch == []
    ensures var s := Next(Next(Next(Run(Initial(), steps), StopListening), WorkerExits), FinishStopping);
            && s.stopped && s.connected == [] && s.destroyed == seq(s.nextPacket, i => i)
            && multiset(s.deleted)[c] == if c < s.nextClient then 1 else 0
  {
    InitialInv();
    RunKeeps(Initial(), steps);
    var s := Run(Initial(), steps);
    Halted(s);
    Finished(Next(Next(s, StopListening), WorkerExits), c);
  }

  lemma Halted(s: Server)
    requires Inv(s) && !s.stopped && s.batch == []
    ensures var s' := Next(Next(s, StopListening), WorkerExits);
            Inv(s') && s'.exit && !s'.running && !s'.stopped
  {
    StepKeeps(s, StopListening);
    StepKeeps(Next(s, StopListening), WorkerExits);
  }
}
