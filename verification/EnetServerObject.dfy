/**
 The server object, whose methods update its queues and maps in place: the
 worker's event handlers and sends, and the game thread's consumption, sends and
 cleanup. Each method is proved to take the step of module EnetServer it
 implements, and the assertions in the code are proved along the way.
 */
module EnetServerObject {
  import opened Wrappers
  import opened EnetServer

  class ServerObject {
    var nextClient: nat
    var nextPacket: nat
    var data: map<nat, nat>
    var peerOf: map<nat, nat>
    var up: set<nat>
    var running: bool
    var exit: bool
    var packets: seq<Out>
    var events: seq<Event>
    var batch: seq<Event>
    var connected: seq<nat>
    ghost var stopped: bool
    ghost var enqueued: seq<Event>
    ghost var handled: seq<Event>
    ghost var deleted: seq<nat>
    ghost var destroyed: seq<nat>
    ghost var groups: seq<seq<Out>>
    ghost var reach: seq<set<nat>>
    ghost var handed: seq<Out>

    ghost function Abs(): Server
      reads this
    {
      Server(nextClient, nextPacket, data, peerOf, up, running, exit, stopped, packets, events, batch, connected,
             enqueued, handled, deleted, destroyed, groups, reach, handed)
    }

    constructor ()
      ensures Abs() == Initial()
    {
      nextClient, nextPacket, data, peerOf, up := 0, 0, map[], map[], {};
      running, exit, stopped := true, false, false;
      packets, events, batch, connected := [], [], [], [];
      enqueued, handled, deleted, destroyed := [], [], [], [];
      groups, reach, handed := [], [], [];
    }

    // ----- the worker -----

    method EnqueueEvent(e: Event)
      modifies this`events, this`enqueued
      ensures Abs() == Enqueue(old(Abs()), e)
    {
      events := events + [e];
      enqueued := enqueued + [e];
    }

    /** Allocates a client object for the peer and maps it. */
    method MapPeer(peer: nat) returns (client: nat)
      modifies this`nextClient, this`data, this`peerOf, this`up
      ensures client == old(nextClient) && Abs() == Mapped(old(Abs()), peer)
    {
      client := nextClient;
      nextClient := nextClient + 1;
      data := data[peer := client];
      peerOf := peerOf[client := peer];
      up := up + {peer};
    }

    method HandleConnectEvent(peer: nat)
      requires peer !in data
      modifies this`nextClient, this`data, this`peerOf, this`up, this`events, this`enqueued
      ensures Abs() == HandleConnect(old(Abs()), peer)
    {
      var client := MapPeer(peer);
      EnqueueEvent(Connect(client));
    }

    method HandleReceiveEvent(peer: nat)
      modifies this
      ensures Abs() == HandleReceive(old(Abs()), peer)
    {
      if peer in data {
        var packet := nextPacket;
        nextPacket := nextPacket + 1;
        EnqueueEvent(Receive(data[peer], packet));
      }
    }

    method HandleDisconnectEvent(peer: nat)
      requires MapsAgree(Abs())
      modifies this
      ensures Abs() == HandleDisconnect(old(Abs()), peer)
    {
      if peer in data {
        var client := data[peer];
        assert client in peerOf && peerOf[client] == peer;
        data := data - {peer};
        peerOf := peerOf - {client};
        up := up - {peer};
        EnqueueEvent(Disconnect(client));
      }
    }

    /** Takes the packets off the queue and hands over those whose peer is mapped and connected. */
    method HandOver()
      modifies this`packets, this`handed
      ensures packets == [] && handed == old(handed) + Kept(old(packets), Reachable(old(Abs())))
    {
      ghost var now := Reachable(Abs());
      while packets != []
        invariant handed + Kept(packets, now) == old(handed) + Kept(old(packets), now)
        decreases |packets|
      {
        var front := packets[0];
        packets := packets[1..];
        if front.client in peerOf {
          if peerOf[front.client] in up {
            handed := handed + [front];
          }
        }
      }
      assert handed + Kept([], now) == handed;
    }

    method SendQueuedPackets()
      modifies this`packets, this`handed, this`reach
      ensures Abs() == SendQueued(old(Abs()))
      ensures var peers, states := old(peerOf), old(up);
              handed == old(handed) + Filtered((p: Out) => p.client in peers && peers[p.client] in states, old(packets))
    {
      ghost var s := Abs();
      HandOver();
      reach := reach + Repeated(if |reach| <= |groups| then |groups| - |reach| else 0, Reachable(s));
      SendQueuedHands(s);
    }

    method DisconnectAllPeers()
      modifies this`data, this`peerOf, this`up, this`running
      ensures Abs() == Exit(old(Abs()))
    {
      data, peerOf, up := map[], map[], {};
      running := false;
    }

    // ----- the game thread -----

    ghost method RecordGroup(group: seq<Out>)
      modifies this`groups
      ensures groups == old(groups) + [group]
    {
      groups := groups + [group];
    }

    method SendPacketTo(client: nat, body: int)
      modifies this`packets, this`groups
      ensures Abs() == QueueGroup(old(Abs()), [Out(client, body)])
      ensures packets == old(packets) + [Out(client, body)]
    {
      packets := packets + [Out(client, body)];
      RecordGroup([Out(client, body)]);
    }

    method SendPacketToAllIf(chosen: set<nat>, body: int)
      modifies this`packets, this`groups
      ensures Abs() == QueueGroup(old(Abs()), Broadcast(connected, chosen, body))
      ensures packets == old(packets) + Addressed(Filtered((c: nat) => c in chosen, connected), body)
    {
      assert connected[0..] == connected;
      for i := 0 to |connected|
        invariant groups == old(groups)
        invariant packets + Broadcast(connected[i..], chosen, body) == old(packets) + Broadcast(connected, chosen, body)
      {
        assert connected[i..][0] == connected[i] && connected[i..][1..] == connected[i + 1..];
        if connected[i] in chosen {
          packets := packets + [Out(connected[i], body)];
        }
      }
      assert connected[|connected|..] == [];
      assert packets + [] == packets;
      RecordGroup(Broadcast(connected, chosen, body));
      BroadcastTo(connected, chosen, body, (c: nat) => c in chosen);
    }

    /** The position of a client among the connected, or their number. */
    method Find(client: nat) returns (i: nat)
      ensures i == IndexOf(client, connected)
    {
      i := 0;
      while i < |connected| && connected[i] != client
        invariant i <= |connected| && forall j :: 0 <= j < i ==> connected[j] != client
      {
        i := i + 1;
      }
    }

    method OnDisconnect(client: nat)
      requires client in connected
      modifies this`connected, this`deleted
      ensures connected == Erased(old(connected), client) && deleted == old(deleted) + [client]
    {
      var i := Find(client);
      assert i < |connected|;
      connected := connected[..i] + connected[i + 1..];
      deleted := deleted + [client];
    }

    /** Handles the event at the front of the batch. */
    method HandleFrontEvent()
      requires batch != []
      requires !batch[0].Connect? ==> batch[0].client in connected
      modifies this`batch, this`connected, this`handled, this`deleted, this`destroyed
      ensures Abs() == HandleFront(old(Abs()))
    {
      var e := PopEvent();
      if e.Connect? {
        connected := connected + [e.client];
      } else if e.Disconnect? {
        OnDisconnect(e.client);
      } else {
        destroyed := destroyed + [e.packet];
      }
    }

    method PopEvent() returns (e: Event)
      requires batch != []
      modifies this`batch, this`handled
      ensures e == old(batch[0]) && batch == old(batch)[1..] && handled == old(handled) + [e]
    {
      e := batch[0];
      handled := handled + [e];
      batch := batch[1..];
    }

    /** Handles everything in the batch. */
    method HandleBatch()
      requires Inv(Abs()) && !stopped
      modifies this`batch, this`connected, this`handled, this`deleted, this`destroyed
      ensures Abs() == HandleAll(old(Abs())) && Inv(Abs())
      ensures batch == [] && handled == old(handled) + old(batch)
    {
      ghost var s := Abs();
      while batch != []
        invariant Inv(Abs()) && !stopped && HandleAll(Abs()) == HandleAll(s)
        invariant handled + batch == old(handled) + old(batch)
        decreases |batch|
      {
        FrontConnected(Abs());
        HandleKeeps(Abs());
        HandledAlong(Abs());
        HandleFrontEvent();
      }
    }

    method ConsumeEvents()
      requires Inv(Abs()) && !exit && !stopped && batch == []
      modifies this`batch, this`events, this`connected, this`handled, this`deleted, this`destroyed
      ensures Abs() == HandleAll(old(Abs()).(batch := old(events), events := []))
      ensures Inv(Abs()) && batch == [] && handled == old(handled) + old(events)
    {
      if events != [] {
        TakeKeeps(Abs());
        batch := events;
        events := [];
        assert Abs() == old(Abs()).(batch := old(events), events := []);
        HandleBatch();
      } else {
        assert Abs().(batch := events, events := []) == Abs();
      }
    }

    method DestroyAllQueuedPackets()
      modifies this`packets
      ensures packets == []
    {
      while packets != []
        decreases |packets|
      {
        packets := packets[1..];
      }
    }

    /** Deletes the clients of queued connects and destroys queued received packets. */
    method DestroyAllQueuedEvents()
      modifies this`events, this`deleted, this`destroyed
      ensures events == []
      ensures deleted == old(deleted) + Unhandled(old(events)) && destroyed == old(destroyed) + Packets(old(events))
    {
      while events != []
        invariant deleted + Unhandled(events) == old(deleted) + Unhandled(old(events))
        invariant destroyed + Packets(events) == old(destroyed) + Packets(old(events))
        decreases |events|
      {
        var e := events[0];
        FirstUnhandled(events, deleted);
        FirstPacket(events, destroyed);
        if e.Connect? {
          deleted := deleted + [e.client];
        } else if e.Receive? {
          destroyed := destroyed + [e.packet];
        }
        events := events[1..];
      }
    }

    method DeleteAllConnectedClients()
      modifies this`connected, this`deleted
      ensures connected == [] && deleted == old(deleted) + old(connected)
    {
      for i := 0 to |connected|
        invariant connected == old(connected) && deleted == old(deleted) + connected[..i]
      {
        deleted := deleted + [connected[i]];
        assert connected[..i + 1] == connected[..i] + [connected[i]];
      }
      connected := [];
    }

    /** What the two queues hold is destroyed. */
    method DestroyQueues()
      modifies this`packets, this`events, this`deleted, this`destroyed
      ensures Abs() == QueuesDestroyed(old(Abs()))
    {
      DestroyAllQueuedPackets();
      DestroyAllQueuedEvents();
    }

    /** The part of stopping after the worker has ended. */
    method FinishStopListening()
      requires exit && !running && !stopped
      modifies this`packets, this`events, this`connected, this`deleted, this`destroyed, this`stopped
      ensures Abs() == Cleanup(old(Abs()))
    {
      DestroyQueues();
      DeleteAllConnectedClients();
      stopped := true;
    }
  }

  lemma FirstUnhandled(es: seq<Event>, deleted: seq<nat>)
    requires es != []
    ensures deleted + Unhandled(es) == (if es[0].Connect? then deleted + [es[0].client] else deleted) + Unhandled(es[1..])
  {
    if es[0].Connect? {
      ConcatAssociates(deleted, [es[0].client], Unhandled(es[1..]));
    } else {
      assert [] + Unhandled(es[1..]) == Unhandled(es[1..]);
    }
  }

  lemma FirstPacket(es: seq<Event>, destroyed: seq<nat>)
    requires es != []
    ensures destroyed + Packets(es) == (if es[0].Receive? then destroyed + [es[0].packet] else destroyed) + Packets(es[1..])
  {
    if es[0].Receive? {
      ConcatAssociates(destroyed, [es[0].packet], Packets(es[1..]));
    } else {
      assert [] + Packets(es[1..]) == Packets(es[1..]);
    }
  }

  lemma HandledAlong(s: Server)
    requires s.batch != []
    ensures HandleFront(s).handled + HandleFront(s).batch == s.handled + s.batch
    ensures HandleFront(s).stopped == s.stopped && HandleAll(HandleFront(s)) == HandleAll(s)
  {
    var r := HandleFront(s);
    assert r.batch == s.batch[1..] && r.handled == s.handled + [s.batch[0]];
    assert s.batch == [s.batch[0]] + s.batch[1..];
  }

  /** The assertion on disconnecting clients, and that no callback gets a deleted one. */
  lemma FrontConnected(s: Server)
    requires Inv(s) && !s.stopped && s.batch != []
    ensures !s.batch[0].Connect? ==> s.batch[0].client in s.connected
  {
    FrontAllowed(s);
    ConnectedIsLive(s.handled, s.batch[0].client);
  }

  /** Handling the whole batch. */
  function HandleAll(s: Server): Server
    decreases |s.batch|
  {
    if s.batch == [] then s else HandleAll(HandleFront(s))
  }

  lemma FrontStep(s: Server)
    requires !s.exit && s.batch != []
    ensures Next(s, HandleEvent) == HandleFront(s) && !HandleFront(s).exit && |HandleFront(s).batch| == |s.batch| - 1
  {
  }

  lemma {:induction false} HandleAllIsRun(s: Server)
    requires !s.exit
    ensures HandleAll(s) == Run(s, seq(|s.batch|, i => HandleEvent))
    decreases |s.batch|
  {
    if s.batch != [] {
      FrontStep(s);
      HandleAllIsRun(HandleFront(s));
      var steps := seq(|s.batch|, i => HandleEvent);
      assert steps[1..] == seq(|s.batch| - 1, i => HandleEvent);
    }
  }

  /** Consuming is a run of atomic steps, so whatever holds of every run holds across it. */
  lemma ConsumeIsRun(s: Server)
    requires !s.exit && s.batch == []
    ensures HandleAll(s.(batch := s.events, events := [])) == Run(s, [TakeBatch] + seq(|s.events|, i => HandleEvent))
  {
    var steps := [TakeBatch] + seq(|s.events|, i => HandleEvent);
    assert steps[0] == TakeBatch && steps[1..] == seq(|s.events|, i => HandleEvent);
    HandleAllIsRun(Next(s, TakeBatch));
  }
}
