/**
 The client object of the network library, whose methods update its queues in
 place. Each method is proved to take the step of module EnetClient it
 implements.
 */
module EnetClientObject {
  import opened EnetClient

  class ClientObject {
    var worker: Worker
    var greeted: bool
    var isConnected: bool
    var exit: bool
    var waiting: bool
    var joined: bool
    var nextPacket: nat
    var packets: seq<int>
    var events: seq<Event>
    var batch: seq<Event>
    ghost var enqueued: seq<Event>
    ghost var handled: seq<Event>
    ghost var dropped: seq<Event>
    ghost var destroyed: seq<nat>
    ghost var sent: seq<int>
    ghost var passed: seq<int>
    ghost var unsent: seq<int>

    ghost function Abs(): Client
      reads this
    {
      Client(worker, greeted, isConnected, exit, waiting, joined, nextPacket, packets, events, batch,
             enqueued, handled, dropped, destroyed, sent, passed, unsent)
    }

    constructor ()
      ensures Abs() == Initial()
    {
      worker, greeted, isConnected, exit, waiting, joined, nextPacket := Starting, false, false, false, false, false, 0;
      packets, events, batch := [], [], [];
      enqueued, handled, dropped, destroyed, sent, passed, unsent := [], [], [], [], [], [], [];
    }

    // ----- the worker -----

    /** Passes every queued packet to the peer, oldest first. */
    method SendQueuedPackets()
      modifies this`packets, this`passed
      ensures Abs() == SendQueued(old(Abs()))
    {
      while packets != []
        invariant passed + packets == old(passed) + old(packets)
        decreases |packets|
      {
        passed := passed + [packets[0]];
        packets := packets[1..];
      }
      assert passed + [] == passed;
    }

    method EnqueueEvent(e: Event)
      modifies this`events, this`enqueued
      ensures Abs() == Enqueue(old(Abs()), e)
    {
      events := events + [e];
      enqueued := enqueued + [e];
    }

    /** The library reports some events of the peer; capturing stops at a disconnect. */
    method CaptureEvents(reported: seq<Event>) returns (taken: nat)
      requires InLoop(Abs())
      modifies this`events, this`enqueued, this`worker, this`isConnected
      ensures taken <= |reported| && enqueued == old(enqueued) + reported[..taken] && events == old(events) + reported[..taken]
      ensures forall k :: 0 <= k < taken - 1 ==> !reported[k].Disconnect?
      ensures if taken > 0 && reported[taken - 1].Disconnect? then worker == Ended && !isConnected
              else taken == |reported| && worker == old(worker) && isConnected == old(isConnected)
    {
      taken := 0;
      while taken < |reported|
        invariant taken <= |reported| && worker == old(worker) && isConnected == old(isConnected)
        invariant enqueued == old(enqueued) + reported[..taken] && events == old(events) + reported[..taken]
        invariant forall k :: 0 <= k < taken ==> !reported[k].Disconnect?
      {
        EnqueueEvent(reported[taken]);
        assert reported[..taken + 1] == reported[..taken] + [reported[taken]];
        taken := taken + 1;
        if reported[taken - 1].Disconnect? {
          worker := Ended;
          isConnected := false;
          break;
        }
      }
    }

    // ----- the game thread -----

    method SendPacket(body: int)
      requires !waiting
      modifies this`packets, this`sent
      ensures Abs() == Next(old(Abs()), EnetClient.SendPacket(body))
    {
      if !joined {
        packets := packets + [body];
        sent := sent + [body];
      }
    }

    /** Handles the front of the batch; says whether it was the disconnect. */
    method HandleFrontEvent() returns (isDisconnect: bool)
      requires batch != []
      modifies this`batch, this`handled, this`destroyed
      ensures Abs() == HandleFront(old(Abs())) && isDisconnect == old(batch[0]).Disconnect?
    {
      var e := batch[0];
      isDisconnect := e.Disconnect?;
      handled := handled + [e];
      destroyed := destroyed + if e.Receive? then [e.packet] else [];
      batch := batch[1..];
    }

    /** Handles all of the batch; says whether the disconnect was among it. */
    method HandleBatch() returns (isDisconnected: bool)
      modifies this`batch, this`handled, this`destroyed
      ensures Abs() == HandleAll(old(Abs()))
      ensures batch == [] && isDisconnected == (Disconnect in old(batch))
    {
      isDisconnected := false;
      while batch != []
        invariant HandleAll(Abs()) == HandleAll(old(Abs()))
        invariant (isDisconnected || Disconnect in batch) == (Disconnect in old(batch))
        decreases |batch|
      {
        assert batch == [batch[0]] + batch[1..];
        var one := HandleFrontEvent();
        isDisconnected := isDisconnected || one;
      }
    }

    /** Takes what is queued and handles all of it. */
    method ConsumeBatch() returns (isDisconnected: bool)
      requires batch == []
      modifies this`batch, this`events, this`handled, this`destroyed
      ensures Abs() == HandleAll(old(Abs()).(batch := old(events), events := []))
      ensures batch == [] && isDisconnected == (Disconnect in old(events))
    {
      isDisconnected := false;
      if events != [] {
        batch := events;
        events := [];
        assert Abs() == old(Abs()).(batch := old(events), events := []);
        isDisconnected := HandleBatch();
      } else {
        assert Abs().(batch := events, events := []) == Abs();
      }
    }

    method DestroyAllQueuedPackets()
      modifies this`packets, this`unsent
      ensures packets == [] && unsent == old(unsent) + old(packets)
    {
      while packets != []
        invariant unsent + packets == old(unsent) + old(packets)
        decreases |packets|
      {
        unsent := unsent + [packets[0]];
        packets := packets[1..];
      }
    }

    method DestroyAllQueuedEvents()
      modifies this`events, this`dropped, this`destroyed
      ensures events == [] && dropped == old(dropped) + old(events)
      ensures destroyed == old(destroyed) + Packets(old(events))
    {
      while events != []
        invariant dropped + events == old(dropped) + old(events)
        invariant destroyed + Packets(events) == old(destroyed) + Packets(old(events))
        decreases |events|
      {
        var e := events[0];
        if e.Receive? {
          destroyed := destroyed + [e.packet];
        }
        dropped := dropped + [e];
        events := events[1..];
      }
    }

    /** The part of disconnecting after the worker has ended. */
    method FinishDisconnect()
      requires waiting && worker == Ended
      modifies this`waiting, this`joined, this`packets, this`unsent, this`events, this`dropped, this`destroyed
      ensures Abs() == Cleanup(old(Abs()))
    {
      DestroyAllQueuedPackets();
      DestroyAllQueuedEvents();
      waiting := false;
      joined := true;
    }
  }

  /** Handling the whole batch. */
  function HandleAll(s: Client): Client
    decreases |s.batch|
  {
    if s.batch == [] then s else HandleAll(HandleFront(s))
  }

  lemma {:induction false} HandleAllIsRun(s: Client)
    requires !s.waiting
    ensures HandleAll(s) == Run(s, seq(|s.batch|, i => HandleEvent))
    decreases |s.batch|
  {
    if s.batch != [] {
      HandleAllIsRun(HandleFront(s));
      var steps := seq(|s.batch|, i => HandleEvent);
      assert steps[1..] == seq(|s.batch| - 1, i => HandleEvent);
    }
  }

  /** Consuming is a run of atomic steps, so whatever holds of every run holds across it. */
  lemma ConsumeIsRun(s: Client)
    requires !s.waiting && s.batch == []
    ensures HandleAll(s.(batch := s.events, events := [])) == Run(s, [TakeBatch] + seq(|s.events|, i => HandleEvent))
  {
    var steps := [TakeBatch] + seq(|s.events|, i => HandleEvent);
    assert steps[0] == TakeBatch && steps[1..] == seq(|s.events|, i => HandleEvent);
    HandleAllIsRun(Next(s, TakeBatch));
  }
}
