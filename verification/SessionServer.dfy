/**
 The game server: who plays which side, when a game is on, and what is relayed
 to whom. The functions say what mail each callback sends; the object's methods
 send it; and the mail is shown to be what the two-client world assumes.
 */
module SessionServer {
  import opened Messages
  import opened GameUnit
  import opened GameClient
  import opened GameWorld

  datatype Mail = Mail(to: nat, msg: Msg)

  // ----- what each callback sends -----

  predicate EvenOther(clients: seq<nat>, uid: nat) { exists k :: 0 <= k < |clients| && clients[k] % 2 == 0 && clients[k] != uid }

  /** The id a client is told to play under: 1 if some other connected client has an even uid. */
  function LocalId(clients: seq<nat>, uid: nat): int { if EvenOther(clients, uid) then 1 else 0 }

  /** The message for every connected client but one. */
  function ToOthers(clients: seq<nat>, uid: nat, m: Msg): seq<Mail> {
    if clients == [] then []
    else (if clients[0] != uid then [Mail(clients[0], m)] else []) + ToOthers(clients[1..], uid, m)
  }

  function ConnectMail(active: bool, clients: seq<nat>, uid: nat): seq<Mail> {
    if active then [Mail(uid, Reconnect(true))] + ToOthers(clients, uid, Ready)
    else [Mail(uid, Init(LocalId(clients, uid)))]
         + if |clients| >= 2 then [Mail(clients[0], Start), Mail(clients[1], Start)] else []
  }

  function DisconnectMail(active: bool, clients: seq<nat>): seq<Mail> {
    if active && clients != [] then [Mail(clients[0], DataSender)] else []
  }

  /** The relay; a request to resume is answered to the first two clients. */
  function DataMail(clients: seq<nat>, uid: nat, m: Msg): seq<Mail>
    requires m.Resume? ==> |clients| >= 2
  {
    if Forwarded(m) then ToOthers(clients, uid, m)
    else if m.Resume? then [Mail(clients[0], Reconnect(false)), Mail(clients[1], Reconnect(false))]
    else []
  }

  // ----- the object -----

  class Server {
    var gameActive: bool
    var clients: seq<nat>
    var outbox: seq<Mail>

    constructor ()
      ensures !gameActive && clients == [] && outbox == []
    {
      gameActive, clients, outbox := false, [], [];
    }

    method SendPacketTo(uid: nat, m: Msg)
      modifies this`outbox
      ensures outbox == old(outbox) + [Mail(uid, m)]
    {
      outbox := outbox + [Mail(uid, m)];
    }

    method SendPacketToOthers(uid: nat, m: Msg)
      modifies this`outbox
      ensures outbox == old(outbox) + ToOthers(clients, uid, m)
    {
      assert clients[0..] == clients;
      for i := 0 to |clients|
        invariant outbox + ToOthers(clients[i..], uid, m) == old(outbox) + ToOthers(clients, uid, m)
      {
        assert clients[i..][0] == clients[i] && clients[i..][1..] == clients[i + 1..];
        if clients[i] != uid {
          SendPacketTo(clients[i], m);
        }
      }
      assert clients[|clients|..] == [];
    }

    method OnClientData(uid: nat, m: Msg)
      requires m.Resume? ==> |clients| >= 2
      modifies this`outbox
      ensures outbox == old(outbox) + DataMail(clients, uid, m)
    {
      if m.Chat? || m.UnitUpdate? || m.Turn? || m.Player? || m.UpdateComplete? {
        SendPacketToOthers(uid, m);
      }
      if m.Resume? {
        SendPacketTo(clients[0], Reconnect(false));
        SendPacketTo(clients[1], Reconnect(false));
      }
    }

    method AssignClientLocalID(uid: nat)
      modifies this`outbox
      ensures outbox == old(outbox) + [Mail(uid, Init(LocalId(clients, uid)))]
    {
      var evenCheck := false;
      for i := 0 to |clients|
        invariant evenCheck == EvenOther(clients[..i], uid) && outbox == old(outbox)
      {
        EvenOtherStep(clients[..i], clients[i], uid);
        assert clients[..i + 1] == clients[..i] + [clients[i]];
        if clients[i] % 2 == 0 && clients[i] != uid {
          evenCheck := true;
        }
      }
      assert clients[..|clients|] == clients;
      var id := -1;
      if evenCheck {
        id := 1;
      }
      if !evenCheck {
        id := 0;
      }
      SendPacketTo(uid, Init(id));
    }

    method OnClientConnect(uid: nat)
      requires uid in clients
      modifies this`outbox, this`gameActive
      ensures outbox == old(outbox) + ConnectMail(old(gameActive), clients, uid)
      ensures gameActive == (old(gameActive) || |clients| >= 2)
    {
      if !gameActive {
        AssignClientLocalID(uid);
        if |clients| >= 2 {
          SendPacketTo(clients[0], Start);
          SendPacketTo(clients[1], Start);
          gameActive := true;
        }
      } else {
        SendPacketTo(uid, Reconnect(true));
        SendPacketToOthers(uid, Ready);
      }
    }

    method OnClientDisconnect()
      modifies this`outbox, this`gameActive
      ensures outbox == old(outbox) + DisconnectMail(old(gameActive), clients)
      ensures gameActive == (old(gameActive) && clients != [])
    {
      if gameActive {
        if |clients| == 0 {
          gameActive := false;
        } else {
          SendPacketTo(clients[0], DataSender);
        }
      }
    }
  }

  lemma EvenOtherStep(clients: seq<nat>, c: nat, uid: nat)
    ensures EvenOther(clients + [c], uid) == (EvenOther(clients, uid) || (c % 2 == 0 && c != uid))
  {
    if EvenOther(clients, uid) {
      var k :| 0 <= k < |clients| && clients[k] % 2 == 0 && clients[k] != uid;
      assert (clients + [c])[k] == clients[k];
    }
    assert (clients + [c])[|clients|] == c;
  }

  // ----- sessions over the life of the server -----

  const MAX_CLIENTS := 2

  /** `arrivals` numbers the clients: it is the source of uids, which no reset reaches. `ids` is what each was told. */
  datatype Session = Session(active: bool, clients: seq<nat>, arrivals: nat, ids: map<nat, int>)

  datatype Event = Arrive | Depart(seat: nat)

  function NextSession(s: Session, e: Event): Session {
    match e
    case Arrive =>
      if |s.clients| >= MAX_CLIENTS then s
      else
        var uid := s.arrivals;
        var clients := s.clients + [uid];
        Session(s.active || |clients| >= 2, clients, uid + 1,
                if s.active then s.ids else s.ids[uid := LocalId(clients, uid)])
    case Depart(seat) =>
      if seat >= |s.clients| then s
      else
        var clients := s.clients[..seat] + s.clients[seat + 1..];
        s.(clients := clients, active := s.active && clients != [])
  }

  function Sessions(es: seq<Event>): Session {
    if es == [] then Session(false, [], 0, map[]) else NextSession(Sessions(es[..|es| - 1]), es[|es| - 1])
  }

  function Arrivals(es: seq<Event>): nat {
    if es == [] then 0
    else Arrivals(es[..|es| - 1]) + if es[|es| - 1].Arrive? && |Sessions(es[..|es| - 1]).clients| < MAX_CLIENTS then 1 else 0
  }

  predicate SessionInv(s: Session) {
    && |s.clients| <= MAX_CLIENTS
    && (forall k :: 0 <= k < |s.clients| ==> s.clients[k] < s.arrivals)
    && (|s.clients| == 2 ==> s.clients[0] != s.clients[1] && s.active)
    && (s.active ==> s.clients != [])
    && (!s.active && s.clients != [] ==> s.clients[0] in s.ids && s.ids[s.clients[0]] == 0)
  }

  lemma NextKeeps(s: Session, e: Event)
    requires SessionInv(s)
    ensures SessionInv(NextSession(s, e))
  {
    match e
    case Arrive =>
      if s.clients == [] {
        assert !EvenOther([s.arrivals], s.arrivals);
      }
    case Depart(seat) =>
      if seat < |s.clients| {
        DepartKeeps(s, seat);
      }
  }

  lemma DepartKeeps(s: Session, seat: nat)
    requires SessionInv(s) && seat < |s.clients|
    ensures SessionInv(NextSession(s, Depart(seat)))
  {
    var s' := NextSession(s, Depart(seat));
    assert |s.clients| == 2 ==> s.active;
    assert forall k :: 0 <= k < |s'.clients| ==> s'.clients[k] in s.clients;
  }

  lemma {:induction false} SessionsKeep(es: seq<Event>)
    ensures SessionInv(Sessions(es)) && Sessions(es).arrivals == Arrivals(es)
  {
    if es != [] {
      SessionsKeep(es[..|es| - 1]);
      NextKeeps(Sessions(es[..|es| - 1]), es[|es| - 1]);
    }
  }

  predicate StartsGame(s: Session, e: Event) { e.Arrive? && !s.active && NextSession(s, e).active }

  function TeamOf(id: int): Team { if id % 2 == 0 then Player1 else Player2 }

  /**
   Whenever a game starts, the two players were told different sides if and only
   if the first of them has an even uid, that is, an even number of clients had
   ever arrived before it; otherwise both play the first side.
   */
  lemma SidesDiffer(es: seq<Event>)
    requires StartsGame(Sessions(es), Arrive)
    ensures var s := NextSession(Sessions(es), Arrive);
            && |s.clients| == 2 && s.clients[0] in s.ids && s.clients[1] in s.ids
            && TeamOf(s.ids[s.clients[0]]) == Player1
            && (TeamOf(s.ids[s.clients[1]]) == Player2 <==> s.clients[0] % 2 == 0)
  {
    SessionsKeep(es);
    var s := Sessions(es);
    var clients := s.clients + [s.arrivals];
    assert EvenOther(clients, s.arrivals) == (s.clients[0] % 2 == 0) by {
      EvenOtherStep(s.clients, s.arrivals, s.arrivals);
      assert s.clients == [s.clients[0]];
    }
  }

  /** The first two clients ever to arrive, if they meet, play different sides. */
  lemma FirstGameDiffers()
    ensures StartsGame(Sessions([Arrive]), Arrive)
    ensures var s := NextSession(Sessions([Arrive]), Arrive); s.ids[0] == 0 && s.ids[1] == 1 && s.clients == [0, 1]
  {
    assert [Arrive][..0] == [];
    assert Sessions([]) == Session(false, [], 0, map[]);
    assert Sessions([Arrive]).clients == [0];
    SidesDiffer([Arrive]);
    assert EvenOther([0, 1], 1) by { assert [0, 1][0] % 2 == 0; }
  }

  /** A client that came and left before the game is enough to give both players the same side. */
  lemma OneEarlyLeaverCollides()
    ensures var es := [Arrive, Depart(0), Arrive];
            var s := NextSession(Sessions(es), Arrive);
            && StartsGame(Sessions(es), Arrive)
            && s.clients == [1, 2] && 1 in s.ids && 2 in s.ids
            && TeamOf(s.ids[1]) == Player1 && TeamOf(s.ids[2]) == Player1
  {
    var es := [Arrive, Depart(0), Arrive];
    CameAndLeft();
    assert es[..2] == [Arrive, Depart(0)];
    assert Sessions(es).clients == [1] && !Sessions(es).active;
    SidesDiffer(es);
  }

  lemma CameAndLeft()
    ensures var s := Sessions([Arrive, Depart(0)]); s.clients == [] && !s.active && s.arrivals == 1
  {
    assert [Arrive, Depart(0)][..1] == [Arrive] && [Arrive][..0] == [];
    assert Sessions([]) == Session(false, [], 0, map[]);
    assert Sessions([Arrive]).clients == [0] && !Sessions([Arrive]).active;
  }

  // ----- the mail is what the two-client world assumes -----

  /** Posts mail to the links of the clients seated at the two sides. */
  function Post(w: World, seats: Pair<nat>, mail: seq<Mail>): World
    decreases |mail|
  {
    if mail == [] then w
    else
      var m := mail[0];
      var w1 := if m.to == seats.one then SendDown(w, One, m.msg) else if m.to == seats.two then SendDown(w, Two, m.msg) else w;
      Post(w1, seats, mail[1..])
  }

  /** The connected clients are those present, in either order of arrival. */
  predicate Seated(w: World, seats: Pair<nat>, clients: seq<nat>) {
    && seats.one != seats.two
    && match w.present
       case Pair(true, true) => clients == [seats.one, seats.two] || clients == [seats.two, seats.one]
       case Pair(true, false) => clients == [seats.one]
       case Pair(false, true) => clients == [seats.two]
       case Pair(false, false) => clients == []
  }

  lemma PostOne(w: World, seats: Pair<nat>, s: Side, m: Msg)
    requires seats.one != seats.two
    ensures Post(w, seats, [Mail(seats.At(s), m)]) == SendDown(w, s, m)
  {
    assert [Mail(seats.At(s), m)][1..] == [];
  }

  lemma PostTwo(w: World, seats: Pair<nat>, s: Side, m: Msg, p: Side, n: Msg)
    requires seats.one != seats.two
    ensures Post(w, seats, [Mail(seats.At(s), m), Mail(seats.At(p), n)]) == SendDown(SendDown(w, s, m), p, n)
  {
    var mail := [Mail(seats.At(s), m), Mail(seats.At(p), n)];
    assert mail[1..] == [Mail(seats.At(p), n)];
    PostOne(SendDown(w, s, m), seats, p, n);
  }

  lemma ToOthersOne(c: nat, uid: nat, m: Msg)
    ensures ToOthers([c], uid, m) == if c != uid then [Mail(c, m)] else []
  {
    assert [c][1..] == [];
  }

  lemma OthersMail(w: World, seats: Pair<nat>, clients: seq<nat>, s: Side, m: Msg)
    requires Seated(w, seats, clients) && w.present.At(s)
    ensures ToOthers(clients, seats.At(s), m) == if w.present.At(Other(s)) then [Mail(seats.At(Other(s)), m)] else []
  {
    var uid := seats.At(s);
    if |clients| == 2 {
      assert clients[1..] == [clients[1]];
      ToOthersOne(clients[1], uid, m);
    } else {
      assert clients == [clients[0]];
      ToOthersOne(clients[0], uid, m);
    }
  }

  /** Relaying, in the world of two clients, is what the server object does. */
  lemma RelayMatches(w: World, seats: Pair<nat>, clients: seq<nat>, s: Side, m: Msg)
    requires Seated(w, seats, clients) && w.present.At(s) && (m.Resume? ==> w.present == Pair(true, true))
    ensures Post(w, seats, DataMail(clients, seats.At(s), m)) == ServerHandles(w, s, m)
  {
    if Forwarded(m) {
      OthersMail(w, seats, clients, s, m);
      if w.present.At(Other(s)) {
        PostOne(w, seats, Other(s), m);
      }
    } else if m.Resume? {
      var first := if clients[0] == seats.one then One else Two;
      PostTwo(w, seats, first, Reconnect(false), Other(first), Reconnect(false));
      SendsCommute(w, s, Reconnect(false));
    }
  }

  lemma SendsCommute(w: World, s: Side, m: Msg)
    ensures SendDown(SendDown(w, s, m), Other(s), m) == SendDown(SendDown(w, Other(s), m), s, m)
  {
  }

  /** A departure, in the world of two clients, sends what the server object does. */
  lemma LeaveMatches(w: World, seats: Pair<nat>, clients: seq<nat>, s: Side)
    requires w.present == Pair(true, true) && seats.one != seats.two
    requires clients == [seats.At(Other(s))]
    ensures var gone := w.(present := w.present.With(s, false), up := w.up.With(s, []), down := w.down.With(s, []));
            Next(w, Left(s)) == Post(gone, seats, DisconnectMail(true, clients))
  {
    var gone := w.(present := w.present.With(s, false), up := w.up.With(s, []), down := w.down.With(s, []));
    PostOne(gone, seats, Other(s), DataSender);
  }

  /** An arrival during a game, in the world of two clients, sends what the server object does. */
  lemma JoinMatches(w: World, seats: Pair<nat>, clients: seq<nat>, s: Side)
    requires !w.present.At(s) && w.present.At(Other(s)) && seats.one != seats.two
    requires clients == [seats.At(Other(s)), seats.At(s)]
    ensures var there := SetClient(w, s, NewClient(w.table)).(present := w.present.With(s, true));
            Next(w, Joined(s)) == Post(there, seats, ConnectMail(true, clients, seats.At(s)))
  {
    var there := SetClient(w, s, NewClient(w.table)).(present := w.present.With(s, true));
    OthersMail(there, seats, clients, s, Ready);
    PostTwo(there, seats, s, Reconnect(true), Other(s), Ready);
  }

  /** When the first of two players has an even uid, the mail of their arrivals is what a game starts from. */
  lemma StartMatches(t: seq<UnitData>, first: nat, second: nat)
    requires first != second && first % 2 == 0
    ensures var seats := Pair(first, second);
            var alone := World(t, Pair(NewClient(t), NewClient(t)), Pair(true, false), Pair([], []), Pair([], []));
            var w1 := Post(alone, seats, ConnectMail(false, [first], first));
            Post(w1.(present := Pair(true, true)), seats, ConnectMail(false, [first, second], second)) == Initial(t)
  {
    var seats := Pair(first, second);
    var alone := World(t, Pair(NewClient(t), NewClient(t)), Pair(true, false), Pair([], []), Pair([], []));
    assert !EvenOther([first], first);
    assert ConnectMail(false, [first], first) == [Mail(first, Init(0))];
    PostOne(alone, seats, One, Init(0));
    var w1 := SendDown(alone, One, Init(0)).(present := Pair(true, true));
    assert EvenOther([first, second], second) by { assert [first, second][0] == first; }
    var mail := ConnectMail(false, [first, second], second);
    assert mail == [Mail(second, Init(1)), Mail(first, Start), Mail(second, Start)];
    assert mail[1..] == [Mail(first, Start), Mail(second, Start)];
    var w2 := SendDown(w1, Two, Init(1));
    PostTwo(w2, seats, One, Start, Two, Start);
    assert [] + [Init(0)] + [Start] == [Init(0), Start] && [] + [Init(1)] + [Start] == [Init(1), Start];
  }
}
