/**
 Both clients, the server's relay and the links between them, as one
 transition system. Every interleaving of clicks, frames and message hops is a
 sequence of steps.
 */
module GameWorld {
  import opened Wire
  import opened Messages
  import opened GameUnit
  import opened GameClient

  datatype Side = One | Two

  function Other(s: Side): Side { if s == One then Two else One }

  /** The team played from a side. */
  function Role(s: Side): Team { if s == One then Player1 else Player2 }

  datatype Pair<T> = Pair(one: T, two: T) {
    function At(s: Side): T { if s == One then one else two }

    function With(s: Side, v: T): Pair<T> { if s == One then Pair(v, two) else Pair(one, v) }
  }

  /**
   `table` is the unit table every client starts from; `up` holds what a client
   has sent and the server has not handled, `down` what the server has sent and
   the client has not received.
   */
  datatype World = World(
    table: seq<UnitData>,
    clients: Pair<Client>,
    present: Pair<bool>,
    up: Pair<seq<Msg>>,
    down: Pair<seq<Msg>>)

  datatype Step =
    | Clicked(side: Side, click: Click)
    | Framed(side: Side)
    | Chatted(side: Side, username: string, text: string)
    | Sent(side: Side)
    | Relayed(side: Side)
    | Delivered(side: Side)
    | Processed(side: Side)
    | Left(side: Side)
    | Joined(side: Side)

  function NewClient(table: seq<UnitData>): Client {
    Client(table, AllClear(), Player1, NoTeam, NoTeam, false, -1, true, false, false, false, false, -1, -1, [], [], [])
  }

  /** Both players have just been admitted: the server has sent each its id and then the start. */
  function Initial(table: seq<UnitData>): World {
    World(table, Pair(NewClient(table), NewClient(table)), Pair(true, true), Pair([], []),
          Pair([Init(0), Start], [Init(1), Start]))
  }

  function SetClient(w: World, s: Side, c: Client): World { w.(clients := w.clients.With(s, c)) }

  /** Forwarded to the other client as it is. */
  predicate Forwarded(m: Msg) { m.Chat? || m.UnitUpdate? || m.Turn? || m.Player? || m.UpdateComplete? }

  /** Appends to the link toward a client; lost when there is no such client. */
  function SendDown(w: World, s: Side, m: Msg): World {
    if w.present.At(s) then w.(down := w.down.With(s, w.down.At(s) + [m])) else w
  }

  /** The server handles a message from side s. */
  function ServerHandles(w: World, s: Side, m: Msg): World {
    if Forwarded(m) then SendDown(w, Other(s), m)
    else if m.Resume? then SendDown(SendDown(w, s, Reconnect(false)), Other(s), Reconnect(false))
    else w
  }

  /** One step; a client that has left does nothing until a new one joins in its place. */
  function Next(w: World, step: Step): World {
    if w.present.At(step.side) || step.Joined? then PresentNext(w, step) else w
  }

  function PresentNext(w: World, step: Step): World {
    var s := step.side;
    var c := w.clients.At(s);
    match step
    case Clicked(_, click) => if Sized(c) then SetClient(w, s, HandleClick(c, click)) else w
    case Framed(_) => SetClient(w, s, Frame(c))
    case Chatted(_, username, text) =>
      if c.lobby || c.reconnecting then w else SetClient(w, s, c.(sending := c.sending + [Chat(username, text)]))
    case Sent(_) =>
      if c.sending == [] then w
      else SetClient(w, s, c.(sending := c.sending[1..])).(up := w.up.With(s, w.up.At(s) + [c.sending[0]]))
    case Relayed(_) =>
      if w.up.At(s) == [] then w
      else ServerHandles(w.(up := w.up.With(s, w.up.At(s)[1..])), s, w.up.At(s)[0])
    case Delivered(_) =>
      if w.down.At(s) == [] then w
      else SetClient(w, s, c.(received := c.received + [w.down.At(s)[0]])).(down := w.down.With(s, w.down.At(s)[1..]))
    case Processed(_) =>
      if c.received == [] then w
      else SetClient(w, s, ProcessReceived(c.(received := c.received[1..]), c.received[0]))
    case Left(_) =>
      // The server tells the survivor, who becomes the data sender. What the leaver had in flight is lost.
      if !w.present.At(s) || !w.present.At(Other(s)) then w
      else SendDown(w.(present := w.present.With(s, false), up := w.up.With(s, []), down := w.down.With(s, [])), Other(s), DataSender)
    case Joined(_) =>
      // A fresh client is told to reconnect, and the survivor that it is ready.
      if w.present.At(s) || !w.present.At(Other(s)) then w
      else
        var w1 := SetClient(w, s, NewClient(w.table)).(present := w.present.With(s, true));
        SendDown(SendDown(w1, s, Reconnect(true)), Other(s), Ready)
  }

  function Run(w: World, steps: seq<Step>): World
    decreases |steps|
  {
    if steps == [] then w else Run(Next(w, steps[0]), steps[1..])
  }

  // ----- what is in flight -----

  function UnitMsgs(ms: seq<Msg>): seq<UnitMsg> {
    if ms == [] then []
    else (if ms[0].UnitUpdate? then [ms[0].unit] else []) + UnitMsgs(ms[1..])
  }

  lemma {:induction false} UnitMsgsConcat(a: seq<Msg>, b: seq<Msg>)
    ensures UnitMsgs(a + b) == UnitMsgs(a) + UnitMsgs(b)
    decreases |a|
  {
    if a == [] {
      assert a + b == b;
    } else {
      assert (a + b)[1..] == a[1..] + b;
      UnitMsgsConcat(a[1..], b);
    }
  }

  /** Everything on its way to the client of side s, oldest first. */
  function Pipe(w: World, s: Side): seq<Msg> {
    var c, d := w.clients.At(s), w.clients.At(Other(s));
    c.received + w.down.At(s) + w.up.At(Other(s)) + d.sending
  }

  /** The unit messages the client of side s has still to apply, oldest first. */
  function Log(w: World, s: Side): seq<UnitMsg> {
    w.clients.At(s).unitQueue + UnitMsgs(Pipe(w, s))
  }
}
