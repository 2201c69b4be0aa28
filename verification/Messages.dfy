/**
 The messages of the game protocol, and their form as packets on the wire.
 */
module Messages {
  import opened Wrappers
  import opened Wire

  datatype Msg =
    | Chat(username: string, text: string)
    | Init(id: int)
    | UnitUpdate(unit: UnitMsg)
    | Turn(turn: int)
    | Player(player: int)
    | Reconnect(on: bool)
    | Start
    | DataSender
    | Ready
    | UpdateComplete
    | Resume

  /** The packet a client or the server builds for a message. */
  function ToPacket(m: Msg): Packet {
    match m
    case Chat(username, text) => Packet("chat", username, text)
    case Init(id) => Packet("init", "", IntText(id))
    case UnitUpdate(u) => Packet("unit", "", Payload(u))
    case Turn(n) => Packet("turn", "", IntText(n))
    case Player(n) => Packet("player", "", IntText(n))
    case Reconnect(on) => Packet("reconnect", "", if on then "true" else "false")
    case Start => Packet("start", "", "")
    case DataSender => Packet("data_sender", "", "")
    case Ready => Packet("ready", "", "")
    case UpdateComplete => Packet("update_complete", "", "")
    case Resume => Packet("resume", "", "")
  }

  function FromNumber(text: string, make: int -> Msg): Option<Msg> {
    var n := Stoi(text);
    if n.Value? then Some(make(n.n)) else None
  }

  /** How a receiver understands a packet: by its kind, then its message. None if it is ignored or its numbers do not convert. */
  function FromPacket(p: Packet): Option<Msg> {
    if p.kind == "chat" then Some(Chat(p.username, p.msg))
    else if p.kind == "init" then FromNumber(p.msg, n => Init(n))
    else if p.kind == "unit" then
      if |Fields(p.msg)| < 5 then None
      else
        var u := MsgOf(Fields(p.msg));
        if u.Unit? then Some(UnitUpdate(u.msg)) else None
    else if p.kind == "turn" then FromNumber(p.msg, n => Turn(n))
    else if p.kind == "player" then FromNumber(p.msg, n => Player(n))
    else if p.kind == "reconnect" then
      if p.msg == "true" then Some(Reconnect(true))
      else if p.msg == "false" then Some(Reconnect(false))
      else None
    else if p.kind == "start" then Some(Start)
    else if p.kind == "data_sender" then Some(DataSender)
    else if p.kind == "ready" then Some(Ready)
    else if p.kind == "update_complete" then Some(UpdateComplete)
    else if p.kind == "resume" then Some(Resume)
    else None
  }

  /** What a message must satisfy to survive the wire. */
  predicate Sendable(m: Msg) {
    match m
    case Chat(username, text) => NulFree(username) && NulFree(text)
    case Init(id) => Int32(id)
    case UnitUpdate(u) =>
      NulFree(u.name) && AmpFree(u.name) && Int32(u.x) && Int32(u.y) && Int32(u.squad) && Int32(u.hp)
    case Turn(n) => Int32(n)
    case Player(n) => Int32(n)
    case _ => true
  }

  lemma NumbersNulFree(n: int)
    ensures NulFree(IntText(n)) && NulFree(FloatText(n))
  {
    DigitsAreDigits(if n < 0 then -n else n);
  }

  lemma PayloadNulFree(u: UnitMsg)
    requires NulFree(u.name)
    ensures NulFree(Payload(u))
  {
    NumbersNulFree(u.x);
    NumbersNulFree(u.y);
    NumbersNulFree(u.squad);
    NumbersNulFree(u.hp);
    var a := u.name + "&" + CoordText(u.name, u.x);
    var b := a + "&" + CoordText(u.name, u.y);
    var c := b + "&" + IntText(u.squad);
    var d := c + "&" + IntText(u.hp);
    assert NulFree(a);
    assert NulFree(b);
    assert NulFree(c);
    assert NulFree(d);
    assert Payload(u) == d + "&";
  }

  lemma NumberRoundTrip(n: int)
    requires Int32(n)
    ensures Stoi(IntText(n)) == Value(n)
  {
    StoiOfIntText(n, "");
    assert IntText(n) + "" == IntText(n);
  }

  /**
   Every sendable message survives the wire: its packet, encoded into bytes and
   decoded by the receiver, is understood as the same message.
   */
  lemma MessageRoundTrip(m: Msg)
    requires Sendable(m)
    ensures HoldsPacket(Encode(ToPacket(m)))
    ensures FromPacket(Decode(Encode(ToPacket(m)))) == Some(m)
  {
    MessageNulFree(m);
    DecodeEncode(ToPacket(m));
    Understood(m);
  }

  /** So two messages with the same bytes are the same message. */
  lemma SameBytesSameMessage(a: Msg, b: Msg)
    requires Sendable(a) && Sendable(b) && Encode(ToPacket(a)) == Encode(ToPacket(b))
    ensures a == b
  {
    MessageRoundTrip(a);
    MessageRoundTrip(b);
  }

  /** A message of each kind as its bytes. */
  lemma TextsOnTheWire()
    ensures Encode(ToPacket(Chat("Ann", "hello"))) == "chat\0Ann\0hello\0"
    ensures Encode(ToPacket(Reconnect(true))) == "reconnect\0\0true\0"
    ensures Encode(ToPacket(Reconnect(false))) == "reconnect\0\0false\0"
  {
  }

  lemma NumbersOnTheWire()
    ensures Encode(ToPacket(Init(1))) == "init\0\01\0"
    ensures Encode(ToPacket(Turn(1))) == "turn\0\01\0"
    ensures Encode(ToPacket(Player(2))) == "player\0\02\0"
  {
    assert IntText(1) == "1" && IntText(2) == "2";
  }

  lemma MarksOnTheWire()
    ensures Encode(ToPacket(Start)) == "start\0\0\0" && Encode(ToPacket(DataSender)) == "data_sender\0\0\0"
    ensures Encode(ToPacket(Ready)) == "ready\0\0\0" && Encode(ToPacket(UpdateComplete)) == "update_complete\0\0\0"
    ensures Encode(ToPacket(Resume)) == "resume\0\0\0"
  {
  }

  lemma UnitOnTheWire()
    ensures Payload(UnitMsg("tank_ally", 3, -1, 2, 9)) == "tank_ally&3.000000&-1.000000&2&9&"
    ensures var u := UnitMsg("tank_ally", 3, -1, 2, 9); Encode(ToPacket(UnitUpdate(u))) == "unit\0\0" + Payload(u) + "\0"
  {
    assert IntText(3) == "3" && IntText(-1) == "-1" && IntText(2) == "2" && IntText(9) == "9";
    assert !Announces("tank_ally");
  }

  lemma AnnouncementsOnTheWire()
    ensures Payload(UnitMsg("endturn", 0, 0, 0, 0)) == "endturn&0&0&0&0&"
    ensures Payload(UnitMsg("endgame", 1, 0, 0, 0)) == "endgame&1&0&0&0&"
    ensures Payload(UnitMsg("endgame", 2, 0, 0, 0)) == "endgame&2&0&0&0&"
  {
    assert IntText(0) == "0" && IntText(1) == "1" && IntText(2) == "2";
  }

  lemma ConstantsNulFree()
    ensures NulFree("chat") && NulFree("init") && NulFree("unit") && NulFree("turn") && NulFree("player") && NulFree("reconnect")
    ensures NulFree("start") && NulFree("data_sender") && NulFree("ready") && NulFree("update_complete") && NulFree("resume")
    ensures NulFree("") && NulFree("true") && NulFree("false")
  {
  }

  lemma MessageNulFree(m: Msg)
    requires Sendable(m)
    ensures NulFree(ToPacket(m).kind) && NulFree(ToPacket(m).username) && NulFree(ToPacket(m).msg)
  {
    ConstantsNulFree();
    match m
    case Init(id) => NumbersNulFree(id);
    case UnitUpdate(u) => PayloadNulFree(u);
    case Turn(n) => NumbersNulFree(n);
    case Player(n) => NumbersNulFree(n);
    case Chat(_, _) =>
    case _ =>
  }

  lemma Understood(m: Msg)
    requires Sendable(m)
    ensures FromPacket(ToPacket(m)) == Some(m)
  {
    match m
    case Init(id) => NumberRoundTrip(id);
    case UnitUpdate(u) => UnitRoundTrip(u);
    case Turn(n) => NumberRoundTrip(n);
    case Player(n) => NumberRoundTrip(n);
    case _ =>
  }
}
