/**
 JSON values as trees, and the event stream that describes a tree.

 Scalars other than strings are opaque literals; an object is the sequence of
 its members, so member order is kept and names may repeat.
 */
module JsonTree {

  predicate IsSpace(c: char) { c == ' ' || c == '\n' || c == '\r' || c == '\t' }

  predicate IsNumberChar(c: char) {
    '0' <= c <= '9' || c == '-' || c == '+' || c == '.' || c == 'e' || c == 'E'
  }

  predicate IsLiteral(s: string) {
    s != "" && forall i :: 0 <= i < |s| ==> IsNumberChar(s[i])
  }

  /** The text a number printer produces, taken as given. */
  type Literal = s: string | IsLiteral(s) witness "0"

  datatype Scalar = Null | Bool(b: bool) | Num(literal: Literal) | Str(text: string)

  datatype Member = Member(name: string, value: Json)

  datatype Json =
    | Leaf(scalar: Scalar)
    | Arr(items: seq<Json>)
    | Obj(members: seq<Member>)

  /** What a handler of the event interface is told, one call at a time. */
  datatype Event =
    | BeginJson
    | EndJson
    | BeginObject
    | EndObject
    | BeginArray
    | EndArray
    | Name(name: string)
    | Value(scalar: Scalar)

  function Events(v: Json): seq<Event>
    decreases v, 1
  {
    match v
    case Leaf(s) => [Value(s)]
    case Arr(items) => [BeginArray] + ItemEvents(items) + [EndArray]
    case Obj(members) => [BeginObject] + MemberEvents(members) + [EndObject]
  }

  function ItemEvents(items: seq<Json>): seq<Event>
    decreases items, 0
  {
    if items == [] then [] else Events(items[0]) + ItemEvents(items[1..])
  }

  function MemberEvents(members: seq<Member>): seq<Event>
    decreases members, 0
  {
    if members == [] then []
    else [Name(members[0].name)] + Events(members[0].value) + MemberEvents(members[1..])
  }

  /** The stream for a whole document. */
  function Document(v: Json): seq<Event> {
    [BeginJson] + Events(v) + [EndJson]
  }
}
