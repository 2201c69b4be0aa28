/**
 The decoder: a flat stack of items and a stack of offsets that together
 rebuild a tree from its event stream.

 `Handle` gives the transitions of the machine; class `Decoder` makes them in
 place. The main results: the decoder inverts the event stream of every tree,
 and a stream of several top-level values leaves it invalid.
 */
module JsonDecoder {
  import opened Wrappers
  import opened JsonTree

  datatype Item = Item(name: string, value: Json)

  datatype Offset = Offset(index: nat, isObject: bool)

  datatype State = State(stack: seq<Item>, offsets: seq<Offset>, valid: bool, result: Json)

  /** What the handlers rely on: an open structure, which lies on the stack; a member has its name pushed. */
  predicate Ready(st: State) {
    && st.offsets != []
    && (st.offsets[|st.offsets| - 1].isObject ==> st.stack != [])
  }

  function TopOffset(st: State): Offset
    requires st.offsets != []
  {
    st.offsets[|st.offsets| - 1]
  }

  /** A value completes the member whose name was pushed last, or is a new item. */
  function Place(st: State, v: Json): State
    requires Ready(st)
  {
    if TopOffset(st).isObject then st.(stack := st.stack[|st.stack| - 1 := st.stack[|st.stack| - 1].(value := v)])
    else st.(stack := st.stack + [Item("", v)])
  }

  function Open(st: State, isObject: bool): State
    requires Ready(st)
  {
    var st1 := Place(st, if isObject then Obj([]) else Arr([]));
    st1.(offsets := st1.offsets + [Offset(|st1.stack| - 1, isObject)])
  }

  function Values(items: seq<Item>): (vs: seq<Json>)
    ensures |vs| == |items|
  {
    if items == [] then [] else [items[0].value] + Values(items[1..])
  }

  function Members(items: seq<Item>): seq<Member> {
    if items == [] then [] else [Member(items[0].name, items[0].value)] + Members(items[1..])
  }

  predicate CanClose(st: State) { st.offsets != [] && TopOffset(st).index < |st.stack| }

  /** The children above the structure's own slot move into it and leave the stack. */
  function Close(st: State): State
    requires CanClose(st)
  {
    var k := TopOffset(st).index;
    var children := st.stack[k + 1..];
    var v := if TopOffset(st).isObject then Obj(Members(children)) else Arr(Values(children));
    st.(stack := st.stack[..k] + [st.stack[k].(value := v)], offsets := st.offsets[..|st.offsets| - 1])
  }

  predicate Accepts(st: State, e: Event) {
    match e
    case BeginObject => Ready(st)
    case BeginArray => Ready(st)
    case Value(_) => Ready(st)
    case EndObject => CanClose(st)
    case EndArray => CanClose(st)
    case _ => true
  }

  function Handle(st: State, e: Event): State
    requires Accepts(st, e)
  {
    match e
    case BeginJson => State([], [Offset(0, false)], false, st.result)
    case EndJson => if |st.stack| == 1 then State([], st.offsets, true, st.stack[0].value) else st
    case BeginObject => Open(st, true)
    case BeginArray => Open(st, false)
    case EndObject => Close(st)
    case EndArray => Close(st)
    case Name(name) => st.(stack := st.stack + [Item(name, Leaf(Null))])
    case Value(s) => Place(st, Leaf(s))
  }

  /** The decoder gets through the events, from st to st'. */
  predicate Decodes(st: State, es: seq<Event>, st': State)
    decreases |es|
  {
    if es == [] then st == st'
    else Accepts(st, es[0]) && Decodes(Handle(st, es[0]), es[1..], st')
  }

  lemma {:induction false} DecodesConcat(st: State, a: seq<Event>, mid: State, b: seq<Event>, st': State)
    requires Decodes(st, a, mid) && Decodes(mid, b, st')
    ensures Decodes(st, a + b, st')
    decreases |a|
  {
    if a == [] {
      assert a + b == b;
    } else {
      assert (a + b)[1..] == a[1..] + b;
      DecodesConcat(Handle(st, a[0]), a[1..], mid, b, st');
    }
  }

  lemma DecodesOne(st: State, e: Event)
    requires Accepts(st, e)
    ensures Decodes(st, [e], Handle(st, e))
  {
    assert [e][1..] == [];
  }

  lemma {:induction false} DecodesFunctional(st: State, es: seq<Event>, s1: State, s2: State)
    requires Decodes(st, es, s1) && Decodes(st, es, s2)
    ensures s1 == s2
    decreases |es|
  {
    if es != [] {
      DecodesFunctional(Handle(st, es[0]), es[1..], s1, s2);
    }
  }

  // ----- the object -----

  /** The decoder object. Every handler makes exactly the transition that `Handle` describes. */
  class Decoder {
    var stack: seq<Item>
    var offsets: seq<Offset>
    var valid: bool
    var result: Json

    constructor ()
      ensures stack == [] && offsets == [] && !valid
    {
      stack := [];
      offsets := [];
      valid := false;
      result := Leaf(Null);
    }

    ghost function Abs(): State
      reads this
    {
      State(stack, offsets, valid, result)
    }

    method DoBeginJson()
      modifies this
      ensures Abs() == Handle(old(Abs()), BeginJson)
    {
      offsets := [];
      stack := [];
      offsets := offsets + [Offset(0, false)];
      valid := false;
    }

    method DoEndJson()
      modifies this
      ensures Abs() == Handle(old(Abs()), EndJson)
    {
      if |stack| == 1 {
        result := stack[0].value;
        stack := [];
        valid := true;
      }
    }

    method PlaceValue(v: Json)
      requires Ready(Abs())
      modifies this`stack
      ensures Abs() == Place(old(Abs()), v)
    {
      if offsets[|offsets| - 1].isObject {
        stack := stack[|stack| - 1 := stack[|stack| - 1].(value := v)];
      } else {
        stack := stack + [Item("", v)];
      }
    }

    method DoBeginObject()
      requires Ready(Abs())
      modifies this
      ensures Abs() == Handle(old(Abs()), BeginObject)
    {
      PlaceValue(Obj([]));
      offsets := offsets + [Offset(|stack| - 1, true)];
    }

    method DoBeginArray()
      requires Ready(Abs())
      modifies this
      ensures Abs() == Handle(old(Abs()), BeginArray)
    {
      PlaceValue(Arr([]));
      offsets := offsets + [Offset(|stack| - 1, false)];
    }

    /** The named children from position k on, in order. */
    method MoveMembers(k: nat) returns (members: seq<Member>)
      requires k <= |stack|
      ensures members == Members(stack[k..])
    {
      members := [];
      var first := k;
      while first < |stack|
        invariant k <= first <= |stack|
        invariant members + Members(stack[first..]) == Members(stack[k..])
      {
        assert stack[first..][0] == stack[first] && stack[first..][1..] == stack[first + 1..];
        members := members + [Member(stack[first].name, stack[first].value)];
        first := first + 1;
      }
      assert stack[first..] == [];
    }

    /** The values of the children from position k on, in order. */
    method MoveValues(k: nat) returns (items: seq<Json>)
      requires k <= |stack|
      ensures items == Values(stack[k..])
    {
      items := [];
      var first := k;
      while first < |stack|
        invariant k <= first <= |stack|
        invariant items + Values(stack[first..]) == Values(stack[k..])
      {
        assert stack[first..][0] == stack[first] && stack[first..][1..] == stack[first + 1..];
        items := items + [stack[first].value];
        first := first + 1;
      }
      assert stack[first..] == [];
    }

    /** Moves the children above the innermost structure into it. */
    method EndStructure()
      requires CanClose(Abs())
      modifies this`stack
      ensures var k := TopOffset(Abs()).index;
              var children := old(stack)[k + 1..];
              stack == old(stack)[k := old(stack)[k].(value :=
                if TopOffset(Abs()).isObject then Obj(Members(children)) else Arr(Values(children)))]
    {
      var k := offsets[|offsets| - 1].index;
      if offsets[|offsets| - 1].isObject {
        var members := MoveMembers(k + 1);
        stack := stack[k := stack[k].(value := Obj(members))];
      } else {
        var items := MoveValues(k + 1);
        stack := stack[k := stack[k].(value := Arr(items))];
      }
    }

    method Pop()
      requires CanClose(Abs())
      modifies this`stack, this`offsets
      ensures stack == old(stack)[..TopOffset(old(Abs())).index + 1]
      ensures offsets == old(offsets)[..|old(offsets)| - 1]
    {
      stack := stack[..offsets[|offsets| - 1].index + 1];
      offsets := offsets[..|offsets| - 1];
    }

    method DoEndObject()
      requires CanClose(Abs())
      modifies this
      ensures Abs() == Handle(old(Abs()), EndObject)
    {
      EndStructure();
      Pop();
    }

    method DoEndArray()
      requires CanClose(Abs())
      modifies this
      ensures Abs() == Handle(old(Abs()), EndArray)
    {
      EndStructure();
      Pop();
    }

    method DoName(name: string)
      modifies this
      ensures Abs() == Handle(old(Abs()), Name(name))
    {
      stack := stack + [Item(name, Leaf(Null))];
    }

    method DoValue(s: Scalar)
      requires Ready(Abs())
      modifies this
      ensures Abs() == Handle(old(Abs()), Value(s))
    {
      PlaceValue(Leaf(s));
    }

    method GetResult() returns (v: Json)
      modifies this`valid
      ensures !valid && v == result
    {
      valid := false;
      v := result;
    }
  }

  // ----- decoding inverts the event stream -----

  /** The items that a list of values, or of members, leaves on the stack. */
  function ItemsOf(vs: seq<Json>): seq<Item> {
    if vs == [] then [] else [Item("", vs[0])] + ItemsOf(vs[1..])
  }

  function MemberItems(ms: seq<Member>): seq<Item> {
    if ms == [] then [] else [Item(ms[0].name, ms[0].value)] + MemberItems(ms[1..])
  }

  lemma {:induction false} ValuesOfItems(vs: seq<Json>)
    ensures Values(ItemsOf(vs)) == vs
  {
    if vs != [] {
      ValuesOfItems(vs[1..]);
      assert ItemsOf(vs)[1..] == ItemsOf(vs[1..]);
    }
  }

  lemma {:induction false} MembersOfItems(ms: seq<Member>)
    ensures Members(MemberItems(ms)) == ms
  {
    if ms != [] {
      MembersOfItems(ms[1..]);
      assert MemberItems(ms)[1..] == MemberItems(ms[1..]);
    }
  }

  /** A structure opened and filled with items above its slot closes to one placed value. */
  lemma CloseFilled(st: State, isObject: bool, items: seq<Item>)
    requires Ready(st)
    ensures var filled := Open(st, isObject).(stack := Open(st, isObject).stack + items);
            && CanClose(filled)
            && Close(filled) == Place(st, if isObject then Obj(Members(items)) else Arr(Values(items)))
  {
    var start := Open(st, isObject);
    var filled := start.(stack := start.stack + items);
    var k := |start.stack| - 1;
    assert filled.stack[k + 1..] == items;
    assert filled.stack[..k] == start.stack[..k];
    assert filled.offsets[..|filled.offsets| - 1] == st.offsets;
    var v := if isObject then Obj(Members(items)) else Arr(Values(items));
    assert Close(filled).stack == start.stack[..k] + [start.stack[k].(value := v)];
    assert Place(st, v).stack[..k] == start.stack[..k];
    assert Place(st, v).stack[k] == start.stack[k].(value := v);
  }

  lemma DecodesBracketed(st: State, isObject: bool, es: seq<Event>, items: seq<Item>, begin: Event, end: Event)
    requires Ready(st)
    requires begin == (if isObject then BeginObject else BeginArray) && end == (if isObject then EndObject else EndArray)
    requires Decodes(Open(st, isObject), es, Open(st, isObject).(stack := Open(st, isObject).stack + items))
    ensures Decodes(st, [begin] + es + [end], Place(st, if isObject then Obj(Members(items)) else Arr(Values(items))))
  {
    var start := Open(st, isObject);
    var filled := start.(stack := start.stack + items);
    CloseFilled(st, isObject, items);
    DecodesOne(st, begin);
    DecodesConcat(st, [begin], start, es, filled);
    DecodesOne(filled, end);
    DecodesConcat(st, [begin] + es, filled, [end], Close(filled));
  }

  /**
   The supporting invariant: from any state with an open structure, the events
   of a value place exactly that value and restore the offsets.
   */
  lemma {:induction false} DecodesValue(st: State, v: Json)
    requires Ready(st)
    ensures Decodes(st, Events(v), Place(st, v))
    decreases v, 1
  {
    match v
    case Leaf(s) =>
      DecodesOne(st, Value(s));
    case Arr(items) =>
      DecodesItems(Open(st, false), items);
      ValuesOfItems(items);
      DecodesBracketed(st, false, ItemEvents(items), ItemsOf(items), BeginArray, EndArray);
    case Obj(members) =>
      DecodesMembers(Open(st, true), members);
      MembersOfItems(members);
      DecodesBracketed(st, true, MemberEvents(members), MemberItems(members), BeginObject, EndObject);
  }

  lemma {:induction false} DecodesItems(st: State, vs: seq<Json>)
    requires Ready(st) && !TopOffset(st).isObject
    ensures Decodes(st, ItemEvents(vs), st.(stack := st.stack + ItemsOf(vs)))
    decreases vs, 0
  {
    if vs == [] {
      assert st.stack + [] == st.stack;
    } else {
      var st1 := Place(st, vs[0]);
      DecodesValue(st, vs[0]);
      DecodesItems(st1, vs[1..]);
      ConcatAssociates(st.stack, [Item("", vs[0])], ItemsOf(vs[1..]));
      DecodesConcat(st, Events(vs[0]), st1, ItemEvents(vs[1..]), st.(stack := st.stack + ItemsOf(vs)));
    }
  }

  lemma {:induction false} DecodesMembers(st: State, ms: seq<Member>)
    requires Ready(st) && TopOffset(st).isObject
    ensures Decodes(st, MemberEvents(ms), st.(stack := st.stack + MemberItems(ms)))
    decreases ms, 0
  {
    if ms == [] {
      assert st.stack + [] == st.stack;
    } else {
      var m := ms[0];
      var named := Handle(st, Name(m.name));
      var st1 := st.(stack := st.stack + [Item(m.name, m.value)]);
      DecodesOne(st, Name(m.name));
      DecodesValue(named, m.value);
      assert Place(named, m.value) == st1;
      DecodesConcat(st, [Name(m.name)], named, Events(m.value), st1);
      DecodesMembers(st1, ms[1..]);
      ConcatAssociates(st.stack, [Item(m.name, m.value)], MemberItems(ms[1..]));
      DecodesConcat(st, [Name(m.name)] + Events(m.value), st1, MemberEvents(ms[1..]), st.(stack := st.stack + MemberItems(ms)));
    }
  }

  /** The state after a document whose top-level values are vs. */
  function After(st: State, vs: seq<Json>): State {
    if |vs| == 1 then State([], [Offset(0, false)], true, vs[0])
    else State(ItemsOf(vs), [Offset(0, false)], false, st.result)
  }

  lemma {:induction false} ItemsOfLength(vs: seq<Json>)
    ensures |ItemsOf(vs)| == |vs|
  {
    if vs != [] {
      ItemsOfLength(vs[1..]);
    }
  }

  /**
   From any state at all, a document holding the values vs is decoded, and it
   leaves a valid result exactly when there is one value, which is the result.
   */
  lemma DecodesDocument(st: State, vs: seq<Json>)
    ensures Decodes(st, [BeginJson] + ItemEvents(vs) + [EndJson], After(st, vs))
    ensures After(st, vs).valid <==> |vs| == 1
    ensures |vs| == 1 ==> After(st, vs).result == vs[0]
  {
    var start := Handle(st, BeginJson);
    DecodesOne(st, BeginJson);
    DecodesItems(start, vs);
    ItemsOfLength(vs);
    assert start.stack + ItemsOf(vs) == ItemsOf(vs);
    var filled := start.(stack := ItemsOf(vs));
    DecodesConcat(st, [BeginJson], start, ItemEvents(vs), filled);
    DecodesOne(filled, EndJson);
    DecodesConcat(st, [BeginJson] + ItemEvents(vs), filled, [EndJson], Handle(filled, EndJson));
  }

  /** The decoder with a valid result. */
  function Decoded(v: Json): State { State([], [Offset(0, false)], true, v) }

  /** Main result: from any state the decoder gets through the event stream of a tree, and ends with the tree. */
  lemma DecoderInvertsEvents(st: State, v: Json, st': State)
    ensures Decodes(st, Document(v), st') <==> st' == Decoded(v)
  {
    DecodesDocument(st, [v]);
    assert ItemEvents([v]) == Events(v) + ItemEvents([]);
    assert [BeginJson] + ItemEvents([v]) + [EndJson] == Document(v);
    if Decodes(st, Document(v), st') {
      DecodesFunctional(st, Document(v), st', After(st, [v]));
    }
  }
}
