/**
 Streaming filters: each event is forwarded, rewritten or dropped on its own,
 with no state. What a filter does to the stream of a tree is shown to be a
 function on trees.
 */
module JsonFilter {
  import opened Wrappers
  import opened JsonTree
  import D = JsonDecoder
  import S = JsonSerializer
  import R = JsonReader

  // ----- the rename filter -----

  function RenameEvent(e: Event, name: string, newName: string): Event {
    match e
    case Name(n) => if n == name then Name(newName) else e
    case _ => e
  }

  function RenameStream(es: seq<Event>, name: string, newName: string): seq<Event> {
    if es == [] then [] else [RenameEvent(es[0], name, newName)] + RenameStream(es[1..], name, newName)
  }

  /** The tree with that member name replaced in every object at every depth. */
  function RenameTree(v: Json, name: string, newName: string): Json
    decreases v, 1
  {
    match v
    case Leaf(_) => v
    case Arr(items) => Arr(RenameItems(items, name, newName))
    case Obj(members) => Obj(RenameMembers(members, name, newName))
  }

  function RenameItems(items: seq<Json>, name: string, newName: string): seq<Json>
    decreases items, 0
  {
    if items == [] then [] else [RenameTree(items[0], name, newName)] + RenameItems(items[1..], name, newName)
  }

  function RenameMembers(members: seq<Member>, name: string, newName: string): seq<Member>
    decreases members, 0
  {
    if members == [] then []
    else
      var m := members[0];
      [Member(if m.name == name then newName else m.name, RenameTree(m.value, name, newName))]
      + RenameMembers(members[1..], name, newName)
  }

  lemma {:induction false} RenameConcat(a: seq<Event>, b: seq<Event>, name: string, newName: string)
    ensures RenameStream(a + b, name, newName) == RenameStream(a, name, newName) + RenameStream(b, name, newName)
  {
    if a == [] {
      assert a + b == b;
    } else {
      assert (a + b)[1..] == a[1..] + b;
      RenameConcat(a[1..], b, name, newName);
    }
  }

  lemma RenameBracketed(begin: Event, es: seq<Event>, end: Event, name: string, newName: string)
    requires !begin.Name? && !end.Name?
    ensures RenameStream([begin] + es + [end], name, newName) == [begin] + RenameStream(es, name, newName) + [end]
  {
    RenameConcat([begin] + es, [end], name, newName);
    RenameConcat([begin], es, name, newName);
    assert [begin][1..] == [] && [end][1..] == [];
  }

  lemma {:induction false} RenameEvents(v: Json, name: string, newName: string)
    ensures RenameStream(Events(v), name, newName) == Events(RenameTree(v, name, newName))
    decreases v, 1
  {
    match v
    case Leaf(s) =>
      assert [Value(s)][1..] == [];
    case Arr(items) =>
      RenameItemEvents(items, name, newName);
      RenameBracketed(BeginArray, ItemEvents(items), EndArray, name, newName);
    case Obj(members) =>
      RenameMemberEvents(members, name, newName);
      RenameBracketed(BeginObject, MemberEvents(members), EndObject, name, newName);
  }

  lemma {:induction false} RenameItemEvents(items: seq<Json>, name: string, newName: string)
    ensures RenameStream(ItemEvents(items), name, newName) == ItemEvents(RenameItems(items, name, newName))
    decreases items, 0
  {
    if items != [] {
      RenameConcat(Events(items[0]), ItemEvents(items[1..]), name, newName);
      RenameEvents(items[0], name, newName);
      RenameItemEvents(items[1..], name, newName);
      assert RenameItems(items, name, newName)[1..] == RenameItems(items[1..], name, newName);
    }
  }

  lemma {:induction false} RenameMemberEvents(members: seq<Member>, name: string, newName: string)
    ensures RenameStream(MemberEvents(members), name, newName) == MemberEvents(RenameMembers(members, name, newName))
    decreases members, 0
  {
    if members != [] {
      var m := members[0];
      RenameConcat([Name(m.name)] + Events(m.value), MemberEvents(members[1..]), name, newName);
      RenameConcat([Name(m.name)], Events(m.value), name, newName);
      assert [Name(m.name)][1..] == [];
      RenameEvents(m.value, name, newName);
      RenameMemberEvents(members[1..], name, newName);
      assert RenameMembers(members, name, newName)[1..] == RenameMembers(members[1..], name, newName);
    }
  }

  /** Main result: the decoder behind a rename filter gets through, and ends with the renamed tree. */
  lemma RenameThenDecode(st: D.State, v: Json, name: string, newName: string, st': D.State)
    ensures D.Decodes(st, RenameStream(Document(v), name, newName), st') <==> st' == D.Decoded(RenameTree(v, name, newName))
  {
    RenameBracketed(BeginJson, Events(v), EndJson, name, newName);
    RenameEvents(v, name, newName);
    D.DecoderInvertsEvents(st, RenameTree(v, name, newName), st');
  }

  /** And a serializer behind it writes text that reads back as the renamed tree. */
  lemma RenameThenSerialize(v: Json, name: string, newName: string, options: S.Options)
    ensures R.ReadDocument(S.Run(S.Initial, S.Config(false, options), RenameStream(Document(v), name, newName)).out) ==
            Some(RenameTree(v, name, newName))
  {
    RenameBracketed(BeginJson, Events(v), EndJson, name, newName);
    RenameEvents(v, name, newName);
    R.SerializeThenRead(RenameTree(v, name, newName), options);
  }

  /** No object at any depth has a member of that name. */
  predicate Lacks(v: Json, name: string)
    decreases v, 1
  {
    match v
    case Leaf(_) => true
    case Arr(items) => ItemsLack(items, name)
    case Obj(members) => MembersLack(members, name)
  }

  predicate ItemsLack(items: seq<Json>, name: string)
    decreases items, 0
  {
    items == [] || (Lacks(items[0], name) && ItemsLack(items[1..], name))
  }

  predicate MembersLack(members: seq<Member>, name: string)
    decreases members, 0
  {
    members == [] || (members[0].name != name && Lacks(members[0].value, name) && MembersLack(members[1..], name))
  }

  /** After renaming to a different name the old one is gone everywhere. */
  lemma {:induction false} RenameRemoves(v: Json, name: string, newName: string)
    requires name != newName
    ensures Lacks(RenameTree(v, name, newName), name)
    decreases v, 1
  {
    match v
    case Leaf(_) =>
    case Arr(items) => RenameRemovesItems(items, name, newName);
    case Obj(members) => RenameRemovesMembers(members, name, newName);
  }

  lemma {:induction false} RenameRemovesItems(items: seq<Json>, name: string, newName: string)
    requires name != newName
    ensures ItemsLack(RenameItems(items, name, newName), name)
    decreases items, 0
  {
    if items != [] {
      RenameRemoves(items[0], name, newName);
      RenameRemovesItems(items[1..], name, newName);
      assert RenameItems(items, name, newName)[1..] == RenameItems(items[1..], name, newName);
    }
  }

  lemma {:induction false} RenameRemovesMembers(members: seq<Member>, name: string, newName: string)
    requires name != newName
    ensures MembersLack(RenameMembers(members, name, newName), name)
    decreases members, 0
  {
    if members != [] {
      RenameRemoves(members[0].value, name, newName);
      RenameRemovesMembers(members[1..], name, newName);
      assert RenameMembers(members, name, newName)[1..] == RenameMembers(members[1..], name, newName);
    }
  }

  /**
   Renaming can be undone exactly on the trees that lack the new name: otherwise
   the two kinds of member are merged.
   */
  lemma {:induction false} RenameUndone(v: Json, name: string, newName: string)
    requires name != newName
    ensures RenameTree(RenameTree(v, name, newName), newName, name) == v <==> Lacks(v, newName)
    decreases v, 1
  {
    match v
    case Leaf(_) =>
    case Arr(items) => RenameUndoneItems(items, name, newName);
    case Obj(members) => RenameUndoneMembers(members, name, newName);
  }

  lemma {:induction false} RenameUndoneItems(items: seq<Json>, name: string, newName: string)
    requires name != newName
    ensures RenameItems(RenameItems(items, name, newName), newName, name) == items <==> ItemsLack(items, newName)
    decreases items, 0
  {
    if items != [] {
      RenameUndone(items[0], name, newName);
      RenameUndoneItems(items[1..], name, newName);
      var there := RenameItems(items, name, newName);
      assert there[1..] == RenameItems(items[1..], name, newName);
      var back := RenameItems(there, newName, name);
      assert back[0] == RenameTree(RenameTree(items[0], name, newName), newName, name);
      assert back[1..] == RenameItems(there[1..], newName, name);
      assert items == [items[0]] + items[1..] && back == [back[0]] + back[1..];
    }
  }

  lemma {:induction false} RenameUndoneMembers(members: seq<Member>, name: string, newName: string)
    requires name != newName
    ensures RenameMembers(RenameMembers(members, name, newName), newName, name) == members <==> MembersLack(members, newName)
    decreases members, 0
  {
    if members != [] {
      RenameUndone(members[0].value, name, newName);
      RenameUndoneMembers(members[1..], name, newName);
      var there := RenameMembers(members, name, newName);
      assert there[1..] == RenameMembers(members[1..], name, newName);
      var back := RenameMembers(there, newName, name);
      assert back[0].value == RenameTree(RenameTree(members[0].value, name, newName), newName, name);
      assert back[0].name == members[0].name <==> members[0].name != newName;
      assert back[1..] == RenameMembers(there[1..], newName, name);
      assert members == [members[0]] + members[1..] && back == [back[0]] + back[1..];
    }
  }

  // ----- the fragment filter -----

  /** Drops the begin and end of a document and forwards everything else. */
  function FragmentStream(es: seq<Event>): seq<Event> {
    if es == [] then []
    else (if es[0] == BeginJson || es[0] == EndJson then [] else [es[0]]) + FragmentStream(es[1..])
  }

  lemma {:induction false} FragmentConcat(a: seq<Event>, b: seq<Event>)
    ensures FragmentStream(a + b) == FragmentStream(a) + FragmentStream(b)
  {
    if a == [] {
      assert a + b == b;
    } else {
      assert (a + b)[1..] == a[1..] + b;
      FragmentConcat(a[1..], b);
    }
  }

  lemma FragmentOne(e: Event)
    ensures FragmentStream([e]) == if e == BeginJson || e == EndJson then [] else [e]
  {
    assert [e][1..] == [];
  }

  lemma FragmentBracketed(begin: Event, es: seq<Event>, end: Event)
    requires FragmentStream(es) == es
    ensures FragmentStream([begin] + es + [end]) == FragmentStream([begin]) + es + FragmentStream([end])
  {
    FragmentConcat([begin] + es, [end]);
    FragmentConcat([begin], es);
  }

  lemma {:induction false} FragmentKeepsEvents(v: Json)
    ensures FragmentStream(Events(v)) == Events(v)
    decreases v, 1
  {
    match v
    case Leaf(s) =>
      FragmentOne(Value(s));
    case Arr(items) =>
      FragmentKeepsItems(items);
      FragmentBracketed(BeginArray, ItemEvents(items), EndArray);
      FragmentOne(BeginArray);
      FragmentOne(EndArray);
    case Obj(members) =>
      FragmentKeepsMembers(members);
      FragmentBracketed(BeginObject, MemberEvents(members), EndObject);
      FragmentOne(BeginObject);
      FragmentOne(EndObject);
  }

  lemma {:induction false} FragmentKeepsItems(items: seq<Json>)
    ensures FragmentStream(ItemEvents(items)) == ItemEvents(items)
    decreases items, 0
  {
    if items != [] {
      FragmentConcat(Events(items[0]), ItemEvents(items[1..]));
      FragmentKeepsEvents(items[0]);
      FragmentKeepsItems(items[1..]);
    }
  }

  lemma {:induction false} FragmentKeepsMembers(members: seq<Member>)
    ensures FragmentStream(MemberEvents(members)) == MemberEvents(members)
    decreases members, 0
  {
    if members != [] {
      var m := members[0];
      FragmentConcat([Name(m.name)] + Events(m.value), MemberEvents(members[1..]));
      FragmentConcat([Name(m.name)], Events(m.value));
      FragmentOne(Name(m.name));
      FragmentKeepsEvents(m.value);
      FragmentKeepsMembers(members[1..]);
    }
  }

  /** Several documents, one after the other. */
  function Documents(vs: seq<Json>): seq<Event> {
    if vs == [] then [] else Document(vs[0]) + Documents(vs[1..])
  }

  lemma {:induction false} FragmentsOfDocuments(vs: seq<Json>)
    ensures FragmentStream(Documents(vs)) == ItemEvents(vs)
  {
    if vs != [] {
      FragmentConcat(Document(vs[0]), Documents(vs[1..]));
      FragmentKeepsEvents(vs[0]);
      FragmentBracketed(BeginJson, Events(vs[0]), EndJson);
      FragmentOne(BeginJson);
      FragmentOne(EndJson);
      FragmentsOfDocuments(vs[1..]);
    }
  }

  /** Main result: documents fed through the filter inside one array decode to the array of their values. */
  lemma FragmentsDecodeToArray(st: D.State, vs: seq<Json>, st': D.State)
    ensures D.Decodes(st, [BeginJson] + ([BeginArray] + FragmentStream(Documents(vs)) + [EndArray]) + [EndJson], st') <==> st' == D.Decoded(Arr(vs))
  {
    FragmentsOfDocuments(vs);
    D.DecoderInvertsEvents(st, Arr(vs), st');
  }
}
