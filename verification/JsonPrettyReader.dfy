/**
 Indented text: a printer over the tree, the options and the depth says where
 every line breaks and how far it is indented; the machine is shown to write what
 it prints, and the reader for RFC 8259 to undo it, whatever the options.
 */
module JsonPrettyReader {
  import opened Wrappers
  import opened JsonTree
  import opened JsonSerializer
  import opened JsonReader
  import opened JsonPretty

  // ----- the printer -----

  /** Where a value stands: by itself, as the value of a member, or as an element of an array. */
  datatype Place = Alone | InMember | InElement

  /** How the elements of an array are laid out; `once` breaks the line before the first. */
  datatype Layout = Layout(split: SplitKind, once: bool)

  function ArrayLayout(o: Options, place: Place): Layout {
    match place
    case Alone => Layout(MultiLine, false)
    case InMember => Layout(o.objectArray, o.objectArray != SameLine)
    case InElement => Layout(o.arrayArray, false)
  }

  function ObjectSplit(o: Options, place: Place): SplitKind {
    match place
    case Alone => MultiLine
    case InMember => o.objectObject
    case InElement => o.arrayObject
  }

  /** Does an element begin a line? */
  predicate Breaks(v: Json, o: Options, layout: Layout, first: bool) {
    match v
    case Leaf(_) => layout.split == MultiLine || (first && layout.once)
    case Arr(_) => o.arrayArray != SameLine
    case Obj(_) => o.arrayObject != SameLine
  }

  predicate AnyBreaks(items: seq<Json>, o: Options, layout: Layout, first: bool) {
    items != [] && (Breaks(items[0], o, layout, first) || AnyBreaks(items[1..], o, layout, false))
  }

  /** A line break and the indentation of a depth, or nothing. */
  function Line(broken: bool, o: Options, depth: int): string { if broken then "\n" + Spaces(o.indent * depth) else "" }

  function Comma(first: bool): string { if first then "" else "," }

  /** A value with `depth` structures open around it. A structure that broke a line inside breaks one before its bracket. */
  function PrettyText(v: Json, o: Options, place: Place, depth: nat): string
    decreases v, 1
  {
    match v
    case Leaf(s) => ScalarText(s, o.escape)
    case Arr(items) =>
      var layout := ArrayLayout(o, place);
      "[" + (PrettyItems(items, o, layout, true, depth + 1) + (Line(AnyBreaks(items, o, layout, true), o, depth) + "]"))
    case Obj(members) =>
      var split := ObjectSplit(o, place);
      "{" + (PrettyMembers(members, o, split, true, depth + 1) + (Line(split == MultiLine && members != [], o, depth) + "}"))
  }

  function PrettyItems(items: seq<Json>, o: Options, layout: Layout, first: bool, depth: nat): string
    decreases items, 0
  {
    if items == [] then ""
    else
      Comma(first) + (Line(Breaks(items[0], o, layout, first), o, depth)
        + (PrettyText(items[0], o, InElement, depth) + PrettyItems(items[1..], o, layout, false, depth)))
  }

  /** A member's name, on a line of its own if the object is laid out so. */
  function NameText(name: string, o: Options, split: SplitKind, depth: nat): string {
    Line(split == MultiLine, o, depth) + (Quoted(name, o.escape) + ": ")
  }

  function PrettyMembers(members: seq<Member>, o: Options, split: SplitKind, first: bool, depth: nat): string
    decreases members, 0
  {
    if members == [] then ""
    else
      Comma(first) + (NameText(members[0].name, o, split, depth)
        + (PrettyText(members[0].value, o, InMember, depth) + PrettyMembers(members[1..], o, split, false, depth)))
  }

  /** The indentation is as many spaces as its width says, and nothing else. */
  lemma {:induction false} SpacesAre(n: int)
    ensures |Spaces(n)| == (if n > 0 then n else 0) && forall i :: 0 <= i < |Spaces(n)| ==> Spaces(n)[i] == ' '
  {
    if n > 0 {
      SpacesAre(n - 1);
    }
  }

  // ----- the machine writes it -----

  function Ran(st: State, o: Options, es: seq<Event>): State { Run(st, Config(true, o), es) }

  function PlaceOf(st: State): Place { if st.stack == [] then Alone else if Top(st).isObject then InMember else InElement }

  function LayoutOf(st: State): Layout
    requires st.stack != []
  {
    Layout(Top(st).split, Top(st).indentOnce)
  }

  /** What precedes a value: for an element, its comma and its line break. */
  function Lead(st: State, o: Options, v: Json): string {
    if InArray(st) then Comma(Top(st).count == 0) + Line(Breaks(v, o, LayoutOf(st), Top(st).count == 0), o, |st.stack|) else ""
  }

  /** Text s written, n more children counted, and a line break among them noted. */
  function Filled(st: State, s: string, n: nat, broke: bool): State {
    if st.stack == [] then Put(st, s)
    else SetTop(Put(st, s), Top(st).(count := Top(st).count + n, unindentAtEnd := Top(st).unindentAtEnd || broke))
  }

  predicate Broke(st: State, o: Options, v: Json) { InArray(st) && Breaks(v, o, LayoutOf(st), Top(st).count == 0) }

  lemma FilledTwice(st: State, s: string, m: nat, a: bool, t: string, n: nat, b: bool)
    ensures Filled(Filled(st, s, m, a), t, n, b) == Filled(st, s + t, m + n, a || b)
  {
    ConcatAssociates(st.out, s, t);
  }

  lemma FilledKeeps(st: State, o: Options, s: string, n: nat, broke: bool)
    requires Indented(st, o)
    ensures var st' := Filled(st, s, n, broke);
            && Indented(st', o) && |st'.stack| == |st.stack| && InArray(st') == InArray(st) && InObject(st') == InObject(st)
            && (st.stack != [] ==> LayoutOf(st') == LayoutOf(st) && Top(st').count == Top(st).count + n)
  {
  }

  lemma LeafWritten(st: State, o: Options, s: Scalar)
    requires Indented(st, o)
    ensures Ran(st, o, [Value(s)]) == Filled(st, Lead(st, o, Leaf(s)) + ScalarText(s, o.escape), 1, Broke(st, o, Leaf(s)))
  {
    RunOne(st, Config(true, o), Value(s));
    var text := ScalarText(s, o.escape);
    if InArray(st) {
      ElementBegun(st, o, s);
      ConcatAssociates(st.out, Lead(st, o, Leaf(s)), text);
    } else {
      assert "" + text == text;
    }
  }

  lemma ElementBegun(st: State, o: Options, s: Scalar)
    requires Indented(st, o) && InArray(st)
    ensures BeginScalarStep(st, Config(true, o)) == Filled(st, Lead(st, o, Leaf(s)), 0, Broke(st, o, Leaf(s)))
  {
    var comma, line := Comma(Top(st).count == 0), Line(Breaks(Leaf(s), o, LayoutOf(st), Top(st).count == 0), o, |st.stack|);
    ConcatAssociates(st.out, comma, line);
    assert (st.out + comma) + "" == st.out + comma;
  }

  /** A structure just begun. */
  function Begun(st: State, o: Options, v: Json, item: Item, open: string): State {
    Put(Push(Filled(st, Lead(st, o, v), 0, Broke(st, o, v)), item).(indent := st.indent + o.indent), open)
  }

  lemma ArrayBegun(st: State, o: Options, items: seq<Json>)
    requires Indented(st, o)
    ensures var layout := ArrayLayout(o, PlaceOf(st));
            Handle(st, Config(true, o), BeginArray) == Begun(st, o, Arr(items), NewItem(false, layout.split, layout.once), "[")
  {
    if InArray(st) {
      var comma := Comma(Top(st).count == 0);
      ConcatAssociates(st.out, comma, Line(o.arrayArray != SameLine, o, |st.stack|));
      assert comma + "" == comma;
    } else {
      assert st.out + "" == st.out;
    }
  }

  lemma ObjectBegun(st: State, o: Options, members: seq<Member>)
    requires Indented(st, o)
    ensures Handle(st, Config(true, o), BeginObject)
            == Begun(st, o, Obj(members), NewItem(true, ObjectSplit(o, PlaceOf(st)), false), "{")
  {
    if InArray(st) {
      var comma := Comma(Top(st).count == 0);
      ConcatAssociates(st.out, comma, Line(o.arrayObject != SameLine, o, |st.stack|));
      assert comma + "" == comma;
    } else {
      assert st.out + "" == st.out;
    }
  }

  lemma BegunKeeps(st: State, o: Options, v: Json, item: Item, open: string)
    requires Indented(st, o)
    ensures var st1 := Begun(st, o, v, item, open);
            Indented(st1, o) && |st1.stack| == |st.stack| + 1 && Top(st1) == item && Pop(st1).stack == Filled(st, "", 0, Broke(st, o, v)).stack
  {
    assert o.indent * (|st.stack| + 1) == o.indent * |st.stack| + o.indent;
  }

  /** The end of a structure whose contents are known. */
  lemma Ended(st: State, o: Options, v: Json, item: Item, open: string, inside: string, n: nat, broke: bool, close: string)
    requires Indented(st, o) && !item.unindentAtEnd
    ensures EndStep(Filled(Begun(st, o, v, item, open), inside, n, broke), Config(true, o), close)
            == Filled(st, Lead(st, o, v) + (open + (inside + (Line(broke, o, |st.stack|) + close))), 1, Broke(st, o, v))
  {
    var st1 := Begun(st, o, v, item, open);
    var st2 := Filled(st1, inside, n, broke);
    var line := Line(broke, o, |st.stack|);
    BegunKeeps(st, o, v, item, open);
    assert st2.indent - o.indent == o.indent * |st.stack|;
    assert st2.stack[..|st2.stack| - 1] == st1.stack[..|st1.stack| - 1];
    EndedText(st.out, Lead(st, o, v), open, inside, line, close);
  }

  lemma EndedText(out: string, lead: string, open: string, inside: string, line: string, close: string)
    ensures ((((out + lead) + open) + inside) + line) + close == out + (lead + (open + (inside + (line + close))))
    ensures (((out + lead) + open) + inside) + "" == ((out + lead) + open) + inside
  {
  }

  function ArrayItem(st: State, o: Options): Item {
    var layout := ArrayLayout(o, PlaceOf(st));
    NewItem(false, layout.split, layout.once)
  }

  function ObjectItem(st: State, o: Options): Item { NewItem(true, ObjectSplit(o, PlaceOf(st)), false) }

  /** An array, once its elements are known to be written. */
  lemma {:induction false} ArrayWritten(st: State, o: Options, items: seq<Json>)
    requires Indented(st, o)
    requires var st1, layout := Begun(st, o, Arr(items), ArrayItem(st, o), "["), ArrayLayout(o, PlaceOf(st));
             Ran(st1, o, ItemEvents(items)) ==
             Filled(st1, PrettyItems(items, o, layout, true, |st.stack| + 1), |items|, AnyBreaks(items, o, layout, true))
    ensures Ran(st, o, Events(Arr(items)))
            == Filled(st, Lead(st, o, Arr(items)) + PrettyText(Arr(items), o, PlaceOf(st), |st.stack|), 1, Broke(st, o, Arr(items)))
  {
    var layout := ArrayLayout(o, PlaceOf(st));
    RunBracketed(st, Config(true, o), BeginArray, ItemEvents(items), EndArray);
    ArrayBegun(st, o, items);
    Ended(st, o, Arr(items), ArrayItem(st, o), "[", PrettyItems(items, o, layout, true, |st.stack| + 1),
          |items|, AnyBreaks(items, o, layout, true), "]");
  }

  /** An object, once its members are known to be written. */
  lemma {:induction false} ObjectWritten(st: State, o: Options, members: seq<Member>)
    requires Indented(st, o)
    requires var st1, split := Begun(st, o, Obj(members), ObjectItem(st, o), "{"), ObjectSplit(o, PlaceOf(st));
             Ran(st1, o, MemberEvents(members)) ==
             Filled(st1, PrettyMembers(members, o, split, true, |st.stack| + 1), |members|, split == MultiLine && members != [])
    ensures Ran(st, o, Events(Obj(members)))
            == Filled(st, Lead(st, o, Obj(members)) + PrettyText(Obj(members), o, PlaceOf(st), |st.stack|), 1, Broke(st, o, Obj(members)))
  {
    var split := ObjectSplit(o, PlaceOf(st));
    RunBracketed(st, Config(true, o), BeginObject, MemberEvents(members), EndObject);
    ObjectBegun(st, o, members);
    Ended(st, o, Obj(members), ObjectItem(st, o), "{", PrettyMembers(members, o, split, true, |st.stack| + 1),
          |members|, split == MultiLine && members != [], "}");
  }

  /** From any state of the indenting machine, the events of a value write what the printer prints, after what leads up to it. */
  lemma {:induction false} ValueWritten(st: State, o: Options, v: Json)
    requires Indented(st, o)
    ensures Ran(st, o, Events(v)) == Filled(st, Lead(st, o, v) + PrettyText(v, o, PlaceOf(st), |st.stack|), 1, Broke(st, o, v))
    decreases v, 1
  {
    match v
    case Leaf(s) => LeafWritten(st, o, s);
    case Arr(items) =>
      BegunKeeps(st, o, v, ArrayItem(st, o), "[");
      ItemsWritten(Begun(st, o, v, ArrayItem(st, o), "["), o, items);
      ArrayWritten(st, o, items);
    case Obj(members) =>
      BegunKeeps(st, o, v, ObjectItem(st, o), "{");
      MembersWritten(Begun(st, o, v, ObjectItem(st, o), "{"), o, members);
      ObjectWritten(st, o, members);
  }

  /** The text of some elements of the innermost array, from the first and the rest. */
  lemma ItemsParts(st: State, o: Options, items: seq<Json>)
    requires items != [] && InArray(st)
    ensures var v, layout, first := items[0], LayoutOf(st), Top(st).count == 0;
            && PrettyItems(items, o, layout, first, |st.stack|)
               == (Lead(st, o, v) + PrettyText(v, o, InElement, |st.stack|)) + PrettyItems(items[1..], o, layout, false, |st.stack|)
            && AnyBreaks(items, o, layout, first) == (Broke(st, o, v) || AnyBreaks(items[1..], o, layout, false))
  {
    var v, layout, first := items[0], LayoutOf(st), Top(st).count == 0;
    ItemText(Comma(first), Line(Breaks(v, o, layout, first), o, |st.stack|), PrettyText(v, o, InElement, |st.stack|),
             PrettyItems(items[1..], o, layout, false, |st.stack|));
  }

  lemma ItemText(comma: string, line: string, text: string, tail: string)
    ensures ((comma + line) + text) + tail == comma + (line + (text + tail))
  {
  }

  /** The elements of an array, once the first and the others are known to be written. */
  lemma ItemsJoined(st: State, o: Options, items: seq<Json>, head: string)
    requires items != [] && InArray(st)
    requires head == Lead(st, o, items[0]) + PrettyText(items[0], o, InElement, |st.stack|)
    ensures var layout, first, depth, others := LayoutOf(st), Top(st).count == 0, |st.stack|, items[1..];
            Filled(Filled(st, head, 1, Broke(st, o, items[0])), PrettyItems(others, o, layout, false, depth), |others|,
                   AnyBreaks(others, o, layout, false))
            == Filled(st, PrettyItems(items, o, layout, first, depth), |items|, AnyBreaks(items, o, layout, first))
  {
    var layout, others := LayoutOf(st), items[1..];
    FilledTwice(st, head, 1, Broke(st, o, items[0]), PrettyItems(others, o, layout, false, |st.stack|), |others|,
                AnyBreaks(others, o, layout, false));
    ItemsParts(st, o, items);
  }

  lemma {:induction false} ItemsWritten(st: State, o: Options, items: seq<Json>)
    requires Indented(st, o) && InArray(st)
    ensures var layout, first := LayoutOf(st), Top(st).count == 0;
            Ran(st, o, ItemEvents(items)) ==
            Filled(st, PrettyItems(items, o, layout, first, |st.stack|), |items|, AnyBreaks(items, o, layout, first))
    decreases items, 0
  {
    if items == [] {
      assert Filled(st, "", 0, false) == st;
    } else {
      var v := items[0];
      var head := Lead(st, o, v) + PrettyText(v, o, InElement, |st.stack|);
      RunConcat(st, Config(true, o), Events(v), ItemEvents(items[1..]));
      ValueWritten(st, o, v);
      FilledKeeps(st, o, head, 1, Broke(st, o, v));
      ItemsWritten(Filled(st, head, 1, Broke(st, o, v)), o, items[1..]);
      ItemsJoined(st, o, items, head);
    }
  }

  lemma NameWritten(st: State, o: Options, name: string)
    requires Indented(st, o) && InObject(st)
    ensures Ran(st, o, [Name(name)])
            == Filled(st, Comma(Top(st).count == 0) + NameText(name, o, Top(st).split, |st.stack|), 0, Top(st).split == MultiLine)
  {
    RunOne(st, Config(true, o), Name(name));
    var comma, line, q := Comma(Top(st).count == 0), Line(Top(st).split == MultiLine, o, |st.stack|), Quoted(name, o.escape);
    NamePieces(st.out, comma, line, q);
  }

  lemma NamePieces(out: string, comma: string, line: string, q: string)
    ensures ((((out + comma) + line) + q) + ":") + " " == out + (comma + (line + (q + ": ")))
    ensures (out + comma) + "" == out + comma
  {
    assert ":" + " " == ": ";
  }

  lemma MemberRun(st: State, o: Options, members: seq<Member>)
    requires members != []
    ensures var m := members[0];
            Ran(st, o, MemberEvents(members)) == Ran(Ran(Ran(st, o, [Name(m.name)]), o, Events(m.value)), o, MemberEvents(members[1..]))
  {
    var m, config := members[0], Config(true, o);
    RunConcat(st, config, [Name(m.name)] + Events(m.value), MemberEvents(members[1..]));
    RunConcat(st, config, [Name(m.name)], Events(m.value));
  }

  lemma MemberWritten(st: State, o: Options, m: Member, key: string)
    requires Indented(st, o) && InObject(st)
    requires key == Comma(Top(st).count == 0) + NameText(m.name, o, Top(st).split, |st.stack|)
    requires var named := Filled(st, key, 0, Top(st).split == MultiLine);
             Ran(named, o, Events(m.value)) ==
             Filled(named, Lead(named, o, m.value) + PrettyText(m.value, o, PlaceOf(named), |named.stack|), 1, Broke(named, o, m.value))
    ensures Ran(Ran(st, o, [Name(m.name)]), o, Events(m.value))
            == Filled(st, key + PrettyText(m.value, o, InMember, |st.stack|), 1, Top(st).split == MultiLine)
  {
    NameWritten(st, o, m.name);
    FilledKeeps(st, o, key, 0, Top(st).split == MultiLine);
    var text := PrettyText(m.value, o, InMember, |st.stack|);
    assert "" + text == text;
    FilledTwice(st, key, 0, Top(st).split == MultiLine, text, 1, false);
  }

  /** The text of some members of the innermost object, from the first and the rest. */
  lemma MembersParts(members: seq<Member>, o: Options, split: SplitKind, first: bool, depth: nat)
    requires members != []
    ensures var m := members[0];
            PrettyMembers(members, o, split, first, depth)
            == ((Comma(first) + NameText(m.name, o, split, depth)) + PrettyText(m.value, o, InMember, depth))
               + PrettyMembers(members[1..], o, split, false, depth)
  {
    ItemText(Comma(first), NameText(members[0].name, o, split, depth), PrettyText(members[0].value, o, InMember, depth),
             PrettyMembers(members[1..], o, split, false, depth));
  }

  /** The members of an object, once the first and the others are known to be written. */
  lemma MembersJoined(st: State, o: Options, members: seq<Member>, head: string)
    requires members != [] && st.stack != []
    requires var m, split, depth := members[0], Top(st).split, |st.stack|;
             head == (Comma(Top(st).count == 0) + NameText(m.name, o, split, depth)) + PrettyText(m.value, o, InMember, depth)
    ensures var split, first, depth, others := Top(st).split, Top(st).count == 0, |st.stack|, members[1..];
            Filled(Filled(st, head, 1, split == MultiLine), PrettyMembers(others, o, split, false, depth), |others|,
                   split == MultiLine && others != [])
            == Filled(st, PrettyMembers(members, o, split, first, depth), |members|, split == MultiLine)
  {
    var split, others := Top(st).split, members[1..];
    FilledTwice(st, head, 1, split == MultiLine, PrettyMembers(others, o, split, false, |st.stack|), |others|,
                split == MultiLine && others != []);
    MembersParts(members, o, split, Top(st).count == 0, |st.stack|);
  }

  lemma {:induction false} MembersWritten(st: State, o: Options, members: seq<Member>)
    requires Indented(st, o) && InObject(st)
    ensures var split := Top(st).split;
            Ran(st, o, MemberEvents(members)) ==
            Filled(st, PrettyMembers(members, o, split, Top(st).count == 0, |st.stack|), |members|, split == MultiLine && members != [])
    decreases members, 0
  {
    if members == [] {
      assert Filled(st, "", 0, false) == st;
    } else {
      var m, split := members[0], Top(st).split;
      var key := Comma(Top(st).count == 0) + NameText(m.name, o, split, |st.stack|);
      var head := key + PrettyText(m.value, o, InMember, |st.stack|);
      MemberRun(st, o, members);
      FilledKeeps(st, o, key, 0, split == MultiLine);
      ValueWritten(Filled(st, key, 0, split == MultiLine), o, m.value);
      MemberWritten(st, o, m, key);
      FilledKeeps(st, o, head, 1, split == MultiLine);
      MembersWritten(Filled(st, head, 1, split == MultiLine), o, members[1..]);
      MembersJoined(st, o, members, head);
    }
  }

  /** Main result: the indented output of a tree's events is the printer's text. */
  lemma PrettyIsPrint(o: Options, v: Json)
    ensures Run(Initial, Config(true, o), Document(v)).out == PrettyText(v, o, Alone, 0)
  {
    RunBracketed(Initial, Config(true, o), BeginJson, Events(v), EndJson);
    ValueWritten(Initial, o, v);
    var text := PrettyText(v, o, Alone, 0);
    assert "" + ("" + text) == text;
  }

  // ----- the reader undoes it -----

  predicate Blanks(b: string) { forall i :: 0 <= i < |b| ==> IsSpace(b[i]) }

  lemma {:induction false} SkipBlanks(b: string, t: string)
    requires Blanks(b)
    ensures SkipSpace(b + t) == SkipSpace(t)
    decreases |b|
  {
    if b == "" {
      assert b + t == t;
    } else {
      assert (b + t)[0] == b[0] && (b + t)[1..] == b[1..] + t;
      SkipBlanks(b[1..], t);
    }
  }

  lemma {:induction false} SkipTwice(t: string)
    ensures SkipSpace(SkipSpace(t)) == SkipSpace(t)
  {
    if t != "" && IsSpace(t[0]) {
      SkipTwice(t[1..]);
    }
  }

  lemma LineBlank(broken: bool, o: Options, depth: int)
    ensures Blanks(Line(broken, o, depth))
  {
    SpacesAre(o.indent * depth);
  }

  /** Whitespace before a value, or before what a structure holds, is skipped. */
  lemma BlanksSkipped(b: string, t: string)
    requires Blanks(b)
    ensures ReadValue(b + t) == ReadValue(t) && ReadItems(b + t) == ReadItems(t)
    ensures ReadMembers(b + t) == ReadMembers(t)
  {
    SkipBlanks(b, t);
  }

  lemma SkippedItems(t: string)
    ensures ReadItems(SkipSpace(t)) == ReadItems(t)
  {
    SkipTwice(t);
    assert ReadValue(SkipSpace(t)) == ReadValue(t);
  }

  lemma SkippedMembers(t: string)
    ensures ReadMembers(SkipSpace(t)) == ReadMembers(t)
  {
    SkipTwice(t);
  }

  /** Text that begins, after whitespace, with something other than a closing bracket. */
  predicate Opens(t: string) { var u := SkipSpace(t); u != "" && u[0] != ']' && u[0] != '}' }

  lemma OpensGap(b: string, t: string, more: string)
    requires Blanks(b) && t != "" && !IsSpace(t[0]) && t[0] != ']' && t[0] != '}'
    ensures Opens((b + t) + more)
  {
    ConcatAssociates(b, t, more);
    SkipBlanks(b, t + more);
    assert SkipSpace(t + more) == t + more;
  }

  lemma TextOpens(v: Json, o: Options, place: Place, depth: nat)
    ensures var t := PrettyText(v, o, place, depth); t != "" && !IsSpace(t[0]) && t[0] != ']' && t[0] != '}'
  {
    match v
    case Leaf(s) => ReadPrintedScalar(s, o.escape, "");
    case _ =>
  }

  /** The end of a structure: whitespace, its bracket, and what follows. */
  lemma EndDelimited(b: string, close: char, rest: string)
    requires Blanks(b) && !IsNumberChar(close) && !IsSpace(close)
    ensures Delimited(b + ([close] + rest)) && SkipSpace(b + ([close] + rest)) == [close] + rest && ([close] + rest)[1..] == rest
  {
    SkipBlanks(b, [close] + rest);
    assert b != "" ==> (b + ([close] + rest))[0] == b[0];
    assert b == "" ==> b + ([close] + rest) == [close] + rest;
  }

  lemma Unwrap(open: string, inside: string, end: string, close: string, rest: string)
    ensures (open + (inside + (end + close))) + rest == open + (inside + (end + (close + rest)))
  {
  }

  lemma ReadBracketed(text: string, items: seq<Json>, rest: string)
    requires ReadArray(text) == Some(ParsedItems(items, rest))
    ensures ReadValue("[" + text) == Some(Parsed(Arr(items), rest))
  {
    ReadOpenedArray("[" + text);
    assert ("[" + text)[1..] == text;
  }

  lemma ReadBraced(text: string, members: seq<Member>, rest: string)
    requires ReadObject(text) == Some(ParsedMembers(members, rest))
    ensures ReadValue("{" + text) == Some(Parsed(Obj(members), rest))
  {
    ReadOpenedObject("{" + text);
    assert ("{" + text)[1..] == text;
  }

  /** Reading undoes indented printing, whatever may follow the value. */
  lemma {:induction false} ReadPretty(v: Json, o: Options, place: Place, depth: nat, rest: string)
    requires Delimited(rest)
    ensures ReadValue(PrettyText(v, o, place, depth) + rest) == Some(Parsed(v, rest))
    decreases v, 1
  {
    match v
    case Leaf(s) => ReadPrintedLeaf(s, o.escape, rest);
    case Arr(items) =>
      var layout := ArrayLayout(o, place);
      var text, end := PrettyItems(items, o, layout, true, depth + 1), Line(AnyBreaks(items, o, layout, true), o, depth);
      Unwrap("[", text, end, "]", rest);
      LineBlank(AnyBreaks(items, o, layout, true), o, depth);
      ReadPrettyArray(items, o, layout, depth + 1, end, rest);
      ReadBracketed(text + (end + ("]" + rest)), items, rest);
    case Obj(members) =>
      var split := ObjectSplit(o, place);
      var text, end := PrettyMembers(members, o, split, true, depth + 1), Line(split == MultiLine && members != [], o, depth);
      Unwrap("{", text, end, "}", rest);
      LineBlank(split == MultiLine && members != [], o, depth);
      ReadPrettyObject(members, o, split, depth + 1, end, rest);
      ReadBraced(text + (end + ("}" + rest)), members, rest);
  }

  /** The text of some elements and the end of their array, after the first comma if there is one. */
  function ItemsRest(items: seq<Json>, o: Options, layout: Layout, first: bool, depth: nat, end: string): string
    requires items != []
  {
    Line(Breaks(items[0], o, layout, first), o, depth)
    + (PrettyText(items[0], o, InElement, depth) + (PrettyItems(items[1..], o, layout, false, depth) + end))
  }

  lemma ItemsRestIs(items: seq<Json>, o: Options, layout: Layout, first: bool, depth: nat, end: string)
    requires items != []
    ensures PrettyItems(items, o, layout, first, depth) + end == Comma(first) + ItemsRest(items, o, layout, first, depth, end)
  {
    Pieces(Comma(first), Line(Breaks(items[0], o, layout, first), o, depth), PrettyText(items[0], o, InElement, depth),
           PrettyItems(items[1..], o, layout, false, depth), end);
  }

  lemma Pieces(a: string, b: string, c: string, d: string, e: string)
    ensures (a + (b + (c + d))) + e == a + (b + (c + (d + e)))
  {
  }

  lemma {:induction false} ReadPrettyArray(items: seq<Json>, o: Options, layout: Layout, depth: nat, b: string, rest: string)
    requires Blanks(b)
    ensures ReadArray(PrettyItems(items, o, layout, true, depth) + (b + ("]" + rest))) == Some(ParsedItems(items, rest))
    decreases items, 1
  {
    var end := b + ("]" + rest);
    var text := PrettyItems(items, o, layout, true, depth) + end;
    EndDelimited(b, ']', rest);
    if items == [] {
      assert text == end;
    } else {
      ItemsRestIs(items, o, layout, true, depth, end);
      var body := PrettyText(items[0], o, InElement, depth);
      var more := PrettyItems(items[1..], o, layout, false, depth) + end;
      assert "" + ItemsRest(items, o, layout, true, depth, end) == ItemsRest(items, o, layout, true, depth, end);
      LineBlank(Breaks(items[0], o, layout, true), o, depth);
      TextOpens(items[0], o, InElement, depth);
      OpensGap(Line(Breaks(items[0], o, layout, true), o, depth), body, more);
      ConcatAssociates(Line(Breaks(items[0], o, layout, true), o, depth), body, more);
      SkippedItems(text);
      ReadPrettyItems(items, o, layout, true, depth, b, rest);
    }
  }

  /** An element and the others, once it and they are known to be read back. */
  lemma ReadOneItem(gap: string, x: string, v: Json, more: string, others: seq<Json>, rest: string)
    requires Blanks(gap) && ReadValue(x) == Some(Parsed(v, more))
    requires var t := SkipSpace(more);
             t != "" && if others == [] then t[0] == ']' && t[1..] == rest
                        else t[0] == ',' && ReadItems(t[1..]) == Some(ParsedItems(others, rest))
    ensures ReadItems(gap + x) == Some(ParsedItems([v] + others, rest))
  {
    BlanksSkipped(gap, x);
    assert [v] + [] == [v];
  }

  /** What follows an element: the end of the array, or a comma and the next element. */
  lemma AfterItem(others: seq<Json>, o: Options, layout: Layout, depth: nat, b: string, close: char, rest: string)
    requires Blanks(b) && close == ']'
    ensures var more := PrettyItems(others, o, layout, false, depth) + (b + ([close] + rest));
            var t := SkipSpace(more);
            && Delimited(more) && t != ""
            && if others == [] then t[0] == close && t[1..] == rest
               else t[0] == ',' && t[1..] == ItemsRest(others, o, layout, false, depth, b + ([close] + rest))
  {
    var end := b + ([close] + rest);
    EndDelimited(b, close, rest);
    if others == [] {
      assert "" + end == end;
    } else {
      ItemsRestIs(others, o, layout, false, depth, end);
      CommaText(ItemsRest(others, o, layout, false, depth, end));
    }
  }

  lemma CommaText(t: string)
    ensures ("," + t)[0] == ',' && ("," + t)[1..] == t && SkipSpace("," + t) == "," + t && Delimited("," + t)
  {
  }

  lemma {:induction false} ReadPrettyItems(items: seq<Json>, o: Options, layout: Layout, first: bool, depth: nat, b: string, rest: string)
    requires items != [] && Blanks(b)
    ensures ReadItems(ItemsRest(items, o, layout, first, depth, b + ("]" + rest))) == Some(ParsedItems(items, rest))
    decreases items, 0
  {
    var v, others := items[0], items[1..];
    var gap, more := Line(Breaks(v, o, layout, first), o, depth), PrettyItems(others, o, layout, false, depth) + (b + ("]" + rest));
    AfterItem(others, o, layout, depth, b, ']', rest);
    ReadPretty(v, o, InElement, depth, more);
    if others != [] {
      ReadPrettyItems(others, o, layout, false, depth, b, rest);
    }
    LineBlank(Breaks(v, o, layout, first), o, depth);
    ReadOneItem(gap, PrettyText(v, o, InElement, depth) + more, v, more, others, rest);
    HeadAndTail(items);
  }

  /** The text of some members and the end of their object, after the first comma if there is one. */
  function MembersRest(members: seq<Member>, o: Options, split: SplitKind, depth: nat, end: string): string
    requires members != []
  {
    NameText(members[0].name, o, split, depth)
    + (PrettyText(members[0].value, o, InMember, depth) + (PrettyMembers(members[1..], o, split, false, depth) + end))
  }

  lemma MembersRestIs(members: seq<Member>, o: Options, split: SplitKind, first: bool, depth: nat, end: string)
    requires members != []
    ensures PrettyMembers(members, o, split, first, depth) + end == Comma(first) + MembersRest(members, o, split, depth, end)
  {
    Pieces(Comma(first), NameText(members[0].name, o, split, depth), PrettyText(members[0].value, o, InMember, depth),
           PrettyMembers(members[1..], o, split, false, depth), end);
  }

  lemma NameOpens(name: string, o: Options, split: SplitKind, depth: nat, more: string)
    ensures Opens(NameText(name, o, split, depth) + more)
  {
    LineBlank(split == MultiLine, o, depth);
    var text := Quoted(name, o.escape) + ": ";
    assert text[0] == Quoted(name, o.escape)[0] == '"';
    OpensGap(Line(split == MultiLine, o, depth), text, more);
  }

  lemma {:induction false} ReadPrettyObject(members: seq<Member>, o: Options, split: SplitKind, depth: nat, b: string, rest: string)
    requires Blanks(b)
    ensures ReadObject(PrettyMembers(members, o, split, true, depth) + (b + ("}" + rest))) == Some(ParsedMembers(members, rest))
    decreases members, 1
  {
    var end := b + ("}" + rest);
    var text := PrettyMembers(members, o, split, true, depth) + end;
    EndDelimited(b, '}', rest);
    if members == [] {
      assert text == end;
    } else {
      MembersRestIs(members, o, split, true, depth, end);
      assert "" + MembersRest(members, o, split, depth, end) == MembersRest(members, o, split, depth, end);
      NameOpens(members[0].name, o, split, depth,
                PrettyText(members[0].value, o, InMember, depth) + (PrettyMembers(members[1..], o, split, false, depth) + end));
      SkippedMembers(text);
      ReadPrettyMembers(members, o, split, depth, b, rest);
    }
  }

  /** What follows a member: the end of the object, or a comma and the next member. */
  lemma AfterMember(others: seq<Member>, o: Options, split: SplitKind, depth: nat, b: string, rest: string)
    requires Blanks(b)
    ensures var more := PrettyMembers(others, o, split, false, depth) + (b + ("}" + rest));
            var t := SkipSpace(more);
            && Delimited(more) && t != ""
            && if others == [] then t[0] == '}' && t[1..] == rest
               else t[0] == ',' && t[1..] == MembersRest(others, o, split, depth, b + ("}" + rest))
  {
    var end := b + ("}" + rest);
    EndDelimited(b, '}', rest);
    if others == [] {
      assert "" + end == end;
    } else {
      MembersRestIs(others, o, split, false, depth, end);
      CommaText(MembersRest(others, o, split, depth, end));
    }
  }

  /** A member and the others, once its value and they are known to be read back. */
  lemma ReadOneMember(m: Member, o: Options, split: SplitKind, depth: nat, x: string, more: string, others: seq<Member>, rest: string)
    requires ReadValue(x) == Some(Parsed(m.value, more))
    requires var t := SkipSpace(more);
             t != "" && if others == [] then t[0] == '}' && t[1..] == rest
                        else t[0] == ',' && ReadMembers(t[1..]) == Some(ParsedMembers(others, rest))
    ensures ReadMembers(NameText(m.name, o, split, depth) + x) == Some(ParsedMembers([m] + others, rest))
  {
    var q, after := Quoted(m.name, o.escape), ":" + (" " + x);
    LineBlank(split == MultiLine, o, depth);
    NamedText(Line(split == MultiLine, o, depth), q, x);
    BlanksSkipped(Line(split == MultiLine, o, depth), q + after);
    BlanksSkipped(" ", x);
    ReadQuoted(m.name, o.escape, after);
    assert after[1..] == " " + x;
    ReadMembersStep(q + after, m.name, m.value, after, more);
    assert [m] + [] == [m];
  }

  lemma NamedText(gap: string, q: string, x: string)
    ensures (gap + (q + ": ")) + x == gap + (q + (":" + (" " + x)))
  {
  }

  lemma {:induction false} ReadPrettyMembers(members: seq<Member>, o: Options, split: SplitKind, depth: nat, b: string, rest: string)
    requires members != [] && Blanks(b)
    ensures ReadMembers(MembersRest(members, o, split, depth, b + ("}" + rest))) == Some(ParsedMembers(members, rest))
    decreases members, 0
  {
    var m, others := members[0], members[1..];
    var more := PrettyMembers(others, o, split, false, depth) + (b + ("}" + rest));
    AfterMember(others, o, split, depth, b, rest);
    ReadPretty(m.value, o, InMember, depth, more);
    if others != [] {
      ReadPrettyMembers(others, o, split, depth, b, rest);
    }
    ReadOneMember(m, o, split, depth, PrettyText(m.value, o, InMember, depth) + more, more, others, rest);
    HeadAndTail(members);
  }

  /** Whatever the options, the indented text of a tree's event stream reads back as the tree. */
  lemma PrettyReadsBack(o: Options, v: Json)
    ensures ReadDocument(Run(Initial, Config(true, o), Document(v)).out) == Some(v)
  {
    PrettyIsPrint(o, v);
    ReadPretty(v, o, Alone, 0, "");
    assert PrettyText(v, o, Alone, 0) + "" == PrettyText(v, o, Alone, 0);
  }
}
