/**
 The serializer: a machine that receives events and writes text.

 `Handle` gives its transitions; class `Serializer` is the object whose
 handlers make them in place. In compact mode the machine is shown to print
 what the recursive printer `Print` prints; in indenting mode it is shown to
 simulate the compact machine up to insignificant whitespace.
 */
module JsonSerializer {
  import opened Wrappers
  import opened JsonTree
  import opened JsonEscape

  datatype SplitKind = SameLine | NewLine | MultiLine

  datatype Options = Options(
    indent: int,
    escape: EscapeOptions,
    objectObject: SplitKind,
    objectArray: SplitKind,
    arrayArray: SplitKind,
    arrayObject: SplitKind)

  datatype Item = Item(isObject: bool, count: nat, split: SplitKind, indentOnce: bool, unindentAtEnd: bool)

  datatype State = State(stack: seq<Item>, indent: int, out: string)

  const Initial := State([], 0, "")

  /** How a serializer was constructed: its options and whether it indents. */
  datatype Config = Config(indenting: bool, options: Options)

  function NewItem(isObject: bool, split: SplitKind, indentOnce: bool): Item {
    Item(isObject, 0, split, indentOnce, false)
  }

  function Top(st: State): Item
    requires st.stack != []
  {
    st.stack[|st.stack| - 1]
  }

  function SetTop(st: State, item: Item): State
    requires st.stack != []
  {
    st.(stack := st.stack[|st.stack| - 1 := item])
  }

  function Put(st: State, s: string): State { st.(out := st.out + s) }

  function Push(st: State, item: Item): State { st.(stack := st.stack + [item]) }

  function Pop(st: State): State
    requires st.stack != []
  {
    st.(stack := st.stack[..|st.stack| - 1])
  }

  function Spaces(n: int): string {
    if n <= 0 then "" else Spaces(n - 1) + " "
  }

  function WriteIndent1(st: State): State {
    Put(st, "\n" + Spaces(st.indent))
  }

  function WriteIndent(st: State): State {
    WriteIndent1(if st.stack == [] then st else SetTop(st, Top(st).(unindentAtEnd := true)))
  }

  function EndValue(st: State): State {
    if st.stack == [] then st else SetTop(st, Top(st).(count := Top(st).count + 1))
  }

  predicate InArray(st: State) { st.stack != [] && !Top(st).isObject }

  predicate InObject(st: State) { st.stack != [] && Top(st).isObject }

  function Separator(st: State): string {
    if st.stack != [] && Top(st).count > 0 then "," else ""
  }

  function Quoted(s: string, escape: EscapeOptions): string {
    "\"" + Escape(s, escape) + "\""
  }

  lemma QuotedParts(before: string, s: string, escape: EscapeOptions)
    ensures before + "\"" + Escape(s, escape) + "\"" == before + Quoted(s, escape)
  {
    var e := Escape(s, escape);
    assert before + "\"" + e + "\"" == before + ("\"" + e + "\"");
  }

  function BeginObjectStep(st: State, config: Config): State {
    var o := config.options;
    var st1 := if InArray(st) then Put(st, Separator(st)) else st;
    var st2 :=
      if !config.indenting then Push(st1, NewItem(true, SameLine, false))
      else
        var st3 :=
          if InObject(st1) then Push(st1, NewItem(true, o.objectObject, false))
          else if st1.stack != [] then
            if o.arrayObject != SameLine then
              WriteIndent1(Push(SetTop(st1, Top(st1).(unindentAtEnd := true)), NewItem(true, o.arrayObject, false)))
            else Push(st1, NewItem(true, o.arrayObject, false))
          else Push(st1, NewItem(true, MultiLine, false));
        st3.(indent := st3.indent + o.indent);
    Put(st2, "{")
  }

  function BeginArrayStep(st: State, config: Config): State {
    var o := config.options;
    var st1 := if InArray(st) then Put(st, Separator(st)) else st;
    if !config.indenting then Put(Push(st1, NewItem(false, SameLine, false)), "[")
    else if InObject(st1) then
      var st2 := Put(st1, "[");
      Push(st2.(indent := st2.indent + o.indent), NewItem(false, o.objectArray, o.objectArray != SameLine))
    else if st1.stack != [] then
      var st2 := if o.arrayArray != SameLine then WriteIndent(st1) else st1;
      var st3 := Push(st2, NewItem(false, o.arrayArray, false));
      Put(st3.(indent := st3.indent + o.indent), "[")
    else
      var st2 := Push(st1, NewItem(false, MultiLine, false));
      Put(st2.(indent := st2.indent + o.indent), "[")
  }

  function EndStep(st: State, config: Config, bracket: string): State
    requires st.stack != []
  {
    var st1 :=
      if !config.indenting then st
      else
        var st2 := st.(indent := st.indent - config.options.indent);
        if Top(st2).unindentAtEnd then WriteIndent(st2) else st2;
    EndValue(Put(Pop(st1), bracket))
  }

  function BeginNameStep(st: State, config: Config): State {
    var st1 := Put(st, Separator(st));
    if st1.stack != [] && config.indenting && Top(st1).split == MultiLine then WriteIndent(st1) else st1
  }

  function NameStep(st: State, config: Config, name: string): State {
    var st2 := BeginNameStep(st, config);
    var st3 := Put(Put(st2, Quoted(name, config.options.escape)), ":");
    if config.indenting then Put(st3, " ") else st3
  }

  function BeginScalarStep(st: State, config: Config): State {
    var st1 := Put(st, Separator(st));
    if st1.stack != [] && config.indenting && (Top(st1).split == MultiLine || (Top(st1).count == 0 && Top(st1).indentOnce))
    then WriteIndent(st1) else st1
  }

  function ScalarText(s: Scalar, escape: EscapeOptions): string {
    match s
    case Null => "null"
    case Bool(b) => if b then "true" else "false"
    case Num(literal) => literal
    case Str(text) => Quoted(text, escape)
  }

  function ValueStep(st: State, config: Config, s: Scalar): State {
    var st1 := if InArray(st) then BeginScalarStep(st, config) else st;
    EndValue(Put(st1, ScalarText(s, config.options.escape)))
  }

  /** One event. An end without a begin is refused by an assertion before anything changes. */
  function Handle(st: State, config: Config, e: Event): State {
    match e
    case BeginJson => st
    case EndJson => st
    case BeginObject => BeginObjectStep(st, config)
    case BeginArray => BeginArrayStep(st, config)
    case EndObject => if st.stack == [] then st else EndStep(st, config, "}")
    case EndArray => if st.stack == [] then st else EndStep(st, config, "]")
    case Name(name) => NameStep(st, config, name)
    case Value(s) => ValueStep(st, config, s)
  }

  function Run(st: State, config: Config, es: seq<Event>): State
    decreases |es|
  {
    if es == [] then st else Run(Handle(st, config, es[0]), config, es[1..])
  }

  lemma RunConcat(st: State, config: Config, a: seq<Event>, b: seq<Event>)
    ensures Run(st, config, a + b) == Run(Run(st, config, a), config, b)
    decreases |a|
  {
    if a == [] {
      assert a + b == b;
    } else {
      assert (a + b)[1..] == a[1..] + b;
      RunConcat(Handle(st, config, a[0]), config, a[1..], b);
    }
  }

  lemma RunOne(st: State, config: Config, e: Event)
    ensures Run(st, config, [e]) == Handle(st, config, e)
  {
    assert [e][1..] == [];
  }

  /** With nothing open, an end is refused and a document's begin and end write nothing. */
  lemma NothingWritten(st: State, config: Config, e: Event)
    requires e.BeginJson? || e.EndJson? || (st.stack == [] && (e.EndObject? || e.EndArray?))
    ensures Run(st, config, [e]) == st
  {
    RunOne(st, config, e);
  }

  // ----- the object -----

  /** The serializer object. Every handler makes exactly the transition that `Handle` describes. */
  class Serializer {
    const config: Config
    var stack: seq<Item>
    var indent: int
    var writer: string

    constructor (indenting: bool, options: Options)
      ensures Abs() == Initial && config == Config(indenting, options)
    {
      config := Config(indenting, options);
      stack := [];
      indent := 0;
      writer := "";
    }

    ghost function Abs(): State
      reads this
    {
      State(stack, indent, writer)
    }

    method WriteSpaces()
      modifies this`writer
      ensures Abs() == Put(old(Abs()), Spaces(indent))
    {
      var i := 0;
      while i < indent
        invariant 0 <= i && (i <= indent || i == 0)
        invariant writer == old(writer) + Spaces(i)
      {
        writer := writer + " ";
        i := i + 1;
      }
    }

    method DoWriteIndent()
      modifies this`writer, this`stack
      ensures Abs() == WriteIndent(old(Abs()))
    {
      if stack != [] {
        stack := stack[|stack| - 1 := stack[|stack| - 1].(unindentAtEnd := true)];
      }
      writer := writer + "\n";
      WriteSpaces();
    }

    method DoWriteIndent1()
      modifies this`writer
      ensures Abs() == WriteIndent1(old(Abs()))
    {
      writer := writer + "\n";
      WriteSpaces();
    }

    method DoEndValue()
      modifies this`stack
      ensures Abs() == EndValue(old(Abs()))
    {
      if stack != [] {
        var top := stack[|stack| - 1];
        stack := stack[|stack| - 1 := top.(count := top.count + 1)];
      }
    }

    method DoBeginScalar()
      modifies this`writer, this`stack
      ensures Abs() == BeginScalarStep(old(Abs()), config)
    {
      if stack != [] {
        var top := stack[|stack| - 1];
        if top.count > 0 {
          writer := writer + ",";
        }
        if config.indenting && (top.split == MultiLine || (top.count == 0 && top.indentOnce)) {
          DoWriteIndent();
        }
      }
    }

    method DoBeginObject()
      modifies this
      ensures Abs() == Handle(old(Abs()), config, BeginObject)
    {
      if stack != [] && !stack[|stack| - 1].isObject && stack[|stack| - 1].count > 0 {
        writer := writer + ",";
      }
      if config.indenting {
        if stack != [] && stack[|stack| - 1].isObject {
          stack := stack + [NewItem(true, config.options.objectObject, false)];
        } else if stack != [] {
          if config.options.arrayObject != SameLine {
            stack := stack[|stack| - 1 := stack[|stack| - 1].(unindentAtEnd := true)];
            stack := stack + [NewItem(true, config.options.arrayObject, false)];
            DoWriteIndent1();
          } else {
            stack := stack + [NewItem(true, config.options.arrayObject, false)];
          }
        } else {
          stack := stack + [NewItem(true, MultiLine, false)];
        }
        indent := indent + config.options.indent;
      } else {
        stack := stack + [NewItem(true, SameLine, false)];
      }
      writer := writer + "{";
    }

    method DoBeginArray()
      modifies this
      ensures Abs() == Handle(old(Abs()), config, BeginArray)
    {
      if stack != [] && !stack[|stack| - 1].isObject && stack[|stack| - 1].count > 0 {
        writer := writer + ",";
      }
      if config.indenting {
        if stack != [] && stack[|stack| - 1].isObject {
          writer := writer + "[";
          indent := indent + config.options.indent;
          if config.options.objectArray != SameLine {
            stack := stack + [NewItem(false, config.options.objectArray, true)];
          } else {
            stack := stack + [NewItem(false, config.options.objectArray, false)];
          }
        } else if stack != [] {
          if config.options.arrayArray != SameLine {
            DoWriteIndent();
          }
          stack := stack + [NewItem(false, config.options.arrayArray, false)];
          indent := indent + config.options.indent;
          writer := writer + "[";
        } else {
          stack := stack + [NewItem(false, MultiLine, false)];
          indent := indent + config.options.indent;
          writer := writer + "[";
        }
      } else {
        stack := stack + [NewItem(false, SameLine, false)];
        writer := writer + "[";
      }
    }

    method DoEndStructure(bracket: string)
      requires stack != []
      modifies this
      ensures Abs() == EndStep(old(Abs()), config, bracket)
    {
      if config.indenting {
        indent := indent - config.options.indent;
        if stack[|stack| - 1].unindentAtEnd {
          DoWriteIndent();
        }
      }
      stack := stack[..|stack| - 1];
      writer := writer + bracket;
      DoEndValue();
    }

    method DoEndObject() returns (ok: bool)
      modifies this
      ensures ok == (old(stack) != [])
      ensures Abs() == Handle(old(Abs()), config, EndObject)
    {
      ok := stack != [];
      if ok {
        DoEndStructure("}");
      }
    }

    method DoEndArray() returns (ok: bool)
      modifies this
      ensures ok == (old(stack) != [])
      ensures Abs() == Handle(old(Abs()), config, EndArray)
    {
      ok := stack != [];
      if ok {
        DoEndStructure("]");
      }
    }

    method WriteQuoted(s: string)
      modifies this`writer
      ensures Abs() == Put(old(Abs()), Quoted(s, config.options.escape))
    {
      ghost var before := writer;
      writer := writer + "\"";
      writer := EscapeString(s, config.options.escape, writer);
      writer := writer + "\"";
      QuotedParts(before, s, config.options.escape);
    }

    method Write(s: string)
      modifies this`writer
      ensures Abs() == Put(old(Abs()), s)
    {
      writer := writer + s;
    }

    /** The comma and the line break before a name. */
    method BeginName()
      modifies this`writer, this`stack
      ensures Abs() == BeginNameStep(old(Abs()), config)
    {
      if stack != [] {
        if stack[|stack| - 1].count > 0 {
          writer := writer + ",";
        }
        if config.indenting && stack[|stack| - 1].split == MultiLine {
          DoWriteIndent();
        }
      }
    }

    method DoName(name: string)
      modifies this
      ensures Abs() == Handle(old(Abs()), config, Name(name))
    {
      BeginName();
      WriteQuoted(name);
      Write(":");
      if config.indenting {
        Write(" ");
      }
    }

    method WriteScalar(s: Scalar)
      modifies this`writer
      ensures Abs() == Put(old(Abs()), ScalarText(s, config.options.escape))
    {
      match s {
        case Null => writer := writer + "null";
        case Bool(b) =>
          if b {
            writer := writer + "true";
          } else {
            writer := writer + "false";
          }
        case Num(literal) => writer := writer + literal;
        case Str(text) => WriteQuoted(text);
      }
    }

    method DoValue(s: Scalar)
      modifies this
      ensures Abs() == Handle(old(Abs()), config, Value(s))
    {
      if stack != [] && !stack[|stack| - 1].isObject {
        DoBeginScalar();
      }
      WriteScalar(s);
      DoEndValue();
    }
  }

  // ----- compact output is the recursive printer's -----

  function Print(v: Json, escape: EscapeOptions): string
    decreases v, 1
  {
    match v
    case Leaf(s) => ScalarText(s, escape)
    case Arr(items) => "[" + PrintItems(items, escape) + "]"
    case Obj(members) => "{" + PrintMembers(members, escape) + "}"
  }

  function PrintItems(items: seq<Json>, escape: EscapeOptions): string
    decreases items, 0
  {
    if items == [] then ""
    else if |items| == 1 then Print(items[0], escape)
    else Print(items[0], escape) + "," + PrintItems(items[1..], escape)
  }

  function PrintMember(m: Member, escape: EscapeOptions): string
    decreases m, 1
  {
    Quoted(m.name, escape) + ":" + Print(m.value, escape)
  }

  function PrintMembers(members: seq<Member>, escape: EscapeOptions): string
    decreases members, 0
  {
    if members == [] then ""
    else if |members| == 1 then PrintMember(members[0], escape)
    else PrintMember(members[0], escape) + "," + PrintMembers(members[1..], escape)
  }

  /** The state with text s written and n more children counted on the structure at the top. */
  function Advance(st: State, s: string, n: nat): State {
    if st.stack == [] then Put(st, s) else SetTop(Put(st, s), Top(st).(count := Top(st).count + n))
  }

  lemma AdvanceTwice(st: State, a: string, m: nat, b: string, n: nat)
    ensures Advance(Advance(st, a, m), b, n) == Advance(st, a + b, m + n)
  {
    assert (st.out + a) + b == st.out + (a + b);
  }

  /** A bracketed structure, written item by item, is one value of the structure around it. */
  lemma Enclose(st: State, config: Config, sep: string, bracket: string, item: Item, s: string, n: nat, end: string)
    requires !config.indenting
    ensures EndStep(Advance(Put(Push(Put(st, sep), item), bracket), s, n), config, end) ==
            Advance(st, sep + (bracket + s + end), 1)
  {
    var start := Put(Push(Put(st, sep), item), bracket);
    var filled := Advance(start, s, n);
    assert filled.stack[..|filled.stack| - 1] == st.stack;
    assert st.out + sep + bracket + s + end == st.out + (sep + (bracket + s + end));
  }

  function ArraySeparator(st: State): string { if InArray(st) then Separator(st) else "" }

  lemma RunBracketed(st: State, config: Config, begin: Event, es: seq<Event>, end: Event)
    ensures Run(st, config, [begin] + es + [end]) ==
            Handle(Run(Handle(st, config, begin), config, es), config, end)
  {
    RunConcat(st, config, [begin] + es, [end]);
    RunConcat(st, config, [begin], es);
    RunOne(st, config, begin);
    RunOne(Run(Handle(st, config, begin), config, es), config, end);
  }

  lemma AdvanceTop(st: State, s: string, n: nat)
    requires st.stack != [] && n > 0
    ensures InArray(Advance(st, s, n)) == InArray(st) && InObject(Advance(st, s, n)) == InObject(st)
    ensures Separator(Advance(st, s, n)) == ","
  {
  }

  /** What precedes a sequence of children and the children themselves. */
  function Following(st: State, printed: string, n: nat): string {
    if n == 0 then "" else Separator(st) + printed
  }

  /** The compact machine's transitions, in terms of `Advance` and `Put`. */
  lemma CompactLeaf(st: State, config: Config, s: Scalar)
    requires !config.indenting
    ensures Run(st, config, [Value(s)]) == Advance(st, ArraySeparator(st) + ScalarText(s, config.options.escape), 1)
  {
    RunOne(st, config, Value(s));
    var text := ScalarText(s, config.options.escape);
    assert st.out + ArraySeparator(st) + text == st.out + (ArraySeparator(st) + text);
    assert Put(st, "") == st;
  }

  /** The state inside a structure just begun by the compact machine. */
  function Begun(st: State, isObject: bool): State {
    Put(Push(Put(st, ArraySeparator(st)), NewItem(isObject, SameLine, false)), if isObject then "{" else "[")
  }

  lemma CompactBegin(st: State, config: Config)
    requires !config.indenting
    ensures Handle(st, config, BeginArray) == Begun(st, false)
    ensures Handle(st, config, BeginObject) == Begun(st, true)
  {
    assert Put(st, "") == st;
  }

  lemma CompactEnd(st: State, config: Config)
    requires st.stack != []
    ensures Handle(st, config, EndArray) == EndStep(st, config, "]")
    ensures Handle(st, config, EndObject) == EndStep(st, config, "}")
  {
  }

  lemma PutThree(st: State, a: string, b: string, c: string)
    requires st.stack != []
    ensures Put(Put(Put(st, a), b), c) == Advance(st, a + (b + c), 0)
  {
    assert ((st.out + a) + b) + c == st.out + (a + (b + c));
  }

  lemma CompactName(st: State, config: Config, name: string)
    requires !config.indenting && InObject(st)
    ensures Run(st, config, [Name(name)]) == Advance(st, Separator(st) + (Quoted(name, config.options.escape) + ":"), 0)
  {
    RunOne(st, config, Name(name));
    PutThree(st, Separator(st), Quoted(name, config.options.escape), ":");
  }

  lemma BegunIsEmpty(st: State, isObject: bool, printed: string, n: nat)
    requires n == 0 ==> printed == ""
    ensures if isObject then InObject(Begun(st, isObject)) else InArray(Begun(st, isObject))
    ensures Following(Begun(st, isObject), printed, n) == printed
  {
    assert "" + printed == printed;
  }

  lemma CompactStructure(st: State, config: Config, isObject: bool, es: seq<Event>, printed: string, n: nat)
    requires !config.indenting
    requires Run(Begun(st, isObject), config, es) == Advance(Begun(st, isObject), printed, n)
    ensures var begin, end := if isObject then BeginObject else BeginArray, if isObject then EndObject else EndArray;
            var open, close := if isObject then "{" else "[", if isObject then "}" else "]";
            Run(st, config, [begin] + es + [end]) == Advance(st, ArraySeparator(st) + (open + printed + close), 1)
  {
    var begin, end := if isObject then BeginObject else BeginArray, if isObject then EndObject else EndArray;
    var open, close := if isObject then "{" else "[", if isObject then "}" else "]";
    CompactBegin(st, config);
    RunBracketed(st, config, begin, es, end);
    Enclose(st, config, ArraySeparator(st), open, NewItem(isObject, SameLine, false), printed, n, close);
    CompactEnd(Advance(Begun(st, isObject), printed, n), config);
  }

  /**
   From any state of the compact machine, the events of a value write its
   printed form, preceded by a comma exactly when it is not the first item of
   an array, and count one value.
   */
  lemma {:induction false} CompactValue(st: State, config: Config, v: Json)
    requires !config.indenting
    ensures Run(st, config, Events(v)) == Advance(st, ArraySeparator(st) + Print(v, config.options.escape), 1)
    decreases v, 1
  {
    match v
    case Leaf(s) =>
      CompactLeaf(st, config, s);
    case Arr(items) =>
      BegunIsEmpty(st, false, PrintItems(items, config.options.escape), |items|);
      CompactItems(Begun(st, false), config, items);
      CompactStructure(st, config, false, ItemEvents(items), PrintItems(items, config.options.escape), |items|);
    case Obj(members) =>
      BegunIsEmpty(st, true, PrintMembers(members, config.options.escape), |members|);
      CompactMembers(Begun(st, true), config, members);
      CompactStructure(st, config, true, MemberEvents(members), PrintMembers(members, config.options.escape), |members|);
  }

  lemma FollowingCons(sep: string, head: string, tail: string, escape: EscapeOptions)
    ensures (sep + head) + ("," + tail) == sep + (head + "," + tail)
    ensures (sep + head) + "" == sep + head
  {
  }

  /** One child and the others after it. */
  lemma FollowingMore(st: State, head: string, tail: string, n: nat, escape: EscapeOptions)
    requires st.stack != []
    ensures var next := Advance(st, Separator(st) + head, 1);
            Advance(next, Following(next, tail, n), n) == Advance(st, Separator(st) + if n == 0 then head else head + "," + tail, n + 1)
  {
    var next := Advance(st, Separator(st) + head, 1);
    AdvanceTop(st, Separator(st) + head, 1);
    AdvanceTwice(st, Separator(st) + head, 1, Following(next, tail, n), n);
    FollowingCons(Separator(st), head, tail, escape);
  }

  lemma {:induction false} CompactItems(st: State, config: Config, items: seq<Json>)
    requires !config.indenting && InArray(st)
    ensures Run(st, config, ItemEvents(items)) ==
            Advance(st, Following(st, PrintItems(items, config.options.escape), |items|), |items|)
    decreases items, 0
  {
    if items == [] {
      assert Advance(st, "", 0) == st;
    } else {
      var escape := config.options.escape;
      var head := Print(items[0], escape);
      var next := Advance(st, Separator(st) + head, 1);
      RunConcat(st, config, Events(items[0]), ItemEvents(items[1..]));
      CompactValue(st, config, items[0]);
      AdvanceTop(st, Separator(st) + head, 1);
      CompactItems(next, config, items[1..]);
      FollowingMore(st, head, PrintItems(items[1..], escape), |items| - 1, escape);
    }
  }

  /** The state after a member's name. */
  function Named(st: State, config: Config, name: string): State {
    Advance(st, Separator(st) + (Quoted(name, config.options.escape) + ":"), 0)
  }

  lemma CompactMember(st: State, config: Config, m: Member)
    requires !config.indenting && InObject(st)
    requires Run(Named(st, config, m.name), config, Events(m.value)) ==
             Advance(Named(st, config, m.name), Print(m.value, config.options.escape), 1)
    ensures Run(st, config, [Name(m.name)] + Events(m.value)) ==
            Advance(st, Separator(st) + PrintMember(m, config.options.escape), 1)
  {
    var escape := config.options.escape;
    var key := Separator(st) + (Quoted(m.name, escape) + ":");
    RunConcat(st, config, [Name(m.name)], Events(m.value));
    CompactName(st, config, m.name);
    AdvanceTwice(st, key, 0, Print(m.value, escape), 1);
    ConcatAssociates(Separator(st), Quoted(m.name, escape) + ":", Print(m.value, escape));
  }

  lemma {:induction false} CompactMembers(st: State, config: Config, members: seq<Member>)
    requires !config.indenting && InObject(st)
    ensures Run(st, config, MemberEvents(members)) ==
            Advance(st, Following(st, PrintMembers(members, config.options.escape), |members|), |members|)
    decreases members, 0
  {
    if members == [] {
      assert Advance(st, "", 0) == st;
    } else {
      var escape := config.options.escape;
      var m := members[0];
      var head := PrintMember(m, escape);
      var next := Advance(st, Separator(st) + head, 1);
      RunConcat(st, config, [Name(m.name)] + Events(m.value), MemberEvents(members[1..]));
      CompactValue(Named(st, config, m.name), config, m.value);
      assert "" + Print(m.value, escape) == Print(m.value, escape);
      CompactMember(st, config, m);
      AdvanceTop(st, Separator(st) + head, 1);
      CompactMembers(next, config, members[1..]);
      FollowingMore(st, head, PrintMembers(members[1..], escape), |members| - 1, escape);
    }
  }

  /** Main result for compact mode: the stream of any tree is printed as `Print` prints it. */
  lemma CompactIsPrint(v: Json, options: Options)
    ensures Run(Initial, Config(false, options), Document(v)) == State([], 0, Print(v, options.escape))
  {
    var config := Config(false, options);
    RunBracketed(Initial, config, BeginJson, Events(v), EndJson);
    CompactValue(Initial, config, v);
  }
}
