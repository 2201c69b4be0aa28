/**
 A reader for the grammar of RFC 8259 sections 2 to 5 (structure, whitespace,
 literal names, objects, arrays) with the strings of section 7; numbers are
 taken as maximal runs of number characters. It is the inverse of the compact
 printer, so the text of a value determines the value.
 */
module JsonReader {
  import opened Wrappers
  import opened JsonTree
  import opened JsonEscape
  import opened JsonSerializer

  function SkipSpace(t: string): (r: string)
    ensures |r| <= |t|
  {
    if t != "" && IsSpace(t[0]) then SkipSpace(t[1..]) else t
  }

  function NumberLength(t: string): (n: nat)
    ensures n <= |t|
    ensures forall i :: 0 <= i < n ==> IsNumberChar(t[i])
  {
    if t != "" && IsNumberChar(t[0]) then 1 + NumberLength(t[1..]) else 0
  }

  predicate StartsWith(t: string, prefix: string) { |prefix| <= |t| && t[..|prefix|] == prefix }

  datatype Parsed = Parsed(v: Json, rest: string)
  datatype ParsedItems = ParsedItems(items: seq<Json>, rest: string)
  datatype ParsedMembers = ParsedMembers(members: seq<Member>, rest: string)

  /** A value without leading whitespace that is neither an array nor an object. */
  function ReadScalar(t: string): (r: Option<Parsed>)
    ensures r.Some? ==> |r.value.rest| < |t|
  {
    if t == "" then None
    else if t[0] == '"' then
      var s := ReadString(t[1..]);
      if s.None? then None else Some(Parsed(Leaf(Str(s.value.s)), s.value.rest))
    else if StartsWith(t, "null") then Some(Parsed(Leaf(Null), t[4..]))
    else if StartsWith(t, "true") then Some(Parsed(Leaf(Bool(true)), t[4..]))
    else if StartsWith(t, "false") then Some(Parsed(Leaf(Bool(false)), t[5..]))
    else
      var n := NumberLength(t);
      if n == 0 then None else Some(Parsed(Leaf(Num(t[..n])), t[n..]))
  }

  function ReadValue(text: string): (r: Option<Parsed>)
    ensures r.Some? ==> |r.value.rest| < |text|
    decreases |text|, 1
  {
    var t := SkipSpace(text);
    if t == "" then None
    else if t[0] == '[' then
      var items := ReadArray(t[1..]);
      if items.None? then None else Some(Parsed(Arr(items.value.items), items.value.rest))
    else if t[0] == '{' then
      var members := ReadObject(t[1..]);
      if members.None? then None else Some(Parsed(Obj(members.value.members), members.value.rest))
    else ReadScalar(t)
  }

  /** What follows the opening bracket. */
  function ReadArray(text: string): (r: Option<ParsedItems>)
    ensures r.Some? ==> |r.value.rest| < |text|
    decreases |text|, 3
  {
    var t := SkipSpace(text);
    if t != "" && t[0] == ']' then Some(ParsedItems([], t[1..])) else ReadItems(t)
  }

  function ReadItems(text: string): (r: Option<ParsedItems>)
    ensures r.Some? ==> |r.value.rest| < |text|
    decreases |text|, 2
  {
    var first := ReadValue(text);
    if first.None? then None
    else
      var t := SkipSpace(first.value.rest);
      if t == "" then None
      else if t[0] == ']' then Some(ParsedItems([first.value.v], t[1..]))
      else if t[0] != ',' then None
      else
        var tail := ReadItems(t[1..]);
        if tail.None? then None else Some(ParsedItems([first.value.v] + tail.value.items, tail.value.rest))
  }

  /** What follows the opening brace. */
  function ReadObject(text: string): (r: Option<ParsedMembers>)
    ensures r.Some? ==> |r.value.rest| < |text|
    decreases |text|, 3
  {
    var t := SkipSpace(text);
    if t != "" && t[0] == '}' then Some(ParsedMembers([], t[1..])) else ReadMembers(t)
  }

  function ReadMembers(text: string): (r: Option<ParsedMembers>)
    ensures r.Some? ==> |r.value.rest| < |text|
    decreases |text|, 2
  {
    var t0 := SkipSpace(text);
    if t0 == "" || t0[0] != '"' then None
    else
      var name := ReadString(t0[1..]);
      if name.None? then None
      else
        var t1 := SkipSpace(name.value.rest);
        if t1 == "" || t1[0] != ':' then None
        else
          var value := ReadValue(t1[1..]);
          if value.None? then None
          else
            var m := Member(name.value.s, value.value.v);
            var t := SkipSpace(value.value.rest);
            if t == "" then None
            else if t[0] == '}' then Some(ParsedMembers([m], t[1..]))
            else if t[0] != ',' then None
            else
              var tail := ReadMembers(t[1..]);
              if tail.None? then None else Some(ParsedMembers([m] + tail.value.members, tail.value.rest))
  }

  function ReadDocument(text: string): Option<Json> {
    var r := ReadValue(text);
    if r.Some? && SkipSpace(r.value.rest) == "" then Some(r.value.v) else None
  }

  // ----- the reader inverts the printer -----

  /** What may follow a value: nothing that could extend a number. */
  predicate Delimited(rest: string) { rest == "" || !IsNumberChar(rest[0]) }

  lemma {:induction false} ReadNumberRun(literal: string, rest: string)
    requires forall i :: 0 <= i < |literal| ==> IsNumberChar(literal[i])
    requires Delimited(rest)
    ensures NumberLength(literal + rest) == |literal|
  {
    if literal == "" {
      assert literal + rest == rest;
    } else {
      assert (literal + rest)[1..] == literal[1..] + rest;
      ReadNumberRun(literal[1..], rest);
    }
  }

  lemma TailOfQuoted(e: string, rest: string)
    ensures ("\"" + e + "\"" + rest)[1..] == e + "\"" + rest
    ensures ("\"" + e + "\"" + rest)[0] == '"'
  {
  }

  lemma ReadQuoted(s: string, escape: EscapeOptions, rest: string)
    ensures var t := Quoted(s, escape) + rest;
            t[0] == '"' && ReadString(t[1..]) == Some(Text(s, rest))
  {
    TailOfQuoted(Escape(s, escape), rest);
    EscapeRoundTrip(s, escape, rest);
  }

  lemma ReadPrintedString(text: string, escape: EscapeOptions, rest: string)
    ensures ReadScalar(Quoted(text, escape) + rest) == Some(Parsed(Leaf(Str(text)), rest))
  {
    ReadQuoted(text, escape, rest);
  }

  lemma FirstDiffers(t: string, prefix: string)
    requires t != "" && prefix != "" && t[0] != prefix[0]
    ensures !StartsWith(t, prefix)
  {
    assert |prefix| <= |t| ==> t[..|prefix|][0] == t[0];
  }

  lemma ReadPrintedNumber(literal: Literal, rest: string)
    requires Delimited(rest)
    ensures ReadScalar(literal + rest) == Some(Parsed(Leaf(Num(literal)), rest))
  {
    var t := literal + rest;
    ReadNumberRun(literal, rest);
    assert IsNumberChar(literal[0]) && t[0] == literal[0];
    FirstDiffers(t, "null");
    FirstDiffers(t, "true");
    FirstDiffers(t, "false");
    assert t[..|literal|] == literal && t[|literal|..] == rest;
  }

  lemma ReadPrintedName(s: Scalar, name: string, rest: string)
    requires s.Null? || s.Bool?
    requires name == ScalarText(s, EscapeOptions(false, false))
    ensures ReadScalar(name + rest) == Some(Parsed(Leaf(s), rest))
  {
    var t := name + rest;
    assert t[..|name|] == name && t[|name|..] == rest;
    if s == Bool(false) {
      assert t[0] == 'f';
    } else if s == Bool(true) {
      assert t[0] == 't';
    }
  }

  lemma ReadPrintedScalar(s: Scalar, escape: EscapeOptions, rest: string)
    requires Delimited(rest)
    ensures ReadScalar(ScalarText(s, escape) + rest) == Some(Parsed(Leaf(s), rest))
    ensures PrintsPlainly(ScalarText(s, escape))
  {
    match s
    case Str(text) => ReadPrintedString(text, escape, rest);
    case Num(literal) =>
      ReadPrintedNumber(literal, rest);
      assert IsNumberChar(literal[0]);
    case _ => ReadPrintedName(s, ScalarText(s, escape), rest);
  }

  /** Text that does not begin with whitespace, a closing bracket or an opening one. */
  predicate PrintsPlainly(t: string) { t != "" && !IsSpace(t[0]) && t[0] !in "[]{}" }

  lemma PrintStart(v: Json, escape: EscapeOptions)
    ensures var t := Print(v, escape); t != "" && !IsSpace(t[0]) && t[0] != ']'
  {
    match v
    case Leaf(s) => ReadPrintedScalar(s, escape, "");
    case _ =>
  }

  lemma PrintItemsStart(items: seq<Json>, escape: EscapeOptions)
    requires items != []
    ensures var t := PrintItems(items, escape); t != "" && !IsSpace(t[0]) && t[0] != ']'
  {
    PrintStart(items[0], escape);
  }

  lemma PrintMembersStart(members: seq<Member>, escape: EscapeOptions)
    requires members != []
    ensures var t := PrintMembers(members, escape); t != "" && t[0] == '"'
  {
    assert Quoted(members[0].name, escape)[0] == '"';
  }

  lemma OpenedText(open: char, inside: string, rest: string)
    ensures var text := [open] + inside + rest; text[0] == open && text[1..] == inside + rest
  {
  }

  lemma ReadOpenedArray(text: string)
    requires text != "" && text[0] == '['
    ensures ReadValue(text) ==
              var items := ReadArray(text[1..]);
              if items.None? then None else Some(Parsed(Arr(items.value.items), items.value.rest))
  {
    assert SkipSpace(text) == text;
  }

  lemma ReadOpenedObject(text: string)
    requires text != "" && text[0] == '{'
    ensures ReadValue(text) ==
              var members := ReadObject(text[1..]);
              if members.None? then None else Some(Parsed(Obj(members.value.members), members.value.rest))
  {
    assert SkipSpace(text) == text;
  }

  lemma ReadPrintedLeaf(s: Scalar, escape: EscapeOptions, rest: string)
    requires Delimited(rest)
    ensures ReadValue(ScalarText(s, escape) + rest) == Some(Parsed(Leaf(s), rest))
  {
    ReadPrintedScalar(s, escape, rest);
    var text := ScalarText(s, escape) + rest;
    assert text[0] == ScalarText(s, escape)[0];
    assert SkipSpace(text) == text;
  }

  /** Reading undoes printing, whatever follows the value. */
  lemma {:induction false} ReadPrinted(v: Json, escape: EscapeOptions, rest: string)
    requires Delimited(rest)
    ensures ReadValue(Print(v, escape) + rest) == Some(Parsed(v, rest))
    decreases v, 1
  {
    match v
    case Leaf(s) =>
      ReadPrintedLeaf(s, escape, rest);
    case Arr(items) =>
      var inside := PrintItems(items, escape) + "]";
      assert Print(v, escape) == "[" + inside;
      OpenedText('[', inside, rest);
      ReadOpenedArray("[" + inside + rest);
      ReadPrintedArray(items, escape, rest);
    case Obj(members) =>
      var inside := PrintMembers(members, escape) + "}";
      assert Print(v, escape) == "{" + inside;
      OpenedText('{', inside, rest);
      ReadOpenedObject("{" + inside + rest);
      ReadPrintedObject(members, escape, rest);
  }

  lemma {:induction false} ReadPrintedArray(items: seq<Json>, escape: EscapeOptions, rest: string)
    ensures ReadArray(PrintItems(items, escape) + "]" + rest) == Some(ParsedItems(items, rest))
    decreases items, 1
  {
    var text := PrintItems(items, escape) + "]" + rest;
    if items == [] {
      assert text == "]" + rest;
      assert text[1..] == rest;
    } else {
      PrintItemsStart(items, escape);
      assert SkipSpace(text) == text;
      ReadPrintedItems(items, escape, rest);
    }
  }

  lemma {:induction false} ReadPrintedItems(items: seq<Json>, escape: EscapeOptions, rest: string)
    requires items != []
    ensures ReadItems(PrintItems(items, escape) + "]" + rest) == Some(ParsedItems(items, rest))
    decreases items, 0
  {
    var text := PrintItems(items, escape) + "]" + rest;
    if |items| == 1 {
      assert text == Print(items[0], escape) + ("]" + rest);
      ReadPrinted(items[0], escape, "]" + rest);
      assert ("]" + rest)[1..] == rest;
      assert [items[0]] == items;
    } else {
      var tail := PrintItems(items[1..], escape) + "]" + rest;
      assert text == Print(items[0], escape) + ("," + tail);
      ReadPrinted(items[0], escape, "," + tail);
      assert ("," + tail)[1..] == tail;
      ReadPrintedItems(items[1..], escape, rest);
      assert [items[0]] + items[1..] == items;
    }
  }

  lemma {:induction false} ReadPrintedObject(members: seq<Member>, escape: EscapeOptions, rest: string)
    ensures ReadObject(PrintMembers(members, escape) + "}" + rest) == Some(ParsedMembers(members, rest))
    decreases members, 1
  {
    var text := PrintMembers(members, escape) + "}" + rest;
    if members == [] {
      assert text == "}" + rest;
      assert text[1..] == rest;
    } else {
      PrintMembersStart(members, escape);
      assert SkipSpace(text) == text;
      ReadPrintedMembers(members, escape, rest);
    }
  }

  /** One step of the member reader, from what its parts read. */
  lemma ReadMembersStep(text: string, name: string, v: Json, after: string, more: string)
    requires text != "" && text[0] == '"' && ReadString(text[1..]) == Some(Text(name, after))
    requires after != "" && after[0] == ':' && ReadValue(after[1..]) == Some(Parsed(v, more))
    requires SkipSpace(more) != "" && SkipSpace(more)[0] in ",}"
    ensures ReadMembers(text) ==
            var t := SkipSpace(more);
            if t[0] == '}' then Some(ParsedMembers([Member(name, v)], t[1..]))
            else
              var tail := ReadMembers(t[1..]);
              if tail.None? then None else Some(ParsedMembers([Member(name, v)] + tail.value.members, tail.value.rest))
  {
    assert SkipSpace(text) == text;
    assert SkipSpace(after) == after;
  }

  /** One printed member and the text after it, once its value is known to be read back. */
  lemma ReadPrintedMember(m: Member, escape: EscapeOptions, more: string)
    requires more != "" && more[0] in ",}"
    requires ReadValue(Print(m.value, escape) + more) == Some(Parsed(m.value, more))
    ensures ReadMembers(PrintMember(m, escape) + more) ==
            if more[0] == '}' then Some(ParsedMembers([m], more[1..]))
            else
              var tail := ReadMembers(more[1..]);
              if tail.None? then None else Some(ParsedMembers([m] + tail.value.members, tail.value.rest))
  {
    var value := Print(m.value, escape) + more;
    var after := ":" + value;
    assert SkipSpace(more) == more;
    ReadQuoted(m.name, escape, after);
    assert after[1..] == value;
    ReadMembersStep(Quoted(m.name, escape) + after, m.name, m.value, after, more);
    assert PrintMember(m, escape) + more == Quoted(m.name, escape) + after by {
      Regroup(Quoted(m.name, escape), ":", Print(m.value, escape), more);
    }
  }

  lemma Regroup(a: string, b: string, c: string, d: string)
    ensures (a + b + c) + d == a + (b + (c + d))
  {
  }

  lemma {:induction false} ReadPrintedMembers(members: seq<Member>, escape: EscapeOptions, rest: string)
    requires members != []
    ensures ReadMembers(PrintMembers(members, escape) + "}" + rest) == Some(ParsedMembers(members, rest))
    decreases members, 0
  {
    var text := PrintMembers(members, escape) + "}" + rest;
    var m := members[0];
    if |members| == 1 {
      var more := "}" + rest;
      assert text == PrintMember(m, escape) + more;
      ReadPrinted(m.value, escape, more);
      ReadPrintedMember(m, escape, more);
      assert more[1..] == rest;
      assert [m] == members;
    } else {
      var more := "," + (PrintMembers(members[1..], escape) + "}" + rest);
      assert text == PrintMember(m, escape) + more;
      ReadPrinted(m.value, escape, more);
      ReadPrintedMember(m, escape, more);
      assert more[1..] == PrintMembers(members[1..], escape) + "}" + rest;
      ReadPrintedMembers(members[1..], escape, rest);
      assert [m] + members[1..] == members;
    }
  }

  /** The compact text of a value determines the value. */
  lemma TextDeterminesValue(v: Json, escape: EscapeOptions)
    ensures ReadDocument(Print(v, escape)) == Some(v)
  {
    ReadPrinted(v, escape, "");
    assert Print(v, escape) + "" == Print(v, escape);
  }

  lemma PrintInjective(v: Json, w: Json, escape: EscapeOptions)
    requires Print(v, escape) == Print(w, escape)
    ensures v == w
  {
    TextDeterminesValue(v, escape);
    TextDeterminesValue(w, escape);
  }

  /** The whole path: serializing a tree's event stream in compact mode and reading the text gives the tree. */
  lemma SerializeThenRead(v: Json, options: Options)
    ensures ReadDocument(Run(Initial, Config(false, options), Document(v)).out) == Some(v)
  {
    CompactIsPrint(v, options);
    TextDeterminesValue(v, options.escape);
  }
}
