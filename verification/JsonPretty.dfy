/**
 Pretty printing only adds whitespace outside strings; that it falls between
 tokens, where RFC 8259 section 2 calls it insignificant, is module
 JsonPrettyReader.

 `Strip` erases whitespace outside string literals. The indenting machine is
 shown to simulate the compact one, event by event, for any event sequence and
 any combination of line-split options.
 */
module JsonPretty {
  import opened Wrappers
  import opened JsonTree
  import opened JsonEscape
  import opened JsonSerializer

  datatype Mode = Outside | Inside | Escaped

  function NextMode(m: Mode, c: char): Mode {
    match m
    case Outside => if c == '"' then Inside else Outside
    case Inside => if c == '"' then Outside else if c == '\\' then Escaped else Inside
    case Escaped => Inside
  }

  function ModeAfter(m: Mode, t: string): Mode
    decreases |t|
  {
    if t == "" then m else ModeAfter(NextMode(m, t[0]), t[1..])
  }

  function Strip(m: Mode, t: string): string
    decreases |t|
  {
    if t == "" then ""
    else (if m == Outside && IsSpace(t[0]) then "" else [t[0]]) + Strip(NextMode(m, t[0]), t[1..])
  }

  lemma {:induction false} StripConcat(m: Mode, a: string, b: string)
    ensures ModeAfter(m, a + b) == ModeAfter(ModeAfter(m, a), b)
    ensures Strip(m, a + b) == Strip(m, a) + Strip(ModeAfter(m, a), b)
    decreases |a|
  {
    if a == "" {
      assert a + b == b;
    } else {
      var next, head := NextMode(m, a[0]), if m == Outside && IsSpace(a[0]) then "" else [a[0]];
      assert (a + b)[0] == a[0] && (a + b)[1..] == a[1..] + b;
      StripConcat(next, a[1..], b);
      ConcatAssociates(head, Strip(next, a[1..]), Strip(ModeAfter(next, a[1..]), b));
    }
  }

  /** Text that keeps every character and returns to mode m. */
  predicate Kept(m: Mode, t: string) { Strip(m, t) == t && ModeAfter(m, t) == m }

  /** Text that is all insignificant whitespace. */
  predicate Blank(t: string) { Strip(Outside, t) == "" && ModeAfter(Outside, t) == Outside }

  lemma KeptConcat(m: Mode, a: string, b: string)
    requires Kept(m, a) && Kept(m, b)
    ensures Kept(m, a + b)
  {
    StripConcat(m, a, b);
  }

  lemma KeptChar(m: Mode, c: char)
    requires NextMode(m, c) == m && !(m == Outside && IsSpace(c))
    ensures Kept(m, [c])
  {
    assert [c][1..] == "";
  }

  lemma {:induction false} KeptPlain(m: Mode, t: string)
    requires m != Escaped
    requires forall i :: 0 <= i < |t| ==> NextMode(m, t[i]) == m && !(m == Outside && IsSpace(t[i]))
    ensures Kept(m, t)
  {
    if t != "" {
      KeptPlain(m, t[1..]);
    }
  }

  lemma KeptPairInside(c: char)
    ensures Kept(Inside, ['\\', c])
  {
    assert ['\\', c][1..] == [c];
    assert [c][1..] == "";
    assert ModeAfter(Escaped, [c]) == ModeAfter(Inside, "");
    assert Strip(Escaped, [c]) == [c] + Strip(Inside, "");
  }

  lemma KeptHexEscape(unit: nat)
    requires unit <= 0xFFFF
    ensures Kept(Inside, HexEscape(unit))
  {
    KeptPairInside('u');
    KeptPlain(Inside, HexEscape(unit)[2..]);
    KeptConcat(Inside, ['\\', 'u'], HexEscape(unit)[2..]);
    assert HexEscape(unit) == ['\\', 'u'] + HexEscape(unit)[2..];
  }

  lemma KeptEscapeChar(c: char, options: EscapeOptions)
    ensures Kept(Inside, EscapeChar(c, options))
  {
    var e := EscapeChar(c, options);
    if |e| == 12 {
      KeptHexEscape(HighSurrogate(c as int));
      KeptHexEscape(LowSurrogate(c as int));
      KeptConcat(Inside, HexEscape(HighSurrogate(c as int)), HexEscape(LowSurrogate(c as int)));
    } else if |e| == 6 {
      KeptHexEscape(c as int);
    } else if |e| == 2 {
      KeptPairInside(e[1]);
      assert e == ['\\', e[1]];
    } else {
      KeptChar(Inside, c);
    }
  }

  lemma {:induction false} KeptEscape(s: string, options: EscapeOptions)
    ensures Kept(Inside, Escape(s, options))
  {
    if s != "" {
      KeptEscapeChar(s[0], options);
      KeptEscape(s[1..], options);
      KeptConcat(Inside, EscapeChar(s[0], options), Escape(s[1..], options));
    }
  }

  /** A quoted string survives whole, whatever whitespace it contains. */
  lemma KeptQuoted(s: string, options: EscapeOptions)
    ensures Kept(Outside, Quoted(s, options))
  {
    KeptEscape(s, options);
    assert ['"'][1..] == "";
    assert ModeAfter(Outside, "\"") == Inside && Strip(Outside, "\"") == "\"";
    assert ModeAfter(Inside, "\"") == Outside && Strip(Inside, "\"") == "\"";
    StripConcat(Outside, "\"", Escape(s, options));
    StripConcat(Outside, "\"" + Escape(s, options), "\"");
  }

  lemma KeptScalar(s: Scalar, options: EscapeOptions)
    ensures Kept(Outside, ScalarText(s, options))
  {
    match s
    case Str(text) => KeptQuoted(text, options);
    case _ => KeptPlain(Outside, ScalarText(s, options));
  }

  lemma {:induction false} BlankSpaces(n: int)
    ensures Blank(Spaces(n))
  {
    if n > 0 {
      BlankSpaces(n - 1);
      assert " "[1..] == "";
      StripConcat(Outside, Spaces(n - 1), " ");
    }
  }

  lemma BlankLine(n: int)
    ensures Blank("\n" + Spaces(n))
  {
    BlankSpaces(n);
    assert "\n"[1..] == "";
    StripConcat(Outside, "\n", Spaces(n));
  }

  // ----- the simulation -----

  /** Same structures open with the same counts, and p's text is c's plus insignificant whitespace. */
  predicate Similar(p: State, c: State) {
    && |p.stack| == |c.stack|
    && (forall i :: 0 <= i < |p.stack| ==> p.stack[i].isObject == c.stack[i].isObject && p.stack[i].count == c.stack[i].count)
    && Strip(Outside, p.out) == c.out
    && ModeAfter(Outside, p.out) == Outside
  }

  lemma SimilarPut(p: State, c: State, s: string)
    requires Similar(p, c) && Kept(Outside, s)
    ensures Similar(Put(p, s), Put(c, s))
  {
    StripConcat(Outside, p.out, s);
  }

  lemma SimilarBlank(p: State, c: State, s: string)
    requires Similar(p, c) && Blank(s)
    ensures Similar(Put(p, s), c)
  {
    StripConcat(Outside, p.out, s);
    assert c.out + "" == c.out;
  }

  lemma SimilarWriteIndent(p: State, c: State)
    requires Similar(p, c)
    ensures Similar(WriteIndent1(p), c) && Similar(WriteIndent(p), c)
  {
    BlankLine(p.indent);
    SimilarBlank(p, c, "\n" + Spaces(p.indent));
    var q := if p.stack == [] then p else SetTop(p, Top(p).(unindentAtEnd := true));
    SimilarBlank(q, c, "\n" + Spaces(q.indent));
  }

  lemma SimilarSeparator(p: State, c: State)
    requires Similar(p, c)
    ensures Similar(Put(p, Separator(p)), Put(c, Separator(c)))
    ensures InArray(p) == InArray(c) && InObject(p) == InObject(c)
  {
    KeptChar(Outside, ',');
    SimilarPut(p, c, Separator(p));
  }

  lemma SimilarBegin(p: State, c: State, o: Options)
    requires Similar(p, c)
    ensures Similar(BeginObjectStep(p, Config(true, o)), BeginObjectStep(c, Config(false, o)))
    ensures Similar(BeginArrayStep(p, Config(true, o)), BeginArrayStep(c, Config(false, o)))
  {
    KeptChar(Outside, '{');
    KeptChar(Outside, '[');
    SimilarSeparator(p, c);
    var p1 := if InArray(p) then Put(p, Separator(p)) else p;
    var c1 := if InArray(c) then Put(c, Separator(c)) else c;
    SimilarBeginObject(p1, c1, o);
    SimilarBeginArray(p1, c1, o);
  }

  lemma SimilarBeginObject(p: State, c: State, o: Options)
    requires Similar(p, c) && Kept(Outside, "{")
    ensures var q :=
              if InObject(p) then Push(p, NewItem(true, o.objectObject, false))
              else if p.stack != [] then
                if o.arrayObject != SameLine then
                  WriteIndent1(Push(SetTop(p, Top(p).(unindentAtEnd := true)), NewItem(true, o.arrayObject, false)))
                else Push(p, NewItem(true, o.arrayObject, false))
              else Push(p, NewItem(true, MultiLine, false));
            Similar(Put(q.(indent := q.indent + o.indent), "{"), Put(Push(c, NewItem(true, SameLine, false)), "{"))
  {
    var d := Push(c, NewItem(true, SameLine, false));
    var q :=
      if InObject(p) then Push(p, NewItem(true, o.objectObject, false))
      else if p.stack != [] then
        if o.arrayObject != SameLine then
          Push(SetTop(p, Top(p).(unindentAtEnd := true)), NewItem(true, o.arrayObject, false))
        else Push(p, NewItem(true, o.arrayObject, false))
      else Push(p, NewItem(true, MultiLine, false));
    assert Similar(q, d);
    SimilarWriteIndent(q, d);
    var q' := WriteIndent1(q);
    SimilarPut(q.(indent := q.indent + o.indent), d, "{");
    SimilarPut(q'.(indent := q'.indent + o.indent), d, "{");
  }

  lemma SimilarBeginArray(p: State, c: State, o: Options)
    requires Similar(p, c) && Kept(Outside, "[")
    ensures var q :=
              if InObject(p) then
                var r := Put(p, "[");
                Push(r.(indent := r.indent + o.indent), NewItem(false, o.objectArray, o.objectArray != SameLine))
              else if p.stack != [] then
                var r := Push(if o.arrayArray != SameLine then WriteIndent(p) else p, NewItem(false, o.arrayArray, false));
                Put(r.(indent := r.indent + o.indent), "[")
              else
                var r := Push(p, NewItem(false, MultiLine, false));
                Put(r.(indent := r.indent + o.indent), "[");
            Similar(q, Put(Push(c, NewItem(false, SameLine, false)), "["))
  {
    SimilarPut(p, c, "[");
    SimilarWriteIndent(p, c);
    SimilarPut(WriteIndent(p), c, "[");
  }

  lemma SimilarPop(p: State, c: State)
    requires Similar(p, c) && p.stack != []
    ensures Similar(Pop(p), Pop(c))
  {
  }

  lemma SimilarEndValue(p: State, c: State)
    requires Similar(p, c)
    ensures Similar(EndValue(p), EndValue(c))
  {
  }

  lemma SimilarEnd(p: State, c: State, o: Options, bracket: string)
    requires Similar(p, c) && p.stack != [] && Kept(Outside, bracket)
    ensures Similar(EndStep(p, Config(true, o), bracket), EndStep(c, Config(false, o), bracket))
  {
    var p1 := p.(indent := p.indent - o.indent);
    assert Similar(p1, c);
    SimilarWriteIndent(p1, c);
    var p2 := if Top(p1).unindentAtEnd then WriteIndent(p1) else p1;
    SimilarPop(p2, c);
    SimilarPut(Pop(p2), Pop(c), bracket);
    SimilarEndValue(Put(Pop(p2), bracket), Put(Pop(c), bracket));
  }

  lemma SimilarName(p: State, c: State, o: Options, name: string)
    requires Similar(p, c)
    ensures Similar(NameStep(p, Config(true, o), name), NameStep(c, Config(false, o), name))
  {
    SimilarSeparator(p, c);
    var p1, c1 := Put(p, Separator(p)), Put(c, Separator(c));
    SimilarWriteIndent(p1, c1);
    var p2 := if p1.stack != [] && Top(p1).split == MultiLine then WriteIndent(p1) else p1;
    KeptQuoted(name, o.escape);
    SimilarPut(p2, c1, Quoted(name, o.escape));
    var p3, c3 := Put(p2, Quoted(name, o.escape)), Put(c1, Quoted(name, o.escape));
    KeptChar(Outside, ':');
    SimilarPut(p3, c3, ":");
    assert " "[1..] == "";
    SimilarBlank(Put(p3, ":"), Put(c3, ":"), " ");
  }

  lemma SimilarValue(p: State, c: State, o: Options, s: Scalar)
    requires Similar(p, c)
    ensures Similar(ValueStep(p, Config(true, o), s), ValueStep(c, Config(false, o), s))
  {
    SimilarSeparator(p, c);
    var p1, c1 := Put(p, Separator(p)), Put(c, Separator(c));
    SimilarWriteIndent(p1, c1);
    var p2 := if InArray(p) then BeginScalarStep(p, Config(true, o)) else p;
    var c2 := if InArray(c) then BeginScalarStep(c, Config(false, o)) else c;
    assert Similar(p2, c2);
    KeptScalar(s, o.escape);
    SimilarPut(p2, c2, ScalarText(s, o.escape));
  }

  /** One event keeps the two machines similar. */
  lemma SimilarStep(p: State, c: State, o: Options, e: Event)
    requires Similar(p, c)
    ensures Similar(Handle(p, Config(true, o), e), Handle(c, Config(false, o), e))
  {
    KeptChar(Outside, '}');
    KeptChar(Outside, ']');
    match e
    case BeginObject => SimilarBegin(p, c, o);
    case BeginArray => SimilarBegin(p, c, o);
    case EndObject => if p.stack != [] { SimilarEnd(p, c, o, "}"); }
    case EndArray => if p.stack != [] { SimilarEnd(p, c, o, "]"); }
    case Name(name) => SimilarName(p, c, o, name);
    case Value(s) => SimilarValue(p, c, o, s);
    case _ =>
  }

  lemma {:induction false} SimilarRun(p: State, c: State, o: Options, es: seq<Event>)
    requires Similar(p, c)
    ensures Similar(Run(p, Config(true, o), es), Run(c, Config(false, o), es))
    decreases |es|
  {
    if es != [] {
      SimilarStep(p, c, o, es[0]);
      SimilarRun(Handle(p, Config(true, o), es[0]), Handle(c, Config(false, o), es[0]), o, es[1..]);
    }
  }

  // ----- indentation -----

  predicate Indented(st: State, o: Options) { st.indent == o.indent * |st.stack| }

  lemma IndentedStep(st: State, o: Options, e: Event)
    requires Indented(st, o)
    ensures Indented(Handle(st, Config(true, o), e), o)
  {
    var n := |st.stack|;
    match e
    case BeginObject => IndentedNest(st, o, e);
    case BeginArray => IndentedNest(st, o, e);
    case EndObject => IndentedNest(st, o, e);
    case EndArray => IndentedNest(st, o, e);
    case _ => assert |Handle(st, Config(true, o), e).stack| == n;
  }

  lemma IndentedNest(st: State, o: Options, e: Event)
    requires Indented(st, o) && (e.BeginObject? || e.BeginArray? || e.EndObject? || e.EndArray?)
    ensures Indented(Handle(st, Config(true, o), e), o)
  {
    var n := |st.stack|;
    assert o.indent * (n + 1) == o.indent * n + o.indent;
    assert o.indent * (n - 1) == o.indent * n - o.indent;
    var st' := Handle(st, Config(true, o), e);
    assert n > 0 || e.BeginObject? || e.BeginArray? ==> |st'.stack| == if e.BeginObject? || e.BeginArray? then n + 1 else n - 1;
  }

  lemma {:induction false} IndentedRun(st: State, o: Options, es: seq<Event>)
    requires Indented(st, o)
    ensures Indented(Run(st, Config(true, o), es), o)
    decreases |es|
  {
    if es != [] {
      IndentedStep(st, o, es[0]);
      IndentedRun(Handle(st, Config(true, o), es[0]), o, es[1..]);
    }
  }

  /**
   Main result for indenting mode. After any event sequence whatever, erasing
   whitespace outside strings gives the compact machine's text, and the
   indentation is the number of open structures times the configured indent.
   */
  lemma PrettyAddsOnlyWhitespace(o: Options, es: seq<Event>)
    ensures Strip(Outside, Run(Initial, Config(true, o), es).out) == Run(Initial, Config(false, o), es).out
    ensures Run(Initial, Config(true, o), es).indent == o.indent * |Run(Initial, Config(true, o), es).stack|
    ensures |Run(Initial, Config(true, o), es).stack| == |Run(Initial, Config(false, o), es).stack|
  {
    SimilarRun(Initial, Initial, o, es);
    IndentedRun(Initial, o, es);
  }

  /** For a tree: the indented text without its whitespace is the printer's text, and the indentation ends at 0. */
  lemma PrettyTree(o: Options, v: Json)
    ensures Strip(Outside, Run(Initial, Config(true, o), Document(v)).out) == Print(v, o.escape)
    ensures Run(Initial, Config(true, o), Document(v)).indent == 0
    ensures Run(Initial, Config(true, o), Document(v)).stack == []
  {
    PrettyAddsOnlyWhitespace(o, Document(v));
    CompactIsPrint(v, o);
  }
}
