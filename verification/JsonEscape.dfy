/**
 String escaping of the serializer, and the reader's side of a string literal
 (RFC 8259 section 7, surrogate pairs as in RFC 2781 section 2.1).

 A string is a sequence of Unicode scalar values, which is what Dafny's char is.
 */
module JsonEscape {
  import opened Wrappers

  datatype EscapeOptions = EscapeOptions(escapeSolidus: bool, escapeAllNonAscii: bool)

  predicate IsControl(cp: int) { cp <= 0x1F || cp == 0x7F }

  predicate IsNonAscii(cp: int) { cp >= 0x80 }

  function HexDigit(d: nat): (c: char)
    requires d < 16
  {
    if d < 10 then '0' + d as char else 'A' + (d - 10) as char
  }

  /** Backslash, u and the four hexadecimal digits of a 16-bit unit. */
  function HexEscape(unit: nat): (s: string)
    requires unit <= 0xFFFF
  {
    ['\\', 'u', HexDigit(unit / 4096 % 16), HexDigit(unit / 256 % 16), HexDigit(unit / 16 % 16), HexDigit(unit % 16)]
  }

  function HighSurrogate(cp: nat): nat
    requires 0xFFFF < cp <= 0x10FFFF
  {
    (cp - 0x10000) / 1024 + 0xD800
  }

  function LowSurrogate(cp: nat): nat
    requires 0xFFFF < cp <= 0x10FFFF
  {
    (cp - 0x10000) % 1024 + 0xDC00
  }

  /** What the escaping loop writes for one character. */
  function EscapeChar(c: char, options: EscapeOptions): string {
    var cp := c as int;
    if c == '\\' then "\\\\"
    else if c == '"' then "\\\""
    else if cp == 8 then "\\b"
    else if cp == 12 then "\\f"
    else if c == '\n' then "\\n"
    else if c == '\r' then "\\r"
    else if c == '\t' then "\\t"
    else if options.escapeSolidus && c == '/' then "\\/"
    else if (IsControl(cp) || options.escapeAllNonAscii) && (IsNonAscii(cp) || IsControl(cp)) then
      if cp > 0xFFFF then HexEscape(HighSurrogate(cp)) + HexEscape(LowSurrogate(cp)) else HexEscape(cp)
    else [c]
  }

  function Escape(s: string, options: EscapeOptions): string {
    if s == "" then "" else EscapeChar(s[0], options) + Escape(s[1..], options)
  }

  lemma {:induction false} EscapeSnoc(s: string, c: char, options: EscapeOptions)
    ensures Escape(s + [c], options) == Escape(s, options) + EscapeChar(c, options)
  {
    if s == "" {
      assert (s + [c])[1..] == "";
    } else {
      EscapeSnoc(s[1..], c, options);
      assert (s + [c])[1..] == s[1..] + [c];
      var head := EscapeChar(s[0], options);
      assert head + (Escape(s[1..], options) + EscapeChar(c, options)) == head + Escape(s[1..], options) + EscapeChar(c, options);
    }
  }

  /** One more character escaped. */
  lemma EscapeNext(s: string, i: nat, options: EscapeOptions, writer: string)
    requires i < |s|
    ensures writer + Escape(s[..i], options) + EscapeChar(s[i], options) == writer + Escape(s[..i + 1], options)
  {
    EscapeSnoc(s[..i], s[i], options);
    assert s[..i] + [s[i]] == s[..i + 1];
    assert writer + Escape(s[..i], options) + EscapeChar(s[i], options)
        == writer + (Escape(s[..i], options) + EscapeChar(s[i], options));
  }

  /** The switch of the escaping loop: appends one character's text to the writer. */
  method WriteEscaped(c: char, options: EscapeOptions, writer: string) returns (out: string)
    ensures out == writer + EscapeChar(c, options)
  {
    var cp := c as int;
    if c == '\\' {
      out := writer + "\\\\";
    } else if c == '"' {
      out := writer + "\\\"";
    } else if cp == 8 {
      out := writer + "\\b";
    } else if cp == 12 {
      out := writer + "\\f";
    } else if c == '\n' {
      out := writer + "\\n";
    } else if c == '\r' {
      out := writer + "\\r";
    } else if c == '\t' {
      out := writer + "\\t";
    } else if options.escapeSolidus && c == '/' {
      out := writer + "\\/";
    } else if IsControl(cp) || options.escapeAllNonAscii {
      if IsNonAscii(cp) || IsControl(cp) {
        if cp > 0xFFFF {
          var first := HighSurrogate(cp);
          var second := LowSurrogate(cp);
          out := writer + (HexEscape(first) + HexEscape(second));
        } else {
          out := writer + HexEscape(cp);
        }
      } else {
        out := writer + [c];
      }
    } else {
      out := writer + [c];
    }
  }

  /** The serializer's loop: one pass over the string, appending to the writer. */
  method EscapeString(s: string, options: EscapeOptions, writer: string) returns (out: string)
    ensures out == writer + Escape(s, options)
  {
    out := writer;
    var i := 0;
    while i < |s|
      invariant 0 <= i <= |s|
      invariant out == writer + Escape(s[..i], options)
    {
      EscapeNext(s, i, options, writer);
      out := WriteEscaped(s[i], options, out);
      i := i + 1;
    }
    assert s[..i] == s;
  }

  // ----- reading a string literal back -----

  /** The value of a hexadecimal digit, in either case. */
  function HexValue(c: char): Option<nat> {
    if '0' <= c <= '9' then Some((c - '0') as int)
    else if 'A' <= c <= 'F' then Some((c - 'A') as int + 10)
    else if 'a' <= c <= 'f' then Some((c - 'a') as int + 10)
    else None
  }

  /** Four hexadecimal digits at the front of t. */
  function ReadHex4(t: string): (r: Option<nat>)
    ensures r.Some? ==> |t| >= 4 && r.value <= 0xFFFF
  {
    if |t| < 4 then None
    else
      var a, b, c, d := HexValue(t[0]), HexValue(t[1]), HexValue(t[2]), HexValue(t[3]);
      if a.None? || b.None? || c.None? || d.None? then None
      else Some(((a.value * 16 + b.value) * 16 + c.value) * 16 + d.value)
  }

  datatype Unit = Unit(c: char, rest: string)

  /** One character of a string literal, escaped or not; None at the closing quote or on malformed text. */
  function ReadChar(t: string): (r: Option<Unit>)
    ensures r.Some? ==> |r.value.rest| < |t|
  {
    if t == "" || t[0] == '"' || t[0] as int < 0x20 then None
    else if t[0] != '\\' then Some(Unit(t[0], t[1..]))
    else if |t| < 2 then None
    else match t[1]
      case '"' => Some(Unit('"', t[2..]))
      case '\\' => Some(Unit('\\', t[2..]))
      case '/' => Some(Unit('/', t[2..]))
      case 'b' => Some(Unit(8 as char, t[2..]))
      case 'f' => Some(Unit(12 as char, t[2..]))
      case 'n' => Some(Unit('\n', t[2..]))
      case 'r' => Some(Unit('\r', t[2..]))
      case 't' => Some(Unit('\t', t[2..]))
      case 'u' => ReadUnicodeEscape(t[2..])
      case _ => None
  }

  /** The digits after backslash-u: one unit, or a surrogate pair. */
  function ReadUnicodeEscape(t: string): (r: Option<Unit>)
    ensures r.Some? ==> |r.value.rest| < |t|
  {
    var high := ReadHex4(t);
    if high.None? then None
    else if high.value < 0xD800 || 0xDFFF < high.value then Some(Unit(high.value as char, t[4..]))
    else if 0xDC00 <= high.value || |t| < 6 || t[4] != '\\' || t[5] != 'u' then None
    else
      var low := ReadHex4(t[6..]);
      if low.None? || low.value < 0xDC00 || 0xDFFF < low.value then None
      else Some(Unit(((high.value - 0xD800) * 1024 + (low.value - 0xDC00) + 0x10000) as char, t[10..]))
  }

  datatype Text = Text(s: string, rest: string)

  /** The rest of a string literal, up to and including its closing quote. */
  function ReadString(t: string): (r: Option<Text>)
    ensures r.Some? ==> |r.value.rest| < |t|
  {
    if t == "" then None
    else if t[0] == '"' then Some(Text("", t[1..]))
    else
      var u := ReadChar(t);
      if u.None? then None
      else
        var tail := ReadString(u.value.rest);
        if tail.None? then None else Some(Text([u.value.c] + tail.value.s, tail.value.rest))
  }

  lemma HexDigitRoundTrip(d: nat)
    requires d < 16
    ensures HexValue(HexDigit(d)) == Some(d)
  {
  }

  lemma HexDigitsRecombine(unit: nat)
    requires unit <= 0xFFFF
    ensures unit == ((unit / 4096 % 16 * 16 + unit / 256 % 16) * 16 + unit / 16 % 16) * 16 + unit % 16
  {
    assert unit / 256 == unit / 16 / 16;
    assert unit / 4096 == unit / 256 / 16;
    assert unit / 4096 < 16;
  }

  lemma ReadHexEscape(unit: nat, rest: string)
    requires unit <= 0xFFFF
    ensures ReadHex4(HexEscape(unit)[2..] + rest) == Some(unit)
  {
    var a, b, c, d := unit / 4096 % 16, unit / 256 % 16, unit / 16 % 16, unit % 16;
    HexDigitRoundTrip(a);
    HexDigitRoundTrip(b);
    HexDigitRoundTrip(c);
    HexDigitRoundTrip(d);
    assert HexEscape(unit)[2..] == [HexDigit(a), HexDigit(b), HexDigit(c), HexDigit(d)];
    HexDigitsRecombine(unit);
  }

  /** The two halves lie in the surrogate ranges and recombine exactly. */
  lemma SurrogatesRecombine(cp: nat)
    requires 0xFFFF < cp <= 0x10FFFF
    ensures 0xD800 <= HighSurrogate(cp) <= 0xDBFF
    ensures 0xDC00 <= LowSurrogate(cp) <= 0xDFFF
    ensures (HighSurrogate(cp) - 0xD800) * 1024 + (LowSurrogate(cp) - 0xDC00) + 0x10000 == cp
  {
  }

  lemma ReadEscapedUnit(cp: nat, rest: string)
    requires cp <= 0xFFFF && !(0xD800 <= cp <= 0xDFFF)
    ensures ReadChar(HexEscape(cp) + rest) == Some(Unit(cp as char, rest))
  {
    var t := HexEscape(cp) + rest;
    ReadHexEscape(cp, rest);
    assert t[2..] == HexEscape(cp)[2..] + rest;
    assert t[2..][4..] == rest;
  }

  lemma ReadEscapedPair(cp: nat, rest: string)
    requires 0xFFFF < cp <= 0x10FFFF
    ensures ReadChar(HexEscape(HighSurrogate(cp)) + HexEscape(LowSurrogate(cp)) + rest) == Some(Unit(cp as char, rest))
  {
    SurrogatesRecombine(cp);
    var high, low := HighSurrogate(cp), LowSurrogate(cp);
    var t := HexEscape(high) + HexEscape(low) + rest;
    var u := t[2..];
    assert u == HexEscape(high)[2..] + (HexEscape(low) + rest);
    ReadHexEscape(high, HexEscape(low) + rest);
    assert u[6..] == HexEscape(low)[2..] + rest;
    ReadHexEscape(low, rest);
    assert u[10..] == rest;
    assert u[4] == '\\' && u[5] == 'u';
  }

  /** Reading undoes the escaping of one character, whatever follows it. */
  lemma ReadEscapedChar(c: char, options: EscapeOptions, rest: string)
    ensures ReadChar(EscapeChar(c, options) + rest) == Some(Unit(c, rest))
    ensures EscapeChar(c, options) != "" && EscapeChar(c, options)[0] != '"'
  {
    var cp := c as int;
    var e := EscapeChar(c, options);
    if |e| == 12 {
      ReadEscapedPair(cp, rest);
    } else if |e| == 6 {
      ReadEscapedUnit(cp, rest);
    } else if |e| == 2 {
      assert (e + rest)[2..] == rest;
    } else {
      assert (e + rest)[1..] == rest;
    }
  }

  /**
   Escaping is invertible: for every string and every setting of the two
   options, reading the escaped text up to the closing quote gives the string
   back and leaves exactly what followed the quote.
   */
  lemma {:induction false} EscapeRoundTrip(s: string, options: EscapeOptions, rest: string)
    ensures ReadString(Escape(s, options) + "\"" + rest) == Some(Text(s, rest))
  {
    if s == "" {
      assert ("\"" + rest)[1..] == rest;
      assert Escape(s, options) + "\"" + rest == "\"" + rest;
    } else {
      var e, tail := EscapeChar(s[0], options), Escape(s[1..], options) + "\"" + rest;
      EscapedTail(e, Escape(s[1..], options), rest);
      ReadEscapedChar(s[0], options, tail);
      EscapeRoundTrip(s[1..], options, rest);
      ReadOneMore(e + tail, s[0], tail, s[1..], rest);
      HeadAndTail(s);
    }
  }

  lemma EscapedTail(e: string, escaped: string, rest: string)
    ensures (e + escaped) + "\"" + rest == e + (escaped + "\"" + rest)
  {
  }

  /** A character and the rest of the string, once both are known to be read. */
  lemma ReadOneMore(t: string, c: char, tail: string, s: string, rest: string)
    requires t != "" && t[0] != '"' && ReadChar(t) == Some(Unit(c, tail)) && ReadString(tail) == Some(Text(s, rest))
    ensures ReadString(t) == Some(Text([c] + s, rest))
  {
  }

  /** So two strings with the same escaped text are the same string. */
  lemma EscapeInjective(s: string, s': string, options: EscapeOptions)
    requires Escape(s, options) == Escape(s', options)
    ensures s == s'
  {
    EscapeRoundTrip(s, options, "");
    EscapeRoundTrip(s', options, "");
  }

  /** With every non-ASCII character escaped, the output is printable ASCII. */
  lemma {:induction false} EscapeAllIsAscii(s: string, options: EscapeOptions)
    requires options.escapeAllNonAscii
    ensures forall i :: 0 <= i < |Escape(s, options)| ==> 0x20 <= Escape(s, options)[i] as int < 0x7F
  {
    if s != "" {
      EscapeAllIsAscii(s[1..], options);
      EscapeCharIsAscii(s[0], options);
    }
  }

  lemma EscapeCharIsAscii(c: char, options: EscapeOptions)
    requires options.escapeAllNonAscii
    ensures forall i :: 0 <= i < |EscapeChar(c, options)| ==> 0x20 <= EscapeChar(c, options)[i] as int < 0x7F
  {
  }

  // ----- what the options decide -----

  lemma EscapeOne(c: char, options: EscapeOptions)
    ensures Escape([c], options) == EscapeChar(c, options)
  {
    assert [c][1..] == "" && EscapeChar(c, options) + "" == EscapeChar(c, options);
  }

  /** How each kind of character is written, as a text of its own. */
  lemma WrittenForms(c: char, options: EscapeOptions)
    ensures var out, cp := Escape([c], options), c as int;
            && (c == '"' || c == '\\' ==> out == ['\\', c])
            && (cp == 8 ==> out == "\\b") && (cp == 9 ==> out == "\\t") && (cp == 10 ==> out == "\\n")
            && (cp == 12 ==> out == "\\f") && (cp == 13 ==> out == "\\r")
            && (c == '/' ==> out == if options.escapeSolidus then "\\/" else "/")
            && ((cp < 0x20 || cp == 0x7F) && !(8 <= cp <= 10) && cp != 12 && cp != 13 ==> |out| == 6 && out[..4] == "\\u00")
            && (0x20 <= cp < 0x7F && c != '"' && c != '\\' && c != '/' ==> out == [c])
            && (cp >= 0x80 && !options.escapeAllNonAscii ==> out == [c])
            && (cp >= 0x80 && options.escapeAllNonAscii ==> |out| == (if cp > 0xFFFF then 12 else 6) && out[..2] == "\\u")
            && (|out| >= 6 ==> forall i :: 2 <= i < 6 ==> '0' <= out[i] <= '9' || 'A' <= out[i] <= 'F')
  {
    EscapeOne(c, options);
  }

  /** With the solidus left alone, printable ASCII without quotes and backslashes is written as it is. */
  lemma {:induction false} PlainStays(s: string, options: EscapeOptions)
    requires !options.escapeSolidus
    requires forall i :: 0 <= i < |s| ==> 0x20 <= s[i] as int < 0x7F && s[i] != '"' && s[i] != '\\'
    ensures Escape(s, options) == s
  {
    if s != "" {
      PlainStays(s[1..], options);
      HeadAndTail(s);
    }
  }

  /** Every solidus follows a backslash. */
  predicate SolidusEscaped(t: string) { forall i :: 0 <= i < |t| && t[i] == '/' ==> i > 0 && t[i - 1] == '\\' }

  lemma SolidusConcat(a: string, b: string)
    requires SolidusEscaped(a) && SolidusEscaped(b)
    ensures SolidusEscaped(a + b)
  {
    forall i | 0 <= i < |a + b| && (a + b)[i] == '/' ensures i > 0 && (a + b)[i - 1] == '\\' {
      if i >= |a| {
        assert b[i - |a|] == '/';
      }
    }
  }

  lemma SolidusOfOne(c: char, options: EscapeOptions)
    requires options.escapeSolidus
    ensures SolidusEscaped(EscapeChar(c, options))
  {
  }

  /** With the solidus escaped, every one in the output follows a backslash. */
  lemma {:induction false} SolidusAlwaysEscaped(s: string, options: EscapeOptions)
    requires options.escapeSolidus
    ensures SolidusEscaped(Escape(s, options))
  {
    if s != "" {
      SolidusAlwaysEscaped(s[1..], options);
      SolidusOfOne(s[0], options);
      SolidusConcat(EscapeChar(s[0], options), Escape(s[1..], options));
    }
  }

  /** With non-ASCII characters left alone, the output has those of the string, in order, and no others. */
  lemma {:induction false} NonAsciiStays(s: string, options: EscapeOptions)
    requires !options.escapeAllNonAscii
    ensures Filtered((c: char) => c as int >= 0x80, Escape(s, options)) == Filtered((c: char) => c as int >= 0x80, s)
  {
    if s != "" {
      var keep := (c: char) => c as int >= 0x80;
      NonAsciiStays(s[1..], options);
      FilteredConcat(keep, EscapeChar(s[0], options), Escape(s[1..], options));
      AsciiEscape(s[0], options, keep);
    }
  }

  lemma AsciiEscape(c: char, options: EscapeOptions, keep: char -> bool)
    requires !options.escapeAllNonAscii && forall d :: keep(d) <==> d as int >= 0x80
    ensures Filtered(keep, EscapeChar(c, options)) == if c as int >= 0x80 then [c] else []
  {
    var e := EscapeChar(c, options);
    if c as int >= 0x80 {
      assert e == [c] && e[1..] == [];
    } else {
      NothingKept(keep, e);
    }
  }

  lemma {:induction false} NothingKept(keep: char -> bool, t: string)
    requires forall i :: 0 <= i < |t| ==> !keep(t[i])
    ensures Filtered(keep, t) == ""
  {
    if t != "" {
      NothingKept(keep, t[1..]);
    }
  }
}
