/**
 The packet format shared by client and server: three NUL-terminated strings,
 and inside a unit packet a message of '&'-terminated fields.
 */
module Wire {
  import opened Wrappers

  const NUL := '\0'

  datatype Packet = Packet(kind: string, username: string, msg: string)

  /** What a unit packet carries once deciphered. */
  datatype UnitMsg = UnitMsg(name: string, x: int, y: int, squad: int, hp: int)

  predicate Int32(n: int) { -0x8000_0000 <= n < 0x8000_0000 }

  // ----- the three strings -----

  function Encode(p: Packet): string {
    p.kind + [NUL] + p.username + [NUL] + p.msg + [NUL]
  }

  /** Copies src into dst from position at on. */
  method CopyInto(dst: array<char>, at: nat, src: string)
    requires at + |src| <= dst.Length
    modifies dst
    ensures dst[..] == old(dst[..at]) + src + old(dst[at + |src|..])
  {
    var i := 0;
    while i < |src|
      invariant 0 <= i <= |src|
      invariant forall k :: 0 <= k < i ==> dst[at + k] == src[k]
      invariant forall k :: 0 <= k < dst.Length && !(at <= k < at + i) ==> dst[k] == old(dst[k])
    {
      dst[at + i] := src[i];
      i := i + 1;
    }
    assert dst[..at] == old(dst[..at]);
    assert dst[at..at + i] == src;
    assert dst[at + i..] == old(dst[at + i..]);
    assert dst[..] == dst[..at] + dst[at..at + i] + dst[at + i..];
  }

  /** Serializes a packet into a fresh buffer of exactly the right size. */
  method Data(p: Packet) returns (buffer: array<char>)
    ensures fresh(buffer) && buffer[..] == Encode(p)
  {
    var a, b, c := p.kind + [NUL], p.username + [NUL], p.msg + [NUL];
    buffer := new char[|a| + |b| + |c|];
    CopyInto(buffer, 0, a);
    ghost var first := buffer[..];
    assert first[..|a|] == a;
    CopyInto(buffer, |a|, b);
    ghost var second := buffer[..];
    assert second[..|a| + |b|] == a + b;
    CopyInto(buffer, |a| + |b|, c);
    assert second[|a| + |b| + |c|..] == [];
    assert buffer[..] == a + b + c;
    EncodeShape(p);
  }

  lemma EncodeShape(p: Packet)
    ensures (p.kind + [NUL]) + (p.username + [NUL]) + (p.msg + [NUL]) == Encode(p)
  {
  }

  predicate NulFree(s: string) { NUL !in s }

  /** The buffer holds a terminated string at its start. */
  predicate Terminated(buffer: string) { NUL in buffer }

  /** The C string at the start of a buffer. */
  function CString(buffer: string): (s: string)
    requires Terminated(buffer)
    ensures |s| < |buffer| && s == buffer[..|s|] && NulFree(s) && buffer[|s|] == NUL
  {
    if buffer[0] == NUL then ""
    else
      assert buffer == [buffer[0]] + buffer[1..];
      [buffer[0]] + CString(buffer[1..])
  }

  function AfterString(buffer: string): string
    requires Terminated(buffer)
  {
    buffer[|CString(buffer)| + 1..]
  }

  predicate HoldsPacket(buffer: string) {
    && Terminated(buffer)
    && Terminated(AfterString(buffer))
    && Terminated(AfterString(AfterString(buffer)))
  }

  /** The constructor that takes received bytes. */
  function Decode(buffer: string): Packet
    requires HoldsPacket(buffer)
  {
    var rest := AfterString(buffer);
    Packet(CString(buffer), CString(rest), CString(AfterString(rest)))
  }

  /** A NUL at position i ends the C string there or earlier. */
  lemma {:induction false} CStringEnds(buffer: string, i: nat)
    requires i < |buffer| && buffer[i] == NUL
    ensures Terminated(buffer) && |CString(buffer)| <= i
  {
    if buffer[0] != NUL {
      assert buffer[1..][i - 1] == NUL;
      CStringEnds(buffer[1..], i - 1);
    }
  }

  lemma CStringOfNulFree(s: string, rest: string)
    requires NulFree(s)
    ensures Terminated(s + [NUL] + rest)
    ensures CString(s + [NUL] + rest) == s
    ensures AfterString(s + [NUL] + rest) == rest
  {
    var buffer := s + [NUL] + rest;
    CStringEnds(buffer, |s|);
    forall k | 0 <= k < |s| ensures buffer[k] != NUL {
      assert buffer[k] == s[k];
    }
    assert buffer[..|s|] == s;
  }

  /** A packet of NUL-free strings, followed by anything, reads back as itself. */
  lemma DecodeEncode(p: Packet)
    requires NulFree(p.kind) && NulFree(p.username) && NulFree(p.msg)
    ensures HoldsPacket(Encode(p)) && Decode(Encode(p)) == p
  {
    var third := p.msg + [NUL];
    var second := p.username + [NUL] + third;
    assert Encode(p) == p.kind + [NUL] + second;
    CStringOfNulFree(p.kind, second);
    CStringOfNulFree(p.username, third);
    assert third == p.msg + [NUL] + [];
    CStringOfNulFree(p.msg, []);
  }

  /** Skipping one string of a buffer leaves at least what follows a given NUL. */
  lemma AfterStringKeeps(s: string, tail: string)
    ensures Terminated(s + [NUL] + tail)
    ensures var r := AfterString(s + [NUL] + tail); |r| >= |tail| && r[|r| - |tail|..] == tail
  {
    CStringEnds(s + [NUL] + tail, |s|);
  }

  /** A buffer that ends with a string after a NUL still does once its first string is skipped. */
  lemma SkipOne(buffer: string, s: string, tail: string) returns (s': string)
    requires buffer == s + [NUL] + tail
    ensures Terminated(buffer) && AfterString(buffer) == s' + tail
  {
    AfterStringKeeps(s, tail);
    var r := AfterString(buffer);
    s' := r[..|r| - |tail|];
    assert r == s' + tail;
  }

  /** Every encoded packet can be decoded without running off its end. */
  lemma EncodeHoldsPacket(p: Packet)
    ensures HoldsPacket(Encode(p))
  {
    var third := p.msg + [NUL];
    var second := p.username + [NUL] + third;
    assert Encode(p) == p.kind + [NUL] + second;
    var s := SkipOne(Encode(p), p.kind, second);
    assert s + second == (s + p.username) + [NUL] + third;
    var t := SkipOne(s + second, s + p.username, third);
    assert (t + third)[|t + third| - 1] == NUL;
  }

  /** The constructor inverts `Data` exactly on packets whose strings are NUL-free. */
  lemma PacketRoundTrip(p: Packet)
    ensures HoldsPacket(Encode(p))
    ensures Decode(Encode(p)) == p <==> NulFree(p.kind) && NulFree(p.username) && NulFree(p.msg)
  {
    EncodeHoldsPacket(p);
    if NulFree(p.kind) && NulFree(p.username) && NulFree(p.msg) {
      DecodeEncode(p);
    }
  }

  // ----- numbers as text -----

  function Digit(d: nat): char
    requires d < 10
  {
    '0' + d as char
  }

  function Digits(n: nat): (s: string)
    ensures s != ""
  {
    if n < 10 then [Digit(n)] else Digits(n / 10) + [Digit(n % 10)]
  }

  /** std::to_string of an int. */
  function IntText(n: int): string {
    if n < 0 then "-" + Digits(-n) else Digits(n)
  }

  /** std::to_string of a float whose value is a whole number. */
  function FloatText(n: int): string {
    IntText(n) + ".000000"
  }

  predicate IsDigit(c: char) { '0' <= c <= '9' }

  predicate IsBlank(c: char) { c == ' ' || 9 <= c as int <= 13 }

  /** The longest run of digits at the start of s. */
  function DigitRun(s: string): (n: nat)
    ensures n <= |s|
    ensures forall i :: 0 <= i < n ==> IsDigit(s[i])
  {
    if s != "" && IsDigit(s[0]) then 1 + DigitRun(s[1..]) else 0
  }

  function DigitsValue(s: string): nat
    requires forall i :: 0 <= i < |s| ==> IsDigit(s[i])
  {
    if s == "" then 0
    else
      assert IsDigit(s[|s| - 1]);
      10 * DigitsValue(s[..|s| - 1]) + (s[|s| - 1] - '0') as int
  }

  datatype Number = Value(n: int) | InvalidArgument | OutOfRange

  function SkipBlanks(s: string): string {
    if s != "" && IsBlank(s[0]) then SkipBlanks(s[1..]) else s
  }

  function Unsigned(s: string): Option<nat> {
    var n := DigitRun(s);
    if n == 0 then None else Some(DigitsValue(s[..n]))
  }

  function InRange(n: int): Number { if Int32(n) then Value(n) else OutOfRange }

  /** std::stoi: blanks, an optional sign, the longest run of digits; what follows is ignored. */
  function Stoi(text: string): Number {
    var s := SkipBlanks(text);
    if s != "" && (s[0] == '-' || s[0] == '+') then
      var v := Unsigned(s[1..]);
      if v.None? then InvalidArgument else InRange(if s[0] == '-' then -(v.value as int) else v.value as int)
    else
      var v := Unsigned(s);
      if v.None? then InvalidArgument else InRange(v.value)
  }

  lemma {:induction false} DigitsAreDigits(n: nat)
    ensures forall i :: 0 <= i < |Digits(n)| ==> IsDigit(Digits(n)[i])
    ensures DigitsValue(Digits(n)) == n
  {
    if n >= 10 {
      DigitsAreDigits(n / 10);
      var s := Digits(n);
      assert s[..|s| - 1] == Digits(n / 10);
    } else {
      assert Digits(n)[..0] == "";
    }
  }

  lemma {:induction false} DigitRunStops(s: string, tail: string)
    requires forall i :: 0 <= i < |s| ==> IsDigit(s[i])
    requires tail == "" || !IsDigit(tail[0])
    ensures DigitRun(s + tail) == |s|
  {
    if s == "" {
      assert s + tail == tail;
    } else {
      assert (s + tail)[1..] == s[1..] + tail;
      DigitRunStops(s[1..], tail);
    }
  }

  lemma UnsignedOfDigits(n: nat, tail: string)
    requires tail == "" || !IsDigit(tail[0])
    ensures Unsigned(Digits(n) + tail) == Some(n)
    ensures IsDigit((Digits(n) + tail)[0])
  {
    DigitsAreDigits(n);
    DigitRunStops(Digits(n), tail);
    assert (Digits(n) + tail)[..|Digits(n)|] == Digits(n);
  }

  lemma StoiOfDigits(n: nat, tail: string)
    requires Int32(n)
    requires tail == "" || !IsDigit(tail[0])
    ensures Stoi(Digits(n) + tail) == Value(n)
  {
    UnsignedOfDigits(n, tail);
    var text := Digits(n) + tail;
    assert SkipBlanks(text) == text;
  }

  lemma StoiOfMinus(text: string, n: nat)
    requires Int32(-(n as int)) && Unsigned(text) == Some(n)
    ensures Stoi("-" + text) == Value(-(n as int))
  {
    var t := "-" + text;
    assert t[0] == '-' && t[1..] == text;
    assert SkipBlanks(t) == t;
  }

  /** stoi inverts to_string on 32-bit integers, whatever non-digit follows. */
  lemma StoiOfIntText(n: int, tail: string)
    requires Int32(n)
    requires tail == "" || !IsDigit(tail[0])
    ensures Stoi(IntText(n) + tail) == Value(n)
  {
    if n < 0 {
      UnsignedOfDigits(-n, tail);
      assert IntText(n) + tail == "-" + (Digits(-n) + tail);
      StoiOfMinus(Digits(-n) + tail, -n);
    } else {
      StoiOfDigits(n, tail);
    }
  }

  predicate Blank(s: string) { forall i :: 0 <= i < |s| ==> IsBlank(s[i]) }

  lemma {:induction false} BlanksSkipped(blanks: string, text: string)
    requires Blank(blanks)
    ensures SkipBlanks(blanks + text) == SkipBlanks(text)
    decreases |blanks|
  {
    if blanks == "" {
      assert blanks + text == text;
    } else {
      assert (blanks + text)[0] == blanks[0] && (blanks + text)[1..] == blanks[1..] + text;
      BlanksSkipped(blanks[1..], text);
    }
  }

  /** What stoi reads off any text that begins with blanks, a sign or none, and digits: the number if it fits in 32 bits. */
  lemma StoiReads(blanks: string, sign: string, n: nat, tail: string)
    requires Blank(blanks) && sign in ["", "+", "-"] && (tail == "" || !IsDigit(tail[0]))
    ensures var v: int := if sign == "-" then -(n as int) else n;
            Stoi(blanks + (sign + (Digits(n) + tail))) == if Int32(v) then Value(v) else OutOfRange
  {
    var digits := Digits(n) + tail;
    UnsignedOfDigits(n, tail);
    BlanksSkipped(blanks, sign + digits);
    assert sign == "" ==> sign + digits == digits;
    assert sign != "" ==> (sign + digits)[0] == sign[0] && (sign + digits)[1..] == digits;
    assert SkipBlanks(sign + digits) == sign + digits;
  }

  /** So the ".000000" tail of a coordinate does no harm. */
  lemma StoiOfFloatText(n: int)
    requires Int32(n)
    ensures Stoi(FloatText(n)) == Value(n)
  {
    StoiOfIntText(n, ".000000");
  }

  // ----- the fields of a unit message -----

  const AMP := '&'

  /** Position of the first '&', or the length when there is none. */
  function FindAmp(s: string): (i: nat)
    ensures i <= |s|
    ensures forall j :: 0 <= j < i ==> s[j] != AMP
    ensures i < |s| ==> s[i] == AMP
  {
    if s == "" || s[0] == AMP then 0 else 1 + FindAmp(s[1..])
  }

  /** The '&'-terminated fields; text after the last '&' is dropped. */
  function Fields(s: string): seq<string>
    decreases |s|
  {
    var i := FindAmp(s);
    if i == |s| then [] else [s[..i]] + Fields(s[i + 1..])
  }

  datatype Deciphered = Unit(msg: UnitMsg) | Invalid

  function MsgOf(fields: seq<string>): Deciphered
    requires |fields| >= 5
  {
    var x, y, squad, hp := Stoi(fields[1]), Stoi(fields[2]), Stoi(fields[3]), Stoi(fields[4]);
    if x.Value? && y.Value? && squad.Value? && hp.Value? then Unit(UnitMsg(fields[0], x.n, y.n, squad.n, hp.n)) else Invalid
  }

  /** Splitting off one more field. */
  lemma FieldsStep(s: string, i: nat, results: seq<string>)
    requires i == FindAmp(s) < |s|
    ensures results + Fields(s) == results + [s[..i]] + Fields(s[i + 1..])
  {
    var field, rest := s[..i], Fields(s[i + 1..]);
    assert Fields(s) == [field] + rest;
    ConcatAssociates(results, [field], rest);
  }

  /** Splits the message and converts its fields; a conversion that throws is `Invalid`. */
  method UnitDataDecipher(text: string) returns (r: Deciphered)
    requires |Fields(text)| >= 5
    ensures r == MsgOf(Fields(text))
  {
    var s := text;
    var results: seq<string> := [];
    var pos := FindAmp(s);
    while pos != |s|
      invariant pos == FindAmp(s)
      invariant results + Fields(s) == Fields(text)
      decreases |s|
    {
      FieldsStep(s, pos, results);
      results := results + [s[..pos]];
      s := s[pos + 1..];
      pos := FindAmp(s);
    }
    assert results + [] == results;
    r := ConvertFields(results);
  }

  /** Pops and converts the fields one by one. */
  method ConvertFields(fields: seq<string>) returns (r: Deciphered)
    requires |fields| >= 5
    ensures r == MsgOf(fields)
  {
    var results := fields;
    var name := results[0];
    results := results[1..];
    var x := Stoi(results[0]);
    if !x.Value? { return Invalid; }
    results := results[1..];
    var y := Stoi(results[0]);
    if !y.Value? { return Invalid; }
    results := results[1..];
    var squad := Stoi(results[0]);
    if !squad.Value? { return Invalid; }
    results := results[1..];
    var hp := Stoi(results[0]);
    if !hp.Value? { return Invalid; }
    r := Unit(UnitMsg(name, x.n, y.n, squad.n, hp.n));
  }

  /** The announcements that travel as unit messages have whole numbers where a unit has coordinates. */
  predicate Announces(name: string) { name == "endturn" || name == "endgame" }

  function CoordText(name: string, n: int): string { if Announces(name) then IntText(n) else FloatText(n) }

  /** The message text of one unit, or of an announcement, as the sender builds it. */
  function Payload(m: UnitMsg): string {
    m.name + "&" + CoordText(m.name, m.x) + "&" + CoordText(m.name, m.y) + "&" + IntText(m.squad) + "&" + IntText(m.hp) + "&"
  }

  lemma StoiOfCoord(name: string, n: int)
    requires Int32(n)
    ensures Stoi(CoordText(name, n)) == Value(n)
  {
    StoiOfFloatText(n);
    StoiOfIntText(n, "");
    assert IntText(n) + "" == IntText(n);
  }

  predicate AmpFree(s: string) { AMP !in s }

  /** The first '&' is at position i or earlier when there is one at i. */
  lemma {:induction false} FindAmpEnds(s: string, i: nat)
    requires i < |s| && s[i] == AMP
    ensures FindAmp(s) <= i
  {
    if s[0] != AMP {
      assert s[1..][i - 1] == AMP;
      FindAmpEnds(s[1..], i - 1);
    }
  }

  lemma FieldsCons(field: string, rest: string)
    requires AmpFree(field)
    ensures Fields(field + "&" + rest) == [field] + Fields(rest)
  {
    var s := field + "&" + rest;
    FindAmpEnds(s, |field|);
    var i := FindAmp(s);
    forall k | 0 <= k < |field| ensures s[k] != AMP {
      assert s[k] == field[k];
    }
    assert s[..i] == field && s[i + 1..] == rest;
  }

  lemma DigitsAmpFree(n: nat)
    ensures AmpFree(Digits(n))
  {
    DigitsAreDigits(n);
  }

  lemma NumbersAmpFree(n: int)
    ensures AmpFree(IntText(n)) && AmpFree(FloatText(n)) && forall name :: AmpFree(CoordText(name, n))
  {
    if n < 0 {
      DigitsAmpFree(-n);
    } else {
      DigitsAmpFree(n);
    }
  }

  function Tail2(m: UnitMsg): string { IntText(m.squad) + "&" + (IntText(m.hp) + "&" + "") }

  function Tail(m: UnitMsg): string { CoordText(m.name, m.x) + "&" + (CoordText(m.name, m.y) + "&" + Tail2(m)) }

  lemma PayloadShape(m: UnitMsg)
    ensures Payload(m) == m.name + "&" + Tail(m)
  {
    Reassociate(m.name, CoordText(m.name, m.x), CoordText(m.name, m.y), IntText(m.squad), IntText(m.hp));
  }

  lemma Reassociate(n: string, a: string, b: string, c: string, d: string)
    ensures n + "&" + a + "&" + b + "&" + c + "&" + d + "&" == n + "&" + (a + "&" + (b + "&" + (c + "&" + (d + "&" + ""))))
  {
  }

  lemma Tail2Fields(m: UnitMsg)
    ensures Fields(Tail2(m)) == [IntText(m.squad), IntText(m.hp)]
  {
    NumbersAmpFree(m.squad);
    NumbersAmpFree(m.hp);
    FieldsCons(IntText(m.hp), "");
    FieldsCons(IntText(m.squad), IntText(m.hp) + "&" + "");
  }

  lemma TailFields(m: UnitMsg)
    ensures Fields(Tail(m)) == [CoordText(m.name, m.x), CoordText(m.name, m.y), IntText(m.squad), IntText(m.hp)]
  {
    NumbersAmpFree(m.x);
    NumbersAmpFree(m.y);
    Tail2Fields(m);
    FieldsCons(CoordText(m.name, m.y), Tail2(m));
    FieldsCons(CoordText(m.name, m.x), CoordText(m.name, m.y) + "&" + Tail2(m));
  }

  lemma {:induction false} FieldsAtLeast(s: string, rest: string)
    ensures |Fields(s + "&" + rest)| >= 1 + |Fields(rest)|
    decreases |s|
  {
    var t := s + "&" + rest;
    if AmpFree(s) {
      FieldsCons(s, rest);
    } else {
      var i :| 0 <= i < |s| && s[i] == AMP;
      FindAmpEnds(t, i);
      var j := FindAmp(t);
      assert t[j + 1..] == s[j + 1..] + "&" + rest;
      FieldsAtLeast(s[j + 1..], rest);
    }
  }

  /**
   The wire round trip of a unit: for 32-bit values, deciphering the payload
   gives back the very same unit exactly when its name contains no '&'.
   */
  lemma UnitRoundTrip(m: UnitMsg)
    requires Int32(m.x) && Int32(m.y) && Int32(m.squad) && Int32(m.hp)
    ensures |Fields(Payload(m))| >= 5
    ensures MsgOf(Fields(Payload(m))) == Unit(m) <==> AmpFree(m.name)
  {
    PayloadShape(m);
    TailFields(m);
    FieldsAtLeast(m.name, Tail(m));
    if AmpFree(m.name) {
      FieldsCons(m.name, Tail(m));
      StoiOfCoord(m.name, m.x);
      StoiOfCoord(m.name, m.y);
      StoiOfIntText(m.squad, "");
      StoiOfIntText(m.hp, "");
      assert IntText(m.squad) + "" == IntText(m.squad);
      assert IntText(m.hp) + "" == IntText(m.hp);
    } else {
      var s := Payload(m);
      var i := FindAmp(s);
      assert Fields(s)[0] == s[..i];
      assert AmpFree(s[..i]);
    }
  }
}
