/** NDJSON framing: one JSON object per line, written and read back as a stream. */
module Ndjson {
  import opened Prelude
  import opened JsonValues
  import opened JsonText
  import opened Sequences

  const BOM := '\U{FEFF}'

  /** str.isspace for one character, which is what str.strip removes. */
  predicate IsSpace(c: char) {
    || '\t' <= c <= '\r' || '\U{001C}' <= c <= ' ' || c == '\U{0085}' || c == '\U{00A0}' || c == '\U{1680}'
    || '\U{2000}' <= c <= '\U{200A}' || c == '\U{2028}' || c == '\U{2029}' || c == '\U{202F}'
    || c == '\U{205F}' || c == '\U{3000}'
  }

  /** In ASCII: tab to carriage return, the four separators, and the space. */
  lemma AsciiBlanks(c: char)
    requires c < '\U{0080}'
    ensures IsSpace(c) <==> 9 <= c as int <= 13 || 28 <= c as int <= 32
  {
  }

  function LStrip(s: string): string {
    if s != "" && IsSpace(s[0]) then LStrip(s[1..]) else s
  }

  function RStrip(s: string): string {
    if s != "" && IsSpace(s[|s| - 1]) then RStrip(s[..|s| - 1]) else s
  }

  function Strip(s: string): string { RStrip(LStrip(s)) }

  function StripBom(s: string): string {
    if s != "" && s[0] == BOM then StripBom(s[1..]) else s
  }

  function Encode(message: Json): string { Dumps(message, COMPACT) }

  /** jsonrpc.decode: the object on the line, or why there is none. */
  function Decode(line: string): Result<Json, string> {
    var text := Strip(StripBom(Strip(line)));
    if text == "" then Err("empty line")
    else
      match Loads(text)
      case None => Err("invalid JSON")
      case Some(j) => if j.Obj? then Ok(j) else Err("a JSON-RPC message must be a JSON object")
  }

  predicate IsEol(c: char) { c == '\n' || c == '\r' }

  /** The length of the first line, its terminator left out. */
  function LineLength(s: string): (n: nat)
    ensures n <= |s| && (n < |s| ==> IsEol(s[n]))
  {
    if s == "" || IsEol(s[0]) then 0 else 1 + LineLength(s[1..])
  }

  /** What follows a line end: CR LF is one terminator. */
  function AfterEol(s: string): (r: string)
    requires s != ""
    ensures |r| < |s|
  {
    if s[0] == '\r' && |s| > 1 && s[1] == '\n' then s[2..] else s[1..]
  }

  /** The reader loop: blank lines are skipped, every other line is decoded. */
  function ReadStream(s: string): seq<Result<Json, string>>
    decreases |s|
  {
    if s == "" then []
    else
      var n := LineLength(s);
      var here := if Strip(s[..n]) == "" then [] else [Decode(s[..n])];
      here + if n == |s| then [] else ReadStream(AfterEol(s[n..]))
  }

  /** What the writers put on the wire. */
  function WriteStream(messages: seq<Json>, eol: string): string {
    if messages == [] then ""
    else Encode(messages[0]) + (eol + WriteStream(messages[1..], eol))
  }

  // ----- no raw line end inside an encoded message --------------------------

  predicate OneLine(s: string) { forall i :: 0 <= i < |s| ==> !IsEol(s[i]) }

  lemma {:induction false} CharsOnOneLine(s: string, tail: string)
    requires OneLine(tail)
    ensures OneLine(EmitChars(s, tail))
  {
    if s != "" {
      CharsOnOneLine(s[1..], tail);
    }
  }

  lemma IntOnOneLine(n: int)
    ensures OneLine(IntText(n))
  {
    hide Digits;
  }

  lemma DecimalOnOneLine(m: int, k: nat)
    ensures OneLine(DecimalText(m, k))
  {
    hide Pieces;
  }

  lemma {:induction false} EmitOnOneLine(j: Json, level: nat, tail: string)
    requires WellFormed(j) && OneLine(tail)
    ensures OneLine(Emit(j, COMPACT, level, tail))
    decreases j, 1, 0
  {
    assert j.Arr? ==> forall i :: 0 <= i < |j.items| ==> WellFormed(j.items[i]);
    assert j.Obj? ==> j.keys == [] || 0 < |j.keys|;
    hide WellFormed, EmitItems, EmitMembers, IntText, DecimalText;
    match j
    case Int(n) => IntOnOneLine(n);
    case Decimal(m, k) => DecimalOnOneLine(m, k);
    case Arr(items) =>
      if items != [] {
        var close := NewLine(COMPACT, level) + "]" + tail;
        ItemsOnOneLine(items, level + 1, close);
      }
    case Obj(keys, _) =>
      if keys != [] {
        var close := NewLine(COMPACT, level) + "}" + tail;
        MembersOnOneLine(j, 0, level + 1, close);
      }
    case Str(s) => CharsOnOneLine(s, tail);
    case _ =>
  }

  lemma {:induction false} ItemsOnOneLine(items: seq<Json>, level: nat, tail: string)
    requires items != [] && (forall i :: 0 <= i < |items| ==> WellFormed(items[i])) && OneLine(tail)
    ensures OneLine(EmitItems(items, COMPACT, level, tail))
    decreases items, 0, 0
  {
    hide WellFormed, Emit;
    if |items| == 1 {
      EmitOnOneLine(items[0], level, tail);
    } else {
      ItemsOnOneLine(items[1..], level, tail);
      EmitOnOneLine(items[0], level, "," + (COMPACT.commaGap + NewLine(COMPACT, level) + EmitItems(items[1..], COMPACT, level, tail)));
    }
  }

  lemma {:induction false} MembersOnOneLine(o: Json, i: nat, level: nat, tail: string)
    requires WellFormed(o) && o.Obj? && i < |o.keys| && OneLine(tail)
    ensures OneLine(EmitMembers(o, i, COMPACT, level, tail))
    decreases o, 0, |o.keys| - i
  {
    var value := o.vals[o.keys[i]];
    assert WellFormed(value);
    hide WellFormed, Emit, EmitChars;
    var next := tail;
    if i + 1 < |o.keys| {
      MembersOnOneLine(o, i + 1, level, tail);
      next := "," + (COMPACT.commaGap + NewLine(COMPACT, level) + EmitMembers(o, i + 1, COMPACT, level, tail));
    }
    EmitOnOneLine(value, level, next);
    CharsOnOneLine(o.keys[i], ":" + (COMPACT.colonGap + Emit(value, COMPACT, level, next)));
  }

  // ----- an encoded object is untouched by strip ----------------------------

  predicate EndsWith(s: string, t: string) { |t| <= |s| && s[|s| - |t|..] == t }

  lemma EndsWithTrans(s: string, t: string, u: string)
    requires EndsWith(s, t) && EndsWith(t, u)
    ensures EndsWith(s, u)
  {
    assert s[|s| - |u|..] == s[|s| - |t|..][|t| - |u|..];
  }

  lemma {:induction false} CharsEnd(s: string, tail: string)
    ensures EndsWith(EmitChars(s, tail), tail)
  {
    if s != "" {
      CharsEnd(s[1..], tail);
      EndsWithTrans(EmitChars(s, tail), EmitChars(s[1..], tail), tail);
    }
  }

  /** The last character written for an object is its closing brace. */
  lemma ObjectEnds(j: Json)
    requires WellFormed(j) && j.Obj?
    ensures var s := Encode(j); |s| >= 2 && s[0] == '{' && s[|s| - 1] == '}'
  {
    if j.keys != [] {
      var close := NewLine(COMPACT, 0) + "}" + "";
      MembersEnd(j, 0, 1, close);
    }
  }

  lemma {:induction false} EmitEnds(j: Json, level: nat, tail: string)
    requires WellFormed(j)
    ensures EndsWith(Emit(j, COMPACT, level, tail), tail)
    decreases j, 1, 0
  {
    match j
    case Arr(items) =>
      if items != [] {
        var close := NewLine(COMPACT, level) + "]" + tail;
        assert close[|close| - |tail|..] == tail;
        ItemsEnd(items, level + 1, close);
        EndsWithTrans(Emit(j, COMPACT, level, tail), EmitItems(items, COMPACT, level + 1, close), close);
        EndsWithTrans(Emit(j, COMPACT, level, tail), close, tail);
      }
    case Obj(keys, _) =>
      if keys != [] {
        var close := NewLine(COMPACT, level) + "}" + tail;
        assert close[|close| - |tail|..] == tail;
        MembersEnd(j, 0, level + 1, close);
        EndsWithTrans(Emit(j, COMPACT, level, tail), EmitMembers(j, 0, COMPACT, level + 1, close), close);
        EndsWithTrans(Emit(j, COMPACT, level, tail), close, tail);
      }
    case Str(s) =>
      CharsEnd(s, tail);
      EndsWithTrans(Emit(j, COMPACT, level, tail), EmitChars(s, tail), tail);
    case _ =>
  }

  lemma {:induction false} ItemsEnd(items: seq<Json>, level: nat, tail: string)
    requires items != [] && forall i :: 0 <= i < |items| ==> WellFormed(items[i])
    ensures EndsWith(EmitItems(items, COMPACT, level, tail), tail)
    decreases items, 0, 0
  {
    hide WellFormed, Emit, EndsWith;
    if |items| == 1 {
      EmitEnds(items[0], level, tail);
    } else {
      var more := EmitItems(items[1..], COMPACT, level, tail);
      var next := "," + (COMPACT.commaGap + NewLine(COMPACT, level) + more);
      ItemsEnd(items[1..], level, tail);
      EmitEnds(items[0], level, next);
      AfterGap(',', COMPACT.commaGap + NewLine(COMPACT, level), more);
      EndsWithTrans(EmitItems(items, COMPACT, level, tail), next, more);
      EndsWithTrans(EmitItems(items, COMPACT, level, tail), more, tail);
    }
  }

  lemma AfterGap(c: char, gap: string, t: string)
    ensures EndsWith([c] + (gap + t), t)
  {
  }

  /** A member's own text: what follows its value ends it. */
  lemma {:induction false} MemberEnds(key: string, value: Json, level: nat, next: string)
    requires WellFormed(value)
    ensures EndsWith("\"" + EmitChars(key, ":" + (COMPACT.colonGap + Emit(value, COMPACT, level, next))), next)
    decreases value, 2, 0
  {
    hide WellFormed, Emit, EmitChars, EndsWith;
    var text := Emit(value, COMPACT, level, next);
    var rest := ":" + (COMPACT.colonGap + text);
    var chars := EmitChars(key, rest);
    EmitEnds(value, level, next);
    AfterGap(':', COMPACT.colonGap, text);
    CharsEnd(key, rest);
    AfterGap('"', "", chars);
    assert "" + chars == chars;
    EndsWithTrans("\"" + chars, chars, rest);
    EndsWithTrans("\"" + chars, rest, text);
    EndsWithTrans("\"" + chars, text, next);
  }

  lemma {:induction false} MembersEnd(o: Json, i: nat, level: nat, tail: string)
    requires WellFormed(o) && o.Obj? && i < |o.keys|
    ensures EndsWith(EmitMembers(o, i, COMPACT, level, tail), tail)
    decreases o, 0, |o.keys| - i
  {
    var value := o.vals[o.keys[i]];
    assert WellFormed(value);
    hide WellFormed, Emit, EmitChars, EndsWith, NewLine;
    if i + 1 == |o.keys| {
      MemberEnds(o.keys[i], value, level, tail);
    } else {
      var more := EmitMembers(o, i + 1, COMPACT, level, tail);
      var next := "," + (COMPACT.commaGap + NewLine(COMPACT, level) + more);
      MemberEnds(o.keys[i], value, level, next);
      MembersEnd(o, i + 1, level, tail);
      AfterGap(',', COMPACT.commaGap + NewLine(COMPACT, level), more);
      EndsWithTrans(EmitMembers(o, i, COMPACT, level, tail), next, more);
      EndsWithTrans(EmitMembers(o, i, COMPACT, level, tail), more, tail);
    }
  }

  // ----- the round trips ----------------------------------------------------

  /** decode(encode(m)) == m, also behind any number of byte order marks. */
  lemma {:induction false} DecodeInvertsEncode(message: Json, boms: nat)
    requires WellFormed(message) && message.Obj?
    ensures Decode(seq(boms, _ => BOM) + Encode(message)) == Ok(message)
  {
    var s := Encode(message);
    var line := seq(boms, _ => BOM) + s;
    ObjectEnds(message);
    assert line[|line| - 1] == '}' && (boms > 0 ==> line[0] == BOM) && (boms == 0 ==> line == s);
    assert Strip(line) == line;
    StripBoms(boms, s);
    assert Strip(s) == s;
    LoadsInvertsDumps(message, COMPACT);
  }

  lemma {:induction false} StripBoms(boms: nat, s: string)
    requires s == "" || s[0] != BOM
    ensures StripBom(seq(boms, _ => BOM) + s) == s
  {
    if boms > 0 {
      assert (seq(boms, _ => BOM) + s)[1..] == seq(boms - 1, _ => BOM) + s;
      StripBoms(boms - 1, s);
    } else {
      assert seq(boms, _ => BOM) + s == s;
    }
  }

  lemma {:induction false} LineLengthOf(line: string, rest: string)
    requires OneLine(line) && (rest == "" || IsEol(rest[0]))
    ensures LineLength(line + rest) == |line|
  {
    if line == "" {
      assert line + rest == rest;
    } else {
      assert (line + rest)[1..] == line[1..] + rest;
      LineLengthOf(line[1..], rest);
    }
  }

  /** One encoded message at the front of a stream is read back first. */
  lemma ReadFirst(message: Json, eol: string, more: string)
    requires WellFormed(message) && message.Obj? && (eol == "\n" || eol == "\r\n")
    ensures ReadStream(Encode(message) + (eol + more)) == [Ok(message)] + ReadStream(more)
  {
    var line := Encode(message);
    LineOf(message);
    hide Encode, Decode, Strip, WellFormed, OneLine;
    FirstLine(line, eol, more);
  }

  /** An encoded object is one line, and not a blank one. */
  lemma LineOf(message: Json)
    requires WellFormed(message) && message.Obj?
    ensures OneLine(Encode(message)) && Decode(Encode(message)) == Ok(message) && Strip(Encode(message)) != ""
  {
    var line := Encode(message);
    EmitOnOneLine(message, 0, "");
    ObjectEnds(message);
    DecodeInvertsEncode(message, 0);
    assert seq(0, _ => BOM) + line == line;
    NotBlank(line);
    hide Encode, Decode, Strip, WellFormed;
  }

  lemma NotBlank(line: string)
    requires |line| >= 2 && line[0] == '{' && line[|line| - 1] == '}'
    ensures Strip(line) == line
  {
  }

  lemma FirstLine(line: string, eol: string, more: string)
    requires OneLine(line) && Strip(line) != "" && (eol == "\n" || eol == "\r\n")
    ensures ReadStream(line + (eol + more)) == [Decode(line)] + ReadStream(more)
  {
    var s := line + (eol + more);
    hide Decode, Strip;
    LineLengthOf(line, eol + more);
    assert s[..|line|] == line && s[|line|..] == eol + more;
    assert AfterEol(eol + more) == more;
  }

  /** Every sequence of messages survives the stream, with LF or CR LF line ends. */
  lemma {:induction false} StreamRoundTrip(messages: seq<Json>, eol: string)
    requires forall i :: 0 <= i < |messages| ==> WellFormed(messages[i]) && messages[i].Obj?
    requires eol == "\n" || eol == "\r\n"
    ensures var read := ReadStream(WriteStream(messages, eol));
            |read| == |messages| && forall i :: 0 <= i < |messages| ==> read[i] == Ok(messages[i])
  {
    if messages != [] {
      hide Encode, ReadStream, WellFormed;
      ReadFirst(messages[0], eol, WriteStream(messages[1..], eol));
      StreamRoundTrip(messages[1..], eol);
    }
  }

  // ----- any line -------------------------------------------------------------------------

  lemma {:induction false} LStripDrops(s: string) returns (i: nat)
    ensures i <= |s| && LStrip(s) == s[i..] && (forall k :: 0 <= k < i ==> IsSpace(s[k])) && (i < |s| ==> !IsSpace(s[i]))
  {
    hide IsSpace;
    if s != "" && IsSpace(s[0]) {
      var j := LStripDrops(s[1..]);
      i := j + 1;
      assert s[1..][j..] == s[i..];
      forall k | 0 <= k < i ensures IsSpace(s[k]) { if k > 0 { assert s[1..][k - 1] == s[k]; } }
    } else {
      i := 0;
    }
  }

  lemma {:induction false} RStripDrops(s: string) returns (j: nat)
    ensures j <= |s| && RStrip(s) == s[..j] && (forall k :: j <= k < |s| ==> IsSpace(s[k])) && (j > 0 ==> !IsSpace(s[j - 1]))
  {
    hide IsSpace;
    if s != "" && IsSpace(s[|s| - 1]) {
      j := RStripDrops(s[..|s| - 1]);
      assert s[..|s| - 1][..j] == s[..j];
    } else {
      j := |s|;
    }
  }

  lemma StripStrips(s: string)
    ensures Strips(Strip(s), s, IsSpace)
  {
    hide IsSpace, LStrip, RStrip;
    var i := LStripDrops(s);
    var j := RStripDrops(s[i..]);
    assert Strip(s) == s[i..][..j] == s[i..i + j];
    forall k | i + j <= k < |s| ensures IsSpace(s[k]) { assert s[k] == s[i..][k - i]; }
    if j > 0 { assert Strip(s)[0] == s[i] && Strip(s)[j - 1] == s[i..][j - 1]; }
    assert StripsAt(Strip(s), s, IsSpace, i, i + j);
  }

  /** A line decodes exactly when its text, without the blanks around it and the byte order
      marks in front, is JSON text of an object; and then to that object. */
  lemma DecodeReads(line: string, marked: string, marks: nat, bare: string, text: string)
    requires Strips(marked, line, IsSpace) && marked == seq(marks, _ => BOM) + bare && (bare == "" || bare[0] != BOM)
    requires Strips(text, bare, IsSpace)
    ensures Decode(line).Ok? <==> Loads(text).Some? && Loads(text).value.Obj?
    ensures Decode(line).Ok? ==> Decode(line).value == Loads(text).value
  {
    StripStrips(line);
    StripsIsUnique(marked, Strip(line), line, IsSpace);
    StripBoms(marks, bare);
    StripStrips(bare);
    StripsIsUnique(text, Strip(bare), bare, IsSpace);
    assert Loads("").None?;
    hide Strips, Strip, StripBom, Loads;
  }
}
