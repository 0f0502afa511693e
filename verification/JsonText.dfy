/** json.dumps and json.loads on text, and the theorem that loads inverts dumps. */
module JsonText {
  import opened Prelude
  import opened JsonValues

  // ----- decimal digits ---------------------------------------------------

  predicate IsDigit(c: char) { '0' <= c <= '9' }

  function DigitChar(d: nat): (c: char)
    requires d < 10
    ensures IsDigit(c) && DigitOf(c) == d
  {
    ('0' as int + d) as char
  }

  function DigitOf(c: char): nat
    requires IsDigit(c)
  {
    c as int - '0' as int
  }

  predicate AllDigits(s: string) { forall i :: 0 <= i < |s| ==> IsDigit(s[i]) }

  function Value(s: string): nat
    requires AllDigits(s)
  {
    if s == "" then 0 else Value(s[..|s| - 1]) * 10 + DigitOf(s[|s| - 1])
  }

  function Digits(n: nat): (s: string)
    ensures |s| > 0 && AllDigits(s) && Value(s) == n
    ensures n > 0 ==> s[0] != '0'
  {
    if n < 10 then [DigitChar(n)]
    else
      var front := Digits(n / 10);
      var s := front + [DigitChar(n % 10)];
      assert s[..|s| - 1] == front;
      s
  }

  /** Exactly k digits, zero padded. */
  function PadDigits(n: nat, k: nat): (s: string)
    requires n < Pow10(k)
    ensures |s| == k && AllDigits(s) && Value(s) == n
  {
    if k == 0 then ""
    else
      var front := PadDigits(n / 10, k - 1);
      var s := front + [DigitChar(n % 10)];
      assert s[..|s| - 1] == front;
      s
  }

  function TakeDigits(s: string): (d: string)
    ensures |d| <= |s| && s[..|d|] == d && AllDigits(d)
  {
    if s == "" || !IsDigit(s[0]) then "" else [s[0]] + TakeDigits(s[1..])
  }

  lemma {:induction false} TakeDigitsStops(d: string, t: string)
    requires AllDigits(d) && (t == "" || !IsDigit(t[0]))
    ensures TakeDigits(d + t) == d
  {
    if d == "" {
      assert d + t == t;
    } else {
      assert (d + t)[1..] == d[1..] + t;
      TakeDigitsStops(d[1..], t);
    }
  }

  /** n * 10^k */
  function Shift(n: int, k: nat): int {
    if k == 0 then n else 10 * Shift(n, k - 1)
  }

  // ----- dumps ------------------------------------------------------------

  /** The layouts in use: what follows each comma and colon, and an indent. */
  datatype Style = Style(commaGap: string, colonGap: string, indent: Option<nat>)

  const COMPACT := Style("", "", None)
  const SPACED := Style(" ", " ", None)
  const INDENTED := Style("", " ", Some(2))

  predicate IsGap(c: char) { c == ' ' || c == '\t' || c == '\n' || c == '\r' }

  predicate Blank(s: string) { forall i :: 0 <= i < |s| ==> IsGap(s[i]) }

  predicate StyleOk(st: Style) { Blank(st.commaGap) && Blank(st.colonGap) }

  function NewLine(st: Style, level: nat): (s: string)
    ensures Blank(s)
  {
    if st.indent.None? then "" else "\n" + seq(st.indent.value * level, _ => ' ')
  }

  function Hex(d: nat): char
    requires d < 16
  {
    if d < 10 then DigitChar(d) else ('a' as int + d - 10) as char
  }

  function Escape(c: char): (s: string)
    ensures |s| > 0
  {
    if c == '"' then "\\\""
    else if c == '\\' then "\\\\"
    else if c == '\n' then "\\n"
    else if c == '\r' then "\\r"
    else if c == '\t' then "\\t"
    else if c == '\U{0008}' then "\\b"
    else if c == '\U{000C}' then "\\f"
    else if c < ' ' then "\\u00" + [Hex(c as int / 16), Hex(c as int % 16)]
    else [c]
  }

  /** The characters of a string literal after its opening quote, then `tail`. */
  function EmitChars(s: string, tail: string): string {
    if s == "" then "\"" + tail else Escape(s[0]) + EmitChars(s[1..], tail)
  }

  function IntText(n: int): string {
    if n < 0 then "-" + Digits(-n) else Digits(n)
  }

  /** The digits of a / 10^k before and after the point. */
  function Pieces(a: nat, k: nat): (r: (string, string))
    ensures |r.0| > 0 && AllDigits(r.0) && (r.0[0] == '0' ==> r.0 == "0")
    ensures |r.1| == k && AllDigits(r.1)
    ensures Shift(Value(r.0), k) + Value(r.1) == a
  {
    if k == 0 then (Digits(a), "")
    else
      var (whole, part) := Pieces(a / 10, k - 1);
      var longer := part + [DigitChar(a % 10)];
      assert longer[..|longer| - 1] == part;
      (whole, longer)
  }

  function DecimalText(m: int, k: nat): string {
    var (whole, part) := Pieces(if m < 0 then -m else m, k);
    (if m < 0 then "-" else "") + (whole + ("." + part))
  }

  /** The text of j in the given style, followed by `tail`. */
  function Emit(j: Json, st: Style, level: nat, tail: string): string
    decreases j, 1, 0
  {
    match j
    case Null => "null" + tail
    case Bool(b) => (if b then "true" else "false") + tail
    case Int(n) => IntText(n) + tail
    case Decimal(m, k) => DecimalText(m, k) + tail
    case Str(s) => "\"" + EmitChars(s, tail)
    case Arr(items) =>
      if items == [] then "[]" + tail
      else "[" + NewLine(st, level + 1) + EmitItems(items, st, level + 1, NewLine(st, level) + "]" + tail)
    case Obj(keys, _) =>
      if keys == [] then "{}" + tail
      else "{" + NewLine(st, level + 1) + EmitMembers(j, 0, st, level + 1, NewLine(st, level) + "}" + tail)
  }

  function EmitItems(items: seq<Json>, st: Style, level: nat, tail: string): string
    requires items != []
    decreases items, 0, 0
  {
    Emit(items[0], st, level,
         if |items| == 1 then tail
         else "," + (st.commaGap + NewLine(st, level) + EmitItems(items[1..], st, level, tail)))
  }

  function EmitMembers(o: Json, i: nat, st: Style, level: nat, tail: string): string
    requires o.Obj? && i < |o.keys|
    decreases o, 0, |o.keys| - i
  {
    var next :=
      if i + 1 == |o.keys| then tail
      else "," + (st.commaGap + NewLine(st, level) + EmitMembers(o, i + 1, st, level, tail));
    if o.keys[i] !in o.vals then next
    else "\"" + EmitChars(o.keys[i], ":" + (st.colonGap + Emit(o.vals[o.keys[i]], st, level, next)))
  }

  function Dumps(j: Json, st: Style): string { Emit(j, st, 0, "") }

  // ----- loads ------------------------------------------------------------

  datatype Parsed<+T> = Got(value: T, rest: string) | Fail

  function SkipBlank(s: string): (r: string)
    ensures |r| <= |s|
    ensures r == "" || !IsGap(r[0])
  {
    if s == "" || !IsGap(s[0]) then s else SkipBlank(s[1..])
  }

  function HexOf(c: char): Option<nat> {
    if IsDigit(c) then Some(DigitOf(c))
    else if 'a' <= c <= 'f' then Some(c as int - 'a' as int + 10)
    else if 'A' <= c <= 'F' then Some(c as int - 'A' as int + 10)
    else None
  }

  function Hex4(s: string): (r: Option<nat>)
    ensures r.Some? ==> r.value < 0x10000
  {
    if |s| < 4 || HexOf(s[0]).None? || HexOf(s[1]).None? || HexOf(s[2]).None? || HexOf(s[3]).None? then None
    else Some(HexOf(s[0]).value * 4096 + HexOf(s[1]).value * 256 + HexOf(s[2]).value * 16 + HexOf(s[3]).value)
  }

  function SimpleEscape(c: char): Option<char> {
    if c == '"' || c == '\\' || c == '/' then Some(c)
    else if c == 'n' then Some('\n')
    else if c == 'r' then Some('\r')
    else if c == 't' then Some('\t')
    else if c == 'b' then Some('\U{0008}')
    else if c == 'f' then Some('\U{000C}')
    else None
  }

  /** One escape sequence after its backslash: the character and what follows.
      A surrogate pair is one character; a lone surrogate has no char here. */
  function Unescape(s: string): (r: Parsed<char>)
    ensures r.Got? ==> |r.rest| < |s|
  {
    if s == "" then Fail
    else if SimpleEscape(s[0]).Some? then Got(SimpleEscape(s[0]).value, s[1..])
    else if s[0] != 'u' || Hex4(s[1..]).None? then Fail
    else
      var u := Hex4(s[1..]).value;
      if !(0xD800 <= u < 0xE000) then Got(u as char, s[5..])
      else if u < 0xDC00 && |s| >= 11 && s[5] == '\\' && s[6] == 'u' && Hex4(s[7..]).Some?
              && 0xDC00 <= Hex4(s[7..]).value < 0xE000 then
        Got((0x10000 + (u - 0xD800) * 0x400 + (Hex4(s[7..]).value - 0xDC00)) as char, s[11..])
      else Fail
  }

  function Prepend(c: char, p: Parsed<string>): Parsed<string> {
    match p
    case Got(t, rest) => Got([c] + t, rest)
    case Fail => Fail
  }

  /** A string literal after its opening quote. Raw control characters are refused. */
  function ParseChars(s: string): (r: Parsed<string>)
    ensures r.Got? ==> |r.rest| < |s|
    decreases |s|
  {
    if s == "" then Fail
    else if s[0] == '"' then Got("", s[1..])
    else if s[0] == '\\' then
      match Unescape(s[1..])
      case Fail => Fail
      case Got(c, rest) => Prepend(c, ParseChars(rest))
    else if s[0] < ' ' then Fail
    else Prepend(s[0], ParseChars(s[1..]))
  }

  /** digits * 10^-scale * 10^exponent as a float. */
  function Scientific(digits: int, scale: nat, exponent: int): (j: Json)
    ensures WellFormed(j)
  {
    if exponent < scale then Decimal(digits, scale - exponent)
    else Decimal(Shift(digits, exponent - scale + 1), 1)
  }

  /** The optional exponent part: None when absent. */
  function ParseExponent(s: string): (r: (Option<int>, string))
    ensures |r.1| <= |s|
  {
    if s == "" || (s[0] != 'e' && s[0] != 'E') then (None, s)
    else
      var signed := |s| > 1 && (s[1] == '-' || s[1] == '+');
      var t := if signed then s[2..] else s[1..];
      var d := TakeDigits(t);
      if d == "" then (None, s)
      else (Some(if signed && s[1] == '-' then 0 - Value(d) else Value(d)), t[|d|..])
  }

  /** An int when there is neither fraction nor exponent, otherwise a float. */
  function NumberOf(negative: bool, whole: string, frac: string, exponent: Option<int>): (j: Json)
    requires AllDigits(whole) && AllDigits(frac)
    ensures WellFormed(j)
  {
    var magnitude := Shift(Value(whole), |frac|) + Value(frac);
    var digits := if negative then -magnitude else magnitude;
    if frac == "" && exponent.None? then Int(digits)
    else Scientific(digits, |frac|, if exponent.None? then 0 else exponent.value)
  }

  function ParseUnsigned(t: string, negative: bool): (r: Parsed<Json>)
    ensures r.Got? ==> |r.rest| < |t| && WellFormed(r.value)
  {
    if t == "" || !IsDigit(t[0]) then Fail
    else
      var whole := if t[0] == '0' then "0" else TakeDigits(t);
      assert |whole| > 0;
      var u := t[|whole|..];
      var frac := if |u| > 1 && u[0] == '.' then TakeDigits(u[1..]) else "";
      var v := if frac == "" then u else u[1 + |frac|..];
      var (exponent, rest) := ParseExponent(v);
      Got(NumberOf(negative, whole, frac, exponent), rest)
  }

  function ParseNumber(s: string): (r: Parsed<Json>)
    ensures r.Got? ==> |r.rest| < |s| && WellFormed(r.value)
  {
    if s != "" && s[0] == '-' then ParseUnsigned(s[1..], true) else ParseUnsigned(s, false)
  }

  function ParseValue(s: string): (r: Parsed<Json>)
    ensures r.Got? ==> |r.rest| < |s| && WellFormed(r.value)
    decreases |s|, 0
  {
    if s == "" then Fail
    else if s[0] == '"' then
      match ParseChars(s[1..])
      case Fail => Fail
      case Got(t, rest) => Got(Str(t), rest)
    else if s[0] == '[' then
      var t := SkipBlank(s[1..]);
      if t != "" && t[0] == ']' then Got(Arr([]), t[1..])
      else
        match ParseItems(t)
        case Fail => Fail
        case Got(items, rest) => Got(Arr(items), rest)
    else if s[0] == '{' then
      var t := SkipBlank(s[1..]);
      if t != "" && t[0] == '}' then Got(EMPTY, t[1..]) else ParseMembers(t, EMPTY)
    else if "null" <= s then Got(Null, s[4..])
    else if "true" <= s then Got(Bool(true), s[4..])
    else if "false" <= s then Got(Bool(false), s[5..])
    else ParseNumber(s)
  }

  function ParseItems(s: string): (r: Parsed<seq<Json>>)
    ensures r.Got? ==> |r.rest| < |s| && forall i :: 0 <= i < |r.value| ==> WellFormed(r.value[i])
    decreases |s|, 1
  {
    match ParseValue(s)
    case Fail => Fail
    case Got(first, after) =>
      var t := SkipBlank(after);
      if t != "" && t[0] == ']' then Got([first], t[1..])
      else if t == "" || t[0] != ',' then Fail
      else
        match ParseItems(SkipBlank(t[1..]))
        case Fail => Fail
        case Got(items, rest) => Got([first] + items, rest)
  }

  /** The members from s on, stored into the dict read so far. */
  function ParseMembers(s: string, acc: Json): (r: Parsed<Json>)
    requires acc.Obj? && WellFormed(acc)
    ensures r.Got? ==> |r.rest| < |s| && WellFormed(r.value) && r.value.Obj?
    decreases |s|, 1
  {
    if s == "" || s[0] != '"' then Fail
    else
      match ParseChars(s[1..])
      case Fail => Fail
      case Got(key, afterKey) =>
        var t := SkipBlank(afterKey);
        if t == "" || t[0] != ':' then Fail
        else
          match ParseValue(SkipBlank(t[1..]))
          case Fail => Fail
          case Got(value, afterValue) =>
            var u := SkipBlank(afterValue);
            PutWellFormed(acc, key, value);
            if u != "" && u[0] == '}' then Got(Put(acc, key, value), u[1..])
            else if u == "" || u[0] != ',' then Fail
            else ParseMembers(SkipBlank(u[1..]), Put(acc, key, value))
  }

  function Loads(s: string): (r: Option<Json>)
    ensures r.Some? ==> WellFormed(r.value)
  {
    match ParseValue(SkipBlank(s))
    case Fail => None
    case Got(j, rest) => if SkipBlank(rest) == "" then Some(j) else None
  }

  // ----- loads inverts dumps ----------------------------------------------

  lemma {:induction false} SkipBlankOver(gap: string, t: string)
    requires Blank(gap) && (t == "" || !IsGap(t[0]))
    ensures SkipBlank(gap + t) == t
  {
    if gap == "" {
      assert gap + t == t;
    } else {
      assert (gap + t)[1..] == gap[1..] + t;
      SkipBlankOver(gap[1..], t);
    }
  }

  lemma ParseEscaped(c: char, t: string)
    ensures ParseChars(Escape(c) + t) == Prepend(c, ParseChars(t))
  {
    var s := Escape(c) + t;
    if |Escape(c)| == 2 {
      assert s[1..][1..] == t;
    } else if c < ' ' {
      var hi, lo := c as int / 16, c as int % 16;
      assert s[2..][..4] == ['0', '0', Hex(hi), Hex(lo)];
      assert s[1..][1..] == s[2..] && s[1..][5..] == t;
      assert HexOf(Hex(hi)) == Some(hi) && HexOf(Hex(lo)) == Some(lo);
      assert Hex4(s[2..]) == Some(c as int);
    } else {
      assert s[1..] == t;
    }
  }

  lemma {:induction false} ParseCharsOfEmit(s: string, tail: string)
    ensures ParseChars(EmitChars(s, tail)) == Got(s, tail)
  {
    if s == "" {
      assert ("\"" + tail)[1..] == tail;
    } else {
      ParseEscaped(s[0], EmitChars(s[1..], tail));
      ParseCharsOfEmit(s[1..], tail);
      assert [s[0]] + s[1..] == s;
    }
  }

  /** What may follow a value without being read as part of a number. */
  predicate Delimited(t: string) {
    t == "" || (!IsDigit(t[0]) && t[0] != '.' && t[0] != 'e' && t[0] != 'E')
  }

  lemma ParseUnsignedInt(n: nat, negative: bool, tail: string)
    requires Delimited(tail)
    ensures ParseUnsigned(Digits(n) + tail, negative) == Got(NumberOf(negative, Digits(n), "", None), tail)
  {
    hide NumberOf;
    var digits := Digits(n);
    TakeDigitsStops(digits, tail);
    assert n == 0 ==> digits == "0";
    assert (digits + tail)[|digits|..] == tail;
  }

  lemma ParseInt(n: int, tail: string)
    requires Delimited(tail)
    ensures ParseNumber(IntText(n) + tail) == Got(Int(n), tail)
  {
    hide ParseUnsigned, Digits;
    var digits := Digits(if n < 0 then -n else n);
    ParseUnsignedInt(if n < 0 then -n else n, n < 0, tail);
    if n < 0 {
      assert IntText(n) + tail == "-" + (digits + tail);
      assert (IntText(n) + tail)[1..] == digits + tail;
    }
  }

  lemma ParsePieces(negative: bool, whole: string, part: string, tail: string)
    requires |whole| > 0 && AllDigits(whole) && (whole[0] == '0' ==> whole == "0")
    requires |part| > 0 && AllDigits(part) && Delimited(tail)
    ensures ParseUnsigned(whole + ("." + (part + tail)), negative) == Got(NumberOf(negative, whole, part, None), tail)
  {
    hide NumberOf, TakeDigits;
    var u := "." + (part + tail);
    var t := whole + u;
    TakeDigitsStops(whole, u);
    TakeDigitsStops(part, tail);
    assert t[|whole|..] == u;
    assert u[1..] == part + tail;
    assert u[1 + |part|..] == tail;
  }

  lemma ParseDecimalText(m: int, k: nat, tail: string)
    requires k >= 1 && Delimited(tail)
    ensures ParseNumber(DecimalText(m, k) + tail) == Got(Decimal(m, k), tail)
  {
    hide ParseUnsigned, Pieces;
    var (whole, part) := Pieces(if m < 0 then -m else m, k);
    ParsePieces(m < 0, whole, part, tail);
    var s := DecimalText(m, k) + tail;
    var t := whole + ("." + (part + tail));
    if m < 0 {
      assert s == "-" + t && s[1..] == t;
    } else {
      assert s == t && t[0] == whole[0];
    }
  }

  /** No value's text starts with a gap, a closing bracket or a comma. */
  lemma EmitStarts(j: Json, st: Style, level: nat, tail: string)
    requires WellFormed(j)
    ensures var s := Emit(j, st, level, tail); s != "" && !IsGap(s[0]) && s[0] != ']' && s[0] != '}'
  {
  }

  lemma ParseNumberStart(s: string)
    requires s != "" && (IsDigit(s[0]) || s[0] == '-')
    ensures ParseValue(s) == ParseNumber(s)
  {
    hide ParseNumber, ParseItems, ParseMembers, ParseChars;
  }

  lemma ParseScalar(j: Json, st: Style, level: nat, tail: string)
    requires WellFormed(j) && Delimited(tail) && !j.Arr? && !j.Obj?
    ensures ParseValue(Emit(j, st, level, tail)) == Got(j, tail)
  {
    hide ParseNumber, ParseItems, ParseMembers, ParseChars, DecimalText, EmitChars;
    match j
    case Null => assert ("null" + tail)[4..] == tail;
    case Bool(b) =>
      assert ("true" + tail)[4..] == tail && ("false" + tail)[5..] == tail;
    case Int(n) =>
      ParseInt(n, tail);
      ParseNumberStart(IntText(n) + tail);
    case Decimal(m, k) =>
      ParseDecimalText(m, k, tail);
      DecimalTextStart(m, k);
      ParseNumberStart(DecimalText(m, k) + tail);
    case Str(t) =>
      ParseCharsOfEmit(t, tail);
      assert ("\"" + EmitChars(t, tail))[1..] == EmitChars(t, tail);
  }

  lemma DecimalTextStart(m: int, k: nat)
    ensures var s := DecimalText(m, k); s != "" && (IsDigit(s[0]) || s[0] == '-')
  {
    hide Pieces;
  }

  lemma {:induction false} ParseEmit(j: Json, st: Style, level: nat, tail: string)
    requires WellFormed(j) && StyleOk(st) && Delimited(tail)
    ensures ParseValue(Emit(j, st, level, tail)) == Got(j, tail)
    decreases j, 2, 0
  {
    if j.Arr? {
      ParseEmitArr(j, st, level, tail);
    } else if j.Obj? {
      ParseEmitObj(j, st, level, tail);
    } else {
      ParseScalar(j, st, level, tail);
    }
  }

  lemma {:induction false} ParseEmitArr(j: Json, st: Style, level: nat, tail: string)
    requires WellFormed(j) && StyleOk(st) && Delimited(tail) && j.Arr?
    ensures ParseValue(Emit(j, st, level, tail)) == Got(j, tail)
    decreases j, 1, 0
  {
    var s := Emit(j, st, level, tail);
    if j.items == [] {
      assert s[1..] == "]" + tail;
      assert s[1..][1..] == tail;
    } else {
      var close := NewLine(st, level) + "]" + tail;
      var body := EmitItems(j.items, st, level + 1, close);
      ItemsStart(j.items, st, level + 1, close);
      assert s[1..] == NewLine(st, level + 1) + body;
      SkipBlankOver(NewLine(st, level + 1), body);
      SkipClose(NewLine(st, level), ']', tail);
      ParseEmitItems(j.items, st, level + 1, close, tail);
    }
  }

  lemma {:induction false} ParseEmitObj(j: Json, st: Style, level: nat, tail: string)
    requires WellFormed(j) && StyleOk(st) && Delimited(tail) && j.Obj?
    ensures ParseValue(Emit(j, st, level, tail)) == Got(j, tail)
    decreases j, 1, 0
  {
    hide ParseMembers, EmitChars, NewLine;
    var s := Emit(j, st, level, tail);
    if j.keys == [] {
      assert j.vals == map[];
      assert s[1..] == "}" + tail;
      assert s[1..][1..] == tail;
    } else {
      var close := NewLine(st, level) + "}" + tail;
      var body := EmitMembers(j, 0, st, level + 1, close);
      assert body[0] == '"';
      hide EmitMembers;
      assert s[1..] == NewLine(st, level + 1) + body;
      hide WellFormed;
      SkipBlankOver(NewLine(st, level + 1), body);
      assert Before(j, 0) == EMPTY;
      SkipClose(NewLine(st, level), '}', tail);
      ParseEmitMembers(j, 0, st, level + 1, close, tail);
    }
  }

  lemma ItemsStart(items: seq<Json>, st: Style, level: nat, tail: string)
    requires items != [] && forall i :: 0 <= i < |items| ==> WellFormed(items[i])
    ensures var s := EmitItems(items, st, level, tail); s != "" && !IsGap(s[0]) && s[0] != ']'
  {
    EmitStarts(items[0], st, level,
               if |items| == 1 then tail
               else "," + (st.commaGap + NewLine(st, level) + EmitItems(items[1..], st, level, tail)));
  }

  /** Over a gap and the comma after a value, to the next element. */
  lemma SkipComma(st: Style, level: nat, more: string)
    requires StyleOk(st) && more != "" && !IsGap(more[0])
    ensures var next := "," + (st.commaGap + NewLine(st, level) + more);
            Delimited(next) && SkipBlank(next) == next && SkipBlank(next[1..]) == more
  {
    var next := "," + (st.commaGap + NewLine(st, level) + more);
    assert next[1..] == st.commaGap + NewLine(st, level) + more;
    SkipBlankOver(st.commaGap + NewLine(st, level), more);
  }

  /** Text that closes a container: gaps, its bracket, then `tail`. */
  predicate Closes(close: string, bracket: char, tail: string) {
    && Delimited(close)
    && var s := SkipBlank(close); s != "" && s[0] == bracket && s[1..] == tail
  }

  lemma SkipClose(gap: string, bracket: char, tail: string)
    requires Blank(gap) && (bracket == ']' || bracket == '}')
    ensures Closes(gap + [bracket] + tail, bracket, tail)
  {
    assert gap + [bracket] + tail == gap + ([bracket] + tail);
    SkipBlankOver(gap, [bracket] + tail);
  }

  lemma {:induction false} ParseEmitItems(items: seq<Json>, st: Style, level: nat, close: string, tail: string)
    requires items != [] && (forall i :: 0 <= i < |items| ==> WellFormed(items[i])) && StyleOk(st)
    requires Closes(close, ']', tail)
    ensures ParseItems(EmitItems(items, st, level, close)) == Got(items, tail)
    decreases items, 0, 0
  {
    hide WellFormed, Emit, ParseValue, SkipBlank, NewLine, Delimited, StyleOk;
    if |items| == 1 {
      ParseEmit(items[0], st, level, close);
      assert [items[0]] == items;
    } else {
      var more := EmitItems(items[1..], st, level, close);
      ItemsStart(items[1..], st, level, close);
      SkipComma(st, level, more);
      ParseEmit(items[0], st, level, "," + (st.commaGap + NewLine(st, level) + more));
      ParseEmitItems(items[1..], st, level, close, tail);
      assert items == [items[0]] + items[1..];
    }
  }

  /** Storing the first i keys one by one into an empty dict. */
  ghost function Stored<K, V>(keys: seq<K>, vals: map<K, V>, i: nat): (seq<K>, map<K, V>)
    requires i <= |keys| && forall k :: k in keys ==> k in vals
  {
    if i == 0 then ([], map[])
    else
      var (ks, m) := Stored(keys, vals, i - 1);
      var key := keys[i - 1];
      (if key in m then ks else ks + [key], m[key := vals[key]])
  }

  lemma {:induction false} StoredHolds<K, V>(keys: seq<K>, vals: map<K, V>, i: nat)
    requires i <= |keys| && forall k :: k in keys ==> k in vals
    requires forall i, j :: 0 <= i < j < |keys| ==> keys[i] != keys[j]
    ensures var (ks, m) := Stored(keys, vals, i);
            && ks == keys[..i] && (forall k :: k in m <==> k in keys[..i])
            && forall k :: k in m ==> m[k] == vals[k]
  {
    if i > 0 {
      StoredHolds(keys, vals, i - 1);
      assert keys[..i] == keys[..i - 1] + [keys[i - 1]];
    }
  }

  lemma SameMap<K, V>(m: map<K, V>, n: map<K, V>)
    requires (forall k :: k in m <==> k in n) && forall k :: k in m ==> m[k] == n[k]
    ensures m == n
  {
  }

  lemma StoredAll<K, V>(keys: seq<K>, vals: map<K, V>)
    requires forall k :: k in keys <==> k in vals
    requires forall i, j :: 0 <= i < j < |keys| ==> keys[i] != keys[j]
    ensures Stored(keys, vals, |keys|) == (keys, vals)
  {
    StoredHolds(keys, vals, |keys|);
    assert keys[..|keys|] == keys;
    var (ks, m) := Stored(keys, vals, |keys|);
    SameMap(m, vals);
  }

  /** The dict holding the first i members of o. */
  ghost function Before(o: Json, i: nat): (r: Json)
    requires WellFormed(o) && o.Obj? && i <= |o.keys|
  {
    var (keys, vals) := Stored(o.keys, o.vals, i); Obj(keys, vals)
  }

  lemma BeforeGrows(o: Json, i: nat)
    requires WellFormed(o) && o.Obj? && i < |o.keys|
    ensures Before(o, i + 1) == Put(Before(o, i), o.keys[i], o.vals[o.keys[i]])
  {
  }

  lemma {:induction false} BeforeIsWellFormed(o: Json, i: nat)
    requires WellFormed(o) && o.Obj? && i <= |o.keys|
    ensures WellFormed(Before(o, i))
  {
    if i > 0 {
      var key := o.keys[i - 1];
      assert WellFormed(o.vals[key]);
      hide WellFormed;
      BeforeIsWellFormed(o, i - 1);
      BeforeGrows(o, i - 1);
      PutWellFormed(Before(o, i - 1), key, o.vals[key]);
    } else {
      assert Before(o, 0) == EMPTY;
    }
  }

  lemma BeforeAll(o: Json)
    requires WellFormed(o) && o.Obj?
    ensures Before(o, |o.keys|) == o
  {
    StoredAll(o.keys, o.vals);
  }

  /** The part of a member before its value. */
  lemma ParseKey(key: string, st: Style, valueText: string)
    requires StyleOk(st) && valueText != "" && !IsGap(valueText[0])
    ensures var t := ":" + (st.colonGap + valueText);
            && ParseChars(EmitChars(key, t)) == Got(key, t)
            && SkipBlank(t) == t && SkipBlank(t[1..]) == valueText
  {
    var t := ":" + (st.colonGap + valueText);
    ParseCharsOfEmit(key, t);
    assert t[1..] == st.colonGap + valueText;
    SkipBlankOver(st.colonGap, valueText);
  }

  /** One member read: what ParseMembers does at the bracket or comma after it. */
  lemma ParseMembersStep(s: string, acc: Json, key: string, t: string, value: Json, u: string, v: string)
    requires WellFormed(acc) && acc.Obj? && WellFormed(Put(acc, key, value))
    requires s != "" && s[0] == '"' && ParseChars(s[1..]) == Got(key, t)
    requires SkipBlank(t) != "" && SkipBlank(t)[0] == ':' && ParseValue(SkipBlank(SkipBlank(t)[1..])) == Got(value, u)
    requires SkipBlank(u) == v && v != ""
    ensures v[0] == '}' ==> ParseMembers(s, acc) == Got(Put(acc, key, value), v[1..])
    ensures v[0] == ',' ==> ParseMembers(s, acc) == ParseMembers(SkipBlank(v[1..]), Put(acc, key, value))
  {
    hide WellFormed, ParseChars, ParseValue, SkipBlank, Put;
  }

  lemma {:induction false} ParseEmitMembers(o: Json, i: nat, st: Style, level: nat, close: string, tail: string)
    requires WellFormed(o) && o.Obj? && i < |o.keys| && StyleOk(st)
    requires Closes(close, '}', tail)
    requires WellFormed(Before(o, i))
    ensures ParseMembers(EmitMembers(o, i, st, level, close), Before(o, i)) == Got(o, tail)
    decreases o, 0, |o.keys| - i
  {
    var key, value := o.keys[i], o.vals[o.keys[i]];
    assert WellFormed(value);
    BeforeGrows(o, i);
    BeforeIsWellFormed(o, i + 1);
    BeforeAll(o);
    hide WellFormed, Emit, EmitChars, ParseValue, ParseChars, ParseMembers, SkipBlank, NewLine, Delimited, Before, Put, StyleOk;
    if i + 1 == |o.keys| {
      ParseMemberThen(Before(o, i), key, value, st, level, close, SkipBlank(close));
    } else {
      var more := EmitMembers(o, i + 1, st, level, close);
      assert more != "" && more[0] == '"';
      SkipComma(st, level, more);
      var next := "," + (st.commaGap + NewLine(st, level) + more);
      assert next[0] == ',';
      ParseMemberThen(Before(o, i), key, value, st, level, next, next);
      ParseEmitMembers(o, i + 1, st, level, close, tail);
    }
  }

  lemma {:induction false} ParseMemberThen(acc: Json, key: string, value: Json, st: Style, level: nat, next: string, v: string)
    requires WellFormed(acc) && acc.Obj? && WellFormed(value) && StyleOk(st) && Delimited(next)
    requires WellFormed(Put(acc, key, value))
    requires SkipBlank(next) == v && v != ""
    ensures var s := "\"" + EmitChars(key, ":" + (st.colonGap + Emit(value, st, level, next)));
            && (v[0] == '}' ==> ParseMembers(s, acc) == Got(Put(acc, key, value), v[1..]))
            && (v[0] == ',' ==> ParseMembers(s, acc) == ParseMembers(SkipBlank(v[1..]), Put(acc, key, value)))
    decreases value, 4, 0
  {
    hide WellFormed, Emit, EmitChars, ParseValue, ParseChars, ParseMembers, SkipBlank, Delimited, Put, StyleOk;
    ParseMember(key, value, st, level, next);
    var t := ":" + (st.colonGap + Emit(value, st, level, next));
    ParseMembersStep("\"" + EmitChars(key, t), acc, key, t, value, next, v);
  }

  lemma {:induction false} ParseMember(key: string, value: Json, st: Style, level: nat, next: string)
    requires WellFormed(value) && StyleOk(st) && Delimited(next)
    ensures var valueText := Emit(value, st, level, next);
            var t := ":" + (st.colonGap + valueText);
            var s := "\"" + EmitChars(key, t);
            && ParseChars(s[1..]) == Got(key, t)
            && SkipBlank(t) == t && SkipBlank(t[1..]) == valueText
            && ParseValue(valueText) == Got(value, next)
    decreases value, 3, 0
  {
    var valueText := Emit(value, st, level, next);
    EmitStarts(value, st, level, next);
    ParseKey(key, st, valueText);
    var t := ":" + (st.colonGap + valueText);
    assert ("\"" + EmitChars(key, t))[1..] == EmitChars(key, t);
    ParseEmit(value, st, level, next);
  }

  /** json.loads(json.dumps(j)) == j for every value and every layout in use. */
  lemma LoadsInvertsDumps(j: Json, st: Style)
    requires WellFormed(j) && StyleOk(st)
    ensures Loads(Dumps(j, st)) == Some(j)
  {
    EmitStarts(j, st, 0, "");
    ParseEmit(j, st, 0, "");
  }
}
