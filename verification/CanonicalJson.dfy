/** JSON values with string keys, the deterministic printer used for every
    commitment, and a parser that undoes it. */
module CanonicalJson {
  import opened Text

  /** A finite float is known by its repr, which always holds a '.' or an 'e'. */
  datatype Json =
    | Null
    | Bool(b: bool)
    | Int(n: int)
    | Float(token: string)
    | Str(s: string)
    | Arr(items: seq<Json>)
    | Obj(fields: seq<Field>)

  /** Entries keep their insertion order, as a dictionary does. */
  datatype Field = Field(key: string, value: Json)

  datatype Style = Style(item: string, colon: string, ascii: bool)

  /** separators=(",", ":"), ensure_ascii=False: the commitment style. */
  const COMPACT := Style(",", ":", false)

  /** Default separators, ensure_ascii=True: the policy fingerprint style. */
  const SPACED := Style(", ", ": ", true)

  ghost predicate GoodStyle(st: Style) {
    |st.item| > 0 && st.item[0] == ',' && |st.colon| > 0
  }

  // ---- numbers -------------------------------------------------------------

  function DigitChar(d: nat): (c: char)
    requires d < 16
    ensures DigitValue(c) == Some(d)
    ensures d < 10 ==> '0' <= c <= '9'
    ensures c != '\"'
  {
    if d < 10 then '0' + d as char else 'a' + (d - 10) as char
  }

  function DigitValue(c: char): (d: Option<nat>)
    ensures d.Some? ==> d.value < 16
  {
    if '0' <= c <= '9' then Some((c - '0') as nat)
    else if 'a' <= c <= 'f' then Some((c - 'a') as nat + 10)
    else None
  }

  ghost predicate AllDigits(s: string) {
    forall i | 0 <= i < |s| :: '0' <= s[i] <= '9'
  }

  function NatText(n: nat): (s: string)
    ensures |s| > 0 && AllDigits(s)
  {
    if n < 10 then [DigitChar(n)] else NatText(n / 10) + [DigitChar(n % 10)]
  }

  function IntText(n: int): string {
    if n < 0 then "-" + NatText(-n) else NatText(n)
  }

  function ReadNat(s: string): nat {
    if s == "" then 0
    else ReadNat(s[..|s| - 1]) * 10 + DigitValue(s[|s| - 1]).GetOr(0)
  }

  lemma {:induction false} ReadNatText(n: nat)
    ensures ReadNat(NatText(n)) == n
  {
    if n < 10 {
      assert NatText(n)[..0] == "";
    } else {
      ReadNatText(n / 10);
      assert NatText(n)[..|NatText(n)| - 1] == NatText(n / 10);
    }
  }

  predicate NumberChar(c: char) {
    '0' <= c <= '9' || c in "+-.eE"
  }

  predicate FloatMark(c: char) {
    c in ".eE"
  }

  ghost predicate FloatToken(t: string) {
    && (forall i | 0 <= i < |t| :: NumberChar(t[i]))
    && (exists i | 0 <= i < |t| :: FloatMark(t[i]))
  }

  function NumberLength(s: string): (n: nat)
    ensures n <= |s|
  {
    if s == "" || !NumberChar(s[0]) then 0 else 1 + NumberLength(s[1..])
  }

  predicate HasMark(t: string) {
    exists i | 0 <= i < |t| :: FloatMark(t[i])
  }

  function NumberOf(t: string): Json {
    if HasMark(t) then Float(t)
    else if t != "" && t[0] == '-' then Int(0 - ReadNat(t[1..]))
    else Int(ReadNat(t))
  }

  ghost predicate Ends(rest: string) {
    rest == "" || rest[0] in ",]}"
  }

  lemma {:induction false} NumberLengthOf(t: string, rest: string)
    requires Ends(rest)
    requires forall i | 0 <= i < |t| :: NumberChar(t[i])
    ensures NumberLength(t + rest) == |t|
  {
    if t == "" {
      assert t + rest == rest;
    } else {
      assert (t + rest)[1..] == t[1..] + rest;
      NumberLengthOf(t[1..], rest);
    }
  }

  lemma DigitsAreUnmarked(t: string)
    requires AllDigits(t)
    ensures forall i | 0 <= i < |t| :: NumberChar(t[i]) && !FloatMark(t[i])
  {}

  lemma UnsignedTextReads(n: nat)
    ensures NatText(n) != "" && '0' <= NatText(n)[0] <= '9'
    ensures forall i | 0 <= i < |NatText(n)| :: NumberChar(NatText(n)[i]) && !FloatMark(NatText(n)[i])
    ensures NumberOf(NatText(n)) == Int(n)
  {
    hide NatText, ReadNat, FloatMark, NumberChar;
    ReadNatText(n);
    DigitsAreUnmarked(NatText(n));
  }

  lemma NegatedReads(digits: string)
    requires forall i | 0 <= i < |digits| :: NumberChar(digits[i]) && !FloatMark(digits[i])
    ensures forall i | 0 <= i < |"-" + digits| :: NumberChar(("-" + digits)[i])
    ensures NumberOf("-" + digits) == Int(0 - ReadNat(digits))
  {
    hide ReadNat, FloatMark, NumberChar;
    var t := "-" + digits;
    DashIsUnmarked();
    assert t[1..] == digits;
    assert forall i | 0 < i < |t| :: t[i] == digits[i - 1];
    assert !HasMark(t);
  }

  lemma DashIsUnmarked()
    ensures NumberChar('-') && !FloatMark('-')
  {}

  lemma IntTextReads(n: int)
    ensures IntText(n) != ""
    ensures forall i | 0 <= i < |IntText(n)| :: NumberChar(IntText(n)[i])
    ensures NumberOf(IntText(n)) == Int(n)
    ensures IntText(n)[0] == '-' || '0' <= IntText(n)[0] <= '9'
  {
    hide NatText, ReadNat, FloatMark, NumberChar, NumberOf;
    if n < 0 {
      UnsignedTextReads(-n);
      ReadNatText(-n);
      NegatedReads(NatText(-n));
    } else {
      UnsignedTextReads(n);
    }
  }

  // ---- strings -------------------------------------------------------------

  function Hex4(n: nat): (s: string)
    requires n < 0x10000
    ensures |s| == 4
  {
    [DigitChar(n / 4096), DigitChar(n / 256 % 16), DigitChar(n / 16 % 16), DigitChar(n % 16)]
  }

  function ReadHex4(s: string): (n: Option<nat>)
    requires |s| >= 4
    ensures n.Some? ==> n.value < 0x10000
  {
    var a, b, c, d := DigitValue(s[0]), DigitValue(s[1]), DigitValue(s[2]), DigitValue(s[3]);
    if a.Some? && b.Some? && c.Some? && d.Some?
    then Some(a.value * 4096 + b.value * 256 + c.value * 16 + d.value)
    else None
  }

  lemma HexSplit(n: nat)
    ensures n / 256 == n / 4096 * 16 + n / 256 % 16
    ensures n / 16 == n / 256 * 16 + n / 16 % 16
    ensures n == n / 16 * 16 + n % 16
  {}

  lemma Hex4Reads(n: nat, rest: string)
    requires n < 0x10000
    ensures ReadHex4(Hex4(n) + rest) == Some(n)
  {
    var s := Hex4(n) + rest;
    var a, b, c, d := n / 4096, n / 256 % 16, n / 16 % 16, n % 16;
    assert s[0] == DigitChar(a) && s[1] == DigitChar(b) && s[2] == DigitChar(c) && s[3] == DigitChar(d);
    HexSplit(n);
    assert a * 4096 + b * 256 + c * 16 + d == n;
  }

  /** The character c as it stands inside a JSON string, followed by rest. */
  function WriteChar(ascii: bool, c: char, rest: string): string {
    if c == '\"' then "\\\"" + rest
    else if c == '\\' then "\\\\" + rest
    else if c == '\n' then "\\n" + rest
    else if c == '\r' then "\\r" + rest
    else if c == '\t' then "\\t" + rest
    else if c == '\U{08}' then "\\b" + rest
    else if c == '\U{0C}' then "\\f" + rest
    else if c < ' ' || (ascii && '~' < c && (c as int) < 0x10000) then
      "\\u" + (Hex4(c as int) + rest)
    else if ascii && '~' < c then
      var n := c as int - 0x10000;
      "\\u" + (Hex4(0xD800 + n / 1024) + ("\\u" + (Hex4(0xDC00 + n % 1024) + rest)))
    else [c] + rest
  }

  datatype Parsed<+T> = Fail | Got(value: T, rest: string)

  function ReadUnicode(s: string): (r: Parsed<char>)
    ensures r.Got? ==> |r.rest| < |s|
  {
    if |s| < 4 || ReadHex4(s).None? then Fail else
      var n := ReadHex4(s).value;
      var t := s[4..];
      if n < 0xD800 || 0xE000 <= n then Got(n as char, t)
      else if 0xDC00 <= n || |t| < 6 || t[0] != '\\' || t[1] != 'u' || ReadHex4(t[2..]).None? then Fail
      else
        var m := ReadHex4(t[2..]).value;
        if m < 0xDC00 || 0xE000 <= m then Fail
        else Got((0x10000 + (n - 0xD800) * 1024 + (m - 0xDC00)) as char, t[6..])
  }

  function ReadChar(s: string): (r: Parsed<char>)
    requires s != ""
    ensures r.Got? ==> |r.rest| < |s|
  {
    if s[0] != '\\' then Got(s[0], s[1..])
    else if |s| < 2 then Fail
    else if s[1] == '\"' || s[1] == '\\' then Got(s[1], s[2..])
    else if s[1] == 'n' then Got('\n', s[2..])
    else if s[1] == 'r' then Got('\r', s[2..])
    else if s[1] == 't' then Got('\t', s[2..])
    else if s[1] == 'b' then Got('\U{08}', s[2..])
    else if s[1] == 'f' then Got('\U{0C}', s[2..])
    else if s[1] == 'u' then ReadUnicode(s[2..])
    else Fail
  }

  lemma ReadUnicodeWritten(n: nat, rest: string)
    requires n < 0xD800 || 0xE000 <= n < 0x10000
    ensures ReadUnicode(Hex4(n) + rest) == Got(n as char, rest)
  {
    Hex4Reads(n, rest);
    assert (Hex4(n) + rest)[4..] == rest;
  }

  lemma ReadSurrogates(hi: nat, lo: nat, rest: string)
    requires 0xD800 <= hi < 0xDC00 <= lo < 0xE000
    ensures ReadUnicode(Hex4(hi) + ("\\u" + (Hex4(lo) + rest)))
         == Got((0x10000 + (hi - 0xD800) * 1024 + (lo - 0xDC00)) as char, rest)
  {
    var low := Hex4(lo) + rest;
    var tail := "\\u" + low;
    Hex4Reads(hi, tail);
    Hex4Reads(lo, rest);
    assert (Hex4(hi) + tail)[4..] == tail;
    assert tail[0] == '\\' && tail[1] == 'u';
    assert tail[2..] == low;
    assert tail[6..] == rest;
  }

  lemma ReadUnicodePair(c: char, rest: string)
    requires 0x10000 <= c as int
    ensures var n := c as int - 0x10000;
            ReadUnicode(Hex4(0xD800 + n / 1024) + ("\\u" + (Hex4(0xDC00 + n % 1024) + rest))) == Got(c, rest)
  {
    var n := c as int - 0x10000;
    ReadSurrogates(0xD800 + n / 1024, 0xDC00 + n % 1024, rest);
    assert n == n / 1024 * 1024 + n % 1024;
  }

  predicate ShortEscape(c: char) {
    c in "\"\\\n\r\t\U{08}\U{0C}"
  }

  lemma ReadShortEscape(ascii: bool, c: char, rest: string)
    requires ShortEscape(c)
    ensures WriteChar(ascii, c, rest) != "" && WriteChar(ascii, c, rest)[0] == '\\'
    ensures ReadChar(WriteChar(ascii, c, rest)) == Got(c, rest)
  {
    assert WriteChar(ascii, c, rest)[2..] == rest;
  }

  lemma ReadUnicodeEscape(digits: string)
    ensures ReadChar("\\u" + digits) == ReadUnicode(digits)
  {
    assert ("\\u" + digits)[2..] == digits;
  }

  lemma ReadLongEscape(ascii: bool, c: char, rest: string)
    requires !ShortEscape(c)
    ensures WriteChar(ascii, c, rest) != "" && WriteChar(ascii, c, rest)[0] != '\"'
    ensures ReadChar(WriteChar(ascii, c, rest)) == Got(c, rest)
  {
    hide Hex4, ReadUnicode;
    var s := WriteChar(ascii, c, rest);
    var n := c as int;
    if c < ' ' || (ascii && '~' < c && n < 0x10000) {
      var digits := Hex4(n) + rest;
      assert s == "\\u" + digits;
      ReadUnicodeWritten(n, rest);
      ReadUnicodeEscape(digits);
    } else if ascii && '~' < c {
      ReadUnicodePair(c, rest);
      var m := n - 0x10000;
      ReadUnicodeEscape(Hex4(0xD800 + m / 1024) + ("\\u" + (Hex4(0xDC00 + m % 1024) + rest)));
    } else {
      assert s == [c] + rest;
      assert s[1..] == rest;
    }
  }

  lemma ReadCharWritten(ascii: bool, c: char, rest: string)
    ensures WriteChar(ascii, c, rest) != "" && WriteChar(ascii, c, rest)[0] != '\"'
    ensures ReadChar(WriteChar(ascii, c, rest)) == Got(c, rest)
  {
    if ShortEscape(c) {
      ReadShortEscape(ascii, c, rest);
    } else {
      ReadLongEscape(ascii, c, rest);
    }
  }

  /** The characters of s, a closing quote, then rest. */
  function WriteChars(ascii: bool, s: string, rest: string): string {
    if s == "" then "\"" + rest else WriteChar(ascii, s[0], WriteChars(ascii, s[1..], rest))
  }

  function ReadChars(s: string): (r: Parsed<string>)
    ensures r.Got? ==> |r.rest| < |s|
    decreases |s|
  {
    if s == "" then Fail
    else if s[0] == '\"' then Got("", s[1..])
    else
      var c := ReadChar(s);
      if c.Fail? then Fail else
        var more := ReadChars(c.rest);
        if more.Fail? then Fail else Got([c.value] + more.value, more.rest)
  }

  lemma {:induction false} ReadCharsWritten(ascii: bool, s: string, rest: string)
    ensures ReadChars(WriteChars(ascii, s, rest)) == Got(s, rest)
  {
    if s == "" {
      assert WriteChars(ascii, s, rest)[1..] == rest;
    } else {
      var tail := WriteChars(ascii, s[1..], rest);
      ReadCharsWritten(ascii, s[1..], rest);
      ReadCharWritten(ascii, s[0], tail);
      assert s == [s[0]] + s[1..];
    }
  }

  // ---- values --------------------------------------------------------------

  /** The text of v followed by rest, fields in the order given. */
  function Write(st: Style, v: Json, rest: string): string
    decreases v, 1
  {
    match v
    case Null => "null" + rest
    case Bool(b) => (if b then "true" else "false") + rest
    case Int(n) => IntText(n) + rest
    case Float(t) => t + rest
    case Str(s) => "\"" + WriteChars(st.ascii, s, rest)
    case Arr(xs) => if xs == [] then "[]" + rest else "[" + WriteItems(st, xs, rest)
    case Obj(fs) => if fs == [] then "{}" + rest else "{" + WriteFields(st, fs, rest)
  }

  function WriteItems(st: Style, xs: seq<Json>, rest: string): string
    requires xs != []
    decreases xs, 0
  {
    Write(st, xs[0], if |xs| == 1 then "]" + rest else st.item + WriteItems(st, xs[1..], rest))
  }

  function WriteFields(st: Style, fs: seq<Field>, rest: string): string
    requires fs != []
    decreases fs, 0
  {
    WriteField(st, fs[0], if |fs| == 1 then "}" + rest else st.item + WriteFields(st, fs[1..], rest))
  }

  function WriteField(st: Style, f: Field, rest: string): string
    decreases f, 0
  {
    "\"" + WriteChars(st.ascii, f.key, st.colon + Write(st, f.value, rest))
  }

  function Read(st: Style, s: string): (r: Parsed<Json>)
    ensures r.Got? ==> |r.rest| < |s|
    decreases |s|, 0
  {
    if "null" <= s then Got(Null, s[4..])
    else if "true" <= s then Got(Bool(true), s[4..])
    else if "false" <= s then Got(Bool(false), s[5..])
    else if s == "" then Fail
    else if s[0] == '\"' then
      var t := ReadChars(s[1..]);
      if t.Fail? then Fail else Got(Str(t.value), t.rest)
    else if "[]" <= s then Got(Arr([]), s[2..])
    else if "{}" <= s then Got(Obj([]), s[2..])
    else if s[0] == '[' then
      var t := ReadItems(st, s[1..]);
      if t.Fail? then Fail else Got(Arr(t.value), t.rest)
    else if s[0] == '{' then
      var t := ReadFields(st, s[1..]);
      if t.Fail? then Fail else Got(Obj(t.value), t.rest)
    else
      var n := NumberLength(s);
      if n == 0 then Fail else Got(NumberOf(s[..n]), s[n..])
  }

  function ReadItems(st: Style, s: string): (r: Parsed<seq<Json>>)
    ensures r.Got? ==> |r.rest| < |s|
    decreases |s|, 1
  {
    var v := Read(st, s);
    if v.Fail? then Fail
    else if "]" <= v.rest then Got([v.value], v.rest[1..])
    else if st.item <= v.rest then
      var more := ReadItems(st, v.rest[|st.item|..]);
      if more.Fail? then Fail else Got([v.value] + more.value, more.rest)
    else Fail
  }

  function ReadFields(st: Style, s: string): (r: Parsed<seq<Field>>)
    ensures r.Got? ==> |r.rest| < |s|
    decreases |s|, 1
  {
    if !("\"" <= s) then Fail else
      var k := ReadChars(s[1..]);
      if k.Fail? || !(st.colon <= k.rest) then Fail else
        var v := Read(st, k.rest[|st.colon|..]);
        if v.Fail? then Fail
        else if "}" <= v.rest then Got([Field(k.value, v.value)], v.rest[1..])
        else if st.item <= v.rest then
          var more := ReadFields(st, v.rest[|st.item|..]);
          if more.Fail? then Fail else Got([Field(k.value, v.value)] + more.value, more.rest)
        else Fail
  }

  /** Every float is written by a float token. */
  ghost predicate Printable(v: Json)
    decreases v
  {
    match v
    case Float(t) => FloatToken(t)
    case Arr(xs) => forall i | 0 <= i < |xs| :: Printable(xs[i])
    case Obj(fs) => forall i | 0 <= i < |fs| :: Printable(fs[i].value)
    case _ => true
  }

  /** The first character of a text decides which branch the parser takes. */
  lemma WriteHead(st: Style, v: Json, rest: string)
    requires Printable(v)
    ensures Write(st, v, rest) != "" && Write(st, v, rest)[0] !in ",]}"
  {
    match v
    case Int(n) => IntTextReads(n);
    case Float(t) =>
    case _ =>
  }

  lemma ReadNumberWritten(st: Style, t: string, rest: string)
    requires t != "" && Ends(rest)
    requires forall i | 0 <= i < |t| :: NumberChar(t[i])
    ensures Read(st, t + rest) == Got(NumberOf(t), rest)
  {
    var s := t + rest;
    NumberLengthOf(t, rest);
    assert s[0] == t[0] && NumberChar(s[0]);
    assert s[..|t|] == t && s[|t|..] == rest;
    assert !("null" <= s) && !("true" <= s) && !("false" <= s) by {
      assert "null"[0] == 'n' && "true"[0] == 't' && "false"[0] == 'f';
    }
    assert !("[]" <= s) && !("{}" <= s) by {
      assert "[]"[0] == '[' && "{}"[0] == '{';
    }
  }

  lemma ReadWordWritten(st: Style, rest: string)
    ensures Read(st, "null" + rest) == Got(Null, rest)
    ensures Read(st, "true" + rest) == Got(Bool(true), rest)
    ensures Read(st, "false" + rest) == Got(Bool(false), rest)
  {
    hide ReadItems, ReadFields, ReadChars, NumberLength, NumberOf;
    var a, b, c := "null" + rest, "true" + rest, "false" + rest;
    assert a[4..] == rest && b[4..] == rest && c[5..] == rest;
    assert b[0] == 't' && c[0] == 'f' && "null"[0] == 'n' && "true"[0] == 't';
  }

  /** What the first character of a text excludes. */
  lemma Opens(s: string, c: char)
    requires s != "" && s[0] == c && c in "\"[{"
    ensures !("null" <= s) && !("true" <= s) && !("false" <= s)
    ensures c != '[' ==> !("[]" <= s)
    ensures c != '{' ==> !("{}" <= s)
  {
    assert "null"[0] == 'n' && "true"[0] == 't' && "false"[0] == 'f' && "[]"[0] == '[' && "{}"[0] == '{';
  }

  lemma ReadStringOpened(st: Style, body: string, t: string, rest: string)
    requires ReadChars(body) == Got(t, rest)
    ensures Read(st, "\"" + body) == Got(Str(t), rest)
  {
    hide ReadItems, ReadFields, ReadChars, NumberLength, NumberOf;
    var s := "\"" + body;
    assert s[1..] == body;
    Opens(s, '\"');
  }

  lemma ReadArrayOpened(st: Style, body: string, xs: seq<Json>, rest: string)
    requires body != "" && body[0] != ']' && ReadItems(st, body) == Got(xs, rest)
    ensures Read(st, "[" + body) == Got(Arr(xs), rest)
  {
    hide ReadItems, ReadFields, ReadChars, NumberLength, NumberOf;
    var s := "[" + body;
    assert s[1..] == body && s[1] == body[0] && "[]"[1] == ']';
    Opens(s, '[');
  }

  lemma ReadObjectOpened(st: Style, body: string, fs: seq<Field>, rest: string)
    requires body != "" && body[0] == '\"' && ReadFields(st, body) == Got(fs, rest)
    ensures Read(st, "{" + body) == Got(Obj(fs), rest)
  {
    hide ReadItems, ReadFields, ReadChars, NumberLength, NumberOf;
    var s := "{" + body;
    assert s[1..] == body && s[1] == body[0] && "{}"[1] == '}';
    Opens(s, '{');
  }

  lemma ReadEmptyWritten(st: Style, rest: string)
    ensures Read(st, "[]" + rest) == Got(Arr([]), rest)
    ensures Read(st, "{}" + rest) == Got(Obj([]), rest)
  {
    hide ReadItems, ReadFields, ReadChars, NumberLength, NumberOf;
    var a, b := "[]" + rest, "{}" + rest;
    Opens(a, '[');
    Opens(b, '{');
    assert a[2..] == rest && b[2..] == rest;
  }

  lemma {:induction false} ReadWritten(st: Style, v: Json, rest: string)
    requires GoodStyle(st) && Printable(v) && Ends(rest)
    ensures Read(st, Write(st, v, rest)) == Got(v, rest)
    decreases v, 1
  {
    hide Read, ReadItems, ReadFields, ReadChars, WriteItems, WriteFields, WriteChars;
    match v
    case Null => ReadWordWritten(st, rest);
    case Bool(_) => ReadWordWritten(st, rest);
    case Int(n) =>
      IntTextReads(n);
      ReadNumberWritten(st, IntText(n), rest);
    case Float(t) =>
      ReadNumberWritten(st, t, rest);
    case Str(t) =>
      ReadCharsWritten(st.ascii, t, rest);
      ReadStringOpened(st, WriteChars(st.ascii, t, rest), t, rest);
    case Arr(xs) =>
      if xs == [] {
        ReadEmptyWritten(st, rest);
      } else {
        WriteItemsHead(st, xs, rest);
        ReadItemsWritten(st, xs, rest);
        ReadArrayOpened(st, WriteItems(st, xs, rest), xs, rest);
      }
    case Obj(fs) =>
      if fs == [] {
        ReadEmptyWritten(st, rest);
      } else {
        WriteFieldsHead(st, fs, rest);
        ReadFieldsWritten(st, fs, rest);
        ReadObjectOpened(st, WriteFields(st, fs, rest), fs, rest);
      }
  }

  lemma WriteItemsHead(st: Style, xs: seq<Json>, rest: string)
    requires xs != [] && Printable(xs[0])
    ensures WriteItems(st, xs, rest) != "" && WriteItems(st, xs, rest)[0] != ']'
  {
    WriteHead(st, xs[0], if |xs| == 1 then "]" + rest else st.item + WriteItems(st, xs[1..], rest));
  }

  lemma WriteFieldsHead(st: Style, fs: seq<Field>, rest: string)
    requires fs != []
    ensures WriteFields(st, fs, rest) != "" && WriteFields(st, fs, rest)[0] == '\"'
  {
    var tail := if |fs| == 1 then "}" + rest else st.item + WriteFields(st, fs[1..], rest);
    assert WriteField(st, fs[0], tail)[0] == '\"';
  }

  /** What ReadItems does once the first item has been read off. */
  lemma ReadLastItem(st: Style, text: string, x: Json, rest: string)
    requires Read(st, text) == Got(x, "]" + rest)
    ensures ReadItems(st, text) == Got([x], rest)
  {
    hide Read;
    assert ("]" + rest)[1..] == rest;
  }

  lemma ReadOneItem(st: Style, text: string, x: Json, inner: string, more: seq<Json>, rest: string)
    requires GoodStyle(st) && Read(st, text) == Got(x, st.item + inner)
    requires ReadItems(st, inner) == Got(more, rest)
    ensures ReadItems(st, text) == Got([x] + more, rest)
  {
    hide Read;
    var tail := st.item + inner;
    assert tail[|st.item|..] == inner && tail[0] == ',';
    assert !("]" <= tail);
  }

  lemma {:induction false} ReadItemsWritten(st: Style, xs: seq<Json>, rest: string)
    requires GoodStyle(st) && Ends(rest) && xs != []
    requires forall i | 0 <= i < |xs| :: Printable(xs[i])
    ensures ReadItems(st, WriteItems(st, xs, rest)) == Got(xs, rest)
    decreases xs, 0
  {
    hide Read, ReadItems, Write, Printable;
    var x, more := xs[0], xs[1..];
    if |xs| == 1 {
      ReadWritten(st, x, "]" + rest);
      ReadLastItem(st, Write(st, x, "]" + rest), x, rest);
      assert xs == [x];
    } else {
      var inner := WriteItems(st, more, rest);
      ReadItemsWritten(st, more, rest);
      assert Ends(st.item + inner);
      ReadWritten(st, x, st.item + inner);
      ReadOneItem(st, Write(st, x, st.item + inner), x, inner, more, rest);
      assert xs == [x] + more;
    }
  }

  /** What ReadFields does once the first entry has been read off. */
  lemma ReadLastField(st: Style, f: Field, rest: string)
    requires GoodStyle(st)
    requires Read(st, Write(st, f.value, "}" + rest)) == Got(f.value, "}" + rest)
    ensures ReadFields(st, WriteField(st, f, "}" + rest)) == Got([f], rest)
  {
    hide Write, WriteChars, Read, ReadChars;
    var tail := "}" + rest;
    ReadKey(st, f.key, Write(st, f.value, tail));
    assert tail[1..] == rest;
  }

  lemma ReadOneField(st: Style, f: Field, inner: string, more: seq<Field>, rest: string)
    requires GoodStyle(st)
    requires Read(st, Write(st, f.value, st.item + inner)) == Got(f.value, st.item + inner)
    requires ReadFields(st, inner) == Got(more, rest)
    ensures ReadFields(st, WriteField(st, f, st.item + inner)) == Got([f] + more, rest)
  {
    hide Write, WriteChars, Read, ReadChars;
    var tail := st.item + inner;
    ReadKey(st, f.key, Write(st, f.value, tail));
    assert tail[|st.item|..] == inner && tail[0] == ',';
    assert !("}" <= tail);
  }

  lemma ReadKey(st: Style, key: string, text: string)
    ensures var s := "\"" + WriteChars(st.ascii, key, st.colon + text);
            && "\"" <= s
            && ReadChars(s[1..]) == Got(key, st.colon + text)
            && st.colon <= st.colon + text
            && (st.colon + text)[|st.colon|..] == text
  {
    var s := "\"" + WriteChars(st.ascii, key, st.colon + text);
    assert s[1..] == WriteChars(st.ascii, key, st.colon + text);
    ReadCharsWritten(st.ascii, key, st.colon + text);
  }

  lemma {:induction false} ReadFieldsWritten(st: Style, fs: seq<Field>, rest: string)
    requires GoodStyle(st) && Ends(rest) && fs != []
    requires forall i | 0 <= i < |fs| :: Printable(fs[i].value)
    ensures ReadFields(st, WriteFields(st, fs, rest)) == Got(fs, rest)
    decreases fs, 0
  {
    hide Write, WriteField, Read, ReadFields;
    var f, more := fs[0], fs[1..];
    if |fs| == 1 {
      ReadWritten(st, f.value, "}" + rest);
      ReadLastField(st, f, rest);
      assert WriteFields(st, fs, rest) == WriteField(st, f, "}" + rest);
      assert fs == [f];
    } else {
      var inner := WriteFields(st, more, rest);
      assert ReadFields(st, inner) == Got(more, rest) by {
        forall i | 0 <= i < |more| ensures Printable(more[i].value) {
          assert more[i] == fs[i + 1];
        }
        ReadFieldsWritten(st, more, rest);
      }
      assert Ends(st.item + inner);
      ReadWritten(st, f.value, st.item + inner);
      ReadOneField(st, f, inner, more, rest);
      assert WriteFields(st, fs, rest) == WriteField(st, f, st.item + inner);
      assert fs == [f] + more;
    }
  }
}
