// Quoted JSON strings as Python's json.dumps writes them, and reading them back.

module Quoting {
  import opened Wrappers

  function HexDigit(n: nat): char
    requires n < 16
  {
    if n < 10 then ('0' as int + n) as char else ('a' as int + n - 10) as char
  }

  function HexValue(c: char): (r: Option<nat>)
    ensures r.Some? ==> r.value < 16
  {
    if '0' <= c <= '9' then Some(c as int - '0' as int)
    else if 'a' <= c <= 'f' then Some(c as int - 'a' as int + 10)
    else None
  }

  // \uXXXX
  function UnicodeEscape(unit: nat): (s: string)
    requires unit < 0x10000
    ensures |s| == 6 && s[0] == '\\' && s[1] == 'u'
  {
    var a := unit / 16;
    var b := a / 16;
    ['\\', 'u', HexDigit(b / 16), HexDigit(b % 16), HexDigit(a % 16), HexDigit(unit % 16)]
  }

  // One character inside quotes. With `ascii` set, everything outside ' '..'~' is
  // escaped (ensure_ascii); otherwise only the quote, the backslash and controls.
  function Escape(c: char, ascii: bool): (s: string)
    ensures s != "" && s[0] != '"'
  {
    var n := c as int;
    if c == '"' then "\\\""
    else if c == '\\' then "\\\\"
    else if n == 8 then "\\b"
    else if n == 9 then "\\t"
    else if n == 10 then "\\n"
    else if n == 12 then "\\f"
    else if n == 13 then "\\r"
    else if n >= 0x20 && (!ascii || n < 0x7F) then [c]
    else if n < 0x10000 then UnicodeEscape(n)
    else UnicodeEscape(High(c)) + UnicodeEscape(Low(c))
  }

  // The surrogate pair of a supplementary character.
  function High(c: char): (unit: nat)
    requires c as int >= 0x10000
    ensures 0xD800 <= unit < 0xDC00
  {
    0xD800 + (c as int - 0x10000) / 0x400
  }

  function Low(c: char): (unit: nat)
    requires c as int >= 0x10000
    ensures 0xDC00 <= unit < 0xE000
  {
    0xDC00 + (c as int - 0x10000) % 0x400
  }

  function Combine(high: nat, low: nat): char
    requires 0xD800 <= high < 0xDC00 && 0xDC00 <= low < 0xE000
  {
    (0x10000 + 0x400 * (high - 0xD800) + (low - 0xDC00)) as char
  }

  lemma CombineSplit(c: char)
    requires c as int >= 0x10000
    ensures Combine(High(c), Low(c)) == c
  {
  }

  function EscapeAll(s: string, ascii: bool): string {
    if s == "" then "" else Escape(s[0], ascii) + EscapeAll(s[1..], ascii)
  }

  // json.dumps(s, ensure_ascii=ascii)
  function Quote(s: string, ascii: bool): (t: string)
    ensures t != "" && t[0] == '"'
  {
    "\"" + EscapeAll(s, ascii) + "\""
  }

  // -------------------------------------------------------------- reading

  function ParseUnit(t: string): (r: Option<(nat, string)>)
    ensures r.Some? ==> r.value.0 < 0x10000 && |r.value.1| < |t|
  {
    if |t| < 6 || t[0] != '\\' || t[1] != 'u' then None
    else
      var a :- HexValue(t[2]);
      var b :- HexValue(t[3]);
      var c :- HexValue(t[4]);
      var d :- HexValue(t[5]);
      Some((((a * 16 + b) * 16 + c) * 16 + d, t[6..]))
  }

  function ParseUnicodeEscape(t: string): (r: Option<(char, string)>)
    ensures r.Some? ==> |r.value.1| < |t|
  {
    var (high, rest) :- ParseUnit(t);
    if !(0xD800 <= high < 0xE000) then Some((high as char, rest))
    else if high >= 0xDC00 then None
    else
      var (low, rest') :- ParseUnit(rest);
      if !(0xDC00 <= low < 0xE000) then None
      else Some((Combine(high, low), rest'))
  }

  function ParseChar(t: string): (r: Option<(char, string)>)
    ensures r.Some? ==> |r.value.1| < |t|
  {
    if t == "" then None
    else if t[0] != '\\' then Some((t[0], t[1..]))
    else if |t| == 1 then None
    else
      match t[1]
      case '"' => Some(('"', t[2..]))
      case '\\' => Some(('\\', t[2..]))
      case 'b' => Some((8 as char, t[2..]))
      case 't' => Some((9 as char, t[2..]))
      case 'n' => Some((10 as char, t[2..]))
      case 'f' => Some((12 as char, t[2..]))
      case 'r' => Some((13 as char, t[2..]))
      case _ => ParseUnicodeEscape(t)
  }

  // The characters up to the closing quote, and what follows it.
  function ParseChars(t: string): (r: Option<(string, string)>)
    ensures r.Some? ==> |r.value.1| < |t|
    decreases |t|
  {
    if t == "" then None
    else if t[0] == '"' then Some(("", t[1..]))
    else
      var (c, rest) :- ParseChar(t);
      var (s, rest') :- ParseChars(rest);
      Some(([c] + s, rest'))
  }

  function ParseQuoted(t: string): (r: Option<(string, string)>)
    ensures r.Some? ==> |r.value.1| < |t|
  {
    if t == "" || t[0] != '"' then None else ParseChars(t[1..])
  }

  // ---------------------------------------------------------- round trip

  lemma HexValueDigit(n: nat)
    requires n < 16
    ensures HexValue(HexDigit(n)) == Some(n)
  {
  }

  lemma ParseUnitEscape(unit: nat, rest: string)
    requires unit < 0x10000
    ensures ParseUnit(UnicodeEscape(unit) + rest) == Some((unit, rest))
  {
    var t := UnicodeEscape(unit) + rest;
    assert t[6..] == rest;
    assert forall i :: 0 <= i < 6 ==> t[i] == UnicodeEscape(unit)[i];
    var a := unit / 16;
    var b := a / 16;
    HexValueDigit(b / 16);
    HexValueDigit(b % 16);
    HexValueDigit(a % 16);
    HexValueDigit(unit % 16);
  }

  predicate Numeric(c: char, ascii: bool) {
    var n := c as int;
    c != '"' && c != '\\' && !(8 <= n <= 10) && n != 12 && n != 13 && (n < 0x20 || (ascii && n >= 0x7F))
  }

  lemma ParseNumericEscape(c: char, ascii: bool, rest: string)
    requires Numeric(c, ascii)
    ensures ParseUnicodeEscape(Escape(c, ascii) + rest) == Some((c, rest))
  {
    var n := c as int;
    if n < 0x10000 {
      ParseUnitEscape(n, rest);
    } else {
      var t := UnicodeEscape(Low(c)) + rest;
      assert Escape(c, ascii) + rest == UnicodeEscape(High(c)) + t;
      ParseUnitEscape(High(c), t);
      ParseUnitEscape(Low(c), rest);
      CombineSplit(c);
    }
  }

  lemma NumericEscapeStart(c: char, ascii: bool)
    requires Numeric(c, ascii)
    ensures var e := Escape(c, ascii); |e| > 1 && e[0] == '\\' && e[1] == 'u'
  {
  }

  lemma ParseCharEscape(c: char, ascii: bool, rest: string)
    ensures ParseChar(Escape(c, ascii) + rest) == Some((c, rest))
  {
    var e := Escape(c, ascii);
    var t := e + rest;
    assert t[|e|..] == rest && t[0] == e[0] && (|e| > 1 ==> t[1] == e[1]);
    if Numeric(c, ascii) {
      NumericEscapeStart(c, ascii);
      ParseNumericEscape(c, ascii, rest);
    } else {
      assert |e| <= 2;
    }
  }

  lemma {:induction false} ParseCharsEscaped(s: string, ascii: bool, rest: string)
    ensures ParseChars(EscapeAll(s, ascii) + "\"" + rest) == Some((s, rest))
  {
    var t := EscapeAll(s, ascii) + "\"" + rest;
    if s == "" {
      assert t[1..] == rest;
    } else {
      var tail := EscapeAll(s[1..], ascii) + "\"" + rest;
      assert t == Escape(s[0], ascii) + tail;
      assert t[0] == Escape(s[0], ascii)[0];
      ParseCharEscape(s[0], ascii, tail);
      ParseCharsEscaped(s[1..], ascii, rest);
      assert s == [s[0]] + s[1..];
    }
  }

  lemma ParseQuotedString(s: string, ascii: bool, rest: string)
    ensures ParseQuoted(Quote(s, ascii) + rest) == Some((s, rest))
  {
    assert (Quote(s, ascii) + rest)[1..] == EscapeAll(s, ascii) + "\"" + rest;
    ParseCharsEscaped(s, ascii, rest);
  }
}
