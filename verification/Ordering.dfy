// Lexicographic orders on strings: by Unicode code point, by UTF-16 code unit and
// by big-endian UTF-16 byte.

module Ordering {

  // Python's `<` on byte strings and, over code points, on str.
  predicate LexLess(a: seq<int>, b: seq<int>) {
    if |b| == 0 then false
    else if |a| == 0 then true
    else a[0] < b[0] || (a[0] == b[0] && LexLess(a[1..], b[1..]))
  }

  lemma {:induction false} LexTrichotomy(a: seq<int>, b: seq<int>)
    ensures a == b || LexLess(a, b) || LexLess(b, a)
    ensures !(LexLess(a, b) && LexLess(b, a))
    ensures a == b ==> !LexLess(a, b)
  {
    if |a| > 0 && |b| > 0 && a[0] == b[0] {
      LexTrichotomy(a[1..], b[1..]);
      assert a == [a[0]] + a[1..] && b == [b[0]] + b[1..];
    }
  }

  lemma {:induction false} LexTransitive(a: seq<int>, b: seq<int>, c: seq<int>)
    requires LexLess(a, b) && LexLess(b, c)
    ensures LexLess(a, c)
  {
    if |a| > 0 && a[0] == b[0] == c[0] {
      LexTransitive(a[1..], b[1..], c[1..]);
    }
  }

  lemma {:induction false} LexCommonPrefix(p: seq<int>, a: seq<int>, b: seq<int>)
    ensures LexLess(p + a, p + b) == LexLess(a, b)
  {
    if |p| == 0 {
      assert p + a == a && p + b == b;
    } else {
      assert (p + a)[1..] == p[1..] + a && (p + b)[1..] == p[1..] + b;
      LexCommonPrefix(p[1..], a, b);
    }
  }

  // ------------------------------------------------------------ encodings

  function CodePoints(s: string): (r: seq<int>)
    ensures |r| == |s|
    ensures forall i :: 0 <= i < |s| ==> r[i] == s[i] as int
  {
    seq(|s|, i requires 0 <= i < |s| => s[i] as int)
  }

  predicate AreUnits(u: seq<int>) {
    forall i :: 0 <= i < |u| ==> 0 <= u[i] < 0x10000
  }

  // The UTF-16 code units of one Unicode scalar value.
  function Units(c: char): (u: seq<int>)
    ensures AreUnits(u)
  {
    var n := c as int;
    if n < 0x10000 then [n]
    else [0xD800 + (n - 0x10000) / 0x400, 0xDC00 + (n - 0x10000) % 0x400]
  }

  function Utf16(s: string): (u: seq<int>)
    ensures AreUnits(u)
  {
    if s == "" then [] else Units(s[0]) + Utf16(s[1..])
  }

  function BigEndian(units: seq<int>): seq<int> {
    if units == [] then [] else [units[0] / 256, units[0] % 256] + BigEndian(units[1..])
  }

  // str.encode("utf-16-be"), the sort key of object members.
  function Utf16Be(s: string): seq<int> {
    BigEndian(Utf16(s))
  }

  predicate KeyLess(a: string, b: string) {
    LexLess(Utf16Be(a), Utf16Be(b))
  }

  predicate CodePointLess(a: string, b: string) {
    LexLess(CodePoints(a), CodePoints(b))
  }

  // ---------------------------------------- bytes order the way units do

  lemma {:induction false} BytesOrderAsUnits(u: seq<int>, w: seq<int>)
    requires AreUnits(u) && AreUnits(w)
    ensures LexLess(BigEndian(u), BigEndian(w)) == LexLess(u, w)
  {
    if |u| > 0 && |w| > 0 {
      var pu, pw := [u[0] / 256, u[0] % 256], [w[0] / 256, w[0] % 256];
      var tu, tw := BigEndian(u[1..]), BigEndian(w[1..]);
      assert BigEndian(u) == pu + tu && BigEndian(w) == pw + tw;
      assert (pu + tu)[1..] == [u[0] % 256] + tu && (pw + tw)[1..] == [w[0] % 256] + tw;
      assert (pu + tu)[1..][1..] == tu && (pw + tw)[1..][1..] == tw;
      BytesOrderAsUnits(u[1..], w[1..]);
    }
  }

  // Member keys sort by UTF-16 code units, as section 3.2.3 of RFC 8785 requires.
  lemma KeyOrderIsUtf16Order(a: string, b: string)
    ensures KeyLess(a, b) == LexLess(Utf16(a), Utf16(b))
  {
    BytesOrderAsUnits(Utf16(a), Utf16(b));
  }

  // ------------------------- where UTF-16 order and code-point order differ

  predicate Supplementary(c: char) { c as int >= 0x10000 }

  predicate AboveSurrogates(c: char) { 0xE000 <= c as int < 0x10000 }

  // The position at which two different strings first differ.
  function FirstDifference(a: string, b: string): (p: nat)
    ensures p <= |a| && p <= |b| && a[..p] == b[..p]
    ensures p < |a| && p < |b| ==> a[p] != b[p]
  {
    if |a| > 0 && |b| > 0 && a[0] == b[0] then
      var p := FirstDifference(a[1..], b[1..]);
      assert a[..p + 1] == [a[0]] + a[1..][..p] && b[..p + 1] == [b[0]] + b[1..][..p];
      p + 1
    else 0
  }

  predicate OrdersDisagreeAt(a: string, b: string, p: nat) {
    && p < |a| && p < |b|
    && ((Supplementary(a[p]) && AboveSurrogates(b[p])) || (Supplementary(b[p]) && AboveSurrogates(a[p])))
  }

  lemma {:induction false} KeyOrderVersusCodePointOrder(a: string, b: string)
    ensures KeyLess(a, b) == CodePointLess(a, b) <==> !OrdersDisagreeAt(a, b, FirstDifference(a, b))
  {
    KeyOrderIsUtf16Order(a, b);
    UnitOrderVersusCodePointOrder(a, b);
  }

  lemma {:induction false} UnitOrderVersusCodePointOrder(a: string, b: string)
    ensures LexLess(Utf16(a), Utf16(b)) == CodePointLess(a, b)
            <==> !OrdersDisagreeAt(a, b, FirstDifference(a, b))
  {
    if |a| > 0 && |b| > 0 {
      assert CodePoints(a)[1..] == CodePoints(a[1..]) && CodePoints(b)[1..] == CodePoints(b[1..]);
      if a[0] == b[0] {
        LexCommonPrefix(Units(a[0]), Utf16(a[1..]), Utf16(b[1..]));
        UnitOrderVersusCodePointOrder(a[1..], b[1..]);
      } else {
        UnitsOrder(a[0], b[0], Utf16(a[1..]), Utf16(b[1..]));
      }
    }
  }

  lemma UnitsOrder(c: char, d: char, s: seq<int>, t: seq<int>)
    requires c != d
    ensures LexLess(Units(c) + s, Units(d) + t)
            == if Supplementary(c) && AboveSurrogates(d) then true
               else if AboveSurrogates(c) && Supplementary(d) then false
               else c < d
  {
    var u, w := Units(c) + s, Units(d) + t;
    if Supplementary(c) && Supplementary(d) {
      var x, y := c as int - 0x10000, d as int - 0x10000;
      assert x / 0x400 == y / 0x400 ==> (x % 0x400 < y % 0x400 <==> x < y) && x % 0x400 != y % 0x400;
      assert x / 0x400 < y / 0x400 ==> x < y;
      assert u[1..][0] == 0xDC00 + x % 0x400 && w[1..][0] == 0xDC00 + y % 0x400;
    } else {
      assert u[0] == Units(c)[0] && w[0] == Units(d)[0];
    }
  }

  // Where two names first differ decides: the one that ends there is the smaller; otherwise a
  // supplementary character comes before one in U+E000..U+FFFF, and else the smaller one first.
  lemma {:induction false} FirstDifferenceDecides(a: string, b: string)
    ensures var p := FirstDifference(a, b);
      && (KeyLess(a, b)
          <==> p < |b| && (p == |a| || if OrdersDisagreeAt(a, b, p) then Supplementary(a[p]) else a[p] < b[p]))
      && (CodePointLess(a, b) <==> p < |b| && (p == |a| || a[p] < b[p]))
  {
    KeyOrderIsUtf16Order(a, b);
    UnitsDecide(a, b);
  }

  lemma {:induction false} UnitsDecide(a: string, b: string)
    ensures var p := FirstDifference(a, b);
      && (LexLess(Utf16(a), Utf16(b))
          <==> p < |b| && (p == |a| || if OrdersDisagreeAt(a, b, p) then Supplementary(a[p]) else a[p] < b[p]))
      && (CodePointLess(a, b) <==> p < |b| && (p == |a| || a[p] < b[p]))
  {
    if |a| > 0 && |b| > 0 {
      assert CodePoints(a)[1..] == CodePoints(a[1..]) && CodePoints(b)[1..] == CodePoints(b[1..]);
      if a[0] == b[0] {
        LexCommonPrefix(Units(a[0]), Utf16(a[1..]), Utf16(b[1..]));
        UnitsDecide(a[1..], b[1..]);
      } else {
        UnitsOrder(a[0], b[0], Utf16(a[1..]), Utf16(b[1..]));
      }
    }
  }

  // ------------------------------------------ a strict total order on keys

  lemma {:induction false} Utf16Injective(a: string, b: string)
    requires Utf16(a) == Utf16(b)
    ensures a == b
  {
    if a != "" && b != "" {
      var u, w := Units(a[0]) + Utf16(a[1..]), Units(b[0]) + Utf16(b[1..]);
      assert u == w;
      assert u[0] == Units(a[0])[0] && w[0] == Units(b[0])[0];
      if Supplementary(a[0]) && Supplementary(b[0]) {
        assert u[1] == Units(a[0])[1] && w[1] == Units(b[0])[1];
        var x, y := a[0] as int - 0x10000, b[0] as int - 0x10000;
        assert x == 0x400 * (x / 0x400) + x % 0x400 && y == 0x400 * (y / 0x400) + y % 0x400;
      }
      assert a[0] == b[0];
      assert Utf16(a[1..]) == u[|Units(a[0])|..] && Utf16(b[1..]) == w[|Units(b[0])|..];
      Utf16Injective(a[1..], b[1..]);
      assert a == [a[0]] + a[1..] && b == [b[0]] + b[1..];
    }
  }

  lemma KeyTrichotomy(a: string, b: string)
    ensures a == b || KeyLess(a, b) || KeyLess(b, a)
    ensures !(KeyLess(a, b) && KeyLess(b, a))
    ensures !KeyLess(a, a)
  {
    KeyOrderIsUtf16Order(a, b);
    KeyOrderIsUtf16Order(b, a);
    KeyOrderIsUtf16Order(a, a);
    LexTrichotomy(Utf16(a), Utf16(b));
    LexTrichotomy(Utf16(a), Utf16(a));
    if Utf16(a) == Utf16(b) {
      Utf16Injective(a, b);
    }
  }

  lemma KeyTransitive(a: string, b: string, c: string)
    requires KeyLess(a, b) && KeyLess(b, c)
    ensures KeyLess(a, c)
  {
    LexTransitive(Utf16Be(a), Utf16Be(b), Utf16Be(c));
  }
}
