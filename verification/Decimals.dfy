// Plain decimal notation for integers and exact decimals, and reading it back.

module Decimals {
  import opened Wrappers
  import opened Values

  predicate IsDigit(c: char) { '0' <= c <= '9' }

  predicate AllDigits(s: string) {
    forall i :: 0 <= i < |s| ==> IsDigit(s[i])
  }

  function DigitValue(c: char): int {
    c as int - '0' as int
  }

  function Digits(n: nat): (s: string)
    ensures |s| > 0 && AllDigits(s)
    ensures n > 0 ==> s[0] != '0'
  {
    var last := ('0' as int + n % 10) as char;
    if n < 10 then [last] else Digits(n / 10) + [last]
  }

  // The number a string of digits denotes.
  function NatOf(s: string): int {
    if s == "" then 0 else 10 * NatOf(s[..|s| - 1]) + DigitValue(s[|s| - 1])
  }

  lemma {:induction false} NatOfDigits(n: nat)
    ensures NatOf(Digits(n)) == n
  {
    if n >= 10 {
      NatOfDigits(n / 10);
      assert Digits(n)[..|Digits(n)| - 1] == Digits(n / 10);
    }
  }

  function Zeros(n: nat): (s: string)
    ensures |s| == n && AllDigits(s)
  {
    seq(n, _ => '0')
  }

  lemma {:induction false} NatOfPadded(n: nat, s: string)
    ensures NatOf(Zeros(n) + s) == NatOf(s)
    decreases n + |s|
  {
    var t := Zeros(n) + s;
    if s != "" {
      assert t[..|t| - 1] == Zeros(n) + s[..|s| - 1];
      NatOfPadded(n, s[..|s| - 1]);
    } else if n > 0 {
      assert t[..|t| - 1] == Zeros(n - 1) + "";
      NatOfPadded(n - 1, "");
    }
  }

  function TenTo(k: nat): (n: nat)
    ensures n > 0
  {
    if k == 0 then 1 else 10 * TenTo(k - 1)
  }

  // The digits of n with zeros in front, so that k of them can follow the point.
  function Padded(n: nat, k: nat): (s: string)
    ensures |s| > k && AllDigits(s)
  {
    var d := Digits(n);
    if |d| > k then d else Zeros(k + 1 - |d|) + d
  }

  function Abs(m: int): nat { if m < 0 then -m else m }

  // The digits of n before and after a point that leaves k of them behind it.
  function Whole(n: nat, k: nat): (s: string)
    ensures s != "" && AllDigits(s)
  {
    var s := Padded(n, k);
    s[..|s| - k]
  }

  function Fraction(n: nat, k: nat): (s: string)
    ensures |s| == k && AllDigits(s)
  {
    var s := Padded(n, k);
    s[|s| - k..]
  }

  function UnsignedText(n: nat, k: nat): (s: string)
    ensures s != "" && IsDigit(s[0])
  {
    Whole(n, k) + (if k == 0 then "" else "." + Fraction(n, k))
  }

  // The number as digits with at most one point and no exponent.
  function DecimalText(d: Decimal): string {
    (if d.m < 0 then "-" else "") + UnsignedText(Abs(d.m), d.k)
  }

  function IntText(m: int): string {
    DecimalText(RawDecimal(m, 0))
  }

  // -------------------------------------------------------------- reading

  // The longest prefix of digits.
  function DigitRun(t: string): (n: nat)
    ensures n <= |t| && AllDigits(t[..n])
    ensures n < |t| ==> !IsDigit(t[n])
  {
    if t == "" || !IsDigit(t[0]) then 0
    else
      var n := DigitRun(t[1..]);
      assert t[..n + 1] == [t[0]] + t[1..][..n];
      n + 1
  }

  lemma {:induction false} DigitRunStops(s: string, rest: string)
    requires AllDigits(s)
    requires rest == "" || !IsDigit(rest[0])
    ensures DigitRun(s + rest) == |s|
  {
    if s == "" {
      assert s + rest == rest;
    } else {
      assert (s + rest)[1..] == s[1..] + rest;
      DigitRunStops(s[1..], rest);
    }
  }

  function SplitDigits(t: string): (r: (string, string))
    ensures |r.1| <= |t|
  {
    var n := DigitRun(t);
    (t[..n], t[n..])
  }

  // Digits at the front of t, optionally with a point and more digits: the digits
  // before the point, those after it, and what follows.
  function SplitNumber(t: string): (r: Option<(string, string, string)>)
    ensures r.Some? ==> |r.value.2| < |t|
  {
    var (whole, after) := SplitDigits(t);
    if whole == "" then None
    else if after != "" && after[0] == '.' then
      var (fraction, rest) := SplitDigits(after[1..]);
      Some((whole, fraction, rest))
    else Some((whole, "", after))
  }

  // A number in lowest terms at the front of t.
  function ParseDecimal(t: string): (r: Option<(Decimal, string)>)
    ensures r.Some? ==> |r.value.1| < |t|
  {
    var negative := t != "" && t[0] == '-';
    var (whole, fraction, rest) :- SplitNumber(if negative then t[1..] else t);
    var d :- ToDecimal(negative, whole, fraction);
    Some((d, rest))
  }

  // The number with its sign, if it is in lowest terms.
  function ToDecimal(negative: bool, whole: string, fraction: string): Option<Decimal> {
    var n := NatOf(whole + fraction);
    var m := if negative then -n else n;
    if |fraction| > 0 && m % 10 == 0 then None else Some(RawDecimal(m, |fraction|))
  }

  // What may follow a number without being read into it.
  predicate EndsNumber(rest: string) {
    rest == "" || (!IsDigit(rest[0]) && rest[0] != '.')
  }

  // ---------------------------------------------------------- round trip

  lemma NatOfPaddedDigits(m: nat, k: nat)
    ensures NatOf(Padded(m, k)) == m
  {
    NatOfDigits(m);
    if |Digits(m)| <= k {
      NatOfPadded(k + 1 - |Digits(m)|, Digits(m));
    }
  }

  lemma SplitAt(digits: string, rest: string)
    requires AllDigits(digits) && (rest == "" || !IsDigit(rest[0]))
    ensures SplitDigits(digits + rest) == (digits, rest)
  {
    DigitRunStops(digits, rest);
  }

  lemma SplitWhole(whole: string, rest: string)
    requires whole != "" && AllDigits(whole) && EndsNumber(rest)
    ensures SplitNumber(whole + rest) == Some((whole, "", rest))
  {
    SplitAt(whole, rest);
  }

  lemma SplitFixed(whole: string, fraction: string, rest: string)
    requires whole != "" && AllDigits(whole) && AllDigits(fraction) && EndsNumber(rest)
    ensures SplitNumber(whole + "." + fraction + rest) == Some((whole, fraction, rest))
  {
    var tail := fraction + rest;
    assert whole + "." + fraction + rest == whole + ("." + tail);
    SplitAt(whole, "." + tail);
    assert ("." + tail)[1..] == tail;
    SplitAt(fraction, rest);
  }

  lemma SplitUnsignedText(m: nat, k: nat, rest: string)
    requires EndsNumber(rest)
    ensures SplitNumber(UnsignedText(m, k) + rest) == Some((Whole(m, k), Fraction(m, k), rest))
  {
    var whole, fraction := Whole(m, k), Fraction(m, k);
    if k == 0 {
      assert whole + "" == whole;
      SplitWhole(whole, rest);
    } else {
      assert whole + ("." + fraction) + rest == whole + "." + fraction + rest;
      SplitFixed(whole, fraction, rest);
    }
  }

  lemma ToDecimalAbs(d: Decimal)
    ensures ToDecimal(d.m < 0, Whole(Abs(d.m), d.k), Fraction(Abs(d.m), d.k)) == Some(d)
  {
    NatOfPaddedDigits(Abs(d.m), d.k);
    assert Whole(Abs(d.m), d.k) + Fraction(Abs(d.m), d.k) == Padded(Abs(d.m), d.k);
  }

  lemma ParsePositive(u: string, whole: string, fraction: string, rest: string)
    requires u != "" && u[0] != '-' && SplitNumber(u) == Some((whole, fraction, rest))
    ensures ParseDecimal(u) == var d :- ToDecimal(false, whole, fraction); Some((d, rest))
  {
  }

  lemma ParseNegative(u: string, whole: string, fraction: string, rest: string)
    requires SplitNumber(u) == Some((whole, fraction, rest))
    ensures ParseDecimal("-" + u) == var d :- ToDecimal(true, whole, fraction); Some((d, rest))
  {
    assert ("-" + u)[0] == '-' && ("-" + u)[1..] == u;
  }

  lemma SignedConcat(sign: string, text: string, rest: string)
    ensures (sign + text) + rest == sign + (text + rest)
    ensures "" + text == text
    ensures text != "" ==> (text + rest)[0] == text[0]
  {
  }

  lemma ParseDecimalText(d: Decimal, rest: string)
    requires EndsNumber(rest)
    ensures ParseDecimal(DecimalText(d) + rest) == Some((d, rest))
  {
    var m := Abs(d.m);
    var text := UnsignedText(m, d.k);
    SignedConcat("-", text, rest);
    SplitUnsignedText(m, d.k, rest);
    ToDecimalAbs(d);
    if d.m < 0 {
      ParseNegative(text + rest, Whole(m, d.k), Fraction(m, d.k), rest);
    } else {
      ParsePositive(text + rest, Whole(m, d.k), Fraction(m, d.k), rest);
    }
  }
}
