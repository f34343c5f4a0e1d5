// What the canonical text of a Python value looks like (canonical.py, after section 3.2 of
// RFC 8785), character by character and member by member.

module TextForm {
  import opened Wrappers
  import opened KeySort
  import opened Decimals
  import opened Quoting
  import opened PythonValues
  import opened Canonical
  import Values

  // ---------------------------------------------------------------- strings

  const HEX := "0123456789abcdef"

  lemma HexDigits(n: nat)
    requires n < 16
    ensures HexDigit(n) == HEX[n]
  {
  }

  lemma EscapeOne(c: char)
    ensures EscapeAll([c], false) == Escape(c, false)
  {
    assert [c][1..] == "";
    assert EscapeAll([c], false) == Escape(c, false) + EscapeAll("", false);
  }

  lemma StringText(s: string)
    ensures Canonicalise(Json.Str(s)) == Some("\"" + EscapeAll(s, false) + "\"")
  {
  }

  // What stands for one character: itself, a short escape, or four lower-case digits.
  lemma CharacterText(c: char)
    ensures var n := c as int;
      Canonicalise(Json.Str([c]))
      == Some("\"" + (if c == '"' then "\\\""
                     else if c == '\\' then "\\\\"
                     else if n == 8 then "\\b"
                     else if n == 9 then "\\t"
                     else if n == 10 then "\\n"
                     else if n == 12 then "\\f"
                     else if n == 13 then "\\r"
                     else if n < 32 then "\\u00" + [HEX[n / 16], HEX[n % 16]]
                     else [c]) + "\"")
  {
    StringText([c]);
    EscapeOne(c);
    var n := c as int;
    if n < 32 && n !in {8, 9, 10, 12, 13} {
      HexDigits(0);
      HexDigits(n / 16);
      HexDigits(n % 16);
      assert UnicodeEscape(n) == "\\u00" + [HEX[n / 16], HEX[n % 16]];
    }
  }

  lemma {:induction false} EscapeConcat(s: string, t: string)
    ensures EscapeAll(s + t, false) == EscapeAll(s, false) + EscapeAll(t, false)
  {
    if s == "" {
      assert s + t == t;
    } else {
      assert (s + t)[0] == s[0] && (s + t)[1..] == s[1..] + t;
      EscapeConcat(s[1..], t);
    }
  }

  // The text of a string is put together from the texts of its parts, between one pair of
  // quotes.
  lemma ConcatenationText(s: string, t: string)
    ensures Canonicalise(Json.Str("")) == Some("\"\"")
    ensures var u, v, w := Canonicalise(Json.Str(s)), Canonicalise(Json.Str(t)), Canonicalise(Json.Str(s + t));
      && u.Some? && v.Some? && w.Some? && |u.value| >= 2 && |v.value| >= 2
      && w.value == u.value[..|u.value| - 1] + v.value[1..]
  {
    hide EscapeAll;
    StringText(s);
    StringText(t);
    StringText(s + t);
    EscapeConcat(s, t);
    EmptyText();
    var a, b := EscapeAll(s, false), EscapeAll(t, false);
    assert ("\"" + a + "\"")[..|"\"" + a + "\""| - 1] == "\"" + a;
    assert ("\"" + b + "\"")[1..] == b + "\"";
  }

  lemma EmptyText()
    ensures Canonicalise(Json.Str("")) == Some("\"\"")
  {
    assert EscapeAll("", false) == "" && "\"" + "" + "\"" == "\"\"";
  }

  // No quote, no backslash and no control character.
  predicate Ordinary(s: string) {
    forall i :: 0 <= i < |s| ==> s[i] != '"' && s[i] != '\\' && s[i] as int >= 32
  }

  // So a string without any of these is written as it is, in whatever script.
  lemma {:induction false} OrdinaryText(s: string)
    requires Ordinary(s)
    ensures Canonicalise(Json.Str(s)) == Some("\"" + s + "\"")
  {
    hide Canonicalise;
    if s == "" {
      EmptyText();
      assert "\"" + "" + "\"" == "\"\"";
    } else {
      var rest := s[1..];
      OrdinaryText(rest);
      CharacterText(s[0]);
      ConcatenationText([s[0]], rest);
      assert s == [s[0]] + rest;
      JoinQuoted([s[0]], rest);
    }
  }

  lemma JoinQuoted(a: string, b: string)
    ensures var u, v := "\"" + a + "\"", "\"" + b + "\""; u[..|u| - 1] + v[1..] == "\"" + (a + b) + "\""
  {
  }

  // ---------------------------------------------------------------- numbers

  // The one way to write m / 10^k in plain decimal digits: no superfluous zero and no
  // exponent.
  ghost predicate IsPlainDecimal(t: string, negative: bool, whole: string, fraction: string) {
    && t == (if negative then "-" else "") + whole + (if fraction == "" then "" else "." + fraction)
    && whole != "" && AllDigits(whole) && AllDigits(fraction)
    && (|whole| > 1 ==> whole[0] != '0') && (fraction != "" ==> fraction[|fraction| - 1] != '0')
  }

  lemma LastDigit(n: nat)
    ensures var s := Digits(n); s[|s| - 1] == ('0' as int + n % 10) as char
  {
  }

  lemma PaddedStart(n: nat, k: nat)
    ensures var s := Padded(n, k); |s| > k + 1 ==> s[0] != '0'
    ensures var s := Padded(n, k); s[|s| - 1] == ('0' as int + n % 10) as char
  {
    LastDigit(n);
    if |Digits(n)| > k + 1 {
      SomeDigits(n);
    }
  }

  lemma SomeDigits(n: nat)
    requires |Digits(n)| > 1
    ensures n > 0
  {
  }

  // A serialised number is written so, with its own sign and digits.
  lemma NumberForm(num: PythonValues.Number)
    requires Canonicalise(Json.Number(num)).Some?
    ensures var d := Denote(Json.Number(num)).num;
      exists whole, fraction ::
        && IsPlainDecimal(Canonicalise(Json.Number(num)).value, d.m < 0, whole, fraction)
        && |fraction| == d.k && NatOf(whole + fraction) == Abs(d.m)
  {
    NumberTextIsDecimalText(num);
    var d := DenoteNumber(num).num;
    hide NumberText, Plain, Digits, NatOf;
    var whole, fraction := Whole(Abs(d.m), d.k), Fraction(Abs(d.m), d.k);
    PaddedStart(Abs(d.m), d.k);
    NatOfPaddedDigits(Abs(d.m), d.k);
    assert whole + fraction == Padded(Abs(d.m), d.k);
    DecimalParts(d);
    assert IsPlainDecimal(DecimalText(d), d.m < 0, whole, fraction);
  }

  lemma DecimalParts(d: Values.Decimal)
    ensures var whole, fraction := Whole(Abs(d.m), d.k), Fraction(Abs(d.m), d.k);
      DecimalText(d) == (if d.m < 0 then "-" else "") + whole + (if fraction == "" then "" else "." + fraction)
  {
    hide Whole, Fraction;
  }

  // ------------------------------------------------------ words, lists, objects

  // The texts with commas between them.
  function Commas(texts: seq<string>): string {
    if texts == [] then ""
    else if |texts| == 1 then texts[0]
    else texts[0] + "," + Commas(texts[1..])
  }

  lemma WordTexts()
    ensures Canonicalise(Json.None) == Some("null")
    ensures Canonicalise(Json.Bool(true)) == Some("true") && Canonicalise(Json.Bool(false)) == Some("false")
  {
  }

  lemma {:induction false} ItemTexts(items: seq<Json>, texts: seq<string>)
    requires |texts| == |items| && forall i :: 0 <= i < |items| ==> Canonicalise(items[i]) == Some(texts[i])
    ensures CanonicaliseItems(items) == Some(Commas(texts))
  {
    if items != [] {
      ItemTexts(items[1..], texts[1..]);
    }
  }

  // A list is written as its items' texts, in order, with commas and no blanks.
  lemma ListText(items: seq<Json>, texts: seq<string>)
    requires |texts| == |items| && forall i :: 0 <= i < |items| ==> Canonicalise(items[i]) == Some(texts[i])
    ensures Canonicalise(Json.List(items)) == Some("[" + Commas(texts) + "]")
  {
    ItemTexts(items, texts);
  }

  // The text of a member: its name, as a string is written, a colon, and its value.
  ghost predicate IsMemberText(t: string, p: Entry<Json>) {
    && Canonicalise(Json.Str(p.key)).Some? && Canonicalise(p.value).Some?
    && t == Canonicalise(Json.Str(p.key)).value + ":" + Canonicalise(p.value).value
  }

  lemma {:induction false} MemberTexts(pairs: seq<Entry<Json>>, texts: seq<string>)
    requires |texts| == |pairs| && forall i :: 0 <= i < |pairs| ==> IsMemberText(texts[i], pairs[i])
    ensures CanonicaliseMembers(pairs) == Some(Commas(texts))
  {
    if pairs != [] {
      assert IsMemberText(texts[0], pairs[0]);
      MemberTexts(pairs[1..], texts[1..]);
    }
  }

  lemma {:induction false} SameListing<T(!new)>(s: seq<Entry<T>>, t: seq<Entry<T>>)
    requires DistinctKeys(t) && Keys(s) == Keys(t) && forall p :: p in s ==> p in t
    ensures s == t
  {
    forall i | 0 <= i < |s| ensures s[i] == t[i] {
      assert s[i] in t && Keys(s)[i] == Keys(t)[i];
      var j :| 0 <= j < |t| && t[j] == s[i];
    }
  }

  // Members have one ascending listing.
  lemma OneListing(pairs: seq<Entry<Json>>, sorted: seq<Entry<Json>>)
    requires DistinctKeys(pairs) && Ascending(Keys(sorted)) && DistinctKeys(sorted)
    requires forall p :: p in sorted <==> p in pairs
    ensures SortByKey(pairs) == sorted
  {
    hide KeySort.Ascending;
    var mine := SortByKey(pairs);
    SortedAscending(pairs);
    forall k ensures k in Keys(mine) <==> k in Keys(sorted) {
      if k in Keys(mine) {
        var i :| 0 <= i < |mine| && mine[i].key == k;
        assert mine[i] in sorted;
        var j :| 0 <= j < |sorted| && sorted[j] == mine[i];
        assert Keys(sorted)[j] == k;
      }
      if k in Keys(sorted) {
        var i :| 0 <= i < |sorted| && sorted[i].key == k;
        assert sorted[i] in mine;
        var j :| 0 <= j < |mine| && mine[j] == sorted[i];
        assert Keys(mine)[j] == k;
      }
    }
    AscendingIsUnique(Keys(mine), Keys(sorted));
    SameListing(mine, sorted);
  }

  // An object is written as the texts of its members, in ascending order of their names,
  // however they were inserted. (KeyOrderIsUtf16Order: the order of their UTF-16 code units.)
  lemma ObjectText(pairs: seq<Entry<Json>>, sorted: seq<Entry<Json>>, texts: seq<string>)
    requires DistinctKeys(pairs) && Ascending(Keys(sorted)) && DistinctKeys(sorted)
    requires forall p :: p in sorted <==> p in pairs
    requires |texts| == |sorted| && forall i :: 0 <= i < |sorted| ==> IsMemberText(texts[i], sorted[i])
    ensures Canonicalise(Json.Dict(pairs)) == Some("{" + Commas(texts) + "}")
  {
    hide Canonicalise, IsMemberText;
    OneListing(pairs, sorted);
    MemberTexts(sorted, texts);
    CanonicaliseDict(pairs);
  }
}
