// Writing JSON values as element trees and reading them back (exchange.py), with types
// recovered from member names.

module ElementTree {
  import opened Wrappers
  import opened Values
  import opened KeySort
  import opened Decimals
  import opened PythonValues
  import opened Canonical

  // An element: a name in the profile's namespace, text, and children in order.
  datatype Elem = Elem(tag: string, text: string, children: seq<Elem>)

  const NS := "https://data.sort4circ.eu/vocabulary/"

  const LIST_FIELDS: set<string> :=
    {"technicalFlags", "materialObservationRefs", "basedOnObservations", "inputRefs", "outputRefs"}
  const INTEGER_FIELDS: set<string> := {"recordVersion", "basedOnRecordVersion", "subjectVersion", "attempts"}
  const DECIMAL_FIELDS: set<string> := {"percentage", "value"}
  const BOOLEAN_FIELDS: set<string> := {"separable"}

  // LIST_ITEMS.get(key, "Value")
  function ItemName(key: string): string {
    if key == "technicalFlags" then "TechnicalFlag"
    else if key == "materialObservationRefs" then "MaterialObservationRef"
    else if key == "basedOnObservations" then "ObservationRef"
    else if key == "inputRefs" then "InputRef"
    else if key == "outputRefs" then "OutputRef"
    else "Value"
  }

  // ------------------------------------------------------------------ names

  function Upper(c: char): char {
    if 'a' <= c <= 'z' then (c as int - 32) as char else c
  }

  function Lower(c: char): char {
    if 'A' <= c <= 'Z' then (c as int + 32) as char else c
  }

  function Pascal(name: string): string {
    if name == "" then "" else [Upper(name[0])] + name[1..]
  }

  function Camel(name: string): string {
    if name == "" then "" else [Lower(name[0])] + name[1..]
  }

  function Tag(name: string): string {
    "{" + NS + "}" + name
  }

  // tag.rsplit("}", 1)[-1]
  function LocalName(tag: string): string
    decreases |tag|
  {
    if '}' in tag then LocalName(AfterBrace(tag)) else tag
  }

  function AfterBrace(tag: string): (rest: string)
    ensures tag != "" ==> |rest| < |tag|
  {
    if tag == "" then "" else if tag[0] == '}' then tag[1..] else AfterBrace(tag[1..])
  }

  function KeyOf(e: Elem): string {
    Camel(LocalName(e.tag))
  }

  // Names that survive the trip through a tag.
  predicate GoodKey(key: string) {
    '}' !in key && (key == "" || !('A' <= key[0] <= 'Z'))
  }

  lemma {:induction false} AfterBraceOfConcat(a: string, name: string)
    requires '}' !in a
    ensures AfterBrace(a + "}" + name) == name
  {
    var t := a + "}" + name;
    if a == "" {
      assert t[0] == '}' && t[1..] == name;
    } else {
      assert t[0] == a[0] && a[0] in a && t[1..] == a[1..] + "}" + name;
      AfterBraceOfConcat(a[1..], name);
    }
  }

  lemma LocalNameOfTag(name: string)
    ensures LocalName(Tag(name)) == LocalName(name)
  {
    var head := "{" + NS;
    assert Tag(name) == head + "}" + name;
    assert '}' !in head;
    AfterBraceOfConcat(head, name);
    assert Tag(name)[|head|] == '}';
  }

  lemma {:induction false} LocalNameHasNoBrace(tag: string)
    ensures '}' !in LocalName(tag)
    ensures '}' !in tag ==> LocalName(tag) == tag
    decreases |tag|
  {
    if '}' in tag {
      LocalNameHasNoBrace(AfterBrace(tag));
    }
  }

  // Every name that is read back is good.
  lemma KeyOfIsGood(e: Elem)
    ensures GoodKey(KeyOf(e))
  {
    var name := LocalName(e.tag);
    LocalNameHasNoBrace(e.tag);
    if name != "" {
      assert forall i :: 0 <= i < |name| ==> name[i] in name;
      assert forall c :: c in Camel(name) ==> c == Lower(name[0]) || c in name;
    }
  }

  // A name is read back as written exactly when it is good.
  lemma KeyRoundTrip(key: string, text: string, children: seq<Elem>)
    ensures KeyOf(Elem(Tag(Pascal(key)), text, children)) == key <==> GoodKey(key)
  {
    var e := Elem(Tag(Pascal(key)), text, children);
    KeyOfIsGood(e);
    LocalNameOfTag(Pascal(key));
    if GoodKey(key) {
      PascalHasNoBrace(key);
      LocalNameHasNoBrace(Pascal(key));
    }
  }

  lemma PascalHasNoBrace(key: string)
    requires GoodKey(key)
    ensures '}' !in Pascal(key)
    ensures Camel(Pascal(key)) == key
  {
    if key != "" {
      assert key[0] in key && forall c :: c in key[1..] ==> c in key;
      UpperThenLower(key[0], key[1..]);
      assert key == [key[0]] + key[1..];
    }
  }

  lemma UpperThenLower(c: char, rest: string)
    requires c != '}' && '}' !in rest && !('A' <= c <= 'Z')
    ensures '}' !in [Upper(c)] + rest && Lower(Upper(c)) == c
    ensures ([Upper(c)] + rest)[0] == Upper(c) && ([Upper(c)] + rest)[1..] == rest
  {
  }

  // --------------------------------------------------------------- scalars

  const TEN_TO_16 := 10_000_000_000_000_000

  // The floats Python has: below 10^16 every whole one spells itself, and none that is not
  // whole lies beyond.
  predicate Representable(num: PythonValues.Number) {
    match num
    case WholeFloat(n, spelled) =>
      if -TEN_TO_16 < n < TEN_TO_16 then spelled == n else spelled <= -TEN_TO_16 || spelled >= TEN_TO_16
    case FractionFloat(d) => Canonical.PointPosition(d) <= 16
    case _ => true
  }

  // At least two digits of exponent.
  function ExponentDigits(n: nat): (s: string)
    ensures s != "" && AllDigits(s)
  {
    if n < 10 then "0" + Digits(n) else Digits(n)
  }

  // One digit, a point if more follow, the exponent.
  function Exponential(negative: bool, digits: string, exponent: string): string
    requires digits != ""
  {
    (if negative then "-" else "")
    + ((if |digits| == 1 then digits else digits[..1] + "." + digits[1..]) + exponent)
  }

  // The form of a float below 0.0001.
  function SmallText(d: PythonValues.NonInteger): string
    requires Canonical.PointPosition(d) <= -4
  {
    Exponential(d.m < 0, Digits(Abs(d.m)), "e-" + ExponentDigits(1 - Canonical.PointPosition(d)))
  }

  // The digits without the zeros at their end.
  function Significant(digits: string): (s: string)
    ensures |s| <= |digits| && digits == s + Zeros(|digits| - |s|)
    ensures digits != "" && digits[0] != '0' ==> s != ""
  {
    if digits != "" && digits[|digits| - 1] == '0' then
      var front := digits[..|digits| - 1];
      var s := Significant(front);
      assert digits == front + "0" && Zeros(|front| - |s|) + "0" == Zeros(|digits| - |s|);
      assert front != "" ==> front[0] == digits[0];
      s
    else digits
  }

  // The form of a whole float of 10^16 or more.
  function LargeText(n: int): string
    requires n != 0
  {
    var digits := Digits(Abs(n));
    Exponential(n < 0, Significant(digits), "e+" + ExponentDigits(|digits| - 1))
  }

  // str(value)
  function NumberString(num: PythonValues.Number): string {
    match num
    case Int(n) => IntText(n)
    case WholeFloat(_, spelled) =>
      if -TEN_TO_16 < spelled < TEN_TO_16 then IntText(spelled) + ".0" else LargeText(spelled)
    case FractionFloat(d) => if Canonical.PointPosition(d) <= -4 then SmallText(d) else DecimalText(d)
    case NonFinite => "nan" // or "inf" or "-inf": no number either
  }

  // The text of a value that is neither an object nor a list. (Inside a list, an inner
  // list is written as its Python display, which nothing reads back.)
  function ScalarText(v: Json): string {
    match v
    case None => "None"
    case Bool(b) => if b then "true" else "false"
    case Number(num) => NumberString(num)
    case Str(s) => s
    case List(_) => "[...]"
    case Dict(_) => "{...}"
  }

  // m / 10^k in lowest terms.
  function Lowest(m: int, k: nat): (d: Decimal)
    decreases k
  {
    if k > 0 && m % 10 == 0 then Lowest(m / 10, k - 1) else RawDecimal(m, k)
  }

  // The sign, the digits before and after the point, and what follows.
  function ReadSigned(text: string): Option<(bool, string, string, string)> {
    var negative := text != "" && text[0] == '-';
    var (whole, fraction, rest) :- SplitNumber(if negative then text[1..] else text);
    Some((negative, whole, fraction, rest))
  }

  function Signed(negative: bool, n: int): int { if negative then -n else n }

  function ReadExponent(rest: string): Option<int> {
    if rest == "" then Some(0)
    else if rest[0] != 'e' && rest[0] != 'E' then Option.None
    else
      var signed := |rest| > 1 && rest[1] in {'-', '+'};
      var digits := if signed then rest[2..] else rest[1..];
      if digits == "" || !AllDigits(digits) then Option.None
      else Some(Signed(signed && rest[1] == '-', NatOf(digits)))
  }

  // m / 10^places
  function Scaled(m: int, places: int): Decimal {
    if places >= 0 then Lowest(m, places) else RawDecimal(m * TenTo(-places), 0)
  }

  // int(text)
  function ReadInt(text: string): Option<Json> {
    var (negative, whole, fraction, rest) :- ReadSigned(text);
    if '.' in text || rest != "" then Option.None else Some(Json.Number(Int(Signed(negative, NatOf(whole)))))
  }

  // Decimal(text), as an int when it is whole and as a float otherwise.
  function ReadDecimal(text: string): Option<Json> {
    var (negative, whole, fraction, rest) :- ReadSigned(text);
    var exponent :- ReadExponent(rest);
    var d := Scaled(Signed(negative, NatOf(whole + fraction)), |fraction| - exponent);
    Some(Json.Number(if d.k == 0 then Int(d.m) else FractionFloat(d)))
  }

  function ParseScalar(key: string, text: string): Option<Json> {
    if key in INTEGER_FIELDS then ReadInt(text)
    else if key in DECIMAL_FIELDS then ReadDecimal(text)
    else if key in BOOLEAN_FIELDS then Some(Json.Bool(text == "true"))
    else Some(Json.Str(text))
  }

  // ------------------------------------------------------- writing, reading

  function WriteValue(key: string, v: Json): Elem
    decreases v
  {
    match v
    case Dict(pairs) => Elem(Tag(Pascal(key)), "", WriteMembers(pairs))
    case List(items) => Elem(Tag(Pascal(key)), "", WriteItems(ItemName(key), items))
    case _ => Elem(Tag(Pascal(key)), ScalarText(v), [])
  }

  function WriteMembers(pairs: seq<Entry<Json>>): (es: seq<Elem>)
    ensures |es| == |pairs|
    decreases pairs
  {
    if pairs == [] then [] else [WriteValue(pairs[0].key, pairs[0].value)] + WriteMembers(pairs[1..])
  }

  function WriteItems(name: string, items: seq<Json>): (es: seq<Elem>)
    ensures |es| == |items|
    ensures forall i :: 0 <= i < |es| ==> es[i].tag == Tag(name)
    decreases items
  {
    if items == [] then [] else [WriteItem(name, items[0])] + WriteItems(name, items[1..])
  }

  function WriteItem(name: string, item: Json): (e: Elem)
    ensures e.tag == Tag(name)
    decreases item
  {
    match item
    case Dict(pairs) => Elem(Tag(name), "", WriteMembers(pairs))
    case _ => Elem(Tag(name), ScalarText(item), [])
  }

  function LocalNames(es: seq<Elem>): (names: seq<string>)
    ensures |names| == |es|
    ensures forall i :: 0 <= i < |es| ==> names[i] == LocalName(es[i].tag)
  {
    seq(|es|, i requires 0 <= i < |es| => LocalName(es[i].tag))
  }

  predicate Repeats(names: seq<string>) {
    exists i, j :: 0 <= i < j < |names| && names[i] == names[j]
  }

  predicate ReadsAsList(e: Elem) {
    KeyOf(e) in LIST_FIELDS || Repeats(LocalNames(e.children))
  }

  // An element is a list if its name says so or two children share a name, an object if it
  // has children otherwise, and a scalar if it has none.
  function ReadValue(e: Elem): Option<Json> {
    var key := KeyOf(e);
    if e.children == [] then
      if key in LIST_FIELDS then Some(List([])) else ParseScalar(key, e.text)
    else if ReadsAsList(e) then
      var items :- ReadItems(e.children);
      Some(List(items))
    else
      var pairs :- ReadMembers(e.children);
      Some(Dict(pairs))
  }

  function ReadItems(es: seq<Elem>): (r: Option<seq<Json>>)
    ensures r.Some? ==> |r.value| == |es|
  {
    if es == [] then Some([])
    else
      var first :- ReadValue(es[0]);
      var rest :- ReadItems(es[1..]);
      Some([first] + rest)
  }

  function ReadMembers(es: seq<Elem>): (r: Option<seq<Entry<Json>>>)
    ensures r.Some? ==> |r.value| == |es| && forall i :: 0 <= i < |es| ==> r.value[i].key == KeyOf(es[i])
  {
    if es == [] then Some([])
    else
      var first :- ReadValue(es[0]);
      var rest :- ReadMembers(es[1..]);
      Some([Entry(KeyOf(es[0]), first)] + rest)
  }
}
