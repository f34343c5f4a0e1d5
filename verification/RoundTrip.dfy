// Which JSON values survive being written as elements and read back: exactly those whose
// names and types the names in the profile can restore.

module RoundTrip {
  import opened Wrappers
  import opened Values
  import opened KeySort
  import opened Decimals
  import opened PythonValues
  import Canonical
  import opened ElementTree

  // What was read stands for the same value as what was written.
  ghost predicate SameValue(read: Option<Json>, v: Json) {
    read.Some? && Denote(read.value) == Denote(v)
  }

  // -------------------------------------------------- what can be restored

  // Its numbers are numbers Python has.
  ghost predicate Pythonic(v: Json) {
    match v
    case Number(num) => Representable(num)
    case List(items) => forall x :: x in items ==> Pythonic(x)
    case Dict(pairs) => forall p :: p in pairs ==> Pythonic(p.value)
    case _ => true
  }

  // A number whose text spells its value.
  predicate Exact(num: PythonValues.Number) {
    match num
    case WholeFloat(n, spelled) => spelled == n
    case NonFinite => false
    case _ => true
  }

  // A number whose text has no exponent.
  predicate Unscaled(num: PythonValues.Number) {
    match num
    case Int(_) => true
    case WholeFloat(n, _) => -TEN_TO_16 < n < TEN_TO_16
    case FractionFloat(d) => Canonical.PointPosition(d) > -4
    case NonFinite => false
  }

  // A scalar of the type its name announces.
  predicate GoodScalar(key: string, v: Json) {
    match v
    case Number(num) => (key in INTEGER_FIELDS && num.Int?) || (key in DECIMAL_FIELDS && Exact(num))
    case Bool(_) => key in BOOLEAN_FIELDS
    case Str(_) => key !in INTEGER_FIELDS && key !in DECIMAL_FIELDS && key !in BOOLEAN_FIELDS
    case _ => false
  }

  // Objects are not empty; empty lists, and lists of one, need a list name; list items are
  // objects or scalars their item name announces.
  predicate GoodValue(key: string, v: Json)
    decreases v, 1
  {
    match v
    case Dict(pairs) => key !in LIST_FIELDS && pairs != [] && GoodMembers(pairs)
    case List(items) =>
      (key in LIST_FIELDS || |items| >= 2)
      && forall x :: x in items ==> !x.List? && GoodValue(Camel(ItemName(key)), x)
    case _ => key !in LIST_FIELDS && GoodScalar(key, v)
  }

  predicate GoodMembers(pairs: seq<Entry<Json>>)
    decreases pairs, 0
  {
    forall p :: p in pairs ==> GoodKey(p.key) && GoodValue(p.key, p.value)
  }

  // ----------------------------------------------------------------- scalars

  lemma SplitWholeText(n: nat, k: nat)
    ensures SplitNumber(UnsignedText(n, k)) == Some((Whole(n, k), Fraction(n, k), ""))
  {
    SplitUnsignedText(n, k, "");
    assert UnsignedText(n, k) + "" == UnsignedText(n, k);
  }

  lemma ReadSignedUnsigned(u: string, whole: string, fraction: string, rest: string)
    requires u != "" && u[0] != '-' && SplitNumber(u) == Some((whole, fraction, rest))
    ensures ReadSigned(u) == Some((false, whole, fraction, rest))
    ensures ReadSigned("-" + u) == Some((true, whole, fraction, rest))
  {
    assert ("-" + u)[0] == '-' && ("-" + u)[1..] == u;
  }

  lemma ReadSignedText(d: Decimal)
    ensures ReadSigned(DecimalText(d)) == Some((d.m < 0, Whole(Abs(d.m), d.k), Fraction(Abs(d.m), d.k), ""))
  {
    hide SplitNumber, UnsignedText, Whole, Fraction, ReadSigned;
    var text := UnsignedText(Abs(d.m), d.k);
    SplitWholeText(Abs(d.m), d.k);
    ReadSignedUnsigned(text, Whole(Abs(d.m), d.k), Fraction(Abs(d.m), d.k), "");
    assert "" + text == text;
  }

  lemma DigitsOf(m: nat, k: nat)
    ensures NatOf(Whole(m, k) + Fraction(m, k)) == m
    ensures k == 0 ==> Whole(m, k) + "" == Whole(m, k) && NatOf(Whole(m, k)) == m
  {
    NatOfPaddedDigits(m, k);
    assert Whole(m, k) + Fraction(m, k) == Padded(m, k);
    assert k == 0 ==> Whole(m, k) == Padded(m, k);
  }

  lemma ReadDecimalText(d: Decimal)
    ensures ReadDecimal(DecimalText(d)) == Some(Json.Number(if d.k == 0 then Int(d.m) else FractionFloat(d)))
  {
    ReadSignedText(d);
    DigitsOf(Abs(d.m), d.k);
  }

  lemma IntTextHasNoPoint(n: int)
    ensures '.' !in IntText(n)
  {
    assert AllDigits(Whole(Abs(n), 0));
    assert UnsignedText(Abs(n), 0) == Whole(Abs(n), 0);
  }

  lemma ReadIntText(n: int)
    ensures ReadInt(IntText(n)) == Some(Json.Number(Int(n)))
  {
    ReadSignedText(RawDecimal(n, 0));
    DigitsOf(Abs(n), 0);
    IntTextHasNoPoint(n);
  }

  lemma TimesTen(whole: string)
    ensures NatOf(whole + "0") == 10 * NatOf(whole)
  {
    assert (whole + "0")[..|whole|] == whole;
  }

  lemma PointZeroSigned(n: int)
    ensures ReadSigned(IntText(n) + ".0") == Some((n < 0, Whole(Abs(n), 0), "0", ""))
  {
    hide SplitNumber, Whole, ReadSigned;
    var whole := Whole(Abs(n), 0);
    SplitFixed(whole, "0", "");
    ReadSignedUnsigned(whole + "." + "0" + "", whole, "0", "");
    PointZeroText(n);
  }

  lemma ReadPointZero(n: int)
    ensures ReadDecimal(IntText(n) + ".0") == Some(Json.Number(Int(n)))
  {
    hide SplitNumber, Whole, ReadSigned, NatOf, IntText;
    var whole := Whole(Abs(n), 0);
    PointZeroSigned(n);
    DigitsOf(Abs(n), 0);
    TimesTen(whole);
    LowestTens(n);
    assert Signed(n < 0, 10 * Abs(n)) == 10 * n;
  }

  lemma LowestTens(n: int)
    ensures Lowest(10 * n, 1) == RawDecimal(n, 0)
  {
    assert (10 * n) % 10 == 0 && (10 * n) / 10 == n;
  }

  lemma PointZeroText(n: int)
    ensures var u := Whole(Abs(n), 0) + "." + "0" + "";
      IntText(n) + ".0" == (if n < 0 then "-" + u else u) && u[0] != '-'
  {
    hide Whole;
    assert UnsignedText(Abs(n), 0) == Whole(Abs(n), 0);
  }

  lemma PointInFraction(d: NonInteger)
    ensures '.' in DecimalText(d)
  {
    var whole, fraction := Whole(Abs(d.m), d.k), Fraction(Abs(d.m), d.k);
    var sign := if d.m < 0 then "-" else "";
    assert DecimalText(d)[|sign| + |whole|] == '.';
  }

  // A small float is read back from its form with an exponent.
  lemma SmallSigned(d: NonInteger)
    requires Canonical.PointPosition(d) <= -4
    ensures var digits, rest := Digits(Abs(d.m)), "e-" + ExponentDigits(1 - Canonical.PointPosition(d));
      && ReadSigned(SmallText(d)) == Some((d.m < 0, digits[..1], digits[1..], rest))
      && rest != "" && ReadExponent(rest) == Some(Canonical.PointPosition(d) - 1) && digits[..1] + digits[1..] == digits
  {
    hide ReadSigned, ReadExponent, ExponentDigits, Canonical.PointPosition, Digits, AllDigits, Exponential;
    var n := 1 - Canonical.PointPosition(d);
    ReadExponentDigits("e-", n);
    SplitExponential(d.m < 0, Digits(Abs(d.m)), "e-" + ExponentDigits(n));
  }

  lemma ReadSmallText(d: NonInteger)
    requires Canonical.PointPosition(d) <= -4
    ensures ReadDecimal(SmallText(d)) == Some(Json.Number(FractionFloat(d)))
    ensures ReadInt(SmallText(d)) == Option.None
  {
    hide ReadSigned, ReadExponent, ExponentDigits, Canonical.PointPosition, Scaled, Digits, NatOf, SmallText;
    SmallSigned(d);
    NatOfDigits(Abs(d.m));
    ScaledBack(d);
  }

  lemma SplitExponential(negative: bool, digits: string, rest: string)
    requires digits != "" && AllDigits(digits) && EndsNumber(rest)
    ensures ReadSigned(Exponential(negative, digits, rest)) == Some((negative, digits[..1], digits[1..], rest))
    ensures digits[..1] + digits[1..] == digits
  {
    hide SplitNumber, AllDigits;
    var mantissa := if |digits| == 1 then digits else digits[..1] + "." + digits[1..];
    SplitMantissa(digits, rest);
    ReadSignedUnsigned(mantissa + rest, digits[..1], digits[1..], rest);
    assert "" + (mantissa + rest) == mantissa + rest;
  }

  lemma LargeSigned(n: int)
    requires n != 0
    ensures var all := Digits(Abs(n)); var digits, rest := Significant(all), "e+" + ExponentDigits(|all| - 1);
      && digits != "" && ReadSigned(LargeText(n)) == Some((n < 0, digits[..1], digits[1..], rest))
      && rest != "" && ReadExponent(rest) == Some(|all| - 1) && digits[..1] + digits[1..] == digits
  {
    hide ReadSigned, ReadExponent, ExponentDigits, AllDigits, Exponential, Significant, Digits;
    var all := Digits(Abs(n));
    SignificantDigits(all);
    ReadExponentDigits("e+", |all| - 1);
    SplitExponential(n < 0, Significant(all), "e+" + ExponentDigits(|all| - 1));
  }

  // A large one too, as the number it spells.
  lemma ReadLargeText(n: int)
    requires n != 0
    ensures ReadDecimal(LargeText(n)) == Some(Json.Number(Int(n)))
    ensures ReadInt(LargeText(n)) == Option.None
  {
    hide ReadSigned, ReadExponent, ExponentDigits, Scaled, NatOf, LargeText, Significant, Digits;
    var all := Digits(Abs(n));
    var digits := Significant(all);
    LargeSigned(n);
    SignificantDigits(all);
    NatOfDigits(Abs(n));
    ScaledUp(Signed(n < 0, NatOf(digits)), |all| - |digits|);
    SignedTimes(n < 0, NatOf(digits), TenTo(|all| - |digits|));
  }

  lemma SignificantDigits(digits: string)
    requires AllDigits(digits)
    ensures AllDigits(Significant(digits))
    ensures NatOf(digits) == NatOf(Significant(digits)) * TenTo(|digits| - |Significant(digits)|)
  {
    hide NatOf, TenTo, Zeros;
    var s := Significant(digits);
    assert forall i :: 0 <= i < |s| ==> s[i] == digits[i];
    TrailingZeros(s, |digits| - |s|);
  }

  lemma {:induction false} TrailingZeros(s: string, n: nat)
    ensures NatOf(s + Zeros(n)) == NatOf(s) * TenTo(n)
  {
    if n == 0 {
      assert s + Zeros(0) == s;
    } else {
      assert s + Zeros(n) == (s + Zeros(n - 1)) + "0";
      TimesTen(s + Zeros(n - 1));
      TrailingZeros(s, n - 1);
    }
  }

  lemma ScaledUp(m: int, places: nat)
    ensures Scaled(m, 0 - places) == RawDecimal(m * TenTo(places), 0)
  {
  }

  lemma SignedTimes(negative: bool, m: int, t: int)
    ensures Signed(negative, m) * t == Signed(negative, m * t)
  {
  }

  lemma SplitMantissa(digits: string, rest: string)
    requires digits != "" && AllDigits(digits) && EndsNumber(rest)
    ensures var mantissa := if |digits| == 1 then digits else digits[..1] + "." + digits[1..];
      SplitNumber(mantissa + rest) == Some((digits[..1], digits[1..], rest)) && (mantissa + rest)[0] != '-'
  {
    hide SplitNumber;
    if |digits| == 1 {
      SplitWhole(digits, rest);
      assert digits[..1] == digits && digits[1..] == "";
    } else {
      SplitFixed(digits[..1], digits[1..], rest);
    }
  }

  lemma ReadExponentDigits(head: string, n: nat)
    requires head == "e-" || head == "e+"
    ensures var rest := head + ExponentDigits(n);
      EndsNumber(rest) && rest != "" && ReadExponent(rest) == Some(if head == "e-" then 0 - n else n)
  {
    var rest := head + ExponentDigits(n);
    assert rest[2..] == ExponentDigits(n);
    NatOfDigits(n);
    if n < 10 {
      assert Zeros(1) + Digits(n) == "0" + Digits(n);
      NatOfPadded(1, Digits(n));
    }
  }

  lemma ScaledBack(d: NonInteger)
    ensures Scaled(d.m, |Digits(Abs(d.m))| - 1 + (1 - Canonical.PointPosition(d))) == d
  {
  }

  lemma FractionRead(d: NonInteger)
    requires Canonical.PointPosition(d) <= 16
    ensures ReadDecimal(NumberString(FractionFloat(d))) == Some(Json.Number(FractionFloat(d)))
    ensures ReadInt(NumberString(FractionFloat(d))) == Option.None
  {
    hide ReadDecimal, ReadInt, DecimalText, SmallText, Canonical.PointPosition;
    if Canonical.PointPosition(d) <= -4 {
      ReadSmallText(d);
    } else {
      ReadDecimalText(d);
      PointInFraction(d);
      PointRejected(DecimalText(d));
    }
  }

  // A whole float is read as the number it spells.
  lemma WholeRead(n: int, spelled: int)
    ensures ReadDecimal(NumberString(WholeFloat(n, spelled))) == Some(Json.Number(Int(spelled)))
    ensures ReadInt(NumberString(WholeFloat(n, spelled))) == Option.None
  {
    hide ReadDecimal, ReadInt, DecimalText, LargeText;
    if -TEN_TO_16 < spelled < TEN_TO_16 {
      ReadPointZero(spelled);
      assert (IntText(spelled) + ".0")[|IntText(spelled)|] == '.';
      PointRejected(IntText(spelled) + ".0");
    } else {
      ReadLargeText(spelled);
    }
  }

  lemma NonFiniteText()
    ensures NumberString(NonFinite) == "nan"
  {
  }

  lemma NothingRead()
    ensures ReadDecimal("nan") == ReadInt("nan") == Option.None
  {
  }

  lemma NumberRoundTrip(key: string, num: PythonValues.Number)
    requires Representable(num)
    ensures SameValue(ParseScalar(key, NumberString(num)), Json.Number(num)) <==> GoodScalar(key, Json.Number(num))
  {
    hide ReadDecimal, ReadInt, NumberString, DecimalText;
    match num
    case Int(n) =>
      IntRead(n);
    case WholeFloat(n, spelled) =>
      WholeRead(n, spelled);
    case FractionFloat(d) =>
      FractionRead(d);
    case NonFinite =>
      NothingRead();
      assert NumberString(NonFinite) == "nan" by { NonFiniteText(); }
  }

  lemma IntRead(n: int)
    ensures ReadInt(NumberString(Int(n))) == ReadDecimal(NumberString(Int(n))) == Some(Json.Number(Int(n)))
  {
    hide ReadDecimal, ReadInt, DecimalText;
    ReadIntText(n);
    ReadDecimalText(RawDecimal(n, 0));
  }

  lemma PointRejected(text: string)
    requires '.' in text
    ensures ReadInt(text) == Option.None
  {
    hide SplitNumber;
  }

  // A scalar is restored exactly when it has the type its name announces.
  lemma ScalarRoundTrip(key: string, v: Json)
    requires !v.Dict? && !v.List? && Pythonic(v)
    ensures SameValue(ParseScalar(key, ScalarText(v)), v) <==> GoodScalar(key, v)
  {
    hide SplitNumber, ReadSigned;
    if v.Number? {
      NumberRoundTrip(key, v.num);
    }
  }

  lemma ScalarIsFlat(key: string, text: string)
    ensures ParseScalar(key, text).Some? ==>
              var v := Denote(ParseScalar(key, text).value); !v.Arr? && !v.Obj?
  {
    hide SplitNumber, ReadSigned;
  }

  // ----------------------------------------------- elements, one by one

  lemma {:induction false} WrittenMember(pairs: seq<Entry<Json>>, i: nat)
    requires i < |pairs|
    ensures WriteMembers(pairs)[i] == WriteValue(pairs[i].key, pairs[i].value)
  {
    if i > 0 { WrittenMember(pairs[1..], i - 1); }
  }

  lemma {:induction false} WrittenItem(name: string, items: seq<Json>, i: nat)
    requires i < |items|
    ensures WriteItems(name, items)[i] == WriteItem(name, items[i])
  {
    if i > 0 { WrittenItem(name, items[1..], i - 1); }
  }

  lemma {:induction false} ReadMember(es: seq<Elem>)
    ensures ReadMembers(es).Some? <==> forall i :: 0 <= i < |es| ==> ReadValue(es[i]).Some?
    ensures ReadMembers(es).Some? ==> forall i :: 0 <= i < |es| ==>
              ReadMembers(es).value[i] == Entry(KeyOf(es[i]), ReadValue(es[i]).value)
  {
    hide ReadValue, KeyOf;
    if es != [] {
      ReadMember(es[1..]);
      assert forall i :: 0 < i < |es| ==> es[i] == es[1..][i - 1];
    }
  }

  lemma {:induction false} ReadItem(es: seq<Elem>)
    ensures ReadItems(es).Some? <==> forall i :: 0 <= i < |es| ==> ReadValue(es[i]).Some?
    ensures ReadItems(es).Some? ==> forall i :: 0 <= i < |es| ==> ReadItems(es).value[i] == ReadValue(es[i]).value
  {
    hide ReadValue;
    if es != [] {
      ReadItem(es[1..]);
      assert forall i :: 0 < i < |es| ==> es[i] == es[1..][i - 1];
    }
  }

  // ------------------------------------------------------------------- lists

  // No item name is a list name.
  lemma ItemKey(key: string)
    ensures Camel(ItemName(key)) !in LIST_FIELDS
  {
    var c := Camel(ItemName(key));
    assert (|c|, c[0]) in {(13, 't'), (22, 'm'), (14, 'o'), (8, 'i'), (9, 'o'), (5, 'v')};
    assert forall f :: f in LIST_FIELDS ==>
             f != "" && (|f|, f[0]) in {(14, 't'), (23, 'm'), (19, 'b'), (9, 'i'), (10, 'o')};
  }

  lemma ItemNameHasNoBrace(key: string)
    ensures '}' !in ItemName(key)
  {
  }

  lemma ItemTagKey(key: string, text: string, children: seq<Elem>)
    ensures var k := KeyOf(Elem(Tag(ItemName(key)), text, children));
      k == Camel(ItemName(key)) && k !in LIST_FIELDS
  {
    hide ItemName, Camel;
    ItemKey(key);
    ItemNameHasNoBrace(key);
    LocalNameOfTag(ItemName(key));
    LocalNameHasNoBrace(ItemName(key));
  }

  lemma ItemsRead(name: string, items: seq<Json>)
    ensures (ReadItems(WriteItems(name, items)).Some?
             && DenoteItems(ReadItems(WriteItems(name, items)).value) == DenoteItems(items))
            <==> forall i :: 0 <= i < |items| ==> SameValue(ReadValue(WriteItem(name, items[i])), items[i])
  {
    hide ReadValue, WriteItem, Denote;
    var es := WriteItems(name, items);
    ReadItem(es);
    forall i | 0 <= i < |items| ensures es[i] == WriteItem(name, items[i]) { WrittenItem(name, items, i); }
    if ReadItems(es).Some? {
      var read := ReadItems(es).value;
      assert DenoteItems(read) == DenoteItems(items)
          <==> forall i :: 0 <= i < |items| ==> DenoteItems(read)[i] == DenoteItems(items)[i];
    }
  }

  lemma WrittenNames(name: string, items: seq<Json>)
    ensures Repeats(LocalNames(WriteItems(name, items))) <==> |items| >= 2
  {
    hide WriteItem;
    var names := LocalNames(WriteItems(name, items));
    if |items| >= 2 {
      assert names[0] == names[1];
    }
  }

  lemma ReadsListWhen(key: string, items: seq<Json>)
    requires GoodKey(key)
    ensures var e := WriteValue(key, List(items));
      KeyOf(e) == key && e.children == WriteItems(ItemName(key), items)
      && (ReadsAsList(e) <==> key in LIST_FIELDS || |items| >= 2)
  {
    hide KeyOf, GoodKey, ItemName, Repeats, LocalNames;
    KeyRoundTrip(key, "", WriteItems(ItemName(key), items));
    WrittenNames(ItemName(key), items);
  }

  // The ways an element can be read.
  lemma ReadEmpty(e: Elem)
    requires e.children == []
    ensures ReadValue(e) == if KeyOf(e) in LIST_FIELDS then Some(List([])) else ParseScalar(KeyOf(e), e.text)
  {
    hide KeyOf, ParseScalar;
  }

  lemma ReadList(e: Elem)
    requires e.children != [] && ReadsAsList(e)
    ensures ReadValue(e) == var items :- ReadItems(e.children); Some(List(items))
  {
    hide KeyOf, ReadsAsList;
  }

  lemma ReadObject(e: Elem)
    requires e.children != [] && !ReadsAsList(e)
    ensures ReadValue(e) == var pairs :- ReadMembers(e.children); Some(Dict(pairs))
  {
    hide KeyOf, ReadsAsList;
  }

  // How a list is read back, by its name and its length.
  lemma ListRead(key: string, items: seq<Json>)
    requires GoodKey(key)
    ensures var es := WriteItems(ItemName(key), items);
      SameValue(ReadValue(WriteValue(key, List(items))), List(items))
      <==> (key in LIST_FIELDS || |items| >= 2)
           && ReadItems(es).Some? && DenoteItems(ReadItems(es).value) == DenoteItems(items)
  {
    hide KeyOf, GoodKey, ItemName, ReadsAsList, WriteValue, WriteItems, ReadValue, ReadItems, ReadMembers, ParseScalar;
    var e := WriteValue(key, List(items));
    ReadsListWhen(key, items);
    if items == [] {
      EmptyLists(key);
      ScalarIsFlat(key, e.text);
      ReadEmpty(e);
    } else if ReadsAsList(e) {
      ReadList(e);
    } else {
      ReadObject(e);
    }
  }

  lemma EmptyLists(key: string)
    ensures ReadItems(WriteItems(ItemName(key), [])) == Some([]) && WriteItems(ItemName(key), []) == []
  {
    hide ItemName;
  }

  lemma {:induction false} ListRoundTrip(key: string, v: Json)
    requires v.List? && WellFormed(v) && Pythonic(v) && GoodKey(key)
    ensures SameValue(ReadValue(WriteValue(key, v)), v) <==> GoodValue(key, v)
    decreases v, 1
  {
    hide WriteItem, ReadValue, SameValue, ItemName, GoodKey;
    var name, items := ItemName(key), v.items;
    ListRead(key, items);
    ItemsRead(name, items);
    forall i | 0 <= i < |items|
      ensures SameValue(ReadValue(WriteItem(name, items[i])), items[i])
              <==> !items[i].List? && GoodValue(Camel(name), items[i])
    {
      ItemRoundTrip(key, items[i]);
    }
  }

  lemma {:induction false} ItemRoundTrip(key: string, item: Json)
    requires WellFormed(item) && Pythonic(item)
    ensures SameValue(ReadValue(WriteItem(ItemName(key), item)), item)
            <==> !item.List? && GoodValue(Camel(ItemName(key)), item)
    decreases item, 2
  {
    hide ItemName, KeyOf, GoodMembers, GoodScalar, ReadMembers, ReadItems, ReadsAsList, ParseScalar;
    var e := WriteItem(ItemName(key), item);
    ItemTagKey(key, e.text, e.children);
    if item.Dict? {
      ObjectRoundTrip(e, item);
    } else if item.List? {
      ScalarIsFlat(KeyOf(e), e.text);
    } else {
      ScalarRoundTrip(Camel(ItemName(key)), item);
    }
  }

  // ----------------------------------------------------------------- objects

  lemma DenotedKeys(pairs: seq<Entry<Json>>, k: string)
    ensures k in DenotePairs(pairs) <==> exists i :: 0 <= i < |pairs| && pairs[i].key == k
  {
  }

  lemma SamePairs(a: seq<Entry<Json>>, b: seq<Entry<Json>>)
    requires |a| == |b| && DistinctKeys(a) && forall i :: 0 <= i < |a| ==> a[i].key == b[i].key
    ensures DenotePairs(a) == DenotePairs(b) <==> forall i :: 0 <= i < |a| ==> Denote(a[i].value) == Denote(b[i].value)
  {
    hide Denote, DenotePairs;
    forall i | 0 <= i < |a|
      ensures a[i].key in DenotePairs(a) && DenotePairs(a)[a[i].key] == Denote(a[i].value)
      ensures a[i].key in DenotePairs(b) && DenotePairs(b)[a[i].key] == Denote(b[i].value)
    {
      DenotePair(a, a[i]);
      DenotePair(b, b[i]);
    }
    if forall i :: 0 <= i < |a| ==> Denote(a[i].value) == Denote(b[i].value) {
      forall k ensures (k in DenotePairs(a) <==> k in DenotePairs(b))
                       && (k in DenotePairs(a) ==> DenotePairs(a)[k] == DenotePairs(b)[k]) {
        DenotedKeys(a, k);
        DenotedKeys(b, k);
      }
      assert DenotePairs(a) == DenotePairs(b);
    }
  }

  // The members of an object are restored exactly when each of them is.
  lemma {:induction false} MembersRoundTrip(pairs: seq<Entry<Json>>)
    requires IsDict(pairs) && forall p :: p in pairs ==> WellFormed(p.value) && Pythonic(p.value)
    ensures var read := ReadMembers(WriteMembers(pairs));
      read.Some? && DenotePairs(read.value) == DenotePairs(pairs) <==> GoodMembers(pairs)
    decreases pairs, 0
  {
    hide ReadValue, WriteValue, GoodValue, Denote, DenotePairs, KeyOf;
    var es := WriteMembers(pairs);
    ReadMember(es);
    forall i | 0 <= i < |pairs| ensures es[i] == WriteValue(pairs[i].key, pairs[i].value) { WrittenMember(pairs, i); }
    if i :| 0 <= i < |pairs| && !GoodKey(pairs[i].key) {
      assert pairs[i] in pairs;
      BadKeyLost(es, pairs[i].key);
      DenotedKeys(pairs, pairs[i].key);
    } else {
      forall i | 0 <= i < |pairs|
        ensures KeyOf(es[i]) == pairs[i].key
        ensures SameValue(ReadValue(es[i]), pairs[i].value) <==> GoodValue(pairs[i].key, pairs[i].value)
      {
        assert pairs[i] in pairs;
        WrittenKey(pairs[i].key, pairs[i].value);
        ValueRoundTrip(pairs[i].key, pairs[i].value);
      }
      if ReadMembers(es).Some? {
        SamePairs(pairs, ReadMembers(es).value);
      }
    }
  }

  lemma WrittenKey(key: string, v: Json)
    ensures KeyOf(WriteValue(key, v)) == key <==> GoodKey(key)
  {
    hide KeyOf;
    var e := WriteValue(key, v);
    KeyRoundTrip(key, e.text, e.children);
  }

  lemma BadKeyLost(es: seq<Elem>, key: string)
    requires !GoodKey(key)
    ensures ReadMembers(es).Some? ==> key !in DenotePairs(ReadMembers(es).value)
  {
    hide KeyOf, DenotePairs;
    if ReadMembers(es).Some? {
      DenotedKeys(ReadMembers(es).value, key);
      forall i | 0 <= i < |es| ensures ReadMembers(es).value[i].key != key {
        KeyOfIsGood(es[i]);
      }
    }
  }

  lemma GoodNamesDiffer(pairs: seq<Entry<Json>>)
    requires DistinctKeys(pairs) && forall p :: p in pairs ==> GoodKey(p.key)
    ensures !Repeats(LocalNames(WriteMembers(pairs)))
  {
    hide WriteValue, GoodKey;
    var es := WriteMembers(pairs);
    forall i | 0 <= i < |pairs| ensures Camel(LocalName(es[i].tag)) == pairs[i].key {
      assert pairs[i] in pairs;
      WrittenMember(pairs, i);
      WrittenKey(pairs[i].key, pairs[i].value);
    }
  }

  lemma {:induction false} ObjectRoundTrip(e: Elem, v: Json)
    requires v.Dict? && WellFormed(v) && Pythonic(v) && e.children == WriteMembers(v.pairs)
    ensures SameValue(ReadValue(e), v) <==> KeyOf(e) !in LIST_FIELDS && v.pairs != [] && GoodMembers(v.pairs)
    decreases v, 1
  {
    hide GoodValue, KeyOf, GoodKey, Repeats, ParseScalar, ReadItems;
    ScalarIsFlat(KeyOf(e), e.text);
    MembersRoundTrip(v.pairs);
    if GoodMembers(v.pairs) {
      GoodNamesDiffer(v.pairs);
    }
  }

  // A value written under a good name is read back as the same value exactly when the
  // profile's names determine its type at every depth.
  lemma {:induction false} ValueRoundTrip(key: string, v: Json)
    requires WellFormed(v) && Pythonic(v) && GoodKey(key)
    ensures SameValue(ReadValue(WriteValue(key, v)), v) <==> GoodValue(key, v)
    decreases v, 2
  {
    var e := WriteValue(key, v);
    KeyRoundTrip(key, e.text, e.children);
    match v
    case Dict(_) => ObjectRoundTrip(e, v);
    case List(_) => ListRoundTrip(key, v);
    case _ => ScalarRoundTrip(key, v);
  }
}
