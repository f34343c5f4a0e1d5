// Python values and their deterministic serialisation (canonical.py).

module PythonValues {
  import opened Values
  import opened KeySort

  // A float that is not whole, named by the decimal its shortest repr spells.
  type NonInteger = d: RawDecimal | d.k > 0 && d.m % 10 != 0 witness RawDecimal(5, 1)

  // A whole float is its value together with the whole number its shortest repr spells; from
  // 10^16 on these may differ, for repr then pads with zeros.
  datatype Number = Int(n: int) | WholeFloat(n: int, spelled: int) | FractionFloat(d: NonInteger) | NonFinite

  // What json.loads produces: dictionaries keep their insertion order.
  datatype Json =
    | None
    | Bool(b: bool)
    | Number(num: Number)
    | Str(s: string)
    | List(items: seq<Json>)
    | Dict(pairs: seq<Entry<Json>>)

  ghost predicate IsDict(pairs: seq<Entry<Json>>) {
    DistinctKeys(pairs)
  }

  // Dictionaries have one entry per key, at every depth.
  ghost predicate WellFormed(j: Json) {
    match j
    case List(items) => forall x :: x in items ==> WellFormed(x)
    case Dict(pairs) => IsDict(pairs) && forall p :: p in pairs ==> WellFormed(p.value)
    case _ => true
  }

  function DenoteNumber(num: Number): Value {
    match num
    case Int(n) => IntVal(n)
    case WholeFloat(n, _) => IntVal(n)
    case FractionFloat(d) => Num(d)
    case NonFinite => Value.Null // JSON has no such number; no claim is made of it
  }

  // The value a Python object stands for: order and number type forgotten.
  function Denote(j: Json): Value {
    match j
    case None => Value.Null
    case Bool(b) => Value.Bool(b)
    case Number(num) => DenoteNumber(num)
    case Str(s) => Value.Str(s)
    case List(items) => Arr(DenoteItems(items))
    case Dict(pairs) => Obj(DenotePairs(pairs))
  }

  function DenoteItems(items: seq<Json>): (vs: seq<Value>)
    ensures |vs| == |items|
    ensures forall i :: 0 <= i < |items| ==> vs[i] == Denote(items[i])
  {
    if items == [] then [] else [Denote(items[0])] + DenoteItems(items[1..])
  }

  function DenotePairs(pairs: seq<Entry<Json>>): (m: map<string, Value>)
    ensures forall k :: k in m <==> exists i :: 0 <= i < |pairs| && pairs[i].key == k
  {
    if pairs == [] then map[]
    else
      var rest := DenotePairs(pairs[1..]);
      var m := map[pairs[0].key := Denote(pairs[0].value)] + rest;
      assert forall k :: k in m ==> k == pairs[0].key || (exists i :: 0 <= i < |pairs[1..]| && pairs[1..][i].key == k);
      assert forall i :: 0 < i < |pairs| ==> pairs[i] == pairs[1..][i - 1];
      m
  }

  lemma {:induction false} DenotePair(pairs: seq<Entry<Json>>, p: Entry<Json>)
    requires DistinctKeys(pairs) && p in pairs
    ensures p.key in DenotePairs(pairs) && DenotePairs(pairs)[p.key] == Denote(p.value)
  {
    var rest := pairs[1..];
    if p == pairs[0] {
      assert p.key !in DenotePairs(rest) by {
        assert forall i :: 0 <= i < |rest| ==> rest[i] == pairs[i + 1];
      }
    } else {
      assert pairs == [pairs[0]] + rest;
      DenotePair(rest, p);
    }
  }

  // ------------------------------------------------------------------ size

  function Size(j: Json): (n: nat)
  {
    match j
    case List(items) => 1 + SizeItems(items)
    case Dict(pairs) => 1 + SizePairs(pairs)
    case _ => 1
  }

  function SizeItems(items: seq<Json>): nat {
    if items == [] then 0 else 1 + Size(items[0]) + SizeItems(items[1..])
  }

  function SizePairs(pairs: seq<Entry<Json>>): nat {
    if pairs == [] then 0 else 1 + Size(pairs[0].value) + SizePairs(pairs[1..])
  }

  lemma {:induction false} InsertKeepsSize(p: Entry<Json>, pairs: seq<Entry<Json>>)
    ensures SizePairs(InsertPair(p, pairs)) == SizePairs([p]) + SizePairs(pairs)
  {
    var r := InsertPair(p, pairs);
    if pairs == [] {
      assert r == [p];
    } else if Ordering.KeyLess(p.key, pairs[0].key) {
      assert r[1..] == pairs;
    } else {
      InsertKeepsSize(p, pairs[1..]);
      assert r[1..] == InsertPair(p, pairs[1..]);
    }
  }

  lemma {:induction false} SortKeepsSize(pairs: seq<Entry<Json>>)
    ensures SizePairs(SortByKey(pairs)) == SizePairs(pairs)
  {
    if pairs != [] {
      SortKeepsSize(pairs[1..]);
      InsertKeepsSize(pairs[0], SortByKey(pairs[1..]));
    }
  }
}

module Canonical {
  import opened Wrappers
  import opened Values
  import opened KeySort
  import opened Decimals
  import opened Quoting
  import opened JsonText
  import opened PythonValues

  // --------------------------------------------------------------- numbers

  // Where repr puts the point: this many digits stand before it.
  function PointPosition(d: NonInteger): int {
    |Digits(Abs(d.m))| - d.k
  }

  // repr of a float that is not whole, unless it needs an exponent.
  function Repr(d: NonInteger): Option<string> {
    var point, digits := PointPosition(d), Digits(Abs(d.m));
    var sign := if d.m < 0 then "-" else "";
    if point <= -4 || point > 16 then Option.None
    else if point <= 0 then Some(sign + ("0" + ("." + (Zeros(-point) + digits))))
    else Some(sign + (digits[..point] + ("." + digits[point..])))
  }

  const TEN_TO_21 := 1_000_000_000_000_000_000_000

  function NumberText(num: PythonValues.Number): Option<string> {
    match num
    case Int(n) => Some(IntText(n))
    case WholeFloat(n, _) => if Abs(n) < TEN_TO_21 then Some(IntText(n)) else Option.None
    case FractionFloat(d) => Repr(d)
    case NonFinite => Option.None
  }

  // Numbers the profile serialises: those with a plain decimal representation.
  predicate Plain(num: PythonValues.Number) {
    match num
    case Int(_) => true
    case WholeFloat(n, _) => -TEN_TO_21 < n < TEN_TO_21
    case FractionFloat(d) => -4 < PointPosition(d) <= 16
    case NonFinite => false
  }

  lemma ReprIsDecimalText(d: NonInteger)
    requires -4 < PointPosition(d) <= 16
    ensures Repr(d) == Some(DecimalText(d))
  {
    var m := Abs(d.m);
    var point, digits := PointPosition(d), Digits(m);
    if point <= 0 {
      var s := Zeros(1 - point) + digits;
      assert Padded(m, d.k) == s;
      assert s[..1] == "0";
      assert s[1..] == Zeros(-point) + digits;
    } else {
      assert Padded(m, d.k) == digits;
    }
  }

  lemma NumberTextIsDecimalText(num: PythonValues.Number)
    ensures NumberText(num).Some? <==> Plain(num)
    ensures Plain(num) ==> DenoteNumber(num).Num? && NumberText(num) == Some(DecimalText(DenoteNumber(num).num))
  {
    if num.FractionFloat? && Plain(num) {
      ReprIsDecimalText(num.d);
    }
  }

  // --------------------------------------------------------- serialisation

  // canonicalise(value): None where CanonicalisationError is raised.
  function Canonicalise(j: Json): Option<string>
    decreases Size(j)
  {
    match j
    case None => Some("null")
    case Bool(b) => Some(if b then "true" else "false")
    case Number(num) => NumberText(num)
    case Str(s) => Some(Quote(s, false))
    case List(items) =>
      var t :- CanonicaliseItems(items);
      Some("[" + t + "]")
    case Dict(pairs) =>
      SortKeepsSize(pairs);
      var t :- CanonicaliseMembers(SortByKey(pairs));
      Some("{" + t + "}")
  }

  function CanonicaliseItems(items: seq<Json>): Option<string>
    decreases SizeItems(items)
  {
    if items == [] then Some("")
    else
      var t :- Canonicalise(items[0]);
      if |items| == 1 then Some(t)
      else
        var rest :- CanonicaliseItems(items[1..]);
        Some(t + "," + rest)
  }

  function CanonicaliseMembers(pairs: seq<Entry<Json>>): Option<string>
    decreases SizePairs(pairs)
  {
    if pairs == [] then Some("")
    else
      var t :- Canonicalise(pairs[0].value);
      var member := Quote(pairs[0].key, false) + ":" + t;
      if |pairs| == 1 then Some(member)
      else
        var rest :- CanonicaliseMembers(pairs[1..]);
        Some(member + "," + rest)
  }

  // ---------------------------------------- serialisation writes the canonical text

  // Every number in the value is plain.
  ghost predicate Serialisable(j: Json) {
    match j
    case Number(num) => Plain(num)
    case List(items) => forall x :: x in items ==> Serialisable(x)
    case Dict(pairs) => forall p :: p in pairs ==> Serialisable(p.value)
    case _ => true
  }

  // It succeeds exactly on plain numbers, and what it writes depends only on the value
  // the Python object stands for.
  lemma {:induction false} CanonicaliseIsText(j: Json)
    requires WellFormed(j)
    ensures Canonicalise(j) == if Serialisable(j) then Some(Text(Denote(j))) else Option.None
    decreases Size(j)
  {
    match j
    case Number(num) => NumberTextIsDecimalText(num);
    case List(items) => ItemsAreText(items);
    case Dict(pairs) => DictIsText(pairs);
    case _ =>
  }

  lemma {:induction false} DictIsText(pairs: seq<Entry<Json>>)
    requires WellFormed(Dict(pairs))
    ensures Canonicalise(Dict(pairs))
            == if Serialisable(Dict(pairs)) then Some(Text(Denote(Dict(pairs)))) else Option.None
    decreases SizePairs(pairs), 1
  {
    var sorted, v := SortByKey(pairs), Denote(Dict(pairs));
    SortKeepsSize(pairs);
    assert forall p :: p in sorted ==> WellFormed(p.value);
    forall p | p in sorted ensures p.key in v.members && v.members[p.key] == Denote(p.value) {
      DenotePair(pairs, p);
    }
    MembersAreText(v, sorted);
    SortedDenotedKeys(pairs);
    CanonicaliseDict(pairs);
    TextOfObject(v);
  }

  lemma TextOfObject(v: Value)
    requires v.Obj?
    ensures Text(v) == "{" + MembersText(v, SortedKeys(v.members.Keys)) + "}"
  {
  }

  lemma CanonicaliseDict(pairs: seq<Entry<Json>>)
    ensures Canonicalise(Dict(pairs)) == var t :- CanonicaliseMembers(SortByKey(pairs)); Some("{" + t + "}")
    ensures Serialisable(Dict(pairs)) <==> forall p :: p in SortByKey(pairs) ==> Serialisable(p.value)
  {
  }

  lemma SortedDenotedKeys(pairs: seq<Entry<Json>>)
    requires DistinctKeys(pairs)
    ensures Keys(SortByKey(pairs)) == SortedKeys(DenotePairs(pairs).Keys)
  {
    var sorted := SortByKey(pairs);
    SortedAscending(pairs);
    forall k ensures k in Keys(sorted) <==> k in DenotePairs(pairs) {
      if k in Keys(sorted) {
        var i :| 0 <= i < |sorted| && sorted[i].key == k;
        assert sorted[i] in pairs;
        DenotePair(pairs, sorted[i]);
      }
      if k in DenotePairs(pairs) {
        var i :| 0 <= i < |pairs| && pairs[i].key == k;
        assert pairs[i] in sorted;
        var j :| 0 <= j < |sorted| && sorted[j] == pairs[i];
        assert Keys(sorted)[j] == k;
      }
    }
    SortedKeysAscending(DenotePairs(pairs).Keys);
    AscendingIsUnique(Keys(sorted), SortedKeys(DenotePairs(pairs).Keys));
  }

  lemma {:induction false} ItemsAreText(items: seq<Json>)
    requires forall x :: x in items ==> WellFormed(x)
    ensures CanonicaliseItems(items)
            == if forall x :: x in items ==> Serialisable(x) then Some(ItemsText(DenoteItems(items))) else Option.None
    decreases SizeItems(items)
  {
    if items != [] {
      assert items == [items[0]] + items[1..];
      assert DenoteItems(items)[1..] == DenoteItems(items[1..]);
      CanonicaliseIsText(items[0]);
      ItemsAreText(items[1..]);
    }
  }

  lemma {:induction false} MembersAreText(v: Value, pairs: seq<Entry<Json>>)
    requires v.Obj? && forall p :: p in pairs ==> p.key in v.members && v.members[p.key] == Denote(p.value)
    requires forall p :: p in pairs ==> WellFormed(p.value)
    ensures forall k :: k in Keys(pairs) ==> k in v.members
    ensures CanonicaliseMembers(pairs)
            == if forall p :: p in pairs ==> Serialisable(p.value) then Some(MembersText(v, Keys(pairs)))
               else Option.None
    decreases SizePairs(pairs), 0
  {
    assert forall i :: 0 <= i < |pairs| ==> pairs[i] in pairs;
    if pairs != [] {
      assert pairs == [pairs[0]] + pairs[1..];
      assert Keys(pairs)[1..] == Keys(pairs[1..]);
      CanonicaliseIsText(pairs[0].value);
      MembersAreText(v, pairs[1..]);
    }
  }

  // Two Python values have the same canonical text exactly when they stand for the same
  // JSON value: key order, at any depth, and 1 against 1.0 make no difference, and
  // nothing else is lost.
  lemma SameTextIffSameValue(a: Json, b: Json)
    requires WellFormed(a) && WellFormed(b)
    requires Canonicalise(a).Some? && Canonicalise(b).Some?
    ensures Canonicalise(a) == Canonicalise(b) <==> Denote(a) == Denote(b)
  {
    CanonicaliseIsText(a);
    CanonicaliseIsText(b);
    if Canonicalise(a) == Canonicalise(b) {
      TextInjective(Denote(a), Denote(b));
    }
  }

  // A decoder recovers the value from the text.
  lemma CanonicalTextDecodes(j: Json)
    requires WellFormed(j) && Canonicalise(j).Some?
    ensures Parse(Canonicalise(j).value) == Some(Denote(j))
  {
    CanonicaliseIsText(j);
    DecodeText(Denote(j));
  }

  // Equal numbers need not be equally serialisable: 10^21 is, as an int, and is
  // refused as a float.
  lemma WholeFloatLimit(n: int, spelled: int)
    ensures Denote(Json.Number(Int(n))) == Denote(Json.Number(WholeFloat(n, spelled)))
    ensures Canonicalise(Json.Number(Int(n))) == Canonicalise(Json.Number(WholeFloat(n, spelled)))
            <==> -TEN_TO_21 < n < TEN_TO_21
  {
  }
}
