// The numbers in a document as the XSD wants them (dpp-1.0.0.xsd, checked by to_xml before
// it returns and by from_xml before it reads), and what that check makes sure of.

module Xsd {
  import opened Values
  import opened KeySort
  import opened Decimals
  import opened PythonValues
  import opened ElementTree
  import opened RoundTrip
  import opened Exchange
  import opened Schema
  import Canonical

  // xs:decimal: digits, at most one point, no exponent.
  predicate IsDecimal(text: string) {
    var number := ReadSigned(text);
    number.Some? && number.value.3 == ""
  }

  // xs:integer: and no point.
  predicate IsInteger(text: string) {
    IsDecimal(text) && '.' !in text
  }

  // The names of integer type, and of decimal type, are the same in the XSD and in the code.
  predicate NumbersValid(e: Elem) {
    && (KeyOf(e) in INTEGER_FIELDS ==> IsInteger(e.text))
    && (KeyOf(e) in DECIMAL_FIELDS ==> IsDecimal(e.text))
    && forall child :: child in e.children ==> NumbersValid(child)
  }

  predicate NumbersValidIn(es: seq<Elem>) {
    forall e :: e in es ==> NumbersValid(e)
  }

  // ------------------------------------------------------------------ one number

  lemma WholeText(n: int, spelled: int)
    requires Representable(WholeFloat(n, spelled))
    ensures var text := NumberString(WholeFloat(n, spelled));
      !IsInteger(text) && (IsDecimal(text) <==> Unscaled(WholeFloat(n, spelled)))
  {
    hide DecimalText, LargeText, ReadSigned;
    if -TEN_TO_16 < spelled < TEN_TO_16 {
      PointZeroSigned(n);
      assert (IntText(spelled) + ".0")[|IntText(spelled)|] == '.';
    } else {
      LargeSigned(spelled);
    }
  }

  lemma FractionText(d: NonInteger)
    requires Representable(FractionFloat(d))
    ensures var text := NumberString(FractionFloat(d));
      !IsInteger(text) && (IsDecimal(text) <==> Unscaled(FractionFloat(d)))
  {
    hide DecimalText, SmallText, ReadSigned, Canonical.PointPosition;
    if Canonical.PointPosition(d) <= -4 {
      SmallSigned(d);
    } else {
      ReadSignedText(d);
      PointInFraction(d);
    }
  }

  // The text of a number is an xs:integer for ints alone, and an xs:decimal unless it has an
  // exponent.
  lemma NumberLexical(num: PythonValues.Number)
    requires Representable(num)
    ensures IsInteger(NumberString(num)) <==> num.Int?
    ensures IsDecimal(NumberString(num)) <==> Unscaled(num)
  {
    hide DecimalText, ReadSigned, NumberString, IsInteger, IsDecimal;
    match num
    case Int(n) => IntLexical(n);
    case WholeFloat(n, spelled) => WholeText(n, spelled);
    case FractionFloat(d) => FractionText(d);
    case NonFinite => NanLexical();
  }

  lemma IntLexical(n: int)
    ensures IsInteger(NumberString(Int(n))) && IsDecimal(NumberString(Int(n)))
  {
    hide ReadSigned;
    ReadSignedText(RawDecimal(n, 0));
    IntTextHasNoPoint(n);
  }

  lemma NanLexical()
    ensures !IsInteger(NumberString(NonFinite)) && !IsDecimal(NumberString(NonFinite))
  {
  }

  // A number whose text has no exponent spells its value.
  lemma UnscaledIsExact(num: PythonValues.Number)
    requires Representable(num) && Unscaled(num)
    ensures Exact(num)
  {
  }

  // ----------------------------------------------------------- parts of a record

  // The members of an object are written as valid numbers exactly when those of integer type
  // are ints and no other has an exponent.
  lemma PartNumbers(part: Part, v: Json)
    requires IsPart(part, v) && Pythonic(v)
    ensures v.Dict? && (NumbersValidIn(WriteMembers(v.pairs)) <==> MemberNumbers(WithoutExponent, part, v))
    decreases v, 0
  {
    hide TypeOf, Required, WriteValue, NumbersValid, Numbers, HasType, Pythonic;
    var es := WriteMembers(v.pairs);
    assert forall p :: p in v.pairs ==> Pythonic(p.value) by { PythonicMembers(v); }
    forall i | 0 <= i < |v.pairs|
      ensures v.pairs[i] in v.pairs
      ensures NumbersValid(es[i]) <==> Numbers(WithoutExponent, TypeOf(part, v.pairs[i].key), v.pairs[i].value)
    {
      WrittenMember(v.pairs, i);
      MemberIsValid(part, v.pairs[i].key, v.pairs[i].value);
    }
    assert NumbersValidIn(es) <==> forall i :: 0 <= i < |es| ==> NumbersValid(es[i]);
  }

  lemma PythonicMembers(v: Json)
    requires v.Dict? && Pythonic(v)
    ensures forall p :: p in v.pairs ==> Pythonic(p.value)
  {
  }

  lemma MemberIsValid(part: Part, name: string, v: Json)
    requires HasType(TypeOf(part, name), v) && Pythonic(v)
    ensures NumbersValid(WriteValue(name, v)) <==> Numbers(WithoutExponent, TypeOf(part, name), v)
    decreases v, 1
  {
    hide GoodKey, OtherType, TextMembers, IsPart, ItemName, Camel, Required, MemberNumbers, KeyOf, NumberString,
         IsInteger, IsDecimal, Pascal, Tag, WriteMembers, WriteItems;
    var e := WriteValue(name, v);
    if name in TextMembers(part) {
      TextNamesGood(part, name);
    } else {
      OtherNamesGood(part, name);
    }
    KeyRoundTrip(name, e.text, e.children);
    match TypeOf(part, name)
    case Nested(inner) => PartNumbers(inner, v);
    case Texts => TextItems(name, v.items);
    case Integer => NumberLexical(v.num);
    case Numeric => NumberLexical(v.num);
    case _ =>
  }

  lemma TextItems(name: string, items: seq<Json>)
    requires name in LIST_FIELDS && forall x :: x in items ==> x.Str?
    ensures NumbersValidIn(WriteItems(ItemName(name), items))
  {
    hide WriteItem, ItemName, KeyOf, Untyped;
    var es := WriteItems(ItemName(name), items);
    forall i | 0 <= i < |items| ensures NumbersValid(es[i]) {
      WrittenItem(ItemName(name), items, i);
      assert items[i] in items;
      TextItem(name, items[i]);
    }
  }

  lemma TextItem(name: string, item: Json)
    requires name in LIST_FIELDS && item.Str?
    ensures NumbersValid(WriteItem(ItemName(name), item))
  {
    hide ItemName, Camel, KeyOf;
    ItemNamesUntyped(name);
    ItemTagKey(name, ScalarText(item), []);
  }

  // ------------------------------------------------------------- a whole document

  lemma RootNames()
    ensures forall name :: name in CHILDREN && name != "recordVersion" ==>
              name !in INTEGER_FIELDS && name !in DECIMAL_FIELDS
    ensures "recordVersion" in INTEGER_FIELDS && "recordVersion" !in DECIMAL_FIELDS && KindOf("recordVersion").Scalar?
  {
    assert "recordVersion" in SCALARS;
  }

  const ROWS: set<string> :=
    {"Carrier", "MaterialObservation", "Component", "LifecycleEvent", "SortingDecision", "EnvironmentalValue",
     "IntegrityEntry"}

  lemma RowMarks(row: string)
    requires row in ROWS
    ensures |row| >= 2 && 'A' <= row[0] <= 'Z' && '}' !in row
    ensures (|row|, Lower(row[0]), row[1]) !in MARKS
  {
  }

  lemma RowKey(name: string, children: seq<Elem>)
    ensures var key := KeyOf(Elem(Tag(RowName(name)), "", children));
      key !in INTEGER_FIELDS && key !in DECIMAL_FIELDS
  {
    var row := RowName(name);
    assert row in ROWS;
    hide RowName, Tag;
    RowMarks(row);
    CamelHasNoBrace(row);
    PlainIsGood(Camel(row));
    LocalNameOfTag(row);
    LocalNameHasNoBrace(row);
  }

  lemma RowIsValid(name: string, x: Json)
    requires x.Dict?
    ensures NumbersValid(Elem(Tag(RowName(name)), "", WriteMembers(x.pairs))) <==> NumbersValidIn(WriteMembers(x.pairs))
  {
    hide Tag, RowName, WriteMembers, IsInteger, IsDecimal, KeyOf;
    RowKey(name, WriteMembers(x.pairs));
  }

  lemma RowsAreValid(name: string, rows: seq<Json>)
    requires forall x :: x in rows ==> x.Dict? && IsPart(RowPart(name), x) && Pythonic(x)
    ensures NumbersValidIn(WriteRows(RowName(name), rows))
            <==> forall x :: x in rows ==> MemberNumbers(WithoutExponent, RowPart(name), x)
  {
    hide IsPart, MemberNumbers, WriteMembers, NumbersValid, Pythonic, RowName, Tag;
    var es := WriteRows(RowName(name), rows);
    forall i | 0 <= i < |rows|
      ensures rows[i] in rows
      ensures NumbersValid(es[i]) <==> MemberNumbers(WithoutExponent, RowPart(name), rows[i])
    {
      RowIsValid(name, rows[i]);
      PartNumbers(RowPart(name), rows[i]);
    }
    assert NumbersValidIn(es) <==> forall i :: 0 <= i < |es| ==> NumbersValid(es[i]);
  }

  lemma PartsAreObjects(part: Part, rows: seq<Json>)
    requires forall x :: x in rows ==> IsPart(part, x)
    ensures forall x :: x in rows ==> x.Dict?
  {
  }

  lemma ChildIsValid(r: PyRecord, name: string)
    requires RecordShape(r) && name in r && name in CHILDREN && HasRootType(name, r[name]) && Pythonic(r[name])
    ensures NumbersValid(WriteChild(r, name)) <==> RootNumbers(WithoutExponent, name, r[name])
  {
    hide RecordShape, KindOf, RowPart, RowName, ObjectPart, IsPart, MemberNumbers, Pascal, Tag, WriteMembers, WriteRows,
         KeyOf, LocalName, Camel, NumberString, IsInteger, IsDecimal, Pythonic;
    var e, v := WriteChild(r, name), r[name];
    ChildKinds(name);
    RootNames();
    KeyRoundTrip(name, e.text, e.children);
    match KindOf(name)
    case Object => PartNumbers(ObjectPart(name), v);
    case Array =>
      PartsAreObjects(RowPart(name), v.items);
      ItemsPythonic(v);
      RowsAreValid(name, v.items);
    case Scalar =>
      if name == "recordVersion" {
        NumberPythonic(v);
        NumberLexical(v.num);
      }
    case _ =>
  }

  lemma ItemsPythonic(v: Json)
    requires v.List? && Pythonic(v)
    ensures forall x :: x in v.items ==> Pythonic(x)
  {
  }

  lemma NumberPythonic(v: Json)
    requires v.Number? && Pythonic(v)
    ensures Representable(v.num)
  {
  }

  lemma {:induction false} ChildrenOf(r: PyRecord, names: seq<string>)
    requires RecordShape(r)
    ensures NumbersValidIn(WriteChildren(r, names))
            <==> forall n :: n in names && Written(r, n) ==> n in r && NumbersValid(WriteChild(r, n))
  {
    hide RecordShape, Written, WriteChild, NumbersValid;
    if names != [] {
      var front, n := names[..|names| - 1], names[|names| - 1];
      assert names == front + [n] && forall x :: x in names <==> x in front || x == n;
      ChildrenOf(r, front);
      WrittenIsThere(r, n);
      var last := if Written(r, n) then [WriteChild(r, n)] else [];
      assert WriteChildren(r, names) == WriteChildren(r, front) + last;
      assert NumbersValidIn(WriteChildren(r, front) + last)
        <==> NumbersValidIn(WriteChildren(r, front)) && NumbersValidIn(last);
    }
  }

  // The document of a record the schema admits has valid numbers exactly when its members of
  // integer type are ints and none of its other numbers is written with an exponent.
  lemma DocumentNumbers(r: PyRecord)
    requires Plausible(r)
    ensures RecordShape(r)
    ensures NumbersValidIn(WriteChildren(r, ORDER))
            <==> forall name :: name in r ==> RootNumbers(WithoutExponent, name, r[name])
  {
    hide RecordShape, Plausible, WriteChildren, WriteChild, RootNumbers, NumbersValid, NumbersValidIn, Written, ORDER,
         CHILDREN;
    RecordHasShape(r);
    OrderIsComplete();
    ChildrenOf(r, ORDER);
    forall name | name in r
      ensures (name in CHILDREN && Written(r, name) ==> NumbersValid(WriteChild(r, name)))
              <==> RootNumbers(WithoutExponent, name, r[name])
    {
      NameNumbers(r, name);
    }
    forall name | Written(r, name) ensures name in r {
      WrittenIsThere(r, name);
    }
  }

  lemma NameNumbers(r: PyRecord, name: string)
    requires Plausible(r) && RecordShape(r) && name in r
    ensures (name in CHILDREN && Written(r, name) ==> NumbersValid(WriteChild(r, name)))
            <==> RootNumbers(WithoutExponent, name, r[name])
  {
    hide RecordShape, HasRootType, WriteChild, RootNumbers, NumbersValid, Written, WellFormed, Pythonic, CHILDREN,
         REQUIRED;
    if name in CHILDREN {
      ChildIsValid(r, name);
      UnwrittenNumbers(r, name);
    } else {
      AttributeNumbers(name, r[name]);
    }
  }

  lemma UnwrittenNumbers(r: PyRecord, name: string)
    requires name in r
    ensures !Written(r, name) ==> RootNumbers(WithoutExponent, name, r[name])
  {
  }

  lemma AttributeNumbers(name: string, v: Json)
    requires HasRootType(name, v) && name !in CHILDREN
    ensures RootNumbers(WithoutExponent, name, v)
  {
    hide IsPart, IsWhole;
    KindsOfNames(name);
  }

  // ---------------------------------------------------------------- main result

  lemma RootUnscaledIsExact(name: string, v: Json)
    requires HasRootType(name, v) && Pythonic(v) && RootNumbers(WithoutExponent, name, v)
    ensures RootNumbers(Spelled, name, v)
  {
    hide KindOf, RowPart, ObjectPart, IsPart, MemberNumbers, Pythonic;
    match KindOf(name)
    case Object => PartUnscaledIsExact(ObjectPart(name), v);
    case Array =>
      ItemsPythonic(v);
      forall x | x in v.items ensures MemberNumbers(Spelled, RowPart(name), x) {
        PartUnscaledIsExact(RowPart(name), x);
      }
    case _ =>
  }

  lemma PartUnscaledIsExact(part: Part, v: Json)
    requires Pythonic(v) && MemberNumbers(WithoutExponent, part, v)
    ensures MemberNumbers(Spelled, part, v)
    decreases v
  {
    hide TypeOf;
    if v.Dict? {
      PythonicMembers(v);
      forall p | p in v.pairs ensures Numbers(Spelled, TypeOf(part, p.key), p.value) {
        var t := TypeOf(part, p.key);
        assert Numbers(WithoutExponent, t, p.value);
        if t.Nested? {
          PartUnscaledIsExact(t.part, p.value);
        } else if t.Numeric? {
          UnscaledIsExact(p.value.num);
        }
      }
    }
  }

  // Whatever record the schema admits: if the numbers in its document are valid, as they are
  // in every document to_xml returns, it is read back as it was written.
  lemma ValidatedIsRestored(r: PyRecord)
    requires Plausible(r)
    ensures RecordShape(r) && (NumbersValidIn(WriteChildren(r, ORDER)) ==> Restored(r))
  {
    hide RecordShape, HasRootType, WriteChildren, RootNumbers, NumbersValidIn, Restored, WellFormed, Pythonic;
    DocumentNumbers(r);
    if NumbersValidIn(WriteChildren(r, ORDER)) {
      forall name | name in r ensures RootNumbers(Spelled, name, r[name]) {
        RootUnscaledIsExact(name, r[name]);
      }
      SchemaRecordRoundTrip(r);
    }
  }

  // ------------------------------------------------------- an input that is lost

  // Text members, whatever their texts.
  function Words(keys: seq<string>, text: string -> string): (pairs: seq<Entry<Json>>)
    ensures |pairs| == |keys| && forall i :: 0 <= i < |keys| ==> pairs[i] == Entry(keys[i], Json.Str(text(keys[i])))
  {
    seq(|keys|, i requires 0 <= i < |keys| => Entry(keys[i], Json.Str(text(keys[i]))))
  }

  const EVIDENCE_KEYS: seq<string> :=
    ["evidenceId", "subjectRef", "canonicalisation", "digestAlgorithm", "digestValue", "evidenceState"]
  const OBSERVATION_KEYS: seq<string> :=
    ["observationId", "fibreType", "valueStatus", "method", "sourceOrganisationId", "observedAt"]
  const IDENTITY_KEYS: seq<string> := ["granularity", "modelId", "batchId", "itemId"]
  const PRODUCT_KEYS: seq<string> := ["articleClass"]

  function EvidenceEntry(text: string -> string, attempts: PythonValues.Number): Json {
    Dict(Words(EVIDENCE_KEYS, text)
         + [Entry("subjectVersion", Json.Number(Int(1))), Entry("attempts", Json.Number(attempts))])
  }

  // A record with one integrity entry, and no more than the schema requires besides.
  function Sample(text: string -> string, attempts: PythonValues.Number): PyRecord {
    map["dppId" := Json.Str(text("dppId")), "schemaVersion" := Json.Str(text("schemaVersion")),
        "recordVersion" := Json.Number(Int(1)), "status" := Json.Str(text("status")),
        "createdAt" := Json.Str(text("createdAt")), "updatedAt" := Json.Str(text("updatedAt")),
        "responsibleOperatorId" := Json.Str(text("responsibleOperatorId")),
        "identity" := Dict(Words(IDENTITY_KEYS, text)), "product" := Dict(Words(PRODUCT_KEYS, text)),
        "materialObservations" := List([Dict(Words(OBSERVATION_KEYS, text))]),
        "integrity" := List([EvidenceEntry(text, attempts)])]
  }

  predicate Different(keys: seq<string>) {
    forall i, j :: 0 <= i < j < |keys| ==> keys[i] != keys[j]
  }

  lemma WordsAreFine(d: Demand, part: Part, keys: seq<string>, text: string -> string)
    requires Different(keys) && forall i :: 0 <= i < |keys| ==> keys[i] in TextMembers(part)
    ensures var v := Dict(Words(keys, text)); WellFormed(v) && Pythonic(v)
    ensures (forall name :: name in Required(part) ==> name in keys) ==> IsPart(part, Dict(Words(keys, text)))
    ensures MemberNumbers(d, part, Dict(Words(keys, text)))
  {
    hide TextMembers, Required, MemberNumbers;
    var pairs := Words(keys, text);
    forall name | name in keys ensures exists p :: p in pairs && p.key == name {
      var i :| 0 <= i < |keys| && keys[i] == name;
      assert pairs[i] in pairs && pairs[i].key == name;
    }
    WordNumbers(d, part, keys, text);
  }

  lemma WordNumbers(d: Demand, part: Part, keys: seq<string>, text: string -> string)
    requires forall i :: 0 <= i < |keys| ==> keys[i] in TextMembers(part)
    ensures MemberNumbers(d, part, Dict(Words(keys, text)))
  {
    hide TextMembers, OtherType;
  }

  lemma SampleKeys()
    ensures Different(EVIDENCE_KEYS) && forall i :: 0 <= i < |EVIDENCE_KEYS| ==> EVIDENCE_KEYS[i] in EVIDENCE_TEXT
  {
  }

  lemma ObservationIsPart(d: Demand, text: string -> string)
    ensures var v := Dict(Words(OBSERVATION_KEYS, text));
      IsPart(Observation, v) && WellFormed(v) && Pythonic(v) && MemberNumbers(d, Observation, v)
  {
    assert forall i :: 0 <= i < |OBSERVATION_KEYS| ==> OBSERVATION_KEYS[i] in TextMembers(Observation);
    assert forall name :: name in Required(Observation) ==> name in OBSERVATION_KEYS;
    assert Different(OBSERVATION_KEYS);
    hide OBSERVATION_KEYS, TextMembers, Required, Different, IsPart, WellFormed, Pythonic, MemberNumbers;
    WordsAreFine(d, Observation, OBSERVATION_KEYS, text);
  }

  lemma IdentityIsPart(d: Demand, text: string -> string)
    ensures var v := Dict(Words(IDENTITY_KEYS, text));
      IsPart(Identity, v) && WellFormed(v) && Pythonic(v) && MemberNumbers(d, Identity, v)
  {
    assert forall i :: 0 <= i < |IDENTITY_KEYS| ==> IDENTITY_KEYS[i] in TextMembers(Identity);
    assert forall name :: name in Required(Identity) ==> name in IDENTITY_KEYS;
    assert Different(IDENTITY_KEYS);
    hide IDENTITY_KEYS, TextMembers, Required, Different, IsPart, WellFormed, Pythonic, MemberNumbers;
    WordsAreFine(d, Identity, IDENTITY_KEYS, text);
  }

  lemma ProductIsPart(d: Demand, text: string -> string)
    ensures var v := Dict(Words(PRODUCT_KEYS, text));
      IsPart(Product, v) && WellFormed(v) && Pythonic(v) && MemberNumbers(d, Product, v)
  {
    assert PRODUCT_KEYS[0] in TextMembers(Product);
    hide TextMembers, IsPart, WellFormed, Pythonic, MemberNumbers;
    WordsAreFine(d, Product, PRODUCT_KEYS, text);
  }

  lemma EvidenceKeys()
    ensures "subjectVersion" !in EVIDENCE_KEYS && "attempts" !in EVIDENCE_KEYS && "subjectVersion" != "attempts"
    ensures TypeOf(Evidence, "subjectVersion") == Integer && TypeOf(Evidence, "attempts") == Integer
    ensures forall name :: name in Required(Evidence) ==> name in EVIDENCE_KEYS || name == "subjectVersion"
  {
  }

  // Members that are fine one by one.
  ghost predicate Fine(part: Part, pairs: seq<Entry<Json>>) {
    && WellFormed(Dict(pairs)) && Pythonic(Dict(pairs))
    && forall p :: p in pairs ==> HasType(TypeOf(part, p.key), p.value)
  }

  lemma WithInteger(d: Demand, part: Part, pairs: seq<Entry<Json>>, key: string, num: PythonValues.Number)
    requires Fine(part, pairs) && TypeOf(part, key).Integer? && (num == Int(1) || num == WholeFloat(1, 1))
    requires forall p :: p in pairs ==> p.key != key
    ensures var more := pairs + [Entry(key, Json.Number(num))];
      Fine(part, more) && (MemberNumbers(d, part, Dict(more)) <==> MemberNumbers(d, part, Dict(pairs)) && num.Int?)
  {
    hide TypeOf;
    var e := Entry(key, Json.Number(num));
    var more := pairs + [e];
    assert e in more && forall p :: p in more <==> p in pairs || p == e;
    assert forall i :: 0 <= i < |pairs| ==> more[i] == pairs[i] && pairs[i] in pairs;
    assert WellFormed(Dict(pairs)) && IsDict(pairs);
    assert DistinctKeys(more);
    assert WellFormed(e.value) && Pythonic(e.value) && HasType(TypeOf(part, key), e.value);
    assert WellFormed(Dict(more)) && Pythonic(Dict(more));
  }

  lemma WordsAreFinePairs(d: Demand, part: Part, keys: seq<string>, text: string -> string)
    requires Different(keys) && forall i :: 0 <= i < |keys| ==> keys[i] in TextMembers(part)
    ensures Fine(part, Words(keys, text)) && MemberNumbers(d, part, Dict(Words(keys, text)))
    ensures forall p :: p in Words(keys, text) ==> p.key in keys
  {
    hide TextMembers, Required;
    WordsAreFine(d, part, keys, text);
  }

  lemma HasRequired(part: Part, keys: seq<string>, text: string -> string, a: Entry<Json>, b: Entry<Json>)
    requires Fine(part, Words(keys, text) + [a] + [b])
    requires forall name :: name in Required(part) ==> name in keys || name == a.key
    ensures IsPart(part, Dict(Words(keys, text) + [a] + [b]))
  {
    hide TypeOf, Required, WellFormed, Pythonic;
    var pairs := Words(keys, text) + [a] + [b];
    forall name | name in Required(part) ensures exists p :: p in pairs && p.key == name {
      if name == a.key {
        assert pairs[|keys|] == a && a in pairs;
      } else {
        var i :| 0 <= i < |keys| && keys[i] == name;
        assert pairs[i] in pairs && pairs[i].key == name;
      }
    }
  }

  lemma EntryIsPart(d: Demand, text: string -> string, attempts: PythonValues.Number)
    requires attempts == Int(1) || attempts == WholeFloat(1, 1)
    ensures var v := EvidenceEntry(text, attempts);
      IsPart(Evidence, v) && WellFormed(v) && Pythonic(v) && (MemberNumbers(d, Evidence, v) <==> attempts.Int?)
  {
    SampleKeys();
    EvidenceKeys();
    EvidenceTexts();
    hide TextMembers, Required, OtherType, TypeOf, EVIDENCE_KEYS, EVIDENCE_TEXT, Different, IsPart, WellFormed,
         Pythonic, MemberNumbers, HasType;
    var words := Words(EVIDENCE_KEYS, text);
    var a, b := Entry("subjectVersion", Json.Number(Int(1))), Entry("attempts", Json.Number(attempts));
    WordsAreFinePairs(d, Evidence, EVIDENCE_KEYS, text);
    WithInteger(d, Evidence, words, "subjectVersion", Int(1));
    WithInteger(d, Evidence, words + [a], "attempts", attempts);
    HasRequired(Evidence, EVIDENCE_KEYS, text, a, b);
    assert words + [a, b] == words + [a] + [b];
  }

  lemma EvidenceTexts()
    ensures TextMembers(Evidence) == EVIDENCE_TEXT
  {
  }

  const SAMPLE_TEXTS: set<string> :=
    {"dppId", "schemaVersion", "status", "createdAt", "updatedAt", "responsibleOperatorId"}

  lemma SampleMembers(text: string -> string, attempts: PythonValues.Number)
    ensures var r := Sample(text, attempts);
      && r.Keys == SAMPLE_TEXTS + {"recordVersion", "identity", "product", "materialObservations", "integrity"}
      && REQUIRED <= r.Keys
      && r["recordVersion"] == Json.Number(Int(1)) && (forall k :: k in SAMPLE_TEXTS ==> r[k].Str?)
      && r["identity"] == Dict(Words(IDENTITY_KEYS, text)) && r["product"] == Dict(Words(PRODUCT_KEYS, text))
      && r["materialObservations"] == List([Dict(Words(OBSERVATION_KEYS, text))])
      && r["integrity"] == List([EvidenceEntry(text, attempts)])
  {
  }

  lemma SampleKinds()
    ensures forall k :: k in SAMPLE_TEXTS ==> (KindOf(k).Attribute? || KindOf(k).Scalar?) && k != "recordVersion"
    ensures KindOf("recordVersion").Scalar? && KindOf("identity").Object? && KindOf("product").Object?
    ensures KindOf("materialObservations").Array? && RowPart("materialObservations") == Observation
    ensures KindOf("integrity").Array? && RowPart("integrity") == Evidence
    ensures "identity" != "product" && "recordVersion" !in {"identity", "product", "materialObservations", "integrity"}
  {
  }

  // What holds of every member of the sample, and which of them are as asked for.
  lemma SampleMember(d: Demand, text: string -> string, attempts: PythonValues.Number, k: string)
    requires (attempts == Int(1) || attempts == WholeFloat(1, 1)) && k in Sample(text, attempts)
    ensures var v := Sample(text, attempts)[k];
      && HasRootType(k, v) && WellFormed(v) && Pythonic(v)
      && (k != "integrity" ==> RootNumbers(d, k, v)) && (k == "integrity" ==> (RootNumbers(d, k, v) <==> attempts.Int?))
  {
    SampleMembers(text, attempts);
    SampleKinds();
    hide Sample, KindOf, RowPart, EvidenceEntry, IsPart, MemberNumbers, IDENTITY_KEYS, PRODUCT_KEYS, OBSERVATION_KEYS,
         SAMPLE_TEXTS, REQUIRED;
    if k == "integrity" {
      EntryIsPart(d, text, attempts);
    } else if k == "materialObservations" {
      ObservationIsPart(d, text);
    } else if k == "identity" {
      IdentityIsPart(d, text);
    } else if k == "product" {
      ProductIsPart(d, text);
    }
  }

  lemma SampleNumbers(d: Demand, text: string -> string, attempts: PythonValues.Number)
    requires attempts == Int(1) || attempts == WholeFloat(1, 1)
    ensures var r := Sample(text, attempts);
      Plausible(r) && ((forall k :: k in r ==> RootNumbers(d, k, r[k])) <==> attempts.Int?)
  {
    hide Sample, HasRootType, RootNumbers, WellFormed, Pythonic, EvidenceEntry;
    var r := Sample(text, attempts);
    SampleMembers(text, attempts);
    forall k | k in r
      ensures HasRootType(k, r[k]) && WellFormed(r[k]) && Pythonic(r[k])
      ensures k != "integrity" ==> RootNumbers(d, k, r[k])
      ensures k == "integrity" ==> (RootNumbers(d, k, r[k]) <==> attempts.Int?)
    {
      SampleMember(d, text, attempts, k);
    }
    assert RootNumbers(d, "integrity", r["integrity"]) <==> attempts.Int?;
  }

  // The schema admits a record whether its `attempts` is the int 1 or the float 1.0. With
  // the int its document is valid and read back; with the float it is refused by to_xml,
  // and without validation by int() when it is read.
  lemma FloatAttemptsLost(text: string -> string, attempts: PythonValues.Number)
    requires attempts == Int(1) || attempts == WholeFloat(1, 1)
    ensures Plausible(Sample(text, attempts)) && RecordShape(Sample(text, attempts))
    ensures NumbersValidIn(WriteChildren(Sample(text, attempts), ORDER)) <==> attempts == Int(1)
    ensures Restored(Sample(text, attempts)) <==> attempts == Int(1)
  {
    hide Sample, IsRecord, RootNumbers, Restored, RecordShape, WriteChildren, NumbersValidIn;
    var r := Sample(text, attempts);
    SampleNumbers(Spelled, text, attempts);
    SampleNumbers(WithoutExponent, text, attempts);
    RecordHasShape(r);
    SchemaRecordRoundTrip(r);
    DocumentNumbers(r);
  }
}
