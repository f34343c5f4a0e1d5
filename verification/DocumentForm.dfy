// The document to_xml writes, element by element, in the terms of the XSD (dpp-1.0.0.xsd):
// which names, in which order, and what each element contains.

module DocumentForm {
  import opened Wrappers
  import opened KeySort
  import opened PythonValues
  import opened ElementTree
  import opened RoundTrip
  import opened Exchange

  // The XSD's sequence of children of the root, by the members they are written for. Every
  // element is called like its member, with the first letter in upper case.
  const SEQUENCE: seq<string> :=
    ["recordVersion", "status", "supersededBy", "createdAt", "updatedAt", "responsibleOperatorId",
     "registryIdentifier", "accessPolicyVersion", "identity", "carriers", "product", "materialObservations",
     "components", "lifecycleEvents", "sortingDecisions", "environmentalValues", "integrity"]

  // The one element declared in each wrapper, and in each listed field of a row.
  const IN_WRAPPER: map<string, string> :=
    map["carriers" := "Carrier", "materialObservations" := "MaterialObservation", "components" := "Component",
        "lifecycleEvents" := "LifecycleEvent", "sortingDecisions" := "SortingDecision",
        "environmentalValues" := "EnvironmentalValue", "integrity" := "IntegrityEntry"]
  const IN_FIELD: map<string, string> :=
    map["technicalFlags" := "TechnicalFlag", "materialObservationRefs" := "MaterialObservationRef",
        "basedOnObservations" := "ObservationRef", "inputRefs" := "InputRef", "outputRefs" := "OutputRef"]

  const TARGET_NAMESPACE := "https://data.sort4circ.eu/vocabulary/"

  // An element of the target namespace.
  ghost predicate IsNamed(e: Elem, name: string) {
    e.tag == "{" + TARGET_NAMESPACE + "}" + name
  }

  // The name with its first letter in upper case.
  ghost predicate IsCapitalised(name: string, key: string) {
    && |name| == |key| && (forall i :: 0 < i < |key| ==> name[i] == key[i])
    && (key != "" ==> name[0] as int == if 'a' <= key[0] <= 'z' then key[0] as int - 32 else key[0] as int)
  }

  ghost predicate IsFor(e: Elem, key: string) {
    exists name :: IsCapitalised(name, key) && IsNamed(e, name)
  }

  lemma NamedTag(e: Elem, name: string)
    ensures IsNamed(e, name) <==> e.tag == Tag(name)
  {
    assert NS == TARGET_NAMESPACE;
    hide NS, TARGET_NAMESPACE;
  }

  lemma PascalIs(key: string)
    ensures IsCapitalised(Pascal(key), key)
  {
  }

  lemma ForKey(e: Elem, key: string)
    requires e.tag == Tag(Pascal(key))
    ensures IsFor(e, key)
  {
    hide Tag, IsNamed;
    PascalIs(key);
    NamedTag(e, Pascal(key));
  }

  // ------------------------------------------------------- values at any depth

  ghost predicate HasText(e: Elem, v: Json) {
    && e.children == []
    && match v
       case Str(s) => e.text == s
       case Bool(b) => e.text == if b then "true" else "false"
       case Number(num) => e.text == NumberString(num)
       case _ => true
  }

  // The element of a value: an object has one element for each member, in order, a list one
  // for each item, all of the one name.
  ghost predicate IsElement(e: Elem, key: string, v: Json)
    decreases v, 1
  {
    && IsFor(e, key)
    && match v
       case Dict(pairs) => AreMembers(e.children, pairs)
       case List(items) => AreItems(e.children, if key in IN_FIELD then IN_FIELD[key] else "Value", items)
       case _ => HasText(e, v)
  }

  ghost predicate AreMembers(es: seq<Elem>, pairs: seq<Entry<Json>>)
    decreases pairs, 0
  {
    |es| == |pairs| && forall i :: 0 <= i < |pairs| ==> IsElement(es[i], pairs[i].key, pairs[i].value)
  }

  ghost predicate AreItems(es: seq<Elem>, name: string, items: seq<Json>)
    decreases items, 0
  {
    |es| == |items| && forall i :: 0 <= i < |items| ==> IsItem(es[i], name, items[i])
  }

  ghost predicate IsItem(e: Elem, name: string, v: Json)
    decreases v, 1
  {
    && IsNamed(e, name)
    && match v
       case Dict(pairs) => AreMembers(e.children, pairs)
       case _ => HasText(e, v)
  }

  lemma FieldNames(key: string)
    ensures ItemName(key) == if key in IN_FIELD then IN_FIELD[key] else "Value"
  {
  }

  lemma TextIs(tag: string, v: Json)
    ensures HasText(Elem(tag, ScalarText(v), []), v)
  {
  }

  // Every value is written so, whatever it holds and however deep.
  lemma {:induction false} ElementIs(key: string, v: Json)
    ensures IsElement(WriteValue(key, v), key, v)
    decreases v, 1
  {
    hide Tag, Pascal, ItemName, IsFor, ScalarText, HasText;
    var e := WriteValue(key, v);
    ForKey(e, key);
    match v
    case Dict(pairs) => MembersAre(pairs);
    case List(items) =>
      FieldNames(key);
      ItemsAre(ItemName(key), items);
    case _ => TextIs(e.tag, v);
  }

  lemma {:induction false} MembersAre(pairs: seq<Entry<Json>>)
    ensures AreMembers(WriteMembers(pairs), pairs)
    decreases pairs, 0
  {
    hide WriteValue, IsElement;
    forall i | 0 <= i < |pairs| ensures IsElement(WriteMembers(pairs)[i], pairs[i].key, pairs[i].value) {
      WrittenMember(pairs, i);
      ElementIs(pairs[i].key, pairs[i].value);
    }
  }

  lemma {:induction false} ItemsAre(name: string, items: seq<Json>)
    ensures AreItems(WriteItems(name, items), name, items)
    decreases items, 0
  {
    hide WriteItem, IsItem;
    forall i | 0 <= i < |items| ensures IsItem(WriteItems(name, items)[i], name, items[i]) {
      WrittenItem(name, items, i);
      ItemIs(name, items[i]);
    }
  }

  lemma {:induction false} ItemIs(name: string, v: Json)
    ensures IsItem(WriteItem(name, v), name, v)
    decreases v, 1
  {
    hide Tag, IsNamed, ScalarText, HasText;
    NamedTag(WriteItem(name, v), name);
    match v
    case Dict(pairs) => MembersAre(pairs);
    case _ => TextIs(Tag(name), v);
  }

  // ------------------------------------------------------------ the whole document

  // A child of the root: a wrapper with the one element for each row, the members of an
  // object, or a text.
  ghost predicate IsChild(e: Elem, key: string, v: Json) {
    if key in IN_WRAPPER then
      && v.List? && |e.children| == |v.items|
      && forall i :: 0 <= i < |v.items| ==>
           IsNamed(e.children[i], IN_WRAPPER[key])
           && v.items[i].Dict? && AreMembers(e.children[i].children, v.items[i].pairs)
    else if key == "identity" || key == "product" then v.Dict? && AreMembers(e.children, v.pairs)
    else
      && e.children == []
      && match v
         case Str(s) => e.text == s
         case Number(num) => e.text == NumberString(num)
         case _ => true
  }

  lemma WrapperNames(key: string)
    requires key in IN_WRAPPER
    ensures KindOf(key).Array? && RowName(key) == IN_WRAPPER[key]
  {
    WrapperKind(key);
  }

  lemma WrapperKind(key: string)
    ensures key in IN_WRAPPER <==> KindOf(key).Array?
    ensures key == "identity" || key == "product" <==> KindOf(key).Object?
  {
    assert key in ARRAYS <==> key in IN_WRAPPER;
    assert ARRAYS !! ATTRIBUTES && ARRAYS !! SCALARS && ARRAYS !! OBJECTS;
    assert OBJECTS !! ATTRIBUTES && OBJECTS !! SCALARS;
  }

  lemma ChildIs(r: PyRecord, key: string)
    requires RecordShape(r) && key in r
    ensures IsChild(WriteChild(r, key), key, r[key])
  {
    hide RecordShape, KindOf, RowName, Tag, Pascal, AreMembers, WriteMembers, IsNamed;
    WrapperKind(key);
    MemberShape(r, key);
    var v := r[key];
    match KindOf(key)
    case Array =>
      WrapperNames(key);
      forall i | 0 <= i < |v.items|
        ensures v.items[i].Dict?
        ensures IsNamed(WriteChild(r, key).children[i], IN_WRAPPER[key])
        ensures AreMembers(WriteChild(r, key).children[i].children, v.items[i].pairs)
      {
        assert v.items[i] in v.items;
        NamedTag(WriteChild(r, key).children[i], RowName(key));
        MembersAre(v.items[i].pairs);
      }
    case Object => MembersAre(v.pairs);
    case _ => RootTextIs(v);
  }

  lemma RootTextIs(v: Json)
    ensures v.Str? ==> RootText(v) == v.s
    ensures v.Number? ==> RootText(v) == NumberString(v.num)
  {
  }

  lemma OrderIs()
    ensures |ORDER| == |SEQUENCE| && forall n :: 0 <= n < |ORDER| ==> ORDER[n] == SEQUENCE[n]
  {
  }

  // Is there a child for this place of the sequence?
  ghost predicate Filled(r: PyRecord, n: nat)
    requires n < |SEQUENCE|
  {
    SEQUENCE[n] in r && !(SEQUENCE[n] in IN_WRAPPER && r[SEQUENCE[n]] == List([]))
  }

  // The children stand at ascending places of the sequence, each the one declared there, and
  // every place up to this one that is to be filled is.
  ghost predicate InSequence(r: PyRecord, es: seq<Elem>, places: seq<nat>, upTo: nat)
    requires upTo <= |SEQUENCE|
  {
    && |places| == |es|
    && (forall i, j :: 0 <= i < j < |places| ==> places[i] < places[j])
    && (forall i :: 0 <= i < |places| ==>
          places[i] < upTo && Filled(r, places[i]) && IsFor(es[i], SEQUENCE[places[i]])
          && IsChild(es[i], SEQUENCE[places[i]], r[SEQUENCE[places[i]]]))
    && forall n :: 0 <= n < upTo && Filled(r, n) ==> n in places
  }

  lemma {:induction false} PlacesUpTo(r: PyRecord, upTo: nat) returns (places: seq<nat>)
    requires RecordShape(r) && upTo <= |SEQUENCE|
    ensures |ORDER| == |SEQUENCE|
    ensures InSequence(r, WriteChildren(r, ORDER[..upTo]), places, upTo)
  {
    OrderIs();
    hide RecordShape, WriteChild, IsChild, IsFor, Written, Filled, SEQUENCE, ORDER;
    if upTo == 0 {
      places := [];
    } else {
      var n := upTo - 1;
      places := PlacesUpTo(r, n);
      assert ORDER[..upTo][..n] == ORDER[..n] && ORDER[..upTo][n] == ORDER[n];
      FilledIs(r, n);
      if Written(r, ORDER[n]) {
        WrittenIsThere(r, ORDER[n]);
        ChildIs(r, ORDER[n]);
        ChildNamed(r, ORDER[n]);
        places := places + [n];
      }
    }
  }

  lemma FilledIs(r: PyRecord, n: nat)
    requires n < |SEQUENCE|
    ensures Filled(r, n) <==> Written(r, SEQUENCE[n])
  {
    hide SEQUENCE, KindOf;
    WrapperKind(SEQUENCE[n]);
  }

  lemma ChildNamed(r: PyRecord, key: string)
    requires RecordShape(r) && key in r
    ensures IsFor(WriteChild(r, key), key)
  {
    hide RecordShape, KindOf, Tag, Pascal, IsFor, WriteMembers, RowName;
    ForKey(WriteChild(r, key), key);
  }

  // The document of every record: its two attributes, and its children in the order of the
  // XSD's sequence, each under the name and with the elements declared there.
  lemma DocumentIs(r: PyRecord) returns (places: seq<nat>)
    requires RecordShape(r)
    ensures InSequence(r, XmlOf(r).children, places, |SEQUENCE|)
    ensures "dppId" in r && r["dppId"] == Json.Str(XmlOf(r).dppId)
    ensures "schemaVersion" in r && r["schemaVersion"] == Json.Str(XmlOf(r).schemaVersion)
  {
    hide RecordShape, InSequence, WriteChildren;
    AttributesPresent(r);
    OrderIs();
    places := PlacesUpTo(r, |SEQUENCE|);
    assert ORDER[..|SEQUENCE|] == ORDER;
  }

  // ------------------------------------------------------------------- reading

  // A child under no name of the sequence is passed over when a document is read.
  lemma UnknownIgnored(r: PyRecord, e: Elem)
    requires forall key :: key in SEQUENCE ==> !IsCapitalised(LocalName(e.tag), key)
    ensures Fill(Some(r), e) == Some(r)
  {
    hide LocalName, ReadMembers, ReadRows, ReadInt;
    var local := LocalName(e.tag);
    if Pascal(Camel(local)) == local {
      PascalIs(Camel(local));
      OrderIs();
      assert Camel(local) !in SEQUENCE;
      KnownNames(Camel(local));
    }
  }

  lemma KnownNames(key: string)
    ensures KindOf(key).Scalar? || KindOf(key).Object? || KindOf(key).Array? ==> key in SEQUENCE
  {
    OrderIsComplete();
    OrderIs();
    KindsOfNames(key);
    hide KindOf, ORDER, SEQUENCE, CHILDREN, ATTRIBUTES;
    if key in ORDER {
      var n :| 0 <= n < |ORDER| && ORDER[n] == key;
      assert SEQUENCE[n] == key;
    }
  }
}
