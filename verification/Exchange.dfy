// A whole record as an XML document and back (to_xml, from_xml in exchange.py), at the
// level of element trees.

module Exchange {
  import opened Wrappers
  import opened Values
  import opened KeySort
  import opened PythonValues
  import opened ElementTree
  import opened RoundTrip

  // The top level of a record: members by name.
  type PyRecord = map<string, Json>

  datatype Document = Document(schemaVersion: string, dppId: string, children: seq<Elem>)

  datatype Kind = Attribute | Scalar | Object | Array | Other

  const ATTRIBUTES: set<string> := {"dppId", "schemaVersion"}
  const SCALARS: set<string> :=
    {"recordVersion", "status", "supersededBy", "createdAt", "updatedAt", "responsibleOperatorId",
     "registryIdentifier", "accessPolicyVersion"}
  const OBJECTS: set<string> := {"identity", "product"}
  const ARRAYS: set<string> :=
    {"carriers", "materialObservations", "components", "lifecycleEvents", "sortingDecisions",
     "environmentalValues", "integrity"}

  function KindOf(name: string): Kind {
    if name in ATTRIBUTES then Attribute
    else if name in SCALARS then Scalar
    else if name in OBJECTS then Object
    else if name in ARRAYS then Array
    else Other
  }

  // The order in which children are written.
  const ORDER: seq<string> :=
    ["recordVersion", "status", "supersededBy", "createdAt", "updatedAt", "responsibleOperatorId",
     "registryIdentifier", "accessPolicyVersion", "identity", "carriers", "product", "materialObservations",
     "components", "lifecycleEvents", "sortingDecisions", "environmentalValues", "integrity"]

  // ARRAYS[name][1]
  function RowName(name: string): string {
    if name == "carriers" then "Carrier"
    else if name == "materialObservations" then "MaterialObservation"
    else if name == "components" then "Component"
    else if name == "lifecycleEvents" then "LifecycleEvent"
    else if name == "sortingDecisions" then "SortingDecision"
    else if name == "environmentalValues" then "EnvironmentalValue"
    else "IntegrityEntry"
  }

  // What validate_payload has established before a record is written.
  ghost predicate RecordShape(r: PyRecord) {
    && (forall k :: k in ATTRIBUTES ==> k in r && r[k].Str?)
    && (forall k :: k in OBJECTS ==> k in r && r[k].Dict?)
    && (forall k :: k in ARRAYS && k in r ==> r[k].List? && forall x :: x in r[k].items ==> x.Dict?)
    && (forall k :: k in r ==> WellFormed(r[k]) && Pythonic(r[k]))
  }

  // ---------------------------------------------------------------- writing

  // str(value)
  function RootText(v: Json): string {
    if v.Bool? then (if v.b then "True" else "False") else ScalarText(v)
  }

  function WriteRows(name: string, rows: seq<Json>): (es: seq<Elem>)
    requires forall x :: x in rows ==> x.Dict?
    ensures |es| == |rows|
    ensures forall i :: 0 <= i < |rows| ==> es[i] == Elem(Tag(name), "", WriteMembers(rows[i].pairs))
  {
    seq(|rows|, i requires 0 <= i < |rows| => Elem(Tag(name), "", WriteMembers(rows[i].pairs)))
  }

  // Is a child written for this name? Empty arrays have none.
  predicate Written(r: PyRecord, name: string) {
    name in r && !(KindOf(name).Array? && r[name] == List([]))
  }

  function WriteChild(r: PyRecord, name: string): Elem
    requires RecordShape(r) && name in r
  {
    var v := r[name];
    match KindOf(name)
    case Object => Elem(Tag(Pascal(name)), "", WriteMembers(v.pairs))
    case Array => Elem(Tag(Pascal(name)), "", WriteRows(RowName(name), v.items))
    case _ => Elem(Tag(Pascal(name)), RootText(v), [])
  }

  function WriteChildren(r: PyRecord, names: seq<string>): seq<Elem>
    requires RecordShape(r)
  {
    if names == [] then []
    else
      WriteChildren(r, names[..|names| - 1])
      + if Written(r, names[|names| - 1]) then [WriteChild(r, names[|names| - 1])] else []
  }

  // ET.SubElement, once per member, item or value.
  function Under(parent: Elem, children: seq<Elem>): Elem {
    parent.(children := parent.children + children)
  }

  lemma UnderEmpty(tag: string)
    ensures forall es :: Under(Elem(tag, "", []), es) == Elem(tag, "", es)
  {
    assert forall es: seq<Elem> :: [] + es == es;
  }

  lemma UnderStep(parent: Elem, es: seq<Elem>, i: nat)
    requires i <= |es|
    ensures Under(parent, es[..0]) == parent && Under(parent, es[..|es|]) == Under(parent, es)
    ensures i < |es| ==> Under(Under(parent, es[..i]), [es[i]]) == Under(parent, es[..i + 1])
  {
    assert parent.children + es[..0] == parent.children;
    assert es[..|es|] == es;
    if i < |es| {
      assert (parent.children + es[..i]) + [es[i]] == parent.children + es[..i + 1];
    }
  }

  method AppendMembers(parent: Elem, pairs: seq<Entry<Json>>) returns (grown: Elem)
    ensures grown == Under(parent, WriteMembers(pairs))
    decreases pairs
  {
    hide Under, WriteMembers, WriteValue;
    grown := parent;
    var es := WriteMembers(pairs);
    UnderStep(parent, es, 0);
    for i := 0 to |pairs|
      invariant grown == Under(parent, es[..i])
    {
      WrittenMember(pairs, i);
      UnderStep(parent, es, i);
      grown := AppendValue(grown, pairs[i].key, pairs[i].value);
    }
  }

  method AppendItems(parent: Elem, name: string, items: seq<Json>) returns (grown: Elem)
    ensures grown == Under(parent, WriteItems(name, items))
    decreases items
  {
    hide Tag, ScalarText, WriteMembers, WriteItems;
    grown := parent;
    var es := WriteItems(name, items);
    UnderStep(parent, es, 0);
    UnderEmpty(Tag(name));
    for i := 0 to |items|
      invariant grown == Under(parent, es[..i])
    {
      WrittenItem(name, items, i);
      UnderStep(parent, es, i);
      var item := Elem(Tag(name), "", []);
      if items[i].Dict? {
        item := AppendMembers(item, items[i].pairs);
      } else {
        item := item.(text := ScalarText(items[i]));
      }
      grown := Under(grown, [item]);
    }
  }

  // _write_value
  method AppendValue(parent: Elem, key: string, value: Json) returns (grown: Elem)
    ensures grown == Under(parent, [WriteValue(key, value)])
    decreases value
  {
    hide Tag, Pascal, ScalarText, WriteMembers, WriteItems, ItemName;
    var element := Elem(Tag(Pascal(key)), "", []);
    UnderEmpty(element.tag);
    match value {
      case Dict(pairs) => element := AppendMembers(element, pairs);
      case List(items) => element := AppendItems(element, ItemName(key), items);
      case _ => element := element.(text := ScalarText(value));
    }
    grown := Under(parent, [element]);
  }

  method AppendRows(parent: Elem, name: string, rows: seq<Json>) returns (grown: Elem)
    requires forall x :: x in rows ==> x.Dict?
    ensures grown == Under(parent, WriteRows(name, rows))
  {
    hide Tag, WriteMembers;
    grown := parent;
    var es := WriteRows(name, rows);
    UnderStep(parent, es, 0);
    UnderEmpty(Tag(name));
    for i := 0 to |rows|
      invariant grown == Under(parent, es[..i])
    {
      UnderStep(parent, es, i);
      var row := AppendMembers(Elem(Tag(name), "", []), rows[i].pairs);
      grown := Under(grown, [row]);
    }
  }

  method AppendChild(root: Elem, r: PyRecord, name: string) returns (grown: Elem)
    requires RecordShape(r) && name in r
    ensures grown == Under(root, [WriteChild(r, name)])
  {
    hide RecordShape, Tag, Pascal, RootText, RowName, KindOf, WriteMembers, WriteRows;
    var child, v := Elem(Tag(Pascal(name)), "", []), r[name];
    MemberShape(r, name);
    UnderEmpty(child.tag);
    match KindOf(name) {
      case Object => child := AppendMembers(child, v.pairs);
      case Array => child := AppendRows(child, RowName(name), v.items);
      case _ => child := child.(text := RootText(v));
    }
    grown := Under(root, [child]);
  }

  lemma MemberShape(r: PyRecord, name: string)
    requires RecordShape(r) && name in r
    ensures KindOf(name).Object? ==> r[name].Dict?
    ensures KindOf(name).Array? ==> r[name].List? && forall x :: x in r[name].items ==> x.Dict?
  {
  }

  method AppendChildren(root: Elem, r: PyRecord, names: seq<string>) returns (grown: Elem)
    requires RecordShape(r) && root.children == []
    ensures grown.children == WriteChildren(r, names)
  {
    hide RecordShape, WriteChild, Written;
    grown := root;
    for i := 0 to |names|
      invariant grown.children == WriteChildren(r, names[..i])
    {
      assert names[..i + 1][..i] == names[..i];
      WrittenIsThere(r, names[i]);
      if Written(r, names[i]) {
        grown := AppendChild(grown, r, names[i]);
      }
    }
    assert names[..|names|] == names;
  }

  // The document of a record.
  function XmlOf(r: PyRecord): Document
    requires RecordShape(r)
  {
    AttributesPresent(r);
    Document(r["schemaVersion"].s, r["dppId"].s, WriteChildren(r, ORDER))
  }

  method ToXml(r: PyRecord) returns (doc: Document)
    requires RecordShape(r)
    ensures doc == XmlOf(r)
  {
    hide RecordShape, WriteChild, Written, Tag;
    AttributesPresent(r);
    var root := Elem(Tag("DigitalProductPassport"), "", []);
    root := AppendChildren(root, r, ORDER);
    doc := Document(r["schemaVersion"].s, r["dppId"].s, root.children);
  }

  lemma AttributesPresent(r: PyRecord)
    requires RecordShape(r)
    ensures "dppId" in r && "schemaVersion" in r && r["dppId"].Str? && r["schemaVersion"].Str?
  {
    assert "dppId" in ATTRIBUTES && "schemaVersion" in ATTRIBUTES;
  }

  // ---------------------------------------------------------------- reading

  datatype Child = Member(name: string, value: Json) | Skipped | Malformed

  function ReadRows(es: seq<Elem>): (rows: Option<seq<Json>>)
    ensures rows.Some? <==> forall i :: 0 <= i < |es| ==> ReadMembers(es[i].children).Some?
    ensures rows.Some? ==> |rows.value| == |es|
    ensures rows.Some? ==> forall i :: 0 <= i < |es| ==> rows.value[i] == Dict(ReadMembers(es[i].children).value)
  {
    if es == [] then Some([])
    else if ReadMembers(es[0].children).None? then
      assert es[0] in es;
      Option.None
    else
      var rest := ReadRows(es[1..]);
      assert forall i :: 0 < i < |es| ==> es[i] == es[1..][i - 1];
      if rest.None? then Option.None else Some([Dict(ReadMembers(es[0].children).value)] + rest.value)
  }

  function Named(name: string, value: Option<Json>): Child {
    if value.Some? then Member(name, value.value) else Malformed
  }

  // One child of the root, looked up by its local name.
  function ReadChild(e: Elem): Child {
    var local := LocalName(e.tag);
    var name := Camel(local);
    if Pascal(name) != local then Skipped
    else
      match KindOf(name)
      case Scalar => Named(name, if name == "recordVersion" then ReadInt(e.text) else Some(Json.Str(e.text)))
      case Object => Named(name, var pairs :- ReadMembers(e.children); Some(Dict(pairs)))
      case Array => Named(name, var rows :- ReadRows(e.children); Some(List(rows)))
      case _ => Skipped
  }

  // The record after one more child.
  function Fill(r: Option<PyRecord>, e: Elem): Option<PyRecord> {
    var acc :- r;
    match ReadChild(e)
    case Member(name, value) => Some(acc[name := value])
    case Skipped => Some(acc)
    case Malformed => Option.None
  }

  function FillAll(r: Option<PyRecord>, es: seq<Elem>): Option<PyRecord> {
    if es == [] then r else Fill(FillAll(r, es[..|es| - 1]), es[|es| - 1])
  }

  function Attributes(doc: Document): PyRecord {
    map["dppId" := Json.Str(doc.dppId), "schemaVersion" := Json.Str(doc.schemaVersion)]
  }

  method FromXml(doc: Document) returns (record: Option<PyRecord>)
    ensures record == FillAll(Some(Attributes(doc)), doc.children)
  {
    hide ReadChild, Attributes;
    var r := Attributes(doc);
    for i := 0 to |doc.children|
      invariant FillAll(Some(Attributes(doc)), doc.children[..i]) == Some(r)
    {
      assert doc.children[..i + 1][..i] == doc.children[..i];
      match ReadChild(doc.children[i])
      case Member(name, value) => r := r[name := value];
      case Skipped =>
      case Malformed =>
        FillStops(Some(Attributes(doc)), doc.children, i);
        return Option.None;
    }
    assert doc.children[..|doc.children|] == doc.children;
    return Some(r);
  }

  lemma {:induction false} FillStops(r: Option<PyRecord>, es: seq<Elem>, i: nat)
    requires i < |es| && FillAll(r, es[..i + 1]) == Option.None
    ensures FillAll(r, es) == Option.None
    decreases |es|
  {
    hide ReadChild;
    if i + 1 == |es| {
      assert es[..i + 1] == es;
    } else {
      assert es[..|es| - 1][..i + 1] == es[..i + 1];
      FillStops(r, es[..|es| - 1], i);
    }
  }

  // ------------------------------------------------------------- round trip

  // The record without its empty arrays.
  function Trimmed(r: PyRecord): PyRecord {
    map k | k in r && (KindOf(k).Attribute? || Written(r, k)) :: r[k]
  }

  ghost predicate SameRecord(read: Option<PyRecord>, r: PyRecord) {
    && read.Some? && read.value.Keys == r.Keys
    && forall k :: k in r ==> Denote(read.value[k]) == Denote(r[k])
  }

  // A member of the type and depth its name lets be restored.
  predicate GoodRootMember(name: string, v: Json) {
    match KindOf(name)
    case Attribute => true
    case Scalar => if name == "recordVersion" then v.Number? && v.num.Int? else v.Str?
    case Object => v.Dict? && GoodMembers(v.pairs)
    case Array => v.List? && forall x :: x in v.items ==> x.Dict? && GoodMembers(x.pairs)
    case Other => false
  }

  predicate GoodRecord(r: PyRecord) {
    forall k :: k in r ==> GoodRootMember(k, r[k])
  }

  // ------------------------------------------------------------ one member

  const CHILDREN: set<string> := SCALARS + OBJECTS + ARRAYS

  lemma ScalarKeys()
    ensures forall k :: k in SCALARS ==> GoodKey(k)
  {
  }

  lemma ObjectAndArrayKeys()
    ensures forall k :: k in OBJECTS ==> GoodKey(k)
    ensures forall k :: k in ARRAYS ==> GoodKey(k)
  {
  }

  lemma ChildKinds(name: string)
    requires name in CHILDREN
    ensures GoodKey(name) && (KindOf(name).Scalar? || KindOf(name).Object? || KindOf(name).Array?)
  {
    hide GoodKey;
    ScalarKeys();
    ObjectAndArrayKeys();
    assert name !in ATTRIBUTES;
  }

  // A written child is found again under its own name.
  lemma ChildName(r: PyRecord, name: string)
    requires RecordShape(r) && name in r && name in CHILDREN
    ensures var local := LocalName(WriteChild(r, name).tag); Camel(local) == name && Pascal(name) == local
  {
    hide RecordShape, KindOf, RootText;
    ChildKinds(name);
    PascalHasNoBrace(name);
    LocalNameOfTag(Pascal(name));
    LocalNameHasNoBrace(Pascal(name));
  }

  // Rows that were read stand for the rows written.
  ghost predicate SameRows(read: Option<seq<Json>>, rows: seq<Json>) {
    read.Some? && Denote(List(read.value)) == Denote(List(rows))
  }

  lemma SameRowsByRow(es: seq<Elem>, rows: seq<Json>)
    requires |es| == |rows| && forall i :: 0 <= i < |rows| ==> rows[i].Dict?
    ensures SameRows(ReadRows(es), rows)
            <==> forall i :: 0 <= i < |rows| ==>
                   ReadMembers(es[i].children).Some?
                   && DenotePairs(ReadMembers(es[i].children).value) == DenotePairs(rows[i].pairs)
  {
    hide ReadMembers, DenotePairs;
    if ReadRows(es).Some? {
      var read := ReadRows(es).value;
      forall i | 0 <= i < |rows|
        ensures DenoteItems(read)[i] == Obj(DenotePairs(ReadMembers(es[i].children).value))
        ensures DenoteItems(rows)[i] == Obj(DenotePairs(rows[i].pairs))
      {
      }
      assert DenoteItems(read) == DenoteItems(rows)
          <==> forall i :: 0 <= i < |rows| ==> DenoteItems(read)[i] == DenoteItems(rows)[i];
    }
  }

  lemma RowsRoundTrip(name: string, rows: seq<Json>)
    requires forall x :: x in rows ==> x.Dict? && WellFormed(x) && Pythonic(x)
    ensures SameRows(ReadRows(WriteRows(name, rows)), rows) <==> forall x :: x in rows ==> GoodMembers(x.pairs)
  {
    hide ReadMembers, WriteMembers, GoodMembers, DenotePairs, Tag, ReadRows, SameRows, WellFormed, Pythonic;
    var es := WriteRows(name, rows);
    forall i | 0 <= i < |rows|
      ensures rows[i].Dict?
      ensures ReadMembers(es[i].children).Some?
              && DenotePairs(ReadMembers(es[i].children).value) == DenotePairs(rows[i].pairs)
              <==> GoodMembers(rows[i].pairs)
    {
      assert rows[i] in rows;
      MembersWellFormed(rows[i]);
      MembersRoundTrip(rows[i].pairs);
    }
    SameRowsByRow(es, rows);
    assert (forall x :: x in rows ==> GoodMembers(x.pairs))
        <==> forall i :: 0 <= i < |rows| ==> GoodMembers(rows[i].pairs);
  }

  lemma VersionRoundTrip(v: Json)
    requires Pythonic(v)
    ensures SameValue(ReadInt(RootText(v)), v) <==> v.Number? && v.num.Int?
  {
    hide ReadSigned;
    if v.Number? {
      assert "recordVersion" in INTEGER_FIELDS && "recordVersion" !in DECIMAL_FIELDS;
      NumberRoundTrip("recordVersion", v.num);
    }
  }

  // Is the child read back as the value it was written from?
  ghost predicate ChildRestored(r: PyRecord, name: string)
    requires RecordShape(r) && name in r
  {
    var child := ReadChild(WriteChild(r, name));
    child.Member? && Denote(child.value) == Denote(r[name])
  }

  lemma MemberRoundTrip(r: PyRecord, name: string)
    requires RecordShape(r) && name in r && name in CHILDREN
    ensures var child := ReadChild(WriteChild(r, name)); child.Malformed? || (child.Member? && child.name == name)
    ensures ChildRestored(r, name) <==> GoodRootMember(name, r[name])
  {
    hide ReadMembers, WriteMembers, GoodMembers, WriteRows, ReadRows, ReadInt, RootText, Tag, LocalName, Camel, Pascal,
         GoodKey, WellFormed, Pythonic;
    ChildKinds(name);
    ChildName(r, name);
    var v := r[name];
    match KindOf(name)
    case Scalar =>
      VersionRoundTrip(v);
      OtherScalarText(v);
    case Object => MembersRoundTrip(v.pairs) by { MembersWellFormed(v); }
    case Array => RowsRoundTrip(RowName(name), v.items) by { ItemsWellFormed(v); }
  }

  lemma OtherScalarText(v: Json)
    ensures Denote(Json.Str(RootText(v))) == Denote(v) <==> v.Str?
  {
  }

  lemma MembersWellFormed(v: Json)
    requires v.Dict? && WellFormed(v) && Pythonic(v)
    ensures IsDict(v.pairs) && forall p :: p in v.pairs ==> WellFormed(p.value) && Pythonic(p.value)
  {
  }

  lemma ItemsWellFormed(v: Json)
    requires v.List? && WellFormed(v) && Pythonic(v)
    ensures forall x :: x in v.items ==> WellFormed(x) && Pythonic(x)
  {
  }

  // --------------------------------------------------------- all members

  ghost predicate AllRead(r: PyRecord, names: seq<string>)
    requires RecordShape(r)
  {
    forall n :: n in names && Written(r, n) ==> ReadChild(WriteChild(r, n)).Member?
  }

  function ReadBack(r: PyRecord, names: seq<string>): PyRecord
    requires RecordShape(r) && AllRead(r, names)
  {
    map n | n in names && Written(r, n) :: ReadChild(WriteChild(r, n)).value
  }

  // A written child is read under its own name or not at all.
  ghost predicate Placed(r: PyRecord, n: string)
    requires RecordShape(r)
  {
    Written(r, n) ==> var child := ReadChild(WriteChild(r, n)); child.Malformed? || (child.Member? && child.name == n)
  }

  lemma FillLast(r: PyRecord, front: seq<string>, n: string, acc: PyRecord)
    requires RecordShape(r) && Placed(r, n)
    requires FillAll(Some(acc), WriteChildren(r, front))
             == if AllRead(r, front) then Some(acc + ReadBack(r, front)) else Option.None
    ensures FillAll(Some(acc), WriteChildren(r, front + [n]))
            == if AllRead(r, front + [n]) then Some(acc + ReadBack(r, front + [n])) else Option.None
  {
    hide RecordShape, ReadChild, WriteChild, Written, ReadBack, AllRead;
    var names := front + [n];
    assert names[..|names| - 1] == front;
    AllReadLast(r, front, n);
    WrittenIsThere(r, n);
    if Written(r, n) {
      var es := WriteChildren(r, names);
      assert es[..|es| - 1] == WriteChildren(r, front) && es[|es| - 1] == WriteChild(r, n);
      if AllRead(r, names) {
        assert acc + ReadBack(r, names) == (acc + ReadBack(r, front))[n := ReadChild(WriteChild(r, n)).value];
      }
    } else {
      assert WriteChildren(r, names) == WriteChildren(r, front);
    }
  }

  lemma AllReadLast(r: PyRecord, front: seq<string>, n: string)
    requires RecordShape(r)
    ensures AllRead(r, front + [n]) <==> AllRead(r, front) && (Written(r, n) ==> ReadChild(WriteChild(r, n)).Member?)
    ensures AllRead(r, front + [n]) ==>
              ReadBack(r, front + [n])
              == if Written(r, n) then ReadBack(r, front)[n := ReadChild(WriteChild(r, n)).value]
                 else ReadBack(r, front)
  {
    hide RecordShape, ReadChild, WriteChild, KindOf;
    assert forall x :: x in front + [n] <==> x in front || x == n;
    WrittenIsThere(r, n);
  }

  lemma {:induction false} FillWritten(r: PyRecord, names: seq<string>, acc: PyRecord)
    requires RecordShape(r) && forall n :: n in names ==> Placed(r, n)
    ensures FillAll(Some(acc), WriteChildren(r, names))
            == if AllRead(r, names) then Some(acc + ReadBack(r, names)) else Option.None
  {
    hide RecordShape, ReadChild, WriteChild, Written, Placed;
    if names == [] {
      assert acc + ReadBack(r, names) == acc;
    } else {
      var front, n := names[..|names| - 1], names[|names| - 1];
      assert names == front + [n];
      FillWritten(r, front, acc);
      FillLast(r, front, n, acc);
    }
  }

  lemma WrittenIsThere(r: PyRecord, n: string)
    ensures Written(r, n) ==> n in r
  {
  }

  lemma OrderIsComplete()
    ensures forall n :: n in ORDER <==> n in CHILDREN
  {
  }

  lemma KindsOfNames(name: string)
    ensures KindOf(name).Attribute? <==> name in ATTRIBUTES
    ensures KindOf(name).Other? <==> name !in ATTRIBUTES && name !in CHILDREN
  {
    assert ATTRIBUTES !! CHILDREN;
  }

  // A record is read back as it was written, empty arrays aside, exactly when every member
  // has a name the profile knows and a type that name restores at every depth.
  lemma RecordRoundTrip(r: PyRecord)
    requires RecordShape(r)
    ensures var doc := Document(r["schemaVersion"].s, r["dppId"].s, WriteChildren(r, ORDER));
      SameRecord(FillAll(Some(Attributes(doc)), doc.children), Trimmed(r)) <==> GoodRecord(r)
  {
    hide ReadChild, WriteChild, KindOf, GoodRootMember, FillAll, WriteChildren, Attributes, Written, Denote;
    var doc := Document(r["schemaVersion"].s, r["dppId"].s, WriteChildren(r, ORDER));
    var acc := Attributes(doc);
    OrderIsComplete();
    forall n | n in ORDER ensures Placed(r, n) {
      WrittenIsThere(r, n);
      if Written(r, n) { MemberRoundTrip(r, n); }
    }
    FillWritten(r, ORDER, acc);
    forall k | k in r && k in CHILDREN ensures ChildRestored(r, k) <==> GoodRootMember(k, r[k]) {
      MemberRoundTrip(r, k);
    }
    RestoredIff(r, doc);
  }

  lemma AttributesRestored(r: PyRecord, doc: Document)
    requires RecordShape(r) && doc.schemaVersion == r["schemaVersion"].s && doc.dppId == r["dppId"].s
    ensures ATTRIBUTES <= r.Keys
    ensures Attributes(doc).Keys == ATTRIBUTES && forall k :: k in ATTRIBUTES ==> Attributes(doc)[k] == r[k]
  {
    assert "dppId" in ATTRIBUTES && "schemaVersion" in ATTRIBUTES;
  }

  lemma UnwrittenAreGood(r: PyRecord, k: string)
    requires RecordShape(r) && k in r && k !in ATTRIBUTES && !Written(r, k)
    ensures GoodRootMember(k, r[k]) && k in CHILDREN
  {
  }

  // What is known of each name.
  lemma NameFacts(r: PyRecord, k: string)
    requires RecordShape(r)
    ensures KindOf(k).Attribute? <==> k in ATTRIBUTES
    ensures k in r && k !in ATTRIBUTES && k !in CHILDREN ==> !GoodRootMember(k, r[k]) && Written(r, k)
    ensures k in r && k in ATTRIBUTES ==> GoodRootMember(k, r[k])
    ensures k in ATTRIBUTES ==> k !in CHILDREN
    ensures k in r && k !in ATTRIBUTES && !Written(r, k) ==> GoodRootMember(k, r[k]) && k in CHILDREN
  {
    hide KindOf, GoodRootMember, RecordShape, Written;
    KindsOfNames(k);
    OtherMembers(r, k);
    if k in r && k !in ATTRIBUTES && !Written(r, k) {
      UnwrittenAreGood(r, k);
    }
  }

  lemma RestoredIff(r: PyRecord, doc: Document)
    requires RecordShape(r) && doc.schemaVersion == r["schemaVersion"].s && doc.dppId == r["dppId"].s
    requires forall n :: n in ORDER <==> n in CHILDREN
    requires forall k :: k in r && k in CHILDREN ==> (ChildRestored(r, k) <==> GoodRootMember(k, r[k]))
    ensures var read := if AllRead(r, ORDER) then Some(Attributes(doc) + ReadBack(r, ORDER)) else Option.None;
      SameRecord(read, Trimmed(r)) <==> GoodRecord(r)
  {
    hide ReadChild, WriteChild, KindOf, GoodRootMember, Attributes, Written, Denote, RecordShape;
    AttributesRestored(r, doc);
    if GoodRecord(r) {
      GoodIsRestored(r, doc);
    } else {
      var k :| k in r && !GoodRootMember(k, r[k]);
      NameFacts(r, k);
      if AllRead(r, ORDER) {
        BadIsLost(r, doc, k);
      }
    }
  }

  lemma GoodIsRestored(r: PyRecord, doc: Document)
    requires RecordShape(r) && GoodRecord(r) && ATTRIBUTES <= r.Keys
    requires Attributes(doc).Keys == ATTRIBUTES && forall k :: k in ATTRIBUTES ==> Attributes(doc)[k] == r[k]
    requires forall n :: n in ORDER <==> n in CHILDREN
    requires forall k :: k in r && k in CHILDREN ==> (ChildRestored(r, k) <==> GoodRootMember(k, r[k]))
    ensures AllRead(r, ORDER) && SameRecord(Some(Attributes(doc) + ReadBack(r, ORDER)), Trimmed(r))
  {
    hide ReadChild, WriteChild, KindOf, GoodRootMember, Attributes, Written, Denote, RecordShape;
    forall n | n in ORDER && Written(r, n) ensures n in r && ReadChild(WriteChild(r, n)).Member? {
      WrittenIsThere(r, n);
      assert ChildRestored(r, n);
    }
    GoodIsSame(r, Attributes(doc), ReadBack(r, ORDER));
  }

  lemma GoodIsSame(r: PyRecord, attributes: PyRecord, back: PyRecord)
    requires RecordShape(r) && GoodRecord(r) && ATTRIBUTES <= r.Keys
    requires attributes.Keys == ATTRIBUTES && forall k :: k in ATTRIBUTES ==> attributes[k] == r[k]
    requires forall k :: k in back <==> k in CHILDREN && Written(r, k)
    requires forall k :: k in back ==> k in r && Denote(back[k]) == Denote(r[k])
    ensures SameRecord(Some(attributes + back), Trimmed(r))
  {
    hide KindOf, GoodRootMember, Written, Denote, RecordShape;
    var read := attributes + back;
    forall k ensures (k in read <==> k in Trimmed(r)) && (k in read ==> Denote(read[k]) == Denote(r[k])) {
      NameFacts(r, k);
      assert k in r ==> GoodRootMember(k, r[k]);
    }
  }

  lemma BadIsLost(r: PyRecord, doc: Document, k: string)
    requires RecordShape(r) && k in r && !GoodRootMember(k, r[k]) && AllRead(r, ORDER)
    requires Attributes(doc).Keys == ATTRIBUTES
    requires forall n :: n in ORDER <==> n in CHILDREN
    requires k in CHILDREN ==> !ChildRestored(r, k)
    ensures !SameRecord(Some(Attributes(doc) + ReadBack(r, ORDER)), Trimmed(r))
  {
    hide ReadChild, WriteChild, KindOf, GoodRootMember, Attributes, Written, Denote, RecordShape;
    NameFacts(r, k);
    var read := Attributes(doc) + ReadBack(r, ORDER);
    assert k in Trimmed(r);
    if k in CHILDREN {
      assert k in ReadBack(r, ORDER) && read[k] == ReadChild(WriteChild(r, k)).value;
    } else {
      assert k !in read;
    }
  }

  lemma OtherMembers(r: PyRecord, k: string)
    requires RecordShape(r)
    ensures k in r && KindOf(k).Other? ==> !GoodRootMember(k, r[k]) && Written(r, k)
    ensures k in r && KindOf(k).Attribute? ==> GoodRootMember(k, r[k])
    ensures k in ATTRIBUTES ==> k !in CHILDREN
  {
    assert ATTRIBUTES !! CHILDREN;
  }
}
