// The members of a record its digest covers, and the digest input.

module Projection {
  import opened Wrappers
  import opened Values
  import opened JsonText

  const TOP_LEVEL: set<string> := {"dppId", "recordVersion", "updatedAt"}
  const IDENTITY: set<string> := {"granularity", "itemId", "epc"}
  const PRODUCT: set<string> := {"articleClass", "fabricConstruction", "technicalFlags"}
  const OBSERVATION: set<string> := {
    "observationId", "fibreType", "percentage", "percentageBasis",
    "valueStatus", "method", "sourceOrganisationId", "observedAt"
  }

  // _pick: the listed members that are present and not null.
  function Pick(source: Record, keys: set<string>): Record {
    map k | k in keys && k in source && source[k] != Null :: source[k]
  }

  // An object member, or an empty object when it is absent.
  function ObjectAt(r: Record, key: string): Record {
    if key in r && r[key].Obj? then r[key].members else map[]
  }

  // An array member, or an empty array when it is absent.
  function ArrayAt(r: Record, key: string): seq<Value> {
    if key in r && r[key].Arr? then r[key].items else []
  }

  function PickItem(v: Value): Value {
    Obj(if v.Obj? then Pick(v.members, OBSERVATION) else map[])
  }

  function PickItems(items: seq<Value>): seq<Value> {
    seq(|items|, i requires 0 <= i < |items| => PickItem(items[i]))
  }

  function IfNonEmpty(key: string, members: Record): Record {
    if members == map[] then map[] else map[key := Obj(members)]
  }

  function IntegrityProjection(r: Record): Record {
    var observations := PickItems(ArrayAt(r, "materialObservations"));
    Pick(r, TOP_LEVEL)
    + IfNonEmpty("identity", Pick(ObjectAt(r, "identity"), IDENTITY))
    + IfNonEmpty("product", Pick(ObjectAt(r, "product"), PRODUCT))
    + (if observations == [] then map[] else map["materialObservations" := Arr(observations)])
  }

  // canonical_bytes: the text whose UTF-8 bytes are hashed.
  function CanonicalText(r: Record): string {
    Text(Obj(IntegrityProjection(r)))
  }

  // ------------------------------------------------------ what is covered

  // The value at a listed path, if there is one and it is not null.
  function Present(r: Record, key: string): Option<Value> {
    if key in r && r[key] != Null then Some(r[key]) else None
  }

  function ItemMembers(v: Value): Record {
    if v.Obj? then v.members else map[]
  }

  // Two records agree on every listed path.
  ghost predicate AgreeOnListed(r: Record, s: Record) {
    && (forall k :: k in TOP_LEVEL ==> Present(r, k) == Present(s, k))
    && (forall k :: k in IDENTITY ==> Present(ObjectAt(r, "identity"), k) == Present(ObjectAt(s, "identity"), k))
    && (forall k :: k in PRODUCT ==> Present(ObjectAt(r, "product"), k) == Present(ObjectAt(s, "product"), k))
    && AgreeOnObservations(ArrayAt(r, "materialObservations"), ArrayAt(s, "materialObservations"))
  }

  ghost predicate AgreeOnObservations(a: seq<Value>, b: seq<Value>) {
    && |a| == |b|
    && forall i, k :: 0 <= i < |a| && k in OBSERVATION
                      ==> Present(ItemMembers(a[i]), k) == Present(ItemMembers(b[i]), k)
  }

  lemma PickAgrees(a: Record, b: Record, keys: set<string>)
    ensures Pick(a, keys) == Pick(b, keys) <==> forall k :: k in keys ==> Present(a, k) == Present(b, k)
  {
    var pa, pb := Pick(a, keys), Pick(b, keys);
    assert forall k :: k in keys ==> Present(a, k) == if k in pa then Some(pa[k]) else None;
    assert forall k :: k in keys ==> Present(b, k) == if k in pb then Some(pb[k]) else None;
    if forall k :: k in keys ==> Present(a, k) == Present(b, k) {
      assert forall k :: k in pa ==> k in pb && pa[k] == pb[k];
      assert forall k :: k in pb ==> k in pa;
    }
  }

  lemma ItemsAgree(a: seq<Value>, b: seq<Value>)
    ensures PickItems(a) == PickItems(b) <==> AgreeOnObservations(a, b)
  {
    if |a| == |b| {
      forall i | 0 <= i < |a|
        ensures PickItems(a)[i] == PickItems(b)[i]
                <==> forall k :: k in OBSERVATION ==> Present(ItemMembers(a[i]), k) == Present(ItemMembers(b[i]), k)
      {
        PickAgrees(ItemMembers(a[i]), ItemMembers(b[i]), OBSERVATION);
      }
      if PickItems(a) == PickItems(b) {
        assert forall i :: 0 <= i < |a| ==> PickItems(a)[i] == PickItems(b)[i];
      }
      if AgreeOnObservations(a, b) {
        assert forall i :: 0 <= i < |a| ==> PickItems(a)[i] == PickItems(b)[i];
      }
    } else {
      assert |PickItems(a)| != |PickItems(b)|;
    }
  }

  lemma FourParts(a: Record, b: Record, c: Record, d: Record, k: string)
    ensures var m := a + b + c + d;
      && (k in m <==> k in a || k in b || k in c || k in d)
      && (k in m ==> m[k] == if k in d then d[k] else if k in c then c[k] else if k in b then b[k] else a[k])
  {
  }

  lemma IfNonEmptyIs(key: string, members: Record, k: string)
    ensures k in IfNonEmpty(key, members) <==> k == key && members != map[]
    ensures k in IfNonEmpty(key, members) ==> IfNonEmpty(key, members)[k] == Obj(members)
  {
  }

  lemma TopLevelNames()
    ensures "identity" !in TOP_LEVEL && "product" !in TOP_LEVEL && "materialObservations" !in TOP_LEVEL
  {
  }

  // What a projection has under a name.
  lemma ProjectionAt(r: Record, k: string)
    ensures var m, identity := IntegrityProjection(r), Pick(ObjectAt(r, "identity"), IDENTITY);
      var product, observations := Pick(ObjectAt(r, "product"), PRODUCT), PickItems(ArrayAt(r, "materialObservations"));
      && (k in m <==> || k in Pick(r, TOP_LEVEL) || (k == "identity" && identity != map[])
                      || (k == "product" && product != map[])
                      || (k == "materialObservations" && observations != []))
      && (k in m ==> m[k] == if k == "identity" then Obj(identity)
                             else if k == "product" then Obj(product)
                             else if k == "materialObservations" then Arr(observations)
                             else Pick(r, TOP_LEVEL)[k])
  {
    TopLevelNames();
    assert Pick(r, TOP_LEVEL).Keys <= TOP_LEVEL;
    hide Pick, PickItems, ObjectAt, ArrayAt, IfNonEmpty, TOP_LEVEL, IDENTITY, PRODUCT;
    var observations := PickItems(ArrayAt(r, "materialObservations"));
    var identity, product := Pick(ObjectAt(r, "identity"), IDENTITY), Pick(ObjectAt(r, "product"), PRODUCT);
    IfNonEmptyIs("identity", identity, k);
    IfNonEmptyIs("product", product, k);
    FourParts(Pick(r, TOP_LEVEL), IfNonEmpty("identity", identity), IfNonEmpty("product", product),
              if observations == [] then map[] else map["materialObservations" := Arr(observations)], k);
  }

  lemma TopLevelParts(r: Record)
    ensures Pick(IntegrityProjection(r), TOP_LEVEL) == Pick(r, TOP_LEVEL)
  {
    var m, top := IntegrityProjection(r), Pick(r, TOP_LEVEL);
    TopLevelNames();
    forall k | k in TOP_LEVEL ensures (k in m <==> k in top) && (k in m ==> m[k] == top[k] && m[k] != Null) {
      ProjectionAt(r, k);
    }
    hide IntegrityProjection, TOP_LEVEL;
  }

  // The parts of a projection can be told apart again.
  lemma ProjectionParts(r: Record)
    ensures var p := IntegrityProjection(r);
      && Pick(p, TOP_LEVEL) == Pick(r, TOP_LEVEL)
      && ObjectAt(p, "identity") == Pick(ObjectAt(r, "identity"), IDENTITY)
      && ObjectAt(p, "product") == Pick(ObjectAt(r, "product"), PRODUCT)
      && ArrayAt(p, "materialObservations") == PickItems(ArrayAt(r, "materialObservations"))
  {
    TopLevelParts(r);
    TopLevelNames();
    ProjectionAt(r, "identity");
    ProjectionAt(r, "product");
    ProjectionAt(r, "materialObservations");
    assert Pick(r, TOP_LEVEL).Keys <= TOP_LEVEL;
    hide IntegrityProjection, Pick, PickItems, TOP_LEVEL, IDENTITY, PRODUCT;
  }

  // Two records have the same canonical text exactly when they agree, value for value
  // and absence for absence, on every path the profile lists. Edits to anything else
  // cannot be seen in the digest.
  lemma SameTextIffAgreeOnListed(r: Record, s: Record)
    ensures CanonicalText(r) == CanonicalText(s) <==> IntegrityProjection(r) == IntegrityProjection(s)
    ensures IntegrityProjection(r) == IntegrityProjection(s) <==> AgreeOnListed(r, s)
  {
    if CanonicalText(r) == CanonicalText(s) {
      TextInjective(Obj(IntegrityProjection(r)), Obj(IntegrityProjection(s)));
    }
    ProjectionParts(r);
    ProjectionParts(s);
    PickAgrees(r, s, TOP_LEVEL);
    PickAgrees(ObjectAt(r, "identity"), ObjectAt(s, "identity"), IDENTITY);
    PickAgrees(ObjectAt(r, "product"), ObjectAt(s, "product"), PRODUCT);
    ItemsAgree(ArrayAt(r, "materialObservations"), ArrayAt(s, "materialObservations"));
  }

  lemma PickTwice(r: Record, keys: set<string>)
    ensures Pick(Pick(r, keys), keys) == Pick(r, keys)
  {
  }

  // A projection projects to itself, so what was hashed can be published and rehashed.
  lemma ProjectionIdempotent(r: Record)
    ensures IntegrityProjection(IntegrityProjection(r)) == IntegrityProjection(r)
  {
    ProjectionParts(r);
    PickTwice(r, TOP_LEVEL);
    PickTwice(ObjectAt(r, "identity"), IDENTITY);
    PickTwice(ObjectAt(r, "product"), PRODUCT);
    var items := ArrayAt(r, "materialObservations");
    forall i | 0 <= i < |items| ensures PickItem(PickItem(items[i])) == PickItem(items[i]) {
      PickTwice(ItemMembers(items[i]), OBSERVATION);
    }
    assert PickItems(PickItems(items)) == PickItems(items);
  }

  // Records of different passports, or different versions of one, never share their
  // canonical text.
  lemma TextNamesPassportAndVersion(r: Record, s: Record)
    requires CanonicalText(r) == CanonicalText(s)
    ensures Present(r, "dppId") == Present(s, "dppId")
    ensures Present(r, "recordVersion") == Present(s, "recordVersion")
  {
    SameTextIffAgreeOnListed(r, s);
    assert "dppId" in TOP_LEVEL && "recordVersion" in TOP_LEVEL;
  }

  // ------------------------------------------------------------- what is hashed

  // What the text holds: of these members those that are there and not null, the two objects
  // and the observations only when there is something in them, and nothing else.
  lemma TextHolds(r: Record) returns (m: Record)
    ensures Parse(CanonicalText(r)) == Some(Obj(m))
    ensures forall k :: k in {"dppId", "recordVersion", "updatedAt"} ==> Present(m, k) == Present(r, k)
    ensures m.Keys <= {"dppId", "recordVersion", "updatedAt", "identity", "product", "materialObservations"}
    ensures HoldsOnly(ObjectAt(m, "identity"), ObjectAt(r, "identity"), {"granularity", "itemId", "epc"})
    ensures HoldsOnly(ObjectAt(m, "product"), ObjectAt(r, "product"),
                      {"articleClass", "fabricConstruction", "technicalFlags"})
    ensures ("identity" in m <==> ObjectAt(m, "identity") != map[])
            && ("product" in m <==> ObjectAt(m, "product") != map[])
            && ("materialObservations" in m <==> ArrayAt(r, "materialObservations") != [])
    ensures var had, kept := ArrayAt(r, "materialObservations"), ArrayAt(m, "materialObservations");
      |kept| == |had| && forall i :: 0 <= i < |had| ==>
        kept[i].Obj? && HoldsOnly(kept[i].members, ItemMembers(had[i]),
                                  {"observationId", "fibreType", "percentage", "percentageBasis", "valueStatus",
                                   "method", "sourceOrganisationId", "observedAt"})
  {
    m := IntegrityProjection(r);
    DecodeText(Obj(m));
    ProjectionKeys(r);
    ProjectionParts(r);
    PickHolds(r, TOP_LEVEL);
    PickHolds(ObjectAt(r, "identity"), IDENTITY);
    PickHolds(ObjectAt(r, "product"), PRODUCT);
    var had := ArrayAt(r, "materialObservations");
    forall i | 0 <= i < |had| ensures HoldsOnly(PickItem(had[i]).members, ItemMembers(had[i]), OBSERVATION) {
      PickHolds(ItemMembers(had[i]), OBSERVATION);
    }
    forall k | k in TOP_LEVEL ensures Present(m, k) == Present(r, k) {
      assert Present(m, k) == Present(Pick(m, TOP_LEVEL), k);
    }
    hide IntegrityProjection, Pick, PickItems, Text, Parse, CanonicalText;
    assert CanonicalText(r) == Text(Obj(m)) by { TextOfProjection(r); }
  }

  // The object has the other's members of these names that are not null, and no more.
  ghost predicate HoldsOnly(m: Record, r: Record, names: set<string>) {
    m.Keys <= names && forall k :: k in names ==> Present(m, k) == Present(r, k) && (k in m ==> m[k] != Null)
  }

  lemma TextOfProjection(r: Record)
    ensures CanonicalText(r) == Text(Obj(IntegrityProjection(r)))
  {
  }

  lemma PickHolds(r: Record, names: set<string>)
    ensures HoldsOnly(Pick(r, names), r, names)
  {
  }

  lemma ProjectionKeys(r: Record)
    ensures var m := IntegrityProjection(r);
      && m.Keys <= TOP_LEVEL + {"identity", "product", "materialObservations"}
      && ("identity" in m ==> m["identity"].Obj? && m["identity"].members != map[])
      && ("product" in m ==> m["product"].Obj? && m["product"].members != map[])
      && ("materialObservations" in m <==> ArrayAt(r, "materialObservations") != [])
      && ("materialObservations" in m ==> m["materialObservations"].Arr?)
  {
    var m := IntegrityProjection(r);
    TopLevelNames();
    assert Pick(r, TOP_LEVEL).Keys <= TOP_LEVEL;
    assert PickItems(ArrayAt(r, "materialObservations")) == [] <==> ArrayAt(r, "materialObservations") == [];
    hide IntegrityProjection, Pick, PickItems, ObjectAt, ArrayAt, TOP_LEVEL, IDENTITY, PRODUCT;
    forall k | k in m ensures k in TOP_LEVEL + {"identity", "product", "materialObservations"} {
      ProjectionAt(r, k);
    }
    ProjectionAt(r, "identity");
    ProjectionAt(r, "product");
    ProjectionAt(r, "materialObservations");
  }
}
