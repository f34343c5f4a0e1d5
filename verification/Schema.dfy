// The record schema's types (dpp-1.0.0.schema.json), which to_xml has checked before it
// writes, and what they mean for reading the document back.

module Schema {
  import opened Wrappers
  import opened PythonValues
  import opened ElementTree
  import opened RoundTrip
  import opened Exchange

  // The kinds of object in a record.
  datatype Part =
    | Identity | Carrier | Product | Observation | Component | Event | Decision | Impact | Evidence
    | Quantity | Confidence

  datatype Type = Text | Integer | Numeric | Flag | Texts | Nested(part: Part) | Unknown

  // The members that are text.
  const IDENTITY_TEXT: set<string> :=
    {"granularity", "modelId", "batchId", "itemId", "epc", "sampleId", "sourceRecordId"}
  const CARRIER_TEXT: set<string> :=
    {"carrierId", "carrierType", "encodingScheme", "encodedIdentifier", "resolverUri", "bindingStatus",
     "boundAt", "boundBy", "closedAt", "placement"}
  const PRODUCT_TEXT: set<string> :=
    {"articleClass", "fabricConstruction", "colourPrimary", "sizeDesignation", "condition", "qualityGrade"}
  const OBSERVATION_TEXT: set<string> :=
    {"observationId", "fibreType", "percentageBasis", "valueStatus", "method", "sourceOrganisationId",
     "sourceSystemId", "observedAt", "evidenceRef"}
  const COMPONENT_TEXT: set<string> :=
    {"componentId", "componentType", "parentComponentId"}
  const EVENT_TEXT: set<string> :=
    {"eventId", "eventType", "eventTime", "eventTimeZoneOffset", "recordedAt", "actorOrganisationId",
     "sourceSystemId", "facilityId", "readPointId", "bizStep", "disposition", "correctsEventId", "evidenceRef"}
  const DECISION_TEXT: set<string> :=
    {"decisionId", "ruleSetId", "ruleSetVersion", "sortingCategory", "route", "decidedAt", "decidedBy",
     "outcomeStatus", "overrideReason"}
  const IMPACT_TEXT: set<string> :=
    {"metricType", "functionalUnit", "systemBoundary", "processStage", "geography", "periodStart", "periodEnd",
     "method", "allocationRule", "factorSource", "factorVersion", "dataQuality", "responsibleOrganisationId",
     "evidenceRef", "custodyModel"}
  const EVIDENCE_TEXT: set<string> :=
    {"evidenceId", "subjectRef", "canonicalisation", "digestAlgorithm", "digestValue", "evidenceState",
     "createdAt", "ledgerNetworkId", "transactionRef", "confirmedAt", "lastReasonCode"}
  const QUANTITY_TEXT: set<string> :=
    {"unit"}
  const CONFIDENCE_TEXT: set<string> :=
    {"scale"}

  function TextMembers(part: Part): set<string> {
    match part
    case Identity => IDENTITY_TEXT
    case Carrier => CARRIER_TEXT
    case Product => PRODUCT_TEXT
    case Observation => OBSERVATION_TEXT
    case Component => COMPONENT_TEXT
    case Event => EVENT_TEXT
    case Decision => DECISION_TEXT
    case Impact => IMPACT_TEXT
    case Evidence => EVIDENCE_TEXT
    case Quantity => QUANTITY_TEXT
    case Confidence => CONFIDENCE_TEXT
  }

  // The members that are not text.
  function OtherType(part: Part, name: string): Type {
    match part
    case Product =>
      if name == "mass" then Nested(Quantity) else if name == "technicalFlags" then Texts else Unknown
    case Observation =>
      if name == "percentage" then Numeric else if name == "confidence" then Nested(Confidence) else Unknown
    case Component =>
      if name == "materialObservationRefs" then Texts
      else if name == "mass" then Nested(Quantity)
      else if name == "separable" then Flag
      else Unknown
    case Event => if name == "inputRefs" || name == "outputRefs" then Texts else Unknown
    case Decision =>
      if name == "basedOnObservations" then Texts
      else if name == "basedOnRecordVersion" then Integer
      else Unknown
    case Impact => if name == "quantity" then Nested(Quantity) else Unknown
    case Evidence => if name == "subjectVersion" || name == "attempts" then Integer else Unknown
    case Quantity => if name == "value" then Numeric else Unknown
    case Confidence => if name == "value" then Numeric else Unknown
    case _ => Unknown
  }

  function TypeOf(part: Part, name: string): Type {
    if name in TextMembers(part) then Text else OtherType(part, name)
  }

  function Required(part: Part): set<string> {
    match part
    case Identity => {"granularity"}
    case Carrier =>
      {"carrierId", "carrierType", "encodingScheme", "encodedIdentifier", "bindingStatus", "boundAt", "boundBy"}
    case Product => {"articleClass"}
    case Observation => {"observationId", "fibreType", "valueStatus", "method", "sourceOrganisationId", "observedAt"}
    case Component => {"componentId", "componentType"}
    case Event =>
      {"eventId", "eventType", "eventTime", "eventTimeZoneOffset", "recordedAt", "actorOrganisationId",
       "sourceSystemId"}
    case Decision =>
      {"decisionId", "basedOnObservations", "ruleSetId", "ruleSetVersion", "sortingCategory", "decidedAt", "decidedBy",
       "outcomeStatus"}
    case Impact =>
      {"metricType", "quantity", "functionalUnit", "systemBoundary", "processStage", "geography", "periodStart",
       "periodEnd", "method", "allocationRule", "factorSource", "factorVersion", "responsibleOrganisationId"}
    case Evidence =>
      {"evidenceId", "subjectRef", "subjectVersion", "canonicalisation", "digestAlgorithm", "digestValue",
       "evidenceState"}
    case Quantity => {"value", "unit"}
    case Confidence => {"value", "scale"}
  }

  // A whole number, whether an int or a float: "integer" in the 2020-12 draft.
  predicate IsWhole(v: Json) {
    v.Number? && (v.num.Int? || v.num.WholeFloat?)
  }

  predicate HasType(t: Type, v: Json)
    decreases v, 1
  {
    match t
    case Text => v.Str?
    case Integer => IsWhole(v)
    case Numeric => v.Number?
    case Flag => v.Bool?
    case Texts => v.List? && forall x :: x in v.items ==> x.Str?
    case Nested(part) => IsPart(part, v)
    case Unknown => false
  }

  // No member the schema does not name, none missing that it requires, each of its type.
  predicate IsPart(part: Part, v: Json)
    decreases v, 0
  {
    && v.Dict?
    && (forall name :: name in Required(part) ==> exists p :: p in v.pairs && p.key == name)
    && forall p :: p in v.pairs ==> HasType(TypeOf(part, p.key), p.value)
  }

  function ObjectPart(name: string): Part {
    if name == "identity" then Identity else Product
  }

  function RowPart(name: string): Part {
    if name == "carriers" then Carrier
    else if name == "materialObservations" then Observation
    else if name == "components" then Component
    else if name == "lifecycleEvents" then Event
    else if name == "sortingDecisions" then Decision
    else if name == "environmentalValues" then Impact
    else Evidence
  }

  // A top-level member of the type the schema gives it.
  predicate HasRootType(name: string, v: Json) {
    match KindOf(name)
    case Attribute => v.Str?
    case Scalar => if name == "recordVersion" then IsWhole(v) else v.Str?
    case Object => IsPart(ObjectPart(name), v)
    case Array => v.List? && forall x :: x in v.items ==> IsPart(RowPart(name), x)
    case Other => false
  }

  const REQUIRED: set<string> :=
    {"dppId", "schemaVersion", "recordVersion", "status", "createdAt", "updatedAt", "responsibleOperatorId", "identity",
     "product", "materialObservations"}

  predicate IsRecord(r: PyRecord) {
    REQUIRED <= r.Keys && forall name :: name in r ==> HasRootType(name, r[name])
  }

  // What may be asked of a number that is not of integer type: that its text spells its
  // value, or that its text has no exponent.
  datatype Demand = Spelled | WithoutExponent

  predicate Meets(d: Demand, num: PythonValues.Number) {
    match d
    case Spelled => Exact(num)
    case WithoutExponent => Unscaled(num)
  }

  // Numbers of integer type are ints, and the others meet the demand, at every depth.
  predicate Numbers(d: Demand, t: Type, v: Json)
    decreases v, 1
  {
    match t
    case Integer => v.Number? && v.num.Int?
    case Numeric => v.Number? && Meets(d, v.num)
    case Nested(part) => MemberNumbers(d, part, v)
    case _ => true
  }

  predicate MemberNumbers(d: Demand, part: Part, v: Json)
    decreases v, 0
  {
    v.Dict? ==> forall p :: p in v.pairs ==> Numbers(d, TypeOf(part, p.key), p.value)
  }

  // ------------------------------------------------------------ names and types

  predicate Untyped(name: string) {
    && name !in INTEGER_FIELDS && name !in DECIMAL_FIELDS && name !in BOOLEAN_FIELDS && name !in LIST_FIELDS
  }

  // Enough of a name to tell the typed ones from the others.
  function Mark(name: string): (int, char, char)
    requires |name| >= 2
  {
    (|name|, name[0], name[1])
  }

  const TYPED: set<string> := INTEGER_FIELDS + DECIMAL_FIELDS + BOOLEAN_FIELDS + LIST_FIELDS
  const MARKS: set<(int, char, char)> :=
    {(13, 'r', 'e'), (20, 'b', 'a'), (14, 's', 'u'), (8, 'a', 't'), (10, 'p', 'e'), (5, 'v', 'a'), (9, 's', 'e'),
     (14, 't', 'e'), (23, 'm', 'a'), (19, 'b', 'a'), (9, 'i', 'n'), (10, 'o', 'u')}

  lemma TypedMarks(name: string)
    requires name in TYPED
    ensures |name| >= 2 && Mark(name) in MARKS
  {
  }

  // A good name that announces no type.
  predicate Plain(name: string) {
    |name| >= 2 && 'a' <= name[0] <= 'z' && '}' !in name && Mark(name) !in MARKS
  }

  lemma IdentityText()
    ensures forall name :: name in IDENTITY_TEXT ==> Plain(name)
  {
  }

  lemma CarrierText()
    ensures forall name :: name in CARRIER_TEXT ==> Plain(name)
  {
  }

  lemma ProductText()
    ensures forall name :: name in PRODUCT_TEXT ==> Plain(name)
  {
  }

  lemma ObservationText()
    ensures forall name :: name in OBSERVATION_TEXT ==> Plain(name)
  {
  }

  lemma ComponentText()
    ensures forall name :: name in COMPONENT_TEXT ==> Plain(name)
  {
  }

  lemma EventText()
    ensures forall name :: name in EVENT_TEXT ==> Plain(name)
  {
  }

  lemma DecisionText()
    ensures forall name :: name in DECISION_TEXT ==> Plain(name)
  {
  }

  lemma ImpactText()
    ensures forall name :: name in IMPACT_TEXT ==> Plain(name)
  {
  }

  lemma EvidenceText()
    ensures forall name :: name in EVIDENCE_TEXT ==> Plain(name)
  {
  }

  lemma QuantityText()
    ensures forall name :: name in QUANTITY_TEXT ==> Plain(name)
  {
  }

  lemma ConfidenceText()
    ensures forall name :: name in CONFIDENCE_TEXT ==> Plain(name)
  {
  }

  lemma TextNamesGood(part: Part, name: string)
    requires name in TextMembers(part)
    ensures GoodKey(name) && Untyped(name)
  {
    hide GoodKey, Plain, Untyped;
    match part {
      case Identity => IdentityText();
      case Carrier => CarrierText();
      case Product => ProductText();
      case Observation => ObservationText();
      case Component => ComponentText();
      case Event => EventText();
      case Decision => DecisionText();
      case Impact => ImpactText();
      case Evidence => EvidenceText();
      case Quantity => QuantityText();
      case Confidence => ConfidenceText();
    }
    PlainIsGood(name);
  }

  lemma PlainIsGood(name: string)
    requires Plain(name)
    ensures GoodKey(name) && Untyped(name)
  {
    if name in TYPED { TypedMarks(name); }
  }

  // Every other member has a name that announces its type.
  lemma OtherNamesGood(part: Part, name: string)
    requires !OtherType(part, name).Unknown?
    ensures GoodKey(name) && (name in LIST_FIELDS <==> OtherType(part, name).Texts?)
    ensures name in INTEGER_FIELDS <==> OtherType(part, name).Integer?
    ensures name in DECIMAL_FIELDS <==> OtherType(part, name).Numeric?
    ensures name in BOOLEAN_FIELDS <==> OtherType(part, name).Flag?
    ensures !OtherType(part, name).Text?
  {
  }

  lemma ItemNamesUntyped(name: string)
    requires name in LIST_FIELDS
    ensures Untyped(Camel(ItemName(name)))
  {
    ItemNamesPlain(name);
    hide Plain, Untyped, Camel, ItemName;
    PlainIsGood(Camel(ItemName(name)));
  }

  const ITEM_NAMES: set<string> :=
    {"TechnicalFlag", "MaterialObservationRef", "ObservationRef", "InputRef", "OutputRef"}

  lemma ItemMarks(item: string)
    requires item in ITEM_NAMES
    ensures |item| >= 2 && 'A' <= item[0] <= 'Z' && '}' !in item
    ensures (|item|, Lower(item[0]), item[1]) !in MARKS
  {
  }

  lemma ItemNamesPlain(name: string)
    requires name in LIST_FIELDS
    ensures Plain(Camel(ItemName(name)))
  {
    var item := ItemName(name);
    assert item in ITEM_NAMES;
    hide ItemName;
    ItemMarks(item);
    CamelHasNoBrace(item);
  }

  lemma CamelHasNoBrace(item: string)
    requires item != "" && '}' !in item
    ensures '}' !in Camel(item) && |Camel(item)| == |item| && Camel(item)[1..] == item[1..]
  {
    assert item[0] in item && forall c :: c in item[1..] ==> c in item;
  }

  lemma RequiresSome(part: Part)
    ensures Required(part) != {}
  {
  }

  // ------------------------------------------------------------ parts are good

  lemma PartIsGood(part: Part, v: Json)
    requires IsPart(part, v)
    ensures v.Dict? && v.pairs != [] && (GoodMembers(v.pairs) <==> MemberNumbers(Spelled, part, v))
    decreases v, 0
  {
    hide GoodKey, TypeOf, Required;
    RequiresSome(part);
    var name :| name in Required(part);
    assert exists p :: p in v.pairs && p.key == name;
    forall p | p in v.pairs
      ensures GoodKey(p.key) && (GoodValue(p.key, p.value) <==> Numbers(Spelled, TypeOf(part, p.key), p.value))
    {
      MemberIsGood(part, p.key, p.value);
    }
  }

  lemma MemberIsGood(part: Part, name: string, v: Json)
    requires HasType(TypeOf(part, name), v)
    ensures GoodKey(name)
    ensures GoodValue(name, v) <==> Numbers(Spelled, TypeOf(part, name), v)
    decreases v, 1
  {
    hide GoodKey, OtherType, TextMembers, GoodMembers, IsPart, ItemName, Camel, Required, MemberNumbers;
    if name in TextMembers(part) {
      TextNamesGood(part, name);
    } else {
      OtherNamesGood(part, name);
      if TypeOf(part, name).Texts? {
        ItemNamesUntyped(name);
      }
      if TypeOf(part, name).Nested? {
        PartIsGood(TypeOf(part, name).part, v);
      }
    }
  }

  // --------------------------------------------------------- records are good

  ghost predicate Plausible(r: PyRecord) {
    IsRecord(r) && forall k :: k in r ==> WellFormed(r[k]) && Pythonic(r[k])
  }

  lemma RootTypeShape(name: string, v: Json)
    requires HasRootType(name, v)
    ensures name in ATTRIBUTES ==> v.Str?
    ensures name in OBJECTS ==> v.Dict?
    ensures name in ARRAYS ==> v.List? && forall x :: x in v.items ==> x.Dict?
  {
    hide TypeOf, Required, RowPart;
  }

  lemma RequiredMembers()
    ensures ATTRIBUTES <= REQUIRED && OBJECTS <= REQUIRED
  {
  }

  lemma RecordHasShape(r: PyRecord)
    requires Plausible(r)
    ensures RecordShape(r)
  {
    hide HasRootType, WellFormed, Pythonic;
    RequiredMembers();
    forall k | k in r
      ensures k in ATTRIBUTES ==> r[k].Str?
      ensures k in OBJECTS ==> r[k].Dict?
      ensures k in ARRAYS ==> r[k].List? && forall x :: x in r[k].items ==> x.Dict?
    {
      RootTypeShape(k, r[k]);
    }
  }

  // What is asked of the numbers in one top-level member.
  predicate RootNumbers(d: Demand, name: string, v: Json) {
    match KindOf(name)
    case Scalar => name == "recordVersion" ==> v.Number? && v.num.Int?
    case Object => MemberNumbers(d, ObjectPart(name), v)
    case Array => v.List? ==> forall x :: x in v.items ==> MemberNumbers(d, RowPart(name), x)
    case _ => true
  }

  lemma RootMemberIsGood(name: string, v: Json)
    requires HasRootType(name, v)
    ensures GoodRootMember(name, v) <==> RootNumbers(Spelled, name, v)
  {
    hide KindOf, GoodMembers, MemberNumbers, IsPart, RowPart, ObjectPart;
    match KindOf(name)
    case Object => PartIsGood(ObjectPart(name), v);
    case Array =>
      forall x | x in v.items ensures x.Dict? && (GoodMembers(x.pairs) <==> MemberNumbers(Spelled, RowPart(name), x)) {
        PartIsGood(RowPart(name), x);
      }
    case _ =>
  }

  // What from_xml recovers from the elements is the record, empty arrays aside.
  ghost predicate Restored(r: PyRecord) {
    RecordShape(r)
    && var doc := Document(r["schemaVersion"].s, r["dppId"].s, WriteChildren(r, ORDER));
       SameRecord(FillAll(Some(Attributes(doc)), doc.children), Trimmed(r))
  }

  // Every record the schema admits is read back from its elements as it was written exactly
  // when its members of integer type are ints and the text of each other number spells its
  // value. The schema also admits whole floats as integers, and any float as a quantity.
  lemma SchemaRecordRoundTrip(r: PyRecord)
    requires Plausible(r)
    ensures Restored(r) <==> forall name :: name in r ==> RootNumbers(Spelled, name, r[name])
  {
    hide RecordShape, SameRecord, HasRootType, GoodRootMember, RootNumbers, WriteChildren, FillAll, Attributes,
         WellFormed, Pythonic;
    RecordHasShape(r);
    RecordRoundTrip(r);
    forall name | name in r ensures GoodRootMember(name, r[name]) <==> RootNumbers(Spelled, name, r[name]) {
      RootMemberIsGood(name, r[name]);
    }
  }
}
