// What each operation of the passport store does to its state (store.py), as functions
// on values. The class in Store.dfy is proved to compute these.

module StoreSpec {
  import opened Wrappers
  import opened Values
  import opened Projection
  import opened Records
  import EntityTag

  datatype EvidenceState = Created | Queued | Submitted | RetryableFailed | Confirmed | TerminalFailed

  // Reason codes a ledger adapter raises; only these two change what happens next.
  datatype Reason = SubmitRejected | TimeoutAfterBroadcast | OtherReason(code: string)

  datatype OutboxItem = OutboxItem(
    evidenceId: string,
    dppId: string,
    subjectVersion: int,
    digestValue: string,
    createdAt: string,
    state: EvidenceState,
    attempts: nat,
    transactionRef: Option<string>,
    networkId: Option<string>,
    confirmedAt: Option<string>,
    lastReason: Option<Reason>
  )

  datatype StoreState = StoreState(
    records: map<string, Record>,
    history: map<string, seq<Record>>,
    index: map<string, string>,    // commissioned identifier -> passport
    retired: map<string, string>,  // closed identifier -> passport
    outbox: seq<OutboxItem>,
    lastCommitMs: real
  )

  datatype Fault =
    | NotFound
    | DuplicateBinding
    | VersionConflict
    | AppendOnlyViolation
    | Rejected       // validate_payload or the digest raised
    | BadRequest     // a member the code indexes is missing or has the wrong type
    | RetiredPassport
    | RetiredCarrier
    | UnknownCarrier

  datatype Result<+T> = Ok(value: T) | Err(fault: Fault)

  function Empty(): StoreState {
    StoreState(map[], map[], map[], map[], [], 0.0)
  }

  function HistoryOf(s: StoreState, id: string): seq<Record> {
    if id in s.history then s.history[id] else []
  }

  // ----------------------------------------------------------------- commit

  function NewItem(p: Profile, r: Record, a: Ambient): OutboxItem
    requires Shaped(r)
  {
    OutboxItem(a.evidenceUrn, DppId(r), Version(r), Digest(p, r), a.now, Queued, 0, None, None, None, None)
  }

  function Commit(p: Profile, s: StoreState, r: Record, a: Ambient): StoreState
    requires Shaped(r)
  {
    s.(records := s.records[DppId(r) := r],
       history := s.history[DppId(r) := HistoryOf(s, DppId(r)) + [r]],
       outbox := s.outbox + [NewItem(p, r, a)],
       lastCommitMs := a.ms)
  }

  // ----------------------------------------------------------------- create

  const SCHEMA_VERSION := "1.0.0"
  const ACCESS_POLICY_VERSION := "1.0.0"

  function Defaults(a: Ambient): Record {
    map["dppId" := Str(a.dppUrn), "schemaVersion" := Str(SCHEMA_VERSION), "status" := Str("active"),
        "accessPolicyVersion" := Str(ACCESS_POLICY_VERSION), "carriers" := Arr([]),
        "lifecycleEvents" := Arr([]), "sortingDecisions" := Arr([]), "integrity" := Arr([]),
        "createdAt" := Str(a.now)]
  }

  // dict.setdefault
  function SetDefault(r: Record, key: string, value: Value): Record {
    if key in r then r else r[key := value]
  }

  // The first version of a record.
  function Initial(payload: Record, a: Ambient): Record {
    (Defaults(a) + payload)["recordVersion" := IntVal(1)]["updatedAt" := Str(a.now)]
  }

  function Create(p: Profile, s: StoreState, payload: Record, a: Ambient): (StoreState, Result<Record>) {
    var r := Initial(payload, a);
    if r["dppId"].Str? && r["dppId"].str in s.records then (s, Err(DuplicateBinding))
    else if !Accepts(p, r) then (s, Err(Rejected))
    else (Commit(p, s, r, a), Ok(r))
  }

  // ------------------------------------------------------------------ patch

  // null removes a member, an object is merged into an object, anything else replaces.
  function Patched(r: Record, patch: Record): Record {
    map k | k in r.Keys + patch.Keys && !(k in patch && patch[k] == Null) ::
      if k !in patch then r[k]
      else if patch[k].Obj? && k in r && r[k].Obj? then Obj(r[k].members + patch[k].members)
      else patch[k]
  }

  // The successor of a record: one version on, stamped now.
  function Succeed(r: Record, updated: Record, a: Ambient): Record
    requires Shaped(r)
  {
    updated["recordVersion" := IntVal(Version(r) + 1)]["updatedAt" := Str(a.now)]
  }

  function Patch(p: Profile, s: StoreState, id: string, patch: Record, ifMatch: Option<string>, a: Ambient)
    : (StoreState, Result<Record>)
    requires AllShaped(s)
  {
    if id !in s.records then (s, Err(NotFound))
    else
      var r := s.records[id];
      if ifMatch.None? || !EntityTag.Matches(ifMatch.value, DppId(r), Version(r)) then (s, Err(VersionConflict))
      else
        var updated := Patched(r, patch);
        if !Guard(r, updated) then (s, Err(AppendOnlyViolation))
        else
          var next := Succeed(r, updated, a);
          if !Accepts(p, next) then (s, Err(Rejected)) else (Commit(p, s, next, a), Ok(next))
  }

  // ----------------------------------------------------------------- append

  // r.get(key), up to Python's equality.
  function Lookup(r: Record, key: string): Value {
    if key in r then Norm(r[key]) else Null
  }

  // An entry with the same identifier is already there.
  predicate HasEntry(items: seq<Value>, entry: Record, idField: string) {
    exists i :: 0 <= i < |items| && items[i].Obj? && Lookup(items[i].members, idField) == Lookup(entry, idField)
  }

  function Appended(r: Record, collection: string, entry: Record): Record {
    r[collection := Arr(ArrayAt(r, collection) + [Obj(entry)])]
  }

  function Append(p: Profile, s: StoreState, id: string, collection: string, entry: Record, idField: string,
                        a: Ambient): (StoreState, Result<Record>)
    requires AllShaped(s)
  {
    if id !in s.records then (s, Err(NotFound))
    else
      var r := s.records[id];
      if collection in r && !IsArrayOfObjects(r[collection]) then (s, Err(BadRequest))
      else if HasEntry(ArrayAt(r, collection), entry, idField) then (s, Ok(r))
      else
        var next := Succeed(r, Appended(r, collection, entry), a);
        if !Accepts(p, next) then (s, Err(Rejected)) else (Commit(p, s, next, a), Ok(next))
  }

  // ----------------------------------------------------- commission a carrier

  // The identifier a carrier asks for. Only a string is ever accepted.
  function Requested(carrier: Record): string
    requires "encodedIdentifier" in carrier
  {
    if carrier["encodedIdentifier"].Str? then carrier["encodedIdentifier"].str else ""
  }

  // A different passport holds, or once held, the identifier.
  predicate TakenByOther(s: StoreState, encoded: string, id: string) {
    || (encoded in s.index && s.index[encoded] != id)
    || (encoded in s.retired && s.retired[encoded] != id)
  }

  // The commissioned identifiers of a record move from the index to the retired map.
  function Retire(s: StoreState, r: Record): StoreState
    requires Shaped(r)
  {
    var ids := CommissionedIds(Carriers(r));
    s.(index := s.index - ids, retired := s.retired + Owned(ids, DppId(r)))
  }

  function Owned(ids: set<string>, id: string): map<string, string> {
    map e | e in ids :: id
  }

  function Member(r: Record, key: string, default: Value): Value {
    if key in r then r[key] else default
  }

  function Optional(r: Record, key: string): Record {
    if key in r then map[key := r[key]] else map[]
  }

  function NewCarrier(carrier: Record, a: Ambient): Record
    requires {"encodedIdentifier", "carrierType", "encodingScheme", "boundBy"} <= carrier.Keys
  {
    map["carrierId" := Member(carrier, "carrierId", Str(a.carrierUrn)),
        "carrierType" := carrier["carrierType"],
        "encodingScheme" := carrier["encodingScheme"],
        "encodedIdentifier" := carrier["encodedIdentifier"],
        "bindingStatus" := Str("commissioned"),
        "boundAt" := Member(carrier, "boundAt", Str(a.now)),
        "boundBy" := carrier["boundBy"]]
    + Optional(carrier, "resolverUri") + Optional(carrier, "placement")
  }

  function Bound(r: Record, entry: Record, a: Ambient): Record
    requires Shaped(r) && "encodedIdentifier" in entry
  {
    r["carriers" := Arr(CloseAll(Carriers(r), a.now) + [Obj(entry)])]
     ["identity" := Obj(ObjectAt(r, "identity")["epc" := entry["encodedIdentifier"]])]
  }

  function Commission(p: Profile, s: StoreState, id: string, carrier: Record, a: Ambient)
    : (StoreState, Result<Record>)
    requires AllShaped(s)
  {
    if id !in s.records then (s, Err(NotFound))
    else if "encodedIdentifier" !in carrier || carrier["encodedIdentifier"].Arr? || carrier["encodedIdentifier"].Obj?
    then (s, Err(BadRequest))
    else if carrier["encodedIdentifier"].Str? && TakenByOther(s, Requested(carrier), id)
    then (s, Err(DuplicateBinding))
    else
      var r := s.records[id];
      var closed := Retire(s, r);
      if !({"carrierType", "encodingScheme", "boundBy"} <= carrier.Keys) then (closed, Err(BadRequest))
      else
        var next := Succeed(r, Bound(r, NewCarrier(carrier, a), a), a);
        if !Accepts(p, next) then (closed, Err(Rejected))
        else
          var done := Commit(p, closed, next, a);
          (done.(index := done.index[Requested(carrier) := id]), Ok(next))
  }

  // ------------------------------------------------------------------ reads

  function Get(s: StoreState, id: string): Result<Record>
    requires AllShaped(s)
  {
    if id !in s.records then Err(NotFound)
    else if s.records[id]["status"] == Str("retired") then Err(RetiredPassport)
    else Ok(s.records[id])
  }

  function FindVersion(h: seq<Record>, version: int): Result<Record> {
    if h == [] then Err(NotFound)
    else if "recordVersion" in h[0] && h[0]["recordVersion"] == IntVal(version) then Ok(h[0])
    else FindVersion(h[1..], version)
  }

  function GetVersion(s: StoreState, id: string, version: int): Result<Record> {
    FindVersion(HistoryOf(s, id), version)
  }

  function Resolve(s: StoreState, encoded: string): Result<Record>
    requires AllShaped(s)
  {
    if encoded in s.index then Get(s, s.index[encoded])
    else if encoded in s.retired then Err(RetiredCarrier)
    else Err(UnknownCarrier)
  }

  // ------------------------------------------------------------- well-formed

  // Stored records have the record schema's shape and sit under their own identifier.
  predicate AllShaped(s: StoreState) {
    forall id :: id in s.records ==> Shaped(s.records[id]) && DppId(s.records[id]) == id
  }

  lemma CommitShaped(p: Profile, s: StoreState, r: Record, a: Ambient)
    requires AllShaped(s) && Shaped(r)
    ensures AllShaped(Commit(p, s, r, a))
  {
    hide Shaped, Digest;
  }

  lemma SameRecordsShaped(s: StoreState, t: StoreState)
    requires AllShaped(s) && t.records == s.records
    ensures AllShaped(t)
  {
  }
}
