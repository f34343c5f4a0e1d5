// The passport store as the program has it: an object whose methods update its
// dictionaries and its outbox in place. Each method is proved to compute the function of
// the same name in StoreSpec.

module Store {
  import opened Wrappers
  import opened Values
  import opened Projection
  import opened Records
  import opened StoreSpec
  import EntityTag
  import Spec = StoreSpec

  // A unit of work committed with the passport write; the worker updates it in place.
  class OutboxEntry {
    const evidenceId: string
    const dppId: string
    const subjectVersion: int
    const digestValue: string
    const createdAt: string
    var state: EvidenceState
    var attempts: nat
    var transactionRef: Option<string>
    var networkId: Option<string>
    var confirmedAt: Option<string>
    var lastReason: Option<Reason>

    constructor (evidenceId: string, dppId: string, subjectVersion: int, digestValue: string, createdAt: string)
      ensures Item() == OutboxItem(evidenceId, dppId, subjectVersion, digestValue, createdAt, Created, 0,
                                   None, None, None, None)
    {
      this.evidenceId, this.dppId, this.subjectVersion := evidenceId, dppId, subjectVersion;
      this.digestValue, this.createdAt := digestValue, createdAt;
      state, attempts := Created, 0;
      transactionRef, networkId, confirmedAt, lastReason := None, None, None, None;
    }

    function Item(): OutboxItem
      reads this
    {
      OutboxItem(evidenceId, dppId, subjectVersion, digestValue, createdAt, state, attempts,
                 transactionRef, networkId, confirmedAt, lastReason)
    }
  }

  function ItemsOf(entries: seq<OutboxEntry>): (items: seq<OutboxItem>)
    reads entries
    ensures |items| == |entries|
    ensures forall k :: 0 <= k < |entries| ==> items[k] == entries[k].Item()
  {
    seq(|entries|, i requires 0 <= i < |entries| reads entries => entries[i].Item())
  }

  class PassportStore {
    const profile: Profile
    var records: map<string, Record>
    var history: map<string, seq<Record>>
    var carrierIndex: map<string, string>
    var retiredCarriers: map<string, string>
    var outbox: seq<OutboxEntry>
    var lastCommitMs: real

    ghost function State(): StoreState
      reads this, outbox
    {
      StoreState(records, history, carrierIndex, retiredCarriers, ItemsOf(outbox), lastCommitMs)
    }

    ghost predicate Valid()
      reads this, outbox
    {
      && AllShaped(State())
      && forall j, k :: 0 <= j < k < |outbox| ==> outbox[j] != outbox[k]
    }

    constructor (profile: Profile)
      ensures this.profile == profile && Valid() && State() == Empty()
    {
      this.profile := profile;
      records, history, carrierIndex, retiredCarriers := map[], map[], map[], map[];
      outbox, lastCommitMs := [], 0.0;
    }

    // The entry for a new version, not yet queued.
    method NewEntry(record: Record, a: Ambient) returns (entry: OutboxEntry)
      requires Shaped(record)
      ensures fresh(entry) && entry.Item() == NewItem(profile, record, a).(state := Created)
    {
      hide Shaped, DppId, Version, Digest;
      entry := new OutboxEntry(a.evidenceUrn, DppId(record), Version(record), Digest(profile, record), a.now);
    }

    // The record and its outbox entry, as one operation.
    method Commit(record: Record, a: Ambient)
      requires Valid() && Shaped(record)
      modifies this
      ensures Valid() && State() == Spec.Commit(profile, old(State()), record, a)
      ensures |outbox| > 0 && outbox[..|outbox| - 1] == old(outbox) && fresh(outbox[|outbox| - 1])
    {
      hide Shaped, DppId, Version, Digest, AllShaped, NewItem;
      CommitShaped(profile, State(), record, a);
      var id := DppId(record);
      var entry := NewEntry(record, a);
      records := records[id := record];
      history := history[id := (if id in history then history[id] else []) + [record]];
      entry.state := Queued;
      outbox := outbox + [entry];
      lastCommitMs := a.ms;
      assert outbox[..|outbox| - 1] == old(outbox);
      assert entry.Item() == NewItem(profile, record, a) by { NewItemIsQueued(profile, record, a); }
      assert ItemsOf(outbox) == old(ItemsOf(outbox)) + [entry.Item()];
    }

    method Create(payload: Record, a: Ambient) returns (result: Result<Record>)
      requires Valid()
      modifies this
      ensures Valid() && (State(), result) == Spec.Create(profile, old(State()), payload, a)
      ensures old(outbox) <= outbox && forall k :: |old(outbox)| <= k < |outbox| ==> fresh(outbox[k])
    {
      hide Shaped, Initial, AllShaped, Digest, Spec.Commit;
      var record := payload;
      record := SetDefault(record, "dppId", Str(a.dppUrn));
      record := SetDefault(record, "schemaVersion", Str(SCHEMA_VERSION));
      record := SetDefault(record, "status", Str("active"));
      record := SetDefault(record, "accessPolicyVersion", Str(ACCESS_POLICY_VERSION));
      record := SetDefault(record, "carriers", Arr([]));
      record := SetDefault(record, "lifecycleEvents", Arr([]));
      record := SetDefault(record, "sortingDecisions", Arr([]));
      record := SetDefault(record, "integrity", Arr([]));
      assert record == WithCollections(WithIdentity(payload, a));
      record := record["recordVersion" := IntVal(1)];
      record := record["createdAt" := Member(record, "createdAt", Str(a.now))];
      record := record["updatedAt" := Str(a.now)];
      assert record == Initial(payload, a) by { DefaultsInOrder(payload, a); }
      if record["dppId"].Str? && record["dppId"].str in records {
        return Err(DuplicateBinding);
      }
      if !Accepts(profile, record) {
        return Err(Rejected);
      }
      Commit(record, a);
      return Ok(record);
    }

    method Patch(id: string, patch: Record, ifMatch: Option<string>, a: Ambient) returns (result: Result<Record>)
      requires Valid()
      modifies this
      ensures Valid() && (State(), result) == Spec.Patch(profile, old(State()), id, patch, ifMatch, a)
      ensures old(outbox) <= outbox && forall k :: |old(outbox)| <= k < |outbox| ==> fresh(outbox[k])
    {
      hide Shaped, DppId, Version, Guard, Patched, AllShaped, Digest, Spec.Commit;
      if id !in records {
        return Err(NotFound);
      }
      var record := records[id];
      StoredShaped(State(), id);
      if ifMatch.None? || !EntityTag.Matches(ifMatch.value, DppId(record), Version(record)) {
        return Err(VersionConflict);
      }
      var updated := record;
      var todo, done := patch.Keys, {};
      PatchedNothing(record, patch);
      while todo != {}
        invariant todo + done == patch.Keys && todo !! done
        invariant updated == Patched(record, Only(patch, done))
        modifies {}
        decreases todo
      {
        var key :| key in todo;
        PatchedStep(record, patch, done, key);
        if patch[key] == Null {
          updated := updated - {key};
        } else if patch[key].Obj? && key in updated && updated[key].Obj? {
          updated := updated[key := Obj(updated[key].members + patch[key].members)];
        } else {
          updated := updated[key := patch[key]];
        }
        todo, done := todo - {key}, done + {key};
      }
      assert Only(patch, done) == patch;
      if !Guard(record, updated) {
        return Err(AppendOnlyViolation);
      }
      updated := updated["recordVersion" := IntVal(Version(record) + 1)]["updatedAt" := Str(a.now)];
      if !Accepts(profile, updated) {
        return Err(Rejected);
      }
      Commit(updated, a);
      return Ok(updated);
    }

    method Append(id: string, collection: string, entry: Record, idField: string, a: Ambient)
      returns (result: Result<Record>)
      requires Valid()
      modifies this
      ensures Valid() && (State(), result) == Spec.Append(profile, old(State()), id, collection, entry, idField, a)
      ensures old(outbox) <= outbox && forall k :: |old(outbox)| <= k < |outbox| ==> fresh(outbox[k])
    {
      hide Shaped, DppId, Version, AllShaped, Digest, Spec.Commit;
      if id !in records {
        return Err(NotFound);
      }
      var record := records[id];
      StoredShaped(State(), id);
      if collection in record && !IsArrayOfObjects(record[collection]) {
        return Err(BadRequest);
      }
      var existing := ArrayAt(record, collection);
      for i := 0 to |existing|
        invariant forall k :: 0 <= k < i ==>
          !(existing[k].Obj? && Lookup(existing[k].members, idField) == Lookup(entry, idField))
        modifies {}
      {
        if existing[i].Obj? && Lookup(existing[i].members, idField) == Lookup(entry, idField) {
          return Ok(record);
        }
      }
      var updated := record[collection := Arr(existing + [Obj(entry)])];
      updated := updated["recordVersion" := IntVal(Version(record) + 1)]["updatedAt" := Str(a.now)];
      if !Accepts(profile, updated) {
        return Err(Rejected);
      }
      Commit(updated, a);
      return Ok(updated);
    }

    // The open bindings of a record are closed: entry by entry, with the index and the
    // retired map updated on the way.
    method CloseBindings(record: Record, a: Ambient) returns (closed: seq<Value>)
      requires Valid() && Shaped(record)
      modifies this`carrierIndex, this`retiredCarriers
      ensures Valid() && State() == Retire(old(State()), record)
      ensures closed == CloseAll(Carriers(record), a.now)
    {
      hide Shaped, DppId, IsCarrier, Commissioned, Encoded, Close, CommissionedIds, Owned, AllShaped, ClosedUpTo;
      var carriers := Carriers(record);
      CarriersShaped(record);
      closed := carriers;
      NoneClosed(old(State()), carriers, DppId(record), a.now);
      for i := 0 to |carriers|
        invariant ClosedUpTo(old(State()), carriers, DppId(record), a.now, i, closed, carrierIndex, retiredCarriers)
        invariant State() == old(State()).(index := carrierIndex, retired := retiredCarriers)
      {
        var carrier := carriers[i];
        CloseOne(old(State()), carriers, DppId(record), a.now, i, closed, carrierIndex, retiredCarriers);
        if Commissioned(carrier) {
          closed := closed[i := Close(carrier, a.now)];
          carrierIndex := carrierIndex - {Encoded(carrier)};
          retiredCarriers := retiredCarriers[Encoded(carrier) := DppId(record)];
        }
      }
      AllClosed(old(State()), carriers, DppId(record), a.now, closed, carrierIndex, retiredCarriers);
      SameRecordsShaped(old(State()), State());
    }

    // The new binding is written and indexed, unless the record is rejected.
    method BindCarrier(record: Record, closed: seq<Value>, carrier: Record, a: Ambient) returns (result: Result<Record>)
      requires Valid() && Shaped(record) && closed == CloseAll(Carriers(record), a.now)
      requires {"encodedIdentifier", "carrierType", "encodingScheme", "boundBy"} <= carrier.Keys
      modifies this
      ensures Valid()
      ensures var next := Succeed(record, Bound(record, NewCarrier(carrier, a), a), a);
        if !Accepts(profile, next) then State() == old(State()) && result == Err(Rejected)
        else
          var done := Spec.Commit(profile, old(State()), next, a);
          State() == done.(index := done.index[Requested(carrier) := DppId(record)]) && result == Ok(next)
      ensures old(outbox) <= outbox && forall k :: |old(outbox)| <= k < |outbox| ==> fresh(outbox[k])
    {
      hide Shaped, DppId, Version, Digest, NewCarrier, CloseAll, AllShaped, Spec.Commit;
      var entry := NewCarrier(carrier, a);
      NewCarrierKeepsIdentifier(carrier, a);
      var updated := record["carriers" := Arr(closed + [Obj(entry)])];
      updated := updated["identity" := Obj(ObjectAt(record, "identity")["epc" := carrier["encodedIdentifier"]])];
      updated := updated["recordVersion" := IntVal(Version(record) + 1)]["updatedAt" := Str(a.now)];
      if !Accepts(profile, updated) {
        return Err(Rejected);
      }
      Commit(updated, a);
      ghost var committed := State();
      carrierIndex := carrierIndex[Requested(carrier) := DppId(record)];
      SameRecordsShaped(committed, State());
      return Ok(updated);
    }

    method CommissionCarrier(id: string, carrier: Record, a: Ambient) returns (result: Result<Record>)
      requires Valid()
      modifies this
      ensures Valid() && (State(), result) == Spec.Commission(profile, old(State()), id, carrier, a)
      ensures old(outbox) <= outbox && forall k :: |old(outbox)| <= k < |outbox| ==> fresh(outbox[k])
    {
      hide Shaped, DppId, Version, Digest, Retire, Bound, Succeed, NewCarrier, CloseAll, AllShaped, Spec.Commit,
           Accepts;
      if id !in records {
        return Err(NotFound);
      }
      var record := records[id];
      StoredShaped(State(), id);
      if "encodedIdentifier" !in carrier || carrier["encodedIdentifier"].Arr? || carrier["encodedIdentifier"].Obj? {
        return Err(BadRequest);
      }
      var encoded := Requested(carrier);
      if carrier["encodedIdentifier"].Str?
         && ((encoded in carrierIndex && carrierIndex[encoded] != id)
             || (encoded in retiredCarriers && retiredCarriers[encoded] != id)) {
        return Err(DuplicateBinding);
      }
      var closed := CloseBindings(record, a);
      if !({"carrierType", "encodingScheme", "boundBy"} <= carrier.Keys) {
        return Err(BadRequest);
      }
      result := BindCarrier(record, closed, carrier, a);
    }

    method Get(id: string) returns (result: Result<Record>)
      requires Valid()
      ensures result == Spec.Get(State(), id)
    {
      if id !in records {
        return Err(NotFound);
      }
      if records[id]["status"] == Str("retired") {
        return Err(RetiredPassport);
      }
      return Ok(records[id]);
    }

    method GetVersion(id: string, version: int) returns (result: Result<Record>)
      ensures result == Spec.GetVersion(State(), id, version)
    {
      var versions := if id in history then history[id] else [];
      for i := 0 to |versions|
        invariant FindVersion(versions, version) == FindVersion(versions[i..], version)
      {
        assert versions[i..][1..] == versions[i + 1..];
        if "recordVersion" in versions[i] && versions[i]["recordVersion"] == IntVal(version) {
          return Ok(versions[i]);
        }
      }
      return Err(NotFound);
    }

    method ResolveCarrier(encoded: string) returns (result: Result<Record>)
      requires Valid()
      ensures result == Spec.Resolve(State(), encoded)
    {
      if encoded in carrierIndex {
        result := Get(carrierIndex[encoded]);
      } else if encoded in retiredCarriers {
        result := Err(RetiredCarrier);
      } else {
        result := Err(UnknownCarrier);
      }
    }
  }

  // ------------------------------------------------------------ proof steps

  lemma NewItemIsQueued(p: Profile, r: Record, a: Ambient)
    requires Shaped(r)
    ensures NewItem(p, r, a).state == Queued
  {
    hide Shaped, DppId, Version, Digest;
  }

  lemma StoredShaped(s: StoreState, id: string)
    requires AllShaped(s) && id in s.records
    ensures Shaped(s.records[id]) && DppId(s.records[id]) == id
  {
  }

  function WithIdentity(r: Record, a: Ambient): Record {
    SetDefault(SetDefault(SetDefault(SetDefault(r, "dppId", Str(a.dppUrn)), "schemaVersion", Str(SCHEMA_VERSION)),
                          "status", Str("active")), "accessPolicyVersion", Str(ACCESS_POLICY_VERSION))
  }

  function WithCollections(r: Record): Record {
    SetDefault(SetDefault(SetDefault(SetDefault(r, "carriers", Arr([])), "lifecycleEvents", Arr([])),
                          "sortingDecisions", Arr([])), "integrity", Arr([]))
  }

  function IdentityDefaults(a: Ambient): Record {
    map["dppId" := Str(a.dppUrn), "schemaVersion" := Str(SCHEMA_VERSION), "status" := Str("active"),
        "accessPolicyVersion" := Str(ACCESS_POLICY_VERSION)]
  }

  lemma IdentityInOrder(payload: Record, a: Ambient)
    ensures WithIdentity(payload, a) == IdentityDefaults(a) + payload
  {
    var d1: Record := map["dppId" := Str(a.dppUrn)];
    var d2 := d1["schemaVersion" := Str(SCHEMA_VERSION)];
    var d3 := d2["status" := Str("active")];
    DefaultMember(map[], payload, "dppId", Str(a.dppUrn));
    DefaultMember(d1, payload, "schemaVersion", Str(SCHEMA_VERSION));
    DefaultMember(d2, payload, "status", Str("active"));
    DefaultMember(d3, payload, "accessPolicyVersion", Str(ACCESS_POLICY_VERSION));
    assert d3["accessPolicyVersion" := Str(ACCESS_POLICY_VERSION)] == IdentityDefaults(a);
  }

  lemma CollectionsInOrder(d: Record, payload: Record)
    requires "carriers" !in d && "lifecycleEvents" !in d && "sortingDecisions" !in d && "integrity" !in d
    ensures WithCollections(d + payload)
            == d["carriers" := Arr([])]["lifecycleEvents" := Arr([])]["sortingDecisions" := Arr([])]
                ["integrity" := Arr([])] + payload
  {
    var d1 := d["carriers" := Arr([])];
    var d2 := d1["lifecycleEvents" := Arr([])];
    var d3 := d2["sortingDecisions" := Arr([])];
    DefaultMember(d, payload, "carriers", Arr([]));
    DefaultMember(d1, payload, "lifecycleEvents", Arr([]));
    DefaultMember(d2, payload, "sortingDecisions", Arr([]));
    DefaultMember(d3, payload, "integrity", Arr([]));
  }

  lemma DefaultsInOrder(payload: Record, a: Ambient)
    ensures var r := WithCollections(WithIdentity(payload, a))["recordVersion" := IntVal(1)];
      r["createdAt" := Member(r, "createdAt", Str(a.now))]["updatedAt" := Str(a.now)] == Initial(payload, a)
  {
    hide WithIdentity, WithCollections;
    IdentityInOrder(payload, a);
    CollectionsInOrder(IdentityDefaults(a), payload);
    var d := IdentityDefaults(a)["carriers" := Arr([])]["lifecycleEvents" := Arr([])]["sortingDecisions" := Arr([])]
                                ["integrity" := Arr([])];
    StampedDefaults(d, payload, "recordVersion", IntVal(1), "createdAt", Str(a.now));
    assert d["createdAt" := Str(a.now)] == Defaults(a);
  }

  lemma DefaultMember(d: Record, payload: Record, key: string, value: Value)
    requires key !in d
    ensures SetDefault(d + payload, key, value) == d[key := value] + payload
    ensures d == map[] ==> d + payload == payload && d[key := value] == map[key := value]
  {
  }

  lemma StampedDefaults(d: Record, payload: Record, fixed: string, one: Value, key: string, value: Value)
    requires key !in d && key != fixed
    ensures var r := (d + payload)[fixed := one];
      r[key := Member(r, key, value)] == (d[key := value] + payload)[fixed := one]
  {
  }

  // The members of a patch under the given keys.
  function Only(patch: Record, keys: set<string>): Record {
    map k | k in keys && k in patch :: patch[k]
  }

  lemma PatchedNothing(r: Record, patch: Record)
    ensures Patched(r, Only(patch, {})) == r
    ensures Only(patch, patch.Keys) == patch
  {
  }

  lemma CarriersShaped(r: Record)
    requires Shaped(r)
    ensures forall i :: 0 <= i < |Carriers(r)| ==> IsCarrier(Carriers(r)[i])
  {
  }

  lemma CloseStep(cs: seq<Value>, i: nat, now: string)
    requires i < |cs|
    ensures var closed := CloseAll(cs[..i], now) + cs[i..];
      CloseAll(cs[..i + 1], now) + cs[i + 1..]
      == if Commissioned(cs[i]) then closed[i := Close(cs[i], now)] else closed
  {
    var closed, next := CloseAll(cs[..i], now) + cs[i..], CloseAll(cs[..i + 1], now) + cs[i + 1..];
    forall k | 0 <= k < |cs| ensures next[k] == if k == i then Close(cs[i], now) else closed[k] {
    }
    assert Commissioned(cs[i]) ==> next == closed[i := Close(cs[i], now)];
    assert !Commissioned(cs[i]) ==> next == closed;
  }

  // The effect of closing the first i carriers.
  ghost predicate ClosedUpTo(s: StoreState, cs: seq<Value>, id: string, now: string, i: nat, closed: seq<Value>,
                             index: map<string, string>, retired: map<string, string>)
    requires i <= |cs| && forall k :: 0 <= k < |cs| ==> IsCarrier(cs[k])
  {
    && closed == CloseAll(cs[..i], now) + cs[i..]
    && index == s.index - CommissionedIds(cs[..i])
    && retired == s.retired + Owned(CommissionedIds(cs[..i]), id)
  }

  lemma NoneClosed(s: StoreState, cs: seq<Value>, id: string, now: string)
    requires forall k :: 0 <= k < |cs| ==> IsCarrier(cs[k])
    ensures ClosedUpTo(s, cs, id, now, 0, cs, s.index, s.retired)
  {
    hide IsCarrier, Commissioned, Encoded, Close;
    assert CommissionedIds(cs[..0]) == {} && Owned({}, id) == map[];
  }

  lemma AllClosed(s: StoreState, cs: seq<Value>, id: string, now: string, closed: seq<Value>,
                  index: map<string, string>, retired: map<string, string>)
    requires forall k :: 0 <= k < |cs| ==> IsCarrier(cs[k])
    requires ClosedUpTo(s, cs, id, now, |cs|, closed, index, retired)
    ensures closed == CloseAll(cs, now)
    ensures index == s.index - CommissionedIds(cs) && retired == s.retired + Owned(CommissionedIds(cs), id)
  {
    hide IsCarrier, Commissioned, Encoded, Close, CommissionedIds, Owned, CloseAll;
    assert cs[..|cs|] == cs && cs[|cs|..] == [];
  }

  lemma CloseOne(s: StoreState, cs: seq<Value>, id: string, now: string, i: nat, closed: seq<Value>,
                 index: map<string, string>, retired: map<string, string>)
    requires i < |cs| && forall k :: 0 <= k < |cs| ==> IsCarrier(cs[k])
    requires ClosedUpTo(s, cs, id, now, i, closed, index, retired)
    ensures |closed| == |cs|
    ensures if Commissioned(cs[i]) then
              ClosedUpTo(s, cs, id, now, i + 1, closed[i := Close(cs[i], now)], index - {Encoded(cs[i])},
                         retired[Encoded(cs[i]) := id])
            else ClosedUpTo(s, cs, id, now, i + 1, closed, index, retired)
  {
    hide IsCarrier, Commissioned, Encoded, Close, CommissionedIds, Owned;
    CloseStep(cs, i, now);
    CommissionedStep(cs, i);
    if Commissioned(cs[i]) {
      OwnedStep(s.retired, CommissionedIds(cs[..i]), Encoded(cs[i]), id);
    }
  }

  lemma OwnedStep(m: map<string, string>, ids: set<string>, e: string, id: string)
    ensures (m + Owned(ids, id))[e := id] == m + Owned(ids + {e}, id)
  {
  }

  lemma PatchedStep(r: Record, patch: Record, done: set<string>, key: string)
    requires key in patch && key !in done
    ensures var updated := Patched(r, Only(patch, done));
      && (key in updated <==> key in r) && (key in r ==> updated[key] == r[key])
      && Patched(r, Only(patch, done + {key}))
         == if patch[key] == Null then updated - {key}
            else if patch[key].Obj? && key in updated && updated[key].Obj? then
              updated[key := Obj(updated[key].members + patch[key].members)]
            else updated[key := patch[key]]
  {
  }

  lemma CommissionedStep(cs: seq<Value>, i: nat)
    requires i < |cs| && forall k :: 0 <= k < |cs| ==> IsCarrier(cs[k])
    ensures CommissionedIds(cs[..i + 1])
            == if Commissioned(cs[i]) then CommissionedIds(cs[..i]) + {Encoded(cs[i])} else CommissionedIds(cs[..i])
  {
    hide IsCarrier, Commissioned, Encoded;
    assert forall k :: 0 <= k < i ==> cs[..i + 1][k] == cs[..i][k];
    assert cs[..i + 1][i] == cs[i];
  }

  lemma NewCarrierKeepsIdentifier(carrier: Record, a: Ambient)
    requires {"encodedIdentifier", "carrierType", "encodingScheme", "boundBy"} <= carrier.Keys
    ensures "encodedIdentifier" in NewCarrier(carrier, a)
    ensures NewCarrier(carrier, a)["encodedIdentifier"] == carrier["encodedIdentifier"]
  {
  }
}
