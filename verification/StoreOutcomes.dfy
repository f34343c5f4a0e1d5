// What each write answers and what the record it leaves contains, member by member.

module StoreOutcomes {
  import opened Wrappers
  import opened Values
  import opened Projection
  import opened Records
  import opened StoreSpec
  import opened StoreHistory
  import opened StoreSteps
  import opened StoreCarriers
  import Decimals
  import EntityTag

  // Stamped by every write.
  const STAMPS: set<string> := {"recordVersion", "updatedAt"}

  // The record that becomes current, with the version it must have.
  ghost predicate Stamped(r: Record, version: int, now: string) {
    && "recordVersion" in r && r["recordVersion"] == IntVal(version)
    && "updatedAt" in r && r["updatedAt"] == Str(now)
  }

  // The two records hold the same under this name.
  ghost predicate SameMember(r: Record, s: Record, key: string) {
    (key in r <==> key in s) && (key in r ==> r[key] == s[key])
  }

  // What a commit adds besides: the next version and a queued entry.
  lemma CommitAdds(p: Profile, s: StoreState, t: StoreState, r: Record, a: Ambient)
    requires Shaped(r) && Commits(p, s, t, r, a)
    ensures r["dppId"].Str?
    ensures var id := r["dppId"].str;
      && t.records == s.records[id := r]
      && id in t.history && t.history[id] == (if id in s.history then s.history[id] else []) + [r]
      && (forall x :: x != id ==> (x in t.history <==> x in s.history)
                                  && (x in s.history ==> t.history[x] == s.history[x]))
      && |t.outbox| == |s.outbox| + 1 && t.outbox[..|s.outbox|] == s.outbox
      && var e := t.outbox[|s.outbox|];
         && e.evidenceId == a.evidenceUrn && e.dppId == id && IntVal(e.subjectVersion) == r["recordVersion"]
         && e.digestValue == p.sha(CanonicalText(r)) && e.createdAt == a.now
         && e.state == Queued && e.attempts == 0 && e.transactionRef == None && e.networkId == None
         && e.confirmedAt == None && e.lastReason == None
  {
    hide CanonicalText;
  }

  // ------------------------------------------------------ Python's equality

  // The number a value equals, if it is one: True is 1 and False is 0.
  function NumberOf(v: Value): Option<Decimal> {
    match v
    case Bool(b) => Some(RawDecimal(if b then 1 else 0, 0))
    case Num(d) => Some(d)
    case _ => None
  }

  // v == w
  ghost predicate PyEqual(v: Value, w: Value) {
    match v
    case Null => w.Null?
    case Str(s) => w.Str? && w.str == s
    case Arr(items) => w.Arr? && |w.items| == |items| && forall i :: 0 <= i < |items| ==> PyEqual(items[i], w.items[i])
    case Obj(m) => w.Obj? && w.members.Keys == m.Keys && forall k :: k in m ==> PyEqual(m[k], w.members[k])
    case _ => NumberOf(w) == NumberOf(v)
  }

  lemma {:induction false} NormIs(v: Value, w: Value)
    ensures Norm(v) == Norm(w) <==> PyEqual(v, w)
    decreases v
  {
    match v
    case Arr(items) =>
      if w.Arr? {
        var a, b := Norm(v).items, Norm(w).items;
        if |items| == |w.items| {
          forall i | 0 <= i < |items| ensures a[i] == b[i] <==> PyEqual(items[i], w.items[i]) {
            NormIs(items[i], w.items[i]);
          }
          assert a == b <==> forall i :: 0 <= i < |items| ==> a[i] == b[i];
        }
      }
    case Obj(m) =>
      if w.Obj? {
        var a, b := Norm(v).members, Norm(w).members;
        assert a.Keys == m.Keys && b.Keys == w.members.Keys;
        if m.Keys == w.members.Keys {
          forall k | k in m ensures a[k] == b[k] <==> PyEqual(m[k], w.members[k]) {
            NormIs(m[k], w.members[k]);
          }
        }
      }
    case _ =>
  }

  // ----------------------------------------------------------------- create

  const DEFAULTED: set<string> :=
    {"dppId", "schemaVersion", "accessPolicyVersion", "status", "carriers", "lifecycleEvents", "sortingDecisions",
     "integrity", "createdAt"}

  // The value a new record has under a name the payload leaves out.
  ghost predicate IsDefault(key: string, v: Value, a: Ambient) {
    if key == "dppId" then v == Str(a.dppUrn)
    else if key == "createdAt" then v == Str(a.now)
    else if key == "status" then v == Str("active")
    else if key == "schemaVersion" || key == "accessPolicyVersion" then v == Str("1.0.0")
    else v == Arr([])
  }

  // The first version of what was sent: every member of it, the defaults for what is left
  // out, and nothing else.
  ghost predicate IsFirst(r: Record, payload: Record, a: Ambient) {
    && Stamped(r, 1, a.now)
    && r.Keys == payload.Keys + DEFAULTED + STAMPS
    && (forall key :: key in payload && key !in STAMPS ==> r[key] == payload[key])
    && forall key :: key in DEFAULTED && key !in payload ==> IsDefault(key, r[key], a)
  }

  lemma DefaultsAre(a: Ambient)
    ensures Defaults(a).Keys == DEFAULTED && DEFAULTED !! STAMPS
  {
  }

  lemma DefaultIs(a: Ambient, key: string)
    requires key in DEFAULTED
    ensures key in Defaults(a) && IsDefault(key, Defaults(a)[key], a)
  {
  }

  lemma FirstIs(payload: Record, a: Ambient)
    ensures IsFirst(Initial(payload, a), payload, a)
    ensures forall r :: IsFirst(r, payload, a) ==> r == Initial(payload, a)
  {
    DefaultsAre(a);
    hide Defaults, DEFAULTED, IsDefault;
    var first := Initial(payload, a);
    StampsOnly(payload, a);
    forall key | key in DEFAULTED && key !in payload ensures IsDefault(key, first[key], a) {
      DefaultIs(a, key);
    }
    forall r | IsFirst(r, payload, a) ensures r == first {
      forall key | key in r ensures r[key] == first[key] {
        if key !in payload && key !in STAMPS {
          OneDefault(key, r[key], first[key], a);
        }
      }
    }
  }

  lemma OneDefault(key: string, v: Value, w: Value, a: Ambient)
    requires IsDefault(key, v, a) && IsDefault(key, w, a)
    ensures v == w
  {
  }

  lemma StampsOnly(payload: Record, a: Ambient)
    ensures var r := Initial(payload, a);
      && r.Keys == payload.Keys + Defaults(a).Keys + STAMPS && Stamped(r, 1, a.now)
      && forall key :: key in r && key !in STAMPS ==>
           r[key] == if key in payload then payload[key] else Defaults(a)[key]
  {
    hide Defaults;
  }

  // A creation is refused as a duplicate exactly when its identifier is stored, as invalid
  // exactly when the profile does not accept its first version, and otherwise answers it.
  lemma CreateOutcome(p: Profile, s: StoreState, payload: Record, a: Ambient, first: Record)
    requires AllShaped(s) && IsFirst(first, payload, a)
    ensures var (t, res) := Create(p, s, payload, a);
      && "dppId" in first
      && (res == Err(DuplicateBinding) <==> first["dppId"].Str? && first["dppId"].str in s.records)
      && (res == Err(Rejected) <==> !(first["dppId"].Str? && first["dppId"].str in s.records) && !Accepts(p, first))
      && (res.Ok? ==> res.value == first && Shaped(first) && Commits(p, s, t, first, a))
      && (res.Err? ==> t == s && res.fault in {DuplicateBinding, Rejected})
  {
    hide Shaped, Initial, Commit, IsFirst, DEFAULTED;
    FirstIs(payload, a);
    assert "dppId" in first by { InitialIsFirst(payload, a); }
  }

  // ------------------------------------------------------------------ patch

  // What a patch leaves under a name: nothing for null, the two objects' members with the
  // patch's first where both are objects, and otherwise what the patch has, or what was there.
  ghost predicate IsPatchedMember(was: Record, patch: Record, r: Record, key: string) {
    if key !in patch then SameMember(r, was, key)
    else if patch[key] == Null then key !in r
    else if patch[key].Obj? && key in was && was[key].Obj? then
      && key in r && r[key].Obj? && r[key].members.Keys == was[key].members.Keys + patch[key].members.Keys
      && forall m :: m in r[key].members ==>
           r[key].members[m] == if m in patch[key].members then patch[key].members[m] else was[key].members[m]
    else key in r && r[key] == patch[key]
  }

  ghost predicate IsMerged(was: Record, patch: Record, r: Record) {
    forall key :: IsPatchedMember(was, patch, r, key)
  }

  lemma MergedIs(was: Record, patch: Record)
    ensures IsMerged(was, patch, Patched(was, patch))
    ensures forall r :: IsMerged(was, patch, r) ==> r == Patched(was, patch)
  {
    var merged := Patched(was, patch);
    forall key ensures IsPatchedMember(was, patch, merged, key) {
    }
    forall r: Record | IsMerged(was, patch, r) ensures r == merged {
      forall key ensures SameMember(r, merged, key) {
        assert IsPatchedMember(was, patch, r, key) && IsPatchedMember(was, patch, merged, key);
        if key in patch && patch[key].Obj? && key in was && was[key].Obj? {
          assert r[key].members == merged[key].members;
        }
      }
      SameAll(r, merged);
    }
  }

  lemma SameAll(r: Record, s: Record)
    requires forall key :: SameMember(r, s, key)
    ensures r == s
  {
    forall key ensures key in r <==> key in s {
      assert SameMember(r, s, key);
    }
    forall key | key in r ensures r[key] == s[key] {
      assert SameMember(r, s, key);
    }
  }

  // Each protected collection of the second record begins with that of the first, up to
  // Python's equality, and is an array or absent.
  ghost predicate OnlyGrew(was: Record, r: Record) {
    forall c :: c in {"materialObservations", "lifecycleEvents", "sortingDecisions", "integrity"} ==>
      Grew(was, r, c)
  }

  ghost predicate Grew(was: Record, r: Record, c: string) {
    && (c in r ==> r[c].Arr?)
    && var had, now := ArrayAt(was, c), ArrayAt(r, c);
       |had| <= |now| && forall i :: 0 <= i < |had| ==> PyEqual(now[i], had[i])
  }

  lemma GrewIs(was: Record, r: Record, c: string)
    ensures Grew(was, r, c) <==> (c in r ==> r[c].Arr?) && Extends(was, r, c)
    ensures Grew(was, r, c) <==> GuardCollection(was, r, c)
  {
    hide Norm, PyEqual;
    var had, now := ArrayAt(was, c), ArrayAt(r, c);
    forall i | 0 <= i < |had| && i < |now| ensures PyEqual(now[i], had[i]) <==> Norm(now[i]) == Norm(had[i]) {
      NormIs(now[i], had[i]);
    }
    if |had| <= |now| {
      assert forall i :: 0 <= i < |had| ==> now[..|had|][i] == now[i];
      assert Norms(now)[..|had|] == Norms(now[..|had|]);
    }
    if Extends(was, r, c) {
      assert forall i :: 0 <= i < |had| ==> Norms(now)[i] == Norms(had)[i];
    }
    if Grew(was, r, c) {
      assert forall i :: 0 <= i < |had| ==> Norms(now)[i] == Norms(had)[i];
    }
  }

  // The guard lets a record through exactly when each protected collection only grew.
  lemma GuardIs(was: Record, r: Record)
    ensures Guard(was, r) <==> OnlyGrew(was, r)
  {
    hide GuardCollection, Grew;
    forall c | c in PROTECTED ensures Grew(was, r, c) <==> GuardCollection(was, r, c) {
      GrewIs(was, r, c);
    }
  }

  // The tag of the current version, or a star, with or without quotes.
  ghost predicate Current(ifMatch: Option<string>, r: Record)
    requires Shaped(r)
  {
    && ifMatch.Some?
    && (EntityTag.Strip(ifMatch.value) == "*"
        || EntityTag.Strip(ifMatch.value)
           == "dpp-" + EntityTag.AfterLastColon(r["dppId"].str) + "-v" + Decimals.IntText(r["recordVersion"].num.m))
  }

  // A patch, check by check: unknown, no current tag, a collection that did not only grow,
  // not accepted; and otherwise it answers the merged record, one version on.
  lemma PatchOutcome(p: Profile, s: StoreState, id: string, patch: Record, ifMatch: Option<string>, a: Ambient,
                     merged: Record)
    requires AllShaped(s) && id in s.records && IsMerged(s.records[id], patch, merged)
    ensures var was, (t, res) := s.records[id], Patch(p, s, id, patch, ifMatch, a);
      var next := merged["recordVersion" := IntVal(was["recordVersion"].num.m + 1)]["updatedAt" := Str(a.now)];
      && (res == Err(VersionConflict) <==> !Current(ifMatch, was))
      && (res == Err(AppendOnlyViolation) <==> Current(ifMatch, was) && !OnlyGrew(was, merged))
      && (res == Err(Rejected) <==> Current(ifMatch, was) && OnlyGrew(was, merged) && !Accepts(p, next))
      && (res.Ok? ==> res.value == next && Shaped(next) && Commits(p, s, t, next, a))
      && (res.Err? ==> t == s && res.fault in {VersionConflict, AppendOnlyViolation, Rejected})
  {
    hide Shaped, Patched, Guard, OnlyGrew, IsMerged, Commit;
    var was := s.records[id];
    StoredParts(was);
    MergedIs(was, patch);
    GuardIs(was, merged);
    TagIs(ifMatch, was);
  }

  lemma UnknownPatch(p: Profile, s: StoreState, id: string, patch: Record, ifMatch: Option<string>, a: Ambient)
    requires AllShaped(s) && id !in s.records
    ensures Patch(p, s, id, patch, ifMatch, a) == (s, Err(NotFound))
  {
  }

  lemma StoredParts(r: Record)
    requires Shaped(r)
    ensures "dppId" in r && r["dppId"].Str? && "recordVersion" in r && r["recordVersion"].Num?
  {
  }

  lemma TagIs(ifMatch: Option<string>, r: Record)
    requires Shaped(r)
    ensures Current(ifMatch, r) <==> ifMatch.Some? && EntityTag.Matches(ifMatch.value, DppId(r), Version(r))
  {
    hide Shaped, EntityTag.Strip, EntityTag.ETag;
    StoredParts(r);
    EntityTag.StripETag(DppId(r), Version(r));
  }

  // ----------------------------------------------------------------- append

  // What r.get(key) gives, up to Python's equality: null also where it is absent.
  ghost predicate SameUnder(r: Record, s: Record, key: string) {
    PyEqual(if key in r then r[key] else Null, if key in s then s[key] else Null)
  }

  // Some entry there has the new entry's identifier.
  ghost predicate AlreadyThere(items: seq<Value>, entry: Record, idField: string) {
    exists i :: 0 <= i < |items| && items[i].Obj? && SameUnder(items[i].members, entry, idField)
  }

  lemma ThereIs(items: seq<Value>, entry: Record, idField: string)
    ensures AlreadyThere(items, entry, idField) <==> HasEntry(items, entry, idField)
  {
    hide Norm, PyEqual;
    forall i | 0 <= i < |items| && items[i].Obj?
      ensures SameUnder(items[i].members, entry, idField)
              <==> Lookup(items[i].members, idField) == Lookup(entry, idField)
    {
      var m := items[i].members;
      NullIsNull();
      NormIs(if idField in m then m[idField] else Null, if idField in entry then entry[idField] else Null);
    }
  }

  lemma NullIsNull()
    ensures Norm(Null) == Null
  {
  }

  // An append to an array of objects, or to none: a known entry changes nothing and answers
  // the record; a new one is put last, and nothing else changes but the stamps.
  lemma AppendOutcome(p: Profile, s: StoreState, id: string, collection: string, entry: Record, idField: string,
                      a: Ambient)
    requires AllShaped(s) && id in s.records
    requires collection in s.records[id] ==> s.records[id][collection].Arr?
                                             && forall v :: v in s.records[id][collection].items ==> v.Obj?
    ensures var was, (t, res) := s.records[id], Append(p, s, id, collection, entry, idField, a);
      var items := if collection in was then was[collection].items else [];
      var next := was[collection := Arr(items + [Obj(entry)])]
                     ["recordVersion" := IntVal(was["recordVersion"].num.m + 1)]["updatedAt" := Str(a.now)];
      if AlreadyThere(items, entry, idField) then (t, res) == (s, Ok(was))
      else if !Accepts(p, next) then (t, res) == (s, Err(Rejected))
      else res == Ok(next) && Shaped(next) && Commits(p, s, t, next, a)
  {
    hide Shaped, HasEntry, Commit, AlreadyThere;
    var was := s.records[id];
    StoredParts(was);
    assert collection in was ==> IsArrayOfObjects(was[collection]);
    ThereIs(ArrayAt(was, collection), entry, idField);
  }

  lemma RefusedAppend(p: Profile, s: StoreState, id: string, collection: string, entry: Record, idField: string,
                      a: Ambient)
    requires AllShaped(s)
    requires id in s.records && collection in s.records[id] ==>
               !s.records[id][collection].Arr? || exists v :: v in s.records[id][collection].items && !v.Obj?
    requires id in s.records ==> collection in s.records[id]
    ensures Append(p, s, id, collection, entry, idField, a)
            == (s, Err(if id in s.records then BadRequest else NotFound))
  {
    hide Shaped, HasEntry, Commit;
    if id in s.records {
      var v := s.records[id][collection];
      if v.Arr? {
        var x :| x in v.items && !x.Obj?;
        assert !IsArrayOfObjects(v);
      }
    }
  }

  // -------------------------------------------------------------- commission

  // A carrier as it was, or commissioned until now and closed.
  ghost predicate IsClosed(was: Value, now: Value, at: string) {
    if was.Obj? && "bindingStatus" in was.members && was.members["bindingStatus"] == Str("commissioned") then
      && now.Obj? && now.members.Keys == was.members.Keys + {"closedAt"}
      && now.members["bindingStatus"] == Str("replaced") && now.members["closedAt"] == Str(at)
      && forall key :: key in was.members && key !in {"bindingStatus", "closedAt"} ==>
           now.members[key] == was.members[key]
    else now == was
  }

  // The new carrier: what was asked for, commissioned, with an identifier and a time where
  // the request has none.
  ghost predicate IsNewCarrier(c: Value, asked: Record, a: Ambient) {
    && c.Obj? && {"carrierType", "encodingScheme", "encodedIdentifier", "boundBy"} <= asked.Keys
    && c.members.Keys == {"carrierId", "carrierType", "encodingScheme", "encodedIdentifier", "bindingStatus", "boundAt",
                          "boundBy"} + asked.Keys * {"resolverUri", "placement"}
    && (forall key :: key in c.members && key in asked && key != "bindingStatus" ==> c.members[key] == asked[key])
    && c.members["bindingStatus"] == Str("commissioned")
    && ("carrierId" !in asked ==> c.members["carrierId"] == Str(a.carrierUrn))
    && ("boundAt" !in asked ==> c.members["boundAt"] == Str(a.now))
  }

  lemma ClosedIs(was: Value, at: string)
    ensures IsClosed(was, Close(was, at), at)
  {
  }

  const FIXED: set<string> :=
    {"carrierId", "carrierType", "encodingScheme", "encodedIdentifier", "bindingStatus", "boundAt", "boundBy"}

  lemma NewCarrierIs(asked: Record, a: Ambient)
    requires {"encodedIdentifier", "carrierType", "encodingScheme", "boundBy"} <= asked.Keys
    ensures IsNewCarrier(Obj(NewCarrier(asked, a)), asked, a)
  {
    NewCarrierKeys(asked, a);
    NewCarrierFixed(asked, a);
    assert "bindingStatus" in FIXED && "carrierId" in FIXED && "boundAt" in FIXED;
    hide NewCarrier, Optional, Member;
    var c := NewCarrier(asked, a);
    forall key | key in c && key in asked && key != "bindingStatus" ensures c[key] == asked[key] {
      NewCarrierValue(asked, a, key);
    }
  }

  lemma NewCarrierValue(asked: Record, a: Ambient, key: string)
    requires {"encodedIdentifier", "carrierType", "encodingScheme", "boundBy"} <= asked.Keys
    requires key in NewCarrier(asked, a) && key in asked && key != "bindingStatus"
    ensures NewCarrier(asked, a)[key] == asked[key]
  {
    NewCarrierKeys(asked, a);
    NewCarrierFixed(asked, a);
    NewCarrierOptional(asked, a);
    hide NewCarrier, Optional, Member;
  }

  lemma NewCarrierKeys(asked: Record, a: Ambient)
    requires {"encodedIdentifier", "carrierType", "encodingScheme", "boundBy"} <= asked.Keys
    ensures NewCarrier(asked, a).Keys == FIXED + asked.Keys * {"resolverUri", "placement"}
  {
    hide Member;
    OptionalMembers(asked, "resolverUri");
    OptionalMembers(asked, "placement");
    hide Optional;
  }

  lemma FixedNames(key: string)
    requires key in FIXED
    ensures key != "resolverUri" && key != "placement"
  {
  }

  lemma NewCarrierFixed(asked: Record, a: Ambient)
    requires {"encodedIdentifier", "carrierType", "encodingScheme", "boundBy"} <= asked.Keys
    ensures var c := NewCarrier(asked, a);
      && FIXED <= c.Keys && c["bindingStatus"] == Str("commissioned")
      && c["carrierType"] == asked["carrierType"] && c["encodingScheme"] == asked["encodingScheme"]
      && c["encodedIdentifier"] == asked["encodedIdentifier"] && c["boundBy"] == asked["boundBy"]
      && c["carrierId"] == (if "carrierId" in asked then asked["carrierId"] else Str(a.carrierUrn))
      && c["boundAt"] == (if "boundAt" in asked then asked["boundAt"] else Str(a.now))
  {
    NewCarrierKeys(asked, a);
    OptionalMembers(asked, "resolverUri");
    OptionalMembers(asked, "placement");
    hide Optional;
  }

  lemma NewCarrierOptional(asked: Record, a: Ambient)
    requires {"encodedIdentifier", "carrierType", "encodingScheme", "boundBy"} <= asked.Keys
    ensures forall key :: key in {"resolverUri", "placement"} && key in asked ==>
              key in NewCarrier(asked, a) && NewCarrier(asked, a)[key] == asked[key]
  {
    hide Member;
    OptionalMembers(asked, "resolverUri");
    OptionalMembers(asked, "placement");
    hide Optional;
  }

  lemma OptionalMembers(r: Record, key: string)
    ensures Optional(r, key).Keys == r.Keys * {key}
    ensures key in r ==> Optional(r, key)[key] == r[key]
  {
  }

  // The earlier carriers, closed, and the new one after them.
  ghost predicate AreBound(had: seq<Value>, now: seq<Value>, asked: Record, a: Ambient) {
    && |now| == |had| + 1
    && (forall i :: 0 <= i < |had| ==> IsClosed(had[i], now[i], a.now))
    && IsNewCarrier(now[|had|], asked, a)
  }

  // What an accepted commission leaves in the record.
  ghost predicate IsBound(was: Record, r: Record, asked: Record, a: Ambient)
    requires "identity" in was && was["identity"].Obj?
  {
    && "identity" in r && r["identity"].Obj? && "encodedIdentifier" in asked
    && r["identity"].members == was["identity"].members["epc" := asked["encodedIdentifier"]]
    && "carriers" in r && r["carriers"].Arr?
    && AreBound(if "carriers" in was && was["carriers"].Arr? then was["carriers"].items else [], r["carriers"].items,
                asked, a)
    && forall key :: key !in {"identity", "carriers", "recordVersion", "updatedAt"} ==> SameMember(r, was, key)
  }

  lemma BoundIs(was: Record, asked: Record, a: Ambient)
    requires Shaped(was) && {"encodedIdentifier", "carrierType", "encodingScheme", "boundBy"} <= asked.Keys
    ensures "identity" in was && was["identity"].Obj?
    ensures IsBound(was, Succeed(was, Bound(was, NewCarrier(asked, a), a), a), asked, a)
    ensures Stamped(Succeed(was, Bound(was, NewCarrier(asked, a), a), a), was["recordVersion"].num.m + 1, a.now)
  {
    StoredIdentity(was);
    NewCarrierNamesIdentifier(asked, a);
    BoundMembers(was, NewCarrier(asked, a), a);
    BoundList(Carriers(was), asked, a);
    hide Shaped, NewCarrier, AreBound, Bound, Succeed, CloseAll;
  }

  lemma BoundMembers(was: Record, entry: Record, a: Ambient)
    requires Shaped(was) && "encodedIdentifier" in entry
    ensures "identity" in was && was["identity"].Obj? && "recordVersion" in was && was["recordVersion"].Num?
    ensures var r := Succeed(was, Bound(was, entry, a), a);
      && Stamped(r, was["recordVersion"].num.m + 1, a.now)
      && "identity" in r && r["identity"] == Obj(was["identity"].members["epc" := entry["encodedIdentifier"]])
      && "carriers" in r && r["carriers"] == Arr(CloseAll(Carriers(was), a.now) + [Obj(entry)])
      && forall key :: key !in {"identity", "carriers", "recordVersion", "updatedAt"} ==> SameMember(r, was, key)
  {
    StoredIdentity(was);
    hide Shaped, CloseAll;
  }

  lemma BoundList(had: seq<Value>, asked: Record, a: Ambient)
    requires {"encodedIdentifier", "carrierType", "encodingScheme", "boundBy"} <= asked.Keys
    ensures AreBound(had, CloseAll(had, a.now) + [Obj(NewCarrier(asked, a))], asked, a)
  {
    hide NewCarrier, IsNewCarrier, IsClosed, Close;
    NewCarrierIs(asked, a);
    forall c ensures IsClosed(c, Close(c, a.now), a.now) {
      ClosedIs(c, a.now);
    }
  }

  lemma StoredIdentity(r: Record)
    requires Shaped(r)
    ensures "identity" in r && r["identity"].Obj? && "recordVersion" in r && r["recordVersion"].Num?
  {
  }

  // An accepted commission returns and commits the record one version on, with the
  // identifier in its identity, the earlier carriers closed, and the carrier asked for.
  lemma CommissionOutcome(p: Profile, s: StoreState, id: string, asked: Record, a: Ambient)
    requires AllShaped(s) && Commission(p, s, id, asked, a).1.Ok?
    ensures var (t, res) := Commission(p, s, id, asked, a);
      && id in s.records && "identity" in s.records[id] && s.records[id]["identity"].Obj?
      && IsBound(s.records[id], res.value, asked, a)
      && Stamped(res.value, s.records[id]["recordVersion"].num.m + 1, a.now)
      && Shaped(res.value) && Commits(p, s, t, res.value, a)
      && asked["encodedIdentifier"].Str? && asked["encodedIdentifier"].str in t.index
      && t.index[asked["encodedIdentifier"].str] == id
  {
    hide Shaped, DppId, Bound, NewCarrier, Succeed, TakenByOther, Retire, NewItem, IsBound, Stamped;
    CommissionCommits(p, s, id, asked, a);
    CommissionMaps(p, s, id, asked, a);
    CommissionAccepted(p, s, id, asked, a);
    BoundIs(s.records[id], asked, a);
  }

  // A request for a stored passport is refused as malformed without an identifier that can
  // be looked up, as a duplicate when another passport has it, and when its members are
  // missing or the result is not accepted; the answers say which.
  lemma CommissionRefusals(p: Profile, s: StoreState, id: string, asked: Record, a: Ambient)
    requires AllShaped(s) && Commission(p, s, id, asked, a).1.Err?
    ensures Commission(p, s, id, asked, a).1
            == Err(if id !in s.records then NotFound
                   else if "encodedIdentifier" !in asked || asked["encodedIdentifier"].Arr?
                           || asked["encodedIdentifier"].Obj? then BadRequest
                   else if asked["encodedIdentifier"].Str?
                           && exists x :: x != id && Holds(s, x, asked["encodedIdentifier"].str) then DuplicateBinding
                   else if {"carrierType", "encodingScheme", "boundBy"} <= asked.Keys then Rejected
                   else BadRequest)
  {
    hide Shaped, Bound, NewCarrier, Succeed, Retire, Commit, Accepts;
    if "encodedIdentifier" in asked && asked["encodedIdentifier"].Str? {
      HeldIs(s, id, asked["encodedIdentifier"].str);
    }
  }

  // One of the maps names the passport for the identifier.
  ghost predicate Holds(s: StoreState, id: string, e: string) {
    (e in s.index && s.index[e] == id) || (e in s.retired && s.retired[e] == id)
  }

  lemma HeldIs(s: StoreState, id: string, e: string)
    ensures TakenByOther(s, e, id) <==> exists x :: x != id && Holds(s, x, e)
  {
    if e in s.index && s.index[e] != id { assert Holds(s, s.index[e], e); }
    if e in s.retired && s.retired[e] != id { assert Holds(s, s.retired[e], e); }
  }

  // ------------------------------------------------------------------ reads

  // Unknown, retired, or the current record.
  lemma GetOutcome(s: StoreState, id: string)
    requires AllShaped(s)
    ensures if id !in s.records then Get(s, id) == Err(NotFound)
            else "status" in s.records[id]
                 && Get(s, id) == if s.records[id]["status"] == Str("retired") then Err(RetiredPassport)
                                  else Ok(s.records[id])
  {
    if id in s.records { StoredStatus(s.records[id]); }
  }

  lemma StoredStatus(r: Record)
    requires Shaped(r)
    ensures "status" in r
  {
  }

  // A carrier leads to the passport the index names; one that is only in the retired map is
  // told apart from one that was never seen.
  lemma ResolveOutcome(s: StoreState, e: string)
    requires AllShaped(s)
    ensures e in s.index ==> Resolve(s, e) == Get(s, s.index[e])
    ensures e !in s.index && e in s.retired <==> Resolve(s, e) == Err(RetiredCarrier)
    ensures e !in s.index && e !in s.retired <==> Resolve(s, e) == Err(UnknownCarrier)
  {
    hide Shaped;
  }

  // The first stored version with that number, if there is one.
  lemma {:induction false} VersionIn(h: seq<Record>, version: int)
    ensures match FindVersion(h, version)
            case Ok(r) => exists i :: 0 <= i < |h| && r == h[i] && Numbered(h[i], version)
                                      && forall j :: 0 <= j < i ==> !Numbered(h[j], version)
            case Err(fault) => fault == NotFound && forall i :: 0 <= i < |h| ==> !Numbered(h[i], version)
  {
    if h != [] && !Numbered(h[0], version) {
      VersionIn(h[1..], version);
      if FindVersion(h[1..], version).Ok? {
        var i :| 0 <= i < |h[1..]| && FindVersion(h[1..], version).value == h[1..][i] && Numbered(h[1..][i], version)
                 && forall j :: 0 <= j < i ==> !Numbered(h[1..][j], version);
        forall j | 0 <= j < i + 1 ensures !Numbered(h[j], version) {
          if j > 0 { assert h[j] == h[1..][j - 1]; }
        }
        assert h[i + 1] == h[1..][i];
      } else {
        forall i | 0 <= i < |h| ensures !Numbered(h[i], version) {
          if i > 0 { assert h[i] == h[1..][i - 1]; }
        }
      }
    }
  }

  ghost predicate Numbered(r: Record, version: int) {
    "recordVersion" in r && r["recordVersion"] == IntVal(version)
  }

  lemma VersionOutcome(s: StoreState, id: string, version: int)
    ensures var h := if id in s.history then s.history[id] else [];
      match GetVersion(s, id, version)
      case Ok(r) => exists i :: 0 <= i < |h| && r == h[i] && Numbered(h[i], version)
                                && forall j :: 0 <= j < i ==> !Numbered(h[j], version)
      case Err(fault) => fault == NotFound && forall i :: 0 <= i < |h| ==> !Numbered(h[i], version)
  {
    VersionIn(if id in s.history then s.history[id] else [], version);
  }
}
