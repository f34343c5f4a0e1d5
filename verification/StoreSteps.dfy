// Each write of the store either leaves it unchanged or commits one next version.

module StoreSteps {
  import opened Wrappers
  import opened Values
  import opened Projection
  import opened Records
  import opened StoreSpec
  import opened StoreHistory
  import EntityTag

  datatype Write =
    | CreateWrite(payload: Record)
    | PatchWrite(id: string, patch: Record, ifMatch: Option<string>)
    | AppendWrite(id: string, collection: string, entry: Record, idField: string)
    | CommissionWrite(id: string, carrier: Record)

  function Apply(p: Profile, s: StoreState, w: Write, a: Ambient): (StoreState, Result<Record>)
    requires AllShaped(s)
  {
    match w
    case CreateWrite(payload) => Create(p, s, payload, a)
    case PatchWrite(id, patch, ifMatch) => Patch(p, s, id, patch, ifMatch, a)
    case AppendWrite(id, collection, entry, idField) => Append(p, s, id, collection, entry, idField, a)
    case CommissionWrite(id, carrier) => Commission(p, s, id, carrier, a)
  }

  lemma RetireKeepsShape(s: StoreState, id: string)
    requires AllShaped(s) && id in s.records
    ensures Shaped(s.records[id]) && AllShaped(Retire(s, s.records[id]))
  {
    hide Shaped, DppId, CommissionedIds, Owned;
  }

  lemma CommissionKeepsShape(p: Profile, s: StoreState, id: string, carrier: Record, a: Ambient)
    requires AllShaped(s)
    ensures AllShaped(Commission(p, s, id, carrier, a).0)
  {
    hide AllShaped, Commit, Shaped, Retire, Bound, NewCarrier, Succeed;
    if id in s.records {
      RetireKeepsShape(s, id);
      var (t, res) := Commission(p, s, id, carrier, a);
      if res.Ok? {
        var done := Commit(p, Retire(s, s.records[id]), res.value, a);
        CommitShaped(p, Retire(s, s.records[id]), res.value, a);
        SameRecordsShaped(done, t);
      }
    }
  }

  // Whatever is written, every stored record has the schema's shape and its own identifier.
  lemma ApplyKeepsShape(p: Profile, s: StoreState, w: Write, a: Ambient)
    requires AllShaped(s)
    ensures AllShaped(Apply(p, s, w, a).0)
  {
    hide AllShaped, Commit, Initial, Patched, Appended, Succeed, Guard, HasEntry, Shaped, Commission;
    var (t, res) := Apply(p, s, w, a);
    match w
    case CommissionWrite(id, carrier) => CommissionKeepsShape(p, s, id, carrier, a);
    case _ =>
      if t != s {
        CommitShaped(p, s, res.value, a);
      }
  }

  // A patch that does not move the record to another identifier.
  predicate KeepsId(patch: Record, id: string) {
    "dppId" in patch ==> patch["dppId"] == Str(id)
  }

  // The request passes the ownership checks, so bindings are closed before the rest of it
  // is looked at.
  predicate PastOwnership(s: StoreState, id: string, carrier: Record) {
    && id in s.records
    && "encodedIdentifier" in carrier
    && !carrier["encodedIdentifier"].Arr? && !carrier["encodedIdentifier"].Obj?
    && (carrier["encodedIdentifier"].Str? ==> !TakenByOther(s, Requested(carrier), id))
  }

  // What is checked after the bindings have been closed.
  predicate Complete(p: Profile, r: Record, carrier: Record, a: Ambient)
    requires Shaped(r) && "encodedIdentifier" in carrier
  {
    && {"carrierType", "encodingScheme", "boundBy"} <= carrier.Keys
    && Accepts(p, Succeed(r, Bound(r, NewCarrier(carrier, a), a), a))
  }

  // Will the write commit a new version? Every check it goes through, on the state before.
  predicate WillCommit(p: Profile, s: StoreState, w: Write, a: Ambient)
    requires AllShaped(s)
  {
    match w
    case CreateWrite(payload) =>
      var r := Initial(payload, a);
      !(r["dppId"].Str? && r["dppId"].str in s.records) && Accepts(p, r)
    case PatchWrite(id, patch, ifMatch) =>
      id in s.records && ifMatch.Some?
      && var r := s.records[id];
         && EntityTag.Matches(ifMatch.value, DppId(r), Version(r))
         && Guard(r, Patched(r, patch)) && Accepts(p, Succeed(r, Patched(r, patch), a))
    case AppendWrite(id, collection, entry, idField) =>
      id in s.records
      && var r := s.records[id];
         && (collection in r ==> IsArrayOfObjects(r[collection]))
         && !HasEntry(ArrayAt(r, collection), entry, idField)
         && Accepts(p, Succeed(r, Appended(r, collection, entry), a))
    case CommissionWrite(id, carrier) =>
      PastOwnership(s, id, carrier) && Complete(p, s.records[id], carrier, a)
  }

  // The version it will commit.
  function Successor(p: Profile, s: StoreState, w: Write, a: Ambient): Record
    requires AllShaped(s) && WillCommit(p, s, w, a)
  {
    match w
    case CreateWrite(payload) => Initial(payload, a)
    case PatchWrite(id, patch, _) => Succeed(s.records[id], Patched(s.records[id], patch), a)
    case AppendWrite(id, collection, entry, _) => Succeed(s.records[id], Appended(s.records[id], collection, entry), a)
    case CommissionWrite(id, carrier) => Succeed(s.records[id], Bound(s.records[id], NewCarrier(carrier, a), a), a)
  }

  // The passport a patch leaves the record under.
  function Target(id: string, patch: Record): string {
    if "dppId" in patch && patch["dppId"].Str? then patch["dppId"].str else id
  }

  // The patched record continues the passport it is left under: its own, or another that
  // stands at the same version and whose collections it extends.
  ghost predicate Continues(s: StoreState, id: string, patch: Record)
    requires AllShaped(s) && id in s.records
  {
    var target, r := Target(id, patch), s.records[id];
    target == id
    || (target in s.records && Version(s.records[target]) == Version(r)
        && forall c :: c in PROTECTED ==> Extends(s.records[target], Patched(r, patch), c))
  }

  ghost predicate KeepsHistory(s: StoreState, w: Write)
    requires AllShaped(s)
  {
    w.PatchWrite? && w.id in s.records ==> Continues(s, w.id, w.patch)
  }

  lemma HistoryShapes(s: StoreState)
    requires HistoryInv(s)
    ensures AllShaped(s)
    ensures forall id :: id in s.records ==> Version(s.records[id]) == |s.history[id]|
  {
    hide Shaped, DppId, Version;
    forall id | id in s.records ensures Shaped(s.records[id]) && DppId(s.records[id]) == id
                                        && Version(s.records[id]) == |s.history[id]| {
      assert IsHistory(s.history[id], id, s.records[id]);
    }
  }

  // ------------------------------------------------- successors of a record

  lemma ProtectedNames(c: string)
    requires c in PROTECTED
    ensures c !in {"recordVersion", "updatedAt", "carriers", "identity", "dppId"}
  {
  }

  lemma SucceedFields(r: Record, updated: Record, a: Ambient)
    requires Shaped(r)
    ensures var next := Succeed(r, updated, a);
      && (Shaped(next) ==> Version(next) == Version(r) + 1)
      && (forall k :: k in updated && k != "recordVersion" && k != "updatedAt" ==> k in next && next[k] == updated[k])
      && (forall k :: k in next && k != "recordVersion" && k != "updatedAt" ==> k in updated)
  {
  }

  // A successor whose collections extend the record's, and that keeps its identifier,
  // may be committed.
  lemma SucceedIsNext(s: StoreState, id: string, updated: Record, a: Ambient)
    requires AllShaped(s) && id in s.records
    requires Shaped(Succeed(s.records[id], updated, a))
    requires "dppId" in updated && updated["dppId"] == Str(id)
    requires forall c :: c in PROTECTED ==> Extends(s.records[id], updated, c)
    ensures IsNext(s, Succeed(s.records[id], updated, a))
    ensures DppId(Succeed(s.records[id], updated, a)) == id
  {
    var r, next := s.records[id], Succeed(s.records[id], updated, a);
    SucceedFields(r, updated, a);
    forall c | c in PROTECTED ensures Extends(r, next, c) {
      ProtectedNames(c);
      assert ArrayAt(next, c) == ArrayAt(updated, c);
    }
  }

  // --------------------------------------------------- every write, one by one

  // An accepted write commits the record it returns.
  ghost predicate Committed(p: Profile, s: StoreState, t: StoreState, r: Record, a: Ambient) {
    IsNext(s, r) && Commits(p, s, t, r, a)
  }

  lemma CreateCommits(p: Profile, s: StoreState, payload: Record, a: Ambient)
    requires AllShaped(s)
    ensures var (t, res) := Create(p, s, payload, a);
      if res.Ok? then DppId(res.value) !in s.records && Committed(p, s, t, res.value, a) else t == s
  {
    hide Shaped, Initial, Commit;
    InitialIsFirst(payload, a);
  }

  lemma InitialIsFirst(payload: Record, a: Ambient)
    ensures var r := Initial(payload, a); "dppId" in r && (Shaped(r) ==> r["dppId"] == Str(DppId(r)) && Version(r) == 1)
  {
    assert Initial(payload, a)["recordVersion"] == IntVal(1);
  }

  // The successor of a patched record stands under the patch's target and may be committed
  // exactly when it continues that passport.
  lemma PatchedIsNext(s: StoreState, id: string, patch: Record, a: Ambient)
    requires AllShaped(s) && id in s.records && Guard(s.records[id], Patched(s.records[id], patch))
    requires Shaped(Succeed(s.records[id], Patched(s.records[id], patch), a))
    ensures var next := Succeed(s.records[id], Patched(s.records[id], patch), a);
      DppId(next) == Target(id, patch) && (IsNext(s, next) <==> Continues(s, id, patch))
  {
    hide Patched, GuardCollection, Extends;
    var r, updated := s.records[id], Patched(s.records[id], patch);
    var next := Succeed(r, updated, a);
    SucceedFields(r, updated, a);
    PatchedTarget(r, patch);
    forall c | c in PROTECTED ensures Extends(r, updated, c) {
      GuardExtends(r, updated, c);
    }
    forall q, c | c in PROTECTED ensures Extends(q, next, c) == Extends(q, updated, c) {
      SucceedExtends(q, r, updated, a, c);
    }
    hide Shaped, Succeed;
  }

  lemma PatchedTarget(r: Record, patch: Record)
    requires Shaped(r) && "dppId" in Patched(r, patch) && Patched(r, patch)["dppId"].Str?
    ensures Patched(r, patch)["dppId"] == Str(Target(DppId(r), patch))
  {
    hide Shaped;
    assert StrOpt(r, "dppId").Some? by { ShapedId(r); }
  }

  lemma ShapedId(r: Record)
    requires Shaped(r)
    ensures StrOpt(r, "dppId").Some?
  {
  }

  lemma SucceedExtends(q: Record, r: Record, updated: Record, a: Ambient, c: string)
    requires Shaped(r) && c in PROTECTED
    ensures Extends(q, Succeed(r, updated, a), c) == Extends(q, updated, c)
  {
    hide Shaped, Version;
    ProtectedNames(c);
    assert ArrayAt(Succeed(r, updated, a), c) == ArrayAt(updated, c);
  }

  lemma PatchCommits(p: Profile, s: StoreState, id: string, patch: Record, ifMatch: Option<string>, a: Ambient)
    requires AllShaped(s)
    ensures var (t, res) := Patch(p, s, id, patch, ifMatch, a);
      if res.Ok? then
        && Shaped(res.value) && Commits(p, s, t, res.value, a) && DppId(res.value) == Target(id, patch)
        && (IsNext(s, res.value) <==> Continues(s, id, patch))
      else t == s
  {
    hide Shaped, DppId, Version, Patched, Guard, IsNext, Continues, Commit, Succeed, EntityTag.Matches;
    if Patch(p, s, id, patch, ifMatch, a).1.Ok? {
      PatchedIsNext(s, id, patch, a);
    }
  }

  lemma AppendedExtends(r: Record, collection: string, entry: Record, c: string)
    ensures Extends(r, Appended(r, collection, entry), c)
  {
    var kept, grown := ArrayAt(r, c), ArrayAt(Appended(r, collection, entry), c);
    assert c == collection ==> grown == kept + [Obj(entry)];
    assert c != collection ==> grown == kept;
  }

  lemma AppendCommits(p: Profile, s: StoreState, id: string, collection: string, entry: Record, idField: string,
                      a: Ambient)
    requires AllShaped(s)
    ensures var (t, res) := Append(p, s, id, collection, entry, idField, a);
      && (res.Err? ==> t == s)
      && (res.Ok? && t != s ==> DppId(res.value) == id && Committed(p, s, t, res.value, a))
  {
    hide Shaped, DppId, Version, Extends, Commit, Succeed, HasEntry, Appended;
    var (t, res) := Append(p, s, id, collection, entry, idField, a);
    if res.Ok? && t != s {
      var r := s.records[id];
      forall c | c in PROTECTED ensures Extends(r, Appended(r, collection, entry), c) {
        AppendedExtends(r, collection, entry, c);
      }
      AppendedKeepsId(s, id, collection, entry);
      SucceedIsNext(s, id, Appended(r, collection, entry), a);
    }
  }

  // A collection is an array, and the identifier is not.
  lemma AppendedKeepsId(s: StoreState, id: string, collection: string, entry: Record)
    requires AllShaped(s) && id in s.records
    requires collection in s.records[id] ==> IsArrayOfObjects(s.records[id][collection])
    ensures var updated := Appended(s.records[id], collection, entry);
      "dppId" in updated && updated["dppId"] == Str(id)
  {
    ShapedId(s.records[id]);
    hide Shaped;
  }

  // An entry that is there is not added again: the current record is the answer.
  lemma KnownEntry(p: Profile, s: StoreState, id: string, collection: string, entry: Record, idField: string,
                   a: Ambient)
    requires AllShaped(s) && id in s.records && collection in s.records[id]
    requires IsArrayOfObjects(s.records[id][collection])
    requires HasEntry(ArrayAt(s.records[id], collection), entry, idField)
    ensures Append(p, s, id, collection, entry, idField, a) == (s, Ok(s.records[id]))
  {
  }

  // Submitting an accepted entry again at once returns the same record and changes nothing.
  lemma AppendIsIdempotent(p: Profile, s: StoreState, id: string, collection: string, entry: Record, idField: string,
                           a: Ambient, b: Ambient)
    requires AllShaped(s) && Append(p, s, id, collection, entry, idField, a).1.Ok?
    ensures var (t, res) := Append(p, s, id, collection, entry, idField, a);
      AllShaped(t) && Append(p, t, id, collection, entry, idField, b) == (t, res)
  {
    hide Shaped, Append, HasEntry, IsArrayOfObjects;
    var (t, res) := Append(p, s, id, collection, entry, idField, a);
    ApplyKeepsShape(p, s, AppendWrite(id, collection, entry, idField), a);
    EntryIsThere(p, s, id, collection, entry, idField, a);
    if collection in t.records[id] {
      KnownEntry(p, t, id, collection, entry, idField, b);
    }
  }

  // After an accepted append the entry is in the current record, which is the answer.
  lemma EntryIsThere(p: Profile, s: StoreState, id: string, collection: string, entry: Record, idField: string,
                     a: Ambient)
    requires AllShaped(s) && Append(p, s, id, collection, entry, idField, a).1.Ok?
    ensures var (t, res) := Append(p, s, id, collection, entry, idField, a);
      && id in t.records && t.records[id] == res.value
      && collection in res.value && IsArrayOfObjects(res.value[collection])
      && HasEntry(ArrayAt(res.value, collection), entry, idField)
  {
    hide Shaped, DppId, Succeed, Appended, HasEntry, IsArrayOfObjects, Accepts, NewItem;
    var r, next := s.records[id], Succeed(s.records[id], Appended(s.records[id], collection, entry), a);
    if HasEntry(ArrayAt(r, collection), entry, idField) {
      HeldEntry(r, collection, entry, idField);
    } else {
      AppendedCollection(r, collection, entry, idField, a);
      AppendCommits(p, s, id, collection, entry, idField, a);
      assert Accepts(p, next);
      AcceptedShaped(p, next);
    }
  }

  lemma AcceptedShaped(p: Profile, r: Record)
    requires Accepts(p, r)
    ensures Shaped(r)
  {
  }

  lemma HeldEntry(r: Record, collection: string, entry: Record, idField: string)
    requires HasEntry(ArrayAt(r, collection), entry, idField)
    ensures collection in r
  {
  }

  lemma AppendedCollection(r: Record, collection: string, entry: Record, idField: string, a: Ambient)
    requires Shaped(r) && (collection in r ==> IsArrayOfObjects(r[collection]))
    ensures var next := Succeed(r, Appended(r, collection, entry), a);
      && collection in next && IsArrayOfObjects(next[collection])
      && HasEntry(ArrayAt(next, collection), entry, idField)
  {
    StampsAreNoArrays(r);
    hide Shaped, Version;
    var items := ArrayAt(r, collection) + [Obj(entry)];
    assert Succeed(r, Appended(r, collection, entry), a)[collection] == Arr(items);
    assert items[|items| - 1] == Obj(entry);
  }

  lemma StampsAreNoArrays(r: Record)
    requires Shaped(r)
    ensures "recordVersion" in r && r["recordVersion"].Num? && "updatedAt" in r && r["updatedAt"].Str?
  {
  }

  lemma BoundFields(r: Record, entry: Record, a: Ambient)
    requires Shaped(r) && "encodedIdentifier" in entry
    ensures var updated := Bound(r, entry, a);
      && (forall c :: c in PROTECTED ==> Extends(r, updated, c))
      && "dppId" in updated && updated["dppId"] == Str(DppId(r))
  {
    var updated := Bound(r, entry, a);
    forall c | c in PROTECTED ensures Extends(r, updated, c) {
      ProtectedNames(c);
      assert ArrayAt(updated, c) == ArrayAt(r, c);
    }
  }

  lemma NewCarrierNamesIdentifier(carrier: Record, a: Ambient)
    requires {"encodedIdentifier", "carrierType", "encodingScheme", "boundBy"} <= carrier.Keys
    ensures var entry := NewCarrier(carrier, a);
      && "encodedIdentifier" in entry && entry["encodedIdentifier"] == carrier["encodedIdentifier"]
      && "bindingStatus" in entry && entry["bindingStatus"] == Str("commissioned")
  {
  }

  lemma CommissionCommits(p: Profile, s: StoreState, id: string, carrier: Record, a: Ambient)
    requires AllShaped(s)
    ensures var (t, res) := Commission(p, s, id, carrier, a);
      if res.Ok? then DppId(res.value) == id && Committed(p, s, t, res.value, a) else SameCore(s, t)
  {
    hide Shaped, Extends, Digest, NewCarrier, Bound;
    var (t, res) := Commission(p, s, id, carrier, a);
    if res.Ok? {
      var r := s.records[id];
      NewCarrierNamesIdentifier(carrier, a);
      BoundFields(r, NewCarrier(carrier, a), a);
      SucceedIsNext(s, id, Bound(r, NewCarrier(carrier, a), a), a);
    }
  }

  // ---------------------------------------------------------- main results

  // A write commits its successor or leaves records, history and outbox alone, as its
  // checks decide; only a commission touches the carrier maps.
  lemma ApplyCommits(p: Profile, s: StoreState, w: Write, a: Ambient)
    requires AllShaped(s)
    ensures var (t, res) := Apply(p, s, w, a);
      && (if WillCommit(p, s, w, a) then
            && res == Ok(Successor(p, s, w, a)) && Shaped(Successor(p, s, w, a))
            && Commits(p, s, t, Successor(p, s, w, a), a) && t.lastCommitMs == a.ms
          else SameCore(s, t) && t.lastCommitMs == s.lastCommitMs)
      && (!w.CommissionWrite? ==> t.index == s.index && t.retired == s.retired)
  {
    hide Shaped, DppId, Version, Guard, Patched, Appended, Succeed, Initial, Bound, NewCarrier, Retire, NewItem,
         TakenByOther, HasEntry, IsArrayOfObjects, EntityTag.Matches;
    match w
    case CreateWrite(payload) =>
    case PatchWrite(id, patch, ifMatch) =>
    case AppendWrite(id, collection, entry, idField) =>
    case CommissionWrite(id, carrier) =>
      if id in s.records {
        RetireSameCore(s, s.records[id]);
      }
  }

  lemma RetireSameCore(s: StoreState, r: Record)
    requires Shaped(r)
    ensures SameCore(s, Retire(s, r)) && Retire(s, r).lastCommitMs == s.lastCommitMs
  {
    hide Shaped;
  }

  // A successor is a first version or continues its passport, but for a patch that leaves
  // the record under another passport it does not continue.
  lemma SuccessorIsNext(p: Profile, s: StoreState, w: Write, a: Ambient)
    requires AllShaped(s) && WillCommit(p, s, w, a)
    ensures Shaped(Successor(p, s, w, a)) && (IsNext(s, Successor(p, s, w, a)) <==> KeepsHistory(s, w))
  {
    hide Shaped, DppId, Version, IsNext, Continues, Create, Patch, Append, Commission, Commits;
    ApplyCommits(p, s, w, a);
    match w
    case CreateWrite(payload) => CreateCommits(p, s, payload, a);
    case PatchWrite(id, patch, ifMatch) => PatchCommits(p, s, id, patch, ifMatch, a);
    case AppendWrite(id, collection, entry, idField) => AppendIsNext(p, s, w, a);
    case CommissionWrite(id, carrier) => CommissionCommits(p, s, id, carrier, a);
  }

  lemma AppendIsNext(p: Profile, s: StoreState, w: Write, a: Ambient)
    requires AllShaped(s) && w.AppendWrite? && WillCommit(p, s, w, a)
    ensures Shaped(Successor(p, s, w, a)) && IsNext(s, Successor(p, s, w, a))
  {
    hide Shaped, DppId, Version, IsNext, Commits, Succeed, Appended, HasEntry, Commit;
    AppendCommits(p, s, w.id, w.collection, w.entry, w.idField, a);
    ApplyCommits(p, s, w, a);
    OneMore(p, s, Apply(p, s, w, a).0, Successor(p, s, w, a), a);
  }

  lemma OneMore(p: Profile, s: StoreState, t: StoreState, r: Record, a: Ambient)
    requires Shaped(r) && Commits(p, s, t, r, a)
    ensures t != s
  {
    hide Shaped, NewItem;
    assert |t.outbox| == |s.outbox| + 1;
  }

  // Versions, history and outbox stay in step, and collections grow only at the end,
  // through every write but one: a patch that moves the record to a passport it does not
  // continue.
  lemma WriteKeepsInv(p: Profile, s: StoreState, w: Write, a: Ambient)
    requires StoreInv(p, s) && FreshEvidence(s, a)
    ensures AllShaped(s)
    ensures StoreInv(p, Apply(p, s, w, a).0) <==> (WillCommit(p, s, w, a) ==> KeepsHistory(s, w))
  {
    hide Shaped, DppId, Version, StoreInv, Create, Patch, Append, Commission, Commits, IsNext, KeepsHistory;
    StoreInvShapes(p, s);
    var t := Apply(p, s, w, a).0;
    ApplyCommits(p, s, w, a);
    if WillCommit(p, s, w, a) {
      var next := Successor(p, s, w, a);
      SuccessorIsNext(p, s, w, a);
      if IsNext(s, next) {
        CommitKeepsInv(p, s, t, next, a);
      } else if StoreInv(p, t) {
        CommitNeedsNext(p, s, t, next, a);
      }
    } else {
      SameCoreKeepsInv(p, s, t);
    }
  }

  lemma StoreInvShapes(p: Profile, s: StoreState)
    requires StoreInv(p, s)
    ensures AllShaped(s)
  {
    hide Shaped, AppendOnlyInv, OutboxInv;
    HistoryShapes(s);
  }

  lemma SameCoreKeepsInv(p: Profile, s: StoreState, t: StoreState)
    requires StoreInv(p, s) && SameCore(s, t)
    ensures StoreInv(p, t)
  {
    hide Shaped, DppId, Version, Extends, Digest;
    assert forall id :: HistoryOf(s, id) == HistoryOf(t, id);
    forall k | 0 <= k < |t.outbox| ensures Attests(p, t, t.outbox[k]) {
      assert Attests(p, s, s.outbox[k]);
    }
    forall id, v | 1 <= v <= |HistoryOf(t, id)| ensures HasItem(t, id, v) {
      assert HasItem(s, id, v);
    }
  }

  // The identifier a patch leaves behind is what decides: an accepted patch keeps the
  // invariant exactly when the record stays under its passport or continues another one.
  lemma PatchedIdentifierDecides(p: Profile, s: StoreState, id: string, patch: Record, ifMatch: Option<string>,
                                 a: Ambient)
    requires StoreInv(p, s) && AllShaped(s) && FreshEvidence(s, a)
    requires WillCommit(p, s, PatchWrite(id, patch, ifMatch), a)
    ensures StoreInv(p, Patch(p, s, id, patch, ifMatch, a).0)
            <==> var target, r := Target(id, patch), s.records[id];
                 || target == id
                 || (target in s.records && Version(s.records[target]) == Version(r)
                     && forall c :: c in PROTECTED ==> Extends(s.records[target], Patched(r, patch), c))
  {
    hide Shaped, DppId, Version, StoreInv, Patched, Patch, Accepts, Guard, EntityTag.Matches;
    WriteKeepsInv(p, s, PatchWrite(id, patch, ifMatch), a);
  }

  // Optimistic concurrency: an update carrying the entity tag of another version than the
  // current one is refused.
  lemma StaleTagRefused(p: Profile, s: StoreState, id: string, patch: Record, v: int, a: Ambient)
    requires AllShaped(s) && id in s.records && Version(s.records[id]) != v
    ensures Patch(p, s, id, patch, Some(EntityTag.ETag(id, v)), a) == (s, Err(VersionConflict))
  {
    EntityTag.ETagNamesVersion(id, v, Version(s.records[id]));
  }

  // So of two updates made from one version, the second is refused.
  lemma NoLostUpdate(p: Profile, s: StoreState, id: string, first: Record, second: Record, v: int, a: Ambient,
                     b: Ambient)
    requires AllShaped(s) && Patch(p, s, id, first, Some(EntityTag.ETag(id, v)), a).1.Ok? && Target(id, first) == id
    ensures var t := Patch(p, s, id, first, Some(EntityTag.ETag(id, v)), a).0;
      AllShaped(t) && Patch(p, t, id, second, Some(EntityTag.ETag(id, v)), b) == (t, Err(VersionConflict))
  {
    hide Shaped, DppId, Version, Patch, Extends, NewItem, EntityTag.ETag;
    var w := PatchWrite(id, first, Some(EntityTag.ETag(id, v)));
    var (t, res) := Apply(p, s, w, a);
    ApplyKeepsShape(p, s, w, a);
    PatchCommits(p, s, id, first, w.ifMatch, a);
    FirstUpdateIsCurrent(p, s, id, first, v, a);
    assert t.records[id] == res.value;
    StaleTagRefused(p, t, id, second, v, b);
  }

  lemma FirstUpdateIsCurrent(p: Profile, s: StoreState, id: string, patch: Record, v: int, a: Ambient)
    requires AllShaped(s) && Patch(p, s, id, patch, Some(EntityTag.ETag(id, v)), a).1.Ok?
    ensures id in s.records && Version(s.records[id]) == v
    ensures var r := Patch(p, s, id, patch, Some(EntityTag.ETag(id, v)), a).1.value; Shaped(r) && Version(r) == v + 1
  {
    hide Shaped, Version, Patched, Guard, Commit, EntityTag.ETag, EntityTag.Matches;
    EntityTag.ETagNamesVersion(id, v, Version(s.records[id]));
    SucceedFields(s.records[id], Patched(s.records[id], patch), a);
  }
}
