// What every write keeps, in every state and whatever it names: the versions of a passport
// as they were stored, and one outbox entry for each, in their order.

module StoreTrail {
  import opened Values
  import opened Records
  import opened StoreSpec
  import opened StoreHistory
  import opened StoreSteps
  import opened StoreCarriers
  import EntityTag

  // The versions of one passport, whatever their numbers: all its own, the last one current.
  ghost predicate IsTrail(h: seq<Record>, id: string, current: Record) {
    && |h| > 0 && h[|h| - 1] == current
    && forall i :: 0 <= i < |h| ==> Shaped(h[i]) && DppId(h[i]) == id
  }

  ghost predicate TrailInv(s: StoreState) {
    && s.records.Keys == s.history.Keys
    && forall id :: id in s.history ==> IsTrail(s.history[id], id, s.records[id])
  }

  // The entry carries the number and the digest of this record.
  ghost predicate MadeFrom(p: Profile, item: OutboxItem, r: Record) {
    Shaped(r) && Version(r) == item.subjectVersion && Digest(p, r) == item.digestValue
  }

  ghost predicate Recorded(p: Profile, s: StoreState, item: OutboxItem) {
    var h := HistoryOf(s, item.dppId);
    exists m :: 0 <= m < |h| && MadeFrom(p, item, h[m])
  }

  // The entries of one passport, in order.
  function EntriesOf(items: seq<OutboxItem>, id: string): seq<OutboxItem> {
    if items == [] then []
    else
      var last := items[|items| - 1];
      EntriesOf(items[..|items| - 1], id) + if last.dppId == id then [last] else []
  }

  // The n-th entry of a passport was made from its n-th version, and there are as many.
  ghost predicate InStep(p: Profile, s: StoreState, id: string) {
    var es, h := EntriesOf(s.outbox, id), HistoryOf(s, id);
    |es| == |h| && forall n :: 0 <= n < |h| ==> MadeFrom(p, es[n], h[n])
  }

  ghost predicate StoreBase(p: Profile, s: StoreState) {
    && AllShaped(s) && TrailInv(s) && MapsAgree(s) && EvidenceIdsUnique(s)
    && |s.outbox| == TotalVersions(s.history)
    && forall id :: InStep(p, s, id)
  }

  lemma {:induction false} EntryAmong(items: seq<OutboxItem>, k: nat) returns (n: nat)
    requires k < |items|
    ensures n < |EntriesOf(items, items[k].dppId)| && EntriesOf(items, items[k].dppId)[n] == items[k]
  {
    var front, id := items[..|items| - 1], items[k].dppId;
    if k == |front| {
      n := |EntriesOf(front, id)|;
    } else {
      n := EntryAmong(front, k);
    }
  }

  // So every entry was made from a stored version of its passport.
  lemma EntryRecorded(p: Profile, s: StoreState, k: nat)
    requires StoreBase(p, s) && k < |s.outbox|
    ensures Recorded(p, s, s.outbox[k])
  {
    hide Shaped, Version, Digest, TrailInv, AllShaped, MapsAgree, EvidenceIdsUnique, EntriesOf;
    assert InStep(p, s, s.outbox[k].dppId);
    var n := EntryAmong(s.outbox, k);
  }

  // And every stored version has its entry.
  lemma VersionHasEntry(p: Profile, s: StoreState, id: string, n: nat)
    requires StoreBase(p, s) && n < |HistoryOf(s, id)|
    ensures exists k :: 0 <= k < |s.outbox| && s.outbox[k].dppId == id && MadeFrom(p, s.outbox[k], HistoryOf(s, id)[n])
  {
    hide Shaped, Version, Digest, TrailInv, AllShaped, MapsAgree, EvidenceIdsUnique, EntriesOf, MadeFrom;
    assert InStep(p, s, id);
    var k := AmongEntries(s.outbox, id, n);
  }

  lemma {:induction false} AmongEntries(items: seq<OutboxItem>, id: string, n: nat) returns (k: nat)
    requires n < |EntriesOf(items, id)|
    ensures k < |items| && items[k] == EntriesOf(items, id)[n] && items[k].dppId == id
  {
    var front := items[..|items| - 1];
    if n == |EntriesOf(front, id)| {
      k := |front|;
    } else {
      k := AmongEntries(front, id, n);
    }
  }

  // Entries that move leave those of a passport where they are.
  lemma {:induction false} EntriesStay(a: seq<OutboxItem>, b: seq<OutboxItem>, id: string)
    requires |a| == |b| && forall k :: 0 <= k < |a| ==> SameSubject(a[k], b[k])
    ensures var es, fs := EntriesOf(a, id), EntriesOf(b, id);
      |es| == |fs| && forall n :: 0 <= n < |es| ==> SameSubject(es[n], fs[n])
  {
    if a != [] {
      EntriesStay(a[..|a| - 1], b[..|b| - 1], id);
    }
  }

  // The version an entry was made from is in it.
  ghost predicate SameSubject(a: OutboxItem, b: OutboxItem) {
    a.dppId == b.dppId && a.subjectVersion == b.subjectVersion && a.digestValue == b.digestValue
  }

  lemma MovedInStep(p: Profile, s: StoreState, t: StoreState, id: string)
    requires InStep(p, s, id) && t.history == s.history && |s.outbox| == |t.outbox|
    requires forall k :: 0 <= k < |s.outbox| ==> SameSubject(s.outbox[k], t.outbox[k])
    ensures InStep(p, t, id)
  {
    hide Shaped, Version, Digest, EntriesOf;
    EntriesStay(s.outbox, t.outbox, id);
  }

  // The version found under the entry's number is one with the entry's digest.
  ghost predicate Verifies(p: Profile, s: StoreState, item: OutboxItem) {
    var found := GetVersion(s, item.dppId, item.subjectVersion);
    found.Ok? && Digest(p, found.value) == item.digestValue
  }

  ghost predicate AllVerify(p: Profile, s: StoreState) {
    forall k :: 0 <= k < |s.outbox| ==> Verifies(p, s, s.outbox[k])
  }

  // Histories only grow, at their ends.
  ghost predicate HistoryKept(s: StoreState, t: StoreState) {
    forall id :: id in s.history ==> id in t.history && s.history[id] <= t.history[id]
  }

  // ----------------------------------------------------------- finding versions

  lemma NumberedAs(r: Record, version: int)
    requires Shaped(r)
    ensures "recordVersion" in r && (r["recordVersion"] == IntVal(version) <==> Version(r) == version)
  {
  }

  lemma {:induction false} FindStays(h: seq<Record>, more: seq<Record>, version: int)
    requires FindVersion(h, version).Ok?
    ensures FindVersion(h + more, version) == FindVersion(h, version)
  {
    assert (h + more)[1..] == h[1..] + more && (h + more)[0] == h[0];
    if !("recordVersion" in h[0] && h[0]["recordVersion"] == IntVal(version)) {
      FindStays(h[1..], more, version);
    }
  }

  lemma {:induction false} FindAppended(h: seq<Record>, r: Record)
    requires Shaped(r) && FindVersion(h, Version(r)).Err?
    ensures FindVersion(h + [r], Version(r)) == Ok(r)
  {
    hide Shaped, Version;
    if h == [] {
      NumberedAs(r, Version(r));
    } else {
      assert (h + [r])[1..] == h[1..] + [r] && (h + [r])[0] == h[0];
      FindAppended(h[1..], r);
    }
  }

  lemma {:induction false} FindExists(h: seq<Record>, m: nat, version: int)
    requires m < |h| && Shaped(h[m]) && Version(h[m]) == version
    ensures FindVersion(h, version).Ok?
  {
    hide Shaped, Version;
    NumberedAs(h[m], version);
    if m > 0 {
      FindExists(h[1..], m - 1, version);
    }
  }

  lemma RecordedIsFound(p: Profile, s: StoreState, item: OutboxItem)
    requires Recorded(p, s, item)
    ensures GetVersion(s, item.dppId, item.subjectVersion).Ok?
  {
    hide Shaped, Version, Digest;
    var h := HistoryOf(s, item.dppId);
    var m :| 0 <= m < |h| && MadeFrom(p, item, h[m]);
    FindExists(h, m, item.subjectVersion);
  }

  // What an entry verifies against does not change any more.
  lemma FoundStays(p: Profile, s: StoreState, t: StoreState, item: OutboxItem, moved: OutboxItem)
    requires HistoryKept(s, t) && Recorded(p, s, item)
    requires SameSubject(item, moved)
    ensures Recorded(p, t, moved) && (Verifies(p, t, moved) <==> Verifies(p, s, item))
  {
    hide Shaped, Version, Digest, FindVersion;
    var h, g := HistoryOf(s, item.dppId), HistoryOf(t, item.dppId);
    var m :| 0 <= m < |h| && MadeFrom(p, item, h[m]);
    assert g[m] == h[m] && MadeFrom(p, moved, g[m]);
    RecordedIsFound(p, s, item);
    FindStays(h, g[|h|..], item.subjectVersion);
    assert g == h + g[|h|..];
  }

  // -------------------------------------------------------------- one commit

  lemma CommitHistory(p: Profile, s: StoreState, t: StoreState, r: Record, a: Ambient)
    requires TrailInv(s) && Shaped(r) && Commits(p, s, t, r, a)
    ensures TrailInv(t) && HistoryKept(s, t)
    ensures HistoryOf(t, DppId(r)) == HistoryOf(s, DppId(r)) + [r]
    ensures t.outbox == s.outbox + [NewItem(p, r, a)]
  {
    hide Shaped, DppId, Version, Digest, NewItem;
    var id := DppId(r);
    forall x | x in t.history ensures IsTrail(t.history[x], x, t.records[x]) {
      if x in s.history {
        assert IsTrail(s.history[x], x, s.records[x]);
      }
    }
  }

  lemma NewItemNames(p: Profile, r: Record, a: Ambient)
    requires Shaped(r)
    ensures var item := NewItem(p, r, a);
      && item.dppId == DppId(r) && MadeFrom(p, item, r) && item.evidenceId == a.evidenceUrn
  {
    hide Shaped, DppId, Version, Digest;
  }

  // The new entry verifies unless an older version of its passport has its number and
  // another digest.
  lemma NewItemVerifies(p: Profile, s: StoreState, t: StoreState, r: Record, a: Ambient)
    requires TrailInv(s) && Shaped(r) && Commits(p, s, t, r, a)
    ensures var item, found := NewItem(p, r, a), GetVersion(s, DppId(r), Version(r));
      && Recorded(p, t, item)
      && (Verifies(p, t, item) <==> (found.Ok? ==> Digest(p, found.value) == Digest(p, r)))
  {
    hide Shaped, DppId, Version, Digest, FindVersion, NewItem, TrailInv;
    CommitHistory(p, s, t, r, a);
    NewItemNames(p, r, a);
    var h := HistoryOf(s, DppId(r));
    assert (h + [r])[|h|] == r;
    if FindVersion(h, Version(r)).Ok? {
      FindStays(h, [r], Version(r));
    } else {
      FindAppended(h, r);
    }
  }

  lemma CommitKeepsBase(p: Profile, s: StoreState, t: StoreState, r: Record, a: Ambient)
    requires StoreBase(p, s) && Shaped(r) && Commits(p, s, t, r, a) && FreshEvidence(s, a)
    requires AllShaped(t) && MapsAgree(t)
    ensures StoreBase(p, t)
  {
    hide Shaped, DppId, Version, Digest, TrailInv, MapsAgree, AllShaped, NewItem, HistoryKept, EntriesOf, MadeFrom;
    CommitHistory(p, s, t, r, a);
    NewItemNames(p, r, a);
    TotalAfterPush(s.history, DppId(r), r);
    forall id ensures InStep(p, t, id) {
      assert InStep(p, s, id);
      OneMoreEntry(s.outbox, NewItem(p, r, a), id);
    }
  }

  lemma OneMoreEntry(items: seq<OutboxItem>, item: OutboxItem, id: string)
    ensures EntriesOf(items + [item], id) == EntriesOf(items, id) + if item.dppId == id then [item] else []
  {
    assert (items + [item])[..|items|] == items;
  }

  // ------------------------------------------------------------ every write

  // A write whose number is already taken in the history of its passport, by a version with
  // another digest.
  ghost predicate Collides(p: Profile, s: StoreState, w: Write, a: Ambient)
    requires AllShaped(s)
  {
    WillCommit(p, s, w, a)
    && var next := Successor(p, s, w, a);
       Shaped(next)
       && var found := GetVersion(s, DppId(next), Version(next));
          found.Ok? && Digest(p, found.value) != Digest(p, next)
  }

  lemma WriteKeepsBase(p: Profile, s: StoreState, w: Write, a: Ambient)
    requires StoreBase(p, s) && FreshEvidence(s, a)
    ensures StoreBase(p, Apply(p, s, w, a).0) && HistoryKept(s, Apply(p, s, w, a).0)
  {
    hide Shaped, DppId, Version, Digest, TrailInv, Recorded, MapsAgree, AllShaped, WillCommit, Successor, Apply,
         NewItem, FreshEvidence, EvidenceIdsUnique;
    var t := Apply(p, s, w, a).0;
    ApplyCommits(p, s, w, a);
    ApplyKeepsShape(p, s, w, a);
    WriteKeepsMaps(p, s, w, a);
    if WillCommit(p, s, w, a) {
      CommitHistory(p, s, t, Successor(p, s, w, a), a);
      CommitKeepsBase(p, s, t, Successor(p, s, w, a), a);
    } else {
      SameCoreKeepsBase(p, s, t);
    }
  }

  lemma SameCoreKeepsBase(p: Profile, s: StoreState, t: StoreState)
    requires StoreBase(p, s) && SameCore(s, t) && AllShaped(t) && MapsAgree(t)
    ensures StoreBase(p, t) && HistoryKept(s, t)
    ensures AllVerify(p, t) <==> AllVerify(p, s)
  {
    hide Shaped, DppId, Version, Digest, MapsAgree, AllShaped, FindVersion;
    assert forall id :: HistoryOf(t, id) == HistoryOf(s, id);
    forall id ensures InStep(p, t, id) {
      assert InStep(p, s, id);
    }
    forall k | 0 <= k < |t.outbox| ensures Verifies(p, t, t.outbox[k]) <==> Verifies(p, s, s.outbox[k]) {
    }
  }

  // After a write every entry verifies exactly when every entry did before and the write
  // does not collide.
  lemma WriteVerifies(p: Profile, s: StoreState, w: Write, a: Ambient)
    requires StoreBase(p, s) && FreshEvidence(s, a)
    ensures AllVerify(p, Apply(p, s, w, a).0) <==> AllVerify(p, s) && !Collides(p, s, w, a)
  {
    hide Shaped, DppId, Version, Digest, TrailInv, Recorded, MapsAgree, AllShaped, WillCommit, Successor, Apply,
         NewItem, FreshEvidence, EvidenceIdsUnique, GetVersion, Verifies, HistoryKept;
    var t := Apply(p, s, w, a).0;
    ApplyCommits(p, s, w, a);
    ApplyKeepsShape(p, s, w, a);
    WriteKeepsMaps(p, s, w, a);
    if WillCommit(p, s, w, a) {
      var next := Successor(p, s, w, a);
      CommitHistory(p, s, t, next, a);
      NewItemVerifies(p, s, t, next, a);
      forall k | 0 <= k < |s.outbox| ensures Verifies(p, t, t.outbox[k]) <==> Verifies(p, s, s.outbox[k]) {
        EntryRecorded(p, s, k);
        FoundStays(p, s, t, s.outbox[k], t.outbox[k]);
      }
      assert t.outbox[|s.outbox|] == NewItem(p, next, a);
      assert AllVerify(p, t) <==> AllVerify(p, s) && Verifies(p, t, NewItem(p, next, a));
    } else {
      SameCoreKeepsBase(p, s, t);
    }
  }

  // ------------------------------------------------------- the disciplined store

  lemma OrderedVerifies(p: Profile, s: StoreState)
    requires StoreInv(p, s)
    ensures AllVerify(p, s)
  {
    hide Shaped, DppId, Version, Digest, AppendOnlyInv, HasItem, FindVersion;
    forall k | 0 <= k < |s.outbox| ensures Verifies(p, s, s.outbox[k]) {
      assert Attests(p, s, s.outbox[k]);
      AttestedVerifies(p, s, s.outbox[k]);
    }
  }

  lemma {:induction false} FindNumbered(h: seq<Record>, version: int, first: int)
    requires forall i :: 0 <= i < |h| ==> Shaped(h[i]) && Version(h[i]) == first + i
    ensures FindVersion(h, version) == if first <= version < first + |h| then Ok(h[version - first]) else Err(NotFound)
    decreases |h|
  {
    hide Shaped;
    if h != [] {
      NumberedAs(h[0], version);
      if version != first {
        FindNumbered(h[1..], version, first + 1);
      }
    }
  }

  lemma AttestedVerifies(p: Profile, s: StoreState, item: OutboxItem)
    requires HistoryInv(s) && Attests(p, s, item)
    ensures Recorded(p, s, item) && Verifies(p, s, item)
  {
    hide Shaped, DppId, Version, Digest;
    var h := HistoryOf(s, item.dppId);
    assert IsHistory(h, item.dppId, s.records[item.dppId]);
    FindNumbered(h, item.subjectVersion, 1);
    assert MadeFrom(p, item, h[item.subjectVersion - 1]);
  }

  // From a store whose versions are numbered, a write collides exactly when it is a patch
  // that leaves the record under another, stored passport which stands at a higher version,
  // and the version there with the new number has another digest.
  lemma CollidingPatch(p: Profile, s: StoreState, w: Write, a: Ambient)
    requires StoreInv(p, s) && AllShaped(s)
    ensures Collides(p, s, w, a)
            <==> w.PatchWrite? && WillCommit(p, s, w, a)
                 && var target, v := Target(w.id, w.patch), Version(s.records[w.id]);
                    && target != w.id && target in s.records && v < Version(s.records[target])
                    && v < |HistoryOf(s, target)|
                    && Digest(p, HistoryOf(s, target)[v]) != Digest(p, Successor(p, s, w, a))
  {
    hide Shaped, DppId, Version, Digest, WillCommit, Successor, AppendOnlyInv, OutboxInv, FindVersion, Continues;
    HistoryShapes(s);
    if WillCommit(p, s, w, a) {
      var next := Successor(p, s, w, a);
      SuccessorNumber(p, s, w, a);
      var h := HistoryOf(s, DppId(next));
      assert DppId(next) in s.history ==> IsHistory(h, DppId(next), s.records[DppId(next)]);
      FindNumbered(h, Version(next), 1);
    }
  }

  // Under which passport a committed version stands, and with which number.
  lemma SuccessorNumber(p: Profile, s: StoreState, w: Write, a: Ambient)
    requires AllShaped(s) && WillCommit(p, s, w, a)
    ensures var next := Successor(p, s, w, a);
      && Shaped(next)
      && (w.CreateWrite? ==> DppId(next) !in s.records)
      && (!w.CreateWrite? ==>
            && w.id in s.records && Version(next) == Version(s.records[w.id]) + 1
            && DppId(next) == if w.PatchWrite? then Target(w.id, w.patch) else w.id)
  {
    hide Shaped, DppId, Version, IsNext, Continues, Create, Patch, Append, Commission, Commits, Succeed, Patched,
         Appended, Bound;
    ApplyCommits(p, s, w, a);
    match w
    case CreateWrite(payload) => CreateCommits(p, s, payload, a);
    case PatchWrite(id, patch, ifMatch) =>
      PatchCommits(p, s, id, patch, ifMatch, a);
      SucceedFields(s.records[id], Patched(s.records[id], patch), a);
    case AppendWrite(id, collection, entry, idField) =>
      AppendCommits(p, s, id, collection, entry, idField, a);
      OneMore(p, s, Apply(p, s, w, a).0, Successor(p, s, w, a), a);
      SucceedFields(s.records[id], Appended(s.records[id], collection, entry), a);
    case CommissionWrite(id, carrier) =>
      CommissionCommits(p, s, id, carrier, a);
      NewCarrierNamesIdentifier(carrier, a);
      SucceedFields(s.records[id], Bound(s.records[id], NewCarrier(carrier, a), a), a);
  }

  // ---------------------------------------------------------------- collections

  // An accepted patch that leaves its record under another, stored passport and does not
  // extend this collection of it.
  ghost predicate Drops(p: Profile, s: StoreState, w: Write, a: Ambient, id: string, c: string)
    requires AllShaped(s)
  {
    && w.PatchWrite? && WillCommit(p, s, w, a) && id == Target(w.id, w.patch) && id != w.id
    && id in s.records && !Extends(s.records[id], Patched(s.records[w.id], w.patch), c)
  }

  lemma PatchedExtends(r: Record, q: Record, patch: Record, a: Ambient, c: string)
    requires Shaped(r) && Guard(r, Patched(r, patch)) && c in PROTECTED
    ensures Extends(q, Succeed(r, Patched(r, patch), a), c) == Extends(q, Patched(r, patch), c)
    ensures Extends(r, Patched(r, patch), c)
  {
    hide Shaped, Extends, GuardCollection, Patched, Succeed;
    SucceedExtends(q, r, Patched(r, patch), a, c);
    GuardExtends(r, Patched(r, patch), c);
  }

  // Under a stored passport, a committed version extends the current one, but for such a
  // patch.
  lemma SuccessorExtends(p: Profile, s: StoreState, w: Write, a: Ambient, c: string)
    requires AllShaped(s) && WillCommit(p, s, w, a) && c in PROTECTED
    ensures var next := Successor(p, s, w, a);
      && Shaped(next)
      && (DppId(next) in s.records ==>
            (Extends(s.records[DppId(next)], next, c) <==> !Drops(p, s, w, a, DppId(next), c)))
  {
    hide Shaped, DppId, Version, Extends, Guard, Patched, Appended, Bound, NewCarrier, Succeed, Initial, HasEntry,
         IsArrayOfObjects, EntityTag.Matches, TakenByOther, Accepts;
    SuccessorNumber(p, s, w, a);
    match w
    case CreateWrite(_) =>
    case PatchWrite(id, patch, _) =>
      if Target(id, patch) in s.records {
        PatchedExtends(s.records[id], s.records[Target(id, patch)], patch, a, c);
      }
    case AppendWrite(id, collection, entry, _) =>
      AppendedExtends(s.records[id], collection, entry, c);
      SucceedExtends(s.records[id], s.records[id], Appended(s.records[id], collection, entry), a, c);
    case CommissionWrite(id, carrier) =>
      NewCarrierNamesIdentifier(carrier, a);
      BoundFields(s.records[id], NewCarrier(carrier, a), a);
      SucceedExtends(s.records[id], s.records[id], Bound(s.records[id], NewCarrier(carrier, a), a), a, c);
  }

  // Through every write, in every state, each protected collection of each passport only
  // grows, exactly when the write is no such patch.
  lemma WriteKeepsCollection(p: Profile, s: StoreState, w: Write, a: Ambient, id: string, c: string)
    requires AllShaped(s) && id in s.records && c in PROTECTED
    ensures var t := Apply(p, s, w, a).0;
      id in t.records && (Extends(s.records[id], t.records[id], c) <==> !Drops(p, s, w, a, id, c))
  {
    hide Shaped, DppId, Version, Extends, WillCommit, Successor, Apply, NewItem, Patched;
    ApplyCommits(p, s, w, a);
    ExtendsTransitive(s.records[id], s.records[id], s.records[id], c);
    if WillCommit(p, s, w, a) {
      SuccessorExtends(p, s, w, a, c);
      SuccessorNumber(p, s, w, a);
    }
  }

  // A write that keeps versions in order neither drops anything nor collides.
  lemma InOrderDropsNothing(p: Profile, s: StoreState, w: Write, a: Ambient, id: string, c: string)
    requires AllShaped(s) && (WillCommit(p, s, w, a) ==> KeepsHistory(s, w)) && c in PROTECTED
    ensures !Drops(p, s, w, a, id, c)
  {
    hide Shaped, DppId, Version, Extends, Patched, Guard, Accepts, EntityTag.Matches, Succeed;
  }

  lemma InOrderNeverCollides(p: Profile, s: StoreState, w: Write, a: Ambient)
    requires StoreInv(p, s) && AllShaped(s) && (WillCommit(p, s, w, a) ==> KeepsHistory(s, w))
    ensures !Collides(p, s, w, a)
  {
    hide Shaped, DppId, Version, StoreInv, Collides, Extends, Patched, Guard, Accepts, EntityTag.Matches, Succeed,
         Successor, Digest, HistoryOf, PROTECTED;
    CollidingPatch(p, s, w, a);
  }
}
