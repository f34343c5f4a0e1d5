// Versions, history and the outbox stay in step: every accepted write adds exactly one
// version and one outbox entry with that version's digest, and collections only grow.

module StoreHistory {
  import opened Values
  import opened Records
  import opened StoreSpec

  // ------------------------------------------------------------- invariants

  // The versions of one passport: 1, 2, ... up to the current record.
  ghost predicate IsHistory(h: seq<Record>, id: string, current: Record) {
    && |h| > 0 && h[|h| - 1] == current
    && forall i :: 0 <= i < |h| ==> Shaped(h[i]) && DppId(h[i]) == id && Version(h[i]) == i + 1
  }

  ghost predicate HistoryInv(s: StoreState) {
    && s.records.Keys == s.history.Keys
    && forall id :: id in s.history ==> IsHistory(s.history[id], id, s.records[id])
  }

  // Each protected collection of a version is a prefix of it in every later version.
  ghost predicate Grows(h: seq<Record>) {
    forall i, j, c :: 0 <= i <= j < |h| && c in PROTECTED ==> Extends(h[i], h[j], c)
  }

  ghost predicate AppendOnlyInv(s: StoreState) {
    forall id :: id in s.history ==> Grows(s.history[id])
  }

  ghost predicate Names(item: OutboxItem, id: string, version: int) {
    item.dppId == id && item.subjectVersion == version
  }

  // An entry belongs to a version in the history and carries its digest.
  ghost predicate Attests(p: Profile, s: StoreState, item: OutboxItem) {
    var h := HistoryOf(s, item.dppId);
    1 <= item.subjectVersion <= |h| && item.digestValue == Digest(p, h[item.subjectVersion - 1])
  }

  ghost predicate HasItem(s: StoreState, id: string, version: int) {
    exists k :: 0 <= k < |s.outbox| && Names(s.outbox[k], id, version)
  }

  ghost predicate OutboxInv(p: Profile, s: StoreState) {
    && (forall k :: 0 <= k < |s.outbox| ==> Attests(p, s, s.outbox[k]))
    && (forall id, v :: 1 <= v <= |HistoryOf(s, id)| ==> HasItem(s, id, v))
    && (forall j, k :: 0 <= j < k < |s.outbox|
          ==> !Names(s.outbox[j], s.outbox[k].dppId, s.outbox[k].subjectVersion))
    && |s.outbox| == TotalVersions(s.history)
  }

  ghost predicate EvidenceIdsUnique(s: StoreState) {
    forall j, k :: 0 <= j < k < |s.outbox| ==> s.outbox[j].evidenceId != s.outbox[k].evidenceId
  }

  ghost predicate StoreInv(p: Profile, s: StoreState) {
    HistoryInv(s) && AppendOnlyInv(s) && OutboxInv(p, s) && EvidenceIdsUnique(s)
  }

  // The generated evidence identifier has not been used.
  ghost predicate FreshEvidence(s: StoreState, a: Ambient) {
    forall k :: 0 <= k < |s.outbox| ==> s.outbox[k].evidenceId != a.evidenceUrn
  }

  // -------------------------------------------------- counting the versions

  ghost function TotalVersions(h: map<string, seq<Record>>): nat {
    if h == map[] then 0
    else
      var id :| id in h;
      |h[id]| + TotalVersions(h - {id})
  }

  lemma {:induction false} TotalWithout(h: map<string, seq<Record>>, id: string)
    requires id in h
    ensures TotalVersions(h) == |h[id]| + TotalVersions(h - {id})
  {
    var first :| first in h && TotalVersions(h) == |h[first]| + TotalVersions(h - {first});
    if first != id {
      TotalWithout(h - {first}, id);
      TotalWithout(h - {id}, first);
      assert h - {first} - {id} == h - {id} - {first};
    }
  }

  lemma TotalAfterPush(h: map<string, seq<Record>>, id: string, r: Record)
    ensures var was := if id in h then h[id] else [];
      TotalVersions(h[id := was + [r]]) == TotalVersions(h) + 1
  {
    var was := if id in h then h[id] else [];
    var grown := h[id := was + [r]];
    TotalWithout(grown, id);
    if id in h {
      TotalWithout(h, id);
      assert grown - {id} == h - {id};
    } else {
      assert grown - {id} == h;
    }
  }

  // --------------------------------------------- what a commit must be given

  // r is version 1 of a new passport, or the successor of a current record that keeps
  // its collections.
  ghost predicate IsNext(s: StoreState, r: Record) {
    && Shaped(r)
    && if DppId(r) in s.records then
         var was := s.records[DppId(r)];
         Shaped(was) && Version(r) == Version(was) + 1 && forall c :: c in PROTECTED ==> Extends(was, r, c)
       else Version(r) == 1
  }

  ghost predicate SameCore(s: StoreState, t: StoreState) {
    s.records == t.records && s.history == t.history && s.outbox == t.outbox
  }

  // t is s with r committed, up to the carrier maps.
  ghost predicate Commits(p: Profile, s: StoreState, t: StoreState, r: Record, a: Ambient)
    requires Shaped(r)
  {
    SameCore(t, Commit(p, s, r, a))
  }

  // What a commit changes, in terms of the history it extends.
  ghost predicate Pushes(p: Profile, s: StoreState, t: StoreState, id: string, r: Record, item: OutboxItem) {
    var h := HistoryOf(s, id);
    && Shaped(r) && DppId(r) == id && Version(r) == |h| + 1
    && t.records == s.records[id := r] && t.history == s.history[id := h + [r]]
    && t.outbox == s.outbox + [item]
    && Names(item, id, |h| + 1) && item.digestValue == Digest(p, r)
    && (h != [] ==> forall c :: c in PROTECTED ==> Extends(h[|h| - 1], r, c))
  }

  lemma CommitPushes(p: Profile, s: StoreState, t: StoreState, r: Record, a: Ambient)
    requires HistoryInv(s) && IsNext(s, r) && Commits(p, s, t, r, a)
    ensures Pushes(p, s, t, DppId(r), r, NewItem(p, r, a))
  {
    hide Shaped, DppId, Version, Extends, Digest;
    var id := DppId(r);
    assert id in s.history ==> IsHistory(s.history[id], id, s.records[id]);
  }

  lemma PushKeepsHistory(p: Profile, s: StoreState, t: StoreState, id: string, r: Record, item: OutboxItem)
    requires HistoryInv(s) && Pushes(p, s, t, id, r, item)
    ensures HistoryInv(t)
  {
    hide Shaped, DppId, Version, Extends, Digest;
    forall x | x in t.history ensures IsHistory(t.history[x], x, t.records[x]) {
      if x in s.history {
        assert IsHistory(s.history[x], x, s.records[x]);
      }
    }
  }

  lemma ExtendsTransitive(a: Record, b: Record, d: Record, c: string)
    ensures Extends(a, a, c)
    ensures Extends(a, b, c) && Extends(b, d, c) ==> Extends(a, d, c)
  {
  }

  lemma PushKeepsAppendOnly(p: Profile, s: StoreState, t: StoreState, id: string, r: Record, item: OutboxItem)
    requires AppendOnlyInv(s) && Pushes(p, s, t, id, r, item)
    ensures AppendOnlyInv(t)
  {
    hide Shaped, DppId, Version, Extends, Digest;
    var h, g := HistoryOf(s, id), t.history[id];
    assert h == [] || Grows(h);
    forall i, j, c | 0 <= i <= j < |g| && c in PROTECTED ensures Extends(g[i], g[j], c) {
      ExtendsTransitive(g[i], if h == [] then r else h[|h| - 1], r, c);
      if i < |h| {
        assert Extends(h[i], h[|h| - 1], c);
      }
    }
    assert forall x :: x in t.history && x != id ==> Grows(s.history[x]);
  }

  lemma PushKeepsAttested(p: Profile, s: StoreState, t: StoreState, id: string, r: Record, item: OutboxItem)
    requires Pushes(p, s, t, id, r, item)
    requires forall k :: 0 <= k < |s.outbox| ==> Attests(p, s, s.outbox[k])
    ensures forall k :: 0 <= k < |t.outbox| ==> Attests(p, t, t.outbox[k])
    ensures forall j, k :: 0 <= j < k == |s.outbox|
              ==> !Names(t.outbox[j], t.outbox[k].dppId, t.outbox[k].subjectVersion)
  {
    hide Shaped, DppId, Version, Extends, Digest;
    forall k | 0 <= k < |t.outbox| ensures Attests(p, t, t.outbox[k]) {
      if k < |s.outbox| {
        assert Attests(p, s, s.outbox[k]);
      }
    }
    forall j | 0 <= j < |s.outbox| ensures !Names(t.outbox[j], id, item.subjectVersion) {
      assert Attests(p, s, s.outbox[j]);
    }
  }

  lemma PushKeepsCovered(p: Profile, s: StoreState, t: StoreState, id: string, r: Record, item: OutboxItem)
    requires Pushes(p, s, t, id, r, item)
    requires forall x, v :: 1 <= v <= |HistoryOf(s, x)| ==> HasItem(s, x, v)
    ensures forall x, v :: 1 <= v <= |HistoryOf(t, x)| ==> HasItem(t, x, v)
  {
    hide Shaped, DppId, Version, Extends, Digest;
    forall x, v | 1 <= v <= |HistoryOf(t, x)| ensures HasItem(t, x, v) {
      if x == id && v == |HistoryOf(s, id)| + 1 {
        assert Names(t.outbox[|s.outbox|], x, v);
      } else {
        assert HasItem(s, x, v);
        var k :| 0 <= k < |s.outbox| && Names(s.outbox[k], x, v);
        assert Names(t.outbox[k], x, v);
      }
    }
  }

  lemma PushKeepsOutbox(p: Profile, s: StoreState, t: StoreState, id: string, r: Record, item: OutboxItem)
    requires OutboxInv(p, s) && Pushes(p, s, t, id, r, item)
    ensures OutboxInv(p, t)
  {
    hide Shaped, DppId, Version, Extends, Digest, Attests, HasItem;
    PushKeepsAttested(p, s, t, id, r, item);
    PushKeepsCovered(p, s, t, id, r, item);
    TotalAfterPush(s.history, id, r);
  }

  // An accepted write keeps every invariant.
  lemma CommitKeepsInv(p: Profile, s: StoreState, t: StoreState, r: Record, a: Ambient)
    requires StoreInv(p, s) && IsNext(s, r) && Commits(p, s, t, r, a) && FreshEvidence(s, a)
    ensures StoreInv(p, t)
  {
    hide Shaped, DppId, Version, Extends, Digest, HistoryInv, AppendOnlyInv, OutboxInv;
    var id, item := DppId(r), NewItem(p, r, a);
    CommitPushes(p, s, t, r, a);
    PushKeepsHistory(p, s, t, id, r, item);
    PushKeepsAppendOnly(p, s, t, id, r, item);
    PushKeepsOutbox(p, s, t, id, r, item);
  }

  // Nothing else may be committed: what breaks the succession breaks the invariant.
  lemma CommitNeedsNext(p: Profile, s: StoreState, t: StoreState, r: Record, a: Ambient)
    requires StoreInv(p, s) && Shaped(r) && Commits(p, s, t, r, a) && StoreInv(p, t)
    ensures IsNext(s, r)
  {
    hide Shaped, DppId, Version, Extends, Digest, OutboxInv, NewItem;
    var id := DppId(r);
    var h, g := HistoryOf(s, id), t.history[id];
    assert g == h + [r] && IsHistory(g, id, t.records[id]) && Version(g[|h|]) == |h| + 1;
    if id in s.records {
      assert IsHistory(h, id, s.records[id]) && Grows(g) && g[|h| - 1] == h[|h| - 1];
      assert forall c :: c in PROTECTED ==> Extends(g[|h| - 1], g[|h|], c);
    }
  }
}
