// Situations the conditions elsewhere speak of, reached: for every profile and whatever
// requests it accepts, writes after which an invariant no longer holds, and a run that ends
// in an aborted drain.

module Reached {
  import opened Wrappers
  import opened Values
  import opened Projection
  import opened Records
  import opened StoreSpec
  import opened StoreHistory
  import opened StoreSteps
  import opened StoreCarriers
  import opened StoreTrail
  import opened LedgerSpec
  import opened EvidenceSpec
  import opened EvidenceHistory
  import opened System
  import opened Runs
  import EntityTag

  // ---------------------------------------------------------- what is accepted

  lemma EmptyInv(p: Profile)
    ensures StoreInv(p, Empty()) && AllShaped(Empty()) && CarrierInv(Empty()) && StoreBase(p, Empty())
  {
  }

  // A creation that the profile accepts, of a passport that is not there yet.
  ghost predicate Creatable(p: Profile, s: StoreState, payload: Record, a: Ambient) {
    Accepts(p, Initial(payload, a)) && DppId(Initial(payload, a)) !in s.records
  }

  lemma Created(p: Profile, s: StoreState, payload: Record, a: Ambient)
    requires AllShaped(s) && Creatable(p, s, payload, a)
    ensures Shaped(Initial(payload, a)) && Version(Initial(payload, a)) == 1
    ensures WillCommit(p, s, CreateWrite(payload), a) && KeepsHistory(s, CreateWrite(payload))
    ensures var r, t := Initial(payload, a), Create(p, s, payload, a).0;
      && AllShaped(t) && t.records == s.records[DppId(r) := r]
      && t.index == s.index && t.retired == s.retired && t.outbox == s.outbox + [NewItem(p, r, a)]
  {
    hide Shaped, DppId, Version, Initial, Create, NewItem;
    FirstVersion(p, payload, a);
    ApplyCommits(p, s, CreateWrite(payload), a);
    ApplyKeepsShape(p, s, CreateWrite(payload), a);
  }

  lemma FirstVersion(p: Profile, payload: Record, a: Ambient)
    requires Accepts(p, Initial(payload, a))
    ensures var r := Initial(payload, a);
      Shaped(r) && Version(r) == 1 && r["dppId"] == Str(DppId(r)) && Carriers(r) == ArrayAt(payload, "carriers")
  {
    hide Shaped;
    InitialIsFirst(payload, a);
    AcceptedShaped(p, Initial(payload, a));
  }

  lemma CreatedInOrder(p: Profile, s: StoreState, payload: Record, a: Ambient)
    requires StoreInv(p, s) && StoreBase(p, s) && AllShaped(s) && FreshEvidence(s, a) && Creatable(p, s, payload, a)
    ensures StoreInv(p, Create(p, s, payload, a).0) && StoreBase(p, Create(p, s, payload, a).0)
  {
    hide StoreInv, StoreBase, AllShaped, Creatable, Create, KeepsHistory, FreshEvidence, HistoryKept;
    Created(p, s, payload, a);
    WriteKeepsBase(p, s, CreateWrite(payload), a);
    WriteKeepsInv(p, s, CreateWrite(payload), a);
  }

  lemma ItemId(p: Profile, r: Record, a: Ambient)
    requires Shaped(r)
    ensures NewItem(p, r, a).evidenceId == a.evidenceUrn
  {
  }

  // Any tag will do.
  lemma AnyTag(id: string, version: int)
    ensures EntityTag.Matches("*", id, version)
  {
    assert EntityTag.StripFront("*") == "*" && EntityTag.StripBack("*") == "*";
  }

  // A patch that replaces one member, whatever the tag.
  function Replacing(id: string, key: string, value: Value): Write {
    PatchWrite(id, map[key := value], Some("*"))
  }

  ghost predicate Replaceable(p: Profile, r: Record, key: string, value: Value, a: Ambient) {
    && Shaped(r) && key !in PROTECTED && value != Null && !value.Obj?
    && Accepts(p, Succeed(r, r[key := value], a))
  }

  lemma PatchAccepted(p: Profile, s: StoreState, id: string, key: string, value: Value, a: Ambient)
    requires AllShaped(s) && id in s.records && Replaceable(p, s.records[id], key, value, a)
    ensures WillCommit(p, s, Replacing(id, key, value), a)
    ensures Patched(s.records[id], map[key := value]) == s.records[id][key := value]
    ensures Successor(p, s, Replacing(id, key, value), a) == Succeed(s.records[id], s.records[id][key := value], a)
  {
    hide EntityTag.Matches, Guard, Shaped, Succeed, Accepts;
    var r, patch: Record := s.records[id], map[key := value];
    assert Patched(r, patch) == r[key := value];
    hide Patched;
    AnyTag(DppId(r), Version(r));
    OtherMember(r, key, value);
  }

  lemma OtherMember(r: Record, key: string, value: Value)
    requires Shaped(r) && key !in PROTECTED
    ensures Guard(r, r[key := value])
  {
    forall c | c in PROTECTED ensures GuardCollection(r, r[key := value], c) {
      SameCollection(r, key, value, c);
    }
  }

  lemma SameCollection(r: Record, key: string, value: Value, c: string)
    requires Shaped(r) && c in PROTECTED && c != key
    ensures GuardCollection(r, r[key := value], c)
  {
    hide Norms;
    var items := ArrayAt(r, c);
    assert ArrayAt(r[key := value], c) == items && items[..|items|] == items;
  }

  // -------------------------------------------------- what no longer holds

  // One passport is created and sent to an identifier nobody has: its second version becomes
  // the first of another passport.
  lemma MovedAway(p: Profile, payload: Record, target: string, a: Ambient, b: Ambient)
    requires Accepts(p, Initial(payload, a)) && DppId(Initial(payload, a)) != target && a.evidenceUrn != b.evidenceUrn
    requires Replaceable(p, Initial(payload, a), "dppId", Str(target), b)
    ensures var s, w := Create(p, Empty(), payload, a).0, Replacing(DppId(Initial(payload, a)), "dppId", Str(target));
      && AllShaped(s) && StoreInv(p, s) && FreshEvidence(s, b) && WillCommit(p, s, w, b)
      && !StoreInv(p, Apply(p, s, w, b).0)
  {
    hide Shaped, DppId, Version, StoreInv, StoreBase, WillCommit, Create, Initial, Patch, Patched, NewItem, Replaceable,
         Accepts;
    var r, s := Initial(payload, a), Create(p, Empty(), payload, a).0;
    EmptyInv(p);
    AcceptedShaped(p, r);
    Created(p, Empty(), payload, a);
    CreatedInOrder(p, Empty(), payload, a);
    ItemId(p, r, a);
    PatchAccepted(p, s, DppId(r), "dppId", Str(target), b);
    WriteKeepsInv(p, s, Replacing(DppId(r), "dppId", Str(target)), b);
  }

  // Two accepted creations, of two passports.
  ghost predicate TwoCreations(p: Profile, first: Record, second: Record, a: Ambient, b: Ambient) {
    && Accepts(p, Initial(first, a)) && Accepts(p, Initial(second, b))
    && DppId(Initial(first, a)) != DppId(Initial(second, b)) && a.evidenceUrn != b.evidenceUrn
  }

  function BothCreated(p: Profile, first: Record, second: Record, a: Ambient, b: Ambient): StoreState {
    Create(p, Create(p, Empty(), first, a).0, second, b).0
  }

  lemma TwoPassports(p: Profile, first: Record, second: Record, a: Ambient, b: Ambient)
    requires TwoCreations(p, first, second, a, b)
    ensures var r, q, t := Initial(first, a), Initial(second, b), BothCreated(p, first, second, a, b);
      && Shaped(r) && Version(r) == 1 && Shaped(q) && Version(q) == 1
      && AllShaped(t) && StoreInv(p, t) && StoreBase(p, t) && t.records == map[DppId(r) := r, DppId(q) := q]
      && t.index == map[] && t.retired == map[]
      && |t.outbox| == 2 && t.outbox[0].evidenceId == a.evidenceUrn && t.outbox[1].evidenceId == b.evidenceUrn
  {
    hide Shaped, DppId, Version, StoreInv, StoreBase, Create, Initial, NewItem, Accepts;
    var r, q, s := Initial(first, a), Initial(second, b), Create(p, Empty(), first, a).0;
    EmptyInv(p);
    AcceptedShaped(p, r);
    AcceptedShaped(p, q);
    Created(p, Empty(), first, a);
    CreatedInOrder(p, Empty(), first, a);
    ItemId(p, r, a);
    Created(p, s, second, b);
    CreatedInOrder(p, s, second, b);
    ItemId(p, q, b);
  }

  // Two passports stand at version 1. One, sent to the identifier of the other, follows it in
  // number and drops what that one had collected.
  lemma MovedOnto(p: Profile, first: Record, second: Record, collection: string, a: Ambient, b: Ambient, d: Ambient)
    requires TwoCreations(p, first, second, a, b) && d.evidenceUrn !in {a.evidenceUrn, b.evidenceUrn}
    requires Replaceable(p, Initial(first, a), "dppId", Str(DppId(Initial(second, b))), d)
    requires collection in PROTECTED && !Extends(Initial(second, b), Initial(first, a), collection)
    ensures var t := BothCreated(p, first, second, a, b);
      var id, other := DppId(Initial(first, a)), DppId(Initial(second, b));
      var w := Replacing(id, "dppId", Str(other));
      && AllShaped(t) && StoreInv(p, t) && FreshEvidence(t, d) && WillCommit(p, t, w, d)
      && other in t.records && id in t.records && Version(t.records[other]) == Version(t.records[id])
      && !StoreInv(p, Apply(p, t, w, d).0) && Drops(p, t, w, d, other, collection)
  {
    hide Shaped, DppId, Version, StoreInv, StoreBase, WillCommit, BothCreated, Initial, Patch, Patched, Extends,
         Replaceable, Accepts;
    var r, q, t := Initial(first, a), Initial(second, b), BothCreated(p, first, second, a, b);
    TwoPassports(p, first, second, a, b);
    PatchAccepted(p, t, DppId(r), "dppId", Str(DppId(q)), d);
    SameElsewhere(q, r, "dppId", Str(DppId(q)), collection);
    WriteKeepsInv(p, t, Replacing(DppId(r), "dppId", Str(DppId(q))), d);
  }

  lemma SameElsewhere(q: Record, r: Record, key: string, value: Value, c: string)
    requires c in PROTECTED && key !in PROTECTED
    ensures Extends(q, r[key := value], c) == Extends(q, r, c)
  {
    hide Norms;
    assert ArrayAt(r[key := value], c) == ArrayAt(r, c);
  }

  lemma CurrentIsLast(p: Profile, s: StoreState, id: string)
    requires StoreInv(p, s) && AllShaped(s) && id in s.records
    ensures var v := Version(s.records[id]); |HistoryOf(s, id)| == v >= 1 && HistoryOf(s, id)[v - 1] == s.records[id]
  {
    hide Shaped, DppId, Version, AppendOnlyInv, OutboxInv;
    assert IsHistory(s.history[id], id, s.records[id]);
  }

  lemma Updated(p: Profile, s: StoreState, id: string, key: string, value: Value, a: Ambient)
    requires AllShaped(s) && StoreInv(p, s) && StoreBase(p, s) && FreshEvidence(s, a) && id in s.records
    requires key != "dppId" && Replaceable(p, s.records[id], key, value, a)
    ensures var t := Apply(p, s, Replacing(id, key, value), a).0;
      var next := Succeed(s.records[id], s.records[id][key := value], a);
      && AllShaped(t) && StoreInv(p, t) && StoreBase(p, t) && t.records == s.records[id := next]
      && Shaped(next) && Version(next) == Version(s.records[id]) + 1
      && t.index == s.index && t.retired == s.retired
      && |t.outbox| == |s.outbox| + 1 && t.outbox[..|s.outbox|] == s.outbox
      && t.outbox[|s.outbox|].evidenceId == a.evidenceUrn
  {
    hide Shaped, DppId, Version, StoreInv, StoreBase, HistoryKept, WillCommit, Successor, Apply, Patched, NewItem,
         Replaceable, Succeed, FreshEvidence, Extends;
    var w := Replacing(id, key, value);
    PatchAccepted(p, s, id, key, value, a);
    ApplyCommits(p, s, w, a);
    ApplyKeepsShape(p, s, w, a);
    assert Target(w.id, w.patch) == id;
    WriteKeepsInv(p, s, w, a);
    WriteKeepsBase(p, s, w, a);
    ItemId(p, Successor(p, s, w, a), a);
    SuccessorNumber(p, s, w, a);
  }

  // Two creations, an update of the second passport and a patch of the first to its identifier,
  // all accepted, with different digests.
  ghost predicate Mismatching(p: Profile, first: Record, second: Record, key: string, value: Value,
                              a: Ambient, b: Ambient, d: Ambient, e: Ambient)
  {
    && TwoCreations(p, first, second, a, b)
    && d.evidenceUrn !in {a.evidenceUrn, b.evidenceUrn}
    && e.evidenceUrn !in {a.evidenceUrn, b.evidenceUrn, d.evidenceUrn}
    && key != "dppId" && Replaceable(p, Initial(second, b), key, value, d)
    && Replaceable(p, Initial(first, a), "dppId", Str(DppId(Initial(second, b))), e)
    && var r, q := Initial(first, a), Initial(second, b);
       Digest(p, Succeed(q, q[key := value], d)) != Digest(p, Succeed(r, r["dppId" := Str(DppId(q))], e))
  }

  // One of two passports is updated, and the other is sent to its identifier: the new entry
  // carries a number that finds the update, so it does not verify against it.
  lemma Mismatched(p: Profile, first: Record, second: Record, key: string, value: Value,
                   a: Ambient, b: Ambient, d: Ambient, e: Ambient)
    requires Mismatching(p, first, second, key, value, a, b, d, e)
    ensures var t := BothCreated(p, first, second, a, b);
      var id, other := DppId(Initial(first, a)), DppId(Initial(second, b));
      AllShaped(t)
      && var u, w := Apply(p, t, Replacing(other, key, value), d).0, Replacing(id, "dppId", Str(other));
         && AllShaped(u) && StoreInv(p, u) && FreshEvidence(u, e) && Apply(p, u, w, e).1.Ok?
         && AllVerify(p, u) && !AllVerify(p, Apply(p, u, w, e).0)
  {
    hide Shaped, DppId, Version, StoreInv, WillCommit, Successor, BothCreated, Initial, Apply, Patched, Replaceable,
         NewItem, Accepts, Digest, AllVerify, StoreBase, KeepsHistory, Collides, Succeed, AllShaped;
    var r, q, t := Initial(first, a), Initial(second, b), BothCreated(p, first, second, a, b);
    TwoPassports(p, first, second, a, b);
    var u := Apply(p, t, Replacing(DppId(q), key, value), d).0;
    assert FreshEvidence(t, d);
    Updated(p, t, DppId(q), key, value, d);
    assert FreshEvidence(u, e);
    var w := Replacing(DppId(r), "dppId", Str(DppId(q)));
    PatchAccepted(p, u, DppId(r), "dppId", Str(DppId(q)), e);
    ApplyCommits(p, u, w, e);
    OrderedVerifies(p, u);
    CurrentIsLast(p, u, DppId(q));
    CollidingPatch(p, u, w, e);
    WriteVerifies(p, u, w, e);
  }

  // ------------------------------------------------------ an answer of `mismatch`

  lemma RunGrows(c: Setup, states: seq<Sys>, steps: seq<Step>, step: Step)
    requires IsRun(c, states, steps) && |states| == |steps| + 1
    requires AllShaped(states[|steps|].store) && Fresh(states[|steps|], step)
    ensures IsRun(c, states + [Next(c, states[|steps|], step)], steps + [step])
  {
    hide Next, Fresh, AllShaped, Start;
    var more, all := states + [Next(c, states[|steps|], step)], steps + [step];
    forall i | 0 <= i < |all| ensures IsStep(c, more[i], all[i], more[i + 1]) {
      if i < |steps| {
        assert IsStep(c, states[i], steps[i], states[i + 1]);
      }
    }
  }

  // Nothing has been submitted, and the ledger is ready to confirm what will be.
  ghost predicate Untouched(y: Sys) {
    && (forall k :: 0 <= k < |y.store.outbox| ==> y.store.outbox[k].state == Queued)
    && y.ledger.receipts == map[] && y.ledger.failNext == None && y.ledger.autoConfirm
  }

  lemma Written(c: Setup, y: Sys, w: Write, a: Ambient)
    requires AllShaped(y.store) && Untouched(y)
    ensures var z := Next(c, y, WriteStep(w, a)); z.store == Apply(c.profile, y.store, w, a).0 && Untouched(z)
    ensures AllShaped(Next(c, y, WriteStep(w, a)).store)
  {
    hide AllShaped, Apply, WillCommit, Successor, NewItem, WriteTo;
    WriteToIs(c, y, w, a);
    ApplyCommits(c.profile, y.store, w, a);
    ApplyKeepsShape(c.profile, y.store, w, a);
    if WillCommit(c.profile, y.store, w, a) {
      OneWritten(c.profile, y.store, Next(c, y, WriteStep(w, a)).store, Successor(c.profile, y.store, w, a), a);
    }
  }

  lemma {:induction false} DrainConfirms(p: Profile, maxAttempts: nat, items: seq<OutboxItem>, l: LedgerState,
                                         now: string)
    requires DistinctIds(items) && forall k :: 0 <= k < |items| ==>
               items[k].state == Queued && items[k].evidenceId !in l.receipts
    requires l.autoConfirm && l.failNext == None
    ensures var d := Drain(p, maxAttempts, items, l, now).items;
      |d| == |items| && forall k :: 0 <= k < |d| ==> d[k].state == Confirmed
  {
    hide TransactionRef, SubmitItem;
    if items != [] {
      SubmittedAndConfirmed(p, items[0], l, now);
      var first := SubmitItem(p, items[0], l, now);
      assert forall k :: 0 <= k < |items[1..]| ==> items[1..][k] == items[k + 1];
      DrainConfirms(p, maxAttempts, items[1..], first.ledger, now);
    }
  }

  lemma SubmittedAndConfirmed(p: Profile, item: OutboxItem, l: LedgerState, now: string)
    requires item.state == Queued && item.evidenceId !in l.receipts && l.autoConfirm && l.failNext == None
    ensures var r := SubmitItem(p, item, l, now);
      && !r.aborted && r.item.state == Confirmed && r.ledger.autoConfirm && r.ledger.failNext == None
      && r.ledger.receipts.Keys == l.receipts.Keys + {item.evidenceId}
  {
    hide TransactionRef;
  }

  function WriteSteps(first: Record, second: Record, key: string, value: Value, a: Ambient, b: Ambient, d: Ambient,
                      e: Ambient): seq<Step>
    requires Shaped(Initial(first, a)) && Shaped(Initial(second, b))
  {
    var id, other := DppId(Initial(first, a)), DppId(Initial(second, b));
    [WriteStep(CreateWrite(first), a), WriteStep(CreateWrite(second), b), WriteStep(Replacing(other, key, value), d),
     WriteStep(Replacing(id, "dppId", Str(other)), e)]
  }

  lemma AgainWritten(c: Setup, states: seq<Sys>, steps: seq<Step>, w: Write, a: Ambient) returns (more: seq<Sys>)
    requires IsRun(c, states, steps) && |states| == |steps| + 1
    requires AllShaped(states[|steps|].store) && Untouched(states[|steps|])
    requires FreshEvidence(states[|steps|].store, a)
    ensures |more| == |states| + 1 && more[0] == states[0] && IsRun(c, more, steps + [WriteStep(w, a)])
    ensures more[|states|].store == Apply(c.profile, states[|steps|].store, w, a).0
    ensures AllShaped(more[|states|].store) && Untouched(more[|states|])
  {
    hide AllShaped, Apply, IsRun, Untouched, FreshEvidence, Next;
    RunGrows(c, states, steps, WriteStep(w, a));
    Written(c, states[|steps|], w, a);
    more := states + [Next(c, states[|steps|], WriteStep(w, a))];
  }

  lemma NothingYet(c: Setup, networkId: string)
    requires c.maxAttempts >= 1
    ensures var y := Start(networkId, true, 0.0, None);
      IsRun(c, [y], []) && y.store == Empty() && AllShaped(y.store) && Untouched(y)
  {
  }

  lemma WrittenStates(c: Setup, first: Record, second: Record, key: string, value: Value, networkId: string,
                      a: Ambient, b: Ambient, d: Ambient, e: Ambient) returns (states: seq<Sys>)
    requires c.maxAttempts >= 1 && Mismatching(c.profile, first, second, key, value, a, b, d, e)
    ensures Shaped(Initial(first, a)) && Shaped(Initial(second, b))
    ensures |states| == 5 && states[0] == Start(networkId, true, 0.0, None)
    ensures IsRun(c, states, WriteSteps(first, second, key, value, a, b, d, e))
    ensures AllShaped(states[4].store) && Untouched(states[4]) && !AllVerify(c.profile, states[4].store)
  {
    hide Shaped, DppId, Version, Initial, Replaceable, Accepts, Digest, Succeed, AllShaped, AllVerify, Apply, IsRun,
         Untouched, Start, StoreInv, StoreBase, Create, NewItem, Replacing;
    var p := c.profile;
    NothingYet(c, networkId);
    AcceptedShaped(p, Initial(first, a));
    Created(p, Empty(), first, a);
    ItemId(p, Initial(first, a), a);
    TwoPassports(p, first, second, a, b);
    Mismatched(p, first, second, key, value, a, b, d, e);
    CreationIs(p, Empty(), first, a);
    CreationIs(p, Create(p, Empty(), first, a).0, second, b);
    var id, other := DppId(Initial(first, a)), DppId(Initial(second, b));
    var steps: seq<Step> := [];
    states := AgainWritten(c, [Start(networkId, true, 0.0, None)], steps, CreateWrite(first), a);
    steps := steps + [WriteStep(CreateWrite(first), a)];
    states := AgainWritten(c, states, steps, CreateWrite(second), b);
    steps := steps + [WriteStep(CreateWrite(second), b)];
    states := AgainWritten(c, states, steps, Replacing(other, key, value), d);
    steps := steps + [WriteStep(Replacing(other, key, value), d)];
    states := AgainWritten(c, states, steps, Replacing(id, "dppId", Str(other)), e);
    assert steps + [WriteStep(Replacing(id, "dppId", Str(other)), e)]
        == WriteSteps(first, second, key, value, a, b, d, e);
  }

  lemma CreationIs(p: Profile, s: StoreState, payload: Record, a: Ambient)
    requires AllShaped(s)
    ensures Apply(p, s, CreateWrite(payload), a) == Create(p, s, payload, a)
  {
  }

  lemma MismatchFound(c: Setup, states: seq<Sys>, steps: seq<Step>, now: string) returns (k: nat)
    requires IsRun(c, states, steps) && |states| == 6 && |steps| == 5 && steps[4] == DrainStep(now)
    requires Untouched(states[4]) && !AllVerify(c.profile, states[4].store)
    ensures k < |states[5].store.outbox|
    ensures var item := states[5].store.outbox[k];
      VerifyEvidence(c.profile, states[5].store, states[5].ledger, item.dppId, item.evidenceId) == Checked(Mismatch)
  {
    hide Base, AllShaped, Start, Verifies, VerifyEvidence, Drain, Describes, Collides;
    RunBase(c, states, steps, 4);
    BaseIsDistinct(c, states[4]);
    assert IsStep(c, states[4], steps[4], states[4 + 1]);
    StepVerifies(c, states[4], steps[4]);
    DrainConfirms(c.profile, c.maxAttempts, states[4].store.outbox, states[4].ledger, now);
    k :| 0 <= k < |states[5].store.outbox| && !Verifies(c.profile, states[5].store, states[5].store.outbox[k]);
    RunBase(c, states, steps, 5);
    DescribedAt(c, states[5], k);
    VerdictIs(c, states, steps, 5, k);
  }

  // Two creations, the update, the patch of the identifier and a drain against a ledger that
  // confirms at once: a run of accepted requests after which verification answers `mismatch`.
  lemma MismatchAnswered(c: Setup, first: Record, second: Record, key: string, value: Value, networkId: string,
                         a: Ambient, b: Ambient, d: Ambient, e: Ambient, now: string)
    returns (states: seq<Sys>, k: nat)
    requires c.maxAttempts >= 1 && Mismatching(c.profile, first, second, key, value, a, b, d, e)
    ensures Shaped(Initial(first, a)) && Shaped(Initial(second, b))
    ensures |states| == 6 && states[0] == Start(networkId, true, 0.0, None)
    ensures IsRun(c, states, WriteSteps(first, second, key, value, a, b, d, e) + [DrainStep(now)])
    ensures k < |states[5].store.outbox|
    ensures var item := states[5].store.outbox[k];
      VerifyEvidence(c.profile, states[5].store, states[5].ledger, item.dppId, item.evidenceId) == Checked(Mismatch)
  {
    hide Shaped, Initial, Mismatching, AllShaped, AllVerify, IsRun, Untouched, Start, VerifyEvidence, WriteSteps, Next;
    states := WrittenStates(c, first, second, key, value, networkId, a, b, d, e);
    var writes := WriteSteps(first, second, key, value, a, b, d, e);
    assert |writes| == 4 by { FourWrites(first, second, key, value, a, b, d, e); }
    RunGrows(c, states, writes, DrainStep(now));
    states := states + [Next(c, states[4], DrainStep(now))];
    k := MismatchFound(c, states, writes + [DrainStep(now)], now);
  }

  lemma FourWrites(first: Record, second: Record, key: string, value: Value, a: Ambient, b: Ambient, d: Ambient,
                   e: Ambient)
    requires Shaped(Initial(first, a)) && Shaped(Initial(second, b))
    ensures |WriteSteps(first, second, key, value, a, b, d, e)| == 4
  {
  }

  // ---------------------------------------------------------------- carriers

  // A passport is created with a carrier: nothing indexes its binding.
  lemma CreatedBound(p: Profile, payload: Record, a: Ambient)
    requires Accepts(p, Initial(payload, a)) && ArrayAt(payload, "carriers") != []
    ensures AllShaped(Empty()) && CarrierInv(Empty()) && WillCommit(p, Empty(), CreateWrite(payload), a)
    ensures !CarrierInv(Create(p, Empty(), payload, a).0)
  {
    hide Shaped, DppId, Initial, Create, WillCommit, CarrierInv, Accepts;
    EmptyInv(p);
    AcceptedShaped(p, Initial(payload, a));
    Created(p, Empty(), payload, a);
    CreatedCarriersDecide(p, Empty(), payload, a);
  }

  // A carrier whose identifier another passport owns, or none, is written into a record.
  lemma ReplacedByForeign(p: Profile, s: StoreState, id: string, cs: seq<Value>, i: nat, a: Ambient)
    requires AllShaped(s) && CarrierInv(s) && id in s.records
    requires Replaceable(p, s.records[id], "carriers", Arr(cs), a)
    requires i < |cs| && IsCarrier(cs[i]) && Owner(s, Encoded(cs[i])) != Some(id)
    ensures var w := Replacing(id, "carriers", Arr(cs));
      WillCommit(p, s, w, a) && !CarrierInv(Apply(p, s, w, a).0)
  {
    hide Shaped, IsCarrier, Encoded, WillCommit, CarrierInv, Patch, Replaceable;
    var patch: Record := map["carriers" := Arr(cs)];
    PatchAccepted(p, s, id, "carriers", Arr(cs), a);
    assert ArrayAt(patch, "carriers") == cs && "dppId" !in patch;
    ForeignCarrierBreaks(p, s, id, patch, Some("*"), a, i);
  }

  // From any state whose maps agree: a passport is created with a commissioned carrier that
  // nobody owns. It has no indexed binding, and yet a later request for it, rejected as
  // incomplete, claims the identifier.
  lemma ClaimedByRejected(p: Profile, s: StoreState, payload: Record, e: string, wanted: string, a: Ambient, b: Ambient)
    requires AllShaped(s) && MapsAgree(s) && Creatable(p, s, payload, a)
    requires Owner(s, e) == None && Owner(s, wanted) == None
    requires Carries(Carriers(Initial(payload, a)), e)
    ensures var id, t := DppId(Initial(payload, a)), Create(p, s, payload, a).0;
      AllShaped(t)
      && var (u, res) := Commission(p, t, id, map["encodedIdentifier" := Str(wanted)], b);
         && Owner(t, e) == None && !HasIndexedBinding(t, id) && res == Err(BadRequest) && Owner(u, e) == Some(id)
  {
    hide Shaped, DppId, Version, Initial, Create, Commission, CommissionedIds, Carries, NewItem, Accepts;
    var r, t := Initial(payload, a), Create(p, s, payload, a).0;
    Created(p, s, payload, a);
    IncompleteRequest(p, t, DppId(r), wanted, b);
    ShapedCarriers(r);
    CommissionedCarries(Carriers(r));
    assert t.records[DppId(r)] == r && Retire(t, r) == Move(t, CommissionedIds(Carriers(r)), DppId(r));
  }

  // From any state: a passport is created with a commissioned carrier that another passport
  // owns, and the identifier does not lead to it. A later request for it, rejected as
  // incomplete, moves the identifier to it; the owner may not commission it any more.
  lemma OwnerMoved(p: Profile, s: StoreState, payload: Record, e: string, wanted: string, a: Ambient, b: Ambient)
    requires AllShaped(s) && Creatable(p, s, payload, a) && Owner(s, e).Some? && Owner(s, wanted) == None
    requires Owner(s, e) != Some(DppId(Initial(payload, a)))
    requires Carries(Carriers(Initial(payload, a)), e)
    ensures var id, t := DppId(Initial(payload, a)), Create(p, s, payload, a).0;
      AllShaped(t)
      && var (u, res) := Commission(p, t, id, map["encodedIdentifier" := Str(wanted)], b);
         && Owner(t, e) == Owner(s, e) && !Indexed(t, id, e) && res == Err(BadRequest)
         && Owner(u, e) == Some(id) && TakenByOther(u, e, Owner(s, e).value) && !TakenByOther(u, e, id)
  {
    hide Shaped, DppId, Version, Initial, Create, Commission, CommissionedIds, Carries, NewItem, Accepts;
    var r, t := Initial(payload, a), Create(p, s, payload, a).0;
    Created(p, s, payload, a);
    IncompleteRequest(p, t, DppId(r), wanted, b);
    ShapedCarriers(r);
    CommissionedCarries(Carriers(r));
    assert t.records[DppId(r)] == r && Retire(t, r) == Move(t, CommissionedIds(Carriers(r)), DppId(r));
  }

  // And from the start: one passport is created, its carrier commissioned, and then taken in
  // this way by a second.
  lemma TakenOver(p: Profile, first: Record, request: Record, second: Record, wanted: string,
                  a: Ambient, b: Ambient, d: Ambient, e: Ambient)
    requires Accepts(p, Initial(first, a)) && ArrayAt(first, "carriers") == []
    requires "encodedIdentifier" in request && request["encodedIdentifier"].Str? && Requested(request) != wanted
    requires Complete(p, Initial(first, a), request, b)
    requires Accepts(p, Initial(second, d)) && DppId(Initial(second, d)) != DppId(Initial(first, a))
    requires Carries(Carriers(Initial(second, d)), Requested(request))
    ensures var id, other := DppId(Initial(first, a)), DppId(Initial(second, d));
      var s := Create(p, Empty(), first, a).0;
      AllShaped(s)
      && var t := Commission(p, s, id, request, b).0;
         && AllShaped(t) && CarrierInv(t) && Owner(t, Requested(request)) == Some(id)
         && var u := Create(p, t, second, d).0;
            AllShaped(u)
            && var (v, res) := Commission(p, u, other, map["encodedIdentifier" := Str(wanted)], e);
               && res == Err(BadRequest) && Owner(v, Requested(request)) == Some(other)
               && TakenByOther(v, Requested(request), id) && !TakenByOther(v, Requested(request), other)
  {
    hide Shaped, DppId, Version, CarrierInv, Initial, Create, Commission, NewItem, Accepts, CommissionedIds, Complete,
         TakenByOther, Requested;
    var r, s := Initial(first, a), Create(p, Empty(), first, a).0;
    AcceptedShaped(p, r);
    EmptyInv(p);
    Created(p, Empty(), first, a);
    CreatedCarriersDecide(p, Empty(), first, a);
    CommissionedFirst(p, s, DppId(r), request, b);
    OwnerMoved(p, Commission(p, s, DppId(r), request, b).0, second, Requested(request), wanted, d, e);
  }

  // The first commission of all.
  lemma CommissionedFirst(p: Profile, s: StoreState, id: string, request: Record, a: Ambient)
    requires AllShaped(s) && CarrierInv(s) && s.records.Keys == {id} && s.index == map[] && s.retired == map[]
    requires "encodedIdentifier" in request && request["encodedIdentifier"].Str?
    requires Complete(p, s.records[id], request, a)
    ensures var t := Commission(p, s, id, request, a).0;
      && AllShaped(t) && CarrierInv(t) && t.records.Keys == {id}
      && forall e :: Owner(t, e) == if e == Requested(request) then Some(id) else None
  {
    hide Shaped, DppId, CarrierInv, Commission, Successor, NewItem, Complete, CommissionedIds, Requested, MapsAgree;
    var w, t := CommissionWrite(id, request), Commission(p, s, id, request, a).0;
    assert WillCommit(p, s, w, a);
    ApplyCommits(p, s, w, a);
    ApplyKeepsShape(p, s, w, a);
    WriteKeepsCarriers(p, s, w, a);
    CommissionMaps(p, s, id, request, a);
    SuccessorNumber(p, s, w, a);
    NoneCommissioned(s, id);
  }

  lemma NoneCommissioned(s: StoreState, id: string)
    requires AllShaped(s) && CarrierInv(s) && id in s.records && s.index == map[] && s.retired == map[]
    ensures CommissionedIds(Carriers(s.records[id])) == {}
  {
    hide Shaped, Bindings, CommissionedIds;
    CarriersBound(s, id);
    CommissionedOwned(s, id, Carriers(s.records[id]));
  }

  // -------------------------------------------------------- an aborted drain

  // A ledger that does not confirm at once: one write, and the second drain raises, the
  // entry resting in `submitted`.
  lemma DrainAborts(p: Profile, payload: Record, networkId: string, a: Ambient, first: string, second: string)
    requires Accepts(p, Initial(payload, a))
    ensures var c := Setup(p, 1);
      var y0 := Start(networkId, false, 0.0, None);
      AllShaped(y0.store)
      && var y1 := Next(c, y0, WriteStep(CreateWrite(payload), a));
         AllShaped(y1.store)
         && var y2 := Next(c, y1, DrainStep(first));
            AllShaped(y2.store)
            && var y3 := Next(c, y2, DrainStep(second));
               && IsRun(c, [y0, y1, y2, y3],
                        [WriteStep(CreateWrite(payload), a), DrainStep(first), DrainStep(second)])
               && |y2.store.outbox| == 1 && y2.store.outbox[0].state == Submitted
               && Drain(p, 1, y2.store.outbox, y2.ledger, second).aborted
               && y3.store.outbox == y2.store.outbox
  {
    hide Drain, WriteTo, AllShaped, Start, Accepts, Initial;
    var c, w := Setup(p, 1), CreateWrite(payload);
    var y0 := Start(networkId, false, 0.0, None);
    var y1 := OnePassport(c, networkId, payload, a);
    var item := y1.store.outbox[0];
    assert y1.store.outbox == [item];
    OneSubmitted(p, item, y1.ledger, first);
    SameRecordsShaped(y1.store, Next(c, y1, DrainStep(first)).store);
    var y2 := Next(c, y1, DrainStep(first));
    assert y2.store.outbox == [y2.store.outbox[0]];
    OneAborts(p, y2.store.outbox[0], y2.ledger, second);
    var y3 := Next(c, y2, DrainStep(second));
    RunOfThree(c, networkId, y0, y1, y2, y3, WriteStep(w, a), DrainStep(first), DrainStep(second));
  }

  // The state after one creation, its entry queued.
  lemma OnePassport(c: Setup, networkId: string, payload: Record, a: Ambient) returns (y: Sys)
    requires Accepts(c.profile, Initial(payload, a))
    ensures var y0 := Start(networkId, false, 0.0, None);
      && IsStep(c, y0, WriteStep(CreateWrite(payload), a), y)
      && AllShaped(y.store) && y.ledger == y0.ledger && |y.store.outbox| == 1 && y.store.outbox[0].state == Queued
      && y.ledger.receipts == map[] && y.ledger.failNext == None && !y.ledger.autoConfirm
  {
    hide Shaped, DppId, Initial, NewItem, WriteTo, Create, Accepts;
    var y0 := Start(networkId, false, 0.0, None);
    AcceptedShaped(c.profile, Initial(payload, a));
    EmptyInv(c.profile);
    Created(c.profile, Empty(), payload, a);
    WriteToIs(c, y0, CreateWrite(payload), a);
    NewItemQueued(c.profile, Initial(payload, a), a);
    y := Next(c, y0, WriteStep(CreateWrite(payload), a));
  }

  lemma NewItemQueued(p: Profile, r: Record, a: Ambient)
    requires Shaped(r)
    ensures var item := NewItem(p, r, a); item.state == Queued && item.attempts == 0
  {
  }

  lemma OneSubmitted(p: Profile, item: OutboxItem, l: LedgerState, now: string)
    requires item.state == Queued && l.receipts == map[] && l.failNext == None && !l.autoConfirm
    ensures var d := Drain(p, 1, [item], l, now);
      && !d.aborted && |d.items| == 1 && d.items[0].state == Submitted && d.items[0].evidenceId == item.evidenceId
      && item.evidenceId in d.ledger.receipts
  {
    hide TransactionRef;
    assert [item][1..] == [];
  }

  lemma OneAborts(p: Profile, item: OutboxItem, l: LedgerState, now: string)
    requires item.state == Submitted && item.evidenceId in l.receipts
    ensures Drain(p, 1, [item], l, now) == Drained([item], l, true)
  {
    assert [item][1..] == [];
  }

  lemma RunOfThree(c: Setup, networkId: string, y0: Sys, y1: Sys, y2: Sys, y3: Sys, a: Step, b: Step, d: Step)
    requires c.maxAttempts >= 1 && y0 == Start(networkId, false, 0.0, None)
    requires IsStep(c, y0, a, y1) && IsStep(c, y1, b, y2) && IsStep(c, y2, d, y3)
    ensures IsRun(c, [y0, y1, y2, y3], [a, b, d])
  {
    hide IsStep, Start;
    var states, steps := [y0, y1, y2, y3], [a, b, d];
    forall i | 0 <= i < |steps| ensures IsStep(c, states[i], steps[i], states[i + 1]) {
      assert i == 0 || i == 1 || i == 2;
    }
  }
}
