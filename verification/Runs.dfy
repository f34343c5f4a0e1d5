// What holds along every run of the service.

module Runs {
  import opened Wrappers
  import opened Values
  import opened Projection
  import opened Records
  import opened StoreSpec
  import opened StoreHistory
  import opened StoreSteps
  import opened StoreCarriers
  import opened StoreTrail
  import opened LedgerSpec
  import opened EvidenceSpec
  import opened EvidenceHistory
  import opened IndexSpec
  import opened System

  // A run: the states passed through and the steps between them, any steps whatever.
  ghost predicate IsRun(c: Setup, states: seq<Sys>, steps: seq<Step>) {
    && c.maxAttempts >= 1
    && |states| == |steps| + 1
    && (exists n, auto, lag, limit :: states[0] == Start(n, auto, lag, limit))
    && forall i :: 0 <= i < |steps| ==> IsStep(c, states[i], steps[i], states[i + 1])
  }

  ghost predicate IsStep(c: Setup, y: Sys, step: Step, z: Sys) {
    AllShaped(y.store) && Fresh(y, step) && z == Next(c, y, step)
  }

  lemma StartInv(c: Setup, n: string, auto: bool, lag: real, limit: Option<real>)
    requires c.maxAttempts >= 1
    ensures Inv(c, Start(n, auto, lag, limit))
  {
  }

  lemma RunStarts(c: Setup, states: seq<Sys>, steps: seq<Step>)
    requires IsRun(c, states, steps)
    ensures Inv(c, states[0]) && states[0].store == Empty()
    ensures states[0].ledger.receipts == map[] && states[0].ledger.failNext == None
  {
    hide Inv;
    var n, auto, lag, limit :| states[0] == Start(n, auto, lag, limit);
    StartInv(c, n, auto, lag, limit);
  }

  // The base holds in every state of every run.
  lemma {:induction false} RunBase(c: Setup, states: seq<Sys>, steps: seq<Step>, i: nat)
    requires IsRun(c, states, steps) && i < |states|
    ensures Base(c, states[i])
  {
    hide Base, Next, Fresh, Kept;
    if i == 0 {
      RunStarts(c, states, steps);
    } else {
      RunBase(c, states, steps, i - 1);
      assert IsStep(c, states[i - 1], steps[i - 1], states[(i - 1) + 1]);
      StepKeeps(c, states[i - 1], steps[i - 1]);
    }
  }

  lemma RunShapes(c: Setup, states: seq<Sys>, steps: seq<Step>, i: nat)
    requires IsRun(c, states, steps) && i < |states|
    ensures AllShaped(states[i].store)
  {
    hide IsRun, AllShaped, Base;
    RunBase(c, states, steps, i);
    BaseIsDistinct(c, states[i]);
  }

  // What is asked of the steps before i, here and below.
  ghost predicate AllInOrder(c: Setup, states: seq<Sys>, steps: seq<Step>, i: nat) {
    i <= |steps| < |states|
    && forall k :: 0 <= k < i ==> AllShaped(states[k].store) && InOrder(c, states[k], steps[k])
  }

  ghost predicate AllInAgreement(c: Setup, states: seq<Sys>, steps: seq<Step>, i: nat) {
    i <= |steps| < |states|
    && forall k :: 0 <= k < i ==> AllShaped(states[k].store) && InAgreement(c, states[k], steps[k])
  }

  // Versions are in order at every point up to i exactly when every step before i is.
  lemma {:induction false} RunOrder(c: Setup, states: seq<Sys>, steps: seq<Step>, i: nat)
    requires IsRun(c, states, steps) && i < |states|
    ensures (forall k :: 0 <= k <= i ==> StoreInv(c.profile, states[k].store)) <==> AllInOrder(c, states, steps, i)
  {
    hide Base, StoreInv, Next, Fresh, InOrder, AllShaped;
    if i == 0 {
      RunStarts(c, states, steps);
    } else {
      RunOrder(c, states, steps, i - 1);
      RunBase(c, states, steps, i - 1);
      assert IsStep(c, states[i - 1], steps[i - 1], states[(i - 1) + 1]);
      if StoreInv(c.profile, states[i - 1].store) {
        StepKeepsOrder(c, states[i - 1], steps[i - 1]);
      }
      assert (forall k :: 0 <= k <= i ==> StoreInv(c.profile, states[k].store))
        <==> (forall k :: 0 <= k <= i - 1 ==> StoreInv(c.profile, states[k].store))
             && StoreInv(c.profile, states[i].store);
    }
  }

  // Bindings and index agree at every point up to i exactly when every step before i lets
  // them.
  lemma {:induction false} RunAgreement(c: Setup, states: seq<Sys>, steps: seq<Step>, i: nat)
    requires IsRun(c, states, steps) && i < |states|
    ensures (forall k :: 0 <= k <= i ==> CarrierInv(states[k].store)) <==> AllInAgreement(c, states, steps, i)
  {
    hide Base, CarrierInv, Next, Fresh, InAgreement, AllShaped;
    if i == 0 {
      RunStarts(c, states, steps);
    } else {
      RunAgreement(c, states, steps, i - 1);
      RunBase(c, states, steps, i - 1);
      assert IsStep(c, states[i - 1], steps[i - 1], states[(i - 1) + 1]);
      if CarrierInv(states[i - 1].store) {
        StepKeepsAgreement(c, states[i - 1], steps[i - 1]);
      }
      assert (forall k :: 0 <= k <= i ==> CarrierInv(states[k].store))
        <==> (forall k :: 0 <= k <= i - 1 ==> CarrierInv(states[k].store)) && CarrierInv(states[i].store);
    }
  }

  // So the whole invariant holds along exactly the runs of allowed steps.
  lemma RunInvariant(c: Setup, states: seq<Sys>, steps: seq<Step>, i: nat)
    requires IsRun(c, states, steps) && i < |states|
    ensures (forall k :: 0 <= k <= i ==> Inv(c, states[k]))
            <==> (forall k :: 0 <= k < i ==> AllShaped(states[k].store) && Allowed(c, states[k], steps[k]))
  {
    hide IsRun, Base, StoreInv, CarrierInv, InOrder, InAgreement, AllShaped;
    RunOrder(c, states, steps, i);
    RunAgreement(c, states, steps, i);
    assert |states| == |steps| + 1 by { RunLength(c, states, steps); }
    forall k | 0 <= k <= i ensures Base(c, states[k]) && AllShaped(states[k].store) {
      RunBase(c, states, steps, k);
      RunShapes(c, states, steps, k);
    }
    assert (forall k :: 0 <= k < i ==> AllShaped(states[k].store) && Allowed(c, states[k], steps[k]))
      <==> AllInOrder(c, states, steps, i) && AllInAgreement(c, states, steps, i);
  }

  lemma RunLength(c: Setup, states: seq<Sys>, steps: seq<Step>)
    requires IsRun(c, states, steps)
    ensures |states| == |steps| + 1
  {
    hide IsStep, Start;
  }

  // ------------------------------------------------------ what never changes

  lemma MovedTransitive(a: OutboxItem, b: OutboxItem, d: OutboxItem)
    requires Moved(a, b) && Moved(b, d)
    ensures Moved(a, d)
  {
    hide Reaches;
    ReachesTransitive(a.state, b.state, d.state);
  }

  lemma KeptTransitive(x: Sys, y: Sys, z: Sys)
    requires Kept(x, y) && Kept(y, z)
    ensures Kept(x, z)
  {
    hide Moved;
    forall k | 0 <= k < |x.store.outbox| ensures Moved(x.store.outbox[k], z.store.outbox[k]) {
      MovedTransitive(x.store.outbox[k], y.store.outbox[k], z.store.outbox[k]);
    }
  }

  lemma KeptItself(y: Sys)
    ensures Kept(y, y)
  {
    hide Moved;
    StayMoved(y.store.outbox);
  }

  // Over any stretch of any run: receipts keep their one transaction and digest, entries
  // move only along permitted transitions, terminal ones not at all, and histories only
  // grow.
  lemma {:induction false} RunKeeps(c: Setup, states: seq<Sys>, steps: seq<Step>, i: nat, j: nat)
    requires IsRun(c, states, steps) && i <= j < |states|
    ensures Kept(states[i], states[j])
  {
    hide Base, Next, Fresh, Start, Kept;
    if i == j {
      KeptItself(states[i]);
    } else {
      RunKeeps(c, states, steps, i, j - 1);
      RunBase(c, states, steps, j - 1);
      assert IsStep(c, states[j - 1], steps[j - 1], states[(j - 1) + 1]);
      StepKeeps(c, states[j - 1], steps[j - 1]);
      KeptTransitive(states[i], states[j - 1], states[j]);
    }
  }

  // -------------------------------------------------------------- collections

  ghost predicate StepDrops(c: Setup, y: Sys, step: Step, id: string, collection: string) {
    step.WriteStep? && AllShaped(y.store) && Drops(c.profile, y.store, step.w, step.a, id, collection)
  }

  // What a reader sees of a collection later continues what was seen before.
  ghost predicate Continued(s: StoreState, t: StoreState, id: string, collection: string) {
    id in s.records ==> id in t.records && Extends(s.records[id], t.records[id], collection)
  }

  lemma StepContinues(c: Setup, y: Sys, step: Step, id: string, collection: string)
    requires Base(c, y) && AllShaped(y.store) && collection in PROTECTED
    ensures Continued(y.store, Next(c, y, step).store, id, collection) <==> !StepDrops(c, y, step, id, collection)
  {
    hide Base, AllShaped, Apply, Drops, Extends, AllMoved, Drain, Reconcile, OnCommit;
    if step.WriteStep? {
      if id in y.store.records {
        WriteKeepsCollection(c.profile, y.store, step.w, step.a, id, collection);
      } else {
        StrangerDropsNothing(c.profile, y.store, step.w, step.a, id, collection);
      }
    } else {
      PlainStepMoves(c, y, step);
      ContinuedItself(y.store, id, collection);
    }
  }

  lemma StrangerDropsNothing(p: Profile, s: StoreState, w: Write, a: Ambient, id: string, collection: string)
    requires AllShaped(s) && id !in s.records
    ensures !Drops(p, s, w, a, id, collection)
  {
    hide AllShaped, WillCommit, Patched;
  }

  lemma ContinuedItself(s: StoreState, id: string, collection: string)
    ensures Continued(s, s, id, collection)
  {
  }

  lemma ContinuedTransitive(s: StoreState, t: StoreState, u: StoreState, id: string, collection: string)
    requires Continued(s, t, id, collection) && Continued(t, u, id, collection)
    ensures Continued(s, u, id, collection)
  {
    hide Extends;
    if id in s.records {
      ExtendsTransitive(s.records[id], t.records[id], u.records[id], collection);
    }
  }

  lemma {:induction false} ContinuedOver(c: Setup, states: seq<Sys>, steps: seq<Step>, i: nat, j: nat, id: string,
                                         collection: string)
    requires IsRun(c, states, steps) && i <= j < |states| && collection in PROTECTED
    requires forall k :: i <= k < j ==> !StepDrops(c, states[k], steps[k], id, collection)
    ensures Continued(states[i].store, states[j].store, id, collection)
  {
    hide Base, Next, Fresh, Start, AllShaped, StepDrops, Continued;
    if i == j {
      ContinuedItself(states[i].store, id, collection);
    } else {
      ContinuedOver(c, states, steps, i, j - 1, id, collection);
      RunBase(c, states, steps, j - 1);
      assert IsStep(c, states[j - 1], steps[j - 1], states[(j - 1) + 1]);
      StepContinues(c, states[j - 1], steps[j - 1], id, collection);
      ContinuedTransitive(states[i].store, states[j - 1].store, states[j].store, id, collection);
    }
  }

  // Whatever a reader once saw of a protected collection is a prefix of what any later
  // reader sees, throughout a stretch of a run, exactly when no step of it is a patch that
  // drops the collection.
  lemma CollectionsNeverRewritten(c: Setup, states: seq<Sys>, steps: seq<Step>, i: nat, j: nat, id: string,
                                  collection: string)
    requires IsRun(c, states, steps) && i <= j < |states| && collection in PROTECTED
    ensures (forall m, n :: i <= m <= n <= j ==> Continued(states[m].store, states[n].store, id, collection))
            <==> (forall k :: i <= k < j ==> !StepDrops(c, states[k], steps[k], id, collection))
  {
    hide Base, Next, Fresh, Start, AllShaped, StepDrops, Continued;
    if forall k :: i <= k < j ==> !StepDrops(c, states[k], steps[k], id, collection) {
      forall m, n | i <= m <= n <= j ensures Continued(states[m].store, states[n].store, id, collection) {
        ContinuedOver(c, states, steps, m, n, id, collection);
      }
    } else {
      var k :| i <= k < j && StepDrops(c, states[k], steps[k], id, collection);
      RunBase(c, states, steps, k);
      assert IsStep(c, states[k], steps[k], states[k + 1]);
      StepContinues(c, states[k], steps[k], id, collection);
      assert !Continued(states[k].store, states[k + 1].store, id, collection);
    }
  }

  // Steps that keep versions in order drop nothing.
  lemma OrderedRunsDropNothing(c: Setup, states: seq<Sys>, steps: seq<Step>, i: nat, id: string, collection: string)
    requires IsRun(c, states, steps) && i < |states| && AllInOrder(c, states, steps, i) && collection in PROTECTED
    ensures forall k :: 0 <= k < i ==> !StepDrops(c, states[k], steps[k], id, collection)
  {
    hide IsRun, AllShaped, Drops, WillCommit, KeepsHistory;
    forall k | 0 <= k < i ensures !StepDrops(c, states[k], steps[k], id, collection) {
      assert AllShaped(states[k].store) && InOrder(c, states[k], steps[k]);
      if steps[k].WriteStep? {
        InOrderDropsNothing(c.profile, states[k].store, steps[k].w, steps[k].a, id, collection);
      }
    }
  }

  // A collection that grows at its end keeps its entries' identifiers.
  lemma EntrySurvives(before: Record, after: Record, collection: string, entry: Record, idField: string)
    requires Extends(before, after, collection) && HasEntry(ArrayAt(before, collection), entry, idField)
    ensures HasEntry(ArrayAt(after, collection), entry, idField)
  {
    var items, more := ArrayAt(before, collection), ArrayAt(after, collection);
    var i :| 0 <= i < |items| && items[i].Obj? && Lookup(items[i].members, idField) == Lookup(entry, idField);
    assert Norms(items)[i] == Norms(more)[i];
    SameLookup(items[i], more[i], idField);
  }

  lemma SameLookup(a: Value, b: Value, key: string)
    requires a.Obj? && Norm(a) == Norm(b)
    ensures b.Obj? && Lookup(a.members, key) == Lookup(b.members, key)
  {
    var m, n := Norm(a).members, Norm(b).members;
    assert m == n && (key in m <==> key in a.members) && (key in n <==> key in b.members);
  }

  // An accepted entry is not added a second time while the collection keeps growing:
  // submitting it again returns the current record and changes nothing.
  lemma AppendRepeats(c: Setup, states: seq<Sys>, steps: seq<Step>, i: nat, j: nat, b: Ambient)
    requires IsRun(c, states, steps) && i < j < |states| && steps[i].WriteStep? && steps[i].w.AppendWrite?
    requires steps[i].w.collection in PROTECTED && AllShaped(states[i].store)
    requires Apply(c.profile, states[i].store, steps[i].w, steps[i].a).1.Ok?
    requires forall k :: i < k < j ==> !StepDrops(c, states[k], steps[k], steps[i].w.id, steps[i].w.collection)
    ensures var w, s := steps[i].w, states[j].store;
      && AllShaped(s) && w.id in s.records
      && Append(c.profile, s, w.id, w.collection, w.entry, w.idField, b) == (s, Ok(s.records[w.id]))
  {
    hide Shaped, Base, HasEntry, Extends, IsArrayOfObjects, Append, WillCommit, Fresh, StepDrops;
    var w, a := steps[i].w, steps[i].a;
    assert IsStep(c, states[i], steps[i], states[i + 1]);
    WriteToIs(c, states[i], w, a);
    EntryIsThere(c.profile, states[i].store, w.id, w.collection, w.entry, w.idField, a);
    RunShapes(c, states, steps, j);
    ContinuedOver(c, states, steps, i + 1, j, w.id, w.collection);
    var r := states[j].store.records[w.id];
    EntrySurvives(states[i + 1].store.records[w.id], r, w.collection, w.entry, w.idField);
    HeldEntry(r, w.collection, w.entry, w.idField);
    ProtectedIsArray(r, w.collection);
    KnownEntry(c.profile, states[j].store, w.id, w.collection, w.entry, w.idField, b);
  }

  lemma ProtectedIsArray(r: Record, collection: string)
    requires Shaped(r) && collection in PROTECTED
    ensures collection in r ==> IsArrayOfObjects(r[collection])
  {
  }

  // --------------------------------------------------------------- ownership

  ghost predicate StepTakes(y: Sys, step: Step, e: string) {
    step.WriteStep? && AllShaped(y.store) && Takes(y.store, step.w, e)
  }

  // The identifier is found under this passport and under no other.
  ghost predicate BelongsTo(s: StoreState, e: string, id: string) {
    && (e in s.index || e in s.retired)
    && (e in s.index ==> s.index[e] == id) && (e in s.retired ==> s.retired[e] == id)
  }

  lemma OwnedBelongs(c: Setup, y: Sys, e: string, id: string)
    requires Base(c, y)
    ensures BelongsTo(y.store, e, id) <==> Owner(y.store, e) == Some(id)
  {
    hide AllShaped, TrailInv, EvidenceIdsUnique, Recorded, LedgerInv, Current;
  }

  lemma StepKeepsOwner(c: Setup, y: Sys, step: Step, e: string)
    requires Base(c, y) && AllShaped(y.store) && Owner(y.store, e).Some?
    ensures Owner(Next(c, y, step).store, e) == Owner(y.store, e) <==> !StepTakes(y, step, e)
  {
    hide Base, AllShaped, Apply, Takes, Moved, Drain, Reconcile, OnCommit;
    if step.WriteStep? {
      WriteKeepsOwner(c.profile, y.store, step.w, step.a, e);
    } else {
      PlainStepMoves(c, y, step);
    }
  }

  // An identifier that belongs to a passport is found under it alone throughout a stretch of
  // a run exactly when no step of it takes the identifier: a commission for another passport
  // whose record shows it as its own.
  lemma {:induction false} IdentifierNeverReassigned(c: Setup, states: seq<Sys>, steps: seq<Step>, i: nat, j: nat,
                                                     e: string, id: string)
    requires IsRun(c, states, steps) && i <= j < |states| && BelongsTo(states[i].store, e, id)
    ensures (forall k :: i <= k <= j ==> BelongsTo(states[k].store, e, id))
            <==> (forall k :: i <= k < j ==> !StepTakes(states[k], steps[k], e))
    decreases j
  {
    hide Base, Next, Fresh, Start, AllShaped, StepTakes, BelongsTo, Owner;
    if i < j {
      IdentifierNeverReassigned(c, states, steps, i, j - 1, e, id);
      RunBase(c, states, steps, j - 1);
      RunBase(c, states, steps, j);
      assert IsStep(c, states[j - 1], steps[j - 1], states[(j - 1) + 1]);
      OwnedBelongs(c, states[j - 1], e, id);
      OwnedBelongs(c, states[j], e, id);
      if BelongsTo(states[j - 1].store, e, id) {
        StepKeepsOwner(c, states[j - 1], steps[j - 1], e);
      }
      assert (forall k :: i <= k <= j ==> BelongsTo(states[k].store, e, id))
        <==> (forall k :: i <= k <= j - 1 ==> BelongsTo(states[k].store, e, id)) && BelongsTo(states[j].store, e, id);
      assert (forall k :: i <= k < j ==> !StepTakes(states[k], steps[k], e))
        <==> (forall k :: i <= k < j - 1 ==> !StepTakes(states[k], steps[k], e))
             && !StepTakes(states[j - 1], steps[j - 1], e);
    }
  }

  // While it belongs to a passport, it resolves to no other.
  lemma ResolvesToOwner(s: StoreState, e: string, id: string)
    requires AllShaped(s) && BelongsTo(s, e, id) && Resolve(s, e).Ok?
    ensures DppId(Resolve(s, e).value) == id
  {
  }

  // Steps that keep bindings and index in agreement take nothing.
  lemma AgreedRunsTakeNothing(c: Setup, states: seq<Sys>, steps: seq<Step>, i: nat, e: string)
    requires IsRun(c, states, steps) && i < |states| && AllInAgreement(c, states, steps, i)
    ensures forall k :: 0 <= k < i ==> !StepTakes(states[k], steps[k], e)
  {
    hide IsRun, AllShaped, Takes, InAgreement, CarrierInv;
    RunAgreement(c, states, steps, i);
    forall k | 0 <= k < i ensures !StepTakes(states[k], steps[k], e) {
      assert AllShaped(states[k].store) && CarrierInv(states[k].store);
      if steps[k].WriteStep? {
        AgreementTakesNothing(states[k].store, steps[k].w, e);
      }
    }
  }

  // ------------------------------------------------------------ verification

  datatype Answer = Unknown | Checked(verdict: Verdict)

  // The outbox entry with both identifiers, the first one.
  function FindItem(items: seq<OutboxItem>, dppId: string, evidenceId: string): Option<OutboxItem> {
    if items == [] then None
    else if items[0].evidenceId == evidenceId && items[0].dppId == dppId then Some(items[0])
    else FindItem(items[1..], dppId, evidenceId)
  }

  // POST .../integrity/verify: the digest is computed again from the stored version.
  function VerifyEvidence(p: Profile, s: StoreState, l: LedgerState, dppId: string, evidenceId: string): Answer {
    match FindItem(s.outbox, dppId, evidenceId)
    case None => Unknown
    case Some(item) =>
      match GetVersion(s, item.dppId, item.subjectVersion)
      case Err(_) => Checked(Unverifiable)
      case Ok(subject) => Checked(Verify(l, evidenceId, Digest(p, subject)))
  }

  lemma {:induction false} FindDistinct(items: seq<OutboxItem>, k: nat)
    requires DistinctIds(items) && k < |items|
    ensures FindItem(items, items[k].dppId, items[k].evidenceId) == Some(items[k])
  {
    if k > 0 {
      assert items[1..][k - 1] == items[k];
      FindDistinct(items[1..], k - 1);
    }
  }

  // The answer is `unknown` exactly when no entry carries both identifiers.
  lemma {:induction false} UnknownIff(items: seq<OutboxItem>, dppId: string, evidenceId: string)
    ensures FindItem(items, dppId, evidenceId).None?
            <==> forall k :: 0 <= k < |items| ==> items[k].dppId != dppId || items[k].evidenceId != evidenceId
  {
    if items != [] {
      UnknownIff(items[1..], dppId, evidenceId);
      assert forall k :: 0 < k < |items| ==> items[k] == items[1..][k - 1];
      assert forall k :: 0 <= k < |items[1..]| ==> items[1..][k] == items[k + 1];
    }
  }

  lemma VerifyUnknown(p: Profile, s: StoreState, l: LedgerState, dppId: string, evidenceId: string)
    ensures VerifyEvidence(p, s, l, dppId, evidenceId) == Unknown
            <==> forall k :: 0 <= k < |s.outbox| ==> s.outbox[k].dppId != dppId || s.outbox[k].evidenceId != evidenceId
  {
    hide FindItem, Digest;
    UnknownIff(s.outbox, dppId, evidenceId);
  }

  ghost predicate StepCollides(c: Setup, y: Sys, step: Step) {
    step.WriteStep? && AllShaped(y.store) && Collides(c.profile, y.store, step.w, step.a)
  }

  lemma StepVerifies(c: Setup, y: Sys, step: Step)
    requires Base(c, y) && Fresh(y, step) && AllShaped(y.store)
    ensures AllVerify(c.profile, Next(c, y, step).store)
            <==> AllVerify(c.profile, y.store) && !StepCollides(c, y, step)
  {
    hide StoreBase, AllShaped, LedgerInv, Current, Apply, Collides, AllMoved, AllVerify, FreshEvidence, Drain,
         Reconcile, OnCommit;
    if step.WriteStep? {
      WriteVerifies(c.profile, y.store, step.w, step.a);
    } else {
      PlainStepMoves(c, y, step);
      MovedKeepsBase(c.profile, y.store, Next(c, y, step).store.outbox);
    }
  }

  // Every entry has the digest of the version its number finds exactly when no step before
  // took a number its passport already had, with another digest.
  lemma {:induction false} EntriesVerify(c: Setup, states: seq<Sys>, steps: seq<Step>, i: nat)
    requires IsRun(c, states, steps) && i < |states|
    ensures AllVerify(c.profile, states[i].store)
            <==> (forall k :: 0 <= k < i ==> !StepCollides(c, states[k], steps[k]))
  {
    hide Base, Next, Fresh, AllShaped, StepCollides, AllVerify;
    if i == 0 {
      RunStarts(c, states, steps);
      NothingToVerify(c.profile);
    } else {
      EntriesVerify(c, states, steps, i - 1);
      RunBase(c, states, steps, i - 1);
      assert IsStep(c, states[i - 1], steps[i - 1], states[(i - 1) + 1]);
      StepVerifies(c, states[i - 1], steps[i - 1]);
      assert (forall k :: 0 <= k < i ==> !StepCollides(c, states[k], steps[k]))
        <==> (forall k :: 0 <= k < i - 1 ==> !StepCollides(c, states[k], steps[k]))
             && !StepCollides(c, states[i - 1], steps[i - 1]);
    }
  }

  lemma NothingToVerify(p: Profile)
    ensures AllVerify(p, Empty())
  {
  }

  // Verification answers `unverifiable` without a receipt, `unanchored` until it is
  // confirmed, and then `match` or `mismatch` as the version its number finds has the
  // entry's digest or not: in every state of every run.
  lemma VerdictIs(c: Setup, states: seq<Sys>, steps: seq<Step>, i: nat, k: nat)
    requires IsRun(c, states, steps) && i < |states| && k < |states[i].store.outbox|
    ensures var y, item := states[i], states[i].store.outbox[k];
      VerifyEvidence(c.profile, y.store, y.ledger, item.dppId, item.evidenceId)
      == Checked(if item.evidenceId !in y.ledger.receipts then Unverifiable
                 else if !y.ledger.receipts[item.evidenceId].confirmed then Unanchored
                 else if Verifies(c.profile, y.store, item) then Match
                 else Mismatch)
  {
    hide IsRun, StoreBase, LedgerInv, Current, Digest, AtRest, TransactionRef, Recorded, GetVersion;
    var y, item := states[i], states[i].store.outbox[k];
    RunBase(c, states, steps, i);
    EntryRecorded(c.profile, y.store, k);
    BaseIsDistinct(c, y);
    FindDistinct(y.store.outbox, k);
    RecordedIsFound(c.profile, y.store, item);
    DescribedAt(c, y, k);
  }

  // A verdict about the version is for ever: what an entry verifies against never changes.
  lemma VerdictStays(c: Setup, states: seq<Sys>, steps: seq<Step>, i: nat, j: nat, k: nat)
    requires IsRun(c, states, steps) && i <= j < |states| && k < |states[i].store.outbox|
    ensures k < |states[j].store.outbox|
    ensures Verifies(c.profile, states[j].store, states[j].store.outbox[k])
            <==> Verifies(c.profile, states[i].store, states[i].store.outbox[k])
  {
    hide IsRun, StoreBase, LedgerInv, Current, Recorded, Verifies, LedgerKept, HistoryKept, Reaches;
    RunBase(c, states, steps, i);
    RunKeeps(c, states, steps, i, j);
    EntryRecorded(c.profile, states[i].store, k);
    assert Moved(states[i].store.outbox[k], states[j].store.outbox[k]);
    FoundStays(c.profile, states[i].store, states[j].store, states[i].store.outbox[k], states[j].store.outbox[k]);
  }

  // So in a run without such a step no answer is ever `mismatch`.
  lemma VerifyNeverMismatches(c: Setup, states: seq<Sys>, steps: seq<Step>, i: nat, k: nat)
    requires IsRun(c, states, steps) && i < |states| && k < |states[i].store.outbox|
    requires forall m :: 0 <= m < i ==> !StepCollides(c, states[m], steps[m])
    ensures var y, item := states[i], states[i].store.outbox[k];
      VerifyEvidence(c.profile, y.store, y.ledger, item.dppId, item.evidenceId) != Checked(Mismatch)
  {
    hide IsRun, StepCollides, Verifies, VerifyEvidence;
    EntriesVerify(c, states, steps, i);
    VerdictIs(c, states, steps, i, k);
  }

  // Steps that keep versions in order never collide.
  lemma OrderedRunsNeverCollide(c: Setup, states: seq<Sys>, steps: seq<Step>, i: nat)
    requires IsRun(c, states, steps) && i < |states| && AllInOrder(c, states, steps, i)
    ensures forall k :: 0 <= k < i ==> !StepCollides(c, states[k], steps[k])
  {
    hide IsRun, AllShaped, Collides, WillCommit, KeepsHistory, StoreInv;
    RunOrder(c, states, steps, i);
    forall k | 0 <= k < i ensures !StepCollides(c, states[k], steps[k]) {
      assert AllShaped(states[k].store) && InOrder(c, states[k], steps[k]) && StoreInv(c.profile, states[k].store);
      if steps[k].WriteStep? {
        InOrderNeverCollides(c.profile, states[k].store, steps[k].w, steps[k].a);
      }
    }
  }

  lemma DescribedAt(c: Setup, y: Sys, k: nat)
    requires Base(c, y) && k < |y.store.outbox|
    ensures AtRest(c.maxAttempts, y.ledger, y.store.outbox[k]) && Describes(c.profile, y.ledger, y.store.outbox[k])
  {
    hide AtRest, Describes, StoreBase, Current, HasId;
  }

  // Versions hashed from the same text are versions of one passport with one number, and
  // one version where versions are in order.
  lemma VersionsHashDifferentTexts(c: Setup, states: seq<Sys>, steps: seq<Step>, i: nat,
                                   id: string, v: nat, other: string, w: nat)
    requires IsRun(c, states, steps) && i < |states|
    requires v < |HistoryOf(states[i].store, id)| && w < |HistoryOf(states[i].store, other)|
    requires CanonicalText(HistoryOf(states[i].store, id)[v]) == CanonicalText(HistoryOf(states[i].store, other)[w])
    ensures var r, q := HistoryOf(states[i].store, id)[v], HistoryOf(states[i].store, other)[w];
      id == other && Shaped(r) && Shaped(q) && Version(r) == Version(q)
    ensures AllInOrder(c, states, steps, i) ==> v == w
  {
    hide IsRun, Shaped, DppId, Version, StoreInv, AllInOrder, Base, CanonicalText;
    var s := states[i].store;
    RunBase(c, states, steps, i);
    StoredVersion(c, states[i], id, v);
    StoredVersion(c, states[i], other, w);
    var r, q := HistoryOf(s, id)[v], HistoryOf(s, other)[w];
    TextNamesPassportAndVersion(r, q);
    PresentNames(r);
    PresentNames(q);
    if AllInOrder(c, states, steps, i) {
      RunOrder(c, states, steps, i);
      assert StoreInv(c.profile, s);
      NumberedVersion(c.profile, s, id, v);
      NumberedVersion(c.profile, s, other, w);
    }
  }

  lemma StoredVersion(c: Setup, y: Sys, id: string, v: nat)
    requires Base(c, y) && v < |HistoryOf(y.store, id)|
    ensures Shaped(HistoryOf(y.store, id)[v]) && DppId(HistoryOf(y.store, id)[v]) == id
  {
    hide Shaped, DppId, AllShaped, MapsAgree, EvidenceIdsUnique, Recorded, LedgerInv, Current;
    assert IsTrail(y.store.history[id], id, y.store.records[id]);
  }

  lemma NumberedVersion(p: Profile, s: StoreState, id: string, v: nat)
    requires StoreInv(p, s) && v < |HistoryOf(s, id)|
    ensures Shaped(HistoryOf(s, id)[v]) && Version(HistoryOf(s, id)[v]) == v + 1
  {
    hide Shaped, DppId, Version, AppendOnlyInv, OutboxInv, EvidenceIdsUnique;
    assert IsHistory(s.history[id], id, s.records[id]);
  }

  lemma PresentNames(r: Record)
    requires Shaped(r)
    ensures Present(r, "dppId") == Some(Str(DppId(r)))
    ensures Present(r, "recordVersion") == Some(IntVal(Version(r)))
  {
  }

  // ------------------------------------------------------ resolving carriers

  // A write that leaves a passport out of the index for an identifier it carries.
  ghost predicate Loses(c: Setup, y: Sys, step: Step, id: string, e: string) {
    && step.WriteStep? && AllShaped(y.store)
    && (Closes(c.profile, y.store, step.w, step.a, id, e) || Exposes(c.profile, y.store, step.w, step.a, id, e))
  }

  // A write that leaves in the index what its record does not carry.
  ghost predicate StepDisplaces(c: Setup, y: Sys, step: Step, e: string) {
    step.WriteStep? && AllShaped(y.store) && Displaces(c.profile, y.store, step.w, step.a, e)
  }

  // A write that commits two commissioned carriers in one record.
  ghost predicate StepDoubles(c: Setup, y: Sys, step: Step, id: string) {
    step.WriteStep? && AllShaped(y.store) && Doubles(c.profile, y.store, step.w, step.a, id)
  }

  lemma StepKeepsIndexed(c: Setup, y: Sys, step: Step, id: string, e: string)
    requires Base(c, y) && AllShaped(y.store) && Indexed(y.store, id, e)
    ensures Indexed(Next(c, y, step).store, id, e) <==> !Loses(c, y, step, id, e)
  {
    hide Base, AllShaped, Apply, Carries, Carriers, AtMostOne, OnCommit, Drain, Reconcile, Moved, Closes, Exposes,
         Displaces, Doubles;
    if step.WriteStep? {
      WriteKeepsIndexed(c.profile, y.store, step.w, step.a, id, e);
    } else {
      PlainStepMoves(c, y, step);
    }
  }

  lemma StepKeepsBacked(c: Setup, y: Sys, step: Step, e: string)
    requires Base(c, y) && AllShaped(y.store) && Backed(y.store, e)
    ensures Backed(Next(c, y, step).store, e) <==> !StepDisplaces(c, y, step, e)
  {
    hide Base, AllShaped, Apply, Carries, Carriers, AtMostOne, OnCommit, Drain, Reconcile, Moved, Closes, Exposes,
         Displaces, Doubles;
    if step.WriteStep? {
      WriteKeepsBacked(c.profile, y.store, step.w, step.a, e);
    } else {
      PlainStepMoves(c, y, step);
    }
  }

  lemma StepKeepsSingle(c: Setup, y: Sys, step: Step, id: string)
    requires Base(c, y) && AllShaped(y.store) && Single(y.store, id)
    ensures Single(Next(c, y, step).store, id) <==> !StepDoubles(c, y, step, id)
  {
    hide Base, AllShaped, Apply, Carries, Carriers, AtMostOne, OnCommit, Drain, Reconcile, Moved, Closes, Exposes,
         Displaces, Doubles;
    if step.WriteStep? {
      WriteKeepsSingle(c.profile, y.store, step.w, step.a, id);
    } else {
      PlainStepMoves(c, y, step);
    }
  }

  // Along any stretch of any run, a passport stays indexed for an identifier whenever it
  // carries it exactly when no write loses it.
  lemma {:induction false} BindingsIndexed(c: Setup, states: seq<Sys>, steps: seq<Step>, i: nat, j: nat, id: string,
                                           e: string)
    requires IsRun(c, states, steps) && i <= j < |states| && Indexed(states[i].store, id, e)
    ensures (forall k :: i <= k <= j ==> Indexed(states[k].store, id, e))
            <==> (forall k :: i <= k < j ==> !Loses(c, states[k], steps[k], id, e))
    decreases j
  {
    hide Base, Next, Fresh, Start, AllShaped, Indexed, Loses;
    if i < j {
      BindingsIndexed(c, states, steps, i, j - 1, id, e);
      RunBase(c, states, steps, j - 1);
      assert IsStep(c, states[j - 1], steps[j - 1], states[(j - 1) + 1]);
      if Indexed(states[j - 1].store, id, e) {
        StepKeepsIndexed(c, states[j - 1], steps[j - 1], id, e);
      }
      assert (forall k :: i <= k <= j ==> Indexed(states[k].store, id, e))
        <==> (forall k :: i <= k <= j - 1 ==> Indexed(states[k].store, id, e)) && Indexed(states[j].store, id, e);
      assert (forall k :: i <= k < j ==> !Loses(c, states[k], steps[k], id, e))
        <==> (forall k :: i <= k < j - 1 ==> !Loses(c, states[k], steps[k], id, e))
             && !Loses(c, states[j - 1], steps[j - 1], id, e);
    }
  }

  // And the index names only a passport that carries the identifier exactly when no write
  // displaces it.
  lemma {:induction false} IndexBacked(c: Setup, states: seq<Sys>, steps: seq<Step>, i: nat, j: nat, e: string)
    requires IsRun(c, states, steps) && i <= j < |states| && Backed(states[i].store, e)
    ensures (forall k :: i <= k <= j ==> Backed(states[k].store, e))
            <==> (forall k :: i <= k < j ==> !StepDisplaces(c, states[k], steps[k], e))
    decreases j
  {
    hide Base, Next, Fresh, Start, AllShaped, Backed, StepDisplaces;
    if i < j {
      IndexBacked(c, states, steps, i, j - 1, e);
      RunBase(c, states, steps, j - 1);
      assert IsStep(c, states[j - 1], steps[j - 1], states[(j - 1) + 1]);
      if Backed(states[j - 1].store, e) {
        StepKeepsBacked(c, states[j - 1], steps[j - 1], e);
      }
      assert (forall k :: i <= k <= j ==> Backed(states[k].store, e))
        <==> (forall k :: i <= k <= j - 1 ==> Backed(states[k].store, e)) && Backed(states[j].store, e);
      assert (forall k :: i <= k < j ==> !StepDisplaces(c, states[k], steps[k], e))
        <==> (forall k :: i <= k < j - 1 ==> !StepDisplaces(c, states[k], steps[k], e))
             && !StepDisplaces(c, states[j - 1], steps[j - 1], e);
    }
  }

  // And no record of the passport shows two commissioned carriers exactly when no write but a
  // commission commits one that does.
  lemma {:induction false} BindingsSingle(c: Setup, states: seq<Sys>, steps: seq<Step>, i: nat, j: nat, id: string)
    requires IsRun(c, states, steps) && i <= j < |states| && Single(states[i].store, id)
    ensures (forall k :: i <= k <= j ==> Single(states[k].store, id))
            <==> (forall k :: i <= k < j ==> !StepDoubles(c, states[k], steps[k], id))
    decreases j
  {
    hide Base, Next, Fresh, Start, AllShaped, Single, StepDoubles;
    if i < j {
      BindingsSingle(c, states, steps, i, j - 1, id);
      RunBase(c, states, steps, j - 1);
      assert IsStep(c, states[j - 1], steps[j - 1], states[(j - 1) + 1]);
      if Single(states[j - 1].store, id) {
        StepKeepsSingle(c, states[j - 1], steps[j - 1], id);
      }
      assert (forall k :: i <= k <= j ==> Single(states[k].store, id))
        <==> (forall k :: i <= k <= j - 1 ==> Single(states[k].store, id)) && Single(states[j].store, id);
      assert (forall k :: i <= k < j ==> !StepDoubles(c, states[k], steps[k], id))
        <==> (forall k :: i <= k < j - 1 ==> !StepDoubles(c, states[k], steps[k], id))
             && !StepDoubles(c, states[j - 1], steps[j - 1], id);
    }
  }

  // So from the start, until a write loses it, a carried identifier leads to its passport, and
  // until one displaces it, nothing else does.
  lemma CarriersResolve(c: Setup, states: seq<Sys>, steps: seq<Step>, i: nat, id: string, e: string)
    requires IsRun(c, states, steps) && i < |states| && id in states[i].store.records && AllShaped(states[i].store)
    requires forall k :: 0 <= k < i ==> !Loses(c, states[k], steps[k], id, e)
    ensures var s := states[i].store;
      && (Carries(Carriers(s.records[id]), e) ==> Resolve(s, e) == Get(s, id))
      && ((forall k :: 0 <= k < i ==> !StepDisplaces(c, states[k], steps[k], e)) ==>
            (Resolve(s, e) == Ok(s.records[id])
             <==> Carries(Carriers(s.records[id]), e) && s.records[id]["status"] != Str("retired")))
  {
    hide IsRun, Shaped, Carries, Carriers, Loses, StepDisplaces, Resolve, Inv;
    RunStarts(c, states, steps);
    BindingsIndexed(c, states, steps, 0, i, id, e);
    IndexBacked(c, states, steps, 0, i, e);
    ResolveIsComplete(states[i].store, id, e);
  }

  // The read index is never behind: whatever has happened, a projected read shows the
  // current version, as a strong read would.
  lemma ReadsAreCurrent(c: Setup, states: seq<Sys>, steps: seq<Step>, i: nat, id: string)
    requires IsRun(c, states, steps) && i < |states| && id in states[i].store.records
    requires AllShaped(states[i].store) && ProjectedView(states[i].index, states[i].store, id).View?
    ensures var s := states[i].store; var view := ProjectedView(states[i].index, s, id).view;
      && BacklogMs(states[i].index, s) == 0.0
      && Content(view) == SortingView(s.records[id])
      && (s.records[id]["status"] != Str("retired") ==>
            StrongView(s, id).View? && Content(StrongView(s, id).view) == Content(view))
  {
    hide IsRun, Shaped, StoreBase, LedgerInv, Current, SortingView, ProjectedView, StrongView, Content;
    RunBase(c, states, steps, i);
    ProjectedReadIsStrong(states[i].store, states[i].index, id);
  }
}
