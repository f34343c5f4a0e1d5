// Store, outbox, worker, ledger and read index as one state machine, over arbitrary
// interleavings of writes, drains, reconciliations, confirmations and failures.

module System {
  import opened Wrappers
  import opened Values
  import opened Records
  import opened StoreSpec
  import opened StoreHistory
  import opened StoreSteps
  import opened StoreCarriers
  import opened StoreTrail
  import opened LedgerSpec
  import opened EvidenceSpec
  import opened EvidenceHistory
  import opened IndexSpec

  datatype Setup = Setup(profile: Profile, maxAttempts: nat)

  datatype Sys = Sys(store: StoreState, ledger: LedgerState, index: IndexState)

  datatype Step =
    | WriteStep(w: Write, a: Ambient)
    | DrainStep(now: string)
    | ReconcileStep(now: string)
    | ConfirmStep(evidenceId: string, at: string)   // the ledger confirms a broadcast
    | FailStep(reason: Option<Reason>)              // the next submission will fail, or not
    | AutoConfirmStep(autoConfirm: bool)

  // The service at start-up, with the index attached to the empty store.
  function Start(networkId: string, autoConfirm: bool, lagMs: real, maxLagMs: Option<real>): Sys {
    Sys(Empty(), LedgerState(networkId, autoConfirm, None, map[], map[]), IndexState(map[], 0.0, lagMs, maxLagMs))
  }

  function WriteTo(c: Setup, y: Sys, w: Write, a: Ambient): Sys
    requires AllShaped(y.store)
  {
    var (t, res) := Apply(c.profile, y.store, w, a);
    var committed := res.Ok? && |t.outbox| > |y.store.outbox|;
    y.(store := t,
       index := if committed && Shaped(res.value) && DppId(res.value) in t.records
                   && Shaped(t.records[DppId(res.value)])
                then OnCommit(y.index, t, DppId(res.value), a.projectedMs) else y.index)
  }

  function Next(c: Setup, y: Sys, step: Step): Sys
    requires AllShaped(y.store)
  {
    match step
    case WriteStep(w, a) => WriteTo(c, y, w, a)
    case DrainStep(now) =>
      var d := Drain(c.profile, c.maxAttempts, y.store.outbox, y.ledger, now);
      y.(store := y.store.(outbox := d.items), ledger := d.ledger)
    case ReconcileStep(now) =>
      y.(store := y.store.(outbox := Reconcile(y.store.outbox, y.ledger, now).0))
    case ConfirmStep(id, at) => y.(ledger := Confirm(y.ledger, id, at))
    case FailStep(reason) => y.(ledger := y.ledger.(failNext := reason))
    case AutoConfirmStep(b) => y.(ledger := y.ledger.(autoConfirm := b))
  }

  // Generated evidence identifiers are new.
  ghost predicate Fresh(y: Sys, step: Step) {
    step.WriteStep? ==> FreshEvidence(y.store, step.a)
  }

  // A write that is committed leaves the record under a passport it continues.
  ghost predicate InOrder(c: Setup, y: Sys, step: Step)
    requires AllShaped(y.store)
  {
    step.WriteStep? && WillCommit(c.profile, y.store, step.w, step.a) ==> KeepsHistory(y.store, step.w)
  }

  // A write that is committed leaves carriers the maps allow there.
  ghost predicate InAgreement(c: Setup, y: Sys, step: Step)
    requires AllShaped(y.store)
  {
    step.WriteStep? && WillCommit(c.profile, y.store, step.w, step.a) ==>
      KeepsBindings(c.profile, y.store, step.w, step.a)
  }

  ghost predicate Allowed(c: Setup, y: Sys, step: Step)
    requires AllShaped(y.store)
  {
    InOrder(c, y, step) && InAgreement(c, y, step)
  }

  // ------------------------------------------------------------- invariant

  ghost predicate LedgerInv(c: Setup, y: Sys) {
    && AllAtRest(c.profile, c.maxAttempts, y.store.outbox, y.ledger)
    && (forall id :: id in y.ledger.receipts || id in y.ledger.digests ==> HasId(y.store.outbox, id))
  }

  // What every step keeps.
  ghost predicate Base(c: Setup, y: Sys) {
    && c.maxAttempts >= 1
    && StoreBase(c.profile, y.store) && LedgerInv(c, y) && Current(y.store, y.index)
  }

  // What only allowed steps keep: versions in order, and bindings and index in agreement.
  ghost predicate Inv(c: Setup, y: Sys) {
    Base(c, y) && StoreInv(c.profile, y.store) && CarrierInv(y.store)
  }

  // ------------------------------------------------------ what never changes

  // Receipts and digests are never replaced: one transaction, one digest.
  ghost predicate LedgerKept(l: LedgerState, m: LedgerState) {
    && (forall id :: id in l.receipts ==>
          id in m.receipts && m.receipts[id].transactionRef == l.receipts[id].transactionRef
          && (l.receipts[id].confirmed ==> m.receipts[id].confirmed))
    && (forall id :: id in l.digests ==> id in m.digests && m.digests[id] == l.digests[id])
  }

  // Entries stay in place and move legally; new ones join at the end.
  ghost predicate OutboxKept(s: StoreState, t: StoreState) {
    |s.outbox| <= |t.outbox| && forall k :: 0 <= k < |s.outbox| ==> Moved(s.outbox[k], t.outbox[k])
  }

  ghost predicate Kept(y: Sys, z: Sys) {
    LedgerKept(y.ledger, z.ledger) && OutboxKept(y.store, z.store) && HistoryKept(y.store, z.store)
  }

  // ---------------------------------------------------------- store inv and items

  ghost predicate SameEntries(a: seq<OutboxItem>, b: seq<OutboxItem>) {
    |a| == |b| && forall k :: 0 <= k < |a| ==> SameEntry(a[k], b[k])
  }

  lemma MovedKeepsAttested(p: Profile, s: StoreState, t: StoreState)
    requires t.history == s.history && SameEntries(s.outbox, t.outbox)
    requires forall k :: 0 <= k < |s.outbox| ==> Attests(p, s, s.outbox[k])
    ensures forall k :: 0 <= k < |t.outbox| ==> Attests(p, t, t.outbox[k])
  {
    hide Digest;
    forall k | 0 <= k < |t.outbox| ensures Attests(p, t, t.outbox[k]) {
      assert Attests(p, s, s.outbox[k]) && SameEntry(s.outbox[k], t.outbox[k]);
    }
  }

  lemma MovedKeepsCovered(s: StoreState, t: StoreState)
    requires t.history == s.history && SameEntries(s.outbox, t.outbox)
    requires forall id, v :: 1 <= v <= |HistoryOf(s, id)| ==> HasItem(s, id, v)
    ensures forall id, v :: 1 <= v <= |HistoryOf(t, id)| ==> HasItem(t, id, v)
  {
    forall id, v | 1 <= v <= |HistoryOf(t, id)| ensures HasItem(t, id, v) {
      assert HasItem(s, id, v);
      var k :| 0 <= k < |s.outbox| && Names(s.outbox[k], id, v);
      assert SameEntry(s.outbox[k], t.outbox[k]) && Names(t.outbox[k], id, v);
    }
  }

  // The store invariant looks only at the fixed parts of an entry.
  lemma MovedKeepsStoreInv(p: Profile, s: StoreState, items: seq<OutboxItem>)
    requires StoreInv(p, s) && AllMoved(s.outbox, items)
    ensures StoreInv(p, s.(outbox := items)) && OutboxKept(s, s.(outbox := items))
  {
    hide IsHistory, Grows, Attests, HasItem, Reaches;
    var t := s.(outbox := items);
    assert forall k :: 0 <= k < |items| ==> Moved(s.outbox[k], items[k]);
    MovedKeepsAttested(p, s, t);
    MovedKeepsCovered(s, t);
  }

  lemma MovedKeepsBase(p: Profile, s: StoreState, items: seq<OutboxItem>)
    requires StoreBase(p, s) && AllMoved(s.outbox, items)
    ensures var t := s.(outbox := items); StoreBase(p, t) && OutboxKept(s, t) && HistoryKept(s, t)
    ensures DistinctIds(s.outbox)
    ensures AllVerify(p, s.(outbox := items)) <==> AllVerify(p, s)
  {
    hide Shaped, Reaches, IsTrail, InStep, Recorded, Verifies;
    var t := s.(outbox := items);
    assert forall k :: 0 <= k < |items| ==> Moved(s.outbox[k], items[k]);
    forall id ensures InStep(p, t, id) {
      MovedInStep(p, s, t, id);
    }
    forall k | 0 <= k < |items| ensures Verifies(p, t, items[k]) <==> Verifies(p, s, s.outbox[k]) {
      EntryRecorded(p, s, k);
      FoundStays(p, s, t, s.outbox[k], items[k]);
    }
  }

  lemma MovedKeepsIds(a: seq<OutboxItem>, b: seq<OutboxItem>)
    requires AllMoved(a, b)
    ensures forall id :: HasId(a, id) <==> HasId(b, id)
  {
    hide Reaches;
    forall id ensures HasId(a, id) <==> HasId(b, id) {
      if HasId(a, id) {
        var k :| 0 <= k < |a| && a[k].evidenceId == id;
        assert b[k].evidenceId == id;
      }
    }
  }

  // ------------------------------------------------------------ worker steps

  lemma SameLedgerFields(l: LedgerState)
    ensures LedgerKept(l, l)
  {
  }

  lemma AddsOnlyKeepsLedger(l: LedgerState, m: LedgerState, items: seq<OutboxItem>)
    requires AddsOnly(l, m, items)
    requires forall id :: id in l.receipts <==> id in l.digests
    ensures LedgerKept(l, m)
    ensures forall id :: id in m.receipts || id in m.digests ==> id in l.receipts || HasId(items, id)
  {
    hide HasId;
    forall id | id in l.receipts ensures id in m.receipts && m.receipts[id] == l.receipts[id]
                                         && id in m.digests && m.digests[id] == l.digests[id] {
      assert SameAt(l, m, id);
    }
    forall id | id in m.receipts || id in m.digests ensures id in l.receipts || HasId(items, id) {
      if !HasId(items, id) { assert SameAt(l, m, id); }
    }
  }

  lemma ReceiptsMatchDigests(c: Setup, y: Sys)
    requires LedgerInv(c, y)
    ensures forall id :: id in y.ledger.receipts <==> id in y.ledger.digests
  {
    hide AtRest, TransactionRef;
    forall id ensures id in y.ledger.receipts <==> id in y.ledger.digests {
      if HasId(y.store.outbox, id) {
        var k :| 0 <= k < |y.store.outbox| && y.store.outbox[k].evidenceId == id;
        assert Describes(c.profile, y.ledger, y.store.outbox[k]);
      }
    }
  }

  lemma SameStoreBody(s: StoreState, t: StoreState)
    requires t == s.(outbox := t.outbox) && CarrierInv(s)
    ensures CarrierInv(t)
  {
    hide Shaped, IsCarrier, Commissioned;
    assert forall e :: Owner(t, e) == Owner(s, e);
    forall id | id in t.records ensures Bindings(t, id, Carriers(t.records[id])) {
      assert Bindings(s, id, Carriers(s.records[id]));
    }
  }

  lemma BaseIsDistinct(c: Setup, y: Sys)
    requires Base(c, y)
    ensures AllShaped(y.store) && DistinctIds(y.store.outbox)
  {
    hide AllShaped, TrailInv, MapsAgree, Recorded, LedgerInv, Current;
  }

  lemma DrainKeeps(c: Setup, y: Sys, now: string)
    requires Base(c, y)
    ensures AllShaped(y.store) && AllMoved(y.store.outbox, Next(c, y, DrainStep(now)).store.outbox)
    ensures var z := Next(c, y, DrainStep(now)); Base(c, z) && Kept(y, z)
  {
    hide Shaped, StoreBase, AllAtRest, AllMoved, Moved, AddsOnly, HistoryKept, LedgerKept, OutboxKept, HasId, Drain,
         AtRest, Describes, AllVerify;
    BaseIsDistinct(c, y);
    var z := Next(c, y, DrainStep(now));
    DrainEffect(c.profile, c.maxAttempts, y.store.outbox, y.ledger, now);
    MovedKeepsBase(c.profile, y.store, z.store.outbox);
    MovedKeepsIds(y.store.outbox, z.store.outbox);
    ReceiptsMatchDigests(c, y);
    AddsOnlyKeepsLedger(y.ledger, z.ledger, y.store.outbox);
  }

  lemma ReconcileKeeps(c: Setup, y: Sys, now: string)
    requires Base(c, y)
    ensures AllShaped(y.store) && AllMoved(y.store.outbox, Next(c, y, ReconcileStep(now)).store.outbox)
    ensures var z := Next(c, y, ReconcileStep(now)); Base(c, z) && Kept(y, z)
  {
    hide Shaped, StoreBase, AllAtRest, AllMoved, Moved, HistoryKept, LedgerKept, OutboxKept, HasId, Reconcile, AtRest,
         Describes, AllVerify;
    BaseIsDistinct(c, y);
    var z := Next(c, y, ReconcileStep(now));
    ReconcileEffect(c.profile, c.maxAttempts, y.store.outbox, y.ledger, now);
    MovedKeepsBase(c.profile, y.store, z.store.outbox);
    MovedKeepsIds(y.store.outbox, z.store.outbox);
    SameLedgerFields(y.ledger);
  }

  // ------------------------------------------------------------ ledger steps

  // A ledger that holds the same transactions and digests, with at most more of them
  // confirmed, leaves every entry at rest.
  lemma ConfirmedRests(p: Profile, maxAttempts: nat, l: LedgerState, m: LedgerState, item: OutboxItem)
    requires AtRest(maxAttempts, l, item) && Describes(p, l, item)
    requires LedgerKept(l, m) && m.receipts.Keys == l.receipts.Keys && m.digests == l.digests
    requires forall id :: id in l.receipts ==> m.receipts[id].networkId == l.receipts[id].networkId
                                               && m.receipts[id].evidenceId == l.receipts[id].evidenceId
    ensures AtRest(maxAttempts, m, item) && Describes(p, m, item)
  {
    hide TransactionRef;
  }

  lemma LedgerStepKeeps(c: Setup, y: Sys, step: Step)
    requires Base(c, y) && AllShaped(y.store) && (step.ConfirmStep? || step.FailStep? || step.AutoConfirmStep?)
    ensures var z := Next(c, y, step); Base(c, z) && Kept(y, z)
  {
    hide StoreBase, AllShaped, Current, AtRest, Describes, Moved, HasId, Drain, Reconcile, WriteTo;
    var z := Next(c, y, step);
    var items := y.store.outbox;
    forall k | 0 <= k < |items|
      ensures AtRest(c.maxAttempts, z.ledger, items[k]) && Describes(c.profile, z.ledger, items[k])
    {
      ConfirmedRests(c.profile, c.maxAttempts, y.ledger, z.ledger, items[k]);
    }
    StayMoved(items);
  }

  // ------------------------------------------------------------------- writes

  lemma NewItemRests(c: Setup, y: Sys, item: OutboxItem)
    requires LedgerInv(c, y) && !HasId(y.store.outbox, item.evidenceId)
    requires item.state == Queued && item.attempts == 0 && item.transactionRef == None
    ensures AtRest(c.maxAttempts, y.ledger, item) && Describes(c.profile, y.ledger, item)
  {
    hide AllAtRest, TransactionRef;
  }

  lemma PushKeepsLedgerInv(c: Setup, y: Sys, z: Sys, item: OutboxItem)
    requires LedgerInv(c, y) && z.ledger == y.ledger && z.store.outbox == y.store.outbox + [item]
    requires AtRest(c.maxAttempts, y.ledger, item) && Describes(c.profile, y.ledger, item)
    ensures LedgerInv(c, z) && OutboxKept(y.store, z.store)
  {
    hide AtRest, Describes, Reaches;
    StayMoved(y.store.outbox);
    forall id | HasId(y.store.outbox, id) ensures HasId(z.store.outbox, id) {
      var k :| 0 <= k < |y.store.outbox| && y.store.outbox[k].evidenceId == id;
      assert z.store.outbox[k].evidenceId == id;
    }
  }

  lemma FreshHasNoId(s: StoreState, a: Ambient)
    requires FreshEvidence(s, a)
    ensures !HasId(s.outbox, a.evidenceUrn)
  {
  }

  lemma OneWritten(p: Profile, s: StoreState, t: StoreState, r: Record, a: Ambient)
    requires Shaped(r) && SameCore(t, Commit(p, s, r, a))
    ensures t.records == s.records[DppId(r) := r] && t.outbox == s.outbox + [NewItem(p, r, a)]
    ensures NewItem(p, r, a).evidenceId == a.evidenceUrn && NewItem(p, r, a).state == Queued
    ensures NewItem(p, r, a).attempts == 0 && NewItem(p, r, a).transactionRef == None
  {
    hide Shaped, Digest;
  }

  // The index is told of a commit and of nothing else.
  lemma WriteToIs(c: Setup, y: Sys, w: Write, a: Ambient)
    requires AllShaped(y.store)
    ensures var z, t := WriteTo(c, y, w, a), Apply(c.profile, y.store, w, a).0;
      && z.store == t && z.ledger == y.ledger
      && if WillCommit(c.profile, y.store, w, a) then
           var id := DppId(Successor(c.profile, y.store, w, a));
           && id in t.records && t.records[id] == Successor(c.profile, y.store, w, a)
           && z.index == OnCommit(y.index, t, id, a.projectedMs)
         else z.index == y.index
  {
    hide Shaped, DppId, WillCommit, Successor, Apply, NewItem, OnCommit;
    ApplyCommits(c.profile, y.store, w, a);
  }

  lemma WriteKeeps(c: Setup, y: Sys, w: Write, a: Ambient)
    requires Base(c, y) && AllShaped(y.store) && FreshEvidence(y.store, a)
    ensures var z := Next(c, y, WriteStep(w, a)); Base(c, z) && Kept(y, z)
  {
    hide Shaped, DppId, Version, StoreBase, LedgerInv, Current, HistoryKept, OutboxKept, Apply, FreshEvidence,
         WillCommit, Successor, NewItem, Commit, OnCommit, WriteTo;
    var z, p := Next(c, y, WriteStep(w, a)), c.profile;
    var s, t := y.store, z.store;
    WriteToIs(c, y, w, a);
    WriteKeepsBase(p, s, w, a);
    ApplyCommits(p, s, w, a);
    ApplyKeepsShape(p, s, w, a);
    SameLedgerFields(y.ledger);
    if WillCommit(p, s, w, a) {
      var next := Successor(p, s, w, a);
      var item := NewItem(p, next, a);
      OneWritten(p, s, t, next, a);
      FreshHasNoId(s, a);
      NewItemRests(c, y, item);
      PushKeepsLedgerInv(c, y, z, item);
      CommitKeepsCurrent(s, t, y.index, DppId(next), a.projectedMs);
    } else {
      SameCoreKeeps(c, y, z);
    }
  }

  lemma SameCoreKeeps(c: Setup, y: Sys, z: Sys)
    requires AllShaped(y.store) && AllShaped(z.store) && LedgerInv(c, y) && Current(y.store, y.index)
    requires SameCore(y.store, z.store) && z.store.lastCommitMs == y.store.lastCommitMs
    requires z.ledger == y.ledger && z.index == y.index
    ensures LedgerInv(c, z) && Current(z.store, z.index) && OutboxKept(y.store, z.store)
  {
    hide Shaped, AtRest, Describes, Moved, SortingView;
    StayMoved(y.store.outbox);
  }

  // ----------------------------------------------------------- main results

  // Every step of the service, whatever is written, keeps the base and everything that must
  // never change.
  lemma StepKeeps(c: Setup, y: Sys, step: Step)
    requires Base(c, y) && Fresh(y, step)
    ensures AllShaped(y.store) && Base(c, Next(c, y, step)) && Kept(y, Next(c, y, step))
  {
    hide Base, Kept, Next;
    BaseIsDistinct(c, y);
    match step
    case WriteStep(w, a) => WriteKeeps(c, y, w, a);
    case DrainStep(now) => DrainKeeps(c, y, now);
    case ReconcileStep(now) => ReconcileKeeps(c, y, now);
    case _ => LedgerStepKeeps(c, y, step);
  }

  // Steps that write nothing only move entries.
  lemma PlainStepMoves(c: Setup, y: Sys, step: Step)
    requires Base(c, y) && !step.WriteStep?
    ensures AllShaped(y.store)
    ensures var z := Next(c, y, step);
      z.store == y.store.(outbox := z.store.outbox) && AllMoved(y.store.outbox, z.store.outbox)
  {
    hide Base, Kept, Moved, Drain, Reconcile;
    BaseIsDistinct(c, y);
    match step
    case DrainStep(now) => DrainKeeps(c, y, now);
    case ReconcileStep(now) => ReconcileKeeps(c, y, now);
    case _ => StayMoved(y.store.outbox);
  }

  // Versions stay in order exactly through the steps that are.
  lemma StepKeepsOrder(c: Setup, y: Sys, step: Step)
    requires Base(c, y) && Fresh(y, step) && StoreInv(c.profile, y.store)
    ensures AllShaped(y.store) && (StoreInv(c.profile, Next(c, y, step).store) <==> InOrder(c, y, step))
  {
    hide Base, StoreInv, Apply, KeepsHistory, WillCommit, AllMoved, FreshEvidence, Drain, Reconcile, OnCommit;
    BaseIsDistinct(c, y);
    if step.WriteStep? {
      WriteKeepsInv(c.profile, y.store, step.w, step.a);
    } else {
      PlainStepMoves(c, y, step);
      MovedKeepsStoreInv(c.profile, y.store, Next(c, y, step).store.outbox);
    }
  }

  // Bindings and index go on agreeing exactly through the steps that let them.
  lemma StepKeepsAgreement(c: Setup, y: Sys, step: Step)
    requires Base(c, y) && CarrierInv(y.store)
    ensures AllShaped(y.store) && (CarrierInv(Next(c, y, step).store) <==> InAgreement(c, y, step))
  {
    hide Base, CarrierInv, Apply, KeepsBindings, WillCommit, AllMoved, Drain, Reconcile, OnCommit;
    BaseIsDistinct(c, y);
    if step.WriteStep? {
      WriteKeepsCarriers(c.profile, y.store, step.w, step.a);
    } else {
      PlainStepMoves(c, y, step);
      SameStoreBody(y.store, Next(c, y, step).store);
    }
  }

  // So the whole invariant is kept by the allowed steps and by no other.
  lemma OnlyAllowedKeeps(c: Setup, y: Sys, step: Step)
    requires Inv(c, y) && Fresh(y, step)
    ensures AllShaped(y.store) && (Inv(c, Next(c, y, step)) <==> Allowed(c, y, step))
  {
    hide Base, StoreInv, CarrierInv, InOrder, InAgreement, Next;
    StepKeeps(c, y, step);
    StepKeepsOrder(c, y, step);
    StepKeepsAgreement(c, y, step);
  }
}
