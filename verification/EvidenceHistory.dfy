// What the worker and the ledger keep, entry by entry: legal transitions, one
// transaction and one digest per evidence identifier, bounded attempts.

module EvidenceHistory {
  import opened Wrappers
  import opened Records
  import opened StoreSpec
  import opened LedgerSpec
  import opened EvidenceSpec

  // ------------------------------------------------- paths through the table

  ghost predicate IsPath(path: seq<EvidenceState>) {
    path != [] && forall i :: 0 <= i < |path| - 1 ==> path[i + 1] in Transitions(path[i])
  }

  // The reflexive and transitive closure of the permitted transitions.
  ghost predicate Reaches(a: EvidenceState, b: EvidenceState) {
    exists path :: IsPath(path) && path[0] == a && path[|path| - 1] == b
  }

  lemma ReachesItself(a: EvidenceState)
    ensures Reaches(a, a)
  {
    assert IsPath([a]);
  }

  lemma ReachesTransitive(a: EvidenceState, b: EvidenceState, c: EvidenceState)
    requires Reaches(a, b) && Reaches(b, c)
    ensures Reaches(a, c)
  {
    var p :| IsPath(p) && p[0] == a && p[|p| - 1] == b;
    var q :| IsPath(q) && q[0] == b && q[|q| - 1] == c;
    var path := p + q[1..];
    assert forall i :: 0 <= i < |p| ==> path[i] == p[i];
    assert forall i :: |p| <= i < |path| ==> path[i] == q[i - |p| + 1];
    assert IsPath(path);
  }

  // What may follow what, in one step.
  lemma PermittedPairs(a: EvidenceState, b: EvidenceState)
    ensures b in Transitions(a)
            <==> (a, b) in {(Created, Queued), (Queued, Submitted), (Queued, RetryableFailed), (Queued, TerminalFailed),
                            (Submitted, Confirmed), (Submitted, RetryableFailed), (Submitted, TerminalFailed),
                            (RetryableFailed, Queued), (RetryableFailed, TerminalFailed)}
  {
  }

  // What the worker's moves amount to.
  lemma WorkerPaths()
    ensures Reaches(Queued, RetryableFailed) && Reaches(Queued, TerminalFailed)
    ensures Reaches(Queued, Submitted) && Reaches(Queued, Confirmed)
    ensures Reaches(RetryableFailed, TerminalFailed) && Reaches(RetryableFailed, RetryableFailed)
    ensures Reaches(RetryableFailed, Submitted) && Reaches(RetryableFailed, Confirmed)
    ensures Reaches(Submitted, Confirmed)
  {
    assert IsPath([Queued, Submitted, Confirmed]) && IsPath([Queued, Submitted]);
    assert IsPath([Queued, RetryableFailed]) && IsPath([Queued, TerminalFailed]);
    assert IsPath([RetryableFailed, Queued, Submitted, Confirmed]) && IsPath([RetryableFailed, Queued, Submitted]);
    assert IsPath([RetryableFailed, TerminalFailed]) && IsPath([RetryableFailed]);
    assert IsPath([Submitted, Confirmed]);
  }

  lemma PathStep(path: seq<EvidenceState>)
    requires IsPath(path) && |path| > 1
    ensures path[1] in Transitions(path[0])
  {
    assert path[0 + 1] in Transitions(path[0]);
  }

  // Terminal states are left by no path.
  lemma TerminalStays(a: EvidenceState, b: EvidenceState)
    requires Terminal(a) && Reaches(a, b)
    ensures a == b
  {
    var path :| IsPath(path) && path[0] == a && path[|path| - 1] == b;
    if |path| > 1 {
      PathStep(path);
    }
  }

  // -------------------------------------------------------- per-entry facts

  // The parts of an entry no step rewrites.
  predicate SameEntry(a: OutboxItem, b: OutboxItem) {
    && a.evidenceId == b.evidenceId && a.dppId == b.dppId && a.subjectVersion == b.subjectVersion
    && a.digestValue == b.digestValue && a.createdAt == b.createdAt
  }

  // How an entry may change.
  ghost predicate Moved(a: OutboxItem, b: OutboxItem) {
    && SameEntry(a, b)
    && Reaches(a.state, b.state)
    && (Terminal(a.state) ==> a == b)
    && (a.transactionRef.Some? ==> b.transactionRef == a.transactionRef)
    && a.attempts <= b.attempts
  }

  // Entry and receipt name the same transaction.
  predicate Agrees(l: LedgerState, item: OutboxItem) {
    && item.evidenceId in l.receipts
    && item.transactionRef == Some(l.receipts[item.evidenceId].transactionRef)
    && item.networkId == Some(l.receipts[item.evidenceId].networkId)
  }

  // What holds of an entry between worker steps.
  predicate AtRest(maxAttempts: nat, l: LedgerState, item: OutboxItem) {
    && item.attempts <= maxAttempts
    && (item.transactionRef.Some? ==> Agrees(l, item))
    && match item.state
       case Created => false
       case Queued => item.attempts == 0 && item.evidenceId !in l.receipts
       case RetryableFailed => item.attempts >= 1
       case Submitted => item.transactionRef.Some?
       case Confirmed => item.transactionRef.Some? && l.receipts[item.evidenceId].confirmed
       case TerminalFailed => true
  }

  // What the ledger holds for an entry is that entry's digest and transaction.
  ghost predicate Describes(p: Profile, l: LedgerState, item: OutboxItem) {
    var id := item.evidenceId;
    && (id in l.receipts <==> id in l.digests)
    && (id in l.receipts ==> l.digests[id] == item.digestValue
                             && l.receipts[id].transactionRef == TransactionRef(p, item)
                             && l.receipts[id].evidenceId == id)
  }

  lemma SameTransaction(p: Profile, a: OutboxItem, b: OutboxItem)
    requires SameEntry(a, b)
    ensures TransactionRef(p, a) == TransactionRef(p, b)
  {
    assert Envelope(a) == Envelope(b);
  }

  // The two ledgers hold the same for an identifier.
  predicate SameAt(l: LedgerState, m: LedgerState, id: string) {
    && (id in l.receipts <==> id in m.receipts) && (id in l.receipts ==> l.receipts[id] == m.receipts[id])
    && (id in l.digests <==> id in m.digests) && (id in l.digests ==> l.digests[id] == m.digests[id])
  }

  // At most this identifier is new.
  ghost predicate OnlyAdds(l: LedgerState, m: LedgerState, id: string) {
    && (forall x :: x != id ==> SameAt(l, m, x))
    && (id in l.receipts ==> SameAt(l, m, id))
  }

  // ------------------------------------------------------------ one entry

  lemma SubmitEffect(p: Profile, l: LedgerState, item: OutboxItem)
    requires Describes(p, l, item)
    ensures var (m, result) := Submit(p, l, item);
      && OnlyAdds(l, m, item.evidenceId) && Describes(p, m, item)
      && (result.Accepted? ==> item.evidenceId in m.receipts && result.receipt == m.receipts[item.evidenceId])
      && (result.Failed? ==> item.evidenceId !in l.receipts)
  {
    hide TransactionRef;
  }

  lemma SubmitItemEffect(p: Profile, maxAttempts: nat, item: OutboxItem, l: LedgerState, now: string)
    requires item.state == Queued && item.attempts < maxAttempts && Describes(p, l, item)
    requires item.transactionRef.Some? ==> Agrees(l, item)
    ensures var r := SubmitItem(p, item, l, now);
      && !r.aborted && OnlyAdds(l, r.ledger, item.evidenceId)
      && AtRest(maxAttempts, r.ledger, r.item) && Describes(p, r.ledger, r.item)
      && SameEntry(item, r.item) && r.item.state in {RetryableFailed, TerminalFailed, Submitted, Confirmed}
      && (item.transactionRef.Some? ==> r.item.transactionRef == item.transactionRef)
      && r.item.attempts == item.attempts + 1
  {
    hide TransactionRef, OnlyAdds, Submit;
    SubmitEffect(p, l, item);
    var r := SubmitItem(p, item, l, now);
    SameTransaction(p, item, r.item);
    OnlyAddsKeeps(l, r.ledger, item.evidenceId);
  }

  lemma OnlyAddsKeeps(l: LedgerState, m: LedgerState, id: string)
    requires OnlyAdds(l, m, id)
    ensures forall x :: x in l.receipts ==> x in m.receipts && m.receipts[x] == l.receipts[x]
    ensures forall x :: x in m.receipts ==> x in l.receipts || x == id
  {
    assert forall x :: x in l.receipts ==> SameAt(l, m, x);
    assert forall x :: x in m.receipts && x != id ==> SameAt(l, m, x);
  }

  // One entry, processed: legal, described, at rest again; it raises exactly when it was
  // resting in `submitted`.
  lemma ProcessEffect(p: Profile, maxAttempts: nat, item: OutboxItem, l: LedgerState, now: string)
    requires maxAttempts >= 1 && !Terminal(item.state)
    requires AtRest(maxAttempts, l, item) && Describes(p, l, item)
    ensures var r := Process(p, maxAttempts, item, l, now);
      && (r.aborted <==> item.state == Submitted)
      && (r.aborted ==> r.item == item && r.ledger == l)
      && OnlyAdds(l, r.ledger, item.evidenceId)
      && AtRest(maxAttempts, r.ledger, r.item) && Describes(p, r.ledger, r.item) && Moved(item, r.item)
  {
    hide TransactionRef, SubmitItem, Reaches;
    WorkerPaths();
    ReachesItself(item.state);
    var r := Process(p, maxAttempts, item, l, now);
    SameTransaction(p, item, item.(state := Queued, lastReason := None));
    if item.state == Submitted {
      SubmittedRaises(p, item, l, now);
    } else if item.state == Queued {
      SubmitItemEffect(p, maxAttempts, item, l, now);
    } else if item.attempts < maxAttempts {
      SubmitItemEffect(p, maxAttempts, item.(state := Queued, lastReason := None), l, now);
    } else {
      SameTransaction(p, item, r.item);
    }
  }

  lemma SubmittedRaises(p: Profile, item: OutboxItem, l: LedgerState, now: string)
    requires item.state == Submitted && item.evidenceId in l.receipts
    ensures SubmitItem(p, item, l, now) == Processed(item, l, true)
  {
  }

  // ------------------------------------------------------- a whole outbox

  ghost predicate DistinctIds(items: seq<OutboxItem>) {
    forall j, k :: 0 <= j < k < |items| ==> items[j].evidenceId != items[k].evidenceId
  }

  ghost predicate AllAtRest(p: Profile, maxAttempts: nat, items: seq<OutboxItem>, l: LedgerState) {
    forall k :: 0 <= k < |items| ==> AtRest(maxAttempts, l, items[k]) && Describes(p, l, items[k])
  }

  ghost predicate AllMoved(a: seq<OutboxItem>, b: seq<OutboxItem>) {
    |a| == |b| && forall k :: 0 <= k < |a| ==> Moved(a[k], b[k])
  }

  predicate HasId(items: seq<OutboxItem>, id: string) {
    exists k :: 0 <= k < |items| && items[k].evidenceId == id
  }

  // Receipts stay as they are and new ones belong to these entries.
  ghost predicate AddsOnly(l: LedgerState, m: LedgerState, items: seq<OutboxItem>) {
    forall x :: (x in l.receipts || !HasId(items, x)) ==> SameAt(l, m, x)
  }

  lemma RestDependsOnReceipt(p: Profile, maxAttempts: nat, l: LedgerState, m: LedgerState, item: OutboxItem)
    requires SameAt(l, m, item.evidenceId) && AtRest(maxAttempts, l, item) && Describes(p, l, item)
    ensures AtRest(maxAttempts, m, item) && Describes(p, m, item)
  {
    hide TransactionRef;
  }

  ghost predicate SomeSubmitted(items: seq<OutboxItem>) {
    exists k :: 0 <= k < |items| && items[k].state == Submitted
  }

  lemma MovedItself(item: OutboxItem)
    ensures Moved(item, item)
  {
    ReachesItself(item.state);
  }

  lemma FirstEffect(p: Profile, maxAttempts: nat, items: seq<OutboxItem>, l: LedgerState, now: string)
    requires maxAttempts >= 1 && items != [] && DistinctIds(items) && AllAtRest(p, maxAttempts, items, l)
    ensures var first := First(p, maxAttempts, items[0], l, now);
      && (first.aborted <==> items[0].state == Submitted)
      && OnlyAdds(l, first.ledger, items[0].evidenceId) && Moved(items[0], first.item)
      && AtRest(maxAttempts, first.ledger, first.item) && Describes(p, first.ledger, first.item)
      && AllAtRest(p, maxAttempts, items[1..], first.ledger)
  {
    hide Process, AtRest, Describes, Moved;
    assert AtRest(maxAttempts, l, items[0]) && Describes(p, l, items[0]);
    if Terminal(items[0].state) {
      MovedItself(items[0]);
    } else {
      ProcessEffect(p, maxAttempts, items[0], l, now);
    }
    var m := First(p, maxAttempts, items[0], l, now).ledger;
    forall k | 0 <= k < |items[1..]| ensures AtRest(maxAttempts, m, items[1..][k]) && Describes(p, m, items[1..][k]) {
      RestDependsOnReceipt(p, maxAttempts, l, m, items[k + 1]);
    }
  }

  // What a drain does with the entry at hand.
  function First(p: Profile, maxAttempts: nat, item: OutboxItem, l: LedgerState, now: string): Processed {
    if Terminal(item.state) then Processed(item, l, false) else Process(p, maxAttempts, item, l, now)
  }

  // A drain, aborted or not, moves every entry legally, leaves earlier receipts alone and
  // adds receipts only for its own entries. It aborts exactly when some entry rests in
  // `submitted`.
  lemma {:induction false} DrainEffect(p: Profile, maxAttempts: nat, items: seq<OutboxItem>, l: LedgerState,
                                       now: string)
    requires maxAttempts >= 1 && DistinctIds(items) && AllAtRest(p, maxAttempts, items, l)
    ensures var d := Drain(p, maxAttempts, items, l, now);
      && AllMoved(items, d.items) && AllAtRest(p, maxAttempts, d.items, d.ledger)
      && AddsOnly(l, d.ledger, items)
      && (d.aborted <==> SomeSubmitted(items))
  {
    hide AtRest, Describes, Moved, Process, SameAt, AllMoved, AllAtRest, AddsOnly, SomeSubmitted;
    if items == [] {
      EmptyOutbox(p, maxAttempts, l);
    } else {
      var d, first := Drain(p, maxAttempts, items, l, now), First(p, maxAttempts, items[0], l, now);
      FirstEffect(p, maxAttempts, items, l, now);
      if first.aborted {
        StayMoved(items[1..]);
        ConsEffect(p, maxAttempts, items, first, items[1..], l, first.ledger);
        assert SomeSubmitted(items) by { SomeSubmittedCons(items); }
      } else {
        DrainEffect(p, maxAttempts, items[1..], first.ledger, now);
        var rest := Drain(p, maxAttempts, items[1..], first.ledger, now);
        ConsEffect(p, maxAttempts, items, first, rest.items, l, rest.ledger);
        SomeSubmittedCons(items);
      }
    }
  }

  lemma EmptyOutbox(p: Profile, maxAttempts: nat, l: LedgerState)
    ensures AllMoved([], []) && AllAtRest(p, maxAttempts, [], l) && AddsOnly(l, l, []) && !SomeSubmitted([])
  {
  }

  lemma SomeSubmittedCons(items: seq<OutboxItem>)
    requires items != []
    ensures SomeSubmitted(items) <==> items[0].state == Submitted || SomeSubmitted(items[1..])
  {
    if SomeSubmitted(items[1..]) {
      var k :| 0 <= k < |items[1..]| && items[1..][k].state == Submitted;
      assert items[k + 1].state == Submitted;
    }
    if SomeSubmitted(items) && items[0].state != Submitted {
      var k :| 0 <= k < |items| && items[k].state == Submitted;
      assert items[1..][k - 1].state == Submitted;
    }
  }

  lemma StayMoved(items: seq<OutboxItem>)
    ensures AllMoved(items, items)
  {
    forall k | 0 <= k < |items| ensures Moved(items[k], items[k]) {
      MovedItself(items[k]);
    }
  }

  // The first entry's effect and that of the rest, put together.
  lemma ConsEffect(p: Profile, maxAttempts: nat, items: seq<OutboxItem>, first: Processed, rest: seq<OutboxItem>,
                   l: LedgerState, m: LedgerState)
    requires items != [] && DistinctIds(items)
    requires OnlyAdds(l, first.ledger, items[0].evidenceId) && Moved(items[0], first.item)
    requires AtRest(maxAttempts, first.ledger, first.item) && Describes(p, first.ledger, first.item)
    requires AllMoved(items[1..], rest) && AllAtRest(p, maxAttempts, rest, m)
    requires m == first.ledger || AddsOnly(first.ledger, m, items[1..])
    ensures AllMoved(items, [first.item] + rest) && AllAtRest(p, maxAttempts, [first.item] + rest, m)
    ensures AddsOnly(l, m, items)
  {
    hide AtRest, Describes, Reaches;
    assert !HasId(items[1..], items[0].evidenceId);
    assert SameAt(first.ledger, m, first.item.evidenceId);
    RestDependsOnReceipt(p, maxAttempts, first.ledger, m, first.item);
    forall x | x in l.receipts || !HasId(items, x) ensures SameAt(l, m, x) {
      assert items[0].evidenceId == x ==> HasId(items, x);
      HasIdTail(items, x);
      assert SameAt(l, first.ledger, x);
    }
  }

  lemma HasIdTail(items: seq<OutboxItem>, x: string)
    requires items != []
    ensures HasId(items[1..], x) ==> HasId(items, x)
  {
    if HasId(items[1..], x) {
      var k :| 0 <= k < |items[1..]| && items[1..][k].evidenceId == x;
      assert items[k + 1].evidenceId == x;
    }
  }

  // -------------------------------------------------------------- reconcile

  lemma ReconcileItemEffect(p: Profile, maxAttempts: nat, item: OutboxItem, l: LedgerState, now: string)
    requires AtRest(maxAttempts, l, item) && Describes(p, l, item)
    ensures var (b, aborted) := ReconcileItem(item, l, now);
      && !aborted && Moved(item, b) && AtRest(maxAttempts, l, b) && Describes(p, l, b)
      && (item.evidenceId in l.receipts && l.receipts[item.evidenceId].confirmed ==> Terminal(b.state))
  {
    hide TransactionRef, Reaches;
    WorkerPaths();
    ReachesItself(item.state);
    SameTransaction(p, item, ReconcileItem(item, l, now).0);
  }

  // Reconciliation never raises, moves every entry legally, and leaves no entry open whose
  // receipt is confirmed.
  lemma {:induction false} ReconcileEffect(p: Profile, maxAttempts: nat, items: seq<OutboxItem>, l: LedgerState,
                                           now: string)
    requires AllAtRest(p, maxAttempts, items, l)
    ensures var (b, aborted) := Reconcile(items, l, now);
      && !aborted && AllMoved(items, b) && AllAtRest(p, maxAttempts, b, l)
      && (forall k :: 0 <= k < |items| && items[k].evidenceId in l.receipts && l.receipts[items[k].evidenceId].confirmed
            ==> Terminal(b[k].state))
  {
    hide AtRest, Describes, Moved, ReconcileItem;
    if items != [] {
      ReconcileItemEffect(p, maxAttempts, items[0], l, now);
      assert forall k :: 0 <= k < |items[1..]| ==> items[1..][k] == items[k + 1];
      ReconcileEffect(p, maxAttempts, items[1..], l, now);
    }
  }
}
