// What becomes of each outbox entry: which state a drain or a reconciliation leaves it in, and
// over whole runs why an entry failed for good and when it is confirmed.

module EvidenceOutcomes {
  import opened Wrappers
  import opened Values
  import opened JsonText
  import opened Records
  import opened StoreSpec
  import opened StoreSteps
  import opened StoreTrail
  import opened LedgerSpec
  import opened EvidenceSpec
  import opened EvidenceHistory
  import opened System
  import opened Runs
  import opened Retry

  // ---------------------------------------------------------- what is submitted

  // The transaction is named by the hash of the envelope's text and the evidence identifier;
  // the envelope holds these seven members and no passport content.
  lemma TransactionIs(p: Profile, item: OutboxItem) returns (text: string)
    ensures TransactionRef(p, item) == "0x" + p.sha(text + item.evidenceId)
    ensures Parse(text).Some? && Parse(text).value.Obj?
    ensures var m := Parse(text).value.members;
      && m.Keys == {"evidenceId", "subjectRef", "subjectVersion", "canonicalisation", "digestAlgorithm", "digestValue",
                    "createdAt"}
      && m["evidenceId"] == Str(item.evidenceId) && m["subjectRef"] == Str(item.dppId)
      && m["subjectVersion"] == IntVal(item.subjectVersion) && m["canonicalisation"] == Str("rfc8785")
      && m["digestAlgorithm"] == Str("sha-256") && m["digestValue"] == Str(item.digestValue)
      && m["createdAt"] == Str(item.createdAt)
  {
    text := Text(Obj(Envelope(item)));
    DecodeText(Obj(Envelope(item)));
    hide Text, Parse;
  }

  // ------------------------------------------------- one entry reached by a drain

  // What is recorded of an accepted submission.
  ghost predicate TakesOver(a: OutboxItem, b: OutboxItem, receipt: Receipt) {
    b.transactionRef == Some(receipt.transactionRef) && b.networkId == Some(receipt.networkId) && SameEntry(a, b)
  }

  ghost predicate ConfirmedBy(b: OutboxItem, receipt: Receipt, now: string) {
    && b.state == Confirmed && b.lastReason == None
    && b.confirmedAt == Some(if receipt.confirmedAt.Some? && receipt.confirmedAt.value != "" then
                               receipt.confirmedAt.value else now)
  }

  ghost predicate AwaitsConfirmation(b: OutboxItem) {
    b.state == Submitted && b.lastReason == None
  }

  // The entry after it was submitted with attempts made before, the ledger being l before
  // and m after.
  ghost predicate SubmittedOnce(p: Profile, a: OutboxItem, b: OutboxItem, l: LedgerState, m: LedgerState, now: string) {
    var id := a.evidenceId;
    && b.attempts == a.attempts + 1
    && m.networkId == l.networkId && m.autoConfirm == l.autoConfirm
    && (if id in l.receipts then
          && m == l && TakesOver(a, b, l.receipts[id])
          && if l.receipts[id].confirmed then ConfirmedBy(b, l.receipts[id], now) else AwaitsConfirmation(b)
        else if l.failNext.Some? then
          && SameEntry(a, b) && b.lastReason == l.failNext && b.transactionRef == a.transactionRef
          && b.state == (if l.failNext == Some(SubmitRejected) then TerminalFailed else RetryableFailed)
          && m.failNext == None
          && m.receipts.Keys == l.receipts.Keys + (if l.failNext == Some(TimeoutAfterBroadcast) then {id} else {})
          && (id in m.receipts ==> !m.receipts[id].confirmed)
        else
          && m.failNext == None && m.receipts.Keys == l.receipts.Keys + {id}
          && m.receipts[id].confirmed == l.autoConfirm && m.receipts[id].networkId == l.networkId
          && m.receipts[id].confirmedAt == (if l.autoConfirm then Some(a.createdAt) else None)
          && m.receipts[id].block == |l.receipts| + 1
          && m.receipts[id].transactionRef == TransactionRef(p, a)
          && TakesOver(a, b, m.receipts[id])
          && if l.autoConfirm then ConfirmedBy(b, m.receipts[id], now) else AwaitsConfirmation(b))
  }

  // What one entry becomes when the drain reaches it: nothing once it is settled, an abort
  // when it rests in `submitted`, failed for good when its attempts are used up, and
  // otherwise what its submission brings.
  ghost predicate Handled(p: Profile, maxAttempts: nat, a: OutboxItem, b: OutboxItem, l: LedgerState, m: LedgerState,
                           aborted: bool, now: string)
  {
    match a.state
    case Confirmed => b == a && m == l && !aborted
    case TerminalFailed => b == a && m == l && !aborted
    case Submitted => b == a && m == l && aborted
    case Created => true
    case Queued => !aborted && SubmittedOnce(p, a, b, l, m, now)
    case RetryableFailed =>
      && !aborted
      && if a.attempts >= maxAttempts then b == a.(state := TerminalFailed) && m == l
         else SubmittedOnce(p, a, b, l, m, now)
  }

  lemma KnownAgain(p: Profile, a: OutboxItem, item: OutboxItem, l: LedgerState, now: string)
    requires item == a.(state := Queued, lastReason := item.lastReason) && a.evidenceId in l.receipts
    ensures var r := SubmitItem(p, item, l, now); !r.aborted && SubmittedOnce(p, a, r.item, l, r.ledger, now)
  {
    assert Submit(p, l, item) == (l, Accepted(l.receipts[a.evidenceId]));
    hide Submit, TransactionRef;
  }

  lemma FailedOnce(p: Profile, a: OutboxItem, item: OutboxItem, l: LedgerState, now: string)
    requires item == a.(state := Queued, lastReason := item.lastReason)
    requires a.evidenceId !in l.receipts && l.failNext.Some?
    ensures var r := SubmitItem(p, item, l, now); !r.aborted && SubmittedOnce(p, a, r.item, l, r.ledger, now)
  {
    FailureIs(p, item, l);
    hide Submit, TransactionRef;
  }

  lemma FailureIs(p: Profile, item: OutboxItem, l: LedgerState)
    requires item.evidenceId !in l.receipts && l.failNext.Some?
    ensures var (m, result) := Submit(p, l, item);
      && result == Failed(l.failNext.value, l.failNext.value != SubmitRejected)
      && m.failNext == None && m.networkId == l.networkId && m.autoConfirm == l.autoConfirm
      && m.receipts.Keys == l.receipts.Keys
                            + (if l.failNext == Some(TimeoutAfterBroadcast) then {item.evidenceId} else {})
      && (item.evidenceId in m.receipts ==> !m.receipts[item.evidenceId].confirmed)
  {
    hide TransactionRef;
  }

  lemma NewlySubmitted(p: Profile, a: OutboxItem, item: OutboxItem, l: LedgerState, now: string)
    requires item == a.(state := Queued, lastReason := item.lastReason)
    requires a.evidenceId !in l.receipts && l.failNext.None?
    ensures var r := SubmitItem(p, item, l, now); !r.aborted && SubmittedOnce(p, a, r.item, l, r.ledger, now)
  {
    AcceptanceIs(p, item, l);
    SameTransaction(p, a, item);
    AcceptedEntry(p, item, l, now);
    hide Submit, SubmitItem, TransactionRef;
  }

  lemma AcceptedEntry(p: Profile, item: OutboxItem, l: LedgerState, now: string)
    requires item.state == Queued && Submit(p, l, item).1.Accepted?
    ensures var (m, result) := Submit(p, l, item); var r := SubmitItem(p, item, l, now);
      && !r.aborted && r.ledger == m && r.item.attempts == item.attempts + 1 && SameEntry(item, r.item)
      && TakesOver(item, r.item, result.receipt)
      && if result.receipt.confirmed then ConfirmedBy(r.item, result.receipt, now) else AwaitsConfirmation(r.item)
  {
    hide Submit, TransactionRef;
  }

  lemma AcceptanceIs(p: Profile, item: OutboxItem, l: LedgerState)
    requires item.evidenceId !in l.receipts && l.failNext.None?
    ensures var (m, result) := Submit(p, l, item);
      && m.failNext == None && m.networkId == l.networkId && m.autoConfirm == l.autoConfirm
      && m.receipts.Keys == l.receipts.Keys + {item.evidenceId} && result == Accepted(m.receipts[item.evidenceId])
      && m.receipts[item.evidenceId].confirmed == l.autoConfirm
      && m.receipts[item.evidenceId].networkId == l.networkId
      && m.receipts[item.evidenceId].confirmedAt == (if l.autoConfirm then Some(item.createdAt) else None)
      && m.receipts[item.evidenceId].block == |l.receipts| + 1
      && m.receipts[item.evidenceId].transactionRef == TransactionRef(p, item)
  {
    hide TransactionRef;
  }

  lemma SubmittedIs(p: Profile, a: OutboxItem, item: OutboxItem, l: LedgerState, now: string)
    requires item == a.(state := Queued, lastReason := item.lastReason)
    ensures var r := SubmitItem(p, item, l, now); !r.aborted && SubmittedOnce(p, a, r.item, l, r.ledger, now)
  {
    hide SubmitItem, SubmittedOnce;
    if a.evidenceId in l.receipts {
      KnownAgain(p, a, item, l, now);
    } else if l.failNext.Some? {
      FailedOnce(p, a, item, l, now);
    } else {
      NewlySubmitted(p, a, item, l, now);
    }
  }

  lemma FirstIs(p: Profile, maxAttempts: nat, a: OutboxItem, l: LedgerState, now: string)
    requires a.state == Submitted ==> a.evidenceId in l.receipts
    ensures var r := First(p, maxAttempts, a, l, now); Handled(p, maxAttempts, a, r.item, l, r.ledger, r.aborted, now)
  {
    hide SubmitItem, SubmittedOnce;
    match a.state
    case Queued => SubmittedIs(p, a, a, l, now);
    case RetryableFailed => SubmittedIs(p, a, a.(state := Queued, lastReason := None), l, now);
    case Submitted => SubmittedRaises(p, a, l, now);
    case _ =>
  }

  // A drain of the first entries alone, and the entry after them.
  lemma {:induction false} DrainUpTo(p: Profile, maxAttempts: nat, items: seq<OutboxItem>, l: LedgerState, now: string,
                                     k: nat)
    requires k < |items| && !Drain(p, maxAttempts, items[..k], l, now).aborted
    ensures var m, d := Drain(p, maxAttempts, items[..k], l, now).ledger, Drain(p, maxAttempts, items, l, now);
      var first := First(p, maxAttempts, items[k], m, now);
      && |d.items| == |items| && d.items[k] == first.item && (first.aborted ==> d.aborted)
      && Drain(p, maxAttempts, items[..k + 1], l, now).ledger == first.ledger
      && Drain(p, maxAttempts, items[..k + 1], l, now).aborted == first.aborted
  {
    hide Process;
    DrainLength(p, maxAttempts, items, l, now);
    if k == 0 {
      assert items[..1] == [items[0]] && items[..1][1..] == [] && items[..0] == [];
    } else {
      var first := First(p, maxAttempts, items[0], l, now);
      assert items[..k][0] == items[0] && items[..k][1..] == items[1..][..k - 1];
      assert items[..k + 1][0] == items[0] && items[..k + 1][1..] == items[1..][..k];
      DrainUpTo(p, maxAttempts, items[1..], first.ledger, now, k - 1);
      DrainCons(p, maxAttempts, items, l, now);
    }
  }

  lemma {:induction false} DrainLength(p: Profile, maxAttempts: nat, items: seq<OutboxItem>, l: LedgerState,
                                       now: string)
    ensures |Drain(p, maxAttempts, items, l, now).items| == |items|
  {
    hide Process;
    if items != [] {
      DrainLength(p, maxAttempts, items[1..], First(p, maxAttempts, items[0], l, now).ledger, now);
    }
  }

  // What a drain makes of each entry it reaches, given the ledger the entries before leave.
  lemma DrainOutcome(p: Profile, maxAttempts: nat, items: seq<OutboxItem>, l: LedgerState, now: string, k: nat)
    requires maxAttempts >= 1 && DistinctIds(items) && AllAtRest(p, maxAttempts, items, l)
    requires k < |items| && !Drain(p, maxAttempts, items[..k], l, now).aborted
    ensures var before := Drain(p, maxAttempts, items[..k], l, now);
      var after := Drain(p, maxAttempts, items[..k + 1], l, now);
      var d := Drain(p, maxAttempts, items, l, now);
      && |d.items| == |items| && (after.aborted ==> d.aborted)
      && Handled(p, maxAttempts, items[k], d.items[k], before.ledger, after.ledger, after.aborted, now)
  {
    hide First, AtRest, Describes, Handled;
    DrainUpTo(p, maxAttempts, items, l, now, k);
    SubmittedHasReceipt(p, maxAttempts, items, l, now, k);
    FirstIs(p, maxAttempts, items[k], Drain(p, maxAttempts, items[..k], l, now).ledger, now);
  }

  lemma SubmittedHasReceipt(p: Profile, maxAttempts: nat, items: seq<OutboxItem>, l: LedgerState, now: string, k: nat)
    requires maxAttempts >= 1 && DistinctIds(items) && AllAtRest(p, maxAttempts, items, l) && k < |items|
    ensures items[k].state == Submitted ==>
              items[k].evidenceId in Drain(p, maxAttempts, items[..k], l, now).ledger.receipts
  {
    hide Describes, Drain, HasId;
    forall i | 0 <= i < |items[..k]| ensures AtRest(maxAttempts, l, items[..k][i]) && Describes(p, l, items[..k][i]) {
    }
    DrainEffect(p, maxAttempts, items[..k], l, now);
    assert AtRest(maxAttempts, l, items[k]);
    if items[k].state == Submitted {
      assert SameAt(l, Drain(p, maxAttempts, items[..k], l, now).ledger, items[k].evidenceId);
    }
  }

  // ------------------------------------------------------------- reconciliation

  // An open entry takes over what the ledger holds of it, and is confirmed if that is;
  // nothing else changes.
  lemma {:induction false} ReconcileOutcome(p: Profile, maxAttempts: nat, items: seq<OutboxItem>, l: LedgerState,
                                            now: string, k: nat)
    requires AllAtRest(p, maxAttempts, items, l) && k < |items|
    ensures var a, (rest, aborted) := items[k], Reconcile(items, l, now);
      && !aborted && |rest| == |items|
      && var b := rest[k];
         if a.state in {Confirmed, TerminalFailed} || a.evidenceId !in l.receipts then b == a
         else
           var receipt := l.receipts[a.evidenceId];
           && TakesOver(a, b, receipt) && b.attempts == a.attempts
           && if receipt.confirmed then ConfirmedBy(b, receipt, now)
              else b.state == a.state && b.lastReason == a.lastReason
  {
    hide Describes, Moved, Reaches;
    ReconcileEffect(p, maxAttempts, items, l, now);
    assert AtRest(maxAttempts, l, items[0]) && Describes(p, l, items[0]);
    assert forall i :: 0 <= i < |items[1..]| ==> items[1..][i] == items[i + 1];
    if k > 0 {
      ReconcileOutcome(p, maxAttempts, items[1..], l, now, k - 1);
    }
  }

  // ------------------------------------------------------------ over whole runs

  // How many failures have been scheduled before step i.
  function Scheduled(steps: seq<Step>, i: nat): nat
    requires i <= |steps|
  {
    if i == 0 then 0 else Scheduled(steps, i - 1) + (if Schedules(steps[i - 1]) then 1 else 0)
  }

  predicate Schedules(step: Step) {
    step.FailStep? && step.reason.Some?
  }

  // A failure that is waiting for the next submission.
  function Pending(l: LedgerState): nat {
    if l.failNext.Some? then 1 else 0
  }

  predicate HasFailed(item: OutboxItem) {
    item.state == RetryableFailed || item.state == TerminalFailed
  }

  // Each failure of an entry has used up one that was scheduled, and an entry has failed for
  // good because it was rejected or its attempts are used up.
  ghost predicate Accounted(c: Setup, items: seq<OutboxItem>, l: LedgerState, scheduled: nat, rejections: bool) {
    && Pending(l) <= scheduled
    && (l.failNext == Some(SubmitRejected) ==> rejections)
    && forall k :: 0 <= k < |items| ==> AccountedEntry(c, items[k], l, scheduled, rejections)
  }

  ghost predicate AccountedEntry(c: Setup, item: OutboxItem, l: LedgerState, scheduled: nat, rejections: bool) {
    && (HasFailed(item) ==> item.attempts + Pending(l) <= scheduled)
    && (item.state == TerminalFailed ==> item.lastReason == Some(SubmitRejected) || item.attempts >= c.maxAttempts)
    && (item.lastReason == Some(SubmitRejected) ==> rejections)
  }

  // What the ledger still has to give after one entry or more.
  ghost predicate UsedUp(l: LedgerState, m: LedgerState) {
    m.failNext == l.failNext || m.failNext == None
  }

  ghost predicate Falls(maxAttempts: nat, a: OutboxItem, b: OutboxItem, l: LedgerState, m: LedgerState) {
    && (HasFailed(b) ==> (HasFailed(a) || a.state == Queued) && b.attempts + Pending(m) <= a.attempts + Pending(l))
    && (b.state == TerminalFailed ==> a == b || b.lastReason == Some(SubmitRejected) || b.attempts >= maxAttempts)
    && (b.lastReason == Some(SubmitRejected) ==>
          a.lastReason == Some(SubmitRejected) || l.failNext == Some(SubmitRejected))
  }

  lemma SubmittedFalls(p: Profile, maxAttempts: nat, a: OutboxItem, b: OutboxItem, l: LedgerState, m: LedgerState,
                       now: string)
    requires SubmittedOnce(p, a, b, l, m, now) && a.state in {Queued, RetryableFailed}
    ensures UsedUp(l, m) && Falls(maxAttempts, a, b, l, m)
  {
    hide TransactionRef;
  }

  lemma FirstFalls(p: Profile, maxAttempts: nat, a: OutboxItem, l: LedgerState, now: string)
    requires AtRest(maxAttempts, l, a)
    ensures var r := First(p, maxAttempts, a, l, now);
      UsedUp(l, r.ledger) && Falls(maxAttempts, a, r.item, l, r.ledger)
  {
    hide First, SubmittedOnce;
    FirstIs(p, maxAttempts, a, l, now);
    var r := First(p, maxAttempts, a, l, now);
    if a.state == Queued || (a.state == RetryableFailed && a.attempts < maxAttempts) {
      SubmittedFalls(p, maxAttempts, a, r.item, l, r.ledger, now);
    }
  }

  lemma LaterFalls(maxAttempts: nat, a: OutboxItem, b: OutboxItem, l: LedgerState, m: LedgerState, n: LedgerState)
    requires UsedUp(l, m) && UsedUp(m, n)
    ensures Falls(maxAttempts, a, b, l, m) ==> Falls(maxAttempts, a, b, l, n)
    ensures Falls(maxAttempts, a, b, m, n) ==> Falls(maxAttempts, a, b, l, n)
    ensures UsedUp(l, n) && UsedUp(l, l)
  {
  }

  lemma {:induction false} DrainFalls(p: Profile, maxAttempts: nat, items: seq<OutboxItem>, l: LedgerState, now: string)
    requires maxAttempts >= 1 && DistinctIds(items) && AllAtRest(p, maxAttempts, items, l)
    ensures var d := Drain(p, maxAttempts, items, l, now);
      && UsedUp(l, d.ledger) && |d.items| == |items|
      && forall k :: 0 <= k < |items| ==> Falls(maxAttempts, items[k], d.items[k], l, d.ledger)
  {
    hide First, AtRest, Describes, Moved, Falls, UsedUp;
    if items == [] {
      LaterUsed(l);
    } else {
      var first := First(p, maxAttempts, items[0], l, now);
      assert AtRest(maxAttempts, l, items[0]);
      FirstFalls(p, maxAttempts, items[0], l, now);
      FirstEffect(p, maxAttempts, items, l, now);
      if first.aborted {
        AbortedFirst(p, maxAttempts, items, l, now);
        AbortKeepsLedger(p, maxAttempts, items, l, now);
        forall k | 0 <= k < |items| ensures Falls(maxAttempts, items[k], items[k], l, l) {
          Unfallen(maxAttempts, items[k], l);
        }
        LaterUsed(l);
      } else {
        DrainFalls(p, maxAttempts, items[1..], first.ledger, now);
        DrainCons(p, maxAttempts, items, l, now);
        var rest := Drain(p, maxAttempts, items[1..], first.ledger, now);
        forall k | 0 <= k < |items|
          ensures Falls(maxAttempts, items[k], ([first.item] + rest.items)[k], l, rest.ledger)
        {
          if k > 0 { assert items[k] == items[1..][k - 1]; }
          LaterFalls(maxAttempts, items[k], ([first.item] + rest.items)[k], l, first.ledger, rest.ledger);
        }
        LaterFalls(maxAttempts, items[0], items[0], l, first.ledger, rest.ledger);
      }
    }
  }

  lemma LaterUsed(l: LedgerState)
    ensures UsedUp(l, l)
  {
  }

  lemma Unfallen(maxAttempts: nat, a: OutboxItem, l: LedgerState)
    ensures Falls(maxAttempts, a, a, l, l)
  {
  }

  lemma AbortKeepsLedger(p: Profile, maxAttempts: nat, items: seq<OutboxItem>, l: LedgerState, now: string)
    requires maxAttempts >= 1 && items != [] && AllAtRest(p, maxAttempts, items, l)
    requires First(p, maxAttempts, items[0], l, now).aborted
    ensures Drain(p, maxAttempts, items, l, now).ledger == l
  {
    hide Process, AtRest, Describes;
    assert AtRest(maxAttempts, l, items[0]) && Describes(p, l, items[0]);
    ProcessEffect(p, maxAttempts, items[0], l, now);
  }

  lemma EntryAccounts(c: Setup, a: OutboxItem, b: OutboxItem, l: LedgerState, m: LedgerState, s: nat, rejections: bool)
    requires AccountedEntry(c, a, l, s, rejections) && Falls(c.maxAttempts, a, b, l, m) && AtRest(c.maxAttempts, l, a)
    requires Pending(l) <= s && (l.failNext == Some(SubmitRejected) ==> rejections)
    ensures AccountedEntry(c, b, m, s, rejections)
  {
  }

  lemma StepAccounts(c: Setup, y: Sys, step: Step, s: nat, rejections: bool)
    requires Base(c, y) && AllShaped(y.store) && Fresh(y, step)
    requires Accounted(c, y.store.outbox, y.ledger, s, rejections)
    ensures var z := Next(c, y, step);
      Accounted(c, z.store.outbox, z.ledger, s + (if Schedules(step) then 1 else 0),
                rejections || step == FailStep(Some(SubmitRejected)))
  {
    hide StoreBase, AllShaped, AtRest, Describes, Drain, Reconcile, WriteTo, Apply, Falls, HasId, Fresh;
    var z := Next(c, y, step);
    match step
    case DrainStep(now) =>
      BaseIsDistinct(c, y);
      DrainFalls(c.profile, c.maxAttempts, y.store.outbox, y.ledger, now);
      forall k | 0 <= k < |z.store.outbox| ensures AccountedEntry(c, z.store.outbox[k], z.ledger, s, rejections) {
        DescribedAt(c, y, k);
        EntryAccounts(c, y.store.outbox[k], z.store.outbox[k], y.ledger, z.ledger, s, rejections);
      }
    case ReconcileStep(now) =>
      ReconcileLength(c.profile, c.maxAttempts, y.store.outbox, y.ledger, now);
      forall k | 0 <= k < |z.store.outbox| ensures AccountedEntry(c, z.store.outbox[k], z.ledger, s, rejections) {
        ReconcileOutcome(c.profile, c.maxAttempts, y.store.outbox, y.ledger, now, k);
      }
    case WriteStep(w, a) => WriteAccounts(c, y, w, a, s, rejections);
    case _ =>
  }

  lemma ReconcileLength(p: Profile, maxAttempts: nat, items: seq<OutboxItem>, l: LedgerState, now: string)
    requires AllAtRest(p, maxAttempts, items, l)
    ensures |Reconcile(items, l, now).0| == |items|
  {
    hide AtRest, Describes, Moved, Reconcile;
    ReconcileEffect(p, maxAttempts, items, l, now);
  }

  lemma WriteAccounts(c: Setup, y: Sys, w: Write, a: Ambient, s: nat, rejections: bool)
    requires AllShaped(y.store) && Accounted(c, y.store.outbox, y.ledger, s, rejections)
    ensures var z := Next(c, y, WriteStep(w, a)); Accounted(c, z.store.outbox, z.ledger, s, rejections)
  {
    hide AllShaped, Apply, WillCommit, Successor, NewItem, WriteTo;
    WriteToIs(c, y, w, a);
    ApplyCommits(c.profile, y.store, w, a);
    if WillCommit(c.profile, y.store, w, a) {
      var next := Successor(c.profile, y.store, w, a);
      OneWritten(c.profile, y.store, Next(c, y, WriteStep(w, a)).store, next, a);
      NoReasonYet(c.profile, next, a);
    }
  }

  lemma NoReasonYet(p: Profile, r: Record, a: Ambient)
    requires Shaped(r)
    ensures NewItem(p, r, a).lastReason == None
  {
  }

  predicate Rejecting(steps: seq<Step>, i: nat)
    requires i <= |steps|
  {
    exists n :: 0 <= n < i && steps[n] == FailStep(Some(SubmitRejected))
  }

  lemma {:induction false} RunAccounts(c: Setup, states: seq<Sys>, steps: seq<Step>, i: nat)
    requires IsRun(c, states, steps) && i < |states|
    ensures i <= |steps|
    ensures Accounted(c, states[i].store.outbox, states[i].ledger, Scheduled(steps, i), Rejecting(steps, i))
  {
    hide Base, Next, Fresh, Start, AllShaped, Inv, Accounted, Rejecting;
    if i == 0 {
      RunStarts(c, states, steps);
      NothingAccounted(c, states[0], Rejecting(steps, 0));
    } else {
      RunAccounts(c, states, steps, i - 1);
      RunBase(c, states, steps, i - 1);
      assert IsStep(c, states[i - 1], steps[i - 1], states[(i - 1) + 1]);
      StepAccounts(c, states[i - 1], steps[i - 1], Scheduled(steps, i - 1), Rejecting(steps, i - 1));
      RejectingNext(steps, i);
    }
  }

  lemma NothingAccounted(c: Setup, y: Sys, rejections: bool)
    requires y.store == Empty() && y.ledger.failNext == None
    ensures Accounted(c, y.store.outbox, y.ledger, 0, rejections)
  {
  }

  lemma RejectingNext(steps: seq<Step>, i: nat)
    requires 0 < i <= |steps|
    ensures Rejecting(steps, i) <==> Rejecting(steps, i - 1) || steps[i - 1] == FailStep(Some(SubmitRejected))
  {
  }

  // In every run: an entry has failed for good only because a scheduled rejection met it, or
  // because it failed as often as it may; and it has never failed more often than failures
  // were scheduled.
  lemma WhyFailed(c: Setup, states: seq<Sys>, steps: seq<Step>, i: nat, k: nat)
    requires IsRun(c, states, steps) && i < |states| && k < |states[i].store.outbox|
    ensures i <= |steps|
    ensures var item := states[i].store.outbox[k];
      && (item.state == TerminalFailed ==>
            || item.attempts == c.maxAttempts
            || (item.lastReason == Some(SubmitRejected)
                && exists n :: 0 <= n < i && steps[n] == FailStep(Some(SubmitRejected))))
      && (item.state in {RetryableFailed, TerminalFailed} ==> item.attempts <= Scheduled(steps, i))
  {
    hide IsRun, Scheduled;
    RunAccounts(c, states, steps, i);
    AttemptsBounded(c, states, steps, i, k);
    assert AccountedEntry(c, states[i].store.outbox[k], states[i].ledger, Scheduled(steps, i), Rejecting(steps, i));
  }

  // So where no rejection and fewer failures than the limit have been scheduled, an entry is
  // confirmed after maxAttempts + 1 drains that did not raise.
  lemma ConfirmedUnlessFailed(c: Setup, states: seq<Sys>, steps: seq<Step>, i: nat, j: nat, k: nat)
    requires IsRun(c, states, steps) && i <= j < |states| && k < |states[i].store.outbox|
    requires CleanDrains(c, states, steps, i, j) >= c.maxAttempts + 1
    requires j <= |steps| && Scheduled(steps, j) < c.maxAttempts
    requires forall n :: 0 <= n < j ==> steps[n] != FailStep(Some(SubmitRejected))
    ensures k < |states[j].store.outbox| && states[j].store.outbox[k].state == Confirmed
  {
    hide IsRun, CleanDrains, Scheduled;
    SettledAfterDrains(c, states, steps, i, j, k);
    WhyFailed(c, states, steps, j, k);
  }

  // With auto-confirmation and no timeout after broadcast either, after as many drains of any
  // kind.
  lemma ConfirmedGently(c: Setup, states: seq<Sys>, steps: seq<Step>, i: nat, j: nat, k: nat)
    requires IsRun(c, states, steps) && i <= j < |states| && k < |states[i].store.outbox|
    requires states[0].ledger.autoConfirm && forall m :: 0 <= m < j ==> GentleStep(steps[m])
    requires j <= |steps| && Drains(steps, i, j) >= c.maxAttempts + 1 && Scheduled(steps, j) < c.maxAttempts
    requires forall n :: 0 <= n < j ==> steps[n] != FailStep(Some(SubmitRejected))
    ensures k < |states[j].store.outbox| && states[j].store.outbox[k].state == Confirmed
  {
    hide IsRun, CleanDrains, Drains, Scheduled, GentleStep;
    GentleDrainsCount(c, states, steps, i, j);
    ConfirmedUnlessFailed(c, states, steps, i, j, k);
  }

  // ------------------------------------------------------------- confirmations

  // Once the ledger confirms a receipt it holds, verification of its entry answers `match`
  // or `mismatch` and nothing else; the receipt keeps its transaction and gets its time.
  lemma ConfirmAnchors(c: Setup, states: seq<Sys>, steps: seq<Step>, i: nat, k: nat, at: string)
    requires IsRun(c, states, steps) && i < |steps| && |states| == |steps| + 1 && k < |states[i].store.outbox|
    requires steps[i] == ConfirmStep(states[i].store.outbox[k].evidenceId, at)
    requires states[i].store.outbox[k].evidenceId in states[i].ledger.receipts
    ensures var item, l, m := states[i].store.outbox[k], states[i].ledger, states[i + 1].ledger;
      && item.evidenceId in m.receipts && m.receipts[item.evidenceId].confirmed
      && m.receipts[item.evidenceId].confirmedAt == Some(at)
      && m.receipts[item.evidenceId].transactionRef == l.receipts[item.evidenceId].transactionRef
      && m.receipts[item.evidenceId].networkId == l.receipts[item.evidenceId].networkId
      && (forall id :: id != item.evidenceId ==> SameAt(l, m, id))
      && states[i + 1].store == states[i].store
      && VerifyEvidence(c.profile, states[i + 1].store, m, item.dppId, item.evidenceId)
         == Checked(if Verifies(c.profile, states[i + 1].store, item) then Match else Mismatch)
  {
    hide Base, AllShaped, Start, Verifies, VerifyEvidence, Drain, Reconcile, WriteTo, Fresh;
    assert IsStep(c, states[i], steps[i], states[i + 1]);
    VerdictIs(c, states, steps, i + 1, k);
  }
}
