// The reference ledger and the evidence worker as objects that update their fields and
// the outbox entries in place (ledger/memory.py, evidence.py), proved to compute the
// functions of LedgerSpec and EvidenceSpec.

module Worker {
  import opened Wrappers
  import opened Records
  import opened StoreSpec
  import opened LedgerSpec
  import opened EvidenceSpec
  import opened Store
  import Ledger = LedgerSpec
  import Spec = EvidenceSpec

  class InMemoryLedger {
    const profile: Profile
    const networkId: string
    var autoConfirm: bool
    var failNext: Option<Reason>
    var receipts: map<string, Receipt>
    var digests: map<string, string>

    ghost function State(): LedgerState
      reads this
    {
      LedgerState(networkId, autoConfirm, failNext, receipts, digests)
    }

    constructor (profile: Profile, networkId: string, autoConfirm: bool)
      ensures State() == LedgerState(networkId, autoConfirm, None, map[], map[]) && this.profile == profile
    {
      this.profile, this.networkId, this.autoConfirm := profile, networkId, autoConfirm;
      failNext, receipts, digests := None, map[], map[];
    }

    method Store(item: OutboxItem, confirmed: bool) returns (receipt: Receipt)
      modifies this
      ensures State() == Ledger.Store(profile, old(State()), item, confirmed)
      ensures item.evidenceId in receipts && receipt == receipts[item.evidenceId]
    {
      receipt := Receipt(item.evidenceId, TransactionRef(profile, item), networkId, confirmed,
                         if confirmed then Some(item.createdAt) else None, |receipts| + 1);
      receipts := receipts[item.evidenceId := receipt];
      digests := digests[item.evidenceId := item.digestValue];
    }

    // A repeated submission returns the first receipt; a scheduled failure is used up.
    method Submit(item: OutboxItem) returns (result: SubmitResult)
      modifies this
      ensures (State(), result) == Ledger.Submit(profile, old(State()), item)
    {
      if item.evidenceId in receipts {
        return Accepted(receipts[item.evidenceId]);
      }
      if failNext.Some? {
        var reason := failNext.value;
        failNext := None;
        if reason == TimeoutAfterBroadcast {
          var _ := Store(item, false);
        }
        return Failed(reason, reason != SubmitRejected);
      }
      var receipt := Store(item, autoConfirm);
      return Accepted(receipt);
    }

    method Confirm(id: string, at: string) returns (known: bool)
      modifies this`receipts
      ensures State() == Ledger.Confirm(old(State()), id, at)
      ensures known <==> id in old(receipts)
    {
      known := id in receipts;
      if known {
        receipts := receipts[id := receipts[id].(confirmed := true, confirmedAt := Some(at))];
      }
    }

    method Verify(id: string, recomputed: string) returns (verdict: Verdict)
      ensures verdict == Ledger.Verify(State(), id, recomputed)
    {
      if id !in receipts {
        return Unverifiable;
      }
      if !receipts[id].confirmed {
        return Unanchored;
      }
      if id !in digests {
        return Unverifiable;
      }
      return if digests[id] == recomputed then Match else Mismatch;
    }
  }

  // transition(entry, new_state, reason_code=...): false where TransitionError is raised.
  method Transition(entry: OutboxEntry, newState: EvidenceState, reason: Option<Reason>) returns (permitted: bool)
    modifies entry
    ensures permitted <==> newState in Transitions(old(entry.state))
    ensures entry.Item() == if permitted then
                              old(entry.Item()).(state := newState, lastReason := reason,
                                                 attempts := old(entry.attempts)
                                                             + if newState == Submitted then 1 else 0)
                            else old(entry.Item())
  {
    permitted := newState in Transitions(entry.state);
    if permitted {
      entry.state, entry.lastReason := newState, reason;
      if newState == Submitted {
        entry.attempts := entry.attempts + 1;
      }
    }
  }

  class EvidenceWorker {
    const store: PassportStore
    const ledger: InMemoryLedger
    const maxAttempts: nat

    constructor (store: PassportStore, ledger: InMemoryLedger, maxAttempts: nat)
      ensures this.store == store && this.ledger == ledger && this.maxAttempts == maxAttempts
    {
      this.store, this.ledger, this.maxAttempts := store, ledger, maxAttempts;
    }

    method Process(entry: OutboxEntry, now: string) returns (aborted: bool)
      requires !Terminal(entry.state)
      modifies entry, ledger
      ensures Processed(entry.Item(), ledger.State(), aborted)
              == Spec.Process(ledger.profile, maxAttempts, old(entry.Item()), old(ledger.State()), now)
    {
      if entry.state == RetryableFailed {
        if entry.attempts >= maxAttempts {
          var _ := Transition(entry, TerminalFailed, entry.lastReason);
          return false;
        }
        var _ := Transition(entry, Queued, None);
      }
      aborted := SubmitEntry(entry, now);
    }

    method SubmitEntry(entry: OutboxEntry, now: string) returns (aborted: bool)
      modifies entry, ledger
      ensures Processed(entry.Item(), ledger.State(), aborted)
              == SubmitItem(ledger.profile, old(entry.Item()), old(ledger.State()), now)
    {
      var result := ledger.Submit(entry.Item());
      if result.Failed? {
        entry.attempts := entry.attempts + 1;
        if entry.state == Queued {
          entry.state := if result.retryable then RetryableFailed else TerminalFailed;
          entry.lastReason := Some(result.reason);
        }
        return false;
      }
      var receipt := result.receipt;
      var permitted := Transition(entry, Submitted, None);
      if !permitted {
        return true;
      }
      entry.transactionRef, entry.networkId := Some(receipt.transactionRef), Some(receipt.networkId);
      if receipt.confirmed {
        permitted := Transition(entry, Confirmed, None);
        entry.confirmedAt := Some(OrNow(receipt.confirmedAt, now));
      }
      return false;
    }

    // Every non-terminal entry once, in outbox order, until one raises.
    method Drain(now: string) returns (aborted: bool)
      requires store.Valid()
      modifies store.outbox, ledger
      ensures store.Valid() && store.outbox == old(store.outbox)
      ensures Drained(ItemsOf(store.outbox), ledger.State(), aborted)
              == Spec.Drain(ledger.profile, maxAttempts, old(ItemsOf(store.outbox)), old(ledger.State()), now)
    {
      hide Spec.Drain, Spec.Process, AllShaped, ResumeDrain;
      var entries := store.outbox;
      ghost var before, p := ItemsOf(entries), ledger.profile;
      ghost var target := Spec.Drain(p, maxAttempts, before, ledger.State(), now);
      aborted := false;
      var i := 0;
      ResumeWholeDrain(p, maxAttempts, before, ledger.State(), now);
      while i < |entries| && !aborted
        invariant 0 <= i <= |entries|
        invariant forall k :: i <= k < |entries| && !aborted ==> entries[k].Item() == before[k]
        invariant target == if aborted then Drained(ItemsOf(entries), ledger.State(), true)
                            else ResumeDrain(p, maxAttempts, ItemsOf(entries), before, i, ledger.State(), now)
        decreases |entries| - i, !aborted
      {
        var entry := entries[i];
        ghost var items, l := ItemsOf(entries), ledger.State();
        if !Terminal(entry.state) {
          aborted := Process(entry, now);
        }
        DrainStep(p, maxAttempts, items, before, i, l, now);
        assert ItemsOf(entries) == items[i := entry.Item()];
        if !aborted {
          i := i + 1;
        }
      }
      if !aborted {
        ResumeNoDrain(p, maxAttempts, ItemsOf(entries), before, ledger.State(), now);
      }
      SameRecordsShaped(old(store.State()), store.State());
    }

    method Reconcile(now: string) returns (aborted: bool)
      requires store.Valid()
      modifies store.outbox
      ensures store.Valid() && store.outbox == old(store.outbox)
      ensures (ItemsOf(store.outbox), aborted) == Spec.Reconcile(old(ItemsOf(store.outbox)), ledger.State(), now)
    {
      hide Spec.Reconcile, Spec.ReconcileItem, AllShaped, ResumeReconcile;
      var entries := store.outbox;
      ghost var before, l := ItemsOf(entries), ledger.State();
      ghost var target := Spec.Reconcile(before, l, now);
      aborted := false;
      var i := 0;
      ResumeWholeReconcile(before, l, now);
      while i < |entries| && !aborted
        invariant 0 <= i <= |entries|
        invariant forall k :: i <= k < |entries| && !aborted ==> entries[k].Item() == before[k]
        invariant ledger.State() == l
        invariant target == if aborted then (ItemsOf(entries), true)
                            else ResumeReconcile(ItemsOf(entries), before, i, l, now)
        decreases |entries| - i, !aborted
      {
        var entry := entries[i];
        ghost var items := ItemsOf(entries);
        aborted := ReconcileEntry(entry, now);
        ReconcileStep(items, before, i, l, now);
        assert ItemsOf(entries) == items[i := entry.Item()];
        if !aborted {
          i := i + 1;
        }
      }
      if !aborted {
        ResumeNoReconcile(ItemsOf(entries), before, l, now);
      }
      SameRecordsShaped(old(store.State()), store.State());
    }

    method ReconcileEntry(entry: OutboxEntry, now: string) returns (aborted: bool)
      modifies entry
      ensures (entry.Item(), aborted) == ReconcileItem(old(entry.Item()), ledger.State(), now)
    {
      if Terminal(entry.state) || entry.evidenceId !in ledger.receipts {
        return false;
      }
      var receipt := ledger.receipts[entry.evidenceId];
      entry.transactionRef, entry.networkId := Some(receipt.transactionRef), Some(receipt.networkId);
      if receipt.confirmed {
        if entry.state == RetryableFailed {
          entry.state := Submitted;
        }
        if entry.state == Queued {
          entry.state := Submitted;
        }
        var permitted := Transition(entry, Confirmed, None);
        if !permitted {
          return true;
        }
        entry.confirmedAt := Some(OrNow(receipt.confirmedAt, now));
      }
      return false;
    }
  }

  // ------------------------------------------------------------ proof steps

  // The entries before position i as they are, and a drain of the original rest.
  ghost function ResumeDrain(p: Profile, maxAttempts: nat, items: seq<OutboxItem>, before: seq<OutboxItem>, i: nat,
                             l: LedgerState, now: string): Drained
    requires i <= |items| == |before|
  {
    var rest := Spec.Drain(p, maxAttempts, before[i..], l, now);
    Drained(items[..i] + rest.items, rest.ledger, rest.aborted)
  }

  lemma ResumeWholeDrain(p: Profile, maxAttempts: nat, before: seq<OutboxItem>, l: LedgerState, now: string)
    ensures ResumeDrain(p, maxAttempts, before, before, 0, l, now) == Spec.Drain(p, maxAttempts, before, l, now)
  {
    assert before[0..] == before;
  }

  lemma ResumeNoDrain(p: Profile, maxAttempts: nat, items: seq<OutboxItem>, before: seq<OutboxItem>, l: LedgerState,
                      now: string)
    requires |items| == |before|
    ensures ResumeDrain(p, maxAttempts, items, before, |items|, l, now) == Drained(items, l, false)
  {
  }

  lemma DrainStep(p: Profile, maxAttempts: nat, items: seq<OutboxItem>, before: seq<OutboxItem>, i: nat,
                  l: LedgerState, now: string)
    requires i < |items| == |before| && items[i..] == before[i..]
    ensures var first := if Terminal(items[i].state) then Processed(items[i], l, false)
                         else Spec.Process(p, maxAttempts, items[i], l, now);
      var next := items[i := first.item];
      ResumeDrain(p, maxAttempts, items, before, i, l, now)
      == if first.aborted then Drained(next, first.ledger, true)
         else ResumeDrain(p, maxAttempts, next, before, i + 1, first.ledger, now)
  {
    hide Spec.Process;
    assert before[i..][0] == items[i] && before[i..][1..] == before[i + 1..];
    var first := if Terminal(items[i].state) then Processed(items[i], l, false)
                 else Spec.Process(p, maxAttempts, items[i], l, now);
    var next := items[i := first.item];
    assert next == items[..i] + ([first.item] + items[i + 1..]);
    assert next[..i + 1] == items[..i] + [first.item];
    assert before[i + 1..] == items[i + 1..];
  }

  ghost function ResumeReconcile(items: seq<OutboxItem>, before: seq<OutboxItem>, i: nat, l: LedgerState, now: string)
    : (seq<OutboxItem>, bool)
    requires i <= |items| == |before|
  {
    var rest := Spec.Reconcile(before[i..], l, now);
    (items[..i] + rest.0, rest.1)
  }

  lemma ResumeWholeReconcile(before: seq<OutboxItem>, l: LedgerState, now: string)
    ensures ResumeReconcile(before, before, 0, l, now) == Spec.Reconcile(before, l, now)
  {
    assert before[0..] == before;
    assert before[..0] + Spec.Reconcile(before, l, now).0 == Spec.Reconcile(before, l, now).0;
  }

  lemma ResumeNoReconcile(items: seq<OutboxItem>, before: seq<OutboxItem>, l: LedgerState, now: string)
    requires |items| == |before|
    ensures ResumeReconcile(items, before, |items|, l, now) == (items, false)
  {
    assert items[..|items|] + [] == items;
  }

  lemma ReconcileStep(items: seq<OutboxItem>, before: seq<OutboxItem>, i: nat, l: LedgerState, now: string)
    requires i < |items| == |before| && items[i..] == before[i..]
    ensures var first := ReconcileItem(items[i], l, now);
      var next := items[i := first.0];
      ResumeReconcile(items, before, i, l, now)
      == if first.1 then (next, true) else ResumeReconcile(next, before, i + 1, l, now)
  {
    hide ReconcileItem;
    assert before[i..][0] == items[i] && before[i..][1..] == before[i + 1..];
    var first := ReconcileItem(items[i], l, now).0;
    var next, rest := items[i := first], Spec.Reconcile(before[i + 1..], l, now).0;
    assert next == items[..i] + ([first] + items[i + 1..]);
    assert next[..i + 1] == items[..i] + [first];
    assert items[..i] + ([first] + rest) == next[..i + 1] + rest;
    assert before[i + 1..] == items[i + 1..];
  }
}
