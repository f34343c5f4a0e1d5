// Bounded retry: every drain that does not raise brings each open entry closer to being
// settled, so maxAttempts + 1 of them settle it. A drain raises exactly when an entry rests
// in `submitted`; none does where the ledger confirms on submission and nothing times out
// after broadcast, nor from a reconciliation at which every receipt is confirmed up to the
// next drain.

module Retry {
  import opened Wrappers
  import opened Records
  import opened StoreSpec
  import opened StoreSteps
  import opened StoreTrail
  import opened LedgerSpec
  import opened EvidenceSpec
  import opened EvidenceHistory
  import opened IndexSpec
  import opened System
  import opened Runs

  // How many more drains an entry can need.
  function Rank(maxAttempts: nat, item: OutboxItem): nat {
    if Terminal(item.state) || item.attempts > maxAttempts then 0 else maxAttempts + 1 - item.attempts
  }

  // ----------------------------------------------------------- one entry

  lemma SubmitProgresses(p: Profile, maxAttempts: nat, item: OutboxItem, l: LedgerState, now: string)
    requires item.state == Queued && item.attempts < maxAttempts
    ensures Rank(maxAttempts, SubmitItem(p, item, l, now).item) < Rank(maxAttempts, item)
  {
    hide TransactionRef;
  }

  lemma ProcessProgresses(p: Profile, maxAttempts: nat, item: OutboxItem, l: LedgerState, now: string)
    requires maxAttempts >= 1 && !Terminal(item.state) && item.state != Submitted && AtRest(maxAttempts, l, item)
    ensures Rank(maxAttempts, Process(p, maxAttempts, item, l, now).item) < Rank(maxAttempts, item)
  {
    hide SubmitItem;
    if item.state == Queued {
      SubmitProgresses(p, maxAttempts, item, l, now);
    } else if item.attempts < maxAttempts {
      SubmitProgresses(p, maxAttempts, item.(state := Queued, lastReason := None), l, now);
    }
  }

  // ------------------------------------------------------------ one drain

  // Open entries come strictly closer to being settled.
  ghost predicate Settles(maxAttempts: nat, a: seq<OutboxItem>, b: seq<OutboxItem>) {
    |a| == |b| && forall k :: 0 <= k < |a| ==>
      Rank(maxAttempts, b[k]) == 0 || Rank(maxAttempts, b[k]) < Rank(maxAttempts, a[k])
  }

  lemma FirstProgresses(p: Profile, maxAttempts: nat, items: seq<OutboxItem>, l: LedgerState, now: string)
    requires maxAttempts >= 1 && items != [] && AllAtRest(p, maxAttempts, items, l) && items[0].state != Submitted
    ensures var first := First(p, maxAttempts, items[0], l, now).item;
      Rank(maxAttempts, first) == 0 || Rank(maxAttempts, first) < Rank(maxAttempts, items[0])
  {
    hide Process, AtRest, Describes;
    assert AtRest(maxAttempts, l, items[0]);
    if !Terminal(items[0].state) {
      ProcessProgresses(p, maxAttempts, items[0], l, now);
    }
  }

  lemma {:induction false} DrainProgresses(p: Profile, maxAttempts: nat, items: seq<OutboxItem>, l: LedgerState,
                                           now: string)
    requires maxAttempts >= 1 && DistinctIds(items) && AllAtRest(p, maxAttempts, items, l) && !SomeSubmitted(items)
    ensures var d := Drain(p, maxAttempts, items, l, now); !d.aborted && Settles(maxAttempts, items, d.items)
  {
    hide First, AtRest, Describes, Moved, Rank, SomeSubmitted;
    if items != [] {
      var first := First(p, maxAttempts, items[0], l, now);
      FirstEffect(p, maxAttempts, items, l, now);
      SomeSubmittedCons(items);
      FirstProgresses(p, maxAttempts, items, l, now);
      DrainProgresses(p, maxAttempts, items[1..], first.ledger, now);
      DrainCons(p, maxAttempts, items, l, now);
      var rest := Drain(p, maxAttempts, items[1..], first.ledger, now).items;
      forall k | 0 <= k < |items|
        ensures var b := ([first.item] + rest)[k];
          Rank(maxAttempts, b) == 0 || Rank(maxAttempts, b) < Rank(maxAttempts, items[k])
      {
        if k > 0 { assert items[k] == items[1..][k - 1]; }
      }
    }
  }

  lemma DrainCons(p: Profile, maxAttempts: nat, items: seq<OutboxItem>, l: LedgerState, now: string)
    requires items != [] && !First(p, maxAttempts, items[0], l, now).aborted
    ensures var first := First(p, maxAttempts, items[0], l, now);
      var rest := Drain(p, maxAttempts, items[1..], first.ledger, now);
      Drain(p, maxAttempts, items, l, now) == Drained([first.item] + rest.items, rest.ledger, rest.aborted)
  {
    hide Process;
  }

  // ---------------------------------------------------------------- a run

  // A drain that does not raise.
  predicate CleanDrain(c: Setup, y: Sys, step: Step) {
    step.DrainStep? && !Drain(c.profile, c.maxAttempts, y.store.outbox, y.ledger, step.now).aborted
  }

  // None of these entries rests in `submitted`.
  lemma CleanIff(c: Setup, y: Sys, step: Step)
    requires Base(c, y) && step.DrainStep?
    ensures CleanDrain(c, y, step) <==> !SomeSubmitted(y.store.outbox)
  {
    hide StoreBase, Current, AtRest, Describes, Drain, SomeSubmitted, HasId;
    BaseIsDistinct(c, y);
    DrainEffect(c.profile, c.maxAttempts, y.store.outbox, y.ledger, step.now);
  }

  function CleanDrains(c: Setup, states: seq<Sys>, steps: seq<Step>, i: nat, j: nat): nat
    requires i <= j <= |steps| <= |states|
    decreases j
  {
    if i == j then 0
    else CleanDrains(c, states, steps, i, j - 1) + (if CleanDrain(c, states[j - 1], steps[j - 1]) then 1 else 0)
  }

  lemma MovedRank(maxAttempts: nat, a: OutboxItem, b: OutboxItem)
    requires Moved(a, b)
    ensures Rank(maxAttempts, b) <= Rank(maxAttempts, a)
  {
    hide Reaches;
  }

  lemma StepProgresses(c: Setup, y: Sys, step: Step, k: nat)
    requires Base(c, y) && Fresh(y, step) && AllShaped(y.store) && k < |y.store.outbox|
    ensures var z := Next(c, y, step);
      k < |z.store.outbox|
      && var before, after := Rank(c.maxAttempts, y.store.outbox[k]), Rank(c.maxAttempts, z.store.outbox[k]);
         after <= before && (CleanDrain(c, y, step) ==> after == 0 || after < before)
  {
    hide StoreBase, AllShaped, Current, Rank, Moved, AtRest, Describes, Drain, Reconcile, WriteTo, SomeSubmitted;
    if CleanDrain(c, y, step) {
      CleanIff(c, y, step);
      BaseIsDistinct(c, y);
      DrainProgresses(c.profile, c.maxAttempts, y.store.outbox, y.ledger, step.now);
    }
    StepKeeps(c, y, step);
    MovedRank(c.maxAttempts, y.store.outbox[k], Next(c, y, step).store.outbox[k]);
  }

  // In every run, each drain that does not raise brings every entry then in the outbox one
  // step closer to being settled, and nothing ever takes it further away.
  lemma {:induction false} DrainsSettle(c: Setup, states: seq<Sys>, steps: seq<Step>, i: nat, j: nat, k: nat)
    requires IsRun(c, states, steps) && i <= j < |states| && k < |states[i].store.outbox|
    ensures k < |states[j].store.outbox|
    ensures var rank := Rank(c.maxAttempts, states[j].store.outbox[k]);
      rank == 0 || rank + CleanDrains(c, states, steps, i, j) <= Rank(c.maxAttempts, states[i].store.outbox[k])
    decreases j
  {
    hide Base, Next, Fresh, Start, AllShaped, Rank, CleanDrain;
    if i < j {
      DrainsSettle(c, states, steps, i, j - 1, k);
      RunBase(c, states, steps, j - 1);
      assert IsStep(c, states[j - 1], steps[j - 1], states[(j - 1) + 1]);
      StepProgresses(c, states[j - 1], steps[j - 1], k);
    }
  }

  // So after maxAttempts + 1 of them it is settled, whatever was written in between.
  lemma SettledAfterDrains(c: Setup, states: seq<Sys>, steps: seq<Step>, i: nat, j: nat, k: nat)
    requires IsRun(c, states, steps) && i <= j < |states| && k < |states[i].store.outbox|
    requires CleanDrains(c, states, steps, i, j) >= c.maxAttempts + 1
    ensures k < |states[j].store.outbox| && Terminal(states[j].store.outbox[k].state)
  {
    hide Base, Next, Fresh, Start, AllShaped, CleanDrains;
    DrainsSettle(c, states, steps, i, j, k);
    AttemptsBounded(c, states, steps, j, k);
  }

  // The number of attempts never passes the limit, in any run whatever.
  lemma AttemptsBounded(c: Setup, states: seq<Sys>, steps: seq<Step>, i: nat, k: nat)
    requires IsRun(c, states, steps) && i < |states| && k < |states[i].store.outbox|
    ensures states[i].store.outbox[k].attempts <= c.maxAttempts
  {
    hide Start, IsStep, Base, Describes;
    RunBase(c, states, steps, i);
    DescribedAt(c, states[i], k);
  }

  // ----------------------------------------------------- the stranded entry

  // An entry resting in `submitted` stops every drain: it and all entries behind it stay
  // exactly as they are, however often the outbox is drained.
  lemma {:induction false} SubmittedBlocks(p: Profile, maxAttempts: nat, items: seq<OutboxItem>, l: LedgerState,
                                           now: string, k: nat, j: nat)
    requires maxAttempts >= 1 && DistinctIds(items) && AllAtRest(p, maxAttempts, items, l)
    requires k <= j < |items| && items[k].state == Submitted
    ensures var d := Drain(p, maxAttempts, items, l, now); d.aborted && |d.items| == |items| && d.items[j] == items[j]
  {
    hide AtRest, Describes, Moved, Process;
    var first := First(p, maxAttempts, items[0], l, now);
    FirstEffect(p, maxAttempts, items, l, now);
    if first.aborted {
      AbortedFirst(p, maxAttempts, items, l, now);
    } else {
      SubmittedBlocks(p, maxAttempts, items[1..], first.ledger, now, k - 1, j - 1);
    }
  }

  lemma AbortedFirst(p: Profile, maxAttempts: nat, items: seq<OutboxItem>, l: LedgerState, now: string)
    requires maxAttempts >= 1 && items != [] && AllAtRest(p, maxAttempts, items, l)
    requires First(p, maxAttempts, items[0], l, now).aborted
    ensures Drain(p, maxAttempts, items, l, now).items == items && Drain(p, maxAttempts, items, l, now).aborted
  {
    hide Process, AtRest, Describes;
    assert AtRest(maxAttempts, l, items[0]) && Describes(p, l, items[0]);
    ProcessEffect(p, maxAttempts, items[0], l, now);
    assert [items[0]] + items[1..] == items;
  }

  // ---------------------------------------------- runs in which no drain raises

  // The ledger confirms on submission, has confirmed what it holds, and no timeout after
  // broadcast is pending.
  ghost predicate Gentle(l: LedgerState) {
    && l.autoConfirm && l.failNext != Some(TimeoutAfterBroadcast)
    && forall id :: id in l.receipts ==> l.receipts[id].confirmed
  }

  predicate GentleStep(step: Step) {
    match step
    case FailStep(reason) => reason != Some(TimeoutAfterBroadcast)
    case AutoConfirmStep(b) => b
    case _ => true
  }

  lemma FirstGently(p: Profile, maxAttempts: nat, item: OutboxItem, l: LedgerState, now: string)
    requires Gentle(l) && item.state != Submitted
    ensures var first := First(p, maxAttempts, item, l, now); Gentle(first.ledger) && first.item.state != Submitted
  {
    hide TransactionRef;
  }

  lemma {:induction false} DrainGently(p: Profile, maxAttempts: nat, items: seq<OutboxItem>, l: LedgerState,
                                       now: string)
    requires Gentle(l) && !SomeSubmitted(items)
    ensures var d := Drain(p, maxAttempts, items, l, now); Gentle(d.ledger) && !SomeSubmitted(d.items)
  {
    hide Process, Gentle;
    if items != [] {
      var first := First(p, maxAttempts, items[0], l, now);
      SomeSubmittedCons(items);
      FirstGently(p, maxAttempts, items[0], l, now);
      if !first.aborted {
        DrainGently(p, maxAttempts, items[1..], first.ledger, now);
      }
    }
  }

  // Reconciliation brings no entry into `submitted`.
  lemma {:induction false} ReconcileSubmitsNothing(items: seq<OutboxItem>, l: LedgerState, now: string)
    requires !SomeSubmitted(items)
    ensures !SomeSubmitted(Reconcile(items, l, now).0)
  {
    if items != [] {
      SomeSubmittedCons(items);
      ReconcileSubmitsNothing(items[1..], l, now);
    }
  }

  // Nor does any other step but a drain.
  lemma OthersSubmitNothing(c: Setup, y: Sys, step: Step)
    requires AllShaped(y.store) && !step.DrainStep? && !SomeSubmitted(y.store.outbox)
    ensures !SomeSubmitted(Next(c, y, step).store.outbox)
  {
    hide AllShaped, Reconcile, Apply, WillCommit, Successor, NewItem, WriteTo;
    match step
    case ReconcileStep(now) => ReconcileSubmitsNothing(y.store.outbox, y.ledger, now);
    case WriteStep(w, a) =>
      WriteToIs(c, y, w, a);
      ApplyCommits(c.profile, y.store, w, a);
      if WillCommit(c.profile, y.store, w, a) {
        OneWritten(c.profile, y.store, Next(c, y, step).store, Successor(c.profile, y.store, w, a), a);
      }
    case _ =>
  }

  lemma GentleNext(c: Setup, y: Sys, step: Step)
    requires AllShaped(y.store) && GentleStep(step) && Gentle(y.ledger) && !SomeSubmitted(y.store.outbox)
    ensures Gentle(Next(c, y, step).ledger) && !SomeSubmitted(Next(c, y, step).store.outbox)
  {
    hide AllShaped, Drain, Reconcile, WriteTo, SomeSubmitted;
    match step
    case DrainStep(now) => DrainGently(c.profile, c.maxAttempts, y.store.outbox, y.ledger, now);
    case WriteStep(w, a) =>
      WriteToIs(c, y, w, a);
      OthersSubmitNothing(c, y, step);
    case _ => OthersSubmitNothing(c, y, step);
  }

  // With a ledger that confirms on submission, and any failures but timeouts after
  // broadcast, no drain ever raises.
  lemma {:induction false} GentleRunsDrain(c: Setup, states: seq<Sys>, steps: seq<Step>, i: nat)
    requires IsRun(c, states, steps) && i < |states| && states[0].ledger.autoConfirm
    requires forall k :: 0 <= k < i ==> GentleStep(steps[k])
    ensures Gentle(states[i].ledger) && !SomeSubmitted(states[i].store.outbox)
    ensures i < |steps| && steps[i].DrainStep? ==> CleanDrain(c, states[i], steps[i])
  {
    hide Inv, CleanDrain, Next, Fresh, Start, AllShaped, GentleStep, SomeSubmitted;
    if i == 0 {
      RunStarts(c, states, steps);
      NoneSubmitted();
    } else {
      GentleRunsDrain(c, states, steps, i - 1);
      assert IsStep(c, states[i - 1], steps[i - 1], states[(i - 1) + 1]);
      GentleNext(c, states[i - 1], steps[i - 1]);
    }
    if i < |steps| && steps[i].DrainStep? {
      RunBase(c, states, steps, i);
      CleanIff(c, states[i], steps[i]);
    }
  }

  lemma NoneSubmitted()
    ensures !SomeSubmitted(Empty().outbox)
  {
  }

  function Drains(steps: seq<Step>, i: nat, j: nat): nat
    requires i <= j <= |steps|
    decreases j
  {
    if i == j then 0 else Drains(steps, i, j - 1) + (if steps[j - 1].DrainStep? then 1 else 0)
  }

  lemma {:induction false} GentleDrainsCount(c: Setup, states: seq<Sys>, steps: seq<Step>, i: nat, j: nat)
    requires IsRun(c, states, steps) && i <= j < |states| && states[0].ledger.autoConfirm
    requires forall k :: 0 <= k < j ==> GentleStep(steps[k])
    ensures |states| == |steps| + 1 && CleanDrains(c, states, steps, i, j) == Drains(steps, i, j)
    decreases j
  {
    hide Gentle, GentleStep, IsStep, Start, SomeSubmitted;
    if i < j {
      GentleDrainsCount(c, states, steps, i, j - 1);
      GentleRunsDrain(c, states, steps, j - 1);
    }
  }

  // So in such a run every entry is settled after maxAttempts + 1 drains.
  lemma GentleRunsSettle(c: Setup, states: seq<Sys>, steps: seq<Step>, i: nat, j: nat, k: nat)
    requires IsRun(c, states, steps) && i <= j < |states| && states[0].ledger.autoConfirm
    requires forall m :: 0 <= m < j ==> GentleStep(steps[m])
    requires k < |states[i].store.outbox| && j <= |steps| && Drains(steps, i, j) >= c.maxAttempts + 1
    ensures k < |states[j].store.outbox| && Terminal(states[j].store.outbox[k].state)
  {
    hide GentleStep, IsRun, CleanDrains, Drains;
    GentleDrainsCount(c, states, steps, i, j);
    SettledAfterDrains(c, states, steps, i, j, k);
  }

  // --------------------------------------------------- recovery after a timeout

  // A reconciliation at which every receipt the ledger holds is confirmed.
  ghost predicate Clears(y: Sys, step: Step) {
    step.ReconcileStep? && forall id :: id in y.ledger.receipts ==> y.ledger.receipts[id].confirmed
  }

  // It leaves no open entry with a receipt, so none rests in `submitted`.
  lemma ReconcileUnblocks(p: Profile, maxAttempts: nat, items: seq<OutboxItem>, l: LedgerState, now: string)
    requires AllAtRest(p, maxAttempts, items, l) && forall id :: id in l.receipts ==> l.receipts[id].confirmed
    ensures var b := Reconcile(items, l, now).0;
      !SomeSubmitted(b)
      && forall k :: 0 <= k < |b| && !Terminal(b[k].state) ==> b[k].evidenceId !in l.receipts
  {
    hide Describes, Reaches, TransactionRef;
    ReconcileEffect(p, maxAttempts, items, l, now);
    var b := Reconcile(items, l, now).0;
    forall k | 0 <= k < |b|
      ensures !Terminal(b[k].state) ==> b[k].evidenceId !in l.receipts && b[k].state != Submitted
    {
      assert Moved(items[k], b[k]) && AtRest(maxAttempts, l, b[k]);
    }
  }

  // From a clearing reconciliation up to the next drain no entry rests in `submitted`,
  // whatever is written, broken or confirmed in between, and that drain does not raise.
  lemma {:induction false} ClearedUntilDrained(c: Setup, states: seq<Sys>, steps: seq<Step>, r: nat, m: nat)
    requires IsRun(c, states, steps) && r < m < |states| && Clears(states[r], steps[r])
    requires forall n :: r < n < m ==> !steps[n].DrainStep?
    ensures !SomeSubmitted(states[m].store.outbox)
    ensures m < |steps| && steps[m].DrainStep? ==> CleanDrain(c, states[m], steps[m])
    decreases m
  {
    hide Base, Next, Fresh, Start, AllShaped, SomeSubmitted, CleanDrain;
    assert IsStep(c, states[m - 1], steps[m - 1], states[(m - 1) + 1]);
    if m == r + 1 {
      RunBase(c, states, steps, r);
      ClearedNext(c, states[r], steps[r]);
    } else {
      ClearedUntilDrained(c, states, steps, r, m - 1);
      OthersSubmitNothing(c, states[m - 1], steps[m - 1]);
    }
    if m < |steps| && steps[m].DrainStep? {
      RunBase(c, states, steps, m);
      CleanIff(c, states[m], steps[m]);
    }
  }

  lemma ClearedNext(c: Setup, y: Sys, step: Step)
    requires Base(c, y) && AllShaped(y.store) && Clears(y, step)
    ensures !SomeSubmitted(Next(c, y, step).store.outbox)
  {
    hide StoreBase, AllShaped, Current, AtRest, Describes, Reconcile, SomeSubmitted, HasId;
    ReconcileUnblocks(c.profile, c.maxAttempts, y.store.outbox, y.ledger, step.now);
  }

  // A drain with such a reconciliation since the drain before it: the end of a round.
  ghost predicate EndsRound(states: seq<Sys>, steps: seq<Step>, m: nat)
    requires m < |steps| <= |states|
  {
    steps[m].DrainStep?
    && exists r :: 0 <= r < m && Clears(states[r], steps[r]) && forall n :: r < n < m ==> !steps[n].DrainStep?
  }

  ghost function Rounds(states: seq<Sys>, steps: seq<Step>, i: nat, j: nat): nat
    requires i <= j <= |steps| <= |states|
    decreases j
  {
    if i == j then 0 else Rounds(states, steps, i, j - 1) + (if EndsRound(states, steps, j - 1) then 1 else 0)
  }

  lemma {:induction false} RoundsDrain(c: Setup, states: seq<Sys>, steps: seq<Step>, i: nat, j: nat)
    requires IsRun(c, states, steps) && i <= j < |states|
    ensures Rounds(states, steps, i, j) <= CleanDrains(c, states, steps, i, j)
    decreases j
  {
    hide Next, Fresh, Start, AllShaped, SomeSubmitted, Clears, CleanDrain;
    if i < j {
      RoundsDrain(c, states, steps, i, j - 1);
      if EndsRound(states, steps, j - 1) {
        var r :| 0 <= r < j - 1 && Clears(states[r], steps[r]) && forall n :: r < n < j - 1 ==> !steps[n].DrainStep?;
        ClearedUntilDrained(c, states, steps, r, j - 1);
      }
    }
  }

  // After maxAttempts + 1 rounds every entry that was there is settled, whatever timed out
  // after broadcast, rested in `submitted` or was written in between.
  lemma RecoveredAfterRounds(c: Setup, states: seq<Sys>, steps: seq<Step>, i: nat, j: nat, k: nat)
    requires IsRun(c, states, steps) && i <= j < |states| && k < |states[i].store.outbox|
    requires Rounds(states, steps, i, j) >= c.maxAttempts + 1
    ensures k < |states[j].store.outbox| && Terminal(states[j].store.outbox[k].state)
  {
    hide IsRun, Rounds, CleanDrains;
    RunLength(c, states, steps);
    RoundsDrain(c, states, steps, i, j);
    SettledAfterDrains(c, states, steps, i, j, k);
  }
}
