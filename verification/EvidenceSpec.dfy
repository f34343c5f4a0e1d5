// The reference ledger (ledger/memory.py, ledger/base.py) and the evidence worker
// (evidence.py), as functions on values.

module LedgerSpec {
  import opened Wrappers
  import opened Values
  import opened JsonText
  import opened Records
  import opened StoreSpec

  datatype Receipt = Receipt(
    evidenceId: string,
    transactionRef: string,
    networkId: string,
    confirmed: bool,             // state is "confirmed", otherwise "submitted"
    confirmedAt: Option<string>,
    block: nat
  )

  datatype LedgerState = LedgerState(
    networkId: string,
    autoConfirm: bool,
    failNext: Option<Reason>,
    receipts: map<string, Receipt>,
    digests: map<string, string>
  )

  datatype SubmitResult = Accepted(receipt: Receipt) | Failed(reason: Reason, retryable: bool)

  datatype Verdict = Match | Mismatch | Unanchored | Unverifiable

  const CANONICALISATION_PROFILE := "rfc8785"
  const DIGEST_ALGORITHM := "sha-256"

  // A reference and a digest, and no passport content.
  function Envelope(item: OutboxItem): Record {
    map["evidenceId" := Str(item.evidenceId), "subjectRef" := Str(item.dppId),
        "subjectVersion" := IntVal(item.subjectVersion),
        "canonicalisation" := Str(CANONICALISATION_PROFILE), "digestAlgorithm" := Str(DIGEST_ALGORITHM),
        "digestValue" := Str(item.digestValue), "createdAt" := Str(item.createdAt)]
  }

  function TransactionRef(p: Profile, item: OutboxItem): string {
    "0x" + p.sha(Text(Obj(Envelope(item))) + item.evidenceId)
  }

  function Store(p: Profile, l: LedgerState, item: OutboxItem, confirmed: bool): LedgerState {
    var receipt := Receipt(item.evidenceId, TransactionRef(p, item), l.networkId, confirmed,
                           if confirmed then Some(item.createdAt) else None, |l.receipts| + 1);
    l.(receipts := l.receipts[item.evidenceId := receipt],
       digests := l.digests[item.evidenceId := item.digestValue])
  }

  function Submit(p: Profile, l: LedgerState, item: OutboxItem): (LedgerState, SubmitResult) {
    if item.evidenceId in l.receipts then (l, Accepted(l.receipts[item.evidenceId]))
    else
      match l.failNext
      case Some(reason) =>
        var cleared := l.(failNext := None);
        (if reason == TimeoutAfterBroadcast then Store(p, cleared, item, false) else cleared,
         Failed(reason, reason != SubmitRejected))
      case None =>
        var stored := Store(p, l, item, l.autoConfirm);
        (stored, Accepted(stored.receipts[item.evidenceId]))
  }

  // Nothing happens for an unknown identifier: the lookup raises.
  function Confirm(l: LedgerState, id: string, at: string): LedgerState {
    if id !in l.receipts then l
    else l.(receipts := l.receipts[id := l.receipts[id].(confirmed := true, confirmedAt := Some(at))])
  }

  function Verify(l: LedgerState, id: string, recomputed: string): Verdict {
    if id !in l.receipts then Unverifiable
    else if !l.receipts[id].confirmed then Unanchored
    else if id !in l.digests then Unverifiable
    else if l.digests[id] == recomputed then Match
    else Mismatch
  }
}

module EvidenceSpec {
  import opened Wrappers
  import opened Records
  import opened StoreSpec
  import opened LedgerSpec

  // Permitted transitions.
  function Transitions(s: EvidenceState): set<EvidenceState> {
    match s
    case Created => {Queued}
    case Queued => {Submitted, RetryableFailed, TerminalFailed}
    case Submitted => {Confirmed, RetryableFailed, TerminalFailed}
    case RetryableFailed => {Queued, TerminalFailed}
    case Confirmed => {}
    case TerminalFailed => {}
  }

  predicate Terminal(s: EvidenceState) {
    s == Confirmed || s == TerminalFailed
  }

  // receipt.confirmed_at or utcnow()
  function OrNow(at: Option<string>, now: string): string {
    if at.Some? && at.value != "" then at.value else now
  }

  function ConfirmItem(item: OutboxItem, receipt: Receipt, now: string): OutboxItem {
    item.(state := Confirmed, lastReason := None, confirmedAt := Some(OrNow(receipt.confirmedAt, now)))
  }

  function RecordReceipt(item: OutboxItem, receipt: Receipt): OutboxItem {
    item.(transactionRef := Some(receipt.transactionRef), networkId := Some(receipt.networkId))
  }

  // ------------------------------------------------------------- the worker

  datatype Processed = Processed(item: OutboxItem, ledger: LedgerState, aborted: bool)

  // A non-terminal entry that is about to be submitted.
  function SubmitItem(p: Profile, item: OutboxItem, l: LedgerState, now: string): Processed {
    var (l', result) := Submit(p, l, item);
    match result
    case Failed(reason, retryable) =>
      var counted := item.(attempts := item.attempts + 1);
      Processed(if item.state == Queued then
                  counted.(state := if retryable then RetryableFailed else TerminalFailed, lastReason := Some(reason))
                else counted, l', false)
    case Accepted(receipt) =>
      if Submitted !in Transitions(item.state) then Processed(item, l', true) // TransitionError
      else
        var counted := item.(state := Submitted, lastReason := None, attempts := item.attempts + 1);
        var submitted := RecordReceipt(counted, receipt);
        Processed(if receipt.confirmed then ConfirmItem(submitted, receipt, now) else submitted, l', false)
  }

  function Process(p: Profile, maxAttempts: nat, item: OutboxItem, l: LedgerState, now: string): Processed {
    if item.state == RetryableFailed then
      if item.attempts >= maxAttempts then Processed(item.(state := TerminalFailed), l, false)
      else SubmitItem(p, item.(state := Queued, lastReason := None), l, now)
    else SubmitItem(p, item, l, now)
  }

  datatype Drained = Drained(items: seq<OutboxItem>, ledger: LedgerState, aborted: bool)

  // Every non-terminal entry once, in order, until one raises.
  function Drain(p: Profile, maxAttempts: nat, items: seq<OutboxItem>, l: LedgerState, now: string): Drained {
    if items == [] then Drained([], l, false)
    else
      var first := if Terminal(items[0].state) then Processed(items[0], l, false)
                   else Process(p, maxAttempts, items[0], l, now);
      if first.aborted then Drained([first.item] + items[1..], first.ledger, true)
      else
        var rest := Drain(p, maxAttempts, items[1..], first.ledger, now);
        Drained([first.item] + rest.items, rest.ledger, rest.aborted)
  }

  // ------------------------------------------------------------- reconcile

  // The entry after reconciliation, and whether the transition to confirmed raised.
  function ReconcileItem(item: OutboxItem, l: LedgerState, now: string): (OutboxItem, bool) {
    if Terminal(item.state) || item.evidenceId !in l.receipts then (item, false)
    else
      var receipt := l.receipts[item.evidenceId];
      var recorded := RecordReceipt(item, receipt);
      if !receipt.confirmed then (recorded, false)
      else if item.state == Created then (recorded, true)
      else (ConfirmItem(recorded, receipt, now), false)
  }

  function Reconcile(items: seq<OutboxItem>, l: LedgerState, now: string): (seq<OutboxItem>, bool) {
    if items == [] then ([], false)
    else
      var (first, aborted) := ReconcileItem(items[0], l, now);
      if aborted then ([first] + items[1..], true)
      else
        var (rest, aborted') := Reconcile(items[1..], l, now);
        ([first] + rest, aborted')
  }
}
