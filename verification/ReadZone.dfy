// Read-zone controls applied before any sorting command (gateway/readzone.py): duplicate
// suppression over whole runs, for any clock.

module ReadZones {
  import opened Wrappers

  // A tag seen in a read window; the identifier is None when it is absent or not a string.
  datatype Read = Read(epc: Option<string>, rssiDbm: Option<real>)

  datatype Outcome =
    | Accepted(epc: string)
    | Unknown                       // S4C-IDENT-UNKNOWN
    | Ambiguous                     // S4C-IDENT-AMBIGUOUS
    | Malformed(given: Option<string>)
    | WeakSignal(epc: string)
    | SuppressedDuplicate(epc: string)

  datatype Controls = Controls(
    windowMs: real,
    weakDbm: real,
    wellFormed: string -> bool      // EPC_PATTERN
  )

  // One call: the tags in the window and what the clock would show.
  datatype Call = Call(tags: seq<Read>, nowMs: real)

  // The one well-formed tag, received strongly enough, that a call is about.
  function Clear(c: Controls, call: Call): Option<string> {
    if |call.tags| != 1 then None
    else
      var epc :- call.tags[0].epc;
      if !c.wellFormed(epc) then None
      else if call.tags[0].rssiDbm.Some? && call.tags[0].rssiDbm.value < c.weakDbm then None
      else Some(epc)
  }

  // Why a call without such a tag is refused.
  function Refusal(c: Controls, call: Call): Outcome {
    if call.tags == [] then Unknown
    else if |call.tags| > 1 then Ambiguous
    else
      match call.tags[0].epc
      case None => Malformed(None)
      case Some(epc) => if !c.wellFormed(epc) then Malformed(Some(epc)) else WeakSignal(epc)
  }

  // ------------------------------------------------------------- whole runs

  // Does a run of calls end with an accepted read of epc? Decided from the last accepted
  // read of that tag alone.
  ghost predicate EndsAccepted(c: Controls, run: seq<Call>, epc: string)
    decreases |run|, 0
  {
    && run != [] && Clear(c, run[|run| - 1]) == Some(epc)
    && var previous := LastAccepted(c, run[..|run| - 1], epc);
       previous.Some? ==> run[|run| - 1].nowMs - previous.value >= c.windowMs
  }

  // When epc was last accepted.
  ghost function LastAccepted(c: Controls, run: seq<Call>, epc: string): Option<real>
    decreases |run|, 1
  {
    if run == [] then None
    else if EndsAccepted(c, run, epc) then Some(run[|run| - 1].nowMs)
    else LastAccepted(c, run[..|run| - 1], epc)
  }

  ghost predicate AcceptedAt(c: Controls, run: seq<Call>, i: nat, epc: string)
    requires i < |run|
  {
    EndsAccepted(c, run[..i + 1], epc)
  }

  ghost function Count(c: Controls, run: seq<Call>, epc: string): nat {
    if run == [] then 0 else Count(c, run[..|run| - 1], epc) + if EndsAccepted(c, run, epc) then 1 else 0
  }

  // What a call that ends a run must answer.
  ghost function Expected(c: Controls, run: seq<Call>): Outcome
    requires run != []
  {
    match Clear(c, run[|run| - 1])
    case None => Refusal(c, run[|run| - 1])
    case Some(epc) => if EndsAccepted(c, run, epc) then Accepted(epc) else SuppressedDuplicate(epc)
  }

  class ReadZone {
    const controls: Controls
    var lastSeen: map<string, real>
    ghost var calls: seq<Call>

    // The memory holds, for every tag, when it was last accepted, and nothing else.
    ghost predicate Valid()
      reads this
    {
      forall epc :: LastAccepted(controls, calls, epc) == if epc in lastSeen then Some(lastSeen[epc]) else None
    }

    constructor (controls: Controls)
      ensures Valid() && calls == [] && this.controls == controls
    {
      this.controls := controls;
      lastSeen, calls := map[], [];
    }

    method Evaluate(tags: seq<Read>, nowMs: real) returns (outcome: Outcome)
      requires Valid()
      modifies this
      ensures Valid() && calls == old(calls) + [Call(tags, nowMs)]
      ensures outcome == Expected(controls, calls)
    {
      ghost var before := calls;
      calls := calls + [Call(tags, nowMs)];
      assert calls[..|calls| - 1] == before;
      if tags == [] {
        return Unknown;
      }
      if |tags| > 1 {
        return Ambiguous;
      }
      var read := tags[0];
      if read.epc.None? || !controls.wellFormed(read.epc.value) {
        return Malformed(read.epc);
      }
      var epc := read.epc.value;
      if read.rssiDbm.Some? && read.rssiDbm.value < controls.weakDbm {
        return WeakSignal(epc);
      }
      if epc in lastSeen && nowMs - lastSeen[epc] < controls.windowMs {
        return SuppressedDuplicate(epc);
      }
      lastSeen := lastSeen[epc := nowMs];
      return Accepted(epc);
    }
  }

  // -------------------------------------------------------------- properties

  lemma {:induction false} LastAcceptedIs(c: Controls, run: seq<Call>, epc: string) returns (i: nat)
    requires LastAccepted(c, run, epc).Some?
    ensures i < |run| && AcceptedAt(c, run, i, epc) && LastAccepted(c, run, epc).value == run[i].nowMs
    ensures Count(c, run, epc) == Count(c, run[..i + 1], epc)
  {
    if EndsAccepted(c, run, epc) {
      i := |run| - 1;
      assert run[..i + 1] == run;
    } else {
      var front := run[..|run| - 1];
      i := LastAcceptedIs(c, front, epc);
      assert front[..i + 1] == run[..i + 1];
    }
  }

  // n suppression windows, end to end.
  function Windows(n: int, windowMs: real): real {
    n as real * windowMs
  }

  // However the clock moves, n further accepted reads of a tag take at least n windows.
  lemma {:induction false} Spaced(c: Controls, run: seq<Call>, i: nat, j: nat, epc: string)
    requires i <= j < |run| && AcceptedAt(c, run, i, epc) && AcceptedAt(c, run, j, epc)
    ensures run[j].nowMs - run[i].nowMs
            >= Windows(Count(c, run[..j + 1], epc) - Count(c, run[..i + 1], epc), c.windowMs)
    decreases j
  {
    OneMoreWindow(c.windowMs);
    hide Windows, LastAccepted;
    if i < j {
      var upto, front := run[..j + 1], run[..j];
      assert upto[..|upto| - 1] == front;
      assert front[..i + 1] == run[..i + 1];
      AcceptedIsRemembered(c, front, i, epc);
      var k := LastAcceptedIs(c, front, epc);
      assert front[..k + 1] == run[..k + 1];
      LatestIsLast(c, front, i, k, epc);
      Spaced(c, run, i, k, epc);
    }
  }

  lemma OneMoreWindow(windowMs: real)
    ensures Windows(0, windowMs) == 0.0
    ensures forall n :: Windows(n + 1, windowMs) == Windows(n, windowMs) + windowMs
  {
    forall n ensures Windows(n + 1, windowMs) == Windows(n, windowMs) + windowMs {
      assert (n + 1) as real == n as real + 1.0;
    }
  }

  lemma {:induction false} AcceptedIsRemembered(c: Controls, run: seq<Call>, i: nat, epc: string)
    requires i < |run| && AcceptedAt(c, run, i, epc)
    ensures LastAccepted(c, run, epc).Some?
  {
    if i + 1 == |run| {
      assert run[..i + 1] == run;
    } else {
      var front := run[..|run| - 1];
      assert front[..i + 1] == run[..i + 1];
      AcceptedIsRemembered(c, front, i, epc);
    }
  }

  lemma {:induction false} CountGrows(c: Controls, run: seq<Call>, i: nat, epc: string)
    requires i <= |run|
    ensures Count(c, run[..i], epc) <= Count(c, run, epc)
  {
    if i == |run| {
      assert run[..i] == run;
    } else {
      assert run[..|run| - 1][..i] == run[..i];
      CountGrows(c, run[..|run| - 1], i, epc);
    }
  }

  // No accepted read lies beyond the last one.
  lemma LatestIsLast(c: Controls, run: seq<Call>, i: nat, k: nat, epc: string)
    requires i < |run| && k < |run| && AcceptedAt(c, run, i, epc)
    requires Count(c, run, epc) == Count(c, run[..k + 1], epc)
    ensures i <= k
  {
    if k < i {
      assert run[..i + 1][..|run[..i + 1]| - 1] == run[..i];
      assert run[..i][..k + 1] == run[..k + 1];
      CountGrows(c, run[..i], k + 1, epc);
      CountGrows(c, run, i + 1, epc);
      assert false;
    }
  }

  // The accepted reads of a tag among the calls from lo on, when no two of them are more
  // than `span` apart, are so few that the windows between them fit into the span.
  lemma AcceptedInSpan(c: Controls, run: seq<Call>, lo: nat, span: real, epc: string)
    requires c.windowMs >= 0.0 && span >= 0.0 && lo <= |run|
    requires forall i, j :: lo <= i <= j < |run| && AcceptedAt(c, run, i, epc) && AcceptedAt(c, run, j, epc) ==>
               run[j].nowMs - run[i].nowMs <= span
    ensures Windows(Count(c, run, epc) - Count(c, run[..lo], epc) - 1, c.windowMs) <= span
  {
    CountGrows(c, run, lo, epc);
    if Count(c, run, epc) > Count(c, run[..lo], epc) {
      hide Windows, AcceptedAt, Count;
      var i := FirstAccepted(c, run, lo, epc);
      AcceptedIsRemembered(c, run, i, epc);
      var j := LastAcceptedIs(c, run, epc);
      LatestIsLast(c, run, i, j, epc);
      Spaced(c, run, i, j, epc);
    }
  }

  lemma {:induction false} FirstAccepted(c: Controls, run: seq<Call>, lo: nat, epc: string) returns (i: nat)
    requires lo <= |run| && Count(c, run, epc) > Count(c, run[..lo], epc)
    ensures lo <= i < |run| && AcceptedAt(c, run, i, epc)
    ensures Count(c, run[..i + 1], epc) == Count(c, run[..lo], epc) + 1
  {
    var front := run[..|run| - 1];
    assert run[..|run|] == run;
    assert front[..lo] == run[..lo];
    if Count(c, front, epc) > Count(c, run[..lo], epc) {
      i := FirstAccepted(c, front, lo, epc);
      assert front[..i + 1] == run[..i + 1];
    } else {
      CountGrows(c, front, lo, epc);
      i := |run| - 1;
      assert run[..i + 1] == run;
    }
  }

  // ------------------------------------------------------------ other tags

  // The calls about one tag.
  ghost function About(c: Controls, run: seq<Call>, epc: string): seq<Call> {
    if run == [] then []
    else About(c, run[..|run| - 1], epc) + if Clear(c, run[|run| - 1]) == Some(epc) then [run[|run| - 1]] else []
  }

  // What other tags do, and calls that are refused, never change when a tag was last
  // accepted, nor how often.
  lemma {:induction false} OthersDoNotInterfere(c: Controls, run: seq<Call>, epc: string)
    ensures LastAccepted(c, About(c, run, epc), epc) == LastAccepted(c, run, epc)
    ensures Count(c, About(c, run, epc), epc) == Count(c, run, epc)
    ensures run != [] && Clear(c, run[|run| - 1]) == Some(epc) ==>
              EndsAccepted(c, About(c, run, epc), epc) == EndsAccepted(c, run, epc)
  {
    if run != [] {
      var front, mine := run[..|run| - 1], About(c, run, epc);
      OthersDoNotInterfere(c, front, epc);
      if Clear(c, run[|run| - 1]) == Some(epc) {
        assert mine[..|mine| - 1] == About(c, front, epc);
      } else {
        assert mine == About(c, front, epc);
      }
    }
  }

  // --------------------------------------------------------- what is answered

  // The checks in their order: no tag, several, no well-formed identifier, a signal below the
  // threshold, a repeat within the window of when the tag was last accepted.
  lemma AnswerIs(c: Controls, run: seq<Call>)
    requires run != []
    ensures var call, answer := run[|run| - 1], Expected(c, run);
      if |call.tags| == 0 then answer == Unknown
      else if |call.tags| > 1 then answer == Ambiguous
      else
        var tag := call.tags[0];
        if tag.epc == None then answer == Malformed(None)
        else if !c.wellFormed(tag.epc.value) then answer == Malformed(tag.epc)
        else if tag.rssiDbm.Some? && tag.rssiDbm.value < c.weakDbm then answer == WeakSignal(tag.epc.value)
        else if Repeats(c, run, tag.epc.value) then answer == SuppressedDuplicate(tag.epc.value)
        else answer == Accepted(tag.epc.value)
  {
    hide EndsAccepted;
    var call := run[|run| - 1];
    if |call.tags| == 1 && call.tags[0].epc.Some? && Clear(c, call) == call.tags[0].epc {
      RepeatIs(c, run, call.tags[0].epc.value);
    }
  }

  // The latest accepted read of the tag lies less than a window back.
  ghost predicate Repeats(c: Controls, run: seq<Call>, epc: string)
    requires run != []
  {
    exists i :: 0 <= i < |run| - 1 && AnsweredAt(c, run, i, epc)
                && (forall j :: i < j < |run| - 1 ==> !AnsweredAt(c, run, j, epc))
                && run[|run| - 1].nowMs - run[i].nowMs < c.windowMs
  }

  // The i-th call was answered by accepting the tag.
  ghost predicate AnsweredAt(c: Controls, run: seq<Call>, i: nat, epc: string)
    requires i < |run|
  {
    Expected(c, run[..i + 1]) == Accepted(epc)
  }

  lemma AcceptedIs(c: Controls, run: seq<Call>, epc: string)
    requires run != []
    ensures Expected(c, run) == Accepted(epc) <==> EndsAccepted(c, run, epc)
  {
  }

  lemma RepeatIs(c: Controls, run: seq<Call>, epc: string)
    requires run != [] && Clear(c, run[|run| - 1]) == Some(epc)
    ensures Repeats(c, run, epc) <==> !EndsAccepted(c, run, epc)
  {
    hide Expected, Clear, LastAccepted, AcceptedAt;
    var n, front := |run| - 1, run[..|run| - 1];
    forall i | 0 <= i < n ensures AnsweredAt(c, run, i, epc) <==> AcceptedAt(c, front, i, epc) {
      SameAnswer(c, run, i, epc);
    }
    hide AnsweredAt;
    if LastAccepted(c, front, epc).Some? {
      var i := LatestAccepted(c, front, epc);
      assert AnsweredAt(c, run, i, epc);
    } else {
      forall i | 0 <= i < n ensures !AnsweredAt(c, run, i, epc) {
        if AcceptedAt(c, front, i, epc) { AcceptedIsRemembered(c, front, i, epc); }
      }
    }
  }

  lemma SameAnswer(c: Controls, run: seq<Call>, i: nat, epc: string)
    requires i < |run| - 1
    ensures AnsweredAt(c, run, i, epc) <==> AcceptedAt(c, run[..|run| - 1], i, epc)
  {
    hide Expected, EndsAccepted;
    assert run[..|run| - 1][..i + 1] == run[..i + 1];
    AcceptedIs(c, run[..i + 1], epc);
  }

  lemma {:induction false} LatestAccepted(c: Controls, run: seq<Call>, epc: string) returns (i: nat)
    requires LastAccepted(c, run, epc).Some?
    ensures i < |run| && AcceptedAt(c, run, i, epc) && LastAccepted(c, run, epc).value == run[i].nowMs
    ensures forall j :: i < j < |run| ==> !AcceptedAt(c, run, j, epc)
  {
    if EndsAccepted(c, run, epc) {
      i := |run| - 1;
      assert run[..i + 1] == run;
    } else {
      var front := run[..|run| - 1];
      i := LatestAccepted(c, front, epc);
      assert front[..i + 1] == run[..i + 1];
      forall j | i < j < |run| ensures !AcceptedAt(c, run, j, epc) {
        if j < |front| {
          assert front[..j + 1] == run[..j + 1] && !AcceptedAt(c, front, j, epc);
        } else {
          assert run[..j + 1] == run;
        }
      }
    }
  }
}
