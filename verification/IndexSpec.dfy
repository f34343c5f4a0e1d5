// The read index (index.py): a projection of each record, kept by the commit hook.

module IndexSpec {
  import opened Wrappers
  import opened Values
  import opened Projection
  import opened Records
  import opened StoreSpec

  datatype IndexEntry = IndexEntry(recordVersion: int, committedAtMs: real, generatedAtMs: real, payload: Record)

  datatype IndexState = IndexState(
    entries: map<string, IndexEntry>,
    caughtUpAtMs: real,
    lagMs: real,
    maxLagMs: Option<real>
  )

  const PRODUCT_VIEW: set<string> :=
    {"articleClass", "fabricConstruction", "colourPrimary", "condition", "technicalFlags"}
  const OBSERVATION_VIEW: set<string> :=
    {"observationId", "fibreType", "percentage", "percentageBasis", "valueStatus", "method", "confidence"}

  function Max(a: real, b: real): real { if a < b then b else a }

  // The listed members that are present, null or not.
  function Select(r: Record, keys: set<string>): Record {
    map k | k in keys && k in r :: r[k]
  }

  function SelectItems(items: seq<Value>): seq<Value> {
    seq(|items|, i requires 0 <= i < |items| => Obj(Select(ItemMembers(items[i]), OBSERVATION_VIEW)))
  }

  // The minimum a sorting decision consumes.
  function SortingView(r: Record): Record
    requires Shaped(r)
  {
    var decisions := ArrayAt(r, "sortingDecisions");
    map["dppId" := r["dppId"],
        "recordVersion" := r["recordVersion"],
        "generatedAt" := r["updatedAt"],
        "product" := Obj(Select(ObjectAt(r, "product"), PRODUCT_VIEW)),
        "materialSummary" := Arr(SelectItems(ArrayAt(r, "materialObservations"))),
        "priorDecision" := if decisions == [] then Null else decisions[|decisions| - 1]]
  }

  // _project
  function Project(ix: IndexState, r: Record, committedAtMs: real, generatedAtMs: real): IndexState
    requires Shaped(r)
  {
    var committed := if committedAtMs == 0.0 then generatedAtMs else committedAtMs;
    ix.(entries := ix.entries[DppId(r) := IndexEntry(Version(r), committed, generatedAtMs, SortingView(r))],
        caughtUpAtMs := Max(ix.caughtUpAtMs, committedAtMs))
  }

  // _on_commit
  function OnCommit(ix: IndexState, s: StoreState, id: string, generatedAtMs: real): IndexState
    requires id in s.records && Shaped(s.records[id])
  {
    Project(ix, s.records[id], s.lastCommitMs, generatedAtMs)
  }

  // attach: every record is projected afresh.
  function Attach(ix: IndexState, s: StoreState, generatedAtMs: real): IndexState
    requires AllShaped(s)
  {
    var committed := if s.lastCommitMs == 0.0 then generatedAtMs else s.lastCommitMs;
    ix.(entries := ix.entries + map id | id in s.records ::
          IndexEntry(Version(s.records[id]), committed, generatedAtMs, SortingView(s.records[id])),
        caughtUpAtMs := Max(ix.caughtUpAtMs, s.lastCommitMs))
  }

  function BacklogMs(ix: IndexState, s: StoreState): real {
    Max(0.0, s.lastCommitMs - ix.caughtUpAtMs)
  }

  function LagMs(ix: IndexState, s: StoreState, entry: IndexEntry): real {
    Max(0.0, entry.generatedAtMs - entry.committedAtMs) + BacklogMs(ix, s) + ix.lagMs
  }

  // Python's round: to the nearest integer, halves to the even one.
  function Round(x: real): int {
    var f := x.Floor;
    var rest := x - f as real;
    if rest < 0.5 || (rest == 0.5 && f % 2 == 0) then f else f + 1
  }

  function Stamped(view: Record, lag: int, consistency: string): Record {
    view["indexLagMs" := IntVal(lag)]["consistency" := Str(consistency)]
  }

  datatype Served = View(view: Record) | Refused(fault: Fault) | Stale(lagMs: real)

  function StrongView(s: StoreState, id: string): Served
    requires AllShaped(s)
  {
    match Get(s, id)
    case Ok(r) => View(Stamped(SortingView(r), 0, "strong"))
    case Err(fault) => Refused(fault)
  }

  function ProjectedView(ix: IndexState, s: StoreState, id: string): Served
    requires AllShaped(s)
  {
    if id !in ix.entries then StrongView(s, id)
    else
      var lag := LagMs(ix, s, ix.entries[id]);
      if ix.maxLagMs.Some? && lag > ix.maxLagMs.value then Stale(lag)
      else View(Stamped(ix.entries[id].payload, Round(lag), "projected"))
  }

  // -------------------------------------------------------------- refinement

  // The index shows every record as it is now, and has caught up with the last commit.
  ghost predicate Current(s: StoreState, ix: IndexState)
    requires AllShaped(s)
  {
    && ix.entries.Keys == s.records.Keys
    && (forall id :: id in s.records ==>
          ix.entries[id].payload == SortingView(s.records[id])
          && ix.entries[id].recordVersion == Version(s.records[id]))
    && ix.caughtUpAtMs >= s.lastCommitMs
  }

  lemma AttachIsCurrent(ix: IndexState, s: StoreState, generatedAtMs: real)
    requires AllShaped(s) && ix.entries.Keys <= s.records.Keys
    ensures Current(s, Attach(ix, s, generatedAtMs))
  {
    hide Shaped, SortingView;
  }

  lemma CommitKeepsCurrent(s: StoreState, t: StoreState, ix: IndexState, id: string, generatedAtMs: real)
    requires AllShaped(s) && AllShaped(t) && Current(s, ix)
    requires id in t.records && t.records == s.records[id := t.records[id]]
    ensures Current(t, OnCommit(ix, t, id, generatedAtMs))
  {
    hide Shaped, SortingView;
  }

  // Without its two stamps, a served view.
  function Content(view: Record): Record {
    view - {"indexLagMs", "consistency"}
  }

  lemma StampedContent(view: Record, lag: int, consistency: string)
    requires "indexLagMs" !in view && "consistency" !in view
    ensures Content(Stamped(view, lag, consistency)) == view
  {
  }

  lemma ViewHasNoStamps(r: Record)
    requires Shaped(r)
    ensures "indexLagMs" !in SortingView(r) && "consistency" !in SortingView(r)
  {
    hide Shaped;
  }

  // While current, the index carries no backlog, a projected read of any passport that is
  // not retired shows what a strong read shows, and a retired passport is the one case in
  // which the projected read answers and the strong read does not.
  lemma ProjectedReadIsStrong(s: StoreState, ix: IndexState, id: string)
    requires AllShaped(s) && Current(s, ix)
    ensures BacklogMs(ix, s) == 0.0
    ensures id !in s.records ==> ProjectedView(ix, s, id) == StrongView(s, id) == Refused(NotFound)
    ensures id in s.records && ProjectedView(ix, s, id).View? ==>
              && Content(ProjectedView(ix, s, id).view) == SortingView(s.records[id])
              && (StrongView(s, id).View? <==> s.records[id]["status"] != Str("retired"))
              && (StrongView(s, id).View? ==>
                    Content(StrongView(s, id).view) == Content(ProjectedView(ix, s, id).view))
    ensures id in s.records ==>
              (ProjectedView(ix, s, id).Stale?
               <==> ix.maxLagMs.Some?
                    && Max(0.0, ix.entries[id].generatedAtMs - ix.entries[id].committedAtMs) + ix.lagMs
                       > ix.maxLagMs.value)
  {
    hide Shaped, SortingView, Stamped, Content;
    if id in s.records {
      var view := SortingView(s.records[id]);
      ViewHasNoStamps(s.records[id]);
      StampedContent(view, 0, "strong");
      StampedContent(view, Round(LagMs(ix, s, ix.entries[id])), "projected");
    }
  }

  // ------------------------------------------------------------ what is shown

  // The object has the other's members of these names, null or not, and no more.
  ghost predicate Shows(view: Record, r: Record, names: set<string>) {
    view.Keys == r.Keys * names && forall k :: k in view ==> view[k] == r[k]
  }

  ghost predicate IsView(view: Record, r: Record, lag: int, consistency: string)
    requires Shaped(r)
  {
    && view.Keys == {"dppId", "recordVersion", "generatedAt", "product", "materialSummary", "priorDecision",
                     "indexLagMs", "consistency"}
    && view["dppId"] == r["dppId"] && view["recordVersion"] == r["recordVersion"]
    && view["generatedAt"] == r["updatedAt"]
    && view["product"].Obj?
    && Shows(view["product"].members, ObjectAt(r, "product"),
             {"articleClass", "fabricConstruction", "colourPrimary", "condition", "technicalFlags"})
    && (var had := ArrayAt(r, "materialObservations");
        && view["materialSummary"].Arr? && |view["materialSummary"].items| == |had|
        && forall i :: 0 <= i < |had| ==>
             && view["materialSummary"].items[i].Obj?
             && Shows(view["materialSummary"].items[i].members, ItemMembers(had[i]),
                      {"observationId", "fibreType", "percentage", "percentageBasis", "valueStatus", "method",
                       "confidence"}))
    && (var decisions := ArrayAt(r, "sortingDecisions");
        view["priorDecision"] == if |decisions| == 0 then Null else decisions[|decisions| - 1])
    && view["indexLagMs"] == IntVal(lag) && view["consistency"] == Str(consistency)
  }

  lemma SelectShows(r: Record, names: set<string>)
    ensures Shows(Select(r, names), r, names)
  {
  }

  lemma StampedIsView(r: Record, lag: int, consistency: string)
    requires Shaped(r)
    ensures IsView(Stamped(SortingView(r), lag, consistency), r, lag, consistency)
  {
    ViewMembers(r);
    hide Shaped, SortingView, Shows;
  }

  lemma ViewMembers(r: Record)
    requires Shaped(r)
    ensures var view := SortingView(r);
      && view.Keys == {"dppId", "recordVersion", "generatedAt", "product", "materialSummary", "priorDecision"}
      && view["dppId"] == r["dppId"] && view["recordVersion"] == r["recordVersion"]
      && view["generatedAt"] == r["updatedAt"]
      && view["product"].Obj? && Shows(view["product"].members, ObjectAt(r, "product"), PRODUCT_VIEW)
      && view["materialSummary"] == Arr(SelectItems(ArrayAt(r, "materialObservations")))
      && (forall i :: 0 <= i < |ArrayAt(r, "materialObservations")| ==>
            Shows(Select(ItemMembers(ArrayAt(r, "materialObservations")[i]), OBSERVATION_VIEW),
                  ItemMembers(ArrayAt(r, "materialObservations")[i]), OBSERVATION_VIEW))
      && (var decisions := ArrayAt(r, "sortingDecisions");
          view["priorDecision"] == if |decisions| == 0 then Null else decisions[|decisions| - 1])
  {
    ViewSources(r);
    hide Shaped, Shows, Select, PRODUCT_VIEW, OBSERVATION_VIEW;
    SelectShows(ObjectAt(r, "product"), PRODUCT_VIEW);
    forall i | 0 <= i < |ArrayAt(r, "materialObservations")|
      ensures Shows(Select(ItemMembers(ArrayAt(r, "materialObservations")[i]), OBSERVATION_VIEW),
                    ItemMembers(ArrayAt(r, "materialObservations")[i]), OBSERVATION_VIEW)
    {
      SelectShows(ItemMembers(ArrayAt(r, "materialObservations")[i]), OBSERVATION_VIEW);
    }
  }

  lemma ViewSources(r: Record)
    requires Shaped(r)
    ensures "dppId" in r && "recordVersion" in r && "updatedAt" in r
  {
  }

  // A strong read shows exactly this of the current record, the last decision as the prior
  // one, with no lag; and while current a projected read does, with the lag it has.
  lemma ReadsShow(s: StoreState, ix: IndexState, id: string)
    requires AllShaped(s) && Current(s, ix) && id in s.records
    ensures StrongView(s, id).View? ==> IsView(StrongView(s, id).view, s.records[id], 0, "strong")
    ensures ProjectedView(ix, s, id).View? ==>
              var entry := ix.entries[id];
              IsView(ProjectedView(ix, s, id).view, s.records[id],
                     Round((if entry.committedAtMs < entry.generatedAtMs then entry.generatedAtMs - entry.committedAtMs
                            else 0.0) + ix.lagMs), "projected")
  {
    hide Shaped, SortingView, Stamped, IsView, Round;
    StampedIsView(s.records[id], 0, "strong");
    StampedIsView(s.records[id], Round(LagMs(ix, s, ix.entries[id])), "projected");
    ProjectedReadIsStrong(s, ix, id);
  }

  // The hook records when the version was committed and when it was projected; nothing is
  // known of other passports, and the index has caught up to that commit.
  lemma CommitTimes(ix: IndexState, s: StoreState, id: string, generatedAtMs: real)
    requires AllShaped(s) && id in s.records
    ensures var after := OnCommit(ix, s, id, generatedAtMs);
      && id in after.entries && after.entries[id].generatedAtMs == generatedAtMs
      && after.entries[id].committedAtMs == (if s.lastCommitMs == 0.0 then generatedAtMs else s.lastCommitMs)
      && after.caughtUpAtMs >= s.lastCommitMs && after.caughtUpAtMs >= ix.caughtUpAtMs
      && after.caughtUpAtMs in {s.lastCommitMs, ix.caughtUpAtMs}
      && after.lagMs == ix.lagMs && after.maxLagMs == ix.maxLagMs
      && after.entries.Keys == ix.entries.Keys + {id}
      && forall x :: x in ix.entries && x != id ==> after.entries[x] == ix.entries[x]
  {
    hide Shaped, SortingView;
  }
}
