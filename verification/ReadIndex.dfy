// The read index as an object beside the store (index.py), proved to compute the functions
// of IndexSpec.

module Index {
  import opened Wrappers
  import opened Values
  import opened Records
  import opened StoreSpec
  import opened IndexSpec
  import opened Store
  import Spec = IndexSpec

  class ReadIndex {
    const store: PassportStore
    var entries: map<string, IndexEntry>
    var caughtUpAtMs: real
    var lagMs: real
    var maxLagMs: Option<real>

    ghost function State(): IndexState
      reads this
    {
      IndexState(entries, caughtUpAtMs, lagMs, maxLagMs)
    }

    constructor (store: PassportStore, maxLagMs: Option<real>)
      ensures this.store == store && State() == IndexState(map[], 0.0, 0.0, maxLagMs)
    {
      this.store, this.maxLagMs := store, maxLagMs;
      entries, caughtUpAtMs, lagMs := map[], 0.0, 0.0;
    }

    method Project(record: Record, committedAtMs: real, generatedAtMs: real)
      requires Shaped(record)
      modifies this`entries, this`caughtUpAtMs
      ensures State() == Spec.Project(old(State()), record, committedAtMs, generatedAtMs)
    {
      var committed := if committedAtMs == 0.0 then generatedAtMs else committedAtMs;
      var entry := IndexEntry(Version(record), committed, generatedAtMs, Spec.SortingView(record));
      entries := entries[DppId(record) := entry];
      caughtUpAtMs := Max(caughtUpAtMs, committedAtMs);
    }

    method OnCommit(id: string, generatedAtMs: real)
      requires store.Valid() && id in store.records
      modifies this`entries, this`caughtUpAtMs
      ensures State() == Spec.OnCommit(old(State()), store.State(), id, generatedAtMs)
    {
      Project(store.records[id], store.lastCommitMs, generatedAtMs);
    }

    // Record by record, in whatever order the store yields them.
    method Attach(generatedAtMs: real)
      requires store.Valid()
      modifies this`entries, this`caughtUpAtMs
      ensures State() == Spec.Attach(old(State()), store.State(), generatedAtMs)
    {
      hide Shaped, DppId, Version, Spec.SortingView;
      var s := store.records;
      ghost var before, st := State(), store.State();
      var todo, done := s.Keys, {};
      assert before.entries + Projected(st, done, generatedAtMs) == before.entries;
      while todo != {}
        invariant todo + done == s.Keys && todo !! done
        invariant store.State() == st && lagMs == before.lagMs && maxLagMs == before.maxLagMs
        invariant entries == before.entries + Projected(st, done, generatedAtMs)
        invariant caughtUpAtMs == if done == {} then before.caughtUpAtMs else Max(before.caughtUpAtMs, st.lastCommitMs)
        decreases todo
      {
        var id :| id in todo;
        ProjectedStep(before.entries, st, done, id, generatedAtMs);
        Project(s[id], store.lastCommitMs, generatedAtMs);
        todo, done := todo - {id}, done + {id};
      }
      caughtUpAtMs := Max(caughtUpAtMs, store.lastCommitMs);
      assert done == st.records.Keys;
      ProjectedAll(st, generatedAtMs);
    }

    method BacklogMs() returns (backlog: real)
      ensures backlog == Spec.BacklogMs(State(), store.State())
    {
      backlog := Max(0.0, store.lastCommitMs - caughtUpAtMs);
    }

    method SortingView(id: string, strong: bool) returns (served: Served)
      requires store.Valid()
      ensures served == if strong then StrongView(store.State(), id) else ProjectedView(State(), store.State(), id)
    {
      if strong || id !in entries {
        var result := store.Get(id);
        if result.Err? {
          return Refused(result.fault);
        }
        return View(Stamped(Spec.SortingView(result.value), 0, "strong"));
      }
      var entry := entries[id];
      var backlog := BacklogMs();
      var lag := Max(0.0, entry.generatedAtMs - entry.committedAtMs) + backlog + lagMs;
      if maxLagMs.Some? && lag > maxLagMs.value {
        return Stale(lag);
      }
      return View(Stamped(entry.payload, Round(lag), "projected"));
    }
  }

  // ------------------------------------------------------------ proof steps

  // The entries of the passports already projected.
  function Projected(s: StoreState, done: set<string>, generatedAtMs: real): map<string, IndexEntry>
    requires AllShaped(s) && done <= s.records.Keys
  {
    map id | id in done ::
      IndexEntry(Version(s.records[id]), if s.lastCommitMs == 0.0 then generatedAtMs else s.lastCommitMs,
                 generatedAtMs, Spec.SortingView(s.records[id]))
  }

  lemma ProjectedStep(entries: map<string, IndexEntry>, s: StoreState, done: set<string>, id: string,
                      generatedAtMs: real)
    requires AllShaped(s) && done <= s.records.Keys && id in s.records
    ensures DppId(s.records[id]) == id
    ensures entries + Projected(s, done + {id}, generatedAtMs)
            == (entries + Projected(s, done, generatedAtMs))[id := Projected(s, {id}, generatedAtMs)[id]]
  {
    hide Shaped, Version, Spec.SortingView;
  }

  lemma ProjectedAll(s: StoreState, generatedAtMs: real)
    requires AllShaped(s)
    ensures Projected(s, s.records.Keys, generatedAtMs)
            == map id | id in s.records ::
                 IndexEntry(Version(s.records[id]), if s.lastCommitMs == 0.0 then generatedAtMs else s.lastCommitMs,
                            generatedAtMs, Spec.SortingView(s.records[id]))
  {
    hide Shaped, Version, Spec.SortingView;
  }
}
