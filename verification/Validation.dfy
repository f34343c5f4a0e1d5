// The composition rule (validation.py): supplied mass fractions are summed within an
// observation set and never across sets.

module Validation {
  import opened Wrappers
  import opened Values
  import opened Projection
  import Decimals

  // One measurement occasion.
  datatype Occasion = Occasion(organisation: string, system: string, technique: string, observedAt: string)

  const COMPOSITION_TOLERANCE := 0.5

  function TextOr(o: Record, key: string, default: string): string {
    if key in o && o[key].Str? then o[key].str else default
  }

  function OccasionOf(o: Record): Occasion {
    Occasion(TextOr(o, "sourceOrganisationId", ""), TextOr(o, "sourceSystemId", ""), TextOr(o, "method", ""),
             TextOr(o, "observedAt", ""))
  }

  predicate SuppliedMass(o: Record) {
    StrOpt(o, "valueStatus") == Some("supplied") && StrOpt(o, "percentageBasis") == Some("mass")
  }

  function MassFraction(o: Record): real {
    if "percentage" in o && o["percentage"].Num? then
      o["percentage"].num.m as real / Decimals.TenTo(o["percentage"].num.k) as real
    else 0.0
  }

  // The types validate_schema has established, and the range of a percentage.
  predicate Conforms(o: Record) {
    && (forall key :: key in {"sourceOrganisationId", "sourceSystemId", "method", "observedAt"} && key in o ==>
          o[key].Str?)
    && ("percentage" in o ==> o["percentage"].Num? && 0.0 <= MassFraction(o) <= 100.0)
  }

  // record.get("materialObservations") or []
  function Observations(r: Record): (os: seq<Record>) {
    var items := ArrayAt(r, "materialObservations");
    seq(|items|, i requires 0 <= i < |items| => if items[i].Obj? then items[i].members else map[])
  }

  predicate RecordConforms(r: Record) {
    && ("materialObservations" in r && r["materialObservations"].Arr? ==>
          forall v :: v in r["materialObservations"].items ==> v.Obj?)
    && ("materialObservations" in r ==> r["materialObservations"].Arr? || r["materialObservations"] == Null)
    && forall o :: o in Observations(r) ==> Conforms(o)
  }

  // ---------------------------------------------------------- specification

  // The elements that satisfy p, in order.
  function Filter<T>(s: seq<T>, p: T -> bool): (r: seq<T>) {
    if s == [] then [] else Filter(s[..|s| - 1], p) + if p(s[|s| - 1]) then [s[|s| - 1]] else []
  }

  function SetOf(os: seq<Record>, occasion: Occasion): seq<Record> {
    Filter(os, At(occasion))
  }

  function At(occasion: Occasion): Record -> bool {
    (o: Record) => OccasionOf(o) == occasion
  }

  function Sum(os: seq<Record>): real {
    if os == [] then 0.0 else Sum(os[..|os| - 1]) + MassFraction(os[|os| - 1])
  }

  function Total(os: seq<Record>): real {
    Sum(Filter(os, SuppliedMass))
  }

  ghost predicate WithinTolerance(os: seq<Record>, occasion: Occasion) {
    Total(SetOf(os, occasion)) <= 100.0 + COMPOSITION_TOLERANCE
  }

  // Every observation set respects the limit.
  ghost predicate Composed(os: seq<Record>) {
    forall occasion :: WithinTolerance(os, occasion)
  }

  // --------------------------------------------------------------- methods

  // The occasions in the order in which they were first seen.
  function Occasions(os: seq<Record>): seq<Occasion> {
    if os == [] then []
    else
      var seen, key := Occasions(os[..|os| - 1]), OccasionOf(os[|os| - 1]);
      if key in seen then seen else seen + [key]
  }

  ghost predicate Groups(order: seq<Occasion>, members: map<Occasion, seq<Record>>, os: seq<Record>) {
    && order == Occasions(os) && (forall k :: k in members <==> k in order)
    && forall k :: SetOf(os, k) == if k in members then members[k] else []
  }

  method ObservationSets(r: Record) returns (order: seq<Occasion>, members: map<Occasion, seq<Record>>)
    requires RecordConforms(r)
    ensures order == Occasions(Observations(r)) && forall k :: k in members <==> k in order
    ensures forall k :: k in members ==> members[k] == SetOf(Observations(r), k)
  {
    hide RecordConforms, Observations, OccasionOf, SetOf, Occasions;
    var os := Observations(r);
    order, members := [], map[];
    EmptyGroups();
    for i := 0 to |os|
      invariant Groups(order, members, os[..i])
    {
      GroupsStep(order, members, os, i);
      var key := OccasionOf(os[i]);
      if key !in members {
        order, members := order + [key], members[key := []];
      }
      members := members[key := members[key] + [os[i]]];
    }
    assert os[..|os|] == os;
  }

  datatype Verdict = Accepted | Exceeds(occasion: Occasion, total: real)

  method CheckComposition(r: Record) returns (verdict: Verdict)
    requires RecordConforms(r)
    ensures verdict.Accepted? <==> Composed(Observations(r))
    ensures verdict.Exceeds? ==> ReportsFirst(Observations(r), verdict.occasion, verdict.total)
  {
    hide RecordConforms, Observations, OccasionOf, SetOf, Filter, Sum, SuppliedMass;
    var os := Observations(r);
    var order, members := ObservationSets(r);
    EmptyTotal();
    for n := 0 to |order|
      invariant forall k :: 0 <= k < n ==> WithinTolerance(os, order[k])
    {
      var supplied := FilterSupplied(members[order[n]]);
      if supplied == [] {
        continue;
      }
      var total := SumOf(supplied);
      if total > 100.0 + COMPOSITION_TOLERANCE {
        assert !WithinTolerance(os, order[n]);
        FailingIsFirst(os, n);
        return Exceeds(order[n], total);
      }
    }
    forall occasion ensures WithinTolerance(os, occasion) {
      if occasion in order {
        var n :| 0 <= n < |order| && order[n] == occasion;
      } else {
        OccasionsSeen(os);
        UnseenIsEmpty(os, occasion);
      }
    }
    return Accepted;
  }

  method FilterSupplied(os: seq<Record>) returns (supplied: seq<Record>)
    ensures supplied == Filter(os, SuppliedMass)
  {
    supplied := [];
    for i := 0 to |os|
      invariant supplied == Filter(os[..i], SuppliedMass)
    {
      assert os[..i + 1][..i] == os[..i];
      if SuppliedMass(os[i]) { supplied := supplied + [os[i]]; }
    }
    assert os[..|os|] == os;
  }

  method SumOf(os: seq<Record>) returns (total: real)
    ensures total == Sum(os)
  {
    total := 0.0;
    for i := 0 to |os|
      invariant total == Sum(os[..i])
    {
      assert os[..i + 1][..i] == os[..i];
      total := total + MassFraction(os[i]);
    }
    assert os[..|os|] == os;
  }

  // The set reported is over the limit, and every set seen before it is not.
  ghost predicate ReportsFirst(os: seq<Record>, occasion: Occasion, total: real) {
    && total == Total(SetOf(os, occasion)) && total > 100.0 + COMPOSITION_TOLERANCE
    && exists i :: 0 <= i < |os| && OccasionOf(os[i]) == occasion
                   && forall j :: 0 <= j < i ==> WithinTolerance(os, OccasionOf(os[j]))
  }

  // ------------------------------------------------------------ proof steps

  lemma SetsAfterOne(os: seq<Record>, o: Record)
    ensures forall k :: SetOf(os + [o], k) == SetOf(os, k) + if OccasionOf(o) == k then [o] else []
  {
    hide OccasionOf;
    assert (os + [o])[..|os|] == os;
  }

  lemma EmptyGroups()
    ensures Groups([], map[], [])
  {
  }

  lemma GroupsStep(order: seq<Occasion>, members: map<Occasion, seq<Record>>, os: seq<Record>, i: nat)
    requires i < |os| && Groups(order, members, os[..i])
    ensures var key := OccasionOf(os[i]); var was := if key in members then members[key] else [];
      Groups(if key in members then order else order + [key], members[key := was + [os[i]]], os[..i + 1])
  {
    hide OccasionOf, SetOf;
    assert os[..i + 1] == os[..i] + [os[i]];
    SetsAfterOne(os[..i], os[i]);
  }

  lemma {:induction false} OccasionsSeen(os: seq<Record>)
    ensures forall o :: o in os ==> OccasionOf(o) in Occasions(os)
  {
    hide OccasionOf;
    if os != [] {
      OccasionsSeen(os[..|os| - 1]);
      assert os == os[..|os| - 1] + [os[|os| - 1]];
    }
  }

  // When the n-th occasion was first seen, the n before it had been, and no other.
  lemma {:induction false} OccasionsInOrder(os: seq<Record>, n: nat) returns (i: nat)
    requires n < |Occasions(os)|
    ensures i < |os| && OccasionOf(os[i]) == Occasions(os)[n] && Occasions(os[..i]) == Occasions(os)[..n]
  {
    hide OccasionOf;
    var front := os[..|os| - 1];
    if n < |Occasions(front)| {
      i := OccasionsInOrder(front, n);
      assert os[..i] == front[..i];
    } else {
      i := |front|;
    }
  }

  lemma FailingIsFirst(os: seq<Record>, n: nat)
    requires n < |Occasions(os)|
    requires forall k :: 0 <= k < n ==> WithinTolerance(os, Occasions(os)[k])
    ensures exists i :: 0 <= i < |os| && OccasionOf(os[i]) == Occasions(os)[n]
                        && forall j :: 0 <= j < i ==> WithinTolerance(os, OccasionOf(os[j]))
  {
    hide OccasionOf, Occasions, WithinTolerance;
    var i := OccasionsInOrder(os, n);
    OccasionsSeen(os[..i]);
    forall j | 0 <= j < i ensures WithinTolerance(os, OccasionOf(os[j])) {
      assert os[..i][j] in os[..i];
      var k :| 0 <= k < n && Occasions(os)[..n][k] == OccasionOf(os[j]);
    }
  }

  lemma {:induction false} UnseenIsEmpty(os: seq<Record>, occasion: Occasion)
    requires forall o :: o in os ==> OccasionOf(o) != occasion
    ensures SetOf(os, occasion) == []
  {
    hide OccasionOf;
    if os != [] { UnseenIsEmpty(os[..|os| - 1], occasion); }
  }

  // -------------------------------------------------------------- partition

  lemma {:induction false} FilterCounts<T>(s: seq<T>, p: T -> bool, x: T)
    ensures multiset(Filter(s, p))[x] == if p(x) then multiset(s)[x] else 0
  {
    if s != [] {
      FilterCounts(s[..|s| - 1], p, x);
      assert s == s[..|s| - 1] + [s[|s| - 1]];
    }
  }

  lemma {:induction false} FilterConcat<T>(s: seq<T>, t: seq<T>, p: T -> bool)
    ensures Filter(s + t, p) == Filter(s, p) + Filter(t, p)
  {
    if t == [] {
      assert s + t == s;
    } else {
      assert (s + t)[..|s + t| - 1] == s + t[..|t| - 1];
      FilterConcat(s, t[..|t| - 1], p);
    }
  }

  // Each observation is in the set of its own occasion, as often as it was given, and in
  // no other; the observation at i precedes in its set those that come after it.
  lemma SetsPartition(os: seq<Record>, i: nat)
    requires i < |os|
    ensures var mine := OccasionOf(os[i]);
      && (forall k :: multiset(SetOf(os, k))[os[i]] == if k == mine then multiset(os)[os[i]] else 0)
      && SetOf(os, mine) == SetOf(os[..i], mine) + [os[i]] + SetOf(os[i + 1..], mine)
  {
    hide OccasionOf;
    forall k ensures multiset(SetOf(os, k))[os[i]] == if k == OccasionOf(os[i]) then multiset(os)[os[i]] else 0 {
      FilterCounts(os, At(k), os[i]);
    }
    var p := At(OccasionOf(os[i]));
    assert os == os[..i] + [os[i]] + os[i + 1..];
    FilterConcat(os[..i] + [os[i]], os[i + 1..], p);
    FilterConcat(os[..i], [os[i]], p);
    assert Filter([os[i]], p) == [os[i]];
  }

  // ------------------------------------------------------------ order of sums

  lemma {:induction false} SumConcat(s: seq<Record>, t: seq<Record>)
    ensures Sum(s + t) == Sum(s) + Sum(t)
  {
    if t == [] {
      assert s + t == s;
    } else {
      assert (s + t)[..|s + t| - 1] == s + t[..|t| - 1];
      SumConcat(s, t[..|t| - 1]);
    }
  }

  lemma SumAround(a: seq<Record>, x: Record, b: seq<Record>)
    ensures Sum(a + [x] + b) == Sum(a + b) + MassFraction(x)
  {
    hide MassFraction, Sum;
    SumConcat(a + [x], b);
    SumConcat(a, [x]);
    SumConcat(a, b);
    SumOne(x);
  }

  lemma SumOne(o: Record)
    ensures Sum([o]) == MassFraction(o)
  {
    hide MassFraction;
    assert [o][..0] == [];
  }

  lemma CountAround<T>(a: seq<T>, x: T, b: seq<T>)
    ensures multiset(a + [x] + b) == multiset(a + b) + multiset{x}
  {
  }

  lemma Cancel<T>(m: multiset<T>, n: multiset<T>, x: T)
    requires m + multiset{x} == n + multiset{x}
    ensures m == n
  {
    assert m == m + multiset{x} - multiset{x} && n == n + multiset{x} - multiset{x};
  }

  lemma TakeOut<T>(front: seq<T>, last: T, t: seq<T>) returns (a: seq<T>, b: seq<T>)
    requires multiset(front + [last]) == multiset(t)
    ensures t == a + [last] + b && multiset(front) == multiset(a + b)
  {
    assert last in multiset(front + [last]);
    assert last in t;
    var i :| 0 <= i < |t| && t[i] == last;
    a, b := t[..i], t[i + 1..];
    assert t == a + [last] + b;
    CountAround(a, last, b);
    CountAround(front, last, []);
    assert front + [last] + [] == front + [last] && front + [] == front;
    Cancel(multiset(front), multiset(a + b), last);
  }

  lemma {:induction false} SumIgnoresOrder(s: seq<Record>, t: seq<Record>)
    requires multiset(s) == multiset(t)
    ensures Sum(s) == Sum(t)
  {
    hide MassFraction;
    if s == [] {
      assert |multiset(t)| == 0;
    } else {
      var front, last := s[..|s| - 1], s[|s| - 1];
      assert s == front + [last];
      var a, b := TakeOut(front, last, t);
      SumIgnoresOrder(front, a + b);
      SumAround(a, last, b);
    }
  }

  lemma FilterIgnoresOrder<T(!new)>(s: seq<T>, t: seq<T>, p: T -> bool)
    requires multiset(s) == multiset(t)
    ensures multiset(Filter(s, p)) == multiset(Filter(t, p))
  {
    hide Filter;
    var kept, other := multiset(Filter(s, p)), multiset(Filter(t, p));
    forall x: T ensures kept[x] == other[x] {
      FilterCounts(s, p, x);
      FilterCounts(t, p, x);
    }
    assert kept == other;
  }

  // The verdict does not depend on the order of the observations.
  lemma OrderIrrelevant(os: seq<Record>, other: seq<Record>)
    requires multiset(os) == multiset(other)
    ensures forall occasion :: Total(SetOf(os, occasion)) == Total(SetOf(other, occasion))
    ensures Composed(os) <==> Composed(other)
  {
    hide OccasionOf, SuppliedMass, MassFraction, Sum;
    forall occasion ensures Total(SetOf(os, occasion)) == Total(SetOf(other, occasion)) {
      FilterIgnoresOrder(os, other, At(occasion));
      FilterIgnoresOrder(SetOf(os, occasion), SetOf(other, occasion), SuppliedMass);
      SumIgnoresOrder(Filter(SetOf(os, occasion), SuppliedMass), Filter(SetOf(other, occasion), SuppliedMass));
    }
    assert forall occasion :: WithinTolerance(os, occasion) == WithinTolerance(other, occasion);
  }

  // A second opinion: observations of occasions not seen before leave every earlier total
  // as it was, so the whole is accepted exactly when both parts are.
  lemma NewOccasionsIndependent(os: seq<Record>, more: seq<Record>)
    requires forall o, n :: o in os && n in more ==> OccasionOf(o) != OccasionOf(n)
    ensures forall o :: o in os ==> SetOf(os + more, OccasionOf(o)) == SetOf(os, OccasionOf(o))
    ensures Composed(os + more) <==> Composed(os) && Composed(more)
  {
    hide OccasionOf, Total;
    forall k
      ensures || (SetOf(os, k) == [] && SetOf(os + more, k) == SetOf(more, k))
              || (SetOf(more, k) == [] && SetOf(os + more, k) == SetOf(os, k))
    {
      FilterConcat(os, more, At(k));
      if o :| o in os && OccasionOf(o) == k {
        UnseenIsEmpty(more, k);
      } else {
        UnseenIsEmpty(os, k);
      }
    }
    forall o | o in os ensures SetOf(os + more, OccasionOf(o)) == SetOf(os, OccasionOf(o)) {
      UnseenIsEmpty(more, OccasionOf(o));
    }
    EmptyTotal();
    assert forall k :: WithinTolerance(os + more, k) <==> WithinTolerance(os, k) && WithinTolerance(more, k);
  }

  lemma EmptyTotal()
    ensures Sum([]) == 0.0 && Total([]) == 0.0
  {
  }

  lemma {:induction false} SumNotNegative(os: seq<Record>)
    requires forall o :: o in os ==> MassFraction(o) >= 0.0
    ensures Sum(os) >= 0.0
  {
    hide MassFraction;
    if os != [] {
      assert os == os[..|os| - 1] + [os[|os| - 1]];
      SumNotNegative(os[..|os| - 1]);
    }
  }

  lemma {:induction false} FilterMembers<T>(s: seq<T>, p: T -> bool, x: T)
    requires x in Filter(s, p)
    ensures x in s && p(x)
  {
    if s != [] {
      if x in Filter(s[..|s| - 1], p) { FilterMembers(s[..|s| - 1], p, x); }
    }
  }

  // Collections only grow, so a version that is accepted has only accepted predecessors.
  lemma PrefixComposed(os: seq<Record>, more: seq<Record>)
    requires (forall o :: o in more ==> Conforms(o)) && Composed(os + more)
    ensures Composed(os)
  {
    hide OccasionOf, SuppliedMass, MassFraction, Sum;
    forall k ensures WithinTolerance(os, k) {
      assert WithinTolerance(os + more, k);
      FilterConcat(os, more, At(k));
      FilterConcat(SetOf(os, k), SetOf(more, k), SuppliedMass);
      var extra := Filter(SetOf(more, k), SuppliedMass);
      SumConcat(Filter(SetOf(os, k), SuppliedMass), extra);
      forall o | o in extra ensures MassFraction(o) >= 0.0 {
        FilterMembers(SetOf(more, k), SuppliedMass, o);
        FilterMembers(more, At(k), o);
        ConformingMassFraction(o);
      }
      SumNotNegative(extra);
    }
  }

  lemma ConformingMassFraction(o: Record)
    requires Conforms(o)
    ensures MassFraction(o) >= 0.0
  {
  }

  // ------------------------------------------------------- what makes a set, and counts

  function Given(o: Record, key: string): string {
    if key in o && o[key].Str? then o[key].str else ""
  }

  // Two observations are of one set exactly when they agree on all four parts, absent and
  // empty counting the same.
  lemma OneSetIff(a: Record, b: Record)
    ensures OccasionOf(a) == OccasionOf(b)
            <==> forall key :: key in {"sourceOrganisationId", "sourceSystemId", "method", "observedAt"} ==>
                   Given(a, key) == Given(b, key)
  {
    var parts := {"sourceOrganisationId", "sourceSystemId", "method", "observedAt"};
    assert forall key :: key in parts ==> Given(a, key) == TextOr(a, key, "") && Given(b, key) == TextOr(b, key, "");
    assert "sourceOrganisationId" in parts && "sourceSystemId" in parts && "method" in parts && "observedAt" in parts;
  }

  // One more observation raises the total of its own set by its percentage when it is a
  // supplied mass fraction, and no total otherwise.
  lemma CountsWhenSupplied(os: seq<Record>, o: Record, occasion: Occasion)
    ensures Total(SetOf(os + [o], occasion))
            == Total(SetOf(os, occasion))
               + if OccasionOf(o) == occasion
                    && "valueStatus" in o && o["valueStatus"] == Str("supplied")
                    && "percentageBasis" in o && o["percentageBasis"] == Str("mass")
                    && "percentage" in o && o["percentage"].Num?
                 then o["percentage"].num.m as real / Decimals.TenTo(o["percentage"].num.k) as real else 0.0
    ensures WithinTolerance(os, occasion) <==> Total(SetOf(os, occasion)) <= 100.5
  {
    hide OccasionOf, Filter, SuppliedMass, MassFraction, Sum;
    SetsAfterOne(os, o);
    OneMoreCounted(SetOf(os, occasion), o);
    OneFraction(o);
    assert SetOf(os, occasion) + [] == SetOf(os, occasion);
  }

  lemma OneMoreCounted(os: seq<Record>, o: Record)
    ensures Total(os + [o]) == Total(os) + if SuppliedMass(o) then MassFraction(o) else 0.0
  {
    hide SuppliedMass, MassFraction;
    assert (os + [o])[..|os|] == os;
    var counted := Filter(os, SuppliedMass);
    assert (counted + [o])[..|counted|] == counted;
    assert counted + [] == counted;
  }

  lemma OneFraction(o: Record)
    ensures SuppliedMass(o) <==> "valueStatus" in o && o["valueStatus"] == Str("supplied")
                                 && "percentageBasis" in o && o["percentageBasis"] == Str("mass")
    ensures MassFraction(o) == if "percentage" in o && o["percentage"].Num? then
                                 o["percentage"].num.m as real / Decimals.TenTo(o["percentage"].num.k) as real
                               else 0.0
  {
  }
}
