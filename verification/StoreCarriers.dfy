// Carrier bindings: when an identifier stays with its passport, when the index agrees with
// the records, and when every open binding can be found.

module StoreCarriers {
  import opened Wrappers
  import opened Values
  import opened Projection
  import opened Records
  import opened StoreSpec
  import opened StoreHistory
  import opened StoreSteps

  // ------------------------------------------------------------- invariants

  // The passport an identifier belongs to, now or once.
  function Owner(s: StoreState, e: string): Option<string> {
    if e in s.index then Some(s.index[e]) else if e in s.retired then Some(s.retired[e]) else None
  }

  ghost predicate MapsAgree(s: StoreState) {
    && (forall e :: e in s.index && e in s.retired ==> s.index[e] == s.retired[e])
    && (forall e :: e in s.index ==> s.index[e] in s.records)
    && (forall e :: e in s.retired ==> s.retired[e] in s.records)
  }

  // The bindings of one passport: all its own, and only the last one open.
  ghost predicate Bindings(s: StoreState, id: string, cs: seq<Value>) {
    && (forall i :: 0 <= i < |cs| ==> IsCarrier(cs[i]) && Owner(s, Encoded(cs[i])) == Some(id))
    && (forall i :: 0 <= i < |cs| - 1 ==> !Commissioned(cs[i]))
  }

  ghost predicate OpenBinding(cs: seq<Value>, e: string) {
    cs != [] && IsCarrier(cs[|cs| - 1]) && Commissioned(cs[|cs| - 1]) && Encoded(cs[|cs| - 1]) == e
  }

  ghost predicate CarrierInv(s: StoreState) {
    && MapsAgree(s)
    && (forall id :: id in s.records ==> Bindings(s, id, Carriers(s.records[id])))
    && (forall e :: e in s.index ==> OpenBinding(Carriers(s.records[s.index[e]]), e))
  }

  // One of these carriers is commissioned and encodes the identifier.
  ghost predicate Carries(cs: seq<Value>, e: string) {
    exists i :: 0 <= i < |cs| && IsCarrier(cs[i]) && Commissioned(cs[i]) && Encoded(cs[i]) == e
  }

  // If the passport carries the identifier, the index names the passport for it.
  ghost predicate Indexed(s: StoreState, id: string, e: string) {
    id in s.records && Carries(Carriers(s.records[id]), e) ==> e in s.index && s.index[e] == id
  }

  // The converse: if the index names a passport, the passport carries the identifier.
  ghost predicate Backed(s: StoreState, e: string) {
    e in s.index ==> s.index[e] in s.records && Carries(Carriers(s.records[s.index[e]]), e)
  }

  ghost predicate AtMostOne(cs: seq<Value>) {
    forall i, j :: 0 <= i < j < |cs| ==> !(Commissioned(cs[i]) && Commissioned(cs[j]))
  }

  // The record of the passport shows no two commissioned carriers.
  ghost predicate Single(s: StoreState, id: string) {
    id in s.records ==> AtMostOne(Carriers(s.records[id]))
  }

  // Every identifier that belongs to a passport still belongs to it.
  ghost predicate OwnersKept(s: StoreState, t: StoreState) {
    forall e :: Owner(s, e).Some? ==> Owner(t, e) == Owner(s, e)
  }

  // ------------------------------------------------- writes that leave the maps alone

  // What the record of a passport may show, given the maps: carriers that are its own, all
  // but the last closed, and last the binding the index names for it, if there is one.
  ghost predicate MayHold(s: StoreState, id: string, cs: seq<Value>) {
    Bindings(s, id, cs) && forall e :: e in s.index && s.index[e] == id ==> OpenBinding(cs, e)
  }

  // One record is written, and the maps stay as they were.
  ghost predicate Rewrites(s: StoreState, t: StoreState, id: string) {
    && t.index == s.index && t.retired == s.retired
    && id in t.records && t.records == s.records[id := t.records[id]]
  }

  lemma RewrittenDecides(s: StoreState, t: StoreState, id: string)
    requires CarrierInv(s) && Rewrites(s, t, id)
    ensures OwnersKept(s, t)
    ensures CarrierInv(t) <==> MayHold(s, id, Carriers(t.records[id]))
  {
    hide Bindings, OpenBinding, Owner, Carriers, Indexed;
    SameMapsKeepOwners(s, t);
    SameMapsKeepOwners(t, s);
    forall x | x in t.records
      ensures Bindings(t, x, Carriers(t.records[x])) <==> Bindings(s, x, Carriers(t.records[x]))
    {
      if Bindings(t, x, Carriers(t.records[x])) { OwnersKeepBindings(t, s, x, Carriers(t.records[x])); }
      if Bindings(s, x, Carriers(t.records[x])) { OwnersKeepBindings(s, t, x, Carriers(t.records[x])); }
    }
    assert forall x :: x in t.records && x != id ==> Bindings(s, x, Carriers(t.records[x]));
  }

  lemma SameMapsKeepOwners(s: StoreState, t: StoreState)
    requires t.index == s.index && t.retired == s.retired
    ensures OwnersKept(s, t)
  {
  }

  // --------------------------------------------------------------- retiring

  lemma OnlyLastCommissioned(s: StoreState, id: string, cs: seq<Value>, e: string)
    requires Bindings(s, id, cs)
    ensures e in CommissionedIds(cs) <==> OpenBinding(cs, e)
  {
    if OpenBinding(cs, e) {
      assert Commissioned(cs[|cs| - 1]);
    }
  }

  // Identifiers of one passport move from the index to the retired map.
  function Move(s: StoreState, ids: set<string>, id: string): StoreState {
    s.(index := s.index - ids, retired := s.retired + Owned(ids, id))
  }

  lemma MoveKeepsOwners(s: StoreState, ids: set<string>, id: string)
    requires MapsAgree(s) && id in s.records
    requires forall e :: e in ids ==> Owner(s, e) == Some(id)
    ensures MapsAgree(Move(s, ids, id)) && OwnersKept(s, Move(s, ids, id))
  {
    var t := Move(s, ids, id);
    forall e | e in t.retired ensures t.retired[e] in s.records && (e in t.index ==> t.index[e] == t.retired[e]) {
      if e !in ids { assert t.retired[e] == s.retired[e]; }
    }
    forall e | Owner(s, e).Some? ensures Owner(t, e) == Owner(s, e) {
      if e in ids { assert t.retired[e] == id; }
    }
  }

  lemma CommissionedOwned(s: StoreState, id: string, cs: seq<Value>)
    requires Bindings(s, id, cs)
    ensures forall e :: e in CommissionedIds(cs) ==> Owner(s, e) == Some(id)
  {
  }

  // Closing a record's bindings moves its identifiers to the retired map, still its own,
  // and leaves nothing of it in the index.
  lemma RetireKeepsOwners(s: StoreState, id: string)
    requires AllShaped(s) && CarrierInv(s) && id in s.records
    ensures var t := Retire(s, s.records[id]);
      && MapsAgree(t) && OwnersKept(s, t)
      && (forall e :: e in t.index ==> e in s.index && t.index[e] == s.index[e] && t.index[e] != id)
  {
    hide Shaped, IsCarrier, OpenBinding, MapsAgree, OwnersKept, Bindings, CommissionedIds;
    var cs := Carriers(s.records[id]);
    ShapedCarriers(s.records[id]);
    var ids, t := CommissionedIds(cs), Retire(s, s.records[id]);
    CommissionedOwned(s, id, cs);
    MoveKeepsOwners(s, ids, id);
    assert t == Move(s, ids, id);
    forall e | e in t.index ensures e in s.index && t.index[e] == s.index[e] && t.index[e] != id {
      OnlyLastCommissioned(s, id, cs, e);
    }
  }

  lemma OwnersKeepBindings(s: StoreState, t: StoreState, id: string, cs: seq<Value>)
    requires Bindings(s, id, cs) && OwnersKept(s, t)
    ensures Bindings(t, id, cs)
  {
  }

  lemma RetireKeepsInv(s: StoreState, id: string)
    requires AllShaped(s) && CarrierInv(s) && id in s.records
    ensures CarrierInv(Retire(s, s.records[id]))
  {
    hide Shaped, OpenBinding, MapsAgree, OwnersKept, Bindings, CommissionedIds;
    var t := Retire(s, s.records[id]);
    RetireKeepsOwners(s, id);
    forall x | x in t.records ensures Bindings(t, x, Carriers(t.records[x])) {
      OwnersKeepBindings(s, t, x, Carriers(s.records[x]));
    }
  }

  // ----------------------------------------------------------- commissioning

  lemma ClosedBindings(cs: seq<Value>, now: string)
    requires forall i :: 0 <= i < |cs| ==> IsCarrier(cs[i])
    ensures var closed := CloseAll(cs, now);
      forall i :: 0 <= i < |closed| ==>
        IsCarrier(closed[i]) && Encoded(closed[i]) == Encoded(cs[i]) && !Commissioned(closed[i])
  {
    forall i | 0 <= i < |cs|
      ensures IsCarrier(Close(cs[i], now)) && Encoded(Close(cs[i], now)) == Encoded(cs[i])
              && !Commissioned(Close(cs[i], now))
    {
    }
  }

  // What a successful commission leaves: the closed record state with the new binding at
  // the end and indexed.
  ghost predicate Binds(closed: StoreState, t: StoreState, id: string, cs: seq<Value>, e: string) {
    && t.retired == closed.retired && t.index == closed.index[e := id]
    && id in t.records && t.records == closed.records[id := t.records[id]]
    && |Carriers(t.records[id])| == |cs| + 1
    && (forall i :: 0 <= i < |cs| ==>
          IsCarrier(cs[i]) && var c := Carriers(t.records[id])[i];
          IsCarrier(c) && !Commissioned(c) && Encoded(c) == Encoded(cs[i]))
    && OpenBinding(Carriers(t.records[id]), e)
  }

  lemma BindKeepsInv(closed: StoreState, t: StoreState, id: string, cs: seq<Value>, e: string)
    requires CarrierInv(closed) && id in closed.records && Binds(closed, t, id, cs, e)
    requires Bindings(closed, id, cs)
    requires forall x :: x in closed.index ==> closed.index[x] != id
    requires !TakenByOther(closed, e, id)
    ensures CarrierInv(t) && OwnersKept(closed, t)
  {
    hide IsCarrier, Commissioned, Encoded, Bindings, Owner;
    BindKeepsOwners(closed, t, id, e);
    forall x | x in t.records ensures Bindings(t, x, Carriers(t.records[x])) {
      if x != id {
        OwnersKeepBindings(closed, t, x, Carriers(closed.records[x]));
      } else {
        NewBindings(closed, t, id, cs, e);
      }
    }
    forall x | x in t.index ensures OpenBinding(Carriers(t.records[t.index[x]]), x) {
      if x != e {
        assert OpenBinding(Carriers(closed.records[closed.index[x]]), x);
      }
    }
  }

  lemma BindKeepsOwners(closed: StoreState, t: StoreState, id: string, e: string)
    requires t.retired == closed.retired && t.index == closed.index[e := id] && !TakenByOther(closed, e, id)
    ensures OwnersKept(closed, t)
  {
  }

  lemma NewBindings(closed: StoreState, t: StoreState, id: string, cs: seq<Value>, e: string)
    requires Binds(closed, t, id, cs, e) && Bindings(closed, id, cs) && OwnersKept(closed, t)
    ensures Bindings(t, id, Carriers(t.records[id]))
  {
    var now := Carriers(t.records[id]);
    forall i | 0 <= i < |now| ensures IsCarrier(now[i]) && Owner(t, Encoded(now[i])) == Some(id) {
      if i < |cs| {
        assert Owner(closed, Encoded(cs[i])) == Some(id);
      }
    }
  }

  lemma CommissionBinds(p: Profile, s: StoreState, id: string, carrier: Record, a: Ambient)
    requires AllShaped(s) && Commission(p, s, id, carrier, a).1.Ok?
    ensures var t := Commission(p, s, id, carrier, a).0;
      && id in s.records && "encodedIdentifier" in carrier && !TakenByOther(s, Requested(carrier), id)
      && Binds(Retire(s, s.records[id]), t, id, Carriers(s.records[id]), Requested(carrier))
  {
    hide Shaped, Extends, Digest, Retire, CommissionedIds, IsCarrier, TakenByOther;
    var (t, res) := Commission(p, s, id, carrier, a);
    var r, entry := s.records[id], NewCarrier(carrier, a);
    var cs := Carriers(r);
    CommissionCommits(p, s, id, carrier, a);
    ShapedCarriers(r);
    ClosedBindings(cs, a.now);
    BoundCarriers(r, entry, a);
    NewBindingOpen(carrier, a, res.value);
  }

  lemma ShapedCarriers(r: Record)
    requires Shaped(r)
    ensures forall i :: 0 <= i < |Carriers(r)| ==> IsCarrier(Carriers(r)[i])
  {
  }

  lemma BoundCarriers(r: Record, entry: Record, a: Ambient)
    requires Shaped(r) && "encodedIdentifier" in entry
    ensures Carriers(Succeed(r, Bound(r, entry, a), a)) == CloseAll(Carriers(r), a.now) + [Obj(entry)]
  {
  }

  lemma NewBindingOpen(carrier: Record, a: Ambient, next: Record)
    requires {"encodedIdentifier", "carrierType", "encodingScheme", "boundBy"} <= carrier.Keys
    requires Shaped(next) && Carriers(next) != []
    requires Carriers(next)[|Carriers(next)| - 1] == Obj(NewCarrier(carrier, a))
    ensures OpenBinding(Carriers(next), Requested(carrier)) && carrier["encodedIdentifier"].Str?
  {
    hide Shaped, NewCarrier;
    ShapedCarriers(next);
    NewCarrierNamesIdentifier(carrier, a);
  }

  // -------------------------------------------------------------- ownership

  // A commission that closes, as its own, a binding whose identifier another passport owns.
  ghost predicate Takes(s: StoreState, w: Write, e: string)
    requires AllShaped(s)
  {
    && w.CommissionWrite? && PastOwnership(s, w.id, w.carrier)
    && e in CommissionedIds(Carriers(s.records[w.id]))
    && Owner(s, e).Some? && Owner(s, e) != Some(w.id)
  }

  // The owner of an identifier stays its owner through every write, accepted or rejected,
  // in every state, but for a commission that takes it.
  lemma WriteKeepsOwner(p: Profile, s: StoreState, w: Write, a: Ambient, e: string)
    requires AllShaped(s) && Owner(s, e).Some?
    ensures Owner(Apply(p, s, w, a).0, e) == Owner(s, e) <==> !Takes(s, w, e)
  {
    hide Shaped, DppId, WillCommit, Successor, Commission, Create, Patch, Append, Commits, PastOwnership,
         CommissionedIds, TakenByOther;
    if w.CommissionWrite? {
      CommissionMaps(p, s, w.id, w.carrier, a);
      if PastOwnership(s, w.id, w.carrier) {
        RequestedIsFree(s, w.id, w.carrier, e);
      }
    } else {
      ApplyCommits(p, s, w, a);
    }
  }

  lemma WriteKeepsOwners(p: Profile, s: StoreState, w: Write, a: Ambient)
    requires AllShaped(s)
    ensures OwnersKept(s, Apply(p, s, w, a).0) <==> forall e :: !Takes(s, w, e)
  {
    hide Takes, Owner, Apply, Shaped;
    forall e | Owner(s, e).Some? ensures Owner(Apply(p, s, w, a).0, e) == Owner(s, e) <==> !Takes(s, w, e) {
      WriteKeepsOwner(p, s, w, a, e);
    }
    forall e | Takes(s, w, e) ensures Owner(s, e).Some? {
      TakenIsOwned(s, w, e);
    }
  }

  lemma TakenIsOwned(s: StoreState, w: Write, e: string)
    requires AllShaped(s) && Takes(s, w, e)
    ensures Owner(s, e).Some?
  {
  }

  // The maps after a commission, whatever the state.
  lemma CommissionMaps(p: Profile, s: StoreState, id: string, carrier: Record, a: Ambient)
    requires AllShaped(s)
    ensures var (t, res) := Commission(p, s, id, carrier, a);
      if !PastOwnership(s, id, carrier) then t.index == s.index && t.retired == s.retired
      else
        var ids := CommissionedIds(Carriers(s.records[id]));
        && t.retired == s.retired + Owned(ids, id)
        && t.index == (if res.Ok? then (s.index - ids)[Requested(carrier) := id] else s.index - ids)
        && (res.Ok? ==> carrier["encodedIdentifier"].Str?)
  {
    hide Shaped, DppId, Bound, NewCarrier, Succeed, TakenByOther, CommissionedIds, NewItem;
    if PastOwnership(s, id, carrier) {
      StoredId(s, id);
      var (t, res) := Commission(p, s, id, carrier, a);
      if res.Ok? {
        NewCarrierNamesIdentifier(carrier, a);
        CommissionBinds(p, s, id, carrier, a);
        BoundCarriers(s.records[id], NewCarrier(carrier, a), a);
        NewBindingOpen(carrier, a, res.value);
      }
    }
  }

  lemma StoredId(s: StoreState, id: string)
    requires AllShaped(s) && id in s.records
    ensures DppId(s.records[id]) == id
  {
  }

  lemma RequestedIsFree(s: StoreState, id: string, carrier: Record, e: string)
    requires PastOwnership(s, id, carrier)
    ensures carrier["encodedIdentifier"].Str? && e == Requested(carrier) && Owner(s, e).Some? ==>
              Owner(s, e) == Some(id)
  {
  }

  // The two maps never come to disagree, and name only stored passports.
  lemma WriteKeepsMaps(p: Profile, s: StoreState, w: Write, a: Ambient)
    requires AllShaped(s) && MapsAgree(s)
    ensures MapsAgree(Apply(p, s, w, a).0)
  {
    hide Shaped, DppId, WillCommit, Successor, Commission, Create, Patch, Append, NewItem;
    var t := Apply(p, s, w, a).0;
    ApplyCommits(p, s, w, a);
    assert s.records.Keys <= t.records.Keys;
    if w.CommissionWrite? {
      CommissionKeepsMaps(p, s, w.id, w.carrier, a);
    }
  }

  lemma CommissionKeepsMaps(p: Profile, s: StoreState, id: string, carrier: Record, a: Ambient)
    requires AllShaped(s) && MapsAgree(s) && s.records.Keys <= Commission(p, s, id, carrier, a).0.records.Keys
    ensures MapsAgree(Commission(p, s, id, carrier, a).0)
  {
    hide Shaped, DppId, Commission, PastOwnership, CommissionedIds, Owned, Carriers, IsCarrier;
    var (t, res) := Commission(p, s, id, carrier, a);
    CommissionMaps(p, s, id, carrier, a);
    if PastOwnership(s, id, carrier) {
      FreeMaps(s, id, carrier);
      ShapedCarriers(s.records[id]);
      var ids := CommissionedIds(Carriers(s.records[id]));
      ClosingKeepsMaps(s, t.(index := s.index - ids), ids, id);
      OwnedNames(ids, id);
    }
  }

  lemma OwnedNames(ids: set<string>, id: string)
    ensures forall e :: e in Owned(ids, id) ==> Owned(ids, id)[e] == id
  {
  }

  lemma ClosingKeepsMaps(s: StoreState, t: StoreState, ids: set<string>, id: string)
    requires MapsAgree(s) && id in s.records && s.records.Keys <= t.records.Keys
    requires t.index == s.index - ids && t.retired == s.retired + Owned(ids, id)
    ensures MapsAgree(t)
  {
  }

  lemma FreeMaps(s: StoreState, id: string, carrier: Record)
    requires PastOwnership(s, id, carrier)
    ensures id in s.records && "encodedIdentifier" in carrier
    ensures carrier["encodedIdentifier"].Str? ==>
              var e := Requested(carrier);
              (e in s.index ==> s.index[e] == id) && (e in s.retired ==> s.retired[e] == id)
  {
  }

  // While bindings and index agree, no commission takes an identifier.
  lemma AgreementTakesNothing(s: StoreState, w: Write, e: string)
    requires AllShaped(s) && CarrierInv(s)
    ensures !Takes(s, w, e)
  {
    hide Shaped, Bindings, OpenBinding, CommissionedIds;
    if w.CommissionWrite? && w.id in s.records {
      CarriersBound(s, w.id);
      CommissionedOwned(s, w.id, Carriers(s.records[w.id]));
    }
  }

  // ---------------------------------------------------------- main results

  lemma CommissionKeepsCarriers(p: Profile, s: StoreState, id: string, carrier: Record, a: Ambient)
    requires AllShaped(s) && CarrierInv(s)
    ensures var (t, res) := Commission(p, s, id, carrier, a);
      CarrierInv(t) && OwnersKept(s, t)
  {
    hide Shaped, Extends, Digest, CommissionedIds, IsCarrier, Commissioned, Encoded, CarrierInv, OwnersKept, Owner,
         TakenByOther, Bindings, Binds;
    var (t, res) := Commission(p, s, id, carrier, a);
    if t == s {
      SameMapsKeepOwners(s, t);
    } else {
      var closed := Retire(s, s.records[id]);
      RetireKeepsInv(s, id);
      RetireKeepsOwners(s, id);
      if res.Ok? {
        CommissionBinds(p, s, id, carrier, a);
        StillFree(s, closed, Requested(carrier), id);
        CarriersBound(closed, id);
        BindKeepsInv(closed, t, id, Carriers(s.records[id]), Requested(carrier));
        OwnersKeptTransitive(s, closed, t);
      }
    }
  }

  lemma CarriersBound(s: StoreState, id: string)
    requires CarrierInv(s) && id in s.records
    ensures Bindings(s, id, Carriers(s.records[id]))
  {
  }

  lemma OwnersKeptTransitive(s: StoreState, t: StoreState, u: StoreState)
    requires OwnersKept(s, t) && OwnersKept(t, u)
    ensures OwnersKept(s, u)
  {
  }

  lemma StillFree(s: StoreState, closed: StoreState, e: string, id: string)
    requires id in s.records && AllShaped(s) && closed == Retire(s, s.records[id]) && !TakenByOther(s, e, id)
    ensures !TakenByOther(closed, e, id)
  {
    hide Shaped, CommissionedIds;
  }

  lemma PlainWriteRewrites(p: Profile, s: StoreState, w: Write, a: Ambient)
    requires AllShaped(s) && !w.CommissionWrite?
    ensures var t := Apply(p, s, w, a).0;
      if WillCommit(p, s, w, a) then
        var next := Successor(p, s, w, a);
        Shaped(next) && Rewrites(s, t, DppId(next)) && t.records[DppId(next)] == next
      else t.records == s.records && t.index == s.index && t.retired == s.retired
  {
    hide Shaped, DppId, WillCommit, Successor, Apply, NewItem;
    ApplyCommits(p, s, w, a);
  }

  // What a write must leave in the record it commits; a commission sees to it itself.
  ghost predicate KeepsBindings(p: Profile, s: StoreState, w: Write, a: Ambient)
    requires AllShaped(s) && WillCommit(p, s, w, a)
  {
    var next := Successor(p, s, w, a);
    w.CommissionWrite? || (Shaped(next) && MayHold(s, DppId(next), Carriers(next)))
  }

  // While bindings and index agree, no write, accepted or rejected, early or late, lets an
  // identifier belong to a different passport. They go on agreeing exactly when the record
  // it commits shows what the maps allow.
  lemma WriteKeepsCarriers(p: Profile, s: StoreState, w: Write, a: Ambient)
    requires AllShaped(s) && CarrierInv(s)
    ensures OwnersKept(s, Apply(p, s, w, a).0)
    ensures CarrierInv(Apply(p, s, w, a).0) <==> (WillCommit(p, s, w, a) ==> KeepsBindings(p, s, w, a))
  {
    hide Shaped, CarrierInv, OwnersKept, Create, Patch, Append, Commission, WillCommit, Successor, MayHold, Rewrites;
    var t := Apply(p, s, w, a).0;
    if w.CommissionWrite? {
      CommissionKeepsCarriers(p, s, w.id, w.carrier, a);
    } else {
      PlainWriteRewrites(p, s, w, a);
      if WillCommit(p, s, w, a) {
        RewrittenDecides(s, t, DppId(Successor(p, s, w, a)));
      } else {
        SameMapsKeepOwners(s, t);
        SameBindings(s, t);
      }
    }
  }

  lemma SameBindings(s: StoreState, t: StoreState)
    requires CarrierInv(s) && t.records == s.records && t.index == s.index && t.retired == s.retired
    ensures CarrierInv(t)
  {
    hide Carriers, OpenBinding, IsCarrier, Commissioned, Encoded;
  }

  // ------------------------------------------------- finding a passport again

  lemma CommissionedCarries(cs: seq<Value>)
    requires forall i :: 0 <= i < |cs| ==> IsCarrier(cs[i])
    ensures forall e :: e in CommissionedIds(cs) <==> Carries(cs, e)
  {
    hide IsCarrier, Commissioned, Encoded;
  }

  // While bindings and index agree, the index names only open bindings, and what a record
  // carries is its open binding.
  lemma AgreedIsBacked(s: StoreState, id: string, e: string)
    requires AllShaped(s) && CarrierInv(s)
    ensures Backed(s, e) && Single(s, id)
    ensures id in s.records ==> (Carries(Carriers(s.records[id]), e) <==> OpenBinding(Carriers(s.records[id]), e))
  {
    hide Shaped, CarrierInv, Bindings, OpenBinding, Carries, CommissionedIds, AtMostOne, IsCarrier;
    if id in s.records {
      AgreedCarries(s, id, e);
    }
    if e in s.index {
      IndexedIsOpen(s, e);
      AgreedCarries(s, s.index[e], e);
    }
  }

  lemma AgreedCarries(s: StoreState, id: string, e: string)
    requires AllShaped(s) && CarrierInv(s) && id in s.records
    ensures var cs := Carriers(s.records[id]); AtMostOne(cs) && (Carries(cs, e) <==> OpenBinding(cs, e))
  {
    hide Shaped, CarrierInv, Bindings, OpenBinding, Carries, CommissionedIds, AtMostOne, IsCarrier;
    ShapedCarriers(s.records[id]);
    CommissionedCarries(Carriers(s.records[id]));
    CarriersBound(s, id);
    OnlyLastCommissioned(s, id, Carriers(s.records[id]), e);
    BoundAreSingle(s, id, Carriers(s.records[id]));
  }

  lemma BoundAreSingle(s: StoreState, id: string, cs: seq<Value>)
    requires Bindings(s, id, cs)
    ensures AtMostOne(cs)
  {
  }

  // What is resolved is the record of the passport that owns the identifier, in every state;
  // where the index is backed the passport carries it, and while bindings and index agree it
  // is the open binding.
  lemma ResolveIsSound(s: StoreState, e: string)
    requires AllShaped(s) && Resolve(s, e).Ok?
    ensures Owner(s, e) == Some(DppId(Resolve(s, e).value))
    ensures Backed(s, e) ==> Carries(Carriers(Resolve(s, e).value), e)
    ensures CarrierInv(s) ==> OpenBinding(Carriers(Resolve(s, e).value), e)
  {
    hide Shaped, Carries, Bindings, OpenBinding;
    StoredId(s, s.index[e]);
    if CarrierInv(s) {
      IndexedIsOpen(s, e);
    }
  }

  // Where the passport is indexed for the identifier it carries, the identifier leads to it,
  // and where the index is backed too, only then.
  lemma ResolveIsComplete(s: StoreState, id: string, e: string)
    requires AllShaped(s) && id in s.records && Indexed(s, id, e)
    ensures Carries(Carriers(s.records[id]), e) ==> Resolve(s, e) == Get(s, id)
    ensures Backed(s, e) ==> (Resolve(s, e) == Ok(s.records[id])
                              <==> Carries(Carriers(s.records[id]), e) && s.records[id]["status"] != Str("retired"))
  {
    hide Carries;
    if Resolve(s, e) == Ok(s.records[id]) {
      ResolveIsSound(s, e);
    }
  }

  lemma OpenBindingOwned(s: StoreState, id: string, cs: seq<Value>, e: string)
    requires Bindings(s, id, cs) && OpenBinding(cs, e)
    ensures Owner(s, e) == Some(id)
  {
  }

  // ------------------------------------------- a commission that is rejected

  // Is the passport's open binding indexed? A caller can look before asking.
  ghost predicate HasIndexedBinding(s: StoreState, id: string) {
    exists e :: e in s.index && s.index[e] == id
  }

  // Every commissioned carrier in the record has left the index, closed as this passport's.
  ghost predicate AlreadyClosed(s: StoreState, id: string) {
    id in s.records
    && forall e :: Carries(Carriers(s.records[id]), e) ==> e !in s.index && e in s.retired && s.retired[e] == id
  }

  // A rejected commission is not all or nothing. In every state, it leaves the store unchanged
  // exactly when it fails an ownership check or the record shows no commissioned carrier that
  // is still to be closed.
  lemma RejectedCommissionChanges(p: Profile, s: StoreState, id: string, carrier: Record, a: Ambient)
    requires AllShaped(s) && Commission(p, s, id, carrier, a).1.Err?
    ensures Commission(p, s, id, carrier, a).0 == s <==> !PastOwnership(s, id, carrier) || AlreadyClosed(s, id)
  {
    hide Shaped, DppId, Commission, CommissionedIds, Owned, Carriers, IsCarrier, Carries, PastOwnership;
    var t := Commission(p, s, id, carrier, a).0;
    CommissionMaps(p, s, id, carrier, a);
    CommissionCommits(p, s, id, carrier, a);
    RejectedKeepsClock(p, s, id, carrier, a);
    if PastOwnership(s, id, carrier) {
      FreeMaps(s, id, carrier);
      ShapedCarriers(s.records[id]);
      CommissionedCarries(Carriers(s.records[id]));
      ClosingChanges(s, t, CommissionedIds(Carriers(s.records[id])), id);
    }
  }

  lemma RejectedKeepsClock(p: Profile, s: StoreState, id: string, carrier: Record, a: Ambient)
    requires AllShaped(s) && Commission(p, s, id, carrier, a).1.Err?
    ensures Commission(p, s, id, carrier, a).0.lastCommitMs == s.lastCommitMs
  {
    hide Shaped, Bound, NewCarrier, Succeed, TakenByOther, CommissionedIds;
  }

  lemma ClosingChanges(s: StoreState, t: StoreState, ids: set<string>, id: string)
    requires t.index == s.index - ids && t.retired == s.retired + Owned(ids, id)
    ensures t.index == s.index && t.retired == s.retired
            <==> forall e :: e in ids ==> e !in s.index && e in s.retired && s.retired[e] == id
  {
    if t.index == s.index && t.retired == s.retired {
      forall e | e in ids ensures e !in s.index && e in s.retired && s.retired[e] == id {
        assert e !in t.index && e in t.retired && t.retired[e] == id;
      }
    }
  }

  // While bindings and index agree: when the passport has no indexed binding to lose.
  lemma AgreedRejectionChanges(p: Profile, s: StoreState, id: string, carrier: Record, a: Ambient)
    requires AllShaped(s) && CarrierInv(s) && Commission(p, s, id, carrier, a).1.Err?
    ensures Commission(p, s, id, carrier, a).0 == s
            <==> !PastOwnership(s, id, carrier) || !HasIndexedBinding(s, id)
  {
    hide Shaped, Commission, Carries, OpenBinding, Bindings, TakenByOther, Carriers;
    RejectedCommissionChanges(p, s, id, carrier, a);
    if PastOwnership(s, id, carrier) {
      forall e ensures Backed(s, e) && (Carries(Carriers(s.records[id]), e) ==> Owner(s, e) == Some(id)) {
        AgreedIsBacked(s, id, e);
        CarriersBound(s, id);
        if Carries(Carriers(s.records[id]), e) {
          OpenBindingOwned(s, id, Carriers(s.records[id]), e);
        }
      }
    }
  }

  // For example a request without a carrier type, in every state: the record still shows the
  // carrier as commissioned, and its identifier no longer resolves.
  lemma IncompleteRequestLosesBinding(p: Profile, s: StoreState, id: string, e: string, wanted: string, a: Ambient)
    requires AllShaped(s) && id in s.records && Carries(Carriers(s.records[id]), e) && Owner(s, wanted) == None
    ensures var (t, res) := Commission(p, s, id, map["encodedIdentifier" := Str(wanted)], a);
      && res == Err(BadRequest) && AllShaped(t)
      && t.records == s.records && Carries(Carriers(t.records[id]), e)
      && Resolve(t, e) == Err(RetiredCarrier)
  {
    hide Shaped, Commission, CommissionedIds, Carries, Carriers, IsCarrier;
    IncompleteRequest(p, s, id, wanted, a);
    ShapedCarriers(s.records[id]);
    CommissionedCarries(Carriers(s.records[id]));
    StoredId(s, id);
  }

  lemma IncompleteRequest(p: Profile, s: StoreState, id: string, wanted: string, a: Ambient)
    requires AllShaped(s) && id in s.records && Owner(s, wanted) == None
    ensures Commission(p, s, id, map["encodedIdentifier" := Str(wanted)], a)
            == (Retire(s, s.records[id]), Err(BadRequest))
  {
    hide Shaped, Retire, Bound, Succeed, NewCarrier, Commit, Accepts;
    var carrier: Record := map["encodedIdentifier" := Str(wanted)];
    assert "carrierType" !in carrier && Requested(carrier) == wanted;
  }

  lemma IndexedIsOpen(s: StoreState, e: string)
    requires CarrierInv(s) && e in s.index
    ensures s.index[e] in s.records && OpenBinding(Carriers(s.records[s.index[e]]), e)
  {
  }

  // A commission past the ownership checks that closes, as a carrier of its own record, the
  // identifier this passport carries; unless it replaces it.
  ghost predicate Closes(p: Profile, s: StoreState, w: Write, a: Ambient, id: string, e: string)
    requires AllShaped(s)
  {
    && w.CommissionWrite? && PastOwnership(s, w.id, w.carrier) && id in s.records
    && Carries(Carriers(s.records[id]), e) && Carries(Carriers(s.records[w.id]), e)
    && !(w.id == id && Complete(p, s.records[id], w.carrier, a))
  }

  // Another write that commits a record of this passport.
  ghost predicate Rewriting(p: Profile, s: StoreState, w: Write, a: Ambient, id: string)
    requires AllShaped(s)
  {
    !w.CommissionWrite? && WillCommit(p, s, w, a)
    && var next := Successor(p, s, w, a); Shaped(next) && DppId(next) == id
  }

  // One that carries the identifier while the index does not name the passport.
  ghost predicate Exposes(p: Profile, s: StoreState, w: Write, a: Ambient, id: string, e: string)
    requires AllShaped(s)
  {
    Rewriting(p, s, w, a, id) && Carries(Carriers(Successor(p, s, w, a)), e) && !(e in s.index && s.index[e] == id)
  }

  // One that does not carry the identifier while the index names the passport.
  ghost predicate Displaces(p: Profile, s: StoreState, w: Write, a: Ambient, e: string)
    requires AllShaped(s)
  {
    e in s.index && Rewriting(p, s, w, a, s.index[e]) && !Carries(Carriers(Successor(p, s, w, a)), e)
  }

  // One with two commissioned carriers.
  ghost predicate Doubles(p: Profile, s: StoreState, w: Write, a: Ambient, id: string)
    requires AllShaped(s)
  {
    Rewriting(p, s, w, a, id) && !AtMostOne(Carriers(Successor(p, s, w, a)))
  }

  // A passport stays indexed for what it carries, in every state, through every write but
  // these two kinds, as can be told before it is made.
  lemma WriteKeepsIndexed(p: Profile, s: StoreState, w: Write, a: Ambient, id: string, e: string)
    requires AllShaped(s) && Indexed(s, id, e)
    ensures Indexed(Apply(p, s, w, a).0, id, e) <==> !Closes(p, s, w, a, id, e) && !Exposes(p, s, w, a, id, e)
  {
    hide Shaped, DppId, Create, Patch, Append, Commission, WillCommit, Successor, Carries, Carriers, Complete,
         PastOwnership;
    if w.CommissionWrite? {
      CommissionIndexed(p, s, w.id, w.carrier, a, id, e);
    } else {
      PlainWriteRewrites(p, s, w, a);
    }
  }

  // The index stays backed through every write but one that displaces the carrier.
  lemma WriteKeepsBacked(p: Profile, s: StoreState, w: Write, a: Ambient, e: string)
    requires AllShaped(s) && Backed(s, e)
    ensures Backed(Apply(p, s, w, a).0, e) <==> !Displaces(p, s, w, a, e)
  {
    hide Shaped, DppId, Create, Patch, Append, Commission, WillCommit, Successor, Carries, Carriers;
    if w.CommissionWrite? {
      CommissionBacked(p, s, w.id, w.carrier, a, e);
    } else {
      PlainWriteRewrites(p, s, w, a);
    }
  }

  // A record comes to show two commissioned carriers only through a write that commits it so,
  // which no commission does.
  lemma WriteKeepsSingle(p: Profile, s: StoreState, w: Write, a: Ambient, id: string)
    requires AllShaped(s) && Single(s, id)
    ensures Single(Apply(p, s, w, a).0, id) <==> !Doubles(p, s, w, a, id)
  {
    hide Shaped, DppId, Create, Patch, Append, Commission, WillCommit, Successor, Carriers, AtMostOne;
    if w.CommissionWrite? {
      CommissionSingle(p, s, w.id, w.carrier, a, id);
    } else {
      PlainWriteRewrites(p, s, w, a);
    }
  }

  // An accepted commission, from any state, leaves exactly one carrier commissioned: the
  // last, with the identifier asked for.
  lemma CommissionLeavesOne(p: Profile, s: StoreState, id: string, carrier: Record, a: Ambient)
    requires AllShaped(s) && Commission(p, s, id, carrier, a).1.Ok?
    ensures var t := Commission(p, s, id, carrier, a).0;
      && id in s.records && id in t.records && t.records == s.records[id := t.records[id]]
      && "encodedIdentifier" in carrier
      && var cs := Carriers(t.records[id]);
         && cs != [] && (forall i :: 0 <= i < |cs| ==> (Commissioned(cs[i]) <==> i == |cs| - 1))
         && AtMostOne(cs) && forall e :: Carries(cs, e) <==> e == Requested(carrier)
  {
    hide Shaped, DppId, Commission, CommissionedIds, Owned, IsCarrier, Commissioned, Encoded, TakenByOther;
    CommissionBinds(p, s, id, carrier, a);
    var t := Commission(p, s, id, carrier, a).0;
    OneBound(Retire(s, s.records[id]), t, id, Carriers(s.records[id]), Requested(carrier));
  }

  lemma OneBound(closed: StoreState, t: StoreState, id: string, cs: seq<Value>, e: string)
    requires Binds(closed, t, id, cs, e)
    ensures var now := Carriers(t.records[id]);
      && now != [] && (forall i :: 0 <= i < |now| ==> (Commissioned(now[i]) <==> i == |now| - 1))
      && AtMostOne(now) && forall x :: Carries(now, x) <==> x == e
  {
    hide IsCarrier, Commissioned, Encoded, Carriers;
  }

  // What a commission does to the index, to one record, and to what it carries.
  lemma CommissionCarries(p: Profile, s: StoreState, id: string, carrier: Record, a: Ambient, e: string)
    requires AllShaped(s) && PastOwnership(s, id, carrier)
    ensures var t := Commission(p, s, id, carrier, a).0;
      if Complete(p, s.records[id], carrier, a) then
        && id in t.records && t.records == s.records[id := t.records[id]]
        && (Carries(Carriers(t.records[id]), e) <==> e == Requested(carrier))
        && (e in t.index <==> e == Requested(carrier) || (e in s.index && !Carries(Carriers(s.records[id]), e)))
        && (e in t.index ==> t.index[e] == if e == Requested(carrier) then id else s.index[e])
        && (e == Requested(carrier) && e in s.index ==> s.index[e] == id)
      else
        && t.records == s.records
        && (e in t.index <==> e in s.index && !Carries(Carriers(s.records[id]), e))
        && (e in t.index ==> t.index[e] == s.index[e])
  {
    hide Shaped, DppId, Commission, CommissionedIds, Owned, Carriers, IsCarrier, Carries, PastOwnership, Complete,
         Requested, TakenByOther;
    CommissionMaps(p, s, id, carrier, a);
    CommissionAccepted(p, s, id, carrier, a);
    CommissionCommits(p, s, id, carrier, a);
    FreeMaps(s, id, carrier);
    ShapedCarriers(s.records[id]);
    CommissionedCarries(Carriers(s.records[id]));
    if Commission(p, s, id, carrier, a).1.Ok? {
      CommissionLeavesOne(p, s, id, carrier, a);
    }
  }

  lemma EarlyKeepsAll(p: Profile, s: StoreState, id: string, carrier: Record, a: Ambient)
    requires AllShaped(s) && !PastOwnership(s, id, carrier)
    ensures var t := Commission(p, s, id, carrier, a).0; t.records == s.records && t.index == s.index
  {
    hide Shaped, DppId, Commission, PastOwnership;
    CommissionMaps(p, s, id, carrier, a);
    CommissionAccepted(p, s, id, carrier, a);
    CommissionCommits(p, s, id, carrier, a);
  }

  lemma CommissionIndexed(p: Profile, s: StoreState, own: string, carrier: Record, a: Ambient, id: string, e: string)
    requires AllShaped(s) && Indexed(s, id, e)
    ensures Indexed(Commission(p, s, own, carrier, a).0, id, e)
            <==> !Closes(p, s, CommissionWrite(own, carrier), a, id, e)
  {
    hide Shaped, DppId, Commission, Carriers, Carries, PastOwnership, Complete, Requested;
    if PastOwnership(s, own, carrier) {
      CommissionCarries(p, s, own, carrier, a, e);
      FreeMaps(s, own, carrier);
    } else {
      EarlyKeepsAll(p, s, own, carrier, a);
    }
  }

  lemma CommissionBacked(p: Profile, s: StoreState, id: string, carrier: Record, a: Ambient, e: string)
    requires AllShaped(s) && Backed(s, e)
    ensures Backed(Commission(p, s, id, carrier, a).0, e)
  {
    hide Shaped, DppId, Commission, Carriers, Carries, PastOwnership, Complete, Requested;
    if PastOwnership(s, id, carrier) {
      CommissionCarries(p, s, id, carrier, a, e);
      FreeMaps(s, id, carrier);
    } else {
      EarlyKeepsAll(p, s, id, carrier, a);
    }
  }

  lemma CommissionSingle(p: Profile, s: StoreState, own: string, carrier: Record, a: Ambient, id: string)
    requires AllShaped(s) && Single(s, id)
    ensures Single(Commission(p, s, own, carrier, a).0, id)
  {
    hide Shaped, DppId, Commission, Carriers, Carries, AtMostOne, Commissioned, Requested;
    CommissionCommits(p, s, own, carrier, a);
    if Commission(p, s, own, carrier, a).1.Ok? {
      CommissionLeavesOne(p, s, own, carrier, a);
    }
  }

  lemma CommissionAccepted(p: Profile, s: StoreState, id: string, carrier: Record, a: Ambient)
    requires AllShaped(s)
    ensures Commission(p, s, id, carrier, a).1.Ok?
            <==> PastOwnership(s, id, carrier) && Complete(p, s.records[id], carrier, a)
  {
    hide Shaped, Retire, Commit, Bound, NewCarrier, Succeed, TakenByOther;
  }

  // While bindings and index agree, a commission closes no other passport's carrier: only the
  // open binding of its own, when it fails a later check.
  lemma AgreedCloses(p: Profile, s: StoreState, w: Write, a: Ambient, id: string, e: string)
    requires AllShaped(s) && CarrierInv(s)
    ensures Closes(p, s, w, a, id, e)
            <==> && w.CommissionWrite? && w.id == id && PastOwnership(s, id, w.carrier)
                 && !Complete(p, s.records[id], w.carrier, a) && OpenBinding(Carriers(s.records[id]), e)
  {
    hide Shaped, CarrierInv, Bindings, Carriers, Carries, OpenBinding, PastOwnership, Complete;
    if w.CommissionWrite? && PastOwnership(s, w.id, w.carrier) {
      FreeMaps(s, w.id, w.carrier);
      AgreedIsBacked(s, id, e);
      AgreedIsBacked(s, w.id, e);
      if Closes(p, s, w, a, id, e) {
        CarriersBound(s, id);
        CarriersBound(s, w.id);
        OpenBindingOwned(s, id, Carriers(s.records[id]), e);
        OpenBindingOwned(s, w.id, Carriers(s.records[w.id]), e);
      }
    }
  }

  // ---------------------------------------- writes that do name carriers

  // A created record may carry bindings only if it brings none: nothing indexes them.
  lemma CreatedCarriersDecide(p: Profile, s: StoreState, payload: Record, a: Ambient)
    requires AllShaped(s) && CarrierInv(s) && WillCommit(p, s, CreateWrite(payload), a)
    ensures CarrierInv(Create(p, s, payload, a).0) <==> ArrayAt(payload, "carriers") == []
  {
    hide Shaped, DppId, CarrierInv, Create, MayHold, Extends, Digest, IsNext, Commits;
    WriteKeepsCarriers(p, s, CreateWrite(payload), a);
    CreateCommits(p, s, payload, a);
    ApplyCommits(p, s, CreateWrite(payload), a);
    assert Carriers(Initial(payload, a)) == ArrayAt(payload, "carriers");
    StrangerHolds(s, DppId(Initial(payload, a)), ArrayAt(payload, "carriers"));
  }

  lemma StrangerHolds(s: StoreState, id: string, cs: seq<Value>)
    requires CarrierInv(s) && id !in s.records
    ensures MayHold(s, id, cs) <==> cs == []
  {
    hide IsCarrier, Encoded, Commissioned, OpenBinding;
    assert forall e :: Owner(s, e) != Some(id);
    if cs != [] && IsCarrier(cs[0]) {
      assert Owner(s, Encoded(cs[0])) != Some(id);
    }
  }

  // An accepted patch keeps bindings and index in agreement exactly when the maps allow the
  // passport it leaves the record under to hold the carriers it leaves in it.
  lemma PatchedCarriersDecide(p: Profile, s: StoreState, id: string, patch: Record, ifMatch: Option<string>, a: Ambient)
    requires AllShaped(s) && CarrierInv(s) && WillCommit(p, s, PatchWrite(id, patch, ifMatch), a)
    ensures CarrierInv(Patch(p, s, id, patch, ifMatch, a).0)
            <==> MayHold(s, Target(id, patch), ArrayAt(Patched(s.records[id], patch), "carriers"))
  {
    hide Shaped, DppId, Version, CarrierInv, MayHold, Patch, Patched, IsNext, Continues, Commits, Guard,
         EntityTag.Matches;
    WriteKeepsCarriers(p, s, PatchWrite(id, patch, ifMatch), a);
    PatchCommits(p, s, id, patch, ifMatch, a);
    ApplyCommits(p, s, PatchWrite(id, patch, ifMatch), a);
    SucceedCarriers(s.records[id], Patched(s.records[id], patch), a);
  }

  lemma SucceedCarriers(r: Record, updated: Record, a: Ambient)
    requires Shaped(r)
    ensures Carriers(Succeed(r, updated, a)) == ArrayAt(updated, "carriers")
  {
    hide Shaped, Version;
  }

  // A patch that replaces the carriers, as an administrator's may.
  lemma ReplacedCarriersDecide(p: Profile, s: StoreState, id: string, patch: Record, ifMatch: Option<string>,
                               a: Ambient)
    requires AllShaped(s) && CarrierInv(s) && WillCommit(p, s, PatchWrite(id, patch, ifMatch), a)
    requires KeepsId(patch, id) && "carriers" in patch
    ensures var cs := ArrayAt(patch, "carriers");
      CarrierInv(Patch(p, s, id, patch, ifMatch, a).0)
      <==> Bindings(s, id, cs) && forall e :: e in s.index && s.index[e] == id ==> OpenBinding(cs, e)
  {
    hide Shaped, CarrierInv, Bindings, OpenBinding, WillCommit, Patch;
    PatchedCarriersDecide(p, s, id, patch, ifMatch, a);
    ReplacedCarriers(p, s, id, patch, ifMatch, a);
  }

  lemma ReplacedCarriers(p: Profile, s: StoreState, id: string, patch: Record, ifMatch: Option<string>, a: Ambient)
    requires AllShaped(s) && WillCommit(p, s, PatchWrite(id, patch, ifMatch), a) && "carriers" in patch
    ensures ArrayAt(Patched(s.records[id], patch), "carriers") == ArrayAt(patch, "carriers")
  {
    hide DppId, Version, Guard, EntityTag.Matches;
  }

  // Removing them keeps the agreement exactly when the index names none of them.
  lemma RemovedCarriersDecide(p: Profile, s: StoreState, id: string, ifMatch: Option<string>, a: Ambient)
    requires AllShaped(s) && CarrierInv(s) && WillCommit(p, s, PatchWrite(id, map["carriers" := Null], ifMatch), a)
    ensures CarrierInv(Patch(p, s, id, map["carriers" := Null], ifMatch, a).0) <==> !HasIndexedBinding(s, id)
  {
    hide Shaped, CarrierInv, WillCommit, Patch;
    var patch: Record := map["carriers" := Null];
    assert "dppId" !in patch && ArrayAt(patch, "carriers") == [];
    ReplacedCarriersDecide(p, s, id, patch, ifMatch, a);
  }

  // A carrier whose identifier belongs elsewhere, or to nobody, may not be written.
  lemma ForeignCarrierBreaks(p: Profile, s: StoreState, id: string, patch: Record, ifMatch: Option<string>, a: Ambient,
                             i: nat)
    requires AllShaped(s) && CarrierInv(s) && WillCommit(p, s, PatchWrite(id, patch, ifMatch), a)
    requires KeepsId(patch, id) && "carriers" in patch && i < |ArrayAt(patch, "carriers")|
    requires IsCarrier(ArrayAt(patch, "carriers")[i]) && Owner(s, Encoded(ArrayAt(patch, "carriers")[i])) != Some(id)
    ensures !CarrierInv(Patch(p, s, id, patch, ifMatch, a).0)
  {
    hide Shaped, CarrierInv, IsCarrier, Encoded, WillCommit, Patch;
    ReplacedCarriersDecide(p, s, id, patch, ifMatch, a);
  }

  // A patch that leaves identifier and carriers alone keeps the agreement.
  lemma UntouchedCarriersKept(p: Profile, s: StoreState, id: string, patch: Record, ifMatch: Option<string>, a: Ambient)
    requires AllShaped(s) && CarrierInv(s) && WillCommit(p, s, PatchWrite(id, patch, ifMatch), a)
    requires KeepsId(patch, id) && "carriers" !in patch
    ensures CarrierInv(Patch(p, s, id, patch, ifMatch, a).0)
  {
    hide Shaped, CarrierInv, Patch, MayHold;
    PatchedCarriersDecide(p, s, id, patch, ifMatch, a);
    assert ArrayAt(Patched(s.records[id], patch), "carriers") == Carriers(s.records[id]);
    CurrentMayHold(s, id);
  }

  lemma CurrentMayHold(s: StoreState, id: string)
    requires CarrierInv(s) && id in s.records
    ensures MayHold(s, id, Carriers(s.records[id]))
  {
    hide Bindings, OpenBinding;
  }

  // An append to any collection but the carriers keeps the agreement. A carrier may be
  // appended exactly when the passport already owns its identifier and has no open binding.
  lemma AppendedCarrierDecides(p: Profile, s: StoreState, id: string, collection: string, entry: Record,
                               idField: string,
                               a: Ambient)
    requires AllShaped(s) && CarrierInv(s) && WillCommit(p, s, AppendWrite(id, collection, entry, idField), a)
    ensures CarrierInv(Append(p, s, id, collection, entry, idField, a).0)
            <==> (collection == "carriers" ==>
                    var cs := Carriers(s.records[id]);
                    && IsCarrier(Obj(entry)) && Owner(s, Encoded(Obj(entry))) == Some(id)
                    && (cs == [] || !Commissioned(cs[|cs| - 1])))
  {
    hide Shaped, DppId, CarrierInv, MayHold, Append, HasEntry, IsCarrier, Encoded, Commissioned, Commits, IsNext,
         Extends;
    var w := AppendWrite(id, collection, entry, idField);
    WriteKeepsCarriers(p, s, w, a);
    AppendCommits(p, s, id, collection, entry, idField, a);
    ApplyCommits(p, s, w, a);
    OneMore(p, s, Apply(p, s, w, a).0, Successor(p, s, w, a), a);
    SucceedCarriers(s.records[id], Appended(s.records[id], collection, entry), a);
    CurrentMayHold(s, id);
    if collection == "carriers" {
      OneMoreCarrier(s, id, Carriers(s.records[id]), Obj(entry));
    } else {
      assert ArrayAt(Appended(s.records[id], collection, entry), "carriers") == Carriers(s.records[id]);
    }
  }

  lemma OneMoreCarrier(s: StoreState, id: string, cs: seq<Value>, c: Value)
    requires MayHold(s, id, cs)
    ensures MayHold(s, id, cs + [c])
            <==> IsCarrier(c) && Owner(s, Encoded(c)) == Some(id) && (cs == [] || !Commissioned(cs[|cs| - 1]))
  {
    hide IsCarrier, Encoded, Owner;
    var more := cs + [c];
    assert forall i :: 0 <= i < |cs| ==> more[i] == cs[i];
    assert more[|cs|] == c;
  }
}
