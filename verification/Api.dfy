// The handlers of the creating requests (api.py), each proved to compute Replay.Post.

module Api {
  import opened Wrappers
  import opened Values
  import opened Records
  import opened StoreSpec
  import opened ScopedKeys
  import opened Store
  import opened Replay
  import R = Replay

  class Handlers {
    const store: PassportStore
    const policy: Policy
    var memory: map<string, Remembered>

    ghost function State(): Service
      reads this, store, store.outbox
    {
      Service(store.State(), memory)
    }

    constructor (store: PassportStore, policy: Policy)
      ensures this.store == store && this.policy == policy && memory == map[]
    {
      this.store, this.policy := store, policy;
      memory := map[];
    }

    method Recall(key: Option<string>, payload: Body) returns (known: Option<Reply>)
      ensures known == Idempotent(memory, key, payload)
    {
      if key.None? {
        return None;
      }
      if BodyText(payload).None? {
        return Some(NotCanonical);
      }
      if key.value !in memory {
        return None;
      }
      if memory[key.value].text != BodyText(payload).value {
        return Some(KeyConflict);
      }
      return Some(Response(memory[key.value].response));
    }

    method Remember(key: Option<string>, payload: Body, response: Value)
      requires key.Some? ==> BodyText(payload).Some?
      modifies this`memory
      ensures memory == R.Remember(old(memory), key, payload, response)
    {
      if key.Some? {
        memory := memory[key.value := Remembered(BodyText(payload).value, response)];
      }
    }

    method CreateDpp(principal: Principal, idempotencyKey: Option<string>, payload: Body, a: Ambient)
      returns (reply: Reply)
      requires store.Valid()
      modifies this`memory, store
      ensures store.Valid()
      ensures var q := Request(principal, idempotencyKey, Operation.CreateDpp, "", payload);
        (State(), reply) == Post(store.profile, policy, old(State()), q, "", a)
    {
      hide AllShaped, KeyOf, BodyText, Create;
      var q := Request(principal, idempotencyKey, Operation.CreateDpp, "", payload);
      if !policy.allows(principal, Operation.CreateDpp) {
        return Forbidden;
      }
      var key := KeyOf(q);
      var known := Recall(key, payload);
      if known.Some? {
        return known.value;
      }
      var result := store.Create(Fields(payload), a);
      if result.Err? {
        return Failed(result.fault);
      }
      Remember(key, payload, Obj(result.value));
      return Response(Obj(result.value));
    }

    method AddEvent(principal: Principal, idempotencyKey: Option<string>, dppId: string, payload: Body, urn: string,
                    a: Ambient) returns (reply: Reply)
      requires store.Valid()
      modifies this`memory, store
      ensures store.Valid()
      ensures var q := Request(principal, idempotencyKey, Operation.AddEvent, dppId, payload);
        (State(), reply) == Post(store.profile, policy, old(State()), q, urn, a)
    {
      hide AllShaped, KeyOf, BodyText, Append, Organisation;
      var q := Request(principal, idempotencyKey, Operation.AddEvent, dppId, payload);
      if !policy.allows(principal, Operation.AddEvent) {
        return Forbidden;
      }
      var key := KeyOf(q);
      var known := Recall(key, payload);
      if known.Some? {
        return known.value;
      }
      var event := Fields(payload);
      event := SetDefault(event, "eventId", Str(urn));
      event := SetDefault(event, "recordedAt", Str(a.now));
      event := SetDefault(event, "actorOrganisationId", Str(Organisation(principal)));
      assert event == EventEntry(q, urn, a);
      var result := store.Append(dppId, "lifecycleEvents", event, "eventId", a);
      if result.Err? {
        return Failed(result.fault);
      }
      var response := Obj(map["eventId" := Member(event, "eventId", Null), "dppId" := Str(dppId),
                              "recordVersion" := Member(result.value, "recordVersion", Null)]);
      Remember(key, payload, response);
      return Response(response);
    }

    method AddObservation(principal: Principal, idempotencyKey: Option<string>, dppId: string, payload: Body,
                          urn: string, a: Ambient) returns (reply: Reply)
      requires store.Valid()
      modifies this`memory, store
      ensures store.Valid()
      ensures var q := Request(principal, idempotencyKey, Operation.AddObservation, dppId, payload);
        (State(), reply) == Post(store.profile, policy, old(State()), q, urn, a)
    {
      hide AllShaped, KeyOf, BodyText, Append;
      var q := Request(principal, idempotencyKey, Operation.AddObservation, dppId, payload);
      if !policy.allows(principal, Operation.AddObservation) {
        return Forbidden;
      }
      var key := KeyOf(q);
      var known := Recall(key, payload);
      if known.Some? {
        return known.value;
      }
      var observation := Fields(payload) - {"observationType", "basedOnRecordVersion", "schemaVersion"};
      observation := SetDefault(observation, "observationId", Str(urn));
      assert observation == ObservationEntry(q, urn);
      var result := store.Append(dppId, "materialObservations", observation, "observationId", a);
      if result.Err? {
        return Failed(result.fault);
      }
      var response := Obj(map["observationId" := Member(observation, "observationId", Null), "dppId" := Str(dppId),
                              "recordVersion" := Member(result.value, "recordVersion", Null)]);
      Remember(key, payload, response);
      return Response(response);
    }

    method Commission(principal: Principal, idempotencyKey: Option<string>, dppId: string, payload: Body, a: Ambient)
      returns (reply: Reply)
      requires store.Valid()
      modifies this`memory, store
      ensures store.Valid()
      ensures var q := Request(principal, idempotencyKey, Operation.CommissionCarrier, dppId, payload);
        (State(), reply) == Post(store.profile, policy, old(State()), q, "", a)
    {
      hide AllShaped, KeyOf, BodyText, StoreSpec.Commission;
      var q := Request(principal, idempotencyKey, Operation.CommissionCarrier, dppId, payload);
      if !policy.allows(principal, Operation.CommissionCarrier) {
        return Forbidden;
      }
      var key := KeyOf(q);
      var known := Recall(key, payload);
      if known.Some? {
        return known.value;
      }
      var result := store.CommissionCarrier(dppId, Fields(payload), a);
      if result.Err? {
        return Failed(result.fault);
      }
      var response := Obj(map["dppId" := Str(dppId), "recordVersion" := Member(result.value, "recordVersion", Null),
                              "carriers" := Member(result.value, "carriers", Null)]);
      Remember(key, payload, response);
      return Response(response);
    }
  }
}
