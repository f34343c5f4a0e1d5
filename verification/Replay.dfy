// The four creating requests of the API and their idempotent replay (api.py, store.py).

module Replay {
  import opened Wrappers
  import opened Values
  import opened KeySort
  import opened Records
  import opened StoreSpec
  import opened StoreSteps
  import opened ScopedKeys
  import PythonValues
  import Canonical

  datatype Operation = CreateDpp | AddEvent | AddObservation | CommissionCarrier

  function OperationName(op: Operation): (name: string)
    ensures name != ""
  {
    match op
    case CreateDpp => "create"
    case AddEvent => "event"
    case AddObservation => "observation"
    case CommissionCarrier => "carrier"
  }

  // The object a body was parsed to.
  type Body = seq<Entry<PythonValues.Json>>

  // The value it stands for, as the store takes it.
  function Fields(body: Body): Record {
    PythonValues.DenotePairs(body)
  }

  // A POST: who asks for what, under which idempotency key.
  datatype Request = Request(principal: Principal, key: Option<string>, op: Operation, dppId: string, body: Body)

  datatype Remembered = Remembered(text: string, response: Value)

  datatype Service = Service(store: StoreState, memory: map<string, Remembered>)

  datatype Reply =
    | Response(body: Value)
    | Forbidden
    | NotCanonical            // the body has no canonical text
    | KeyConflict
    | Failed(fault: Fault)

  // What the caller's scopes allow.
  datatype Policy = Policy(allows: (Principal, Operation) -> bool)

  function KeyOf(q: Request): Option<string> {
    if q.key.None? then None
    else
      Some(ScopedKey(Scope(q.principal, OperationName(q.op), if q.op.CreateDpp? then "" else q.dppId, q.key.value)))
  }

  // canonicalise(body), None where it raises.
  function BodyText(body: Body): Option<string> {
    Canonical.Canonicalise(PythonValues.Dict(body))
  }

  // ------------------------------------------------------------ the requests

  function Organisation(p: Principal): string {
    if p.organisation.Some? && p.organisation.value != "" then p.organisation.value else "urn:example:org:" + p.role
  }

  function EventEntry(q: Request, urn: string, a: Ambient): Record {
    SetDefault(SetDefault(SetDefault(Fields(q.body), "eventId", Str(urn)), "recordedAt", Str(a.now)),
               "actorOrganisationId", Str(Organisation(q.principal)))
  }

  function ObservationEntry(q: Request, urn: string): Record {
    SetDefault(Fields(q.body) - {"observationType", "basedOnRecordVersion", "schemaVersion"}, "observationId", Str(urn))
  }

  // The write a request makes; urn is the identifier generated for a new entry.
  function WriteOf(q: Request, urn: string, a: Ambient): Write {
    match q.op
    case CreateDpp => CreateWrite(Fields(q.body))
    case AddEvent => AppendWrite(q.dppId, "lifecycleEvents", EventEntry(q, urn, a), "eventId")
    case AddObservation => AppendWrite(q.dppId, "materialObservations", ObservationEntry(q, urn), "observationId")
    case CommissionCarrier => CommissionWrite(q.dppId, Fields(q.body))
  }

  function ResponseOf(q: Request, urn: string, a: Ambient, record: Record): Value {
    var version := Member(record, "recordVersion", Null);
    match q.op
    case CreateDpp => Obj(record)
    case AddEvent => Obj(map["eventId" := Member(EventEntry(q, urn, a), "eventId", Null), "dppId" := Str(q.dppId),
                             "recordVersion" := version])
    case AddObservation => Obj(map["observationId" := Member(ObservationEntry(q, urn), "observationId", Null),
                                   "dppId" := Str(q.dppId), "recordVersion" := version])
    case CommissionCarrier => Obj(map["dppId" := Str(q.dppId), "recordVersion" := version,
                                      "carriers" := Member(record, "carriers", Null)])
  }

  // The first answer, without regard to what is remembered.
  function Execute(p: Profile, s: StoreState, q: Request, urn: string, a: Ambient): (StoreState, Reply)
    requires AllShaped(s)
  {
    var (t, result) := Apply(p, s, WriteOf(q, urn, a), a);
    (t, if result.Ok? then Response(ResponseOf(q, urn, a, result.value)) else Failed(result.fault))
  }

  // PassportStore.idempotent
  function Idempotent(memory: map<string, Remembered>, key: Option<string>, body: Body): Option<Reply> {
    if key.None? then None
    else if BodyText(body).None? then Some(NotCanonical)
    else if key.value !in memory then None
    else if memory[key.value].text != BodyText(body).value then Some(KeyConflict)
    else Some(Response(memory[key.value].response))
  }

  // PassportStore.remember
  function Remember(memory: map<string, Remembered>, key: Option<string>, body: Body, response: Value)
    : map<string, Remembered>
    requires key.Some? ==> BodyText(body).Some?
  {
    if key.None? then memory else memory[key.value := Remembered(BodyText(body).value, response)]
  }

  function Post(p: Profile, x: Policy, y: Service, q: Request, urn: string, a: Ambient): (Service, Reply)
    requires AllShaped(y.store)
  {
    if !x.allows(q.principal, q.op) then (y, Forbidden)
    else
      var known := Idempotent(y.memory, KeyOf(q), q.body);
      if known.Some? then (y, known.value)
      else
        var (t, reply) := Execute(p, y.store, q, urn, a);
        (Service(t, if reply.Response? then Remember(y.memory, KeyOf(q), q.body, reply.body) else y.memory), reply)
  }

  // --------------------------------------------------------------- whole runs

  // A request, or anything else that happens to the store.
  datatype Step = Posted(q: Request, urn: string, a: Ambient, reply: Reply) | Otherwise

  ghost predicate IsStep(p: Profile, x: Policy, y: Service, e: Step, z: Service) {
    && AllShaped(y.store) && AllShaped(z.store)
    && match e
       case Posted(q, urn, a, reply) =>
         PythonValues.WellFormed(PythonValues.Dict(q.body)) && (z, reply) == Post(p, x, y, q, urn, a)
       case Otherwise => z.memory == y.memory
  }

  ghost predicate IsRun(p: Profile, x: Policy, states: seq<Service>, steps: seq<Step>) {
    && |states| == |steps| + 1 && states[0].memory == map[]
    && forall i :: 0 <= i < |steps| ==> IsStep(p, x, states[i], steps[i], states[i + 1])
  }

  lemma PostKeepsShape(p: Profile, x: Policy, y: Service, q: Request, urn: string, a: Ambient)
    requires AllShaped(y.store)
    ensures AllShaped(Post(p, x, y, q, urn, a).0.store)
  {
    hide AllShaped, Apply, Idempotent, Remember, WriteOf, ResponseOf;
    ApplyKeepsShape(p, y.store, WriteOf(q, urn, a), a);
  }

  // Did the i-th step answer a request with this key?
  ghost predicate Answers(steps: seq<Step>, i: nat, key: string)
    requires i < |steps|
  {
    steps[i].Posted? && steps[i].reply.Response? && KeyOf(steps[i].q) == Some(key)
  }

  lemma RememberedStays(p: Profile, x: Policy, y: Service, e: Step, z: Service, key: string)
    requires IsStep(p, x, y, e, z) && key in y.memory
    ensures key in z.memory && z.memory[key] == y.memory[key]
  {
    hide AllShaped, Execute, BodyText, KeyOf;
  }

  // No remembered response is ever overwritten or forgotten.
  lemma {:induction false} NeverOverwritten(p: Profile, x: Policy, states: seq<Service>, steps: seq<Step>,
                                            i: nat, j: nat, key: string)
    requires IsRun(p, x, states, steps) && i <= j < |states| && key in states[i].memory
    ensures key in states[j].memory && states[j].memory[key] == states[i].memory[key]
  {
    hide IsStep;
    if i < j {
      NeverOverwritten(p, x, states, steps, i, j - 1, key);
      assert IsStep(p, x, states[j - 1], steps[j - 1], states[(j - 1) + 1]);
      RememberedStays(p, x, states[j - 1], steps[j - 1], states[j], key);
    }
  }

  lemma AnswerIsRemembered(p: Profile, x: Policy, y: Service, e: Step, z: Service, key: string)
    requires IsStep(p, x, y, e, z) && e.Posted? && e.reply.Response? && KeyOf(e.q) == Some(key)
    ensures BodyText(e.q.body).Some? && key in z.memory
            && z.memory[key] == Remembered(BodyText(e.q.body).value, e.reply.body)
  {
    hide AllShaped, Execute, BodyText, KeyOf;
  }

  // What a repeated request gets: the first response if its body means the same JSON value,
  // a refusal otherwise; either way nothing changes.
  lemma RepeatsFirst(p: Profile, x: Policy, states: seq<Service>, steps: seq<Step>, i: nat, j: nat)
    requires IsRun(p, x, states, steps) && i < j < |steps| && steps[i].Posted? && steps[j].Posted?
    requires steps[i].reply.Response? && KeyOf(steps[i].q).Some? && KeyOf(steps[i].q) == KeyOf(steps[j].q)
    requires x.allows(steps[j].q.principal, steps[j].q.op) && BodyText(steps[j].q.body).Some?
    ensures states[j + 1] == states[j]
    ensures steps[j].reply == if Fields(steps[j].q.body) == Fields(steps[i].q.body) then steps[i].reply else KeyConflict
  {
    hide AllShaped, Execute, BodyText, KeyOf;
    var key, first, again := KeyOf(steps[i].q).value, steps[i].q.body, steps[j].q.body;
    assert IsStep(p, x, states[i], steps[i], states[i + 1]);
    AnswerIsRemembered(p, x, states[i], steps[i], states[i + 1], key);
    NeverOverwritten(p, x, states, steps, i + 1, j, key);
    assert IsStep(p, x, states[j], steps[j], states[j + 1]);
    SameBodyText(first, again);
  }

  lemma SameBodyText(first: Body, again: Body)
    requires PythonValues.WellFormed(PythonValues.Dict(first)) && PythonValues.WellFormed(PythonValues.Dict(again))
    requires BodyText(first).Some? && BodyText(again).Some?
    ensures BodyText(first) == BodyText(again) <==> Fields(first) == Fields(again)
  {
    hide PythonValues.WellFormed, PythonValues.DenotePairs, Canonical.Canonicalise;
    Canonical.SameTextIffSameValue(PythonValues.Dict(first), PythonValues.Dict(again));
  }

  // Keys are shared only within one scope.
  lemma KeysSeparateScopes(q: Request, r: Request)
    requires q.key.Some? && r.key.Some?
    ensures KeyOf(q) == KeyOf(r)
            <==> q.principal == r.principal && q.op == r.op && q.key == r.key && (q.op.CreateDpp? || q.dppId == r.dppId)
  {
    ScopedKeyInjective(
      Scope(q.principal, OperationName(q.op), if q.op.CreateDpp? then "" else q.dppId, q.key.value),
      Scope(r.principal, OperationName(r.op), if r.op.CreateDpp? then "" else r.dppId, r.key.value));
    NamesDiffer(q.op, r.op);
  }

  lemma NamesDiffer(a: Operation, b: Operation)
    ensures OperationName(a) == OperationName(b) <==> a == b
  {
    assert "create"[0] == 'c' && "event"[0] == 'e' && "observation"[0] == 'o';
    assert |"create"| == 6 && |"carrier"| == 7;
  }

  lemma OnlyAnswersAreNew(p: Profile, x: Policy, y: Service, e: Step, z: Service, key: string)
    requires IsStep(p, x, y, e, z) && key in z.memory && key !in y.memory
    ensures e.Posted? && e.reply.Response? && KeyOf(e.q) == Some(key)
  {
    hide AllShaped, Execute, BodyText, KeyOf;
  }

  lemma {:induction false} RememberedWasAnswered(p: Profile, x: Policy, states: seq<Service>, steps: seq<Step>,
                                                 j: nat, key: string) returns (i: nat)
    requires IsRun(p, x, states, steps) && j < |states| && key in states[j].memory
    ensures i < j && Answers(steps, i, key)
  {
    hide IsStep, KeyOf;
    assert IsStep(p, x, states[j - 1], steps[j - 1], states[(j - 1) + 1]);
    if key in states[j - 1].memory {
      i := RememberedWasAnswered(p, x, states, steps, j - 1, key);
    } else {
      OnlyAnswersAreNew(p, x, states[j - 1], steps[j - 1], states[j], key);
      i := j - 1;
    }
  }

  // A permitted request is executed exactly when it carries no key or no earlier request
  // with its key was answered.
  lemma ExecutesUnlessAnswered(p: Profile, x: Policy, states: seq<Service>, steps: seq<Step>, j: nat)
    requires IsRun(p, x, states, steps) && j < |steps| && steps[j].Posted?
    requires x.allows(steps[j].q.principal, steps[j].q.op) && BodyText(steps[j].q.body).Some?
    ensures var key := KeyOf(steps[j].q);
      Idempotent(states[j].memory, key, steps[j].q.body).None?
      <==> key.None? || forall i :: 0 <= i < j ==> !Answers(steps, i, key.value)
    ensures Idempotent(states[j].memory, KeyOf(steps[j].q), steps[j].q.body).None? ==>
              AllShaped(states[j].store)
              && (states[j + 1].store, steps[j].reply)
                 == Execute(p, states[j].store, steps[j].q, steps[j].urn, steps[j].a)
  {
    hide AllShaped, Execute, BodyText, KeyOf;
    assert IsStep(p, x, states[j], steps[j], states[j + 1]);
    var key := KeyOf(steps[j].q);
    if key.Some? {
      if key.value in states[j].memory {
        var i := RememberedWasAnswered(p, x, states, steps, j, key.value);
      }
      if i :| 0 <= i < j && Answers(steps, i, key.value) {
        assert IsStep(p, x, states[i], steps[i], states[i + 1]);
        AnswerIsRemembered(p, x, states[i], steps[i], states[i + 1], key.value);
        NeverOverwritten(p, x, states, steps, i + 1, j, key.value);
      }
    }
  }

  // ------------------------------------------------------ what a request does

  // The entry has the body's members, and these for those the body leaves out.
  ghost predicate Completes(entry: Record, body: Record, defaults: Record) {
    && entry.Keys == body.Keys + defaults.Keys
    && forall key :: key in entry ==> entry[key] == if key in body then body[key] else defaults[key]
  }

  lemma SetDefaultIs(r: Record, key: string, value: Value)
    ensures Completes(SetDefault(r, key, value), r, map[key := value])
  {
  }

  lemma CompletesOnce(a: Record, b: Record, body: Record, defaults: Record)
    requires Completes(a, body, defaults) && Completes(b, body, defaults)
    ensures a == b
  {
  }

  lemma EventIs(q: Request, urn: string, a: Ambient)
    ensures Completes(EventEntry(q, urn, a), Fields(q.body),
                      map["eventId" := Str(urn), "recordedAt" := Str(a.now),
                          "actorOrganisationId" := Str(Organisation(q.principal))])
  {
    hide Fields, Organisation;
  }

  lemma ObservationIs(q: Request, urn: string)
    ensures Completes(ObservationEntry(q, urn),
                      Fields(q.body) - {"observationType", "basedOnRecordVersion", "schemaVersion"},
                      map["observationId" := Str(urn)])
  {
    hide Fields;
  }

  // The answer to an addition names the entry, the passport and the version.
  ghost predicate NamesAddition(reply: Value, idField: string, entry: Record, id: string, record: Record) {
    && reply.Obj? && reply.members.Keys == {idField, "dppId", "recordVersion"}
    && idField in entry && reply.members[idField] == entry[idField] && reply.members["dppId"] == Str(id)
    && reply.members["recordVersion"] == if "recordVersion" in record then record["recordVersion"] else Null
  }

  // A creation stores the body; an event goes to the lifecycle events and an observation to
  // the material observations, completed; a carrier is commissioned as asked. Failures are
  // passed on, and nothing else is written.
  lemma RequestDoes(p: Profile, s: StoreState, q: Request, urn: string, a: Ambient, entry: Record)
    requires AllShaped(s)
    requires q.op.AddEvent? ==>
               Completes(entry, Fields(q.body),
                         map["eventId" := Str(urn), "recordedAt" := Str(a.now),
                             "actorOrganisationId" := Str(if q.principal.organisation.Some?
                                                            && q.principal.organisation.value != "" then
                                                            q.principal.organisation.value
                                                          else "urn:example:org:" + q.principal.role)])
    requires q.op.AddObservation? ==>
               Completes(entry, Fields(q.body) - {"observationType", "basedOnRecordVersion", "schemaVersion"},
                         map["observationId" := Str(urn)])
    ensures var (t, reply) := Execute(p, s, q, urn, a);
      var (u, res) := match q.op
                      case CreateDpp => Create(p, s, Fields(q.body), a)
                      case AddEvent => Append(p, s, q.dppId, "lifecycleEvents", entry, "eventId", a)
                      case AddObservation => Append(p, s, q.dppId, "materialObservations", entry, "observationId", a)
                      case CommissionCarrier => Commission(p, s, q.dppId, Fields(q.body), a);
      && t == u
      && match res
         case Err(fault) => reply == Failed(fault)
         case Ok(record) =>
           && reply.Response?
           && match q.op
              case CreateDpp => reply.body == Obj(record)
              case AddEvent => NamesAddition(reply.body, "eventId", entry, q.dppId, record)
              case AddObservation => NamesAddition(reply.body, "observationId", entry, q.dppId, record)
              case CommissionCarrier =>
                && reply.body.Obj? && reply.body.members.Keys == {"dppId", "recordVersion", "carriers"}
                && reply.body.members["dppId"] == Str(q.dppId)
                && reply.body.members["recordVersion"] == Member(record, "recordVersion", Null)
                && reply.body.members["carriers"] == Member(record, "carriers", Null)
  {
    hide AllShaped, Fields, Organisation, EventEntry, ObservationEntry, Create, Append, Commission, Completes;
    match q.op
    case AddEvent =>
      ActorIs(q.principal);
      EventIs(q, urn, a);
      EntryIs(entry, EventEntry(q, urn, a), Fields(q.body),
              map["eventId" := Str(urn), "recordedAt" := Str(a.now),
                  "actorOrganisationId" := Str(Organisation(q.principal))], "eventId");
    case AddObservation =>
      ObservationIs(q, urn);
      EntryIs(entry, ObservationEntry(q, urn),
              Fields(q.body) - {"observationType", "basedOnRecordVersion", "schemaVersion"},
              map["observationId" := Str(urn)], "observationId");
    case _ =>
  }

  lemma ActorIs(p: Principal)
    ensures Organisation(p) == if p.organisation.Some? && p.organisation.value != "" then p.organisation.value
                               else "urn:example:org:" + p.role
  {
  }

  lemma EntryIs(a: Record, b: Record, body: Record, defaults: Record, idField: string)
    requires Completes(a, body, defaults) && Completes(b, body, defaults) && idField in defaults
    ensures a == b && idField in a
  {
    CompletesOnce(a, b, body, defaults);
  }

  // Before anything else: who may not ask is refused, and with a key a body without a
  // canonical text is; neither changes anything.
  lemma PostRefuses(p: Profile, x: Policy, y: Service, q: Request, urn: string, a: Ambient)
    requires AllShaped(y.store)
    ensures Post(p, x, y, q, urn, a).1 == Forbidden <==> !x.allows(q.principal, q.op)
    ensures Post(p, x, y, q, urn, a).1 == NotCanonical
            <==> x.allows(q.principal, q.op) && q.key.Some?
                 && Canonical.Canonicalise(PythonValues.Dict(q.body)).None?
    ensures Post(p, x, y, q, urn, a).1 in {Forbidden, NotCanonical} ==> Post(p, x, y, q, urn, a).0 == y
  {
    hide AllShaped, Apply, WriteOf, ResponseOf, Canonical.Canonicalise;
  }
}
