// Records, collections and carriers as the store sees them, and the entity tag.

module Records {
  import opened Wrappers
  import opened Values
  import opened Projection

  // Collections that only grow.
  const PROTECTED: set<string> := {"materialObservations", "lifecycleEvents", "sortingDecisions", "integrity"}

  // Everything the store does not decide itself.
  datatype Profile = Profile(
    sha: string -> string,          // hex SHA-256 of a text
    valid: Record -> bool,          // validate_payload, beyond the shape below
    serialisable: Record -> bool    // the projection has only plain numbers
  )

  // Values read from the environment during one operation: the time of day, the monotonic
  // clock at the commit and again when the commit is projected, and generated identifiers.
  datatype Ambient = Ambient(
    now: string,
    ms: real,
    projectedMs: real,
    dppUrn: string,
    carrierUrn: string,
    evidenceUrn: string
  )

  predicate IsArrayOfObjects(v: Value) {
    v.Arr? && forall i :: 0 <= i < |v.items| ==> v.items[i].Obj?
  }

  predicate IsCarrier(v: Value) {
    && v.Obj?
    && StrOpt(v.members, "bindingStatus").Some?
    && StrOpt(v.members, "encodedIdentifier").Some?
    && (v.members["bindingStatus"] != Str("commissioned") ==> "closedAt" in v.members)
  }

  // The part of the record schema the store relies on.
  predicate Shaped(r: Record) {
    && StrOpt(r, "dppId").Some? && StrOpt(r, "status").Some? && StrOpt(r, "updatedAt").Some?
    && "recordVersion" in r && r["recordVersion"].Num?
    && r["recordVersion"].num.k == 0 && r["recordVersion"].num.m >= 1
    && "identity" in r && r["identity"].Obj?
    && "product" in r && r["product"].Obj?
    && (forall c :: c in PROTECTED && c in r ==> IsArrayOfObjects(r[c]))
    && ("carriers" in r ==> r["carriers"].Arr?
                            && forall i :: 0 <= i < |r["carriers"].items| ==> IsCarrier(r["carriers"].items[i]))
  }

  function DppId(r: Record): string
    requires Shaped(r)
  {
    r["dppId"].str
  }

  function Version(r: Record): int
    requires Shaped(r)
  {
    r["recordVersion"].num.m
  }

  // validate_payload and the digest both succeed.
  predicate Accepts(p: Profile, r: Record) {
    Shaped(r) && p.valid(r) && p.serialisable(r)
  }

  function Digest(p: Profile, r: Record): string {
    p.sha(CanonicalText(r))
  }

  // ------------------------------------------------------ Python's equality

  // True == 1 and False == 0 in Python; two values are equal when these agree.
  function Norm(v: Value): Value {
    match v
    case Bool(b) => IntVal(if b then 1 else 0)
    case Arr(items) => Arr(seq(|items|, i requires 0 <= i < |items| => Norm(items[i])))
    case Obj(m) => Obj(map k | k in m :: Norm(m[k]))
    case _ => v
  }

  function Norms(vs: seq<Value>): (r: seq<Value>)
    ensures |r| == |vs| && forall i :: 0 <= i < |vs| ==> r[i] == Norm(vs[i])
  {
    seq(|vs|, i requires 0 <= i < |vs| => Norm(vs[i]))
  }

  // ----------------------------------------------------------- collections

  // One version of a collection continues another.
  predicate Extends(before: Record, after: Record, c: string) {
    Norms(ArrayAt(before, c)) <= Norms(ArrayAt(after, c))
  }

  // _guard_append_only on one collection of a stored record.
  predicate GuardCollection(before: Record, after: Record, c: string) {
    var kept, grown := ArrayAt(before, c), ArrayAt(after, c);
    (c in after ==> after[c].Arr?) && |kept| <= |grown| && Norms(grown[..|kept|]) == Norms(kept)
  }

  predicate Guard(before: Record, after: Record) {
    forall c :: c in PROTECTED ==> GuardCollection(before, after, c)
  }

  lemma GuardExtends(before: Record, after: Record, c: string)
    requires GuardCollection(before, after, c)
    ensures Extends(before, after, c)
  {
    var kept, grown := ArrayAt(before, c), ArrayAt(after, c);
    assert Norms(grown)[..|kept|] == Norms(grown[..|kept|]);
  }

  // -------------------------------------------------------------- carriers

  function Carriers(r: Record): (cs: seq<Value>) {
    ArrayAt(r, "carriers")
  }

  predicate Commissioned(c: Value) {
    c.Obj? && StrOpt(c.members, "bindingStatus") == Some("commissioned")
  }

  function Encoded(c: Value): string
    requires IsCarrier(c)
  {
    c.members["encodedIdentifier"].str
  }

  function Close(c: Value, now: string): Value {
    if Commissioned(c) then
      Obj(c.members["bindingStatus" := Str("replaced")]["closedAt" := Str(now)])
    else c
  }

  function CloseAll(cs: seq<Value>, now: string): seq<Value> {
    seq(|cs|, i requires 0 <= i < |cs| => Close(cs[i], now))
  }

  // Identifiers of the commissioned carriers.
  function CommissionedIds(cs: seq<Value>): (ids: set<string>)
    requires forall i :: 0 <= i < |cs| ==> IsCarrier(cs[i])
    ensures forall e :: e in ids <==> exists i :: 0 <= i < |cs| && Commissioned(cs[i]) && Encoded(cs[i]) == e
  {
    set i | 0 <= i < |cs| && Commissioned(cs[i]) :: Encoded(cs[i])
  }
}

module EntityTag {
  import opened Decimals

  function StripFront(s: string): string {
    if s != "" && s[0] == '"' then StripFront(s[1..]) else s
  }

  function StripBack(s: string): string {
    if s != "" && s[|s| - 1] == '"' then StripBack(s[..|s| - 1]) else s
  }

  // s.strip('"')
  function Strip(s: string): string {
    StripBack(StripFront(s))
  }

  // s.rsplit(":", 1)[-1]
  function AfterLastColon(s: string): string {
    if s == "" then ""
    else if s[|s| - 1] == ':' then ""
    else AfterLastColon(s[..|s| - 1]) + [s[|s| - 1]]
  }

  function ETag(dppId: string, version: int): string {
    "\"" + ("dpp-" + AfterLastColon(dppId) + "-v" + IntText(version)) + "\""
  }

  // The If-Match check of an update.
  predicate Matches(ifMatch: string, dppId: string, version: int) {
    Strip(ifMatch) == Strip(ETag(dppId, version)) || Strip(ifMatch) == "*"
  }

  lemma StripQuoted(s: string)
    requires s != "" && s[0] != '"' && s[|s| - 1] != '"'
    ensures Strip("\"" + s + "\"") == s
  {
    var t := "\"" + s + "\"";
    assert t[1..] == s + "\"";
    assert (s + "\"")[0] == s[0];
    assert StripFront(t) == s + "\"";
    assert (s + "\"")[|s|] == '"' && (s + "\"")[..|s|] == s;
    assert StripBack(s + "\"") == StripBack(s) == s;
  }

  lemma StripETag(dppId: string, version: int)
    ensures Strip(ETag(dppId, version)) == "dpp-" + AfterLastColon(dppId) + "-v" + IntText(version)
    ensures Strip(ETag(dppId, version)) != "*"
  {
    var front, back := "dpp-" + AfterLastColon(dppId) + "-v", IntText(version);
    assert AllDigits(Digits(Abs(version)));
    assert back[|back| - 1] == Whole(Abs(version), 0)[|Whole(Abs(version), 0)| - 1];
    assert (front + back)[0] == 'd' && (front + back)[|front + back| - 1] == back[|back| - 1];
    StripQuoted(front + back);
  }

  lemma {:induction false} LastPart(s: string)
    requires ':' !in s
    ensures AfterLastColon(s) == s
  {
    if s != "" {
      assert s[|s| - 1] in s && forall c :: c in s[..|s| - 1] ==> c in s;
      LastPart(s[..|s| - 1]);
    }
  }

  lemma {:induction false} LastPartOf(front: string, s: string)
    requires ':' !in s
    ensures AfterLastColon(front + ":" + s) == s
  {
    var t := front + ":" + s;
    if s == "" {
      assert t[|t| - 1] == ':';
    } else {
      assert s[|s| - 1] in s && forall c :: c in s[..|s| - 1] ==> c in s;
      assert t[..|t| - 1] == front + ":" + s[..|s| - 1];
      LastPartOf(front, s[..|s| - 1]);
    }
  }

  // The tag names the part of the identifier behind its last colon and the version, in
  // quotes; a client may send it with the quotes or without.
  lemma TagText(front: string, short: string, version: int)
    requires ':' !in short
    ensures ETag(front + ":" + short, version) == "\"" + ("dpp-" + short + "-v" + IntText(version)) + "\""
    ensures ETag(short, version) == "\"" + ("dpp-" + short + "-v" + IntText(version)) + "\""
    ensures Matches("dpp-" + short + "-v" + IntText(version), short, version)
    ensures Matches(ETag(short, version), short, version) && Matches("*", short, version)
  {
    LastPartOf(front, short);
    LastPart(short);
    StripETag(short, version);
    var inner, back := "dpp-" + short + "-v" + IntText(version), IntText(version);
    assert AllDigits(Digits(Abs(version)));
    assert back[|back| - 1] == Whole(Abs(version), 0)[|Whole(Abs(version), 0)| - 1];
    assert inner[0] == 'd' && inner[|inner| - 1] == back[|back| - 1];
    assert Strip(inner) == inner;
    assert StripFront("*") == "*" && StripBack("*") == "*";
  }

  // A tag of one passport matches only the version it was issued for.
  lemma ETagNamesVersion(dppId: string, v: int, w: int)
    ensures Matches(ETag(dppId, v), dppId, w) <==> v == w
  {
    StripETag(dppId, v);
    StripETag(dppId, w);
    if Strip(ETag(dppId, v)) == Strip(ETag(dppId, w)) {
      var front := "dpp-" + AfterLastColon(dppId) + "-v";
      assert (front + IntText(v))[|front|..] == IntText(v) && (front + IntText(w))[|front|..] == IntText(w);
      IntTextInjective(v, w);
    }
  }

  lemma IntTextInjective(v: int, w: int)
    requires IntText(v) == IntText(w)
    ensures v == w
  {
    ParseDecimalText(Values.RawDecimal(v, 0), "");
    ParseDecimalText(Values.RawDecimal(w, 0), "");
    assert IntText(v) + "" == IntText(v) && IntText(w) + "" == IntText(w);
  }
}
