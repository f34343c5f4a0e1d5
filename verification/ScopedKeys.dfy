// Idempotency keys, scoped to the caller, the operation and the resource (api.py).

module ScopedKeys {
  import opened Wrappers
  import opened Quoting

  datatype Principal = Principal(subject: string, organisation: Option<string>, role: string)

  datatype Scope = Scope(principal: Principal, operation: string, resource: string, key: string)

  // A member of the list: a string, or null.
  function MemberText(s: Option<string>): (t: string)
    ensures t != "" && (t[0] == '"' <==> s.Some?)
  {
    if s.Some? then Quote(s.value, true) else "null"
  }

  function Joined(members: seq<Option<string>>): string {
    if members == [] then ""
    else MemberText(members[0]) + if |members| == 1 then "" else ", " + Joined(members[1..])
  }

  function Members(s: Scope): seq<Option<string>> {
    [Some(s.principal.subject), s.principal.organisation, Some(s.principal.role), Some(s.operation), Some(s.resource),
     Some(s.key)]
  }

  // json.dumps of the list of members
  function ScopedKey(s: Scope): string {
    "[" + Joined(Members(s)) + "]"
  }

  // A member and what follows it can be told apart.
  lemma SplitMember(a: Option<string>, s: string, b: Option<string>, t: string)
    requires MemberText(a) + s == MemberText(b) + t
    ensures a == b && s == t
  {
    assert (MemberText(a) + s)[0] == MemberText(a)[0] && (MemberText(b) + t)[0] == MemberText(b)[0];
    if a.Some? {
      ParseQuotedString(a.value, true, s);
      ParseQuotedString(b.value, true, t);
    } else {
      assert ("null" + s)[4..] == s && ("null" + t)[4..] == t;
    }
  }

  lemma {:induction false} JoinedInjective(a: seq<Option<string>>, b: seq<Option<string>>)
    requires |a| == |b| && Joined(a) == Joined(b)
    ensures a == b
  {
    hide MemberText;
    if a != [] {
      var s := if |a| == 1 then "" else ", " + Joined(a[1..]);
      var t := if |b| == 1 then "" else ", " + Joined(b[1..]);
      SplitMember(a[0], s, b[0], t);
      if |a| > 1 {
        assert s[2..] == Joined(a[1..]) && t[2..] == Joined(b[1..]);
        JoinedInjective(a[1..], b[1..]);
      }
      assert a == [a[0]] + a[1..] && b == [b[0]] + b[1..];
    }
  }

  // Two requests share a scoped key only when subject, organisation, role, operation,
  // resource and key all agree.
  lemma ScopedKeyInjective(s: Scope, t: Scope)
    ensures ScopedKey(s) == ScopedKey(t) <==> s == t
  {
    hide Joined;
    if ScopedKey(s) == ScopedKey(t) {
      var m, n := Joined(Members(s)), Joined(Members(t));
      assert ScopedKey(s)[1..|ScopedKey(s)| - 1] == m && ScopedKey(t)[1..|ScopedKey(t)| - 1] == n;
      JoinedInjective(Members(s), Members(t));
      assert forall i :: 0 <= i < 6 ==> Members(s)[i] == Members(t)[i];
      SameMembers(s, t);
    }
  }

  lemma SameMembers(s: Scope, t: Scope)
    requires Members(s) == Members(t)
    ensures s == t
  {
    var m, n := Members(s), Members(t);
    assert m[0] == n[0] && m[1] == n[1] && m[2] == n[2] && m[3] == n[3] && m[4] == n[4] && m[5] == n[5];
  }
}
