// The canonical text of a value, after section 3.2 of RFC 8785, and a decoder that
// recovers the value from it.

module JsonText {
  import opened Wrappers
  import opened Values
  import opened KeySort
  import opened Decimals
  import opened Quoting

  function Text(v: Value): (t: string)
    ensures t != ""
    ensures t[0] != ']' && t[0] != '}'
    decreases v, 2, 0
  {
    match v
    case Null => "null"
    case Bool(b) => if b then "true" else "false"
    case Num(d) => DecimalText(d)
    case Str(s) => Quote(s, false)
    case Arr(items) => "[" + ItemsText(items) + "]"
    case Obj(m) => "{" + MembersText(v, SortedKeys(m.Keys)) + "}"
  }

  function ItemsText(items: seq<Value>): (t: string)
    ensures items != [] ==> t != "" && t[0] != ']'
    decreases items, 1, |items|
  {
    if items == [] then ""
    else if |items| == 1 then Text(items[0])
    else Text(items[0]) + "," + ItemsText(items[1..])
  }

  function MembersText(v: Value, keys: seq<string>): (t: string)
    requires v.Obj? && forall k :: k in keys ==> k in v.members
    ensures keys != [] ==> t != "" && t[0] == '"'
    decreases v, 1, |keys|
  {
    if keys == [] then ""
    else
      var member := Quote(keys[0], false) + ":" + Text(v.members[keys[0]]);
      if |keys| == 1 then member else member + "," + MembersText(v, keys[1..])
  }

  // -------------------------------------------------------------- decoder

  function ParseWord(t: string, word: string, v: Value): (r: Option<(Value, string)>)
    requires word != ""
    ensures r.Some? ==> |r.value.1| < |t|
  {
    if |word| <= |t| && t[..|word|] == word then Some((v, t[|word|..])) else None
  }

  function ParseValue(t: string): (r: Option<(Value, string)>)
    ensures r.Some? ==> |r.value.1| < |t|
    decreases |t|, 1
  {
    if t == "" then None
    else if t[0] == 'n' then ParseWord(t, "null", Null)
    else if t[0] == 't' then ParseWord(t, "true", Bool(true))
    else if t[0] == 'f' then ParseWord(t, "false", Bool(false))
    else if t[0] == '"' then
      var (s, rest) :- ParseQuoted(t);
      Some((Str(s), rest))
    else if t[0] == '[' then
      if |t| > 1 && t[1] == ']' then Some((Arr([]), t[2..]))
      else
        var (items, rest) :- ParseItems(t[1..]);
        Some((Arr(items), rest))
    else if t[0] == '{' then
      if |t| > 1 && t[1] == '}' then Some((Obj(map[]), t[2..]))
      else
        var (members, rest) :- ParseMembers(t[1..]);
        Some((Obj(members), rest))
    else
      var (d, rest) :- ParseDecimal(t);
      Some((Num(d), rest))
  }

  // One or more values separated by commas, up to the closing bracket.
  function ParseItems(t: string): (r: Option<(seq<Value>, string)>)
    ensures r.Some? ==> |r.value.1| < |t|
    decreases |t|, 2
  {
    var (v, rest) :- ParseValue(t);
    if rest != "" && rest[0] == ']' then Some(([v], rest[1..]))
    else if rest != "" && rest[0] == ',' then
      var (vs, rest') :- ParseItems(rest[1..]);
      Some(([v] + vs, rest'))
    else None
  }

  // One or more members separated by commas, up to the closing brace.
  function ParseMembers(t: string): (r: Option<(map<string, Value>, string)>)
    ensures r.Some? ==> |r.value.1| < |t|
    decreases |t|, 2
  {
    var (k, rest) :- ParseQuoted(t);
    if rest == "" || rest[0] != ':' then None
    else
      var (v, rest') :- ParseValue(rest[1..]);
      if rest' != "" && rest'[0] == '}' then Some((map[k := v], rest'[1..]))
      else if rest' != "" && rest'[0] == ',' then
        var (m, rest'') :- ParseMembers(rest'[1..]);
        Some((m[k := v], rest''))
      else None
  }

  function Parse(t: string): Option<Value> {
    var (v, rest) :- ParseValue(t);
    if rest == "" then Some(v) else None
  }

  // ------------------------------------------------- one step of the decoder

  lemma DecodeArray(t: string, items: seq<Value>, rest: string)
    requires t != "" && t[0] != ']' && ParseItems(t) == Some((items, rest))
    ensures ParseValue("[" + t) == Some((Arr(items), rest))
  {
    var u := "[" + t;
    assert u[0] == '[' && u[1] == t[0] && u[1..] == t;
  }

  lemma DecodeObject(t: string, members: map<string, Value>, rest: string)
    requires t != "" && t[0] != '}' && ParseMembers(t) == Some((members, rest))
    ensures ParseValue("{" + t) == Some((Obj(members), rest))
  {
    var u := "{" + t;
    assert u[0] == '{' && u[1] == t[0] && u[1..] == t;
  }

  lemma DecodeEmpty(rest: string)
    ensures ParseValue("[]" + rest) == Some((Arr([]), rest))
    ensures ParseValue("{}" + rest) == Some((Obj(map[]), rest))
  {
    assert ("[]" + rest)[0] == '[' && ("[]" + rest)[1] == ']' && ("[]" + rest)[2..] == rest;
    assert ("{}" + rest)[0] == '{' && ("{}" + rest)[1] == '}' && ("{}" + rest)[2..] == rest;
  }

  lemma DecodeWord(word: string, v: Value, rest: string)
    requires (word, v) in {("null", Null), ("true", Bool(true)), ("false", Bool(false))}
    ensures ParseValue(word + rest) == Some((v, rest))
  {
    var t := word + rest;
    assert t[0] == word[0] && t[..|word|] == word && t[|word|..] == rest;
  }

  lemma DecodeNumber(d: Decimal, rest: string)
    requires EndsNumber(rest)
    ensures ParseValue(DecimalText(d) + rest) == Some((Num(d), rest))
  {
    var t := DecimalText(d) + rest;
    DecimalTextStart(d, rest);
    ParseDecimalText(d, rest);
    DecodeByDefault(t, d, rest);
  }

  lemma DecimalTextStart(d: Decimal, rest: string)
    ensures var t := DecimalText(d) + rest; t != "" && t[0] !in {'n', 't', 'f', '"', '[', '{'}
  {
  }

  lemma DecodeByDefault(t: string, d: Decimal, rest: string)
    requires t != "" && t[0] !in {'n', 't', 'f', '"', '[', '{'} && ParseDecimal(t) == Some((d, rest))
    ensures ParseValue(t) == Some((Num(d), rest))
  {
  }

  lemma DecodeString(s: string, rest: string)
    ensures ParseValue(Quote(s, false) + rest) == Some((Str(s), rest))
  {
    var t := Quote(s, false) + rest;
    assert t[0] == '"';
    ParseQuotedString(s, false, rest);
  }

  lemma DecodeLastItem(t: string, v: Value, rest: string)
    requires ParseValue(t) == Some((v, "]" + rest))
    ensures ParseItems(t) == Some(([v], rest))
  {
    assert ("]" + rest)[0] == ']' && ("]" + rest)[1..] == rest;
  }

  lemma DecodeNextItem(t: string, v: Value, after: string, vs: seq<Value>, rest: string)
    requires ParseValue(t) == Some((v, "," + after)) && ParseItems(after) == Some((vs, rest))
    ensures ParseItems(t) == Some(([v] + vs, rest))
  {
    assert ("," + after)[0] == ',' && ("," + after)[1..] == after;
  }

  lemma DecodeLastMember(k: string, t: string, v: Value, rest: string)
    requires ParseValue(t) == Some((v, "}" + rest))
    ensures ParseMembers(Quote(k, false) + (":" + t)) == Some((map[k := v], rest))
  {
    ParseQuotedString(k, false, ":" + t);
    assert (":" + t)[0] == ':' && (":" + t)[1..] == t;
    assert ("}" + rest)[0] == '}' && ("}" + rest)[1..] == rest;
  }

  lemma DecodeNextMember(k: string, t: string, v: Value, after: string, m: map<string, Value>, rest: string)
    requires ParseValue(t) == Some((v, "," + after)) && ParseMembers(after) == Some((m, rest))
    ensures ParseMembers(Quote(k, false) + (":" + t)) == Some((m[k := v], rest))
  {
    ParseQuotedString(k, false, ":" + t);
    assert (":" + t)[0] == ':' && (":" + t)[1..] == t;
    assert ("," + after)[0] == ',' && ("," + after)[1..] == after;
  }

  lemma Regroup(a: string, sep: string, b: string, close: string, rest: string)
    ensures (a + sep + b) + close + rest == a + (sep + (b + close + rest))
  {
  }

  lemma RegroupLast(name: string, text: string, rest: string)
    ensures (name + ":" + text) + "}" + rest == name + (":" + (text + ("}" + rest)))
  {
  }

  lemma RegroupMember(name: string, text: string, more: string, rest: string)
    ensures (name + ":" + text + "," + more) + "}" + rest
            == name + (":" + (text + ("," + (more + "}" + rest))))
  {
  }

  lemma Bracket(open: string, text: string, close: string, rest: string)
    ensures (open + text + close) + rest == open + (text + close + rest)
  {
  }

  ghost function Chosen(m: map<string, Value>, keys: seq<string>): map<string, Value>
    requires forall k :: k in keys ==> k in m
  {
    map k | k in keys :: m[k]
  }

  lemma ChosenAll(m: map<string, Value>, keys: seq<string>)
    requires forall k :: k in keys <==> k in m
    ensures Chosen(m, keys) == m
    ensures keys == [] ==> m == map[]
  {
    if keys == [] {
      assert forall k :: k in m ==> k in keys;
    }
  }

  lemma ChosenFirst(m: map<string, Value>, keys: seq<string>)
    requires keys != [] && forall k :: k in keys ==> k in m
    ensures Chosen(m, keys) == Chosen(m, keys[1..])[keys[0] := m[keys[0]]]
    ensures |keys| == 1 ==> Chosen(m, keys) == map[keys[0] := m[keys[0]]]
  {
    assert keys == [keys[0]] + keys[1..];
  }

  // ----------------------------------------------------------- round trip

  lemma {:induction false} ParseValueText(v: Value, rest: string)
    requires EndsNumber(rest)
    ensures ParseValue(Text(v) + rest) == Some((v, rest))
    decreases v, 3, 0
  {
    match v
    case Null => DecodeWord("null", v, rest);
    case Bool(b) => DecodeWord(if b then "true" else "false", v, rest);
    case Num(d) => DecodeNumber(d, rest);
    case Str(s) => DecodeString(s, rest);
    case Arr(items) => ParseArrayText(v, rest);
    case Obj(m) => ParseObjectText(v, rest);
  }

  lemma ParseArrayText(v: Value, rest: string)
    requires v.Arr?
    ensures ParseValue(Text(v) + rest) == Some((v, rest))
    decreases v, 1, 0
  {
    if v.items == [] {
      assert Text(v) == "[]";
      DecodeEmpty(rest);
    } else {
      ParseItemsText(v.items, rest);
      DecodeArray(ItemsText(v.items) + "]" + rest, v.items, rest);
      Bracket("[", ItemsText(v.items), "]", rest);
    }
  }

  lemma ParseObjectText(v: Value, rest: string)
    requires v.Obj?
    ensures ParseValue(Text(v) + rest) == Some((v, rest))
    decreases v, 2, 0
  {
    var keys := SortedKeys(v.members.Keys);
    ChosenAll(v.members, keys);
    if keys == [] {
      assert Text(v) == "{}";
      DecodeEmpty(rest);
    } else {
      ParseMembersText(v, keys, rest);
      DecodeObject(MembersText(v, keys) + "}" + rest, v.members, rest);
      Bracket("{", MembersText(v, keys), "}", rest);
    }
  }

  lemma {:induction false} ParseItemsText(items: seq<Value>, rest: string)
    requires items != []
    ensures ParseItems(ItemsText(items) + "]" + rest) == Some((items, rest))
    decreases items, 1, |items|
  {
    var first := Text(items[0]);
    if |items| == 1 {
      ParseValueText(items[0], "]" + rest);
      DecodeLastItem(first + ("]" + rest), items[0], rest);
      assert ItemsText(items) + "]" + rest == first + ("]" + rest);
      assert items == [items[0]];
    } else {
      var more := ItemsText(items[1..]);
      var after := more + "]" + rest;
      ParseValueText(items[0], "," + after);
      ParseItemsText(items[1..], rest);
      DecodeNextItem(first + ("," + after), items[0], after, items[1..], rest);
      Regroup(first, ",", more, "]", rest);
      assert items == [items[0]] + items[1..];
    }
  }

  lemma {:induction false} ParseMembersText(v: Value, keys: seq<string>, rest: string)
    requires v.Obj? && keys != [] && forall k :: k in keys ==> k in v.members
    ensures ParseMembers(MembersText(v, keys) + "}" + rest) == Some((Chosen(v.members, keys), rest))
    decreases v, 1, |keys|
  {
    var key, value := keys[0], v.members[keys[0]];
    ChosenFirst(v.members, keys);
    if |keys| == 1 {
      ParseValueText(value, "}" + rest);
      DecodeLastMember(key, Text(value) + ("}" + rest), value, rest);
      LastMemberText(v, keys, rest);
    } else {
      var after := MembersText(v, keys[1..]) + "}" + rest;
      ParseValueText(value, "," + after);
      ParseMembersText(v, keys[1..], rest);
      DecodeNextMember(key, Text(value) + ("," + after), value, after, Chosen(v.members, keys[1..]), rest);
      NextMemberText(v, keys, rest);
    }
  }

  lemma LastMemberText(v: Value, keys: seq<string>, rest: string)
    requires v.Obj? && |keys| == 1 && keys[0] in v.members
    ensures MembersText(v, keys) + "}" + rest
            == Quote(keys[0], false) + (":" + (Text(v.members[keys[0]]) + ("}" + rest)))
  {
    RegroupLast(Quote(keys[0], false), Text(v.members[keys[0]]), rest);
  }

  lemma NextMemberText(v: Value, keys: seq<string>, rest: string)
    requires v.Obj? && |keys| > 1 && forall k :: k in keys ==> k in v.members
    ensures MembersText(v, keys) + "}" + rest
            == Quote(keys[0], false)
               + (":" + (Text(v.members[keys[0]]) + ("," + (MembersText(v, keys[1..]) + "}" + rest))))
  {
    RegroupMember(Quote(keys[0], false), Text(v.members[keys[0]]), MembersText(v, keys[1..]), rest);
  }

  // The text determines the value.
  lemma DecodeText(v: Value)
    ensures Parse(Text(v)) == Some(v)
  {
    ParseValueText(v, "");
    assert Text(v) + "" == Text(v);
  }

  lemma TextInjective(v: Value, w: Value)
    requires Text(v) == Text(w)
    ensures v == w
  {
    DecodeText(v);
    DecodeText(w);
  }
}
