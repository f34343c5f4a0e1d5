// Sorting object members by key.

module KeySort {
  import opened Ordering

  predicate Ascending(ks: seq<string>) {
    forall i, j :: 0 <= i < j < |ks| ==> KeyLess(ks[i], ks[j])
  }

  function InsertKey(k: string, ks: seq<string>): (r: seq<string>)
    ensures forall x :: x in r <==> x == k || x in ks
  {
    if ks == [] || KeyLess(k, ks[0]) then [k] + ks
    else
      assert ks == [ks[0]] + ks[1..];
      [ks[0]] + InsertKey(k, ks[1..])
  }

  lemma {:induction false} InsertKeyAscending(k: string, ks: seq<string>)
    requires Ascending(ks) && k !in ks
    ensures Ascending(InsertKey(k, ks))
  {
    var r := InsertKey(k, ks);
    if ks == [] {
    } else if KeyLess(k, ks[0]) {
      forall i, j | 0 <= i < j < |r| ensures KeyLess(r[i], r[j]) {
        if i == 0 && j > 1 { KeyTransitive(k, ks[0], ks[j - 1]); }
      }
    } else {
      KeyTrichotomy(k, ks[0]);
      InsertKeyAscending(k, ks[1..]);
      forall i, j | 0 <= i < j < |r| ensures KeyLess(r[i], r[j]) {
        if i == 0 {
          assert r[j] == InsertKey(k, ks[1..])[j - 1];
          assert r[j] == k || r[j] in ks[1..];
        }
      }
    }
  }

  predicate IsLeast(k: string, ks: set<string>) {
    k in ks && forall x :: x in ks ==> x == k || KeyLess(k, x)
  }

  lemma {:induction false} LeastExists(ks: set<string>)
    requires ks != {}
    ensures exists k :: IsLeast(k, ks)
  {
    var first :| first in ks;
    var rest := ks - {first};
    assert forall x :: x in ks ==> x == first || x in rest;
    if rest == {} {
      assert IsLeast(first, ks);
    } else {
      LeastExists(rest);
      var k :| IsLeast(k, rest);
      KeyTrichotomy(first, k);
      if KeyLess(first, k) {
        forall x | x in ks ensures x == first || KeyLess(first, x) {
          if x != first && x != k { KeyTransitive(first, k, x); }
        }
        assert IsLeast(first, ks);
      } else {
        assert IsLeast(k, ks);
      }
    }
  }

  lemma LeastIsUnique(j: string, k: string, ks: set<string>)
    requires IsLeast(j, ks) && IsLeast(k, ks)
    ensures j == k
  {
    KeyTrichotomy(j, k);
  }

  function Least(ks: set<string>): (k: string)
    requires ks != {}
    ensures IsLeast(k, ks)
  {
    LeastExists(ks);
    assert forall j, k :: IsLeast(j, ks) && IsLeast(k, ks) ==> j == k by {
      forall j, k | IsLeast(j, ks) && IsLeast(k, ks) ensures j == k { LeastIsUnique(j, k, ks); }
    }
    var k :| k in ks && IsLeast(k, ks);
    k
  }

  // The keys of a set in their one ascending order.
  function SortedKeys(ks: set<string>): (r: seq<string>)
    ensures forall x :: x in r <==> x in ks
  {
    if ks == {} then []
    else
      var k := Least(ks);
      [k] + SortedKeys(ks - {k})
  }

  lemma {:induction false} SortedKeysAscending(ks: set<string>)
    ensures Ascending(SortedKeys(ks))
  {
    if ks != {} {
      var k := Least(ks);
      var rest := SortedKeys(ks - {k});
      SortedKeysAscending(ks - {k});
      forall i | 0 <= i < |rest| ensures KeyLess(k, rest[i]) {
        assert rest[i] in rest;
      }
    }
  }

  lemma {:induction false} AscendingIsUnique(s: seq<string>, t: seq<string>)
    requires Ascending(s) && Ascending(t)
    requires forall x :: x in s <==> x in t
    ensures s == t
  {
    assert (s == []) == (t == []) by {
      if s != [] { assert s[0] in t; }
      if t != [] { assert t[0] in s; }
    }
    if s != [] {
      FirstIsLeast(s, t);
      forall x ensures x in s[1..] <==> x in t[1..] {
        TailMembers(s, x);
        TailMembers(t, x);
      }
      AscendingIsUnique(s[1..], t[1..]);
      assert s == [s[0]] + s[1..] && t == [t[0]] + t[1..];
    }
  }

  lemma FirstIsLeast(s: seq<string>, t: seq<string>)
    requires Ascending(s) && Ascending(t) && s != [] && t != []
    requires forall x :: x in s <==> x in t
    ensures s[0] == t[0]
  {
    assert s[0] in t && t[0] in s;
    var i :| 0 <= i < |t| && t[i] == s[0];
    var j :| 0 <= j < |s| && s[j] == t[0];
    KeyTrichotomy(s[0], t[0]);
  }

  lemma TailMembers(s: seq<string>, x: string)
    requires Ascending(s) && s != []
    ensures x in s[1..] <==> x in s && x != s[0]
  {
    if x in s[1..] {
      var i :| 0 <= i < |s[1..]| && s[1..][i] == x;
      assert KeyLess(s[0], s[i + 1]);
      KeyTrichotomy(x, x);
    }
  }

  // ------------------------------------------------- members, in insertion order

  datatype Entry<+T> = Entry(key: string, value: T)

  function Keys<T>(ps: seq<Entry<T>>): (ks: seq<string>)
    ensures |ks| == |ps|
    ensures forall i :: 0 <= i < |ps| ==> ks[i] == ps[i].key
  {
    seq(|ps|, i requires 0 <= i < |ps| => ps[i].key)
  }

  predicate DistinctKeys<T>(ps: seq<Entry<T>>) {
    forall i, j :: 0 <= i < j < |ps| ==> ps[i].key != ps[j].key
  }

  function InsertPair<T(!new)>(p: Entry<T>, ps: seq<Entry<T>>): (r: seq<Entry<T>>)
    ensures forall x :: x in r <==> x == p || x in ps
    ensures |r| == |ps| + 1
  {
    if ps == [] || KeyLess(p.key, ps[0].key) then [p] + ps
    else
      assert ps == [ps[0]] + ps[1..];
      [ps[0]] + InsertPair(p, ps[1..])
  }

  // sorted(value.items(), key=...)
  function SortByKey<T(!new)>(ps: seq<Entry<T>>): (r: seq<Entry<T>>)
    ensures forall x :: x in r <==> x in ps
    ensures |r| == |ps|
  {
    if ps == [] then []
    else
      assert ps == [ps[0]] + ps[1..];
      InsertPair(ps[0], SortByKey(ps[1..]))
  }

  lemma KeysOfFirst<T>(p: Entry<T>, ps: seq<Entry<T>>)
    ensures Keys([p] + ps) == [p.key] + Keys(ps)
  {
  }

  lemma {:induction false} InsertPairKeys<T(!new)>(p: Entry<T>, ps: seq<Entry<T>>)
    ensures Keys(InsertPair(p, ps)) == InsertKey(p.key, Keys(ps))
  {
    hide KeyLess;
    if ps == [] || KeyLess(p.key, ps[0].key) {
      KeysOfFirst(p, ps);
    } else {
      KeysOfFirst(ps[0], ps[1..]);
      KeysOfFirst(ps[0], InsertPair(p, ps[1..]));
      assert ps == [ps[0]] + ps[1..];
      assert Keys(ps)[1..] == Keys(ps[1..]);
      InsertPairKeys(p, ps[1..]);
    }
  }

  lemma {:induction false} SortedAscending<T(!new)>(ps: seq<Entry<T>>)
    requires DistinctKeys(ps)
    ensures Ascending(Keys(SortByKey(ps)))
  {
    if ps != [] {
      var rest := SortByKey(ps[1..]);
      SortedAscending(ps[1..]);
      assert forall x :: x in rest ==> x.key != ps[0].key;
      InsertPairKeys(ps[0], rest);
      InsertKeyAscending(ps[0].key, Keys(rest));
    }
  }
}
