// Cursor traversal of the passport collection (search in api.py).

module Paging {
  import opened Wrappers
  import opened Ordering

  // A record: the two members that decide its place, and the rest.
  datatype Row<T> = Row(updatedAt: string, dppId: string, rest: T)

  // Python's order on the pairs (updatedAt, dppId).
  predicate Before(a: Row, b: Row) {
    CodePointLess(a.updatedAt, b.updatedAt) || (a.updatedAt == b.updatedAt && CodePointLess(a.dppId, b.dppId))
  }

  predicate Ascending<T>(rows: seq<Row<T>>) {
    forall i, j :: 0 <= i < j < |rows| ==> Before(rows[i], rows[j])
  }

  // The records of a dictionary keyed by dppId; the schema requires an identifier of at
  // least one character.
  predicate IsCollection<T>(rows: seq<Row<T>>) {
    && (forall i, j :: 0 <= i < j < |rows| ==> rows[i].dppId != rows[j].dppId)
    && forall i :: 0 <= i < |rows| ==> rows[i].dppId != ""
  }

  // ---------------------------------------------------------------- sorting

  function Insert<T(!new)>(r: Row<T>, rows: seq<Row<T>>): (s: seq<Row<T>>)
    ensures |s| == |rows| + 1
    ensures forall x :: x in s <==> x == r || x in rows
  {
    if rows == [] || Before(r, rows[0]) then [r] + rows
    else
      assert rows == [rows[0]] + rows[1..];
      [rows[0]] + Insert(r, rows[1..])
  }

  // sorted(store, key=...)
  function Sorted<T(!new)>(rows: seq<Row<T>>): (s: seq<Row<T>>)
    ensures |s| == |rows|
    ensures forall x :: x in s <==> x in rows
  {
    if rows == [] then []
    else
      assert rows == [rows[0]] + rows[1..];
      Insert(rows[0], Sorted(rows[1..]))
  }

  lemma PointsInjective(a: string, b: string)
    requires CodePoints(a) == CodePoints(b)
    ensures a == b
  {
    assert |a| == |CodePoints(a)| == |CodePoints(b)| == |b|;
    forall i | 0 <= i < |a| ensures a[i] == b[i] {
      assert CodePoints(a)[i] == CodePoints(b)[i];
    }
  }

  lemma PointsTrichotomy(a: string, b: string)
    ensures a == b || CodePointLess(a, b) || CodePointLess(b, a)
    ensures !(CodePointLess(a, b) && CodePointLess(b, a)) && !CodePointLess(a, a)
  {
    LexTrichotomy(CodePoints(a), CodePoints(b));
    LexTrichotomy(CodePoints(a), CodePoints(a));
    if CodePoints(a) == CodePoints(b) { PointsInjective(a, b); }
  }

  lemma BeforeIsTotal<T>(a: Row<T>, b: Row<T>)
    ensures a.dppId != b.dppId ==> Before(a, b) || Before(b, a)
    ensures !(Before(a, b) && Before(b, a)) && !Before(a, a)
  {
    hide CodePointLess;
    PointsTrichotomy(a.updatedAt, b.updatedAt);
    PointsTrichotomy(a.dppId, b.dppId);
    PointsTrichotomy(a.updatedAt, a.updatedAt);
    PointsTrichotomy(a.dppId, a.dppId);
  }

  lemma PointsTransitive(a: string, b: string, c: string)
    requires CodePointLess(a, b) && CodePointLess(b, c)
    ensures CodePointLess(a, c)
  {
    LexTransitive(CodePoints(a), CodePoints(b), CodePoints(c));
  }

  lemma BeforeIsTransitive<T>(a: Row<T>, b: Row<T>, c: Row<T>)
    requires Before(a, b) && Before(b, c)
    ensures Before(a, c)
  {
    hide CodePointLess;
    if CodePointLess(a.updatedAt, b.updatedAt) && CodePointLess(b.updatedAt, c.updatedAt) {
      PointsTransitive(a.updatedAt, b.updatedAt, c.updatedAt);
    } else if a.updatedAt == b.updatedAt == c.updatedAt {
      PointsTransitive(a.dppId, b.dppId, c.dppId);
    }
  }

  lemma {:induction false} InsertAscending<T(!new)>(r: Row<T>, rows: seq<Row<T>>)
    requires Ascending(rows) && forall x :: x in rows ==> x.dppId != r.dppId
    ensures Ascending(Insert(r, rows))
  {
    hide Before;
    var s := Insert(r, rows);
    if rows != [] {
      BeforeIsTotal(r, rows[0]);
      if Before(r, rows[0]) {
        forall j | 0 < j < |rows| ensures Before(r, rows[j]) { BeforeIsTransitive(r, rows[0], rows[j]); }
      } else {
        var tail := Insert(r, rows[1..]);
        InsertAscending(r, rows[1..]);
        assert forall x :: x in tail ==> Before(rows[0], x);
        assert forall j :: 0 < j < |s| ==> s[j] == tail[j - 1];
      }
    }
  }

  lemma {:induction false} SortedAscending<T(!new)>(rows: seq<Row<T>>)
    requires IsCollection(rows)
    ensures Ascending(Sorted(rows))
  {
    if rows != [] {
      SortedAscending(rows[1..]);
      InsertAscending(rows[0], Sorted(rows[1..]));
    }
  }

  // ------------------------------------------------------------------ pages

  datatype Page<T> = Page(items: seq<Row<T>>, next: Option<string>)

  // One page of a sorted listing.
  function Cut<T>(listing: seq<Row<T>>, start: nat, limit: nat): Page<T>
    requires start <= |listing| && limit >= 1
  {
    if start + limit < |listing| then Page(listing[start..start + limit], Some(listing[start + limit - 1].dppId))
    else Page(listing[start..], None)
  }

  // Where a page begins: after the record the cursor names, or at the front when there is
  // no cursor, an empty one, or no such record.
  ghost predicate StartsAt<T>(listing: seq<Row<T>>, cursor: Option<string>, start: nat) {
    if cursor.Some? && cursor.value != "" && exists r :: r in listing && r.dppId == cursor.value then
      0 < start <= |listing| && listing[start - 1].dppId == cursor.value
    else start == 0
  }

  ghost predicate IsPage<T(!new)>(rows: seq<Row<T>>, cursor: Option<string>, limit: nat, page: Page<T>) {
    limit >= 1
    && exists start :: 0 <= start <= |rows| && StartsAt(Sorted(rows), cursor, start)
                       && page == Cut(Sorted(rows), start, limit)
  }

  method Search<T(!new)>(rows: seq<Row<T>>, cursor: Option<string>, limit: nat) returns (page: Page<T>)
    requires limit >= 1
    ensures IsPage(rows, cursor, limit, page)
  {
    var records := Sorted(rows);
    var start: nat := 0;
    if cursor.Some? && cursor.value != "" {
      for position := 0 to |records|
        invariant start == 0 && forall k :: 0 <= k < position ==> records[k].dppId != cursor.value
      {
        if records[position].dppId == cursor.value {
          start := position + 1;
          break;
        }
      }
    }
    assert StartsAt(records, cursor, start);
    var items := records[start..if start + limit < |records| then start + limit else |records|];
    page := Page(items, None);
    if start + limit < |records| {
      page := page.(next := Some(items[|items| - 1].dppId));
    }
    assert page == Cut(records, start, limit);
  }

  // Earlier update first, and of one time the smaller identifier, by code points.
  ghost predicate Earlier<T>(a: Row<T>, b: Row<T>) {
    if a.updatedAt == b.updatedAt then CodePointLess(a.dppId, b.dppId) else CodePointLess(a.updatedAt, b.updatedAt)
  }

  lemma EarlierIs<T>(a: Row<T>, b: Row<T>)
    ensures Earlier(a, b) <==> Before(a, b)
  {
    hide CodePointLess;
    PointsTrichotomy(a.updatedAt, b.updatedAt);
  }

  // A page holds at most as many records as asked for, in order, all after the cursor's; no
  // record after the cursor's is passed over; and a next cursor, the last identifier, is given
  // exactly when a record after the page remains.
  lemma PageIs<T(!new)>(rows: seq<Row<T>>, cursor: Option<string>, limit: nat, page: Page<T>)
    requires IsCollection(rows) && IsPage(rows, cursor, limit, page)
    ensures |page.items| <= limit && (forall r :: r in page.items ==> r in rows)
    ensures forall i, j :: 0 <= i < j < |page.items| ==> Earlier(page.items[i], page.items[j])
    ensures forall r, x :: r in rows && cursor == Some(r.dppId) && x in rows && !Earlier(r, x) ==> x !in page.items
    ensures forall x, y :: x in rows && x !in page.items && y in page.items && Earlier(x, y) ==>
              exists r :: r in rows && cursor == Some(r.dppId) && !Earlier(r, x)
    ensures page.next.Some? ==> |page.items| == limit && page.next == Some(page.items[limit - 1].dppId)
    ensures page.next.Some? <==> page.items != [] && exists x :: x in rows && Earlier(page.items[|page.items| - 1], x)
  {
    hide Before, CodePointLess, Sorted;
    SortedAscending(rows);
    var listing := Sorted(rows);
    var start :| 0 <= start <= |rows| && StartsAt(listing, cursor, start) && page == Cut(listing, start, limit);
    forall a, b ensures Earlier(a, b) <==> Before(a, b) {
      EarlierIs<T>(a, b);
    }
    forall r | r in rows ensures exists n :: 0 <= n < |listing| && listing[n] == r {
      assert r in listing;
    }
    CutIs(rows, listing, cursor, start, limit, page);
  }

  // Where a record stands in a listing.
  lemma Place<T(!new)>(listing: seq<Row<T>>, x: Row<T>) returns (n: nat)
    requires Ascending(listing) && x in listing
    ensures n < |listing| && listing[n] == x
    ensures forall m :: 0 <= m < |listing| ==> (Before(x, listing[m]) <==> n < m)
  {
    hide Before;
    n :| 0 <= n < |listing| && listing[n] == x;
    forall m | 0 <= m < |listing| ensures Before(x, listing[m]) <==> n < m {
      BeforeIsTotal(x, listing[m]);
    }
  }

  lemma OnCut<T(!new)>(listing: seq<Row<T>>, start: nat, limit: nat, n: nat)
    requires Ascending(listing) && start <= |listing| && limit >= 1 && n < |listing|
    ensures listing[n] in Cut(listing, start, limit).items <==> start <= n < start + limit
  {
    hide Before;
    var items := Cut(listing, start, limit).items;
    assert forall k :: 0 <= k < |items| ==> items[k] == listing[start + k];
    if start <= n < start + limit { assert items[n - start] == listing[n]; }
    if k :| 0 <= k < |items| && items[k] == listing[n] {
      BeforeIsTotal(listing[start + k], listing[n]);
    }
  }

  // The record the cursor names stands right before the page.
  lemma CursorPlace<T(!new)>(rows: seq<Row<T>>, listing: seq<Row<T>>, cursor: Option<string>, start: nat, r: Row<T>)
    requires IsCollection(rows) && forall x :: x in listing <==> x in rows
    requires start <= |listing| && StartsAt(listing, cursor, start) && r in rows && cursor == Some(r.dppId)
    ensures start > 0 && listing[start - 1] == r
  {
    SameId(rows, listing, r);
    assert r in listing;
  }

  lemma CutIs<T(!new)>(rows: seq<Row<T>>, listing: seq<Row<T>>, cursor: Option<string>, start: nat, limit: nat,
                       page: Page<T>)
    requires IsCollection(rows) && Ascending(listing) && |listing| == |rows| && limit >= 1
    requires forall r :: r in listing <==> r in rows
    requires start <= |listing| && StartsAt(listing, cursor, start) && page == Cut(listing, start, limit)
    ensures |page.items| <= limit && (forall r :: r in page.items ==> r in rows)
    ensures forall i, j :: 0 <= i < j < |page.items| ==> Before(page.items[i], page.items[j])
    ensures forall r, x :: r in rows && cursor == Some(r.dppId) && x in rows && !Before(r, x) ==> x !in page.items
    ensures forall x, y :: x in rows && x !in page.items && y in page.items && Before(x, y) ==>
              exists r :: r in rows && cursor == Some(r.dppId) && !Before(r, x)
    ensures page.next.Some? ==> |page.items| == limit && page.next == Some(page.items[limit - 1].dppId)
    ensures page.next.Some? <==> page.items != [] && exists x :: x in rows && Before(page.items[|page.items| - 1], x)
  {
    hide Before, StartsAt, IsCollection, Ascending, Cut;
    CutItems(rows, listing, start, limit);
    forall r, x | r in rows && cursor == Some(r.dppId) && x in rows && !Before(r, x) ensures x !in page.items {
      CursorPlace(rows, listing, cursor, start, r);
      var n := Place(listing, r);
      var m := Place(listing, x);
      OnCut(listing, start, limit, m);
      CursorBefore(listing, start, n);
    }
    forall x, y | x in rows && x !in page.items && y in page.items && Before(x, y)
      ensures exists r :: r in rows && cursor == Some(r.dppId) && !Before(r, x)
    {
      var n := Place(listing, x);
      var m := Place(listing, y);
      OnCut(listing, start, limit, n);
      OnCut(listing, start, limit, m);
      var r := listing[start - 1];
      var q := Place(listing, r);
      CursorBefore(listing, start, q);
      StartedBy(listing, cursor, start);
    }
    CutNext(rows, listing, start, limit);
  }

  lemma StartedBy<T(!new)>(listing: seq<Row<T>>, cursor: Option<string>, start: nat)
    requires 0 < start <= |listing| && StartsAt(listing, cursor, start)
    ensures cursor == Some(listing[start - 1].dppId) && listing[start - 1] in listing
  {
  }

  lemma CursorBefore<T(!new)>(listing: seq<Row<T>>, start: nat, n: nat)
    requires Ascending(listing) && 0 < start <= |listing| && n < |listing| && listing[n] == listing[start - 1]
    ensures n == start - 1
  {
    hide Before;
    BeforeIsTotal(listing[n], listing[start - 1]);
  }

  lemma CutItems<T(!new)>(rows: seq<Row<T>>, listing: seq<Row<T>>, start: nat, limit: nat)
    requires Ascending(listing) && start <= |listing| && limit >= 1 && forall r :: r in listing <==> r in rows
    ensures var page := Cut(listing, start, limit);
      && |page.items| <= limit && (forall r :: r in page.items ==> r in rows)
      && (forall i, j :: 0 <= i < j < |page.items| ==> Before(page.items[i], page.items[j]))
      && (page.next.Some? ==> |page.items| == limit && page.next == Some(page.items[limit - 1].dppId))
  {
    hide Before;
    var items := Cut(listing, start, limit).items;
    forall k | 0 <= k < |items| ensures items[k] == listing[start + k] {
    }
    forall r | r in items ensures r in rows {
      var k :| 0 <= k < |items| && items[k] == r;
      assert listing[start + k] in listing;
    }
  }

  lemma CutNext<T(!new)>(rows: seq<Row<T>>, listing: seq<Row<T>>, start: nat, limit: nat)
    requires Ascending(listing) && start <= |listing| && limit >= 1 && forall r :: r in listing <==> r in rows
    ensures var page := Cut(listing, start, limit);
      page.next.Some? <==> page.items != [] && exists x :: x in rows && Before(page.items[|page.items| - 1], x)
  {
    hide Before;
    var page := Cut(listing, start, limit);
    if page.next.Some? {
      assert listing[start + limit] in listing && Before(listing[start + limit - 1], listing[start + limit]);
    } else if page.items != [] {
      var last := page.items[|page.items| - 1];
      assert last == listing[|listing| - 1];
      forall x | x in rows ensures !Before(last, x) {
        assert x in listing;
        var n := Place(listing, x);
        BeforeIsTotal(last, x);
      }
    }
  }

  // --------------------------------------------------------------- traversal

  // A client follows the cursors from the first page on, while records may be added.
  ghost predicate IsTraversal<T(!new)>(collections: seq<seq<Row<T>>>, limits: seq<nat>, pages: seq<Page<T>>) {
    && |collections| == |limits| == |pages| > 0
    && (forall k :: 0 <= k < |pages| ==> IsCollection(collections[k]))
    && IsPage(collections[0], None, limits[0], pages[0])
    && forall k :: 0 < k < |pages| ==> Follows(collections, limits, pages, k)
  }

  ghost predicate Follows<T(!new)>(collections: seq<seq<Row<T>>>, limits: seq<nat>, pages: seq<Page<T>>, k: nat)
    requires |collections| == |limits| == |pages| && 0 < k < |pages|
  {
    && Grown(collections[k - 1], collections[k])
    && pages[k - 1].next.Some? && IsPage(collections[k], pages[k - 1].next, limits[k], pages[k])
  }

  ghost predicate Grown<T>(before: seq<Row<T>>, after: seq<Row<T>>) {
    forall r :: r in before ==> r in after
  }

  // Everything returned so far, in order.
  ghost function Returned<T>(pages: seq<Page<T>>): seq<Row<T>> {
    if pages == [] then [] else Returned(pages[..|pages| - 1]) + pages[|pages| - 1].items
  }

  ghost predicate Covers<T>(seen: seq<Row<T>>, next: Option<string>, initial: seq<Row<T>>) {
    forall r :: r in initial ==> r in seen || (next.Some? && seen != [] && Before(seen[|seen| - 1], r))
  }

  // After each page: no record twice, in ascending order, and every record of the start
  // is either returned or still ahead of the cursor.
  ghost predicate OnTrack<T>(seen: seq<Row<T>>, page: Page<T>, rows: seq<Row<T>>, initial: seq<Row<T>>) {
    && Ascending(seen) && (forall r :: r in seen ==> r in rows)
    && (page.next.Some? ==> seen != [] && seen[|seen| - 1].dppId == page.next.value)
    && Covers(seen, page.next, initial)
  }

  // The start of a page: right after everything seen, or at the front.
  lemma StartAfterSeen<T(!new)>(listing: seq<Row<T>>, seen: seq<Row<T>>, start: nat)
    requires Ascending(listing) && Ascending(seen) && seen != [] && forall r :: r in seen ==> r in listing
    requires 0 < start <= |listing| && listing[start - 1] == seen[|seen| - 1]
    ensures forall i :: start <= i < |listing| ==> Before(seen[|seen| - 1], listing[i])
    ensures forall i, j :: 0 <= i < |seen| && start <= j < |listing| ==> Before(seen[i], listing[j])
    ensures forall i :: 0 <= i < |listing| && Before(seen[|seen| - 1], listing[i]) ==> start <= i
  {
    hide Before;
    forall i, j | 0 <= i < |seen| && start <= j < |listing| ensures Before(seen[i], listing[j]) {
      if i < |seen| - 1 { BeforeIsTransitive(seen[i], seen[|seen| - 1], listing[j]); }
    }
    forall i | 0 <= i < |listing| && Before(seen[|seen| - 1], listing[i]) ensures start <= i {
      BeforeIsTotal(listing[start - 1], listing[i]);
    }
  }

  lemma FirstPage<T(!new)>(rows: seq<Row<T>>, limit: nat, page: Page<T>)
    requires IsCollection(rows) && IsPage(rows, None, limit, page)
    ensures OnTrack(page.items, page, rows, rows)
  {
    hide Before, Sorted;
    SortedAscending(rows);
    var listing := Sorted(rows);
    assert page == Cut(listing, 0, limit);
    forall r | r in rows
      ensures r in page.items || (page.next.Some? && page.items != [] && Before(page.items[|page.items| - 1], r))
    {
      var i :| 0 <= i < |listing| && listing[i] == r;
      assert i < limit && i < |listing| ==> page.items[i] == r;
    }
  }

  // A page that follows begins right after the last record returned.
  lemma NextStart<T(!new)>(rows: seq<Row<T>>, limit: nat, end: Row<T>, page: Page<T>) returns (start: nat)
    requires IsCollection(rows) && IsPage(rows, Some(end.dppId), limit, page) && end in rows
    ensures limit >= 1 && 0 < start <= |rows| && Sorted(rows)[start - 1] == end
    ensures page == Cut(Sorted(rows), start, limit)
  {
    hide Sorted, Cut;
    var listing := Sorted(rows);
    start :| 0 <= start <= |rows| && StartsAt(listing, Some(end.dppId), start) && page == Cut(listing, start, limit);
    assert end in listing;
    SameId(rows, listing, end);
  }

  lemma NextCovers<T(!new)>(listing: seq<Row<T>>, seen: seq<Row<T>>, start: nat, limit: nat, page: Page<T>,
                            was: Option<string>, initial: seq<Row<T>>)
    requires Ascending(listing) && start <= |listing| && limit >= 1 && page == Cut(listing, start, limit)
    requires seen != [] && (forall i :: 0 <= i < |listing| && Before(seen[|seen| - 1], listing[i]) ==> start <= i)
    requires Covers(seen, was, initial) && forall r :: r in initial ==> r in listing
    ensures Covers(seen + page.items, page.next, initial)
  {
    hide Before;
    forall r | r in initial && r !in seen
      ensures r in page.items || (page.next.Some? && page.items != [] && Before(page.items[|page.items| - 1], r))
    {
      var i :| 0 <= i < |listing| && listing[i] == r;
      assert start <= i;
      assert i < start + |page.items| ==> page.items[i - start] == r;
    }
    if page.next.Some? {
      assert (seen + page.items)[|seen + page.items| - 1] == page.items[|page.items| - 1];
    }
  }

  lemma NextPage<T(!new)>(rows: seq<Row<T>>, limit: nat, seen: seq<Row<T>>, last: Page<T>, page: Page<T>,
                          was: seq<Row<T>>, initial: seq<Row<T>>)
    requires IsCollection(rows) && Grown(was, rows) && last.next.Some? && IsPage(rows, last.next, limit, page)
    requires OnTrack(seen, last, was, initial) && Grown(initial, rows)
    ensures OnTrack(seen + page.items, page, rows, initial)
  {
    hide Before, Sorted, Covers, IsCollection, IsPage, Ascending;
    SortedAscending(rows);
    var listing, end := Sorted(rows), seen[|seen| - 1];
    assert end in seen;
    var start := NextStart(rows, limit, end, page);
    StartAfterSeen(listing, seen, start);
    Continues(listing, seen, start, limit, page);
    NextCovers(listing, seen, start, limit, page, last.next, initial);
  }

  lemma SameId<T(!new)>(rows: seq<Row<T>>, listing: seq<Row<T>>, r: Row<T>)
    requires IsCollection(rows) && r in rows && forall x :: x in listing <==> x in rows
    ensures r.dppId != ""
    ensures forall i :: 0 <= i < |listing| && listing[i].dppId == r.dppId ==> listing[i] == r
  {
    forall i | 0 <= i < |listing| && listing[i].dppId == r.dppId ensures listing[i] == r {
      assert listing[i] in rows;
    }
  }

  lemma Continues<T(!new)>(listing: seq<Row<T>>, seen: seq<Row<T>>, start: nat, limit: nat, page: Page<T>)
    requires Ascending(listing) && Ascending(seen)
    requires start <= |listing| && limit >= 1 && page == Cut(listing, start, limit)
    requires forall i, j :: 0 <= i < |seen| && start <= j < |listing| ==> Before(seen[i], listing[j])
    ensures Ascending(seen + page.items) && forall r :: r in page.items ==> r in listing
  {
    hide Before;
    var out := seen + page.items;
    forall i | 0 <= i < |page.items| ensures page.items[i] == listing[start + i] {
    }
    forall i, j | 0 <= i < j < |out| ensures Before(out[i], out[j]) {
      if j >= |seen| {
        assert out[j] == listing[start + j - |seen|];
        if i >= |seen| { assert out[i] == listing[start + i - |seen|]; }
      }
    }
  }

  lemma PrefixIsTraversal<T(!new)>(collections: seq<seq<Row<T>>>, limits: seq<nat>, pages: seq<Page<T>>)
    requires IsTraversal(collections, limits, pages) && |pages| > 1
    ensures var n := |pages| - 1; IsTraversal(collections[..n], limits[..n], pages[..n])
  {
    hide IsPage, IsCollection, Grown;
    var n := |pages| - 1;
    forall k | 0 < k < n ensures Follows(collections[..n], limits[..n], pages[..n], k) {
      assert Follows(collections, limits, pages, k);
    }
  }

  lemma {:induction false} StaysOnTrack<T(!new)>(collections: seq<seq<Row<T>>>, limits: seq<nat>, pages: seq<Page<T>>)
    requires IsTraversal(collections, limits, pages)
    ensures OnTrack(Returned(pages), pages[|pages| - 1], collections[|pages| - 1], collections[0])
    ensures Grown(collections[0], collections[|pages| - 1])
  {
    hide OnTrack, IsPage, IsCollection, Grown;
    var n := |pages| - 1;
    if n == 0 {
      assert Returned(pages[..0]) == [];
      assert Returned(pages) == pages[0].items;
      FirstPage(collections[0], limits[0], pages[0]);
      GrownTrans(collections[0], collections[0], collections[0]);
    } else {
      assert Follows(collections, limits, pages, n);
      PrefixIsTraversal(collections, limits, pages);
      StaysOnTrack(collections[..n], limits[..n], pages[..n]);
      GrownTrans(collections[0], collections[n - 1], collections[n]);
      NextPage(collections[n], limits[n], Returned(pages[..n]), pages[n - 1], pages[n], collections[n - 1],
               collections[0]);
    }
  }

  lemma GrownTrans<T>(a: seq<Row<T>>, b: seq<Row<T>>, c: seq<Row<T>>)
    ensures Grown(a, a) && (Grown(a, b) && Grown(b, c) ==> Grown(a, c))
  {
  }

  // Along a traversal, whatever is added meanwhile: sort keys strictly increase from page
  // to page, so no record is returned twice, and once no cursor is given every record
  // present at the start has been returned.
  lemma TraversalIsExact<T(!new)>(collections: seq<seq<Row<T>>>, limits: seq<nat>, pages: seq<Page<T>>)
    requires IsTraversal(collections, limits, pages)
    ensures Ascending(Returned(pages))
    ensures forall i, j :: 0 <= i < j < |Returned(pages)| ==> Returned(pages)[i] != Returned(pages)[j]
    ensures forall r :: r in Returned(pages) ==> r in collections[|pages| - 1]
    ensures pages[|pages| - 1].next.None? ==> forall r :: r in collections[0] ==> r in Returned(pages)
  {
    hide IsTraversal, IsPage, Before;
    StaysOnTrack(collections, limits, pages);
    var seen := Returned(pages);
    forall i, j | 0 <= i < j < |seen| ensures seen[i] != seen[j] {
      BeforeIsTotal(seen[i], seen[j]);
    }
  }

  // -------------------------------------------------------------- termination

  lemma {:induction false} SeenIsFull<T(!new)>(collections: seq<seq<Row<T>>>, limits: seq<nat>, pages: seq<Page<T>>)
    requires IsTraversal(collections, limits, pages)
    ensures |Returned(pages)| >= |pages| - 1
    ensures pages[|pages| - 1].next.Some? ==> |Returned(pages)| >= |pages|
  {
    hide IsCollection, Grown, StartsAt, Sorted;
    var n := |pages| - 1;
    if n == 0 {
      assert Returned(pages) == pages[0].items;
    } else {
      assert Follows(collections, limits, pages, n);
      PrefixIsTraversal(collections, limits, pages);
      SeenIsFull(collections[..n], limits[..n], pages[..n]);
    }
  }

  lemma {:induction false} DistinctAreFewer<T>(seen: seq<T>, rows: seq<T>)
    requires forall r :: r in seen ==> r in rows
    requires forall i, j :: 0 <= i < j < |seen| ==> seen[i] != seen[j]
    ensures |seen| <= |rows|
  {
    if seen != [] {
      assert seen[0] in seen;
      var i :| 0 <= i < |rows| && rows[i] == seen[0];
      var rest := rows[..i] + rows[i + 1..];
      forall k | 0 <= k < |seen[1..]| ensures seen[1..][k] in rest {
        assert seen[k + 1] in seen;
        var j :| 0 <= j < |rows| && rows[j] == seen[k + 1];
        assert rest[if j < i then j else j - 1] == rows[j];
      }
      DistinctAreFewer(seen[1..], rest);
    }
  }

  // A traversal goes on only while it has returned fewer records than the collection
  // holds, so over a collection that stops growing it ends.
  lemma TraversalEnds<T(!new)>(collections: seq<seq<Row<T>>>, limits: seq<nat>, pages: seq<Page<T>>)
    requires IsTraversal(collections, limits, pages)
    ensures |pages| - 1 <= |Returned(pages)| <= |collections[|pages| - 1]|
    ensures |pages| > |collections[|pages| - 1]| ==> pages[|pages| - 1].next.None?
  {
    hide IsPage, Returned, Ascending, Before;
    SeenIsFull(collections, limits, pages);
    TraversalIsExact(collections, limits, pages);
    DistinctAreFewer(Returned(pages), collections[|pages| - 1]);
  }
}
