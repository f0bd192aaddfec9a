/** Following next cursors from the first page to the last, with any table, filter and page size at each fetch. */
module Walks {
  import opened Basics
  import opened Tables
  import opened Rows
  import opened Cursors
  import opened Filters
  import opened Paging

  /** What one request of the walk finds and asks for. */
  datatype Fetch = Fetch(table: seq<Report>, filter: Filter, limit: int)

  /** Ids are distinct byte strings, and capture times fit a 64-bit nanosecond count (years 1678 to 2262). */
  ghost predicate Sound(s: seq<Report>) {
    Unique(s) && forall r :: r in s ==> Bytes(r.id) && -INT64_LIMIT <= r.captured < INT64_LIMIT
  }

  /** The cursor a request finds in the token made from `c`. */
  function Resumed(c: Cursor): Option<Cursor> {
    if Bytes(c.id) then DecodeCursor(EncodeCursor(c)) else None
  }

  function Fetched(env: Env, fetch: Fetch, cursor: Option<Cursor>): Page {
    PageOf(env, fetch.table, fetch.filter, fetch.limit, 0, cursor)
  }

  ghost predicate Walk(env: Env, fetches: seq<Fetch>, pages: seq<Page>) {
    && |fetches| == |pages| > 0
    && (forall k :: 0 <= k < |fetches| ==> Sound(fetches[k].table))
    && pages[0] == Fetched(env, fetches[0], None)
    && (forall k :: 0 < k < |pages| ==> Follows(env, pages[k - 1], fetches[k], pages[k]))
  }

  ghost predicate Follows(env: Env, before: Page, fetch: Fetch, page: Page) {
    before.next.Some? && page == Fetched(env, fetch, Resumed(before.next.value))
  }

  function Flat(pages: seq<Page>): seq<Report> {
    if pages == [] then [] else Flat(Front(pages)) + Last(pages).items
  }

  /** A row at or before a cursor in listing order. */
  predicate Ahead(r: Report, c: Cursor) {
    c.captured < r.captured || (c.captured == r.captured && (c.id == r.id || Below(c.id, r.id)))
  }

  lemma AheadIsNewer(r: Report, o: Report, c: Cursor)
    requires Ahead(r, c) && Past(o, Some(c))
    ensures Newer(r, o)
  {
    if r.captured == o.captured && c.id != r.id {
      BelowTransitive(o.id, c.id, r.id);
    }
  }

  /** What is left to list after a cursor. */
  function Remaining(env: Env, fetch: Fetch, cursor: Option<Cursor>): seq<Report> {
    Listing(fetch.table, r => Matches(env, fetch.filter, r) && Past(r, cursor))
  }

  ghost predicate OnlyMatching(env: Env, fetch: Fetch, cursor: Option<Cursor>, items: seq<Report>) {
    forall r :: r in items ==> r in fetch.table && Matches(env, fetch.filter, r) && Past(r, cursor)
  }

  /** Nothing that matches is passed over: it is on the page or after the next cursor. */
  ghost predicate Exhausts(env: Env, fetch: Fetch, cursor: Option<Cursor>, page: Page) {
    forall r :: r in fetch.table && Matches(env, fetch.filter, r) && Past(r, cursor) ==>
      r in page.items || (page.next.Some? && Past(r, page.next))
  }

  /** The next cursor is the last row of the page, and decodes to itself. */
  ghost predicate CutsOff(page: Page) {
    page.next.Some? ==>
      && page.items != [] && page.next == Some(KeyOf(Last(page.items))) && Resumed(page.next.value) == page.next
      && forall r :: r in page.items ==> Ahead(r, page.next.value)
  }

  lemma RemainingShape(env: Env, fetch: Fetch, cursor: Option<Cursor>)
    requires Unique(fetch.table)
    ensures Descending(Remaining(env, fetch, cursor))
    ensures forall r :: r in Remaining(env, fetch, cursor) <==> r in fetch.table && Matches(env, fetch.filter, r) && Past(r, cursor)
  {
    ListingSorts(fetch.table, r => Matches(env, fetch.filter, r) && Past(r, cursor));
  }

  lemma PageCut(env: Env, fetch: Fetch, cursor: Option<Cursor>)
    ensures var all, n := Remaining(env, fetch, cursor), PageSize(fetch.limit);
      Fetched(env, fetch, cursor) == if |all| > n then Page(all[..n], Some(KeyOf(all[n - 1]))) else Page(all, None)
  {
    assert Remaining(env, fetch, cursor)[0..] == Remaining(env, fetch, cursor);
  }

  lemma PageInOrder(env: Env, fetch: Fetch, cursor: Option<Cursor>)
    requires Unique(fetch.table)
    ensures Descending(Fetched(env, fetch, cursor).items) && OnlyMatching(env, fetch, cursor, Fetched(env, fetch, cursor).items)
  {
    PageCut(env, fetch, cursor);
    RemainingShape(env, fetch, cursor);
    var all := Remaining(env, fetch, cursor);
    assert forall r :: r in Fetched(env, fetch, cursor).items ==> r in all;
  }

  lemma PageCutsOff(env: Env, fetch: Fetch, cursor: Option<Cursor>)
    requires Sound(fetch.table)
    ensures CutsOff(Fetched(env, fetch, cursor))
  {
    var all, n := Remaining(env, fetch, cursor), PageSize(fetch.limit);
    PageCut(env, fetch, cursor);
    RemainingShape(env, fetch, cursor);
    if |all| > n {
      assert all[n - 1] in fetch.table by {
        assert all[n - 1] in all;
      }
      CutHere(all, n);
    }
  }

  lemma CutHere(all: seq<Report>, n: nat)
    requires Descending(all) && 1 <= n < |all|
    requires Bytes(all[n - 1].id) && -INT64_LIMIT <= all[n - 1].captured < INT64_LIMIT
    ensures CutsOff(Page(all[..n], Some(KeyOf(all[n - 1]))))
  {
    CursorRoundTrip(KeyOf(all[n - 1]));
    AllAhead(all, n);
    assert Last(all[..n]) == all[n - 1];
  }

  lemma AllAhead(all: seq<Report>, n: nat)
    requires Descending(all) && 1 <= n <= |all|
    ensures forall r :: r in all[..n] ==> Ahead(r, KeyOf(all[n - 1]))
  {
    forall r | r in all[..n] ensures Ahead(r, KeyOf(all[n - 1])) {
      var j :| 0 <= j < n && all[j] == r;
      CutAt(all, n - 1, j);
    }
  }

  lemma PageExhausts(env: Env, fetch: Fetch, cursor: Option<Cursor>)
    requires Unique(fetch.table)
    ensures Exhausts(env, fetch, cursor, Fetched(env, fetch, cursor))
  {
    var all, n, page := Remaining(env, fetch, cursor), PageSize(fetch.limit), Fetched(env, fetch, cursor);
    PageCut(env, fetch, cursor);
    RemainingShape(env, fetch, cursor);
    forall r | r in all
      ensures r in page.items || (page.next.Some? && Past(r, page.next))
    {
      var j :| 0 <= j < |all| && all[j] == r;
      if |all| > n {
        CutAt(all, n - 1, j);
        if j < n {
          assert page.items[j] == r;
        }
      }
    }
  }

  /** One page: in order, after the cursor, and cut off exactly at the next cursor. */
  lemma PageShape(env: Env, fetch: Fetch, cursor: Option<Cursor>)
    requires Sound(fetch.table)
    ensures var page := Fetched(env, fetch, cursor);
      && Descending(page.items) && OnlyMatching(env, fetch, cursor, page.items)
      && Exhausts(env, fetch, cursor, page) && CutsOff(page)
  {
    PageInOrder(env, fetch, cursor);
    PageCutsOff(env, fetch, cursor);
    PageExhausts(env, fetch, cursor);
  }

  lemma CutAt(all: seq<Report>, m: nat, j: nat)
    requires Descending(all) && m < |all| && j < |all|
    ensures if j <= m then Ahead(all[j], KeyOf(all[m])) else Past(all[j], Some(KeyOf(all[m])))
  {
    if j < m {
      assert Newer(all[j], all[m]);
    } else if j > m {
      assert Newer(all[m], all[j]);
    }
  }

  lemma CursorOf(env: Env, fetches: seq<Fetch>, pages: seq<Page>, k: nat)
    requires Walk(env, fetches, pages) && k < |pages|
    ensures var cursor := if k == 0 then None else pages[k - 1].next;
      && pages[k] == Fetched(env, fetches[k], cursor)
      && (k > 0 ==> cursor.Some?)
    decreases k
  {
    if k > 0 {
      CursorOf(env, fetches, pages, k - 1);
      PageShape(env, fetches[k - 1], if k == 1 then None else pages[k - 2].next);
      assert Follows(env, pages[k - 1], fetches[k], pages[k]);
    }
  }

  lemma FlatMore(pages: seq<Page>, k: nat)
    requires k < |pages|
    ensures Flat(pages[..k + 1]) == Flat(pages[..k]) + pages[k].items
  {
    assert Front(pages[..k + 1]) == pages[..k];
  }

  lemma DescendingJoin(a: seq<Report>, b: seq<Report>)
    requires Descending(a) && Descending(b) && forall r, o :: r in a && o in b ==> Newer(r, o)
    ensures Descending(a + b)
  {
    forall i, j | 0 <= i < j < |a + b|
      ensures Newer((a + b)[i], (a + b)[j])
    {
      if i < |a| <= j {
        assert a[i] in a && b[j - |a|] in b;
      }
    }
  }

  /** The pages so far: in strictly descending order, all at or before the next cursor. */
  lemma {:induction false} SoFar(env: Env, fetches: seq<Fetch>, pages: seq<Page>, k: nat)
    requires Walk(env, fetches, pages) && 1 <= k <= |pages|
    ensures Descending(Flat(pages[..k]))
    ensures pages[k - 1].next.Some? ==> forall r :: r in Flat(pages[..k]) ==> Ahead(r, pages[k - 1].next.value)
  {
    CursorOf(env, fetches, pages, k - 1);
    var cursor := if k == 1 then None else pages[k - 2].next;
    PageShape(env, fetches[k - 1], cursor);
    FlatMore(pages, k - 1);
    if k == 1 {
      assert Flat(pages[..0]) == [];
    } else {
      SoFar(env, fetches, pages, k - 1);
      forall r, o | r in Flat(pages[..k - 1]) && o in pages[k - 1].items
        ensures Newer(r, o)
      {
        AheadIsNewer(r, o, cursor.value);
      }
      DescendingJoin(Flat(pages[..k - 1]), pages[k - 1].items);
      if pages[k - 1].next.Some? {
        var before := Flat(pages[..k - 1]);
        forall r | r in before
          ensures Ahead(r, pages[k - 1].next.value)
        {
          StaysAhead(env, fetches[k - 1], cursor, r);
        }
      }
    }
  }

  /** What is ahead of one cursor is ahead of the next. */
  lemma StaysAhead(env: Env, fetch: Fetch, cursor: Option<Cursor>, r: Report)
    requires Sound(fetch.table) && cursor.Some? && Ahead(r, cursor.value) && Fetched(env, fetch, cursor).next.Some?
    ensures Ahead(r, Fetched(env, fetch, cursor).next.value)
  {
    PageShape(env, fetch, cursor);
    var page := Fetched(env, fetch, cursor);
    var last := Last(page.items);
    assert last in page.items;
    AheadIsNewer(r, last, cursor.value);
  }

  /** No (captured_at, id) pair is returned twice, whatever happens to the table between fetches. */
  lemma NothingTwice(env: Env, fetches: seq<Fetch>, pages: seq<Page>, i: nat, j: nat)
    requires Walk(env, fetches, pages) && i < j < |Flat(pages)|
    ensures KeyOf(Flat(pages)[i]) != KeyOf(Flat(pages)[j])
  {
    assert pages[..|pages|] == pages;
    SoFar(env, fetches, pages, |pages|);
    var a, b := Flat(pages)[i], Flat(pages)[j];
    assert Newer(a, b);
    BelowAsymmetric(a.id, a.id);
  }

  /** The table of fetch `k` holds a row with this key that the filter of fetch `k` matches. */
  ghost predicate Present(env: Env, fetch: Fetch, key: Cursor) {
    exists r :: r in fetch.table && KeyOf(r) == key && Matches(env, fetch.filter, r)
  }

  ghost predicate Returned(s: seq<Report>, key: Cursor) {
    exists i :: 0 <= i < |s| && KeyOf(s[i]) == key
  }

  lemma ReturnedEarlier(a: seq<Report>, b: seq<Report>, key: Cursor)
    requires Returned(a, key) || exists r :: r in b && KeyOf(r) == key
    ensures Returned(a + b, key)
  {
    if Returned(a, key) {
      var i :| 0 <= i < |a| && KeyOf(a[i]) == key;
      assert (a + b)[i] == a[i];
    } else {
      var r :| r in b && KeyOf(r) == key;
      var i :| 0 <= i < |b| && b[i] == r;
      assert (a + b)[|a| + i] == r;
    }
  }

  predicate KeyPast(key: Cursor, c: Option<Cursor>) {
    c.Some? ==> key.captured < c.value.captured || (key.captured == c.value.captured && Below(key.id, c.value.id))
  }

  /** A matching row of the fetched table that is after the cursor is on the page or after the next cursor. */
  lemma PresentOnPage(env: Env, fetch: Fetch, cursor: Option<Cursor>, key: Cursor)
    requires Sound(fetch.table) && Present(env, fetch, key) && KeyPast(key, cursor)
    ensures var page := Fetched(env, fetch, cursor);
      (exists r :: r in page.items && KeyOf(r) == key) || (page.next.Some? && KeyPast(key, page.next))
  {
    PageExhausts(env, fetch, cursor);
    var r :| r in fetch.table && KeyOf(r) == key && Matches(env, fetch.filter, r);
    assert Past(r, cursor);
  }

  /** A report that is always there has been returned, or is still to come. */
  lemma {:induction false} ReturnedOrAhead(env: Env, fetches: seq<Fetch>, pages: seq<Page>, key: Cursor, k: nat)
    requires Walk(env, fetches, pages) && 1 <= k <= |pages|
    requires forall m :: 0 <= m < |fetches| ==> Present(env, fetches[m], key)
    ensures Returned(Flat(pages[..k]), key) || (pages[k - 1].next.Some? && KeyPast(key, pages[k - 1].next))
  {
    CursorOf(env, fetches, pages, k - 1);
    FlatMore(pages, k - 1);
    if k > 1 {
      ReturnedOrAhead(env, fetches, pages, key, k - 1);
    }
    var cursor := if k == 1 then None else pages[k - 2].next;
    if k > 1 && Returned(Flat(pages[..k - 1]), key) {
      ReturnedEarlier(Flat(pages[..k - 1]), pages[k - 1].items, key);
    } else {
      PresentOnPage(env, fetches[k - 1], cursor, key);
      if exists r :: r in pages[k - 1].items && KeyOf(r) == key {
        ReturnedEarlier(Flat(pages[..k - 1]), pages[k - 1].items, key);
      }
    }
  }

  /**
   A walk that ends returns every report that is stored and matching at every fetch, exactly once, whatever is inserted,
   deleted or changed in between and however filter and page size change.
   */
  lemma WalkIsComplete(env: Env, fetches: seq<Fetch>, pages: seq<Page>, key: Cursor)
    requires Walk(env, fetches, pages) && pages[|pages| - 1].next == None
    requires forall k :: 0 <= k < |fetches| ==> Present(env, fetches[k], key)
    ensures exists i :: 0 <= i < |Flat(pages)| && KeyOf(Flat(pages)[i]) == key
                        && forall j :: 0 <= j < |Flat(pages)| && KeyOf(Flat(pages)[j]) == key ==> j == i
  {
    assert pages[..|pages|] == pages;
    ReturnedOrAhead(env, fetches, pages, key, |pages|);
    var i :| 0 <= i < |Flat(pages)| && KeyOf(Flat(pages)[i]) == key;
    forall j | 0 <= j < |Flat(pages)| && KeyOf(Flat(pages)[j]) == key
      ensures j == i
    {
      if j < i {
        NothingTwice(env, fetches, pages, j, i);
      } else if i < j {
        NothingTwice(env, fetches, pages, i, j);
      }
    }
  }

  lemma NoPages(pages: seq<Page>)
    requires |pages| == 0
    ensures Flat(pages) == []
  {}

  lemma {:induction false} FlatMembers(env: Env, fetches: seq<Fetch>, pages: seq<Page>, k: nat)
    requires Walk(env, fetches, pages) && k <= |pages|
    ensures forall r :: r in Flat(pages[..k]) ==> FoundBefore(env, fetches, k, r)
  {
    if k == 0 {
      NoPages(pages[..0]);
    } else {
      FlatMembers(env, fetches, pages, k - 1);
      FlatMore(pages, k - 1);
      CursorOf(env, fetches, pages, k - 1);
      PageShape(env, fetches[k - 1], if k == 1 then None else pages[k - 2].next);
      var before := Flat(pages[..k - 1]);
      forall r | r in before + pages[k - 1].items
        ensures FoundBefore(env, fetches, k, r)
      {
        if r in before {
          var m :| 0 <= m < k - 1 && FoundAt(env, fetches[m], r);
        } else {
          assert FoundAt(env, fetches[k - 1], r);
        }
      }
    }
  }

  ghost predicate FoundAt(env: Env, fetch: Fetch, r: Report) {
    r in fetch.table && Matches(env, fetch.filter, r)
  }

  ghost predicate FoundBefore(env: Env, fetches: seq<Fetch>, k: nat, r: Report)
    requires k <= |fetches|
  {
    exists m :: 0 <= m < k && FoundAt(env, fetches[m], r)
  }

  /** On a table and filter that stay the same the pages concatenate to the sorted, filtered list, for any page sizes. */
  lemma WalkIsListing(env: Env, fetches: seq<Fetch>, pages: seq<Page>, s: seq<Report>, f: Filter)
    requires Walk(env, fetches, pages) && pages[|pages| - 1].next == None
    requires forall k :: 0 <= k < |fetches| ==> fetches[k].table == s && fetches[k].filter == f
    ensures Flat(pages) == Listing(s, r => Matches(env, f, r))
  {
    var listing := Listing(s, r => Matches(env, f, r));
    assert Sound(fetches[0].table);
    ListingSorts(s, r => Matches(env, f, r));
    assert pages[..|pages|] == pages;
    SoFar(env, fetches, pages, |pages|);
    FlatMembers(env, fetches, pages, |pages|);
    forall r ensures r in Flat(pages) <==> r in listing {
      if r in Flat(pages) {
        assert FoundBefore(env, fetches, |pages|, r);
      }
      if r in listing {
        assert forall k :: 0 <= k < |fetches| ==> Present(env, fetches[k], KeyOf(r));
        WalkIsComplete(env, fetches, pages, KeyOf(r));
        var i :| 0 <= i < |Flat(pages)| && KeyOf(Flat(pages)[i]) == KeyOf(r);
        assert FoundBefore(env, fetches, |pages|, Flat(pages)[i]);
        FindUnique(s, r);
        FindUnique(s, Flat(pages)[i]);
      }
    }
    DescendingUnique(Flat(pages), listing);
  }

  /** A page that names a next one holds a row. */
  lemma PageFills(env: Env, fetches: seq<Fetch>, pages: seq<Page>, k: nat)
    requires Walk(env, fetches, pages) && k < |pages| && pages[k].next.Some?
    ensures pages[k].items != [] && (k > 0 ==> pages[k - 1].next.Some?)
  {
    CursorOf(env, fetches, pages, k);
    PageCutsOff(env, fetches[k], if k == 0 then None else pages[k - 1].next);
  }

  lemma {:induction false} PagesFill(env: Env, fetches: seq<Fetch>, pages: seq<Page>, k: nat)
    requires Walk(env, fetches, pages) && k <= |pages| && (k > 0 ==> pages[k - 1].next.Some?)
    ensures k <= |Flat(pages[..k])|
  {
    if k > 0 {
      PageFills(env, fetches, pages, k - 1);
      FlatMore(pages, k - 1);
      PagesFill(env, fetches, pages, k - 1);
    }
  }

  function RowSet(s: seq<Report>): set<Report> {
    set r | r in s
  }

  lemma {:induction false} RowsSize(s: seq<Report>)
    ensures |RowSet(s)| <= |s|
    ensures Descending(s) ==> |RowSet(s)| == |s|
  {
    if s == [] {
      assert RowSet(s) == {};
    } else {
      RowsSize(Front(s));
      assert s == Front(s) + [Last(s)];
      assert RowSet(s) == RowSet(Front(s)) + {Last(s)};
      if Descending(s) && Last(s) in Front(s) {
        var i :| 0 <= i < |Front(s)| && s[i] == Last(s);
        assert Newer(s[i], s[|s| - 1]);
        BelowAsymmetric(s[i].id, s[i].id);
      }
    }
  }

  lemma RowsWithin(a: seq<Report>, b: seq<Report>)
    requires Descending(a) && forall r :: r in a ==> r in b
    ensures |a| <= |b|
  {
    RowsSize(a);
    RowsSize(b);
    assert RowSet(b) == RowSet(a) + (RowSet(b) - RowSet(a));
  }

  /** A walk over a table and filter that stay the same ends: as long as it has not, it has no more pages than there are rows. */
  lemma WalkEnds(env: Env, fetches: seq<Fetch>, pages: seq<Page>, s: seq<Report>, f: Filter)
    requires Walk(env, fetches, pages) && pages[|pages| - 1].next.Some?
    requires forall k :: 0 <= k < |fetches| ==> fetches[k].table == s && fetches[k].filter == f
    ensures |pages| <= |Listing(s, r => Matches(env, f, r))|
  {
    var listing := Listing(s, r => Matches(env, f, r));
    assert Sound(fetches[0].table);
    ListingSorts(s, r => Matches(env, f, r));
    assert pages[..|pages|] == pages;
    PagesFill(env, fetches, pages, |pages|);
    SoFar(env, fetches, pages, |pages|);
    FlatMembers(env, fetches, pages, |pages|);
    forall r | r in Flat(pages) ensures r in listing {
      assert FoundBefore(env, fetches, |pages|, r);
    }
    RowsWithin(Flat(pages), listing);
  }

  /**
   The 64-bit limit is needed: when a page ends at a report captured in 2262 or later, its cursor wraps to before 1970,
   and on a table of reports captured since 1970 the next page is empty although rows remain.
   */
  lemma FarFutureEndsWalk(env: Env, fetch: Fetch, cursor: Option<Cursor>)
    requires Unique(fetch.table) && forall r :: r in fetch.table ==> Bytes(r.id) && 0 <= r.captured
    requires var next := Fetched(env, fetch, cursor).next;
      next.Some? && INT64_LIMIT <= next.value.captured < 2 * INT64_LIMIT
    ensures var page := Fetched(env, fetch, cursor);
      && Resumed(page.next.value).Some?
      && Fetched(env, fetch, Resumed(page.next.value)) == Page([], None)
      && |Remaining(env, fetch, cursor)| > |page.items|
  {
    PageCut(env, fetch, cursor);
    CutKeyBytes(env, fetch, cursor);
    var next := Fetched(env, fetch, cursor).next.value;
    WrapsBeforeEpoch(next);
    NothingBeforeEpoch(env, fetch, Resumed(next));
  }

  lemma CutKeyBytes(env: Env, fetch: Fetch, cursor: Option<Cursor>)
    requires Unique(fetch.table) && forall r :: r in fetch.table ==> Bytes(r.id)
    requires Fetched(env, fetch, cursor).next.Some?
    ensures Bytes(Fetched(env, fetch, cursor).next.value.id)
  {
    PageCut(env, fetch, cursor);
    RemainingShape(env, fetch, cursor);
    assert Remaining(env, fetch, cursor)[PageSize(fetch.limit) - 1] in Remaining(env, fetch, cursor);
  }

  lemma WrapsBeforeEpoch(c: Cursor)
    requires Bytes(c.id) && INT64_LIMIT <= c.captured < 2 * INT64_LIMIT
    ensures Resumed(c).Some? && Resumed(c).value.captured < 0
  {
    CursorDecodes(c);
    WrapsBelowZero(c.captured);
  }

  lemma NothingBeforeEpoch(env: Env, fetch: Fetch, cursor: Option<Cursor>)
    requires Unique(fetch.table) && forall r :: r in fetch.table ==> 0 <= r.captured
    requires cursor.Some? && cursor.value.captured < 0
    ensures Fetched(env, fetch, cursor) == Page([], None)
  {
    RemainingShape(env, fetch, cursor);
    NothingIn(Remaining(env, fetch, cursor));
    PageCut(env, fetch, cursor);
  }

  lemma NothingIn(s: seq<Report>)
    requires forall r :: r !in s
    ensures s == []
  {
    if s != [] {
      HeadIn(s);
    }
  }
}
