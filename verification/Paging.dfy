/** The report list: one page, and the walk over pages while the table, the filter and the page size change. */
module Paging {
  import opened Basics
  import opened Tables
  import opened Rows
  import opened Chains
  import opened Cursors
  import opened Filters

  // ---- one query -------------------------------------------------------------------

  /** Newest first, id breaking ties, no two rows equal in both. */
  ghost predicate Descending(s: seq<Report>) {
    forall i, j :: 0 <= i < j < |s| ==> Newer(s[i], s[j])
  }

  /** Put a row into its place of a descending list. */
  function Placed(r: Report, s: seq<Report>): seq<Report> {
    if s == [] || Newer(r, s[0]) then [r] + s else [s[0]] + Placed(r, s[1..])
  }

  /** SELECT ... WHERE p ORDER BY captured_at DESC, id DESC */
  function Listing(s: seq<Report>, p: Report -> bool): seq<Report> {
    if s == [] then []
    else if p(Last(s)) then Placed(Last(s), Listing(Front(s), p))
    else Listing(Front(s), p)
  }

  lemma {:induction false} PlacedKeeps(r: Report, s: seq<Report>)
    requires Descending(s) && forall o :: o in s ==> o.id != r.id
    ensures Descending(Placed(r, s))
    ensures forall o :: o in Placed(r, s) <==> o == r || o in s
  {
    if s == [] {
    } else if Newer(r, s[0]) {
      forall j | 0 <= j < |s| ensures Newer(r, s[j]) {
        if j > 0 {
          NewerTransitive(r, s[0], s[j]);
        }
      }
    } else {
      assert s == [s[0]] + s[1..];
      PlacedKeeps(r, s[1..]);
      NewerTotal(r, s[0]);
      var t := Placed(r, s[1..]);
      forall j | 0 <= j < |t| ensures Newer(s[0], t[j]) {
        assert t[j] in t;
      }
    }
  }

  lemma {:induction false} ListingSorts(s: seq<Report>, p: Report -> bool)
    requires Unique(s)
    ensures Descending(Listing(s, p))
    ensures forall r :: r in Listing(s, p) <==> r in s && p(r)
  {
    if s != [] {
      ListingSorts(Front(s), p);
      assert s == Front(s) + [Last(s)];
      if p(Last(s)) {
        forall o | o in Listing(Front(s), p) ensures o.id != Last(s).id {
          var i :| 0 <= i < |Front(s)| && Front(s)[i] == o;
        }
        PlacedKeeps(Last(s), Listing(Front(s), p));
      }
    }
  }

  /** A descending list is determined by what it contains. */
  lemma {:induction false} DescendingUnique(a: seq<Report>, b: seq<Report>)
    requires Descending(a) && Descending(b) && forall r :: r in a <==> r in b
    ensures a == b
  {
    if a == [] {
      if b != [] {
        HeadIn(b);
      }
    } else {
      assert a[0] in b && b != [] && b[0] in a;
      HeadsAgree(a, b);
      assert Descending(a[1..]) && Descending(b[1..]);
      forall r ensures r in a[1..] <==> r in b[1..] {
        TailMember(a, r);
        TailMember(b, r);
      }
      DescendingUnique(a[1..], b[1..]);
      assert a == [a[0]] + a[1..] && b == [b[0]] + b[1..];
    }
  }

  lemma HeadIn(b: seq<Report>)
    requires b != []
    ensures b[0] in b
  {}

  lemma HeadsAgree(a: seq<Report>, b: seq<Report>)
    requires Descending(a) && Descending(b) && a != [] && b != [] && a[0] in b && b[0] in a
    ensures a[0] == b[0]
  {
    var i :| 0 <= i < |b| && b[i] == a[0];
    var j :| 0 <= j < |a| && a[j] == b[0];
    if i > 0 && j > 0 {
      NewerTotal(a[0], b[0]);
    }
  }

  lemma TailMember(a: seq<Report>, r: Report)
    requires Descending(a) && a != []
    ensures r in a[1..] <==> r in a && r != a[0]
  {
    assert a == [a[0]] + a[1..];
    if r in a[1..] {
      var i :| 0 <= i < |a[1..]| && a[1..][i] == r;
      assert Newer(a[0], a[i + 1]);
      NewerTotal(r, r);
    }
  }

  // ---- one page --------------------------------------------------------------------

  /** The rows after a cursor in listing order. */
  predicate Past(r: Report, c: Option<Cursor>) {
    c.Some? ==> r.captured < c.value.captured || (r.captured == c.value.captured && Below(r.id, c.value.id))
  }

  const DEFAULT_LIMIT := 50

  function PageSize(limit: int): (n: nat)
    ensures n >= 1
  {
    if limit <= 0 then DEFAULT_LIMIT else limit
  }

  datatype Page = Page(items: seq<Report>, next: Option<Cursor>)

  function KeyOf(r: Report): Cursor {
    Cursor(r.captured, r.id)
  }

  /** An offset applies to a first page only. */
  function Start(cursor: Option<Cursor>, offset: int): nat {
    if cursor == None && offset > 0 then offset else 0
  }

  function PageOf(env: Env, s: seq<Report>, f: Filter, limit: int, offset: int, cursor: Option<Cursor>): Page {
    var all := Listing(s, r => Matches(env, f, r) && Past(r, cursor));
    var rest := if Start(cursor, offset) <= |all| then all[Start(cursor, offset)..] else [];
    if |rest| > PageSize(limit) then Page(rest[..PageSize(limit)], Some(KeyOf(rest[PageSize(limit) - 1]))) else Page(rest, None)
  }

  lemma {:induction false} ListingAgrees(s: seq<Report>, p: Report -> bool, q: Report -> bool)
    requires forall r :: r in s ==> p(r) == q(r)
    ensures Listing(s, p) == Listing(s, q)
  {
    if s != [] {
      assert s == Front(s) + [Last(s)];
      ListingAgrees(Front(s), p, q);
    }
  }

  /** The keyset condition List appends: (captured_at, id) < ($n, $n+1). */
  function Keyset(n: nat): Cond {
    RowBelow(Col(CapturedAt), Col(Id), Arg(n), Arg(n + 1))
  }

  /** The appended condition reads the two arguments appended with it and nothing the filter passed. */
  lemma KeysetSelects(env: Env, r: Report, args: seq<Value>, c: Cursor)
    ensures WithinArgs(Keyset(|args| + 1), |args| + 1, |args| + 3)
    ensures Test(env, r, args + [Stamp(c.captured), Text(c.id)], Keyset(|args| + 1)) == Yes <==> Past(r, Some(c))
  {
    var all := args + [Stamp(c.captured), Text(c.id)];
    assert all[|args|] == Stamp(c.captured) && all[|args| + 1] == Text(c.id);
  }

  /** ... ORDER BY captured_at DESC, id DESC LIMIT n OFFSET k */
  function Query(env: Env, s: seq<Report>, conds: seq<Cond>, args: seq<Value>, limit: nat, offset: nat): seq<Report> {
    var all := Listing(s, r => Selected(env, r, args, conds));
    var rest := if offset <= |all| then all[offset..] else [];
    if |rest| > limit then rest[..limit] else rest
  }

  /** Fetching one row more than the page tells whether there is a next page, and where it starts. */
  lemma FetchOneMore(env: Env, s: seq<Report>, f: Filter, limit: int, offset: int, cursor: Option<Cursor>, items: seq<Report>)
    requires Unique(s)
    requires var all := Listing(s, r => Matches(env, f, r) && Past(r, cursor));
      var rest := if Start(cursor, offset) <= |all| then all[Start(cursor, offset)..] else [];
      items == if |rest| > PageSize(limit) + 1 then rest[..PageSize(limit) + 1] else rest
    ensures PageOf(env, s, f, limit, offset, cursor)
         == if |items| > PageSize(limit) then Page(items[..PageSize(limit)], Some(KeyOf(items[PageSize(limit) - 1])))
            else Page(items, None)
    ensures forall r :: r in items ==> r in s
  {
    ListingSorts(s, r => Matches(env, f, r) && Past(r, cursor));
  }

  /** The page of a request: which rows it holds, and when another follows. */
  ghost predicate Holds(all: seq<Report>, items: seq<Report>, more: bool, n: nat, before: nat) {
    && |items| <= n && (more ==> |items| == n)
    && (before <= |all| ==>
          && all[..before] + items <= all && (more <==> |all| > before + n)
          && (!more ==> all[..before] + items == all))
    && (before > |all| ==> items == [] && !more)
  }

  lemma PageHolds(env: Env, s: seq<Report>, f: Filter, limit: int, offset: int, cursor: Option<Cursor>)
    requires Unique(s)
    ensures var page := PageOf(env, s, f, limit, offset, cursor);
      && Holds(Listing(s, r => Matches(env, f, r) && Past(r, cursor)), page.items, page.next.Some?,
               if limit > 0 then limit else 50, if cursor == None && offset > 0 then offset else 0)
      && (page.next.Some? ==> page.items != [] && page.next == Some(KeyOf(Last(page.items))))
      && forall r :: r in page.items ==> r in s && Matches(env, f, r) && Past(r, cursor)
  {
    var all := Listing(s, r => Matches(env, f, r) && Past(r, cursor));
    ListingSorts(s, r => Matches(env, f, r) && Past(r, cursor));
    CutHolds(all, PageSize(limit), Start(cursor, offset));
    assert forall r :: r in all ==> r in s && Matches(env, f, r) && Past(r, cursor);
  }

  lemma CutHolds(all: seq<Report>, n: nat, before: nat)
    ensures var rest := if before <= |all| then all[before..] else [];
      var items := if |rest| > n then rest[..n] else rest;
      Holds(all, items, |rest| > n, n, before) && forall r :: r in items ==> r in all
  {}

  method GrandTotal(env: Env, s: seq<Report>, f: Filter) returns (n: nat)
    ensures f.crisis != "" ==> n == |Listing(s, (r: Report) => r.crisis == Some(f.crisis))|
    ensures f.crisis == "" && f.crises != [] ==> n == |Listing(s, (r: Report) => r.crisis.Some? && r.crisis.value in f.crises)|
    ensures f.crisis == "" && f.crises == [] ==> n == |s|
    ensures n == |Listing(s, r => Clause(env, f, r, 0))|
  {
    if f.crisis != "" {
      n := |Listing(s, (r: Report) => r.crisis == Some(f.crisis))|;
      ListingAgrees(s, (r: Report) => r.crisis == Some(f.crisis), r => Clause(env, f, r, 0));
    } else if |f.crises| > 0 {
      n := |Listing(s, (r: Report) => r.crisis.Some? && r.crisis.value in f.crises)|;
      ListingAgrees(s, (r: Report) => r.crisis.Some? && r.crisis.value in f.crises, r => Clause(env, f, r, 0));
    } else {
      n := |s|;
      ListingAll(s, r => Clause(env, f, r, 0));
    }
  }

  /**
   List: the page with its encoded next cursor, the filtered total, and the total of the crisis scope.  Of the rows in order
   past the cursor, the page holds the first n, after as many as the offset says when there is no cursor; a next cursor is
   given exactly when more remain, and is that of the last row of the page.
   */
  method List(env: Env, s: seq<Report>, f: Filter, limit: int, offset: int, cursor: Option<Cursor>)
    returns (items: seq<Report>, total: nat, grandTotal: nat, next: Option<string>)
    requires Unique(s) && forall r :: r in s ==> Bytes(r.id)
    ensures Holds(Listing(s, r => Matches(env, f, r) && Past(r, cursor)), items, next.Some?,
                  if limit > 0 then limit else 50, if cursor == None && offset > 0 then offset else 0)
    ensures forall r :: r in items && cursor.Some? ==>
              || r.captured < cursor.value.captured
              || (r.captured == cursor.value.captured && Below(r.id, cursor.value.id))
    ensures next.Some? ==> && items != [] && Bytes(Last(items).id)
                           && next.value == EncodeCursor(Cursor(Last(items).captured, Last(items).id))
    ensures items == PageOf(env, s, f, limit, offset, cursor).items
    ensures NextIs(next, PageOf(env, s, f, limit, offset, cursor).next)
    ensures total == |Listing(s, r => Matches(env, f, r))|
    ensures f.crisis != "" ==> grandTotal == |Listing(s, (r: Report) => r.crisis == Some(f.crisis))|
    ensures f.crisis == "" && f.crises != [] ==>
              grandTotal == |Listing(s, (r: Report) => r.crisis.Some? && r.crisis.value in f.crises)|
    ensures f.crisis == "" && f.crises == [] ==> grandTotal == |s|
    ensures grandTotal == |Listing(s, r => Clause(env, f, r, 0))|
  {
    var conds, args := WhereClause(f, 1);
    var keysetConds, keysetArgs := conds, args;
    if cursor.Some? {
      var n := |keysetArgs| + 1;
      keysetConds := keysetConds + [Keyset(n)];
      keysetArgs := keysetArgs + [Stamp(cursor.value.captured), Text(cursor.value.id)];
    }
    QuerySelects(env, s, f, conds, args, cursor, keysetConds, keysetArgs);
    var size := if limit <= 0 then 50 else limit;
    items := Query(env, s, keysetConds, keysetArgs, size + 1, if cursor == None && offset > 0 then offset else 0);
    FetchOneMore(env, s, f, limit, offset, cursor, items);
    PageHolds(env, s, f, limit, offset, cursor);
    next := None;
    if |items| > size {
      var last := items[size - 1];
      assert last in items;
      items := items[..size];
      next := Some(EncodeCursor(Cursor(last.captured, last.id)));
    }
    total := |Listing(s, r => Selected(env, r, args, conds))|;
    grandTotal := GrandTotal(env, s, f);
  }

  /** The next-page token is the encoded cursor. */
  predicate NextIs(next: Option<string>, c: Option<Cursor>) {
    match c
    case None => next == None
    case Some(c) => Bytes(c.id) && next == Some(EncodeCursor(c))
  }

  /** The query's conditions select what the page is defined from. */
  lemma QuerySelects(env: Env, s: seq<Report>, f: Filter, conds: seq<Cond>, args: seq<Value>, cursor: Option<Cursor>,
                     keysetConds: seq<Cond>, keysetArgs: seq<Value>)
    requires forall env, r, all :: Carries(all, 1, args) ==> (Selected(env, r, all, conds) <==> Matches(env, f, r))
    requires cursor == None ==> keysetConds == conds && keysetArgs == args
    requires cursor.Some? ==> keysetConds == conds + [Keyset(|args| + 1)]
                              && keysetArgs == args + [Stamp(cursor.value.captured), Text(cursor.value.id)]
    ensures Listing(s, r => Selected(env, r, keysetArgs, keysetConds)) == Listing(s, r => Matches(env, f, r) && Past(r, cursor))
    ensures Listing(s, r => Selected(env, r, args, conds)) == Listing(s, r => Matches(env, f, r))
  {
    assert Carries(args, 1, args) && Carries(keysetArgs, 1, args);
    forall r
      ensures Selected(env, r, keysetArgs, keysetConds) == (Matches(env, f, r) && Past(r, cursor))
    {
      if cursor.Some? {
        KeysetSelects(env, r, args, cursor.value);
        assert keysetConds[|conds|] == Keyset(|args| + 1);
        assert forall i :: 0 <= i < |conds| ==> keysetConds[i] == conds[i];
        assert Selected(env, r, keysetArgs, keysetConds)
          <==> Selected(env, r, keysetArgs, conds) && Test(env, r, keysetArgs, Keyset(|args| + 1)) == Yes;
      }
    }
    ListingAgrees(s, r => Selected(env, r, keysetArgs, keysetConds), r => Matches(env, f, r) && Past(r, cursor));
    ListingAgrees(s, r => Selected(env, r, args, conds), r => Matches(env, f, r));
  }

  lemma {:induction false} PlacedLength(r: Report, s: seq<Report>)
    ensures |Placed(r, s)| == |s| + 1
  {
    if s != [] && !Newer(r, s[0]) {
      PlacedLength(r, s[1..]);
    }
  }

  lemma {:induction false} ListingAll(s: seq<Report>, p: Report -> bool)
    requires forall r :: p(r)
    ensures |Listing(s, p)| == |s|
  {
    if s != [] {
      ListingAll(Front(s), p);
      PlacedLength(Last(s), Listing(Front(s), p));
    }
  }
}
