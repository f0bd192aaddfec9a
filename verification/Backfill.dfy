/** The H3 backfill: bounded pages of rows without a cell, in whatever order the database hands them out. */
module Backfill {
  import opened Basics
  import opened Tables

  const CHUNK := 2000

  /** The columns the backfill reads and writes. */
  datatype Row = Row(point: Option<Point>, cell: Option<string>)

  /** H3CellR8: empty when the point has no cell. */
  type Cells = Point -> string

  predicate Pending(r: Row) {
    r.cell == None && r.point.Some?
  }

  predicate Cellable(h3: Cells, r: Row) {
    Pending(r) && h3(r.point.value) != ""
  }

  /** WHERE h3_r8 IS NULL AND lat IS NOT NULL AND lng IS NOT NULL */
  function PendingIds(t: map<string, Row>): set<string> {
    set id | id in t && Pending(t[id])
  }

  function CellableIds(h3: Cells, t: map<string, Row>): set<string> {
    set id | id in t && Cellable(h3, t[id])
  }

  /** Pending rows that never get a cell. */
  function HopelessIds(h3: Cells, t: map<string, Row>): set<string> {
    PendingIds(t) - CellableIds(h3, t)
  }

  /** Every row of `ids` with its cell filled in. */
  function Stamped(h3: Cells, t: map<string, Row>, ids: set<string>): map<string, Row> {
    map id | id in t :: if id in ids && Cellable(h3, t[id]) then t[id].(cell := Some(h3(t[id].point.value))) else t[id]
  }

  /** What SELECT ... LIMIT may answer: that many distinct pending rows, any of them. */
  ghost predicate PageFrom(t: map<string, Row>, page: seq<string>) {
    && (forall i, j :: 0 <= i < j < |page| ==> page[i] != page[j])
    && (forall i :: 0 <= i < |page| ==> page[i] in PendingIds(t))
    && |page| == if |PendingIds(t)| <= CHUNK then |PendingIds(t)| else CHUNK
  }

  function Elements(s: seq<string>): set<string> {
    set x | x in s
  }

  lemma {:induction false} DistinctSize(s: seq<string>)
    requires forall i, j :: 0 <= i < j < |s| ==> s[i] != s[j]
    ensures |Elements(s)| == |s|
  {
    if s == [] {
      assert Elements(s) == {};
    } else {
      DistinctSize(Front(s));
      assert s == Front(s) + [Last(s)];
      assert Elements(s) == Elements(Front(s)) + {Last(s)};
    }
  }

  lemma ElementsMore(s: seq<string>, x: string)
    ensures Elements(s + [x]) == Elements(s) + {x}
  {}

  lemma SubsetSize(a: set<string>, b: set<string>)
    requires a <= b
    ensures |a| <= |b| && (|a| == |b| ==> a == b)
  {
    assert b == a + (b - a);
  }

  /** A page shorter than the limit, or short enough to hold all hopeless rows, shows everything that is left. */
  lemma PageTells(h3: Cells, t: map<string, Row>, page: seq<string>)
    requires PageFrom(t, page)
    ensures |page| < CHUNK ==> Elements(page) == PendingIds(t)
    ensures Elements(page) <= HopelessIds(h3, t) && |HopelessIds(h3, t)| < CHUNK ==> CellableIds(h3, t) == {}
  {
    DistinctSize(page);
    SubsetSize(Elements(page), PendingIds(t));
    if Elements(page) <= HopelessIds(h3, t) && |HopelessIds(h3, t)| < CHUNK {
      SubsetSize(Elements(page), HopelessIds(h3, t));
      assert Elements(page) == PendingIds(t);
      assert forall id :: id in CellableIds(h3, t) ==> id in PendingIds(t) && id !in HopelessIds(h3, t);
    }
  }

  lemma StampCounts(h3: Cells, t: map<string, Row>, ids: set<string>)
    requires ids <= CellableIds(h3, t)
    ensures CellableIds(h3, Stamped(h3, t, ids)) == CellableIds(h3, t) - ids
    ensures HopelessIds(h3, Stamped(h3, t, ids)) == HopelessIds(h3, t)
    ensures PendingIds(Stamped(h3, t, ids)) == PendingIds(t) - ids
  {}

  lemma StampTwice(h3: Cells, t: map<string, Row>, a: set<string>, b: set<string>)
    ensures Stamped(h3, Stamped(h3, t, a), b) == Stamped(h3, t, a + b)
  {}

  class ReportTable {
    var rows: map<string, Row>

    constructor (rows: map<string, Row>)
      ensures this.rows == rows
    {
      this.rows := rows;
    }

    /** A page of pending rows.  Callers may rely only on its being some page. */
    method SelectPage() returns (page: seq<string>)
      ensures PageFrom(rows, page)
    {
      page := [];
      var left := PendingIds(rows);
      while |page| < CHUNK && left != {}
        invariant left <= PendingIds(rows) && Elements(page) == PendingIds(rows) - left
        invariant |page| + |left| == |PendingIds(rows)| && |page| <= CHUNK
        invariant forall i, j :: 0 <= i < j < |page| ==> page[i] != page[j]
        invariant forall i :: 0 <= i < |page| ==> page[i] in PendingIds(rows)
        decreases left
      {
        var id :| id in left;
        assert forall i :: 0 <= i < |page| ==> page[i] in Elements(page);
        ElementsMore(page, id);
        page := page + [id];
        left := left - {id};
      }
    }

    /** One set-based UPDATE of rows that still have no cell; the number of rows it affected. */
    method Stamp(h3: Cells, ids: seq<string>) returns (affected: nat)
      requires forall i, j :: 0 <= i < j < |ids| ==> ids[i] != ids[j]
      requires forall i :: 0 <= i < |ids| ==> ids[i] in CellableIds(h3, rows)
      modifies this
      ensures rows == Stamped(h3, old(rows), Elements(ids)) && affected == |ids|
    {
      affected := |ids|;
      rows := map id | id in rows ::
        if id in Elements(ids) && Cellable(h3, rows[id]) then rows[id].(cell := Some(h3(rows[id].point.value))) else rows[id];
    }

    /** The rows of a page that have a cell to be stamped with. */
    method WithCells(h3: Cells, page: seq<string>) returns (ids: seq<string>)
      requires PageFrom(rows, page)
      ensures forall i, j :: 0 <= i < j < |ids| ==> ids[i] != ids[j]
      ensures forall x :: x in ids <==> x in page && x in CellableIds(h3, rows)
    {
      ids := [];
      for i := 0 to |page|
        invariant forall a, b :: 0 <= a < b < |ids| ==> ids[a] != ids[b]
        invariant forall x :: x in ids <==> x in page[..i] && x in CellableIds(h3, rows)
      {
        assert page[i] in PendingIds(rows) && page[i] !in page[..i];
        if h3(rows[page[i]].point.value) != "" {
          ids := ids + [page[i]];
        }
        assert page[..i + 1] == page[..i] + [page[i]];
      }
      assert page[..|page|] == page;
    }

    /** Compute and stamp the cells of one page.  Done when it was empty, brought no progress, or was not full. */
    method FillPage(h3: Cells, page: seq<string>) returns (affected: nat, done: bool)
      requires PageFrom(rows, page)
      modifies this
      ensures rows == Stamped(h3, old(rows), Elements(page))
      ensures affected == |Elements(page) * CellableIds(h3, old(rows))|
      ensures done <==> |page| < CHUNK || affected == 0
    {
      if |page| == 0 {
        assert Elements(page) == {};
        return 0, true;
      }
      var ids := WithCells(h3, page);
      PageCells(h3, rows, page, ids);
      if |ids| == 0 {
        return 0, true;
      }
      affected := Stamp(h3, ids);
      done := |page| < CHUNK;
    }

    /**
     BackfillH3R8: terminates, returns the number of rows it filled, each with its own cell and nothing else changed, and
     leaves no cellable row unfilled as long as fewer than 2000 pending rows have no cell.
     */
    method BackfillH3R8(h3: Cells) returns (total: nat)
      modifies this
      ensures rows.Keys == old(rows).Keys
      ensures forall id :: id in rows && rows[id] != old(rows)[id] ==>
                && old(rows)[id].cell == None && old(rows)[id].point.Some? && h3(old(rows)[id].point.value) != ""
                && rows[id] == old(rows)[id].(cell := Some(h3(old(rows)[id].point.value)))
      ensures total == |set id | id in rows && rows[id] != old(rows)[id]|
      ensures |set id | id in old(rows) && old(rows)[id].cell == None && old(rows)[id].point.Some?
                        && h3(old(rows)[id].point.value) == ""| < 2000 ==>
                forall id :: id in rows && rows[id].cell == None && rows[id].point.Some? ==> h3(rows[id].point.value) == ""
      ensures exists filled :: Progress(h3, old(rows), filled, rows) && |filled| == total
      ensures |HopelessIds(h3, old(rows))| < CHUNK ==> CellableIds(h3, rows) == {} && total == |CellableIds(h3, old(rows))|
    {
      total := 0;
      ghost var filled: set<string> := {};
      NoProgress(h3, rows);
      while true
        invariant Progress(h3, old(rows), filled, rows) && |filled| == total
        decreases |CellableIds(h3, rows)|
      {
        var page := SelectPage();
        ghost var t := rows;
        var affected, done := FillPage(h3, page);
        PageProgress(h3, old(rows), filled, t, page);
        total := total + affected;
        filled := filled + Elements(page) * CellableIds(h3, t);
        if done {
          ProgressMeans(h3, old(rows), filled, rows);
          return;
        }
      }
    }
  }

  /** The table `t` is `t0` with the cells of `filled`, which all had one to get. */
  ghost predicate Progress(h3: Cells, t0: map<string, Row>, filled: set<string>, t: map<string, Row>) {
    && filled <= CellableIds(h3, t0) && t == Stamped(h3, t0, filled)
    && CellableIds(h3, t) == CellableIds(h3, t0) - filled && HopelessIds(h3, t) == HopelessIds(h3, t0)
  }

  /** Progress, row by row. */
  lemma ProgressMeans(h3: Cells, t0: map<string, Row>, filled: set<string>, t: map<string, Row>)
    requires Progress(h3, t0, filled, t)
    ensures t.Keys == t0.Keys
    ensures forall id :: id in t && t[id] != t0[id] ==>
      && t0[id].cell == None && t0[id].point.Some? && h3(t0[id].point.value) != ""
      && t[id] == t0[id].(cell := Some(h3(t0[id].point.value)))
    ensures filled == set id | id in t && t[id] != t0[id]
    ensures HopelessIds(h3, t0) ==
      set id | id in t0 && t0[id].cell == None && t0[id].point.Some? && h3(t0[id].point.value) == ""
    ensures CellableIds(h3, t) == {} ==>
      forall id :: id in t && t[id].cell == None && t[id].point.Some? ==> h3(t[id].point.value) == ""
  {
    forall id | id in t && t[id].cell == None && t[id].point.Some? && h3(t[id].point.value) != ""
      ensures id in CellableIds(h3, t)
    {}
  }

  lemma NoProgress(h3: Cells, t: map<string, Row>)
    ensures Progress(h3, t, {}, t)
  {
    assert t == Stamped(h3, t, {});
  }

  /** The listed rows of a page are those that a stamp of the whole page would change. */
  lemma PageCells(h3: Cells, t: map<string, Row>, page: seq<string>, ids: seq<string>)
    requires forall i, j :: 0 <= i < j < |ids| ==> ids[i] != ids[j]
    requires forall x :: x in ids <==> x in page && x in CellableIds(h3, t)
    ensures Elements(ids) == Elements(page) * CellableIds(h3, t) && |ids| == |Elements(page) * CellableIds(h3, t)|
    ensures Stamped(h3, t, Elements(ids)) == Stamped(h3, t, Elements(page))
    ensures |ids| == 0 ==> Stamped(h3, t, Elements(page)) == t
  {
    DistinctSize(ids);
    assert forall x :: x in Elements(ids) <==> x in Elements(page) && x in CellableIds(h3, t);
    assert Elements(ids) == Elements(page) * CellableIds(h3, t);
  }

  lemma StampOnlyCellable(h3: Cells, t: map<string, Row>, ids: set<string>)
    ensures Stamped(h3, t, ids) == Stamped(h3, t, ids * CellableIds(h3, t))
  {}

  /** Filling more of the cellable rows. */
  lemma FilledMore(h3: Cells, t0: map<string, Row>, filled: set<string>, t: map<string, Row>, more: set<string>)
    requires Progress(h3, t0, filled, t) && more <= CellableIds(h3, t)
    ensures Progress(h3, t0, filled + more, Stamped(h3, t, more)) && |filled + more| == |filled| + |more|
    ensures |CellableIds(h3, Stamped(h3, t, more))| == |CellableIds(h3, t)| - |more|
  {
    StampCounts(h3, t, more);
    StampTwice(h3, t0, filled, more);
    assert filled !! more;
    assert CellableIds(h3, t) == (CellableIds(h3, t) - more) + more;
  }

  /** What one page adds; and when it ends the loop, what is then left. */
  lemma PageProgress(h3: Cells, t0: map<string, Row>, filled: set<string>, t: map<string, Row>, page: seq<string>)
    requires Progress(h3, t0, filled, t) && PageFrom(t, page)
    ensures var more := Elements(page) * CellableIds(h3, t);
      var t' := Stamped(h3, t, Elements(page));
      && Progress(h3, t0, filled + more, t') && |filled + more| == |filled| + |more|
      && |CellableIds(h3, t')| == |CellableIds(h3, t)| - |more|
      && ((|page| < CHUNK || |more| == 0) && |HopelessIds(h3, t0)| < CHUNK ==>
            CellableIds(h3, t') == {} && |filled + more| == |CellableIds(h3, t0)|)
  {
    var more := Elements(page) * CellableIds(h3, t);
    StampOnlyCellable(h3, t, Elements(page));
    FilledMore(h3, t0, filled, t, more);
    if (|page| < CHUNK || |more| == 0) && |HopelessIds(h3, t0)| < CHUNK {
      NothingLeft(h3, t, page);
      StampCounts(h3, t, more);
      Drained(h3, t0, filled + more, Stamped(h3, t, more));
    }
  }

  /** A page that is not full shows all that is pending; a full one without progress is all there is without a cell. */
  lemma NothingLeft(h3: Cells, t: map<string, Row>, page: seq<string>)
    requires PageFrom(t, page) && |HopelessIds(h3, t)| < CHUNK
    requires |page| < CHUNK || Elements(page) * CellableIds(h3, t) == {}
    ensures CellableIds(h3, t) <= Elements(page)
  {
    assert forall x :: x in Elements(page) ==> x in PendingIds(t);
    if |page| == CHUNK {
      assert Elements(page) <= HopelessIds(h3, t) by {
        assert forall x :: x in Elements(page) ==> x !in Elements(page) * CellableIds(h3, t) ==> x !in CellableIds(h3, t);
      }
    }
    PageTells(h3, t, page);
    assert CellableIds(h3, t) <= PendingIds(t);
  }

  lemma Drained(h3: Cells, t0: map<string, Row>, filled: set<string>, t: map<string, Row>)
    requires filled <= CellableIds(h3, t0) && CellableIds(h3, t) == CellableIds(h3, t0) - filled
    requires CellableIds(h3, t) == {}
    ensures |filled| == |CellableIds(h3, t0)|
  {
    forall x | x in CellableIds(h3, t0) ensures x in filled {
      assert x !in CellableIds(h3, t);
    }
    assert filled == CellableIds(h3, t0);
  }

  /**
   The bound is needed, and exact: some page the database may answer with makes the loop stop at once, with nothing filled
   although a row could be, exactly when a row could be and 2000 or more have no cell.
   */
  lemma BackfillCanStall(h3: Cells, t: map<string, Row>)
    ensures (exists page :: PageFrom(t, page) && Elements(page) * CellableIds(h3, t) == {}
                            && Stamped(h3, t, Elements(page)) == t && CellableIds(h3, t) != {})
       <==> |HopelessIds(h3, t)| >= 2000 && CellableIds(h3, t) != {}
  {
    if |HopelessIds(h3, t)| >= CHUNK {
      var page := HopelessPage(h3, t);
      assert Elements(page) * CellableIds(h3, t) == {};
      assert Stamped(h3, t, Elements(page)) == t;
    } else {
      forall page | PageFrom(t, page) && Elements(page) * CellableIds(h3, t) == {}
        ensures CellableIds(h3, t) == {}
      {
        NothingLeft(h3, t, page);
      }
    }
  }

  lemma HopelessPage(h3: Cells, t: map<string, Row>) returns (page: seq<string>)
    requires |HopelessIds(h3, t)| >= CHUNK
    ensures PageFrom(t, page) && Elements(page) <= HopelessIds(h3, t)
  {
    page := Listed(HopelessIds(h3, t), CHUNK);
    SubsetSize(HopelessIds(h3, t), PendingIds(t));
    forall i | 0 <= i < |page| ensures page[i] in PendingIds(t) {
      assert page[i] in Elements(page);
    }
  }

  lemma {:induction false} Listed(s: set<string>, n: nat) returns (list: seq<string>)
    requires n <= |s|
    ensures |list| == n && Elements(list) <= s
    ensures forall i, j :: 0 <= i < j < |list| ==> list[i] != list[j]
    decreases n
  {
    if n == 0 {
      list := [];
    } else {
      var x :| x in s;
      list := Listed(s - {x}, n - 1);
      assert forall i :: 0 <= i < |list| ==> list[i] in Elements(list);
      list := list + [x];
    }
  }
}
