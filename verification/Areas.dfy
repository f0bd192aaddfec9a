/** The admin areas: rows inserted if absent, each after its parent; and the reverse geocoder that walks up from one. */
module Areas {
  import opened Basics
  import opened Tables

  datatype Source = Cod | Seed | GeoBoundaries | Baseline

  /** `shape` is None for an upper-level row that only exists to be walked to. */
  datatype Area = Area(
    pcode: string, level: nat, name: string, parent: Option<string>, iso3: string, source: Source, shape: Option<int>)

  /** The rows in the order they were inserted. */
  function PcodesOf(s: seq<Area>): set<string> {
    set a | a in s :: a.pcode
  }

  function Position(s: seq<Area>, pcode: string): Option<nat> {
    if s == [] then None else if Last(s).pcode == pcode then Some(|s| - 1) else Position(Front(s), pcode)
  }

  datatype UpsertOutcome = Inserted | Present | NoParent

  /** ON CONFLICT (pcode) DO NOTHING; the parent must exist, or be the row itself. */
  function UpsertOutcomeOf(s: seq<Area>, a: Area): UpsertOutcome {
    if a.pcode in PcodesOf(s) then Present
    else if a.parent.Some? && a.parent.value != a.pcode && a.parent.value !in PcodesOf(s) then NoParent
    else Inserted
  }

  function AfterUpsert(s: seq<Area>, a: Area): seq<Area> {
    if UpsertOutcomeOf(s, a) == Inserted then s + [a] else s
  }

  /** AreaCountByISO3 > 0 */
  predicate Holds(s: seq<Area>, iso3: string, source: Source) {
    exists i :: 0 <= i < |s| && s[i].iso3 == iso3 && s[i].source == source
  }

  /** What inserting if absent, after the parent, keeps: codes are unique, and every parent is an earlier row or the row itself. */
  ghost predicate Rooted(s: seq<Area>) {
    && (forall i, j :: 0 <= i < j < |s| ==> s[i].pcode != s[j].pcode)
    && (forall i :: 0 <= i < |s| ==> ParentBefore(s, i))
  }

  ghost predicate ParentBefore(s: seq<Area>, i: int)
    requires 0 <= i < |s|
  {
    s[i].parent.Some? ==> exists j :: 0 <= j <= i && s[j].pcode == s[i].parent.value
  }

  lemma {:induction false} PositionFinds(s: seq<Area>, pcode: string)
    ensures match Position(s, pcode)
      case None => pcode !in PcodesOf(s)
      case Some(i) => i < |s| && s[i].pcode == pcode
  {
    if s != [] {
      PositionFinds(Front(s), pcode);
      assert s == Front(s) + [Last(s)];
    }
  }

  lemma UpsertRooted(s: seq<Area>, a: Area)
    requires Rooted(s)
    ensures Rooted(AfterUpsert(s, a))
  {
    if UpsertOutcomeOf(s, a) == Inserted {
      var t := s + [a];
      forall i | 0 <= i < |s| ensures s[i].pcode != a.pcode {
        assert s[i] in s;
      }
      forall i | 0 <= i < |t| ensures ParentBefore(t, i) {
        if i < |s| {
          assert ParentBefore(s, i);
          if s[i].parent.Some? {
            var j :| 0 <= j <= i && s[j].pcode == s[i].parent.value;
            assert t[j].pcode == t[i].parent.value;
          }
        } else if a.parent.Some? {
          if a.parent.value == a.pcode {
            assert t[|s|].pcode == a.parent.value;
          } else {
            var p :| p in s && p.pcode == a.parent.value;
            var j :| 0 <= j < |s| && s[j] == p;
            assert t[j].pcode == a.parent.value;
          }
        }
      }
    }
  }

  function UpsertAll(s: seq<Area>, rows: seq<Area>): seq<Area> {
    if rows == [] then s else AfterUpsert(UpsertAll(s, Front(rows)), Last(rows))
  }

  /** Whatever was ever offered for insertion, in whatever order, the table is rooted. */
  lemma {:induction false} AlwaysRooted(rows: seq<Area>)
    ensures Rooted(UpsertAll([], rows))
  {
    if rows != [] {
      AlwaysRooted(Front(rows));
      UpsertRooted(UpsertAll([], Front(rows)), Last(rows));
    }
  }

  // ---- the walk to the top ----------------------------------------------------------

  /** Row `i` names row `j` as its parent. */
  predicate Under(s: seq<Area>, i: int, j: int) {
    0 <= i < |s| && 0 <= j < |s| && s[i].parent == Some(s[j].pcode)
  }

  predicate SelfParent(a: Area) {
    a.parent == Some(a.pcode)
  }

  lemma UnderIsEarlier(s: seq<Area>, i: int, j: int)
    requires Rooted(s) && Under(s, i, j)
    ensures j < i || (j == i && SelfParent(s[i]))
  {
    assert ParentBefore(s, i);
    var k :| 0 <= k <= i && s[k].pcode == s[i].parent.value;
    assert j == k;
  }

  /** `path` is a walk from its first row towards the top. */
  ghost predicate Climb(s: seq<Area>, path: seq<int>) {
    path != [] && 0 <= path[0] < |s| && forall k :: 0 <= k < |path| - 1 ==> Under(s, path[k], path[k + 1])
  }

  /** The parent graph has no cycle but a row that names itself. */
  lemma {:induction false} ClimbDescends(s: seq<Area>, path: seq<int>)
    requires Rooted(s) && Climb(s, path)
    requires forall k :: 0 <= k < |path| - 1 ==> !(0 <= path[k] < |s| && SelfParent(s[path[k]]))
    ensures |path| > 1 ==> path[|path| - 1] < path[0]
    ensures |path| <= path[0] + 1
  {
    if |path| > 1 {
      assert Under(s, path[0], path[1]);
      UnderIsEarlier(s, path[0], path[1]);
      var rest := path[1..];
      forall k | 0 <= k < |rest| - 1
        ensures Under(s, rest[k], rest[k + 1]) && !(0 <= rest[k] < |s| && SelfParent(s[rest[k]]))
      {
        assert Under(s, path[k + 1], path[k + 2]);
      }
      ClimbDescends(s, rest);
    }
  }

  /** The recursive query produces finitely many rows: no walk from `i` is longer than some bound. */
  ghost predicate WalkEnds(s: seq<Area>, i: int) {
    exists bound: nat :: Bounded(s, i, bound)
  }

  ghost predicate Bounded(s: seq<Area>, i: int, bound: nat) {
    forall path :: Climb(s, path) && path[0] == i ==> |path| <= bound
  }

  ghost predicate Reaches(s: seq<Area>, i: int, j: int) {
    exists path :: Climb(s, path) && path[0] == i && path[|path| - 1] == j
  }

  /** From a given row the walk to the top ends exactly when it never comes to a row that names itself as parent. */
  lemma WalkEndsExactly(s: seq<Area>, i: nat)
    requires Rooted(s) && i < |s|
    ensures WalkEnds(s, i) <==> forall j :: 0 <= j < |s| && Reaches(s, i, j) ==> !SelfParent(s[j])
  {
    if j :| 0 <= j < |s| && Reaches(s, i, j) && SelfParent(s[j]) {
      var path :| Climb(s, path) && path[0] == i && path[|path| - 1] == j;
      if WalkEnds(s, i) {
        var bound: nat :| Bounded(s, i, bound);
        var longer := Spin(s, path, j, bound + 1);
      }
    }
    if forall j :: 0 <= j < |s| && Reaches(s, i, j) ==> !SelfParent(s[j]) {
      forall path | Climb(s, path) && path[0] == i
        ensures |path| <= i + 1
      {
        forall k | 0 <= k < |path| - 1 ensures !(0 <= path[k] < |s| && SelfParent(s[path[k]])) {
          ReachesAlong(s, path, k);
        }
        ClimbDescends(s, path);
      }
      assert Bounded(s, i, i + 1);
    }
  }

  lemma ReachesAlong(s: seq<Area>, path: seq<int>, k: nat)
    requires Climb(s, path) && k < |path|
    ensures Reaches(s, path[0], path[k])
  {
    var part := path[..k + 1];
    forall m | 0 <= m < |part| - 1 ensures Under(s, part[m], part[m + 1]) {
      assert Under(s, path[m], path[m + 1]);
    }
    assert Climb(s, part) && part[|part| - 1] == path[k];
  }

  /** A walk that has come to a self-parent row can go on for as long as one likes. */
  lemma {:induction false} Spin(s: seq<Area>, path: seq<int>, j: nat, n: nat) returns (longer: seq<int>)
    requires Climb(s, path) && j < |s| && path[|path| - 1] == j && SelfParent(s[j])
    ensures Climb(s, longer) && longer[0] == path[0] && |longer| >= n && longer[|longer| - 1] == j
    decreases n
  {
    if |path| >= n || n == 0 {
      longer := path;
    } else {
      longer := Spin(s, path, j, n - 1);
      var more := longer + [j];
      forall k | 0 <= k < |more| - 1 ensures Under(s, more[k], more[k + 1]) {
        if k < |longer| - 1 {
          assert Under(s, longer[k], longer[k + 1]);
        }
      }
      longer := more;
    }
  }

  // ---- the reverse geocoder --------------------------------------------------------------

  /** Does a shape contain a point: PostGIS decides. */
  type Geometry = (int, Point) -> bool

  predicate Hit(g: Geometry, a: Area, p: Point) {
    a.shape.Some? && g(a.shape.value, p)
  }

  function RankOf(source: Source): nat {
    match source case Cod => 4 case Seed => 3 case GeoBoundaries => 2 case Baseline => 1
  }

  /** ORDER BY source rank DESC, level DESC */
  predicate Outranks(a: Area, b: Area) {
    RankOf(a.source) > RankOf(b.source) || (RankOf(a.source) == RankOf(b.source) && a.level > b.level)
  }

  /** COD beats seed data, seed data beats geoBoundaries, and anything beats the baseline; within a source deeper is better. */
  predicate Beats(a: Area, b: Area) {
    || (a.source == Cod && b.source != Cod)
    || (a.source == Seed && (b.source == GeoBoundaries || b.source == Baseline))
    || (a.source == GeoBoundaries && b.source == Baseline)
    || (a.source == b.source && a.level > b.level)
  }

  /** A row the query may start from: it contains the point and none that does outranks it (ties are the database's choice). */
  ghost predicate Chosen(g: Geometry, s: seq<Area>, p: Point, a: Area) {
    a in s && Hit(g, a, p) && forall b :: b in s && Hit(g, b, p) ==> !Outranks(b, a)
  }

  lemma {:induction false} UpsertAllKeeps(s: seq<Area>, rows: seq<Area>)
    ensures s <= UpsertAll(s, rows)
  {
    if rows != [] {
      UpsertAllKeeps(s, Front(rows));
    }
  }

  /** The area the query starts from, if any contains the point. */
  function Pick(g: Geometry, s: seq<Area>, p: Point): Option<Area> {
    if s == [] then None
    else
      var rest := Pick(g, Front(s), p);
      if Hit(g, Last(s), p) && (rest == None || Outranks(Last(s), rest.value)) then Some(Last(s)) else rest
  }

  lemma {:induction false} PickIsChosen(g: Geometry, s: seq<Area>, p: Point)
    ensures Pick(g, s, p) == None <==> forall a :: a in s ==> !Hit(g, a, p)
    ensures Pick(g, s, p).Some? ==> Chosen(g, s, p, Pick(g, s, p).value)
  {
    if s != [] {
      PickIsChosen(g, Front(s), p);
      assert s == Front(s) + [Last(s)];
    }
  }

  /** Loading more areas never lowers the (source rank, level) of the area chosen for a point, and never loses the point. */
  lemma ChoiceOnlyImproves(g: Geometry, s: seq<Area>, rows: seq<Area>, p: Point, a: Area)
    requires Chosen(g, s, p, a)
    ensures exists b :: Chosen(g, UpsertAll(s, rows), p, b)
    ensures forall b :: Chosen(g, UpsertAll(s, rows), p, b) ==> !Outranks(a, b) && !Beats(a, b)
  {
    UpsertAllKeeps(s, rows);
    assert a in UpsertAll(s, rows);
    PickIsChosen(g, UpsertAll(s, rows), p);
  }

  ghost predicate NoSelfParents(s: seq<Area>) {
    forall i :: 0 <= i < |s| ==> !SelfParent(s[i])
  }

  /** The rows of the recursive query: the start, then its parents up to the top. */
  function Lineage(s: seq<Area>, i: nat): seq<Area>
    requires Rooted(s) && NoSelfParents(s) && i < |s|
    decreases i
  {
    if s[i].parent == None then [s[i]]
    else
      ParentPosition(s, i);
      [s[i]] + Lineage(s, Position(s, s[i].parent.value).value)
  }

  lemma ParentPosition(s: seq<Area>, i: nat)
    requires Rooted(s) && NoSelfParents(s) && i < |s| && s[i].parent.Some?
    ensures Position(s, s[i].parent.value).Some? && Position(s, s[i].parent.value).value < i
  {
    PositionFinds(s, s[i].parent.value);
    assert ParentBefore(s, i);
    var k :| 0 <= k <= i && s[k].pcode == s[i].parent.value;
    assert s[k] in s;
    UnderIsEarlier(s, i, Position(s, s[i].parent.value).value);
  }

  /** The lineage starts at the row, climbs one parent at a time, and ends at a row without a parent. */
  lemma {:induction false} LineageClimbs(s: seq<Area>, i: nat)
    requires Rooted(s) && NoSelfParents(s) && i < |s|
    ensures var rows := Lineage(s, i);
      && rows != [] && rows[0] == s[i] && |rows| <= i + 1 && rows[|rows| - 1].parent == None
      && (forall k :: 0 <= k < |rows| - 1 ==> rows[k].parent == Some(rows[k + 1].pcode))
      && (forall r :: r in rows ==> r in s)
    decreases i
  {
    if s[i].parent.Some? {
      ParentPosition(s, i);
      PositionFinds(s, s[i].parent.value);
      LineageClimbs(s, Position(s, s[i].parent.value).value);
    }
  }

  /** Row `i` is the last of its level, and `ref` is its code and name. */
  predicate NamesRow(rows: seq<Area>, level: nat, ref: AdminRef, i: int) {
    && 0 <= i < |rows| && rows[i].level == level && ref.pcode == rows[i].pcode && ref.name == rows[i].name
    && forall j :: i < j < |rows| ==> rows[j].level != level
  }

  /** The code and name of the last row of a level, if there is one. */
  ghost predicate NamesLast(rows: seq<Area>, level: nat, ref: Option<AdminRef>) {
    if ref == None then forall i :: 0 <= i < |rows| ==> rows[i].level != level
    else exists i :: NamesRow(rows, level, ref.value, i)
  }

  lemma {:induction false} LastAtNames(rows: seq<Area>, level: nat)
    ensures NamesLast(rows, level, LastAt(rows, level))
  {
    if rows != [] {
      LastAtNames(Front(rows), level);
      if Last(rows).level == level {
        assert NamesRow(rows, level, LastAt(rows, level).value, |rows| - 1);
      } else if LastAt(rows, level).Some? {
        var i :| NamesRow(Front(rows), level, LastAt(rows, level).value, i);
        assert NamesRow(rows, level, LastAt(rows, level).value, i);
      }
    }
  }

  /** ResolveAdmin: nothing for a point outside every area; otherwise the chain of a chosen area's lineage. */
  method ResolveAdmin(g: Geometry, s: seq<Area>, p: Point) returns (chain: Option<AdminChain>, ghost start: nat)
    requires Rooted(s) && NoSelfParents(s)
    ensures chain == None <==> forall a :: a in s ==> !Hit(g, a, p)
    ensures chain.Some? ==> start < |s| && Chosen(g, s, p, s[start])
    ensures chain.Some? ==> s[start].shape.Some? && g(s[start].shape.value, p)
    ensures chain.Some? ==> forall a :: a in s && a.shape.Some? && g(a.shape.value, p) ==> !Beats(a, s[start])
    ensures chain.Some? ==> var rows := Lineage(s, start);
      && NamesLast(rows, 0, chain.value.adm0) && NamesLast(rows, 1, chain.value.adm1)
      && NamesLast(rows, 2, chain.value.adm2) && NamesLast(rows, 3, chain.value.adm3)
    ensures chain.Some? ==> var rows := Lineage(s, start);
      chain == Some(AdminChain(LastAt(rows, 0), LastAt(rows, 1), LastAt(rows, 2), LastAt(rows, 3)))
  {
    start := 0;
    PickIsChosen(g, s, p);
    var pick := Pick(g, s, p);
    if pick == None {
      return None, 0;
    }
    PositionFinds(s, pick.value.pcode);
    assert pick.value in s;
    var i := Position(s, pick.value.pcode).value;
    SameRow(s, i, pick.value);
    start := i;
    var filled, found := FillChain(Lineage(s, i));
    LineageClimbs(s, i);
    LastAtNames(Lineage(s, i), 0);
    LastAtNames(Lineage(s, i), 1);
    LastAtNames(Lineage(s, i), 2);
    LastAtNames(Lineage(s, i), 3);
    assert forall a, b :: Beats(a, b) <==> Outranks(a, b);
    chain := if found then Some(filled) else None;
  }

  lemma SameRow(s: seq<Area>, i: nat, a: Area)
    requires Rooted(s) && i < |s| && a in s && s[i].pcode == a.pcode
    ensures s[i] == a
  {
    var j :| 0 <= j < |s| && s[j] == a;
    assert i == j;
  }

  /** ResolveAdmin's row loop: of the rows the walk produced, each level keeps the last. */
  method FillChain(rows: seq<Area>) returns (chain: AdminChain, found: bool)
    ensures found <==> rows != []
    ensures chain == AdminChain(LastAt(rows, 0), LastAt(rows, 1), LastAt(rows, 2), LastAt(rows, 3))
  {
    chain, found := NO_ADMIN, false;
    for i := 0 to |rows|
      invariant found <==> i > 0
      invariant chain == AdminChain(LastAt(rows[..i], 0), LastAt(rows[..i], 1), LastAt(rows[..i], 2), LastAt(rows[..i], 3))
    {
      found := true;
      assert Front(rows[..i + 1]) == rows[..i];
      var ref := AdminRef(rows[i].pcode, rows[i].name);
      match rows[i].level {
        case 0 => chain := chain.(adm0 := Some(ref));
        case 1 => chain := chain.(adm1 := Some(ref));
        case 2 => chain := chain.(adm2 := Some(ref));
        case 3 => chain := chain.(adm3 := Some(ref));
        case _ =>
      }
    }
    assert rows[..|rows|] == rows;
  }

  function LastAt(rows: seq<Area>, level: nat): Option<AdminRef> {
    if rows == [] then None
    else if Last(rows).level == level then Some(AdminRef(Last(rows).pcode, Last(rows).name))
    else LastAt(Front(rows), level)
  }
}
