/** The cached damage of a building over every interleaving: which step, and only which, leaves it wrong. */
module Damage {
  import opened Basics
  import opened Tables
  import opened Intake
  import opened Sessions
  import opened Rows
  import opened Safety
  import opened Chains
  import opened Versions
  import opened Histories
  import opened Links

  /** current_damage of a building with reports is the damage of its newest report. */
  ghost predicate DamageCurrent(s: System, b: string) {
    OfBuilding(s.db.reports, b) != [] ==>
      b in s.db.buildings && s.db.buildings[b].damage == NewestDamage(OfBuilding(s.db.reports, b))
  }

  /** Two tables that agree on everything the damage refresh looks at. */
  ghost predicate SameRanks(c: seq<Report>, c': seq<Report>) {
    && |c| == |c'|
    && forall i :: 0 <= i < |c| ==>
         c[i].id == c'[i].id && c[i].captured == c'[i].captured && c[i].damage == c'[i].damage
  }

  lemma {:induction false} SameRanksNewest(c: seq<Report>, c': seq<Report>)
    requires SameRanks(c, c')
    ensures NewestDamage(c) == NewestDamage(c')
    ensures Newest(c).Some? <==> Newest(c').Some?
    ensures Newest(c).Some? ==> Newest(c).value.id == Newest(c').value.id && Newest(c).value.captured == Newest(c').value.captured
  {
    if c != [] {
      SameRanksNewest(Front(c), Front(c'));
    }
  }

  lemma SameDamage(c: seq<Report>, c': seq<Report>)
    requires SameCore(c, c')
    ensures SameRanks(c, c')
  {
    forall i | 0 <= i < |c|
      ensures c[i].id == c'[i].id && c[i].captured == c'[i].captured && c[i].damage == c'[i].damage
    {
      CoreFields(c[i], c'[i]);
    }
  }

  lemma {:induction false} UnlinkedDamage(s: seq<Report>, id: string, b: string)
    requires forall r :: r in OfBuilding(s, b) ==> r.id != id
    ensures SameRanks(OfBuilding(s, b), OfBuilding(Erase(s, id), b))
  {
    if s != [] {
      EraseFront(s, id);
      assert forall r :: r in OfBuilding(Front(s), b) ==> r in OfBuilding(s, b);
      UnlinkedDamage(Front(s), id, b);
      if Last(s).id != id {
        OfBuildingAppend(Erase(Front(s), id), Unlink(s, id)[|s| - 1], b);
        assert Last(s).building == Some(b) ==> Last(s) in OfBuilding(s, b);
      } else {
        assert Erase(s, id) == Erase(Front(s), id);
        OfBuildingMembers(s, b);
      }
    }
  }

  lemma DamageElsewhere(w: World, cfg: Emergent, s: System, e: Event, b: string)
    requires Enabled(w, s, e) && Good(s) && b != ""
    requires !(Stores(s, e) && s.sessions[e.t].row.building == Some(b))
    ensures b in s.db.buildings ==>
      b in DbAfter(w, cfg, s, e).buildings && DbAfter(w, cfg, s, e).buildings[b].damage == s.db.buildings[b].damage
  {}

  lemma ShapeOfCommit(s: System, t: nat)
    requires t in s.sessions && s.sessions[t].inserted && HasBuilding(s.sessions[t].row)
    ensures var x := s.sessions[t];
      var db' := CommitTables(s.db, x.row, true, x.damage);
      && db'.reports == s.db.reports + [x.row]
      && x.row.building.value in db'.buildings && db'.buildings[x.row.building.value].damage == x.damage
  {}

  lemma {:induction false} ErasedRanks(c: seq<Report>, id: string)
    ensures SameRanks(Without(c, id), Erase(c, id))
  {
    if c != [] {
      ErasedRanks(Front(c), id);
      EraseFront(c, id);
    }
  }

  /** Taking away another row than the newest leaves the newest. */
  lemma {:induction false} NewestWithout(c: seq<Report>, id: string)
    requires Newest(c).Some? && Newest(c).value.id != id
    ensures Newest(Without(c, id)) == Newest(c)
  {
    var rest, last := Newest(Front(c)), Last(c);
    if rest == None || Newer(last, rest.value) {
      LastIsNewest(Front(c), last, id);
      assert Front(Without(Front(c), id) + [last]) == Without(Front(c), id);
    } else {
      NewestWithout(Front(c), id);
      if last.id == id {
        assert Without(c, id) == Without(Front(c), id);
      } else {
        assert Front(Without(Front(c), id) + [last]) == Without(Front(c), id);
      }
    }
  }

  lemma LastIsNewest(c: seq<Report>, r: Report, id: string)
    requires Newest(c) == None || Newer(r, Newest(c).value)
    ensures Newest(Without(c, id)) == None || Newer(r, Newest(Without(c, id)).value)
  {
    NewestMember(Without(c, id));
    if Newest(Without(c, id)).Some? {
      var o := Newest(Without(c, id)).value;
      WithoutMembers(c, id, o);
      NewestIsMaximal(c, o);
      NewerTotal(o, Newest(c).value);
      if Newer(Newest(c).value, o) {
        NewerTransitive(r, Newest(c).value, o);
      }
    }
  }

  lemma {:induction false} WithoutMembers(c: seq<Report>, id: string, r: Report)
    requires r in Without(c, id)
    ensures r in c && r.id != id
  {
    assert c == Front(c) + [Last(c)];
    if r in Without(Front(c), id) {
      WithoutMembers(Front(c), id, r);
    }
  }

  // ---- the rows of a building, one step on ---------------------------------------------

  predicate StoresIn(s: System, e: Event, b: string) {
    Stores(s, e) && s.sessions[e.t].row.building == Some(b)
  }

  /** What the step leaves of the building's rows. */
  function Survivors(s: System, e: Event, b: string): seq<Report> {
    var c := OfBuilding(s.db.reports, b);
    if ErasedBuilding(s, e) == Some(b) then Without(c, e.id) else c
  }

  lemma RanksAfter(w: World, cfg: Emergent, s: System, e: Event, b: string)
    requires Enabled(w, s, e) && Good(s) && !StoresIn(s, e, b)
    ensures SameRanks(Survivors(s, e, b), OfBuilding(DbAfter(w, cfg, s, e).reports, b))
  {
    var reports := s.db.reports;
    StepReports(w, cfg, s, e);
    if Stores(s, e) {
      OfBuildingAppend(reports, s.sessions[e.t].row, b);
    } else if Erases(s, e) {
      FindStored(reports, e.id);
      if ErasedBuilding(s, e) == Some(b) {
        EraseCounts(reports, e.id, b);
        ErasedRanks(OfBuilding(reports, b), e.id);
      } else {
        ErasedElsewhere(reports, e.id, b);
      }
    } else {
      OfBuildingCore(reports, DbAfter(w, cfg, s, e).reports, b);
      SameDamage(OfBuilding(reports, b), OfBuilding(DbAfter(w, cfg, s, e).reports, b));
    }
  }

  lemma ErasedElsewhere(s: seq<Report>, id: string, b: string)
    requires Unique(s) && Find(s, id).Some? && Find(s, id).value.building != Some(b)
    ensures SameRanks(OfBuilding(s, b), OfBuilding(Erase(s, id), b))
  {
    OfBuildingMembers(s, b);
    forall r | r in OfBuilding(s, b)
      ensures r.id != id
    {
      FindUnique(s, r);
    }
    UnlinkedDamage(s, id, b);
  }

  lemma WithoutAppend(c: seq<Report>, tail: seq<Report>, id: string)
    requires |tail| <= 1 && forall r :: r in tail ==> r.id != id
    ensures Without(c + tail, id) == Without(c, id) + tail
  {
    if tail == [] {
      assert c + tail == c;
    } else {
      assert Front(c + tail) == c && Last(c + tail) == tail[0] && tail == [tail[0]];
    }
  }

  /** `id` is the newest of the rows, and this is its damage. */
  predicate Tops(c: seq<Report>, id: string, damage: string) {
    NewestId(c) == Some(id) && NewestDamage(c) == Some(damage)
  }

  lemma TopsSameRanks(c: seq<Report>, c': seq<Report>, tail: seq<Report>, id: string, damage: string)
    requires SameRanks(c, c') && Tops(c + tail, id, damage)
    ensures Tops(c' + tail, id, damage)
  {
    SameRanksNewest(c + tail, c' + tail);
  }

  /** The newest stays the newest as long as it is not erased itself and nothing is stored. */
  lemma TopsAfter(
    w: World, cfg: Emergent, s: System, e: Event, b: string, tail: seq<Report>, id: string, damage: string)
    requires Enabled(w, s, e) && Good(s) && !StoresIn(s, e, b) && !ErasesId(s, e, id)
    requires |tail| <= 1 && forall r :: r in tail ==> !ErasesId(s, e, r.id)
    requires Tops(OfBuilding(s.db.reports, b) + tail, id, damage)
    ensures Tops(OfBuilding(DbAfter(w, cfg, s, e).reports, b) + tail, id, damage)
  {
    var c := OfBuilding(s.db.reports, b);
    RanksAfter(w, cfg, s, e, b);
    if ErasedBuilding(s, e) == Some(b) {
      WithoutAppend(c, tail, e.id);
      NewestWithout(c + tail, e.id);
    }
    TopsSameRanks(Survivors(s, e, b), OfBuilding(DbAfter(w, cfg, s, e).reports, b), tail, id, damage);
  }

  // ---- one step ----------------------------------------------------------------------

  /** The step erases the newest report of the building, and the newest of the others has another damage. */
  predicate ErasesNewest(s: System, e: Event, b: string) {
    var c := OfBuilding(s.db.reports, b);
    && ErasedBuilding(s, e) == Some(b) && NewestId(c) == Some(e.id)
    && Without(c, e.id) != [] && NewestDamage(Without(c, e.id)) != NewestDamage(c)
  }

  lemma NewestGone(c: seq<Report>, id: string)
    requires c != []
    ensures Without(c, id) != [] && NewestDamage(Without(c, id)) != NewestDamage(c) ==> NewestId(c) == Some(id)
  {
    NewestMember(c);
    if Newest(c).value.id != id {
      NewestWithout(c, id);
    }
  }

  /** A right cache after a step that stores nothing in the building: it still has the damage of what was newest before. */
  lemma CacheAfter(w: World, cfg: Emergent, s: System, e: Event, b: string)
    requires Enabled(w, s, e) && Good(s) && b != "" && !StoresIn(s, e, b) && DamageCurrent(s, b)
    ensures DamageCurrent(Apply(w, cfg, s, e), b) <==>
      var c' := OfBuilding(DbAfter(w, cfg, s, e).reports, b);
      c' == [] || NewestDamage(c') == NewestDamage(OfBuilding(s.db.reports, b))
  {
    RanksAfter(w, cfg, s, e, b);
    DamageElsewhere(w, cfg, s, e, b);
  }

  /** A step that stores nothing in the building leaves a right cache wrong exactly when it erases the newest like that. */
  lemma ErasureOutdatesExactly(w: World, cfg: Emergent, s: System, e: Event, b: string)
    requires Enabled(w, s, e) && Good(s) && b != "" && !StoresIn(s, e, b) && DamageCurrent(s, b)
    ensures !DamageCurrent(Apply(w, cfg, s, e), b) <==> ErasesNewest(s, e, b)
  {
    var c := OfBuilding(s.db.reports, b);
    CacheAfter(w, cfg, s, e, b);
    RanksAfter(w, cfg, s, e, b);
    SameRanksNewest(Survivors(s, e, b), OfBuilding(DbAfter(w, cfg, s, e).reports, b));
    if ErasedBuilding(s, e) == Some(b) && c != [] {
      NewestGone(c, e.id);
    }
  }

  /** A commit leaves the cache right exactly when the damage it carries is that of the newest row it then finds. */
  lemma CommitDamage(w: World, cfg: Emergent, s: System, e: Event, b: string)
    requires Enabled(w, s, e) && Good(s) && b != "" && StoresIn(s, e, b)
    ensures var x := s.sessions[e.t];
      DamageCurrent(Apply(w, cfg, s, e), b) <==> x.damage == NewestDamage(OfBuilding(s.db.reports, b) + [x.row])
  {
    StoredHoldsLock(w, s, e, b);
    OfBuildingAppend(s.db.reports, s.sessions[e.t].row, b);
    ShapeOfCommit(s, e.t);
  }

  // ---- whole runs ----------------------------------------------------------------------

  /** Step `n` leaves what was newest of the rows and `tail`. */
  predicate TopsKept(states: seq<System>, n: int, b: string, tail: seq<Report>, id: string, damage: string) {
    0 <= n && n + 1 < |states| &&
    (Tops(OfBuilding(states[n].db.reports, b) + tail, id, damage) ==>
       Tops(OfBuilding(states[n + 1].db.reports, b) + tail, id, damage))
  }

  lemma {:induction false} TopsLast(
    states: seq<System>, i: nat, m: nat, b: string, tail: seq<Report>, id: string, damage: string)
    requires i < m < |states| && forall n :: i < n < m ==> TopsKept(states, n, b, tail, id, damage)
    requires Tops(OfBuilding(states[i + 1].db.reports, b) + tail, id, damage)
    ensures Tops(OfBuilding(states[m].db.reports, b) + tail, id, damage)
    decreases m
  {
    if i + 1 < m {
      TopsLast(states, i, m - 1, b, tail, id, damage);
      assert TopsKept(states, m - 1, b, tail, id, damage);
    }
  }

  lemma TopsStep(
    w: World, cfg: Emergent, states: seq<System>, evs: seq<Event>, n: nat, b: string, tail: seq<Report>, id: string, damage: string)
    requires Run(w, cfg, states, evs) && n < |evs| && |tail| <= 1 && !ErasesId(states[n], evs[n], id)
    requires Undisturbed(states, evs, n, b, tail)
    ensures TopsKept(states, n, b, tail, id, damage)
  {
    AlwaysGood(w, cfg, states, evs, n);
    if Tops(OfBuilding(states[n].db.reports, b) + tail, id, damage) {
      TopsAfter(w, cfg, states[n], evs[n], b, tail, id, damage);
    }
  }

  /** The newest of the rows and `tail` stays so from step `i` to step `m`. */
  lemma TopsStays(
    w: World, cfg: Emergent, states: seq<System>, evs: seq<Event>, i: nat, m: nat, b: string, tail: seq<Report>,
    id: string, damage: string)
    requires Run(w, cfg, states, evs) && i < m <= |evs| && |tail| <= 1 && !ErasedBetween(states, evs, id, i, m)
    requires forall n :: i < n < m ==> Undisturbed(states, evs, n, b, tail)
    requires Tops(OfBuilding(states[i + 1].db.reports, b) + tail, id, damage)
    ensures Tops(OfBuilding(states[m].db.reports, b) + tail, id, damage)
  {
    forall n | i < n < m
      ensures TopsKept(states, n, b, tail, id, damage)
    {
      TopsStep(w, cfg, states, evs, n, b, tail, id, damage);
    }
    TopsLast(states, i, m, b, tail, id, damage);
  }

  /** Step `n` stores nothing in the building and erases no row of `tail`. */
  ghost predicate Undisturbed(states: seq<System>, evs: seq<Event>, n: int, b: string, tail: seq<Report>) {
    0 <= n < |evs| && n < |states| && !StoresIn(states[n], evs[n], b) && forall r :: r in tail ==> !ErasesId(states[n], evs[n], r.id)
  }

  /** While a session is inside its transaction on a building, nobody else stores there; nor erases what it has pending. */
  lemma LockedUndisturbed(w: World, cfg: Emergent, states: seq<System>, evs: seq<Event>, t: nat, n: nat, b: string)
    requires Run(w, cfg, states, evs) && n < |evs| && b != ""
    requires t in states[n].sessions && t in states[n + 1].sessions && HoldsLock(states[n + 1].sessions[t], b)
    ensures Undisturbed(states, evs, n, b, [])
    ensures HasPendingRow(states[n].sessions[t]) ==> Undisturbed(states, evs, n, b, [states[n].sessions[t].row])
  {
    AlwaysGood(w, cfg, states, evs, n);
    LockedQuiet(w, cfg, states[n], evs[n], b, t);
    var s, e := states[n], evs[n];
    if HasPendingRow(s.sessions[t]) {
      assert Committable(s.db, s.sessions[t].row);
      if Erases(s, e) {
        FindStored(s.db.reports, e.id);
      }
    }
  }

  /** What was newest, the row itself included, when session `t` computed its damage at step `j`. */
  function RefreshedTo(states: seq<System>, j: nat, r: Report, b: string): Option<Report>
    requires j < |states|
  {
    Newest(OfBuilding(states[j].db.reports, b) + [r])
  }

  /**
   Step `k` commits a damage that was found at a refresh after which the row it belongs to was erased, and the newest row
   now has another.
   */
  ghost predicate CommitsOutdated(states: seq<System>, evs: seq<Event>, k: nat, b: string)
    requires k < |evs| && |states| == |evs| + 1
  {
    StoresIn(states[k], evs[k], b) &&
    var t, r := evs[k].t, states[k].sessions[evs[k].t].row;
    exists j :: LastDid(evs, Refresh(t), t, j, k) && RefreshedTo(states, j, r, b).Some?
                && ErasedBetween(states, evs, RefreshedTo(states, j, r, b).value.id, j, k)
                && NewestDamage(OfBuilding(states[k].db.reports, b) + [r]) != Some(RefreshedTo(states, j, r, b).value.damage)
  }

  lemma RefreshStep(w: World, cfg: Emergent, states: seq<System>, evs: seq<Event>, t: nat, j: nat)
    requires Run(w, cfg, states, evs) && j < |evs| && evs[j] == Refresh(t)
    ensures states[j + 1].db == states[j].db
  {}

  /** Between its refresh and its commit a session's pending row keeps others out. */
  lemma RefreshUndisturbed(
    w: World, cfg: Emergent, states: seq<System>, evs: seq<Event>, t: nat, j: nat, n: nat, k: nat, b: string)
    requires Run(w, cfg, states, evs) && Life(w, states, evs, t) && k < |evs| && LastDid(evs, Refresh(t), t, j, k) && j < n < k
    requires t in states[k].sessions && Refreshed(states[k].sessions[t]) && states[k].sessions[t].row.building == Some(b)
    ensures Undisturbed(states, evs, n, b, [states[k].sessions[t].row])
  {
    SinceRefresh(w, states, evs, t, j, n, k);
    SinceRefresh(w, states, evs, t, j, n + 1, k);
    LockedUndisturbed(w, cfg, states, evs, t, n, b);
  }

  /** What a refresh found newest still is, when its session commits, unless it has been erased. */
  lemma RefreshLasts(w: World, cfg: Emergent, states: seq<System>, evs: seq<Event>, t: nat, j: nat, k: nat, b: string)
    requires Run(w, cfg, states, evs) && Life(w, states, evs, t) && k < |evs| && LastDid(evs, Refresh(t), t, j, k)
    requires t in states[k].sessions && Refreshed(states[k].sessions[t]) && states[k].sessions[t].row.building == Some(b)
    ensures var r := states[k].sessions[t].row;
      && RefreshedTo(states, j, r, b).Some? && states[k].sessions[t].damage == Some(RefreshedTo(states, j, r, b).value.damage)
      && (!ErasedBetween(states, evs, RefreshedTo(states, j, r, b).value.id, j, k) ==>
            NewestDamage(OfBuilding(states[k].db.reports, b) + [r]) == states[k].sessions[t].damage)
  {
    var r := states[k].sessions[t].row;
    RefreshFound(w, states, evs, t, j, k);
    OfBuildingAppend(states[j].db.reports, r, b);
    NewestMember(OfBuilding(states[j].db.reports, b) + [r]);
    RefreshStep(w, cfg, states, evs, t, j);
    var p := RefreshedTo(states, j, r, b).value;
    if !ErasedBetween(states, evs, p.id, j, k) {
      forall n | j < n < k
        ensures Undisturbed(states, evs, n, b, [r])
      {
        RefreshUndisturbed(w, cfg, states, evs, t, j, n, k, b);
      }
      TopsStays(w, cfg, states, evs, j, k, b, [r], p.id, p.damage);
    }
  }

  /** In every run, a commit leaves its building's cache wrong exactly when the damage it carries is outdated like that. */
  lemma CommitOutdatesExactly(w: World, cfg: Emergent, states: seq<System>, evs: seq<Event>, k: nat, b: string)
    requires Run(w, cfg, states, evs) && k < |evs| && b != "" && StoresIn(states[k], evs[k], b)
    ensures !DamageCurrent(states[k + 1], b) <==> CommitsOutdated(states, evs, k, b)
  {
    var t := evs[k].t;
    AlwaysGood(w, cfg, states, evs, k);
    StoredHoldsLock(w, states[k], evs[k], b);
    CommitDamage(w, cfg, states[k], evs[k], b);
    RunLife(w, cfg, states, evs, t);
    var j := WasRefreshed(w, states, evs, t, k);
    RefreshLasts(w, cfg, states, evs, t, j, k, b);
    forall j' | LastDid(evs, Refresh(t), t, j', k)
      ensures j' == j
    {
      LastDidOnce(evs, Refresh(t), t, j, j', k);
    }
  }

  // ---- links at home -------------------------------------------------------------------

  lemma ReadBeforeRefresh(w: World, cfg: Emergent, states: seq<System>, evs: seq<Event>, t: nat, i: nat, j: nat, k: nat)
    requires Run(w, cfg, states, evs) && Life(w, states, evs, t) && k < |evs|
    requires LastDid(evs, Read(t), t, i, k) && LastDid(evs, Refresh(t), t, j, k)
    requires t in states[k].sessions && Refreshed(states[k].sessions[t])
    ensures i < j
  {
    if j < i {
      SinceRefresh(w, states, evs, t, j, i, k);
    }
  }

  lemma ReadUndisturbed(
    w: World, cfg: Emergent, states: seq<System>, evs: seq<Event>, t: nat, i: nat, n: nat, k: nat, b: string)
    requires Run(w, cfg, states, evs) && Life(w, states, evs, t) && k < |evs| && LastDid(evs, Read(t), t, i, k) && i < n < k
    requires t in states[k].sessions && Numbering(states[k].sessions[t]) && states[k].sessions[t].row.building == Some(b)
    ensures Undisturbed(states, evs, n, b, [])
  {
    SinceRead(w, states, evs, t, i, n, k);
    SinceRead(w, states, evs, t, i, n + 1, k);
    LockedUndisturbed(w, cfg, states, evs, t, n, b);
  }

  lemma {:induction false} EmptyStays(w: World, cfg: Emergent, states: seq<System>, evs: seq<Event>, i: nat, m: nat, b: string)
    requires Run(w, cfg, states, evs) && i < m <= |evs|
    requires forall n :: i < n < m ==> Undisturbed(states, evs, n, b, [])
    requires OfBuilding(states[i + 1].db.reports, b) == []
    ensures OfBuilding(states[m].db.reports, b) == []
    decreases m
  {
    if i + 1 < m {
      EmptyStays(w, cfg, states, evs, i, m - 1, b);
      assert Undisturbed(states, evs, m - 1, b, []);
      AlwaysGood(w, cfg, states, evs, m - 1);
      RanksAfter(w, cfg, states[m - 1], evs[m - 1], b);
    }
  }

  lemma ReadStep(w: World, cfg: Emergent, states: seq<System>, evs: seq<Event>, t: nat, i: nat)
    requires Run(w, cfg, states, evs) && i < |evs| && evs[i] == Read(t)
    ensures states[i + 1].db == states[i].db
  {}

  /** At its refresh a session finds the report it supersedes the newest of its building, unless that was erased. */
  lemma TargetTops(w: World, cfg: Emergent, states: seq<System>, evs: seq<Event>, t: nat, i: nat, j: nat, k: nat, b: string)
    requires Run(w, cfg, states, evs) && Life(w, states, evs, t) && k < |evs| && LastDid(evs, Read(t), t, i, k) && i < j < k
    requires t in states[k].sessions && Numbering(states[k].sessions[t]) && states[k].sessions[t].row.building == Some(b)
    ensures match states[k].sessions[t].row.supersedes
      case None => OfBuilding(states[j].db.reports, b) == []
      case Some(q) => !ErasedBetween(states, evs, q, i, j) ==> NewestId(OfBuilding(states[j].db.reports, b)) == Some(q)
  {
    SinceRead(w, states, evs, t, i, k, k);
    ReadStep(w, cfg, states, evs, t, i);
    forall n | i < n < j
      ensures Undisturbed(states, evs, n, b, [])
    {
      ReadUndisturbed(w, cfg, states, evs, t, i, n, k, b);
    }
    var c := OfBuilding(states[i].db.reports, b);
    NewestMember(c);
    match states[k].sessions[t].row.supersedes
    case None => EmptyStays(w, cfg, states, evs, i, j, b);
    case Some(q) =>
      if !ErasedBetween(states, evs, q, i, j) {
        assert c + [] == c;
        TopsStays(w, cfg, states, evs, i, j, b, [], q, Newest(c).value.damage);
        assert OfBuilding(states[j].db.reports, b) + [] == OfBuilding(states[j].db.reports, b);
      }
  }

  lemma NewestOfAppended(c: seq<Report>, r: Report)
    ensures var p := Newest(c + [r]); p == Some(r) || (c != [] && p == Newest(c))
  {
    assert Front(c + [r]) == c;
    NewestMember(c);
  }

  /** Whatever is erased between a session's refresh and its commit is not its own row. */
  lemma OwnRowStays(w: World, cfg: Emergent, states: seq<System>, evs: seq<Event>, t: nat, j: nat, k: nat, b: string)
    requires Run(w, cfg, states, evs) && Life(w, states, evs, t) && k < |evs| && LastDid(evs, Refresh(t), t, j, k)
    requires t in states[k].sessions && Refreshed(states[k].sessions[t]) && states[k].sessions[t].row.building == Some(b)
    ensures !ErasedBetween(states, evs, states[k].sessions[t].row.id, j, k)
  {
    forall n | j < n < k
      ensures !ErasesId(states[n], evs[n], states[k].sessions[t].row.id)
    {
      RefreshUndisturbed(w, cfg, states, evs, t, j, n, k, b);
    }
  }

  lemma ErasedLonger(states: seq<System>, evs: seq<Event>, q: string, i: nat, j: nat, k: nat)
    requires i <= j && (ErasedBetween(states, evs, q, j, k) || ErasedBetween(states, evs, q, i, j)) && j <= k
    ensures ErasedBetween(states, evs, q, i, k)
  {}

  /** An outdated commit is one whose superseded report was erased behind its version read. */
  lemma OutdatedIsMisled(w: World, cfg: Emergent, states: seq<System>, evs: seq<Event>, k: nat, b: string)
    requires Run(w, cfg, states, evs) && k < |evs| && b != "" && CommitsOutdated(states, evs, k, b)
    ensures Misled(states, evs, k)
  {
    var t := evs[k].t;
    AlwaysGood(w, cfg, states, evs, k);
    StoredHoldsLock(w, states[k], evs[k], b);
    RunLife(w, cfg, states, evs, t);
    var j :| LastDid(evs, Refresh(t), t, j, k) && RefreshedTo(states, j, states[k].sessions[t].row, b).Some?
             && ErasedBetween(states, evs, RefreshedTo(states, j, states[k].sessions[t].row, b).value.id, j, k);
    var i := WasNumbered(w, states, evs, t, k);
    ReadBeforeRefresh(w, cfg, states, evs, t, i, j, k);
    TargetErased(w, cfg, states, evs, t, i, j, k, b);
  }

  /** If what a refresh found newest is erased before the commit, so is, or was before, what the row supersedes. */
  lemma TargetErased(w: World, cfg: Emergent, states: seq<System>, evs: seq<Event>, t: nat, i: nat, j: nat, k: nat, b: string)
    requires Run(w, cfg, states, evs) && Life(w, states, evs, t) && k < |evs|
    requires LastDid(evs, Read(t), t, i, k) && LastDid(evs, Refresh(t), t, j, k) && i < j
    requires t in states[k].sessions && Refreshed(states[k].sessions[t]) && states[k].sessions[t].row.building == Some(b)
    requires RefreshedTo(states, j, states[k].sessions[t].row, b).Some?
    requires ErasedBetween(states, evs, RefreshedTo(states, j, states[k].sessions[t].row, b).value.id, j, k)
    ensures var r := states[k].sessions[t].row;
      r.supersedes.Some? && ErasedBetween(states, evs, r.supersedes.value, i, k)
  {
    var r := states[k].sessions[t].row;
    OwnRowStays(w, cfg, states, evs, t, j, k, b);
    TargetTops(w, cfg, states, evs, t, i, j, k, b);
    NewestOfAppended(OfBuilding(states[j].db.reports, b), r);
    var q := r.supersedes.value;
    assert ErasedBetween(states, evs, q, i, j) || ErasedBetween(states, evs, q, j, k);
    ErasedLonger(states, evs, q, i, j, k);
  }

  /**
   A commit whose link is at home makes its building's cache right, whatever it held before and whatever was erased behind
   the refresh.
   */
  lemma StoreRefreshes(w: World, cfg: Emergent, states: seq<System>, evs: seq<Event>, k: nat, b: string)
    requires Run(w, cfg, states, evs) && k < |evs| && b != "" && StoresIn(states[k], evs[k], b)
    requires !Misled(states, evs, k)
    ensures DamageCurrent(states[k + 1], b)
  {
    CommitOutdatesExactly(w, cfg, states, evs, k, b);
    if CommitsOutdated(states, evs, k, b) {
      OutdatedIsMisled(w, cfg, states, evs, k, b);
    }
  }

  // ---- exactly when ----------------------------------------------------------------------

  /** Step `k` leaves the cache of the building wrong, if it was right before. */
  ghost predicate Outdates(states: seq<System>, evs: seq<Event>, k: nat, b: string)
    requires k < |evs| && |states| == |evs| + 1
  {
    ErasesNewest(states[k], evs[k], b) || CommitsOutdated(states, evs, k, b)
  }

  lemma StepOutdates(w: World, cfg: Emergent, states: seq<System>, evs: seq<Event>, k: nat, b: string)
    requires Run(w, cfg, states, evs) && k < |evs| && b != "" && DamageCurrent(states[k], b)
    ensures DamageCurrent(states[k + 1], b) <==> !Outdates(states, evs, k, b)
  {
    AlwaysGood(w, cfg, states, evs, k);
    if StoresIn(states[k], evs[k], b) {
      CommitOutdatesExactly(w, cfg, states, evs, k, b);
    } else {
      ErasureOutdatesExactly(w, cfg, states[k], evs[k], b);
    }
  }

  lemma {:induction false} CurrentSoFar(w: World, cfg: Emergent, states: seq<System>, evs: seq<Event>, n: nat, b: string)
    requires Run(w, cfg, states, evs) && n < |states| && b != ""
    requires forall k :: 0 <= k < |evs| ==> !Outdates(states, evs, k, b)
    ensures DamageCurrent(states[n], b)
  {
    if n > 0 {
      CurrentSoFar(w, cfg, states, evs, n - 1, b);
      StepOutdates(w, cfg, states, evs, n - 1, b);
    }
  }

  /**
   In every state of a run the cached damage of a building with reports is that of its newest, exactly when no step erases
   its newest report while the next newest has another damage, and no step commits an outdated damage.
   */
  lemma DamageFollowsNewest(w: World, cfg: Emergent, states: seq<System>, evs: seq<Event>, b: string)
    requires Run(w, cfg, states, evs) && b != ""
    ensures (forall n :: 0 <= n < |states| ==> DamageCurrent(states[n], b))
       <==> (forall k :: 0 <= k < |evs| ==> !Outdates(states, evs, k, b))
  {
    if forall n :: 0 <= n < |states| ==> DamageCurrent(states[n], b) {
      forall k | 0 <= k < |evs|
        ensures !Outdates(states, evs, k, b)
      {
        assert DamageCurrent(states[k], b) && DamageCurrent(states[k + 1], b);
        StepOutdates(w, cfg, states, evs, k, b);
      }
    }
    if forall k :: 0 <= k < |evs| ==> !Outdates(states, evs, k, b) {
      forall n | 0 <= n < |states|
        ensures DamageCurrent(states[n], b)
      {
        CurrentSoFar(w, cfg, states, evs, n, b);
      }
    }
  }

  /** In particular, where all links stay at home, only such an erasure can ever leave the cache wrong. */
  lemma DamageAtHome(w: World, cfg: Emergent, states: seq<System>, evs: seq<Event>, b: string)
    requires Run(w, cfg, states, evs) && b != ""
    requires forall k :: 0 <= k < |evs| && StoresIn(states[k], evs[k], b) ==> !Misled(states, evs, k)
    ensures (forall n :: 0 <= n < |states| ==> DamageCurrent(states[n], b))
       <==> (forall k :: 0 <= k < |evs| ==> !ErasesNewest(states[k], evs[k], b))
  {
    forall k | 0 <= k < |evs|
      ensures Outdates(states, evs, k, b) <==> ErasesNewest(states[k], evs[k], b)
    {
      if CommitsOutdated(states, evs, k, b) {
        OutdatedIsMisled(w, cfg, states, evs, k, b);
      }
    }
    DamageFollowsNewest(w, cfg, states, evs, b);
  }
}
