/** Which building a supersedes link leads to, and when a version number recurs. */
module Links {
  import opened Basics
  import opened Tables
  import opened Intake
  import opened Sessions
  import opened Rows
  import opened Safety
  import opened Chains
  import opened Histories
  import opened Versions

  ghost predicate StoredIn(s: seq<Report>, q: string, b: string) {
    exists r :: r in s && r.id == q && r.building == Some(b)
  }

  /** A row keeps its id and building until it is erased. */
  lemma StoredInStep(w: World, cfg: Emergent, s: System, e: Event, q: string, b: string)
    requires Enabled(w, s, e) && !(Stores(s, e) && s.sessions[e.t].row.building == Some(b))
    ensures StoredIn(DbAfter(w, cfg, s, e).reports, q, b) <==> StoredIn(s.db.reports, q, b) && !ErasesId(s, e, q)
  {
    var reports, reports' := s.db.reports, DbAfter(w, cfg, s, e).reports;
    StepReports(w, cfg, s, e);
    if Stores(s, e) {
      assert forall r :: r in reports' <==> r in reports || r == s.sessions[e.t].row;
    } else if Erases(s, e) {
      if StoredIn(reports', q, b) {
        var r :| r in reports' && r.id == q && r.building == Some(b);
        EraseMembers(reports, e.id, r);
      }
      if q != e.id && StoredIn(reports, q, b) {
        var r :| r in reports && r.id == q && r.building == Some(b);
        ErasureKeepsOthers(reports, e.id, r);
      }
    } else {
      StoredInCore(reports, reports', q, b);
    }
  }

  lemma StoredInCore(s: seq<Report>, s': seq<Report>, q: string, b: string)
    requires SameCore(s, s')
    ensures StoredIn(s, q, b) <==> StoredIn(s', q, b)
  {
    forall i | 0 <= i < |s|
      ensures s[i] in s && s'[i] in s' && s[i].id == s'[i].id && s[i].building == s'[i].building
    {
      CoreFields(s[i], s'[i]);
    }
    if StoredIn(s, q, b) {
      var i :| 0 <= i < |s| && s[i].id == q && s[i].building == Some(b);
      assert s'[i] in s';
    }
    if StoredIn(s', q, b) {
      var i :| 0 <= i < |s'| && s'[i].id == q && s'[i].building == Some(b);
      assert s[i] in s;
    }
  }

  lemma {:induction false} ErasureKeepsOthers(s: seq<Report>, id: string, r: Report)
    requires r in s && r.id != id
    ensures exists r' :: r' in Erase(s, id) && r'.id == r.id && r'.building == r.building
  {
    EraseFront(s, id);
    assert s == Front(s) + [Last(s)];
    if r in Front(s) {
      ErasureKeepsOthers(Front(s), id, r);
      var r' :| r' in Erase(Front(s), id) && r'.id == r.id && r'.building == r.building;
      assert r' in Erase(s, id);
    } else {
      var r' := Unlink(s, id)[|s| - 1];
      assert r' in Erase(s, id) && r'.id == r.id && r'.building == r.building;
    }
  }

  lemma NewestIsStored(s: seq<Report>, q: string, b: string)
    requires NewestId(OfBuilding(s, b)) == Some(q)
    ensures StoredIn(s, q, b)
  {
    var c := OfBuilding(s, b);
    NewestMember(c);
    OfBuildingMembers(s, b);
    assert Newest(c).value in s;
  }

  lemma ErasedLater(states: seq<System>, evs: seq<Event>, q: string, i: nat, k: nat)
    requires i + 1 < k <= |evs| && |states| == |evs| + 1
    ensures ErasedBetween(states, evs, q, i, k)
       <==> ErasedBetween(states, evs, q, i, k - 1) || ErasesId(states[k - 1], evs[k - 1], q)
  {}

  lemma TargetStep(w: World, cfg: Emergent, s: System, e: Event, t: nat, q: string, b: string)
    requires Enabled(w, s, e) && Good(s) && b != ""
    requires t in SessionsAfter(w, cfg, s, e) && HoldsLock(SessionsAfter(w, cfg, s, e)[t], b)
    ensures StoredIn(DbAfter(w, cfg, s, e).reports, q, b) <==> StoredIn(s.db.reports, q, b) && !ErasesId(s, e, q)
  {
    LockedQuiet(w, cfg, s, e, b, t);
    StoredInStep(w, cfg, s, e, q, b);
  }

  lemma TargetRead(
    w: World, cfg: Emergent, states: seq<System>, evs: seq<Event>, t: nat, i: nat, q: string, b: string)
    requires Run(w, cfg, states, evs) && i < |evs| && evs[i] == Read(t)
    requires NewestId(OfBuilding(states[i].db.reports, b)) == Some(q)
    ensures StoredIn(states[i + 1].db.reports, q, b)
  {
    NewestIsStored(states[i].db.reports, q, b);
    assert DbAfter(w, cfg, states[i], evs[i]) == states[i].db;
  }

  ghost predicate TargetFollowed(states: seq<System>, evs: seq<Event>, q: string, b: string, k: int)
    requires |states| == |evs| + 1
  {
    0 <= k < |evs| ==>
      (StoredIn(states[k + 1].db.reports, q, b) <==> StoredIn(states[k].db.reports, q, b) && !ErasesId(states[k], evs[k], q))
  }

  /** One more step of the wait. */
  lemma TargetWaits(
    w: World, cfg: Emergent, states: seq<System>, evs: seq<Event>, t: nat, k: nat, q: string, b: string)
    requires Run(w, cfg, states, evs) && k < |evs| && b != ""
    requires t in states[k + 1].sessions && HoldsLock(states[k + 1].sessions[t], b)
    ensures TargetFollowed(states, evs, q, b, k)
  {
    AlwaysGood(w, cfg, states, evs, k);
    TargetStep(w, cfg, states[k], evs[k], t, q, b);
  }

  /** The superseded report is still in the building exactly as long as it has not been erased. */
  lemma {:induction false} TargetStays(states: seq<System>, evs: seq<Event>, i: nat, k: nat, q: string, b: string)
    requires |states| == |evs| + 1 && i < k <= |evs| && StoredIn(states[i + 1].db.reports, q, b)
    requires forall m :: i < m < k ==> TargetFollowed(states, evs, q, b, m)
    ensures StoredIn(states[k].db.reports, q, b) <==> !ErasedBetween(states, evs, q, i, k)
    decreases k - i
  {
    if k > i + 1 {
      TargetStays(states, evs, i, k - 1, q, b);
      assert TargetFollowed(states, evs, q, b, k - 1);
      ErasedLater(states, evs, q, i, k);
    }
  }

  /** The superseded report after its number was read, up to the commit. */
  lemma TargetSinceRead(w: World, cfg: Emergent, states: seq<System>, evs: seq<Event>, t: nat, i: nat, k: nat, q: string, b: string)
    requires Run(w, cfg, states, evs) && Life(w, states, evs, t) && k < |states| && LastDid(evs, Read(t), t, i, k) && b != ""
    requires t in states[k].sessions && Numbering(states[k].sessions[t])
    requires states[k].sessions[t].row.supersedes == Some(q) && states[k].sessions[t].row.building == Some(b)
    ensures StoredIn(states[k].db.reports, q, b) <==> !ErasedBetween(states, evs, q, i, k)
  {
    SinceRead(w, states, evs, t, i, k, k);
    TargetRead(w, cfg, states, evs, t, i, q, b);
    forall m | i < m < k
      ensures TargetFollowed(states, evs, q, b, m)
    {
      SinceRead(w, states, evs, t, i, m + 1, k);
      TargetWaits(w, cfg, states, evs, t, m, q, b);
    }
    TargetStays(states, evs, i, k, q, b);
  }

  /**
   When a submit that read its number at step `i` inserts at step `j`, the report its link names is a report of its own
   building exactly when that report was not erased in between.  (If it was, the id had been stored again, elsewhere.)
   */
  lemma LinkStaysInBuilding(
    w: World, cfg: Emergent, states: seq<System>, evs: seq<Event>, t: nat, i: nat, j: nat, b: string)
    requires Run(w, cfg, states, evs) && j < |evs| && LastDid(evs, Read(t), t, i, j) && evs[j] == Insert(t)
    requires b != "" && t in states[j].sessions && states[j].sessions[t].row.building == Some(b)
    requires OfBuilding(states[i].db.reports, b) != []
    ensures states[j].sessions[t].row.supersedes.Some?
    ensures var x := states[j].sessions[t];
      InsertOutcomeOf(states[j].db, x.row) == Inserted ==>
        var target := Find(states[j].db.reports, x.row.supersedes.value);
        target.Some? && (target.value.building == Some(b) <==> !ErasedBetween(states, evs, x.row.supersedes.value, i, j))
  {
    RunLife(w, cfg, states, evs, t);
    NewestMember(OfBuilding(states[i].db.reports, b));
    SinceRead(w, states, evs, t, i, j, j);
    var q := states[j].sessions[t].row.supersedes.value;
    TargetSinceRead(w, cfg, states, evs, t, i, j, q, b);
    AlwaysGood(w, cfg, states, evs, j);
    TargetFound(states[j].db.reports, q, b);
  }

  lemma TargetFound(s: seq<Report>, q: string, b: string)
    requires Unique(s)
    ensures Find(s, q).Some? <==> q in Ids(s)
    ensures Find(s, q).Some? ==> (Find(s, q).value.building == Some(b) <==> StoredIn(s, q, b))
  {
    FindStored(s, q);
    if StoredIn(s, q, b) {
      var r :| r in s && r.id == q && r.building == Some(b);
      FindUnique(s, r);
    }
  }

  // ---- whole runs --------------------------------------------------------------------------

  /** The report a row supersedes is stored, and is a report of the row's own building. */
  ghost predicate LinkHome(s: seq<Report>, r: Report) {
    r.supersedes.Some? ==> r.building.Some? && StoredIn(s, r.supersedes.value, r.building.value)
  }

  ghost predicate LinksHome(s: seq<Report>) {
    forall r :: r in s ==> LinkHome(s, r)
  }

  lemma LinkHomeCore(s: seq<Report>, s': seq<Report>)
    requires SameCore(s, s') && LinksHome(s)
    ensures LinksHome(s')
  {
    forall r' | r' in s'
      ensures LinkHome(s', r')
    {
      var i :| 0 <= i < |s'| && s'[i] == r';
      CoreFields(s[i], s'[i]);
      assert s[i] in s && LinkHome(s, s[i]);
      if r'.supersedes.Some? {
        StoredInCore(s, s', r'.supersedes.value, r'.building.value);
      }
    }
  }

  lemma LinkHomeErase(s: seq<Report>, id: string)
    requires LinksHome(s)
    ensures LinksHome(Erase(s, id))
  {
    forall r' | r' in Erase(s, id)
      ensures LinkHome(Erase(s, id), r')
    {
      EraseMembers(s, id, r');
      var r :| r in s && r' == (if r.supersedes == Some(id) then r.(supersedes := None) else r);
      assert LinkHome(s, r);
      if r'.supersedes.Some? {
        var q :| q in s && q.id == r.supersedes.value && q.building == r.building;
        ErasureKeepsOthers(s, id, q);
      }
    }
  }

  /** A step keeps all links at home exactly when the row it stores, if any, has its own at home. */
  lemma StepLinksHome(w: World, cfg: Emergent, s: System, e: Event)
    requires Enabled(w, s, e) && Good(s) && LinksHome(s.db.reports)
    ensures LinksHome(DbAfter(w, cfg, s, e).reports) <==>
              (Stores(s, e) ==> LinkHome(s.db.reports, s.sessions[e.t].row))
  {
    var reports, reports' := s.db.reports, DbAfter(w, cfg, s, e).reports;
    StepReports(w, cfg, s, e);
    if Stores(s, e) {
      StoredIsPending(w, s, e);
      LinkHomeAppend(reports, s.sessions[e.t].row);
    } else if Erases(s, e) {
      LinkHomeErase(reports, e.id);
    } else {
      LinkHomeCore(reports, reports');
    }
  }

  lemma LinkHomeAppend(s: seq<Report>, r: Report)
    requires LinksHome(s) && r.id !in Ids(s) && (r.supersedes.Some? ==> r.supersedes.value in Ids(s))
    ensures LinksHome(s + [r]) <==> LinkHome(s, r)
  {
    forall x | x in s
      ensures LinkHome(s + [r], x)
    {
      assert LinkHome(s, x);
      if x.supersedes.Some? {
        var q :| q in s && q.id == x.supersedes.value && q.building == x.building;
        assert q in s + [r];
      }
    }
    if LinkHome(s, r) && r.supersedes.Some? {
      var q :| q in s && q.id == r.supersedes.value && q.building == r.building;
      assert q in s + [r];
    }
    if LinksHome(s + [r]) && r.supersedes.Some? {
      assert r in s + [r];
      var q :| q in s + [r] && q.id == r.supersedes.value && q.building == r.building;
      assert q in s;
    }
  }

  /** Step `k` stores a row whose superseded report was erased after the row's number had been read. */
  ghost predicate Misled(states: seq<System>, evs: seq<Event>, k: nat)
    requires k < |evs| && |states| == |evs| + 1 && Stores(states[k], evs[k])
  {
    var t, r := evs[k].t, states[k].sessions[evs[k].t].row;
    r.supersedes.Some? && exists i :: LastDid(evs, Read(t), t, i, k) && ErasedBetween(states, evs, r.supersedes.value, i, k)
  }

  /** A stored row's link is at home exactly when the report it names was not erased since the number was read. */
  lemma LinkHomeExactly(w: World, cfg: Emergent, states: seq<System>, evs: seq<Event>, k: nat)
    requires Run(w, cfg, states, evs) && k < |evs| && Stores(states[k], evs[k])
    ensures LinkHome(states[k].db.reports, states[k].sessions[evs[k].t].row) <==> !Misled(states, evs, k)
  {
    var t := evs[k].t;
    var r := states[k].sessions[t].row;
    AlwaysNamed(w, cfg, states, evs, k);
    assert NamedRow(states[k].sessions[t]);
    if r.supersedes.Some? {
      RunLife(w, cfg, states, evs, t);
      var i := WasNumbered(w, states, evs, t, k);
      TargetSinceRead(w, cfg, states, evs, t, i, k, r.supersedes.value, r.building.value);
      forall i' | LastDid(evs, Read(t), t, i', k)
        ensures i' == i
      {
        LastDidOnce(evs, Read(t), t, i, i', k);
      }
    }
  }

  lemma {:induction false} HomeSoFar(w: World, cfg: Emergent, states: seq<System>, evs: seq<Event>, n: nat)
    requires Run(w, cfg, states, evs) && n < |states|
    requires forall k :: 0 <= k < n && Stores(states[k], evs[k]) ==> !Misled(states, evs, k)
    ensures LinksHome(states[n].db.reports)
  {
    if n > 0 {
      HomeSoFar(w, cfg, states, evs, n - 1);
      AlwaysGood(w, cfg, states, evs, n - 1);
      if Stores(states[n - 1], evs[n - 1]) {
        LinkHomeExactly(w, cfg, states, evs, n - 1);
      }
      StepLinksHome(w, cfg, states[n - 1], evs[n - 1]);
    }
  }

  /**
   In every state of a run all supersedes links lead to reports of their own buildings, exactly when no step of the run
   stores a row whose superseded report was erased after the row's number had been read.
   */
  lemma LinksHomeExactly(w: World, cfg: Emergent, states: seq<System>, evs: seq<Event>)
    requires Run(w, cfg, states, evs)
    ensures (forall n :: 0 <= n < |states| ==> LinksHome(states[n].db.reports))
       <==> (forall k :: 0 <= k < |evs| && Stores(states[k], evs[k]) ==> !Misled(states, evs, k))
  {
    if forall n :: 0 <= n < |states| ==> LinksHome(states[n].db.reports) {
      forall k | 0 <= k < |evs| && Stores(states[k], evs[k])
        ensures !Misled(states, evs, k)
      {
        AlwaysGood(w, cfg, states, evs, k);
        assert LinksHome(states[k].db.reports) && LinksHome(states[k + 1].db.reports);
        StepLinksHome(w, cfg, states[k], evs[k]);
        LinkHomeExactly(w, cfg, states, evs, k);
      }
    }
    if forall k :: 0 <= k < |evs| && Stores(states[k], evs[k]) ==> !Misled(states, evs, k) {
      forall n | 0 <= n < |states|
        ensures LinksHome(states[n].db.reports)
      {
        HomeSoFar(w, cfg, states, evs, n);
      }
    }
  }

  // ---- runs in which an id always means the same building --------------------------

  ghost predicate AtHome(home: string -> Option<string>, r: Report) {
    && r.building == home(r.id)
    && (r.supersedes.Some? ==> r.building.Some? && home(r.supersedes.value) == r.building)
  }

  ghost predicate AllAtHome(home: string -> Option<string>, s: System) {
    && (forall r :: r in s.db.reports ==> AtHome(home, r))
    && (forall t :: t in s.sessions ==> AtHome(home, s.sessions[t].row))
  }

  predicate BeginsAtHome(home: string -> Option<string>, s: System, e: Event) {
    e.Begin? ==> Normalize(e.req, e.submitter, s.now).building == home(e.req.id)
  }

  lemma ActedAtHome(home: string -> Option<string>, w: World, cfg: Emergent, s: System, e: Event, x: Session)
    requires Actor(e).Some? && Ready(w, s, e, x) && Acted(w, cfg, s, e, x).Some?
    requires AtHome(home, x.row) && forall r :: r in s.db.reports ==> AtHome(home, r)
    ensures AtHome(home, Acted(w, cfg, s, e, x).value.row)
  {
    if e.Read? && HasBuilding(x.row) {
      OfBuildingMembers(s.db.reports, x.row.building.value);
      NewestMember(OfBuilding(s.db.reports, x.row.building.value));
    }
  }

  lemma StepAtHome(home: string -> Option<string>, w: World, cfg: Emergent, s: System, e: Event)
    requires Enabled(w, s, e) && AllAtHome(home, s) && BeginsAtHome(home, s, e)
    ensures AllAtHome(home, Apply(w, cfg, s, e))
  {
    var reports' := DbAfter(w, cfg, s, e).reports;
    StepReports(w, cfg, s, e);
    forall r | r in reports'
      ensures AtHome(home, r)
    {
      if Stores(s, e) {
        assert r in s.db.reports || r == s.sessions[e.t].row;
      } else if Erases(s, e) {
        EraseMembers(s.db.reports, e.id, r);
      } else {
        var i :| 0 <= i < |reports'| && reports'[i] == r;
        CoreFields(s.db.reports[i], r);
        assert s.db.reports[i] in s.db.reports;
      }
    }
    forall t | t in SessionsAfter(w, cfg, s, e)
      ensures AtHome(home, SessionsAfter(w, cfg, s, e)[t].row)
    {
      if Actor(e) != Some(t) {
        Bystander(w, cfg, s, e, t);
      } else {
        Performer(w, cfg, s, e, t);
        if !e.Begin? {
          ActedAtHome(home, w, cfg, s, e, s.sessions[t]);
        }
      }
    }
  }

  lemma {:induction false} AlwaysAtHome(
    home: string -> Option<string>, w: World, cfg: Emergent, states: seq<System>, evs: seq<Event>, n: nat)
    requires Run(w, cfg, states, evs) && n < |states|
    requires forall k :: 0 <= k < |evs| ==> BeginsAtHome(home, states[k], evs[k])
    ensures AllAtHome(home, states[n])
  {
    if n > 0 {
      AlwaysAtHome(home, w, cfg, states, evs, n - 1);
      StepAtHome(home, w, cfg, states[n - 1], evs[n - 1]);
    }
  }

  /**
   In every run that never submits one id for two different buildings, withdrawals included, each supersedes link
   points to a report of the same building that was stored earlier.
   */
  lemma LinksStayInBuilding(
    home: string -> Option<string>, w: World, cfg: Emergent, states: seq<System>, evs: seq<Event>, n: nat, i: nat)
    requires Run(w, cfg, states, evs) && n < |states| && i < |states[n].db.reports|
    requires forall k :: 0 <= k < |evs| ==> BeginsAtHome(home, states[k], evs[k])
    requires states[n].db.reports[i].supersedes.Some?
    ensures var s := states[n].db.reports;
      exists j :: 0 <= j < i && Supersedes(s, i, j) && s[j].building == s[i].building
  {
    var s := states[n].db.reports;
    AlwaysAtHome(home, w, cfg, states, evs, n);
    SupersedesSafe(w, cfg, states, evs, n);
    var j :| Supersedes(s, i, j);
    assert s[i] in s && s[j] in s;
    assert AtHome(home, s[i]) && AtHome(home, s[j]);
  }

  // ---- recurring numbers --------------------------------------------------------

  /** Taking one building's rows and erasing a row commute. */
  lemma {:induction false} EraseCounts(s: seq<Report>, id: string, b: string)
    ensures OfBuilding(Erase(s, id), b) == Erase(OfBuilding(s, b), id)
  {
    if s != [] {
      EraseFront(s, id);
      EraseCounts(Front(s), id, b);
      var c := OfBuilding(Front(s), b);
      var r := Unlink(s, id)[|s| - 1];
      if Last(s).building == Some(b) {
        EraseFront(c + [Last(s)], id);
        assert Front(c + [Last(s)]) == c;
      } else {
        assert OfBuilding(s, b) == c;
      }
      if Last(s).id == id {
        assert Erase(s, id) == Erase(Front(s), id);
      } else {
        OfBuildingAppend(Erase(Front(s), id), r, b);
      }
    }
  }

  /** One erasure after another. */
  function EraseAll(s: seq<Report>, ids: seq<string>): seq<Report> {
    if ids == [] then s else Erase(EraseAll(s, Front(ids)), Last(ids))
  }

  lemma {:induction false} EraseAllCounts(s: seq<Report>, ids: seq<string>, b: string)
    ensures OfBuilding(EraseAll(s, ids), b) == EraseAll(OfBuilding(s, b), ids)
  {
    if ids != [] {
      EraseAllCounts(s, Front(ids), b);
      EraseCounts(EraseAll(s, Front(ids)), Last(ids), b);
    }
  }

  /** The places, counted from one, of the rows of a history whose ids are among `ids`. */
  function ErasedPlaces(c: seq<Report>, ids: seq<string>): set<nat> {
    set n: nat | 1 <= n <= |c| && IsErased(c, ids, n)
  }

  predicate IsErased(c: seq<Report>, ids: seq<string>, n: nat) {
    1 <= n <= |c| && c[n - 1].id in ids
  }

  /** The rows of a history whose ids are not among `ids`. */
  function Kept(c: seq<Report>, ids: seq<string>): seq<Report> {
    if c == [] then [] else Kept(Front(c), ids) + if Last(c).id in ids then [] else [Last(c)]
  }

  lemma {:induction false} KeptRows(c: seq<Report>, ids: seq<string>)
    ensures forall r :: r in Kept(c, ids) <==> r in c && r.id !in ids
  {
    if c != [] {
      KeptRows(Front(c), ids);
      assert c == Front(c) + [Last(c)];
    }
  }

  lemma ErasedFront(c: seq<Report>, ids: seq<string>)
    requires c != []
    ensures ErasedPlaces(c, ids) == ErasedPlaces(Front(c), ids) + if Last(c).id in ids then {|c|} else {}
    ensures |c| !in ErasedPlaces(Front(c), ids)
  {
    var front := Front(c);
    forall n: nat
      ensures n in ErasedPlaces(c, ids) <==> n in ErasedPlaces(front, ids) || (n == |c| && Last(c).id in ids)
    {
      assert IsErased(c, ids, n) <==> IsErased(front, ids, n) || (n == |c| && Last(c).id in ids);
    }
  }

  lemma {:induction false} KeptCount(c: seq<Report>, ids: seq<string>)
    ensures |Kept(c, ids)| == |c| - |ErasedPlaces(c, ids)|
  {
    if c == [] {
      assert ErasedPlaces(c, ids) == {};
    } else {
      KeptCount(Front(c), ids);
      ErasedFront(c, ids);
    }
  }

  lemma {:induction false} KeptOneLess(c: seq<Report>, ids: seq<string>, id: string)
    ensures Kept(c, ids + [id]) == Without(Kept(c, ids), id)
  {
    if c != [] {
      KeptOneLess(Front(c), ids, id);
      var before := Kept(Front(c), ids);
      if Last(c).id in ids {
        assert Kept(c, ids) == before;
      } else {
        assert Front(before + [Last(c)]) == before;
      }
    }
  }

  ghost predicate SameNumbers(c: seq<Report>, c': seq<Report>) {
    |c| == |c'| && forall i :: 0 <= i < |c| ==> c[i].id == c'[i].id && c[i].version == c'[i].version
  }

  lemma {:induction false} SameNumbersErase(c: seq<Report>, c': seq<Report>, id: string)
    requires SameNumbers(c, c')
    ensures SameNumbers(Without(c, id), Erase(c', id))
  {
    if c != [] {
      EraseFront(c', id);
      SameNumbersErase(Front(c), Front(c'), id);
    }
  }

  lemma {:induction false} EraseAllKeeps(c: seq<Report>, ids: seq<string>)
    ensures SameNumbers(Kept(c, ids), EraseAll(c, ids))
  {
    if ids == [] {
      KeptAll(c, ids);
    } else {
      EraseAllKeeps(c, Front(ids));
      KeptOneLess(c, Front(ids), Last(ids));
      assert ids == Front(ids) + [Last(ids)];
      SameNumbersErase(Kept(c, Front(ids)), EraseAll(c, Front(ids)), Last(ids));
    }
  }

  lemma {:induction false} KeptAll(c: seq<Report>, ids: seq<string>)
    requires |ids| == 0
    ensures Kept(c, ids) == c
  {
    if c != [] {
      KeptAll(Front(c), ids);
      assert c == Front(c) + [Last(c)];
    }
  }

  /** Some row of the list has this version number. */
  predicate InUse(c: seq<Report>, n: nat) {
    exists o :: o in c && o.version == n
  }

  /**
   After any erasures from a building whose reports are numbered 1..n, the next number is n + 1 less the number of those
   erased, and it is still in use exactly when something was erased but not the report of that number.
   */
  lemma VersionRecursExactly(s: seq<Report>, b: string, ids: seq<string>, r: Report)
    requires HasBuilding(r) && r.building.value == b
    requires forall k :: 0 <= k < |OfBuilding(s, b)| ==> OfBuilding(s, b)[k].version == k + 1
    ensures var c := OfBuilding(s, b);
      var gone, s' := ErasedPlaces(c, ids), EraseAll(s, ids);
      var next := Versioned(s', r).version;
      && next == |c| - |gone| + 1
      && (InUse(OfBuilding(s', b), next) <==> gone != {} && next !in gone)
  {
    var c := OfBuilding(s, b);
    var gone, kept, left := ErasedPlaces(c, ids), Kept(c, ids), EraseAll(c, ids);
    EraseAllCounts(s, ids, b);
    EraseAllKeeps(c, ids);
    KeptCount(c, ids);
    var next := |c| - |gone| + 1;
    NumberKept(c, ids, next);
    SameNumbersUse(kept, left, next);
    SomethingErased(c, ids);
  }

  lemma SameNumbersUse(c: seq<Report>, c': seq<Report>, n: nat)
    requires SameNumbers(c, c')
    ensures InUse(c, n) <==> InUse(c', n)
  {
    if o :| o in c && o.version == n {
      var i :| 0 <= i < |c| && c[i] == o;
      assert c'[i] in c';
    }
    if o :| o in c' && o.version == n {
      var i :| 0 <= i < |c'| && c'[i] == o;
      assert c[i] in c;
    }
  }

  /** A number of the history is still in use exactly when its report was not erased. */
  lemma NumberKept(c: seq<Report>, ids: seq<string>, n: nat)
    requires forall k :: 0 <= k < |c| ==> c[k].version == k + 1
    ensures InUse(Kept(c, ids), n) <==> 1 <= n <= |c| && n !in ErasedPlaces(c, ids)
  {
    KeptRows(c, ids);
    if o :| o in Kept(c, ids) && o.version == n {
      var k :| 0 <= k < |c| && c[k] == o;
      assert c[k].version == k + 1 && !IsErased(c, ids, k + 1);
    }
    if 1 <= n <= |c| && n !in ErasedPlaces(c, ids) {
      var k := n - 1;
      assert !IsErased(c, ids, n) && c[k] in c && c[k].version == n;
      assert c[k] in Kept(c, ids);
    }
  }

  lemma SomethingErased(c: seq<Report>, ids: seq<string>)
    ensures ErasedPlaces(c, ids) != {} <==> |ErasedPlaces(c, ids)| >= 1
    ensures |ErasedPlaces(c, ids)| <= |c|
  {
    KeptCount(c, ids);
  }
}
