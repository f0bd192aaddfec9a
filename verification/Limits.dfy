/** The anti-abuse guards over whole runs, for a submitter whose submits do not overlap. */
module Limits {
  import opened Basics
  import opened Tables
  import opened Intake
  import opened Sessions
  import opened Rows
  import opened Safety
  import opened Chains

  // ---- counting ------------------------------------------------------------------

  lemma {:induction false} CountsCore(s: seq<Report>, s': seq<Report>, u: string, from: Time, to: Time)
    requires SameCore(s, s')
    ensures CountRecent(s, u, from) == CountRecent(s', u, from)
    ensures CountCreated(s, u, from, to) == CountCreated(s', u, from, to)
  {
    if s != [] {
      FrontCore(s, s');
      CoreFields(Last(s), Last(s'));
      CountsCore(Front(s), Front(s'), u, from, to);
    }
  }

  lemma CountsAppend(s: seq<Report>, r: Report, u: string, from: Time, to: Time)
    ensures CountRecent(s + [r], u, from) == CountRecent(s, u, from) + if r.submitter == Some(u) && from <= r.created then 1 else 0
    ensures CountCreated(s + [r], u, from, to)
         == CountCreated(s, u, from, to) + if r.submitter == Some(u) && from <= r.created <= to then 1 else 0
  {
    assert Front(s + [r]) == s;
  }

  lemma {:induction false} CountsErase(s: seq<Report>, id: string, u: string, from: Time, to: Time)
    ensures CountRecent(Erase(s, id), u, from) <= CountRecent(s, u, from)
    ensures CountCreated(Erase(s, id), u, from, to) <= CountCreated(s, u, from, to)
  {
    if s != [] {
      EraseFront(s, id);
      CountsErase(Front(s), id, u, from, to);
      if Last(s).id == id {
        assert Erase(s, id) == Erase(Front(s), id);
      } else {
        CountsAppend(Erase(Front(s), id), Unlink(s, id)[|s| - 1], u, from, to);
      }
    }
  }

  /** A window that starts no earlier than `since` holds no more than everything since then. */
  lemma {:induction false} WindowWithin(s: seq<Report>, u: string, since: Time, from: Time, to: Time)
    requires since <= from
    ensures CountCreated(s, u, from, to) <= CountRecent(s, u, since)
  {
    if s != [] {
      WindowWithin(Front(s), u, since, from, to);
    }
  }

  /** As many as there are positions that hold one. */
  lemma CountRecentSize(s: seq<Report>, u: string, since: Time)
    ensures CountRecent(s, u, since) == |set i | 0 <= i < |s| && s[i].submitter == Some(u) && since <= s[i].created|
  {
    var p := (r: Report) => r.submitter == Some(u) && since <= r.created;
    CountRecentWhere(s, u, since, p);
    assert Where(s, p) == set i | 0 <= i < |s| && s[i].submitter == Some(u) && since <= s[i].created;
  }

  lemma {:induction false} CountRecentWhere(s: seq<Report>, u: string, since: Time, p: Report -> bool)
    requires forall r :: p(r) <==> r.submitter == Some(u) && since <= r.created
    ensures CountRecent(s, u, since) == |Where(s, p)|
  {
    if s == [] {
      assert Where(s, p) == {};
    } else {
      CountRecentWhere(Front(s), u, since, p);
      WhereFront(s, p);
    }
  }

  lemma CountCreatedSize(s: seq<Report>, u: string, from: Time, to: Time)
    ensures CountCreated(s, u, from, to) ==
      |set i | 0 <= i < |s| && s[i].submitter == Some(u) && from <= s[i].created <= to|
  {
    var p := (r: Report) => r.submitter == Some(u) && from <= r.created <= to;
    CountCreatedWhere(s, u, from, to, p);
    assert Where(s, p) == set i | 0 <= i < |s| && s[i].submitter == Some(u) && from <= s[i].created <= to;
  }

  lemma {:induction false} CountCreatedWhere(s: seq<Report>, u: string, from: Time, to: Time, p: Report -> bool)
    requires forall r :: p(r) <==> r.submitter == Some(u) && from <= r.created <= to
    ensures CountCreated(s, u, from, to) == |Where(s, p)|
  {
    if s == [] {
      assert Where(s, p) == {};
    } else {
      CountCreatedWhere(Front(s), u, from, to, p);
      WhereFront(s, p);
    }
  }

  // ---- what the guards established, kept until the commit ---------------------------

  predicate Uncommitted(x: Session) {
    x.phase != Gating && x.phase != Pulling
  }

  predicate InFlight(x: Session, u: string) {
    x.row.submitter == Some(u) && Uncommitted(x)
  }

  ghost predicate NoDuplicate(w: World, s: seq<Report>, u: string, r: Report) {
    !IsFootprint(r) ==> forall o :: o in s ==> !DuplicateCandidate(w, o, u, r)
  }

  ghost predicate GuardHolds(w: World, s: System, x: Session, u: string) {
    InFlight(x, u) && x.phase != Guarding ==>
      match x.guardedAt
      case None => true
      case Some(g) =>
        && g <= s.now
        && CountRecent(s.db.reports, u, g - BURST_WINDOW) < BURST_MAX
        && CountRecent(s.db.reports, u, g - SUSTAINED_WINDOW) < SUSTAINED_MAX
        && NoDuplicate(w, s.db.reports, u, x.row)
        && (HasPendingRow(x) ==> g <= x.row.created)
  }

  /** Every closed window of either length holds at most as many reports of `u` as the guard allows. */
  ghost predicate WithinLimits(s: seq<Report>, u: string) {
    forall a :: WindowsFrom(s, u, a)
  }

  predicate WindowsFrom(s: seq<Report>, u: string, a: Time) {
    CountCreated(s, u, a, a + BURST_WINDOW) <= BURST_MAX && CountCreated(s, u, a, a + SUSTAINED_WINDOW) <= SUSTAINED_MAX
  }

  predicate Guardable(r: Report, u: string) {
    r.submitter == Some(u) && !IsFootprint(r) && r.point.Some?
  }

  /** Pins of `u` captured within the window of each other are more than the dedup radius apart. */
  ghost predicate Apart(w: World, s: seq<Report>, u: string) {
    forall i, j :: 0 <= i < j < |s| && Guardable(s[i], u) && Guardable(s[j], u)
                   && s[j].captured - DEDUP_WINDOW <= s[i].captured <= s[j].captured + DEDUP_WINDOW ==>
      w.meters(s[i].point.value, s[j].point.value) > DEDUP_METERS
  }

  /** Submits of `u` are serialised: none begins while another is in flight. */
  ghost predicate Serial(s: System, e: Event, u: string) {
    e.Begin? && e.submitter == Some(u) ==> forall t :: t in s.sessions ==> !InFlight(s.sessions[t], u)
  }

  /** A row of `u` is stored whose guards were skipped. */
  predicate Skips(s: System, e: Event, u: string) {
    Stores(s, e) && s.sessions[e.t].row.submitter == Some(u) && s.sessions[e.t].guardedAt == None
  }

  /** What the guards would have asked at the moment the row was created, and no more. */
  ghost predicate Fits(w: World, s: seq<Report>, u: string, r: Report) {
    && CountRecent(s, u, r.created - BURST_WINDOW) < BURST_MAX
    && CountRecent(s, u, r.created - SUSTAINED_WINDOW) < SUSTAINED_MAX
    && (Guardable(r, u) ==> forall o :: o in s && Guardable(o, u)
                                        && r.captured - DEDUP_WINDOW <= o.captured <= r.captured + DEDUP_WINDOW ==>
          w.meters(o.point.value, r.point.value) > DEDUP_METERS)
  }

  ghost predicate Alone(s: System, u: string) {
    forall t, o :: t in s.sessions && o in s.sessions && InFlight(s.sessions[t], u) && InFlight(s.sessions[o], u) ==> t == o
  }

  ghost predicate Limited(w: World, s: System, u: string) {
    && Alone(s, u)
    && (forall t :: t in s.sessions ==> GuardHolds(w, s, s.sessions[t], u))
    && WithinLimits(s.db.reports, u)
    && Apart(w, s.db.reports, u)
  }

  lemma {:induction false} DuplicatesFilter(w: World, s: seq<Report>, u: string, r: Report)
    ensures forall o :: o in Duplicates(w, s, u, r) <==> o in s && DuplicateCandidate(w, o, u, r)
  {
    if s != [] {
      DuplicatesFilter(w, Front(s), u, r);
      assert s == Front(s) + [Last(s)];
    }
  }

  /** Guards passing is exactly the state the session then relies on. */
  lemma GuardsPassExactly(w: World, s: seq<Report>, u: string, r: Report, now: Time)
    ensures Guards(w, s, u, r, now) == Pass <==>
      && CountRecent(s, u, now - BURST_WINDOW) < BURST_MAX
      && CountRecent(s, u, now - SUSTAINED_WINDOW) < SUSTAINED_MAX
      && NoDuplicate(w, s, u, r)
  {
    DuplicatesFilter(w, s, u, r);
    NewestMember(Duplicates(w, s, u, r));
    if r.point == None {
      assert forall o :: o in s ==> !DuplicateCandidate(w, o, u, r);
    }
  }

  /** The guards establish what the session relies on, or are skipped for a stored id. */
  lemma GuardingEstablishes(w: World, s: System, x: Session, u: string)
    requires InFlight(x, u) && x.phase == Guarding && u != "" && !x.inserted && Guarded(w, s.db, s.now, x).Some?
    ensures GuardHolds(w, s, Guarded(w, s.db, s.now, x).value, u)
  {
    GuardsPassExactly(w, s.db.reports, u, x.row, s.now);
  }

  /** The rest of the transaction changes nothing of the row the guards looked at, and stamps it no earlier. */
  lemma GuardCarried(w: World, s: System, x: Session, y: Session, u: string)
    requires GuardHolds(w, s, x, u) && InFlight(x, u) && x.phase != Guarding && y.guardedAt == x.guardedAt
    requires y.row.id == x.row.id && y.row.submitter == x.row.submitter && y.row.building == x.row.building
    requires y.row.source == x.row.source && y.row.captured == x.row.captured && y.row.point == x.row.point
    requires HasPendingRow(y) ==> y.row.created == s.now || (HasPendingRow(x) && y.row.created == x.row.created)
    ensures GuardHolds(w, s, y, u)
  {
    assert forall o :: DuplicateCandidate(w, o, u, y.row) <==> DuplicateCandidate(w, o, u, x.row);
  }

  lemma ActedRow(w: World, cfg: Emergent, s: System, e: Event, x: Session)
    requires Actor(e).Some? && Ready(w, s, e, x) && PhaseOk(x) && Acted(w, cfg, s, e, x).Some? && !e.Guard?
    ensures var y := Acted(w, cfg, s, e, x).value;
      && x.phase != Guarding && y.guardedAt == x.guardedAt
      && y.row.id == x.row.id && y.row.submitter == x.row.submitter && y.row.building == x.row.building
      && y.row.source == x.row.source && y.row.captured == x.row.captured && y.row.point == x.row.point
      && (HasPendingRow(y) ==> y.row.created == s.now || (HasPendingRow(x) && y.row.created == x.row.created))
  {}

  lemma ActedGuard(w: World, cfg: Emergent, s: System, e: Event, x: Session, u: string)
    requires Actor(e).Some? && Ready(w, s, e, x) && PhaseOk(x) && Acted(w, cfg, s, e, x).Some? && u != ""
    requires GuardHolds(w, s, x, u)
    ensures GuardHolds(w, s, Acted(w, cfg, s, e, x).value, u)
  {
    var y := Acted(w, cfg, s, e, x).value;
    if InFlight(y, u) {
      if e.Guard? {
        GuardingEstablishes(w, s, x, u);
      } else {
        ActedRow(w, cfg, s, e, x);
        GuardCarried(w, s, x, y, u);
      }
    }
  }

  /** What a guarded session relies on survives any step that stores no row of `u`. */
  lemma GuardSurvives(w: World, cfg: Emergent, s: System, e: Event, x: Session, u: string)
    requires GuardHolds(w, s, x, u)
    requires Stores(s, e) ==> s.sessions[e.t].row.submitter != Some(u)
    ensures GuardHolds(w, Apply(w, cfg, s, e), x, u)
  {
    if InFlight(x, u) && x.phase != Guarding && x.guardedAt.Some? {
      RecentSurvives(w, cfg, s, e, u, x.guardedAt.value - BURST_WINDOW);
      RecentSurvives(w, cfg, s, e, u, x.guardedAt.value - SUSTAINED_WINDOW);
      NoDuplicateSurvives(w, cfg, s, e, u, x.row);
    }
  }

  lemma RecentSurvives(w: World, cfg: Emergent, s: System, e: Event, u: string, since: Time)
    requires Stores(s, e) ==> s.sessions[e.t].row.submitter != Some(u)
    ensures CountRecent(DbAfter(w, cfg, s, e).reports, u, since) <= CountRecent(s.db.reports, u, since)
  {
    StepReports(w, cfg, s, e);
    if Stores(s, e) {
      CountsAppend(s.db.reports, s.sessions[e.t].row, u, since, since);
    } else if Erases(s, e) {
      CountsErase(s.db.reports, e.id, u, since, since);
    } else {
      CountsCore(s.db.reports, DbAfter(w, cfg, s, e).reports, u, since, since);
    }
  }

  lemma NoDuplicateSurvives(w: World, cfg: Emergent, s: System, e: Event, u: string, r: Report)
    requires Stores(s, e) ==> s.sessions[e.t].row.submitter != Some(u)
    requires NoDuplicate(w, s.db.reports, u, r)
    ensures NoDuplicate(w, DbAfter(w, cfg, s, e).reports, u, r)
  {
    var reports, reports' := s.db.reports, DbAfter(w, cfg, s, e).reports;
    StepReports(w, cfg, s, e);
    if !IsFootprint(r) {
      forall o | o in reports'
        ensures !DuplicateCandidate(w, o, u, r)
      {
        if Stores(s, e) {
          assert o in reports || o == s.sessions[e.t].row;
        } else if Erases(s, e) {
          EraseMembers(reports, e.id, o);
        } else {
          var i :| 0 <= i < |reports'| && reports'[i] == o;
          CoreFields(reports[i], o);
          assert reports[i] in reports;
        }
      }
    }
  }

  lemma StepAlone(w: World, cfg: Emergent, s: System, e: Event, u: string)
    requires Enabled(w, s, e) && Alone(s, u) && Serial(s, e, u)
    ensures Alone(Apply(w, cfg, s, e), u)
  {
    var after := SessionsAfter(w, cfg, s, e);
    forall t | t in after && InFlight(after[t], u)
      ensures (e.Begin? && Actor(e) == Some(t) && e.submitter == Some(u)) || (t in s.sessions && InFlight(s.sessions[t], u))
    {
      InFlightOrigin(w, cfg, s, e, u, t);
    }
  }

  lemma InFlightOrigin(w: World, cfg: Emergent, s: System, e: Event, u: string, t: nat)
    requires Enabled(w, s, e) && t in SessionsAfter(w, cfg, s, e) && InFlight(SessionsAfter(w, cfg, s, e)[t], u)
    ensures (e.Begin? && Actor(e) == Some(t) && e.submitter == Some(u)) || (t in s.sessions && InFlight(s.sessions[t], u))
  {
    if Actor(e) != Some(t) {
      Bystander(w, cfg, s, e, t);
    } else {
      Performer(w, cfg, s, e, t);
    }
  }

  lemma StepGuards(w: World, cfg: Emergent, s: System, e: Event, u: string, t: nat)
    requires Enabled(w, s, e) && Good(s) && Limited(w, s, u) && u != ""
    requires t in SessionsAfter(w, cfg, s, e)
    ensures GuardHolds(w, Apply(w, cfg, s, e), SessionsAfter(w, cfg, s, e)[t], u)
  {
    var y := SessionsAfter(w, cfg, s, e)[t];
    if InFlight(y, u) && y.phase != Guarding {
      InFlightOrigin(w, cfg, s, e, u, t);
      OthersStore(w, cfg, s, e, u, t);
      if Actor(e) == Some(t) {
        Performer(w, cfg, s, e, t);
        ActedGuard(w, cfg, s, e, s.sessions[t], u);
        GuardSurvives(w, cfg, s, e, y, u);
      } else {
        Bystander(w, cfg, s, e, t);
        GuardSurvives(w, cfg, s, e, y, u);
      }
    }
  }

  /** While one submit of `u` is in flight, and stays so, nobody stores a row of `u`. */
  lemma OthersStore(w: World, cfg: Emergent, s: System, e: Event, u: string, t: nat)
    requires Enabled(w, s, e) && Good(s) && Alone(s, u)
    requires t in SessionsAfter(w, cfg, s, e) && InFlight(SessionsAfter(w, cfg, s, e)[t], u)
    requires t in s.sessions && InFlight(s.sessions[t], u)
    ensures Stores(s, e) ==> s.sessions[e.t].row.submitter != Some(u)
  {
    if Stores(s, e) {
      if e.t == t {
        Performer(w, cfg, s, e, t);
      } else {
        assert Uncommitted(s.sessions[e.t]);
      }
    }
  }

  lemma {:induction false} RecentLater(s: seq<Report>, u: string, since: Time, later: Time)
    requires since <= later
    ensures CountRecent(s, u, later) <= CountRecent(s, u, since)
  {
    if s != [] {
      RecentLater(Front(s), u, since, later);
    }
  }

  /** What passed the guards at time `g` fits when it is created at `g` or later. */
  lemma PassedFits(w: World, s: seq<Report>, u: string, r: Report, g: Time)
    requires g <= r.created && NoDuplicate(w, s, u, r) && r.id !in Ids(s)
    requires CountRecent(s, u, g - BURST_WINDOW) < BURST_MAX && CountRecent(s, u, g - SUSTAINED_WINDOW) < SUSTAINED_MAX
    ensures Fits(w, s, u, r)
  {
    RecentLater(s, u, g - BURST_WINDOW, r.created - BURST_WINDOW);
    RecentLater(s, u, g - SUSTAINED_WINDOW, r.created - SUSTAINED_WINDOW);
    forall o | o in s && Guardable(r, u) && Guardable(o, u)
               && r.captured - DEDUP_WINDOW <= o.captured <= r.captured + DEDUP_WINDOW
      ensures w.meters(o.point.value, r.point.value) > DEDUP_METERS
    {
      assert !DuplicateCandidate(w, o, u, r);
    }
  }

  lemma PendingFits(w: World, s: System, x: Session, u: string)
    requires GuardHolds(w, s, x, u) && HasPendingRow(x) && x.row.submitter == Some(u) && x.guardedAt.Some?
    requires x.row.id !in Ids(s.db.reports)
    ensures Fits(w, s.db.reports, u, x.row)
  {
    PassedFits(w, s.db.reports, u, x.row, x.guardedAt.value);
  }

  /** A row whose guards ran fits when it is stored: all they saw still holds. */
  lemma GuardedFits(w: World, s: System, e: Event, u: string)
    requires Enabled(w, s, e) && Good(s) && Limited(w, s, u) && Stores(s, e) && u != ""
    requires s.sessions[e.t].row.submitter == Some(u) && s.sessions[e.t].guardedAt.Some?
    ensures Fits(w, s.db.reports, u, s.sessions[e.t].row)
  {
    StoredIsPending(w, s, e);
    PendingFits(w, s, s.sessions[e.t], u);
  }

  /** Storing a row that fits is safe in every window. */
  lemma WindowsAfterStore(w: World, s: seq<Report>, r: Report, u: string, a: Time)
    requires WindowsFrom(s, u, a) && Fits(w, s, u, r)
    ensures WindowsFrom(s + [r], u, a)
  {
    var b, c := a + BURST_WINDOW, a + SUSTAINED_WINDOW;
    CountsAppend(s, r, u, a, b);
    CountsAppend(s, r, u, a, c);
    if a <= r.created <= b {
      WindowWithin(s, u, r.created - BURST_WINDOW, a, b);
    }
    if a <= r.created <= c {
      WindowWithin(s, u, r.created - SUSTAINED_WINDOW, a, c);
    }
  }

  lemma CreatedSurvives(w: World, cfg: Emergent, s: System, e: Event, u: string, from: Time, to: Time)
    requires Stores(s, e) ==> s.sessions[e.t].row.submitter != Some(u)
    ensures CountCreated(DbAfter(w, cfg, s, e).reports, u, from, to) <= CountCreated(s.db.reports, u, from, to)
  {
    StepReports(w, cfg, s, e);
    if Stores(s, e) {
      CountsAppend(s.db.reports, s.sessions[e.t].row, u, from, to);
    } else if Erases(s, e) {
      CountsErase(s.db.reports, e.id, u, from, to);
    } else {
      CountsCore(s.db.reports, DbAfter(w, cfg, s, e).reports, u, from, to);
    }
  }

  lemma StepWindow(w: World, cfg: Emergent, s: System, e: Event, u: string, a: Time)
    requires Enabled(w, s, e) && Good(s) && Limited(w, s, u) && u != ""
    requires Skips(s, e, u) ==> Fits(w, s.db.reports, u, s.sessions[e.t].row)
    ensures WindowsFrom(DbAfter(w, cfg, s, e).reports, u, a)
  {
    assert WindowsFrom(s.db.reports, u, a);
    if Stores(s, e) && s.sessions[e.t].row.submitter == Some(u) {
      StepReports(w, cfg, s, e);
      if !Skips(s, e, u) {
        GuardedFits(w, s, e, u);
      }
      WindowsAfterStore(w, s.db.reports, s.sessions[e.t].row, u, a);
    } else {
      CreatedSurvives(w, cfg, s, e, u, a, a + BURST_WINDOW);
      CreatedSurvives(w, cfg, s, e, u, a, a + SUSTAINED_WINDOW);
    }
  }

  lemma ApartCore(w: World, s: seq<Report>, s': seq<Report>, u: string)
    requires SameCore(s, s') && Apart(w, s, u)
    ensures Apart(w, s', u)
  {
    forall i, j | 0 <= i < j < |s'| && Guardable(s'[i], u) && Guardable(s'[j], u)
                  && s'[j].captured - DEDUP_WINDOW <= s'[i].captured <= s'[j].captured + DEDUP_WINDOW
      ensures w.meters(s'[i].point.value, s'[j].point.value) > DEDUP_METERS
    {
      CoreFields(s[i], s'[i]);
      CoreFields(s[j], s'[j]);
    }
  }

  lemma ApartAppend(w: World, s: seq<Report>, r: Report, u: string)
    requires Apart(w, s, u) && (r.submitter == Some(u) ==> Fits(w, s, u, r))
    ensures Apart(w, s + [r], u)
  {
    var s' := s + [r];
    forall i, j | 0 <= i < j < |s'| && Guardable(s'[i], u) && Guardable(s'[j], u)
                  && s'[j].captured - DEDUP_WINDOW <= s'[i].captured <= s'[j].captured + DEDUP_WINDOW
      ensures w.meters(s'[i].point.value, s'[j].point.value) > DEDUP_METERS
    {
      if j == |s| {
        assert s[i] in s;
      }
    }
  }

  lemma {:induction false} ApartErase(w: World, s: seq<Report>, id: string, u: string)
    requires Apart(w, s, u)
    ensures Apart(w, Erase(s, id), u)
  {
    if s != [] {
      EraseFront(s, id);
      assert Apart(w, Front(s), u) by {
        assert forall k :: 0 <= k < |Front(s)| ==> Front(s)[k] == s[k];
      }
      ApartErase(w, Front(s), id, u);
      if Last(s).id == id {
        assert Erase(s, id) == Erase(Front(s), id);
      } else {
        ApartLast(w, s, id, u);
      }
    }
  }

  lemma ApartLast(w: World, s: seq<Report>, id: string, u: string)
    requires s != [] && Apart(w, s, u) && Apart(w, Erase(Front(s), id), u)
    ensures Apart(w, Erase(Front(s), id) + [Unlink(s, id)[|s| - 1]], u)
  {
    var e, r := Erase(Front(s), id), Unlink(s, id)[|s| - 1];
    forall i | 0 <= i < |e| && Guardable(e[i], u) && Guardable(r, u)
               && r.captured - DEDUP_WINDOW <= e[i].captured <= r.captured + DEDUP_WINDOW
      ensures w.meters(e[i].point.value, r.point.value) > DEDUP_METERS
    {
      EraseMembers(Front(s), id, e[i]);
      var r0 :| r0 in Front(s) && e[i] == (if r0.supersedes == Some(id) then r0.(supersedes := None) else r0);
      var k :| 0 <= k < |Front(s)| && s[k] == r0;
      assert Guardable(s[k], u) && Guardable(s[|s| - 1], u);
    }
  }

  lemma StepApart(w: World, cfg: Emergent, s: System, e: Event, u: string)
    requires Enabled(w, s, e) && Good(s) && Limited(w, s, u) && u != ""
    requires Skips(s, e, u) ==> Fits(w, s.db.reports, u, s.sessions[e.t].row)
    ensures Apart(w, DbAfter(w, cfg, s, e).reports, u)
  {
    StepReports(w, cfg, s, e);
    if Stores(s, e) {
      if s.sessions[e.t].row.submitter == Some(u) && !Skips(s, e, u) {
        GuardedFits(w, s, e, u);
      }
      ApartAppend(w, s.db.reports, s.sessions[e.t].row, u);
    } else if Erases(s, e) {
      ApartErase(w, s.db.reports, e.id, u);
    } else {
      ApartCore(w, s.db.reports, DbAfter(w, cfg, s, e).reports, u);
    }
  }

  lemma StepLimited(w: World, cfg: Emergent, s: System, e: Event, u: string)
    requires Enabled(w, s, e) && Good(s) && Limited(w, s, u) && Serial(s, e, u) && u != ""
    requires Skips(s, e, u) ==> Fits(w, s.db.reports, u, s.sessions[e.t].row)
    ensures Limited(w, Apply(w, cfg, s, e), u)
  {
    StepAlone(w, cfg, s, e, u);
    forall t | t in SessionsAfter(w, cfg, s, e)
      ensures GuardHolds(w, Apply(w, cfg, s, e), SessionsAfter(w, cfg, s, e)[t], u)
    {
      StepGuards(w, cfg, s, e, u, t);
    }
    forall a
      ensures WindowsFrom(DbAfter(w, cfg, s, e).reports, u, a)
    {
      StepWindow(w, cfg, s, e, u, a);
    }
    StepApart(w, cfg, s, e, u);
  }

  lemma {:induction false} AlwaysLimited(w: World, cfg: Emergent, states: seq<System>, evs: seq<Event>, u: string, i: nat)
    requires Run(w, cfg, states, evs) && i < |states| && u != ""
    requires forall k :: 0 <= k < |evs| ==> Serial(states[k], evs[k], u)
    requires forall k :: 0 <= k < i && Skips(states[k], evs[k], u) ==>
      Fits(w, states[k].db.reports, u, states[k].sessions[evs[k].t].row)
    ensures Limited(w, states[i], u)
  {
    if i > 0 {
      AlwaysLimited(w, cfg, states, evs, u, i - 1);
      AlwaysGood(w, cfg, states, evs, i - 1);
      StepLimited(w, cfg, states[i - 1], evs[i - 1], u);
    }
  }
}
