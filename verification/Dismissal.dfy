/** Dismissing a crisis while submits are in flight: exactly when a report can still arrive in it afterwards. */
module Dismissal {
  import opened Basics
  import opened Tables
  import opened Intake
  import opened Sessions
  import opened Rows
  import opened Safety
  import opened Chains
  import opened Histories
  import opened Limits
  import opened Lifecycle
  import opened Atomic

  predicate Reopens(e: Event, c: string) {
    e.Status? && e.crisis == c && e.status != Dismissed
  }

  /** A submit begins whose client names the crisis. */
  predicate Pins(e: Event, c: string) {
    e.Begin? && e.req.crisis == c && c != "" && c != "auto"
  }

  // ---- what a submit in flight can still do ----------------------------------------------

  /** Somebody has proof of having created the report. */
  predicate Erasable(db: Tables, r: Report) {
    r.submitter.Some? && r.submitter.value in db.devices && db.devices[r.submitter.value] != ""
  }

  ghost predicate AnyDevice(db: Tables) {
    exists u :: u in db.devices && db.devices[u] != ""
  }

  /** Whatever stands in the way of the report's id and key can be withdrawn. */
  ghost predicate Clearable(db: Tables, r: Report) {
    forall o :: o in db.reports && (o.id == r.id || o.key == r.key) ==> Erasable(db, o)
  }

  predicate PinKept(w: World, db: Tables, r: Report, c: string) {
    r.point.Some? && c in db.crises ==> !PinOutside(w, r.point.value, db.crises[c])
  }

  /** Time passes the rate limits; a near-duplicate has to go, or the guards to be skipped. */
  ghost predicate GuardsPassable(w: World, db: Tables, r: Report) {
    KnownSubmitter(r) ==> AnyDevice(db) || NoDuplicate(w, db.reports, r.submitter.value, r)
  }

  /** The submit carries crisis `c` and can still store its report there. */
  ghost predicate MayStore(w: World, db: Tables, x: Session, c: string) {
    x.row.crisis == Some(c) &&
    match x.phase
    case Guarding => Clearable(db, x.row) && PinKept(w, db, x.row, c) && GuardsPassable(w, db, x.row)
    case Assigning => Clearable(db, x.row) && PinKept(w, db, x.row, c)
    case Locking => Clearable(db, x.row)
    case Reading => Clearable(db, x.row)
    case Inserting => Clearable(db, x.row) && x.row.supersedes != Some(x.row.id)
    case Refreshing => x.inserted
    case Committing => x.inserted
    case _ => false
  }

  ghost predicate Carried(w: World, s: System, c: string) {
    exists t :: t in s.sessions && MayStore(w, s.db, s.sessions[t], c)
  }

  ghost predicate Quiet(w: World, s: System, c: string) {
    && c in s.db.crises && s.db.crises[c].status == Dismissed
    && (forall r :: r in s.db.reports ==> r.crisis != Some(c))
    && !Carried(w, s, c)
  }

  // ---- nothing arrives unless it is carried ----------------------------------------------

  /** What no step ever changes: the devices, and where a crisis is. */
  lemma Fixed(w: World, cfg: Emergent, s: System, e: Event, c: string)
    requires Enabled(w, s, e) && c in s.db.crises
    ensures DbAfter(w, cfg, s, e).devices == s.db.devices
    ensures var db' := DbAfter(w, cfg, s, e);
      c in db'.crises && db'.crises[c].center == s.db.crises[c].center && db'.crises[c].radiusKm == s.db.crises[c].radiusKm
  {}

  /** Only what somebody can withdraw ever goes away. */
  lemma Remains(w: World, cfg: Emergent, s: System, e: Event, o: Report)
    requires Enabled(w, s, e) && Good(s) && o in s.db.reports && !Erasable(s.db, o)
    ensures exists o' :: o' in DbAfter(w, cfg, s, e).reports && SameReport(o, o')
  {
    var reports, reports' := s.db.reports, DbAfter(w, cfg, s, e).reports;
    StepReports(w, cfg, s, e);
    var i :| 0 <= i < |reports| && reports[i] == o;
    if Stores(s, e) {
      assert o in reports';
    } else if Erases(s, e) {
      FindUnique(reports, o);
      ErasureKeeps(reports, e.id, o);
    } else {
      CoreFields(reports[i], reports'[i]);
      assert reports'[i] in reports';
    }
  }

  lemma {:induction false} ErasureKeeps(s: seq<Report>, id: string, r: Report)
    requires r in s && r.id != id
    ensures exists r' :: r' in Erase(s, id) && SameReport(r, r')
  {
    EraseFront(s, id);
    assert s == Front(s) + [Last(s)];
    if r in Front(s) {
      ErasureKeeps(Front(s), id, r);
      var r' :| r' in Erase(Front(s), id) && SameReport(r, r');
      assert r' in Erase(s, id);
    } else {
      var r' := Unlink(s, id)[|s| - 1];
      assert r' in Erase(s, id) && SameReport(r, r');
    }
  }

  lemma ClearableBefore(w: World, cfg: Emergent, s: System, e: Event, r: Report)
    requires Enabled(w, s, e) && Good(s) && DbAfter(w, cfg, s, e).devices == s.db.devices
    requires Clearable(DbAfter(w, cfg, s, e), r)
    ensures Clearable(s.db, r)
  {
    forall o | o in s.db.reports && (o.id == r.id || o.key == r.key)
      ensures Erasable(s.db, o)
    {
      if !Erasable(s.db, o) {
        Remains(w, cfg, s, e, o);
      }
    }
  }

  lemma GuardsPassableBefore(w: World, cfg: Emergent, s: System, e: Event, r: Report)
    requires Enabled(w, s, e) && Good(s) && DbAfter(w, cfg, s, e).devices == s.db.devices
    requires GuardsPassable(w, DbAfter(w, cfg, s, e), r)
    ensures GuardsPassable(w, s.db, r)
  {
    if KnownSubmitter(r) && !AnyDevice(s.db) && !IsFootprint(r) {
      var u := r.submitter.value;
      forall o | o in s.db.reports
        ensures !DuplicateCandidate(w, o, u, r)
      {
        Remains(w, cfg, s, e, o);
        var o' :| o' in DbAfter(w, cfg, s, e).reports && SameReport(o, o');
        assert DuplicateCandidate(w, o, u, r) ==> DuplicateCandidate(w, o', u, r);
      }
    }
  }

  /** No step of others lets a submit store in `c` that could not before. */
  lemma MayStoreBefore(w: World, cfg: Emergent, s: System, e: Event, x: Session, c: string)
    requires Enabled(w, s, e) && Good(s) && c in s.db.crises && MayStore(w, DbAfter(w, cfg, s, e), x, c)
    ensures MayStore(w, s.db, x, c)
  {
    Fixed(w, cfg, s, e, c);
    if Clearable(DbAfter(w, cfg, s, e), x.row) {
      ClearableBefore(w, cfg, s, e, x.row);
    }
    if GuardsPassable(w, DbAfter(w, cfg, s, e), x.row) {
      GuardsPassableBefore(w, cfg, s, e, x.row);
    }
  }

  lemma GuardMayStore(w: World, s: System, x: Session, c: string)
    requires x.phase == Guarding && Guarded(w, s.db, s.now, x).Some?
    requires MayStore(w, s.db, Guarded(w, s.db, s.now, x).value, c)
    ensures MayStore(w, s.db, x, c)
  {
    if KnownSubmitter(x.row) {
      if x.row.id in Ids(s.db.reports) {
        var o :| o in s.db.reports && o.id == x.row.id;
        assert Erasable(s.db, o);
      } else {
        GuardsPassExactly(w, s.db.reports, x.row.submitter.value, x.row, s.now);
      }
    }
  }

  lemma NothingInTheWay(db: Tables, r: Report)
    requires InsertOutcomeOf(db, r) == Inserted
    ensures Clearable(db, r) && r.supersedes != Some(r.id)
  {
    assert forall o :: o in db.reports ==> o.id in Ids(db.reports) && o.key in Keys(db.reports);
  }

  lemma InsertMayStore(w: World, s: System, x: Session, c: string)
    requires x.phase == Inserting && RowInserted(s.db, s.now, x).Some? && MayStore(w, s.db, RowInserted(s.db, s.now, x).value, c)
    ensures MayStore(w, s.db, x, c)
  {
    assert InsertOutcomeOf(s.db, x.row) == Inserted;
    NothingInTheWay(s.db, x.row);
  }

  /** Nor does any of its own. */
  lemma ActedMayStore(w: World, cfg: Emergent, s: System, e: Event, x: Session, c: string)
    requires Actor(e).Some? && !e.Begin? && Ready(w, s, e, x) && PhaseOk(x) && Acted(w, cfg, s, e, x).Some?
    requires c in s.db.crises && s.db.crises[c].status == Dismissed
    requires MayStore(w, s.db, Acted(w, cfg, s, e, x).value, c)
    ensures MayStore(w, s.db, x, c)
  {
    match e
    case Guard(_) => GuardMayStore(w, s, x, c);
    case Insert(_) => InsertMayStore(w, s, x, c);
    case _ =>
  }

  lemma RowsStayQuiet(w: World, cfg: Emergent, s: System, e: Event, c: string)
    requires Enabled(w, s, e) && Good(s) && Quiet(w, s, c)
    ensures forall r :: r in DbAfter(w, cfg, s, e).reports ==> r.crisis != Some(c)
  {
    var reports' := DbAfter(w, cfg, s, e).reports;
    StepReports(w, cfg, s, e);
    forall r | r in reports'
      ensures r.crisis != Some(c)
    {
      if Stores(s, e) {
        StoredIsPending(w, s, e);
        assert !MayStore(w, s.db, s.sessions[e.t], c);
        assert r == s.sessions[e.t].row || r in s.db.reports;
      } else if Erases(s, e) {
        EraseMembers(s.db.reports, e.id, r);
      } else {
        var i :| 0 <= i < |reports'| && reports'[i] == r;
        assert s.db.reports[i] in s.db.reports;
        CrisisAfter(w, cfg, s, e, i);
      }
    }
  }

  lemma StaysUncarried(w: World, cfg: Emergent, s: System, e: Event, c: string)
    requires Enabled(w, s, e) && Good(s) && Quiet(w, s, c) && !Pins(e, c)
    ensures !Carried(w, Apply(w, cfg, s, e), c)
  {
    var after := SessionsAfter(w, cfg, s, e);
    forall t | t in after
      ensures !MayStore(w, DbAfter(w, cfg, s, e), after[t], c)
    {
      if MayStore(w, DbAfter(w, cfg, s, e), after[t], c) {
        MayStoreBefore(w, cfg, s, e, after[t], c);
        if !Begins(e, t) {
          SessionBefore(w, cfg, s, e, t);
          if Actor(e) == Some(t) {
            ActedMayStore(w, cfg, s, e, s.sessions[t], c);
          }
        }
      }
    }
  }

  lemma StepQuiet(w: World, cfg: Emergent, s: System, e: Event, c: string)
    requires Enabled(w, s, e) && Good(s) && Quiet(w, s, c) && !Reopens(e, c) && !Pins(e, c)
    ensures Quiet(w, Apply(w, cfg, s, e), c)
  {
    StatusMoves(w, cfg, s, e, c);
    RowsStayQuiet(w, cfg, s, e, c);
    StaysUncarried(w, cfg, s, e, c);
  }

  lemma {:induction false} StaysQuiet(w: World, cfg: Emergent, states: seq<System>, evs: seq<Event>, i: nat, j: nat, c: string)
    requires Run(w, cfg, states, evs) && i <= j < |states| && Quiet(w, states[i], c)
    requires forall k :: i <= k < j ==> !Reopens(evs[k], c) && !Pins(evs[k], c)
    ensures Quiet(w, states[j], c)
  {
    if i < j {
      StaysQuiet(w, cfg, states, evs, i, j - 1, c);
      AlwaysGood(w, cfg, states, evs, j - 1);
      StepQuiet(w, cfg, states[j - 1], evs[j - 1], c);
    }
  }

  lemma ReleaseMembers(s: seq<Report>, c: string)
    ensures forall o' :: o' in Release(s, c) ==> o'.crisis != Some(c) && exists o :: o in s && SameReport(o, o')
  {
    forall o' | o' in Release(s, c)
      ensures o'.crisis != Some(c) && exists o :: o in s && SameReport(o, o')
    {
      var i :| 0 <= i < |s| && Release(s, c)[i] == o';
      assert s[i] in s && SameReport(s[i], o');
    }
  }

  /** Dismissing leaves the crisis empty at once, and what is in flight as able to store in it as before. */
  lemma DismissalReleases(w: World, cfg: Emergent, s: System, c: string)
    requires Good(s) && c in s.db.crises
    ensures var s' := Apply(w, cfg, s, Status(c, Dismissed));
      && s'.sessions == s.sessions && c in s'.db.crises && s'.db.crises[c].status == Dismissed
      && (forall r :: r in s'.db.reports ==> r.crisis != Some(c))
      && (forall t :: t in s.sessions ==> (MayStore(w, s'.db, s.sessions[t], c) <==> MayStore(w, s.db, s.sessions[t], c)))
  {
    var s' := Apply(w, cfg, s, Status(c, Dismissed));
    assert s'.db.reports == Release(s.db.reports, c);
    ReleaseMembers(s.db.reports, c);
    forall t | t in s.sessions
      ensures MayStore(w, s'.db, s.sessions[t], c) <==> MayStore(w, s.db, s.sessions[t], c)
    {
      if MayStore(w, s'.db, s.sessions[t], c) {
        MayStoreBefore(w, cfg, s, Status(c, Dismissed), s.sessions[t], c);
      }
      if MayStore(w, s.db, s.sessions[t], c) {
        MayStoreSameRows(w, s.db, s'.db, s.sessions[t], c);
      }
    }
  }

  lemma MayStoreSameRows(w: World, db: Tables, db': Tables, x: Session, c: string)
    requires MayStore(w, db, x, c) && db'.devices == db.devices && c in db.crises && c in db'.crises
    requires db'.crises[c].center == db.crises[c].center && db'.crises[c].radiusKm == db.crises[c].radiusKm
    requires forall o' :: o' in db'.reports ==> exists o :: o in db.reports && SameReport(o, o')
    ensures MayStore(w, db', x, c)
  {
    forall o' | o' in db'.reports && Clearable(db, x.row) && (o'.id == x.row.id || o'.key == x.row.key)
      ensures Erasable(db', o')
    {
      var o :| o in db.reports && SameReport(o, o');
      assert Erasable(db, o);
    }
    if KnownSubmitter(x.row) && !AnyDevice(db) && !IsFootprint(x.row) && GuardsPassable(w, db, x.row) {
      var u := x.row.submitter.value;
      forall o' | o' in db'.reports
        ensures !DuplicateCandidate(w, o', u, x.row)
      {
        var o :| o in db.reports && SameReport(o, o');
        assert DuplicateCandidate(w, o', u, x.row) ==> DuplicateCandidate(w, o, u, x.row);
      }
    }
  }

  /** In every run, a crisis dismissed while nothing could still store in it stays empty until it is reopened or pinned. */
  lemma DismissedStaysEmpty(w: World, cfg: Emergent, states: seq<System>, evs: seq<Event>, i: nat, j: nat, c: string)
    requires Run(w, cfg, states, evs) && i < j < |states|
    requires evs[i] == Status(c, Dismissed) && c in states[i].db.crises && !Carried(w, states[i], c)
    requires forall k :: i < k < j ==> !Reopens(evs[k], c) && !Pins(evs[k], c)
    ensures c in states[j].db.crises && states[j].db.crises[c].status == Dismissed
    ensures forall r :: r in states[j].db.reports ==> r.crisis != Some(c)
  {
    AlwaysGood(w, cfg, states, evs, i);
    DismissalReleases(w, cfg, states[i], c);
    assert states[i + 1] == Apply(w, cfg, states[i], Status(c, Dismissed));
    StaysQuiet(w, cfg, states, evs, i + 1, j, c);
  }

  lemma ReachableGood(w: World, cfg: Emergent, s: System)
    requires Reachable(w, cfg, s)
    ensures Good(s)
  {
    var states, evs :| Run(w, cfg, states, evs) && Last(states) == s;
    AlwaysGood(w, cfg, states, evs, |evs|);
  }
}
