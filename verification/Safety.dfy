/** The invariant every reachable state of the interleaved service satisfies, and what it means for the tables. */
module Safety {
  import opened Basics
  import opened Tables
  import opened Intake
  import opened Sessions
  import opened Rows

  /** Every step stores one row at the end, erases one row, or leaves every row's core alone. */
  lemma StepReports(w: World, cfg: Emergent, s: System, e: Event)
    ensures var db' := DbAfter(w, cfg, s, e);
      if Stores(s, e) then db'.reports == s.db.reports + [s.sessions[e.t].row]
      else if Erases(s, e) then db'.reports == Erase(s.db.reports, e.id)
      else SameCore(s.db.reports, db'.reports)
    ensures s.db.crises.Keys <= DbAfter(w, cfg, s, e).crises.Keys
    ensures s.db.buildings.Keys <= DbAfter(w, cfg, s, e).buildings.Keys
  {
    if e.Commit? && !Stores(s, e) && e.t in s.sessions {
      assert DbAfter(w, cfg, s, e).reports == s.db.reports;
    }
  }

  lemma Bystander(w: World, cfg: Emergent, s: System, e: Event, u: nat)
    requires Actor(e) != Some(u)
    ensures u in SessionsAfter(w, cfg, s, e) <==> u in s.sessions
    ensures u in s.sessions ==> SessionsAfter(w, cfg, s, e)[u] == s.sessions[u]
  {}

  lemma Performer(w: World, cfg: Emergent, s: System, e: Event, t: nat)
    requires Actor(e) == Some(t) && t in SessionsAfter(w, cfg, s, e) && Enabled(w, s, e)
    ensures var y := SessionsAfter(w, cfg, s, e)[t];
      if e.Begin? then y == Session(Guarding, Normalize(e.req, e.submitter, s.now), None, false, None)
      else t in s.sessions && Ready(w, s, e, s.sessions[t]) && Acted(w, cfg, s, e, s.sessions[t]) == Some(y)
  {}

  predicate PhaseOk(x: Session) {
    && (x.phase == Reading || x.phase == Refreshing ==> HasBuilding(x.row))
    && (x.phase == Refreshing ==> x.inserted)
    && (x.inserted ==> x.phase == Refreshing || x.phase == Committing || x.phase == Gating || x.phase == Pulling)
    && (x.phase == Gating || x.phase == Pulling ==> x.row.point.Some? && x.row.crisis == None && x.inserted)
  }

  ghost predicate Phased(s: System) {
    forall t :: t in s.sessions ==> PhaseOk(s.sessions[t])
  }

  /** At most one session is inside a transaction on any building. */
  ghost predicate Exclusive(s: System) {
    forall t, u, b :: t in s.sessions && u in s.sessions && HoldsLock(s.sessions[t], b) && HoldsLock(s.sessions[u], b) ==> t == u
  }

  /** An uncommitted row can be committed without breaking a key. */
  ghost predicate Committable(db: Tables, r: Report) {
    && r.id !in Ids(db.reports) && r.key !in Keys(db.reports)
    && (r.supersedes.Some? ==> r.supersedes.value in Ids(db.reports))
    && (r.crisis.Some? ==> r.crisis.value in db.crises)
    && (r.building.Some? && !HasBuilding(r) ==> r.building.value in db.buildings)
  }

  ghost predicate Pendings(s: System) {
    && (forall t :: t in s.sessions && HasPendingRow(s.sessions[t]) ==> Committable(s.db, s.sessions[t].row))
    && (forall t, u :: t in s.sessions && u in s.sessions && t != u
                       && HasPendingRow(s.sessions[t]) && HasPendingRow(s.sessions[u]) ==>
          s.sessions[t].row.id != s.sessions[u].row.id && s.sessions[t].row.key != s.sessions[u].row.key)
  }

  /** The foreign keys of `reports` to crises and buildings. */
  ghost predicate ForeignKeys(db: Tables) {
    forall r :: r in db.reports ==>
      (r.crisis.Some? ==> r.crisis.value in db.crises) && (r.building.Some? ==> r.building.value in db.buildings)
  }

  ghost predicate Good(s: System) {
    && Unique(s.db.reports) && Linked(s.db.reports) && ForeignKeys(s.db)
    && Phased(s) && Exclusive(s) && Pendings(s)
  }

  lemma ActedPhase(w: World, cfg: Emergent, s: System, e: Event, x: Session)
    requires Actor(e).Some? && Ready(w, s, e, x) && PhaseOk(x) && Acted(w, cfg, s, e, x).Some?
    ensures PhaseOk(Acted(w, cfg, s, e, x).value)
  {}

  lemma StepPhased(w: World, cfg: Emergent, s: System, e: Event)
    requires Enabled(w, s, e) && Phased(s)
    ensures Phased(Apply(w, cfg, s, e))
  {
    forall t | t in SessionsAfter(w, cfg, s, e)
      ensures PhaseOk(SessionsAfter(w, cfg, s, e)[t])
    {
      if Actor(e) != Some(t) {
        Bystander(w, cfg, s, e, t);
      } else {
        Performer(w, cfg, s, e, t);
        if !e.Begin? {
          ActedPhase(w, cfg, s, e, s.sessions[t]);
        }
      }
    }
  }

  /** A session's lock after its own step was either just acquired, and free before, or already held. */
  lemma LockOrigin(w: World, cfg: Emergent, s: System, e: Event, t: nat, b: string)
    requires Actor(e) == Some(t) && Enabled(w, s, e)
    requires t in SessionsAfter(w, cfg, s, e) && HoldsLock(SessionsAfter(w, cfg, s, e)[t], b)
    ensures LockFree(s, b) || (t in s.sessions && HoldsLock(s.sessions[t], b))
  {
    Performer(w, cfg, s, e, t);
  }

  lemma StepExclusive(w: World, cfg: Emergent, s: System, e: Event)
    requires Enabled(w, s, e) && Exclusive(s)
    ensures Exclusive(Apply(w, cfg, s, e))
  {
    var after := SessionsAfter(w, cfg, s, e);
    forall t, u, b | t in after && u in after && HoldsLock(after[t], b) && HoldsLock(after[u], b)
      ensures t == u
    {
      if t != u {
        if Actor(e) == Some(t) {
          LockOrigin(w, cfg, s, e, t, b);
          Bystander(w, cfg, s, e, u);
        } else if Actor(e) == Some(u) {
          LockOrigin(w, cfg, s, e, u, b);
          Bystander(w, cfg, s, e, t);
        } else {
          Bystander(w, cfg, s, e, t);
          Bystander(w, cfg, s, e, u);
        }
      }
    }
  }

  lemma StoredIsPending(w: World, s: System, e: Event)
    requires Enabled(w, s, e) && Good(s) && Stores(s, e)
    ensures HasPendingRow(s.sessions[e.t]) && Committable(s.db, s.sessions[e.t].row)
  {}

  lemma StepUnique(w: World, cfg: Emergent, s: System, e: Event)
    requires Enabled(w, s, e) && Good(s)
    ensures Unique(DbAfter(w, cfg, s, e).reports) && Linked(DbAfter(w, cfg, s, e).reports)
  {
    var reports := DbAfter(w, cfg, s, e).reports;
    StepReports(w, cfg, s, e);
    if Stores(s, e) {
      StoredIsPending(w, s, e);
      UniqueAppend(s.db.reports, s.sessions[e.t].row);
      LinkedAppend(s.db.reports, s.sessions[e.t].row);
    } else if Erases(s, e) {
      UniqueErase(s.db.reports, e.id);
      LinkedErase(s.db.reports, e.id);
    } else {
      UniqueCore(s.db.reports, reports);
      LinkedCore(s.db.reports, reports);
    }
  }

  lemma {:induction false} EraseMembers(s: seq<Report>, id: string, r: Report)
    requires r in Erase(s, id)
    ensures r.id != id
    ensures exists r0 :: r0 in s && r == (if r0.supersedes == Some(id) then r0.(supersedes := None) else r0)
  {
    EraseFront(s, id);
    assert s == Front(s) + [Last(s)];
    if r in Erase(Front(s), id) {
      EraseMembers(Front(s), id, r);
    } else {
      assert Last(s) in s;
    }
  }

  /** A row's crisis after a step: what it was, the new crisis that pulled it in, or none. */
  lemma CrisisAfter(w: World, cfg: Emergent, s: System, e: Event, i: nat)
    requires !Stores(s, e) && !Erases(s, e) && i < |s.db.reports|
    requires |DbAfter(w, cfg, s, e).reports| == |s.db.reports|
    ensures var r, r' := s.db.reports[i], DbAfter(w, cfg, s, e).reports[i];
      || r'.crisis == r.crisis
      || (r.crisis == None && e.Pull? && r'.crisis == Some(e.crisis) && e.crisis in DbAfter(w, cfg, s, e).crises)
      || (r.crisis.Some? && r'.crisis == None && e == Status(r.crisis.value, Dismissed))
  {
    if e.Commit? && e.t in s.sessions {
      assert DbAfter(w, cfg, s, e).reports == s.db.reports;
    }
  }

  lemma StepForeignKeys(w: World, cfg: Emergent, s: System, e: Event)
    requires Enabled(w, s, e) && Good(s)
    ensures ForeignKeys(DbAfter(w, cfg, s, e))
  {
    var db' := DbAfter(w, cfg, s, e);
    StepReports(w, cfg, s, e);
    forall r | r in db'.reports
      ensures (r.crisis.Some? ==> r.crisis.value in db'.crises) && (r.building.Some? ==> r.building.value in db'.buildings)
    {
      if Stores(s, e) {
        StoredIsPending(w, s, e);
        assert r in s.db.reports || r == s.sessions[e.t].row;
      } else if Erases(s, e) {
        EraseMembers(s.db.reports, e.id, r);
      } else {
        var i :| 0 <= i < |db'.reports| && db'.reports[i] == r;
        assert s.db.reports[i] in s.db.reports && Core(s.db.reports[i]).building == Core(r).building;
        CrisisAfter(w, cfg, s, e, i);
      }
    }
  }

  lemma KeysAfter(w: World, cfg: Emergent, s: System, e: Event)
    requires Enabled(w, s, e) && Good(s)
    ensures var db' := DbAfter(w, cfg, s, e);
      Ids(db'.reports) == (if Stores(s, e) then Ids(s.db.reports) + {s.sessions[e.t].row.id}
                           else if Erases(s, e) then Ids(s.db.reports) - {e.id} else Ids(s.db.reports))
    ensures var db' := DbAfter(w, cfg, s, e);
      Keys(db'.reports) <= Keys(s.db.reports) + if Stores(s, e) then {s.sessions[e.t].row.key} else {}
  {
    StepReports(w, cfg, s, e);
    if Stores(s, e) {
      IdsAppend(s.db.reports, s.sessions[e.t].row);
    } else if Erases(s, e) {
      IdsErase(s.db.reports, e.id);
    } else {
      IdsCore(s.db.reports, DbAfter(w, cfg, s, e).reports);
    }
  }

  /** A pending row of the acting session was pending before, or its insert has just passed every key. */
  lemma PendingOrigin(w: World, cfg: Emergent, s: System, e: Event, t: nat)
    requires Actor(e) == Some(t) && Enabled(w, s, e) && Good(s)
    requires t in SessionsAfter(w, cfg, s, e) && HasPendingRow(SessionsAfter(w, cfg, s, e)[t])
    ensures t in s.sessions && (e.Insert? || e.Refresh?)
    ensures Committable(s.db, SessionsAfter(w, cfg, s, e)[t].row)
    ensures forall u :: u in s.sessions && u != t && HasPendingRow(s.sessions[u]) ==>
      s.sessions[u].row.id != s.sessions[t].row.id && s.sessions[u].row.key != s.sessions[t].row.key
    ensures SessionsAfter(w, cfg, s, e)[t].row.id == s.sessions[t].row.id
    ensures SessionsAfter(w, cfg, s, e)[t].row.key == s.sessions[t].row.key
  {
    Performer(w, cfg, s, e, t);
    assert PhaseOk(s.sessions[t]);
  }

  /** An uncommitted row stays committable through whatever the others may do meanwhile. */
  lemma CommittableStays(w: World, cfg: Emergent, s: System, e: Event, r: Report)
    requires Enabled(w, s, e) && Good(s) && Committable(s.db, r)
    requires Stores(s, e) ==> s.sessions[e.t].row.id != r.id && s.sessions[e.t].row.key != r.key
    requires Erases(s, e) ==> r.supersedes != Some(e.id)
    ensures Committable(DbAfter(w, cfg, s, e), r)
  {
    StepReports(w, cfg, s, e);
    KeysAfter(w, cfg, s, e);
  }

  lemma StepCommittable(w: World, cfg: Emergent, s: System, e: Event, t: nat)
    requires Enabled(w, s, e) && Good(s)
    requires t in SessionsAfter(w, cfg, s, e) && HasPendingRow(SessionsAfter(w, cfg, s, e)[t])
    ensures Committable(DbAfter(w, cfg, s, e), SessionsAfter(w, cfg, s, e)[t].row)
  {
    if Actor(e) == Some(t) {
      PendingOrigin(w, cfg, s, e, t);
    } else {
      Bystander(w, cfg, s, e, t);
      assert HasPendingRow(s.sessions[t]);
      if Stores(s, e) {
        StoredIsPending(w, s, e);
      }
    }
    CommittableStays(w, cfg, s, e, SessionsAfter(w, cfg, s, e)[t].row);
  }

  lemma StepPendings(w: World, cfg: Emergent, s: System, e: Event)
    requires Enabled(w, s, e) && Good(s)
    ensures Pendings(Apply(w, cfg, s, e))
  {
    var after := SessionsAfter(w, cfg, s, e);
    forall t | t in after && HasPendingRow(after[t])
      ensures Committable(DbAfter(w, cfg, s, e), after[t].row)
    {
      StepCommittable(w, cfg, s, e, t);
    }
    forall t, u | t in after && u in after && t != u && HasPendingRow(after[t]) && HasPendingRow(after[u])
      ensures after[t].row.id != after[u].row.id && after[t].row.key != after[u].row.key
    {
      if Actor(e) == Some(t) {
        PendingOrigin(w, cfg, s, e, t);
        Bystander(w, cfg, s, e, u);
      } else if Actor(e) == Some(u) {
        PendingOrigin(w, cfg, s, e, u);
        Bystander(w, cfg, s, e, t);
      } else {
        Bystander(w, cfg, s, e, t);
        Bystander(w, cfg, s, e, u);
      }
    }
  }

  lemma StepGood(w: World, cfg: Emergent, s: System, e: Event)
    requires Enabled(w, s, e) && Good(s)
    ensures Good(Apply(w, cfg, s, e))
  {
    StepPhased(w, cfg, s, e);
    StepExclusive(w, cfg, s, e);
    StepUnique(w, cfg, s, e);
    StepForeignKeys(w, cfg, s, e);
    StepPendings(w, cfg, s, e);
  }

  lemma {:induction false} AlwaysGood(w: World, cfg: Emergent, states: seq<System>, evs: seq<Event>, i: nat)
    requires Run(w, cfg, states, evs) && i < |states|
    ensures Good(states[i])
  {
    if i > 0 {
      AlwaysGood(w, cfg, states, evs, i - 1);
      StepGood(w, cfg, states[i - 1], evs[i - 1]);
    }
  }
}
