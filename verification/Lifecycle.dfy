/** Crisis membership over every interleaving: how a report's crisis moves, what the counts add up to, what detection attaches. */
module Lifecycle {
  import opened Basics
  import opened Tables
  import opened Intake
  import opened Sessions
  import opened Rows
  import opened Safety
  import opened Chains

  // ---- finding the same row again ------------------------------------------------

  lemma {:induction false} FindCore(s: seq<Report>, s': seq<Report>, id: string)
    requires SameCore(s, s') && Find(s, id).Some?
    ensures exists i :: 0 <= i < |s| && Find(s, id) == Some(s[i]) && Find(s', id) == Some(s'[i])
  {
    FrontCore(s, s');
    CoreFields(Last(s), Last(s'));
    if Last(s).id == id {
      assert Find(s, id) == Some(s[|s| - 1]) && Find(s', id) == Some(s'[|s| - 1]);
    } else {
      FindCore(Front(s), Front(s'), id);
      var i :| 0 <= i < |Front(s)| && Find(Front(s), id) == Some(Front(s)[i]) && Find(Front(s'), id) == Some(Front(s')[i]);
      assert Find(s, id) == Some(s[i]) && Find(s', id) == Some(s'[i]);
    }
  }

  lemma FindAppend(s: seq<Report>, r: Report, id: string)
    ensures Find(s + [r], id) == if r.id == id then Some(r) else Find(s, id)
  {
    assert Front(s + [r]) == s;
  }

  lemma {:induction false} FindErase(s: seq<Report>, id: string, gone: string)
    requires id != gone && Find(s, id).Some?
    ensures Find(Erase(s, gone), id).Some?
    ensures Find(Erase(s, gone), id).value == Find(s, id).value.(supersedes := Find(Erase(s, gone), id).value.supersedes)
  {
    EraseFront(s, gone);
    if Last(s).id == gone {
      assert Erase(s, gone) == Erase(Front(s), gone);
      FindErase(Front(s), id, gone);
    } else {
      FindAppend(Erase(Front(s), gone), Unlink(s, gone)[|s| - 1], id);
      if Last(s).id != id {
        FindErase(Front(s), id, gone);
      }
    }
  }

  // ---- how a report's crisis moves -------------------------------------------------

  function CrisisOf(db: Tables, id: string): Option<string> {
    if Find(db.reports, id).Some? then Find(db.reports, id).value.crisis else None
  }

  /**
   In any step, a report that stays stored keeps its crisis, or is pulled from pending into a crisis just created,
   or is released to pending by the dismissal of its crisis.  It never moves from one crisis to another.
   */
  lemma StepMovesCrisis(w: World, cfg: Emergent, s: System, e: Event, id: string)
    requires Enabled(w, s, e) && Good(s)
    requires id in Ids(s.db.reports) && id in Ids(DbAfter(w, cfg, s, e).reports)
    ensures var before, after := CrisisOf(s.db, id), CrisisOf(DbAfter(w, cfg, s, e), id);
      || after == before
      || (before == None && e.Pull? && after == Some(e.crisis) && e.crisis !in s.db.crises)
      || (before.Some? && after == None && e == Status(before.value, Dismissed))
  {
    var reports, reports' := s.db.reports, DbAfter(w, cfg, s, e).reports;
    FindStored(reports, id);
    FindStored(reports', id);
    StepReports(w, cfg, s, e);
    if Stores(s, e) {
      StoredIsPending(w, s, e);
      FindAppend(reports, s.sessions[e.t].row, id);
    } else if Erases(s, e) {
      IdsErase(reports, e.id);
      FindErase(reports, id, e.id);
    } else {
      FindCore(reports, reports', id);
      var i :| 0 <= i < |reports| && Find(reports, id) == Some(reports[i]) && Find(reports', id) == Some(reports'[i]);
      CrisisAfter(w, cfg, s, e, i);
    }
  }

  /** Along every run, a stored report leaves crisis `c` only by the dismissal of `c`, and to pending. */
  lemma {:induction false} LeavesOnlyByDismissal(
    w: World, cfg: Emergent, states: seq<System>, evs: seq<Event>, i: nat, j: nat, id: string, c: string)
    requires Run(w, cfg, states, evs) && i <= j < |states|
    requires forall k :: i <= k <= j ==> id in Ids(states[k].db.reports)
    requires CrisisOf(states[i].db, id) == Some(c) && CrisisOf(states[j].db, id) != Some(c)
    ensures exists k :: i <= k < j && evs[k] == Status(c, Dismissed)
                        && CrisisOf(states[k].db, id) == Some(c) && CrisisOf(states[k + 1].db, id) == None
    decreases j - i
  {
    AlwaysGood(w, cfg, states, evs, i);
    assert id in Ids(states[i + 1].db.reports);
    StepMovesCrisis(w, cfg, states[i], evs[i], id);
    if CrisisOf(states[i + 1].db, id) == Some(c) {
      LeavesOnlyByDismissal(w, cfg, states, evs, i + 1, j, id, c);
    }
  }

  // ---- conservation ------------------------------------------------------------------

  function CountPending(s: seq<Report>): nat {
    if s == [] then 0 else CountPending(Front(s)) + if Last(s).crisis == None then 1 else 0
  }

  function CountIn(s: seq<Report>, c: string): nat {
    if s == [] then 0 else CountIn(Front(s), c) + if Last(s).crisis == Some(c) then 1 else 0
  }

  ghost function AnyOf(cs: set<string>): string
    requires cs != {}
  {
    var c :| c in cs; c
  }

  ghost function SumCounts(s: seq<Report>, cs: set<string>): nat
    decreases cs
  {
    if cs == {} then 0 else CountIn(s, AnyOf(cs)) + SumCounts(s, cs - {AnyOf(cs)})
  }

  lemma {:induction false} SumAppend(s: seq<Report>, r: Report, cs: set<string>)
    ensures SumCounts(s + [r], cs) == SumCounts(s, cs) + if r.crisis.Some? && r.crisis.value in cs then 1 else 0
    decreases cs
  {
    assert Front(s + [r]) == s;
    if cs != {} {
      SumAppend(s, r, cs - {AnyOf(cs)});
      assert CountIn(s + [r], AnyOf(cs)) == CountIn(s, AnyOf(cs)) + if r.crisis == Some(AnyOf(cs)) then 1 else 0;
    }
  }

  lemma {:induction false} SumEmpty(cs: set<string>)
    ensures SumCounts([], cs) == 0
    decreases cs
  {
    if cs != {} {
      SumEmpty(cs - {AnyOf(cs)});
    }
  }

  lemma {:induction false} Partition(s: seq<Report>, cs: set<string>)
    requires forall r :: r in s && r.crisis.Some? ==> r.crisis.value in cs
    ensures CountPending(s) + SumCounts(s, cs) == |s|
  {
    if s == [] {
      SumEmpty(cs);
    } else {
      assert s == Front(s) + [Last(s)];
      Partition(Front(s), cs);
      SumAppend(Front(s), Last(s), cs);
    }
  }

  /** In every reachable state the pending reports and the per-crisis counts add up to the total. */
  lemma CountsAddUp(w: World, cfg: Emergent, states: seq<System>, evs: seq<Event>, i: nat)
    requires Run(w, cfg, states, evs) && i < |states|
    ensures var db := states[i].db; CountPending(db.reports) + SumCounts(db.reports, db.crises.Keys) == |db.reports|
  {
    AlwaysGood(w, cfg, states, evs, i);
    Partition(states[i].db.reports, states[i].db.crises.Keys);
  }

  // ---- status ------------------------------------------------------------------------

  lemma StatusMoves(w: World, cfg: Emergent, s: System, e: Event, c: string)
    requires Enabled(w, s, e) && c in s.db.crises
    ensures c in DbAfter(w, cfg, s, e).crises
    ensures DbAfter(w, cfg, s, e).crises[c].status != s.db.crises[c].status ==>
      e == Status(c, DbAfter(w, cfg, s, e).crises[c].status)
  {}

  /** Only SetCrisisStatus turns a proposed crisis active. */
  lemma OnlyStatusActivates(w: World, cfg: Emergent, states: seq<System>, evs: seq<Event>, i: nat, c: string)
    requires Run(w, cfg, states, evs) && i < |evs|
    requires c in states[i].db.crises && states[i].db.crises[c].status == Proposed
    requires c in states[i + 1].db.crises && states[i + 1].db.crises[c].status == Active
    ensures evs[i] == Status(c, Active)
  {
    StatusMoves(w, cfg, states[i], evs[i], c);
  }

  predicate Sets(e: Event, c: string) {
    e.Status? && e.crisis == c
  }

  /** A crisis stays, with everything but its status, and its status changes exactly as it is set. */
  predicate StatusStep(s: System, e: Event, s': System, c: string) {
    c in s.db.crises ==>
      && c in s'.db.crises && s'.db.crises[c] == s.db.crises[c].(status := s'.db.crises[c].status)
      && s'.db.crises[c].status == if Sets(e, c) then e.status else s.db.crises[c].status
  }

  lemma StepStatus(w: World, cfg: Emergent, s: System, e: Event, c: string)
    requires Enabled(w, s, e)
    ensures StatusStep(s, e, Apply(w, cfg, s, e), c)
  {}

  /** A crisis comes to be as a proposal of the emergent check, or as it was declared. */
  lemma CrisisBegins(w: World, cfg: Emergent, s: System, e: Event, c: string)
    requires Enabled(w, s, e) && c !in s.db.crises && c in DbAfter(w, cfg, s, e).crises
    ensures var crisis := DbAfter(w, cfg, s, e).crises[c];
      || (e.Declare? && e.crisis == c && crisis == e.c)
      || (e.Pull? && e.crisis == c && crisis == Crisis(Proposed, e.center, cfg.radiusKm, e.started, None, true))
  {}

  ghost predicate StatusSteps(states: seq<System>, evs: seq<Event>, c: string) {
    |states| == |evs| + 1 && forall k :: 0 <= k < |evs| ==> StatusStep(states[k], evs[k], states[k + 1], c)
  }

  lemma {:induction false} StatusFollowed(states: seq<System>, evs: seq<Event>, i: nat, j: nat, c: string)
    returns (last: Option<nat>)
    requires StatusSteps(states, evs, c) && i <= j <= |evs| && c in states[i].db.crises
    ensures c in states[j].db.crises
    ensures states[j].db.crises[c] == states[i].db.crises[c].(status := states[j].db.crises[c].status)
    ensures last == None ==> states[j].db.crises[c].status == states[i].db.crises[c].status
    ensures last == None ==> forall k :: i <= k < j ==> !Sets(evs[k], c)
    ensures last.Some? ==> i <= last.value < j && evs[last.value] == Status(c, states[j].db.crises[c].status)
    ensures last.Some? ==> forall k :: last.value < k < j ==> !Sets(evs[k], c)
    decreases j
  {
    last := None;
    if i < j {
      last := StatusFollowed(states, evs, i, j - 1, c);
      assert StatusStep(states[j - 1], evs[j - 1], states[j], c);
      if Sets(evs[j - 1], c) {
        last := Some(j - 1);
      }
    }
  }

  /**
   From any state in which it exists, a crisis keeps everything but its status; and its status is the one set by the last
   status event on it since, or the one it had if there was none.
   */
  lemma StatusIsLastSet(
    w: World, cfg: Emergent, states: seq<System>, evs: seq<Event>, i: nat, j: nat, c: string) returns (last: Option<nat>)
    requires Run(w, cfg, states, evs) && i <= j < |states| && c in states[i].db.crises
    ensures c in states[j].db.crises
    ensures states[j].db.crises[c] == states[i].db.crises[c].(status := states[j].db.crises[c].status)
    ensures last == None ==> states[j].db.crises[c].status == states[i].db.crises[c].status
    ensures last == None ==> forall k :: i <= k < j ==> !(evs[k].Status? && evs[k].crisis == c)
    ensures last.Some? ==> i <= last.value < j && evs[last.value] == Status(c, states[j].db.crises[c].status)
    ensures last.Some? ==> forall k :: last.value < k < j ==> !(evs[k].Status? && evs[k].crisis == c)
  {
    forall k | 0 <= k < |evs|
      ensures StatusStep(states[k], evs[k], states[k + 1], c)
    {
      StepStatus(w, cfg, states[k], evs[k], c);
    }
    last := StatusFollowed(states, evs, i, j, c);
    assert forall k :: 0 <= k < |evs| ==> (Sets(evs[k], c) <==> evs[k].Status? && evs[k].crisis == c);
  }

  // ---- emergent detection ----------------------------------------------------------------

  function Positions(w: World, s: seq<Report>, q: Cluster): set<int> {
    set i | 0 <= i < |s| && InCluster(w, q, s[i])
  }

  function Members(s: seq<Report>, c: string): set<int> {
    set i | 0 <= i < |s| && s[i].crisis == Some(c)
  }

  /** The non-null submitters behind a crisis' reports. */
  function SubmittersOf(s: seq<Report>, c: string): set<string> {
    set r | r in s && r.crisis == Some(c) && r.submitter.Some? :: r.submitter.value
  }

  /** Pending, captured since the cutoff, within the radius of the pin, and in the area if there is one. */
  predicate Near(w: World, q: Cluster, r: Report) {
    && r.crisis == None && r.captured >= q.cutoff
    && r.point.Some? && w.meters(r.point.value, q.pin) <= q.radiusKm * 1000.0
    && InArea(r.admin, q.scope)
  }

  /** Pulling in on one snapshot attaches exactly the rows the same predicate selects on it. */
  lemma PullAttaches(w: World, db: Tables, q: Cluster, c: string, center: Point, started: Time)
    requires c !in db.crises && ForeignKeys(db)
    ensures var db' := AfterPullIn(w, db, q, c, center, started);
      && db'.crises[c].status == Proposed
      && Members(db'.reports, c) == Positions(w, db.reports, q)
      && SubmittersOf(db'.reports, c) == Submitters(w, db.reports, q)
      && |db'.reports| == |db.reports|
      && forall i :: 0 <= i < |db.reports| ==> (db'.reports[i].crisis == Some(c) <==> Near(w, q, db.reports[i]))
  {
    var db' := AfterPullIn(w, db, q, c, center, started);
    var s, s' := db.reports, db'.reports;
    forall i | 0 <= i < |s|
      ensures s'[i].crisis == Some(c) <==> InCluster(w, q, s[i])
      ensures s'[i].submitter == s[i].submitter
    {
      assert s[i] in s;
    }
    forall u | u in SubmittersOf(s', c)
      ensures u in Submitters(w, s, q)
    {
      var r :| r in s' && r.crisis == Some(c) && r.submitter == Some(u);
      var i :| 0 <= i < |s'| && s'[i] == r;
      assert s[i] in s;
    }
    forall u | u in Submitters(w, s, q)
      ensures u in SubmittersOf(s', c)
    {
      var r :| r in s && InCluster(w, q, r) && r.submitter == Some(u);
      var i :| 0 <= i < |s| && s[i] == r;
      assert s'[i] in s';
    }
  }

  /** The report that triggers detection is itself in its cluster as long as it is pending. */
  lemma TriggerInCluster(w: World, cfg: Emergent, r: Report)
    requires Geographic(w) && cfg.radiusKm >= 0.0 && r.point.Some? && r.crisis == None
    ensures InCluster(w, ClusterOf(cfg, r), r)
  {}

  /**
   Commit, gate and pull-in of one submit with nothing in between: the proposed crisis holds exactly the gated reports,
   among them the one just stored, from at least MinReports >= 2 distinct known submitters, all in one admin area.
   */
  lemma DetectionExact(w: World, cfg: Emergent, s: System, t: nat, c: string, center: Point, started: Time)
    requires Geographic(w) && cfg.radiusKm >= 0.0 && Good(s)
    requires Enabled(w, s, Commit(t))
    requires var s1 := Apply(w, Effective(cfg), s, Commit(t));
      && Enabled(w, s1, Gate(t))
      && var s2 := Apply(w, Effective(cfg), s1, Gate(t)); Enabled(w, s2, Pull(t, c, center, started))
    ensures var x := s.sessions[t];
      var q := ClusterOf(Effective(cfg), x.row);
      var before := Apply(w, Effective(cfg), s, Commit(t)).db;
      var after := AfterPullIn(w, before, q, c, center, started);
      && before.reports == s.db.reports + [x.row]
      && after == Apply(w, Effective(cfg),
                        Apply(w, Effective(cfg), Apply(w, Effective(cfg), s, Commit(t)), Gate(t)), Pull(t, c, center, started)).db
      && after.crises[c].status == Proposed
      && (forall i :: 0 <= i < |before.reports| ==>
            var r := before.reports[i];
            after.reports[i].crisis == Some(c) <==>
              && r.crisis == None && r.point.Some?
              && w.meters(r.point.value, x.row.point.value) <= Effective(cfg).radiusKm * 1000.0
              && r.captured >= x.row.captured - Effective(cfg).windowHrs * 3_600_000_000_000
              && InArea(r.admin, ScopeOf(x.row.admin)))
      && Members(after.reports, c) == Positions(w, before.reports, q)
      && |s.db.reports| in Members(after.reports, c)
      && |SubmittersOf(after.reports, c)| >= Effective(cfg).minReports >= 2
      && (ScopeActive(q.scope) ==> forall i :: i in Members(after.reports, c) ==>
            Pcode(after.reports[i].admin, q.scope.level) == Some(q.scope.pcode))
  {
    var ec := Effective(cfg);
    var x := s.sessions[t];
    CommitOpensGate(w, ec, s, t);
    var s1 := Apply(w, ec, s, Commit(t));
    var q := ClusterOf(ec, x.row);
    GateKeepsTables(w, ec, s1, t);
    StepForeignKeys(w, ec, s, Commit(t));
    assert s1.db.reports[|s.db.reports|] == x.row;
    TriggerInCluster(w, ec, x.row);
    PullAttaches(w, s1.db, q, c, center, started);
    PullUsesSnapshot(w, ec, Apply(w, ec, s1, Gate(t)), t, c, center, started);
  }

  lemma CommitOpensGate(w: World, cfg: Emergent, s: System, t: nat)
    requires Good(s) && Enabled(w, s, Commit(t)) && t in Apply(w, cfg, s, Commit(t)).sessions
    ensures s.sessions[t].inserted && s.sessions[t].row.point.Some? && s.sessions[t].row.crisis == None
    ensures Apply(w, cfg, s, Commit(t)).sessions[t] == s.sessions[t].(phase := Gating)
    ensures Apply(w, cfg, s, Commit(t)).db.reports == s.db.reports + [s.sessions[t].row]
  {}

  lemma GateKeepsTables(w: World, cfg: Emergent, s: System, t: nat)
    requires Enabled(w, s, Gate(t)) && t in Apply(w, cfg, s, Gate(t)).sessions
    ensures Apply(w, cfg, s, Gate(t)).db == s.db
    ensures s.sessions[t].row.point.Some? && GateOpens(w, cfg, s.db.reports, ClusterOf(cfg, s.sessions[t].row))
    ensures Apply(w, cfg, s, Gate(t)).sessions[t] == s.sessions[t].(phase := Pulling)
  {}

  lemma PullUsesSnapshot(w: World, cfg: Emergent, s: System, t: nat, c: string, center: Point, started: Time)
    requires Enabled(w, s, Pull(t, c, center, started)) && s.sessions[t].row.point.Some?
    ensures Apply(w, cfg, s, Pull(t, c, center, started)).db
         == AfterPullIn(w, s.db, ClusterOf(cfg, s.sessions[t].row), c, center, started)
  {}

  /**
   When gate and pull-in are not on one snapshot the threshold is not kept: of two submits that both passed their gates, the
   one that pulls in second attaches only what the first has left, and so nothing at all exactly when its cluster lies
   within the other's.
   */
  lemma SecondDetectorAttachesRest(
    w: World, db: Tables, q1: Cluster, q2: Cluster, c1: string, c2: string, center1: Point, center2: Point,
    started1: Time, started2: Time)
    requires c1 != c2 && c1 !in db.crises && c2 !in db.crises && ForeignKeys(db)
    ensures var db1 := AfterPullIn(w, db, q1, c1, center1, started1);
      var db2 := AfterPullIn(w, db1, q2, c2, center2, started2);
      && c2 in db2.crises && db2.crises[c2].status == Proposed
      && Members(db2.reports, c1) == Positions(w, db.reports, q1)
      && Members(db2.reports, c2) == Positions(w, db.reports, q2) - Positions(w, db.reports, q1)
      && (Members(db2.reports, c2) == {} <==> Positions(w, db.reports, q2) <= Positions(w, db.reports, q1))
  {
    var db1 := AfterPullIn(w, db, q1, c1, center1, started1);
    var db2 := AfterPullIn(w, db1, q2, c2, center2, started2);
    forall i | 0 <= i < |db.reports|
      ensures db2.reports[i].crisis == Some(c1) <==> InCluster(w, q1, db.reports[i])
      ensures db2.reports[i].crisis == Some(c2) <==> InCluster(w, q2, db.reports[i]) && !InCluster(w, q1, db.reports[i])
    {
      assert db.reports[i] in db.reports;
    }
    var p1, p2 := Positions(w, db.reports, q1), Positions(w, db.reports, q2);
    assert Members(db2.reports, c1) == p1 && Members(db2.reports, c2) == p2 - p1;
    assert p2 - p1 == {} ==> forall i :: i in p2 ==> i in p2 - p1 || i in p1;
  }
}
