/** Replays and reused keys, over runs in which every submit is one atomic operation. */
module Idempotency {
  import opened Basics
  import opened Tables
  import opened Intake
  import opened Sessions
  import opened Rows
  import opened Safety
  import opened Dismissal
  import opened Atomic

  // ---- atomic operations -----------------------------------------------------

  datatype Op =
    | Submit(req: Request, submitter: Option<string>, o: Outside)
    | Act(e: Event)

  function Perform(w: World, cfg: Emergent, s: System, op: Op): System {
    match op
    case Submit(req, submitter, o) =>
      if Validate(Normalize(req, submitter, s.now)) then Drive(w, cfg, Apply(w, cfg, s, Begin(0, req, submitter)), 0, o) else s
    case Act(e) => Apply(w, cfg, s, e)
  }

  ghost predicate Allowed(w: World, s: System, op: Op) {
    && s.sessions == map[]
    && match op
       case Submit(req, submitter, o) =>
         Decided(w, s.db.crises, Normalize(req, submitter, s.now), o.choice) && o.crisis !in s.db.crises
       case Act(e) => Actor(e) == None
  }

  /** Atomic operations are runs of the interleaved machine, so everything proved of it holds of them. */
  lemma PerformReachable(w: World, cfg: Emergent, s: System, op: Op)
    requires Reachable(w, cfg, s) && Allowed(w, s, op)
    ensures Reachable(w, cfg, Perform(w, cfg, s, op)) && Perform(w, cfg, s, op).sessions == map[]
  {
    match op
    case Submit(req, submitter, o) =>
      if Validate(Normalize(req, submitter, s.now)) {
        var e := Begin(0, req, submitter);
        ReachStep(w, cfg, s, e);
        DriveReachable(w, cfg, Apply(w, cfg, s, e), 0, o);
      }
    case Act(e) =>
      ReachStep(w, cfg, s, e);
      assert SessionsAfter(w, cfg, s, e) == map[];
  }

  function PerformAll(w: World, cfg: Emergent, s: System, ops: seq<Op>): System {
    if ops == [] then s else Perform(w, cfg, PerformAll(w, cfg, s, Front(ops)), Last(ops))
  }

  ghost predicate AllowedAll(w: World, cfg: Emergent, s: System, ops: seq<Op>) {
    ops == [] || (AllowedAll(w, cfg, s, Front(ops)) && Allowed(w, PerformAll(w, cfg, s, Front(ops)), Last(ops)))
  }

  // ---- one replay ------------------------------------------------------------

  predicate BuildingKnown(db: Tables, r: Report) {
    HasBuilding(r) ==> r.building.value in db.buildings
  }

  lemma ReplayStep(w: World, cfg: Emergent, s: System, t: nat, o: Outside)
    requires t in s.sessions
    requires var x := s.sessions[t];
      !x.inserted && Rest(x.phase) != 4 && Rest(x.phase) >= 3 && x.row.id in Ids(s.db.reports) && BuildingKnown(s.db, x.row)
    ensures var e, x := NextEvent(t, s.sessions[t].phase, o), s.sessions[t];
      && DbAfter(w, cfg, s, e) == s.db
      && var y := Acted(w, cfg, s, e, x);
         y.Some? ==> !y.value.inserted && Rest(y.value.phase) != 4 && Rest(y.value.phase) >= 3
                     && y.value.row.id == x.row.id && y.value.row.building == x.row.building
  {
    var x := s.sessions[t];
    if x.phase == Committing {
      assert CommitTables(s.db, x.row, false, x.damage).reports == s.db.reports;
      assert CommitBuildings(s.db, x.row, false, x.damage) == s.db.buildings;
    }
  }

  /** A replay of a stored id whose building is known runs through without leaving anything behind. */
  lemma {:induction false} ReplayDrive(w: World, cfg: Emergent, s: System, t: nat, o: Outside)
    requires t in s.sessions
    requires var x := s.sessions[t];
      !x.inserted && Rest(x.phase) != 4 && Rest(x.phase) >= 3 && x.row.id in Ids(s.db.reports) && BuildingKnown(s.db, x.row)
    ensures Drive(w, cfg, s, t, o) == s.(sessions := s.sessions - {t})
    decreases Left(s, t)
  {
    var e := NextEvent(t, s.sessions[t].phase, o);
    SoloStep(w, cfg, s, t, o);
    NextAdvances(w, cfg, s, t, o);
    ReplayStep(w, cfg, s, t, o);
    if Acted(w, cfg, s, e, s.sessions[t]).Some? {
      ReplayDrive(w, cfg, Apply(w, cfg, s, e), t, o);
    }
  }

  lemma ReplayUnchanged(w: World, cfg: Emergent, s: System, req: Request, submitter: Option<string>, o: Outside)
    requires 0 !in s.sessions && req.id in Ids(s.db.reports) && BuildingKnown(s.db, Normalize(req, submitter, s.now))
    ensures Perform(w, cfg, s, Submit(req, submitter, o)) == s
  {
    if Validate(Normalize(req, submitter, s.now)) {
      var e := Begin(0, req, submitter);
      var s1 := Apply(w, cfg, s, e);
      ReplayDrive(w, cfg, s1, 0, o);
      assert s1.sessions - {0} == s.sessions;
    }
  }

  /**
   A submit of a stored id answers with the stored row, or fails, and never inserts; it leaves the tables alone
   exactly when it does not have to create its building.
   */
  lemma ReplayExactly(w: World, cfg: Emergent, db: Tables, now: Time, req: Request, submitter: Option<string>, o: Outside)
    requires req.id in Ids(db.reports) && Validate(Normalize(req, submitter, now))
    ensures var r := Routed(Normalize(req, submitter, now), o);
      && SubmitTables(w, cfg, db, now, req, submitter, o).reports == db.reports
      && (SubmitTables(w, cfg, db, now, req, submitter, o) == db <==> BuildingKnown(db, r) || !BuildingOpens(db, r))
      && (SubmitAnswer(w, cfg, db, now, req, submitter, o) ==
          if HasBuilding(r) && !BuildingOpens(db, r) then Failed else Accepted(Find(db.reports, req.id), false))
  {
    var r := Routed(Normalize(req, submitter, now), o);
    var n := Numbered(db, r);
    assert InsertOutcomeOf(db, n) == Replay;
    var db1 := CommitTables(db, n, false, None);
    assert db1.reports == db.reports;
    if BuildingKnown(db, r) {
      assert db1.buildings == db.buildings;
    } else {
      assert n.building.value in db1.buildings;
    }
  }

  /**
   A new id with a key another report holds: a guard rejects it, or its building cannot be created, or everything is
   rolled back and the caller gets the report that holds the key.  Nothing is written in any case.
   */
  lemma TakenKey(
    w: World, cfg: Emergent, db: Tables, now: Time, req: Request, submitter: Option<string>, o: Outside, holder: Report)
    requires Unique(db.reports) && holder in db.reports && req.id != holder.id
    requires var r := Normalize(req, submitter, now); Validate(r) && r.key == holder.key && req.id !in Ids(db.reports)
    ensures SubmitTables(w, cfg, db, now, req, submitter, o) == db
    ensures var r := Routed(Normalize(req, submitter, now), o);
      SubmitAnswer(w, cfg, db, now, req, submitter, o) ==
        if Admission(w, db, now, Normalize(req, submitter, now)) != Pass
        then Refused(Admission(w, db, now, Normalize(req, submitter, now)))
        else if HasBuilding(r) && !BuildingOpens(db, r) then Failed
        else Original(Some(holder))
  {
    FindKeyUnique(db.reports, holder);
    var r := Routed(Normalize(req, submitter, now), o);
    assert InsertOutcomeOf(db, Numbered(db, r)) == KeyTaken;
  }

  lemma {:induction false} FindKeyUnique(s: seq<Report>, r: Report)
    requires Unique(s) && r in s
    ensures FindKey(s, r.key) == Some(r)
  {
    assert s == Front(s) + [Last(s)];
    if r in Front(s) {
      var i :| 0 <= i < |Front(s)| && Front(s)[i] == r;
      assert s[i].key != s[|s| - 1].key;
      FindKeyUnique(Front(s), r);
    }
  }

  // ---- whole runs --------------------------------------------------------------

  lemma {:induction false} DriveKeepsBuildings(w: World, cfg: Emergent, s: System, t: nat, o: Outside)
    ensures s.db.buildings.Keys <= Drive(w, cfg, s, t, o).db.buildings.Keys
    decreases Left(s, t)
  {
    if t in s.sessions {
      var e := NextEvent(t, s.sessions[t].phase, o);
      NextAdvances(w, cfg, s, t, o);
      StepReports(w, cfg, s, e);
      DriveKeepsBuildings(w, cfg, Apply(w, cfg, s, e), t, o);
    }
  }

  lemma PerformKeepsBuildings(w: World, cfg: Emergent, s: System, op: Op)
    ensures s.db.buildings.Keys <= Perform(w, cfg, s, op).db.buildings.Keys
  {
    match op
    case Submit(req, submitter, o) =>
      if Validate(Normalize(req, submitter, s.now)) {
        StepReports(w, cfg, s, Begin(0, req, submitter));
        DriveKeepsBuildings(w, cfg, Apply(w, cfg, s, Begin(0, req, submitter)), 0, o);
      }
    case Act(e) => StepReports(w, cfg, s, e);
  }

  lemma {:induction false} BuildingsRemain(w: World, cfg: Emergent, s: System, ops: seq<Op>, j: nat)
    requires j <= |ops|
    ensures PerformAll(w, cfg, s, ops[..j]).db.buildings.Keys <= PerformAll(w, cfg, s, ops).db.buildings.Keys
  {
    if j < |ops| {
      assert Front(ops)[..j] == ops[..j];
      BuildingsRemain(w, cfg, s, Front(ops), j);
      PerformKeepsBuildings(w, cfg, PerformAll(w, cfg, s, Front(ops)), Last(ops));
    } else {
      assert ops[..j] == ops;
    }
  }

  /** Operation `j` of the run is a submit that the service accepted: stored, or recognised as a replay. */
  ghost predicate AcceptedAt(w: World, cfg: Emergent, s: System, ops: seq<Op>, j: int) {
    && 0 <= j < |ops| && ops[j].Submit?
    && var b := PerformAll(w, cfg, s, ops[..j]);
       SubmitAnswer(w, cfg, b.db, b.now, ops[j].req, ops[j].submitter, ops[j].o).Accepted?
  }

  /** The last operation repeats, word for word, an accepted submit whose report is still stored. */
  ghost predicate EndsInReplay(w: World, cfg: Emergent, s: System, ops: seq<Op>) {
    && ops != [] && Last(ops).Submit?
    && Last(ops).req.id in Ids(PerformAll(w, cfg, s, Front(ops)).db.reports)
    && exists j :: AcceptedAt(w, cfg, s, Front(ops), j)
                   && ops[j].req == Last(ops).req && ops[j].submitter == Last(ops).submitter
  }

  /** The run without its replays. */
  ghost function Pruned(w: World, cfg: Emergent, s: System, ops: seq<Op>): seq<Op> {
    if ops == [] then []
    else Pruned(w, cfg, s, Front(ops)) + if EndsInReplay(w, cfg, s, ops) then [] else [Last(ops)]
  }

  /** An accepted submit leaves its building's row behind. */
  lemma AcceptedOpensBuilding(w: World, cfg: Emergent, db: Tables, now: Time, req: Request, submitter: Option<string>, o: Outside)
    requires SubmitAnswer(w, cfg, db, now, req, submitter, o).Accepted?
    ensures BuildingKnown(SubmitTables(w, cfg, db, now, req, submitter, o), Normalize(req, submitter, now))
  {
    var r := Routed(Normalize(req, submitter, now), o);
    var n := Numbered(db, r);
    if HasBuilding(r) {
      assert r.building.value in Transacted(db, now, r).buildings;
    }
  }

  lemma {:induction false} AllowedAt(w: World, cfg: Emergent, s: System, ops: seq<Op>, j: nat)
    requires AllowedAll(w, cfg, s, ops) && j < |ops|
    ensures Allowed(w, PerformAll(w, cfg, s, ops[..j]), ops[j])
  {
    if j == |ops| - 1 {
      assert ops[..j] == Front(ops);
    } else {
      assert Front(ops)[..j] == ops[..j];
      AllowedAt(w, cfg, s, Front(ops), j);
    }
  }

  lemma AcceptedPerform(w: World, cfg: Emergent, s: System, req: Request, submitter: Option<string>, o: Outside)
    requires s.sessions == map[] && SubmitAnswer(w, cfg, s.db, s.now, req, submitter, o).Accepted?
    ensures BuildingKnown(Perform(w, cfg, s, Submit(req, submitter, o)).db, Normalize(req, submitter, s.now))
  {
    AcceptedOpensBuilding(w, cfg, s.db, s.now, req, submitter, o);
    SubmitIsSolo(w, cfg, s, 0, req, submitter, o);
  }

  lemma PerformAllAt(w: World, cfg: Emergent, s: System, ops: seq<Op>, j: nat)
    requires j < |ops|
    ensures PerformAll(w, cfg, s, ops[..j + 1]) == Perform(w, cfg, PerformAll(w, cfg, s, ops[..j]), ops[j])
  {
    assert Front(ops[..j + 1]) == ops[..j];
  }

  lemma ReplayKnowsBuilding(w: World, cfg: Emergent, s: System, ops: seq<Op>, j: nat, now: Time)
    requires AllowedAll(w, cfg, s, ops) && AcceptedAt(w, cfg, s, ops, j)
    ensures BuildingKnown(PerformAll(w, cfg, s, ops).db, Normalize(ops[j].req, ops[j].submitter, now))
  {
    var b := PerformAll(w, cfg, s, ops[..j]);
    AllowedAt(w, cfg, s, ops, j);
    AcceptedPerform(w, cfg, b, ops[j].req, ops[j].submitter, ops[j].o);
    PerformAllAt(w, cfg, s, ops, j);
    BuildingsRemain(w, cfg, s, ops, j + 1);
    StillKnown(PerformAll(w, cfg, s, ops[..j + 1]).db, PerformAll(w, cfg, s, ops).db, ops[j].req, ops[j].submitter, b.now, now);
  }

  lemma StillKnown(db: Tables, db': Tables, req: Request, submitter: Option<string>, now: Time, later: Time)
    requires db.buildings.Keys <= db'.buildings.Keys && BuildingKnown(db, Normalize(req, submitter, now))
    ensures BuildingKnown(db', Normalize(req, submitter, later))
  {}

  /** Deleting from any run all verbatim replays of accepted submits whose id is still stored changes nothing in the end. */
  lemma {:induction false} ReplaysAreInvisible(w: World, cfg: Emergent, s: System, ops: seq<Op>)
    requires AllowedAll(w, cfg, s, ops)
    ensures PerformAll(w, cfg, s, Pruned(w, cfg, s, ops)) == PerformAll(w, cfg, s, ops)
  {
    if ops != [] {
      ReplaysAreInvisible(w, cfg, s, Front(ops));
      var kept, b := Pruned(w, cfg, s, Front(ops)), PerformAll(w, cfg, s, Front(ops));
      if EndsInReplay(w, cfg, s, ops) {
        var op := Last(ops);
        var j :| AcceptedAt(w, cfg, s, Front(ops), j) && ops[j].req == op.req && ops[j].submitter == op.submitter;
        ReplayKnowsBuilding(w, cfg, s, Front(ops), j, b.now);
        ReplayUnchanged(w, cfg, b, op.req, op.submitter, op.o);
        assert Pruned(w, cfg, s, ops) == kept;
      } else {
        assert Front(kept + [Last(ops)]) == kept;
      }
    }
  }

  // ---- dismissal, with atomic submits ------------------------------------------------

  predicate PinsOp(op: Op, c: string) {
    op.Submit? && op.req.crisis == c && c != "" && c != "auto"
  }

  predicate ReopensOp(op: Op, c: string) {
    op.Act? && Reopens(op.e, c)
  }

  lemma QuietReach(w: World, cfg: Emergent, s: System, e: Event, c: string)
    requires Reachable(w, cfg, s) && Enabled(w, s, e) && Quiet(w, s, c) && !Reopens(e, c) && !Pins(e, c)
    ensures Reachable(w, cfg, Apply(w, cfg, s, e)) && Quiet(w, Apply(w, cfg, s, e), c)
  {
    ReachableGood(w, cfg, s);
    ReachStep(w, cfg, s, e);
    StepQuiet(w, cfg, s, e, c);
  }

  lemma {:induction false} QuietDrive(w: World, cfg: Emergent, s: System, t: nat, o: Outside, c: string)
    requires Reachable(w, cfg, s) && t in s.sessions && Quiet(w, s, c)
    requires Answerable(w, s.db, s.sessions[t], o) && Unhindered(s, t, s.sessions[t].row)
    ensures Quiet(w, Drive(w, cfg, s, t, o), c)
    decreases Left(s, t)
  {
    var e := NextEvent(t, s.sessions[t].phase, o);
    FreeEnabled(w, s, t, o);
    QuietReach(w, cfg, s, e, c);
    SoloStep(w, cfg, s, t, o);
    NextAdvances(w, cfg, s, t, o);
    if Acted(w, cfg, s, e, s.sessions[t]).Some? {
      AnswerableStep(w, cfg, s, t, o);
      QuietDrive(w, cfg, Apply(w, cfg, s, e), t, o, c);
    }
  }

  lemma QuietPerform(w: World, cfg: Emergent, s: System, op: Op, c: string)
    requires Reachable(w, cfg, s) && Allowed(w, s, op) && Quiet(w, s, c) && !PinsOp(op, c) && !ReopensOp(op, c)
    ensures Quiet(w, Perform(w, cfg, s, op), c)
  {
    match op
    case Submit(req, submitter, o) =>
      if Validate(Normalize(req, submitter, s.now)) {
        var e := Begin(0, req, submitter);
        QuietReach(w, cfg, s, e, c);
        QuietDrive(w, cfg, Apply(w, cfg, s, e), 0, o, c);
      }
    case Act(e) => QuietReach(w, cfg, s, e, c);
  }

  lemma {:induction false} QuietPerformAll(w: World, cfg: Emergent, s: System, ops: seq<Op>, c: string)
    requires Reachable(w, cfg, s) && AllowedAll(w, cfg, s, ops) && Quiet(w, s, c) && s.sessions == map[]
    requires forall k :: 0 <= k < |ops| ==> !PinsOp(ops[k], c) && !ReopensOp(ops[k], c)
    ensures Quiet(w, PerformAll(w, cfg, s, ops), c) && Reachable(w, cfg, PerformAll(w, cfg, s, ops))
  {
    if ops != [] {
      QuietPerformAll(w, cfg, s, Front(ops), c);
      QuietPerform(w, cfg, PerformAll(w, cfg, s, Front(ops)), Last(ops), c);
      PerformReachable(w, cfg, PerformAll(w, cfg, s, Front(ops)), Last(ops));
    }
  }

  /** With atomic submits a dismissed crisis is empty, and stays so until it is reopened or a submit pins it. */
  lemma DismissedForGood(w: World, cfg: Emergent, s: System, s1: System, ops: seq<Op>, c: string)
    requires Reachable(w, cfg, s) && s.sessions == map[] && c in s.db.crises
    requires s1 == Perform(w, cfg, s, Act(Status(c, Dismissed))) && AllowedAll(w, cfg, s1, ops)
    requires forall k :: 0 <= k < |ops| ==> !PinsOp(ops[k], c) && !ReopensOp(ops[k], c)
    ensures Quiet(w, PerformAll(w, cfg, s1, ops), c)
  {
    DismissedNow(w, cfg, s, c);
    QuietPerformAll(w, cfg, s1, ops, c);
  }

  lemma DismissedNow(w: World, cfg: Emergent, s: System, c: string)
    requires Reachable(w, cfg, s) && s.sessions == map[] && c in s.db.crises
    ensures var s1 := Perform(w, cfg, s, Act(Status(c, Dismissed)));
      Reachable(w, cfg, s1) && Quiet(w, s1, c) && s1.sessions == map[]
  {
    ReachableGood(w, cfg, s);
    DismissalReleases(w, cfg, s, c);
    ReachStep(w, cfg, s, Status(c, Dismissed));
  }
}
