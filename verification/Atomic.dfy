/**
 One submit with nothing else running, as a function on the tables; that it is what the interleaved machine
 does to a lone session; and what idempotency means over runs of such submits.
 */
module Atomic {
  import opened Basics
  import opened Tables
  import opened Intake
  import opened Sessions

  /** What one submit learns from outside: the admin chain and crisis of its point, and the identity of a crisis it opens. */
  datatype Outside = Outside(
    chain: AdminChain, choice: Option<string>, crisis: string, center: Point, started: Time)

  datatype Answer =
    | Invalid
    | Refused(why: GuardOutcome)
    | Accepted(stored: Option<Report>, created: bool)
    | Original(earlier: Option<Report>)
    | Failed

  // ---- Submit, statement by statement ----------------------------------------

  /** Known ids skip the guards; so does an unknown submitter. */
  function Admission(w: World, db: Tables, now: Time, r: Report): GuardOutcome {
    if KnownSubmitter(r) && r.id !in Ids(db.reports) then Guards(w, db.reports, r.submitter.value, r, now) else Pass
  }

  function Routed(r: Report, o: Outside): Report {
    r.(crisis := o.choice, admin := if r.point.Some? then o.chain else r.admin)
  }

  function Numbered(db: Tables, r: Report): Report {
    if HasBuilding(r) then Versioned(db.reports, r) else r
  }

  function RefreshedDamage(s: seq<Report>, r: Report): Option<string> {
    if HasBuilding(r) then NewestDamage(OfBuilding(s + [r], r.building.value)) else None
  }

  /** The transaction: rolled back unless the building row can exist and the insert breaks no key. */
  function Transacted(db: Tables, now: Time, r: Report): Tables {
    if HasBuilding(r) && !BuildingOpens(db, r) then db
    else
      var n := Numbered(db, r);
      match InsertOutcomeOf(db, n)
      case Inserted => CommitTables(db, n.(created := now), true, RefreshedDamage(db.reports, n.(created := now)))
      case Replay => CommitTables(db, n, false, None)
      case _ => db
  }

  predicate Inserts(db: Tables, r: Report) {
    (HasBuilding(r) ==> BuildingOpens(db, r)) && InsertOutcomeOf(db, Numbered(db, r)) == Inserted
  }

  /** DetectEmergentCrisis: gate and pull-in. */
  function Detected(w: World, cfg: Emergent, db: Tables, r: Report, o: Outside): Tables {
    if r.point.Some? && GateOpens(w, cfg, db.reports, ClusterOf(cfg, r)) then
      AfterPullIn(w, db, ClusterOf(cfg, r), o.crisis, o.center, o.started)
    else db
  }

  predicate Anchors(r: Report) {
    r.crisis == None && r.point.Some?
  }

  /** From the transaction on: what a submit whose crisis is decided leaves of the tables, and answers. */
  function StoredTables(w: World, cfg: Emergent, db: Tables, now: Time, r: Report, o: Outside): Tables {
    if Inserts(db, r) && Anchors(r) then Detected(w, cfg, Transacted(db, now, r), r, o) else Transacted(db, now, r)
  }

  function StoredAnswer(w: World, cfg: Emergent, db: Tables, now: Time, r: Report, o: Outside): Answer {
    if HasBuilding(r) && !BuildingOpens(db, r) then Failed
    else
      match InsertOutcomeOf(db, Numbered(db, r))
      case ForeignKey => Failed
      case KeyTaken => Original(FindKey(db.reports, r.key))
      case outcome => Accepted(Find(StoredTables(w, cfg, db, now, r, o).reports, r.id), outcome == Inserted)
  }

  function SubmitTables(
    w: World, cfg: Emergent, db: Tables, now: Time, req: Request, submitter: Option<string>, o: Outside): Tables
  {
    var r := Normalize(req, submitter, now);
    if !Validate(r) || Admission(w, db, now, r) != Pass then db else StoredTables(w, cfg, db, now, Routed(r, o), o)
  }

  function SubmitAnswer(
    w: World, cfg: Emergent, db: Tables, now: Time, req: Request, submitter: Option<string>, o: Outside): Answer
  {
    var r := Normalize(req, submitter, now);
    if !Validate(r) then Invalid
    else if Admission(w, db, now, r) != Pass then Refused(Admission(w, db, now, r))
    else StoredAnswer(w, cfg, db, now, Routed(r, o), o)
  }

  // ---- the same, as a session of the interleaved machine -----------------------------

  function NextEvent(t: nat, p: Phase, o: Outside): Event {
    match p
    case Guarding => Guard(t)
    case Assigning => Assign(t, o.chain, o.choice)
    case Locking => Lock(t)
    case Reading => Read(t)
    case Inserting => Insert(t)
    case Refreshing => Refresh(t)
    case Committing => Commit(t)
    case Gating => Gate(t)
    case Pulling => Pull(t, o.crisis, o.center, o.started)
  }

  function Rest(p: Phase): nat {
    match p
    case Guarding => 9 case Assigning => 8 case Locking => 7 case Reading => 6 case Inserting => 5
    case Refreshing => 4 case Committing => 3 case Gating => 2 case Pulling => 1
  }

  function Left(s: System, t: nat): nat {
    if t in s.sessions then Rest(s.sessions[t].phase) else 0
  }

  lemma NextAdvances(w: World, cfg: Emergent, s: System, t: nat, o: Outside)
    requires t in s.sessions
    ensures Left(Apply(w, cfg, s, NextEvent(t, s.sessions[t].phase, o)), t) < Left(s, t)
  {}

  /** Let session `t` run to its end. */
  function Drive(w: World, cfg: Emergent, s: System, t: nat, o: Outside): System
    decreases Left(s, t)
  {
    if t !in s.sessions then s
    else
      NextAdvances(w, cfg, s, t, o);
      Drive(w, cfg, Apply(w, cfg, s, NextEvent(t, s.sessions[t].phase, o)), t, o)
  }

  /** `s` after a statement of session `t` that left the tables as given. */
  function Solo(s: System, db: Tables, t: nat, x: Option<Session>): System {
    System(db, if x.Some? then s.sessions[t := x.value] else s.sessions - {t}, s.now)
  }

  lemma SoloStep(w: World, cfg: Emergent, s: System, t: nat, o: Outside)
    requires t in s.sessions
    ensures var x := s.sessions[t];
      var e := NextEvent(t, x.phase, o);
      var s' := Solo(s, DbAfter(w, cfg, s, e), t, Acted(w, cfg, s, e, x));
      && Apply(w, cfg, s, e) == s'
      && Drive(w, cfg, s, t, o) == Drive(w, cfg, s', t, o)
      && s'.sessions - {t} == s.sessions - {t}
  {
    var e := NextEvent(t, s.sessions[t].phase, o);
    assert Actor(e) == Some(t);
  }

  /** Where an uninterrupted session that started from `s` ends: its own effect on the tables, nobody else disturbed. */
  predicate Ends(s': System, db: Tables, s: System, t: nat) {
    s'.db == db && s'.sessions == s.sessions - {t} && s'.now == s.now
  }

  /** After its commit a submit runs the emergent check on what it stored. */
  lemma SoloGating(w: World, cfg: Emergent, s: System, t: nat, o: Outside)
    requires t in s.sessions && s.sessions[t].phase == Gating && s.sessions[t].row.point.Some?
    ensures Ends(Drive(w, cfg, s, t, o), Detected(w, cfg, s.db, s.sessions[t].row, o), s, t)
  {
    var x := s.sessions[t];
    SoloStep(w, cfg, s, t, o);
    if GateOpens(w, cfg, s.db.reports, ClusterOf(cfg, x.row)) {
      var s' := Solo(s, s.db, t, Some(x.(phase := Pulling)));
      assert Apply(w, cfg, s, Gate(t)) == s';
      SoloStep(w, cfg, s', t, o);
    }
  }

  /** What the last statements of a submit leave: its commit, and the emergent check when it stored an unassigned pin. */
  function FromCommit(w: World, cfg: Emergent, db: Tables, x: Session, o: Outside): Tables {
    var db1 := CommitTables(db, x.row, x.inserted, x.damage);
    if x.inserted && Anchors(x.row) then Detected(w, cfg, db1, x.row, o) else db1
  }

  lemma SoloCommitting(w: World, cfg: Emergent, s: System, t: nat, o: Outside)
    requires t in s.sessions && s.sessions[t].phase == Committing
    ensures Ends(Drive(w, cfg, s, t, o), FromCommit(w, cfg, s.db, s.sessions[t], o), s, t)
  {
    var x := s.sessions[t];
    SoloStep(w, cfg, s, t, o);
    if x.inserted && Anchors(x.row) {
      SoloGating(w, cfg, Apply(w, cfg, s, Commit(t)), t, o);
    }
  }

  function FromInsert(w: World, cfg: Emergent, db: Tables, now: Time, x: Session, o: Outside): Tables {
    var y := RowInserted(db, now, x);
    if y == None then db
    else if y.value.phase == Refreshing then FromCommit(w, cfg, db, DamageRefreshed(db, y.value).value, o)
    else FromCommit(w, cfg, db, y.value, o)
  }

  lemma SoloInserting(w: World, cfg: Emergent, s: System, t: nat, o: Outside)
    requires t in s.sessions && s.sessions[t].phase == Inserting
    ensures Ends(Drive(w, cfg, s, t, o), FromInsert(w, cfg, s.db, s.now, s.sessions[t], o), s, t)
  {
    SoloStep(w, cfg, s, t, o);
    var y := RowInserted(s.db, s.now, s.sessions[t]);
    if y.Some? {
      var s1 := Solo(s, s.db, t, y);
      assert Apply(w, cfg, s, Insert(t)) == s1;
      if y.value.phase == Refreshing {
        SoloRefreshing(w, cfg, s1, t, o);
      } else {
        SoloCommitting(w, cfg, s1, t, o);
      }
    }
  }

  lemma SoloRefreshing(w: World, cfg: Emergent, s: System, t: nat, o: Outside)
    requires t in s.sessions && s.sessions[t].phase == Refreshing
    ensures Ends(Drive(w, cfg, s, t, o), FromCommit(w, cfg, s.db, DamageRefreshed(s.db, s.sessions[t]).value, o), s, t)
  {
    SoloStep(w, cfg, s, t, o);
    SoloCommitting(w, cfg, Apply(w, cfg, s, Refresh(t)), t, o);
  }

  function FromLock(w: World, cfg: Emergent, db: Tables, now: Time, x: Session, o: Outside): Tables {
    if HasBuilding(x.row) && !BuildingOpens(db, x.row) then db
    else FromInsert(w, cfg, db, now, x.(phase := Inserting, row := Numbered(db, x.row)), o)
  }

  lemma SoloLocking(w: World, cfg: Emergent, s: System, t: nat, o: Outside)
    requires t in s.sessions && s.sessions[t].phase == Locking
    ensures Ends(Drive(w, cfg, s, t, o), FromLock(w, cfg, s.db, s.now, s.sessions[t], o), s, t)
  {
    var x := s.sessions[t];
    SoloStep(w, cfg, s, t, o);
    if LockTaken(s.db, x).Some? {
      var s1 := Apply(w, cfg, s, Lock(t));
      if HasBuilding(x.row) {
        SoloStep(w, cfg, s1, t, o);
        SoloInserting(w, cfg, Apply(w, cfg, s1, Read(t)), t, o);
      } else {
        SoloInserting(w, cfg, s1, t, o);
      }
    }
  }

  /** Numbering and creation stamp change nothing the emergent check looks at. */
  lemma DetectionIgnoresNumbering(w: World, cfg: Emergent, db: Tables, s: seq<Report>, r: Report, now: Time, o: Outside)
    ensures var n := if HasBuilding(r) then Versioned(s, r) else r;
      && Anchors(n.(created := now)) == Anchors(r)
      && Detected(w, cfg, db, n.(created := now), o) == Detected(w, cfg, db, r, o)
  {}

  /** The staged machine and the straight-line transaction say the same about a fresh session. */
  lemma LockIsTransaction(w: World, cfg: Emergent, db: Tables, now: Time, x: Session, o: Outside)
    requires !x.inserted && x.damage == None
    ensures FromLock(w, cfg, db, now, x, o) ==
      (var db1 := Transacted(db, now, x.row);
       if Inserts(db, x.row) && Anchors(x.row) then Detected(w, cfg, db1, x.row, o) else db1)
  {
    if HasBuilding(x.row) ==> BuildingOpens(db, x.row) {
      var n := Numbered(db, x.row);
      var y := x.(phase := Inserting, row := n);
      if InsertOutcomeOf(db, n) == Inserted {
        var stored := n.(created := now);
        var damage := RefreshedDamage(db.reports, stored);
        DetectionIgnoresNumbering(w, cfg, CommitTables(db, stored, true, damage), db.reports, x.row, now, o);
        InsertedIsCommitted(w, cfg, db, now, y, o);
      } else {
        assert FromInsert(w, cfg, db, now, y, o) == Transacted(db, now, x.row);
      }
    }
  }

  lemma InsertedIsCommitted(w: World, cfg: Emergent, db: Tables, now: Time, y: Session, o: Outside)
    requires y.damage == None && InsertOutcomeOf(db, y.row) == Inserted
    ensures var stored := y.row.(created := now);
      var db1 := CommitTables(db, stored, true, RefreshedDamage(db.reports, stored));
      FromInsert(w, cfg, db, now, y, o) == if Anchors(stored) then Detected(w, cfg, db1, stored, o) else db1
  {}

  lemma SoloGuarding(w: World, cfg: Emergent, s: System, t: nat, o: Outside)
    requires t in s.sessions && s.sessions[t].phase == Guarding
    ensures var x := s.sessions[t];
      if Admission(w, s.db, s.now, x.row) != Pass then Drive(w, cfg, s, t, o) == Solo(s, s.db, t, None)
      else exists g :: Ends(Drive(w, cfg, s, t, o), FromLock(w, cfg, s.db, s.now,
                                                             x.(phase := Locking, guardedAt := g, row := Routed(x.row, o)), o), s, t)
  {
    var x := s.sessions[t];
    SoloStep(w, cfg, s, t, o);
    if Admission(w, s.db, s.now, x.row) == Pass {
      var y := Guarded(w, s.db, s.now, x);
      var s1 := Apply(w, cfg, s, Guard(t));
      SoloStep(w, cfg, s1, t, o);
      var s2 := Apply(w, cfg, s1, Assign(t, o.chain, o.choice));
      SoloLocking(w, cfg, s2, t, o);
      assert s2.sessions[t] == x.(phase := Locking, guardedAt := y.value.guardedAt, row := Routed(x.row, o));
    }
  }

  /**
   A submit run through the interleaved machine without interruption does to the tables what SubmitTables says,
   whatever other submits are in flight, and leaves those as they were.
   */
  lemma SubmitIsSolo(
    w: World, cfg: Emergent, s: System, t: nat, req: Request, submitter: Option<string>, o: Outside)
    requires Enabled(w, s, Begin(t, req, submitter))
    ensures Ends(Drive(w, cfg, Apply(w, cfg, s, Begin(t, req, submitter)), t, o),
                 SubmitTables(w, cfg, s.db, s.now, req, submitter, o), s, t)
  {
    var s1 := Apply(w, cfg, s, Begin(t, req, submitter));
    var x := s1.sessions[t];
    assert s1.sessions - {t} == s.sessions - {t};
    SoloGuarding(w, cfg, s1, t, o);
    if Admission(w, s.db, s.now, x.row) == Pass {
      var g :| Ends(Drive(w, cfg, s1, t, o), FromLock(w, cfg, s1.db, s1.now,
                                                      x.(phase := Locking, guardedAt := g, row := Routed(x.row, o)), o), s1, t);
      LockIsTransaction(w, cfg, s.db, s.now, x.(phase := Locking, guardedAt := g, row := Routed(x.row, o)), o);
    }
  }

  // ---- reachable states ------------------------------------------------------

  ghost predicate Reachable(w: World, cfg: Emergent, s: System) {
    exists states, evs :: Run(w, cfg, states, evs) && Last(states) == s
  }

  lemma ReachInitial(w: World, cfg: Emergent, s: System)
    requires Initial(s)
    ensures Reachable(w, cfg, s)
  {
    assert Run(w, cfg, [s], []);
    assert Last([s]) == s;
  }

  lemma ReachStep(w: World, cfg: Emergent, s: System, e: Event)
    requires Reachable(w, cfg, s) && Enabled(w, s, e)
    ensures Reachable(w, cfg, Apply(w, cfg, s, e))
  {
    var states, evs :| Run(w, cfg, states, evs) && Last(states) == s;
    var states', evs' := states + [Apply(w, cfg, s, e)], evs + [e];
    forall i | 0 <= i < |evs'|
      ensures Enabled(w, states'[i], evs'[i]) && states'[i + 1] == Apply(w, cfg, states'[i], evs'[i])
    {
      if i < |evs| {
        assert states'[i] == states[i] && evs'[i] == evs[i] && states'[i + 1] == states[i + 1];
      } else {
        assert states'[i] == s && evs'[i] == e;
      }
    }
    assert Run(w, cfg, states', evs') && Last(states') == Apply(w, cfg, s, e);
  }

  /** Steps from state to state, each enabled and allowed by `ok`. */
  ghost predicate Path(w: World, cfg: Emergent, ok: Event -> bool, states: seq<System>, evs: seq<Event>) {
    && |states| == |evs| + 1
    && forall i :: 0 <= i < |evs| ==>
         Enabled(w, states[i], evs[i]) && ok(evs[i]) && states[i + 1] == Apply(w, cfg, states[i], evs[i])
  }

  /** Some continuation of `s`, of events that `ok` allows, ends in `s'`. */
  ghost predicate Leads(w: World, cfg: Emergent, ok: Event -> bool, s: System, s': System) {
    exists states, evs :: Path(w, cfg, ok, states, evs) && states[0] == s && Last(states) == s'
  }

  lemma LeadsHere(w: World, cfg: Emergent, ok: Event -> bool, s: System)
    ensures Leads(w, cfg, ok, s, s)
  {
    assert Path(w, cfg, ok, [s], []) && [s][0] == s && Last([s]) == s;
  }

  lemma LeadsStep(w: World, cfg: Emergent, ok: Event -> bool, s: System, s1: System, e: Event)
    requires Leads(w, cfg, ok, s, s1) && Enabled(w, s1, e) && ok(e)
    ensures Leads(w, cfg, ok, s, Apply(w, cfg, s1, e))
  {
    var states, evs :| Path(w, cfg, ok, states, evs) && states[0] == s && Last(states) == s1;
    var states', evs' := states + [Apply(w, cfg, s1, e)], evs + [e];
    forall i | 0 <= i < |evs'|
      ensures Enabled(w, states'[i], evs'[i]) && ok(evs'[i]) && states'[i + 1] == Apply(w, cfg, states'[i], evs'[i])
    {
      if i < |evs| {
        assert states'[i] == states[i] && evs'[i] == evs[i] && states'[i + 1] == states[i + 1];
      } else {
        assert states'[i] == s1 && evs'[i] == e;
      }
    }
    assert Path(w, cfg, ok, states', evs') && states'[0] == s && Last(states') == Apply(w, cfg, s1, e);
  }

  lemma {:induction false} ReachPath(
    w: World, cfg: Emergent, ok: Event -> bool, states: seq<System>, evs: seq<Event>, k: nat)
    requires Path(w, cfg, ok, states, evs) && Reachable(w, cfg, states[0]) && k < |states|
    ensures Reachable(w, cfg, states[k])
  {
    if k > 0 {
      ReachPath(w, cfg, ok, states, evs, k - 1);
      ReachStep(w, cfg, states[k - 1], evs[k - 1]);
    }
  }

  /** Whatever continues a reachable state is reachable. */
  lemma ReachLeads(w: World, cfg: Emergent, ok: Event -> bool, s: System, s': System)
    requires Reachable(w, cfg, s) && Leads(w, cfg, ok, s, s')
    ensures Reachable(w, cfg, s')
  {
    var states, evs :| Path(w, cfg, ok, states, evs) && states[0] == s && Last(states) == s';
    ReachPath(w, cfg, ok, states, evs, |evs|);
  }

  /** What the outside world must answer for a session to be able to run to its end. */
  ghost predicate Answerable(w: World, db: Tables, x: Session, o: Outside) {
    && (x.phase == Guarding || x.phase == Assigning ==> Decided(w, db.crises, x.row, o.choice))
    && o.crisis !in db.crises
  }

  /** No other submit in flight makes session `t` wait. */
  ghost predicate Unhindered(s: System, t: nat, r: Report) {
    forall u :: u in s.sessions && u != t ==>
      && (HasBuilding(r) ==> !HoldsLock(s.sessions[u], r.building.value))
      && (HasPendingRow(s.sessions[u]) ==> s.sessions[u].row.id != r.id && s.sessions[u].row.key != r.key)
  }

  lemma FreeEnabled(w: World, s: System, t: nat, o: Outside)
    requires t in s.sessions && Answerable(w, s.db, s.sessions[t], o) && Unhindered(s, t, s.sessions[t].row)
    ensures Enabled(w, s, NextEvent(t, s.sessions[t].phase, o))
  {}

  lemma AnswerableStep(w: World, cfg: Emergent, s: System, t: nat, o: Outside)
    requires t in s.sessions && Answerable(w, s.db, s.sessions[t], o)
    requires Acted(w, cfg, s, NextEvent(t, s.sessions[t].phase, o), s.sessions[t]).Some?
    ensures var e := NextEvent(t, s.sessions[t].phase, o);
      var y := Acted(w, cfg, s, e, s.sessions[t]).value;
      && Answerable(w, DbAfter(w, cfg, s, e), y, o)
      && y.row.id == s.sessions[t].row.id && y.row.key == s.sessions[t].row.key
      && y.row.building == s.sessions[t].row.building
  {}

  /** Every statement of such a session is enabled, and leaves it such a session. */
  lemma DriveStep(w: World, cfg: Emergent, s: System, t: nat, o: Outside)
    requires t in s.sessions && Answerable(w, s.db, s.sessions[t], o) && Unhindered(s, t, s.sessions[t].row)
    ensures var e := NextEvent(t, s.sessions[t].phase, o);
      var s' := Apply(w, cfg, s, e);
      && Enabled(w, s, e) && Actor(e) == Some(t) && !e.Begin?
      && Drive(w, cfg, s, t, o) == Drive(w, cfg, s', t, o) && s'.sessions - {t} == s.sessions - {t} && Left(s', t) < Left(s, t)
      && (t in s'.sessions ==> Answerable(w, s'.db, s'.sessions[t], o) && Unhindered(s', t, s'.sessions[t].row))
  {
    FreeEnabled(w, s, t, o);
    SoloStep(w, cfg, s, t, o);
    NextAdvances(w, cfg, s, t, o);
    if Acted(w, cfg, s, NextEvent(t, s.sessions[t].phase, o), s.sessions[t]).Some? {
      AnswerableStep(w, cfg, s, t, o);
    }
  }

  /** Run without interruption, such a session is part of a continuation. */
  lemma LeadsDrive(w: World, cfg: Emergent, ok: Event -> bool, s0: System, s: System, t: nat, o: Outside)
    requires Leads(w, cfg, ok, s0, s) && t in s.sessions
    requires Answerable(w, s.db, s.sessions[t], o) && Unhindered(s, t, s.sessions[t].row)
    requires forall e :: Actor(e) == Some(t) && !e.Begin? ==> ok(e)
    ensures Leads(w, cfg, ok, s0, Drive(w, cfg, s, t, o))
    ensures Drive(w, cfg, s, t, o).sessions == s.sessions - {t}
    decreases Left(s, t)
  {
    var e := NextEvent(t, s.sessions[t].phase, o);
    DriveStep(w, cfg, s, t, o);
    LeadsStep(w, cfg, ok, s0, s, e);
    var s' := Apply(w, cfg, s, e);
    if t in s'.sessions {
      LeadsDrive(w, cfg, ok, s0, s', t, o);
    } else {
      assert s'.sessions - {t} == s'.sessions;
    }
  }

  /** The run of an unhindered session is a run of the interleaved machine. */
  lemma DriveReachable(w: World, cfg: Emergent, s: System, t: nat, o: Outside)
    requires Reachable(w, cfg, s) && t in s.sessions
    requires Answerable(w, s.db, s.sessions[t], o) && Unhindered(s, t, s.sessions[t].row)
    ensures Reachable(w, cfg, Drive(w, cfg, s, t, o))
    ensures Drive(w, cfg, s, t, o).sessions == s.sessions - {t}
  {
    LeadsHere(w, cfg, _ => true, s);
    LeadsDrive(w, cfg, _ => true, s, s, t, o);
    ReachLeads(w, cfg, _ => true, s, Drive(w, cfg, s, t, o));
  }
}
