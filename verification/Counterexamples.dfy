/** Reachable states in which a stronger property than the ones proved elsewhere fails. */
module Counterexamples {
  import opened Basics
  import opened Tables
  import opened Intake
  import opened Sessions
  import opened Rows
  import opened Chains
  import opened Limits
  import opened Atomic

  // ---- a small world ------------------------------------------------------------

  const FLAT := World((p, q) => 0.0, (p, q) => 0.0)
  const CFG := DEFAULT_EMERGENT
  const ORIGIN := Point(0.0, 0.0)

  /** Two known devices, one active crisis with no radius of its own, nothing reported yet. */
  const START := System(
    Tables([], map[], map["x" := Crisis(Active, ORIGIN, 0.0, 0, None, false)], [], [], map["u" := "du", "v" := "dv"]),
    map[], 0)

  function Answers(crisis: Option<string>): Outside {
    Outside(NO_ADMIN, crisis, "new", ORIGIN, 0)
  }

  /** What the reports of these runs differ in, besides id, building and submitter. */
  datatype Details = Details(at: Option<real>, damage: string, captured: Time)

  const PLAIN := Details(None, "minimal", 0)
  const PIN := Details(Some(0.0), "minimal", 0)

  predicate Ordinary(d: Details) {
    d.damage in DAMAGE_TIERS && (d.at.Some? ==> -90.0 <= d.at.value <= 90.0)
  }

  /** A report in crisis "x" about a landmark, or about a pin when one is given. */
  function Asked(id: string, building: Option<string>, d: Details): Request {
    Request(id, "", "x", d.damage, "", ["residential"], [], ["flood"], [], None, None, d.at, d.at, None,
            building, None, Some("well"), "", Some(d.captured), [])
  }

  function Row(id: string, building: Option<string>, d: Details, submitter: string, now: Time): Report {
    Report(id, "idem-" + id, Some("x"), Some(submitter), d.damage, "unsure", Pending, ["residential"], ["flood"], None,
           if d.at.Some? then Some(Point(d.at.value, d.at.value)) else None, "well", "", building, None,
           1, None, None, d.captured, now, NO_ADMIN, [])
  }

  lemma AskedRow(id: string, building: Option<string>, d: Details, submitter: string, now: Time)
    requires id != "" && Ordinary(d)
    ensures Normalize(Asked(id, building, d), Some(submitter), now) == Row(id, building, d, submitter, now)
    ensures Validate(Row(id, building, d, submitter, now))
    ensures Routed(Row(id, building, d, submitter, now), Answers(Some("x"))) == Row(id, building, d, submitter, now)
  {
    assert DEBRIS_STATES[2] == "unsure";
    assert INFRA_TYPES[0] == "residential" && NATURES[1] == "flood";
  }

  predicate InCrisisX(db: Tables) {
    "x" in db.crises && db.crises["x"].radiusKm == 0.0 && "new" !in db.crises
  }

  lemma {:induction false} CountBound(s: seq<Report>, u: string, since: Time)
    ensures CountRecent(s, u, since) <= |s|
  {
    if s != [] {
      CountBound(Front(s), u, since);
    }
  }

  /** With few reports stored, a new landmark report, or a new pin with no pin of its submitter stored, is admitted. */
  lemma Admitted(w: World, db: Tables, now: Time, r: Report)
    requires |db.reports| < 5 && KnownSubmitter(r)
    requires r.point.Some? ==> forall o :: o in db.reports ==> o.submitter != r.submitter
    ensures Admission(w, db, now, r) == Pass
  {
    var u := r.submitter.value;
    CountBound(db.reports, u, now - BURST_WINDOW);
    CountBound(db.reports, u, now - SUSTAINED_WINDOW);
    GuardsPassExactly(w, db.reports, u, r, now);
    if r.point == None {
      NoPinNoDuplicate(w, db.reports, u, r, now);
    }
  }

  lemma NoPinNoDuplicate(w: World, s: seq<Report>, u: string, r: Report, now: Time)
    requires r.point == None
    ensures NoDuplicate(w, s, u, r)
  {}

  /** What a submit of such a report does to the tables. */
  lemma SubmittedTables(db: Tables, now: Time, id: string, building: Option<string>, d: Details, u: string)
    requires InCrisisX(db)
    requires id != "" && u != "" && Ordinary(d) && building != Some("")
    requires |db.reports| < 5 && id !in Ids(db.reports) && "idem-" + id !in Keys(db.reports)
    requires d.at.Some? ==> forall o :: o in db.reports ==> o.submitter != Some(u)
    ensures var db' := SubmitTables(FLAT, CFG, db, now, Asked(id, building, d), Some(u), Answers(Some("x")));
      && db' == Transacted(db, now, Row(id, building, d, u, now))
      && db'.reports == db.reports + [Numbered(db, Row(id, building, d, u, now))]
      && db'.crises == db.crises && db'.devices == db.devices
      && (building.Some? ==> building.value in db'.buildings)
  {
    var r := Row(id, building, d, u, now);
    AskedRow(id, building, d, u, now);
    Admitted(FLAT, db, now, r);
    NumberedInserts(db, r);
  }

  /** The preconditions of an uninterrupted submit of such a report. */
  ghost predicate Fits(s: System, t: nat, id: string, building: Option<string>, d: Details, u: string) {
    && Reachable(FLAT, CFG, s) && t !in s.sessions && InCrisisX(s.db)
    && id != "" && u != "" && Ordinary(d) && building != Some("")
    && |s.db.reports| < 5 && id !in Ids(s.db.reports) && "idem-" + id !in Keys(s.db.reports)
    && (d.at.Some? ==> forall o :: o in s.db.reports ==> o.submitter != Some(u))
    && Unhindered(s, t, Row(id, building, d, u, s.now))
  }

  function Alone(s: System, t: nat, id: string, building: Option<string>, d: Details, u: string): System {
    Drive(FLAT, CFG, Apply(FLAT, CFG, s, Begin(t, Asked(id, building, d), Some(u))), t, Answers(Some("x")))
  }

  lemma AloneReachable(s: System, t: nat, id: string, building: Option<string>, d: Details, u: string)
    requires Fits(s, t, id, building, d, u)
    ensures Reachable(FLAT, CFG, Alone(s, t, id, building, d, u))
  {
    var e := Begin(t, Asked(id, building, d), Some(u));
    BeginDecided(s, t, id, building, d, u);
    ReachStep(FLAT, CFG, s, e);
    DriveReachable(FLAT, CFG, Apply(FLAT, CFG, s, e), t, Answers(Some("x")));
  }

  lemma AloneEnds(s: System, t: nat, id: string, building: Option<string>, d: Details, u: string)
    requires Fits(s, t, id, building, d, u)
    ensures var s' := Alone(s, t, id, building, d, u);
      && s'.sessions == s.sessions && s'.now == s.now
      && s'.db == SubmitTables(FLAT, CFG, s.db, s.now, Asked(id, building, d), Some(u), Answers(Some("x")))
  {
    BeginDecided(s, t, id, building, d, u);
    SubmitIsSolo(FLAT, CFG, s, t, Asked(id, building, d), Some(u), Answers(Some("x")));
    assert s.sessions - {t} == s.sessions;
  }

  /** One uninterrupted submit: the new row is appended, and nothing else but its building changes. */
  lemma Submitted(s: System, t: nat, id: string, building: Option<string>, d: Details, u: string)
    requires Fits(s, t, id, building, d, u)
    ensures var s' := Alone(s, t, id, building, d, u);
      && Reachable(FLAT, CFG, s') && s'.sessions == s.sessions && s'.now == s.now
      && s'.db == Transacted(s.db, s.now, Row(id, building, d, u, s.now))
      && s'.db.reports == s.db.reports + [Numbered(s.db, Row(id, building, d, u, s.now))]
      && s'.db.crises == s.db.crises && s'.db.devices == s.db.devices
      && (building.Some? ==> building.value in s'.db.buildings)
  {
    AloneReachable(s, t, id, building, d, u);
    AloneEnds(s, t, id, building, d, u);
    SubmittedTables(s.db, s.now, id, building, d, u);
  }

  lemma BeginDecided(s: System, t: nat, id: string, building: Option<string>, d: Details, u: string)
    requires InCrisisX(s.db) && id != "" && Ordinary(d) && t !in s.sessions
    requires Unhindered(s, t, Row(id, building, d, u, s.now))
    ensures Enabled(FLAT, s, Begin(t, Asked(id, building, d), Some(u)))
    ensures var s1 := Apply(FLAT, CFG, s, Begin(t, Asked(id, building, d), Some(u)));
      && t in s1.sessions && s1.db == s.db
      && s1.sessions[t] == Session(Guarding, Row(id, building, d, u, s.now), None, false, None)
      && Answerable(FLAT, s1.db, s1.sessions[t], Answers(Some("x")))
      && Unhindered(s1, t, s1.sessions[t].row)
  {
    AskedRow(id, building, d, u, s.now);
  }

  lemma NumberedInserts(db: Tables, r: Report)
    requires r.id !in Ids(db.reports) && r.key !in Keys(db.reports) && r.supersedes == None
    requires r.building != Some("") && (r.crisis.Some? ==> r.crisis.value in db.crises)
    ensures InsertOutcomeOf(db, Numbered(db, r)) == Inserted && Inserts(db, r)
  {
    if HasBuilding(r) {
      NewestMember(OfBuilding(db.reports, r.building.value));
      OfBuildingMembers(db.reports, r.building.value);
    }
  }

  /** One statement of session `t`, with everyone else standing still. */
  lemma Stepped(s: System, t: nat, crisis: Option<string>)
    requires Reachable(FLAT, CFG, s) && t in s.sessions
    requires Answerable(FLAT, s.db, s.sessions[t], Answers(crisis)) && Unhindered(s, t, s.sessions[t].row)
    ensures var x := s.sessions[t];
      var e := NextEvent(t, x.phase, Answers(crisis));
      var s' := Apply(FLAT, CFG, s, e);
      && Reachable(FLAT, CFG, s')
      && s' == Solo(s, DbAfter(FLAT, CFG, s, e), t, Acted(FLAT, CFG, s, e, x))
      && s'.sessions - {t} == s.sessions - {t}
  {
    FreeEnabled(FLAT, s, t, Answers(crisis));
    ReachStep(FLAT, CFG, s, NextEvent(t, s.sessions[t].phase, Answers(crisis)));
    SoloStep(FLAT, CFG, s, t, Answers(crisis));
  }

  // ---- a link into another building -----------------------------------------------

  /** Session 1 is the only one in flight, about to run the statement of phase `p`, and has written nothing. */
  ghost predicate Alive(s: System, r: Report, p: Phase, db: Tables, now: Time) {
    && Reachable(FLAT, CFG, s) && s.db == db && s.now == now && s.sessions.Keys == {1}
    && s.sessions[1].phase == p && s.sessions[1].row == r && !s.sessions[1].inserted && s.sessions[1].damage == None
  }

  lemma Starts(s: System, id: string, building: Option<string>, d: Details, u: string) returns (s': System)
    requires Reachable(FLAT, CFG, s) && s.sessions == map[] && InCrisisX(s.db)
    requires id != "" && u != "" && Ordinary(d)
    ensures Alive(s', Row(id, building, d, u, s.now), Guarding, s.db, s.now)
  {
    AskedRow(id, building, d, u, s.now);
    BeginDecided(s, 1, id, building, d, u);
    ReachStep(FLAT, CFG, s, Begin(1, Asked(id, building, d), Some(u)));
    s' := Apply(FLAT, CFG, s, Begin(1, Asked(id, building, d), Some(u)));
  }

  lemma PassesGuards(s: System, r: Report) returns (s': System)
    requires Alive(s, r, Guarding, s.db, s.now) && Admission(FLAT, s.db, s.now, r) == Pass
    requires r.crisis == Some("x") && InCrisisX(s.db)
    ensures Alive(s', r, Assigning, s.db, s.now)
  {
    Stepped(s, 1, Some("x"));
    s' := Apply(FLAT, CFG, s, Guard(1));
  }

  lemma IsAssigned(s: System, r: Report) returns (s': System)
    requires Alive(s, r, Assigning, s.db, s.now) && InCrisisX(s.db)
    requires r.crisis == Some("x") && r.admin == NO_ADMIN
    ensures Alive(s', r, Locking, s.db, s.now)
  {
    Stepped(s, 1, Some("x"));
    s' := Apply(FLAT, CFG, s, Assign(1, NO_ADMIN, Some("x")));
  }

  lemma TakesLock(s: System, r: Report) returns (s': System)
    requires Alive(s, r, Locking, s.db, s.now) && InCrisisX(s.db)
    requires HasBuilding(r) && r.building.value in s.db.buildings
    ensures Alive(s', r, Reading, s.db, s.now)
  {
    Stepped(s, 1, Some("x"));
    s' := Apply(FLAT, CFG, s, Lock(1));
  }

  lemma ReadsVersion(s: System, r: Report) returns (s': System)
    requires Alive(s, r, Reading, s.db, s.now) && InCrisisX(s.db) && HasBuilding(r)
    ensures Alive(s', Versioned(s.db.reports, r), Inserting, s.db, s.now)
  {
    Stepped(s, 1, Some("x"));
    s' := Apply(FLAT, CFG, s, Read(1));
  }

  /** A landmark report of a known building, submitted up to just before its insert. */
  lemma AboutToInsert(s: System, id: string, building: string, u: string, d: Details) returns (s': System)
    requires Reachable(FLAT, CFG, s) && s.sessions == map[] && InCrisisX(s.db) && Ordinary(d) && d.at == None
    requires id != "" && u != "" && building != "" && building in s.db.buildings && |s.db.reports| < 5
    ensures Alive(s', Versioned(s.db.reports, Row(id, Some(building), d, u, s.now)), Inserting, s.db, s.now)
  {
    var r := Row(id, Some(building), d, u, s.now);
    Admitted(FLAT, s.db, s.now, r);
    s' := Starts(s, id, Some(building), d, u);
    s' := PassesGuards(s', r);
    s' := IsAssigned(s', r);
    s' := TakesLock(s', r);
    s' := ReadsVersion(s', r);
  }

  /** Erasing a stored report while session 1 has written nothing. */
  lemma IsWithdrawn(s: System, r: Report, p: Phase, id: string, device: string)
    requires Alive(s, r, p, s.db, s.now)
    ensures Alive(Apply(FLAT, CFG, s, Withdraw(id, device)), r, p, AfterWithdraw(s.db, id, device), s.now)
  {
    ReachStep(FLAT, CFG, s, Withdraw(id, device));
  }

  lemma IsDismissed(s: System, r: Report, p: Phase)
    requires Alive(s, r, p, s.db, s.now)
    ensures Alive(Apply(FLAT, CFG, s, Status("x", Dismissed)), r, p, AfterStatus(s.db, "x", Dismissed), s.now)
  {
    ReachStep(FLAT, CFG, s, Status("x", Dismissed));
  }

  /** Session 1 runs on from its insert, and stores its row. */
  lemma Inserts1(s: System, r: Report) returns (s': System)
    requires Alive(s, r, Inserting, s.db, s.now) && InCrisisX(s.db)
    requires InsertOutcomeOf(s.db, r) == Inserted && r.crisis.Some?
    ensures s' == Drive(FLAT, CFG, s, 1, Answers(r.crisis))
    ensures Reachable(FLAT, CFG, s') && s'.sessions == map[]
    ensures s'.db.reports == s.db.reports + [r.(created := s.now)] && s'.db.crises == s.db.crises
  {
    DriveReachable(FLAT, CFG, s, 1, Answers(r.crisis));
    SoloInserting(FLAT, CFG, s, 1, Answers(r.crisis));
    s' := Drive(FLAT, CFG, s, 1, Answers(r.crisis));
    assert s.sessions - {1} == map[];
  }

  lemma TakesNoLock(s: System, r: Report) returns (s': System)
    requires Alive(s, r, Locking, s.db, s.now) && InCrisisX(s.db) && !HasBuilding(r)
    ensures Alive(s', r, Inserting, s.db, s.now)
  {
    Stepped(s, 1, Some("x"));
    s' := Apply(FLAT, CFG, s, Lock(1));
  }

  lemma SingleRow(r: Report, b: string)
    requires r.building == Some(b)
    ensures OfBuilding([r], b) == [r] && NewestId([r]) == Some(r.id)
    ensures Ids([r]) == {r.id} && Keys([r]) == {r.key} && Find([r], r.id) == Some(r)
  {
    assert Front([r]) == [] && Last([r]) == r;
    NewestMember([r]);
  }

  lemma EraseOnly(db: Tables, r: Report, device: string)
    requires db.reports == [r] && r.submitter.Some? && r.submitter.value in db.devices
    requires device == db.devices[r.submitter.value] && device != "" && r.supersedes == None
    ensures AfterWithdraw(db, r.id, device).reports == []
    ensures AfterWithdraw(db, r.id, device) == db.(reports := [], audit := AfterWithdraw(db, r.id, device).audit,
                                                   withdrawals := AfterWithdraw(db, r.id, device).withdrawals)
  {
    assert Front([r]) == [] && Last([r]) == r;
    EraseFront([r], r.id);
    assert Erase([], r.id) == [];
  }

  lemma FirstFits(id: string, building: Option<string>, d: Details, u: string)
    requires id != "" && u != "" && Ordinary(d) && building != Some("")
    ensures Fits(START, 0, id, building, d, u)
  {
    ReachInitial(FLAT, CFG, START);
  }

  /** The first report of all. */
  lemma FirstReport(id: string, building: Option<string>, d: Details, u: string) returns (s: System)
    requires id != "" && u != "" && Ordinary(d) && building != Some("")
    ensures Reachable(FLAT, CFG, s) && s.sessions == map[] && s.now == 0 && InCrisisX(s.db) && s.db.devices == START.db.devices
    ensures s.db.reports == [Row(id, building, d, u, 0)]
    ensures building.Some? ==> building.value in s.db.buildings
  {
    FirstFits(id, building, d, u);
    Submitted(START, 0, id, building, d, u);
    s := Alone(START, 0, id, building, d, u);
    FirstNumber(START.db, Row(id, building, d, u, 0));
  }

  lemma FirstNumber(db: Tables, r: Report)
    requires db.reports == [] && r.version == 1 && r.supersedes == None
    ensures db.reports + [Numbered(db, r)] == [r]
  {
    if HasBuilding(r) {
      NewestMember(OfBuilding([], r.building.value));
    }
  }

  /**
   A link can lead into another building.  Report "q" of building "b" is stored; a submit of "r" for "b" reads that it will
   supersede "q"; "q" is withdrawn and submitted again for building "c"; then "r" is inserted.
   */
  lemma LinkIntoAnotherBuilding() returns (s: System)
    ensures Reachable(FLAT, CFG, s) && |s.db.reports| == 2 && Supersedes(s.db.reports, 1, 0)
    ensures s.db.reports[0].building == Some("c") && s.db.reports[1].building == Some("b")
  {
    var s1 := FirstReport("q", Some("b"), PLAIN, "u");
    var q := Row("q", Some("b"), PLAIN, "u", 0);
    SingleRow(q, "b");
    var s2 := AboutToInsert(s1, "r", "b", "v", PLAIN);
    var r := Versioned([q], Row("r", Some("b"), PLAIN, "v", 0));
    IsWithdrawn(s2, r, Inserting, "q", "du");
    EraseOnly(s1.db, q, "du");
    s := ThenElsewhere(Apply(FLAT, CFG, s2, Withdraw("q", "du")), r);
  }

  lemma ThenElsewhere(s: System, r: Report) returns (s': System)
    requires Alive(s, r, Inserting, s.db, s.now) && InCrisisX(s.db) && s.db.reports == [] && s.db.devices == START.db.devices
    requires r.id == "r" && r.key == "idem-" + "r" && r.building == Some("b") && r.supersedes == Some("q") && r.crisis == Some("x")
    ensures Reachable(FLAT, CFG, s') && |s'.db.reports| == 2 && Supersedes(s'.db.reports, 1, 0)
    ensures s'.db.reports[0].building == Some("c") && s'.db.reports[1].building == Some("b")
  {
    AgainElsewhere(s, r);
    s' := Inserts1(Alone(s, 0, "q", Some("c"), PLAIN, "u"), r);
  }

  /** With session 1 waiting to insert a report of "b" that supersedes "q", "q" is submitted for "c". */
  lemma AgainElsewhere(s: System, r: Report)
    requires Alive(s, r, Inserting, s.db, s.now) && InCrisisX(s.db) && s.db.reports == [] && s.db.devices == START.db.devices
    requires r.id == "r" && r.key == "idem-" + "r" && r.building == Some("b") && r.supersedes == Some("q") && r.crisis == Some("x")
    ensures var s' := Alone(s, 0, "q", Some("c"), PLAIN, "u");
      && Alive(s', r, Inserting, s'.db, s.now) && InCrisisX(s'.db)
      && |s'.db.reports| == 1 && s'.db.reports[0].id == "q" && s'.db.reports[0].building == Some("c")
      && InsertOutcomeOf(s'.db, r) == Inserted
  {
    OtherBuildingFits(s, r);
    Submitted(s, 0, "q", Some("c"), PLAIN, "u");
    var s' := Alone(s, 0, "q", Some("c"), PLAIN, "u");
    FitsBehind(s'.db, s'.db.reports[0], r);
  }

  lemma OtherBuildingFits(s: System, r: Report)
    requires Alive(s, r, Inserting, s.db, s.now) && InCrisisX(s.db) && s.db.reports == [] && r.building == Some("b")
    ensures Fits(s, 0, "q", Some("c"), PLAIN, "u")
  {}

  lemma FitsBehind(db: Tables, q: Report, r: Report)
    requires db.reports == [q] && q.id == "q" && q.key == "idem-" + "q" && "x" in db.crises
    requires r.id == "r" && r.key == "idem-" + "r" && r.building == Some("b") && r.supersedes == Some("q") && r.crisis == Some("x")
    ensures InsertOutcomeOf(db, r) == Inserted
  {
    assert ("idem-" + "q")[5] == 'q' && ("idem-" + "r")[5] == 'r';
    assert Ids([q]) == {"q"} && Keys([q]) == {"idem-" + "q"};
  }

  lemma WaitsToInsert() returns (s: System)
    ensures Alive(s, Row("r", None, PLAIN, "u", 0), Inserting, START.db, 0)
  {
    ReachInitial(FLAT, CFG, START);
    var r := Row("r", None, PLAIN, "u", 0);
    Admitted(FLAT, START.db, 0, r);
    s := Starts(START, "r", None, PLAIN, "u");
    s := PassesGuards(s, r);
    s := IsAssigned(s, r);
    s := TakesNoLock(s, r);
  }

  /** A submit in flight stores its report in a crisis that is dismissed before its transaction begins. */
  lemma DismissedCrisisReceives() returns (s: System, s': System)
    ensures Reachable(FLAT, CFG, s) && "x" in s.db.crises && s.db.crises["x"].status == Active
    ensures Reachable(FLAT, CFG, s') && s'.sessions == map[] && "x" in s'.db.crises && s'.db.crises["x"].status == Dismissed
    ensures s' == Drive(FLAT, CFG, Apply(FLAT, CFG, s, Status("x", Dismissed)), 1, Answers(Some("x")))
    ensures exists r :: r in s'.db.reports && r.crisis == Some("x")
  {
    var r := Row("r", None, PLAIN, "u", 0);
    s := WaitsToInsert();
    IsDismissed(s, r, Inserting);
    var s1 := Apply(FLAT, CFG, s, Status("x", Dismissed));
    s' := Inserts1(s1, r);
    assert s'.db.reports[0].crisis == Some("x");
  }

  /**
   The guards are skipped for an id that is already stored, and not made up for when that report is gone by the time the
   row is inserted.  Device "dv" has stored "a", "du" has stored "b" at the same spot; "du" submits "a", which passes as a
   replay; "a" is withdrawn; then "a" is stored as a second pin of "du" on that spot, although "du" never had two submits
   in flight.
   */
  lemma ReplayGuardHole() returns (s: System, s': System)
    ensures Reachable(FLAT, CFG, s) && s.sessions == map[] && Apart(FLAT, s.db.reports, "u")
    ensures Reachable(FLAT, CFG, s') && s'.sessions == map[] && !Apart(FLAT, s'.db.reports, "u")
    ensures exists s1 :: Reachable(FLAT, CFG, s1) && s1.sessions.Keys == {1} && s1.db == s.db
                         && s' == Drive(FLAT, CFG, Apply(FLAT, CFG, s1, Withdraw("a", "dv")), 1, Answers(Some("x")))
  {
    s := TwoPins();
    s' := StoresBehind(s);
  }

  lemma TwoPins() returns (s: System)
    ensures Reachable(FLAT, CFG, s) && s.sessions == map[] && s.now == 0 && InCrisisX(s.db) && s.db.devices == START.db.devices
    ensures s.db.reports == [Row("a", None, PIN, "v", 0), Row("b", None, PIN, "u", 0)]
    ensures Apart(FLAT, s.db.reports, "u")
  {
    var s0 := FirstReport("a", None, PIN, "v");
    SecondPinFits(s0);
    Submitted(s0, 0, "b", None, PIN, "u");
    s := Alone(s0, 0, "b", None, PIN, "u");
  }

  lemma SecondPinFits(s: System)
    requires Reachable(FLAT, CFG, s) && s.sessions == map[] && InCrisisX(s.db)
    requires s.db.reports == [Row("a", None, PIN, "v", 0)]
    ensures Fits(s, 0, "b", None, PIN, "u")
  {
    assert ("idem-" + "a")[5] == 'a' && ("idem-" + "b")[5] == 'b';
  }

  lemma EraseFirst(db: Tables, a: Report, b: Report, device: string)
    requires db.reports == [a, b] && a.id != b.id && a.submitter.Some? && a.submitter.value in db.devices
    requires device == db.devices[a.submitter.value] && device != "" && b.supersedes == None
    ensures AfterWithdraw(db, a.id, device).reports == [b] && AfterWithdraw(db, a.id, device).crises == db.crises
  {
    assert Front([a, b]) == [a] && Last([a, b]) == b;
    assert Front([a]) == [] && Last([a]) == a;
    assert Find([a], a.id) == Some(a) && Find([a, b], a.id) == Some(a);
    EraseFront([a, b], a.id);
    EraseFront([a], a.id);
    assert Erase([], a.id) == [];
  }

  /** "du" submits "a" while it is stored, and waits to insert it. */
  lemma SkipsGuards(s: System) returns (s1: System)
    requires Reachable(FLAT, CFG, s) && s.sessions == map[] && s.now == 0 && InCrisisX(s.db)
    requires "a" in Ids(s.db.reports)
    ensures Alive(s1, Row("a", None, PIN, "u", 0), Inserting, s.db, 0)
  {
    var r := Row("a", None, PIN, "u", 0);
    s1 := Starts(s, "a", None, PIN, "u");
    s1 := PassesGuards(s1, r);
    s1 := IsAssigned(s1, r);
    s1 := TakesNoLock(s1, r);
  }

  lemma StoresBehind(s: System) returns (s': System)
    requires Reachable(FLAT, CFG, s) && s.sessions == map[] && s.now == 0 && InCrisisX(s.db) && s.db.devices == START.db.devices
    requires s.db.reports == [Row("a", None, PIN, "v", 0), Row("b", None, PIN, "u", 0)]
    ensures Reachable(FLAT, CFG, s') && s'.sessions == map[] && !Apart(FLAT, s'.db.reports, "u")
    ensures exists s1 :: Reachable(FLAT, CFG, s1) && s1.sessions.Keys == {1} && s1.db == s.db
                         && s' == Drive(FLAT, CFG, Apply(FLAT, CFG, s1, Withdraw("a", "dv")), 1, Answers(Some("x")))
  {
    var a, b, r := Row("a", None, PIN, "v", 0), Row("b", None, PIN, "u", 0), Row("a", None, PIN, "u", 0);
    assert a in s.db.reports;
    var s1 := SkipsGuards(s);
    IsWithdrawn(s1, r, Inserting, "a", "dv");
    EraseFirst(s.db, a, b, "dv");
    var s2 := Apply(FLAT, CFG, s1, Withdraw("a", "dv"));
    InsertsBehind(s2.db, b, r);
    s' := Inserts1(s2, r);
    assert s'.db.reports == [b, r];
    CloseTogether(b, r);
  }

  lemma InsertsBehind(db: Tables, b: Report, r: Report)
    requires db.reports == [b] && b.id == "b" && b.key == "idem-" + "b" && "x" in db.crises
    requires r.id == "a" && r.key == "idem-" + "a" && r.building == None && r.supersedes == None && r.crisis == Some("x")
    ensures InsertOutcomeOf(db, r) == Inserted
  {
    assert ("idem-" + "a")[5] == 'a' && ("idem-" + "b")[5] == 'b';
    assert Ids([b]) == {"b"} && Keys([b]) == {"idem-" + "b"};
  }

  lemma CloseTogether(b: Report, r: Report)
    requires Guardable(b, "u") && Guardable(r, "u") && b.captured == r.captured
    ensures !Apart(FLAT, [b, r], "u")
  {
    var s := [b, r];
    assert Guardable(s[0], "u") && Guardable(s[1], "u");
  }

  // ---- two detectors ----------------------------------------------------------------------

  /** Two submitters are enough, and there is no crisis yet. */
  const PAIR := Emergent(2.0, 24, 2)
  const BLANK := System(Tables([], map[], map[], [], [], map[]), map[], 0)

  function PinAsked(id: string): Request {
    Asked(id, None, PIN).(crisis := "")
  }

  function PinRow(id: string, u: string): Report {
    Row(id, None, PIN, u, 0).(crisis := None)
  }

  function PinSession(id: string, u: string, phase: Phase): Session {
    Session(phase, PinRow(id, u), if phase == Guarding then None else Some(0), phase == Committing || phase.Gating? || phase.Pulling?,
            None)
  }

  lemma PinValid(id: string, u: string)
    requires id != ""
    ensures Normalize(PinAsked(id), Some(u), 0) == PinRow(id, u) && Validate(PinRow(id, u))
  {
    assert DAMAGE_TIERS[0] == "minimal" && DEBRIS_STATES[2] == "unsure";
    assert INFRA_TYPES[0] == "residential" && NATURES[1] == "flood";
  }

  lemma ActsAlone(s: System, t: nat, e: Event)
    requires Reachable(FLAT, PAIR, s) && Actor(e) == Some(t) && !e.Begin? && Enabled(FLAT, s, e)
    ensures var y := Acted(FLAT, PAIR, s, e, s.sessions[t]);
      var s' := System(DbAfter(FLAT, PAIR, s, e), if y.Some? then s.sessions[t := y.value] else s.sessions - {t}, s.now);
      Apply(FLAT, PAIR, s, e) == s' && Reachable(FLAT, PAIR, s')
  {
    ReachStep(FLAT, PAIR, s, e);
  }

  /** Session `t` is about to run the statement of phase `p` on a pin of `u`, with `rows` stored and `others` in flight. */
  ghost predicate Pinning(s: System, t: nat, id: string, u: string, p: Phase, rows: seq<Report>, others: map<nat, Session>) {
    && Reachable(FLAT, PAIR, s) && t !in others && s == System(BLANK.db.(reports := rows), others[t := PinSession(id, u, p)], 0)
    && id != "" && u != "" && id !in Ids(rows) && "idem-" + id !in Keys(rows) && |rows| < 5
    && (forall o :: o in rows ==> o.submitter != Some(u)) && forall v :: v in others ==> !HasPendingRow(others[v])
  }

  lemma PinBegins(s: System, t: nat, id: string, u: string) returns (s': System)
    requires Reachable(FLAT, PAIR, s) && t !in s.sessions && s == System(BLANK.db.(reports := s.db.reports), s.sessions, 0)
    requires id != "" && u != "" && id !in Ids(s.db.reports) && "idem-" + id !in Keys(s.db.reports) && |s.db.reports| < 5
    requires forall o :: o in s.db.reports ==> o.submitter != Some(u)
    requires forall v :: v in s.sessions ==> !HasPendingRow(s.sessions[v])
    ensures Pinning(s', t, id, u, Guarding, s.db.reports, s.sessions)
  {
    PinValid(id, u);
    ReachStep(FLAT, PAIR, s, Begin(t, PinAsked(id), Some(u)));
    s' := Apply(FLAT, PAIR, s, Begin(t, PinAsked(id), Some(u)));
  }

  lemma PinGuarded(s: System, t: nat, id: string, u: string, rows: seq<Report>, others: map<nat, Session>) returns (s': System)
    requires Pinning(s, t, id, u, Guarding, rows, others)
    ensures Pinning(s', t, id, u, Assigning, rows, others)
  {
    Admitted(FLAT, s.db, 0, PinRow(id, u));
    ActsAlone(s, t, Guard(t));
    s' := Apply(FLAT, PAIR, s, Guard(t));
  }

  lemma PinAssigned(s: System, t: nat, id: string, u: string, rows: seq<Report>, others: map<nat, Session>) returns (s': System)
    requires Pinning(s, t, id, u, Assigning, rows, others)
    ensures Pinning(s', t, id, u, Locking, rows, others)
  {
    ActsAlone(s, t, Assign(t, NO_ADMIN, None));
    s' := Apply(FLAT, PAIR, s, Assign(t, NO_ADMIN, None));
  }

  lemma PinLocked(s: System, t: nat, id: string, u: string, rows: seq<Report>, others: map<nat, Session>) returns (s': System)
    requires Pinning(s, t, id, u, Locking, rows, others)
    ensures Pinning(s', t, id, u, Inserting, rows, others)
  {
    ActsAlone(s, t, Lock(t));
    s' := Apply(FLAT, PAIR, s, Lock(t));
  }

  lemma PinInserted(s: System, t: nat, id: string, u: string, rows: seq<Report>, others: map<nat, Session>) returns (s': System)
    requires Pinning(s, t, id, u, Inserting, rows, others)
    ensures Pinning(s', t, id, u, Committing, rows, others)
  {
    ActsAlone(s, t, Insert(t));
    s' := Apply(FLAT, PAIR, s, Insert(t));
  }

  lemma PinCommitted(s: System, t: nat, id: string, u: string, rows: seq<Report>, others: map<nat, Session>) returns (s': System)
    requires Pinning(s, t, id, u, Committing, rows, others)
    ensures Reachable(FLAT, PAIR, s')
    ensures s' == System(BLANK.db.(reports := rows + [PinRow(id, u)]), others[t := PinSession(id, u, Gating)], 0)
  {
    ActsAlone(s, t, Commit(t));
    s' := Apply(FLAT, PAIR, s, Commit(t));
  }

  lemma PinStored(s: System, t: nat, id: string, u: string) returns (s': System)
    requires Reachable(FLAT, PAIR, s) && t !in s.sessions && s == System(BLANK.db.(reports := s.db.reports), s.sessions, 0)
    requires id != "" && u != "" && id !in Ids(s.db.reports) && "idem-" + id !in Keys(s.db.reports) && |s.db.reports| < 5
    requires forall o :: o in s.db.reports ==> o.submitter != Some(u)
    requires forall v :: v in s.sessions ==> !HasPendingRow(s.sessions[v])
    ensures Reachable(FLAT, PAIR, s')
    ensures s' == System(BLANK.db.(reports := s.db.reports + [PinRow(id, u)]), s.sessions[t := PinSession(id, u, Gating)], 0)
  {
    s' := PinBegins(s, t, id, u);
    s' := PinGuarded(s', t, id, u, s.db.reports, s.sessions);
    s' := PinAssigned(s', t, id, u, s.db.reports, s.sessions);
    s' := PinLocked(s', t, id, u, s.db.reports, s.sessions);
    s' := PinInserted(s', t, id, u, s.db.reports, s.sessions);
    s' := PinCommitted(s', t, id, u, s.db.reports, s.sessions);
  }

  /** Two pins of different submitters on one spot are stored, and both are about to look for a cluster. */
  lemma BothStored() returns (s: System)
    ensures Reachable(FLAT, PAIR, s) && s.db == BLANK.db.(reports := [PinRow("a", "u"), PinRow("b", "v")])
    ensures s.sessions == map[0 := PinSession("a", "u", Gating), 1 := PinSession("b", "v", Gating)]
  {
    ReachInitial(FLAT, PAIR, BLANK);
    var s1 := PinStored(BLANK, 0, "a", "u");
    assert ("idem-" + "a")[5] == 'a' && ("idem-" + "b")[5] == 'b';
    s := PinStored(s1, 1, "b", "v");
  }

  lemma BothClustered(rows: seq<Report>)
    requires rows == [PinRow("a", "u"), PinRow("b", "v")]
    ensures ClusterOf(PAIR, PinRow("a", "u")) == ClusterOf(PAIR, PinRow("b", "v"))
    ensures GateOpens(FLAT, PAIR, rows, ClusterOf(PAIR, PinRow("a", "u")))
  {
    var q := ClusterOf(PAIR, PinRow("a", "u"));
    assert rows[0] in rows && rows[1] in rows;
    assert InCluster(FLAT, q, rows[0]) && InCluster(FLAT, q, rows[1]);
    assert {"u", "v"} <= Submitters(FLAT, rows, q);
    assert |{"u", "v"}| == 2;
    CardinalityGrows({"u", "v"}, Submitters(FLAT, rows, q));
  }

  lemma CardinalityGrows(a: set<string>, b: set<string>)
    requires a <= b
    ensures |a| <= |b|
  {
    assert b == a + (b - a);
  }

  lemma BothGated() returns (s: System)
    ensures Reachable(FLAT, PAIR, s) && s.db == BLANK.db.(reports := [PinRow("a", "u"), PinRow("b", "v")])
    ensures s.sessions == map[0 := PinSession("a", "u", Pulling), 1 := PinSession("b", "v", Pulling)]
  {
    var s0 := BothStored();
    BothClustered(s0.db.reports);
    ActsAlone(s0, 0, Gate(0));
    var s1 := Apply(FLAT, PAIR, s0, Gate(0));
    ActsAlone(s1, 1, Gate(1));
    s := Apply(FLAT, PAIR, s1, Gate(1));
  }

  lemma FirstPulls() returns (s: System)
    ensures Reachable(FLAT, PAIR, s) && s.sessions == map[1 := PinSession("b", "v", Pulling)]
    ensures s.db.crises.Keys == {"e1"} && forall r :: r in s.db.reports ==> r.crisis == Some("e1")
  {
    var s0 := BothGated();
    BothClustered(s0.db.reports);
    ActsAlone(s0, 0, Pull(0, "e1", ORIGIN, 0));
    s := Apply(FLAT, PAIR, s0, Pull(0, "e1", ORIGIN, 0));
  }

  /**
   A proposed crisis without a report: two submits complete a cluster of two, both pass the gate before either pulls in,
   and whichever comes second proposes a crisis of its own for nothing.
   */
  lemma EmptyProposal() returns (s: System)
    ensures Reachable(FLAT, PAIR, s) && s.sessions == map[]
    ensures "e2" in s.db.crises && s.db.crises["e2"].status == Proposed && s.db.crises["e2"].emergent
    ensures forall r :: r in s.db.reports ==> r.crisis == Some("e1")
  {
    var s1 := FirstPulls();
    ActsAlone(s1, 1, Pull(1, "e2", ORIGIN, 0));
    s := Apply(FLAT, PAIR, s1, Pull(1, "e2", ORIGIN, 0));
  }
}
