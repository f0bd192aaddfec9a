/** Reachable states after erasures: a version number in use twice, and two ways to an outdated damage. */
module ErasureRuns {
  import opened Basics
  import opened Tables
  import opened Sessions
  import opened Rows
  import opened Chains
  import opened Atomic
  import opened Damage
  import opened Counterexamples

  const FIRST := Details(None, "partial", 1)
  const SECOND := Details(None, "minimal", 2)
  const EARLIER := Details(None, "complete", 0)

  const B := Some("b")

  function RowP(): Report {
    Row("p", B, FIRST, "u", 0)
  }

  /** "q" as it is stored behind "p" in building "b". */
  function RowQ(): Report {
    Row("q", B, SECOND, "v", 0).(version := 2, supersedes := Some("p"))
  }

  lemma KeysDiffer()
    ensures "idem-" + "p" != "idem-" + "q" && "idem-" + "p" != "idem-" + "r" && "idem-" + "q" != "idem-" + "r"
  {
    assert ("idem-" + "p")[5] == 'p' && ("idem-" + "q")[5] == 'q' && ("idem-" + "r")[5] == 'r';
  }

  lemma Pair(a: Report, b: Report)
    ensures Front([a, b]) == [a] && Last([a, b]) == b && Front([a]) == [] && Last([a]) == a
    ensures Ids([a, b]) == {a.id, b.id} && Keys([a, b]) == {a.key, b.key}
    ensures a.id != b.id ==> Find([a, b], a.id) == Some(a) && Find([a, b], b.id) == Some(b)
  {
    assert Find([a], a.id) == Some(a);
  }

  /** The two rows of one building, in the order they were stored. */
  lemma PairOf(a: Report, b: Report, building: string)
    requires a.building == Some(building) && b.building == Some(building)
    ensures OfBuilding([a, b], building) == [a, b] && Newest([a, b]) == Some(if Newer(b, a) then b else a)
  {
    Pair(a, b);
    SingleRow(a, building);
    assert Newest([a]) == Some(a);
  }

  /** Report "p" of building "b", and after it "q", captured later. */
  lemma TwoStored() returns (s: System)
    ensures Reachable(FLAT, CFG, s) && s.sessions == map[] && s.now == 0 && InCrisisX(s.db) && s.db.devices == START.db.devices
    ensures s.db.reports == [RowP(), RowQ()]
    ensures "b" in s.db.buildings && s.db.buildings["b"].damage == Some("minimal")
  {
    var s0 := FirstReport("p", B, FIRST, "u");
    KeysDiffer();
    SingleRow(RowP(), "b");
    Submitted(s0, 0, "q", B, SECOND, "v");
    s := Counterexamples.Alone(s0, 0, "q", B, SECOND, "v");
    PairOf(RowP(), RowQ(), "b");
  }

  lemma ErasePair(a: Report, b: Report)
    requires a.id != b.id && a.supersedes == None
    ensures Erase([a, b], b.id) == [a]
    ensures Erase([a, b], a.id) == [if b.supersedes == Some(a.id) then b.(supersedes := None) else b]
  {
    Pair(a, b);
    EraseFront([a, b], b.id);
    EraseFront([a], b.id);
    EraseFront([a, b], a.id);
    EraseFront([a], a.id);
    assert Erase([], a.id) == [] && Erase([], b.id) == [];
    assert Unlink([a, b], a.id)[1] == if b.supersedes == Some(a.id) then b.(supersedes := None) else b;
  }

  /** A building with one report and the damage of another has an outdated cache. */
  lemma OtherDamage(s: System, r: Report)
    requires OfBuilding(s.db.reports, "b") == [r]
    requires "b" in s.db.buildings && s.db.buildings["b"].damage != Some(r.damage)
    ensures !DamageCurrent(s, "b")
  {
    assert Front([r]) == [] && Last([r]) == r;
    assert Newest([r]) == Some(r);
  }

  /** The owner of a stored report withdraws it. */
  lemma Withdrawn(s: System, r: Report, device: string)
    requires Reachable(FLAT, CFG, s) && WithdrawFree(s, r.id) && Find(s.db.reports, r.id) == Some(r)
    requires r.submitter.Some? && r.submitter.value in s.db.devices && device == s.db.devices[r.submitter.value] && device != ""
    ensures var s' := Apply(FLAT, CFG, s, Withdraw(r.id, device));
      && Reachable(FLAT, CFG, s') && s'.sessions == s.sessions && s'.now == s.now
      && s'.db.reports == Erase(s.db.reports, r.id)
      && s'.db == s.db.(reports := s'.db.reports, audit := s'.db.audit, withdrawals := s'.db.withdrawals)
      && ErasedBuilding(s, Withdraw(r.id, device)) == r.building
  {
    ReachStep(FLAT, CFG, s, Withdraw(r.id, device));
  }

  lemma QErased(s: System) returns (s': System)
    requires Reachable(FLAT, CFG, s) && s.sessions == map[] && s.db.reports == [RowP(), RowQ()] && s.db.devices == START.db.devices
    ensures Reachable(FLAT, CFG, s') && s' == Apply(FLAT, CFG, s, Withdraw("q", "dv"))
    ensures s'.db.reports == [RowP()] && s'.db.buildings == s.db.buildings
  {
    Pair(RowP(), RowQ());
    ErasePair(RowP(), RowQ());
    Withdrawn(s, RowQ(), "dv");
    s' := Apply(FLAT, CFG, s, Withdraw("q", "dv"));
  }

  lemma PErased(s: System) returns (s': System)
    requires Reachable(FLAT, CFG, s) && s.sessions == map[] && InCrisisX(s.db) && s.db.reports == [RowP(), RowQ()]
    requires s.db.devices == START.db.devices
    ensures Reachable(FLAT, CFG, s') && s'.sessions == map[] && s'.now == s.now && InCrisisX(s'.db)
    ensures s'.db.reports == [RowQ().(supersedes := None)]
  {
    Pair(RowP(), RowQ());
    ErasePair(RowP(), RowQ());
    Withdrawn(s, RowP(), "du");
    s' := Apply(FLAT, CFG, s, Withdraw("p", "du"));
  }

  /** Two reports of one building with the same number: "p" is 1 and "q" is 2; "p" is withdrawn; "r" is numbered 2 again. */
  lemma NumberTwice() returns (s: System)
    ensures Reachable(FLAT, CFG, s) && |s.db.reports| == 2
    ensures s.db.reports[0].building == s.db.reports[1].building == B
    ensures s.db.reports[0].version == s.db.reports[1].version == 2
  {
    var s0 := TwoStored();
    var s1 := PErased(s0);
    var q := RowQ().(supersedes := None);
    KeysDiffer();
    SingleRow(q, "b");
    Submitted(s1, 0, "r", B, PLAIN, "u");
    s := Counterexamples.Alone(s1, 0, "r", B, PLAIN, "u");
  }

  /** An erasure that leaves the cache wrong: "q", the newest of "b", is withdrawn, and its damage stays. */
  lemma DamageOfErased() returns (s: System, s': System)
    ensures Reachable(FLAT, CFG, s) && Reachable(FLAT, CFG, s') && s' == Apply(FLAT, CFG, s, Withdraw("q", "dv"))
    ensures DamageCurrent(s, "b") && !DamageCurrent(s', "b")
  {
    s := TwoStored();
    Pair(RowP(), RowQ());
    PairOf(RowP(), RowQ(), "b");
    s' := QErased(s);
    SingleRow(RowP(), "b");
    OtherDamage(s', RowP());
  }

  // ---- a commit of an outdated damage ------------------------------------------------------

  /** "r" of building "b", captured before both, which has read that it will supersede "q". */
  function RowR(): Report {
    Row("r", B, EARLIER, "u", 0).(version := 3, supersedes := Some("q"))
  }

  /** "q" as it is stored again, now for building "c". */
  function AgainQ(): Report {
    Row("q", Some("c"), SECOND, "v", 0)
  }

  /** "r" is about to be inserted in "b", "p" is stored there, and "q", which "r" supersedes, has moved to "c". */
  lemma TargetMoved() returns (s: System)
    ensures Alive(s, RowR(), Inserting, s.db, 0) && InCrisisX(s.db) && s.db.devices == START.db.devices
    ensures s.db.reports == [RowP(), AgainQ()] && "b" in s.db.buildings
  {
    var s0 := TwoStored();
    var s1 := RReads(s0);
    var s2 := QGone(s1);
    s := QAgain(s2);
  }

  lemma QAgain(s: System) returns (s': System)
    requires Alive(s, RowR(), Inserting, s.db, 0) && InCrisisX(s.db) && s.db.devices == START.db.devices
    requires s.db.reports == [RowP()] && "b" in s.db.buildings
    ensures Alive(s', RowR(), Inserting, s'.db, 0) && InCrisisX(s'.db) && s'.db.devices == s.db.devices
    ensures s'.db.reports == [RowP(), AgainQ()] && "b" in s'.db.buildings
  {
    QFits(s);
    Submitted(s, 0, "q", Some("c"), SECOND, "v");
    s' := Counterexamples.Alone(s, 0, "q", Some("c"), SECOND, "v");
    AgainNumbered(s.db);
    StillThere(s.db, AgainQ(), 0);
  }

  lemma AgainNumbered(db: Tables)
    requires db.reports == [RowP()]
    ensures Numbered(db, AgainQ()) == AgainQ() && db.reports + [AgainQ()] == [RowP(), AgainQ()]
  {
    NothingOf(RowP(), "c");
  }

  lemma QFits(s: System)
    requires Alive(s, RowR(), Inserting, s.db, 0) && InCrisisX(s.db) && s.db.reports == [RowP()]
    ensures Fits(s, 0, "q", Some("c"), SECOND, "v")
  {
    KeysDiffer();
    SingleRow(RowP(), "b");
  }

  lemma StillThere(db: Tables, r: Report, now: Time)
    ensures db.buildings.Keys <= Transacted(db, now, r).buildings.Keys
  {}

  lemma RReads(s: System) returns (s': System)
    requires Reachable(FLAT, CFG, s) && s.sessions == map[] && s.now == 0 && InCrisisX(s.db) && s.db.reports == [RowP(), RowQ()]
    requires "b" in s.db.buildings
    ensures Alive(s', RowR(), Inserting, s.db, 0)
  {
    PairOf(RowP(), RowQ(), "b");
    s' := AboutToInsert(s, "r", "b", "u", EARLIER);
  }

  lemma QGone(s: System) returns (s': System)
    requires Alive(s, RowR(), Inserting, s.db, 0) && InCrisisX(s.db) && s.db.reports == [RowP(), RowQ()]
    requires s.db.devices == START.db.devices
    ensures Alive(s', RowR(), Inserting, s'.db, 0) && InCrisisX(s'.db)
    ensures s'.db.reports == [RowP()] && s'.db.buildings == s.db.buildings && s'.db.devices == s.db.devices
  {
    Pair(RowP(), RowQ());
    ErasePair(RowP(), RowQ());
    Withdrawn(s, RowQ(), "dv");
    s' := Apply(FLAT, CFG, s, Withdraw("q", "dv"));
  }

  lemma NothingOf(r: Report, b: string)
    requires r.building != Some(b)
    ensures OfBuilding([r], b) == [] && NewestId(OfBuilding([r], b)) == None
  {
    assert Front([r]) == [] && Last([r]) == r;
  }

  /** "r" is inserted, and its refresh finds "p" the newest of "b". */
  lemma RRefreshed() returns (s: System)
    ensures Reachable(FLAT, CFG, s) && s.sessions.Keys == {1} && s.db.reports == [RowP(), AgainQ()]
    ensures InCrisisX(s.db) && s.db.devices == START.db.devices && "b" in s.db.buildings
    ensures var x := s.sessions[1]; x.phase == Committing && x.row == RowR() && x.inserted && x.damage == Some("partial")
  {
    var s0 := TargetMoved();
    var s1 := RInserted(s0);
    Stepped(s1, 1, Some("x"));
    RefreshFinds();
    s := Apply(FLAT, CFG, s1, Refresh(1));
  }

  lemma RInserted(s: System) returns (s': System)
    requires Alive(s, RowR(), Inserting, s.db, 0) && InCrisisX(s.db) && s.db.reports == [RowP(), AgainQ()]
    ensures Reachable(FLAT, CFG, s') && s'.sessions.Keys == {1} && s'.db == s.db
    ensures var x := s'.sessions[1]; x.phase == Refreshing && x.row == RowR() && x.inserted
  {
    Pair(RowP(), AgainQ());
    KeysDiffer();
    Stepped(s, 1, Some("x"));
    s' := Apply(FLAT, CFG, s, Insert(1));
  }

  lemma RefreshFinds()
    ensures NewestDamage(OfBuilding([RowP(), AgainQ()] + [RowR()], "b")) == Some("partial")
  {
    var c := OfBuilding([RowP(), AgainQ()], "b");
    Pair(RowP(), AgainQ());
    SingleRow(RowP(), "b");
    assert c == [RowP()];
    OfBuildingAppend([RowP(), AgainQ()], RowR(), "b");
    PairOf(RowP(), RowR(), "b");
    assert [RowP()] + [RowR()] == [RowP(), RowR()];
  }

  /**
   A commit of an outdated damage.  "p" and then "q" are stored for "b"; a submit of "r", captured before both, reads that it
   will supersede "q"; "q" is withdrawn and submitted again for "c"; "r" is inserted and refreshes to the damage of "p"; "p" is
   withdrawn; "r" commits the damage of "p", although it is now the only report of "b".
   */
  lemma OutdatedCommit() returns (s: System, s': System)
    ensures Reachable(FLAT, CFG, s) && Reachable(FLAT, CFG, s') && s' == Apply(FLAT, CFG, s, Commit(1))
    ensures StoresIn(s, Commit(1), "b") && s'.sessions == map[] && !DamageCurrent(s', "b")
  {
    var s0 := RRefreshed();
    s := PGone(s0);
    Stepped(s, 1, Some("x"));
    s' := Apply(FLAT, CFG, s, Commit(1));
    NothingOf(AgainQ(), "b");
    OfBuildingAppend([AgainQ()], RowR(), "b");
    OtherDamage(s', RowR());
  }

  lemma PGone(s: System) returns (s': System)
    requires Reachable(FLAT, CFG, s) && s.sessions.Keys == {1} && s.db.reports == [RowP(), AgainQ()]
    requires s.db.devices == START.db.devices && HasPendingRow(s.sessions[1]) && s.sessions[1].row == RowR()
    ensures Reachable(FLAT, CFG, s') && s'.sessions == s.sessions && s'.db.reports == [AgainQ()]
    ensures s'.db.crises == s.db.crises && s'.db.buildings == s.db.buildings
  {
    Pair(RowP(), AgainQ());
    ErasePair(RowP(), AgainQ());
    Withdrawn(s, RowP(), "du");
    s' := Apply(FLAT, CFG, s, Withdraw("p", "du"));
  }
}
