/** Every submit that can still store in a dismissed crisis does so in some continuation, which is built here. */
module Arrivals {
  import opened Basics
  import opened Tables
  import opened Intake
  import opened Sessions
  import opened Rows
  import opened Safety
  import opened Chains
  import opened Histories
  import opened Limits
  import opened Atomic
  import opened Dismissal

  ghost function Unpinned(c: string): Event -> bool {
    e => !Reopens(e, c) && !Pins(e, c)
  }

  ghost predicate Attached(s: System, c: string) {
    exists r :: r in s.db.reports && r.crisis == Some(c)
  }

  /** In some continuation without a reopening and without a submit that names it, a report is stored in crisis `c`. */
  ghost predicate CanArrive(w: World, cfg: Emergent, s: System, c: string) {
    exists s' :: Leads(w, cfg, Unpinned(c), s, s') && Attached(s', c)
  }

  // ---- fresh names -----------------------------------------------------------------------

  lemma {:induction false} Bound(names: set<string>) returns (n: nat)
    ensures forall x :: x in names ==> |x| < n
    decreases names
  {
    if names == {} {
      n := 0;
    } else {
      var x :| x in names;
      var m := Bound(names - {x});
      n := if m > |x| then m else |x| + 1;
    }
  }

  lemma Fresh(names: set<string>) returns (name: string)
    ensures name !in names && name != ""
  {
    var n := Bound(names);
    name := seq(n + 1, _ => 'k');
  }

  // ---- one submit left -------------------------------------------------------------------

  /** Session `t` is the only one in flight, it is `x` and has written nothing, and nothing on the way from `s0` was out of bounds. */
  ghost predicate Lone(w: World, cfg: Emergent, c: string, s0: System, s: System, t: nat, x: Session) {
    && Reachable(w, cfg, s0) && Leads(w, cfg, Unpinned(c), s0, s)
    && s.sessions.Keys == {t} && x == s.sessions[t] && !x.inserted && x.row.crisis == Some(c) && c in s.db.crises
  }

  lemma LoneFacts(w: World, cfg: Emergent, s0: System, s: System, c: string)
    requires Reachable(w, cfg, s0) && Leads(w, cfg, Unpinned(c), s0, s)
    ensures Good(s) && Timely(s) && Named(s)
  {
    ReachLeads(w, cfg, Unpinned(c), s0, s);
    var states, evs :| Run(w, cfg, states, evs) && Last(states) == s;
    AlwaysGood(w, cfg, states, evs, |evs|);
    AlwaysTimely(w, cfg, states, evs, |evs|);
    AlwaysNamed(w, cfg, states, evs, |evs|);
  }

  lemma AbortsOne(w: World, cfg: Emergent, s: System, u: nat)
    requires u in s.sessions
    ensures Enabled(w, s, Abort(u))
    ensures Apply(w, cfg, s, Abort(u)) == s.(sessions := s.sessions - {u}) && |s.sessions - {u}| < |s.sessions|
  {
    assert s.sessions.Keys == (s.sessions - {u}).Keys + {u};
  }

  lemma {:induction false} AbortsOthers(w: World, cfg: Emergent, c: string, s0: System, s: System, t: nat) returns (s': System)
    requires Leads(w, cfg, Unpinned(c), s0, s) && t in s.sessions
    ensures Leads(w, cfg, Unpinned(c), s0, s') && s'.sessions == map[t := s.sessions[t]] && s'.db == s.db
    decreases |s.sessions|
  {
    if u :| u in s.sessions && u != t {
      AbortsOne(w, cfg, s, u);
      LeadsStep(w, cfg, Unpinned(c), s0, s, Abort(u));
      s' := AbortsOthers(w, cfg, c, s0, s.(sessions := s.sessions - {u}), t);
    } else {
      s' := s;
    }
  }

  // ---- a row already inserted ------------------------------------------------------------

  lemma PendingArrives(w: World, cfg: Emergent, c: string, s0: System, s: System, t: nat)
    requires Leads(w, cfg, Unpinned(c), s0, s) && s.sessions.Keys == {t}
    requires var x := s.sessions[t];
      x.inserted && (x.phase == Refreshing || x.phase == Committing) && x.row.crisis == Some(c)
    ensures CanArrive(w, cfg, s0, c)
  {
    var x := s.sessions[t];
    var name := Fresh(s.db.crises.Keys);
    var o := Outside(NO_ADMIN, None, name, Point(0.0, 0.0), 0);
    LeadsDrive(w, cfg, Unpinned(c), s0, s, t, o);
    if x.phase == Refreshing {
      SoloRefreshing(w, cfg, s, t, o);
    } else {
      SoloCommitting(w, cfg, s, t, o);
    }
    var s' := Drive(w, cfg, s, t, o);
    assert s'.db.reports == s.db.reports + [x.row];
    assert Attached(s', c) by {
      assert x.row in s'.db.reports;
    }
  }

  // ---- clearing the way ------------------------------------------------------------------

  /** Everything stored is older than both rate windows. */
  ghost predicate Waited(s: System) {
    forall r :: r in s.db.reports ==> r.created < s.now - SUSTAINED_WINDOW
  }

  lemma Prepares(w: World, cfg: Emergent, c: string, s0: System, s: System, t: nat, x: Session) returns (s': System)
    requires Lone(w, cfg, c, s0, s, t, x)
    ensures Lone(w, cfg, c, s0, s', t, x) && Waited(s') && "" in s'.db.buildings
    ensures s'.db == s.db.(buildings := s'.db.buildings)
  {
    var e := Footprint("", None);
    LeadsStep(w, cfg, Unpinned(c), s0, s, e);
    var s1 := Apply(w, cfg, s, e);
    LoneFacts(w, cfg, s0, s1, c);
    LeadsStep(w, cfg, Unpinned(c), s0, s1, Tick(SUSTAINED_WINDOW + 1));
    s' := Apply(w, cfg, s1, Tick(SUSTAINED_WINDOW + 1));
  }

  lemma Withdraws(w: World, cfg: Emergent, c: string, s0: System, s: System, t: nat, x: Session, o: Report) returns (s': System)
    requires Lone(w, cfg, c, s0, s, t, x) && o in s.db.reports && Erasable(s.db, o)
    ensures Lone(w, cfg, c, s0, s', t, x)
    ensures s'.db.reports == Erase(s.db.reports, o.id)
    ensures s'.db == s.db.(reports := s'.db.reports, audit := s'.db.audit, withdrawals := s'.db.withdrawals)
  {
    LoneFacts(w, cfg, s0, s, c);
    FindUnique(s.db.reports, o);
    var e := Withdraw(o.id, s.db.devices[o.submitter.value]);
    LeadsStep(w, cfg, Unpinned(c), s0, s, e);
    s' := Apply(w, cfg, s, e);
  }

  lemma ErasedAway(db: Tables, db': Tables, o: Report, r: Report)
    requires Unique(db.reports) && o in db.reports && db'.devices == db.devices && db'.reports == Erase(db.reports, o.id)
    ensures o.id !in Ids(db'.reports) && o.key !in Keys(db'.reports)
    ensures Ids(db'.reports) <= Ids(db.reports) && Keys(db'.reports) <= Keys(db.reports)
    ensures Clearable(db, r) ==> Clearable(db', r)
  {
    IdsErase(db.reports, o.id);
    forall o' | o' in db'.reports
      ensures o'.key != o.key
      ensures Clearable(db, r) && (o'.id == r.id || o'.key == r.key) ==> Erasable(db', o')
    {
      EraseMembers(db.reports, o.id, o');
      var p :| p in db.reports && o' == (if p.supersedes == Some(o.id) then p.(supersedes := None) else p);
      var i :| 0 <= i < |db.reports| && db.reports[i] == o;
      var j :| 0 <= j < |db.reports| && db.reports[j] == p;
      assert i != j;
      assert Clearable(db, r) && (p.id == r.id || p.key == r.key) ==> Erasable(db, p);
    }
  }

  /** Whoever stands in the way of an id and a key withdraws. */
  lemma Clears(w: World, cfg: Emergent, c: string, s0: System, s: System, t: nat, x: Session) returns (s': System)
    requires Lone(w, cfg, c, s0, s, t, x) && Clearable(s.db, x.row)
    ensures Lone(w, cfg, c, s0, s', t, x) && x.row.id !in Ids(s'.db.reports) && x.row.key !in Keys(s'.db.reports)
    ensures s'.db.buildings == s.db.buildings && s'.db.crises == s.db.crises
  {
    s' := s;
    if x.row.id in Ids(s'.db.reports) {
      var o :| o in s'.db.reports && o.id == x.row.id;
      LoneFacts(w, cfg, s0, s', c);
      var s1 := Withdraws(w, cfg, c, s0, s', t, x, o);
      ErasedAway(s'.db, s1.db, o, x.row);
      s' := s1;
    }
    if x.row.key in Keys(s'.db.reports) {
      var o :| o in s'.db.reports && o.key == x.row.key;
      LoneFacts(w, cfg, s0, s', c);
      var s1 := Withdraws(w, cfg, c, s0, s', t, x, o);
      ErasedAway(s'.db, s1.db, o, x.row);
      s' := s1;
    }
  }

  // ---- storing a note about nowhere --------------------------------------------------------

  function Note(id: string, key: string): Request {
    Request(id, key, "", "minimal", "", ["residential"], [], ["flood"], [], None, None, None, None, None,
            None, None, Some("well"), "", Some(0), [])
  }

  function NoteRow(id: string, key: string, u: Option<string>, now: Time): Report {
    Report(id, key, None, u, "minimal", "unsure", Pending, ["residential"], ["flood"], None, None, "well", "", None, None,
           1, None, None, 0, now, NO_ADMIN, [])
  }

  lemma NoteIsValid(id: string, key: string, u: Option<string>, now: Time)
    requires id != "" && key != ""
    ensures Normalize(Note(id, key), u, now) == NoteRow(id, key, u, now) && Validate(NoteRow(id, key, u, now))
  {
    assert DAMAGE_TIERS[0] == "minimal" && DEBRIS_STATES[2] == "unsure";
    assert INFRA_TYPES[0] == "residential" && NATURES[1] == "flood";
  }

  lemma {:induction false} NothingRecent(s: seq<Report>, u: string, since: Time)
    requires forall r :: r in s ==> r.created < since
    ensures CountRecent(s, u, since) == 0
  {
    if s != [] {
      assert s == Front(s) + [Last(s)];
      NothingRecent(Front(s), u, since);
    }
  }

  /** After the wait only a near-duplicate can make the guards object. */
  lemma WaitedPasses(w: World, s: System, u: string, r: Report)
    requires Waited(s)
    ensures Guards(w, s.db.reports, u, r, s.now) == Pass <==> NoDuplicate(w, s.db.reports, u, r)
  {
    NothingRecent(s.db.reports, u, s.now - BURST_WINDOW);
    NothingRecent(s.db.reports, u, s.now - SUSTAINED_WINDOW);
    GuardsPassExactly(w, s.db.reports, u, r, s.now);
  }

  lemma NoteTables(w: World, cfg: Emergent, s: System, id: string, key: string, u: Option<string>, o: Outside)
    requires id != "" && key != "" && id !in Ids(s.db.reports) && key !in Keys(s.db.reports) && o.choice == None
    requires u == None || Waited(s)
    ensures SubmitTables(w, cfg, s.db, s.now, Note(id, key), u, o)
         == s.db.(reports := s.db.reports + [NoteRow(id, key, u, s.now)])
  {
    var r := NoteRow(id, key, u, s.now);
    NoteIsValid(id, key, u, s.now);
    if u.Some? {
      WaitedPasses(w, s, u.value, r);
    }
    assert Routed(r, o) == r && Numbered(s.db, r) == r;
    assert InsertOutcomeOf(s.db, r) == Inserted;
  }

  lemma NoteBegins(w: World, cfg: Emergent, s: System, t: nat, x: Session, id: string, key: string, u: Option<string>, o: Outside)
    requires s.sessions.Keys == {t} && x == s.sessions[t] && !x.inserted && id != "" && key != ""
    requires o.choice == None && o.crisis !in s.db.crises
    ensures Enabled(w, s, Begin(t + 1, Note(id, key), u))
    ensures var s1 := Apply(w, cfg, s, Begin(t + 1, Note(id, key), u));
      t + 1 in s1.sessions && Answerable(w, s1.db, s1.sessions[t + 1], o) && Unhindered(s1, t + 1, s1.sessions[t + 1].row)
  {
    NoteIsValid(id, key, u, s.now);
  }

  function NoteSubmitted(
    w: World, cfg: Emergent, s: System, t: nat, id: string, key: string, u: Option<string>, o: Outside): System
  {
    Drive(w, cfg, Apply(w, cfg, s, Begin(t + 1, Note(id, key), u)), t + 1, o)
  }

  /** Such a submit, begun by another session and run to its end, is part of the way. */
  lemma NoteLeads(
    w: World, cfg: Emergent, c: string, s0: System, s: System, t: nat, x: Session, id: string, key: string,
    u: Option<string>, o: Outside)
    requires Lone(w, cfg, c, s0, s, t, x) && id != "" && key != "" && o.choice == None && o.crisis !in s.db.crises
    ensures Leads(w, cfg, Unpinned(c), s0, NoteSubmitted(w, cfg, s, t, id, key, u, o))
  {
    var e := Begin(t + 1, Note(id, key), u);
    NoteBegins(w, cfg, s, t, x, id, key, u, o);
    LeadsStep(w, cfg, Unpinned(c), s0, s, e);
    LeadsDrive(w, cfg, Unpinned(c), s0, Apply(w, cfg, s, e), t + 1, o);
  }

  /** It stores the note and disturbs nobody. */
  lemma NoteEnds(w: World, cfg: Emergent, s: System, t: nat, x: Session, id: string, key: string, u: Option<string>, o: Outside)
    requires s.sessions.Keys == {t} && x == s.sessions[t] && !x.inserted && id != "" && key != ""
    requires id !in Ids(s.db.reports) && key !in Keys(s.db.reports) && (u == None || Waited(s))
    requires o.choice == None && o.crisis !in s.db.crises
    ensures var s' := NoteSubmitted(w, cfg, s, t, id, key, u, o);
      s'.sessions == s.sessions && s'.db == s.db.(reports := s.db.reports + [NoteRow(id, key, u, s.now)])
  {
    NoteBegins(w, cfg, s, t, x, id, key, u, o);
    SubmitIsSolo(w, cfg, s, t + 1, Note(id, key), u, o);
    NoteTables(w, cfg, s, id, key, u, o);
    assert s.sessions - {t + 1} == s.sessions;
  }

  /** Someone submits a note under a given free id and a key that is nobody's. */
  lemma Submits(
    w: World, cfg: Emergent, c: string, s0: System, s: System, t: nat, x: Session, id: string, u: Option<string>)
    returns (s': System, n: Report)
    requires Lone(w, cfg, c, s0, s, t, x) && id != "" && id !in Ids(s.db.reports) && (u == None || Waited(s))
    ensures Lone(w, cfg, c, s0, s', t, x) && s'.db == s.db.(reports := s.db.reports + [n])
    ensures n.id == id && n.key != x.row.key && n.submitter == u
  {
    var key := Fresh(Keys(s.db.reports) + {x.row.key});
    var name := Fresh(s.db.crises.Keys);
    var o := Outside(NO_ADMIN, None, name, Point(0.0, 0.0), 0);
    n := NoteRow(id, key, u, s.now);
    NoteLeads(w, cfg, c, s0, s, t, x, id, key, u, o);
    NoteEnds(w, cfg, s, t, x, id, key, u, o);
    s' := NoteSubmitted(w, cfg, s, t, id, key, u, o);
  }

  // ---- past the guards ---------------------------------------------------------------------

  lemma Guards1(w: World, cfg: Emergent, c: string, s0: System, s: System, t: nat, x: Session) returns (s': System, y: Session)
    requires Lone(w, cfg, c, s0, s, t, x) && x.phase == Guarding
    requires !KnownSubmitter(x.row) || x.row.id in Ids(s.db.reports)
             || Guards(w, s.db.reports, x.row.submitter.value, x.row, s.now) == Pass
    ensures Lone(w, cfg, c, s0, s', t, y) && y.phase == Assigning && y.row == x.row && s'.db == s.db
  {
    LeadsStep(w, cfg, Unpinned(c), s0, s, Guard(t));
    s' := Apply(w, cfg, s, Guard(t));
    y := s'.sessions[t];
  }

  /** The guards let the submit pass once the rate windows are over, or are skipped once its id is stored by somebody. */
  lemma PassesGuards(w: World, cfg: Emergent, c: string, s0: System, s: System, t: nat, x: Session)
    returns (s': System, y: Session)
    requires Lone(w, cfg, c, s0, s, t, x) && x.phase == Guarding && Waited(s)
    requires Clearable(s.db, x.row) && GuardsPassable(w, s.db, x.row)
    ensures Lone(w, cfg, c, s0, s', t, y) && y.phase == Assigning && y.row == x.row && Clearable(s'.db, x.row)
    ensures s'.db == s.db.(reports := s'.db.reports)
  {
    var s1 := s;
    if KnownSubmitter(x.row) && x.row.id !in Ids(s.db.reports) {
      WaitedPasses(w, s, x.row.submitter.value, x.row);
      if !NoDuplicate(w, s.db.reports, x.row.submitter.value, x.row) {
        LoneFacts(w, cfg, s0, s, c);
        var d :| d in s.db.devices && s.db.devices[d] != "";
        var n;
        s1, n := Submits(w, cfg, c, s0, s, t, x, x.row.id, Some(d));
        IdsAppend(s.db.reports, n);
        assert Erasable(s1.db, n);
      }
    }
    s', y := Guards1(w, cfg, c, s0, s1, t, x);
  }

  // ---- to the end --------------------------------------------------------------------------

  /** With id and key free and no link yet, numbering and inserting succeed. */
  lemma FreeInserts(db: Tables, r: Report, c: string)
    requires r.id !in Ids(db.reports) && r.key !in Keys(db.reports) && r.supersedes == None
    requires r.crisis == Some(c) && c in db.crises && "" in db.buildings
    ensures InsertOutcomeOf(db, Numbered(db, r)) == Inserted && (HasBuilding(r) ==> BuildingOpens(db, r))
  {
    if HasBuilding(r) {
      NewestMember(OfBuilding(db.reports, r.building.value));
      OfBuildingMembers(db.reports, r.building.value);
    }
  }

  predicate Free(db: Tables, r: Report, c: string) {
    && r.id !in Ids(db.reports) && r.key !in Keys(db.reports)
    && r.crisis == Some(c) && c in db.crises && "" in db.buildings
  }

  lemma InsertingArrives(w: World, cfg: Emergent, s: System, t: nat, o: Outside, c: string)
    requires t in s.sessions && s.sessions[t].phase == Inserting && s.sessions[t].row.crisis == Some(c)
    requires InsertOutcomeOf(s.db, s.sessions[t].row) == Inserted
    ensures Attached(Drive(w, cfg, s, t, o), c)
  {
    SoloInserting(w, cfg, s, t, o);
    var r := s.sessions[t].row.(created := s.now);
    assert Drive(w, cfg, s, t, o).db.reports == s.db.reports + [r];
    assert r in Drive(w, cfg, s, t, o).db.reports;
  }

  lemma LockingArrives(w: World, cfg: Emergent, s: System, t: nat, o: Outside, c: string)
    requires t in s.sessions && s.sessions[t].phase == Locking
    requires Free(s.db, s.sessions[t].row, c) && s.sessions[t].row.supersedes == None
    ensures Attached(Drive(w, cfg, s, t, o), c)
  {
    var x := s.sessions[t];
    FreeInserts(s.db, x.row, c);
    SoloLocking(w, cfg, s, t, o);
    var r := Numbered(s.db, x.row).(created := s.now);
    assert Drive(w, cfg, s, t, o).db.reports == s.db.reports + [r];
    assert r in Drive(w, cfg, s, t, o).db.reports;
  }

  /** Nothing in its way, the submit runs on and stores its report. */
  lemma RunsOn(w: World, cfg: Emergent, c: string, s0: System, s: System, t: nat, x: Session)
    requires Lone(w, cfg, c, s0, s, t, x) && Free(s.db, x.row, c)
    requires x.phase == Assigning || x.phase == Locking || x.phase == Reading || x.phase == Inserting
    requires x.phase == Assigning ==> PinKept(w, s.db, x.row, c)
    requires x.phase == Inserting ==> InsertOutcomeOf(s.db, x.row) == Inserted
    ensures CanArrive(w, cfg, s0, c)
  {
    var name := Fresh(s.db.crises.Keys);
    var o := Outside(NO_ADMIN, Some(c), name, Point(0.0, 0.0), 0);
    LoneFacts(w, cfg, s0, s, c);
    LeadsDrive(w, cfg, Unpinned(c), s0, s, t, o);
    match x.phase
    case Assigning =>
      SoloStep(w, cfg, s, t, o);
      LockingArrives(w, cfg, Apply(w, cfg, s, Assign(t, o.chain, o.choice)), t, o, c);
    case Locking => LockingArrives(w, cfg, s, t, o, c);
    case Reading =>
      SoloStep(w, cfg, s, t, o);
      FreeInserts(s.db, x.row, c);
      InsertingArrives(w, cfg, Apply(w, cfg, s, Read(t)), t, o, c);
    case Inserting => InsertingArrives(w, cfg, s, t, o, c);
  }

  /** The report a waiting insert supersedes may be gone; then it is submitted once more. */
  lemma LinkRestored(w: World, cfg: Emergent, c: string, s0: System, s: System, t: nat, x: Session) returns (s': System)
    requires Lone(w, cfg, c, s0, s, t, x) && Free(s.db, x.row, c)
    requires x.phase == Inserting && x.row.supersedes != Some(x.row.id)
    ensures Lone(w, cfg, c, s0, s', t, x) && Free(s'.db, x.row, c) && InsertOutcomeOf(s'.db, x.row) == Inserted
  {
    s' := s;
    if x.row.supersedes.Some? && x.row.supersedes.value !in Ids(s.db.reports) {
      LoneFacts(w, cfg, s0, s, c);
      assert NamedRow(s.sessions[t]);
      var n;
      s', n := Submits(w, cfg, c, s0, s, t, x, x.row.supersedes.value, None);
      IdsAppend(s.db.reports, n);
    }
  }

  /** Alone, a submit that may store its report in crisis `c` can do it. */
  lemma LoneArrives(w: World, cfg: Emergent, c: string, s0: System, s: System, t: nat, x: Session)
    requires Lone(w, cfg, c, s0, s, t, x) && MayStore(w, s.db, x, c)
    ensures CanArrive(w, cfg, s0, c)
  {
    var s1 := Prepares(w, cfg, c, s0, s, t, x);
    var y := x;
    if x.phase == Guarding {
      s1, y := PassesGuards(w, cfg, c, s0, s1, t, x);
    }
    s1 := Clears(w, cfg, c, s0, s1, t, y);
    if y.phase == Inserting {
      s1 := LinkRestored(w, cfg, c, s0, s1, t, y);
    }
    RunsOn(w, cfg, c, s0, s1, t, y);
  }

  lemma CarriedArrives(w: World, cfg: Emergent, s: System, c: string)
    requires Reachable(w, cfg, s) && c in s.db.crises && Carried(w, s, c)
    ensures CanArrive(w, cfg, s, c)
  {
    var t :| t in s.sessions && MayStore(w, s.db, s.sessions[t], c);
    LeadsHere(w, cfg, Unpinned(c), s);
    var s1 := AbortsOthers(w, cfg, c, s, s, t);
    var x := s1.sessions[t];
    LoneFacts(w, cfg, s, s1, c);
    assert PhaseOk(x);
    if x.inserted {
      PendingArrives(w, cfg, c, s, s1, t);
    } else {
      LoneArrives(w, cfg, c, s, s1, t, x);
    }
  }

  // ---- exactly when ------------------------------------------------------------------------

  lemma {:induction false} QuietPath(w: World, cfg: Emergent, states: seq<System>, evs: seq<Event>, k: nat, c: string)
    requires Path(w, cfg, Unpinned(c), states, evs) && k < |states| && Reachable(w, cfg, states[0]) && Quiet(w, states[0], c)
    ensures Quiet(w, states[k], c)
  {
    if k > 0 {
      QuietPath(w, cfg, states, evs, k - 1, c);
      ReachPath(w, cfg, Unpinned(c), states, evs, k - 1);
      ReachableGood(w, cfg, states[k - 1]);
      assert Unpinned(c)(evs[k - 1]);
      StepQuiet(w, cfg, states[k - 1], evs[k - 1], c);
    }
  }

  lemma QuietStaysEmpty(w: World, cfg: Emergent, s: System, c: string)
    requires Reachable(w, cfg, s) && Quiet(w, s, c)
    ensures !CanArrive(w, cfg, s, c)
  {
    forall s' | Leads(w, cfg, Unpinned(c), s, s')
      ensures !Attached(s', c)
    {
      var states, evs :| Path(w, cfg, Unpinned(c), states, evs) && states[0] == s && Last(states) == s';
      QuietPath(w, cfg, states, evs, |evs|, c);
    }
  }

  /**
   After a crisis is dismissed, some continuation in which it is neither reopened nor named by a new submit stores a report
   in it, exactly when at the dismissal some submit in flight carried it and could still store its report.
   */
  lemma DismissalLeaksExactly(w: World, cfg: Emergent, s: System, c: string)
    requires Reachable(w, cfg, s) && c in s.db.crises
    ensures CanArrive(w, cfg, Apply(w, cfg, s, Status(c, Dismissed)), c) <==> Carried(w, s, c)
  {
    var s' := Apply(w, cfg, s, Status(c, Dismissed));
    ReachableGood(w, cfg, s);
    ReachStep(w, cfg, s, Status(c, Dismissed));
    DismissalReleases(w, cfg, s, c);
    if Carried(w, s, c) {
      CarriedArrives(w, cfg, s', c);
    } else {
      QuietStaysEmpty(w, cfg, s', c);
    }
  }
}
