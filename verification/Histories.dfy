/** Looking back along a run: where a submit was guarded, read its number and inserted, and what became of an id since. */
module Histories {
  import opened Basics
  import opened Tables
  import opened Intake
  import opened Sessions
  import opened Rows
  import opened Safety
  import opened Chains

  predicate Begins(e: Event, t: nat) {
    e.Begin? && e.t == t
  }

  /** Step `i` is the last time before step `k` that session `t` did `e`, and it has been the same submit since. */
  predicate LastDid(evs: seq<Event>, e: Event, t: nat, i: int, k: int) {
    && 0 <= i < k <= |evs| && evs[i] == e
    && forall m :: i < m < k ==> evs[m] != e && !Begins(evs[m], t)
  }

  lemma LastDidLonger(evs: seq<Event>, e: Event, t: nat, i: int, k: int)
    requires LastDid(evs, e, t, i, k) && k < |evs| && evs[k] != e && !Begins(evs[k], t)
    ensures LastDid(evs, e, t, i, k + 1)
  {}

  lemma LastDidOnce(evs: seq<Event>, e: Event, t: nat, i: int, j: int, k: int)
    requires LastDid(evs, e, t, i, k) && LastDid(evs, e, t, j, k)
    ensures i == j
  {}

  /** What a submit says about its report, fixed from its normalisation to its commit. */
  predicate SameReport(r: Report, r': Report) {
    && r.id == r'.id && r.key == r'.key && r.submitter == r'.submitter && r.building == r'.building
    && r.source == r'.source && r.captured == r'.captured && r.point == r'.point
  }

  /** A session that goes on after a step, without having begun in it, was there before it. */
  lemma SessionBefore(w: World, cfg: Emergent, s: System, e: Event, t: nat)
    requires Enabled(w, s, e) && t in SessionsAfter(w, cfg, s, e) && !Begins(e, t)
    ensures t in s.sessions
    ensures var x, y := s.sessions[t], SessionsAfter(w, cfg, s, e)[t];
      if Actor(e) == Some(t) then Ready(w, s, e, x) && Acted(w, cfg, s, e, x) == Some(y) else y == x
  {
    if Actor(e) == Some(t) {
      Performer(w, cfg, s, e, t);
    } else {
      Bystander(w, cfg, s, e, t);
    }
  }

  // ---- one session's life ------------------------------------------------------------------

  /** The session knows its number and holds its building's lock. */
  predicate Numbering(x: Session) {
    HasBuilding(x.row) && (x.phase == Inserting || x.phase == Refreshing || x.phase == Committing)
  }

  /** The session has inserted its row and recomputed its building's damage. */
  predicate Refreshed(x: Session) {
    HasBuilding(x.row) && x.phase == Committing && x.inserted
  }

  /** What one step leaves of a session, and which steps of its own matter. */
  ghost predicate Lived(w: World, s: System, e: Event, x: Session, y: Session, t: nat) {
    && SameReport(x.row, y.row)
    && (e == Guard(t) ==> x.phase == Guarding && y.phase != Guarding && Guarded(w, s.db, s.now, x) == Some(y))
    && (e != Guard(t) ==> y.guardedAt == x.guardedAt && (y.phase == Guarding <==> x.phase == Guarding))
    && (y.inserted && !x.inserted ==> e == Insert(t) && InsertOutcomeOf(s.db, x.row) == Inserted)
    && (e == Insert(t) ==> !x.inserted)
    && (y.inserted ==> x.phase != Guarding && e != Guard(t))
    && (Refreshed(y) ==> if e == Refresh(t) then y.damage == NewestDamage(OfBuilding(s.db.reports + [y.row], y.row.building.value))
                         else Refreshed(x) && y.damage == x.damage && y.row == x.row)
    && (Numbering(y) ==> if e == Read(t) then y.row == Versioned(s.db.reports, x.row)
                         else Numbering(x) && y.row.supersedes == x.row.supersedes)
  }

  lemma ActedLived(w: World, cfg: Emergent, s: System, e: Event, x: Session, t: nat)
    requires Actor(e) == Some(t) && !e.Begin? && Ready(w, s, e, x) && PhaseOk(x) && Acted(w, cfg, s, e, x).Some?
    ensures Lived(w, s, e, x, Acted(w, cfg, s, e, x).value, t)
  {}

  lemma Lives(w: World, cfg: Emergent, s: System, e: Event, t: nat)
    requires Enabled(w, s, e) && Good(s) && t in SessionsAfter(w, cfg, s, e) && !Begins(e, t)
    ensures t in s.sessions && Lived(w, s, e, s.sessions[t], SessionsAfter(w, cfg, s, e)[t], t)
  {
    SessionBefore(w, cfg, s, e, t);
    if Actor(e) == Some(t) {
      ActedLived(w, cfg, s, e, s.sessions[t], t);
    }
  }

  /** Session `t`, where it is in flight after a step, began in it or lived through it. */
  ghost predicate Life(w: World, states: seq<System>, evs: seq<Event>, t: nat) {
    && |states| == |evs| + 1 && t !in states[0].sessions
    && forall k :: 0 <= k < |evs| ==> LifeStep(w, states[k], evs[k], states[k + 1], t)
  }

  ghost predicate LifeStep(w: World, s: System, e: Event, s': System, t: nat) {
    t in s'.sessions ==>
      if Begins(e, t) then s'.sessions[t].phase == Guarding && !s'.sessions[t].inserted
      else t in s.sessions && Lived(w, s, e, s.sessions[t], s'.sessions[t], t)
  }

  lemma RunLife(w: World, cfg: Emergent, states: seq<System>, evs: seq<Event>, t: nat)
    requires Run(w, cfg, states, evs)
    ensures Life(w, states, evs, t)
  {
    forall k | 0 <= k < |evs|
      ensures LifeStep(w, states[k], evs[k], states[k + 1], t)
    {
      AlwaysGood(w, cfg, states, evs, k);
      StepLife(w, cfg, states[k], evs[k], t);
    }
  }

  lemma StepLife(w: World, cfg: Emergent, s: System, e: Event, t: nat)
    requires Enabled(w, s, e) && Good(s)
    ensures LifeStep(w, s, e, Apply(w, cfg, s, e), t)
  {
    if t in SessionsAfter(w, cfg, s, e) && !Begins(e, t) {
      Lives(w, cfg, s, e, t);
    }
  }

  /** Whoever is past the guards went through them. */
  lemma {:induction false} WasGuarded(w: World, states: seq<System>, evs: seq<Event>, t: nat, k: nat) returns (i: nat)
    requires Life(w, states, evs, t) && k < |states| && t in states[k].sessions && states[k].sessions[t].phase != Guarding
    ensures LastDid(evs, Guard(t), t, i, k)
  {
    assert LifeStep(w, states[k - 1], evs[k - 1], states[k], t);
    if evs[k - 1] == Guard(t) {
      i := k - 1;
    } else {
      i := WasGuarded(w, states, evs, t, k - 1);
      LastDidLonger(evs, Guard(t), t, i, k - 1);
    }
  }

  /** `y` carries the report of `x` and what its guards, run in state `s`, recorded. */
  ghost predicate GuardedIn(w: World, s: System, x: Session, y: Session) {
    SameReport(x.row, y.row) && Guarded(w, s.db, s.now, x).Some? && y.guardedAt == Guarded(w, s.db, s.now, x).value.guardedAt
  }

  lemma GuardedStays(w: World, s0: System, x0: Session, s: System, e: Event, x: Session, y: Session, t: nat)
    requires Lived(w, s, e, x, y, t)
    ensures e == Guard(t) ==> GuardedIn(w, s, x, y)
    ensures e != Guard(t) && GuardedIn(w, s0, x0, x) ==> GuardedIn(w, s0, x0, y)
  {}

  /** Since its guards a session has kept what they looked at and what they recorded. */
  lemma {:induction false} SinceGuard(w: World, states: seq<System>, evs: seq<Event>, t: nat, i: nat, k: nat)
    requires Life(w, states, evs, t) && k < |states| && LastDid(evs, Guard(t), t, i, k) && t in states[k].sessions
    ensures t in states[i].sessions && GuardedIn(w, states[i], states[i].sessions[t], states[k].sessions[t])
    decreases k
  {
    assert LifeStep(w, states[k - 1], evs[k - 1], states[k], t);
    var x, y := states[k - 1].sessions[t], states[k].sessions[t];
    if i < k - 1 {
      SinceGuard(w, states, evs, t, i, k - 1);
      GuardedStays(w, states[i], states[i].sessions[t], states[k - 1], evs[k - 1], x, y, t);
    } else {
      GuardedStays(w, states[i], x, states[i], evs[i], x, y, t);
    }
  }

  /** A row in an open or committed transaction was guarded, and later inserted with nothing in its way. */
  lemma {:induction false} WasInserted(w: World, states: seq<System>, evs: seq<Event>, t: nat, k: nat)
    returns (i: nat, j: nat)
    requires Life(w, states, evs, t) && k < |states| && t in states[k].sessions && states[k].sessions[t].inserted
    ensures LastDid(evs, Guard(t), t, i, k) && LastDid(evs, Insert(t), t, j, k) && i < j
    ensures t in states[j].sessions && InsertOutcomeOf(states[j].db, states[j].sessions[t].row) == Inserted
    ensures SameReport(states[j].sessions[t].row, states[k].sessions[t].row)
  {
    assert LifeStep(w, states[k - 1], evs[k - 1], states[k], t);
    if states[k - 1].sessions[t].inserted {
      i, j := WasInserted(w, states, evs, t, k - 1);
      LastDidLonger(evs, Insert(t), t, j, k - 1);
    } else {
      i := WasGuarded(w, states, evs, t, k - 1);
      j := k - 1;
    }
    LastDidLonger(evs, Guard(t), t, i, k - 1);
  }

  /** A numbered session read its number at some step. */
  lemma {:induction false} WasNumbered(w: World, states: seq<System>, evs: seq<Event>, t: nat, k: nat) returns (i: nat)
    requires Life(w, states, evs, t) && k < |states| && t in states[k].sessions && Numbering(states[k].sessions[t])
    ensures LastDid(evs, Read(t), t, i, k)
  {
    assert LifeStep(w, states[k - 1], evs[k - 1], states[k], t);
    if evs[k - 1] == Read(t) {
      i := k - 1;
    } else {
      i := WasNumbered(w, states, evs, t, k - 1);
      LastDidLonger(evs, Read(t), t, i, k - 1);
    }
  }

  /** Since that step it has kept its link and its building's lock. */
  lemma {:induction false} SinceRead(
    w: World, states: seq<System>, evs: seq<Event>, t: nat, i: nat, m: nat, k: nat)
    requires Life(w, states, evs, t) && k < |states| && LastDid(evs, Read(t), t, i, k) && i < m <= k
    requires t in states[k].sessions && Numbering(states[k].sessions[t])
    ensures t in states[i].sessions && HasBuilding(states[i].sessions[t].row)
    ensures t in states[m].sessions && Numbering(states[m].sessions[t])
    ensures var r, x, y := states[i].sessions[t].row, states[m].sessions[t].row, states[k].sessions[t].row;
      && x.building == y.building == r.building
      && x.supersedes == y.supersedes == NewestId(OfBuilding(states[i].db.reports, r.building.value))
    decreases k
  {
    assert LifeStep(w, states[k - 1], evs[k - 1], states[k], t);
    if i < k - 1 {
      SinceRead(w, states, evs, t, i, if m < k then m else k - 1, k - 1);
    }
  }

  /** A refreshed session refreshed at some step. */
  lemma {:induction false} WasRefreshed(w: World, states: seq<System>, evs: seq<Event>, t: nat, k: nat) returns (j: nat)
    requires Life(w, states, evs, t) && k < |states| && t in states[k].sessions && Refreshed(states[k].sessions[t])
    ensures LastDid(evs, Refresh(t), t, j, k)
  {
    assert LifeStep(w, states[k - 1], evs[k - 1], states[k], t);
    if evs[k - 1] == Refresh(t) {
      j := k - 1;
    } else {
      j := WasRefreshed(w, states, evs, t, k - 1);
      LastDidLonger(evs, Refresh(t), t, j, k - 1);
    }
  }

  /** Since that step it has kept its row and its damage. */
  lemma {:induction false} SinceRefresh(
    w: World, states: seq<System>, evs: seq<Event>, t: nat, j: nat, m: nat, k: nat)
    requires Life(w, states, evs, t) && k < |states| && LastDid(evs, Refresh(t), t, j, k) && j < m <= k
    requires t in states[k].sessions && Refreshed(states[k].sessions[t])
    ensures t in states[m].sessions && Refreshed(states[m].sessions[t])
    ensures var x, y := states[m].sessions[t], states[k].sessions[t]; x.row == y.row && x.damage == y.damage
    decreases k
  {
    if m < k {
      assert LifeStep(w, states[k - 1], evs[k - 1], states[k], t);
      SinceRefresh(w, states, evs, t, j, m, k - 1);
    }
  }

  /** The damage is what the refresh found. */
  lemma RefreshFound(w: World, states: seq<System>, evs: seq<Event>, t: nat, j: nat, k: nat)
    requires Life(w, states, evs, t) && k < |states| && LastDid(evs, Refresh(t), t, j, k)
    requires t in states[k].sessions && Refreshed(states[k].sessions[t])
    ensures var y := states[k].sessions[t];
      y.damage == NewestDamage(OfBuilding(states[j].db.reports + [y.row], y.row.building.value))
  {
    SinceRefresh(w, states, evs, t, j, j + 1, k);
    assert LifeStep(w, states[j], evs[j], states[j + 1], t);
  }

  // ---- what became of an id --------------------------------------------------------------

  predicate ErasesId(s: System, e: Event, q: string) {
    Erases(s, e) && e.id == q
  }

  predicate StoresId(s: System, e: Event, q: string) {
    Stores(s, e) && s.sessions[e.t].row.id == q
  }

  ghost predicate ErasedBetween(states: seq<System>, evs: seq<Event>, q: string, i: int, j: int) {
    exists k :: 0 <= k < |evs| && k < |states| && i < k < j && ErasesId(states[k], evs[k], q)
  }

  /** Between the steps `i` and `j` report `q` was erased, and it has not been stored again since. */
  ghost predicate ErasedForGood(states: seq<System>, evs: seq<Event>, q: string, i: int, j: int) {
    exists k :: 0 <= k < |evs| && k < |states| && i < k < j && ErasesId(states[k], evs[k], q) && NotStoredSince(states, evs, q, k, j)
  }

  predicate NotStoredSince(states: seq<System>, evs: seq<Event>, q: string, k: int, j: int) {
    forall m :: 0 <= m < |evs| && m < |states| && k < m < j ==> !StoresId(states[m], evs[m], q)
  }

  lemma ErasedForGoodStep(states: seq<System>, evs: seq<Event>, q: string, i: nat, j: nat)
    requires |states| == |evs| + 1 && i + 1 < j <= |evs|
    ensures ErasedForGood(states, evs, q, i, j) <==>
      ErasesId(states[j - 1], evs[j - 1], q) || (ErasedForGood(states, evs, q, i, j - 1) && !StoresId(states[j - 1], evs[j - 1], q))
  {
    if ErasesId(states[j - 1], evs[j - 1], q) {
      assert NotStoredSince(states, evs, q, j - 1, j);
    }
    if ErasedForGood(states, evs, q, i, j - 1) && !StoresId(states[j - 1], evs[j - 1], q) {
      var k :| 0 <= k < |evs| && k < |states| && i < k < j - 1 && ErasesId(states[k], evs[k], q)
               && NotStoredSince(states, evs, q, k, j - 1);
      assert NotStoredSince(states, evs, q, k, j);
    }
    if ErasedForGood(states, evs, q, i, j) && !ErasesId(states[j - 1], evs[j - 1], q) {
      var k :| 0 <= k < |evs| && k < |states| && i < k < j && ErasesId(states[k], evs[k], q) && NotStoredSince(states, evs, q, k, j);
      assert NotStoredSince(states, evs, q, k, j - 1);
    }
  }

  /** Whether an id is stored changes only by storing and erasing it. */
  ghost predicate IdSteps(states: seq<System>, evs: seq<Event>, q: string) {
    |states| == |evs| + 1 && forall k :: 0 <= k < |evs| ==> IdStep(states[k], evs[k], states[k + 1], q)
  }

  predicate IdStep(s: System, e: Event, s': System, q: string) {
    q in Ids(s'.db.reports) <==> StoresId(s, e, q) || (q in Ids(s.db.reports) && !ErasesId(s, e, q))
  }

  lemma RunIds(w: World, cfg: Emergent, states: seq<System>, evs: seq<Event>, q: string)
    requires Run(w, cfg, states, evs)
    ensures IdSteps(states, evs, q)
  {
    forall k | 0 <= k < |evs|
      ensures IdStep(states[k], evs[k], states[k + 1], q)
    {
      AlwaysGood(w, cfg, states, evs, k);
      KeysAfter(w, cfg, states[k], evs[k]);
    }
  }

  /** A stored id is missing later exactly when it has been erased since, and not stored again. */
  lemma {:induction false} IdFollowed(states: seq<System>, evs: seq<Event>, q: string, i: nat, j: nat)
    requires IdSteps(states, evs, q) && i < j <= |evs| && q in Ids(states[i + 1].db.reports)
    ensures q !in Ids(states[j].db.reports) <==> ErasedForGood(states, evs, q, i, j)
    decreases j
  {
    if i + 1 < j {
      IdFollowed(states, evs, q, i, j - 1);
      ErasedForGoodStep(states, evs, q, i, j);
      assert IdStep(states[j - 1], evs[j - 1], states[j], q);
    }
  }

  // ---- clock -------------------------------------------------------------------------------

  /** No stored row, and no row about to be, was created later than now. */
  ghost predicate Timely(s: System) {
    && (forall r :: r in s.db.reports ==> r.created <= s.now)
    && (forall t :: t in s.sessions && s.sessions[t].inserted ==> s.sessions[t].row.created <= s.now)
  }

  lemma ActedTimely(w: World, cfg: Emergent, s: System, e: Event, x: Session)
    requires Actor(e).Some? && Ready(w, s, e, x) && PhaseOk(x) && Acted(w, cfg, s, e, x).Some?
    requires x.inserted ==> x.row.created <= s.now
    ensures var y := Acted(w, cfg, s, e, x).value; y.inserted ==> y.row.created <= s.now
  {}

  lemma RowsTimely(w: World, cfg: Emergent, s: System, e: Event)
    requires Enabled(w, s, e) && Good(s) && Timely(s)
    ensures forall r :: r in DbAfter(w, cfg, s, e).reports ==> r.created <= s.now
  {
    var reports, reports' := s.db.reports, DbAfter(w, cfg, s, e).reports;
    StepReports(w, cfg, s, e);
    forall r | r in reports'
      ensures r.created <= s.now
    {
      if Stores(s, e) {
        assert r in reports || r == s.sessions[e.t].row;
      } else if Erases(s, e) {
        EraseMembers(reports, e.id, r);
      } else {
        var i :| 0 <= i < |reports'| && reports'[i] == r;
        assert reports[i] in reports && Core(reports[i]).created == Core(r).created;
      }
    }
  }

  lemma StepTimely(w: World, cfg: Emergent, s: System, e: Event)
    requires Enabled(w, s, e) && Good(s) && Timely(s)
    ensures Timely(Apply(w, cfg, s, e))
  {
    RowsTimely(w, cfg, s, e);
    forall t | t in SessionsAfter(w, cfg, s, e) && SessionsAfter(w, cfg, s, e)[t].inserted
      ensures SessionsAfter(w, cfg, s, e)[t].row.created <= s.now
    {
      if !Begins(e, t) {
        SessionBefore(w, cfg, s, e, t);
        if Actor(e) == Some(t) {
          ActedTimely(w, cfg, s, e, s.sessions[t]);
        }
      }
    }
  }

  lemma {:induction false} AlwaysTimely(w: World, cfg: Emergent, states: seq<System>, evs: seq<Event>, i: nat)
    requires Run(w, cfg, states, evs) && i < |states|
    ensures Timely(states[i])
  {
    if i > 0 {
      AlwaysTimely(w, cfg, states, evs, i - 1);
      AlwaysGood(w, cfg, states, evs, i - 1);
      StepTimely(w, cfg, states[i - 1], evs[i - 1]);
    }
  }

  // ---- names -------------------------------------------------------------------------------

  /** Reports have names, and a link is only ever set by the version read of a building. */
  ghost predicate Named(s: System) {
    && (forall r :: r in s.db.reports ==> r.id != "")
    && (forall t :: t in s.sessions ==> NamedRow(s.sessions[t]))
  }

  predicate NamedRow(x: Session) {
    && x.row.id != ""
    && (x.row.supersedes.Some? ==>
          && x.row.supersedes.value != "" && HasBuilding(x.row)
          && x.phase != Guarding && x.phase != Assigning && x.phase != Locking && x.phase != Reading)
  }

  lemma ActedNamed(w: World, cfg: Emergent, s: System, e: Event, x: Session)
    requires Actor(e).Some? && Ready(w, s, e, x) && PhaseOk(x) && NamedRow(x) && Acted(w, cfg, s, e, x).Some?
    requires forall r :: r in s.db.reports ==> r.id != ""
    ensures NamedRow(Acted(w, cfg, s, e, x).value)
  {
    if e.Read? {
      OfBuildingMembers(s.db.reports, x.row.building.value);
      NewestMember(OfBuilding(s.db.reports, x.row.building.value));
    }
  }

  lemma RowsNamed(w: World, cfg: Emergent, s: System, e: Event)
    requires Enabled(w, s, e) && Good(s) && Named(s)
    ensures forall r :: r in DbAfter(w, cfg, s, e).reports ==> r.id != ""
  {
    KeysAfter(w, cfg, s, e);
    forall r | r in DbAfter(w, cfg, s, e).reports
      ensures r.id != ""
    {
      assert r.id in Ids(DbAfter(w, cfg, s, e).reports);
    }
  }

  lemma StepNamed(w: World, cfg: Emergent, s: System, e: Event)
    requires Enabled(w, s, e) && Good(s) && Named(s)
    ensures Named(Apply(w, cfg, s, e))
  {
    RowsNamed(w, cfg, s, e);
    forall t | t in SessionsAfter(w, cfg, s, e)
      ensures NamedRow(SessionsAfter(w, cfg, s, e)[t])
    {
      if !Begins(e, t) {
        SessionBefore(w, cfg, s, e, t);
        if Actor(e) == Some(t) {
          ActedNamed(w, cfg, s, e, s.sessions[t]);
        }
      }
    }
  }

  lemma {:induction false} AlwaysNamed(w: World, cfg: Emergent, states: seq<System>, evs: seq<Event>, i: nat)
    requires Run(w, cfg, states, evs) && i < |states|
    ensures Named(states[i])
  {
    if i > 0 {
      AlwaysNamed(w, cfg, states, evs, i - 1);
      AlwaysGood(w, cfg, states, evs, i - 1);
      StepNamed(w, cfg, states[i - 1], evs[i - 1]);
    }
  }
}
