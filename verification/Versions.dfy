/** Per-building history over every interleaving: version numbers and supersedes links. */
module Versions {
  import opened Basics
  import opened Tables
  import opened Intake
  import opened Sessions
  import opened Rows
  import opened Safety
  import opened Chains

  /** The numbering a session read under its lock is still the one its commit will extend the chain with. */
  ghost predicate NumberedFor(c: seq<Report>, x: Session, b: string) {
    HoldsLock(x, b) && x.phase != Reading ==> x.row.version == |c| + 1 && x.row.supersedes == NewestId(c)
  }

  ghost predicate Chained(s: System, b: string) {
    && Chain(OfBuilding(s.db.reports, b))
    && forall t :: t in s.sessions ==> NumberedFor(OfBuilding(s.db.reports, b), s.sessions[t], b)
  }

  lemma StoredHoldsLock(w: World, s: System, e: Event, b: string)
    requires Enabled(w, s, e) && Good(s) && Stores(s, e) && b != "" && s.sessions[e.t].row.building == Some(b)
    ensures HoldsLock(s.sessions[e.t], b) && s.sessions[e.t].phase == Committing
  {}

  /** How one step changes the chain of one building, when it does not erase a report of it. */
  lemma ChainStep(w: World, cfg: Emergent, s: System, e: Event, b: string)
    requires Enabled(w, s, e) && Good(s) && Chain(OfBuilding(s.db.reports, b))
    requires ErasedBuilding(s, e) != Some(b)
    ensures var c, c' := OfBuilding(s.db.reports, b), OfBuilding(DbAfter(w, cfg, s, e).reports, b);
      if Stores(s, e) && s.sessions[e.t].row.building == Some(b) then c' == c + [s.sessions[e.t].row] else SameCore(c, c')
  {
    var s0 := s.db.reports;
    StepReports(w, cfg, s, e);
    if Stores(s, e) {
      OfBuildingAppend(s0, s.sessions[e.t].row, b);
    } else if Erases(s, e) {
      OfBuildingMembers(s0, b);
      FindStored(s0, e.id);
      forall r | r in OfBuilding(s0, b)
        ensures r.id != e.id && r.supersedes != Some(e.id)
      {
        FindUnique(s0, r);
        if r.supersedes == Some(e.id) {
          LinkTargetInside(s0, b, r);
        }
      }
      OfBuildingErase(s0, e.id, b);
    } else {
      OfBuildingCore(s0, DbAfter(w, cfg, s, e).reports, b);
    }
  }

  /** The target of a chain's link is the stored row of that id, and belongs to the building. */
  lemma LinkTargetInside(s: seq<Report>, b: string, r: Report)
    requires Unique(s) && Chain(OfBuilding(s, b)) && r in OfBuilding(s, b) && r.supersedes.Some?
    ensures Find(s, r.supersedes.value).Some? && Find(s, r.supersedes.value).value.building == Some(b)
  {
    OfBuildingMembers(s, b);
    ChainLinksInside(OfBuilding(s, b), r);
    var q :| q in OfBuilding(s, b) && q.id == r.supersedes.value;
    FindUnique(s, q);
  }

  lemma ActedNumbered(w: World, cfg: Emergent, s: System, e: Event, x: Session, b: string)
    requires Actor(e).Some? && Ready(w, s, e, x) && Acted(w, cfg, s, e, x).Some?
    requires NumberedFor(OfBuilding(s.db.reports, b), x, b)
    ensures NumberedFor(OfBuilding(s.db.reports, b), Acted(w, cfg, s, e, x).value, b)
  {}

  lemma BystanderNumbered(c: seq<Report>, c': seq<Report>, x: Session, b: string)
    requires NumberedFor(c, x, b) && SameCore(c, c')
    ensures NumberedFor(c', x, b)
  {
    NewestCore(c, c');
  }

  lemma StepNumbered(w: World, cfg: Emergent, s: System, e: Event, b: string, t: nat)
    requires Enabled(w, s, e) && Good(s) && Chained(s, b) && b != ""
    requires ErasedBuilding(s, e) != Some(b)
    requires t in SessionsAfter(w, cfg, s, e)
    ensures NumberedFor(OfBuilding(DbAfter(w, cfg, s, e).reports, b), SessionsAfter(w, cfg, s, e)[t], b)
  {
    var c, c' := OfBuilding(s.db.reports, b), OfBuilding(DbAfter(w, cfg, s, e).reports, b);
    var y := SessionsAfter(w, cfg, s, e)[t];
    if HoldsLock(y, b) {
      LockedQuiet(w, cfg, s, e, b, t);
      ChainStep(w, cfg, s, e, b);
      if Actor(e) != Some(t) {
        Bystander(w, cfg, s, e, t);
        BystanderNumbered(c, c', y, b);
      } else {
        Performer(w, cfg, s, e, t);
        ActedNumbered(w, cfg, s, e, s.sessions[t], b);
        BystanderNumbered(c, c', y, b);
      }
    }
  }

  /** While a session is inside its transaction on a building, no other row of the building is stored. */
  lemma LockedQuiet(w: World, cfg: Emergent, s: System, e: Event, b: string, t: nat)
    requires Enabled(w, s, e) && Good(s) && b != ""
    requires t in SessionsAfter(w, cfg, s, e) && HoldsLock(SessionsAfter(w, cfg, s, e)[t], b)
    ensures !(Stores(s, e) && s.sessions[e.t].row.building == Some(b))
  {
    if Stores(s, e) && s.sessions[e.t].row.building == Some(b) {
      StoredHoldsLock(w, s, e, b);
      if t != e.t {
        Bystander(w, cfg, s, e, t);
      } else {
        Performer(w, cfg, s, e, t);
      }
    }
  }

  lemma StepChained(w: World, cfg: Emergent, s: System, e: Event, b: string)
    requires Enabled(w, s, e) && Good(s) && Chained(s, b) && b != ""
    requires ErasedBuilding(s, e) != Some(b)
    ensures Chained(Apply(w, cfg, s, e), b)
  {
    var c, c' := OfBuilding(s.db.reports, b), OfBuilding(DbAfter(w, cfg, s, e).reports, b);
    ChainStep(w, cfg, s, e, b);
    if Stores(s, e) && s.sessions[e.t].row.building == Some(b) {
      StoredHoldsLock(w, s, e, b);
      assert NumberedFor(c, s.sessions[e.t], b);
      ChainAppend(c, s.sessions[e.t].row);
    } else {
      ChainCore(c, c');
    }
    forall t | t in SessionsAfter(w, cfg, s, e)
      ensures NumberedFor(c', SessionsAfter(w, cfg, s, e)[t], b)
    {
      StepNumbered(w, cfg, s, e, b, t);
    }
  }

  lemma {:induction false} AlwaysChained(w: World, cfg: Emergent, states: seq<System>, evs: seq<Event>, b: string, i: nat)
    requires Run(w, cfg, states, evs) && i < |states| && b != ""
    requires forall k :: 0 <= k < |evs| ==> ErasedBuilding(states[k], evs[k]) != Some(b)
    ensures Chained(states[i], b)
  {
    if i > 0 {
      AlwaysChained(w, cfg, states, evs, b, i - 1);
      AlwaysGood(w, cfg, states, evs, i - 1);
      StepChained(w, cfg, states[i - 1], evs[i - 1], b);
    }
  }

  /**
   For every interleaving in which no report of building `b` is erased, the stored versions of `b` are exactly
   1, 2, ..., n in commit order, and the history is one linear chain exactly when it was stored in capture order.
   */
  lemma VersionsCountUp(w: World, cfg: Emergent, states: seq<System>, evs: seq<Event>, b: string, i: nat)
    requires Run(w, cfg, states, evs) && i < |states| && b != ""
    requires forall k :: 0 <= k < |evs| ==> ErasedBuilding(states[k], evs[k]) != Some(b)
    ensures var c := OfBuilding(states[i].db.reports, b);
      && (forall k :: 0 <= k < |c| ==> c[k].version == k + 1)
      && (Linear(c) <==> forall k :: 1 <= k < |c| - 1 ==> Newer(c[k], c[k - 1]))
  {
    AlwaysChained(w, cfg, states, evs, b, i);
    AlwaysGood(w, cfg, states, evs, i);
    OfBuildingMembers(states[i].db.reports, b);
    LinearExactly(OfBuilding(states[i].db.reports, b));
  }

  /** In every reachable state no supersedes link dangles, all point to earlier commits, and no walk along them returns. */
  lemma SupersedesSafe(w: World, cfg: Emergent, states: seq<System>, evs: seq<Event>, n: nat)
    requires Run(w, cfg, states, evs) && n < |states|
    ensures var s := states[n].db.reports;
      && (forall i :: 0 <= i < |s| && s[i].supersedes.Some? ==> exists j :: Supersedes(s, i, j))
      && (forall i, j :: Supersedes(s, i, j) ==> j < i)
      && (forall p :: Walk(s, p) && |p| >= 2 ==> p[|p| - 1] < p[0])
  {
    AlwaysGood(w, cfg, states, evs, n);
    var s := states[n].db.reports;
    LinksPointBack(s);
    forall p | Walk(s, p) && |p| >= 2
      ensures p[|p| - 1] < p[0]
    {
      NoCycle(s, p);
    }
  }
}
