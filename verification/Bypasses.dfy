/** The hole in the submit guards: when a row is stored without having passed them, and what that does to the limits. */
module Bypasses {
  import opened Basics
  import opened Tables
  import opened Intake
  import opened Sessions
  import opened Safety
  import opened Chains
  import opened Histories
  import opened Limits

  /** The answer of the guards depends on nothing of a report that a submit may change later. */
  lemma GuardsSame(w: World, s: seq<Report>, u: string, r: Report, r': Report, now: Time)
    requires SameReport(r, r')
    ensures Guards(w, s, u, r, now) == Pass <==> Guards(w, s, u, r', now) == Pass
  {
    GuardsPassExactly(w, s, u, r, now);
    GuardsPassExactly(w, s, u, r', now);
    assert forall o :: DuplicateCandidate(w, o, u, r) <==> DuplicateCandidate(w, o, u, r');
  }

  /**
   A submit of a known submitter that reached its guards at step `i` and inserts at step `j`: the guards were skipped
   exactly when its id was stored at `i`, and passed otherwise; and a skipped submit inserts something other than a replay
   exactly when the report of that id was erased in between and not stored again.
   */
  lemma SkippedExactly(
    w: World, cfg: Emergent, states: seq<System>, evs: seq<Event>, t: nat, i: nat, j: nat, u: string)
    requires Run(w, cfg, states, evs) && j < |evs| && LastDid(evs, Guard(t), t, i, j) && evs[j] == Insert(t)
    requires t in states[j].sessions && states[j].sessions[t].row.submitter == Some(u) && u != ""
    ensures var x := states[j].sessions[t];
      && (x.guardedAt == None <==> x.row.id in Ids(states[i].db.reports))
      && (x.guardedAt.Some? ==> Guards(w, states[i].db.reports, u, x.row, states[i].now) == Pass)
      && (x.guardedAt == None ==>
            (InsertOutcomeOf(states[j].db, x.row) != Replay <==> ErasedForGood(states, evs, x.row.id, i, j)))
  {
    var x := states[j].sessions[t];
    RunLife(w, cfg, states, evs, t);
    SinceGuard(w, states, evs, t, i, j);
    GuardsSame(w, states[i].db.reports, u, states[i].sessions[t].row, x.row, states[i].now);
    if x.row.id in Ids(states[i].db.reports) {
      GuardLeavesTables(w, cfg, states, evs, t, i);
      RunIds(w, cfg, states, evs, x.row.id);
      IdFollowed(states, evs, x.row.id, i, j);
    }
  }

  lemma GuardLeavesTables(w: World, cfg: Emergent, states: seq<System>, evs: seq<Event>, t: nat, i: nat)
    requires Run(w, cfg, states, evs) && i < |evs| && evs[i] == Guard(t)
    ensures states[i + 1].db == states[i].db
  {}

  // ---- stored rows ---------------------------------------------------------------------

  predicate StoresFor(s: System, e: Event, u: string) {
    Stores(s, e) && s.sessions[e.t].row.submitter == Some(u)
  }

  /** The guards looked at the row that step `k` stores, when its id was not stored yet, and let it pass. */
  ghost predicate Passed(w: World, states: seq<System>, evs: seq<Event>, k: nat, u: string)
    requires k < |evs| && |states| == |evs| + 1 && Stores(states[k], evs[k])
  {
    var t, r := evs[k].t, states[k].sessions[evs[k].t].row;
    exists i :: LastDid(evs, Guard(t), t, i, k) && r.id !in Ids(states[i].db.reports)
                && Guards(w, states[i].db.reports, u, r, states[i].now) == Pass
  }

  /** The id of the row that step `k` stores was stored at its guards, then erased, and missing at its insert. */
  ghost predicate Bypassed(states: seq<System>, evs: seq<Event>, k: nat)
    requires k < |evs| && |states| == |evs| + 1 && Stores(states[k], evs[k])
  {
    var t, id := evs[k].t, states[k].sessions[evs[k].t].row.id;
    exists i, j :: LastDid(evs, Guard(t), t, i, k) && LastDid(evs, Insert(t), t, j, k)
                   && id in Ids(states[i].db.reports) && ErasedForGood(states, evs, id, i, j)
  }

  lemma LastDidShorter(evs: seq<Event>, e: Event, t: nat, i: int, j: int, k: int)
    requires LastDid(evs, e, t, i, k) && i < j <= k
    ensures LastDid(evs, e, t, i, j)
  {}

  /** In every run, each stored row of a known submitter passed its guards exactly when its id was not erased behind them. */
  lemma GuardedExactly(w: World, cfg: Emergent, states: seq<System>, evs: seq<Event>, k: nat, u: string)
    requires Run(w, cfg, states, evs) && k < |evs| && StoresFor(states[k], evs[k], u) && u != ""
    ensures Passed(w, states, evs, k, u) <==> !Bypassed(states, evs, k)
    ensures Skips(states[k], evs[k], u) <==> Bypassed(states, evs, k)
  {
    var t := evs[k].t;
    var x := states[k].sessions[t];
    RunLife(w, cfg, states, evs, t);
    var i, j := WasInserted(w, states, evs, t, k);
    LastDidShorter(evs, Guard(t), t, i, j, k);
    SkippedExactly(w, cfg, states, evs, t, i, j, u);
    SinceGuard(w, states, evs, t, i, j);
    SinceGuard(w, states, evs, t, i, k);
    var y := states[j].sessions[t];
    GuardsSame(w, states[i].db.reports, u, y.row, x.row, states[i].now);
    forall i' | LastDid(evs, Guard(t), t, i', k)
      ensures i' == i
    {
      LastDidOnce(evs, Guard(t), t, i, i', k);
    }
  }

  // ---- the limits ------------------------------------------------------------------------

  /** No stored row of `u` was created after one of `u` that is about to be stored. */
  ghost predicate Ordered(s: System, u: string) {
    forall t :: t in s.sessions && InFlight(s.sessions[t], u) && s.sessions[t].inserted ==>
      CreatedBy(s.db.reports, u, s.sessions[t].row.created)
  }

  ghost predicate CreatedBy(s: seq<Report>, u: string, at: Time) {
    forall o :: o in s && o.submitter == Some(u) ==> o.created <= at
  }

  lemma CreatedByStays(w: World, cfg: Emergent, s: System, e: Event, u: string, at: Time)
    requires CreatedBy(s.db.reports, u, at) && (Stores(s, e) ==> s.sessions[e.t].row.submitter != Some(u))
    ensures CreatedBy(DbAfter(w, cfg, s, e).reports, u, at)
  {
    var reports, reports' := s.db.reports, DbAfter(w, cfg, s, e).reports;
    StepReports(w, cfg, s, e);
    forall o | o in reports' && o.submitter == Some(u)
      ensures o.created <= at
    {
      if Stores(s, e) {
        assert o == s.sessions[e.t].row || o in reports;
      } else if Erases(s, e) {
        EraseMembers(reports, e.id, o);
      } else {
        var i :| 0 <= i < |reports'| && reports'[i] == o;
        CoreFields(reports[i], o);
        assert reports[i] in reports;
      }
    }
  }

  lemma ActedCreated(w: World, cfg: Emergent, s: System, e: Event, x: Session)
    requires Actor(e).Some? && Ready(w, s, e, x) && PhaseOk(x) && Acted(w, cfg, s, e, x).Some?
    requires Acted(w, cfg, s, e, x).value.inserted
    ensures var y := Acted(w, cfg, s, e, x).value; y.row.created == s.now || (x.inserted && y.row.created == x.row.created)
  {}

  lemma StepOrdered(w: World, cfg: Emergent, s: System, e: Event, u: string)
    requires Enabled(w, s, e) && Good(s) && Timely(s) && Alone(s, u) && Ordered(s, u)
    ensures Ordered(Apply(w, cfg, s, e), u)
  {
    var after := SessionsAfter(w, cfg, s, e);
    forall t | t in after && InFlight(after[t], u) && after[t].inserted
      ensures CreatedBy(DbAfter(w, cfg, s, e).reports, u, after[t].row.created)
    {
      assert !Begins(e, t);
      InFlightOrigin(w, cfg, s, e, u, t);
      OthersStore(w, cfg, s, e, u, t);
      SessionBefore(w, cfg, s, e, t);
      if Actor(e) == Some(t) {
        ActedCreated(w, cfg, s, e, s.sessions[t]);
      }
      CreatedByStays(w, cfg, s, e, u, after[t].row.created);
    }
  }

  lemma {:induction false} AlwaysOrdered(w: World, cfg: Emergent, states: seq<System>, evs: seq<Event>, u: string, n: nat)
    requires Run(w, cfg, states, evs) && n < |states|
    requires forall k :: 0 <= k < |evs| ==> Serial(states[k], evs[k], u)
    ensures Alone(states[n], u) && Ordered(states[n], u)
  {
    if n > 0 {
      AlwaysOrdered(w, cfg, states, evs, u, n - 1);
      AlwaysGood(w, cfg, states, evs, n - 1);
      AlwaysTimely(w, cfg, states, evs, n - 1);
      StepAlone(w, cfg, states[n - 1], evs[n - 1], u);
      StepOrdered(w, cfg, states[n - 1], evs[n - 1], u);
    }
  }

  lemma {:induction false} RecentIsWindow(s: seq<Report>, u: string, since: Time, at: Time)
    requires CreatedBy(s, u, at)
    ensures CountRecent(s, u, since) == CountCreated(s, u, since, at)
  {
    if s != [] {
      assert s == Front(s) + [Last(s)];
      RecentIsWindow(Front(s), u, since, at);
    }
  }

  /** A newest row of `u` after which the limits still hold did fit. */
  lemma LimitsNeedFit(w: World, s: seq<Report>, r: Report, u: string)
    requires r.submitter == Some(u) && CreatedBy(s, u, r.created)
    requires WithinLimits(s + [r], u) && Apart(w, s + [r], u)
    ensures Fits(w, s, u, r)
  {
    var b, c := r.created - BURST_WINDOW, r.created - SUSTAINED_WINDOW;
    assert WindowsFrom(s + [r], u, b) && WindowsFrom(s + [r], u, c);
    CountsAppend(s, r, u, b, r.created);
    CountsAppend(s, r, u, c, r.created);
    RecentIsWindow(s, u, b, r.created);
    RecentIsWindow(s, u, c, r.created);
    forall o | o in s && Guardable(r, u) && Guardable(o, u)
               && r.captured - DEDUP_WINDOW <= o.captured <= r.captured + DEDUP_WINDOW
      ensures w.meters(o.point.value, r.point.value) > DEDUP_METERS
    {
      var i :| 0 <= i < |s| && s[i] == o;
      assert (s + [r])[i] == o && (s + [r])[|s|] == r;
    }
  }

  ghost predicate LimitsHold(w: World, s: System, u: string) {
    WithinLimits(s.db.reports, u) && Apart(w, s.db.reports, u)
  }

  lemma SkippedFits(w: World, cfg: Emergent, states: seq<System>, evs: seq<Event>, u: string, k: nat)
    requires Run(w, cfg, states, evs) && k < |evs| && Skips(states[k], evs[k], u) && LimitsHold(w, states[k + 1], u)
    requires forall m :: 0 <= m < |evs| ==> Serial(states[m], evs[m], u)
    ensures Fits(w, states[k].db.reports, u, states[k].sessions[evs[k].t].row)
  {
    AlwaysGood(w, cfg, states, evs, k);
    AlwaysOrdered(w, cfg, states, evs, u, k);
    StepReports(w, cfg, states[k], evs[k]);
    StoredIsPending(w, states[k], evs[k]);
    assert Uncommitted(states[k].sessions[evs[k].t]);
    LimitsNeedFit(w, states[k].db.reports, states[k].sessions[evs[k].t].row, u);
  }

  /**
   For a submitter whose submits are serialised, the limits hold in every state of a run exactly when each row stored past
   its guards would have passed them at the moment it was created.
   */
  lemma LimitsHoldExactly(w: World, cfg: Emergent, states: seq<System>, evs: seq<Event>, u: string)
    requires Run(w, cfg, states, evs) && u != ""
    requires forall k :: 0 <= k < |evs| ==> Serial(states[k], evs[k], u)
    ensures (forall n :: 0 <= n < |states| ==> LimitsHold(w, states[n], u))
       <==> (forall k :: 0 <= k < |evs| && Skips(states[k], evs[k], u) ==>
               Fits(w, states[k].db.reports, u, states[k].sessions[evs[k].t].row))
  {
    if forall n :: 0 <= n < |states| ==> LimitsHold(w, states[n], u) {
      forall k | 0 <= k < |evs| && Skips(states[k], evs[k], u)
        ensures Fits(w, states[k].db.reports, u, states[k].sessions[evs[k].t].row)
      {
        SkippedFits(w, cfg, states, evs, u, k);
      }
    }
    if forall k :: 0 <= k < |evs| && Skips(states[k], evs[k], u) ==>
         Fits(w, states[k].db.reports, u, states[k].sessions[evs[k].t].row) {
      forall n | 0 <= n < |states|
        ensures LimitsHold(w, states[n], u)
      {
        AlwaysLimited(w, cfg, states, evs, u, n);
      }
    }
  }

  /**
   For a submitter whose submits are serialised, and whose rows were all stored by submits whose id was not erased behind
   their guards: in every reachable state every closed 60-second window holds at most 5 and every closed 10-minute window
   at most 20 of its stored reports, and any two of its non-footprint located reports captured within 600 seconds of each
   other are more than 25 m apart.
   */
  lemma SubmitterIsLimited(
    w: World, cfg: Emergent, states: seq<System>, evs: seq<Event>, u: string, n: nat, a: Time, i: nat, j: nat)
    requires Geographic(w) && Run(w, cfg, states, evs) && n < |states| && u != ""
    requires forall k :: 0 <= k < |evs| ==> Serial(states[k], evs[k], u)
    requires forall k :: 0 <= k < |evs| && StoresFor(states[k], evs[k], u) ==> !Bypassed(states, evs, k)
    ensures var s := states[n].db.reports;
      |set k | 0 <= k < |s| && s[k].submitter == Some(u) && a <= s[k].created <= a + 60_000_000_000| <= 5
    ensures var s := states[n].db.reports;
      |set k | 0 <= k < |s| && s[k].submitter == Some(u) && a <= s[k].created <= a + 600_000_000_000| <= 20
    ensures var s := states[n].db.reports;
      i < |s| && j < |s| && i != j && s[i].submitter == Some(u) && s[j].submitter == Some(u)
      && s[i].point.Some? && s[j].point.Some? && !IsFootprint(s[i]) && !IsFootprint(s[j])
      && -600_000_000_000 <= s[i].captured - s[j].captured <= 600_000_000_000 ==>
        w.meters(s[i].point.value, s[j].point.value) > 25.0
  {
    forall k | 0 <= k < |evs| && Skips(states[k], evs[k], u)
      ensures false
    {
      GuardedExactly(w, cfg, states, evs, k, u);
    }
    AlwaysLimited(w, cfg, states, evs, u, n);
    var s := states[n].db.reports;
    assert WithinLimits(s, u) && Apart(w, s, u);
    assert WindowsFrom(s, u, a);
    CountCreatedSize(s, u, a, a + BURST_WINDOW);
    CountCreatedSize(s, u, a, a + SUSTAINED_WINDOW);
  }
}
