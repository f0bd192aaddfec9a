/** The verification audit trail and the photo gate, in every reachable state. */
module Audits {
  import opened Basics
  import opened Tables
  import opened Intake
  import opened Sessions
  import opened Rows
  import opened Safety
  import opened Chains

  /** The audit rows of one report, oldest first. */
  function Trail(a: seq<Audit>, id: string): seq<Audit> {
    if a == [] then [] else Trail(Front(a), id) + if Last(a).report == id then [Last(a)] else []
  }

  /** Where a trail leads: every report starts out pending. */
  function Outcome(trail: seq<Audit>): Verification {
    if trail == [] then Pending else Last(trail).to
  }

  predicate Contiguous(trail: seq<Audit>) {
    forall k :: 0 <= k < |trail| ==> trail[k].from == Outcome(trail[..k])
  }

  predicate HasPhoto(r: Report) {
    r.photo.Some? && r.photo.value != ""
  }

  predicate Accounted(a: seq<Audit>, r: Report) {
    var trail := Trail(a, r.id);
    && Contiguous(trail)
    && r.verification == Outcome(trail)
    && (r.verification == Verified ==> HasPhoto(r) || Last(trail).forced)
  }

  ghost predicate Referenced(a: seq<Audit>, ids: set<string>) {
    forall i :: 0 <= i < |a| ==> a[i].report in ids
  }

  ghost predicate Audited(db: Tables) {
    && Referenced(db.audit, Ids(db.reports))
    && AllAccounted(db.audit, db.reports)
  }

  ghost predicate AllAccounted(a: seq<Audit>, s: seq<Report>) {
    forall i :: 0 <= i < |s| ==> Accounted(a, s[i])
  }

  /** Before its commit a submitted row is pending and has no photo. */
  ghost predicate Blank(s: System) {
    forall t :: t in s.sessions ==> s.sessions[t].row.verification == Pending && s.sessions[t].row.photo == None
  }

  lemma StepBlank(w: World, cfg: Emergent, s: System, e: Event)
    requires Enabled(w, s, e) && Blank(s)
    ensures Blank(Apply(w, cfg, s, e))
  {
    forall t | t in SessionsAfter(w, cfg, s, e)
      ensures SessionsAfter(w, cfg, s, e)[t].row.verification == Pending && SessionsAfter(w, cfg, s, e)[t].row.photo == None
    {
      if Actor(e) != Some(t) {
        Bystander(w, cfg, s, e, t);
      } else {
        Performer(w, cfg, s, e, t);
      }
    }
  }

  lemma TrailAppend(a: seq<Audit>, row: Audit, id: string)
    ensures Trail(a + [row], id) == Trail(a, id) + if row.report == id then [row] else []
  {
    assert Front(a + [row]) == a;
  }

  lemma {:induction false} TrailWithout(a: seq<Audit>, gone: string, id: string)
    ensures Trail(AuditWithout(a, gone), id) == if id == gone then [] else Trail(a, id)
    ensures forall row :: row in AuditWithout(a, gone) ==> row in a && row.report != gone
  {
    if a != [] {
      TrailWithout(Front(a), gone, id);
      assert a == Front(a) + [Last(a)];
      if Last(a).report != gone {
        TrailAppend(AuditWithout(Front(a), gone), Last(a), id);
      } else {
        assert AuditWithout(a, gone) == AuditWithout(Front(a), gone);
      }
    }
  }

  lemma {:induction false} TrailOfUnknown(a: seq<Audit>, id: string)
    requires forall i :: 0 <= i < |a| ==> a[i].report != id
    ensures Trail(a, id) == []
  {
    if a != [] {
      TrailOfUnknown(Front(a), id);
    }
  }

  lemma ContiguousAppend(trail: seq<Audit>, row: Audit)
    requires Contiguous(trail) && row.from == Outcome(trail)
    ensures Contiguous(trail + [row])
  {
    forall k | 0 <= k < |trail + [row]|
      ensures (trail + [row])[k].from == Outcome((trail + [row])[..k])
    {
      assert (trail + [row])[..k] == trail[..k];
      assert trail[..|trail|] == trail;
    }
  }

  // ---- the four ways a step touches reports or their trail ----------------------------

  /** The verified row itself: its trail gains one row that starts where the trail ended. */
  lemma VerifiedRow(a: seq<Audit>, r: Report, to: Verification, actor: string, note: Option<string>, force: bool)
    requires Accounted(a, r) && (to == Verified ==> HasPhoto(r) || force)
    ensures Accounted(a + [Audit(r.id, r.verification, to, actor, note, force)], r.(verification := to))
  {
    var row := Audit(r.id, r.verification, to, actor, note, force);
    TrailAppend(a, row, r.id);
    ContiguousAppend(Trail(a, r.id), row);
  }

  lemma OtherRow(a: seq<Audit>, row: Audit, r: Report)
    requires Accounted(a, r) && row.report != r.id
    ensures Accounted(a + [row], r)
  {
    TrailAppend(a, row, r.id);
  }

  lemma VerifyKeepsCore(db: Tables, id: string, to: Verification)
    ensures SameCore(db.reports, SetVerification(db.reports, id, to))
    ensures Ids(SetVerification(db.reports, id, to)) == Ids(db.reports)
  {
    var reports := SetVerification(db.reports, id, to);
    assert SameCore(db.reports, reports);
    IdsCore(db.reports, reports);
  }

  lemma VerifyAudited(db: Tables, id: string, to: Verification, actor: string, note: Option<string>, force: bool)
    requires Audited(db) && Unique(db.reports) && VerifyOutcomeOf(db, id, to, force) == Updated
    ensures Audited(AfterVerify(db, id, to, actor, note, force))
  {
    VerifyReferenced(db, id, to, actor, note, force);
    forall i | 0 <= i < |db.reports|
      ensures Accounted(AfterVerify(db, id, to, actor, note, force).audit, SetVerification(db.reports, id, to)[i])
    {
      VerifyAccounts(db, id, to, actor, note, force, i);
    }
  }

  lemma VerifyReferenced(db: Tables, id: string, to: Verification, actor: string, note: Option<string>, force: bool)
    requires Referenced(db.audit, Ids(db.reports)) && VerifyOutcomeOf(db, id, to, force) == Updated
    ensures var db' := AfterVerify(db, id, to, actor, note, force); Referenced(db'.audit, Ids(db'.reports))
  {
    FindStored(db.reports, id);
    VerifyKeepsCore(db, id, to);
  }

  lemma VerifyAccounts(db: Tables, id: string, to: Verification, actor: string, note: Option<string>, force: bool, i: nat)
    requires Audited(db) && Unique(db.reports) && VerifyOutcomeOf(db, id, to, force) == Updated && i < |db.reports|
    ensures Accounted(AfterVerify(db, id, to, actor, note, force).audit, SetVerification(db.reports, id, to)[i])
  {
    var r := db.reports[i];
    assert Accounted(db.audit, r);
    if r.id == id {
      FindUnique(db.reports, r);
      VerifiedRow(db.audit, r, to, actor, note, force);
    } else {
      OtherRow(db.audit, Audit(id, Find(db.reports, id).value.verification, to, actor, note, force), r);
    }
  }

  lemma PhotoAudited(db: Tables, id: string)
    requires Audited(db)
    ensures Audited(AfterPhoto(db, id))
  {
    var db' := AfterPhoto(db, id);
    assert SameCore(db.reports, db'.reports);
    IdsCore(db.reports, db'.reports);
    forall i | 0 <= i < |db'.reports|
      ensures Accounted(db'.audit, db'.reports[i])
    {
      assert Accounted(db.audit, db.reports[i]);
      assert PhotoUrl(id)[0] == '/';
    }
  }

  lemma EraseReferenced(a: seq<Audit>, s: seq<Report>, id: string)
    requires Referenced(a, Ids(s))
    ensures Referenced(AuditWithout(a, id), Ids(Erase(s, id)))
  {
    IdsErase(s, id);
    TrailWithout(a, id, id);
    forall i | 0 <= i < |AuditWithout(a, id)|
      ensures AuditWithout(a, id)[i].report in Ids(s) - {id}
    {
      assert AuditWithout(a, id)[i] in a;
    }
  }

  lemma EraseAccounts(a: seq<Audit>, s: seq<Report>, id: string)
    requires AllAccounted(a, s)
    ensures AllAccounted(AuditWithout(a, id), Erase(s, id))
  {
    forall i | 0 <= i < |Erase(s, id)|
      ensures Accounted(AuditWithout(a, id), Erase(s, id)[i])
    {
      var r := Erase(s, id)[i];
      EraseMembers(s, id, r);
      var r0 :| r0 in s && r == (if r0.supersedes == Some(id) then r0.(supersedes := None) else r0);
      var j :| 0 <= j < |s| && s[j] == r0;
      assert Accounted(a, s[j]);
      TrailWithout(a, id, r.id);
    }
  }

  lemma EraseAudited(db: Tables, id: string, caller: string)
    requires Audited(db) && WithdrawOutcomeOf(db, id, caller).Erased?
    ensures Audited(AfterWithdraw(db, id, caller))
  {
    EraseReferenced(db.audit, db.reports, id);
    EraseAccounts(db.audit, db.reports, id);
  }

  lemma StoreAudited(db: Tables, db': Tables, r: Report)
    requires Audited(db) && db'.audit == db.audit && db'.reports == db.reports + [r]
    requires r.id !in Ids(db.reports) && r.verification == Pending
    ensures Audited(db')
  {
    IdsAppend(db.reports, r);
    TrailOfUnknown(db.audit, r.id);
    forall i | 0 <= i < |db'.reports|
      ensures Accounted(db'.audit, db'.reports[i])
    {
      if i < |db.reports| {
        assert Accounted(db.audit, db.reports[i]);
      }
    }
  }

  lemma SameAudited(db: Tables, db': Tables)
    requires Audited(db) && db'.audit == db.audit && SameCore(db.reports, db'.reports)
    requires forall i :: 0 <= i < |db.reports| ==>
      db'.reports[i].verification == db.reports[i].verification && db'.reports[i].photo == db.reports[i].photo
    ensures Audited(db')
  {
    IdsCore(db.reports, db'.reports);
    forall i | 0 <= i < |db'.reports|
      ensures Accounted(db'.audit, db'.reports[i])
    {
      CoreFields(db.reports[i], db'.reports[i]);
      assert Accounted(db.audit, db.reports[i]);
    }
  }

  /** Nothing else writes verification, photos or the trail. */
  lemma OtherSteps(w: World, cfg: Emergent, s: System, e: Event)
    requires !Stores(s, e) && !Erases(s, e) && !e.Photo?
    requires e.Verify? ==> VerifyOutcomeOf(s.db, e.id, e.to, e.force) != Updated
    ensures var db' := DbAfter(w, cfg, s, e);
      && db'.audit == s.db.audit && |db'.reports| == |s.db.reports|
      && forall i :: 0 <= i < |s.db.reports| ==>
           db'.reports[i].verification == s.db.reports[i].verification && db'.reports[i].photo == s.db.reports[i].photo
  {
    if e.Commit? && e.t in s.sessions {
      assert DbAfter(w, cfg, s, e).reports == s.db.reports;
    }
  }

  lemma StepAudited(w: World, cfg: Emergent, s: System, e: Event)
    requires Enabled(w, s, e) && Good(s) && Blank(s) && Audited(s.db)
    ensures Audited(DbAfter(w, cfg, s, e))
  {
    if e.Photo? {
      PhotoAudited(s.db, e.id);
    } else if e.Verify? && VerifyOutcomeOf(s.db, e.id, e.to, e.force) == Updated {
      VerifyAudited(s.db, e.id, e.to, e.actor, e.note, e.force);
    } else if Erases(s, e) {
      EraseAudited(s.db, e.id, e.caller);
    } else {
      StepReports(w, cfg, s, e);
      if Stores(s, e) {
        StoredIsPending(w, s, e);
        StoreAudited(s.db, DbAfter(w, cfg, s, e), s.sessions[e.t].row);
      } else {
        OtherSteps(w, cfg, s, e);
        SameAudited(s.db, DbAfter(w, cfg, s, e));
      }
    }
  }

  lemma {:induction false} AlwaysAudited(w: World, cfg: Emergent, states: seq<System>, evs: seq<Event>, i: nat)
    requires Run(w, cfg, states, evs) && i < |states|
    ensures Blank(states[i]) && Audited(states[i].db)
  {
    if i == 0 {
      assert Initial(states[0]);
    } else {
      AlwaysAudited(w, cfg, states, evs, i - 1);
      AlwaysGood(w, cfg, states, evs, i - 1);
      StepBlank(w, cfg, states[i - 1], evs[i - 1]);
      StepAudited(w, cfg, states[i - 1], evs[i - 1]);
    }
  }

  /**
   In every reachable state each report's audit rows run from pending, each row starting where the one before ended and
   the last ending at the report's verification; and a verified report has a photo or was last verified by force.
   */
  lemma TrailsAreComplete(w: World, cfg: Emergent, states: seq<System>, evs: seq<Event>, n: nat, r: Report)
    requires Run(w, cfg, states, evs) && n < |states| && r in states[n].db.reports
    ensures var trail := Trail(states[n].db.audit, r.id);
      && (trail == [] ==> r.verification == Pending)
      && (trail != [] ==> trail[0].from == Pending && trail[|trail| - 1].to == r.verification)
      && (forall k :: 1 <= k < |trail| ==> trail[k].from == trail[k - 1].to)
      && (r.verification == Verified ==> HasPhoto(r) || (trail != [] && trail[|trail| - 1].forced))
  {
    AlwaysAudited(w, cfg, states, evs, n);
    TrailIsComplete(states[n].db, r);
  }

  lemma TrailIsComplete(db: Tables, r: Report)
    requires Audited(db) && r in db.reports
    ensures var trail := Trail(db.audit, r.id);
      && (trail == [] ==> r.verification == Pending)
      && (trail != [] ==> trail[0].from == Pending && trail[|trail| - 1].to == r.verification)
      && (forall k :: 1 <= k < |trail| ==> trail[k].from == trail[k - 1].to)
      && (r.verification == Verified ==> HasPhoto(r) || (trail != [] && trail[|trail| - 1].forced))
  {
    var i :| 0 <= i < |db.reports| && db.reports[i] == r;
    assert Accounted(db.audit, db.reports[i]);
    var trail := Trail(db.audit, r.id);
    forall k | 1 <= k < |trail|
      ensures trail[k].from == trail[k - 1].to
    {
      assert Last(trail[..k]) == trail[k - 1];
    }
  }

  /** Ids and idempotency keys are unique in every reachable state, and each is found by its own look-up. */
  lemma IdsAndKeysUnique(w: World, cfg: Emergent, states: seq<System>, evs: seq<Event>, n: nat, i: nat, j: nat)
    requires Run(w, cfg, states, evs) && n < |states|
    requires i < |states[n].db.reports| && j < |states[n].db.reports|
    requires states[n].db.reports[i].id == states[n].db.reports[j].id || states[n].db.reports[i].key == states[n].db.reports[j].key
    ensures i == j && Find(states[n].db.reports, states[n].db.reports[i].id) == Some(states[n].db.reports[i])
  {
    AlwaysGood(w, cfg, states, evs, n);
    assert Unique(states[n].db.reports);
    FindUnique(states[n].db.reports, states[n].db.reports[i]);
  }
}
