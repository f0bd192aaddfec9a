/**
 The store as the service uses it: tables held in fields, each operation a sequence of SQL statements that update them,
 and transactions that are rolled back as a whole.  Every operation is proved to do to the tables what the functions
 of Tables, Intake and Atomic say, which is what the results over runs are about.
 */
module Database {
  import opened Basics
  import opened Tables
  import opened Intake
  import opened Rows
  import opened Safety
  import opened Chains
  import opened Limits

  class Store {
    var reports: seq<Report>
    var buildings: map<string, Building>
    var crises: map<string, Crisis>
    var audit: seq<Audit>
    var withdrawals: seq<Withdrawal>
    const devices: map<string, string>

    constructor (devices: map<string, string>)
      ensures Contents() == Tables([], map[], map[], [], [], devices)
    {
      this.reports, this.buildings, this.crises, this.audit, this.withdrawals := [], map[], map[], [], [];
      this.devices := devices;
    }

    function Contents(): (db: Tables)
      reads this
    {
      Tables(reports, buildings, crises, audit, withdrawals, devices)
    }

    /** ROLLBACK to what the tables held when the transaction began. */
    method Rollback(before: Tables)
      requires before.devices == devices
      modifies this
      ensures Contents() == before
    {
      reports, buildings, crises := before.reports, before.buildings, before.crises;
      audit, withdrawals := before.audit, before.withdrawals;
    }

    // ---- write.go --------------------------------------------------------------

    /** INSERT ... ON CONFLICT (id) DO UPDATE SET current_damage = COALESCE(EXCLUDED.current_damage, ...) */
    method UpsertBuilding(b: string, crisis: Option<string>, damage: Option<string>) returns (ok: bool)
      modifies this`buildings
      ensures ok <==> b in old(buildings) || (crisis.Some? ==> crisis.value in crises)
      ensures !ok ==> buildings == old(buildings)
      ensures ok ==> buildings.Keys == old(buildings).Keys + {b} && forall o :: o in old(buildings) && o != b ==>
                buildings[o] == old(buildings)[o]
      ensures ok && b !in old(buildings) ==> buildings[b].crisis == crisis && buildings[b].damage == damage
      ensures ok && b in old(buildings) ==> buildings[b].crisis == old(buildings)[b].crisis
      ensures ok && b in old(buildings) && damage.Some? ==> buildings[b].damage == damage
      ensures ok && b in old(buildings) && damage == None ==> buildings[b].damage == old(buildings)[b].damage
      ensures ok ==> buildings == old(buildings)[b := Upserted(old(buildings), b, crisis, damage)]
    {
      if b in buildings {
        ok := true;
        if damage.Some? {
          buildings := buildings[b := buildings[b].(damage := damage)];
        } else {
          assert buildings == buildings[b := buildings[b]];
        }
      } else if crisis.Some? && crisis.value !in crises {
        ok := false;
      } else {
        ok := true;
        buildings := buildings[b := Building(crisis, damage)];
      }
    }

    /** A re-ingested footprint keeps the damage the reports established and the crisis the row has. */
    method UpsertBuildingFootprint(b: string, crisis: Option<string>) returns (ok: bool)
      modifies this`buildings
      ensures Contents() == AfterFootprint(old(Contents()), b, crisis)
      ensures b in old(buildings) ==> ok && buildings == old(buildings)
      ensures b !in old(buildings) ==> (ok <==> crisis == None || crisis.value in crises)
      ensures b !in old(buildings) && ok ==> buildings == old(buildings)[b := Building(crisis, None)]
      ensures b !in old(buildings) && !ok ==> buildings == old(buildings)
    {
      if b in buildings {
        ok := true;
      } else {
        ok := crisis.Some? ==> crisis.value in crises;
        if ok {
          buildings := buildings[b := Building(crisis, None)];
        }
      }
    }

    /** One more than the building has reports, and the one of them no other is newer than. */
    method NextVersionForBuilding(b: string) returns (version: nat, supersedes: Option<string>)
      ensures version == |set i | 0 <= i < |reports| && reports[i].building == Some(b)| + 1
      ensures supersedes == None <==> forall r :: r in reports ==> r.building != Some(b)
      ensures supersedes.Some? ==> exists r :: r in reports && r.building == Some(b) && r.id == supersedes.value
                                               && forall o :: o in reports && o.building == Some(b) ==> !Newer(o, r)
      ensures version == |OfBuilding(reports, b)| + 1 && supersedes == NewestId(OfBuilding(reports, b))
    {
      var chain := OfBuilding(reports, b);
      version, supersedes := |chain| + 1, NewestId(chain);
      OfBuildingSize(reports, b);
      OfBuildingMembers(reports, b);
      NewestMember(chain);
      forall o | o in chain ensures Newest(chain).Some? && !Newer(o, Newest(chain).value) {
        NewestIsMaximal(chain, o);
      }
    }

    /** INSERT ... ON CONFLICT (id) DO NOTHING, subject to the keys of `reports`, which it keeps. */
    method UpsertReport(r: Report) returns (outcome: InsertOutcome)
      modifies this`reports
      ensures outcome == Replay <==> exists o :: o in old(reports) && o.id == r.id
      ensures outcome == KeyTaken <==> outcome != Replay && exists o :: o in old(reports) && o.key == r.key
      ensures outcome == ForeignKey <==>
                && outcome != Replay && outcome != KeyTaken
                && (|| (r.crisis.Some? && r.crisis.value !in crises)
                    || (r.supersedes.Some? && forall o :: o in old(reports) ==> o.id != r.supersedes.value)
                    || (r.building == Some("") && "" !in buildings))
      ensures outcome != Inserted ==> reports == old(reports)
      ensures outcome == Inserted ==> reports == old(reports) + [r] && Find(reports, r.id) == Some(r)
      ensures Unique(old(reports)) ==> Unique(reports)
      ensures Linked(old(reports)) ==> Linked(reports)
      ensures ForeignKeys(old(Contents())) && (HasBuilding(r) ==> r.building.value in buildings) ==> ForeignKeys(Contents())
      ensures outcome == InsertOutcomeOf(old(Contents()), r)
    {
      if r.id in Ids(reports) {
        return Replay;
      }
      if r.key in Keys(reports) {
        return KeyTaken;
      }
      if r.crisis.Some? && r.crisis.value !in crises {
        return ForeignKey;
      }
      if r.supersedes.Some? && r.supersedes.value !in Ids(reports) {
        return ForeignKey;
      }
      if r.building.Some? && r.building.value == "" && r.building.value !in buildings {
        return ForeignKey;
      }
      InsertKeeps(Contents(), r);
      reports := reports + [r];
      outcome := Inserted;
    }

    /** The cached damage becomes that of a report of the building which no other is newer than; nothing else changes. */
    method RefreshBuildingCurrentDamage(b: string)
      modifies this`buildings
      ensures buildings.Keys == old(buildings).Keys
      ensures forall a :: a in buildings ==> buildings[a] == old(buildings)[a].(damage := buildings[a].damage)
      ensures forall a :: a in buildings && a != b ==> buildings[a].damage == old(buildings)[a].damage
      ensures b in buildings ==>
        match buildings[b].damage
        case None => forall r :: r in reports ==> r.building != Some(b)
        case Some(damage) => exists r :: r in reports && r.building == Some(b) && r.damage == damage
                                         && forall o :: o in reports && o.building == Some(b) ==> !Newer(o, r)
      ensures b in buildings ==> buildings[b].damage == NewestDamage(OfBuilding(reports, b))
    {
      var newest := Newest(OfBuilding(reports, b));
      OfBuildingMembers(reports, b);
      NewestMember(OfBuilding(reports, b));
      forall o | o in OfBuilding(reports, b) ensures newest.Some? && !Newer(o, newest.value) {
        NewestIsMaximal(OfBuilding(reports, b), o);
      }
      if b in buildings {
        buildings := buildings[b := buildings[b].(damage := if newest.Some? then Some(newest.value.damage) else None)];
      }
    }

    /** The analyst's decision and its audit row, in one transaction. */
    method UpdateVerification(id: string, status: Verification, actor: string, note: Option<string>, force: bool)
      returns (outcome: VerifyOutcome)
      modifies this`reports, this`audit
      ensures outcome == NotFound <==> forall r :: r in old(reports) ==> r.id != id
      ensures outcome == PhotoRequired ==> status == Verified && !force
      ensures outcome == PhotoRequired ==>
                exists r :: r in old(reports) && r.id == id && (r.photo == None || r.photo == Some(""))
      ensures outcome == Updated && status == Verified && !force ==>
                exists r :: r in old(reports) && r.id == id && r.photo.Some? && r.photo.value != ""
      ensures outcome == Updated ==> |reports| == |old(reports)|
      ensures outcome == Updated ==> forall i :: 0 <= i < |reports| ==>
                reports[i] == old(reports)[i].(verification := reports[i].verification)
      ensures outcome == Updated ==> forall i :: 0 <= i < |reports| && reports[i].id == id ==> reports[i].verification == status
      ensures outcome == Updated ==> forall i :: 0 <= i < |reports| && reports[i].id != id ==> reports[i] == old(reports)[i]
      ensures outcome == Updated ==> exists r :: r in old(reports) && r.id == id
                                       && audit == old(audit) + [Audit(id, r.verification, status, actor, note, force)]
      ensures outcome != Updated ==> reports == old(reports) && audit == old(audit)
      ensures outcome == VerifyOutcomeOf(old(Contents()), id, status, force)
      ensures Contents() == AfterVerify(old(Contents()), id, status, actor, note, force)
    {
      var r := Find(reports, id);
      FindStored(reports, id);
      if r == None {
        return NotFound;
      }
      if status == Verified && (r.value.photo == None || r.value.photo.value == "") && !force {
        return PhotoRequired;
      }
      audit := audit + [Audit(id, r.value.verification, status, actor, note, force)];
      reports := SetVerification(reports, id, status);
      outcome := Updated;
    }

    // ---- reports.go -------------------------------------------------------------

    /** Only the photo of the one report changes, and its verification is no longer refused for want of one. */
    method SetPhotoURL(id: string) returns (found: bool)
      modifies this`reports
      ensures found <==> exists r :: r in old(reports) && r.id == id
      ensures |reports| == |old(reports)|
      ensures forall i :: 0 <= i < |reports| ==> reports[i] == old(reports)[i].(photo := reports[i].photo)
      ensures forall i :: 0 <= i < |reports| && reports[i].id != id ==> reports[i].photo == old(reports)[i].photo
      ensures forall i :: 0 <= i < |reports| && reports[i].id == id ==>
                reports[i].photo == Some("/api/v1/reports/" + id + "/photo")
      ensures found ==> forall force :: VerifyOutcomeOf(Contents(), id, Verified, force) == Updated
      ensures Contents() == AfterPhoto(old(Contents()), id)
    {
      found := id in Ids(reports);
      reports := SetPhoto(reports, id, PhotoUrl(id));
      IdsCore(old(reports), reports);
      FindStored(reports, id);
    }

    /** Re-geocoding: the chain of the one report changes and nothing else. */
    method UpdateReportAdmin(id: string, chain: AdminChain)
      modifies this`reports
      ensures |reports| == |old(reports)|
      ensures forall i :: 0 <= i < |reports| && old(reports)[i].id != id ==> reports[i] == old(reports)[i]
      ensures forall i :: 0 <= i < |reports| && old(reports)[i].id == id ==> reports[i] == old(reports)[i].(admin := chain)
      ensures Contents() == AfterRestamp(old(Contents()), id, chain)
    {
      reports := SetAdmin(reports, id, chain);
    }

    /** Erasure: unlink, delete with its audit rows, and leave a withdrawal row, in one transaction. */
    method WithdrawReport(id: string, caller: string) returns (outcome: WithdrawOutcome)
      modifies this`reports, this`audit, this`withdrawals
      ensures outcome.NoSuchReport? <==> forall r :: r in old(reports) ==> r.id != id
      ensures outcome.Erased? ==>
                exists r :: && r in old(reports) && r.id == id && caller != ""
                            && r.submitter.Some? && r.submitter.value in devices && devices[r.submitter.value] == caller
                            && outcome.photo == r.photo
                            && withdrawals == old(withdrawals) + [Withdrawal(id, r.submitter, r.crisis)]
      ensures outcome.NotOwner? && Unique(old(reports)) ==> forall r :: r in old(reports) && r.id == id ==>
                caller == "" || r.submitter == None || r.submitter.value !in devices || devices[r.submitter.value] != caller
      ensures outcome.Erased? ==> forall r :: r in reports ==> r.id != id && r.supersedes != Some(id)
      ensures outcome.Erased? ==> forall r :: r in old(reports) && r.id != id ==>
                r in reports || (r.supersedes == Some(id) && r.(supersedes := None) in reports)
      ensures outcome.Erased? ==> forall r :: r in reports ==>
                r in old(reports) || exists o :: o in old(reports) && o.supersedes == Some(id) && r == o.(supersedes := None)
      ensures outcome.Erased? ==> forall a :: a in audit <==> a in old(audit) && a.report != id
      ensures !outcome.Erased? ==> reports == old(reports) && audit == old(audit) && withdrawals == old(withdrawals)
      ensures outcome == WithdrawOutcomeOf(old(Contents()), id, caller)
      ensures Contents() == AfterWithdraw(old(Contents()), id, caller)
    {
      var r := Find(reports, id);
      FindStored(reports, id);
      if r == None {
        return NoSuchReport;
      }
      if Unique(reports) {
        OnlyOne(reports, r.value);
      }
      var device := if r.value.submitter.Some? && r.value.submitter.value in devices
                    then Some(devices[r.value.submitter.value]) else None;
      if device == None || device.value == "" || caller == "" || caller != device.value {
        return NotOwner;
      }
      ghost var before := reports;
      reports := Unlink(reports, id);
      reports := Without(reports, id);
      audit := AuditWithout(audit, id);
      withdrawals := withdrawals + [Withdrawal(id, r.value.submitter, r.value.crisis)];
      outcome := Erased(r.value.photo);
      ErasedRows(before, id);
      ErasedAudit(old(audit), id);
    }

    method CountRecentBySubmitter(u: string, since: Time) returns (n: nat)
      ensures n == |set i | 0 <= i < |reports| && reports[i].submitter == Some(u) && since <= reports[i].created|
      ensures n == CountRecent(reports, u, since)
    {
      n := CountRecent(reports, u, since);
      CountRecentSize(reports, u, since);
    }

    /** An earlier pin of the submitter that the new one would duplicate: one than which no other such pin is newer. */
    method FindDuplicateBySubmitter(w: World, u: string, r: Report) returns (existing: Option<string>)
      ensures existing.Some? <==> exists o :: o in reports && DuplicateCandidate(w, o, u, r)
      ensures existing.Some? ==> exists o :: o in reports && DuplicateCandidate(w, o, u, r) && o.id == existing.value
                                             && forall p :: p in reports && DuplicateCandidate(w, p, u, r) ==> !Newer(p, o)
      ensures forall o :: DuplicateCandidate(w, o, u, r) <==>
                && o.submitter == Some(u) && o.id != r.id
                && (o.building.Some? ==> o.source != Some("footprint") && !("fp-" <= o.building.value))
                && o.captured >= r.captured - 600_000_000_000
                && o.point.Some? && r.point.Some? && w.meters(o.point.value, r.point.value) <= 25.0
      ensures existing == NewestId(Duplicates(w, reports, u, r))
    {
      var found := Duplicates(w, reports, u, r);
      existing := NewestId(found);
      DuplicatesFilter(w, reports, u, r);
      NewestMember(found);
      forall o | o in found ensures Newest(found).Some? && !Newer(o, Newest(found).value) {
        NewestIsMaximal(found, o);
      }
    }

    // ---- crisis.go --------------------------------------------------------------

    /** A declared crisis is active and 40 km wide unless it says otherwise; a known id is left alone. */
    method UpsertCrisis(id: string, status: Option<CrisisStatus>, center: Point, radiusKm: real, started: Time, emergent: bool)
      modifies this`crises
      ensures id in old(crises) ==> crises == old(crises)
      ensures crises.Keys == old(crises).Keys + {id}
      ensures id !in old(crises) ==>
                && crises[id].center == center && crises[id].started == started && crises[id].ended == None
                && crises[id].emergent == emergent
                && crises[id].status == (if status.Some? then status.value else Active)
                && crises[id].radiusKm == if radiusKm != 0.0 then radiusKm else 40.0
      ensures forall c :: c in old(crises) && c != id ==> c in crises && crises[c] == old(crises)[c]
      ensures var state, radius := if status.Some? then status.value else Active, if radiusKm != 0.0 then radiusKm else 40.0;
        Contents() == AfterDeclare(old(Contents()), id, Crisis(state, center, radius, started, None, emergent))
    {
      var state, radius := Active, radiusKm;
      if status.Some? {
        state := status.value;
      }
      if radius == 0.0 {
        radius := 40.0;
      }
      if id !in crises {
        crises := crises[id := Crisis(state, center, radius, started, None, emergent)];
      }
    }

    method SetCrisisStatus(id: string, status: CrisisStatus) returns (found: bool)
      modifies this`crises, this`reports, this`buildings
      ensures found <==> id in old(crises)
      ensures found ==> crises == old(crises)[id := old(crises)[id].(status := status)]
      ensures found && status == Dismissed ==> |reports| == |old(reports)|
      ensures found && status == Dismissed ==> forall i :: 0 <= i < |reports| ==>
                if old(reports)[i].crisis == Some(id) then reports[i] == old(reports)[i].(crisis := None)
                else reports[i] == old(reports)[i]
      ensures found && status == Dismissed ==> buildings.Keys == old(buildings).Keys
      ensures found && status == Dismissed ==> forall b :: b in buildings ==>
                if old(buildings)[b].crisis == Some(id) then buildings[b] == old(buildings)[b].(crisis := None)
                else buildings[b] == old(buildings)[b]
      ensures !found || status != Dismissed ==> reports == old(reports) && buildings == old(buildings)
      ensures !found ==> crises == old(crises)
      ensures Contents() == AfterStatus(old(Contents()), id, status)
    {
      found := id in crises;
      if found {
        crises := crises[id := crises[id].(status := status)];
        if status == Dismissed {
          reports := Release(reports, id);
          buildings := map b | b in buildings ::
            if buildings[b].crisis == Some(id) then buildings[b].(crisis := None) else buildings[b];
        }
      }
    }

    /** The nearest eligible crisis; which of several equally near ones is the database's choice. */
    method AssignCrisis(w: World, p: Point, at: Time) returns (choice: Option<string>)
      ensures forall c :: && c in crises
                          && (crises[c].status == Active || crises[c].status == Proposed)
                          && w.meters(crises[c].center, p) <= crises[c].radiusKm * 1000.0
                          && at >= crises[c].started - 604_800_000_000_000
                          && (crises[c].ended.Some? ==> at <= crises[c].ended.value + 604_800_000_000_000) ==>
                && choice.Some? && choice.value in crises
                && w.meters(crises[choice.value].center, p) <= w.meters(crises[c].center, p)
      ensures choice.Some? ==>
                && choice.value in crises
                && (crises[choice.value].status == Active || crises[choice.value].status == Proposed)
                && w.meters(crises[choice.value].center, p) <= crises[choice.value].radiusKm * 1000.0
                && at >= crises[choice.value].started - 604_800_000_000_000
                && (crises[choice.value].ended.Some? ==> at <= crises[choice.value].ended.value + 604_800_000_000_000)
      ensures Assignable(w, crises, p, at, choice)
    {
      var eligible := set c | c in crises && Eligible(w, crises[c], p, at);
      assert forall c :: c in crises && Eligible(w, crises[c], p, at) ==> c in eligible;
      if eligible == {} {
        return None;
      }
      var nearest := NearestAmong(w, crises, eligible, p);
      var c :| c in eligible && forall o :: o in eligible ==> w.meters(crises[c].center, p) <= w.meters(crises[o].center, p);
      choice := Some(c);
    }

    /**
     The gate on committed reports, then the proposal and its pull-in in one transaction.  The gate counts the submitters
     of the pending reports near enough, recent enough and in the area; exactly these reports are pulled in.
     */
    method DetectEmergentCrisis(
      w: World, p: Point, at: Time, cfg: Emergent, scope: Scope, id: string, center: Point, started: Time)
      returns (proposed: bool)
      requires id !in crises
      modifies this`crises, this`reports, this`buildings
      ensures var near := set r | && r in old(reports) && r.crisis == None && r.submitter.Some?
                                  && r.point.Some? && w.meters(r.point.value, p) <= cfg.radiusKm * 1000.0
                                  && r.captured >= at - cfg.windowHrs * 3_600_000_000_000
                                  && InArea(r.admin, scope) :: r.submitter.value;
        proposed <==> |near| >= cfg.minReports
      ensures !proposed ==> Contents() == old(Contents())
      ensures proposed ==> crises == old(crises)[id := Crisis(Proposed, center, cfg.radiusKm, started, None, true)]
      ensures proposed ==> |reports| == |old(reports)|
      ensures proposed ==> forall i :: 0 <= i < |reports| ==>
                var r := old(reports)[i];
                if && r.crisis == None && r.point.Some? && w.meters(r.point.value, p) <= cfg.radiusKm * 1000.0
                   && r.captured >= at - cfg.windowHrs * 3_600_000_000_000 && InArea(r.admin, scope)
                then reports[i] == r.(crisis := Some(id)) else reports[i] == r
      ensures proposed ==> buildings.Keys == old(buildings).Keys
      ensures proposed ==> forall b :: b in buildings ==>
                if old(buildings)[b].crisis == None && exists r :: r in reports && r.crisis == Some(id) && r.building == Some(b)
                then buildings[b] == old(buildings)[b].(crisis := Some(id)) else buildings[b] == old(buildings)[b]
      ensures var q := Cluster(p, at - cfg.windowHrs * HOUR, cfg.radiusKm, scope);
        Contents() == if proposed then AfterPullIn(w, old(Contents()), q, id, center, started) else old(Contents())
      ensures proposed <==> GateOpens(w, cfg, old(reports), Cluster(p, at - cfg.windowHrs * HOUR, cfg.radiusKm, scope))
    {
      var q := Cluster(p, at - cfg.windowHrs * HOUR, cfg.radiusKm, scope);
      ClusterIsNear(w, p, at, cfg, scope);
      NearSubmitters(w, reports, p, at, cfg, scope);
      proposed := |Submitters(w, reports, q)| >= cfg.minReports;
      if proposed {
        crises := crises[id := Crisis(Proposed, center, q.radiusKm, started, None, true)];
        reports := PullIn(w, reports, q, id);
        buildings := map b | b in buildings ::
          if buildings[b].crisis == None && (exists r :: r in reports && r.crisis == Some(id) && r.building == Some(b))
          then buildings[b].(crisis := Some(id)) else buildings[b];
      }
    }
  }

  /** A crisis of some at the smallest distance. */
  lemma {:induction false} NearestAmong(w: World, crises: map<string, Crisis>, ids: set<string>, p: Point) returns (c: string)
    requires ids <= crises.Keys && ids != {}
    ensures c in ids && forall o :: o in ids ==> w.meters(crises[c].center, p) <= w.meters(crises[o].center, p)
    decreases ids
  {
    c :| c in ids;
    if ids != {c} {
      var o := NearestAmong(w, crises, ids - {c}, p);
      if w.meters(crises[o].center, p) < w.meters(crises[c].center, p) {
        c := o;
      }
    }
  }

  function Upserted(
    buildings: map<string, Building>, b: string, crisis: Option<string>, damage: Option<string>): Building
  {
    if b in buildings then buildings[b].(damage := if damage.Some? then damage else buildings[b].damage)
    else Building(crisis, damage)
  }

  /** An insert that succeeds keeps every key of the table. */
  lemma InsertKeeps(db: Tables, r: Report)
    requires InsertOutcomeOf(db, r) == Inserted
    ensures var s := db.reports + [r];
      && Find(s, r.id) == Some(r)
      && (Unique(db.reports) ==> Unique(s)) && (Linked(db.reports) ==> Linked(s))
      && (ForeignKeys(db) && (HasBuilding(r) ==> r.building.value in db.buildings) ==> ForeignKeys(db.(reports := s)))
  {
    assert Front(db.reports + [r]) == db.reports;
    if Unique(db.reports) {
      UniqueAppend(db.reports, r);
    }
    if Linked(db.reports) {
      LinkedAppend(db.reports, r);
    }
  }

  /** As many reports as there are positions that hold one of the building. */
  lemma OfBuildingSize(s: seq<Report>, b: string)
    ensures |OfBuilding(s, b)| == |set i | 0 <= i < |s| && s[i].building == Some(b)|
  {
    var p := (r: Report) => r.building == Some(b);
    OfBuildingWhere(s, b, p);
    assert Where(s, p) == set i | 0 <= i < |s| && s[i].building == Some(b);
  }

  lemma {:induction false} OfBuildingWhere(s: seq<Report>, b: string, p: Report -> bool)
    requires forall r :: p(r) <==> r.building == Some(b)
    ensures |OfBuilding(s, b)| == |Where(s, p)|
  {
    if s == [] {
      assert Where(s, p) == {};
    } else {
      OfBuildingWhere(Front(s), b, p);
      WhereFront(s, p);
    }
  }

  /** With unique ids, a row is the only one of its id. */
  lemma OnlyOne(s: seq<Report>, r: Report)
    requires Unique(s) && r in s
    ensures forall o :: o in s && o.id == r.id ==> o == r
  {
    var i :| 0 <= i < |s| && s[i] == r;
    forall o | o in s && o.id == r.id
      ensures o == r
    {
      var j :| 0 <= j < |s| && s[j] == o;
      assert i == j;
    }
  }

  /** An erasure takes one id with the links to it, and no other row. */
  lemma {:induction false} ErasedRows(s: seq<Report>, id: string)
    ensures forall r :: r in Erase(s, id) ==> r.id != id && r.supersedes != Some(id)
    ensures forall r :: r in Erase(s, id) ==>
      r in s || exists o :: o in s && o.supersedes == Some(id) && r == o.(supersedes := None)
    ensures forall r :: r in s && r.id != id ==>
      r in Erase(s, id) || (r.supersedes == Some(id) && r.(supersedes := None) in Erase(s, id))
  {
    if s != [] {
      EraseFront(s, id);
      ErasedRows(Front(s), id);
      assert s == Front(s) + [Last(s)];
    }
  }

  lemma {:induction false} ErasedAudit(a: seq<Audit>, id: string)
    ensures forall row :: row in AuditWithout(a, id) <==> row in a && row.report != id
  {
    if a != [] {
      ErasedAudit(Front(a), id);
      assert a == Front(a) + [Last(a)];
    }
  }
}
