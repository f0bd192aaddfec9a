/** The report service on top of the store: normalising and validating a request, and Submit. */
module Service {
  import opened Basics
  import opened Tables
  import opened Intake
  import opened Rows
  import opened Atomic
  import opened Database
  import opened Chains

  /** The candidate coordinates: the flat pair if complete, else the nested pair if complete. */
  method ReadPoint(req: Request) returns (at: Option<Point>)
    ensures at == if req.resolved == Some(false) then None else CandidatePoint(req)
  {
    var resolved := true;
    if req.resolved.Some? {
      resolved := req.resolved.value;
    }
    at := None;
    if req.lat.Some? && req.lng.Some? {
      at := Some(Point(req.lat.value, req.lng.value));
    } else if req.location.Some? && req.location.value.lat.Some? && req.location.value.lng.Some? {
      at := Some(Point(req.location.value.lat.value, req.location.value.lng.value));
    }
    if !resolved {
      at := None;
    }
  }

  /** Building, trusted source and landmark: flat values first, then nested ones. */
  method ReadPlace(req: Request) returns (building: Option<string>, source: Option<string>, landmark: Option<string>)
    ensures var nested := if req.location.Some? then req.location.value else Location(None, None, None, None, None);
      && building == Pick(req.building, nested.building)
      && source == (if Pick(req.source, nested.source) == Some("footprint") then Some("footprint") else None)
      && landmark == Pick(req.landmark, nested.landmark)
  {
    building, source, landmark := req.building, req.source, req.landmark;
    if req.location.Some? {
      var l := req.location.value;
      if building == None {
        building := l.building;
      }
      if source == None {
        source := l.source;
      }
      if landmark == None {
        landmark := l.landmark;
      }
    }
    if source.Some? && source.value != "footprint" {
      source := None;
    }
  }

  /** The idempotency key, made from the id if there is none, and the pinned crisis. */
  method ReadKeys(req: Request) returns (key: string, crisis: Option<string>)
    ensures key == if req.key == "" && req.id != "" then "idem-" + req.id else req.key
    ensures crisis == if req.crisis == "" || req.crisis == "auto" then None else Some(req.crisis)
  {
    key, crisis := req.key, Some(req.crisis);
    if key == "" && req.id != "" {
      key := "idem-" + req.id;
    }
    if req.crisis == "" || req.crisis == "auto" {
      crisis := None;
    }
  }

  /** Debris and the two lists, with their default and their older aliases. */
  method ReadAnswers(req: Request) returns (debris: string, infraTypes: seq<string>, natures: seq<string>)
    ensures debris == if req.debris == "" then "unsure" else req.debris
    ensures infraTypes == Aliased(req.infraTypes, req.infra) && natures == Aliased(req.natures, req.natureAlias)
  {
    debris, infraTypes, natures := req.debris, req.infraTypes, req.natures;
    if debris == "" {
      debris := "unsure";
    }
    if infraTypes == [] {
      infraTypes := req.infra;
    }
    if natures == [] {
      natures := req.natureAlias;
    }
  }

  lemma NormalizedAsAsked(req: Request, submitter: Option<string>, now: Time)
    ensures AsAsked(Normalize(req, submitter, now), req, submitter, now)
  {
    NormalizedPlace(req, submitter, now);
  }

  lemma NormalizedPlace(req: Request, submitter: Option<string>, now: Time)
    ensures PlacedAsAsked(Normalize(req, submitter, now), req)
  {}

  /** normalize: defaults and aliases filled in one after another. */
  method FillReport(req: Request, submitter: Option<string>, now: Time) returns (r: Report)
    ensures AsAsked(r, req, submitter, now)
    ensures r.crisis == None <==> req.crisis == "" || req.crisis == "auto"
    ensures r.crisis.Some? ==> r.crisis.value == req.crisis
    ensures r.version == 1 && r.supersedes == None && r.created == now && r.admin == NO_ADMIN
    ensures r == Normalize(req, submitter, now)
  {
    r := Assemble(req, submitter, now);
    NormalizedAsAsked(req, submitter, now);
  }

  /** The report put together from what the parts of the request say. */
  method Assemble(req: Request, submitter: Option<string>, now: Time) returns (r: Report)
    ensures r == Normalize(req, submitter, now)
  {
    var key, crisis := ReadKeys(req);
    var debris, infraTypes, natures := ReadAnswers(req);
    var at := ReadPoint(req);
    var building, source, landmark := ReadPlace(req);
    r := Report(req.id, key, crisis, submitter, req.damage, debris, Pending, infraTypes, natures, req.aiLevel,
                at, if landmark.Some? then landmark.value else "", req.place, building, source, 1, None, None,
                if req.captured.Some? then req.captured.value else now, now, NO_ADMIN, req.clusters);
  }

  method Contains(known: seq<string>, v: string) returns (found: bool)
    ensures found <==> v in known
  {
    for i := 0 to |known|
      invariant v !in known[..i]
    {
      if known[i] == v {
        return true;
      }
    }
    assert known[..|known|] == known;
    found := false;
  }

  method ContainsAll(known: seq<string>, list: seq<string>) returns (ok: bool)
    ensures ok <==> forall x :: x in list ==> x in known
    ensures ok <==> AllIn(list, known)
  {
    for i := 0 to |list|
      invariant forall k :: 0 <= k < i ==> list[k] in known
    {
      var found := Contains(known, list[i]);
      if !found {
        assert list[i] in list;
        return false;
      }
    }
    ok := true;
  }

  /** The closed lists, value by value. */
  lemma ClosedLists(x: string)
    ensures x in DAMAGE_TIERS <==> x in {"minimal", "partial", "complete"}
    ensures x in DEBRIS_STATES <==> x in {"yes", "no", "unsure"}
    ensures x in INFRA_TYPES <==>
      x in {"residential", "commercial", "government", "utility", "transport", "community", "public", "other"}
    ensures x in NATURES <==>
      x in {"earthquake", "flood", "tsunami", "hurricane", "wildfire", "explosion", "chemical", "conflict", "civil_unrest"}
    ensures x in CLUSTERS <==>
      x in {"slsc", "health", "wash", "education", "food_security", "protection", "logistics", "nutrition", "etc",
            "cccm", "early_recovery"}
  {}

  /** validate, check by check. */
  method CheckReport(r: Report) returns (ok: bool)
    ensures ok <==>
      && r.id != "" && r.damage in {"minimal", "partial", "complete"} && r.debris in {"yes", "no", "unsure"}
      && r.infraTypes != []
      && (forall x :: x in r.infraTypes ==>
            x in {"residential", "commercial", "government", "utility", "transport", "community", "public", "other"})
      && r.natures != []
      && (forall x :: x in r.natures ==>
            x in {"earthquake", "flood", "tsunami", "hurricane", "wildfire", "explosion", "chemical", "conflict", "civil_unrest"})
      && (r.aiLevel.Some? ==> r.aiLevel.value in {"minimal", "partial", "complete"})
      && (forall x :: x in r.clusters ==>
            x in {"slsc", "health", "wash", "education", "food_security", "protection", "logistics", "nutrition", "etc",
                  "cccm", "early_recovery"})
      && (r.point.Some? ==> -90.0 <= r.point.value.lat <= 90.0 && -180.0 <= r.point.value.lng <= 180.0)
      && (r.point == None ==> r.landmark != "")
    ensures ok <==> Validate(r)
  {
    forall x {
      ClosedLists(x);
    }
    if r.id == "" {
      return false;
    }
    ok := Contains(DAMAGE_TIERS, r.damage);
    if !ok {
      return;
    }
    ok := Contains(DEBRIS_STATES, r.debris);
    if !ok || r.infraTypes == [] {
      return false;
    }
    ok := ContainsAll(INFRA_TYPES, r.infraTypes);
    if !ok || r.natures == [] {
      return false;
    }
    ok := ContainsAll(NATURES, r.natures);
    if !ok {
      return;
    }
    if r.aiLevel.Some? {
      ok := Contains(DAMAGE_TIERS, r.aiLevel.value);
      if !ok {
        return;
      }
    }
    ok := ContainsAll(CLUSTERS, r.clusters);
    if !ok {
      return;
    }
    if r.point.Some? {
      var p := r.point.value;
      if p.lat < -90.0 || p.lat > 90.0 || p.lng < -180.0 || p.lng > 180.0 {
        return false;
      }
    } else if r.landmark == "" {
      return false;
    }
  }

  /** adminScopeFromChain: the district if it has a code, else the province, else no scope. */
  method ScopeFromChain(chain: AdminChain) returns (scope: Scope)
    ensures chain.adm2.Some? && chain.adm2.value.pcode != "" ==> scope == Scope(2, chain.adm2.value.pcode)
    ensures (chain.adm2 == None || chain.adm2.value.pcode == "") && chain.adm1.Some? && chain.adm1.value.pcode != "" ==>
              scope == Scope(1, chain.adm1.value.pcode)
    ensures (chain.adm2 == None || chain.adm2.value.pcode == "") && (chain.adm1 == None || chain.adm1.value.pcode == "") ==>
              scope == Scope(0, "")
    ensures scope == ScopeOf(chain)
  {
    if chain.adm2.Some? && chain.adm2.value.pcode != "" {
      return Scope(2, chain.adm2.value.pcode);
    }
    if chain.adm1.Some? && chain.adm1.value.pcode != "" {
      return Scope(1, chain.adm1.value.pcode);
    }
    scope := Scope(0, "");
  }

  class ReportService {
    const store: Store
    const emergent: Emergent

    /** A threshold below two would let one device propose a crisis. */
    constructor (store: Store, emergent: Emergent)
      ensures this.store == store && this.emergent == Effective(emergent)
      ensures this.emergent.minReports >= 2
      ensures this.emergent == if emergent.minReports >= 2 then emergent else Emergent(2.0, 24, 3)
    {
      this.store := store;
      this.emergent := if emergent.minReports < 2 then DEFAULT_EMERGENT else emergent;
    }

    /** enforceSubmitGuards: the first guard that objects. */
    method EnforceSubmitGuards(w: World, u: string, r: Report, now: Time) returns (outcome: GuardOutcome)
      ensures outcome == RateLimited <==>
        || |set i | 0 <= i < |store.reports| && store.reports[i].submitter == Some(u)
                    && now - 60_000_000_000 <= store.reports[i].created| >= 5
        || |set i | 0 <= i < |store.reports| && store.reports[i].submitter == Some(u)
                    && now - 600_000_000_000 <= store.reports[i].created| >= 20
      ensures outcome.DuplicateOf? <==>
        && outcome != RateLimited && r.point.Some? && r.source != Some("footprint")
        && (r.building.Some? ==> !("fp-" <= r.building.value))
        && exists o :: o in store.reports && DuplicateCandidate(w, o, u, r)
      ensures outcome.DuplicateOf? ==>
        exists o :: o in store.reports && DuplicateCandidate(w, o, u, r) && o.id == outcome.existing
                    && forall p :: p in store.reports && DuplicateCandidate(w, p, u, r) ==> !Newer(p, o)
      ensures outcome == Guards(w, store.reports, u, r, now)
    {
      var burst := store.CountRecentBySubmitter(u, now - BURST_WINDOW);
      if burst >= BURST_MAX {
        return RateLimited;
      }
      var sustained := store.CountRecentBySubmitter(u, now - SUSTAINED_WINDOW);
      if sustained >= SUSTAINED_MAX {
        return RateLimited;
      }
      if !IsFootprint(r) && r.point.Some? {
        var existing := store.FindDuplicateBySubmitter(w, u, r);
        if existing.Some? {
          return DuplicateOf(existing.value);
        }
      }
      outcome := Pass;
    }

    /** The first half of the transaction: the building row exists, and the row carries its number. */
    method OpenBuilding(r: Report) returns (ok: bool, row: Report)
      modifies store`buildings
      ensures ok <==> (HasBuilding(r) ==> BuildingOpens(old(store.Contents()), r))
      ensures ok ==> row == Numbered(old(store.Contents()), r)
      ensures ok ==> store.buildings == CommitBuildings(old(store.Contents()), r, false, None)
      ensures !ok ==> store.buildings == old(store.buildings)
    {
      ok, row := true, r;
      if HasBuilding(r) {
        var b := r.building.value;
        ok := store.UpsertBuilding(b, r.crisis, None);
        if ok {
          var version, supersedes := store.NextVersionForBuilding(b);
          row := row.(version := version, supersedes := supersedes);
        }
      }
    }

    /** The second half: the row itself and, when it is new, the damage of its building. */
    method InsertRow(row: Report) returns (outcome: InsertOutcome)
      requires HasBuilding(row) ==> row.building.value in store.buildings
      modifies store`reports, store`buildings
      ensures outcome == InsertOutcomeOf(old(store.Contents()), row)
      ensures store.reports == old(store.reports) + if outcome == Inserted then [row] else []
      ensures store.buildings == if outcome != Inserted || !HasBuilding(row) then old(store.buildings) else
                                   var b := row.building.value;
                                   old(store.buildings)[b := old(store.buildings)[b].(
                                     damage := NewestDamage(OfBuilding(store.reports, b)))]
    {
      outcome := store.UpsertReport(row);
      if outcome == Inserted && HasBuilding(row) {
        store.RefreshBuildingCurrentDamage(row.building.value);
      }
    }

    /** The transaction of a submit: building row, number, insert, refresh; rolled back on the first failure. */
    method Transact(r: Report, now: Time) returns (outcome: Option<InsertOutcome>)
      modifies store
      ensures store.Contents() == Transacted(old(store.Contents()), now, r)
      ensures outcome == if HasBuilding(r) && !BuildingOpens(old(store.Contents()), r) then None
                         else Some(InsertOutcomeOf(old(store.Contents()), Numbered(old(store.Contents()), r)))
    {
      var before := store.Contents();
      var ok, row := OpenBuilding(r);
      if !ok {
        store.Rollback(before);
        return None;
      }
      OpeningKeepsOutcome(before, store.Contents(), row);
      var inserted := InsertRow(row.(created := now));
      outcome := Some(inserted);
      if inserted == KeyTaken || inserted == ForeignKey {
        store.Rollback(before);
        return;
      }
      StatementsCommit(before, store.Contents(), now, r, inserted);
    }

    /** Guards for a known submitter and a new id; a known id is a replay and passes. */
    method Admit(w: World, submitter: Option<string>, r: Report, now: Time) returns (verdict: GuardOutcome)
      requires r.submitter == submitter
      ensures submitter == None || submitter == Some("") || (exists o :: o in store.reports && o.id == r.id) ==> verdict == Pass
      ensures submitter.Some? && submitter.value != "" && (forall o :: o in store.reports ==> o.id != r.id) ==>
                verdict == Guards(w, store.reports, submitter.value, r, now)
      ensures verdict == Admission(w, store.Contents(), now, r)
    {
      verdict := Pass;
      if submitter.Some? && submitter.value != "" {
        var existing := Find(store.reports, r.id);
        FindStored(store.reports, r.id);
        if existing == None {
          verdict := EnforceSubmitGuards(w, submitter.value, r, now);
        }
      }
    }

    /** The emergent check after an insert, when the report is still without a crisis. */
    method CheckEmergent(w: World, r: Report, o: Outside)
      requires o.crisis !in store.crises
      modifies store
      ensures store.Contents() ==
        if Anchors(r) then Detected(w, emergent, old(store.Contents()), r, o) else old(store.Contents())
    {
      if r.crisis == None && r.point.Some? {
        var scope := ScopeFromChain(r.admin);
        var proposed :=
          store.DetectEmergentCrisis(w, r.point.value, r.captured, emergent, scope, o.crisis, o.center, o.started);
      }
    }

    /**
     The crisis of a located report: the pinned one, unless the point is further from its centre than one and a half times
     its radius and than its radius and five kilometres; otherwise a nearest eligible one, or none.
     */
    method DecideCrisis(w: World, r: Report) returns (choice: Option<string>)
      ensures r.point == None ==> choice == r.crisis
      ensures r.crisis.Some? && r.crisis.value !in store.crises ==> choice == r.crisis
      ensures r.point.Some? && r.crisis.Some? && r.crisis.value in store.crises ==>
                var c := store.crises[r.crisis.value];
                && (c.radiusKm <= 0.0 ==> choice == r.crisis)
                && (w.haversineKm(r.point.value, c.center) <= c.radiusKm * 1.5 ==> choice == r.crisis)
                && (w.haversineKm(r.point.value, c.center) <= c.radiusKm + 5.0 ==> choice == r.crisis)
                && (c.radiusKm > 0.0 && w.haversineKm(r.point.value, c.center) > c.radiusKm * 1.5
                    && w.haversineKm(r.point.value, c.center) > c.radiusKm + 5.0 ==>
                      Assignable(w, store.crises, r.point.value, r.captured, choice))
      ensures r.point.Some? && r.crisis == None ==> Assignable(w, store.crises, r.point.value, r.captured, choice)
      ensures Decided(w, store.crises, r, choice)
    {
      choice := r.crisis;
      if r.point.Some? {
        var p := r.point.value;
        if choice.Some? && choice.value in store.crises && PinOutside(w, p, store.crises[choice.value]) {
          choice := None;
        }
        if choice == None {
          choice := store.AssignCrisis(w, p, r.captured);
        }
      }
    }

    /** Submit up to the guards: the report, or why it goes no further. */
    method Receive(w: World, req: Request, submitter: Option<string>, now: Time) returns (r: Report, objection: Option<Answer>)
      ensures r == Normalize(req, submitter, now) && AsAsked(r, req, submitter, now)
      ensures objection == if !Validate(r) then Some(Invalid)
                           else if Admission(w, store.Contents(), now, r) != Pass
                           then Some(Refused(Admission(w, store.Contents(), now, r))) else None
      ensures objection.Some? && objection.value.Refused? ==> && submitter.Some? && submitter.value != ""
                                                              && (forall o :: o in store.reports ==> o.id != req.id)
    {
      r := FillReport(req, submitter, now);
      var valid := CheckReport(r);
      if !valid {
        objection := Some(Invalid);
        return;
      }
      var verdict := Admit(w, submitter, r, now);
      objection := if verdict != Pass then Some(Refused(verdict)) else None;
    }

    /** Submit with the crisis decided: the transaction, and the emergent check behind it. */
    method Commit(w: World, r: Report, now: Time, o: Outside) returns (answer: Answer)
      requires o.crisis !in store.crises
      modifies store
      ensures store.Contents() == StoredTables(w, emergent, old(store.Contents()), now, r, o)
      ensures answer == StoredAnswer(w, emergent, old(store.Contents()), now, r, o)
      ensures answer.Failed? || answer.Original? ==> store.Contents() == old(store.Contents())
      ensures answer.Accepted? && answer.created ==> Inserts(old(store.Contents()), r)
      ensures answer.Original? ==> answer.earlier.Some? && answer.earlier.value in old(store.reports)
                                   && answer.earlier.value.key == r.key
      ensures answer.Accepted? ==> answer.stored.Some? && answer.stored.value in store.reports
                                   && answer.stored.value.id == r.id
      ensures answer.Accepted? && !answer.created ==> store.reports == old(store.reports)
    {
      TransactedKeepsCrises(store.Contents(), now, r);
      var outcome := Transact(r, now);
      if outcome == None || outcome == Some(ForeignKey) {
        return Failed;
      }
      if outcome == Some(KeyTaken) {
        KeyFound(store.reports, r.key);
        return Original(FindKey(store.reports, r.key));
      }
      if outcome == Some(Inserted) {
        CheckEmergent(w, r, o);
      }
      FindStored(store.reports, r.id);
      answer := Accepted(Find(store.reports, r.id), outcome == Some(Inserted));
    }

    /**
     Submit.  `o` is what the reverse geocoder, a fresh crisis id and the centre of a cluster would be; the crisis is decided
     along the way.  Answer and new tables are those of the specification.
     */
    method Submit(w: World, req: Request, submitter: Option<string>, now: Time, o: Outside)
      returns (answer: Answer, choice: Option<string>)
      requires o.crisis !in store.crises
      modifies store
      ensures answer.Accepted? || answer.Original? || answer.Failed? ==>
                Decided(w, old(store.crises), Normalize(req, submitter, now), choice)
      ensures store.Contents() == SubmitTables(w, emergent, old(store.Contents()), now, req, submitter, o.(choice := choice))
      ensures answer == SubmitAnswer(w, emergent, old(store.Contents()), now, req, submitter, o.(choice := choice))
      ensures answer.Invalid? || answer.Refused? || answer.Original? || answer.Failed? ==>
                store.Contents() == old(store.Contents())
      ensures answer.Invalid? <==> !Validate(Normalize(req, submitter, now))
      ensures answer.Refused? ==> && submitter.Some? && submitter.value != ""
                                  && (forall r :: r in old(store.reports) ==> r.id != req.id) && answer.why != Pass
      ensures answer.Original? ==> answer.earlier.Some? && answer.earlier.value in old(store.reports)
                                   && answer.earlier.value.key == if req.key == "" then "idem-" + req.id else req.key
      ensures answer.Accepted? ==> answer.stored.Some? && answer.stored.value in store.reports
                                   && answer.stored.value.id == req.id
      ensures answer.Accepted? && !answer.created ==> store.reports == old(store.reports)
      ensures answer.Accepted? && answer.created ==>
                StoredAsAsked(old(store.Contents()), store.Contents(), now, req, submitter, o.(choice := choice))
    {
      var r, objection := Receive(w, req, submitter, now);
      if objection.Some? {
        return objection.value, None;
      }
      choice := DecideCrisis(w, r);
      ghost var before := store.Contents();
      var o' := o.(choice := choice);
      r := r.(crisis := choice, admin := if r.point.Some? then o.chain else r.admin);
      assert r == Routed(Normalize(req, submitter, now), o');
      answer := Commit(w, r, now, o');
      if answer.Accepted? && answer.created {
        StoredSaysSo(w, emergent, before, now, req, submitter, o');
      }
    }
  }

  /** The new row says what the request said; its crisis was decided, or opened by its own cluster. */
  ghost predicate StoredAsAsked(
    db: Tables, db': Tables, now: Time, req: Request, submitter: Option<string>, o: Outside)
  {
    && |db'.reports| == |db.reports| + 1
    && var row := db'.reports[|db.reports|];
    && AsAsked(row, req, submitter, now) && row.created == now
    && (row.point.Some? ==> row.admin == o.chain) && (row.point == None ==> row.admin == NO_ADMIN)
    && (row.crisis == o.choice || (o.choice == None && row.point.Some? && row.crisis == Some(o.crisis)))
    && NumberedNext(db.reports, row)
    && BuildingKept(db, db', row, o)
    && (forall i :: 0 <= i < |db.reports| ==>
          || db'.reports[i] == db.reports[i]
          || (db.reports[i].crisis == None && db'.reports[i] == db.reports[i].(crisis := Some(o.crisis))))
    && db'.audit == db.audit && db'.withdrawals == db.withdrawals
    && (o.choice.Some? || row.point == None ==> db'.crises == db.crises && db'.reports[..|db.reports|] == db.reports)
    && (forall c :: c in db.crises ==> c in db'.crises && db'.crises[c] == db.crises[c])
    && (forall c :: c in db'.crises && c !in db.crises ==>
          c == o.crisis && db'.crises[c].status == Proposed && db'.crises[c].emergent)
  }

  /** One more than its building has reports, superseding one that none of them is newer than. */
  ghost predicate NumberedNext(s: seq<Report>, row: Report) {
    && (row.building == None || row.building == Some("") ==> row.version == 1 && row.supersedes == None)
    && (row.building.Some? && row.building != Some("") ==>
          && row.version == |set i | 0 <= i < |s| && s[i].building == row.building| + 1
          && (row.supersedes == None ==> forall o :: o in s ==> o.building != row.building)
          && (row.supersedes.Some? ==> exists o :: o in s && o.building == row.building && o.id == row.supersedes.value
                                                   && forall p :: p in s && p.building == row.building ==> !Newer(p, o)))
  }

  /** A building named exists, with the damage of a report none is newer than; the others keep their damage. */
  ghost predicate BuildingKept(db: Tables, db': Tables, row: Report, o: Outside) {
    && (row.building == None || row.building == Some("") ==> db'.buildings.Keys == db.buildings.Keys)
    && (row.building.Some? && row.building != Some("") ==>
          && db'.buildings.Keys == db.buildings.Keys + {row.building.value}
          && Shows(db'.reports, row.building.value, db'.buildings[row.building.value].damage))
    && (forall b :: b in db'.buildings && row.building != Some(b) ==>
          b in db.buildings && db'.buildings[b].damage == db.buildings[b].damage)
    && (forall b :: b in db'.buildings ==>
          var before := if b in db.buildings then db.buildings[b].crisis else o.choice;
          db'.buildings[b].crisis == before || (before == None && db'.buildings[b].crisis == Some(o.crisis)))
  }

  ghost predicate Shows(s: seq<Report>, b: string, damage: Option<string>) {
    exists i :: 0 <= i < |s| && s[i].building == Some(b) && damage == Some(s[i].damage)
                && forall j :: 0 <= j < |s| && s[j].building == Some(b) ==> !Newer(s[j], s[i])
  }

  lemma CommittedBuildings(db: Tables, now: Time, r: Report, o: Outside)
    requires Inserts(db, r) && r.crisis == o.choice
    ensures BuildingKept(db, Transacted(db, now, r), Numbered(db, r).(created := now), o)
  {
    var s := db.reports + [Numbered(db, r).(created := now)];
    assert Transacted(db, now, r).reports == s;
    if HasBuilding(r) {
      var i := NewestIndex(s, r.building.value);
    }
  }

  /** A pull-in changes no damage, no capture time and no building of a report. */
  lemma PulledBuildings(w: World, db: Tables, db1: Tables, row: Report, q: Cluster, o: Outside)
    requires BuildingKept(db, db1, row, o)
    ensures BuildingKept(db, AfterPullIn(w, db1, q, o.crisis, o.center, o.started), row, o)
  {
    if row.building.Some? && row.building != Some("") {
      PulledShows(w, db1.reports, q, o.crisis, row.building.value, db1.buildings[row.building.value].damage);
    }
  }

  lemma PulledShows(w: World, s: seq<Report>, q: Cluster, id: string, b: string, damage: Option<string>)
    requires Shows(s, b, damage)
    ensures Shows(PullIn(w, s, q, id), b, damage)
  {
    var s' := PullIn(w, s, q, id);
    var i :| 0 <= i < |s| && s[i].building == Some(b) && damage == Some(s[i].damage)
             && forall j :: 0 <= j < |s| && s[j].building == Some(b) ==> !Newer(s[j], s[i]);
    assert s'[i].building == Some(b) && damage == Some(s'[i].damage);
    forall j | 0 <= j < |s'| && s'[j].building == Some(b)
      ensures !Newer(s'[j], s'[i])
    {
      assert !Newer(s[j], s[i]);
    }
  }

  lemma StoredBuildings(w: World, cfg: Emergent, db: Tables, now: Time, r: Report, o: Outside)
    requires Inserts(db, r) && r.crisis == o.choice
    ensures BuildingKept(db, StoredTables(w, cfg, db, now, r, o), Numbered(db, r).(created := now), o)
  {
    CommittedBuildings(db, now, r, o);
    if r.point.Some? {
      PulledBuildings(w, db, Transacted(db, now, r), Numbered(db, r).(created := now), ClusterOf(cfg, r), o);
    }
  }

  lemma SameBuildingKept(db: Tables, db': Tables, r: Report, row: Report, o: Outside)
    requires BuildingKept(db, db', r, o) && row.building == r.building
    ensures BuildingKept(db, db', row, o)
  {}

  lemma NewestIndex(s: seq<Report>, b: string) returns (i: nat)
    requires s != [] && Last(s).building == Some(b)
    ensures i < |s| && s[i].building == Some(b) && NewestDamage(OfBuilding(s, b)) == Some(s[i].damage)
    ensures forall j :: 0 <= j < |s| && s[j].building == Some(b) ==> !Newer(s[j], s[i])
  {
    var chain := OfBuilding(s, b);
    OfBuildingMembers(s, b);
    NewestMember(chain);
    assert Last(s) in chain;
    i :| 0 <= i < |s| && s[i] == Newest(chain).value;
    forall j | 0 <= j < |s| && s[j].building == Some(b)
      ensures !Newer(s[j], s[i])
    {
      NewestIsMaximal(chain, s[j]);
    }
  }

  lemma NumberedIsNext(db: Tables, r: Report)
    requires r.version == 1 && r.supersedes == None
    ensures NumberedNext(db.reports, Numbered(db, r))
  {
    if HasBuilding(r) {
      var b := r.building.value;
      var chain := OfBuilding(db.reports, b);
      OfBuildingSize(db.reports, b);
      OfBuildingMembers(db.reports, b);
      NewestMember(chain);
      forall o | o in chain ensures Newest(chain).Some? && !Newer(o, Newest(chain).value) {
        NewestIsMaximal(chain, o);
      }
    }
  }

  /** What is stored is the decided report, numbered and stamped; its crisis and those of pending rows may be the new one. */
  lemma StoredRow(w: World, cfg: Emergent, db: Tables, now: Time, r: Report, o: Outside)
    requires Inserts(db, r)
    ensures var db' := StoredTables(w, cfg, db, now, r, o);
      && |db'.reports| == |db.reports| + 1 && db'.audit == db.audit && db'.withdrawals == db.withdrawals
      && var row := db'.reports[|db.reports|];
      && row == Numbered(db, r).(created := now, crisis := row.crisis)
      && (row.crisis == r.crisis || (Anchors(r) && row.crisis == Some(o.crisis)))
      && forall i :: 0 <= i < |db.reports| ==>
           || db'.reports[i] == db.reports[i]
           || (db.reports[i].crisis == None && db'.reports[i] == db.reports[i].(crisis := Some(o.crisis)))
  {
    var db1 := Transacted(db, now, r);
    assert db1.reports == db.reports + [Numbered(db, r).(created := now)];
    assert forall i :: 0 <= i < |db.reports| ==> db1.reports[i] == db.reports[i];
  }

  /** A crisis is opened only for a pending pin; no other crisis changes. */
  lemma StoredCrises(w: World, cfg: Emergent, db: Tables, now: Time, r: Report, o: Outside)
    requires Inserts(db, r) && o.crisis !in db.crises
    ensures var db' := StoredTables(w, cfg, db, now, r, o);
      && (!Anchors(r) ==> db'.crises == db.crises && db'.reports[..|db.reports|] == db.reports)
      && (forall c :: c in db.crises ==> c in db'.crises && db'.crises[c] == db.crises[c])
      && (forall c :: c in db'.crises && c !in db.crises ==>
            c == o.crisis && db'.crises[c].status == Proposed && db'.crises[c].emergent)
  {
    var db1 := Transacted(db, now, r);
    TransactedKeepsCrises(db, now, r);
    assert db1.reports == db.reports + [Numbered(db, r).(created := now)];
  }

  lemma AskedStays(r: Report, row: Report, req: Request, submitter: Option<string>, now: Time)
    requires AsAsked(r, req, submitter, now)
    requires row == r.(crisis := row.crisis, admin := row.admin, version := row.version, supersedes := row.supersedes,
                       created := row.created)
    ensures AsAsked(row, req, submitter, now)
  {}

  lemma StoredSaysSo(
    w: World, cfg: Emergent, db: Tables, now: Time, req: Request, submitter: Option<string>, o: Outside)
    requires Inserts(db, Routed(Normalize(req, submitter, now), o)) && o.crisis !in db.crises
    ensures var db' := StoredTables(w, cfg, db, now, Routed(Normalize(req, submitter, now), o), o);
      StoredAsAsked(db, db', now, req, submitter, o)
  {
    var n := Normalize(req, submitter, now);
    var r := Routed(n, o);
    StoredRow(w, cfg, db, now, r, o);
    StoredCrises(w, cfg, db, now, r, o);
    StoredBuildings(w, cfg, db, now, r, o);
    NumberedIsNext(db, r);
    var row := StoredTables(w, cfg, db, now, r, o).reports[|db.reports|];
    SameBuildingKept(db, StoredTables(w, cfg, db, now, r, o), Numbered(db, r).(created := now), row, o);
    NumberKept(db.reports, Numbered(db, r), row);
    NormalizedAsAsked(req, submitter, now);
    AskedStays(n, row, req, submitter, now);
  }

  lemma NumberKept(s: seq<Report>, r: Report, row: Report)
    requires NumberedNext(s, r) && row.building == r.building && row.version == r.version && row.supersedes == r.supersedes
    ensures NumberedNext(s, row)
  {}

  lemma {:induction false} KeyFound(s: seq<Report>, key: string)
    requires key in Keys(s)
    ensures FindKey(s, key).Some? && FindKey(s, key).value in s && FindKey(s, key).value.key == key
  {
    assert s == Front(s) + [Last(s)];
    if Last(s).key != key {
      KeyFound(Front(s), key);
    }
  }

  lemma TransactedKeepsCrises(db: Tables, now: Time, r: Report)
    ensures Transacted(db, now, r).crises == db.crises
  {}

  /** Having opened its building changes nothing about how an insert comes out. */
  lemma OpeningKeepsOutcome(db: Tables, during: Tables, r: Report)
    requires during == db.(buildings := during.buildings)
    requires HasBuilding(r) || during.buildings == db.buildings
    ensures forall t :: InsertOutcomeOf(during, r.(created := t)) == InsertOutcomeOf(db, r)
  {}

  /** Insert, then refresh from the rows now stored, adds up to one commit. */
  lemma StatementsCommit(db: Tables, after: Tables, now: Time, r: Report, outcome: InsertOutcome)
    requires (HasBuilding(r) ==> BuildingOpens(db, r)) && outcome == InsertOutcomeOf(db, Numbered(db, r))
    requires outcome == Inserted || outcome == Replay
    requires var row := Numbered(db, r).(created := now);
      var rows := CommitBuildings(db, r, false, None);
      var reports := db.reports + if outcome == Inserted then [row] else [];
      after == db.(reports := reports,
                   buildings := if outcome == Inserted && HasBuilding(r)
                                then rows[r.building.value := rows[r.building.value].(
                                            damage := NewestDamage(OfBuilding(reports, r.building.value)))]
                                else rows)
    ensures after == Transacted(db, now, r)
  {
    var n := Numbered(db, r);
    if outcome == Inserted {
      var row := n.(created := now);
      var damage := RefreshedDamage(db.reports, row);
      TwoUpdates(db, r, row, damage);
      assert after.reports == CommitTables(db, row, true, damage).reports;
    } else {
      assert CommitBuildings(db, n, false, None) == CommitBuildings(db, r, false, None);
      assert after.reports == CommitTables(db, n, false, None).reports;
    }
  }

  /** Opening the building row and then setting its damage is opening it with that damage. */
  lemma TwoUpdates(db: Tables, r: Report, row: Report, damage: Option<string>)
    requires row.building == r.building && row.crisis == r.crisis
    ensures !HasBuilding(r) ==> CommitBuildings(db, row, true, damage) == CommitBuildings(db, r, false, None)
    ensures HasBuilding(r) ==>
      var rows, b := CommitBuildings(db, r, false, None), r.building.value;
      CommitBuildings(db, row, true, damage) == rows[b := rows[b].(damage := damage)]
  {}

  /** Whatever the tables hold, crisis assignment has an answer. */
  lemma DecisionExists(w: World, crises: map<string, Crisis>, r: Report) returns (choice: Option<string>)
    ensures Decided(w, crises, r, choice)
  {
    choice := r.crisis;
    if r.point.Some? && KeptPin(w, crises, r) == None {
      var eligible := set c | c in crises && Eligible(w, crises[c], r.point.value, r.captured);
      assert forall c :: c in crises && Eligible(w, crises[c], r.point.value, r.captured) ==> c in eligible;
      choice := None;
      if eligible != {} {
        var c := NearestAmong(w, crises, eligible, r.point.value);
        choice := Some(c);
      }
    }
  }
}
