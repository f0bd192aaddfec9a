/** What a submission is turned into before it reaches the database, and the checks it must pass. */
module Intake {
  import opened Basics
  import opened Tables

  datatype Location = Location(
    lat: Option<real>, lng: Option<real>, building: Option<string>, source: Option<string>, landmark: Option<string>)

  datatype Request = Request(
    id: string, key: string, crisis: string, damage: string, debris: string,
    infraTypes: seq<string>, infra: seq<string>, natures: seq<string>, natureAlias: seq<string>, aiLevel: Option<string>,
    resolved: Option<bool>, lat: Option<real>, lng: Option<real>, location: Option<Location>,
    building: Option<string>, source: Option<string>, landmark: Option<string>, place: string,
    captured: Option<Time>, clusters: seq<string>)

  /** A list field, or its older alias when it is empty. */
  function Aliased(list: seq<string>, alias: seq<string>): seq<string> {
    if list == [] then alias else list
  }

  function Pick(flat: Option<string>, nested: Option<string>): Option<string> {
    if flat.Some? then flat else nested
  }

  /** Flat coordinates win over nested ones; half a point is no point. */
  function CandidatePoint(req: Request): Option<Point> {
    if req.lat.Some? && req.lng.Some? then Some(Point(req.lat.value, req.lng.value))
    else if req.location.Some? && req.location.value.lat.Some? && req.location.value.lng.Some? then
      Some(Point(req.location.value.lat.value, req.location.value.lng.value))
    else None
  }

  /** normalize: defaults, aliases, and the buildingSource trust rule. */
  function Normalize(req: Request, submitter: Option<string>, now: Time): Report {
    var nested := if req.location.Some? then req.location.value else Location(None, None, None, None, None);
    var source := Pick(req.source, nested.source);
    var landmark := Pick(req.landmark, nested.landmark);
    Report(
      req.id,
      if req.key == "" && req.id != "" then "idem-" + req.id else req.key,
      if req.crisis == "" || req.crisis == "auto" then None else Some(req.crisis),
      submitter, req.damage, if req.debris == "" then "unsure" else req.debris, Pending,
      Aliased(req.infraTypes, req.infra), Aliased(req.natures, req.natureAlias), req.aiLevel,
      if req.resolved == Some(false) then None else CandidatePoint(req),
      if landmark.Some? then landmark.value else "",
      req.place,
      Pick(req.building, nested.building),
      if source == Some("footprint") then source else None,
      1, None, None,
      if req.captured.Some? then req.captured.value else now, now, NO_ADMIN, req.clusters)
  }

  /** What a report owes to its request, field by field: from its normalisation on, stored rows included. */
  ghost predicate AsAsked(r: Report, req: Request, submitter: Option<string>, now: Time) {
    && r.id == req.id && r.submitter == submitter && r.verification == Pending && r.photo == None
    && r.damage == req.damage && r.aiLevel == req.aiLevel && r.place == req.place && r.clusters == req.clusters
    && (req.key != "" || req.id == "" ==> r.key == req.key)
    && (req.key == "" && req.id != "" ==> r.key == "idem-" + req.id)
    && (req.debris != "" ==> r.debris == req.debris) && (req.debris == "" ==> r.debris == "unsure")
    && (req.infraTypes != [] ==> r.infraTypes == req.infraTypes) && (req.infraTypes == [] ==> r.infraTypes == req.infra)
    && (req.natures != [] ==> r.natures == req.natures) && (req.natures == [] ==> r.natures == req.natureAlias)
    && (req.captured.Some? ==> r.captured == req.captured.value) && (req.captured == None ==> r.captured == now)
    && PlacedAsAsked(r, req)
    && (r.building == if req.building.Some? || req.location == None then req.building else req.location.value.building)
    && (r.source == Some("footprint") <==>
        || req.source == Some("footprint")
        || (req.source == None && req.location.Some? && req.location.value.source == Some("footprint")))
    && (r.source.Some? ==> r.source.value == "footprint")
  }

  /** Coordinates and landmark: flat values win over nested ones, half a pair is no pair, and "not resolved" means no point. */
  ghost predicate PlacedAsAsked(r: Report, req: Request) {
    var flat := req.lat.Some? && req.lng.Some?;
    var nested := req.location.Some? && req.location.value.lat.Some? && req.location.value.lng.Some?;
    && (r.point.Some? <==> req.resolved != Some(false) && (flat || nested))
    && (r.point.Some? && flat ==> r.point.value.lat == req.lat.value && r.point.value.lng == req.lng.value)
    && (r.point.Some? && !flat && nested ==>
          r.point.value.lat == req.location.value.lat.value && r.point.value.lng == req.location.value.lng.value)
    && (req.landmark.Some? ==> r.landmark == req.landmark.value)
    && (req.landmark == None && req.location.Some? && req.location.value.landmark.Some? ==>
          r.landmark == req.location.value.landmark.value)
    && (req.landmark == None && (req.location == None || req.location.value.landmark == None) ==> r.landmark == "")
  }

  const DAMAGE_TIERS := ["minimal", "partial", "complete"]
  const DEBRIS_STATES := ["yes", "no", "unsure"]
  const INFRA_TYPES := ["residential", "commercial", "government", "utility", "transport", "community", "public", "other"]
  const NATURES :=
    ["earthquake", "flood", "tsunami", "hurricane", "wildfire", "explosion", "chemical", "conflict", "civil_unrest"]
  const CLUSTERS :=
    ["slsc", "health", "wash", "education", "food_security", "protection", "logistics", "nutrition", "etc", "cccm",
     "early_recovery"]

  predicate AllIn(list: seq<string>, known: seq<string>) {
    forall i :: 0 <= i < |list| ==> list[i] in known
  }

  /** A located report needs an in-range point; any other needs a landmark. */
  predicate Locatable(r: Report) {
    match r.point
    case Some(p) => -90.0 <= p.lat <= 90.0 && -180.0 <= p.lng <= 180.0
    case None => r.landmark != ""
  }

  /** validate: what a report must say to be stored. */
  predicate Validate(r: Report) {
    && r.id != ""
    && r.damage in DAMAGE_TIERS && r.debris in DEBRIS_STATES
    && r.infraTypes != [] && AllIn(r.infraTypes, INFRA_TYPES)
    && r.natures != [] && AllIn(r.natures, NATURES)
    && (r.aiLevel.Some? ==> r.aiLevel.value in DAMAGE_TIERS)
    && AllIn(r.clusters, CLUSTERS)
    && Locatable(r)
  }

  predicate HasPrefix(s: string, prefix: string) {
    |prefix| <= |s| && s[..|prefix|] == prefix
  }

  /** isFootprintReport */
  predicate IsFootprint(r: Report) {
    r.source == Some("footprint") || (r.building.Some? && HasPrefix(r.building.value, "fp-"))
  }

  /** The candidate side of FindDuplicateBySubmitter, as its SQL says it. */
  predicate DuplicateCandidate(w: World, prior: Report, u: string, r: Report) {
    && prior.submitter == Some(u) && prior.id != r.id
    && (prior.building == None || (prior.source != Some("footprint") && !HasPrefix(prior.building.value, "fp-")))
    && prior.captured >= r.captured - DEDUP_WINDOW
    && prior.point.Some? && r.point.Some? && Within(w, prior.point.value, r.point.value, DEDUP_METERS)
  }

  function Duplicates(w: World, s: seq<Report>, u: string, r: Report): seq<Report> {
    if s == [] then []
    else Duplicates(w, Front(s), u, r) + if DuplicateCandidate(w, Last(s), u, r) then [Last(s)] else []
  }

  const BURST_MAX := 5
  const BURST_WINDOW: Time := 60 * SECOND
  const SUSTAINED_MAX := 20
  const SUSTAINED_WINDOW: Time := 600 * SECOND
  const DEDUP_METERS := 25.0
  const DEDUP_WINDOW: Time := 600 * SECOND

  datatype GuardOutcome = Pass | RateLimited | DuplicateOf(existing: string)

  /** enforceSubmitGuards */
  function Guards(w: World, s: seq<Report>, u: string, r: Report, now: Time): GuardOutcome {
    if CountRecent(s, u, now - BURST_WINDOW) >= BURST_MAX then RateLimited
    else if CountRecent(s, u, now - SUSTAINED_WINDOW) >= SUSTAINED_MAX then RateLimited
    else if !IsFootprint(r) && r.point.Some? && Newest(Duplicates(w, s, u, r)).Some? then
      DuplicateOf(Newest(Duplicates(w, s, u, r)).value.id)
    else Pass
  }

  predicate KnownSubmitter(r: Report) {
    r.submitter.Some? && r.submitter.value != ""
  }

  // ---- crisis decision -----------------------------------------------------

  function PinLimitKm(radiusKm: real): real {
    if radiusKm * 1.5 > radiusKm + 5.0 then radiusKm * 1.5 else radiusKm + 5.0
  }

  predicate PinOutside(w: World, p: Point, c: Crisis) {
    c.radiusKm > 0.0 && w.haversineKm(p, c.center) > PinLimitKm(c.radiusKm)
  }

  /** The client's pin after the containment check; its crisis' status is not looked at. */
  function KeptPin(w: World, crises: map<string, Crisis>, r: Report): Option<string> {
    if r.point.Some? && r.crisis.Some? && r.crisis.value in crises && PinOutside(w, r.point.value, crises[r.crisis.value])
    then None else r.crisis
  }

  ghost predicate Decided(w: World, crises: map<string, Crisis>, r: Report, choice: Option<string>) {
    if r.point == None then choice == r.crisis
    else if KeptPin(w, crises, r).Some? then choice == r.crisis
    else Assignable(w, crises, r.point.value, r.captured, choice)
  }

  // ---- the insert ----------------------------------------------------------

  predicate HasBuilding(r: Report) {
    r.building.Some? && r.building.value != ""
  }

  datatype InsertOutcome = Inserted | Replay | KeyTaken | ForeignKey

  /** INSERT ... ON CONFLICT (id) DO NOTHING, with the unique and foreign keys of `reports`. */
  function InsertOutcomeOf(db: Tables, r: Report): InsertOutcome {
    if r.id in Ids(db.reports) then Replay
    else if r.key in Keys(db.reports) then KeyTaken
    else if r.crisis.Some? && r.crisis.value !in db.crises then ForeignKey
    else if r.supersedes.Some? && r.supersedes.value !in Ids(db.reports) then ForeignKey
    else if r.building.Some? && !HasBuilding(r) && r.building.value !in db.buildings then ForeignKey
    else Inserted
  }

  /** UpsertBuilding fails only when it must create the row and the crisis does not exist. */
  predicate BuildingOpens(db: Tables, r: Report) {
    r.building.Some? && r.building.value !in db.buildings && r.crisis.Some? ==> r.crisis.value in db.crises
  }

  /** NextVersionForBuilding */
  function Versioned(s: seq<Report>, r: Report): Report
    requires HasBuilding(r)
  {
    var chain := OfBuilding(s, r.building.value);
    r.(version := |chain| + 1, supersedes := NewestId(chain))
  }

  /** The buildings table after the transaction: the row exists, and an insert refreshed its damage. */
  function CommitBuildings(db: Tables, r: Report, inserted: bool, damage: Option<string>): map<string, Building> {
    if !HasBuilding(r) then db.buildings
    else
      var b := r.building.value;
      var row := if b in db.buildings then db.buildings[b] else Building(r.crisis, None);
      db.buildings[b := if inserted then row.(damage := damage) else row]
  }

  function CommitTables(db: Tables, r: Report, inserted: bool, damage: Option<string>): Tables {
    db.(reports := db.reports + if inserted then [r] else [], buildings := CommitBuildings(db, r, inserted, damage))
  }

  // ---- emergent detection --------------------------------------------------

  datatype Emergent = Emergent(radiusKm: real, windowHrs: nat, minReports: int)

  const DEFAULT_EMERGENT := Emergent(2.0, 24, 3)

  /** NewReportService refuses a threshold below two. */
  function Effective(cfg: Emergent): Emergent {
    if cfg.minReports < 2 then DEFAULT_EMERGENT else cfg
  }

  /** adminScopeFromChain, on a chain that resolved to nothing or something. */
  function ScopeOf(chain: AdminChain): Scope {
    if chain.adm2.Some? && chain.adm2.value.pcode != "" then Scope(2, chain.adm2.value.pcode)
    else if chain.adm1.Some? && chain.adm1.value.pcode != "" then Scope(1, chain.adm1.value.pcode)
    else Scope(0, "")
  }

  function ClusterOf(cfg: Emergent, r: Report): Cluster
    requires r.point.Some?
  {
    Cluster(r.point.value, r.captured - cfg.windowHrs * HOUR, cfg.radiusKm, ScopeOf(r.admin))
  }

  /** The area of that level, where one is asked for, is the one with that code. */
  predicate InArea(chain: AdminChain, scope: Scope) {
    && (scope.level == 1 && scope.pcode != "" ==> chain.adm1.Some? && chain.adm1.value.pcode == scope.pcode)
    && (scope.level == 2 && scope.pcode != "" ==> chain.adm2.Some? && chain.adm2.value.pcode == scope.pcode)
    && (scope.level == 3 && scope.pcode != "" ==> chain.adm3.Some? && chain.adm3.value.pcode == scope.pcode)
  }

  /** The cluster of a pin, spelled out. */
  lemma ClusterIsNear(w: World, p: Point, at: Time, cfg: Emergent, scope: Scope)
    ensures forall r :: InCluster(w, Cluster(p, at - cfg.windowHrs * HOUR, cfg.radiusKm, scope), r) <==>
      && r.crisis == None && r.point.Some? && w.meters(r.point.value, p) <= cfg.radiusKm * 1000.0
      && r.captured >= at - cfg.windowHrs * 3_600_000_000_000 && InArea(r.admin, scope)
  {}

  lemma NearSubmitters(w: World, s: seq<Report>, p: Point, at: Time, cfg: Emergent, scope: Scope)
    ensures Submitters(w, s, Cluster(p, at - cfg.windowHrs * HOUR, cfg.radiusKm, scope)) ==
      set r | && r in s && r.crisis == None && r.submitter.Some?
              && r.point.Some? && w.meters(r.point.value, p) <= cfg.radiusKm * 1000.0
              && r.captured >= at - cfg.windowHrs * 3_600_000_000_000
              && InArea(r.admin, scope) :: r.submitter.value
  {}

  predicate GateOpens(w: World, cfg: Emergent, s: seq<Report>, q: Cluster) {
    |Submitters(w, s, q)| >= cfg.minReports
  }
}
