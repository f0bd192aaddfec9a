/**
 The database rows Beacon keeps and the meaning of each SQL statement that reads or writes them,
 as functions on table values.  Reports are held in commit order; a table is never reordered.
 */
module Tables {
  import opened Basics

  /** Nanoseconds since the epoch. */
  type Time = int

  const SECOND: Time := 1_000_000_000
  const HOUR: Time := 3600 * SECOND
  const WEEK: Time := 7 * 24 * HOUR

  datatype Point = Point(lat: real, lng: real)

  datatype Verification = Pending | Verified | Flagged

  datatype AdminRef = AdminRef(pcode: string, name: string)

  datatype AdminChain = AdminChain(
    adm0: Option<AdminRef>, adm1: Option<AdminRef>, adm2: Option<AdminRef>, adm3: Option<AdminRef>)

  const NO_ADMIN := AdminChain(None, None, None, None)

  /** One row of `reports`.  `point` is None exactly for a location-unresolved row. */
  datatype Report = Report(
    id: string, key: string, crisis: Option<string>, submitter: Option<string>,
    damage: string, debris: string, verification: Verification, infraTypes: seq<string>, natures: seq<string>,
    aiLevel: Option<string>, point: Option<Point>, landmark: string, place: string,
    building: Option<string>, source: Option<string>,
    version: nat, supersedes: Option<string>, photo: Option<string>,
    captured: Time, created: Time, admin: AdminChain, clusters: seq<string>)

  datatype Building = Building(crisis: Option<string>, damage: Option<string>)

  datatype CrisisStatus = Active | Proposed | Closed | Dismissed

  datatype Crisis = Crisis(
    status: CrisisStatus, center: Point, radiusKm: real, started: Time, ended: Option<Time>, emergent: bool)

  /** One row of `report_verification_audit`. */
  datatype Audit = Audit(
    report: string, from: Verification, to: Verification, actor: string, note: Option<string>, forced: bool)

  /** One row of `report_withdrawals`. */
  datatype Withdrawal = Withdrawal(report: string, submitter: Option<string>, crisis: Option<string>)

  datatype Tables = Tables(
    reports: seq<Report>, buildings: map<string, Building>, crises: map<string, Crisis>,
    audit: seq<Audit>, withdrawals: seq<Withdrawal>,
    devices: map<string, string>) // submitters: id to anonymous device id

  /** Geography is left abstract: PostGIS distance, and the great-circle distance the service computes itself. */
  datatype World = World(meters: (Point, Point) -> real, haversineKm: (Point, Point) -> real)

  ghost predicate Geographic(w: World)
  {
    && (forall p :: w.meters(p, p) == 0.0)
    && (forall p, q :: w.meters(p, q) == w.meters(q, p))
  }

  predicate Within(w: World, p: Point, q: Point, meters: real) {
    w.meters(p, q) <= meters
  }

  // ---- reading reports -----------------------------------------------------

  function Ids(s: seq<Report>): set<string> {
    set r | r in s :: r.id
  }

  function Keys(s: seq<Report>): set<string> {
    set r | r in s :: r.key
  }

  /** SELECT ... WHERE id = $1 */
  function Find(s: seq<Report>, id: string): Option<Report> {
    if s == [] then None
    else if Last(s).id == id then Some(Last(s))
    else Find(Front(s), id)
  }

  /** SELECT ... WHERE idempotency_key = $1 */
  function FindKey(s: seq<Report>, key: string): Option<Report> {
    if s == [] then None
    else if Last(s).key == key then Some(Last(s))
    else FindKey(Front(s), key)
  }

  /** The reports of one building, in commit order. */
  function OfBuilding(s: seq<Report>, b: string): seq<Report> {
    if s == [] then []
    else OfBuilding(Front(s), b) + if Last(s).building == Some(b) then [Last(s)] else []
  }

  /** The ordering key every listing uses: newest capture first, id as the tie-break. */
  predicate Newer(a: Report, b: Report) {
    a.captured > b.captured || (a.captured == b.captured && Below(b.id, a.id))
  }

  /** ORDER BY captured_at DESC, id DESC LIMIT 1 */
  function Newest(s: seq<Report>): Option<Report> {
    if s == [] then None
    else
      var rest := Newest(Front(s));
      if rest == None || Newer(Last(s), rest.value) then Some(Last(s)) else rest
  }

  function NewestId(s: seq<Report>): Option<string> {
    if Newest(s) == None then None else Some(Newest(s).value.id)
  }

  function NewestDamage(s: seq<Report>): Option<string> {
    if Newest(s) == None then None else Some(Newest(s).value.damage)
  }

  /** count(*) WHERE submitter_id = u AND created_at BETWEEN from AND to */
  function CountCreated(s: seq<Report>, u: string, from: Time, to: Time): nat {
    if s == [] then 0
    else CountCreated(Front(s), u, from, to)
         + if Last(s).submitter == Some(u) && from <= Last(s).created <= to then 1 else 0
  }

  /** count(*) WHERE submitter_id = u AND created_at >= since */
  function CountRecent(s: seq<Report>, u: string, since: Time): nat {
    if s == [] then 0
    else CountRecent(Front(s), u, since)
         + if Last(s).submitter == Some(u) && since <= Last(s).created then 1 else 0
  }

  // ---- writing reports -----------------------------------------------------

  function Without(s: seq<Report>, id: string): seq<Report> {
    if s == [] then []
    else Without(Front(s), id) + if Last(s).id == id then [] else [Last(s)]
  }

  /** UPDATE reports SET supersedes_report_id = NULL WHERE supersedes_report_id = $1 */
  function Unlink(s: seq<Report>, id: string): seq<Report> {
    seq(|s|, i requires 0 <= i < |s| => if s[i].supersedes == Some(id) then s[i].(supersedes := None) else s[i])
  }

  /** UPDATE reports SET crisis_id = NULL WHERE crisis_id = $1 */
  function Release(s: seq<Report>, crisis: string): seq<Report> {
    seq(|s|, i requires 0 <= i < |s| => if s[i].crisis == Some(crisis) then s[i].(crisis := None) else s[i])
  }

  function SetVerification(s: seq<Report>, id: string, v: Verification): seq<Report> {
    seq(|s|, i requires 0 <= i < |s| => if s[i].id == id then s[i].(verification := v) else s[i])
  }

  function SetPhoto(s: seq<Report>, id: string, url: string): seq<Report> {
    seq(|s|, i requires 0 <= i < |s| => if s[i].id == id then s[i].(photo := Some(url)) else s[i])
  }

  function SetAdmin(s: seq<Report>, id: string, chain: AdminChain): seq<Report> {
    seq(|s|, i requires 0 <= i < |s| => if s[i].id == id then s[i].(admin := chain) else s[i])
  }

  // ---- the emergent cluster ------------------------------------------------

  /** The admin area an emergent cluster is bounded to; level 0 means no scope. */
  datatype Scope = Scope(level: nat, pcode: string)

  predicate ScopeActive(a: Scope) {
    1 <= a.level <= 3 && a.pcode != ""
  }

  /** The generated columns adm1_pcode, adm2_pcode, adm3_pcode. */
  function Pcode(chain: AdminChain, level: nat): Option<string> {
    var ref := match level case 1 => chain.adm1 case 2 => chain.adm2 case 3 => chain.adm3 case _ => None;
    if ref == None then None else Some(ref.value.pcode)
  }

  datatype Cluster = Cluster(pin: Point, cutoff: Time, radiusKm: real, scope: Scope)

  /** The WHERE clause the gate and the pull-in both use. */
  predicate InCluster(w: World, q: Cluster, r: Report) {
    && r.crisis == None
    && r.captured >= q.cutoff
    && r.point.Some?
    && Within(w, r.point.value, q.pin, q.radiusKm * 1000.0)
    && (ScopeActive(q.scope) ==> Pcode(r.admin, q.scope.level) == Some(q.scope.pcode))
  }

  /** UPDATE reports SET crisis_id = $1 WHERE <cluster> */
  function PullIn(w: World, s: seq<Report>, q: Cluster, crisis: string): seq<Report> {
    seq(|s|, i requires 0 <= i < |s| => if InCluster(w, q, s[i]) then s[i].(crisis := Some(crisis)) else s[i])
  }

  /** The distinct, non-null submitters of the clustered rows. */
  function Submitters(w: World, s: seq<Report>, q: Cluster): set<string> {
    set r | r in s && InCluster(w, q, r) && r.submitter.Some? :: r.submitter.value
  }

  // ---- whole statements and transactions on the tables ---------------------

  datatype VerifyOutcome = NotFound | PhotoRequired | Updated

  function VerifyOutcomeOf(db: Tables, id: string, status: Verification, force: bool): VerifyOutcome {
    var r := Find(db.reports, id);
    if r == None then NotFound
    else if status == Verified && (r.value.photo == None || r.value.photo == Some("")) && !force then PhotoRequired
    else Updated
  }

  function AfterVerify(db: Tables, id: string, status: Verification, actor: string, note: Option<string>, force: bool): Tables {
    if VerifyOutcomeOf(db, id, status, force) != Updated then db
    else db.(audit := db.audit + [Audit(id, Find(db.reports, id).value.verification, status, actor, note, force)],
             reports := SetVerification(db.reports, id, status))
  }

  function PhotoUrl(id: string): string {
    "/api/v1/reports/" + id + "/photo"
  }

  function AfterPhoto(db: Tables, id: string): Tables {
    db.(reports := SetPhoto(db.reports, id, PhotoUrl(id)))
  }

  datatype WithdrawOutcome = NoSuchReport | NotOwner | Erased(photo: Option<string>)

  function WithdrawOutcomeOf(db: Tables, id: string, caller: string): WithdrawOutcome {
    var r := Find(db.reports, id);
    if r == None then NoSuchReport
    else if r.value.submitter == None || r.value.submitter.value !in db.devices
            || caller == "" || caller != db.devices[r.value.submitter.value] then NotOwner
    else Erased(r.value.photo)
  }

  /** The audit rows of an erased report go with it (ON DELETE CASCADE). */
  function AuditWithout(a: seq<Audit>, id: string): seq<Audit> {
    if a == [] then []
    else AuditWithout(Front(a), id) + if Last(a).report == id then [] else [Last(a)]
  }

  function AfterWithdraw(db: Tables, id: string, caller: string): Tables {
    if !WithdrawOutcomeOf(db, id, caller).Erased? then db
    else
      var r := Find(db.reports, id).value;
      db.(reports := Without(Unlink(db.reports, id), id),
          audit := AuditWithout(db.audit, id),
          withdrawals := db.withdrawals + [Withdrawal(id, r.submitter, r.crisis)])
  }

  function AfterStatus(db: Tables, crisis: string, status: CrisisStatus): Tables {
    if crisis !in db.crises then db
    else
      var db1 := db.(crises := db.crises[crisis := db.crises[crisis].(status := status)]);
      if status != Dismissed then db1
      else db1.(reports := Release(db.reports, crisis),
                buildings := map b | b in db.buildings ::
                  if db.buildings[b].crisis == Some(crisis) then db.buildings[b].(crisis := None) else db.buildings[b])
  }

  /** The proposed crisis, its reports, and the buildings those reports are about. */
  function AfterPullIn(w: World, db: Tables, q: Cluster, id: string, center: Point, started: Time): Tables {
    var reports := PullIn(w, db.reports, q, id);
    db.(crises := db.crises[id := Crisis(Proposed, center, q.radiusKm, started, None, true)],
        reports := reports,
        buildings := map b | b in db.buildings ::
          if db.buildings[b].crisis == None && (exists r :: r in reports && r.crisis == Some(id) && r.building == Some(b))
          then db.buildings[b].(crisis := Some(id)) else db.buildings[b])
  }

  /** A re-ingest only touches geometry and provenance, which are not modelled; a new row starts without damage. */
  function AfterFootprint(db: Tables, b: string, crisis: Option<string>): Tables {
    if b in db.buildings || (crisis.Some? && crisis.value !in db.crises) then db
    else db.(buildings := db.buildings[b := Building(crisis, None)])
  }

  /** INSERT ... ON CONFLICT (id) DO NOTHING */
  function AfterDeclare(db: Tables, id: string, c: Crisis): Tables {
    if id in db.crises then db else db.(crises := db.crises[id := c])
  }

  function AfterRestamp(db: Tables, id: string, chain: AdminChain): Tables {
    db.(reports := SetAdmin(db.reports, id, chain))
  }

  // ---- crisis assignment ---------------------------------------------------

  predicate Eligible(w: World, c: Crisis, p: Point, at: Time) {
    && (c.status == Active || c.status == Proposed)
    && Within(w, c.center, p, c.radiusKm * 1000.0)
    && at >= c.started - WEEK
    && (c.ended == None || at <= c.ended.value + WEEK)
  }

  /** What AssignCrisis may answer: a nearest eligible crisis (ties are the database's choice), or none. */
  ghost predicate Assignable(w: World, crises: map<string, Crisis>, p: Point, at: Time, choice: Option<string>) {
    match choice
    case None => forall c :: c in crises ==> !Eligible(w, crises[c], p, at)
    case Some(id) =>
      && id in crises && Eligible(w, crises[id], p, at)
      && forall c :: c in crises && Eligible(w, crises[c], p, at) ==>
           w.meters(crises[id].center, p) <= w.meters(crises[c].center, p)
  }
}
