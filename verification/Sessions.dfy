/**
 The running service as a state machine: any number of submits in flight, each at its own statement,
 against one read-committed database, interleaved with every other writer.
 A session holds its building's row lock from UpsertBuilding to the end of its transaction.
 */
module Sessions {
  import opened Basics
  import opened Tables
  import opened Intake

  datatype Phase =
    | Guarding   // normalised and valid; nothing read yet
    | Assigning  // guards passed, or skipped
    | Locking    // crisis decided; the transaction is about to begin
    | Reading    // building row locked
    | Inserting  // version and superseded report known
    | Refreshing // row inserted, not yet committed
    | Committing
    | Gating     // committed and still pending: emergent check due
    | Pulling    // gate passed: pull-in due

  datatype Session = Session(
    phase: Phase,
    row: Report,
    guardedAt: Option<Time>, // clock reading of the guards, None when they were skipped
    inserted: bool,
    damage: Option<string>)  // refreshed damage, uncommitted

  datatype System = System(
    db: Tables,
    sessions: map<nat, Session>,
    now: Time)

  datatype Event =
    | Tick(d: nat)
    | Begin(t: nat, req: Request, submitter: Option<string>)
    | Guard(t: nat)
    | Assign(t: nat, chain: AdminChain, choice: Option<string>)
    | Lock(t: nat)
    | Read(t: nat)
    | Insert(t: nat)
    | Refresh(t: nat)
    | Commit(t: nat)
    | Gate(t: nat)
    | Pull(t: nat, crisis: string, center: Point, started: Time)
    | Abort(t: nat)
    | Verify(id: string, to: Verification, actor: string, note: Option<string>, force: bool)
    | Photo(id: string)
    | Withdraw(id: string, caller: string)
    | Status(crisis: string, status: CrisisStatus)
    | Declare(crisis: string, c: Crisis)
    | Footprint(b: string, scope: Option<string>)
    | Restamp(id: string, chain: AdminChain)

  /** The session an event belongs to. */
  function Actor(e: Event): Option<nat> {
    match e
    case Begin(t, _, _) => Some(t)
    case Guard(t) => Some(t)
    case Assign(t, _, _) => Some(t)
    case Lock(t) => Some(t)
    case Read(t) => Some(t)
    case Insert(t) => Some(t)
    case Refresh(t) => Some(t)
    case Commit(t) => Some(t)
    case Gate(t) => Some(t)
    case Pull(t, _, _, _) => Some(t)
    case Abort(t) => Some(t)
    case _ => None
  }

  /** The session has inserted its row in a transaction that is still open. */
  predicate HasPendingRow(x: Session) {
    x.inserted && (x.phase == Refreshing || x.phase == Committing)
  }

  /** The building row is locked from UpsertBuilding to the end of the transaction. */
  predicate HoldsLock(x: Session, b: string) {
    && HasBuilding(x.row) && x.row.building.value == b
    && (x.phase == Reading || x.phase == Inserting || x.phase == Refreshing || x.phase == Committing)
  }

  ghost predicate LockFree(s: System, b: string) {
    forall t :: t in s.sessions ==> !HoldsLock(s.sessions[t], b)
  }

  /** A unique-index entry of another open transaction makes an insert wait. */
  ghost predicate InsertFree(s: System, r: Report) {
    forall o :: o in s.sessions && HasPendingRow(s.sessions[o]) ==> s.sessions[o].row.id != r.id && s.sessions[o].row.key != r.key
  }

  /** An uncommitted row keeps the report it supersedes from being erased. */
  ghost predicate WithdrawFree(s: System, id: string) {
    forall o :: o in s.sessions && HasPendingRow(s.sessions[o]) ==> s.sessions[o].row.supersedes != Some(id)
  }

  /** What the acting session itself needs for its next statement to run now. */
  ghost predicate Ready(w: World, s: System, e: Event, x: Session) {
    match e
    case Guard(_) => x.phase == Guarding
    case Assign(_, _, choice) => x.phase == Assigning && Decided(w, s.db.crises, x.row, choice)
    case Lock(_) => x.phase == Locking && (HasBuilding(x.row) ==> LockFree(s, x.row.building.value))
    case Read(_) => x.phase == Reading
    case Insert(_) => x.phase == Inserting && InsertFree(s, x.row)
    case Refresh(_) => x.phase == Refreshing
    case Commit(_) => x.phase == Committing
    case Gate(_) => x.phase == Gating
    case Pull(_, crisis, _, _) => x.phase == Pulling && crisis !in s.db.crises
    case _ => true
  }

  ghost predicate Enabled(w: World, s: System, e: Event) {
    match e
    case Begin(t, req, submitter) => t !in s.sessions && Validate(Normalize(req, submitter, s.now))
    case Withdraw(id, _) => WithdrawFree(s, id)
    case Footprint(b, _) => LockFree(s, b)
    case _ => Actor(e).Some? ==> Actor(e).value in s.sessions && Ready(w, s, e, s.sessions[Actor(e).value])
  }

  // ---- one statement of a submit -------------------------------------------
  // Each function gives the acting session afterwards; None means the submit is over.

  function Guarded(w: World, db: Tables, now: Time, x: Session): Option<Session> {
    if !KnownSubmitter(x.row) || x.row.id in Ids(db.reports) then Some(x.(phase := Assigning, guardedAt := None))
    else if Guards(w, db.reports, x.row.submitter.value, x.row, now) == Pass then
      Some(x.(phase := Assigning, guardedAt := Some(now)))
    else None
  }

  function Assigned(x: Session, chain: AdminChain, choice: Option<string>): Option<Session> {
    Some(x.(phase := Locking, row := x.row.(crisis := choice, admin := if x.row.point.Some? then chain else x.row.admin)))
  }

  function LockTaken(db: Tables, x: Session): Option<Session> {
    if !HasBuilding(x.row) then Some(x.(phase := Inserting))
    else if !BuildingOpens(db, x.row) then None
    else Some(x.(phase := Reading))
  }

  function VersionRead(db: Tables, x: Session): Option<Session> {
    Some(x.(phase := Inserting, row := if HasBuilding(x.row) then Versioned(db.reports, x.row) else x.row))
  }

  function RowInserted(db: Tables, now: Time, x: Session): Option<Session> {
    match InsertOutcomeOf(db, x.row)
    case Inserted =>
      Some(x.(inserted := true, row := x.row.(created := now), phase := if HasBuilding(x.row) then Refreshing else Committing))
    case Replay => Some(x.(inserted := false, phase := Committing))
    case _ => None
  }

  function DamageRefreshed(db: Tables, x: Session): Option<Session> {
    Some(x.(phase := Committing,
            damage := if HasBuilding(x.row) then NewestDamage(OfBuilding(db.reports + [x.row], x.row.building.value)) else None))
  }

  function Committed(x: Session): Option<Session> {
    if x.inserted && x.row.crisis == None && x.row.point.Some? then Some(x.(phase := Gating)) else None
  }

  function GatePassed(w: World, cfg: Emergent, db: Tables, x: Session): Option<Session> {
    if x.row.point.Some? && GateOpens(w, cfg, db.reports, ClusterOf(cfg, x.row)) then Some(x.(phase := Pulling)) else None
  }

  function Acted(w: World, cfg: Emergent, s: System, e: Event, x: Session): Option<Session> {
    match e
    case Guard(_) => Guarded(w, s.db, s.now, x)
    case Assign(_, chain, choice) => Assigned(x, chain, choice)
    case Lock(_) => LockTaken(s.db, x)
    case Read(_) => VersionRead(s.db, x)
    case Insert(_) => RowInserted(s.db, s.now, x)
    case Refresh(_) => DamageRefreshed(s.db, x)
    case Commit(_) => Committed(x)
    case Gate(_) => GatePassed(w, cfg, s.db, x)
    case _ => None
  }

  // ---- one step of the system ----------------------------------------------

  predicate Erases(s: System, e: Event) {
    e.Withdraw? && WithdrawOutcomeOf(s.db, e.id, e.caller).Erased?
  }

  /** The step that makes a submitted row visible. */
  predicate Stores(s: System, e: Event) {
    e.Commit? && e.t in s.sessions && s.sessions[e.t].inserted
  }

  function DbAfter(w: World, cfg: Emergent, s: System, e: Event): Tables {
    match e
    case Commit(t) =>
      if t in s.sessions then CommitTables(s.db, s.sessions[t].row, s.sessions[t].inserted, s.sessions[t].damage) else s.db
    case Pull(t, crisis, center, started) =>
      if t in s.sessions && s.sessions[t].row.point.Some?
      then AfterPullIn(w, s.db, ClusterOf(cfg, s.sessions[t].row), crisis, center, started) else s.db
    case Verify(id, status, actor, note, force) => AfterVerify(s.db, id, status, actor, note, force)
    case Photo(id) => AfterPhoto(s.db, id)
    case Withdraw(id, caller) => AfterWithdraw(s.db, id, caller)
    case Status(crisis, status) => AfterStatus(s.db, crisis, status)
    case Declare(crisis, c) => AfterDeclare(s.db, crisis, c)
    case Footprint(b, scope) => AfterFootprint(s.db, b, scope)
    case Restamp(id, chain) => AfterRestamp(s.db, id, chain)
    case _ => s.db
  }

  /** The building a report of which the step erases. */
  function ErasedBuilding(s: System, e: Event): Option<string> {
    if Erases(s, e) && Find(s.db.reports, e.id).Some? then Find(s.db.reports, e.id).value.building else None
  }

  function SessionsAfter(w: World, cfg: Emergent, s: System, e: Event): map<nat, Session> {
    match Actor(e)
    case Some(t) =>
      if e.Begin? then s.sessions[t := Session(Guarding, Normalize(e.req, e.submitter, s.now), None, false, None)]
      else if t !in s.sessions then s.sessions
      else
        var y := Acted(w, cfg, s, e, s.sessions[t]);
        if y.Some? then s.sessions[t := y.value] else s.sessions - {t}
    case None => s.sessions
  }

  function Apply(w: World, cfg: Emergent, s: System, e: Event): System {
    System(DbAfter(w, cfg, s, e), SessionsAfter(w, cfg, s, e), if e.Tick? then s.now + e.d else s.now)
  }

  /** Any crises, buildings and devices may exist beforehand; every report is submitted. */
  predicate Initial(s: System) {
    && s.db.reports == [] && s.db.audit == [] && s.db.withdrawals == []
    && s.sessions == map[]
  }

  /** states[0] -evs[0]-> states[1] -evs[1]-> ... */
  ghost predicate Run(w: World, cfg: Emergent, states: seq<System>, evs: seq<Event>) {
    && |states| == |evs| + 1
    && Initial(states[0])
    && forall i :: 0 <= i < |evs| ==> Enabled(w, states[i], evs[i]) && states[i + 1] == Apply(w, cfg, states[i], evs[i])
  }
}
