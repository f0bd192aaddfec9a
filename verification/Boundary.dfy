/**
 The boundary loader: any number of goroutines in EnsureCountry, interleaved statement by statement.
 The in-flight set under its mutex keeps bodies of one country apart; the row counts keep countries from being fetched again.
 */
module Boundary {
  import opened Basics
  import opened Areas

  datatype Stage =
    | CheckingCod                       // ensureCOD: is the COD layer there already?
    | FetchingCod                       // about to download the COD archive
    | LoadingCod(rows: seq<Area>, loaded: nat)  // rows of the archive still to insert
    | Rechecking                        // EnsureCountry: COD rows now?
    | CheckingGb                        // geoBoundaries rows already?
    | FetchingMeta                      // about to ask geoBoundaries
    | FetchingGb                        // about to download its features
    | LoadingGb(rows: seq<Area>, loaded: nat)
    | Regeocoding                       // something was loaded: reports are tagged again
    | Leaving                           // about to run the deferred release

  /** One running body of EnsureCountry. */
  datatype Body = Body(iso3: string, stage: Stage)

  datatype Loader = Loader(areas: seq<Area>, inflight: set<string>, bodies: map<nat, Body>)

  datatype Event =
    | Call(t: nat, iso3: string)                 // the argument trimmed and upper-cased
    | Count(t: nat)                              // a gate query of the body's own stage
    | FetchCod(t: nat, result: Option<seq<Area>>)
    | FetchMeta(t: nat, ok: bool)
    | FetchGb(t: nat, result: Option<seq<Area>>)
    | Insert(t: nat)
    | Regeocode(t: nat)
    | Leave(t: nat)
    | Other(a: Area)                             // the baseline and the seeder insert too

  function ActorOf(e: Event): Option<nat> {
    match e
    case Call(t, _) => Some(t)
    case Count(t) => Some(t)
    case FetchCod(t, _) => Some(t)
    case FetchMeta(t, _) => Some(t)
    case FetchGb(t, _) => Some(t)
    case Insert(t) => Some(t)
    case Regeocode(t) => Some(t)
    case Leave(t) => Some(t)
    case Other(_) => None
  }

  /** Rows of an archive or a feature collection all carry the body's country and the source it was fetched from. */
  ghost predicate RowsOf(rows: seq<Area>, iso3: string, source: Source) {
    forall i :: 0 <= i < |rows| ==> rows[i].iso3 == iso3 && rows[i].source == source
  }

  ghost predicate Enabled(s: Loader, e: Event) {
    match e
    case Call(t, _) => t !in s.bodies
    case Other(a) => a.source == Seed || a.source == Baseline
    case _ => var t := ActorOf(e).value; t in s.bodies && Ready(s.bodies[t], e)
  }

  ghost predicate Ready(b: Body, e: Event) {
    match e
    case Count(_) => b.stage == CheckingCod || b.stage == Rechecking || b.stage == CheckingGb
    case FetchCod(_, result) => b.stage == FetchingCod && (result.Some? ==> RowsOf(result.value, b.iso3, Cod))
    case FetchMeta(_, _) => b.stage == FetchingMeta
    case FetchGb(_, result) => b.stage == FetchingGb && (result.Some? ==> RowsOf(result.value, b.iso3, GeoBoundaries))
    case Insert(_) => (b.stage.LoadingCod? || b.stage.LoadingGb?) && b.stage.rows != []
    case Regeocode(_) => b.stage == Regeocoding
    case Leave(_) => b.stage == Leaving
    case _ => true
  }

  /** After the rows of a source: done, or on to the next source. */
  function AfterCod(rows: seq<Area>, loaded: nat): Stage {
    if rows != [] then LoadingCod(rows, loaded) else if loaded > 0 then Regeocoding else Rechecking
  }

  function AfterGb(rows: seq<Area>, loaded: nat): Stage {
    if rows != [] then LoadingGb(rows, loaded) else if loaded > 0 then Regeocoding else Leaving
  }

  /** An insert that fails on its parent is skipped; one that finds its code present counts as loaded. */
  function CountAfter(areas: seq<Area>, a: Area, loaded: nat): nat {
    if UpsertOutcomeOf(areas, a) == NoParent then loaded else loaded + 1
  }

  function Acted(areas: seq<Area>, b: Body, e: Event): Stage {
    match e
    case Count(_) =>
      if b.stage == CheckingCod then (if Holds(areas, b.iso3, Cod) then Rechecking else FetchingCod)
      else if b.stage == Rechecking then (if Holds(areas, b.iso3, Cod) then Leaving else CheckingGb)
      else (if Holds(areas, b.iso3, GeoBoundaries) then Leaving else FetchingMeta)
    case FetchCod(_, result) => if result == None then Rechecking else AfterCod(result.value, 0)
    case FetchMeta(_, ok) => if ok then FetchingGb else Leaving
    case FetchGb(_, result) => if result == None then Leaving else AfterGb(result.value, 0)
    case Insert(_) =>
      if b.stage.LoadingCod? && b.stage.rows != [] then
        AfterCod(b.stage.rows[1..], CountAfter(areas, b.stage.rows[0], b.stage.loaded))
      else if b.stage.LoadingGb? && b.stage.rows != [] then
        AfterGb(b.stage.rows[1..], CountAfter(areas, b.stage.rows[0], b.stage.loaded))
      else b.stage
    case _ => Leaving
  }

  function AreasAfter(s: Loader, e: Event): seq<Area> {
    match e
    case Insert(t) =>
      if t in s.bodies && (s.bodies[t].stage.LoadingCod? || s.bodies[t].stage.LoadingGb?) && s.bodies[t].stage.rows != []
      then AfterUpsert(s.areas, s.bodies[t].stage.rows[0]) else s.areas
    case Other(a) => AfterUpsert(s.areas, a)
    case _ => s.areas
  }

  function Apply(s: Loader, e: Event): Loader {
    match e
    case Call(t, iso3) =>
      if |iso3| != 3 || iso3 in s.inflight then s
      else s.(inflight := s.inflight + {iso3}, bodies := s.bodies[t := Body(iso3, CheckingCod)])
    case Leave(t) =>
      if t in s.bodies then s.(inflight := s.inflight - {s.bodies[t].iso3}, bodies := s.bodies - {t}) else s
    case Other(_) => s.(areas := AreasAfter(s, e))
    case _ =>
      var t := ActorOf(e).value;
      if t in s.bodies then
        s.(areas := AreasAfter(s, e), bodies := s.bodies[t := s.bodies[t].(stage := Acted(s.areas, s.bodies[t], e))])
      else s
  }

  ghost predicate Initial(s: Loader) {
    s.inflight == {} && s.bodies == map[]
  }

  ghost predicate Run(states: seq<Loader>, evs: seq<Event>) {
    && |states| == |evs| + 1 && Initial(states[0])
    && forall i :: 0 <= i < |evs| ==> Enabled(states[i], evs[i]) && states[i + 1] == Apply(states[i], evs[i])
  }

  // ---- one body per country -------------------------------------------------------

  function Running(s: Loader): set<string> {
    set t | t in s.bodies :: s.bodies[t].iso3
  }

  /** The in-flight set is the set of running countries, and no two bodies share one. */
  ghost predicate Tracked(s: Loader) {
    && s.inflight == Running(s)
    && forall t, u :: t in s.bodies && u in s.bodies && s.bodies[t].iso3 == s.bodies[u].iso3 ==> t == u
  }

  lemma StepTracked(s: Loader, e: Event)
    requires Enabled(s, e) && Tracked(s)
    ensures Tracked(Apply(s, e))
  {
    var s' := Apply(s, e);
    match e
    case Call(t, iso3) =>
      if |iso3| == 3 && iso3 !in s.inflight {
        NobodyRuns(s, iso3);
        RunningMore(s, t, Body(iso3, CheckingCod));
      }
    case Leave(t) =>
      RunningLess(s, t);
    case Other(_) =>
    case _ =>
      RunningSame(s, s', ActorOf(e).value);
  }

  lemma NobodyRuns(s: Loader, iso3: string)
    requires iso3 !in Running(s)
    ensures forall t :: t in s.bodies ==> s.bodies[t].iso3 != iso3
  {}

  lemma RunningMore(s: Loader, t: nat, b: Body)
    requires t !in s.bodies
    ensures Running(s.(bodies := s.bodies[t := b])) == Running(s) + {b.iso3}
  {
    var s' := s.(bodies := s.bodies[t := b]);
    assert t in s'.bodies;
    forall c | c in Running(s) ensures c in Running(s') {
      var u :| u in s.bodies && s.bodies[u].iso3 == c;
      assert u in s'.bodies && s'.bodies[u].iso3 == c;
    }
  }

  lemma RunningLess(s: Loader, t: nat)
    requires t in s.bodies && Tracked(s)
    ensures Running(s.(bodies := s.bodies - {t})) == Running(s) - {s.bodies[t].iso3}
  {
    var s' := s.(bodies := s.bodies - {t});
    forall c | c in Running(s) - {s.bodies[t].iso3} ensures c in Running(s') {
      var u :| u in s.bodies && s.bodies[u].iso3 == c;
      assert u in s'.bodies && s'.bodies[u].iso3 == c;
    }
  }

  lemma RunningSame(s: Loader, s': Loader, t: nat)
    requires s'.bodies.Keys == s.bodies.Keys && forall u :: u in s.bodies ==> s'.bodies[u].iso3 == s.bodies[u].iso3
    ensures Running(s') == Running(s)
  {
    forall c | c in Running(s) ensures c in Running(s') {
      var u :| u in s.bodies && s.bodies[u].iso3 == c;
      assert u in s'.bodies && s'.bodies[u].iso3 == c;
    }
    forall c | c in Running(s') ensures c in Running(s) {
      var u :| u in s'.bodies && s'.bodies[u].iso3 == c;
      assert u in s.bodies && s.bodies[u].iso3 == c;
    }
  }

  lemma {:induction false} AlwaysTracked(states: seq<Loader>, evs: seq<Event>, i: nat)
    requires Run(states, evs) && i < |states|
    ensures Tracked(states[i])
  {
    if i > 0 {
      AlwaysTracked(states, evs, i - 1);
      StepTracked(states[i - 1], evs[i - 1]);
    }
  }

  /** In every reachable state each country has at most one body, a country is in flight exactly while one runs, and when all
      bodies have left nothing is. */
  lemma OneBodyPerCountry(states: seq<Loader>, evs: seq<Event>, i: nat, t: nat, u: nat)
    requires Run(states, evs) && i < |states|
    ensures t in states[i].bodies && u in states[i].bodies && states[i].bodies[t].iso3 == states[i].bodies[u].iso3 ==> t == u
    ensures forall c :: c in states[i].inflight <==> exists v :: v in states[i].bodies && states[i].bodies[v].iso3 == c
    ensures states[i].bodies == map[] ==> states[i].inflight == {}
  {
    AlwaysTracked(states, evs, i);
  }

  // ---- every body leaves --------------------------------------------------------------

  function Rest(stage: Stage): nat {
    match stage
    case CheckingCod => 9
    case FetchingCod => 8
    case LoadingCod(rows, _) => 7
    case Rechecking => 6
    case CheckingGb => 5
    case FetchingMeta => 4
    case FetchingGb => 3
    case LoadingGb(rows, _) => 2
    case Regeocoding => 1
    case Leaving => 0
  }

  function RowsLeft(stage: Stage): nat {
    match stage
    case LoadingCod(rows, _) => |rows|
    case LoadingGb(rows, _) => |rows|
    case _ => 0
  }

  /** Each of its steps brings a body closer to its release, on every path, failed fetches included. */
  lemma StepAdvances(s: Loader, e: Event)
    requires Enabled(s, e) && ActorOf(e).Some? && !e.Call? && !e.Leave?
    ensures var t := ActorOf(e).value;
      var stage := Apply(s, e).bodies[t].stage;
      && t in Apply(s, e).bodies
      && (Rest(stage) < Rest(s.bodies[t].stage)
          || (Rest(stage) == Rest(s.bodies[t].stage) && RowsLeft(stage) < RowsLeft(s.bodies[t].stage)))
  {}

  // ---- no country is fetched again -----------------------------------------------------

  predicate WantsCod(stage: Stage) {
    stage == FetchingCod
  }

  predicate WantsGb(stage: Stage) {
    stage == FetchingMeta || stage == FetchingGb
  }

  /** What a body found missing is still missing when it fetches it; what it loads is its own country's. */
  ghost predicate Missing(areas: seq<Area>, b: Body) {
    && (WantsCod(b.stage) ==> !Holds(areas, b.iso3, Cod))
    && (WantsGb(b.stage) ==> !Holds(areas, b.iso3, Cod) && !Holds(areas, b.iso3, GeoBoundaries))
    && (b.stage == CheckingGb ==> !Holds(areas, b.iso3, Cod))
    && (b.stage.LoadingCod? ==> b.stage.rows != [] && RowsOf(b.stage.rows, b.iso3, Cod))
    && (b.stage.LoadingGb? ==> b.stage.rows != [] && RowsOf(b.stage.rows, b.iso3, GeoBoundaries))
  }

  ghost predicate Gated(s: Loader) {
    forall t :: t in s.bodies ==> Missing(s.areas, s.bodies[t])
  }

  lemma HoldsUpsert(areas: seq<Area>, a: Area, iso3: string, source: Source)
    ensures Holds(areas, iso3, source) ==> Holds(AfterUpsert(areas, a), iso3, source)
    ensures a.iso3 != iso3 || a.source != source ==> Holds(AfterUpsert(areas, a), iso3, source) == Holds(areas, iso3, source)
  {
    var after := AfterUpsert(areas, a);
    if Holds(areas, iso3, source) {
      var i :| 0 <= i < |areas| && areas[i].iso3 == iso3 && areas[i].source == source;
      assert after[i] == areas[i];
    }
    if Holds(after, iso3, source) && (a.iso3 != iso3 || a.source != source) {
      var i :| 0 <= i < |after| && after[i].iso3 == iso3 && after[i].source == source;
      assert i < |areas|;
    }
  }

  /** A step of someone else changes nothing a body of another country looks at. */
  lemma OthersDisjoint(s: Loader, e: Event, t: nat)
    requires Enabled(s, e) && Tracked(s) && Gated(s) && t in s.bodies && ActorOf(e) != Some(t)
    ensures var c := s.bodies[t].iso3;
      && Holds(AreasAfter(s, e), c, Cod) == Holds(s.areas, c, Cod)
      && Holds(AreasAfter(s, e), c, GeoBoundaries) == Holds(s.areas, c, GeoBoundaries)
  {
    var c := s.bodies[t].iso3;
    match e
    case Insert(u) =>
      assert Missing(s.areas, s.bodies[u]);
      HoldsUpsert(s.areas, s.bodies[u].stage.rows[0], c, Cod);
      HoldsUpsert(s.areas, s.bodies[u].stage.rows[0], c, GeoBoundaries);
    case Other(a) =>
      HoldsUpsert(s.areas, a, c, Cod);
      HoldsUpsert(s.areas, a, c, GeoBoundaries);
    case _ =>
  }

  lemma ActedMissing(s: Loader, e: Event, t: nat)
    requires Enabled(s, e) && Gated(s) && ActorOf(e) == Some(t) && t in s.bodies && !e.Leave? && !e.Call?
    ensures Missing(AreasAfter(s, e), s.bodies[t].(stage := Acted(s.areas, s.bodies[t], e)))
  {
    assert Missing(s.areas, s.bodies[t]);
  }

  lemma StepGated(s: Loader, e: Event)
    requires Enabled(s, e) && Tracked(s) && Gated(s)
    ensures Gated(Apply(s, e))
  {
    var s' := Apply(s, e);
    forall t | t in s'.bodies
      ensures Missing(s'.areas, s'.bodies[t])
    {
      if ActorOf(e) != Some(t) {
        assert Missing(s.areas, s.bodies[t]);
        OthersDisjoint(s, e, t);
      } else if !e.Call? {
        ActedMissing(s, e, t);
      }
    }
  }

  lemma {:induction false} AlwaysGated(states: seq<Loader>, evs: seq<Event>, i: nat)
    requires Run(states, evs) && i < |states|
    ensures Gated(states[i])
  {
    if i > 0 {
      AlwaysGated(states, evs, i - 1);
      AlwaysTracked(states, evs, i - 1);
      StepGated(states[i - 1], evs[i - 1]);
    }
  }

  /** In every reachable state a running body has a next step of its own, whatever everyone else does. */
  lemma NeverStuck(states: seq<Loader>, evs: seq<Event>, i: nat, t: nat)
    requires Run(states, evs) && i < |states| && t in states[i].bodies
    ensures exists e :: ActorOf(e) == Some(t) && Enabled(states[i], e)
  {
    AlwaysGated(states, evs, i);
    assert Missing(states[i].areas, states[i].bodies[t]);
    var e := match states[i].bodies[t].stage
      case CheckingCod => Count(t)
      case FetchingCod => FetchCod(t, None)
      case LoadingCod(_, _) => Insert(t)
      case Rechecking => Count(t)
      case CheckingGb => Count(t)
      case FetchingMeta => FetchMeta(t, false)
      case FetchingGb => FetchGb(t, None)
      case LoadingGb(_, _) => Insert(t)
      case Regeocoding => Regeocode(t)
      case Leaving => Leave(t);
    assert ActorOf(e) == Some(t) && Enabled(states[i], e);
  }

  lemma {:induction false} HoldsForever(states: seq<Loader>, evs: seq<Event>, i: nat, j: nat, iso3: string, source: Source)
    requires Run(states, evs) && i <= j < |states| && Holds(states[i].areas, iso3, source)
    ensures Holds(states[j].areas, iso3, source)
  {
    if i < j {
      HoldsForever(states, evs, i, j - 1, iso3, source);
      match evs[j - 1]
      case Insert(t) => HoldsUpsert(states[j - 1].areas, states[j - 1].bodies[t].stage.rows[0], iso3, source);
      case Other(a) => HoldsUpsert(states[j - 1].areas, a, iso3, source);
      case _ =>
    }
  }

  /** The event downloads COD or geoBoundaries data for a country. */
  predicate DownloadsCod(s: Loader, e: Event, iso3: string) {
    e.FetchCod? && e.t in s.bodies && s.bodies[e.t].iso3 == iso3
  }

  predicate DownloadsGb(s: Loader, e: Event, iso3: string) {
    (e.FetchMeta? || e.FetchGb?) && ActorOf(e).value in s.bodies && s.bodies[ActorOf(e).value].iso3 == iso3
  }

  /**
   Once a country has COD rows nobody downloads COD or geoBoundaries data for it again, and once it has geoBoundaries rows
   nobody downloads those again: at no later step of any run, by no body, however many run for other countries.
   */
  lemma NeverFetchedAgain(states: seq<Loader>, evs: seq<Event>, i: nat, j: nat, iso3: string)
    requires Run(states, evs) && i <= j < |evs|
    ensures Holds(states[i].areas, iso3, Cod) ==> !DownloadsCod(states[j], evs[j], iso3) && !DownloadsGb(states[j], evs[j], iso3)
    ensures Holds(states[i].areas, iso3, GeoBoundaries) ==> !DownloadsGb(states[j], evs[j], iso3)
  {
    AlwaysGated(states, evs, j);
    if Holds(states[i].areas, iso3, Cod) {
      HoldsForever(states, evs, i, j, iso3, Cod);
    }
    if Holds(states[i].areas, iso3, GeoBoundaries) {
      HoldsForever(states, evs, i, j, iso3, GeoBoundaries);
    }
    if DownloadsCod(states[j], evs[j], iso3) || DownloadsGb(states[j], evs[j], iso3) {
      assert Missing(states[j].areas, states[j].bodies[ActorOf(evs[j]).value]);
    }
  }
}
