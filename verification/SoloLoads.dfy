/** One body of the interleaved loader, run without interruption, does to the area table what EnsureCountry does. */
module SoloLoads {
  import opened Basics
  import opened Areas
  import opened Boundary
  import L = Loading

  /** What the downloads of one body yield, if they succeed. */
  datatype Outside = Outside(archive: Option<seq<L.Member>>, collection: Option<seq<L.Feature>>)

  function CodResult(o: Outside, iso3: string): Option<seq<Area>> {
    if o.archive == None then None else Some(L.ArchiveRows(o.archive.value, iso3))
  }

  function GbResult(o: Outside, iso3: string): Option<seq<Area>> {
    if o.collection == None then None else Some(L.GbRows(o.collection.value, iso3))
  }

  function NextEvent(t: nat, b: Body, o: Outside): Event {
    match b.stage
    case CheckingCod => Count(t)
    case FetchingCod => FetchCod(t, CodResult(o, b.iso3))
    case LoadingCod(_, _) => Event.Insert(t)
    case Rechecking => Count(t)
    case CheckingGb => Count(t)
    case FetchingMeta => FetchMeta(t, o.collection.Some?)
    case FetchingGb => FetchGb(t, GbResult(o, b.iso3))
    case LoadingGb(_, _) => Event.Insert(t)
    case Regeocoding => Regeocode(t)
    case Leaving => Leave(t)
  }

  /** The body is in flight, and has rows to insert wherever it is inserting. */
  predicate Runs(s: Loader, t: nat) {
    t in s.bodies && (s.bodies[t].stage.LoadingCod? || s.bodies[t].stage.LoadingGb? ==> s.bodies[t].stage.rows != [])
  }

  lemma {:induction false} MemberRows(features: seq<L.Feature>, n: nat, iso3: string, level: nat)
    requires n <= |features|
    ensures RowsOf(L.RowsTo(features, n, iso3, level), iso3, Cod)
  {
    if n > 0 {
      MemberRows(features, n - 1, iso3, level);
    }
  }

  lemma {:induction false} LevelRowsOf(members: seq<L.Member>, iso3: string, level: nat)
    ensures RowsOf(L.LevelRows(members, iso3, level), iso3, Cod)
  {
    if members != [] {
      LevelRowsOf(Front(members), iso3, level);
      MemberRows(Last(members).features, L.Decoded(Last(members).features), iso3, level);
    }
  }

  lemma {:induction false} CollectionRows(features: seq<L.Feature>, iso3: string)
    ensures RowsOf(L.GbRows(features, iso3), iso3, GeoBoundaries)
  {
    if features != [] {
      CollectionRows(Front(features), iso3);
    }
  }

  /** Each of its events can happen, and brings it closer to its release. */
  lemma RunsOn(s: Loader, t: nat, o: Outside)
    requires Runs(s, t)
    ensures var e := NextEvent(t, s.bodies[t], o);
      var s' := Apply(s, e);
      && Enabled(s, e) && s'.bodies - {t} == s.bodies - {t}
      && (s.bodies[t].stage.Leaving? <==> t !in s'.bodies)
      && (t in s'.bodies ==>
            && Runs(s', t) && s'.bodies[t].iso3 == s.bodies[t].iso3 && s'.inflight == s.inflight
            && s'.areas == AreasAfter(s, e) && s'.bodies[t].stage == Acted(s.areas, s.bodies[t], e)
            && (Rest(s'.bodies[t].stage) < Rest(s.bodies[t].stage)
                || (Rest(s'.bodies[t].stage) == Rest(s.bodies[t].stage)
                    && RowsLeft(s'.bodies[t].stage) < RowsLeft(s.bodies[t].stage))))
  {
    var iso3 := s.bodies[t].iso3;
    if o.archive.Some? {
      LevelRowsOf(o.archive.value, iso3, 1);
      LevelRowsOf(o.archive.value, iso3, 2);
    }
    if o.collection.Some? {
      CollectionRows(o.collection.value, iso3);
    }
  }

  /** Let body `t` run to its end. */
  function Drive(s: Loader, t: nat, o: Outside): Loader
    requires t in s.bodies ==> Runs(s, t)
    decreases t in s.bodies, if t in s.bodies then Rest(s.bodies[t].stage) else 0,
              if t in s.bodies then RowsLeft(s.bodies[t].stage) else 0
  {
    if t !in s.bodies then s
    else
      RunsOn(s, t, o);
      Drive(Apply(s, NextEvent(t, s.bodies[t], o)), t, o)
  }

  // ---- what is left to do, stage by stage -------------------------------------------------

  function FromRecheck(areas: seq<Area>, iso3: string, o: Outside): seq<Area> {
    if Holds(areas, iso3, Cod) || Holds(areas, iso3, GeoBoundaries) || o.collection == None then areas
    else UpsertAll(areas, L.GbRows(o.collection.value, iso3))
  }

  function FromLoadingCod(areas: seq<Area>, rows: seq<Area>, loaded: nat, iso3: string, o: Outside): seq<Area> {
    var after := UpsertAll(areas, rows);
    if loaded + L.LoadedBy(areas, rows) > 0 then after else FromRecheck(after, iso3, o)
  }

  /** What a body at a stage still does to the area table. */
  function From(areas: seq<Area>, b: Body, o: Outside): seq<Area> {
    match b.stage
    case CheckingCod => L.Ensured(areas, true, b.iso3, o.archive, o.collection)
    case FetchingCod =>
      if o.archive == None then FromRecheck(areas, b.iso3, o)
      else FromLoadingCod(areas, L.ArchiveRows(o.archive.value, b.iso3), 0, b.iso3, o)
    case LoadingCod(rows, loaded) => FromLoadingCod(areas, rows, loaded, b.iso3, o)
    case Rechecking => FromRecheck(areas, b.iso3, o)
    case CheckingGb =>
      if Holds(areas, b.iso3, GeoBoundaries) || o.collection == None then areas
      else UpsertAll(areas, L.GbRows(o.collection.value, b.iso3))
    case FetchingMeta => if o.collection == None then areas else UpsertAll(areas, L.GbRows(o.collection.value, b.iso3))
    case FetchingGb => if o.collection == None then areas else UpsertAll(areas, L.GbRows(o.collection.value, b.iso3))
    case LoadingGb(rows, _) => UpsertAll(areas, rows)
    case Regeocoding => areas
    case Leaving => areas
  }

  lemma FirstRow(areas: seq<Area>, rows: seq<Area>)
    requires rows != []
    ensures UpsertAll(areas, rows) == UpsertAll(AfterUpsert(areas, rows[0]), rows[1..])
    ensures L.LoadedBy(areas, rows) == (if UpsertOutcomeOf(areas, rows[0]) == NoParent then 0 else 1)
                                       + L.LoadedBy(AfterUpsert(areas, rows[0]), rows[1..])
  {
    L.UpsertAllJoin(areas, [rows[0]], rows[1..]);
    assert [rows[0]] + rows[1..] == rows;
    L.UpsertAllOne(areas, [], rows[0]);
    assert [] + [rows[0]] == [rows[0]];
  }

  /** A step of the body leaves the rest of its work as it was. */
  lemma StepFrom(s: Loader, t: nat, o: Outside)
    requires Runs(s, t) && !s.bodies[t].stage.Leaving?
    ensures var e := NextEvent(t, s.bodies[t], o);
      From(AreasAfter(s, e), s.bodies[t].(stage := Acted(s.areas, s.bodies[t], e)), o) == From(s.areas, s.bodies[t], o)
  {
    match s.bodies[t].stage
    case LoadingCod(rows, loaded) => FirstRow(s.areas, rows);
    case LoadingGb(rows, loaded) => FirstRow(s.areas, rows);
    case _ =>
  }

  lemma {:induction false} DriveEnds(s: Loader, t: nat, o: Outside)
    requires Runs(s, t)
    ensures var s' := Drive(s, t, o);
      && s'.areas == From(s.areas, s.bodies[t], o) && s'.bodies == s.bodies - {t}
      && s'.inflight == s.inflight - {s.bodies[t].iso3}
    decreases Rest(s.bodies[t].stage), RowsLeft(s.bodies[t].stage)
  {
    RunsOn(s, t, o);
    var s1 := Apply(s, NextEvent(t, s.bodies[t], o));
    if !s.bodies[t].stage.Leaving? {
      StepFrom(s, t, o);
      assert s1.bodies[t] == s.bodies[t].(stage := Acted(s.areas, s.bodies[t], NextEvent(t, s.bodies[t], o)));
      DriveEnds(s1, t, o);
    }
  }

  /**
   A call that nothing interrupts, whatever other bodies are in flight: the area table becomes what EnsureCountry makes of
   it, and bodies and in-flight set are as before.
   */
  lemma CallIsSolo(s: Loader, t: nat, iso3: string, o: Outside)
    requires Enabled(s, Call(t, iso3))
    ensures var s1 := Apply(s, Call(t, iso3));
      && (t in s1.bodies ==> Runs(s1, t))
      && Drive(s1, t, o)
         == s.(areas := L.Ensured(s.areas, |iso3| == 3 && iso3 !in s.inflight, iso3, o.archive, o.collection))
  {
    if |iso3| == 3 && iso3 !in s.inflight {
      var s1 := Apply(s, Call(t, iso3));
      DriveEnds(s1, t, o);
      assert s1.bodies - {t} == s.bodies && s1.inflight - {iso3} == s.inflight;
    }
  }
}
