/** Replays in the interleaved machine: a session whose inserts all come out as replays can be deleted from a run. */
module Replays {
  import opened Basics
  import opened Tables
  import opened Intake
  import opened Sessions
  import opened Rows
  import opened Safety
  import opened Histories
  import opened Idempotency

  /** The system as it would be had session `t` not been in flight. */
  function Less(s: System, t: nat): System {
    s.(sessions := s.sessions - {t})
  }

  function Dropped(evs: seq<Event>, t: nat): seq<Event> {
    if evs == [] then [] else Dropped(Front(evs), t) + if Actor(Last(evs)) == Some(t) then [] else [Last(evs)]
  }

  /** If the step is an insert of session `t`, it fails, or finds its id stored for the same building. */
  ghost predicate NothingNew(s: System, e: Event, t: nat) {
    e == Insert(t) && t in s.sessions ==>
      var r := s.sessions[t].row;
      match InsertOutcomeOf(s.db, r)
      case Inserted => false
      case Replay => Find(s.db.reports, r.id).Some? && Find(s.db.reports, r.id).value.building == r.building
      case _ => true
  }

  /** Session `t` has inserted nothing, and commits without creating its building. */
  ghost predicate Idle(s: System, t: nat) {
    t in s.sessions ==>
      !s.sessions[t].inserted && (s.sessions[t].phase == Committing ==> BuildingKnown(s.db, s.sessions[t].row))
  }

  lemma OthersEnabled(w: World, s: System, e: Event, t: nat)
    requires Enabled(w, s, e) && Actor(e) != Some(t)
    ensures Enabled(w, Less(s, t), e)
  {}

  lemma OthersTables(w: World, cfg: Emergent, s: System, e: Event, t: nat)
    requires Actor(e) != Some(t)
    ensures DbAfter(w, cfg, Less(s, t), e) == DbAfter(w, cfg, s, e)
  {}

  lemma OthersAct(w: World, cfg: Emergent, s: System, e: Event, t: nat, x: Session)
    ensures Acted(w, cfg, Less(s, t), e, x) == Acted(w, cfg, s, e, x)
  {}

  lemma OthersSessions(w: World, cfg: Emergent, s: System, e: Event, t: nat)
    requires Actor(e) != Some(t)
    ensures SessionsAfter(w, cfg, Less(s, t), e) == SessionsAfter(w, cfg, s, e) - {t}
  {
    if Actor(e).Some? && Actor(e).value in s.sessions {
      OthersAct(w, cfg, s, e, t, s.sessions[Actor(e).value]);
    }
  }

  /** Nobody else needs session `t`, or notices that it is not there. */
  lemma OthersUnaffected(w: World, cfg: Emergent, s: System, e: Event, t: nat)
    requires Enabled(w, s, e) && Actor(e) != Some(t)
    ensures Enabled(w, Less(s, t), e) && Apply(w, cfg, Less(s, t), e) == Less(Apply(w, cfg, s, e), t)
  {
    OthersEnabled(w, s, e, t);
    OthersTables(w, cfg, s, e, t);
    OthersSessions(w, cfg, s, e, t);
  }

  lemma IdleTables(w: World, cfg: Emergent, s: System, e: Event, t: nat)
    requires Enabled(w, s, e) && Good(s) && Actor(e) == Some(t) && Idle(s, t)
    ensures DbAfter(w, cfg, s, e) == s.db
  {
    if e.Commit? {
      var x := s.sessions[t];
      assert CommitTables(s.db, x.row, false, x.damage).reports == s.db.reports;
      assert CommitBuildings(s.db, x.row, false, x.damage) == s.db.buildings;
    }
  }

  lemma OwnSessions(w: World, cfg: Emergent, s: System, e: Event, t: nat)
    requires Actor(e) == Some(t)
    ensures SessionsAfter(w, cfg, s, e) - {t} == s.sessions - {t}
  {}

  /** A step of an idle session changes nothing but the session itself. */
  lemma IdleStep(w: World, cfg: Emergent, s: System, e: Event, t: nat)
    requires Enabled(w, s, e) && Good(s) && Actor(e) == Some(t) && Idle(s, t)
    ensures Less(Apply(w, cfg, s, e), t) == Less(s, t)
  {
    IdleTables(w, cfg, s, e, t);
    OwnSessions(w, cfg, s, e, t);
  }

  lemma ActedIdle(w: World, cfg: Emergent, s: System, e: Event, t: nat)
    requires Enabled(w, s, e) && Good(s) && Actor(e) == Some(t) && !e.Begin? && Idle(s, t) && NothingNew(s, e, t)
    requires Acted(w, cfg, s, e, s.sessions[t]).Some?
    ensures var y := Acted(w, cfg, s, e, s.sessions[t]).value;
      !y.inserted && (y.phase == Committing ==> BuildingKnown(s.db, y.row))
  {
    var x := s.sessions[t];
    assert PhaseOk(x);
    if e.Insert? && InsertOutcomeOf(s.db, x.row) == Replay {
      FindStored(s.db.reports, x.row.id);
    }
  }

  lemma StepIdle(w: World, cfg: Emergent, s: System, e: Event, t: nat)
    requires Enabled(w, s, e) && Good(s) && Idle(s, t) && NothingNew(s, e, t)
    ensures Idle(Apply(w, cfg, s, e), t)
  {
    if t in SessionsAfter(w, cfg, s, e) && !Begins(e, t) {
      StepReports(w, cfg, s, e);
      SessionBefore(w, cfg, s, e, t);
      if Actor(e) == Some(t) {
        ActedIdle(w, cfg, s, e, t);
      }
    }
  }

  lemma {:induction false} AlwaysIdle(w: World, cfg: Emergent, states: seq<System>, evs: seq<Event>, t: nat, n: nat)
    requires Run(w, cfg, states, evs) && n < |states|
    requires forall k :: 0 <= k < |evs| ==> NothingNew(states[k], evs[k], t)
    ensures Idle(states[n], t)
  {
    if n > 0 {
      AlwaysIdle(w, cfg, states, evs, t, n - 1);
      AlwaysGood(w, cfg, states, evs, n - 1);
      StepIdle(w, cfg, states[n - 1], evs[n - 1], t);
    }
  }

  lemma RunLonger(w: World, cfg: Emergent, states: seq<System>, evs: seq<Event>, e: Event)
    requires Run(w, cfg, states, evs) && Enabled(w, Last(states), e)
    ensures Run(w, cfg, states + [Apply(w, cfg, Last(states), e)], evs + [e])
  {
    var states', evs' := states + [Apply(w, cfg, Last(states), e)], evs + [e];
    forall i | 0 <= i < |evs'|
      ensures Enabled(w, states'[i], evs'[i]) && states'[i + 1] == Apply(w, cfg, states'[i], evs'[i])
    {
      if i < |evs| {
        assert states'[i] == states[i] && evs'[i] == evs[i] && states'[i + 1] == states[i + 1];
      }
    }
  }

  /**
   Deleting from any interleaved run all events of a session number whose inserts fail or are replays of what is stored for
   the same building leaves a run, and at its end the same tables, clock and other sessions.
   */
  lemma {:induction false} ReplaysLeaveNoTrace(
    w: World, cfg: Emergent, states: seq<System>, evs: seq<Event>, t: nat, n: nat) returns (kept: seq<System>)
    requires Run(w, cfg, states, evs) && n <= |evs|
    requires forall k :: 0 <= k < |evs| ==> NothingNew(states[k], evs[k], t)
    ensures Run(w, cfg, kept, Dropped(evs[..n], t)) && Last(kept) == Less(states[n], t)
  {
    if n == 0 {
      kept := [states[0]];
      assert Less(states[0], t) == states[0];
    } else {
      kept := ReplaysLeaveNoTrace(w, cfg, states, evs, t, n - 1);
      var s, e := states[n - 1], evs[n - 1];
      assert Front(evs[..n]) == evs[..n - 1];
      if Actor(e) == Some(t) {
        AlwaysGood(w, cfg, states, evs, n - 1);
        AlwaysIdle(w, cfg, states, evs, t, n - 1);
        IdleStep(w, cfg, s, e, t);
        assert Dropped(evs[..n], t) == Dropped(evs[..n - 1], t);
      } else {
        OthersUnaffected(w, cfg, s, e, t);
        RunLonger(w, cfg, kept, Dropped(evs[..n - 1], t), e);
        kept := kept + [Apply(w, cfg, Last(kept), e)];
      }
    }
  }
}
