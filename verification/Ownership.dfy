/** Who can make a stored report disappear, along every run. */
module Ownership {
  import opened Tables
  import opened Intake
  import opened Sessions
  import opened Rows
  import opened Safety

  /** The caller names the device that the submitter of the row registered. */
  predicate OwnDevice(devices: map<string, string>, r: Report, caller: string) {
    caller != "" && r.submitter.Some? && r.submitter.value in devices && devices[r.submitter.value] == caller
  }

  lemma DevicesStay(w: World, cfg: Emergent, s: System, e: Event)
    ensures DbAfter(w, cfg, s, e).devices == s.db.devices
  {}

  lemma {:induction false} AlwaysDevices(w: World, cfg: Emergent, states: seq<System>, evs: seq<Event>, i: nat)
    requires Run(w, cfg, states, evs) && i < |states|
    ensures states[i].db.devices == states[0].db.devices
  {
    if i > 0 {
      AlwaysDevices(w, cfg, states, evs, i - 1);
      DevicesStay(w, cfg, states[i - 1], evs[i - 1]);
    }
  }

  lemma OwnerErases(db: Tables, r: Report, caller: string)
    requires Unique(db.reports) && r in db.reports
    ensures WithdrawOutcomeOf(db, r.id, caller).Erased? <==> OwnDevice(db.devices, r, caller)
  {
    FindUnique(db.reports, r);
  }

  /** A stored report is gone after a step exactly when the step is its withdrawal by the device of its submitter. */
  lemma OnlyOwnerErases(w: World, cfg: Emergent, states: seq<System>, evs: seq<Event>, n: nat, r: Report)
    requires Run(w, cfg, states, evs) && n < |evs| && r in states[n].db.reports
    ensures r.id !in Ids(states[n + 1].db.reports) <==>
      && evs[n].Withdraw? && evs[n].id == r.id && evs[n].caller != ""
      && r.submitter.Some? && r.submitter.value in states[0].db.devices
      && states[0].db.devices[r.submitter.value] == evs[n].caller
  {
    AlwaysGood(w, cfg, states, evs, n);
    AlwaysDevices(w, cfg, states, evs, n);
    KeysAfter(w, cfg, states[n], evs[n]);
    OwnerErases(states[n].db, r, if evs[n].Withdraw? then evs[n].caller else "");
  }
}
