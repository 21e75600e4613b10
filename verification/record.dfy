/** What the record of status changes tells, and what no run changes. */
module Records {
  import opened Formats
  import opened ServiceHandlers
  import opened Repos
  import opened Machine
  import opened Preservation

  // ---------- the record of changes is complete ----------

  /** The status of `n` according to the record. */
  function Recorded(changes: seq<Change>, n: ServiceName): ServiceStatus {
    if changes == [] then Initial
    else
      var last := changes[|changes| - 1];
      if last.name == n then last.to else Recorded(changes[..|changes| - 1], n)
  }

  /** Each entry starts where the entry before it for the same service ended, and moves. */
  ghost predicate IsChained(changes: seq<Change>) {
    forall k :: 0 <= k < |changes| ==>
      changes[k].from == Recorded(changes[..k], changes[k].name) && changes[k].from != changes[k].to
  }

  ghost predicate RecordInv(c: Core) {
    IsChained(c.changes) && forall n :: n in c.services ==> c.services[n].status == Recorded(c.changes, n)
  }

  /** `d` is `c` after at most one assignment, to the handler of `n`. */
  ghost predicate IsAssigned(c: Core, d: Core, n: ServiceName) {
    && n in c.services && n in d.services
    && d.services == c.services[n := d.services[n]]
    && d.changes == if c.services[n].status == d.services[n].status then c.changes
                    else c.changes + [Change(n, c.services[n].status, d.services[n].status)]
  }

  lemma AssignedKeepsRecord(c: Core, d: Core, n: ServiceName)
    requires IsAssigned(c, d, n) && RecordInv(c)
    ensures RecordInv(d) && c.changes <= d.changes
  {
    if d.changes != c.changes {
      assert d.changes[..|c.changes|] == c.changes;
      forall k | 0 <= k < |d.changes|
        ensures d.changes[k].from == Recorded(d.changes[..k], d.changes[k].name) && d.changes[k].from != d.changes[k].to
      {
        if k < |c.changes| {
          assert d.changes[..k] == c.changes[..k];
        }
      }
    }
  }

  /** Every event but a run that cannot be prepared assigns a status at most once. */
  lemma HandleAssigns(c: Core, ev: Event, prepared: bool, now: nat)
    requires CanHandle(c, ev) && (ev.Run? ==> prepared)
    ensures var d := HandleEvent(c, ev, prepared, now).core;
      if ev.ShuttingDownInitiated? || ev.StatusChanged? then d.services == c.services && d.changes == c.changes
      else IsAssigned(c, d, ev.name)
  {
  }

  lemma HandleKeepsRecord(c: Core, ev: Event, prepared: bool, now: nat)
    requires CanHandle(c, ev) && RecordInv(c)
    ensures RecordInv(HandleEvent(c, ev, prepared, now).core)
    ensures c.changes <= HandleEvent(c, ev, prepared, now).core.changes
  {
    hide Recorded, IsChained, IsAllowed;
    var d := HandleEvent(c, ev, prepared, now).core;
    if ev.Run? && !prepared && c.services[ev.name].status == Initial {
      var n, sh := ev.name, c.services[ev.name];
      var starting := Assign(c, n, sh.(status := Starting));
      AssignedKeepsRecord(c, starting, n);
      AssignedKeepsRecord(starting, Assign(starting, n, sh.(status := FinishedFailed)), n);
    } else if ev.Run? && !prepared {
      assert d == c;
    } else {
      HandleAssigns(c, ev, prepared, now);
      if !ev.ShuttingDownInitiated? && !ev.StatusChanged? {
        AssignedKeepsRecord(c, d, ev.name);
      }
    }
  }

  lemma StepKeepsRecord(s: State, a: Action)
    requires Enabled(s, a) && RecordInv(s.core)
    ensures RecordInv(Apply(s, a).core) && s.core.changes <= Apply(s, a).core.changes
  {
    if a.Handle? {
      if CanHandle(s.core, s.inbox[0]) {
        HandleKeepsRecord(s.core, s.inbox[0], a.prepared, a.now);
      }
    } else {
      assert Apply(s, a).core.services == s.core.services && Apply(s, a).core.changes == s.core.changes;
    }
  }

  lemma StartKeepsRecord(config: seq<Service>)
    ensures RecordInv(Start(config).core)
  {
    FromServicesHolds(config);
  }

  /** The record tells the status of every service in every state of every run. */
  lemma {:induction false} RunKeepsRecord(r: Trace, config: seq<Service>, i: nat)
    requires IsProgramTrace(r, config) && i < |r.states|
    ensures RecordInv(r.states[i].core)
  {
    hide *;
    Begins(r, config);
    if i == 0 {
      StartKeepsRecord(config);
    } else {
      Goes(r, config, i - 1);
      RunKeepsRecord(r, config, i - 1);
      StepKeepsRecord(r.states[i - 1], r.actions[i - 1]);
    }
  }

  lemma PrefixOfPrefix<T>(p: seq<T>, q: seq<T>, r: seq<T>)
    requires p <= q && q <= r
    ensures p <= r
  {
  }

  /** Steps only add to the record. */
  lemma {:induction false} RecordGrows(r: Trace, config: seq<Service>, i: nat, j: nat)
    requires IsProgramTrace(r, config) && i <= j < |r.states|
    ensures r.states[i].core.changes <= r.states[j].core.changes
  {
    hide *;
    if i < j {
      Goes(r, config, j - 1);
      RecordGrows(r, config, i, j - 1);
      RunKeepsRecord(r, config, j - 1);
      StepKeepsRecord(r.states[j - 1], r.actions[j - 1]);
      PrefixOfPrefix(r.states[i].core.changes, r.states[j - 1].core.changes, r.states[j].core.changes);
    }
  }

  ghost predicate NamesServices(c: Core) {
    forall k :: 0 <= k < |c.changes| ==> c.changes[k].name in c.services
  }

  lemma HandleRecordsServices(c: Core, ev: Event, prepared: bool, now: nat)
    requires CanHandle(c, ev) && NamesServices(c)
    ensures NamesServices(HandleEvent(c, ev, prepared, now).core)
  {
    if ev.Run? && !prepared && c.services[ev.name].status == Initial {
    } else if ev.Run? && !prepared {
      assert HandleEvent(c, ev, prepared, now).core == c;
    } else {
      HandleAssigns(c, ev, prepared, now);
    }
  }

  lemma StepRecordsServices(s: State, a: Action)
    requires Enabled(s, a) && NamesServices(s.core)
    ensures NamesServices(Apply(s, a).core)
  {
    hide HandleEvent;
    if a.Handle? && CanHandle(s.core, s.inbox[0]) {
      HandleRecordsServices(s.core, s.inbox[0], a.prepared, a.now);
    }
  }

  /** The record names only services that exist. */
  lemma {:induction false} RecordIsAboutServices(r: Trace, config: seq<Service>, i: nat)
    requires IsProgramTrace(r, config) && i < |r.states|
    ensures NamesServices(r.states[i].core)
  {
    hide Apply, Enabled, HandleEvent, FromServices;
    Begins(r, config);
    if i > 0 {
      Goes(r, config, i - 1);
      RecordIsAboutServices(r, config, i - 1);
      StepRecordsServices(r.states[i - 1], r.actions[i - 1]);
    }
  }

  // ---------- names and configurations stay ----------

  ghost predicate SameServices(services: Services, services': Services) {
    services'.Keys == services.Keys && forall n :: n in services ==> services'[n].service == services[n].service
  }

  lemma StepKeepsServices(s: State, a: Action)
    requires Enabled(s, a)
    ensures SameServices(s.core.services, Apply(s, a).core.services)
  {
    hide HandleEvent;
    if a.Handle? && CanHandle(s.core, s.inbox[0]) {
      HandleKeepsKeys(s.core, s.inbox[0], a.prepared, a.now);
    } else {
      ServicesAreStill(s, a);
    }
  }

  /** The services of a run are those of its configuration, whatever happens. */
  lemma {:induction false} ServicesStay(r: Trace, config: seq<Service>, i: nat)
    requires IsProgramTrace(r, config) && i < |r.states|
    ensures SameServices(FromServices(config), r.states[i].core.services)
  {
    Begins(r, config);
    if i > 0 {
      hide Enabled, Apply;
      Goes(r, config, i - 1);
      ServicesStay(r, config, i - 1);
      StepKeepsServices(r.states[i - 1], r.actions[i - 1]);
    }
  }
}
