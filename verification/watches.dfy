/** What the health monitor watches, seen from the supervisor. */
module Watches {
  import opened Formats
  import opened ServiceHandlers
  import opened Repos
  import opened Commands
  import opened Queues
  import opened Emissions
  import opened Machine
  import opened Invariants
  import opened Preservation
  import opened Kills
  import opened OneService
  import opened Reaping
  import opened Records
  import opened HealthMonitors

  predicate Concerns(e: Event, n: ServiceName) { IsUp(e, n) || IsDown(e, n) }

  lemma {:induction false} WatchedConcat(p: seq<Event>, q: seq<Event>, n: ServiceName)
    ensures (forall e :: e in q ==> !Concerns(e, n)) ==> IsWatched(p + q, n) == IsWatched(p, n)
    ensures (forall e :: e in q ==> !IsUp(e, n)) && (exists e :: e in q && IsDown(e, n)) ==> !IsWatched(p + q, n)
  {
    if q == [] {
      assert p + q == p;
    } else {
      var most := q[..|q| - 1];
      assert (p + q)[..|p + q| - 1] == p + most;
      assert q == most + [q[|q| - 1]];
      assert forall e :: e in most ==> e in q;
      assert q[|q| - 1] in q && (p + q)[|p + q| - 1] == q[|q| - 1];
      WatchedConcat(p, most, n);
    }
  }

  lemma {:induction false} WatchedInsert(p: seq<Event>, added: seq<Event>, q: seq<Event>, n: ServiceName)
    requires forall e :: e in added ==> !Concerns(e, n)
    ensures IsWatched(p + added + q, n) == IsWatched(p + q, n)
  {
    if q == [] {
      assert p + added + q == p + added && p + q == p;
      WatchedConcat(p, added, n);
    } else {
      var most := q[..|q| - 1];
      assert (p + added + q)[..|p + added + q| - 1] == p + added + most;
      assert (p + q)[..|p + q| - 1] == p + most;
      WatchedInsert(p, added, most, n);
    }
  }

  /** Whoever is watched holds a pid and no exit of it is under way, and whoever came up and is not about to
      exit is watched. */
  ghost predicate WatchInv(sh: ServiceHandler, watched: bool, exiting: bool) {
    && (watched ==> sh.pid.Some? && !exiting)
    && ((sh.status.Started? || sh.status.Running?) && !exiting ==> watched)
  }

  ghost predicate IsWatchedRightly(s: State, n: ServiceName)
    requires n in s.core.services
  {
    WatchInv(s.core.services[n], IsWatched(s.Log(), n), OutlookOf(s.Queue(), n).exit)
  }

  /** Besides the report of a pid nothing brings a service up. */
  lemma RestKeepsDown(c: Core, ev: Event, prepared: bool, now: nat)
    requires CanHandle(c, ev) && IsPublished(ev) && !ev.ShuttingDownInitiated? && ev.name in c.services
    requires !ev.PidChanged? && !ev.ServiceExited?
    ensures var h, n := HandleEvent(c, ev, prepared, now), ev.name;
      && n in h.core.services && h.core.services[n].pid == c.services[n].pid
      && (h.core.services[n].status.Started? || h.core.services[n].status.Running? ==>
            c.services[n].status.Started? || c.services[n].status.Running?)
      && StatusChanged(n, Started) !in h.produced
  {
  }

  lemma ReportWatches(c: Core, n: ServiceName, pid: Pid, now: nat, watched: bool, t: Outlook, children: set<Pid>)
    requires n in c.services && LocalBefore(c, PidChanged(n, pid), n, t, children)
    requires WatchInv(c.services[n], watched, t.exit)
    ensures var h := HandlePidChanged(c, n, pid, now);
      WatchInv(h.core.services[n], watched || StatusChanged(n, Started) in h.produced, t.exit)
  {
    var told := if c.services[n].status == InKilling then [] else [StatusChanged(n, Started)];
    assert HandlePidChanged(c, n, pid, now).produced == told;
  }

  lemma ExitWatches(c: Core, n: ServiceName, exitCode: int, watched: bool, t: Outlook, children: set<Pid>)
    requires CanHandle(c, ServiceExited(n, exitCode)) && LocalBefore(c, ServiceExited(n, exitCode), n, t, children)
    requires !watched
    ensures var h := HandleExited(c, n, exitCode);
      && WatchInv(h.core.services[n], false, t.exit) && StatusChanged(n, Started) !in h.produced
  {
  }

  /** What handling does, in terms of the one event that may be announced. */
  lemma HandleWatches(c: Core, ev: Event, prepared: bool, now: nat, n: ServiceName, watched: bool, t: Outlook,
        children: set<Pid>)
    requires CanHandle(c, ev) && n in c.services && IsPublished(ev)
    requires !ev.ShuttingDownInitiated? && ev.name == n ==> LocalBefore(c, ev, n, t, children)
    requires WatchInv(c.services[n], watched, t.exit || IsExit(ev, n))
    ensures var h := HandleEvent(c, ev, prepared, now);
      && n in h.core.services
      && WatchInv(h.core.services[n], watched || StatusChanged(n, Started) in h.produced, t.exit)
  {
    hide LocalBefore, HandlePidChanged, HandleExited, HandleRun, HandleStatusUpdate, HandleKill, HandleForceKill,
      HandleSpawnFailed;
    if ev.ShuttingDownInitiated? || ev.name != n {
      OthersUntouched(c, ev, prepared, now, n);
    } else {
      HandleKeepsKeys(c, ev, prepared, now);
      if ev.PidChanged? {
        ReportWatches(c, n, ev.pid, now, watched, t, children);
      } else if ev.ServiceExited? {
        ExitWatches(c, n, ev.exitCode, watched, t, children);
      } else {
        RestKeepsDown(c, ev, prepared, now);
      }
    }
  }

  lemma HandleTellsOnce(c: Core, ev: Event, prepared: bool, now: nat, n: ServiceName, p: seq<Event>)
    requires CanHandle(c, ev)
    ensures var h := HandleEvent(c, ev, prepared, now);
      && IsWatched(p + h.produced, n) == (IsWatched(p, n) || StatusChanged(n, Started) in h.produced)
      && !OutlookOf(h.produced, n).exit
  {
    var produced := HandleEvent(c, ev, prepared, now).produced;
    OutlookMembers(produced, n);
    HandleProducesNoExits(c, ev, prepared, now);
    if StatusChanged(n, Started) in produced {
      HandleTellsLast(c, ev, prepared, now, n);
      assert (p + produced)[|p + produced| - 1] == StatusChanged(n, Started);
    } else {
      WatchedConcat(p, produced, n);
    }
  }

  lemma HandleTellsLast(c: Core, ev: Event, prepared: bool, now: nat, n: ServiceName)
    requires CanHandle(c, ev) && StatusChanged(n, Started) in HandleEvent(c, ev, prepared, now).produced
    ensures HandleEvent(c, ev, prepared, now).produced == [StatusChanged(n, Started)]
  {
  }

  lemma HandleStepWatches(s: State, a: Action, n: ServiceName)
    requires a.Handle? && Enabled(s, a) && CanHandle(s.core, s.inbox[0]) && n in s.core.services
    requires Local(s, n) && IsPublished(s.inbox[0]) && IsWatchedRightly(s, n)
    ensures n in Apply(s, a).core.services && IsWatchedRightly(Apply(s, a), n)
  {
    hide HandleEvent, OutlookOf, IsWatched, NextAll;
    var ev, rest := s.inbox[0], s.inbox[1..] + s.outbox;
    var h := HandleEvent(s.core, ev, a.prepared, a.now);
    var s' := Apply(s, a);
    FirstInOutlook(s, n);
    HandleWatches(s.core, ev, a.prepared, a.now, n, IsWatched(s.Log(), n), OutlookOf(rest, n), s.children);
    HandleTellsOnce(s.core, ev, a.prepared, a.now, n, s.Log());
    assert s.Queue() == [ev] + rest && s'.Queue() == rest + h.produced;
    assert s'.Log() == s.Log() + h.produced;
    OutlookConcat(rest, h.produced, n);
  }

  lemma ComputeWatches(s: State, a: Action, n: ServiceName)
    requires a.Compute? && Enabled(s, a) && n in s.core.services
    requires HoldsItsPids(s.core.services, s.core.pidMap, n) && IsWatchedRightly(s, n)
    ensures n in Apply(s, a).core.services && IsWatchedRightly(Apply(s, a), n)
  {
    hide HandleEvent, OutlookOf, IsWatched, NextAll, ReapEvents, LocalInv;
    var c, s' := s.core, Apply(s, a);
    var commands, exits := NextAll(c.services, a.order, a.order, c.lifecycle, a.now), ReapEvents(c.pidMap, a.reaped);
    NextAllIsJustified(c.services, a.order, a.order, c.lifecycle, a.now);
    ReapsFollow(c.pidMap, a.reaped, n);
    ReapedOnce(c.services, c.pidMap, a.reaped, n);
    assert s'.Queue() == s.Queue() + (commands + exits) && s'.Log() == s.Log() + commands + exits;
    OutlookConcat(s.Queue(), commands + exits, n);
    OutlookConcat(commands, exits, n);
    OutlookMembers(commands, n);
    OutlookMembers(exits, n);
    WatchedConcat(s.Log(), commands, n);
    WatchedConcat(s.Log() + commands, exits, n);
  }

  /** What happens between the steps of the supervisor. */
  lemma InsertsReports(s: State, a: Action, n: ServiceName) returns (added: seq<Event>)
    requires Enabled(s, a) && !a.Handle? && !a.Compute?
    ensures var s' := Apply(s, a);
      && s'.core.services == s.core.services
      && (a.Send? ==> s'.Queue() == s.Queue() && s'.Log() == s.Log())
      && (!a.Send? ==> s'.inbox == s.inbox + added && s'.outbox == s.outbox && s'.history == s.history)
    ensures forall e :: e in added ==> !Concerns(e, n) && !e.ServiceExited?
  {
    hide AllHaveFinished;
    added := [];
    if !a.Send? {
      added := Apply(s, a).inbox[|s.inbox|..];
    }
  }

  lemma OtherStepWatches(s: State, a: Action, n: ServiceName)
    requires !a.Handle? && !a.Compute? && Enabled(s, a) && n in s.core.services && IsWatchedRightly(s, n)
    ensures n in Apply(s, a).core.services && IsWatchedRightly(Apply(s, a), n)
  {
    hide Apply, Enabled, OutlookOf, IsWatched;
    var s' := Apply(s, a);
    var added := InsertsReports(s, a, n);
    if !a.Send? {
      assert s'.Log() == (s.history + s.inbox) + added + s.outbox && s.Log() == (s.history + s.inbox) + s.outbox;
      WatchedInsert(s.history + s.inbox, added, s.outbox, n);
      OutlookConcat(s.inbox, s.outbox, n);
      OutlookConcat(s.inbox + added, s.outbox, n);
      OutlookConcat(s.inbox, added, n);
      OutlookMembers(added, n);
    }
  }

  lemma PanicWatches(s: State, a: Action, n: ServiceName)
    requires a.Handle? && Enabled(s, a) && !CanHandle(s.core, s.inbox[0])
    requires n in s.core.services && IsWatchedRightly(s, n)
    ensures n in Apply(s, a).core.services && IsWatchedRightly(Apply(s, a), n)
  {
    assert Apply(s, a).Queue() == s.Queue() && Apply(s, a).Log() == s.Log();
  }

  lemma StepWatches(s: State, a: Action, n: ServiceName)
    requires IsGood(s, n) && KillInv(s) && Enabled(s, a) && IsWatchedRightly(s, n)
    ensures n in Apply(s, a).core.services && IsWatchedRightly(Apply(s, a), n)
  {
    hide HandleEvent, Local, HoldsItsPids, IsWatchedRightly;
    if a.Compute? {
      ComputeWatches(s, a, n);
    } else if !a.Handle? {
      OtherStepWatches(s, a, n);
    } else if CanHandle(s.core, s.inbox[0]) {
      assert s.Queue()[0] == s.inbox[0];
      HandleStepWatches(s, a, n);
    } else {
      PanicWatches(s, a, n);
    }
  }

  lemma StartWatches(config: seq<Service>, n: ServiceName)
    requires n in Start(config).core.services
    ensures IsWatchedRightly(Start(config), n)
  {
    FromServicesHolds(config);
    assert Start(config).Log() == [] && Start(config).Queue() == [];
  }

  /** In every run that never starts `n` over a process, the announcements on the bus have `n` watched only
      while it holds a pid and no exit of it is under way, and always while it is Started or Running and no
      exit of it is under way. */
  lemma {:induction false} RunWatchesRightly(r: Trace, config: seq<Service>, i: nat, n: ServiceName)
    requires IsProgramTrace(r, config) && IsOrderlyFor(r, n) && i < |r.states| && n in r.states[0].core.services
    ensures n in r.states[i].core.services && IsWatchedRightly(r.states[i], n)
  {
    hide *;
    Begins(r, config);
    if i == 0 {
      StartWatches(config, n);
    } else {
      Goes(r, config, i - 1);
      RunKeepsGood(r, config, i - 1, n);
      NoLostKill(r, config, i - 1);
      RunWatchesRightly(r, config, i - 1, n);
      StepWatches(r.states[i - 1], r.actions[i - 1], n);
    }
  }

  // ---------- the monitor ----------

  ghost predicate IsUpAndStays(s: State, n: ServiceName) {
    n in s.core.services && (s.core.services[n].status.Started? || s.core.services[n].status.Running?)
    && !ExitIsQueued(s, n)
  }

  lemma QueuedMeansOutlook(s: State, n: ServiceName)
    ensures ExitIsQueued(s, n) <==> OutlookOf(s.Queue(), n).exit
  {
    OutlookMembers(s.Queue(), n);
  }

  /** Until a shutdown is announced, the workers of a monitor that has received all there is, in an orderly
      run, are of services that hold a pid whose exit is not under way; every service that is Started or
      Running, has checks and is not about to exit has a worker. If only children whose reports have been
      handled are reaped, every process watched is there. */
  lemma MonitorWatchesRightly(r: Trace, config: seq<Service>, i: nat, names: set<ServiceName>)
    requires IsProgramTrace(r, config) && IsOrderly(r) && i < |r.states| && r.states[i].outbox == []
    requires forall e :: e in r.states[i].Log() ==> !e.ShuttingDownInitiated?
    requires AreWatched(names, r.states[i].Log(), config)
    ensures var s := r.states[i];
      && (forall n :: n in names ==>
            && n in s.core.services && s.core.services[n].pid.Some? && !ExitIsQueued(s, n)
            && (ReapsOnlyAnnounced(r) ==> s.core.services[n].pid.value in s.children))
      && (forall n :: IsUpAndStays(s, n) && HasChecks(config, n) ==> n in names)
  {
    hide IsProgramTrace, IsOrderly, IsWatched, HasChecks, IsOrderlyFor, FromServices;
    var s := r.states[i];
    OrderlyForAll(r);
    Begins(r, config);
    FromServicesHolds(config);
    ServicesStay(r, config, i);
    forall n | n in names
      ensures n in s.core.services && s.core.services[n].pid.Some? && !ExitIsQueued(s, n)
      ensures ReapsOnlyAnnounced(r) ==> s.core.services[n].pid.value in s.children
    {
      CheckedIsDefined(config, n);
      RunWatchesRightly(r, config, i, n);
      QueuedMeansOutlook(s, n);
      if ReapsOnlyAnnounced(r) {
        RunAccounts(r, config, i);
        assert IsAccounted(s, n);
      }
    }
    forall n | IsUpAndStays(s, n) && HasChecks(config, n) ensures n in names {
      RunWatchesRightly(r, config, i, n);
      QueuedMeansOutlook(s, n);
    }
  }

  lemma CheckedIsDefined(config: seq<Service>, n: ServiceName)
    requires HasChecks(config, n)
    ensures IsDefined(config, n)
  {
  }
}
