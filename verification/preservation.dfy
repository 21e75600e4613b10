/** The invariant holds at the start and is kept by every step that does not start a service over a
    process; a step that does breaks it. */
module Preservation {
  import opened Formats
  import opened ServiceHandlers
  import opened Repos
  import opened Commands
  import opened Queues
  import opened Emissions
  import opened Machine
  import opened Invariants

  // ---------- handling an event ----------

  /** Under the invariant the supervisor finds everything it looks up for the next event. */
  lemma NextEventCanBeHandled(s: State)
    requires Inv(s) && s.inbox != []
    ensures CanHandle(s.core, s.inbox[0])
  {
    var ev := s.inbox[0];
    assert ev in s.inbox;
    if ev.ServiceExited? {
      assert Local(s, ev.name);
      FirstInOutlook(s, ev.name);
    }
  }

  lemma FirstInOutlook(s: State, n: ServiceName)
    requires s.inbox != []
    ensures OutlookOf(s.Queue(), n) == Join(Single(s.inbox[0], n), OutlookOf(s.inbox[1..] + s.outbox, n))
  {
    assert s.Queue()[0] == s.inbox[0] && s.Queue()[1..] == s.inbox[1..] + s.outbox;
  }

  /** Handling an event changes no configuration and produces only events about services that exist,
      none of them a spawn report. */
  lemma HandleKeepsNames(c: Core, ev: Event, prepared: bool, now: nat)
    requires CanHandle(c, ev) && IsKnown(ev, c.services)
    ensures var h := HandleEvent(c, ev, prepared, now);
            && h.core.services.Keys == c.services.Keys
            && (forall n :: n in c.services ==> h.core.services[n].service == c.services[n].service)
            && (forall e :: e in h.produced ==> IsKnown(e, h.core.services) && !e.PidChanged? && !e.SpawnFailed?)
            && (forall n :: n in h.core.spawning ==> n in c.spawning || (ev.Run? && n == ev.name))
  {
    hide HandleEvent;
    HandleKeepsKeys(c, ev, prepared, now);
    HandleProducesKnown(c, ev, prepared, now);
    HandleSpawnsNamed(c, ev, prepared, now);
  }

  lemma HandleKeepsKeys(c: Core, ev: Event, prepared: bool, now: nat)
    requires CanHandle(c, ev)
    ensures var h := HandleEvent(c, ev, prepared, now);
            && h.core.services.Keys == c.services.Keys
            && (forall n :: n in c.services ==> h.core.services[n].service == c.services[n].service)
  {
    hide HandleEvent;
    HandleUpdatesOne(c, ev, prepared, now);
  }

  /** `services'` differs from `services` at most in the state of `n`. */
  ghost predicate UpdatesOne(services: Services, services': Services, n: ServiceName) {
    && n in services && n in services'
    && services' == services[n := services'[n]]
    && services'[n].service == services[n].service
  }

  lemma HandleUpdatesOne(c: Core, ev: Event, prepared: bool, now: nat)
    requires CanHandle(c, ev)
    ensures var services := HandleEvent(c, ev, prepared, now).core.services;
            services == c.services || (!ev.ShuttingDownInitiated? && UpdatesOne(c.services, services, ev.name))
  {
    hide IsAllowed, SpawnDelay, HandleRun;
    if ev.Run? {
      RunUpdatesOne(c, ev.name, prepared);
    }
  }

  lemma RunUpdatesOne(c: Core, n: ServiceName, prepared: bool)
    requires n in c.services
    ensures var services := HandleRun(c, n, prepared).core.services;
            services == c.services || UpdatesOne(c.services, services, n)
  {
    var sh := c.services[n];
    assert c.services[n := sh.(status := Starting)][n := sh.(status := FinishedFailed)]
        == c.services[n := sh.(status := FinishedFailed)];
  }

  lemma HandleProducesKnown(c: Core, ev: Event, prepared: bool, now: nat)
    requires CanHandle(c, ev) && IsKnown(ev, c.services)
    ensures forall e :: e in HandleEvent(c, ev, prepared, now).produced ==>
              IsKnown(e, c.services) && !e.PidChanged? && !e.SpawnFailed?
  {
  }

  lemma HandleSpawnsNamed(c: Core, ev: Event, prepared: bool, now: nat)
    requires CanHandle(c, ev)
    ensures forall n :: n in HandleEvent(c, ev, prepared, now).core.spawning ==>
              n in c.spawning || (ev.Run? && n == ev.name)
  {
  }

  /** Only a spawn report gives a pid and only an exit takes one away. */
  lemma HandleKeepsPids(c: Core, ev: Event, prepared: bool, now: nat)
    requires CanHandle(c, ev)
    ensures var h := HandleEvent(c, ev, prepared, now);
            if ev.ServiceExited? then
              && h.core.pidMap == c.pidMap - {c.services[ev.name].pid.value}
              && h.core.services[ev.name].pid.None?
            else if ev.PidChanged? then
              h.core.pidMap == c.pidMap[ev.pid := ev.name] && h.core.services[ev.name].pid == Some(ev.pid)
            else
              h.core.pidMap == c.pidMap
              && (!ev.ShuttingDownInitiated? && ev.name in c.services ==>
                  ev.name in h.core.services && h.core.services[ev.name].pid == c.services[ev.name].pid)
    ensures var h := HandleEvent(c, ev, prepared, now);
            forall n :: n in c.services && (ev.ShuttingDownInitiated? || ev.name != n) ==>
              n in h.core.services && h.core.services[n] == c.services[n]
  {
    hide HandleEvent;
    HandleUpdatesOne(c, ev, prepared, now);
    HandleMapsPids(c, ev, prepared, now);
  }

  lemma HandleMapsPids(c: Core, ev: Event, prepared: bool, now: nat)
    requires CanHandle(c, ev)
    ensures var h := HandleEvent(c, ev, prepared, now);
            && (ev.ServiceExited? ==>
                  && h.core.pidMap == c.pidMap - {c.services[ev.name].pid.value}
                  && h.core.services[ev.name].pid.None?)
            && (ev.PidChanged? ==>
                  && h.core.pidMap == c.pidMap[ev.pid := ev.name]
                  && h.core.services[ev.name].pid == Some(ev.pid))
            && (!ev.ServiceExited? && !ev.PidChanged? ==>
                  && h.core.pidMap == c.pidMap
                  && (!ev.ShuttingDownInitiated? && ev.name in c.services ==>
                      ev.name in h.core.services && h.core.services[ev.name].pid == c.services[ev.name].pid))
  {
    hide IsAllowed, SpawnDelay;
  }

  /** A report of a new process finds its service without one, and does not come twice. */
  lemma ReportComesOnce(s: State)
    requires s.inbox != [] && s.inbox[0].PidChanged? && s.inbox[0].name in s.core.services
    requires Local(s, s.inbox[0].name)
    ensures s.core.services[s.inbox[0].name].pid.None?
    ensures s.inbox[0] !in s.inbox[1..]
  {
    var n := s.inbox[0].name;
    FirstInOutlook(s, n);
    if s.inbox[0] in s.inbox[1..] {
      var j :| 1 <= j < |s.inbox| && s.inbox[j] == s.inbox[0];
      assert s.Queue()[0] == s.inbox[0] && s.Queue()[j] == s.inbox[0];
      ReportsAreSingle(s.Queue(), n, 0, j);
      assert false;
    }
  }

  lemma HandleKeepsPidsAgree(c: Core, inbox: seq<Event>, prepared: bool, now: nat)
    requires inbox != [] && CanHandle(c, inbox[0]) && IsKnown(inbox[0], c.services)
    requires PidsAgree(c.services, c.pidMap) && ReportsAreFresh(inbox, c.pidMap)
    requires inbox[0].PidChanged? ==> c.services[inbox[0].name].pid.None?
    ensures var h := HandleEvent(c, inbox[0], prepared, now); PidsAgree(h.core.services, h.core.pidMap)
  {
    hide HandleEvent;
    var ev := inbox[0];
    HandleKeepsPids(c, ev, prepared, now);
    HandleKeepsNames(c, ev, prepared, now);
    var h := HandleEvent(c, ev, prepared, now);
    if !ev.PidChanged? && !ev.ServiceExited? {
      forall n | n in c.services ensures h.core.services[n].pid == c.services[n].pid {
      }
    }
  }

  lemma HandleKeepsReportsFresh(c: Core, inbox: seq<Event>, prepared: bool, now: nat)
    requires inbox != [] && CanHandle(c, inbox[0])
    requires ReportsAreFresh(inbox, c.pidMap)
    requires inbox[0].PidChanged? ==> inbox[0] !in inbox[1..]
    ensures ReportsAreFresh(inbox[1..], HandleEvent(c, inbox[0], prepared, now).core.pidMap)
  {
    HandleKeepsPids(c, inbox[0], prepared, now);
  }

  lemma HandleKeepsLocal(s: State, prepared: bool, now: nat, n: ServiceName)
    requires s.phase == Handling && 0 < s.taken <= |s.inbox| && n in s.core.services
    requires CanHandle(s.core, s.inbox[0]) && IsKnown(s.inbox[0], s.core.services)
    requires Local(s, n) && RunsOnlyExitedOf(s, Handle(prepared, now), n)
    ensures n in Apply(s, Handle(prepared, now)).core.services && Local(Apply(s, Handle(prepared, now)), n)
  {
    hide HandleEvent, OutlookOf, IsClosed;
    var ev := s.inbox[0];
    var h := HandleEvent(s.core, ev, prepared, now);
    var rest := s.inbox[1..] + s.outbox;
    FirstInOutlook(s, n);
    assert Apply(s, Handle(prepared, now)).Queue() == rest + h.produced;
    if !ev.ShuttingDownInitiated? && ev.name == n {
      HandleKeepsOwn(s.core, ev, prepared, now, n, OutlookOf(rest, n), s.children);
    } else {
      HandleKeepsOthers(s.core, ev, prepared, now, n, OutlookOf(rest, n), s.children);
    }
    OutlookConcat(rest, h.produced, n);
    OutlookConcat(s.outbox, h.produced, n);
  }

  lemma HandleKeepsPhase(s: State, prepared: bool, now: nat)
    requires NamesAreKnown(s) && PhaseInv(s) && Enabled(s, Handle(prepared, now)) && CanHandle(s.core, s.inbox[0])
    ensures NamesAreKnown(Apply(s, Handle(prepared, now))) && PhaseInv(Apply(s, Handle(prepared, now)))
  {
    var ev := s.inbox[0];
    assert ev in s.inbox;
    HandleKeepsNames(s.core, ev, prepared, now);
    assert forall e :: e in s.inbox[1..] ==> e in s.inbox;
  }

  lemma HandleKeepsForksNew(s: State, a: Action)
    requires ForksAreNew(s) && a.Handle? && Enabled(s, a) && CanHandle(s.core, s.inbox[0])
    ensures ForksAreNew(Apply(s, a))
  {
    hide HandleEvent;
    var ev, s' := s.inbox[0], Apply(s, a);
    HandleKeepsPids(s.core, ev, a.prepared, a.now);
    assert ev in s.inbox;
    assert forall e :: e in s'.inbox ==> e in s.inbox;
    forall p | p in s'.forked ensures p !in s'.core.pidMap && !IsReported(s'.inbox, p) {
      assert !IsReported(s.inbox, p);
    }
  }

  lemma HandleKeepsGlobals(s: State, prepared: bool, now: nat)
    requires Inv(s) && Enabled(s, Handle(prepared, now)) && CanHandle(s.core, s.inbox[0])
    ensures Globals(Apply(s, Handle(prepared, now)))
  {
    hide HandleEvent, IsClosed, ForksAreNew;
    assert s.inbox[0] in s.inbox;
    HandleKeepsPhase(s, prepared, now);
    HandleKeepsNames(s.core, s.inbox[0], prepared, now);
    if s.inbox[0].PidChanged? {
      ReportComesOnce(s);
    }
    HandleKeepsPidsAgree(s.core, s.inbox, prepared, now);
    HandleKeepsReportsFresh(s.core, s.inbox, prepared, now);
    HandleKeepsForksNew(s, Handle(prepared, now));
  }

  lemma HandleKeepsInv(s: State, prepared: bool, now: nat)
    requires Inv(s) && Enabled(s, Handle(prepared, now)) && RunsOnlyExited(s, Handle(prepared, now))
    ensures Inv(Apply(s, Handle(prepared, now)))
  {
    hide HandleEvent, Globals, Local;
    NextEventCanBeHandled(s);
    HandleKeepsGlobals(s, prepared, now);
    NextIsKnown(s);
    HandleKeepsNames(s.core, s.inbox[0], prepared, now);
    var s' := Apply(s, Handle(prepared, now));
    forall n | n in s'.core.services ensures Local(s', n) {
      HandleKeepsLocal(s, prepared, now, n);
    }
  }

  lemma NextIsKnown(s: State)
    requires Globals(s) && s.inbox != []
    ensures IsClosed(s.core.services) && IsKnown(s.inbox[0], s.core.services)
  {
    assert s.inbox[0] in s.inbox;
  }

  // ---------- computing commands and reaping ----------

  lemma {:induction false} OrdersNeedBoth(q: seq<Event>, n: ServiceName)
    ensures var o := OutlookOf(q, n);
      && (o.runAfterReport || o.initialAfterReport || o.twoReports ==> o.report)
      && (o.failureAfterRun ==> o.run && o.failure)
      && (o.forceAfterRun ==> o.run && o.force)
      && (o.twoExits ==> o.exit)
  {
    if q != [] {
      OrdersNeedBoth(q[1..], n);
    }
  }

  /** The only pid mapped to `n` is the one it holds. */
  ghost predicate HoldsItsPids(services: Services, pidMap: map<Pid, ServiceName>, n: ServiceName) {
    forall p :: p in pidMap && pidMap[p] == n ==> n in services && services[n].pid == Some(p)
  }

  lemma {:induction false} ReapsAreKnown(services: Services, pidMap: map<Pid, ServiceName>, reaped: seq<(Pid, int)>)
    requires forall p :: p in pidMap ==> pidMap[p] in services
    ensures forall e :: e in ReapEvents(pidMap, reaped) ==> IsKnown(e, services) && e.ServiceExited?
  {
    if reaped != [] {
      ReapsAreKnown(services, pidMap, reaped[1..]);
    }
  }

  lemma IsItsPid(services: Services, pidMap: map<Pid, ServiceName>, n: ServiceName, p: Pid)
    requires HoldsItsPids(services, pidMap, n) && p in pidMap && pidMap[p] == n
    ensures n in services && services[n].pid == Some(p)
  {
  }

  /** What the reaper reports about `n`: at most one exit, of the process `n` holds. */
  lemma {:induction false} ReapedOnce(services: Services, pidMap: map<Pid, ServiceName>, reaped: seq<(Pid, int)>,
        n: ServiceName)
    requires HoldsItsPids(services, pidMap, n)
    requires forall i, j :: 0 <= i < j < |reaped| ==> reaped[i].0 != reaped[j].0
    ensures var o := OutlookOf(ReapEvents(pidMap, reaped), n);
      && o == Clear.(exit := o.exit)
      && (o.exit ==> n in services && services[n].pid.Some?
                     && exists i :: 0 <= i < |reaped| && reaped[i].0 == services[n].pid.value)
  {
    hide HoldsItsPids;
    if reaped != [] {
      var rest := reaped[1..];
      ReapedOnce(services, pidMap, rest, n);
      var o := OutlookOf(ReapEvents(pidMap, rest), n);
      if o.exit {
        var i :| 0 <= i < |rest| && rest[i].0 == services[n].pid.value;
        assert reaped[i + 1] == rest[i];
      }
      if reaped[0].0 in pidMap {
        var first := ServiceExited(pidMap[reaped[0].0], reaped[0].1);
        if pidMap[reaped[0].0] == n {
          IsItsPid(services, pidMap, n, reaped[0].0);
        }
        OutlookOne(first, n);
        OutlookConcat([first], ReapEvents(pidMap, rest), n);
      } else {
        assert ReapEvents(pidMap, reaped) == ReapEvents(pidMap, rest);
      }
    }
  }

  /** What the computed commands hold for `n`, given its status. */
  lemma CommandsOutlook(services: Services, order: seq<ServiceName>, lifecycle: LifecycleStatus, now: nat,
        n: ServiceName)
    requires IsClosed(services) && IsIterationOrder(order, services) && n in services
    ensures var o := OutlookOf(NextAll(services, order, order, lifecycle, now), n);
      && o == Clear.(run := o.run, initial := o.initial, failure := o.failure, force := o.force)
      && (o.run ==> services[n].status == Initial)
      && (o.initial ==> services[n].status.Success? || services[n].status.Failed?)
      && (o.failure ==> services[n].status == Failed)
      && (o.force ==> services[n].status == InKilling && services[n].pid.Some?)
  {
    hide NextAll, OutlookOf;
    var q := NextAll(services, order, order, lifecycle, now);
    NextAllIsJustified(services, order, order, lifecycle, now);
    OutlookMembers(q, n);
    OrdersNeedBoth(q, n);
  }

  /** Appending commands justified by the status of the service, and the exit of its process. */
  lemma AppendKeepsLocal(status: ServiceStatus, pid: Option<Pid>, spawning: nat, o: Outlook, p: Outlook,
        children: set<Pid>, children': set<Pid>)
    requires LocalInv(status, pid, spawning, o, children)
    requires p == Clear.(run := p.run, initial := p.initial, failure := p.failure, force := p.force, exit := p.exit)
    requires p.run ==> status == Initial
    requires p.initial ==> status.Success? || status.Failed?
    requires p.failure ==> status == Failed
    requires p.force ==> status == InKilling && pid.Some?
    requires p.exit ==> pid.Some? && pid.value in children && pid.value !in children'
    requires children' <= children
    ensures LocalInv(status, pid, spawning, Join(o, p), children')
  {
  }

  /** The commands and exits added by an iteration, seen from one service. */
  lemma ComputedOutlook(c: Core, children: set<Pid>, order: seq<ServiceName>, now: nat, reaped: seq<(Pid, int)>,
        n: ServiceName)
    requires IsClosed(c.services) && IsIterationOrder(order, c.services) && n in c.services
    requires HoldsItsPids(c.services, c.pidMap, n)
    requires forall i :: 0 <= i < |reaped| ==> reaped[i].0 in children
    requires forall i, j :: 0 <= i < j < |reaped| ==> reaped[i].0 != reaped[j].0
    ensures var p := OutlookOf(NextAll(c.services, order, order, c.lifecycle, now) + ReapEvents(c.pidMap, reaped), n);
      && p == Clear.(run := p.run, initial := p.initial, failure := p.failure, force := p.force, exit := p.exit)
      && IsTimely(c.services[n], p)
      && (p.exit ==>
            && c.services[n].pid.Some? && c.services[n].pid.value in children
            && c.services[n].pid.value in ReapedPids(reaped))
  {
    var commands, exits := NextAll(c.services, order, order, c.lifecycle, now), ReapEvents(c.pidMap, reaped);
    CommandsOutlook(c.services, order, c.lifecycle, now, n);
    ReapedOnce(c.services, c.pidMap, reaped, n);
    OutlookConcat(commands, exits, n);
  }

  ghost predicate IsTimely(sh: ServiceHandler, p: Outlook) {
    && (p.run ==> sh.status == Initial)
    && (p.initial ==> sh.status.Success? || sh.status.Failed?)
    && (p.failure ==> sh.status == Failed)
    && (p.force ==> sh.status == InKilling && sh.pid.Some?)
  }

  lemma ComputeKeepsLocal(s: State, order: seq<ServiceName>, now: nat, reaped: seq<(Pid, int)>, n: ServiceName)
    requires Enabled(s, Compute(order, now, reaped)) && n in s.core.services
    requires Local(s, n) && HoldsItsPids(s.core.services, s.core.pidMap, n)
    ensures Local(Apply(s, Compute(order, now, reaped)), n)
  {
    hide NextAll, ReapEvents, OutlookOf, LocalInv, HoldsItsPids;
    var c := s.core;
    var added := NextAll(c.services, order, order, c.lifecycle, now) + ReapEvents(c.pidMap, reaped);
    var s' := s.(outbox := s.outbox + added, children := s.children - ReapedPids(reaped), phase := Sending);
    assert s'.outbox == s.outbox + NextAll(c.services, order, order, c.lifecycle, now) + ReapEvents(c.pidMap, reaped);
    assert s' == Apply(s, Compute(order, now, reaped));
    ComputedOutlook(c, s.children, order, now, reaped, n);
    AddedKeepsLocal(s, s', added, n);
  }

  lemma AddedKeepsLocal(s: State, s': State, added: seq<Event>, n: ServiceName)
    requires n in s.core.services && Local(s, n) && s.phase != Sending
    requires s'.core == s.core && s'.inbox == s.inbox && s'.outbox == s.outbox + added && s'.phase == Sending
    requires s'.children <= s.children
    requires var p := OutlookOf(added, n);
      && p == Clear.(run := p.run, initial := p.initial, failure := p.failure, force := p.force, exit := p.exit)
      && IsTimely(s.core.services[n], p)
      && (p.exit ==>
            && s.core.services[n].pid.Some? && s.core.services[n].pid.value in s.children
            && s.core.services[n].pid.value !in s'.children)
    ensures Local(s', n)
  {
    hide OutlookOf, Apply, Enabled;
    var sh := s.core.services[n];
    AppendKeepsLocal(sh.status, sh.pid, s.core.spawning[n], OutlookOf(s.Queue(), n), OutlookOf(added, n), s.children,
        s'.children);
    assert s'.Queue() == s.Queue() + added;
    OutlookConcat(s.Queue(), added, n);
    OutlookConcat(s.outbox, added, n);
  }

  lemma ComputeKeepsGlobals(s: State, order: seq<ServiceName>, now: nat, reaped: seq<(Pid, int)>)
    requires Globals(s) && Enabled(s, Compute(order, now, reaped))
    ensures Globals(Apply(s, Compute(order, now, reaped)))
  {
    var c, s' := s.core, Apply(s, Compute(order, now, reaped));
    var commands, exits := NextAll(c.services, order, order, c.lifecycle, now), ReapEvents(c.pidMap, reaped);
    NextAllIsJustified(c.services, order, order, c.lifecycle, now);
    ReapsAreKnown(c.services, c.pidMap, reaped);
    forall e | e in s'.outbox ensures IsKnown(e, c.services) && !e.PidChanged? && !e.SpawnFailed? {
      assert e in s.outbox || e in commands || e in exits;
      if e in commands { assert IsJustified(c.services, c.lifecycle, now, e); }
    }
  }

  lemma ComputeKeepsInv(s: State, order: seq<ServiceName>, now: nat, reaped: seq<(Pid, int)>)
    requires Inv(s) && Enabled(s, Compute(order, now, reaped))
    ensures Inv(Apply(s, Compute(order, now, reaped)))
  {
    ComputeKeepsGlobals(s, order, now, reaped);
    forall n | n in s.core.services ensures Local(Apply(s, Compute(order, now, reaped)), n) {
      ComputeKeepsLocal(s, order, now, reaped, n);
    }
  }

  // ---------- the other steps ----------

  lemma InboxOutlook(s: State, s': State, e: Event, n: ServiceName)
    requires s'.inbox == s.inbox + [e] && s'.outbox == s.outbox
    ensures OutlookOf(s.Queue(), n) == Join(OutlookOf(s.inbox, n), OutlookOf(s.outbox, n))
    ensures OutlookOf(s'.Queue(), n) == Join(Join(OutlookOf(s.inbox, n), Single(e, n)), OutlookOf(s.outbox, n))
  {
    OutlookConcat(s.inbox, s.outbox, n);
    OutlookInsert(s.inbox, e, s.outbox, n);
  }

  /** Its report takes the place of a spawn thread. */
  lemma InsertReport(status: ServiceStatus, pid: Option<Pid>, i: Outlook, o: Outlook, e: Event, n: ServiceName,
        children: set<Pid>)
    requires LocalInv(status, pid, 1, Join(i, o), children) && OutboxInv(1, o, true)
    requires IsReport(e, n)
    ensures LocalInv(status, pid, 0, Join(Join(i, Single(e, n)), o), children)
  {
  }

  lemma ReportKeepsLocal(s: State, s': State, name: ServiceName, report: Event, n: ServiceName)
    requires n in s.core.services && Local(s, n) && IsReport(report, name) && name in s.core.spawning
    requires s'.core == s.core.(spawning := s.core.spawning - multiset{name})
    requires s'.inbox == s.inbox + [report] && s'.outbox == s.outbox && s'.phase == s.phase
    requires s'.children == s.children
    ensures Local(s', n)
  {
    InboxOutlook(s, s', report, n);
    var sh := s.core.services[n];
    if name == n {
      assert s.core.spawning[n] == 1 && s'.core.spawning[n] == 0;
      InsertReport(sh.status, sh.pid, OutlookOf(s.inbox, n), OutlookOf(s.outbox, n), report, n, s.children);
    } else {
      assert Single(report, n) == Clear;
      JoinClear(OutlookOf(s.inbox, n));
    }
  }

  /** A new process is nobody's yet. */
  lemma ForkKeepsLocal(s: State, a: Action, n: ServiceName)
    requires n in s.core.services && Local(s, n) && a.Fork? && Enabled(s, a)
    requires s.core.services[n].pid.Some? ==> s.core.services[n].pid.value in s.core.pidMap
    ensures Local(Apply(s, a), n)
  {
    hide OutlookOf;
    assert Apply(s, a).Queue() == s.Queue();
  }

  lemma ForkKeepsInv(s: State, a: Action)
    requires Inv(s) && a.Fork? && Enabled(s, a)
    ensures Inv(Apply(s, a))
  {
    hide Local, IsClosed;
    forall e | e in s.inbox && e.PidChanged? ensures e.pid != a.pid {
      var i :| 0 <= i < |s.inbox| && s.inbox[i] == e;
    }
    forall n | n in s.core.services ensures Local(Apply(s, a), n) {
      ForkKeepsLocal(s, a, n);
    }
  }

  lemma NeutralKeepsLocal(s: State, s': State, e: Event, n: ServiceName)
    requires n in s.core.services && Local(s, n) && (e.ShuttingDownInitiated? || e.HealthCheck?)
    requires s'.core == s.core && s'.inbox == s.inbox + [e] && s'.outbox == s.outbox && s'.children == s.children
    requires s'.phase == s.phase || s.phase != Sending
    ensures s'.phase != Sending || s.phase == Sending ==> Local(s', n)
  {
    InboxOutlook(s, s', e, n);
    assert Single(e, n) == Clear;
    JoinClear(OutlookOf(s.inbox, n));
  }

  lemma SpawnReportKeepsGlobals(s: State, a: Action)
    requires Globals(s) && Enabled(s, a) && (a.SpawnSucceeds? || a.SpawnFails?)
    ensures Globals(Apply(s, a))
  {
    hide HandleEvent, NextAll, ReapEvents, IsClosed;
    var s' := Apply(s, a);
    var report := if a.SpawnSucceeds? then PidChanged(a.name, a.pid) else SpawnFailed(a.name);
    assert forall e :: e in s'.inbox ==> e in s.inbox || e == report;
    assert s'.forked.Keys <= s.forked.Keys;
    forall p | p in s'.forked ensures !IsReported(s'.inbox, p) {
      assert !IsReported(s.inbox, p);
    }
    if a.SpawnSucceeds? {
      assert !IsReported(s.inbox, a.pid);
    }
  }

  lemma SpawnReportKeepsInv(s: State, a: Action)
    requires Inv(s) && Enabled(s, a) && (a.SpawnSucceeds? || a.SpawnFails?)
    ensures Inv(Apply(s, a))
  {
    hide OutlookOf, IsClosed, LocalInv;
    var report := if a.SpawnSucceeds? then PidChanged(a.name, a.pid) else SpawnFailed(a.name);
    SpawnReportKeepsGlobals(s, a);
    forall n | n in s.core.services ensures Local(Apply(s, a), n) {
      ReportKeepsLocal(s, Apply(s, a), a.name, report, n);
    }
  }

  lemma SendKeepsLocal(s: State, n: ServiceName)
    requires Enabled(s, Send) && n in s.core.services && Local(s, n)
    ensures Local(Apply(s, Send), n)
  {
    assert Apply(s, Send).Queue() == s.Queue();
    assert OutlookOf(s.outbox, n) == Join(Single(s.outbox[0], n), OutlookOf(s.outbox[1..], n));
  }

  lemma SendKeepsInv(s: State)
    requires Inv(s) && Enabled(s, Send)
    ensures Inv(Apply(s, Send))
  {
    var s' := Apply(s, Send);
    assert s.outbox[0] in s.outbox;
    assert forall e :: e in s'.inbox ==> e in s.inbox || e == s.outbox[0];
    forall n | n in s'.core.services ensures Local(s', n) {
      SendKeepsLocal(s, n);
    }
  }

  lemma QuietStepKeepsGlobals(s: State, a: Action)
    requires Globals(s) && Enabled(s, a) && (a.Take? || a.Stop? || a.ReportHealth? || a.EndIteration? || a.Terminate?)
    ensures Globals(Apply(s, a))
  {
    hide HandleEvent, NextAll, ReapEvents, IsClosed;
    var s' := Apply(s, a);
    assert forall e :: e in s'.inbox ==>
        e in s.inbox || e.ShuttingDownInitiated? || (e.HealthCheck? && e.name in s.core.services);
  }

  lemma QuietStepKeepsInv(s: State, a: Action)
    requires Inv(s) && Enabled(s, a) && (a.Take? || a.Stop? || a.ReportHealth? || a.EndIteration? || a.Terminate?)
    ensures Inv(Apply(s, a))
  {
    hide OutlookOf, LocalInv, IsClosed;
    QuietStepKeepsGlobals(s, a);
    forall n | n in s.core.services ensures Local(Apply(s, a), n) {
      QuietStepKeepsLocal(s, a, n);
    }
  }

  lemma QuietStepKeepsLocal(s: State, a: Action, n: ServiceName)
    requires n in s.core.services && Local(s, n)
    requires Enabled(s, a) && (a.Take? || a.Stop? || a.ReportHealth? || a.EndIteration? || a.Terminate?)
    ensures Local(Apply(s, a), n)
  {
    var s' := Apply(s, a);
    if |s'.inbox| == |s.inbox| + 1 {
      NeutralKeepsLocal(s, s', s'.inbox[|s.inbox|], n);
    } else {
      assert s'.inbox == s.inbox;
    }
  }

  lemma StepKeepsInv(s: State, a: Action)
    requires Inv(s) && Enabled(s, a) && RunsOnlyExited(s, a)
    ensures Inv(Apply(s, a))
  {
    match a
    case Handle(prepared, now) => HandleKeepsInv(s, prepared, now);
    case Compute(order, now, reaped) => ComputeKeepsInv(s, order, now, reaped);
    case Send => SendKeepsInv(s);
    case Fork(_, _) => ForkKeepsInv(s, a);
    case SpawnSucceeds(_, _) => SpawnReportKeepsInv(s, a);
    case SpawnFails(_) => SpawnReportKeepsInv(s, a);
    case _ => QuietStepKeepsInv(s, a);
  }

  /** Starting a service whose pid is still set leaves a spawn and a process side by side. */
  lemma OverrunBreaksInv(s: State, a: Action)
    requires Inv(s) && Enabled(s, a) && !RunsOnlyExited(s, a)
    ensures !Inv(Apply(s, a))
  {
    var n := s.inbox[0].name;
    var s' := Apply(s, a);
    assert s'.core.services[n].status == Starting && s'.core.services[n].pid.Some?;
    assert !Local(s', n);
  }

  /** A step from a good state leads to a good state if and only if it does not start a service
      over a process whose exit has not been handled. */
  lemma StepKeepsInvExactly(s: State, a: Action)
    requires Inv(s) && Enabled(s, a)
    ensures Inv(Apply(s, a)) <==> RunsOnlyExited(s, a)
  {
    if RunsOnlyExited(s, a) {
      StepKeepsInv(s, a);
    } else {
      OverrunBreaksInv(s, a);
    }
  }

  lemma StartIsGood(config: seq<Service>)
    requires forall s :: s in config ==> IsWellFormed(s, config)
    ensures Inv(Start(config))
  {
    ValidatedIsClosed(config);
    FromServicesHolds(config);
    var s := Start(config);
    forall n | n in s.core.services ensures Local(s, n) {
      assert s.Queue() == [];
    }
  }

  /** Every state of every orderly run of the program is good. */
  lemma {:induction false} RunKeepsInv(r: Trace, config: seq<Service>, i: nat)
    requires IsProgramTrace(r, config) && IsOrderly(r) && i < |r.states|
    ensures Inv(r.states[i])
  {
    hide *;
    Begins(r, config);
    if i == 0 {
      StartIsGood(config);
    } else {
      Goes(r, config, i - 1);
      RunKeepsInv(r, config, i - 1);
      StepKeepsInv(r.states[i - 1], r.actions[i - 1]);
    }
  }
}
