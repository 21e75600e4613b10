/** The map from pids to services, in every run: also where a service is started over a process still around. */
module PidBook {
  import opened Formats
  import opened ServiceHandlers
  import opened Repos
  import opened Commands
  import opened Emissions
  import opened Machine
  import opened Invariants
  import opened Preservation
  import opened Kills

  ghost predicate IsHeld(services: Services, pidMap: map<Pid, ServiceName>, n: ServiceName) {
    n in services && services[n].pid.Some? ==>
      services[n].pid.value in pidMap && pidMap[services[n].pid.value] == n
  }

  /** The pids reported in `q` are new, and no two of them are the same. */
  ghost predicate AreNew(q: seq<Event>, pidMap: map<Pid, ServiceName>) {
    && (forall i :: 0 <= i < |q| && q[i].PidChanged? ==> q[i].pid !in pidMap)
    && (forall i, j :: 0 <= i < j < |q| && q[i].PidChanged? && q[j].PidChanged? ==> q[i].pid != q[j].pid)
  }

  ghost predicate NoReports(q: seq<Event>) {
    forall e :: e in q ==> !e.PidChanged?
  }

  ghost predicate PidInv(s: State) {
    && (forall n :: IsHeld(s.core.services, s.core.pidMap, n))
    && AreNew(s.inbox, s.core.pidMap)
    && ForksAreNew(s)
    && NoReports(s.outbox)
  }

  lemma HandleReportsNobody(c: Core, ev: Event, prepared: bool, now: nat)
    requires CanHandle(c, ev)
    ensures NoReports(HandleEvent(c, ev, prepared, now).produced)
  {
  }

  /** Exits give back the pid the service holds, reports give it a new one. */
  lemma HandleKeepsHeld(c: Core, ev: Event, prepared: bool, now: nat, n: ServiceName)
    requires CanHandle(c, ev) && (ev.PidChanged? ==> ev.pid !in c.pidMap)
    requires forall m :: IsHeld(c.services, c.pidMap, m)
    ensures var d := HandleEvent(c, ev, prepared, now).core; IsHeld(d.services, d.pidMap, n)
  {
    hide HandleEvent;
    HandleKeepsPids(c, ev, prepared, now);
    HandleKeepsKeys(c, ev, prepared, now);
    assert IsHeld(c.services, c.pidMap, n);
    if ev.ServiceExited? {
      assert IsHeld(c.services, c.pidMap, ev.name);
    }
  }

  lemma HandleKeepsPidInv(s: State, a: Action)
    requires PidInv(s) && a.Handle? && Enabled(s, a) && CanHandle(s.core, s.inbox[0])
    ensures PidInv(Apply(s, a))
  {
    hide HandleEvent, IsHeld, ForksAreNew;
    HandleKeepsForksNew(s, a);
    var ev, s' := s.inbox[0], Apply(s, a);
    forall n ensures IsHeld(s'.core.services, s'.core.pidMap, n) {
      HandleKeepsHeld(s.core, ev, a.prepared, a.now, n);
    }
    HandleKeepsPids(s.core, ev, a.prepared, a.now);
    HandleReportsNobody(s.core, ev, a.prepared, a.now);
  }

  lemma ReportIsNew(s: State, a: Action)
    requires ForksAreNew(s) && a.SpawnSucceeds? && Enabled(s, a)
    ensures a.pid !in s.core.pidMap
    ensures forall i :: 0 <= i < |s.inbox| ==> !(s.inbox[i].PidChanged? && s.inbox[i].pid == a.pid)
  {
    assert !IsReported(s.inbox, a.pid);
  }

  lemma OneMoreReport(q: seq<Event>, e: Event, pidMap: map<Pid, ServiceName>)
    requires AreNew(q, pidMap)
    requires e.PidChanged? ==> e.pid !in pidMap && forall i :: 0 <= i < |q| ==> !(q[i].PidChanged? && q[i].pid == e.pid)
    ensures AreNew(q + [e], pidMap)
  {
  }

  lemma OtherStepKeepsForksNew(s: State, a: Action)
    requires ForksAreNew(s) && NoReports(s.outbox) && !a.Handle? && Enabled(s, a)
    ensures ForksAreNew(Apply(s, a))
  {
    hide HandleEvent, NextAll, ReapEvents, AllHaveFinished;
    var s' := Apply(s, a);
    assert forall e :: e in s'.inbox && e.PidChanged? ==> e in s.inbox || (a.SpawnSucceeds? && e.pid == a.pid);
    forall p | p in s'.forked ensures p !in s'.core.pidMap && !IsReported(s'.inbox, p) {
      if p in s.forked {
        assert !IsReported(s.inbox, p);
      }
    }
  }

  lemma OtherStepKeepsPidInv(s: State, a: Action)
    requires PidInv(s) && !a.Handle? && Enabled(s, a)
    ensures PidInv(Apply(s, a))
  {
    hide HandleEvent, IsHeld, AreNew, NextAll, ReapEvents, ForksAreNew;
    OtherStepKeepsForksNew(s, a);
    var s' := Apply(s, a);
    if a.Compute? {
      NextAllIsJustified(s.core.services, a.order, a.order, s.core.lifecycle, a.now);
      ReapsFollow(s.core.pidMap, a.reaped, "");
    } else if s'.inbox != s.inbox {
      assert |s'.inbox| == |s.inbox| + 1;
      var e := s'.inbox[|s.inbox|];
      assert s'.inbox == s.inbox + [e];
      assert a.Send? ==> e in s.outbox;
      if a.SpawnSucceeds? {
        ReportIsNew(s, a);
      }
      OneMoreReport(s.inbox, e, s.core.pidMap);
    }
  }

  lemma StepKeepsPidInv(s: State, a: Action)
    requires PidInv(s) && Enabled(s, a)
    ensures PidInv(Apply(s, a))
  {
    hide HandleEvent, PidInv;
    if !a.Handle? {
      OtherStepKeepsPidInv(s, a);
    } else if CanHandle(s.core, s.inbox[0]) {
      HandleKeepsPidInv(s, a);
    } else {
      SamePidInv(s, Apply(s, a));
    }
  }

  lemma SamePidInv(s: State, s': State)
    requires PidInv(s) && s'.core == s.core && s'.inbox == s.inbox && s'.outbox == s.outbox && s'.forked == s.forked
    ensures PidInv(s')
  {
  }

  lemma StartHoldsNothing(config: seq<Service>)
    ensures PidInv(Start(config))
  {
    FromServicesHolds(config);
  }

  /** In every run, orderly or not, a pid held by a service is mapped to that service: whatever exit is
      reported of a process that a service holds is reported of that service. */
  lemma {:induction false} RunKeepsPidInv(r: Trace, config: seq<Service>, i: nat)
    requires IsProgramTrace(r, config) && i < |r.states|
    ensures PidInv(r.states[i])
  {
    hide *;
    Begins(r, config);
    if i == 0 {
      StartHoldsNothing(config);
    } else {
      Goes(r, config, i - 1);
      RunKeepsPidInv(r, config, i - 1);
      StepKeepsPidInv(r.states[i - 1], r.actions[i - 1]);
    }
  }

  lemma NobodySharesAPid(r: Trace, config: seq<Service>, i: nat, m: ServiceName, n: ServiceName)
    requires IsProgramTrace(r, config) && i < |r.states|
    requires m in r.states[i].core.services && n in r.states[i].core.services
    requires r.states[i].core.services[m].pid.Some?
        && r.states[i].core.services[m].pid == r.states[i].core.services[n].pid
    ensures m == n
  {
    hide IsProgramTrace, AreNew, NoReports;
    RunKeepsPidInv(r, config, i);
    var c := r.states[i].core;
    assert IsHeld(c.services, c.pidMap, m) && IsHeld(c.services, c.pidMap, n);
  }
}
