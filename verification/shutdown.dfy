/** Shutting down: the lifecycle only advances, never waits in vain, and needs boundedly many changes. */
module Shutdowns {
  import opened Formats
  import opened ServiceHandlers
  import opened Repos
  import opened Commands
  import opened Dependencies
  import opened Emissions
  import opened Machine
  import opened Invariants
  import opened Kills
  import opened Frames

  // ---------- the lifecycle only advances ----------

  const Gentle := ShuttingDownInitiated(Gracefully)
  const Harsh := ShuttingDownInitiated(Forcefully)

  function Severity(lifecycle: LifecycleStatus): nat {
    match lifecycle
    case Active => 0
    case ShuttingDown(Gracefully) => 1
    case ShuttingDown(Forcefully) => 2
  }

  /** No graceful shutdown is announced behind a forceful one. */
  predicate GentleFirst(q: seq<Event>) {
    q != [] ==> (q[0] == Harsh ==> Gentle !in q[1..]) && GentleFirst(q[1..])
  }

  lemma {:induction false} GentleFirstConcat(p: seq<Event>, q: seq<Event>)
    ensures GentleFirst(p + q) <==> GentleFirst(p) && GentleFirst(q) && !(Harsh in p && Gentle in q)
  {
    if p == [] {
      assert p + q == q;
    } else {
      assert (p + q)[1..] == p[1..] + q;
      GentleFirstConcat(p[1..], q);
      assert p == [p[0]] + p[1..];
    }
  }

  ghost predicate ModeInv(lifecycle: LifecycleStatus, q: seq<Event>) {
    && GentleFirst(q)
    && (lifecycle == Active ==> Harsh !in q)
    && (lifecycle == ShuttingDown(Forcefully) ==> Gentle !in q)
  }

  /** The step gives up a service whose health checks could not be prepared. */
  predicate FailsToPrepare(s: State, a: Action) {
    && a.Handle? && !a.prepared && |s.inbox| > 0 && s.inbox[0].Run?
    && s.inbox[0].name in s.core.services && s.core.services[s.inbox[0].name].status == Initial
  }

  /** A forceful shutdown is on, or announced. */
  predicate IsForceful(s: State) {
    s.core.lifecycle == ShuttingDown(Forcefully) || Harsh in s.Queue()
  }

  /** After the supervisor has stopped nobody handles events any more. */
  ghost predicate IsSteady(s: State) {
    s.phase.Stopped? || ModeInv(s.core.lifecycle, s.Queue())
  }

  ghost predicate Advances(s: State, a: Action)
    requires Enabled(s, a)
  {
    Severity(s.core.lifecycle) <= Severity(Apply(s, a).core.lifecycle) && IsSteady(Apply(s, a))
  }

  lemma GentleFirstOf(p: seq<Event>)
    requires Harsh !in p || Gentle !in p
    ensures GentleFirst(p)
  {
  }

  lemma HandleModes(c: Core, ev: Event, prepared: bool, now: nat)
    requires CanHandle(c, ev)
    ensures var h := HandleEvent(c, ev, prepared, now);
      var fails := ev.Run? && !prepared && c.services[ev.name].status == Initial;
      && Harsh !in h.produced
      && (Gentle in h.produced <==> fails)
      && h.core.lifecycle == if ev.ShuttingDownInitiated? then ShuttingDown(ev.mode)
                             else if fails then ShuttingDown(Gracefully) else c.lifecycle
  {
  }

  lemma HandleAdvances(s: State, a: Action)
    requires IsSteady(s) && a.Handle? && Enabled(s, a) && CanHandle(s.core, s.inbox[0])
    ensures Advances(s, a) <==> !(FailsToPrepare(s, a) && IsForceful(s))
  {
    hide HandleEvent;
    var ev, t := s.inbox[0], s.inbox[1..] + s.outbox;
    var h := HandleEvent(s.core, ev, a.prepared, a.now);
    HandleModes(s.core, ev, a.prepared, a.now);
    assert s.Queue() == [ev] + t && s.Queue()[1..] == t && Apply(s, a).Queue() == t + h.produced;
    GentleFirstOf(h.produced);
    GentleFirstConcat(t, h.produced);
  }

  lemma ComputeAdvances(s: State, a: Action)
    requires IsSteady(s) && a.Compute? && Enabled(s, a)
    ensures Advances(s, a)
  {
    hide HandleEvent, NextAll, ReapEvents, IsClosed;
    var c, s' := s.core, Apply(s, a);
    var commands, exits := NextAll(c.services, a.order, a.order, c.lifecycle, a.now), ReapEvents(c.pidMap, a.reaped);
    assert s'.Queue() == s.Queue() + (commands + exits);
    NextAllIsJustified(c.services, a.order, a.order, c.lifecycle, a.now);
    ReapsFollow(c.pidMap, a.reaped, "");
    assert Harsh !in commands + exits;
    GentleFirstOf(commands + exits);
    GentleFirstConcat(s.Queue(), commands + exits);
  }

  lemma InsertAdvances(s: State, s': State, e: Event)
    requires IsSteady(s) && s'.core.lifecycle == s.core.lifecycle && s'.phase.Stopped? == s.phase.Stopped?
    requires s'.inbox == s.inbox + [e] && s'.outbox == s.outbox && !e.ShuttingDownInitiated?
    ensures IsSteady(s')
  {
    if !s.phase.Stopped? {
      assert s'.Queue() == s.inbox + [e] + s.outbox;
      GentleFirstConcat(s.inbox, s.outbox);
      GentleFirstOf([e]);
      GentleFirstConcat(s.inbox, [e]);
      GentleFirstConcat(s.inbox + [e], s.outbox);
    }
  }

  lemma PollAdvances(s: State, a: Action)
    requires IsSteady(s) && a.Take? && Enabled(s, a) && s.outbox == []
    ensures Advances(s, a)
  {
    var poll := PollSigterm(s.core);
    assert s.Queue() == s.inbox && Apply(s, a).Queue() == s.inbox + poll;
    GentleFirstOf(poll);
    GentleFirstConcat(s.inbox, poll);
  }

  /** A step takes the lifecycle back, or announces that it will, if and only if it gives up a service
      for want of preparation while a forceful shutdown is on or announced. */
  lemma LifecycleAdvancesExactly(s: State, a: Action)
    requires IsSteady(s) && IsTidy(s) && Enabled(s, a)
    ensures Advances(s, a) <==> !(FailsToPrepare(s, a) && IsForceful(s))
  {
    var s' := Apply(s, a);
    if a.Handle? {
      if CanHandle(s.core, s.inbox[0]) { HandleAdvances(s, a); } else { assert s'.Queue() == s.Queue(); }
    } else if a.Compute? {
      ComputeAdvances(s, a);
    } else if a.Take? {
      PollAdvances(s, a);
    } else if a.SpawnSucceeds? || a.SpawnFails? || a.ReportHealth? {
      InsertAdvances(s, s', s'.inbox[|s.inbox|]);
    } else {
      assert a.Stop? || s'.Queue() == s.Queue();
    }
  }

  ghost predicate PreparesWhenForced(r: Trace) {
    |r.states| == |r.actions| + 1 &&
    forall i :: 0 <= i < |r.actions| ==> !(FailsToPrepare(r.states[i], r.actions[i]) && IsForceful(r.states[i]))
  }

  lemma RunIsTidy(r: Trace, config: seq<Service>, i: nat)
    requires IsProgramTrace(r, config) && i < |r.states|
    ensures IsTidy(r.states[i])
  {
    hide IsProgramTrace, IsTidy, NamesAreKnown;
    RunKeepsFrame(r, config, i);
  }

  lemma StartIsSteady(config: seq<Service>)
    ensures IsSteady(Start(config))
  {
    assert Start(config).Queue() == [];
  }

  lemma {:induction false} RunIsSteady(r: Trace, config: seq<Service>, i: nat)
    requires IsProgramTrace(r, config) && PreparesWhenForced(r) && i < |r.states|
    ensures IsSteady(r.states[i])
  {
    hide IsSteady, IsTidy, Enabled, Apply, FromServices, FailsToPrepare, IsForceful;
    Begins(r, config);
    if i == 0 {
      StartIsSteady(config);
    } else {
      Goes(r, config, i - 1);
      RunIsSteady(r, config, i - 1);
      RunIsTidy(r, config, i - 1);
      LifecycleAdvancesExactly(r.states[i - 1], r.actions[i - 1]);
    }
  }

  /** The lifecycle goes from up to graceful to forceful shutdown and never back. */
  lemma {:induction false} LifecycleIsMonotone(r: Trace, config: seq<Service>, i: nat, j: nat)
    requires IsProgramTrace(r, config) && PreparesWhenForced(r) && i <= j < |r.states|
    ensures Severity(r.states[i].core.lifecycle) <= Severity(r.states[j].core.lifecycle)
  {
    hide IsSteady, IsTidy, Enabled, Apply, FailsToPrepare, IsForceful;
    if i < j {
      Goes(r, config, j - 1);
      LifecycleIsMonotone(r, config, i, j - 1);
      RunIsSteady(r, config, j - 1);
      RunIsTidy(r, config, j - 1);
      LifecycleAdvancesExactly(r.states[j - 1], r.actions[j - 1]);
    }
  }

  // ---------- one SIGTERM does not escalate ----------

  /** No forceful shutdown is on or announced, and no signal is pending that would start one. */
  ghost predicate IsCalm(s: State) {
    && Harsh !in s.inbox && Harsh !in s.outbox
    && s.core.lifecycle != ShuttingDown(Forcefully)
    && (s.core.lifecycle == ShuttingDown(Gracefully) ==> !s.core.sigterm)
  }

  /** A SIGTERM arrives after shutdown began, or shutdown begins by a failed preparation with a SIGTERM pending. */
  predicate Escalates(s: State, a: Action) {
    || (a.Terminate? && s.core.lifecycle.ShuttingDown?)
    || (FailsToPrepare(s, a) && s.core.sigterm)
  }

  lemma HandleSigterm(c: Core, ev: Event, prepared: bool, now: nat)
    requires CanHandle(c, ev)
    ensures HandleEvent(c, ev, prepared, now).core.sigterm == (c.sigterm && !ev.ShuttingDownInitiated?)
  {
  }

  lemma HandleStaysCalm(s: State, a: Action)
    requires IsCalm(s) && Enabled(s, a) && a.Handle?
    ensures IsCalm(Apply(s, a)) <==> !Escalates(s, a)
  {
    hide HandleEvent, AllHaveFinished, IsClosed;
    if CanHandle(s.core, s.inbox[0]) {
      HandleModes(s.core, s.inbox[0], a.prepared, a.now);
      HandleSigterm(s.core, s.inbox[0], a.prepared, a.now);
      assert s.inbox[0] in s.inbox;
      assert forall e :: e in s.inbox[1..] ==> e in s.inbox;
    } else {
      assert !FailsToPrepare(s, a);
    }
  }

  lemma ComputeStaysCalm(s: State, a: Action)
    requires IsCalm(s) && Enabled(s, a) && a.Compute?
    ensures IsCalm(Apply(s, a))
  {
    hide NextAll, ReapEvents, IsClosed;
    NextAllIsJustified(s.core.services, a.order, a.order, s.core.lifecycle, a.now);
    ReapsFollow(s.core.pidMap, a.reaped, "");
  }

  lemma OtherStepStaysCalm(s: State, a: Action)
    requires IsCalm(s) && Enabled(s, a) && !a.Handle? && !a.Compute?
    ensures IsCalm(Apply(s, a)) <==> !Escalates(s, a)
  {
    hide HandleEvent, NextAll, ReapEvents, AllHaveFinished, IsClosed;
    if a.Send? {
      assert s.outbox[0] in s.outbox;
      assert forall e :: e in s.outbox[1..] ==> e in s.outbox;
    } else if a.Terminate? {
      match s.core.lifecycle
      case Active =>
      case ShuttingDown(mode) => assert mode.Gracefully? || mode.Forcefully?;
    } else {
      var added := Apply(s, a).inbox[|s.inbox|..];
      assert Apply(s, a).inbox == s.inbox + added;
      assert Harsh !in added;
    }
  }

  /** Only those two steps lead out of calm: a SIGTERM that arrives while the system is up, however
      often it is polled before it is handled, does not make the shutdown forceful. */
  lemma CalmExactly(s: State, a: Action)
    requires IsCalm(s) && Enabled(s, a)
    ensures IsCalm(Apply(s, a)) <==> !Escalates(s, a)
  {
    hide IsCalm, Apply, Enabled;
    if a.Handle? {
      HandleStaysCalm(s, a);
    } else if a.Compute? {
      ComputeStaysCalm(s, a);
    } else {
      OtherStepStaysCalm(s, a);
    }
  }

  lemma {:induction false} OneSigtermStaysGraceful(r: Trace, config: seq<Service>, i: nat)
    requires IsProgramTrace(r, config) && i < |r.states|
    requires forall k :: 0 <= k < i ==> !Escalates(r.states[k], r.actions[k])
    ensures IsCalm(r.states[i])
  {
    Begins(r, config);
    if i > 0 {
      hide *;
      Goes(r, config, i - 1);
      OneSigtermStaysGraceful(r, config, i - 1);
      CalmExactly(r.states[i - 1], r.actions[i - 1]);
    }
  }

  // ---------- shutdown does not wait in vain ----------

  function ShutdownGraph(services: Services): Graph<ServiceName> {
    map n | n in services :: services[n].service.shutdownAfter
  }

  /** Shutdown is not over and nothing is under way whose end it could be waiting for. */
  ghost predicate IsLingering(services: Services) {
    && !AllHaveFinished(services)
    && (forall n :: n in services ==> !services[n].status.Starting? && !services[n].status.InKilling?)
  }

  /** Some command computed in this state changes a status when handled. */
  ghost predicate MakesProgress(c: Core, now: nat)
    requires IsClosed(c.services)
  {
    exists n, e :: n in c.services && IsCommandFor(c, n, now, e) && ChangesStatus(c, n, e)
  }

  ghost predicate IsCommandFor(c: Core, n: ServiceName, now: nat, e: Event)
    requires IsClosed(c.services) && n in c.services
  {
    c.lifecycle.ShuttingDown? && e in NextEventsShuttingDown(c.services, n, c.lifecycle.mode, now)
  }

  ghost predicate ChangesStatus(c: Core, n: ServiceName, e: Event)
    requires n in c.services
  {
    && CanHandle(c, e)
    && var d := HandleEvent(c, e, true, 0).core;
       n in d.services && d.services[n].status != c.services[n].status
  }

  lemma ServiceProgresses(c: Core, now: nat, n: ServiceName)
    requires IsClosed(c.services) && n in c.services && c.lifecycle.ShuttingDown?
    requires !c.services[n].IsTerminal() && !c.services[n].status.Starting? && !c.services[n].status.InKilling?
    requires c.services[n].status.Running? || c.services[n].status.Started? ==>
      c.lifecycle.mode == Forcefully || IsServiceKillable(c.services, c.services[n])
    ensures MakesProgress(c, now)
  {
    var evs := NextEventsShuttingDown(c.services, n, c.lifecycle.mode, now);
    assert evs[0] in evs;
    assert IsCommandFor(c, n, now, evs[0]) && ChangesStatus(c, n, evs[0]);
  }

  /** A forceful shutdown needs no order at all. */
  lemma ForcefulProgresses(c: Core, now: nat)
    requires IsClosed(c.services) && c.lifecycle == ShuttingDown(Forcefully) && IsLingering(c.services)
    ensures MakesProgress(c, now)
  {
    var n :| n in c.services && !c.services[n].IsTerminal();
    ServiceProgresses(c, now, n);
  }

  ghost predicate IsWedgeable(c: Core, g: Graph<ServiceName>) {
    IsClosed(c.services) && ShutdownGraph(c.services) == g && c.lifecycle == ShuttingDown(Gracefully)
        && IsLingering(c.services)
  }

  lemma AcyclicProgresses(c: Core, now: nat, g: Graph<ServiceName>)
    requires IsWedgeable(c, g) && forall some :: !IsStuck(g, some)
    ensures MakesProgress(c, now)
  {
    hide MakesProgress;
    var left := set n | n in c.services && !c.services[n].IsTerminal();
    var m :| m in c.services && !c.services[m].IsTerminal();
    assert m in left;
    assert !IsStuck(g, left);
    var n :| n in left && !DependsWithin(g, left, n);
    forall d | d in c.services[n].service.shutdownAfter ensures c.services[d].IsTerminal() {
      assert DependsOn(g, n, d);
    }
    ServiceProgresses(c, now, n);
  }
}
