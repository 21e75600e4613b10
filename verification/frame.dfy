/** What holds in every run, also where a service is started over a process still around: names, pids and
    the phases of the loop are in order, so that only one lookup can ever fail. */
module Frames {
  import opened Formats
  import opened ServiceHandlers
  import opened Repos
  import opened Commands
  import opened Emissions
  import opened Machine
  import opened Invariants
  import opened Preservation
  import opened PidBook

  ghost predicate MapIsKnown(c: Core) {
    forall p :: p in c.pidMap ==> c.pidMap[p] in c.services
  }

  /** Between turns nothing is left to be sent, and a panic leaves the event that caused it in front. */
  ghost predicate IsTidy(s: State) {
    && (s.phase == Handling ==> s.taken <= |s.inbox|)
    && (s.phase == Idle || s.phase.Stopped? ==> s.outbox == [])
    && (forall e :: e in s.outbox ==> !e.PidChanged? && !e.SpawnFailed?)
    && (s.phase == Crashed ==> s.inbox != [] && !CanHandle(s.core, s.inbox[0]))
  }

  ghost predicate FrameInv(s: State) {
    NamesAreKnown(s) && MapIsKnown(s.core) && IsTidy(s) && PidInv(s)
  }

  lemma HandleKeepsMapKnown(c: Core, ev: Event, prepared: bool, now: nat)
    requires CanHandle(c, ev) && IsKnown(ev, c.services) && MapIsKnown(c)
    ensures MapIsKnown(HandleEvent(c, ev, prepared, now).core)
  {
    hide HandleEvent, IsKnown;
    HandleKeepsKeys(c, ev, prepared, now);
    HandleKeepsPids(c, ev, prepared, now);
    KnownHasName(ev, c.services);
  }

  lemma KnownHasName(ev: Event, services: Services)
    requires IsKnown(ev, services)
    ensures ev.ShuttingDownInitiated? || ev.name in services
  {
  }

  lemma HandleKeepsNamesAndPhase(s: State, a: Action)
    requires NamesAreKnown(s) && IsTidy(s) && a.Handle? && Enabled(s, a) && CanHandle(s.core, s.inbox[0])
    ensures NamesAreKnown(Apply(s, a)) && IsTidy(Apply(s, a))
  {
    hide HandleEvent, IsKnown, IsClosed;
    assert s.inbox[0] in s.inbox;
    HandleKeepsNames(s.core, s.inbox[0], a.prepared, a.now);
    KnownHasName(s.inbox[0], s.core.services);
    assert forall e :: e in s.inbox[1..] ==> e in s.inbox;
    KnownIsAboutKeys(s, Apply(s, a));
  }

  /** Being known depends on the names and configurations of the services only. */
  lemma KnownIsAboutKeys(s: State, s': State)
    requires NamesAreKnown(s)
    requires s'.core.services.Keys == s.core.services.Keys
    requires forall n :: n in s.core.services ==> s'.core.services[n].service == s.core.services[n].service
    requires forall e :: e in s'.inbox ==> e in s.inbox || IsKnown(e, s'.core.services)
    requires forall e :: e in s'.outbox ==> e in s.outbox || IsKnown(e, s'.core.services)
    requires forall n :: n in s'.core.spawning ==> n in s.core.spawning || n in s.core.services
    ensures NamesAreKnown(s')
  {
  }

  lemma ComputeKeepsFrame(s: State, a: Action)
    requires FrameInv(s) && a.Compute? && Enabled(s, a)
    ensures NamesAreKnown(Apply(s, a)) && IsTidy(Apply(s, a))
  {
    hide HandleEvent, NextAll, ReapEvents, IsClosed, PidInv;
    var c, s' := s.core, Apply(s, a);
    var commands, exits := NextAll(c.services, a.order, a.order, c.lifecycle, a.now), ReapEvents(c.pidMap, a.reaped);
    NextAllIsJustified(c.services, a.order, a.order, c.lifecycle, a.now);
    ReapsAreKnown(c.services, c.pidMap, a.reaped);
    forall e | e in s'.outbox ensures IsKnown(e, c.services) && !e.PidChanged? && !e.SpawnFailed? {
      assert e in s.outbox || e in commands || e in exits;
      if e in commands {
        assert IsJustified(c.services, c.lifecycle, a.now, e);
      }
    }
  }

  lemma NewcomersAreKnown(s: State, a: Action, e: Event)
    requires NamesAreKnown(s) && Enabled(s, a) && !a.Handle? && !a.Compute?
    requires e in Apply(s, a).inbox && e !in s.inbox
    ensures IsKnown(e, s.core.services)
  {
    hide HandleEvent, NextAll, ReapEvents, IsClosed, AllHaveFinished;
    if a.Send? {
      assert e == s.outbox[0] && s.outbox[0] in s.outbox;
    }
  }

  lemma QuietChangesLittle(s: State, a: Action)
    requires Enabled(s, a) && !a.Handle? && !a.Compute?
    ensures Apply(s, a).core.services == s.core.services
    ensures forall e :: e in Apply(s, a).outbox ==> e in s.outbox
    ensures forall n :: n in Apply(s, a).core.spawning ==> n in s.core.spawning
  {
    hide HandleEvent, NextAll, ReapEvents, IsClosed, AllHaveFinished;
  }

  lemma SpawningIsKnown(s: State)
    requires NamesAreKnown(s)
    ensures forall n :: n in s.core.spawning ==> n in s.core.services
  {
  }

  lemma QuietKeepsNames(s: State, a: Action)
    requires NamesAreKnown(s) && Enabled(s, a) && !a.Handle? && !a.Compute?
    ensures NamesAreKnown(Apply(s, a))
  {
    hide *;
    var s' := Apply(s, a);
    QuietChangesLittle(s, a);
    SpawningIsKnown(s);
    forall e | e in s'.inbox ensures e in s.inbox || IsKnown(e, s'.core.services) {
      if e !in s.inbox {
        NewcomersAreKnown(s, a, e);
      }
    }
    KnownIsAboutKeys(s, s');
  }

  lemma QuietKeepsTidy(s: State, a: Action)
    requires IsTidy(s) && Enabled(s, a) && !a.Handle? && !a.Compute?
    ensures IsTidy(Apply(s, a))
  {
    hide HandleEvent, NextAll, ReapEvents, CanLookUp, AllHaveFinished;
    if a.Send? {
      assert forall e :: e in s.outbox[1..] ==> e in s.outbox;
    }
  }

  lemma StepKeepsFrame(s: State, a: Action)
    requires FrameInv(s) && Enabled(s, a)
    ensures FrameInv(Apply(s, a))
  {
    hide HandleEvent, PidInv, NamesAreKnown, IsTidy;
    StepKeepsPidInv(s, a);
    if a.Handle? {
      if CanHandle(s.core, s.inbox[0]) {
        HandleKeepsNamesAndPhase(s, a);
        FirstIsKnown(s);
        HandleKeepsMapKnown(s.core, s.inbox[0], a.prepared, a.now);
      } else {
        SameNames(s, Apply(s, a));
        PanicIsTidy(s, a);
      }
    } else if a.Compute? {
      ComputeKeepsFrame(s, a);
    } else {
      QuietKeepsNames(s, a);
      QuietKeepsTidy(s, a);
    }
  }

  lemma PanicIsTidy(s: State, a: Action)
    requires IsTidy(s) && a.Handle? && Enabled(s, a) && !CanHandle(s.core, s.inbox[0])
    ensures IsTidy(Apply(s, a))
  {
  }

  lemma FirstIsKnown(s: State)
    requires NamesAreKnown(s) && s.inbox != []
    ensures IsKnown(s.inbox[0], s.core.services)
  {
    assert s.inbox[0] in s.inbox;
  }

  lemma SameNames(s: State, s': State)
    requires NamesAreKnown(s) && s'.core == s.core && s'.inbox == s.inbox && s'.outbox == s.outbox
    ensures NamesAreKnown(s')
  {
  }

  lemma StartIsFramed(config: seq<Service>)
    requires forall s :: s in config ==> IsWellFormed(s, config)
    ensures FrameInv(Start(config))
  {
    ValidatedIsClosed(config);
    StartHoldsNothing(config);
  }

  lemma {:induction false} RunKeepsFrame(r: Trace, config: seq<Service>, i: nat)
    requires IsProgramTrace(r, config) && i < |r.states|
    ensures FrameInv(r.states[i])
  {
    hide *;
    Begins(r, config);
    if i == 0 {
      StartIsFramed(config);
    } else {
      Goes(r, config, i - 1);
      RunKeepsFrame(r, config, i - 1);
      StepKeepsFrame(r.states[i - 1], r.actions[i - 1]);
    }
  }

  // ---------- spawn threads ----------

  lemma ForkedMore(forked: map<Pid, ServiceName>, p: Pid, m: ServiceName, n: ServiceName)
    requires p !in forked
    ensures ForkedOf(forked[p := m], n) == ForkedOf(forked, n) + if m == n then 1 else 0
  {
    var more := forked[p := m];
    var before, after := set q | q in forked && forked[q] == n, set q | q in more && more[q] == n;
    assert after == if m == n then before + {p} else before;
  }

  lemma ForkedLess(forked: map<Pid, ServiceName>, p: Pid, n: ServiceName)
    requires p in forked
    ensures ForkedOf(forked - {p}, n) + (if forked[p] == n then 1 else 0) == ForkedOf(forked, n)
  {
    assert (forked - {p})[p := forked[p]] == forked;
    ForkedMore(forked - {p}, p, forked[p], n);
  }

  lemma HandleSpawnsMore(c: Core, ev: Event, prepared: bool, now: nat, n: ServiceName)
    requires CanHandle(c, ev)
    ensures c.spawning[n] <= HandleEvent(c, ev, prepared, now).core.spawning[n]
  {
  }

  lemma StepKeepsThreads(s: State, a: Action, n: ServiceName)
    requires Enabled(s, a) && ForkedOf(s.forked, n) <= s.core.spawning[n]
    ensures ForkedOf(Apply(s, a).forked, n) <= Apply(s, a).core.spawning[n]
  {
    hide HandleEvent, NextAll, ReapEvents, AllHaveFinished, ForkedOf, IsClosed;
    if a.Handle? && CanHandle(s.core, s.inbox[0]) {
      HandleSpawnsMore(s.core, s.inbox[0], a.prepared, a.now, n);
    } else if a.Fork? {
      ForkedMore(s.forked, a.pid, a.name, n);
    } else if a.SpawnSucceeds? {
      ForkedLess(s.forked, a.pid, n);
    }
  }

  /** In every run each process that is forked and not reported has its thread, so the report can be sent at
      any time. */
  lemma {:induction false} ForkedCanBeReported(r: Trace, config: seq<Service>, i: nat, n: ServiceName)
    requires IsProgramTrace(r, config) && i < |r.states|
    ensures ForkedOf(r.states[i].forked, n) <= r.states[i].core.spawning[n]
    ensures forall p :: p in r.states[i].forked && r.states[i].forked[p] == n ==>
              Enabled(r.states[i], SpawnSucceeds(n, p))
  {
    hide Apply, Enabled, Start, ForkedOf, FromServices;
    Begins(r, config);
    if i == 0 {
      StartForksNobody(config, n);
    } else {
      Goes(r, config, i - 1);
      ForkedCanBeReported(r, config, i - 1, n);
      StepKeepsThreads(r.states[i - 1], r.actions[i - 1], n);
    }
    ForkedIsSpawning(r.states[i], n);
  }

  lemma StartForksNobody(config: seq<Service>, n: ServiceName)
    ensures ForkedOf(Start(config).forked, n) == 0
  {
    var forked := Start(config).forked;
    assert (set p | p in forked && forked[p] == n) == {};
  }

  lemma ForkedIsSpawning(s: State, n: ServiceName)
    requires ForkedOf(s.forked, n) <= s.core.spawning[n]
    ensures forall p :: p in s.forked && s.forked[p] == n ==> Enabled(s, SpawnSucceeds(n, p))
  {
    forall p | p in s.forked && s.forked[p] == n ensures n in s.core.spawning {
      var forked := set q | q in s.forked && s.forked[q] == n;
      assert p in forked && |forked| == ForkedOf(s.forked, n);
    }
  }

  // ---------- lookups ----------

  /** The event is the exit of a service that holds no pid. */
  predicate IsUnheldExit(services: Services, ev: Event) {
    ev.ServiceExited? && ev.name in services && services[ev.name].pid.None?
  }

  lemma LookupsFailExactly(s: State)
    requires FrameInv(s) && s.inbox != []
    ensures CanHandle(s.core, s.inbox[0]) <==> !IsUnheldExit(s.core.services, s.inbox[0])
  {
    FirstIsKnown(s);
  }

  lemma FramedIsClosed(s: State)
    requires FrameInv(s)
    ensures IsClosed(s.core.services)
  {
  }

  /** In every run of a validated configuration every lookup by name succeeds, also those made while commands
      are computed: the next event can be handled unless it is the exit of a service that holds no pid, and
      nothing else is ever the cause of a panic. */
  lemma OnlyThePidCanBeMissing(r: Trace, config: seq<Service>, i: nat)
    requires IsProgramTrace(r, config) && i < |r.states|
    ensures var s := r.states[i];
      && (s.inbox != [] ==> (CanHandle(s.core, s.inbox[0]) <==> !IsUnheldExit(s.core.services, s.inbox[0])))
      && (s.phase == Crashed ==> s.inbox != [] && IsUnheldExit(s.core.services, s.inbox[0]))
      && IsClosed(s.core.services)
  {
    hide CanHandle, NamesAreKnown, PidInv, IsProgramTrace;
    RunKeepsFrame(r, config, i);
    FramedIsClosed(r.states[i]);
    if r.states[i].inbox != [] {
      LookupsFailExactly(r.states[i]);
    }
  }
}
