/** A run that starts a service over a process which is still around, and what comes of it. */
module Overruns {
  import opened Formats
  import opened ServiceHandlers
  import opened Repos
  import opened Commands
  import opened Machine
  import opened LifeCycle
  import opened Iterations

  const A: ServiceName := "a"

  /** One service, restarted always, killed after its second failed health check and by force at once. */
  const Fragile: Service := Service(A, "run", 0, [], [], Restart(Always, 0, 0), true, 1, [0], Ignore, 0, [])

  function Handler(status: ServiceStatus, pid: Option<Pid>, failed: Option<int>, killedAt: Option<nat>)
    : ServiceHandler
  {
    ServiceHandler(Fragile, status, pid, 0, failed, killedAt)
  }

  /** The supervisor between two turns, apart from its records. */
  datatype Scene = Scene(
    handler: ServiceHandler,
    pidMap: map<Pid, ServiceName>,
    spawning: multiset<ServiceName>,
    inbox: seq<Event>,
    children: set<Pid>)

  ghost predicate Looks(s: State, scene: Scene) {
    && s.phase == Idle && s.outbox == [] && s.inbox == scene.inbox && s.children == scene.children
    && s.forked == map[]
    && s.core.services == map[A := scene.handler] && s.core.pidMap == scene.pidMap && s.core.spawning == scene.spawning
    && s.core.lifecycle == Active && !s.core.sigterm
  }

  ghost predicate Leads(s: State, turn: Turn, scene: Scene) {
    CanTurn(s, turn) && Looks(Turned(s, turn), scene)
  }

  const AtStart: Scene :=
    Scene(Handler(Initial, None, None, None), map[], multiset{},
          [], {})
  const RunQueued: Scene :=
    Scene(Handler(Initial, None, None, None), map[], multiset{},
          [Run(A)], {})
  const Launching: Scene :=
    Scene(Handler(Starting, None, None, None), map[], multiset{A},
          [StatusChanged(A, Starting)], {})
  const Forked: Scene :=
    Scene(Handler(Starting, None, None, None), map[], multiset{},
          [StatusChanged(A, Starting), PidChanged(A, 1)], {1})
  const Up: Scene :=
    Scene(Handler(Started, Some(1), None, None), map[1 := A], multiset{},
          [StatusChanged(A, Started)], {1})
  const Checked: Scene :=
    Scene(Handler(Started, Some(1), None, None), map[1 := A], multiset{},
          [StatusChanged(A, Started), HealthCheck(A, true)], {1})
  const Healthy: Scene :=
    Scene(Handler(Started, Some(1), Some(0), None), map[1 := A], multiset{},
          [StatusUpdate(A, Running)], {1})
  const CheckedAgain: Scene :=
    Scene(Handler(Started, Some(1), Some(0), None), map[1 := A], multiset{},
          [StatusUpdate(A, Running), HealthCheck(A, false), HealthCheck(A, true), HealthCheck(A, false)], {1})
  const Unhealthy: Scene :=
    Scene(Handler(Running, Some(1), Some(2), None), map[1 := A], multiset{},
          [StatusChanged(A, Running), StatusUpdate(A, InKilling), Kill(A)], {1})
  const Condemned: Scene :=
    Scene(Handler(InKilling, Some(1), Some(2), None), map[1 := A], multiset{},
          [Kill(A), StatusChanged(A, InKilling)], {1})
  const Signalled: Scene :=
    Scene(Handler(InKilling, Some(1), Some(2), Some(0)), map[1 := A], multiset{},
          [StatusChanged(A, InKilling)], {1})
  const Overdue: Scene :=
    Scene(Handler(InKilling, Some(1), Some(2), Some(0)), map[1 := A], multiset{},
          [ForceKill(A), StatusChanged(A, Failed)], {1})
  const Killed: Scene :=
    Scene(Handler(Failed, Some(1), Some(2), Some(0)), map[1 := A], multiset{},
          [StatusChanged(A, Failed), StatusUpdate(A, Initial)], {1})
  const Reset: Scene :=
    Scene(Handler(Initial, Some(1), Some(2), Some(0)), map[1 := A], multiset{},
          [StatusChanged(A, Initial), Run(A)], {1})
  const RunAgain: Scene :=
    Scene(Handler(Starting, Some(1), Some(2), Some(0)), map[1 := A], multiset{A},
          [StatusChanged(A, Starting), ServiceExited(A, 9)], {})
  const ForkedAgain: Scene :=
    Scene(Handler(Starting, Some(1), Some(2), Some(0)), map[1 := A], multiset{},
          [StatusChanged(A, Starting), ServiceExited(A, 9), PidChanged(A, 2)], {2})
  const ExitedLate: Scene :=
    Scene(Handler(Failed, None, Some(2), None).(restartAttempts := 1), map[], multiset{},
          [PidChanged(A, 2), StatusChanged(A, Failed), StatusUpdate(A, Initial)], {2})
  const RunBeside: Scene :=
    Scene(Handler(Starting, Some(1), Some(2), Some(0)), map[1 := A], multiset{A},
          [StatusChanged(A, Starting)], {1})
  const ForkedBeside: Scene :=
    Scene(Handler(Starting, Some(1), Some(2), Some(0)), map[1 := A], multiset{},
          [StatusChanged(A, Starting), PidChanged(A, 2)], {1, 2})
  const TwoUp: Scene :=
    Scene(Handler(Started, Some(2), Some(2), Some(0)), map[1 := A, 2 := A], multiset{},
          [StatusChanged(A, Started), ServiceExited(A, 9), ServiceExited(A, 9)], {})
  const OneExited: Scene :=
    Scene(Handler(Failed, None, Some(2), None).(restartAttempts := 1), map[1 := A], multiset{},
          [ServiceExited(A, 9), StatusChanged(A, Failed), StatusUpdate(A, Initial)], {})

  /** A second after the start. */
  const Late: nat := 1000

  function TurnAt(count: nat, now: nat, reaped: seq<(Pid, int)>): Turn {
    Turn(count, {}, now, [A], reaped)
  }

  lemma OneEvent(c: Core, e: Event, now: nat)
    ensures HandleBatch(c, [e], {}, now) == HandleLast(Batch(c, [], 0, false), e, {}, now)
  {
    assert [e][..0] == [];
  }

  lemma TwoEvents(c: Core, e: Event, f: Event, now: nat)
    ensures HandleBatch(c, [e, f], {}, now) == HandleLast(HandleLast(Batch(c, [], 0, false), e, {}, now), f, {}, now)
  {
    assert [e, f][..1] == [e];
    OneEvent(c, e, now);
  }

  /** The commands for the only service. */
  lemma OnlyCommands(sh: ServiceHandler, now: nat)
    requires sh.service == Fragile
    ensures IsClosed(map[A := sh]) && IsIterationOrder([A], map[A := sh])
    ensures NextAll(map[A := sh], [A], [A], Active, now) == NextEvents(map[A := sh], [A], A, now)
  {
    hide NextEvents;
    var services, order := map[A := sh], [A];
    assert order[1..] == [];
    assert NextAll(services, order, order[1..], Active, now) == [];
    assert NextAll(services, order, order, Active, now) == Next(services, order, A, Active, now) + [];
  }

  lemma FailedCommands(sh: ServiceHandler, now: nat)
    requires sh.service == Fragile && sh.status == Failed
    ensures IsClosed(map[A := sh]) && IsIterationOrder([A], map[A := sh])
    ensures NextEvents(map[A := sh], [A], A, now) == [StatusUpdate(A, Initial)]
  {
    hide NextAll;
    assert GetDieIfFailed(map[A := sh], [A], A) == [];
  }

  /** A turn in terms of its parts. */
  lemma TurnGoes(s: State, turn: Turn, sh: ServiceHandler, b: Batch, rest: seq<Event>)
    requires s.phase == Idle && s.outbox == [] && !s.core.sigterm
    requires A in s.core.services && !s.core.services[A].IsTerminal()
    requires turn.count <= |s.inbox| && turn.order == [A] && s.inbox[turn.count..] == rest
    requires b == HandleBatch(s.core, s.inbox[..turn.count], turn.unprepared, turn.now) && !b.crashed
    requires b.core.services == map[A := sh] && sh.service == Fragile && b.core.lifecycle == Active
    requires CanReap(s, turn.reaped)
    ensures CanTurn(s, turn) && Turned(s, turn).core == b.core && Turned(s, turn).phase == Idle
        && Turned(s, turn).outbox == []
    ensures Turned(s, turn).inbox
      == rest + b.produced + (NextEvents(map[A := sh], [A], A, turn.now) + ReapEvents(b.core.pidMap, turn.reaped))
    ensures Turned(s, turn).children == s.children - ReapedPids(turn.reaped) && Turned(s, turn).forked == s.forked
  {
    hide HandleBatch, NextEvents;
    OnlyCommands(sh, turn.now);
    assert s.inbox + PollSigterm(s.core) == s.inbox;
  }

  /** Handling has brought the only service to that of the scene `to`, and produced `told`. */
  ghost predicate Yields(c: Core, h: Handled, to: Scene, told: seq<Event>) {
    && h.produced == told && h.core.services == map[A := to.handler] && h.core.pidMap == to.pidMap
    && h.core.spawning == to.spawning && h.core.lifecycle == c.lifecycle && h.core.sigterm == c.sigterm
  }

  ghost predicate Brings(c: Core, evs: seq<Event>, now: nat, to: Scene, told: seq<Event>) {
    var b := HandleBatch(c, evs, {}, now);
    !b.crashed && Yields(c, Handled(b.core, b.produced), to, told)
  }

  /** The supervisor, as far as handling is concerned, looks like the scene. */
  ghost predicate IsIn(c: Core, scene: Scene) {
    c.services == map[A := scene.handler] && c.pidMap == scene.pidMap && c.spawning == scene.spawning
  }

  lemma NothingBrings(c: Core, scene: Scene, now: nat)
    requires IsIn(c, scene)
    ensures Brings(c, [], now, scene, [])
  {
  }

  lemma OneBrings(c: Core, e: Event, now: nat, to: Scene, told: seq<Event>)
    requires CanHandle(c, e) && Yields(c, HandleEvent(c, e, true, now), to, told)
    ensures Brings(c, [e], now, to, told)
  {
    hide HandleEvent, HandleBatch;
    OneEvent(c, e, now);
  }

  /** An announcement changes nothing, be it before or after. */
  lemma NewsBring(c: Core, status: ServiceStatus, e: Event, now: nat, to: Scene, told: seq<Event>)
    requires CanHandle(c, e) && Yields(c, HandleEvent(c, e, true, now), to, told)
    ensures Brings(c, [StatusChanged(A, status), e], now, to, told)
    ensures Brings(c, [e, StatusChanged(A, status)], now, to, told)
  {
    hide HandleBatch, HandleRun, HandleExited, HandlePidChanged, HandleStatusUpdate, HandleKill, HandleForceKill;
    TwoEvents(c, StatusChanged(A, status), e, now);
    TwoEvents(c, e, StatusChanged(A, status), now);
    assert told + [] == told;
  }

  lemma OnlyService(sh: ServiceHandler, sh': ServiceHandler)
    ensures map[A := sh][A := sh'] == map[A := sh']
  {
  }

  /** A turn that starts in one scene ends in another. */
  lemma TurnLeads(s: State, from: Scene, turn: Turn, to: Scene, told: seq<Event>)
    requires Looks(s, from) && !from.handler.IsTerminal() && turn.unprepared == {} && turn.order == [A]
    requires turn.count <= |from.inbox| && Brings(s.core, from.inbox[..turn.count], turn.now, to, told)
    requires to.handler.service == Fragile && CanReap(s, turn.reaped)
    requires to.inbox == from.inbox[turn.count..] + told
      + (NextEvents(map[A := to.handler], [A], A, turn.now) + ReapEvents(to.pidMap, turn.reaped))
    requires to.children == from.children - ReapedPids(turn.reaped)
    ensures Leads(s, turn, to)
  {
    hide HandleBatch, NextEvents, Turned, CanTurn, ReapEvents;
    var b := HandleBatch(s.core, s.inbox[..turn.count], {}, turn.now);
    TurnGoes(s, turn, to.handler, b, from.inbox[turn.count..]);
  }

  lemma NobodyReaped(pidMap: map<Pid, ServiceName>, children: set<Pid>)
    ensures ReapEvents(pidMap, []) == [] && children - ReapedPids([]) == children
  {
  }

  /** A turn that reaps nobody and commands nothing. */
  lemma QuietTurnLeads(s: State, from: Scene, turn: Turn, to: Scene, told: seq<Event>)
    requires Looks(s, from) && !from.handler.IsTerminal() && turn.unprepared == {} && turn.order == [A]
    requires turn.count <= |from.inbox| && Brings(s.core, from.inbox[..turn.count], turn.now, to, told)
    requires to.handler.service == Fragile && turn.reaped == [] && to.children == from.children
    requires to.inbox == from.inbox[turn.count..] + told + NextEvents(map[A := to.handler], [A], A, turn.now)
    ensures Leads(s, turn, to)
  {
    hide HandleBatch, NextEvents, Leads, Brings, ReapEvents;
    NobodyReaped(to.pidMap, from.children);
    TurnLeads(s, from, turn, to, told);
  }

  lemma Idles(s: State)
    requires Looks(s, AtStart)
    ensures Leads(s, TurnAt(0, 0, []), RunQueued)
  {
    hide Leads, Brings, GetDependents, GetDieIfFailed;
    NothingBrings(s.core, AtStart, 0);
    assert AtStart.inbox[..0] == [];
    NothingBrings(s.core, RunQueued, 0);
    QuietTurnLeads(s, AtStart, TurnAt(0, 0, []), RunQueued, []);
  }

  lemma RunDoes(c: Core, from: Scene, to: Scene, now: nat)
    requires IsIn(c, from) && from.handler.status == Initial && from.spawning == multiset{}
    requires to.handler == from.handler.(status := Starting) && to.pidMap == from.pidMap && to.spawning == multiset{A}
    ensures Yields(c, HandleEvent(c, Run(A), true, now), to, [StatusChanged(A, Starting)])
  {
    hide SpawnDelay;
    OnlyService(from.handler, to.handler);
  }

  lemma Runs(s: State)
    requires Looks(s, RunQueued)
    ensures Leads(s, TurnAt(1, 0, []), Launching)
  {
    hide Leads, Brings, Yields, HandleEvent, GetDependents, GetDieIfFailed;
    RunDoes(s.core, RunQueued, Launching, 0);
    OneBrings(s.core, Run(A), 0, Launching, [StatusChanged(A, Starting)]);
    assert RunQueued.inbox[..1] == [Run(A)];
    QuietTurnLeads(s, RunQueued, TurnAt(1, 0, []), Launching, [StatusChanged(A, Starting)]);
  }

  lemma Forks(s: State)
    requires Looks(s, Launching)
    ensures CanSpawn(s, A, 1) && Looks(Spawned(s, A, 1), Forked)
  {
  }

  lemma ReportDoes(c: Core, from: Scene, to: Scene, pid: Pid, now: nat)
    requires IsIn(c, from) && from.handler.status != InKilling
    requires to.handler == from.handler.(status := Started, pid := Some(pid))
    requires to.pidMap == from.pidMap[pid := A] && to.spawning == from.spawning
    ensures Yields(c, HandleEvent(c, PidChanged(A, pid), true, now), to, [StatusChanged(A, Started)])
  {
    OnlyService(from.handler, to.handler);
  }

  lemma ComesUp(s: State)
    requires Looks(s, Forked)
    ensures Leads(s, TurnAt(2, 0, []), Up)
  {
    hide Leads, Brings, Yields, HandleEvent, GetDependents, GetDieIfFailed;
    ReportDoes(s.core, Forked, Up, 1, 0);
    NewsBring(s.core, Starting, PidChanged(A, 1), 0, Up, [StatusChanged(A, Started)]);
    assert Forked.inbox[..2] == Forked.inbox;
    QuietTurnLeads(s, Forked, TurnAt(2, 0, []), Up, [StatusChanged(A, Started)]);
  }

  lemma ReportsHealthy(s: State)
    requires Looks(s, Up)
    ensures Enabled(s, ReportHealth(A, true)) && Looks(Apply(s, ReportHealth(A, true)), Checked)
  {
  }

  lemma CheckDoes(c: Core, from: Scene, to: Scene, healthy: bool, now: nat)
    requires IsIn(c, from) && to.handler == from.handler.AddHealthcheckEvent(healthy)
    requires to.pidMap == from.pidMap && to.spawning == from.spawning
    ensures Yields(c, HandleEvent(c, HealthCheck(A, healthy), true, now), to, [])
  {
    OnlyService(from.handler, to.handler);
  }

  lemma IsFoundHealthy(s: State)
    requires Looks(s, Checked)
    ensures Leads(s, TurnAt(2, 0, []), Healthy)
  {
    hide Leads, Brings, Yields, HandleEvent, GetDependents, GetDieIfFailed;
    CheckDoes(s.core, Checked, Healthy, true, 0);
    NewsBring(s.core, Started, HealthCheck(A, true), 0, Healthy, []);
    assert Checked.inbox[..2] == Checked.inbox;
    QuietTurnLeads(s, Checked, TurnAt(2, 0, []), Healthy, []);
  }

  lemma UpdateDoes(c: Core, from: Scene, to: Scene, now: nat)
    requires IsIn(c, from) && to.handler.status != Started
    requires to.handler == from.handler.(status := from.handler.StatusAfter(to.handler.status))
    requires to.handler != from.handler && to.pidMap == from.pidMap && to.spawning == from.spawning
    ensures Yields(c, HandleEvent(c, StatusUpdate(A, to.handler.status), true, now), to,
                   [StatusChanged(A, to.handler.status)])
  {
    hide IsAllowed;
    OnlyService(from.handler, to.handler);
  }

  /** A bad report, a good one, and a bad one again. */
  function Alternating(s: State): State {
    s.(inbox := s.inbox + [HealthCheck(A, false)] + [HealthCheck(A, true)] + [HealthCheck(A, false)])
  }

  lemma ReportsUnhealthy(origin: State, s: State)
    requires Reaches(origin, s) && Looks(s, Healthy)
    ensures Reaches(origin, Alternating(s)) && Looks(Alternating(s), CheckedAgain)
  {
    hide Reaches, AllHaveFinished;
    ReachesStep(origin, s, ReportHealth(A, false));
    var s1 := Apply(s, ReportHealth(A, false));
    ReachesStep(origin, s1, ReportHealth(A, true));
    var s2 := Apply(s1, ReportHealth(A, true));
    ReachesStep(origin, s2, ReportHealth(A, false));
    assert Apply(s2, ReportHealth(A, false)) == Alternating(s);
  }

  lemma OneMoreEvent(c: Core, evs: seq<Event>, e: Event, now: nat)
    ensures HandleBatch(c, evs + [e], {}, now) == HandleLast(HandleBatch(c, evs, {}, now), e, {}, now)
  {
    assert (evs + [e])[..|evs|] == evs;
  }

  lemma CheckBrings(c: Core, evs: seq<Event>, from: Scene, to: Scene, told: seq<Event>, healthy: bool)
    requires Brings(c, evs, 0, from, told) && to.handler == from.handler.AddHealthcheckEvent(healthy)
    requires to.pidMap == from.pidMap && to.spawning == from.spawning
    ensures Brings(c, evs + [HealthCheck(A, healthy)], 0, to, told)
  {
    hide HandleBatch, HandleEvent;
    var b := HandleBatch(c, evs, {}, 0);
    OneMoreEvent(c, evs, HealthCheck(A, healthy), 0);
    CheckDoes(b.core, from, to, healthy, 0);
    assert told + [] == told;
  }

  lemma AlternatingBrings(c: Core)
    requires IsIn(c, CheckedAgain)
    ensures Brings(c, CheckedAgain.inbox, 0, Unhealthy, [StatusChanged(A, Running)])
  {
    hide Brings, HandleEvent, Yields;
    var evs, told := [StatusUpdate(A, Running)], [StatusChanged(A, Running)];
    var up := Unhealthy.(handler := CheckedAgain.handler.(status := Running));
    var once := up.(handler := up.handler.(healthinessChecksFailed := Some(1)));
    UpdateDoes(c, CheckedAgain, up, 0);
    OneBrings(c, StatusUpdate(A, Running), 0, up, told);
    CheckBrings(c, evs, up, once, told, false);
    CheckBrings(c, evs + [HealthCheck(A, false)], once, once, told, true);
    CheckBrings(c, evs + [HealthCheck(A, false)] + [HealthCheck(A, true)], once, Unhealthy, told, false);
    assert evs + [HealthCheck(A, false)] + [HealthCheck(A, true)] + [HealthCheck(A, false)] == CheckedAgain.inbox;
  }

  lemma IsFoundUnhealthy(s: State)
    requires Looks(s, CheckedAgain)
    ensures Leads(s, TurnAt(4, 0, []), Unhealthy)
  {
    hide Leads, Brings, GetDependents, GetDieIfFailed;
    AlternatingBrings(s.core);
    assert CheckedAgain.inbox[..4] == CheckedAgain.inbox;
    QuietTurnLeads(s, CheckedAgain, TurnAt(4, 0, []), Unhealthy, [StatusChanged(A, Running)]);
  }

  lemma IsCondemned(s: State)
    requires Looks(s, Unhealthy)
    ensures Leads(s, TurnAt(2, 0, []), Condemned)
  {
    hide Leads, Brings, Yields, HandleEvent, GetDependents, GetDieIfFailed;
    UpdateDoes(s.core, Unhealthy, Condemned, 0);
    NewsBring(s.core, Running, StatusUpdate(A, InKilling), 0, Condemned, [StatusChanged(A, InKilling)]);
    assert Unhealthy.inbox[..2] == [StatusChanged(A, Running), StatusUpdate(A, InKilling)];
    QuietTurnLeads(s, Unhealthy, TurnAt(2, 0, []), Condemned, [StatusChanged(A, InKilling)]);
  }

  lemma KillDoes(c: Core)
    requires IsIn(c, Condemned)
    ensures Yields(c, HandleEvent(c, Kill(A), true, 0), Signalled, [])
  {
    OnlyService(Condemned.handler, Signalled.handler);
  }

  lemma IsSignalled(s: State)
    requires Looks(s, Condemned)
    ensures Leads(s, TurnAt(1, 0, []), Signalled)
  {
    hide Leads, Brings, Yields, HandleEvent, GetDependents, GetDieIfFailed;
    KillDoes(s.core);
    OneBrings(s.core, Kill(A), 0, Signalled, []);
    assert Condemned.inbox[..1] == [Kill(A)];
    QuietTurnLeads(s, Condemned, TurnAt(1, 0, []), Signalled, []);
  }

  lemma NewsDo(c: Core, status: ServiceStatus, scene: Scene, now: nat)
    requires IsIn(c, scene)
    ensures Yields(c, HandleEvent(c, StatusChanged(A, status), true, now), scene, [])
  {
  }

  lemma IsLate(s: State)
    requires Looks(s, Signalled)
    ensures Leads(s, TurnAt(1, Late, []), Overdue)
  {
    hide Leads, Brings, Yields, HandleEvent, GetDependents, GetDieIfFailed;
    NewsDo(s.core, InKilling, Overdue, Late);
    OneBrings(s.core, StatusChanged(A, InKilling), Late, Overdue, []);
    assert Signalled.inbox[..1] == Signalled.inbox;
    QuietTurnLeads(s, Signalled, TurnAt(1, Late, []), Overdue, []);
  }

  lemma ForceDoes(c: Core)
    requires IsIn(c, Overdue)
    ensures Yields(c, HandleEvent(c, ForceKill(A), true, Late), Killed, [StatusChanged(A, Failed)])
  {
    OnlyService(Overdue.handler, Killed.handler);
  }

  lemma IsKilled(s: State)
    requires Looks(s, Overdue)
    ensures Leads(s, TurnAt(2, Late, []), Killed)
  {
    hide Leads, Brings, Yields, HandleEvent, NextEvents;
    ForceDoes(s.core);
    NewsBring(s.core, Failed, ForceKill(A), Late, Killed, [StatusChanged(A, Failed)]);
    assert Overdue.inbox[..2] == Overdue.inbox;
    FailedCommands(Killed.handler, Late);
    QuietTurnLeads(s, Overdue, TurnAt(2, Late, []), Killed, [StatusChanged(A, Failed)]);
  }

  lemma IsReset(s: State)
    requires Looks(s, Killed)
    ensures Leads(s, TurnAt(2, Late, []), Reset)
  {
    hide Leads, Brings, Yields, HandleEvent, GetDependents, GetDieIfFailed;
    UpdateDoes(s.core, Killed, Reset, Late);
    NewsBring(s.core, Failed, StatusUpdate(A, Initial), Late, Reset, [StatusChanged(A, Initial)]);
    assert Killed.inbox[..2] == Killed.inbox;
    QuietTurnLeads(s, Killed, TurnAt(2, Late, []), Reset, [StatusChanged(A, Initial)]);
  }

  /** The first process, killed by force, ends at last. */
  lemma FirstReaped(pidMap: map<Pid, ServiceName>)
    requires 1 in pidMap && pidMap[1] == A
    ensures ReapEvents(pidMap, [(1, 9)]) == [ServiceExited(A, 9)] && ReapedPids([(1, 9)]) == {1}
  {
    var reaped: seq<(Pid, int)> := [(1, 9)];
    assert reaped[1..] == [] && ReapEvents(pidMap, reaped[1..]) == [];
    assert reaped[0].0 == 1 && 1 in ReapedPids(reaped);
  }

  lemma IsRunAgain(s: State)
    requires Looks(s, Reset)
    ensures Leads(s, TurnAt(2, Late, [(1, 9)]), RunAgain)
  {
    hide Leads, Brings, Yields, HandleEvent, GetDependents, GetDieIfFailed, ReapEvents, ReapedPids;
    RunDoes(s.core, Reset, RunAgain, Late);
    NewsBring(s.core, Initial, Run(A), Late, RunAgain, [StatusChanged(A, Starting)]);
    assert Reset.inbox[..2] == Reset.inbox;
    FirstReaped(RunAgain.pidMap);
    TurnLeads(s, Reset, TurnAt(2, Late, [(1, 9)]), RunAgain, [StatusChanged(A, Starting)]);
  }

  lemma ForksAgain(s: State)
    requires Looks(s, RunAgain)
    ensures CanSpawn(s, A, 2) && Looks(Spawned(s, A, 2), ForkedAgain)
  {
  }

  lemma ExitDoes(c: Core, from: Scene, to: Scene)
    requires IsIn(c, from) && from.handler.pid.Some? && from.handler.service == Fragile
    requires from.handler.HasSomeFailedHealthchecks() && (from.handler.status.Starting? || from.handler.status.Started?)
    requires to.handler == from.handler.(status := Failed, pid := None, shuttingDownStart := None,
                                         restartAttempts := from.handler.restartAttempts + 1)
    requires to.pidMap == from.pidMap - {from.handler.pid.value} && to.spawning == from.spawning
    ensures Yields(c, HandleEvent(c, ServiceExited(A, 9), true, Late), to, [StatusChanged(A, Failed)])
  {
    OnlyService(from.handler, to.handler);
  }

  lemma HearsOfTheExit(s: State)
    requires Looks(s, ForkedAgain)
    ensures Leads(s, TurnAt(2, Late, []), ExitedLate)
  {
    hide Leads, Brings, Yields, HandleEvent, NextEvents;
    ExitDoes(s.core, ForkedAgain, ExitedLate);
    NewsBring(s.core, Starting, ServiceExited(A, 9), Late, ExitedLate, [StatusChanged(A, Failed)]);
    assert ForkedAgain.inbox[..2] == [StatusChanged(A, Starting), ServiceExited(A, 9)];
    FailedCommands(ExitedLate.handler, Late);
    QuietTurnLeads(s, ForkedAgain, TurnAt(2, Late, []), ExitedLate, [StatusChanged(A, Failed)]);
  }

  lemma ComesUpAgain(s: State)
    requires Looks(s, ExitedLate)
    ensures CanTurn(s, TurnAt(1, Late, [])) && Change(A, Failed, Started) in Turned(s, TurnAt(1, Late, [])).core.changes
  {
    hide Turned, CanTurn, HandleBatch, GetDependents, GetDieIfFailed, HandleRun, HandleExited, HandleStatusUpdate,
      HandleKill, HandleForceKill;
    OneEvent(s.core, PidChanged(A, 2), Late);
    assert s.inbox[..1] == [PidChanged(A, 2)];
    TurnGoes(s, TurnAt(1, Late, []), Handler(Started, Some(2), Some(2), None).(restartAttempts := 1),
             HandleBatch(s.core, s.inbox[..1], {}, Late), [StatusChanged(A, Failed), StatusUpdate(A, Initial)]);
  }

  lemma GoOn(origin: State, s: State, turn: Turn, scene: Scene) returns (t: State)
    requires Reaches(origin, s) && Leads(s, turn, scene)
    ensures Reaches(origin, t) && Looks(t, scene) && t == Turned(s, turn)
  {
    hide Reaches, CanTurn, Turned;
    t := Turned(s, turn);
    TurnIsSteps(s, turn);
    ReachesTransitively(origin, s, t);
  }

  /** The health reports on `n` among the events, good or bad. */
  function Reports(evs: seq<Event>, n: ServiceName): seq<bool> {
    if evs == [] then []
    else
      var k := |evs| - 1;
      Reports(evs[..k], n) + if evs[k].HealthCheck? && evs[k].name == n then [evs[k].healthy] else []
  }

  lemma {:induction false} ReportsConcat(p: seq<Event>, q: seq<Event>, n: ServiceName)
    ensures Reports(p + q, n) == Reports(p, n) + Reports(q, n)
  {
    if q == [] {
      assert p + q == p;
    } else {
      assert (p + q)[..|p + q| - 1] == p + q[..|q| - 1];
      ReportsConcat(p, q[..|q| - 1], n);
    }
  }

  lemma OneReport(e: Event, n: ServiceName)
    ensures Reports([e], n) == if e.HealthCheck? && e.name == n then [e.healthy] else []
  {
    assert [e][..0] == [];
  }

  lemma TwoReports(e: Event, f: Event, n: ServiceName)
    ensures Reports([e, f], n) == Reports([e], n) + Reports([f], n)
  {
    assert [e, f] == [e] + [f];
    ReportsConcat([e], [f], n);
  }

  /** What the turns of the run up to `Unhealthy` handle. */
  lemma ReportsOfTheTurns()
    ensures Reports(RunQueued.inbox, A) == [] && Reports(Forked.inbox, A) == []
    ensures Reports(Checked.inbox, A) == [true] && Reports(CheckedAgain.inbox, A) == [false, true, false]
  {
    hide Reports;
    OneReport(Run(A), A);
    OneReport(StatusChanged(A, Starting), A);
    OneReport(PidChanged(A, 1), A);
    OneReport(StatusChanged(A, Started), A);
    OneReport(StatusUpdate(A, Running), A);
    OneReport(HealthCheck(A, true), A);
    OneReport(HealthCheck(A, false), A);
    TwoReports(StatusChanged(A, Starting), PidChanged(A, 1), A);
    TwoReports(StatusChanged(A, Started), HealthCheck(A, true), A);
    TwoReports(StatusUpdate(A, Running), HealthCheck(A, false), A);
    TwoReports(HealthCheck(A, true), HealthCheck(A, false), A);
    var p, q := [StatusUpdate(A, Running), HealthCheck(A, false)], [HealthCheck(A, true), HealthCheck(A, false)];
    assert CheckedAgain.inbox == p + q;
    ReportsConcat(p, q, A);
  }

  lemma TurnHears(s: State, from: Scene, turn: Turn, to: Scene)
    requires Looks(s, from) && Leads(s, turn, to)
    ensures turn.count <= |from.inbox| && Turned(s, turn).history == s.history + from.inbox[..turn.count]
  {
    hide HandleBatch, Commanded, AllHaveFinished;
    assert s.inbox + PollSigterm(s.core) == s.inbox;
  }

  /** A turn that handles all there is. */
  lemma HearOn(origin: State, s: State, from: Scene, turn: Turn, to: Scene) returns (t: State)
    requires Reaches(origin, s) && Looks(s, from) && Leads(s, turn, to) && turn.count == |from.inbox|
    ensures Reaches(origin, t) && Looks(t, to)
    ensures Reports(t.history, A) == Reports(s.history, A) + Reports(from.inbox, A)
  {
    hide *;
    t := GoOn(origin, s, turn, to);
    TurnHears(s, from, turn, to);
    assert from.inbox[..turn.count] == from.inbox;
    ReportsConcat(s.history, from.inbox, A);
  }

  lemma NotAnEdge(s: State)
    requires Change(A, Failed, Started) in s.core.changes
    ensures !OnlyEdges(s.core.changes)
  {
  }

  lemma StartLooks()
    ensures Looks(Start([Fragile]), AtStart)
  {
    assert [Fragile][..0] == [];
    assert FromServices([Fragile]) == map[A := NewHandler(Fragile)];
  }

  lemma StartHears()
    ensures Reports(Start([Fragile]).history, A) == [] && Reports(AtStart.inbox, A) == []
  {
  }

  lemma SpawningHears(s: State)
    ensures Spawned(s, A, 1).history == s.history
  {
  }

  lemma ReportingHears(s: State)
    requires Enabled(s, ReportHealth(A, true))
    ensures Apply(s, ReportHealth(A, true)).history == s.history
  {
  }

  lemma LaunchingIsHeard(origin: State, s: State) returns (t: State)
    requires Reaches(origin, s) && Looks(s, RunQueued)
    ensures Reaches(origin, t) && Looks(t, Up) && Reports(t.history, A) == Reports(s.history, A)
  {
    hide *;
    ReportsOfTheTurns();
    Runs(s);
    InboxesAre();
    var s2 := HearOn(origin, s, RunQueued, TurnAt(1, 0, []), Launching);
    Forks(s2);
    SpawnIsSteps(origin, s2, A, 1);
    var s3 := Spawned(s2, A, 1);
    SpawningHears(s2);
    ComesUp(s3);
    t := HearOn(origin, s3, Forked, TurnAt(2, 0, []), Up);
  }

  lemma InboxesAre()
    ensures TurnAt(0, 0, []).count == |AtStart.inbox| && TurnAt(1, 0, []).count == |RunQueued.inbox|
    ensures TurnAt(2, 0, []).count == |Forked.inbox| == |Checked.inbox|
    ensures TurnAt(4, 0, []).count == |CheckedAgain.inbox|
  {
  }

  lemma UntilUnhealthy() returns (s: State)
    ensures Reaches(Start([Fragile]), s) && Looks(s, Unhealthy)
    ensures Reports(s.history, A) == [true, false, true, false]
  {
    hide *;
    var origin := Start([Fragile]);
    StartLooks();
    StartHears();
    InboxesAre();
    ReportsOfTheTurns();
    ReachesItself(origin);
    Idles(origin);
    var s1 := HearOn(origin, origin, AtStart, TurnAt(0, 0, []), RunQueued);
    var s4 := LaunchingIsHeard(origin, s1);
    ReportsHealthy(s4);
    ReportingHears(s4);
    ReachesStep(origin, s4, ReportHealth(A, true));
    var s5 := Apply(s4, ReportHealth(A, true));
    IsFoundHealthy(s5);
    var s6 := HearOn(origin, s5, Checked, TurnAt(2, 0, []), Healthy);
    ReportsUnhealthy(origin, s6);
    AlternatingHears(s6);
    var s7 := Alternating(s6);
    IsFoundUnhealthy(s7);
    s := HearOn(origin, s7, CheckedAgain, TurnAt(4, 0, []), Unhealthy);
  }

  lemma AlternatingHears(s: State)
    ensures Alternating(s).history == s.history
  {
  }

  lemma UntilKilled() returns (s12: State)
    ensures Reaches(Start([Fragile]), s12) && Looks(s12, Killed)
  {
    hide *;
    var origin := Start([Fragile]);
    var s8 := UntilUnhealthy();
    IsCondemned(s8);
    var s9 := GoOn(origin, s8, TurnAt(2, 0, []), Condemned);
    IsSignalled(s9);
    var s10 := GoOn(origin, s9, TurnAt(1, 0, []), Signalled);
    IsLate(s10);
    var s11 := GoOn(origin, s10, TurnAt(1, Late, []), Overdue);
    IsKilled(s11);
    s12 := GoOn(origin, s11, TurnAt(2, Late, []), Killed);
  }

  lemma FragileIsWellFormed()
    ensures IsWellFormed(Fragile, [Fragile])
  {
    assert [Fragile][0] == Fragile;
  }

  /** Without the assumption that a service is started only when its previous process has been seen to exit,
      the statuses leave the transition table: a service killed by force is started again before its exit is
      reaped, the late exit fails the new start, and the pid of the new process turns Failed into Started. */
  lemma OverrunLeavesTheTable()
    ensures IsWellFormed(Fragile, [Fragile])
    ensures exists s :: Reaches(Start([Fragile]), s) && !OnlyEdges(s.core.changes)
  {
    hide *;
    FragileIsWellFormed();
    var origin := Start([Fragile]);
    var s12 := UntilKilled();
    IsReset(s12);
    var s13 := GoOn(origin, s12, TurnAt(2, Late, []), Reset);
    IsRunAgain(s13);
    var s14 := GoOn(origin, s13, TurnAt(2, Late, [(1, 9)]), RunAgain);
    ForksAgain(s14);
    SpawnIsSteps(origin, s14, A, 2);
    var s15 := Spawned(s14, A, 2);
    HearsOfTheExit(s15);
    var s16 := GoOn(origin, s15, TurnAt(2, Late, []), ExitedLate);
    ComesUpAgain(s16);
    TurnIsSteps(s16, TurnAt(1, Late, []));
    var s17 := Turned(s16, TurnAt(1, Late, []));
    ReachesTransitively(origin, s16, s17);
    NotAnEdge(s17);
  }

  // ---------- two processes at once ----------

  lemma IsRunBeside(s: State)
    requires Looks(s, Reset)
    ensures Leads(s, TurnAt(2, Late, []), RunBeside)
  {
    hide Leads, Brings, Yields, HandleEvent, GetDependents, GetDieIfFailed;
    RunDoes(s.core, Reset, RunBeside, Late);
    NewsBring(s.core, Initial, Run(A), Late, RunBeside, [StatusChanged(A, Starting)]);
    assert Reset.inbox[..2] == Reset.inbox;
    QuietTurnLeads(s, Reset, TurnAt(2, Late, []), RunBeside, [StatusChanged(A, Starting)]);
  }

  lemma ForksBeside(s: State)
    requires Looks(s, RunBeside)
    ensures CanSpawn(s, A, 2) && Looks(Spawned(s, A, 2), ForkedBeside)
  {
  }

  /** Both processes end before the second was known. */
  lemma ComesUpBeside(s: State)
    requires Looks(s, ForkedBeside)
    ensures Leads(s, TurnAt(2, Late, [(1, 9), (2, 9)]), TwoUp)
  {
    hide Leads, Brings, Yields, HandleEvent, GetDependents, GetDieIfFailed, ReapEvents, ReapedPids;
    ReportDoes(s.core, ForkedBeside, TwoUp, 2, Late);
    NewsBring(s.core, Starting, PidChanged(A, 2), Late, TwoUp, [StatusChanged(A, Started)]);
    assert ForkedBeside.inbox[..2] == ForkedBeside.inbox;
    BothReaped();
    TurnLeads(s, ForkedBeside, TurnAt(2, Late, [(1, 9), (2, 9)]), TwoUp, [StatusChanged(A, Started)]);
  }

  lemma BothReaped()
    ensures ReapEvents(map[1 := A, 2 := A], [(1, 9), (2, 9)]) == [ServiceExited(A, 9), ServiceExited(A, 9)]
    ensures ReapedPids([(1, 9), (2, 9)]) == {1, 2}
  {
    var reaped: seq<(Pid, int)> := [(1, 9), (2, 9)];
    var pidMap: map<Pid, ServiceName> := map[1 := A, 2 := A];
    var rest := reaped[1..];
    assert rest == [(2, 9)] && rest[1..] == [];
    assert ReapEvents(pidMap, rest) == [ServiceExited(A, 9)] + ReapEvents(pidMap, rest[1..]);
    assert ReapEvents(pidMap, rest[1..]) == [];
    assert ReapEvents(pidMap, reaped) == [ServiceExited(A, 9)] + ReapEvents(pidMap, rest);
    assert reaped[0].0 == 1 && reaped[1].0 == 2;
    assert 1 in ReapedPids(reaped) && 2 in ReapedPids(reaped);
  }

  lemma HearsOfOneExit(s: State)
    requires Looks(s, TwoUp)
    ensures Leads(s, TurnAt(2, Late, []), OneExited)
  {
    hide Leads, Brings, Yields, HandleEvent, NextEvents;
    ExitDoes(s.core, TwoUp, OneExited);
    NewsBring(s.core, Started, ServiceExited(A, 9), Late, OneExited, [StatusChanged(A, Failed)]);
    assert TwoUp.inbox[..2] == [StatusChanged(A, Started), ServiceExited(A, 9)];
    FailedCommands(OneExited.handler, Late);
    QuietTurnLeads(s, TwoUp, TurnAt(2, Late, []), OneExited, [StatusChanged(A, Failed)]);
  }

  lemma Panics(s: State)
    requires Looks(s, OneExited)
    ensures CanTurn(s, TurnAt(1, Late, [])) && Turned(s, TurnAt(1, Late, [])).phase == Crashed
  {
    hide HandleBatch, HandleEvent;
    assert !s.core.services[A].IsTerminal();
    OneEvent(s.core, ServiceExited(A, 9), Late);
    assert s.inbox[..1] == [ServiceExited(A, 9)];
  }

  /** Nor can a panic be excluded then: with two processes of one service reaped together the second exit
      finds the service without a pid. */
  lemma OverrunPanics()
    ensures exists s :: Reaches(Start([Fragile]), s) && s.phase == Crashed
  {
    hide *;
    var origin := Start([Fragile]);
    var s12 := UntilKilled();
    IsReset(s12);
    var s13 := GoOn(origin, s12, TurnAt(2, Late, []), Reset);
    IsRunBeside(s13);
    var s14 := GoOn(origin, s13, TurnAt(2, Late, []), RunBeside);
    ForksBeside(s14);
    SpawnIsSteps(origin, s14, A, 2);
    var s15 := Spawned(s14, A, 2);
    ComesUpBeside(s15);
    var s16 := GoOn(origin, s15, TurnAt(2, Late, [(1, 9), (2, 9)]), TwoUp);
    HearsOfOneExit(s16);
    var s17 := GoOn(origin, s16, TurnAt(2, Late, []), OneExited);
    Panics(s17);
    TurnIsSteps(s17, TurnAt(1, Late, []));
    var s18 := Turned(s17, TurnAt(1, Late, []));
    ReachesTransitively(origin, s17, s18);
    assert s18.phase == Crashed;
  }
}
