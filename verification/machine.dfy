/** The supervisor as a state machine: what one event does, one step of its loop or of its
    environment, and whole runs. */
module Machine {
  import opened Formats
  import opened ServiceHandlers
  import opened Repos
  import opened Commands

  // ---------- handling one event ----------

  /** One assignment that gave a service another status. */
  datatype Change = Change(name: ServiceName, from: ServiceStatus, to: ServiceStatus)

  /** A signal sent to a process; `hard` is SIGKILL, otherwise the configured one. */
  datatype Signal = Signal(name: ServiceName, pid: Pid, hard: bool)

  /** A thread started to fork a service after `delay`. */
  datatype Spawn = Spawn(name: ServiceName, delay: nat)

  /** `spawning` counts the spawn threads that have not reported yet; `spawns`, `signals` and
      `changes` record all that were started, sent and assigned since the beginning. */
  datatype Core = Core(
    services: Services,
    pidMap: map<Pid, ServiceName>,
    lifecycle: LifecycleStatus,
    sigterm: bool,
    spawning: multiset<ServiceName>,
    spawns: seq<Spawn>,
    signals: seq<Signal>,
    changes: seq<Change>)

  datatype Handled = Handled(core: Core, produced: seq<Event>)

  /** The lookups made for `ev` succeed; otherwise the supervisor panics. */
  predicate CanLookUp(services: Services, ev: Event) {
    match ev
    case ShuttingDownInitiated(_) => true
    case StatusChanged(_, _) => true
    case ServiceExited(n, _) => n in services && services[n].pid.Some?
    case _ => ev.name in services
  }

  predicate CanHandle(c: Core, ev: Event) {
    CanLookUp(c.services, ev)
  }

  function Assign(c: Core, n: ServiceName, sh: ServiceHandler): Core
    requires n in c.services
  {
    var from := c.services[n].status;
    c.(services := c.services[n := sh],
       changes := if from == sh.status then c.changes else c.changes + [Change(n, from, sh.status)])
  }

  function SendSignal(c: Core, n: ServiceName, hard: bool): Core
    requires n in c.services
  {
    match c.services[n].pid
    case Some(p) => c.(signals := c.signals + [Signal(n, p, hard)])
    case None => c
  }

  function HandleExited(c: Core, n: ServiceName, exitCode: int): Handled
    requires CanHandle(c, ServiceExited(n, exitCode))
  {
    var sh := c.services[n];
    var early := sh.HasSomeFailedHealthchecks() && sh.IsEarlyState();
    var gone := sh.(shuttingDownStart := None, pid := None,
                    restartAttempts := sh.restartAttempts + if early then 1 else 0);
    var hasFailed := exitCode !in sh.service.successfulExitCodes
                     || (sh.status == Running && sh.HasSomeFailedHealthchecks());
    var gone' := gone.ChangeStatus(if hasFailed then Failed else Success);
    Handled(Assign(c.(pidMap := c.pidMap - {sh.pid.value}), n, gone'), [StatusChanged(n, gone'.status)])
  }

  function SpawnDelay(sh: ServiceHandler): nat {
    sh.service.startDelay + sh.service.restart.backoff * sh.restartAttempts
  }

  function HandleRun(c: Core, n: ServiceName, prepared: bool): Handled
    requires n in c.services
  {
    var sh := c.services[n];
    if sh.status != Initial then Handled(c, [])
    else
      var starting := Assign(c, n, sh.(status := Starting));
      if prepared then
        Handled(starting.(spawning := starting.spawning + multiset{n},
                          spawns := starting.spawns + [Spawn(n, SpawnDelay(sh))]),
                [StatusChanged(n, Starting)])
      else
        Handled(Assign(starting, n, sh.(status := FinishedFailed)).(lifecycle := ShuttingDown(Gracefully)),
                [StatusUpdate(n, FinishedFailed), ShuttingDownInitiated(Gracefully)])
  }

  function HandleSpawnFailed(c: Core, n: ServiceName): Handled
    requires n in c.services
  {
    Handled(Assign(c, n, c.services[n].(status := Failed)), [StatusUpdate(n, Failed)])
  }

  function HandleKill(c: Core, n: ServiceName, now: nat): Handled
    requires n in c.services
  {
    var sh := c.services[n];
    if sh.status != InKilling then Handled(c, [])
    else Handled(SendSignal(Assign(c, n, sh.(shuttingDownStart := Some(now))), n, false), [])
  }

  function HandleForceKill(c: Core, n: ServiceName): Handled
    requires n in c.services
  {
    var sh := c.services[n];
    if sh.status != InKilling then Handled(c, [])
    else Handled(Assign(SendSignal(c, n, true), n, sh.(status := Failed)), [StatusChanged(n, Failed)])
  }

  function HandlePidChanged(c: Core, n: ServiceName, pid: Pid, now: nat): Handled
    requires n in c.services
  {
    var mapped := c.(pidMap := c.pidMap[pid := n]);
    var sh := c.services[n].(pid := Some(pid));
    if sh.status == InKilling then
      Handled(SendSignal(Assign(mapped, n, sh.(shuttingDownStart := Some(now))), n, false), [])
    else
      Handled(Assign(mapped, n, sh.(status := Started)), [StatusChanged(n, Started)])
  }

  function HandleStatusUpdate(c: Core, n: ServiceName, status: ServiceStatus): Handled
    requires n in c.services
  {
    var sh := c.services[n].ChangeStatus(status);
    if sh.status == c.services[n].status then Handled(c, [])
    else Handled(Assign(c, n, sh), [StatusChanged(n, sh.status)])
  }

  /** `prepared` tells whether the health checks of a service to run could be set up. */
  function HandleEvent(c: Core, ev: Event, prepared: bool, now: nat): Handled
    requires CanHandle(c, ev)
  {
    match ev
    case ServiceExited(n, exitCode) => HandleExited(c, n, exitCode)
    case Run(n) => HandleRun(c, n, prepared)
    case SpawnFailed(n) => HandleSpawnFailed(c, n)
    case Kill(n) => HandleKill(c, n, now)
    case ForceKill(n) => HandleForceKill(c, n)
    case PidChanged(n, pid) => HandlePidChanged(c, n, pid, now)
    case HealthCheck(n, healthy) => Handled(Assign(c, n, c.services[n].AddHealthcheckEvent(healthy)), [])
    case ShuttingDownInitiated(mode) => Handled(c.(lifecycle := ShuttingDown(mode), sigterm := false), [])
    case StatusUpdate(n, status) => HandleStatusUpdate(c, n, status)
    case StatusChanged(_, _) => Handled(c, [])
  }

  // ---------- one step ----------

  const MaxProcessReaps: nat := 20

  datatype Phase = Idle | Handling | Sending | Stopped(exit: ExitStatus) | Crashed

  /** `inbox` is the supervisor's part of the bus in delivery order, its first `taken` events
      being the batch under work; `outbox` holds what this iteration has produced and not sent;
      `children` are the forked processes not waited for, `forked` those among the processes ever forked whose
      thread has not reported them yet; `history` is every event handled. */
  datatype State = State(
    core: Core,
    inbox: seq<Event>,
    taken: nat,
    outbox: seq<Event>,
    phase: Phase,
    children: set<Pid>,
    forked: map<Pid, ServiceName>,
    history: seq<Event>)
  {
    /** Every event on its way to the supervisor, in the order it will get there. */
    function Queue(): seq<Event> { inbox + outbox }

    /** Everything put on the bus so far or about to be, in order. */
    function Log(): seq<Event> { history + Queue() }
  }

  /** The supervisor's own steps, then those of spawn threads, health workers and the signal handler. A spawn
      thread forks and reports the pid some time later, or reports that it failed. */
  datatype Action =
    | Take(count: nat)
    | Handle(prepared: bool, now: nat)
    | Compute(order: seq<ServiceName>, now: nat, reaped: seq<(Pid, int)>)
    | Send
    | EndIteration
    | Stop
    | Fork(name: ServiceName, pid: Pid)
    | SpawnSucceeds(name: ServiceName, pid: Pid)
    | SpawnFails(name: ServiceName)
    | ReportHealth(name: ServiceName, healthy: bool)
    | Terminate

  /** A forked process gets a pid that nobody else holds or is about to be told of. */
  predicate IsFresh(s: State, p: Pid) {
    && p !in s.children
    && p !in s.core.pidMap
    && p !in s.forked
    && forall i :: 0 <= i < |s.inbox| ==> !(s.inbox[i].PidChanged? && s.inbox[i].pid == p)
  }

  /** How many threads of `n` have forked and not reported. */
  function ForkedOf(forked: map<Pid, ServiceName>, n: ServiceName): nat {
    |set p | p in forked && forked[p] == n|
  }

  ghost predicate CanReap(s: State, reaped: seq<(Pid, int)>) {
    && |reaped| <= MaxProcessReaps
    && (forall i :: 0 <= i < |reaped| ==> reaped[i].0 in s.children)
    && (forall i, j :: 0 <= i < j < |reaped| ==> reaped[i].0 != reaped[j].0)
  }

  ghost predicate Enabled(s: State, a: Action) {
    match a
    case Take(count) => s.phase == Idle && !AllHaveFinished(s.core.services) && count <= |s.inbox|
    case Handle(_, _) => s.phase == Handling && 0 < s.taken <= |s.inbox|
    case Compute(order, _, reaped) =>
      && s.phase == Handling && s.taken == 0
      && IsClosed(s.core.services) && IsIterationOrder(order, s.core.services) && CanReap(s, reaped)
    case Send => s.phase == Sending && s.outbox != []
    case EndIteration => s.phase == Sending && s.outbox == []
    case Stop => s.phase == Idle && AllHaveFinished(s.core.services)
    case Fork(name, pid) => ForkedOf(s.forked, name) < s.core.spawning[name] && IsFresh(s, pid)
    case SpawnSucceeds(name, pid) => name in s.core.spawning && pid in s.forked && s.forked[pid] == name
    case SpawnFails(name) => ForkedOf(s.forked, name) < s.core.spawning[name]
    case ReportHealth(name, _) => name in s.core.services
    case Terminate => true
  }

  /** What a raised SIGTERM flag makes the supervisor publish at the start of an iteration. */
  function PollSigterm(c: Core): seq<Event> {
    if !c.sigterm then []
    else match c.lifecycle
      case Active => [ShuttingDownInitiated(Gracefully)]
      case ShuttingDown(Gracefully) => [ShuttingDownInitiated(Forcefully)]
      case ShuttingDown(Forcefully) => []
  }

  /** Reaped processes the supervisor knows become exits; the others are dropped. */
  function ReapEvents(pidMap: map<Pid, ServiceName>, reaped: seq<(Pid, int)>): seq<Event> {
    if reaped == [] then []
    else (if reaped[0].0 in pidMap then [ServiceExited(pidMap[reaped[0].0], reaped[0].1)] else [])
         + ReapEvents(pidMap, reaped[1..])
  }

  function ReapedPids(reaped: seq<(Pid, int)>): set<Pid> {
    set i | 0 <= i < |reaped| :: reaped[i].0
  }

  function ExitOf(services: Services): ExitStatus {
    if AnyFinishedFailed(services) then SomeServiceFailed else Successful
  }

  ghost function Apply(s: State, a: Action): State
    requires Enabled(s, a)
  {
    match a
    case Take(count) =>
      s.(taken := count, inbox := s.inbox + PollSigterm(s.core), phase := Handling)
    case Handle(prepared, now) =>
      if !CanHandle(s.core, s.inbox[0]) then s.(phase := Crashed)
      else
        var h := HandleEvent(s.core, s.inbox[0], prepared, now);
        s.(core := h.core, inbox := s.inbox[1..], taken := s.taken - 1, outbox := s.outbox + h.produced,
           history := s.history + [s.inbox[0]])
    case Compute(order, now, reaped) =>
      s.(outbox := s.outbox + NextAll(s.core.services, order, order, s.core.lifecycle, now)
                   + ReapEvents(s.core.pidMap, reaped),
         children := s.children - ReapedPids(reaped), phase := Sending)
    case Send => s.(inbox := s.inbox + [s.outbox[0]], outbox := s.outbox[1..])
    case EndIteration => s.(phase := Idle)
    case Stop => s.(phase := Stopped(ExitOf(s.core.services)), inbox := s.inbox + [ShuttingDownInitiated(Gracefully)])
    case Fork(name, pid) => s.(children := s.children + {pid}, forked := s.forked[pid := name])
    case SpawnSucceeds(name, pid) =>
      s.(core := s.core.(spawning := s.core.spawning - multiset{name}),
         inbox := s.inbox + [PidChanged(name, pid)], forked := s.forked - {pid})
    case SpawnFails(name) =>
      s.(core := s.core.(spawning := s.core.spawning - multiset{name}), inbox := s.inbox + [SpawnFailed(name)])
    case ReportHealth(name, healthy) => s.(inbox := s.inbox + [HealthCheck(name, healthy)])
    case Terminate => s.(core := s.core.(sigterm := true))
  }

  /** Only handling an event touches the services. */
  lemma ServicesAreStill(s: State, a: Action)
    requires Enabled(s, a) && !(a.Handle? && CanHandle(s.core, s.inbox[0]))
    ensures Apply(s, a).core.services == s.core.services
  {
    hide HandleEvent, NextAll, ReapEvents, AllHaveFinished, IsClosed;
  }

  // ---------- runs ----------

  function StartCore(config: seq<Service>): Core {
    Core(FromServices(config), map[], Active, false, multiset{}, [], [], [])
  }

  function Start(config: seq<Service>): State {
    State(StartCore(config), [], 0, [], Idle, {}, map[], [])
  }

  /** The step does not start a service whose previous process has not been seen to exit. */
  predicate RunsOnlyExited(s: State, a: Action) {
    a.Handle? && |s.inbox| > 0 && s.inbox[0].Run? && s.inbox[0].name in s.core.services && a.prepared
    && s.core.services[s.inbox[0].name].status == Initial
    ==> s.core.services[s.inbox[0].name].pid.None?
  }

  /** As above, as far as `n` is concerned. */
  predicate RunsOnlyExitedOf(s: State, a: Action, n: ServiceName) {
    a.Handle? && |s.inbox| > 0 && s.inbox[0] == Run(n) && n in s.core.services && a.prepared
    && s.core.services[n].status == Initial
    ==> s.core.services[n].pid.None?
  }

  datatype Trace = Trace(states: seq<State>, actions: seq<Action>)

  /** A run from any state. */
  ghost predicate IsTrace(r: Trace) {
    && |r.states| == |r.actions| + 1
    && forall i :: 0 <= i < |r.actions| ==>
        Enabled(r.states[i], r.actions[i]) && r.states[i + 1] == Apply(r.states[i], r.actions[i])
  }

  /** A run of the program on a configuration that validation accepted. */
  ghost predicate IsProgramTrace(r: Trace, config: seq<Service>) {
    && IsTrace(r)
    && (forall s :: s in config ==> IsWellFormed(s, config))
    && r.states[0] == Start(config)
  }

  /** No step of the run starts a service over a process that is still around. */
  ghost predicate IsOrderly(r: Trace) {
    |r.states| == |r.actions| + 1
    && forall i :: 0 <= i < |r.actions| ==> RunsOnlyExited(r.states[i], r.actions[i])
  }

  lemma Begins(r: Trace, config: seq<Service>)
    requires IsProgramTrace(r, config)
    ensures |r.states| == |r.actions| + 1 && r.states[0] == Start(config)
    ensures forall s :: s in config ==> IsWellFormed(s, config)
  {
    hide Start;
  }

  lemma Goes(r: Trace, config: seq<Service>, i: nat)
    requires IsProgramTrace(r, config) && i + 1 < |r.states|
    ensures i < |r.actions| && Enabled(r.states[i], r.actions[i]) && r.states[i + 1] == Apply(r.states[i], r.actions[i])
    ensures IsOrderly(r) ==> RunsOnlyExited(r.states[i], r.actions[i])
  {
    hide Start, Enabled, Apply, RunsOnlyExited;
  }
}
