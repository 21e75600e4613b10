/** What each step does, component by component, told by events, statuses and pids alone. */
module Effects {
  import opened Formats
  import opened ServiceHandlers
  import opened Repos
  import opened Commands
  import opened Machine
  import opened Invariants
  import opened Frames

  /** The step handles `e`, and the supervisor finds what it looks up for it. */
  predicate Handles(s: State, a: Action, e: Event) {
    && a.Handle? && |s.inbox| > 0 && s.inbox[0] == e
    && (e.ShuttingDownInitiated? || e.StatusChanged? || e.name in s.core.services)
    && (e.ServiceExited? ==> s.core.services[e.name].pid.Some?)
  }

  /** The step handles an event about `n`. */
  predicate HandlesFor(s: State, a: Action, n: ServiceName) {
    a.Handle? && |s.inbox| > 0 && !s.inbox[0].ShuttingDownInitiated? && s.inbox[0].name == n
    && Handles(s, a, s.inbox[0])
  }

  lemma HandlingIs(s: State, a: Action)
    requires Enabled(s, a) && a.Handle?
    ensures CanHandle(s.core, s.inbox[0]) <==> Handles(s, a, s.inbox[0])
  {
  }

  /** Nothing happens to a service but by events about it. */
  lemma OthersStay(s: State, a: Action, n: ServiceName)
    requires Enabled(s, a) && n in s.core.services && !HandlesFor(s, a, n)
    ensures n in Apply(s, a).core.services && Apply(s, a).core.services[n] == s.core.services[n]
  {
    hide HandleEvent, NextAll, ReapEvents, AllHaveFinished, IsClosed;
    if a.Handle? && CanHandle(s.core, s.inbox[0]) {
      OthersUntouched(s.core, s.inbox[0], a.prepared, a.now, n);
    }
  }

  // ---------- statuses ----------

  /** What the status `from` becomes when a request for `asked` is handled. */
  predicate IsAnswer(from: ServiceStatus, asked: ServiceStatus, to: ServiceStatus) {
    match asked
    case InKilling =>
      if from == Starting || from == Started || from == Running then to == InKilling
      else if from == Initial then to == Success
      else to == from
    case Initial => to == if from == Success || from == Failed then Initial else from
    case Running => to == if from == Started then Running else from
    case Finished => to == if from == Success || from == Initial then Finished else from
    case FinishedFailed =>
      to == if from == Starting || from == Started || from == Failed || from == InKilling then FinishedFailed else from
    case Success =>
      to == if from == Starting || from == Started || from == Running || from == InKilling then Success else from
    case Failed =>
      to == if from == Starting || from == Started || from == Running || from == InKilling then Failed else from
    case Starting => to == if from == Initial then Starting else from
    case Started => to == if from == Starting then Started else from
  }

  lemma HandleAnswers(c: Core, n: ServiceName, asked: ServiceStatus)
    requires n in c.services
    ensures var h := HandleStatusUpdate(c, n, asked);
      && n in h.core.services
      && var from, to := c.services[n].status, h.core.services[n].status;
         IsAnswer(from, asked, to) && h.produced == if to == from then [] else [StatusChanged(n, to)]
  {
  }

  /** A handled request is answered by the table, and announced exactly if it changes the status. */
  lemma RequestsAreAnswered(s: State, a: Action, n: ServiceName, asked: ServiceStatus)
    requires Enabled(s, a) && Handles(s, a, StatusUpdate(n, asked))
    ensures var s' := Apply(s, a);
      && n in s'.core.services
      && var from, to := s.core.services[n].status, s'.core.services[n].status;
         && IsAnswer(from, asked, to)
         && s'.outbox == s.outbox + if to == from then [] else [StatusChanged(n, to)]
  {
    hide NextAll, ReapEvents, AllHaveFinished, IsClosed, IsAnswer, HandleStatusUpdate;
    HandleAnswers(s.core, n, asked);
  }

  /** An exit fails a service that is up or being killed: for its code, or for its health while Running. */
  predicate IsFailedBy(sh: ServiceHandler, exitCode: int) {
    || exitCode !in sh.service.successfulExitCodes
    || (sh.status == Running && (sh.healthinessChecksFailed == None || sh.healthinessChecksFailed.value > 0))
  }

  /** What the status of a service becomes by an event that is no request. */
  predicate IsOutcome(sh: ServiceHandler, e: Event, prepared: bool, to: ServiceStatus) {
    match e
    case ServiceExited(_, exitCode) =>
      if sh.status == Starting || sh.status == Started || sh.status == Running || sh.status == InKilling
      then to == if IsFailedBy(sh, exitCode) then Failed else Success
      else to == sh.status
    case Run(_) =>
      if sh.status != Initial then to == sh.status else if prepared then to == Starting else to == FinishedFailed
    case SpawnFailed(_) => to == Failed
    case PidChanged(_, _) => to == if sh.status == InKilling then InKilling else Started
    case ForceKill(_) => to == if sh.status == InKilling then Failed else sh.status
    case StatusUpdate(_, asked) => IsAnswer(sh.status, asked, to)
    case _ => to == sh.status
  }

  lemma HandleMoves(c: Core, ev: Event, prepared: bool, now: nat)
    requires CanHandle(c, ev) && !ev.ShuttingDownInitiated? && ev.name in c.services
    ensures var n, d := ev.name, HandleEvent(c, ev, prepared, now).core;
      n in d.services && IsOutcome(c.services[n], ev, prepared, d.services[n].status)
  {
    hide IsAnswer, HandleStatusUpdate;
    if ev.StatusUpdate? {
      HandleAnswers(c, ev.name, ev.status);
    }
  }

  /** In every step the status of a service moves by the event handled about it, as its present status has it,
      and not otherwise. */
  lemma StatusesMoveExactly(s: State, a: Action, n: ServiceName)
    requires Enabled(s, a) && n in s.core.services
    ensures n in Apply(s, a).core.services
    ensures var sh, to := s.core.services[n], Apply(s, a).core.services[n].status;
      if HandlesFor(s, a, n) then IsOutcome(sh, s.inbox[0], a.prepared, to) else to == sh.status
  {
    hide NextAll, ReapEvents, AllHaveFinished, IsClosed, HandleEvent, IsOutcome;
    if HandlesFor(s, a, n) {
      HandleMoves(s.core, s.inbox[0], a.prepared, a.now);
    } else {
      OthersStay(s, a, n);
    }
  }

  // ---------- announcements ----------

  /** What handling an event publishes. */
  function NewsOf(sh: ServiceHandler, e: Event, prepared: bool, to: ServiceStatus): seq<Event>
    requires !e.ShuttingDownInitiated?
  {
    var told := [StatusChanged(e.name, to)];
    match e
    case ServiceExited(_, _) => told
    case StatusUpdate(_, _) => if to == sh.status then [] else told
    case Run(n) =>
      if sh.status != Initial then []
      else if prepared then told
      else [StatusUpdate(n, FinishedFailed), ShuttingDownInitiated(Gracefully)]
    case SpawnFailed(n) => [StatusUpdate(n, Failed)]
    case PidChanged(_, _) => if sh.status == InKilling then [] else told
    case ForceKill(_) => if sh.status == InKilling then told else []
    case _ => []
  }

  lemma HandleTells(c: Core, ev: Event, prepared: bool, now: nat)
    requires CanHandle(c, ev) && !ev.ShuttingDownInitiated? && ev.name in c.services
    ensures var n, h := ev.name, HandleEvent(c, ev, prepared, now);
      && n in h.core.services
      && h.produced == NewsOf(c.services[n], ev, prepared, h.core.services[n].status)
  {
    hide IsAllowed;
  }

  /** A handled event publishes the new status where there is news, after a failed spawn only a request, and
      after a failed preparation a request and the announcement of a shutdown. */
  lemma NewsIsExact(s: State, a: Action, n: ServiceName)
    requires Enabled(s, a) && HandlesFor(s, a, n) && n in s.core.services
    ensures var s' := Apply(s, a);
      && n in s'.core.services
      && s'.outbox == s.outbox + NewsOf(s.core.services[n], s.inbox[0], a.prepared, s'.core.services[n].status)
      && s'.inbox == s.inbox[1..] && s'.history == s.history + [s.inbox[0]]
  {
    hide NextAll, ReapEvents, AllHaveFinished, IsClosed, HandleEvent, NewsOf;
    HandleTells(s.core, s.inbox[0], a.prepared, a.now);
  }

  // ---------- pids ----------

  lemma HandlePids(c: Core, ev: Event, prepared: bool, now: nat)
    requires CanHandle(c, ev) && !ev.ShuttingDownInitiated? && ev.name in c.services
    ensures var n, d := ev.name, HandleEvent(c, ev, prepared, now).core;
      && n in d.services
      && d.services[n].pid == match ev
                              case PidChanged(_, p) => Some(p)
                              case ServiceExited(_, _) => None
                              case _ => c.services[n].pid
  {
    hide IsAllowed;
  }

  /** In every step a service gets a pid by a report, loses it by an exit, and keeps it otherwise. */
  lemma PidsMoveExactly(s: State, a: Action, n: ServiceName)
    requires Enabled(s, a) && n in s.core.services
    ensures n in Apply(s, a).core.services
    ensures Apply(s, a).core.services[n].pid
      == if !HandlesFor(s, a, n) then s.core.services[n].pid
         else match s.inbox[0]
              case PidChanged(_, p) => Some(p)
              case ServiceExited(_, _) => None
              case _ => s.core.services[n].pid
  {
    hide NextAll, ReapEvents, AllHaveFinished, IsClosed, HandleEvent;
    if HandlesFor(s, a, n) {
      HandlePids(s.core, s.inbox[0], a.prepared, a.now);
    } else {
      OthersStay(s, a, n);
    }
  }

  lemma HandleMapsExactly(c: Core, ev: Event, prepared: bool, now: nat)
    requires CanHandle(c, ev)
    ensures HandleEvent(c, ev, prepared, now).core.pidMap
      == match ev
         case PidChanged(n, p) => c.pidMap[p := n]
         case ServiceExited(n, _) => c.pidMap - {c.services[n].pid.value}
         case _ => c.pidMap
  {
    hide IsAllowed;
  }

  /** The pid map takes up what is reported and gives up what exits. */
  lemma PidMapMovesExactly(s: State, a: Action)
    requires Enabled(s, a)
    ensures Apply(s, a).core.pidMap
      == if a.Handle? && Handles(s, a, s.inbox[0]) && s.inbox[0].PidChanged?
         then s.core.pidMap[s.inbox[0].pid := s.inbox[0].name]
         else if a.Handle? && Handles(s, a, s.inbox[0]) && s.inbox[0].ServiceExited?
         then s.core.pidMap - {s.core.services[s.inbox[0].name].pid.value}
         else s.core.pidMap
  {
    hide NextAll, ReapEvents, AllHaveFinished, IsClosed, HandleEvent;
    if a.Handle? && CanHandle(s.core, s.inbox[0]) {
      HandleMapsExactly(s.core, s.inbox[0], a.prepared, a.now);
    }
  }

  // ---------- signals ----------

  /** The signals handling an event sends: the configured one to a process being killed, when the Kill or, if
      that came first, the pid arrives; SIGKILL by force. */
  function SignalsFor(services: Services, e: Event): seq<Signal>
    requires !e.ShuttingDownInitiated? && e.name in services
  {
    var sh := services[e.name];
    if sh.status != InKilling then []
    else match e
      case Kill(n) => if sh.pid.Some? then [Signal(n, sh.pid.value, false)] else []
      case PidChanged(n, p) => [Signal(n, p, false)]
      case ForceKill(n) => if sh.pid.Some? then [Signal(n, sh.pid.value, true)] else []
      case _ => []
  }

  lemma HandleSignalsExactly(c: Core, ev: Event, prepared: bool, now: nat)
    requires CanHandle(c, ev)
    ensures HandleEvent(c, ev, prepared, now).core.signals
      == c.signals + if ev.ShuttingDownInitiated? || ev.StatusChanged? then [] else SignalsFor(c.services, ev)
  {
    hide IsAllowed;
  }

  /** In every step exactly these signals are sent. */
  lemma SignalsAreExact(s: State, a: Action)
    requires Enabled(s, a)
    ensures Apply(s, a).core.signals == s.core.signals
      + if a.Handle? && Handles(s, a, s.inbox[0]) && !s.inbox[0].ShuttingDownInitiated? && !s.inbox[0].StatusChanged?
        then SignalsFor(s.core.services, s.inbox[0]) else []
  {
    hide NextAll, ReapEvents, AllHaveFinished, IsClosed, HandleEvent, SignalsFor;
    if a.Handle? && CanHandle(s.core, s.inbox[0]) {
      HandleSignalsExactly(s.core, s.inbox[0], a.prepared, a.now);
    }
  }

  // ---------- kill timers ----------

  lemma HandleTimes(c: Core, ev: Event, prepared: bool, now: nat)
    requires CanHandle(c, ev) && !ev.ShuttingDownInitiated? && ev.name in c.services
    ensures var n, d := ev.name, HandleEvent(c, ev, prepared, now).core;
      && n in d.services
      && d.services[n].shuttingDownStart
         == if ev.ServiceExited? then None
            else if (ev.Kill? || ev.PidChanged?) && c.services[n].status == InKilling then Some(now)
            else c.services[n].shuttingDownStart
  {
    hide IsAllowed;
  }

  /** The kill timer is set by a Kill or a pid that reaches a service being killed, to the time of that step,
      and stopped by an exit. */
  lemma TimersMoveExactly(s: State, a: Action, n: ServiceName)
    requires Enabled(s, a) && n in s.core.services
    ensures n in Apply(s, a).core.services
    ensures Apply(s, a).core.services[n].shuttingDownStart
      == if !HandlesFor(s, a, n) then s.core.services[n].shuttingDownStart
         else if s.inbox[0].ServiceExited? then None
         else if (s.inbox[0].Kill? || s.inbox[0].PidChanged?) && s.core.services[n].status == InKilling then Some(a.now)
         else s.core.services[n].shuttingDownStart
  {
    hide NextAll, ReapEvents, AllHaveFinished, IsClosed, HandleEvent;
    if HandlesFor(s, a, n) {
      HandleTimes(s.core, s.inbox[0], a.prepared, a.now);
    } else {
      OthersStay(s, a, n);
    }
  }

  // ---------- the lifecycle ----------

  lemma HandleShutdowns(c: Core, ev: Event, prepared: bool, now: nat)
    requires CanHandle(c, ev)
    ensures HandleEvent(c, ev, prepared, now).core.lifecycle
      == if ev.ShuttingDownInitiated? then ShuttingDown(ev.mode)
         else if ev.Run? && !prepared && c.services[ev.name].status == Initial then ShuttingDown(Gracefully)
         else c.lifecycle
    ensures HandleEvent(c, ev, prepared, now).core.sigterm == if ev.ShuttingDownInitiated? then false else c.sigterm
  {
    hide IsAllowed;
  }

  /** A handled announcement decides the lifecycle and answers the SIGTERM; besides, only a service that cannot
      be prepared shuts down, and only SIGTERM raises the flag. */
  lemma LifecycleMovesExactly(s: State, a: Action)
    requires Enabled(s, a)
    ensures Apply(s, a).core.lifecycle
      == if a.Handle? && s.inbox[0].ShuttingDownInitiated? then ShuttingDown(s.inbox[0].mode)
         else if a.Handle? && s.inbox[0].Run? && !a.prepared && s.inbox[0].name in s.core.services
                 && s.core.services[s.inbox[0].name].status == Initial then ShuttingDown(Gracefully)
         else s.core.lifecycle
    ensures Apply(s, a).core.sigterm
      == if a.Terminate? then true
         else if a.Handle? && s.inbox[0].ShuttingDownInitiated? then false
         else s.core.sigterm
  {
    hide NextAll, ReapEvents, AllHaveFinished, IsClosed, HandleEvent;
    if a.Handle? && CanHandle(s.core, s.inbox[0]) {
      HandleShutdowns(s.core, s.inbox[0], a.prepared, a.now);
    }
  }

  /** In every run the start of a turn turns a raised SIGTERM flag into the announcement of a graceful shutdown
      while the system is up, and of a forceful one during a graceful shutdown; and adds nothing otherwise. */
  lemma SigtermIsPolled(r: Trace, config: seq<Service>, i: nat)
    requires IsProgramTrace(r, config) && i + 1 < |r.states| && r.actions[i].Take?
    ensures var s, s' := r.states[i], r.states[i + 1];
      s'.Queue() == s.Queue()
        + if s.core.sigterm && s.core.lifecycle == Active then [ShuttingDownInitiated(Gracefully)]
          else if s.core.sigterm && s.core.lifecycle == ShuttingDown(Gracefully)
          then [ShuttingDownInitiated(Forcefully)]
          else []
  {
    hide IsProgramTrace, NamesAreKnown;
    Goes(r, config, i);
    RunKeepsFrame(r, config, i);
    assert r.states[i].outbox == [];
  }

  /** Between turns the supervisor stops exactly if every service is Finished or FinishedFailed, and then says so
      on the bus; otherwise it goes on. */
  lemma StopsExactly(s: State)
    requires s.phase == Idle
    ensures var over := forall n :: n in s.core.services ==>
                s.core.services[n].status == Finished || s.core.services[n].status == FinishedFailed;
      && (Enabled(s, Stop) <==> over)
      && (Enabled(s, Take(0)) <==> !over)
      && (over ==> Apply(s, Stop).Queue() == s.inbox + [ShuttingDownInitiated(Gracefully)] + s.outbox)
  {
  }

  // ---------- what can happen ----------

  /** Up to twenty processes that are there, each once. */
  ghost predicate AreChildren(s: State, reaped: seq<(Pid, int)>) {
    && |reaped| <= 20
    && (forall i :: 0 <= i < |reaped| ==> reaped[i].0 in s.children)
    && (forall i, j :: 0 <= i < j < |reaped| ==> reaped[i].0 != reaped[j].0)
  }

  ghost predicate IsUnused(s: State, p: Pid) {
    && p !in s.children && p !in s.core.pidMap && p !in s.forked
    && forall e :: e in s.inbox && e.PidChanged? ==> e.pid != p
  }

  /** In every run the supervisor can always go on, taking any part of its inbox, handling whatever comes first,
      asking the services in any order and reaping any processes that are there, until it stops or panics. */
  lemma SupervisorIsFree(r: Trace, config: seq<Service>, i: nat)
    requires IsProgramTrace(r, config) && i < |r.states|
    ensures var s := r.states[i];
      && (s.phase == Idle && !AllHaveFinished(s.core.services) ==>
            forall count: nat :: count <= |s.inbox| ==> Enabled(s, Take(count)))
      && (s.phase == Handling && s.taken > 0 ==> forall prepared, now :: Enabled(s, Handle(prepared, now)))
      && (s.phase == Handling && s.taken == 0 ==>
            forall order, now, reaped :: IsIterationOrder(order, s.core.services) && AreChildren(s, reaped) ==>
              Enabled(s, Compute(order, now, reaped)))
      && (s.phase == Sending ==> if s.outbox == [] then Enabled(s, EndIteration) else Enabled(s, Send))
  {
    hide IsProgramTrace, NamesAreKnown, AllHaveFinished;
    RunKeepsFrame(r, config, i);
    FramedIsClosed(r.states[i]);
  }

  /** Nor are the others restrained: a thread that has not forked may fail, or fork with any pid that nobody has;
      one that has forked may report; health reports on any service and SIGTERM may come at any time. */
  lemma OthersAreFree(s: State, n: ServiceName)
    ensures ForkedOf(s.forked, n) < s.core.spawning[n] ==>
              Enabled(s, SpawnFails(n)) && forall p :: IsUnused(s, p) ==> Enabled(s, Fork(n, p))
    ensures n in s.core.spawning ==>
              forall p :: p in s.forked && s.forked[p] == n ==> Enabled(s, SpawnSucceeds(n, p))
    ensures n in s.core.services ==> Enabled(s, ReportHealth(n, true)) && Enabled(s, ReportHealth(n, false))
    ensures Enabled(s, Terminate)
  {
    hide ForkedOf;
    forall p | IsUnused(s, p) && ForkedOf(s.forked, n) < s.core.spawning[n] ensures Enabled(s, Fork(n, p)) {
      forall i | 0 <= i < |s.inbox| ensures !(s.inbox[i].PidChanged? && s.inbox[i].pid == p) {
        assert s.inbox[i] in s.inbox;
      }
    }
  }

  /** What they do is told on the bus, behind all that is there. */
  lemma OthersTell(s: State, a: Action)
    requires Enabled(s, a) && (a.Fork? || a.SpawnSucceeds? || a.SpawnFails? || a.ReportHealth? || a.Terminate?)
    ensures Apply(s, a).outbox == s.outbox && Apply(s, a).core.services == s.core.services
    ensures a.SpawnSucceeds? ==> Apply(s, a).inbox == s.inbox + [PidChanged(a.name, a.pid)]
    ensures a.SpawnFails? ==> Apply(s, a).inbox == s.inbox + [SpawnFailed(a.name)]
    ensures a.ReportHealth? ==> Apply(s, a).inbox == s.inbox + [HealthCheck(a.name, a.healthy)]
    ensures a.Fork? || a.Terminate? ==> Apply(s, a).inbox == s.inbox
    ensures Apply(s, a).children == if a.Fork? then s.children + {a.pid} else s.children
    ensures Apply(s, a).core.spawning
      == if a.SpawnSucceeds? || a.SpawnFails? then s.core.spawning - multiset{a.name} else s.core.spawning
  {
  }

  /** Computing publishes the commands and then the exits, and the processes reaped are children no more. */
  lemma ComputingTells(s: State, a: Action)
    requires Enabled(s, a) && a.Compute?
    ensures var s' := Apply(s, a);
      && s'.inbox == s.inbox && s'.core == s.core
      && s'.outbox == s.outbox + (NextAll(s.core.services, a.order, a.order, s.core.lifecycle, a.now)
                                  + ReapEvents(s.core.pidMap, a.reaped))
      && forall p :: p in s'.children <==> p in s.children && forall i :: 0 <= i < |a.reaped| ==> a.reaped[i].0 != p
  {
    hide NextAll, ReapEvents, IsClosed;
  }

  // ---------- reaping ----------

  lemma {:induction false} ReapsConcat(pidMap: map<Pid, ServiceName>, p: seq<(Pid, int)>, q: seq<(Pid, int)>)
    ensures ReapEvents(pidMap, p + q) == ReapEvents(pidMap, p) + ReapEvents(pidMap, q)
  {
    if p == [] {
      assert p + q == q;
    } else {
      assert (p + q)[1..] == p[1..] + q;
      ReapsConcat(pidMap, p[1..], q);
    }
  }

  /** Each process reaped that is known is reported, in its turn between those reaped before and after it, as the
      exit of the service its pid is mapped to, with its own exit code; one that is not known is dropped. */
  lemma ReapsAreExact(pidMap: map<Pid, ServiceName>, before: seq<(Pid, int)>, p: Pid, exitCode: int,
        after: seq<(Pid, int)>)
    ensures ReapEvents(pidMap, before + [(p, exitCode)] + after)
      == ReapEvents(pidMap, before) + (if p in pidMap then [ServiceExited(pidMap[p], exitCode)] else [])
         + ReapEvents(pidMap, after)
    ensures ReapEvents(pidMap, []) == []
  {
    var one := [(p, exitCode)];
    assert one[1..] == [];
    ReapsConcat(pidMap, before + one, after);
    ReapsConcat(pidMap, before, one);
  }
}
