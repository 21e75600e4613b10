/** How often a service is restarted. */
module Restarting {
  import opened Formats
  import opened ServiceHandlers
  import opened Repos
  import opened Commands
  import opened Queues
  import opened Emissions
  import opened Machine
  import opened Invariants
  import opened Preservation
  import opened Kills
  import opened Records
  import opened Frames
  import opened OneService

  // ---------- the limit of a service that is not to be restarted ----------

  /** A service about to be started again holds no pid, and one that failed without exiting is not on its
      way there: it was killed by force in a shutdown. */
  ghost predicate IsPidFree(sh: ServiceHandler, lifecycle: LifecycleStatus, restarting: bool) {
    && (sh.status.Initial? || sh.status.Success? ==> sh.pid.None?)
    && (sh.status.Failed? && sh.pid.Some? ==> lifecycle.ShuttingDown? && !restarting)
  }

  /** A service with strategy Never stays within its attempts; one attempt beyond them it is through. */
  ghost predicate IsWithinAttempts(sh: ServiceHandler, restarting: bool) {
    sh.service.restart.strategy == Never ==>
      && sh.restartAttempts <= sh.service.restart.attempts + 1
      && (sh.restartAttempts > sh.service.restart.attempts ==>
            !restarting && (sh.status.Success? || sh.status.Failed? || sh.IsTerminal()))
  }

  /** `restarting` tells whether a command to restart the service is on its way. */
  ghost predicate AttemptsInv(sh: ServiceHandler, lifecycle: LifecycleStatus, restarting: bool) {
    IsPidFree(sh, lifecycle, restarting) && IsWithinAttempts(sh, restarting)
  }

  ghost predicate Attempts(s: State, n: ServiceName)
    requires n in s.core.services
  {
    AttemptsInv(s.core.services[n], s.core.lifecycle, StatusUpdate(n, Initial) in s.Queue())
  }

  /** The step kills `n` by force while the system is up. */
  predicate ForceKillsEarly(s: State, a: Action, n: ServiceName) {
    && a.Handle? && |s.inbox| > 0 && s.inbox[0] == ForceKill(n) && s.core.lifecycle == Active
    && n in s.core.services && s.core.services[n].status == InKilling
  }

  lemma HandleAttempts(c: Core, ev: Event, prepared: bool, now: nat, n: ServiceName, t: Outlook, children: set<Pid>)
    requires CanHandle(c, ev) && IsKnown(ev, c.services) && !ev.ShuttingDownInitiated? && ev.name == n
    requires LocalBefore(c, ev, n, t, children)
    requires AttemptsInv(c.services[n], c.lifecycle, ev == StatusUpdate(n, Initial) || t.initial)
    ensures var h := HandleEvent(c, ev, prepared, now);
      n in h.core.services &&
      (AttemptsInv(h.core.services[n], h.core.lifecycle, t.initial) <==>
        !(ev.ForceKill? && c.lifecycle == Active && c.services[n].status == InKilling))
  {
    hide LocalBefore, AttemptsInv, HandleRun, HandleSpawnFailed, HandleKill, HandlePidChanged, IsAllowed;
    match ev
    case ServiceExited(_, exitCode) => ExitAttempts(c, n, exitCode, t, children);
    case Run(_) => RunAttempts(c, n, prepared, t, children);
    case StatusUpdate(_, status) => UpdateAttempts(c, n, status, t, children);
    case ForceKill(_) => ForceAttempts(c, n, t, children);
    case _ => RestAttempts(c, ev, prepared, now, t, children);
  }

  lemma RestAttempts(c: Core, ev: Event, prepared: bool, now: nat, t: Outlook, children: set<Pid>)
    requires CanHandle(c, ev)
    requires ev.SpawnFailed? || ev.Kill? || ev.PidChanged? || ev.HealthCheck? || ev.StatusChanged?
    requires LocalBefore(c, ev, ev.name, t, children) && AttemptsInv(c.services[ev.name], c.lifecycle, t.initial)
    ensures var h := HandleEvent(c, ev, prepared, now);
      ev.name in h.core.services && AttemptsInv(h.core.services[ev.name], h.core.lifecycle, t.initial)
  {
  }

  lemma ExitAttempts(c: Core, n: ServiceName, exitCode: int, t: Outlook, children: set<Pid>)
    requires CanHandle(c, ServiceExited(n, exitCode))
    requires LocalBefore(c, ServiceExited(n, exitCode), n, t, children)
    requires AttemptsInv(c.services[n], c.lifecycle, t.initial)
    ensures AttemptsInv(HandleExited(c, n, exitCode).core.services[n], c.lifecycle, t.initial)
  {
  }

  lemma RunAttempts(c: Core, n: ServiceName, prepared: bool, t: Outlook, children: set<Pid>)
    requires LocalBefore(c, Run(n), n, t, children)
    requires AttemptsInv(c.services[n], c.lifecycle, t.initial)
    ensures n in HandleRun(c, n, prepared).core.services
    ensures AttemptsInv(HandleRun(c, n, prepared).core.services[n], HandleRun(c, n, prepared).core.lifecycle, t.initial)
  {
  }

  lemma UpdateAttempts(c: Core, n: ServiceName, status: ServiceStatus, t: Outlook, children: set<Pid>)
    requires LocalBefore(c, StatusUpdate(n, status), n, t, children)
    requires !status.Starting? && !status.Started? && !status.Success?
    requires AttemptsInv(c.services[n], c.lifecycle, status == Initial || t.initial)
    ensures n in HandleStatusUpdate(c, n, status).core.services
    ensures AttemptsInv(HandleStatusUpdate(c, n, status).core.services[n], c.lifecycle, t.initial)
  {
    var sh := c.services[n];
    assert HandleStatusUpdate(c, n, status).core.services[n] == sh.(status := sh.StatusAfter(status));
  }

  lemma ForceAttempts(c: Core, n: ServiceName, t: Outlook, children: set<Pid>)
    requires LocalBefore(c, ForceKill(n), n, t, children)
    requires AttemptsInv(c.services[n], c.lifecycle, t.initial)
    ensures AttemptsInv(HandleForceKill(c, n).core.services[n], c.lifecycle, t.initial) <==>
      !(c.lifecycle == Active && c.services[n].status == InKilling)
  {
  }

  lemma HandleStepAttempts(s: State, a: Action, n: ServiceName)
    requires n in s.core.services && a.Handle? && Enabled(s, a) && CanHandle(s.core, s.inbox[0])
    requires Local(s, n) && IsKnown(s.inbox[0], s.core.services) && Attempts(s, n)
    ensures n in Apply(s, a).core.services
    ensures Attempts(Apply(s, a), n) <==> !ForceKillsEarly(s, a, n)
  {
    hide HandleEvent, OutlookOf;
    var ev, rest := s.inbox[0], s.inbox[1..] + s.outbox;
    var h := HandleEvent(s.core, ev, a.prepared, a.now);
    assert s.Queue() == [ev] + rest && Apply(s, a).Queue() == rest + h.produced;
    HandleRestartsNobody(s.core, ev, a.prepared, a.now, n);
    if !ev.ShuttingDownInitiated? && ev.name == n {
      FirstInOutlook(s, n);
      OutlookMembers(rest, n);
      HandleAttempts(s.core, ev, a.prepared, a.now, n, OutlookOf(rest, n), s.children);
    } else {
      OthersUntouched(s.core, ev, a.prepared, a.now, n);
      ShutdownStays(s.core, ev, a.prepared, a.now);
    }
  }

  lemma HandleRestartsNobody(c: Core, ev: Event, prepared: bool, now: nat, n: ServiceName)
    requires CanHandle(c, ev)
    ensures StatusUpdate(n, Initial) !in HandleEvent(c, ev, prepared, now).produced
  {
  }

  lemma ComputeAttempts(s: State, a: Action, n: ServiceName)
    requires a.Compute? && Enabled(s, a) && n in s.core.services && Attempts(s, n)
    ensures Attempts(Apply(s, a), n)
  {
    hide HandleEvent, NextAll, ReapEvents;
    var c := s.core;
    var added := NextAll(c.services, a.order, a.order, c.lifecycle, a.now) + ReapEvents(c.pidMap, a.reaped);
    NextAllIsJustified(c.services, a.order, a.order, c.lifecycle, a.now);
    ReapsFollow(c.pidMap, a.reaped, n);
    assert Apply(s, a).Queue() == s.Queue() + added;
  }

  lemma InsertAttempts(s: State, a: Action, n: ServiceName)
    requires !a.Compute? && !a.Handle? && !a.Send? && Enabled(s, a) && n in s.core.services && Attempts(s, n)
    ensures Attempts(Apply(s, a), n)
  {
    var s' := Apply(s, a);
    var added := s'.inbox[|s.inbox|..];
    assert s'.inbox == s.inbox + added;
    assert StatusUpdate(n, Initial) !in added;
    assert s'.Queue() == s.inbox + added + s.outbox;
    assert StatusUpdate(n, Initial) in s'.Queue() <==> StatusUpdate(n, Initial) in s.Queue();
    assert s'.core.services == s.core.services && s'.core.lifecycle == s.core.lifecycle;
  }

  /** A step from a good state keeps a service free of stale pids and within its attempts if and only if it
      does not kill it by force while the system is up. */
  lemma AttemptsExactly(s: State, a: Action, n: ServiceName)
    requires FrameInv(s) && IsGood(s, n) && Enabled(s, a) && Attempts(s, n)
    ensures n in Apply(s, a).core.services
    ensures Attempts(Apply(s, a), n) <==> !ForceKillsEarly(s, a, n)
  {
    hide HandleEvent, Attempts, OutlookOf, NamesAreKnown, LocalInv;
    if !a.Handle? {
      OtherStepAttempts(s, a, n);
    } else if CanHandle(s.core, s.inbox[0]) {
      FirstIsKnown(s);
      HandleStepAttempts(s, a, n);
    } else {
      PanicKeepsAttempts(s, a, n);
    }
  }

  lemma PanicKeepsAttempts(s: State, a: Action, n: ServiceName)
    requires n in s.core.services && Attempts(s, n) && a.Handle? && Enabled(s, a) && !CanHandle(s.core, s.inbox[0])
    ensures Attempts(Apply(s, a), n) && !ForceKillsEarly(s, a, n)
  {
    assert Apply(s, a).Queue() == s.Queue();
  }

  lemma OtherStepAttempts(s: State, a: Action, n: ServiceName)
    requires !a.Handle? && Enabled(s, a) && n in s.core.services && Attempts(s, n)
    ensures Attempts(Apply(s, a), n)
  {
    if a.Compute? {
      ComputeAttempts(s, a, n);
    } else if a.Send? {
      assert Apply(s, a).Queue() == s.Queue();
    } else {
      InsertAttempts(s, a, n);
    }
  }

  ghost predicate NeverForcedEarly(r: Trace, n: ServiceName) {
    |r.states| == |r.actions| + 1 && forall i :: 0 <= i < |r.actions| ==> !ForceKillsEarly(r.states[i], r.actions[i], n)
  }

  lemma StartWithinAttempts(config: seq<Service>, n: ServiceName)
    requires n in Start(config).core.services
    ensures Attempts(Start(config), n)
  {
    FromServicesHolds(config);
    assert Start(config).Queue() == [];
  }

  lemma PidFreeIsOrderly(s: State, a: Action, n: ServiceName)
    requires n in s.core.services && Attempts(s, n)
    ensures RunsOnlyExitedOf(s, a, n)
  {
  }

  /** A service that is never killed by force while the system is up is good throughout the run, and is never
      started over a process. */
  lemma {:induction false} RunKeepsAttempts(r: Trace, config: seq<Service>, i: nat, n: ServiceName)
    requires IsProgramTrace(r, config) && NeverForcedEarly(r, n) && i < |r.states|
    requires n in r.states[0].core.services
    ensures IsGood(r.states[i], n) && Attempts(r.states[i], n)
    ensures i < |r.states| - 1 ==> RunsOnlyExitedOf(r.states[i], r.actions[i], n)
  {
    hide IsProgramTrace, FrameInv, IsGood, Attempts, Enabled, Apply, Start, ForceKillsEarly, RunsOnlyExitedOf, Local;
    Begins(r, config);
    if i == 0 {
      StartIsGoodFor(config, n);
      GoodExists(r.states[0], n);
      StartWithinAttempts(config, n);
    } else {
      Goes(r, config, i - 1);
      var s, a := r.states[i - 1], r.actions[i - 1];
      RunKeepsAttempts(r, config, i - 1, n);
      RunKeepsFrame(r, config, i - 1);
      GoodExists(s, n);
      StepKeepsGood(s, a, n);
      AttemptsExactly(s, a, n);
    }
    GoodExists(r.states[i], n);
    if i < |r.states| - 1 {
      PidFreeIsOrderly(r.states[i], r.actions[i], n);
    }
  }

  /** A run without kills by force while the system is up is orderly: the assumption that no service is
      started over a process follows from a condition on the steps alone. */
  lemma NotForcedIsOrderly(r: Trace, config: seq<Service>)
    requires IsProgramTrace(r, config) && forall n :: NeverForcedEarly(r, n)
    ensures IsOrderly(r)
  {
    forall n ensures IsOrderlyFor(r, n) {
      forall i | 0 <= i < |r.actions| ensures RunsOnlyExitedOf(r.states[i], r.actions[i], n) {
        ServicesStay(r, config, i);
        if n in r.states[i].core.services {
          ServicesStay(r, config, 0);
          RunKeepsAttempts(r, config, i, n);
        }
      }
    }
    OrderlyForAll(r);
  }

  /** A service with strategy Never that is never killed by force while the system is up fails at most
      `attempts + 1` times too quickly, and after the last of them it is through: it is not started again. */
  lemma AttemptsAreLimited(r: Trace, config: seq<Service>, i: nat, n: ServiceName)
    requires IsProgramTrace(r, config) && NeverForcedEarly(r, n) && i < |r.states|
    requires n in r.states[0].core.services && r.states[0].core.services[n].service.restart.strategy == Never
    ensures n in r.states[i].core.services
    ensures var sh := r.states[i].core.services[n];
      && sh.restartAttempts <= sh.service.restart.attempts + 1
      && (sh.restartAttempts > sh.service.restart.attempts ==>
            sh.status.Success? || sh.status.Failed? || sh.IsTerminal())
  {
    RunKeepsAttempts(r, config, i, n);
    ServicesStay(r, config, i);
    Begins(r, config);
  }

  /** While the system is up a failed service is told to start again unless its strategy is Never and its
      attempts are over: with the other strategies the attempts are never looked at. */
  lemma FailedIsRestartedExactly(services: Services, order: seq<ServiceName>, n: ServiceName, now: nat)
    requires IsClosed(services) && IsIterationOrder(order, services) && n in services && services[n].status == Failed
    ensures var restart := services[n].service.restart;
      var givenUp := restart.strategy == Never
        && (restart.attempts == 0 || services[n].restartAttempts > restart.attempts);
      && (StatusUpdate(n, Initial) in Next(services, order, n, Active, now) <==> !givenUp)
      && (StatusUpdate(n, FinishedFailed) in Next(services, order, n, Active, now) <==> givenUp)
  {
    hide KillCommands, GetDependents, GetDieIfFailed;
    var dependents, dying := GetDependents(services, order, n), GetDieIfFailed(services, order, n);
    var answer := StatusUpdate(n, HandleRestartStrategy(services[n], true));
    var first, evs := HandleFailedService(dependents, services[n].service), Next(services, order, n, Active, now);
    assert evs == first + [answer] + KillCommands(dying) && evs[|first|] == answer;
    forall e | e in evs && e != answer
      ensures e != StatusUpdate(n, Initial) && e != StatusUpdate(n, FinishedFailed)
    {
      if e in KillCommands(dependents) {
        KillCommandsHold(dependents, e);
      } else if e in KillCommands(dying) {
        KillCommandsHold(dying, e);
      }
    }
  }
}
