/** When the supervisor emits which command. */
module Emissions {
  import opened Formats
  import opened ServiceHandlers
  import opened Repos
  import opened Commands
  import opened Queues

  /** The state calls for the command `e`. This says nothing of the order in which the services are asked. */
  ghost predicate IsJustified(services: Services, lifecycle: LifecycleStatus, now: nat, e: Event)
    requires IsClosed(services)
  {
    match e
    case Run(n) => n in services && lifecycle == Active && IsNext(services, n)
    case Kill(n) => n in services && MustDie(services, lifecycle, n)
    case ForceKill(n) => n in services && IsOverdue(services[n], lifecycle, now)
    case StatusUpdate(n, status) => n in services && IsUpdateJustified(services, lifecycle, n, status)
    case StatusChanged(n, status) =>
      n in services && lifecycle == Active && status == Failed && IsOverdue(services[n], lifecycle, now)
    case ShuttingDownInitiated(mode) =>
      lifecycle == Active && mode == Gracefully && exists m :: m in services && IsFatalToAll(services[m])
    case _ => false
  }

  /** The failure of `m` is to take `n` with it. */
  predicate IsFatalTo(services: Services, m: ServiceName, n: ServiceName)
    requires m in services && n in services
  {
    && services[m].status == Failed
    && ((services[m].service.failureStrategy == KillDependents && m in services[n].service.startAfter)
        || m in services[n].service.dieIfFailed)
  }

  predicate IsFatalToAll(sh: ServiceHandler) {
    sh.status == Failed && sh.service.failureStrategy == Shutdown
  }

  /** The service waits, and all it starts after is up or done. */
  ghost predicate IsNext(services: Services, n: ServiceName)
    requires IsClosed(services) && n in services
  {
    services[n].status == Initial
    && forall d :: d in services[n].service.startAfter ==>
        services[d].status == Running || services[d].status == Finished
  }

  /** The service is Running and has more failed checks than it may have. */
  predicate IsUnhealthy(sh: ServiceHandler) {
    && sh.status == Running
    && match sh.healthinessChecksFailed
       case Some(failed) => failed > sh.service.maxFailed
       case None => -1 > sh.service.maxFailed
  }

  /** The service was checked and no check has failed. */
  predicate IsHealthy(sh: ServiceHandler) {
    sh.healthinessChecksFailed.Some? && sh.healthinessChecksFailed.value <= 0
  }

  /** The service is not to be started again after a failure. */
  predicate IsGivenUp(sh: ServiceHandler) {
    && sh.service.restart.strategy == Never
    && (sh.service.restart.attempts == 0 || sh.restartAttempts > sh.service.restart.attempts)
  }

  ghost predicate MustDie(services: Services, lifecycle: LifecycleStatus, n: ServiceName)
    requires IsClosed(services) && n in services
  {
    match lifecycle
    case Active => IsUnhealthy(services[n]) || exists m :: m in services && IsFatalTo(services, m, n)
    case ShuttingDown(mode) =>
      && (services[n].status.Running? || services[n].status.Started?)
      && (mode == Forcefully || forall d :: d in services[n].service.shutdownAfter ==>
            services[d].status == Finished || services[d].status == FinishedFailed)
  }

  /** A process is being killed and had its time, or the shutdown is forceful. The time is compared in whole
      seconds. */
  predicate IsOverdue(sh: ServiceHandler, lifecycle: LifecycleStatus, now: nat) {
    && sh.status == InKilling && sh.pid.Some?
    && (lifecycle == ShuttingDown(Forcefully)
        || (sh.shuttingDownStart.Some?
            && (now - sh.shuttingDownStart.value) / 1000 > sh.service.terminationWait / 1000))
  }

  ghost predicate IsUpdateJustified(services: Services, lifecycle: LifecycleStatus, n: ServiceName,
                                    status: ServiceStatus)
    requires IsClosed(services) && n in services
  {
    var sh, strategy := services[n], services[n].service.restart.strategy;
    var givenUp := IsGivenUp(sh);
    match status
    case InKilling => MustDie(services, lifecycle, n)
    case Running => lifecycle == Active && sh.status == Started && IsHealthy(sh)
    case Initial =>
      lifecycle == Active && ((sh.status == Success && strategy == Always) || (sh.status == Failed && !givenUp))
    case Finished =>
      || (lifecycle == Active && sh.status == Success && strategy != Always)
      || (lifecycle.ShuttingDown? && (sh.status == Success || sh.status == Initial))
    case FinishedFailed => sh.status == Failed && (lifecycle == Active ==> givenUp)
    case _ => false
  }

  lemma {:induction false} KillCommandsHold(names: seq<ServiceName>, e: Event)
    requires e in KillCommands(names)
    ensures exists m :: m in names && (e == StatusUpdate(m, InKilling) || e == Kill(m))
  {
    if names != [] {
      if e in KillCommands(names[1..]) {
        KillCommandsHold(names[1..], e);
      }
    }
  }

  lemma {:induction false} KillCommandsOfAll(names: seq<ServiceName>, n: ServiceName)
    requires n in names
    ensures StatusUpdate(n, InKilling) in KillCommands(names) && Kill(n) in KillCommands(names)
  {
    if names[0] != n {
      KillCommandsOfAll(names[1..], n);
    }
  }

  /** What a failed service is the reason of, while the system is up. */
  lemma FailedIsJustified(services: Services, order: seq<ServiceName>, n: ServiceName, now: nat, e: Event)
    requires IsClosed(services) && IsIterationOrder(order, services) && n in services && services[n].status == Failed
    requires e in NextEvents(services, order, n, now)
    ensures IsJustified(services, Active, now, e)
  {
    hide GetDependents, GetDieIfFailed, KillCommands, IsClosed;
    var dependents, dying := GetDependents(services, order, n), GetDieIfFailed(services, order, n);
    if e in KillCommands(dependents) && services[n].service.failureStrategy == KillDependents {
      KillCommandsHold(dependents, e);
      assert IsFatalTo(services, n, e.name);
    } else if e in KillCommands(dying) {
      KillCommandsHold(dying, e);
      assert IsFatalTo(services, n, e.name);
    } else if e.ShuttingDownInitiated? {
      assert IsFatalToAll(services[n]);
    }
  }

  lemma NextIsJustified(services: Services, order: seq<ServiceName>, n: ServiceName, lifecycle: LifecycleStatus,
        now: nat, e: Event)
    requires IsClosed(services) && IsIterationOrder(order, services) && n in services
    requires e in Next(services, order, n, lifecycle, now)
    ensures IsJustified(services, lifecycle, now, e)
  {
    hide GetDependents, GetDieIfFailed, KillCommands, IsClosed;
    if lifecycle == Active && services[n].status == Failed {
      FailedIsJustified(services, order, n, now, e);
    }
  }

  lemma {:induction false} NextAllIsJustified(
      services: Services, order: seq<ServiceName>, some: seq<ServiceName>, lifecycle: LifecycleStatus, now: nat)
    requires IsClosed(services) && IsIterationOrder(order, services)
    requires forall n :: n in some ==> n in services
    ensures forall e :: e in NextAll(services, order, some, lifecycle, now) ==> IsJustified(services, lifecycle, now, e)
  {
    hide IsJustified, Next, IsClosed, IsIterationOrder;
    if some != [] {
      NextAllIsJustified(services, order, some[1..], lifecycle, now);
      forall e | e in Next(services, order, some[0], lifecycle, now)
        ensures IsJustified(services, lifecycle, now, e)
      {
        NextIsJustified(services, order, some[0], lifecycle, now, e);
      }
    }
  }

  // ---------- all that is justified is commanded ----------

  lemma {:induction false} NextAllHolds(services: Services, order: seq<ServiceName>, some: seq<ServiceName>,
        lifecycle: LifecycleStatus, now: nat, n: ServiceName, e: Event)
    requires IsClosed(services) && IsIterationOrder(order, services)
    requires (forall m :: m in some ==> m in services) && n in some && e in Next(services, order, n, lifecycle, now)
    ensures e in NextAll(services, order, some, lifecycle, now)
  {
    hide IsClosed, IsIterationOrder, Next;
    if some[0] != n {
      NextAllHolds(services, order, some[1..], lifecycle, now, n, e);
    }
  }

  /** The service whose state is the reason for a command. */
  ghost function ReasonOf(services: Services, lifecycle: LifecycleStatus, now: nat, e: Event): (m: ServiceName)
    requires IsClosed(services) && IsJustified(services, lifecycle, now, e)
    ensures m in services
  {
    if e.ShuttingDownInitiated? then
      var m :| m in services && IsFatalToAll(services[m]); m
    else if (e.Kill? || e == StatusUpdate(e.name, InKilling)) && lifecycle == Active && !IsUnhealthy(services[e.name])
    then
      var m :| m in services && IsFatalTo(services, m, e.name); m
    else e.name
  }

  lemma KillIsCommanded(services: Services, order: seq<ServiceName>, m: ServiceName, n: ServiceName, now: nat)
    requires IsClosed(services) && IsIterationOrder(order, services) && m in services && n in services
    requires IsFatalTo(services, m, n)
    ensures Kill(n) in NextEvents(services, order, m, now)
    ensures StatusUpdate(n, InKilling) in NextEvents(services, order, m, now)
  {
    hide KillCommands, GetDependents, GetDieIfFailed, IsClosed;
    var dependents, dying := GetDependents(services, order, m), GetDieIfFailed(services, order, m);
    assert n in order;
    if m in services[n].service.dieIfFailed {
      KillCommandsOfAll(dying, n);
    } else {
      KillCommandsOfAll(dependents, n);
    }
  }

  lemma ReasonCommands(services: Services, order: seq<ServiceName>, lifecycle: LifecycleStatus, now: nat, e: Event)
    requires IsClosed(services) && IsIterationOrder(order, services) && IsJustified(services, lifecycle, now, e)
    ensures e in Next(services, order, ReasonOf(services, lifecycle, now, e), lifecycle, now)
  {
    hide KillCommands, GetDependents, GetDieIfFailed, IsClosed, IsIterationOrder;
    var m := ReasonOf(services, lifecycle, now, e);
    if (e.Kill? || e.StatusUpdate?) && lifecycle == Active && IsFatalTo(services, m, e.name)
        && (e.Kill? || e.status == InKilling) {
      KillIsCommanded(services, order, m, e.name, now);
    }
  }

  /** In whatever order the services are asked, the commands computed are exactly those the state calls for. */
  lemma CommandsExactly(services: Services, order: seq<ServiceName>, lifecycle: LifecycleStatus, now: nat, e: Event)
    requires IsClosed(services) && IsIterationOrder(order, services)
    ensures e in NextAll(services, order, order, lifecycle, now) <==> IsJustified(services, lifecycle, now, e)
  {
    hide IsJustified, Next, IsClosed;
    NextAllIsJustified(services, order, order, lifecycle, now);
    if IsJustified(services, lifecycle, now, e) {
      ReasonCommands(services, order, lifecycle, now, e);
      NextAllHolds(services, order, order, lifecycle, now, ReasonOf(services, lifecycle, now, e), e);
    }
  }

  // ---------- the order of the commands ----------

  /** Those of `order` that are in `keep`, in the same order. */
  function Restricted(order: seq<ServiceName>, keep: set<ServiceName>): seq<ServiceName> {
    if order == [] then []
    else (if order[0] in keep then [order[0]] else []) + Restricted(order[1..], keep)
  }

  /** The commands to kill some services come in pairs, in the order of the services. */
  lemma {:induction false} KillCommandsInPairs(names: seq<ServiceName>)
    ensures |KillCommands(names)| == 2 * |names|
    ensures forall i :: 0 <= i < |names| ==>
      && KillCommands(names)[2 * i] == StatusUpdate(names[i], InKilling)
      && KillCommands(names)[2 * i + 1] == Kill(names[i])
  {
    if names != [] {
      var rest := names[1..];
      KillCommandsInPairs(rest);
      forall i | 0 <= i < |names|
        ensures KillCommands(names)[2 * i] == StatusUpdate(names[i], InKilling)
        ensures KillCommands(names)[2 * i + 1] == Kill(names[i])
      {
        if i > 0 {
          assert names[i] == rest[i - 1];
          assert KillCommands(names)[2 * i] == KillCommands(rest)[2 * (i - 1)];
          assert KillCommands(names)[2 * i + 1] == KillCommands(rest)[2 * (i - 1) + 1];
        }
      }
    }
  }

  lemma {:induction false} DependentsInOrder(services: Services, order: seq<ServiceName>, n: ServiceName,
        after: set<ServiceName>, with: set<ServiceName>)
    requires forall m :: m in order ==> m in services
    requires forall m :: m in services ==> (m in after <==> n in services[m].service.startAfter)
    requires forall m :: m in services ==> (m in with <==> n in services[m].service.dieIfFailed)
    ensures GetDependents(services, order, n) == Restricted(order, after)
    ensures GetDieIfFailed(services, order, n) == Restricted(order, with)
  {
    if order != [] {
      DependentsInOrder(services, order[1..], n, after, with);
    }
  }

  /** While the system is up a failed service first has its failure strategy followed, on all that start after it,
      is then answered itself, and then takes along all that die with it; in the order the services are asked. */
  lemma FailureIsFollowedInOrder(services: Services, order: seq<ServiceName>, n: ServiceName, now: nat)
    requires IsClosed(services) && IsIterationOrder(order, services) && n in services && services[n].status == Failed
    ensures var after := set m | m in services && n in services[m].service.startAfter;
      var with := set m | m in services && n in services[m].service.dieIfFailed;
      var first := match services[n].service.failureStrategy
                   case Shutdown => [ShuttingDownInitiated(Gracefully)]
                   case KillDependents => KillCommands(Restricted(order, after))
                   case Ignore => [];
      Next(services, order, n, Active, now)
      == first + [StatusUpdate(n, if IsGivenUp(services[n]) then FinishedFailed else Initial)]
         + KillCommands(Restricted(order, with))
  {
    hide KillCommands, Restricted, GetDependents, GetDieIfFailed;
    var after := set m | m in services && n in services[m].service.startAfter;
    var with := set m | m in services && n in services[m].service.dieIfFailed;
    DependentsInOrder(services, order, n, after, with);
  }

  lemma {:induction false} KillCommandsFollow(names: seq<ServiceName>, n: ServiceName)
    ensures KillsFollow(KillCommands(names), n)
  {
    if names != [] {
      KillCommandsFollow(names[1..], n);
      PairFollows(names[0], n);
      KillsFollowConcat([StatusUpdate(names[0], InKilling), Kill(names[0])], KillCommands(names[1..]), n);
    }
  }

  lemma FailedFollows(services: Services, order: seq<ServiceName>, m: ServiceName, now: nat, n: ServiceName)
    requires IsClosed(services) && IsIterationOrder(order, services) && m in services && services[m].status == Failed
    ensures KillsFollow(NextEvents(services, order, m, now), n)
  {
    var sh := services[m];
    var dependents, dying := GetDependents(services, order, m), GetDieIfFailed(services, order, m);
    KillCommandsFollow(dependents, n);
    KillCommandsFollow(dying, n);
    var first, own := HandleFailedService(dependents, sh.service), StatusUpdate(m, HandleRestartStrategy(sh, true));
    OneFollows(ShuttingDownInitiated(Gracefully), n);
    OneFollows(own, n);
    KillsFollowConcat(first, [own], n);
    KillsFollowConcat(first + [own], KillCommands(dying), n);
  }

  /** Every request to kill a service is emitted with the signal that carries it out. */
  lemma NextFollows(services: Services, order: seq<ServiceName>, m: ServiceName, lifecycle: LifecycleStatus,
        now: nat, n: ServiceName)
    requires IsClosed(services) && IsIterationOrder(order, services) && m in services
    ensures KillsFollow(Next(services, order, m, lifecycle, now), n)
  {
    var evs := Next(services, order, m, lifecycle, now);
    if lifecycle == Active && services[m].status == Failed {
      FailedFollows(services, order, m, now, n);
    } else if |evs| == 1 {
      OneFollows(evs[0], n);
    } else if |evs| == 2 && evs[0].StatusUpdate? {
      PairFollows(m, n);
    } else if |evs| == 2 {
      OneFollows(evs[0], n);
      OneFollows(evs[1], n);
      KillsFollowConcat([evs[0]], [evs[1]], n);
    }
  }

  lemma {:induction false} NextAllFollow(
      services: Services, order: seq<ServiceName>, some: seq<ServiceName>, lifecycle: LifecycleStatus, now: nat,
          n: ServiceName)
    requires IsClosed(services) && IsIterationOrder(order, services)
    requires forall m :: m in some ==> m in services
    ensures KillsFollow(NextAll(services, order, some, lifecycle, now), n)
  {
    if some != [] {
      NextAllFollow(services, order, some[1..], lifecycle, now, n);
      NextFollows(services, order, some[0], lifecycle, now, n);
      KillsFollowConcat(Next(services, order, some[0], lifecycle, now), NextAll(services, order, some[1..],
          lifecycle, now), n);
    }
  }
}
