/** The commands the supervisor computes for each service from the current state. */
module Commands {
  import opened Formats
  import opened ServiceHandlers
  import opened Repos

  datatype LifecycleStatus = Active | ShuttingDown(mode: ShutdownMode)

  function KillCommands(names: seq<ServiceName>): seq<Event> {
    if names == [] then []
    else [StatusUpdate(names[0], InKilling), Kill(names[0])] + KillCommands(names[1..])
  }

  function HandleRestartStrategy(sh: ServiceHandler, isFailed: bool): ServiceStatus {
    match sh.service.restart.strategy
    case Never =>
      if isFailed then (if sh.RestartAttemptsAreOver() then FinishedFailed else Initial) else Finished
    case OnFailure => if isFailed then Initial else Finished
    case Always => Initial
  }

  function HandleFailedService(dependents: seq<ServiceName>, failed: Service): seq<Event> {
    match failed.failureStrategy
    case Shutdown => [ShuttingDownInitiated(Gracefully)]
    case KillDependents => KillCommands(dependents)
    case Ignore => []
  }

  /** While the system is up. */
  function NextEvents(services: Services, order: seq<ServiceName>, name: ServiceName, now: nat): seq<Event>
    requires IsClosed(services) && IsIterationOrder(order, services) && name in services
  {
    var sh := services[name];
    match sh.status
    case Initial => if IsServiceRunnable(services, sh) then [Run(name)] else []
    case Started => if !sh.HasSomeFailedHealthchecks() then [StatusUpdate(name, Running)] else []
    case Running => if sh.ExceededMaxFailed() then [StatusUpdate(name, InKilling), Kill(name)] else []
    case Success => [StatusUpdate(name, HandleRestartStrategy(sh, false))]
    case Failed =>
      HandleFailedService(GetDependents(services, order, name), sh.service)
      + [StatusUpdate(name, HandleRestartStrategy(sh, true))]
      + KillCommands(GetDieIfFailed(services, order, name))
    case InKilling =>
      if sh.ShouldForceKill(None, now) then [ForceKill(name), StatusChanged(name, Failed)] else []
    case _ => []
  }

  /** While the system is shutting down. */
  function NextEventsShuttingDown(services: Services, name: ServiceName, mode: ShutdownMode, now: nat): seq<Event>
    requires IsClosed(services) && name in services
  {
    var sh := services[name];
    match sh.status
    case Running | Started =>
      if mode == Forcefully || IsServiceKillable(services, sh)
      then [StatusUpdate(name, InKilling), Kill(name)] else []
    case Success | Initial => [StatusUpdate(name, Finished)]
    case Failed => [StatusUpdate(name, FinishedFailed)]
    case InKilling => if sh.ShouldForceKill(Some(mode), now) then [ForceKill(name)] else []
    case _ => []
  }

  function Next(services: Services, order: seq<ServiceName>, name: ServiceName, lifecycle: LifecycleStatus,
        now: nat): seq<Event>
    requires IsClosed(services) && IsIterationOrder(order, services) && name in services
  {
    match lifecycle
    case Active => NextEvents(services, order, name, now)
    case ShuttingDown(mode) => NextEventsShuttingDown(services, name, mode, now)
  }

  /** The commands for the services in `some`, a part of the iteration order. */
  function NextAll(services: Services, order: seq<ServiceName>, some: seq<ServiceName>, lifecycle: LifecycleStatus,
        now: nat): seq<Event>
    requires IsClosed(services) && IsIterationOrder(order, services)
    requires forall n :: n in some ==> n in services
  {
    if some == [] then []
    else Next(services, order, some[0], lifecycle, now) + NextAll(services, order, some[1..], lifecycle, now)
  }
}
