/** One service as the supervisor sees it, and the table of the transitions its status may take. */
module ServiceHandlers {
  import opened Formats

  /** Times and durations are in milliseconds. */
  const MILLIS: int := 1000

  datatype ServiceHandler = ServiceHandler(
    service: Service,
    status: ServiceStatus,
    pid: Option<Pid>,
    restartAttempts: nat,
    healthinessChecksFailed: Option<int>,
    shuttingDownStart: Option<nat>)
  {
    predicate IsAliveState() { status.Running? || status.Started? || status.Starting? }

    predicate IsEarlyState() { status.Initial? || status.Starting? || status.Started? }

    predicate IsTerminal() { status.Finished? || status.FinishedFailed? }

    /** With no health report received yet the service counts as unhealthy. */
    predicate HasSomeFailedHealthchecks() {
      match healthinessChecksFailed
      case Some(n) => n > 0
      case None => true
    }

    predicate ExceededMaxFailed() {
      (match healthinessChecksFailed case Some(n) => n case None => -1) > service.maxFailed
    }

    predicate RestartAttemptsAreOver() {
      service.restart.attempts == 0 || restartAttempts > service.restart.attempts
    }

    function AddHealthcheckEvent(healthy: bool): ServiceHandler {
      var previous := match healthinessChecksFailed case Some(n) => n case None => 0;
      this.(healthinessChecksFailed := Some(previous + if IsAliveState() && !healthy then 1 else 0))
    }

    /** The status reached by asking for `next`: an illegal request leaves the service where it is. */
    function StatusAfter(next: ServiceStatus): ServiceStatus {
      if next == status || !IsAllowed(status, next) then status
      else if next == InKilling && status == Initial then Success
      else next
    }

    function ChangeStatus(next: ServiceStatus): ServiceHandler {
      var to := StatusAfter(next);
      if to != status && to == Started then this.(status := to, restartAttempts := 0)
      else this.(status := to)
    }

    /** True once the process had more than `wait` to leave, both cut to whole seconds, or at once in a forceful
        shutdown; never before the process has a pid. */
    predicate ShouldForceKill(mode: Option<ShutdownMode>, now: nat) {
      if pid.None? then false
      else if mode == Some(Forcefully) then true
      else match shuttingDownStart
        case Some(start) => (now - start) / MILLIS > service.terminationWait / MILLIS
        case None => false
    }
  }

  function NewHandler(service: Service): ServiceHandler {
    ServiceHandler(service, Initial, None, 0, None, None)
  }

  /** The table of transitions: whether a service may move from `from` to `next`. */
  predicate IsAllowed(from: ServiceStatus, next: ServiceStatus) {
    match next
    case Initial => from.Success? || from.Failed?
    case Starting => from.Initial?
    case Started => from.Starting?
    case InKilling => from.Initial? || from.Running? || from.Starting? || from.Started?
    case Running => from.Started?
    case FinishedFailed => from.Starting? || from.Started? || from.Failed? || from.InKilling?
    case Success => from.Starting? || from.Started? || from.Running? || from.InKilling?
    case Failed => from.Starting? || from.Started? || from.Running? || from.InKilling?
    case Finished => from.Success? || from.Initial?
  }

  /** The edges of the service life cycle, from each status on. */
  predicate IsEdge(from: ServiceStatus, to: ServiceStatus) {
    match from
    case Initial => to == Starting || to == Success || to == Finished
    case Starting => to == Started || to == InKilling || to == FinishedFailed || to == Success || to == Failed
    case Started => to == InKilling || to == Running || to == FinishedFailed || to == Success || to == Failed
    case Running => to == InKilling || to == Success || to == Failed
    case InKilling => to == FinishedFailed || to == Success || to == Failed
    case Success => to == Initial || to == Finished
    case Failed => to == Initial || to == FinishedFailed
    case Finished => false
    case FinishedFailed => false
  }

  /** They are those of the table, except that killing a service that never started moves it straight to
      Success. */
  lemma EdgesAreTheTable(from: ServiceStatus, to: ServiceStatus)
    ensures IsEdge(from, to) <==>
      (IsAllowed(from, to) && !(from == Initial && to == InKilling)) || (from == Initial && to == Success)
  {
  }
}
