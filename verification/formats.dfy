/** The values exchanged on the bus and the parts of a service's configuration that the supervisor reads. */
module Formats {

  type ServiceName = string
  type Pid = int

  datatype Option<+T> = None | Some(value: T)

  datatype ServiceStatus =
    | Starting
    | Started
    | Running
    | InKilling
    | Success
    | Finished
    | FinishedFailed
    | Failed
    | Initial

  datatype ShutdownMode = Gracefully | Forcefully

  datatype Event =
    | PidChanged(name: ServiceName, pid: Pid)
    | StatusUpdate(name: ServiceName, status: ServiceStatus)
    | StatusChanged(name: ServiceName, status: ServiceStatus)
    | ServiceExited(name: ServiceName, exitCode: int)
    | ForceKill(name: ServiceName)
    | Kill(name: ServiceName)
    | SpawnFailed(name: ServiceName)
    | Run(name: ServiceName)
    | ShuttingDownInitiated(mode: ShutdownMode)
    | HealthCheck(name: ServiceName, healthy: bool)

  datatype ExitStatus = Successful | SomeServiceFailed

  datatype RestartStrategy = Always | OnFailure | Never

  datatype FailureStrategy = Shutdown | KillDependents | Ignore

  /** `attempts` and the counters compared with it are u32 in the program and unbounded here. */
  datatype Restart = Restart(strategy: RestartStrategy, backoff: nat, attempts: nat)

  datatype Service = Service(
    name: ServiceName,
    command: string,
    startDelay: nat,
    startAfter: seq<ServiceName>,
    shutdownAfter: seq<ServiceName>,
    restart: Restart,
    anyCheckDefined: bool,
    maxFailed: int,
    successfulExitCodes: seq<int>,
    failureStrategy: FailureStrategy,
    terminationWait: nat,
    dieIfFailed: seq<ServiceName>)

  // ---------- validation ----------

  datatype ValidationError =
    | CommandEmpty(service: ServiceName)
    | MissingDependency(before: ServiceName, after: ServiceName)
    | MissingShutdownDependency(before: ServiceName, after: ServiceName)

  datatype Validated = Valid(services: seq<Service>) | Invalid(errors: seq<ValidationError>)

  predicate IsDefined(services: seq<Service>, name: ServiceName) {
    exists i :: 0 <= i < |services| && services[i].name == name
  }

  /** What an accepted configuration promises to the supervisor. */
  predicate IsWellFormed(s: Service, services: seq<Service>) {
    && s.command != ""
    && (forall d :: d in s.startAfter ==> IsDefined(services, d))
    && (forall d :: d in s.shutdownAfter ==> IsDefined(services, d))
  }

  /** `error` is a true complaint about some service of the configuration. */
  ghost predicate Describes(error: ValidationError, services: seq<Service>) {
    match error
    case CommandEmpty(service) =>
      exists s :: s in services && s.name == service && s.command == ""
    case MissingDependency(before, after) =>
      !IsDefined(services, before) && exists s :: s in services && s.name == after && before in s.startAfter
    case MissingShutdownDependency(before, after) =>
      !IsDefined(services, before) && exists s :: s in services && s.name == after && before in s.shutdownAfter
  }

  /** The list of errors holds every true complaint about the services seen so far, and nothing else. */
  ghost predicate Complains(errors: seq<ValidationError>, seen: seq<Service>, services: seq<Service>) {
    && (forall e :: e in errors ==> Describes(e, services))
    && (forall s :: s in seen ==> ComplainsOf(errors, s, services))
  }

  ghost predicate ComplainsOf(errors: seq<ValidationError>, s: Service, services: seq<Service>) {
    && (s.command == "" ==> CommandEmpty(s.name) in errors)
    && (forall d :: d in s.startAfter && !IsDefined(services, d) ==> MissingDependency(d, s.name) in errors)
    && (forall d :: d in s.shutdownAfter && !IsDefined(services, d) ==> MissingShutdownDependency(d, s.name) in errors)
  }

  method CheckDependencies(s: Service, services: seq<Service>) returns (errors: seq<ValidationError>)
    requires s in services
    ensures forall e :: e in errors ==> Describes(e, services)
    ensures ComplainsOf(errors, s, services)
    ensures errors == [] <==> IsWellFormed(s, services)
  {
    errors := [];
    if s.command == "" {
      errors := errors + [CommandEmpty(s.name)];
    }
    for i := 0 to |s.startAfter|
      invariant forall e :: e in errors ==> Describes(e, services)
      invariant errors != [] ==> !IsWellFormed(s, services)
      invariant s.command == "" ==> CommandEmpty(s.name) in errors
      invariant forall k :: 0 <= k < i && !IsDefined(services, s.startAfter[k]) ==>
          MissingDependency(s.startAfter[k], s.name) in errors
    {
      if !IsDefined(services, s.startAfter[i]) {
        errors := errors + [MissingDependency(s.startAfter[i], s.name)];
      }
    }
    for i := 0 to |s.shutdownAfter|
      invariant forall e :: e in errors ==> Describes(e, services)
      invariant errors != [] ==> !IsWellFormed(s, services)
      invariant s.command == "" ==> CommandEmpty(s.name) in errors
      invariant forall d :: d in s.startAfter && !IsDefined(services, d) ==> MissingDependency(d, s.name) in errors
      invariant forall k :: 0 <= k < i && !IsDefined(services, s.shutdownAfter[k]) ==>
          MissingShutdownDependency(s.shutdownAfter[k], s.name) in errors
    {
      if !IsDefined(services, s.shutdownAfter[i]) {
        errors := errors + [MissingShutdownDependency(s.shutdownAfter[i], s.name)];
      }
    }
  }

  /** Accepts a configuration, unchanged, exactly when every service in it is well formed;
      otherwise lists every missing dependency and empty command, and no other complaint. */
  method Validate(services: seq<Service>) returns (r: Validated)
    ensures r.Valid? <==> forall s :: s in services ==> IsWellFormed(s, services)
    ensures r.Valid? ==> r.services == services
    ensures r.Invalid? ==> Complains(r.errors, services, services)
  {
    var errors := [];
    for i := 0 to |services|
      invariant Complains(errors, services[..i], services)
      invariant errors == [] <==> forall s :: s in services[..i] ==> IsWellFormed(s, services)
    {
      var found := CheckDependencies(services[i], services);
      errors := errors + found;
      assert services[..i + 1] == services[..i] + [services[i]];
    }
    assert services[..|services|] == services;
    if errors == [] {
      return Valid(services);
    } else {
      return Invalid(errors);
    }
  }
}
