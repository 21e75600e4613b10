/** The supervisor itself: an object whose methods update the services in place, proved to do what the
    state machine says. */
module Supervisors {
  import opened Formats
  import opened ServiceHandlers
  import opened Repos
  import opened Commands
  import opened Machine
  import opened Iterations

  /** The services, the pids they hold, and the supervisor's end of the bus. */
  class Repo {
    var services: Services
    var pidMap: map<Pid, ServiceName>
    var inbox: seq<Event>

    constructor (config: seq<Service>)
      ensures services == FromServices(config) && pidMap == map[] && inbox == []
    {
      var built: Services := map[];
      for i := 0 to |config|
        invariant built == FromServices(config[..i])
      {
        built := built[config[i].name := NewHandler(config[i])];
        assert config[..i + 1][..i] == config[..i];
      }
      assert config[..|config|] == config;
      services, pidMap, inbox := built, map[], [];
    }

    method InsertShByName(n: ServiceName, sh: ServiceHandler)
      modifies `services
      ensures services == old(services)[n := sh]
    {
      services := services[n := sh];
    }

    method AddPid(pid: Pid, n: ServiceName)
      modifies `pidMap
      ensures pidMap == old(pidMap)[pid := n]
    {
      pidMap := pidMap[pid := n];
    }

    method RemovePid(pid: Pid)
      modifies `pidMap
      ensures pidMap == old(pidMap) - {pid}
    {
      pidMap := pidMap - {pid};
    }

    method SendEv(ev: Event)
      modifies `inbox
      ensures inbox == old(inbox) + [ev]
    {
      inbox := inbox + [ev];
    }

    /** Takes the `count` events that have been delivered so far. */
    method GetEvents(count: nat) returns (evs: seq<Event>)
      requires count <= |inbox|
      modifies `inbox
      ensures evs == old(inbox)[..count] && inbox == old(inbox)[count..]
    {
      evs := inbox[..count];
      inbox := inbox[count..];
    }
  }

  ghost predicate IsNamed(services: Services) {
    forall n :: n in services ==> services[n].service.name == n
  }

  datatype Outcome = Exited(status: ExitStatus) | Panicked | StillRunning

  class Supervisor {
    var status: LifecycleStatus
    const repo: Repo
    var sigtermReceived: bool
    /** The threads started to fork processes, and the signals sent. */
    var spawned: seq<Spawn>
    var signalled: seq<Signal>

    /** The machine's view of this object. */
    ghost var core: Core
    ghost var children: set<Pid>
    ghost var forked: map<Pid, ServiceName>
    ghost var history: seq<Event>

    ghost predicate Valid()
      reads this, repo
    {
      && core.services == repo.services
      && core.pidMap == repo.pidMap
      && core.lifecycle == status
      && core.sigterm == sigtermReceived
      && core.spawns == spawned
      && core.signals == signalled
      && IsNamed(repo.services)
    }

    ghost function State(): State
      reads this, repo
    {
      Machine.State(core, repo.inbox, 0, [], Idle, children, forked, history)
    }

    constructor (config: seq<Service>)
      ensures Valid() && fresh(repo) && State() == Start(config)
    {
      status := Active;
      sigtermReceived := false;
      spawned, signalled := [], [];
      repo := new Repo(config);
      core := StartCore(config);
      children, forked, history := {}, map[], [];
      FromServicesHolds(config);
    }

    method HandleServiceExited(n: ServiceName, exitCode: int) returns (produced: seq<Event>)
      requires Valid() && CanHandle(core, ServiceExited(n, exitCode))
      modifies this`core, repo`services, repo`pidMap
      ensures Valid() && Handled(core, produced) == HandleExited(old(core), n, exitCode)
    {
      var sh := repo.services[n];
      repo.RemovePid(sh.pid.value);
      sh := sh.(shuttingDownStart := None, pid := None);
      var hasFailed := exitCode !in sh.service.successfulExitCodes;
      if sh.HasSomeFailedHealthchecks() && sh.IsEarlyState() {
        sh := sh.(restartAttempts := sh.restartAttempts + 1);
      }
      var newStatus := Success;
      if hasFailed || (sh.status == Running && sh.HasSomeFailedHealthchecks()) {
        newStatus := Failed;
      }
      var newSh := sh.ChangeStatus(newStatus);
      repo.InsertShByName(n, newSh);
      produced := [StatusChanged(n, newSh.status)];
      core := HandleExited(core, n, exitCode).core;
    }

    /** Starts the thread that waits for the start delay and the backoff and then forks. */
    method SpawnForkExecHandler(service: Service, backoff: nat)
      modifies `spawned
      ensures spawned == old(spawned) + [Spawn(service.name, service.startDelay + backoff)]
    {
      spawned := spawned + [Spawn(service.name, service.startDelay + backoff)];
    }

    /** Sends a signal to the process of a service; a service without one gets none. */
    method Kill(sh: ServiceHandler, hard: bool)
      modifies `signalled
      ensures signalled == old(signalled)
        + if sh.pid.Some? then [Signal(sh.service.name, sh.pid.value, hard)] else []
    {
      match sh.pid
      case Some(pid) => signalled := signalled + [Signal(sh.service.name, pid, hard)];
      case None => assert signalled + [] == signalled;
    }

    method HandleRun(n: ServiceName, prepared: bool) returns (produced: seq<Event>)
      requires Valid() && n in core.services
      modifies this`core, this`status, this`spawned, repo`services
      ensures Valid() && Handled(core, produced) == Machine.HandleRun(old(core), n, prepared)
    {
      ghost var before := core;
      core := Machine.HandleRun(core, n, prepared).core;
      if repo.services[n].status != Initial {
        return [];
      }
      repo.InsertShByName(n, repo.services[n].(status := Starting));
      produced := [StatusChanged(n, Starting)];
      if !prepared {
        repo.InsertShByName(n, repo.services[n].(status := FinishedFailed));
        status := ShuttingDown(Gracefully);
        return [StatusUpdate(n, FinishedFailed), ShuttingDownInitiated(Gracefully)];
      }
      var sh := repo.services[n];
      SpawnForkExecHandler(sh.service, sh.service.restart.backoff * sh.restartAttempts);
    }

    method HandleKillRequests(ev: Event, now: nat) returns (produced: seq<Event>)
      requires Valid() && CanHandle(core, ev) && (ev.Kill? || ev.ForceKill?)
      modifies this`core, this`signalled, repo`services
      ensures Valid() && Handled(core, produced) == Machine.HandleEvent(old(core), ev, true, now)
    {
      var sh := repo.services[ev.name];
      core := Machine.HandleEvent(core, ev, true, now).core;
      if sh.status != InKilling {
        return [];
      }
      if ev.Kill? {
        repo.InsertShByName(ev.name, sh.(shuttingDownStart := Some(now)));
        Kill(sh, false);
        return [];
      }
      Kill(sh, true);
      repo.InsertShByName(ev.name, sh.(status := Failed));
      produced := [StatusChanged(ev.name, Failed)];
    }

    method HandleSpawnReport(ev: Event, now: nat) returns (produced: seq<Event>)
      requires Valid() && CanHandle(core, ev) && (ev.PidChanged? || ev.SpawnFailed?)
      modifies this`core, this`signalled, repo`services, repo`pidMap
      ensures Valid() && Handled(core, produced) == Machine.HandleEvent(old(core), ev, true, now)
    {
      var sh := repo.services[ev.name];
      core := Machine.HandleEvent(core, ev, true, now).core;
      if ev.SpawnFailed? {
        repo.InsertShByName(ev.name, sh.(status := Failed));
        return [StatusUpdate(ev.name, Failed)];
      }
      repo.AddPid(ev.pid, ev.name);
      sh := sh.(pid := Some(ev.pid));
      if sh.status == InKilling {
        repo.InsertShByName(ev.name, sh.(shuttingDownStart := Some(now)));
        Kill(sh, false);
        return [];
      }
      repo.InsertShByName(ev.name, sh.(status := Started));
      produced := [StatusChanged(ev.name, Started)];
    }

    method HandleStatusUpdate(n: ServiceName, newStatus: ServiceStatus) returns (produced: seq<Event>)
      requires Valid() && n in core.services
      modifies this`core, repo`services
      ensures Valid() && Handled(core, produced) == Machine.HandleStatusUpdate(old(core), n, newStatus)
    {
      var sh := repo.services[n];
      var newSh := sh.ChangeStatus(newStatus);
      core := Machine.HandleStatusUpdate(core, n, newStatus).core;
      if newSh.status != sh.status {
        repo.InsertShByName(n, newSh);
        return [StatusChanged(n, newSh.status)];
      }
      produced := [];
    }

    /** Updates the supervisor and returns the events to be dispatched, exactly as the machine does. */
    method HandleEvent(ev: Event, prepared: bool, now: nat) returns (produced: seq<Event>)
      requires Valid() && CanHandle(core, ev)
      modifies this`core, this`status, this`sigtermReceived, this`spawned, this`signalled, repo`services, repo`pidMap
      ensures Valid() && Handled(core, produced) == Machine.HandleEvent(old(core), ev, prepared, now)
    {
      match ev
      case ServiceExited(n, exitCode) => produced := HandleServiceExited(n, exitCode);
      case Run(n) => produced := HandleRun(n, prepared);
      case SpawnFailed(_) => produced := HandleSpawnReport(ev, now);
      case PidChanged(_, _) => produced := HandleSpawnReport(ev, now);
      case Kill(_) => produced := HandleKillRequests(ev, now);
      case ForceKill(_) => produced := HandleKillRequests(ev, now);
      case HealthCheck(n, healthy) =>
        repo.InsertShByName(n, repo.services[n].AddHealthcheckEvent(healthy));
        core := Machine.HandleEvent(core, ev, prepared, now).core;
        produced := [];
      case ShuttingDownInitiated(mode) =>
        status := ShuttingDown(mode);
        sigtermReceived := false;
        core := Machine.HandleEvent(core, ev, prepared, now).core;
        produced := [];
      case StatusUpdate(n, newStatus) => produced := HandleStatusUpdate(n, newStatus);
      case StatusChanged(_, _) => produced := [];
    }

    /** A raised SIGTERM flag is turned into a shutdown announcement, the second time a forceful one. */
    method PollSigterm()
      requires Valid()
      modifies repo`inbox
      ensures Valid() && repo.inbox == old(repo.inbox) + Machine.PollSigterm(core)
    {
      match (status, sigtermReceived)
      case (Active, true) => repo.SendEv(ShuttingDownInitiated(Gracefully));
      case (ShuttingDown(Gracefully), true) => repo.SendEv(ShuttingDownInitiated(Forcefully));
      case _ =>
    }

    method SendAll(evs: seq<Event>)
      requires Valid()
      modifies repo`inbox
      ensures Valid() && repo.inbox == old(repo.inbox) + evs
    {
      for i := 0 to |evs|
        invariant Valid() && repo.inbox == old(repo.inbox) + evs[..i]
      {
        repo.SendEv(evs[i]);
        assert evs[..i + 1] == evs[..i] + [evs[i]];
      }
    }

    /** Handles a batch in order, stopping at an event whose lookups fail. */
    method HandleAll(received: seq<Event>, unprepared: set<ServiceName>, now: nat) returns (produced: seq<Event>,
          crashed: bool)
      requires Valid()
      modifies this`core, this`status, this`sigtermReceived, this`spawned, this`signalled, repo`services, repo`pidMap
      ensures Valid()
      ensures var b := HandleBatch(old(core), received, unprepared, now);
        core == b.core && produced == b.produced && crashed == b.crashed
    {
      produced, crashed := [], false;
      var i := 0;
      while i < |received|
        invariant 0 <= i <= |received| && Valid()
        invariant !crashed ==> Batch(core, produced, i, false) == HandleBatch(old(core), received[..i], unprepared, now)
      {
        assert received[..i + 1][..i] == received[..i];
        if !CanLookUp(repo.services, received[i]) {
          PanicEndsBatch(old(core), received, i, unprepared, now);
          return produced, true;
        }
        var more := HandleEvent(received[i], IsPrepared(received[i], unprepared), now);
        produced := produced + more;
        i := i + 1;
      }
      assert received[..|received|] == received;
    }

    /** Computes the commands for all services, adds the exits reaped, and publishes what was produced. */
    method Dispatch(produced: seq<Event>, turn: Turn)
      requires Valid() && IsClosed(core.services) && IsIterationOrder(turn.order, core.services)
      modifies repo`inbox
      ensures Valid() && repo.inbox == old(repo.inbox) + produced + Commanded(core, turn)
    {
      var nextEvs := NextAll(repo.services, turn.order, turn.order, status, turn.now)
                     + ReapEvents(repo.pidMap, turn.reaped);
      SendAll(produced);
      SendAll(nextEvs);
    }

    /** Takes the batch and polls the signal flag. */
    method Receive(count: nat) returns (received: seq<Event>)
      requires Valid() && count <= |repo.inbox|
      modifies repo`inbox
      ensures Valid() && received == old(repo.inbox)[..count]
      ensures repo.inbox == (old(repo.inbox) + Machine.PollSigterm(core))[count..]
      ensures received == (old(repo.inbox) + Machine.PollSigterm(core))[..count]
    {
      received := repo.GetEvents(count);
      PollSigterm();
    }

    /** A turn of the loop does to this object what the machine's steps do to its view of it. */
    method Iterate(turn: Turn) returns (crashed: bool)
      requires Valid() && CanTurn(State(), turn)
      modifies this, repo
      ensures Valid() && crashed == BatchOf(old(State()), turn).crashed
      ensures if crashed then core == BatchOf(old(State()), turn).core else State() == Turned(old(State()), turn)
    {
      var received := Receive(turn.count);
      var produced;
      produced, crashed := HandleAll(received, turn.unprepared, turn.now);
      if crashed {
        return;
      }
      Dispatch(produced, turn);
      children := children - ReapedPids(turn.reaped);
      history := history + received;
    }

    /** What threads, health workers and the signal handler do to the supervisor. */
    method Witness(a: Action)
      requires Valid() && IsOutside(a) && Enabled(State(), a)
      modifies this, repo
      ensures Valid() && State() == Apply(old(State()), a)
    {
      ghost var s := Apply(State(), a);
      match a {
        case Fork(_, _) =>
        case SpawnSucceeds(n, pid) => repo.SendEv(PidChanged(n, pid));
        case SpawnFails(n) => repo.SendEv(SpawnFailed(n));
        case ReportHealth(n, healthy) => repo.SendEv(HealthCheck(n, healthy));
        case Terminate => sigtermReceived := true;
      }
      core, children, forked := s.core, s.children, s.forked;
    }

    /** The loop, over given turns and outside happenings, until all services have finished. */
    method Run(happenings: seq<Happening>) returns (outcome: Outcome)
      requires Valid() && CanFollow(State(), happenings)
      modifies this, repo
      ensures outcome.Panicked? <==> Followed(old(State()), happenings).phase == Crashed
      ensures Reaches(old(State()), Followed(old(State()), happenings))
      ensures !outcome.Panicked? ==>
        var t := Followed(old(State()), happenings);
        && (outcome.Exited? <==> AllHaveFinished(t.core.services))
        && (outcome.Exited? ==> outcome.status == ExitOf(t.core.services) && core == t.core
                                && repo.inbox == t.inbox + [ShuttingDownInitiated(Gracefully)])
        && (outcome.StillRunning? ==> State() == t)
    {
      ghost var origin := State();
      FollowingIsSteps(origin, happenings);
      var i := 0;
      while i < |happenings|
        invariant 0 <= i <= |happenings| && Valid()
        invariant CanFollow(State(), happenings[i..])
        invariant Followed(State(), happenings[i..]) == Followed(origin, happenings)
      {
        assert happenings[i..][0] == happenings[i] && happenings[i..][1..] == happenings[i + 1..];
        match happenings[i] {
          case TurnOf(turn) =>
            ghost var t := Turned(State(), turn);
            var crashed := Iterate(turn);
            if crashed {
              CrashedStays(t, happenings[i + 1..]);
              return Panicked;
            }
          case Outside(a) => Witness(a);
        }
        i := i + 1;
      }
      if AllHaveFinished(repo.services) {
        outcome := Exited(if AnyFinishedFailed(repo.services) then SomeServiceFailed else Successful);
        repo.SendEv(ShuttingDownInitiated(Gracefully));
      } else {
        outcome := StillRunning;
      }
    }
  }

  lemma {:induction false} PanicEndsBatch(c: Core, evs: seq<Event>, i: nat, unprepared: set<ServiceName>, now: nat)
    requires i < |evs|
    requires var b := HandleBatch(c, evs[..i], unprepared, now); !b.crashed && !CanHandle(b.core, evs[i])
    ensures HandleBatch(c, evs, unprepared, now) == HandleBatch(c, evs[..i], unprepared, now).(crashed := true)
    decreases |evs|
  {
    var most := evs[..|evs| - 1];
    assert most[..if i < |most| then i else |most|] == evs[..if i < |most| then i else |most|];
    if i < |most| {
      PanicEndsBatch(c, most, i, unprepared, now);
    }
  }
}
