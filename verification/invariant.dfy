/** What holds of every state of an orderly run: spawn threads and pids are accounted for, an exit on its way
    is that of the process its service holds, and no command on its way is stale in a way that could hurt the
    service it is for. That a process has ended does not mean that its exit is on its way (see `Reaping`). */
module Invariants {
  import opened Formats
  import opened ServiceHandlers
  import opened Repos
  import opened Queues
  import opened Machine

  /** A service has at most one spawn outstanding, and has one exactly while it is Starting,
      or InKilling with no process to kill. */
  ghost predicate SpawnInv(status: ServiceStatus, pid: Option<Pid>, spawning: nat, o: Outlook) {
    && spawning <= 1
    && !(spawning == 1 && o.report) && !o.twoReports
    && (spawning == 1 || o.report <==> status.Starting? || (status.InKilling? && pid.None?))
    && (status.Starting? ==> pid.None?)
    && (status.Started? || status.Running? ==> pid.Some?)
  }

  /** Commands computed for an earlier life of the service reach it before its next life begins. */
  ghost predicate CommandInv(status: ServiceStatus, pid: Option<Pid>, spawning: nat, o: Outlook) {
    && (status.Starting? || status.Started? || status.Running? || status.InKilling? ==> !o.failure)
    && (spawning == 1 || o.report ==> !o.force)
    && (pid.Some? && (status.Started? || status.Running? || status.InKilling?) ==> !o.run && !o.initial)
    && (status.Failed? ==> !o.run)
    && (!(status.Finished? || status.FinishedFailed?) ==> !o.failureAfterRun && !o.forceAfterRun)
    && !o.runAfterReport && !o.initialAfterReport
  }

  /** At most one exit is on its way, and it is that of the process the service holds. */
  ghost predicate ExitInv(pid: Option<Pid>, o: Outlook, children: set<Pid>) {
    && !o.twoExits
    && (o.exit ==> pid.Some? && pid.value !in children)
  }

  /** Nothing sent after a spawn report restarts the service. */
  ghost predicate OutboxInv(spawning: nat, outbox: Outlook, sending: bool) {
    spawning == 1 || !sending ==> !outbox.run && !outbox.initial
  }

  ghost predicate LocalInv(status: ServiceStatus, pid: Option<Pid>, spawning: nat, o: Outlook, children: set<Pid>) {
    SpawnInv(status, pid, spawning, o) && CommandInv(status, pid, spawning, o) && ExitInv(pid, o, children)
  }

  /** The event is about a service that exists, and asks for a status that somebody asks for. */
  ghost predicate IsKnown(e: Event, services: Services) {
    && (e.ShuttingDownInitiated? || e.name in services)
    && (e.StatusUpdate? ==> !e.status.Starting? && !e.status.Started? && !e.status.Success?)
  }

  /** The pid map and the services' own pids are inverse to each other. */
  ghost predicate PidsAgree(services: Services, pidMap: map<Pid, ServiceName>) {
    && (forall n :: n in services && services[n].pid.Some? ==>
          services[n].pid.value in pidMap && pidMap[services[n].pid.value] == n)
    && (forall p :: p in pidMap ==> pidMap[p] in services && services[pidMap[p]].pid == Some(p))
  }

  /** The pids being reported are unknown so far and distinct. */
  ghost predicate ReportsAreFresh(q: seq<Event>, pidMap: map<Pid, ServiceName>) {
    && (forall e :: e in q && e.PidChanged? ==> e.pid !in pidMap)
    && (forall e, e' :: e in q && e' in q && e.PidChanged? && e'.PidChanged? && e.pid == e'.pid ==> e == e')
  }

  ghost predicate IsReported(q: seq<Event>, p: Pid) {
    exists e :: e in q && e.PidChanged? && e.pid == p
  }

  /** The pids forked and not reported yet are unknown so far, too. */
  ghost predicate ForksAreNew(s: State) {
    forall p :: p in s.forked ==> p !in s.core.pidMap && !IsReported(s.inbox, p)
  }

  ghost predicate NamesAreKnown(s: State) {
    && IsClosed(s.core.services)
    && (forall e :: e in s.inbox ==> IsKnown(e, s.core.services))
    && (forall e :: e in s.outbox ==> IsKnown(e, s.core.services))
    && (forall n :: n in s.core.spawning ==> n in s.core.services)
  }

  /** Spawn reports come from threads only, never from the supervisor itself. */
  ghost predicate PhaseInv(s: State) {
    && s.phase != Crashed
    && (s.phase == Handling ==> s.taken <= |s.inbox|)
    && (s.phase != Handling && s.phase != Sending ==> s.outbox == [])
    && (forall e :: e in s.outbox ==> !e.PidChanged? && !e.SpawnFailed?)
  }

  ghost predicate Local(s: State, n: ServiceName)
    requires n in s.core.services
  {
    && LocalInv(s.core.services[n].status, s.core.services[n].pid, s.core.spawning[n], OutlookOf(s.Queue(), n),
        s.children)
    && OutboxInv(s.core.spawning[n], OutlookOf(s.outbox, n), s.phase == Sending)
  }

  ghost predicate Globals(s: State) {
    && NamesAreKnown(s)
    && PhaseInv(s)
    && PidsAgree(s.core.services, s.core.pidMap)
    && ReportsAreFresh(s.inbox, s.core.pidMap)
    && ForksAreNew(s)
  }

  ghost predicate Inv(s: State) {
    Globals(s) && forall n :: n in s.core.services ==> Local(s, n)
  }

  // ---------- handling one event, seen from one service ----------

  /** Before: `n` sees `ev` first and then `t`. */
  ghost predicate LocalBefore(c: Core, ev: Event, n: ServiceName, t: Outlook, children: set<Pid>) {
    && n in c.services
    && LocalInv(c.services[n].status, c.services[n].pid, c.spawning[n], Join(Single(ev, n), t), children)
  }

  /** After: `n` sees `t` and then what was produced, which restarts nobody. */
  ghost predicate LocalAfter(h: Handled, n: ServiceName, t: Outlook, children: set<Pid>) {
    var p := OutlookOf(h.produced, n);
    && n in h.core.services
    && LocalInv(h.core.services[n].status, h.core.services[n].pid, h.core.spawning[n], Join(t, p), children)
    && !p.run && !p.initial
  }

  lemma OutlookOfOne(h: Handled, n: ServiceName)
    requires |h.produced| == 1
    ensures OutlookOf(h.produced, n) == Single(h.produced[0], n)
  {
    assert h.produced == [h.produced[0]];
    OutlookOne(h.produced[0], n);
  }

  lemma ExitedKeepsLocal(c: Core, n: ServiceName, exitCode: int, t: Outlook, children: set<Pid>)
    requires CanHandle(c, ServiceExited(n, exitCode))
    requires LocalBefore(c, ServiceExited(n, exitCode), n, t, children)
    ensures LocalAfter(HandleExited(c, n, exitCode), n, t, children)
  {
    OutlookOfOne(HandleExited(c, n, exitCode), n);
  }

  lemma JoinClear(t: Outlook)
    ensures Join(t, Clear) == t == Join(Clear, t)
  {
  }

  lemma RunKeepsLocal(c: Core, n: ServiceName, prepared: bool, t: Outlook, children: set<Pid>)
    requires LocalBefore(c, Run(n), n, t, children)
    requires prepared && c.services[n].status == Initial ==> c.services[n].pid.None?
    ensures LocalAfter(HandleRun(c, n, prepared), n, t, children)
  {
    JoinClear(t);
    if c.services[n].status != Initial {
      assert LocalInv(c.services[n].status, c.services[n].pid, c.spawning[n], t, children);
    } else if prepared {
      StartKeepsLocal(c, n, t, children);
    } else {
      GiveUpKeepsLocal(c, n, t, children);
    }
  }

  lemma StartKeepsLocal(c: Core, n: ServiceName, t: Outlook, children: set<Pid>)
    requires LocalBefore(c, Run(n), n, t, children)
    requires c.services[n].status == Initial && c.services[n].pid.None?
    ensures LocalAfter(HandleRun(c, n, true), n, t, children)
  {
    var h := HandleRun(c, n, true);
    OutlookOfOne(h, n);
    JoinClear(t);
    assert h.core.services[n].status == Starting && h.core.services[n].pid.None?;
    assert h.core.spawning[n] == c.spawning[n] + 1;
    assert Single(h.produced[0], n) == Clear;
    assert LocalInv(Starting, None, c.spawning[n] + 1, t, children);
  }

  lemma GiveUpKeepsLocal(c: Core, n: ServiceName, t: Outlook, children: set<Pid>)
    requires LocalBefore(c, Run(n), n, t, children)
    requires c.services[n].status == Initial
    ensures LocalAfter(HandleRun(c, n, false), n, t, children)
  {
    hide OutlookOf;
    var h := HandleRun(c, n, false);
    var give := StatusUpdate(n, FinishedFailed);
    assert h.produced == [give] + [ShuttingDownInitiated(Gracefully)];
    OutlookConcat([give], [ShuttingDownInitiated(Gracefully)], n);
    OutlookOne(give, n);
    OutlookOne(ShuttingDownInitiated(Gracefully), n);
    assert OutlookOf(h.produced, n) == Single(give, n) by { JoinClear(Single(give, n)); }
    assert h.core.services[n].status == FinishedFailed && h.core.services[n].pid == c.services[n].pid;
    assert h.core.spawning[n] == c.spawning[n] == 0;
    assert LocalInv(FinishedFailed, c.services[n].pid, 0, Join(t, Single(give, n)), children);
  }

  lemma SpawnFailedKeepsLocal(c: Core, n: ServiceName, t: Outlook, children: set<Pid>)
    requires LocalBefore(c, SpawnFailed(n), n, t, children)
    ensures LocalAfter(HandleSpawnFailed(c, n), n, t, children)
  {
    OutlookOfOne(HandleSpawnFailed(c, n), n);
  }

  lemma KillKeepsLocal(c: Core, n: ServiceName, now: nat, t: Outlook, children: set<Pid>)
    requires LocalBefore(c, Kill(n), n, t, children)
    ensures LocalAfter(HandleKill(c, n, now), n, t, children)
  {
  }

  lemma ForceKillKeepsLocal(c: Core, n: ServiceName, t: Outlook, children: set<Pid>)
    requires LocalBefore(c, ForceKill(n), n, t, children)
    ensures LocalAfter(HandleForceKill(c, n), n, t, children)
  {
    if c.services[n].status == InKilling {
      OutlookOfOne(HandleForceKill(c, n), n);
    }
  }

  lemma PidChangedKeepsLocal(c: Core, n: ServiceName, pid: Pid, now: nat, t: Outlook, children: set<Pid>)
    requires LocalBefore(c, PidChanged(n, pid), n, t, children)
    ensures LocalAfter(HandlePidChanged(c, n, pid, now), n, t, children)
  {
    if c.services[n].status != InKilling {
      OutlookOfOne(HandlePidChanged(c, n, pid, now), n);
    }
  }

  /** The heart of the matter: a request to change the status, when its turn comes. */
  lemma UpdateKeepsLocal(sh: ServiceHandler, spawning: nat, n: ServiceName, request: ServiceStatus, t: Outlook,
        children: set<Pid>)
    requires LocalInv(sh.status, sh.pid, spawning, Join(Single(StatusUpdate(n, request), n), t), children)
    requires !request.Starting? && !request.Started? && !request.Success?
    ensures LocalInv(sh.StatusAfter(request), sh.pid, spawning, t, children)
  {
    match request
    case Initial =>
    case InKilling =>
    case Running =>
    case FinishedFailed =>
    case Failed =>
    case Finished =>
  }

  lemma StatusUpdateKeepsLocal(c: Core, n: ServiceName, status: ServiceStatus, t: Outlook, children: set<Pid>)
    requires LocalBefore(c, StatusUpdate(n, status), n, t, children)
    requires !status.Starting? && !status.Started? && !status.Success?
    ensures LocalAfter(HandleStatusUpdate(c, n, status), n, t, children)
  {
    var h := HandleStatusUpdate(c, n, status);
    UpdateKeepsLocal(c.services[n], c.spawning[n], n, status, t, children);
    JoinClear(t);
    if h.produced != [] {
      OutlookOfOne(h, n);
      assert Single(h.produced[0], n) == Clear;
    }
    assert OutlookOf(h.produced, n) == Clear;
    assert h.core.services[n].status == c.services[n].StatusAfter(status);
  }

  /** Handling any event keeps the local invariant of the service it is about,
      unless it starts that service over a process. */
  lemma QuietKeepsLocal(c: Core, ev: Event, prepared: bool, now: nat, n: ServiceName, t: Outlook, children: set<Pid>)
    requires (ev.HealthCheck? || ev.StatusChanged?) && ev.name == n
    requires LocalBefore(c, ev, n, t, children)
    ensures LocalAfter(HandleEvent(c, ev, prepared, now), n, t, children)
  {
    assert Single(ev, n) == Clear;
    JoinClear(t);
  }

  lemma HandleKeepsOwn(c: Core, ev: Event, prepared: bool, now: nat, n: ServiceName, t: Outlook, children: set<Pid>)
    requires CanHandle(c, ev) && IsKnown(ev, c.services) && !ev.ShuttingDownInitiated? && ev.name == n
    requires LocalBefore(c, ev, n, t, children)
    requires ev.Run? && prepared && c.services[n].status == Initial ==> c.services[n].pid.None?
    ensures LocalAfter(HandleEvent(c, ev, prepared, now), n, t, children)
  {
    hide LocalBefore, LocalAfter, HandleExited, HandleRun, HandleSpawnFailed, HandleKill, HandleForceKill,
        HandlePidChanged, HandleStatusUpdate;
    match ev
    case ServiceExited(_, exitCode) => ExitedKeepsLocal(c, n, exitCode, t, children);
    case Run(_) => RunKeepsLocal(c, n, prepared, t, children);
    case SpawnFailed(_) => SpawnFailedKeepsLocal(c, n, t, children);
    case Kill(_) => KillKeepsLocal(c, n, now, t, children);
    case ForceKill(_) => ForceKillKeepsLocal(c, n, t, children);
    case PidChanged(_, pid) => PidChangedKeepsLocal(c, n, pid, now, t, children);
    case StatusUpdate(_, status) => StatusUpdateKeepsLocal(c, n, status, t, children);
    case HealthCheck(_, _) => QuietKeepsLocal(c, ev, prepared, now, n, t, children);
    case StatusChanged(_, _) => QuietKeepsLocal(c, ev, prepared, now, n, t, children);
  }

  lemma OthersUntouched(c: Core, ev: Event, prepared: bool, now: nat, n: ServiceName)
    requires CanHandle(c, ev) && n in c.services && (ev.ShuttingDownInitiated? || ev.name != n)
    ensures var h := HandleEvent(c, ev, prepared, now);
            && n in h.core.services && h.core.services[n] == c.services[n] && h.core.spawning[n] == c.spawning[n]
            && forall e :: e in h.produced ==> e.ShuttingDownInitiated? || e.name != n
  {
  }

  /** Handling an event about another service, or no service, leaves `n` as it was. */
  lemma HandleKeepsOthers(c: Core, ev: Event, prepared: bool, now: nat, n: ServiceName, t: Outlook, children: set<Pid>)
    requires CanHandle(c, ev) && (ev.ShuttingDownInitiated? || ev.name != n)
    requires LocalBefore(c, ev, n, t, children)
    ensures LocalAfter(HandleEvent(c, ev, prepared, now), n, t, children)
  {
    OthersUntouched(c, ev, prepared, now, n);
    OutlookClear(HandleEvent(c, ev, prepared, now).produced, n);
    assert Join(Single(ev, n), t) == t;
    assert Join(t, Clear) == t;
  }
}
