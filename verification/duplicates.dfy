/** The bus may deliver a batch of commands late, so that the supervisor computes it again: handling a
    whole batch twice has the outcome of handling it once. */
module Duplicates {
  import opened Formats
  import opened ServiceHandlers
  import opened Repos
  import opened Commands
  import opened Emissions
  import opened Machine
  import opened Invariants
  import opened Preservation
  import opened Iterations

  // ---------- what commands do to one status ----------

  /** The status of `n` after one command. */
  function Effect(status: ServiceStatus, e: Event, n: ServiceName, unprepared: set<ServiceName>): ServiceStatus {
    match e
    case Run(m) =>
      if m == n && status == Initial then (if n in unprepared then FinishedFailed else Starting) else status
    case StatusUpdate(m, request) => if m == n then Requested(status, request) else status
    case ForceKill(m) => if m == n && status == InKilling then Failed else status
    case _ => status
  }

  function Requested(status: ServiceStatus, request: ServiceStatus): ServiceStatus {
    if request == status || !IsAllowed(status, request) then status
    else if request == InKilling && status == Initial then Success
    else request
  }

  function EffectAll(status: ServiceStatus, evs: seq<Event>, n: ServiceName,
        unprepared: set<ServiceName>): ServiceStatus {
    if evs == [] then status
    else Effect(EffectAll(status, evs[..|evs| - 1], n, unprepared), evs[|evs| - 1], n, unprepared)
  }

  lemma {:induction false} EffectConcat(status: ServiceStatus, p: seq<Event>, q: seq<Event>, n: ServiceName,
        unprepared: set<ServiceName>)
    ensures EffectAll(status, p + q, n, unprepared) == EffectAll(EffectAll(status, p, n, unprepared), q, n, unprepared)
  {
    if q == [] {
      assert p + q == p;
    } else {
      assert (p + q)[..|p + q| - 1] == p + q[..|q| - 1];
      EffectConcat(status, p, q[..|q| - 1], n, unprepared);
    }
  }

  /** Commands, as opposed to reports from the outside. */
  predicate IsCommand(e: Event) {
    e.Run? || e.Kill? || e.ForceKill? || e.StatusChanged?
    || (e.StatusUpdate? && !e.status.Starting? && !e.status.Started? && !e.status.Success?)
    || e == ShuttingDownInitiated(Gracefully)
  }

  /** Nothing but requests to kill `n`, as far as `n` is concerned. */
  ghost predicate OnlyKills(evs: seq<Event>, n: ServiceName) {
    forall e :: e in evs && !e.ShuttingDownInitiated? && e.name == n ==>
      e == StatusUpdate(n, InKilling) || e.Kill? || e.StatusChanged?
  }

  function Killed(status: ServiceStatus): ServiceStatus { Requested(status, InKilling) }

  lemma {:induction false} KillsOnly(status: ServiceStatus, evs: seq<Event>, n: ServiceName,
        unprepared: set<ServiceName>)
    requires OnlyKills(evs, n)
    ensures EffectAll(status, evs, n, unprepared)
      == if StatusUpdate(n, InKilling) in evs then Killed(status) else status
  {
    if evs != [] {
      var most, last := evs[..|evs| - 1], evs[|evs| - 1];
      assert evs == most + [last];
      assert forall e :: e in most ==> e in evs;
      assert last in evs;
      hide Effect, Killed;
      KillsOnly(status, most, n, unprepared);
      OneKill(status, last, n, unprepared);
      OneKill(Killed(status), last, n, unprepared);
    }
  }

  lemma OneKill(status: ServiceStatus, e: Event, n: ServiceName, unprepared: set<ServiceName>)
    requires !e.ShuttingDownInitiated? && e.name == n ==> e == StatusUpdate(n, InKilling) || e.Kill? || e.StatusChanged?
    ensures Effect(status, e, n, unprepared) == if e == StatusUpdate(n, InKilling) then Killed(status) else status
    ensures Killed(Killed(status)) == Killed(status)
  {
  }

  // ---------- the shape of a batch, seen from one service ----------

  /** The one command for itself that a service in this status may get. */
  predicate IsOwn(status: ServiceStatus, e: Event, n: ServiceName) {
    match status
    case Initial => e == Run(n) || e == StatusUpdate(n, Finished)
    case Started => e == StatusUpdate(n, Running)
    case Success => e == StatusUpdate(n, Initial) || e == StatusUpdate(n, Finished)
    case Failed => e == StatusUpdate(n, Initial) || e == StatusUpdate(n, FinishedFailed)
    case InKilling => e == ForceKill(n)
    case _ => false
  }

  ghost predicate HasShape(evs: seq<Event>, status: ServiceStatus, n: ServiceName, before: seq<Event>,
        own: seq<Event>, after: seq<Event>) {
    && evs == before + own + after
    && OnlyKills(before, n) && OnlyKills(after, n)
    && (own == [] || (|own| == 1 && IsOwn(status, own[0], n)))
  }

  lemma OthersOnlyKill(services: Services, order: seq<ServiceName>, m: ServiceName, lifecycle: LifecycleStatus,
        now: nat, n: ServiceName)
    requires IsClosed(services) && IsIterationOrder(order, services) && m in services && m != n
    ensures OnlyKills(Next(services, order, m, lifecycle, now), n)
  {
    hide KillCommands, GetDependents, GetDieIfFailed, IsClosed, IsIterationOrder;
    if lifecycle == Active && services[m].status == Failed {
      FailedOnlyKills(services, order, m, now, n);
    }
  }

  lemma FailedOnlyKills(services: Services, order: seq<ServiceName>, m: ServiceName, now: nat, n: ServiceName)
    requires IsClosed(services) && IsIterationOrder(order, services) && m in services && m != n
    requires services[m].status == Failed
    ensures OnlyKills(NextEvents(services, order, m, now), n)
  {
    hide KillCommands, GetDependents, GetDieIfFailed, IsClosed;
    var dependents, dying := GetDependents(services, order, m), GetDieIfFailed(services, order, m);
    KillsOnlyKill(dependents, n);
    KillsOnlyKill(dying, n);
  }

  lemma KillsOnlyKill(names: seq<ServiceName>, n: ServiceName)
    ensures OnlyKills(KillCommands(names), n)
  {
    forall e | e in KillCommands(names) ensures e.Kill? || (e.StatusUpdate? && e.status == InKilling) {
      KillCommandsHold(names, e);
    }
  }

  lemma {:induction false} SomeOnlyKill(services: Services, order: seq<ServiceName>, some: seq<ServiceName>,
        lifecycle: LifecycleStatus, now: nat, n: ServiceName)
    requires IsClosed(services) && IsIterationOrder(order, services)
    requires forall m :: m in some ==> m in services
    requires n !in some
    ensures OnlyKills(NextAll(services, order, some, lifecycle, now), n)
  {
    if some != [] {
      OthersOnlyKill(services, order, some[0], lifecycle, now, n);
      SomeOnlyKill(services, order, some[1..], lifecycle, now, n);
    }
  }

  lemma {:induction false} NextAllConcat(services: Services, order: seq<ServiceName>, p: seq<ServiceName>,
        q: seq<ServiceName>, lifecycle: LifecycleStatus, now: nat)
    requires IsClosed(services) && IsIterationOrder(order, services)
    requires forall m :: m in p + q ==> m in services
    requires forall m :: m in p ==> m in services
    requires forall m :: m in q ==> m in services
    ensures NextAll(services, order, p + q, lifecycle, now) == NextAll(services, order, p, lifecycle, now)
        + NextAll(services, order, q, lifecycle, now)
  {
    if p == [] {
      assert p + q == q;
    } else {
      assert (p + q)[1..] == p[1..] + q && (p + q)[0] == p[0];
      NextAllConcat(services, order, p[1..], q, lifecycle, now);
    }
  }

  lemma OwnShape(services: Services, order: seq<ServiceName>, n: ServiceName, lifecycle: LifecycleStatus, now: nat)
    returns (before: seq<Event>, own: seq<Event>, after: seq<Event>)
    requires IsClosed(services) && IsIterationOrder(order, services) && n in services
    ensures HasShape(Next(services, order, n, lifecycle, now), services[n].status, n, before, own, after)
  {
    var sh := services[n];
    var evs := Next(services, order, n, lifecycle, now);
    if lifecycle == Active && sh.status == Failed {
      before, own, after := FailedShape(services, order, n, now);
    } else if |evs| == 2 && evs[0].StatusUpdate? {
      before, own, after := evs, [], [];
    } else if evs == [] {
      before, own, after := [], [], [];
    } else {
      before, own, after := [], [evs[0]], evs[1..];
    }
  }

  lemma FailedShape(services: Services, order: seq<ServiceName>, n: ServiceName, now: nat)
    returns (before: seq<Event>, own: seq<Event>, after: seq<Event>)
    requires IsClosed(services) && IsIterationOrder(order, services) && n in services && services[n].status == Failed
    ensures HasShape(NextEvents(services, order, n, now), Failed, n, before, own, after)
  {
    var sh := services[n];
    var dependents, dying := GetDependents(services, order, n), GetDieIfFailed(services, order, n);
    KillsOnlyKill(dependents, n);
    KillsOnlyKill(dying, n);
    before := HandleFailedService(dependents, sh.service);
    own := [StatusUpdate(n, HandleRestartStrategy(sh, true))];
    after := KillCommands(dying);
  }

  lemma SplitOrder(services: Services, order: seq<ServiceName>, n: ServiceName)
    returns (p: seq<ServiceName>, q: seq<ServiceName>)
    requires IsIterationOrder(order, services) && n in services
    ensures order == p + ([n] + q) && n !in p && n !in q
    ensures forall m :: m in p || m in q ==> m in services
  {
    var j :| 0 <= j < |order| && order[j] == n;
    p, q := order[..j], order[j + 1..];
    forall m | m in p || m in q ensures m in order && m != n {
    }
  }

  lemma NextAllMiddle(services: Services, order: seq<ServiceName>, p: seq<ServiceName>, n: ServiceName,
        q: seq<ServiceName>, lifecycle: LifecycleStatus, now: nat)
    requires IsClosed(services) && IsIterationOrder(order, services)
    requires n in services && forall m :: m in p || m in q ==> m in services
    ensures NextAll(services, order, p + ([n] + q), lifecycle, now)
      == NextAll(services, order, p, lifecycle, now)
         + (Next(services, order, n, lifecycle, now) + NextAll(services, order, q, lifecycle, now))
  {
    hide Next, IsClosed, IsIterationOrder;
    assert ([n] + q)[1..] == q;
    NextAllConcat(services, order, p, [n] + q, lifecycle, now);
  }

  lemma SplitBatch(services: Services, order: seq<ServiceName>, lifecycle: LifecycleStatus, now: nat, n: ServiceName)
    returns (u: seq<Event>, v: seq<Event>)
    requires IsClosed(services) && IsIterationOrder(order, services) && n in services
    ensures NextAll(services, order, order, lifecycle, now) == u + (Next(services, order, n, lifecycle, now) + v)
    ensures OnlyKills(u, n) && OnlyKills(v, n)
  {
    hide *;
    var p, q := SplitOrder(services, order, n);
    NextAllMiddle(services, order, p, n, q, lifecycle, now);
    SomeOnlyKill(services, order, p, lifecycle, now, n);
    SomeOnlyKill(services, order, q, lifecycle, now, n);
    u, v := NextAll(services, order, p, lifecycle, now), NextAll(services, order, q, lifecycle, now);
  }

  lemma WidenShape(evs: seq<Event>, status: ServiceStatus, n: ServiceName, before: seq<Event>, own: seq<Event>,
        after: seq<Event>, u: seq<Event>, v: seq<Event>)
    requires HasShape(evs, status, n, before, own, after) && OnlyKills(u, n) && OnlyKills(v, n)
    ensures HasShape(u + (evs + v), status, n, u + before, own, after + v)
  {
    assert u + ((before + own + after) + v) == (u + before) + own + (after + v);
  }

  lemma BatchShape(services: Services, order: seq<ServiceName>, lifecycle: LifecycleStatus, now: nat, n: ServiceName)
    returns (before: seq<Event>, own: seq<Event>, after: seq<Event>)
    requires IsClosed(services) && IsIterationOrder(order, services) && n in services
    ensures HasShape(NextAll(services, order, order, lifecycle, now), services[n].status, n, before, own, after)
  {
    var u, v := SplitBatch(services, order, lifecycle, now, n);
    var b, o, a := OwnShape(services, order, n, lifecycle, now);
    WidenShape(Next(services, order, n, lifecycle, now), services[n].status, n, b, o, a, u, v);
    before, own, after := u + b, o, a + v;
  }

  // ---------- one service ----------

  /** A batch of that shape does to a status what it does when repeated, and a second time starts nothing. */
  lemma ShapeRepeats(evs: seq<Event>, status: ServiceStatus, n: ServiceName, unprepared: set<ServiceName>,
                     again: set<ServiceName>, before: seq<Event>, own: seq<Event>, after: seq<Event>)
    requires HasShape(evs, status, n, before, own, after)
    ensures var once := EffectAll(status, evs, n, unprepared);
      && EffectAll(once, evs, n, again) == once
      && (own == [Run(n)] ==> EffectAll(once, before, n, again) != Initial)
  {
    hide EffectAll;
    var once := EffectAll(status, evs, n, unprepared);
    ShapeEffect(evs, status, status, n, unprepared, before, own, after);
    ShapeEffect(evs, status, once, n, again, before, own, after);
    KillsOnly(once, before, n, again);
  }

  function ApplyShape(status: ServiceStatus, n: ServiceName, unprepared: set<ServiceName>, killedBefore: bool,
        own: seq<Event>, killedAfter: bool): ServiceStatus
    requires |own| <= 1
  {
    var first := if killedBefore then Killed(status) else status;
    var second := if own == [] then first else Effect(first, own[0], n, unprepared);
    if killedAfter then Killed(second) else second
  }

  lemma ShapeEffect(evs: seq<Event>, origin: ServiceStatus, status: ServiceStatus, n: ServiceName,
        unprepared: set<ServiceName>,
                    before: seq<Event>, own: seq<Event>, after: seq<Event>)
    requires HasShape(evs, origin, n, before, own, after)
    ensures EffectAll(status, evs, n, unprepared)
      == ApplyShape(status, n, unprepared, StatusUpdate(n, InKilling) in before, own,
                    StatusUpdate(n, InKilling) in after)
  {
    EffectConcat(status, before + own, after, n, unprepared);
    EffectConcat(status, before, own, n, unprepared);
    KillsOnly(status, before, n, unprepared);
    var first := EffectAll(status, before, n, unprepared);
    if own != [] {
      assert own == [own[0]] && own[..0] == [];
      assert EffectAll(first, own, n, unprepared) == Effect(first, own[0], n, unprepared);
    }
    KillsOnly(EffectAll(first, own, n, unprepared), after, n, unprepared);
  }

  // ---------- the whole state ----------

  lemma CommandEffect(c: Core, e: Event, unprepared: set<ServiceName>, now: nat, n: ServiceName)
    requires IsCommand(e) && CanHandle(c, e) && n in c.services
    ensures var d := HandleEvent(c, e, IsPrepared(e, unprepared), now).core;
      && d.services.Keys == c.services.Keys
      && d.services[n].status == Effect(c.services[n].status, e, n, unprepared)
      && d.services[n].pid == c.services[n].pid
      && d.services[n].restartAttempts == c.services[n].restartAttempts
      && d.pidMap == c.pidMap
  {
    hide HandleEvent;
    CommandKeys(c, e, unprepared, now);
    if e.ShuttingDownInitiated? || e.name != n {
      OthersUntouched(c, e, IsPrepared(e, unprepared), now, n);
    } else {
      OwnEffect(c, e, unprepared, now);
    }
  }

  lemma OwnEffect(c: Core, e: Event, unprepared: set<ServiceName>, now: nat)
    requires IsCommand(e) && CanHandle(c, e) && !e.ShuttingDownInitiated? && e.name in c.services
    ensures var d := HandleEvent(c, e, IsPrepared(e, unprepared), now).core;
      && e.name in d.services
      && d.services[e.name].status == Effect(c.services[e.name].status, e, e.name, unprepared)
      && d.services[e.name].pid == c.services[e.name].pid
      && d.services[e.name].restartAttempts == c.services[e.name].restartAttempts
  {
  }

  lemma CommandKeys(c: Core, e: Event, unprepared: set<ServiceName>, now: nat)
    requires IsCommand(e) && CanHandle(c, e)
    ensures var d := HandleEvent(c, e, IsPrepared(e, unprepared), now).core;
      d.services.Keys == c.services.Keys && d.pidMap == c.pidMap
  {
    hide HandleEvent;
    HandleKeepsKeys(c, e, IsPrepared(e, unprepared), now);
    HandleMapsPids(c, e, IsPrepared(e, unprepared), now);
  }

  ghost predicate AllCommands(evs: seq<Event>, services: Services) {
    forall e :: e in evs ==> IsCommand(e) && (e.ShuttingDownInitiated? || e.name in services)
  }

  /** A batch of commands is handled to the end, and does to each service what its commands do. */
  lemma {:induction false} BatchEffect(c: Core, evs: seq<Event>, unprepared: set<ServiceName>, now: nat)
    requires AllCommands(evs, c.services)
    ensures var b := HandleBatch(c, evs, unprepared, now);
      && !b.crashed && b.core.services.Keys == c.services.Keys && b.core.pidMap == c.pidMap
      && forall n :: n in c.services ==>
        && b.core.services[n].status == EffectAll(c.services[n].status, evs, n, unprepared)
        && b.core.services[n].pid == c.services[n].pid
        && b.core.services[n].restartAttempts == c.services[n].restartAttempts
  {
    if evs != [] {
      var most, last := evs[..|evs| - 1], evs[|evs| - 1];
      assert last in evs;
      assert forall e :: e in most ==> e in evs;
      BatchEffect(c, most, unprepared, now);
      var b := HandleBatch(c, most, unprepared, now);
      CommandKeys(b.core, last, unprepared, now);
      forall n | n in c.services
        ensures var d := HandleLast(b, last, unprepared, now).core;
          && d.services[n].status == EffectAll(c.services[n].status, evs, n, unprepared)
          && d.services[n].pid == c.services[n].pid
          && d.services[n].restartAttempts == c.services[n].restartAttempts
      {
        CommandEffect(b.core, last, unprepared, now, n);
      }
    }
  }

  /** What the whole batch needs to repeat: no service it runs is Initial when its turn comes. */
  ghost predicate RunsNobody(c: Core, evs: seq<Event>, unprepared: set<ServiceName>) {
    forall k :: 0 <= k < |evs| && evs[k].Run? && evs[k].name in c.services ==>
      EffectAll(c.services[evs[k].name].status, evs[..k], evs[k].name, unprepared) != Initial
  }

  lemma HandledQuietly(c: Core, e: Event, unprepared: set<ServiceName>, now: nat)
    requires IsCommand(e) && CanHandle(c, e)
    requires e.Run? ==> c.services[e.name].status != Initial
    ensures var d := HandleEvent(c, e, IsPrepared(e, unprepared), now).core;
      && d.spawns == c.spawns && d.spawning == c.spawning
      && d.lifecycle == if e.ShuttingDownInitiated? then ShuttingDown(Gracefully) else c.lifecycle
  {
  }

  lemma {:induction false} BatchSpawnsNobody(c: Core, evs: seq<Event>, unprepared: set<ServiceName>, now: nat)
    requires AllCommands(evs, c.services) && RunsNobody(c, evs, unprepared)
    requires ShuttingDownInitiated(Gracefully) in evs ==> c.lifecycle == ShuttingDown(Gracefully)
    ensures var d := HandleBatch(c, evs, unprepared, now).core;
      d.spawns == c.spawns && d.spawning == c.spawning && d.lifecycle == c.lifecycle
  {
    if evs != [] {
      var most, last := evs[..|evs| - 1], evs[|evs| - 1];
      assert last in evs;
      assert forall e :: e in most ==> e in evs;
      forall k | 0 <= k < |most| && most[k].Run? && most[k].name in c.services
        ensures EffectAll(c.services[most[k].name].status, most[..k], most[k].name, unprepared) != Initial
      {
        assert most[..k] == evs[..k] && most[k] == evs[k];
      }
      BatchSpawnsNobody(c, most, unprepared, now);
      BatchEffect(c, most, unprepared, now);
      assert evs[..|evs| - 1] == most;
      HandledQuietly(HandleBatch(c, most, unprepared, now).core, last, unprepared, now);
    }
  }

  lemma {:induction false} BatchShutsDown(c: Core, evs: seq<Event>, unprepared: set<ServiceName>, now: nat)
    requires AllCommands(evs, c.services)
    ensures ShuttingDownInitiated(Gracefully) in evs && !c.lifecycle.ShuttingDown?
      ==> HandleBatch(c, evs, unprepared, now).core.lifecycle == ShuttingDown(Gracefully)
    ensures !c.lifecycle.ShuttingDown? ==>
              HandleBatch(c, evs, unprepared, now).core.lifecycle != ShuttingDown(Forcefully)
  {
    if evs != [] {
      var most, last := evs[..|evs| - 1], evs[|evs| - 1];
      assert last in evs;
      assert forall e :: e in most ==> e in evs;
      assert evs == most + [last];
      BatchShutsDown(c, most, unprepared, now);
      BatchEffect(c, most, unprepared, now);
      ModeAfter(HandleBatch(c, most, unprepared, now).core, last, unprepared, now);
    }
  }

  lemma ModeAfter(c: Core, e: Event, unprepared: set<ServiceName>, now: nat)
    requires IsCommand(e) && CanHandle(c, e)
    ensures HandleEvent(c, e, IsPrepared(e, unprepared), now).core.lifecycle in {c.lifecycle, ShuttingDown(Gracefully)}
    ensures e.ShuttingDownInitiated? ==>
        HandleEvent(c, e, IsPrepared(e, unprepared), now).core.lifecycle == ShuttingDown(Gracefully)
  {
  }

  /** The outcome of two states is the same for the services, their processes and the threads started. */
  ghost predicate SameOutcome(c: Core, d: Core) {
    && c.services.Keys == d.services.Keys
    && (forall n :: n in c.services ==>
          && c.services[n].status == d.services[n].status
          && c.services[n].pid == d.services[n].pid
          && c.services[n].restartAttempts == d.services[n].restartAttempts)
    && c.pidMap == d.pidMap && c.lifecycle == d.lifecycle && c.spawns == d.spawns && c.spawning == d.spawning
  }

  lemma CommandsAreCommands(services: Services, order: seq<ServiceName>, lifecycle: LifecycleStatus, now: nat)
    requires IsClosed(services) && IsIterationOrder(order, services)
    ensures AllCommands(NextAll(services, order, order, lifecycle, now), services)
    ensures lifecycle.ShuttingDown? ==>
        ShuttingDownInitiated(Gracefully) !in NextAll(services, order, order, lifecycle, now)
  {
    NextAllIsJustified(services, order, order, lifecycle, now);
  }

  /** A service's own Run is the only Run for it in the batch. */
  lemma OwnRun(evs: seq<Event>, status: ServiceStatus, n: ServiceName, before: seq<Event>, own: seq<Event>,
        after: seq<Event>, k: nat)
    requires HasShape(evs, status, n, before, own, after) && k < |evs| && evs[k] == Run(n)
    ensures own == [Run(n)] && evs[..k] == before
  {
    NoRunAmongKills(before, n);
    NoRunAmongKills(after, n);
    assert evs[..|before|] == before;
  }

  lemma NoRunAmongKills(evs: seq<Event>, n: ServiceName)
    requires OnlyKills(evs, n)
    ensures forall i :: 0 <= i < |evs| ==> evs[i] != Run(n)
  {
    forall i | 0 <= i < |evs| ensures evs[i] != Run(n) {
      assert evs[i] in evs;
    }
  }

  /** Handling the commands computed for all services twice, in whatever order the services come, has the
      same outcome as handling them once: same statuses, pids, counters, lifecycle and spawns. This includes
      batches in which failing services kill each other. `again` are the services that cannot be prepared the
      second time. */
  lemma HandlingTwiceIsHandlingOnce(c: Core, order: seq<ServiceName>, unprepared: set<ServiceName>,
                                    again: set<ServiceName>, now: nat, later: nat, muchLater: nat)
    requires IsClosed(c.services) && IsIterationOrder(order, c.services)
    ensures var batch := NextAll(c.services, order, order, c.lifecycle, now);
      var once := HandleBatch(c, batch, unprepared, later);
      var twice := HandleBatch(once.core, batch, again, muchLater);
      !once.crashed && !twice.crashed && SameOutcome(once.core, twice.core)
  {
    var batch := NextAll(c.services, order, order, c.lifecycle, now);
    CommandsAreCommands(c.services, order, c.lifecycle, now);
    BatchEffect(c, batch, unprepared, later);
    var once := HandleBatch(c, batch, unprepared, later).core;
    BatchEffect(once, batch, again, muchLater);
    BatchShutsDown(c, batch, unprepared, later);
    forall n | n in c.services
      ensures EffectAll(once.services[n].status, batch, n, again) == once.services[n].status
    {
      var before, own, after := BatchShape(c.services, order, c.lifecycle, now, n);
      ShapeRepeats(batch, c.services[n].status, n, unprepared, again, before, own, after);
    }
    SecondRunsNobody(c, order, unprepared, again, now, later);
    BatchSpawnsNobody(once, batch, again, muchLater);
  }

  lemma SecondRunsNobody(c: Core, order: seq<ServiceName>, unprepared: set<ServiceName>, again: set<ServiceName>,
                         now: nat, later: nat)
    requires IsClosed(c.services) && IsIterationOrder(order, c.services)
    ensures var batch := NextAll(c.services, order, order, c.lifecycle, now);
      RunsNobody(HandleBatch(c, batch, unprepared, later).core, batch, again)
  {
    var batch := NextAll(c.services, order, order, c.lifecycle, now);
    CommandsAreCommands(c.services, order, c.lifecycle, now);
    BatchEffect(c, batch, unprepared, later);
    var once := HandleBatch(c, batch, unprepared, later).core;
    forall k | 0 <= k < |batch| && batch[k].Run? && batch[k].name in once.services
      ensures EffectAll(once.services[batch[k].name].status, batch[..k], batch[k].name, again) != Initial
    {
      var n := batch[k].name;
      var before, own, after := BatchShape(c.services, order, c.lifecycle, now, n);
      OwnRun(batch, c.services[n].status, n, before, own, after, k);
      ShapeRepeats(batch, c.services[n].status, n, unprepared, again, before, own, after);
    }
  }
}
