/** How a system comes up when nothing goes wrong: wave by wave, in each wave all services whose dependencies
    are up. Used to show that a state is reachable. */
module BringUp {
  import opened Formats
  import opened ServiceHandlers
  import opened Repos
  import opened Commands
  import opened Machine
  import opened Iterations
  import opened Duplicates

  // ---------- one event for each of many services ----------

  datatype Kind = KRun | KStarting | KPid | KStarted | KHealth | KToRunning | KRunning | KFinish | KFinished

  function EventOf(k: Kind, n: ServiceName, p: Pid): Event {
    match k
    case KRun => Run(n)
    case KStarting => StatusChanged(n, Starting)
    case KPid => PidChanged(n, p)
    case KStarted => StatusChanged(n, Started)
    case KHealth => HealthCheck(n, true)
    case KToRunning => StatusUpdate(n, Running)
    case KRunning => StatusChanged(n, Running)
    case KFinish => StatusUpdate(n, Finished)
    case KFinished => StatusChanged(n, Finished)
  }

  /** The pids, where they matter, count up from `top`. */
  function Each(k: Kind, ns: seq<ServiceName>, top: Pid): (evs: seq<Event>)
    ensures |evs| == |ns|
  {
    if ns == [] then []
    else Each(k, ns[..|ns| - 1], top) + [EventOf(k, ns[|ns| - 1], top + |ns| - 1)]
  }

  lemma {:induction false} EachAt(k: Kind, ns: seq<ServiceName>, top: Pid, i: nat)
    requires i < |ns|
    ensures Each(k, ns, top)[i] == EventOf(k, ns[i], top + i)
  {
    if i < |ns| - 1 {
      EachAt(k, ns[..|ns| - 1], top, i);
    }
  }

  /** What a service must be like for the event to do its part. */
  predicate IsReady(k: Kind, sh: ServiceHandler) {
    match k
    case KRun | KFinish => sh.status == Initial
    case KPid => sh.status == Starting
    case KHealth => sh.status == Started && sh.healthinessChecksFailed.None?
    case KToRunning => sh.status == Started
    case _ => true
  }

  function StepOf(k: Kind, sh: ServiceHandler, p: Pid): ServiceHandler {
    match k
    case KRun => sh.(status := Starting)
    case KPid => sh.(status := Started, pid := Some(p))
    case KHealth => sh.(healthinessChecksFailed := Some(0))
    case KToRunning => sh.(status := Running)
    case KFinish => sh.(status := Finished)
    case _ => sh
  }

  function Answers(k: Kind, ns: seq<ServiceName>, top: Pid): seq<Event> {
    match k
    case KRun => Each(KStarting, ns, top)
    case KPid => Each(KStarted, ns, top)
    case KToRunning => Each(KRunning, ns, top)
    case KFinish => Each(KFinished, ns, top)
    case _ => []
  }

  lemma AnswersGrow(k: Kind, ns: seq<ServiceName>, top: Pid)
    requires ns != []
    ensures Answers(k, ns, top) == Answers(k, ns[..|ns| - 1], top) + Answers(k, [ns[|ns| - 1]], top + |ns| - 1)
  {
    var n, p := ns[|ns| - 1], top + |ns| - 1;
    assert [n][..0] == [];
    assert Each(KStarting, [n], p) == [EventOf(KStarting, n, p)] && Each(KStarted, [n], p) == [EventOf(KStarted, n, p)];
    assert Each(KRunning, [n], p) == [EventOf(KRunning, n, p)] && Each(KFinished, [n], p) == [EventOf(KFinished, n, p)];
  }

  /** The services after the events. */
  function Moved(k: Kind, services: Services, ns: seq<ServiceName>, top: Pid): Services {
    if ns == [] then services
    else
      var most := Moved(k, services, ns[..|ns| - 1], top);
      var n := ns[|ns| - 1];
      if n in most then most[n := StepOf(k, most[n], top + |ns| - 1)] else most
  }

  ghost predicate AreDistinct(ns: seq<ServiceName>) {
    forall i, j :: 0 <= i < j < |ns| ==> ns[i] != ns[j]
  }

  lemma {:induction false} MovedKeeps(k: Kind, services: Services, ns: seq<ServiceName>, top: Pid)
    requires forall n :: n in ns ==> n in services
    ensures Moved(k, services, ns, top).Keys == services.Keys
    ensures forall n :: n in services && n !in ns ==> Moved(k, services, ns, top)[n] == services[n]
  {
    hide StepOf;
    if ns != [] {
      var most, n := ns[..|ns| - 1], ns[|ns| - 1];
      assert ns == most + [n];
      MovedKeeps(k, services, most, top);
    }
  }

  lemma {:induction false} MovedOne(k: Kind, services: Services, ns: seq<ServiceName>, top: Pid, i: nat)
    requires AreDistinct(ns) && (forall n :: n in ns ==> n in services) && i < |ns|
    ensures ns[i] in Moved(k, services, ns, top)
    ensures Moved(k, services, ns, top)[ns[i]] == StepOf(k, services[ns[i]], top + i)
  {
    hide StepOf;
    var most, n := ns[..|ns| - 1], ns[|ns| - 1];
    assert ns == most + [n] && n !in most;
    MovedKeeps(k, services, most, top);
    if i < |most| {
      assert most[i] == ns[i] && most[i] in most;
      MovedOne(k, services, most, top, i);
    }
  }

  lemma MovedAt(k: Kind, services: Services, ns: seq<ServiceName>, top: Pid)
    requires AreDistinct(ns) && forall n :: n in ns ==> n in services
    ensures Moved(k, services, ns, top).Keys == services.Keys
    ensures forall n :: n in services && n !in ns ==> Moved(k, services, ns, top)[n] == services[n]
    ensures forall i :: 0 <= i < |ns| ==> Moved(k, services, ns, top)[ns[i]] == StepOf(k, services[ns[i]], top + i)
  {
    hide StepOf, Moved, AreDistinct;
    MovedKeeps(k, services, ns, top);
    forall i | 0 <= i < |ns| ensures Moved(k, services, ns, top)[ns[i]] == StepOf(k, services[ns[i]], top + i) {
      MovedOne(k, services, ns, top, i);
    }
  }

  /** `h` is the outcome of such an event for `n`. */
  ghost predicate DoesPart(c: Core, h: Handled, k: Kind, n: ServiceName, p: Pid)
    requires n in c.services
  {
    && h.core.services == c.services[n := StepOf(k, c.services[n], p)]
    && h.core.lifecycle == c.lifecycle && h.core.sigterm == c.sigterm
    && h.core.spawning == c.spawning + (if k == KRun then multiset{n} else multiset{})
    && h.core.pidMap == (if k == KPid then c.pidMap[p := n] else c.pidMap)
    && h.produced == Answers(k, [n], p)
  }

  lemma OneEach(k: Kind, n: ServiceName, p: Pid)
    ensures Each(k, [n], p) == [EventOf(k, n, p)]
  {
    assert [n][..0] == [];
  }

  lemma RunDoesPart(c: Core, n: ServiceName, p: Pid)
    requires n in c.services && IsReady(KRun, c.services[n])
    ensures DoesPart(c, HandleRun(c, n, true), KRun, n, p)
  {
    hide SpawnDelay, Each;
    OneEach(KStarting, n, p);
  }

  lemma ReportDoesPart(c: Core, n: ServiceName, p: Pid, now: nat)
    requires n in c.services && IsReady(KPid, c.services[n])
    ensures DoesPart(c, HandlePidChanged(c, n, p, now), KPid, n, p)
  {
    hide Each;
    OneEach(KStarted, n, p);
    assert c.spawning + multiset{} == c.spawning;
  }

  lemma UpdateDoesPart(c: Core, k: Kind, n: ServiceName, p: Pid)
    requires n in c.services && IsReady(k, c.services[n]) && (k == KToRunning || k == KFinish)
    ensures DoesPart(c, HandleStatusUpdate(c, n, if k == KFinish then Finished else Running), k, n, p)
  {
    hide Each;
    OneEach(KRunning, n, p);
    OneEach(KFinished, n, p);
    assert c.spawning + multiset{} == c.spawning;
  }

  lemma NewsDoesPart(c: Core, k: Kind, n: ServiceName, p: Pid)
    requires n in c.services && IsReady(k, c.services[n])
    requires k == KStarting || k == KStarted || k == KRunning || k == KFinished
    ensures DoesPart(c, Handled(c, []), k, n, p)
  {
    assert c.spawning + multiset{} == c.spawning && c.services[n := c.services[n]] == c.services;
  }

  lemma OneMoves(c: Core, k: Kind, n: ServiceName, p: Pid, now: nat)
    requires n in c.services && IsReady(k, c.services[n])
    ensures CanHandle(c, EventOf(k, n, p)) && DoesPart(c, HandleEvent(c, EventOf(k, n, p), true, now), k, n, p)
  {
    match k {
      case KRun => RunDoesPart(c, n, p);
      case KPid => ReportDoesPart(c, n, p, now);
      case KHealth => assert c.spawning + multiset{} == c.spawning;
      case KToRunning => UpdateDoesPart(c, k, n, p);
      case KFinish => UpdateDoesPart(c, k, n, p);
      case _ => NewsDoesPart(c, k, n, p);
    }
  }

  lemma MovedOnce(k: Kind, services: Services, ns: seq<ServiceName>, top: Pid)
    requires ns != [] && ns[|ns| - 1] in Moved(k, services, ns[..|ns| - 1], top)
    ensures var most, n := Moved(k, services, ns[..|ns| - 1], top), ns[|ns| - 1];
      Moved(k, services, ns, top) == most[n := StepOf(k, most[n], top + |ns| - 1)]
  {
    hide StepOf;
  }

  lemma MovedGrows(k: Kind, services: Services, ns: seq<ServiceName>, top: Pid)
    requires ns != [] && AreDistinct(ns) && forall n :: n in ns ==> n in services
    ensures var most, n := Moved(k, services, ns[..|ns| - 1], top), ns[|ns| - 1];
      && n in most && most[n] == services[n]
      && Moved(k, services, ns, top) == most[n := StepOf(k, services[n], top + |ns| - 1)]
  {
    hide StepOf, Moved;
    var most, n := ns[..|ns| - 1], ns[|ns| - 1];
    assert ns == most + [n] && n !in most;
    MovedAt(k, services, most, top);
    MovedOnce(k, services, ns, top);
  }

  ghost predicate AllReady(k: Kind, services: Services, ns: seq<ServiceName>) {
    AreDistinct(ns) && forall n :: n in ns ==> n in services && IsReady(k, services[n])
  }

  /** `b` is the outcome of such events for all of `ns`. */
  ghost predicate IsDone(c: Core, b: Batch, k: Kind, ns: seq<ServiceName>, top: Pid) {
    && !b.crashed && b.core.services == Moved(k, c.services, ns, top)
    && b.core.lifecycle == c.lifecycle && b.core.sigterm == c.sigterm
    && b.core.spawning == c.spawning + (if k == KRun then multiset(ns) else multiset{})
    && (forall p :: p in b.core.pidMap ==> p in c.pidMap || (k == KPid && top <= p < top + |ns|))
    && b.produced == Answers(k, ns, top)
  }

  lemma OneMoreIsDone(c: Core, b: Batch, k: Kind, ns: seq<ServiceName>, top: Pid, now: nat)
    requires ns != [] && AllReady(k, c.services, ns) && IsDone(c, b, k, ns[..|ns| - 1], top)
    ensures IsDone(c, HandleLast(b, EventOf(k, ns[|ns| - 1], top + |ns| - 1), {}, now), k, ns, top)
  {
    hide HandleEvent, StepOf, EventOf, Answers, Moved, IsReady;
    var most, n, p := ns[..|ns| - 1], ns[|ns| - 1], top + |ns| - 1;
    assert ns == most + [n];
    MovedGrows(k, c.services, ns, top);
    OneMoves(b.core, k, n, p, now);
    AnswersGrow(k, ns, top);
    AlwaysPrepared(EventOf(k, n, p));
    assert c.spawning + multiset{} == c.spawning;
  }

  /** A batch of such events does its part for every service. */
  lemma {:induction false} BatchMoves(c: Core, k: Kind, ns: seq<ServiceName>, top: Pid, now: nat)
    requires AllReady(k, c.services, ns)
    ensures IsDone(c, HandleBatch(c, Each(k, ns, top), {}, now), k, ns, top)
  {
    if ns == [] {
      NothingIsDone(c, k, top, now);
    } else {
      hide HandleEvent, HandleLast, IsReady, IsDone, EventOf;
      var most, evs := ns[..|ns| - 1], Each(k, ns, top);
      assert evs[..|evs| - 1] == Each(k, most, top) && evs[|evs| - 1] == EventOf(k, ns[|ns| - 1], top + |ns| - 1);
      assert forall n :: n in most ==> n in ns;
      BatchMoves(c, k, most, top, now);
      OneMoreIsDone(c, HandleBatch(c, Each(k, most, top), {}, now), k, ns, top, now);
    }
  }

  lemma NothingIsDone(c: Core, k: Kind, top: Pid, now: nat)
    ensures IsDone(c, HandleBatch(c, Each(k, [], top), {}, now), k, [], top)
  {
  }

  lemma AlwaysPrepared(e: Event)
    ensures IsPrepared(e, {})
  {
  }

  /** Announcements are ignored. */
  lemma {:induction false} Ignored(c: Core, k: Kind, ns: seq<ServiceName>, top: Pid, now: nat)
    requires k == KStarting || k == KStarted || k == KRunning || k == KFinished
    ensures HandleBatch(c, Each(k, ns, top), {}, now) == Batch(c, [], |ns|, false)
  {
    if ns != [] {
      var most, e := ns[..|ns| - 1], EventOf(k, ns[|ns| - 1], top + |ns| - 1);
      var evs := Each(k, ns, top);
      assert evs[..|evs| - 1] == Each(k, most, top);
      Ignored(c, k, most, top, now);
      assert e.StatusChanged?;
      hide EventOf;
      assert HandleLast(Batch(c, [], |most|, false), e, {}, now) == Batch(c, [], |ns|, false);
    }
  }

  lemma {:induction false} BatchConcat(c: Core, p: seq<Event>, q: seq<Event>, now: nat)
    requires !HandleBatch(c, p, {}, now).crashed
    ensures var b := HandleBatch(c, p, {}, now);
      var d := HandleBatch(b.core, q, {}, now);
      HandleBatch(c, p + q, {}, now) == Batch(d.core, b.produced + d.produced, |p| + d.handled, d.crashed)
  {
    hide HandleEvent, CanHandle;
    var b := HandleBatch(c, p, {}, now);
    if q == [] {
      assert p + q == p && b.produced + [] == b.produced;
    } else {
      var most, last := q[..|q| - 1], q[|q| - 1];
      assert (p + q)[..|p + q| - 1] == p + most;
      BatchConcat(c, p, most, now);
      var d := HandleBatch(b.core, most, {}, now);
      if !d.crashed && CanHandle(d.core, last) {
        var h := HandleEvent(d.core, last, IsPrepared(last, {}), now);
        assert (b.produced + d.produced) + h.produced == b.produced + (d.produced + h.produced);
      }
    }
  }

  // ---------- commands for some services ----------

  function Filter(some: seq<ServiceName>, chosen: set<ServiceName>): (ns: seq<ServiceName>)
    ensures forall n :: n in ns <==> n in some && n in chosen
  {
    if some == [] then []
    else
      assert some == some[..|some| - 1] + [some[|some| - 1]];
      Filter(some[..|some| - 1], chosen) + if some[|some| - 1] in chosen then [some[|some| - 1]] else []
  }

  lemma {:induction false} FilterIsDistinct(some: seq<ServiceName>, chosen: set<ServiceName>)
    requires AreDistinct(some)
    ensures AreDistinct(Filter(some, chosen))
  {
    if some != [] {
      var most, n := some[..|some| - 1], some[|some| - 1];
      FilterIsDistinct(most, chosen);
      assert n !in most;
    }
  }

  lemma OneCommand(services: Services, order: seq<ServiceName>, n: ServiceName, lifecycle: LifecycleStatus, now: nat)
    requires IsClosed(services) && IsIterationOrder(order, services) && n in services
    ensures NextAll(services, order, [n], lifecycle, now) == Next(services, order, n, lifecycle, now)
  {
    hide Next;
    assert [n][1..] == [];
    assert NextAll(services, order, [n], lifecycle, now) == Next(services, order, n, lifecycle, now) + [];
  }

  lemma OneMoreFiltered(some: seq<ServiceName>, chosen: set<ServiceName>, k: Kind, top: Pid)
    requires some != [] && k != KPid
    ensures var most, n := some[..|some| - 1], some[|some| - 1];
      Each(k, Filter(some, chosen), top)
      == Each(k, Filter(most, chosen), top) + if n in chosen then [EventOf(k, n, 0)] else []
  {
    hide EventOf;
    var ns, n := Filter(some[..|some| - 1], chosen), some[|some| - 1];
    assert (ns + [n])[..|ns|] == ns && ns + [] == ns;
    assert Each(k, ns, top) + [] == Each(k, ns, top);
    PidsDoNotMatter(k, n, 0, top + |ns|);
  }

  /** Exactly the chosen services get a command, of this kind. */
  ghost predicate GetsCommand(services: Services, order: seq<ServiceName>, n: ServiceName, chosen: set<ServiceName>,
        k: Kind, lifecycle: LifecycleStatus, now: nat)
    requires IsClosed(services) && IsIterationOrder(order, services) && n in services
  {
    Next(services, order, n, lifecycle, now) == if n in chosen then [EventOf(k, n, 0)] else []
  }

  lemma {:induction false} CommandsAre(services: Services, order: seq<ServiceName>, some: seq<ServiceName>,
        chosen: set<ServiceName>, k: Kind, lifecycle: LifecycleStatus, now: nat, top: Pid)
    requires IsClosed(services) && IsIterationOrder(order, services) && k != KPid
    requires forall n :: n in some ==> n in services
    requires forall n :: n in some ==> GetsCommand(services, order, n, chosen, k, lifecycle, now)
    ensures NextAll(services, order, some, lifecycle, now) == Each(k, Filter(some, chosen), top)
  {
    hide Next, EventOf, NextAll, IsClosed, IsIterationOrder;
    if some == [] {
      NoCommands(services, order, lifecycle, now);
    } else {
      var most, n := some[..|some| - 1], some[|some| - 1];
      assert some == most + [n];
      CommandsAre(services, order, most, chosen, k, lifecycle, now, top);
      NextAllConcat(services, order, most, [n], lifecycle, now);
      OneCommand(services, order, n, lifecycle, now);
      assert n in some && GetsCommand(services, order, n, chosen, k, lifecycle, now);
      OneMoreFiltered(some, chosen, k, top);
    }
  }

  lemma NoCommands(services: Services, order: seq<ServiceName>, lifecycle: LifecycleStatus, now: nat)
    requires IsClosed(services) && IsIterationOrder(order, services)
    ensures NextAll(services, order, [], lifecycle, now) == []
  {
  }

  lemma PidsDoNotMatter(k: Kind, n: ServiceName, p: Pid, q: Pid)
    requires k != KPid
    ensures EventOf(k, n, p) == EventOf(k, n, q)
  {
  }

  // ---------- the stages of a wave ----------

  ghost predicate RunsWell(sh: ServiceHandler) {
    sh.status == Running && sh.pid.Some? && sh.healthinessChecksFailed == Some(0) && sh.service.maxFailed >= 0
  }

  ghost predicate IsNew(sh: ServiceHandler) {
    sh == NewHandler(sh.service) && sh.service.maxFailed >= 0
  }

  /** The services in `up` run, the others have not been touched. */
  ghost predicate IsComing(services: Services, up: set<ServiceName>) {
    && IsClosed(services) && up <= services.Keys
    && forall n :: n in services ==> if n in up then RunsWell(services[n]) else IsNew(services[n])
  }

  function SetOf(ns: seq<ServiceName>): set<ServiceName> {
    set n | n in ns
  }

  function Runnable(services: Services): set<ServiceName>
    requires IsClosed(services)
  {
    set n | n in services && IsServiceRunnable(services, services[n])
  }

  /** `ns` are the services to start next. */
  ghost predicate IsWave(base: Services, up: set<ServiceName>, order: seq<ServiceName>, ns: seq<ServiceName>) {
    IsComing(base, up) && IsIterationOrder(order, base) && ns == Filter(order, Runnable(base)) && ns != []
  }

  lemma WaveIsNew(base: Services, up: set<ServiceName>, order: seq<ServiceName>, ns: seq<ServiceName>)
    requires IsWave(base, up, order, ns)
    ensures AreDistinct(ns)
    ensures forall n :: n in ns ==> n in base && n !in up && IsNew(base[n]) && base[n].status == Initial
    ensures forall n :: n in base && n !in ns ==> n in up || !IsServiceRunnable(base, base[n])
  {
    FilterIsDistinct(order, Runnable(base));
  }

  /** The services of the wave have all got as far as `status`; nothing else has changed. */
  ghost predicate IsAtStage(base: Services, services: Services, ns: seq<ServiceName>, status: ServiceStatus,
        checked: bool)
  {
    && services.Keys == base.Keys
    && (forall n :: n in base && n !in ns ==> services[n] == base[n])
    && (forall n :: n in ns ==> n in base && HasStage(base[n], services[n], status, checked))
  }

  predicate HasStage(before: ServiceHandler, sh: ServiceHandler, status: ServiceStatus, checked: bool) {
    && sh.service == before.service && sh.status == status && (sh.pid.None? <==> status == Starting)
    && sh.healthinessChecksFailed == if checked then Some(0) else None
  }

  /** What each kind of event asks for and brings about. */
  lemma StageMoves(base: Services, services: Services, ns: seq<ServiceName>, k: Kind, top: Pid,
        status: ServiceStatus, checked: bool)
    requires AreDistinct(ns) && IsAtStage(base, services, ns, status, checked)
    requires (k == KPid && status == Starting && !checked) || (k == KHealth && status == Started && !checked)
      || (k == KToRunning && status == Started && checked)
    ensures AllReady(k, services, ns)
    ensures IsAtStage(base, Moved(k, services, ns, top), ns, if k == KToRunning then Running else Started, k != KPid)
  {
    MovedAt(k, services, ns, top);
    var moved := Moved(k, services, ns, top);
    forall n | n in ns
      ensures n in base && HasStage(base[n], moved[n], if k == KToRunning then Running else Started, k != KPid)
    {
      var i :| 0 <= i < |ns| && ns[i] == n;
      assert moved[ns[i]] == StepOf(k, services[ns[i]], top + i);
    }
  }

  lemma FirstStage(base: Services, up: set<ServiceName>, order: seq<ServiceName>, ns: seq<ServiceName>, top: Pid)
    requires IsWave(base, up, order, ns)
    ensures AllReady(KRun, base, ns) && IsAtStage(base, Moved(KRun, base, ns, top), ns, Starting, false)
  {
    hide IsWave;
    WaveIsNew(base, up, order, ns);
    MovedAt(KRun, base, ns, top);
    var moved := Moved(KRun, base, ns, top);
    forall n | n in ns ensures n in base && HasStage(base[n], moved[n], Starting, false) {
      var i :| 0 <= i < |ns| && ns[i] == n;
      assert moved[ns[i]] == StepOf(KRun, base[ns[i]], top + i);
    }
  }

  lemma StageIsClosed(base: Services, services: Services, ns: seq<ServiceName>, order: seq<ServiceName>,
        status: ServiceStatus, checked: bool)
    requires IsClosed(base) && IsIterationOrder(order, base) && IsAtStage(base, services, ns, status, checked)
    ensures IsClosed(services) && IsIterationOrder(order, services)
  {
    forall n | n in services ensures services[n].service == base[n].service {
    }
  }

  /** Before they run, the services of the wave get a command only when they have been found healthy, and
      nobody else gets one. */
  lemma StageCommands(base: Services, up: set<ServiceName>, order: seq<ServiceName>, ns: seq<ServiceName>,
        services: Services, status: ServiceStatus, checked: bool, now: nat, n: ServiceName)
    requires IsWave(base, up, order, ns) && IsAtStage(base, services, ns, status, checked)
    requires status == Starting || status == Started
    requires IsClosed(services) && IsIterationOrder(order, services) && n in services
    ensures GetsCommand(services, order, n, if status == Started && checked then Runnable(base) else {}, KToRunning,
        Active, now)
  {
    hide IsClosed, IsIterationOrder, NextAll;
    WaveIsNew(base, up, order, ns);
    if n !in ns && n !in up {
      NotYetRunnable(base, services, ns, status, checked, n);
    }
  }

  lemma NotYetRunnable(base: Services, services: Services, ns: seq<ServiceName>, status: ServiceStatus, checked: bool,
        n: ServiceName)
    requires IsClosed(base) && IsClosed(services) && IsAtStage(base, services, ns, status, checked)
    requires status == Starting || status == Started
    requires n in base && n !in ns && !IsServiceRunnable(base, base[n])
    ensures !IsServiceRunnable(services, services[n])
  {
  }

  /** When the wave is up, the next one is told to run. */
  lemma NextWaveCommands(services: Services, up: set<ServiceName>, order: seq<ServiceName>, now: nat, n: ServiceName)
    requires IsComing(services, up) && IsIterationOrder(order, services) && n in services
    ensures GetsCommand(services, order, n, Runnable(services), KRun, Active, now)
  {
    hide IsIterationOrder;
  }

  lemma WaveIsUp(base: Services, up: set<ServiceName>, order: seq<ServiceName>, ns: seq<ServiceName>,
        services: Services)
    requires IsWave(base, up, order, ns) && IsAtStage(base, services, ns, Running, true)
    ensures IsComing(services, up + SetOf(ns))
  {
    WaveIsNew(base, up, order, ns);
    StageIsClosed(base, services, ns, order, Running, true);
  }

  // ---------- turns ----------

  function PlainTurn(count: nat, order: seq<ServiceName>, now: nat): Turn {
    Turn(count, {}, now, order, [])
  }

  /** A turn that reaps nothing, in terms of its parts. */
  lemma TurnIs(s: State, count: nat, order: seq<ServiceName>, now: nat, b: Batch, rest: seq<Event>,
        commands: seq<Event>)
    requires s.phase == Idle && s.outbox == [] && !AllHaveFinished(s.core.services) && count <= |s.inbox|
    requires b == HandleBatch(s.core, s.inbox[..count], {}, now) && !b.crashed
    requires rest == (s.inbox + PollSigterm(s.core))[count..]
    requires IsClosed(b.core.services) && IsIterationOrder(order, b.core.services)
    requires commands == NextAll(b.core.services, order, order, b.core.lifecycle, now)
    ensures CanTurn(s, PlainTurn(count, order, now))
    ensures var t := Turned(s, PlainTurn(count, order, now));
      && t.core == b.core && t.inbox == rest + b.produced + commands && t.outbox == [] && t.phase == Idle
      && t.children == s.children && t.forked == s.forked
  {
    hide HandleBatch, NextAll, IsClosed, IsIterationOrder;
    var reaped: seq<(Pid, int)> := [];
    assert ReapedPids(reaped) == {} && s.children - {} == s.children;
    assert commands + ReapEvents(b.core.pidMap, reaped) == commands;
  }

  /** The supervisor between two turns while it is up. */
  ghost predicate Stands(s: State, services: Services, spawning: seq<ServiceName>, inbox: seq<Event>, bound: Pid) {
    && s.phase == Idle && s.outbox == [] && s.inbox == inbox
    && s.core.services == services && s.core.lifecycle == Active && !s.core.sigterm
    && s.core.spawning == multiset(spawning)
    && s.forked == map[]
    && (forall p :: p in s.children ==> p < bound) && (forall p :: p in s.core.pidMap ==> p < bound)
  }

  /** A turn that handles a batch of one kind, after announcements that are ignored. */
  lemma StageTurn(s: State, order: seq<ServiceName>, news: Kind, prev: seq<ServiceName>, k: Kind, ns: seq<ServiceName>,
        top: Pid, rest: seq<Event>, spawning: seq<ServiceName>, bound: Pid, commands: seq<Event>, now: nat)
    returns (t: State)
    requires news == KStarting || news == KStarted || news == KRunning
    requires Stands(s, s.core.services, spawning, Each(news, prev, top) + Each(k, ns, top) + rest, bound)
    requires AllReady(k, s.core.services, ns) && (k == KRun ==> spawning == [])
    requires exists n :: n in s.core.services && !s.core.services[n].IsTerminal()
    requires IsClosed(Moved(k, s.core.services, ns, top)) && IsIterationOrder(order, Moved(k, s.core.services, ns, top))
    requires commands == NextAll(Moved(k, s.core.services, ns, top), order, order, Active, now)
    ensures Reaches(s, t)
    ensures Stands(t, Moved(k, s.core.services, ns, top), if k == KRun then ns else spawning,
      rest + Answers(k, ns, top) + commands, if k == KPid && bound < top + |ns| then top + |ns| else bound)
  {
    hide HandleBatch, NextAll, IsClosed, IsIterationOrder, Moved, Answers, Each, AllReady, Turned, CanTurn, Reaches;
    var p, q := Each(news, prev, top), Each(k, ns, top);
    Ignored(s.core, news, prev, top, now);
    BatchMoves(s.core, k, ns, top, now);
    BatchConcat(s.core, p, q, now);
    var b := HandleBatch(s.core, p + q, {}, now);
    var d := HandleBatch(s.core, q, {}, now);
    assert [] + d.produced == d.produced;
    assert s.inbox[..|p + q|] == p + q && (s.inbox + [])[|p + q|..] == rest;
    TurnIs(s, |p + q|, order, now, b, rest, commands);
    TurnIsSteps(s, PlainTurn(|p + q|, order, now));
    t := Turned(s, PlainTurn(|p + q|, order, now));
    assert multiset([]) + multiset(ns) == multiset(ns) && multiset(spawning) + multiset{} == multiset(spawning);
  }

  // ---------- what happens outside ----------

  /** All threads report in turn. */
  lemma {:induction false} AllFork(s: State, services: Services, ns: seq<ServiceName>, inbox: seq<Event>, top: Pid,
        i: nat)
    returns (t: State)
    requires Stands(s, services, ns, inbox, top) && i <= |ns|
    requires forall k :: 0 <= k < |inbox| ==> !inbox[k].PidChanged?
    ensures Reaches(s, t) && Stands(t, services, ns[i..], inbox + Each(KPid, ns[..i], top), top + i)
  {
    hide Reaches;
    if i == 0 {
      t := s;
      ReachesItself(s);
      assert ns[0..] == ns && inbox + [] == inbox && ns[..0] == [];
    } else {
      var u := AllFork(s, services, ns, inbox, top, i - 1);
      t := OneForks(s, u, services, ns, inbox, top, i);
    }
  }

  lemma OneForks(s: State, u: State, services: Services, ns: seq<ServiceName>, inbox: seq<Event>, top: Pid,
        i: nat)
    returns (t: State)
    requires Reaches(s, u) && 0 < i <= |ns|
    requires Stands(u, services, ns[i - 1..], inbox + Each(KPid, ns[..i - 1], top), top + i - 1)
    requires forall k :: 0 <= k < |inbox| ==> !inbox[k].PidChanged?
    ensures Reaches(s, t) && Stands(t, services, ns[i..], inbox + Each(KPid, ns[..i], top), top + i)
  {
    hide Reaches, HandleEvent, NextAll, ReapEvents, AllHaveFinished;
    var n, p := ns[i - 1], top + i - 1;
    assert ns[i - 1..] == [n] + ns[i..] && ns[..i] == ns[..i - 1] + [n];
    forall k | 0 <= k < |u.inbox| ensures !(u.inbox[k].PidChanged? && u.inbox[k].pid == p) {
      if k >= |inbox| {
        EachAt(KPid, ns[..i - 1], top, k - |inbox|);
      }
    }
    assert n in u.core.spawning;
    SpawnIsSteps(s, u, n, p);
    t := Spawned(u, n, p);
    assert ns[..i][..i - 1] == ns[..i - 1];
    assert (inbox + Each(KPid, ns[..i - 1], top)) + [PidChanged(n, p)] == inbox + Each(KPid, ns[..i], top);
    assert multiset(ns[i - 1..]) - multiset{n} == multiset(ns[i..]);
  }

  /** All services are found healthy in turn. */
  lemma {:induction false} AllReport(s: State, services: Services, ns: seq<ServiceName>, inbox: seq<Event>, top: Pid,
        i: nat, bound: Pid)
    returns (t: State)
    requires Stands(s, services, [], inbox, bound) && i <= |ns| && forall n :: n in ns ==> n in services
    ensures Reaches(s, t) && Stands(t, services, [], inbox + Each(KHealth, ns[..i], top), bound)
  {
    hide Reaches, HandleEvent, NextAll;
    if i == 0 {
      t := s;
      ReachesItself(s);
      assert inbox + [] == inbox && ns[..0] == [];
    } else {
      var u := AllReport(s, services, ns, inbox, top, i - 1, bound);
      var n := ns[i - 1];
      ReachesStep(s, u, ReportHealth(n, true));
      t := Apply(u, ReportHealth(n, true));
      assert ns[..i][..i - 1] == ns[..i - 1];
      assert (inbox + Each(KHealth, ns[..i - 1], top)) + [HealthCheck(n, true)] == inbox + Each(KHealth, ns[..i], top);
    }
  }

  // ---------- waves ----------

  lemma {:induction false} EachIgnoresTop(k: Kind, ns: seq<ServiceName>, top: Pid, top': Pid)
    requires k != KPid
    ensures Each(k, ns, top) == Each(k, ns, top')
  {
    if ns != [] {
      EachIgnoresTop(k, ns[..|ns| - 1], top, top');
      PidsDoNotMatter(k, ns[|ns| - 1], top + |ns| - 1, top' + |ns| - 1);
    }
  }

  /** Nothing is under way but the next wave and the news of the last. */
  ghost predicate Rests(s: State, up: set<ServiceName>, order: seq<ServiceName>, prev: seq<ServiceName>, top: Pid) {
    && IsComing(s.core.services, up) && IsIterationOrder(order, s.core.services)
    && Stands(s, s.core.services, [],
              Each(KRunning, prev, top) + Each(KRun, Filter(order, Runnable(s.core.services)), top), top)
  }

  /** The commands at a stage of a wave. */
  lemma StageCommandsAre(base: Services, up: set<ServiceName>, order: seq<ServiceName>, ns: seq<ServiceName>,
        services: Services, status: ServiceStatus, checked: bool, top: Pid)
    requires IsWave(base, up, order, ns) && IsAtStage(base, services, ns, status, checked)
    requires status == Starting || status == Started
    ensures IsClosed(services) && IsIterationOrder(order, services)
    ensures NextAll(services, order, order, Active, 0)
      == if status == Started && checked then Each(KToRunning, ns, top) else []
  {
    hide IsClosed, NextAll, Next, IsAtStage, IsWave, Filter, Each, IsIterationOrder, EventOf;
    WaveHasSomebody(base, up, order, ns);
    StageIsClosed(base, services, ns, order, status, checked);
    AllInOrder(services, order);
    var chosen := if status == Started && checked then Runnable(base) else {};
    forall n | n in order ensures GetsCommand(services, order, n, chosen, KToRunning, Active, 0) {
      StageCommands(base, up, order, ns, services, status, checked, 0, n);
    }
    CommandsAre(services, order, order, chosen, KToRunning, Active, 0, top);
    NobodyChosen(order, top);
  }

  lemma AllInOrder(services: Services, order: seq<ServiceName>)
    requires IsIterationOrder(order, services)
    ensures forall n :: n in order ==> n in services
  {
  }

  lemma NobodyChosen(order: seq<ServiceName>, top: Pid)
    ensures Each(KToRunning, Filter(order, {}), top) == []
  {
    NobodyIsLeft(order);
  }

  lemma {:induction false} NobodyIsLeft(some: seq<ServiceName>)
    ensures Filter(some, {}) == []
  {
    if some != [] {
      NobodyIsLeft(some[..|some| - 1]);
    }
  }

  lemma SomebodyIsLeft(base: Services, services: Services, ns: seq<ServiceName>, status: ServiceStatus, checked: bool)
    requires ns != [] && IsAtStage(base, services, ns, status, checked)
    requires !status.Finished? && !status.FinishedFailed?
    ensures exists n :: n in services && !services[n].IsTerminal()
  {
    assert ns[0] in ns && HasStage(base[ns[0]], services[ns[0]], status, checked);
    assert ns[0] in services && !services[ns[0]].IsTerminal();
  }

  /** First half of a wave: the services are told to run, forked and reported. */
  lemma Launch(s: State, up: set<ServiceName>, order: seq<ServiceName>, prev: seq<ServiceName>,
        ns: seq<ServiceName>, top: Pid)
    returns (t: State, services: Services)
    requires Rests(s, up, order, prev, top) && IsWave(s.core.services, up, order, ns)
    ensures Reaches(s, t) && Stands(t, services, [], Each(KStarted, ns, top), top + |ns|)
    ensures IsAtStage(s.core.services, services, ns, Started, false)
  {
    hide Reaches, IsClosed, IsIterationOrder, IsWave, IsAtStage, Each, Moved, Filter, NextAll, IsComing, AllReady;
    var base := s.core.services;
    WaveHasSomebody(base, up, order, ns);
    FirstStage(base, up, order, ns, top);
    var m1 := Moved(KRun, base, ns, top);
    StageCommandsAre(base, up, order, ns, m1, Starting, false, top);
    assert Each(KRunning, prev, top) + Each(KRun, ns, top) == Each(KRunning, prev, top) + Each(KRun, ns, top) + [];
    var t1 := StageTurn(s, order, KRunning, prev, KRun, ns, top, [], [], top, [], 0);
    assert [] + Answers(KRun, ns, top) + [] == Each(KStarting, ns, top);
    NewsAreNoReports(ns, top);
    var t2 := AllFork(t1, m1, ns, Each(KStarting, ns, top), top, |ns|);
    assert ns[|ns|..] == [] && ns[..|ns|] == ns;
    WaveIsDistinct(base, up, order, ns);
    StageMoves(base, m1, ns, KPid, top, Starting, false);
    services := Moved(KPid, m1, ns, top);
    StageCommandsAre(base, up, order, ns, services, Started, false, top);
    WaveIsSome(base, up, order, ns);
    SomebodyIsLeft(base, m1, ns, Starting, false);
    assert Each(KStarting, ns, top) + Each(KPid, ns, top) == Each(KStarting, ns, top) + Each(KPid, ns, top) + [];
    t := StageTurn(t2, order, KStarting, ns, KPid, ns, top, [], [], top + |ns|, [], 0);
    assert [] + Answers(KPid, ns, top) + [] == Each(KStarted, ns, top);
    ReachesTransitively(s, t1, t2);
    ReachesTransitively(s, t2, t);
  }

  lemma NewsAreNoReports(ns: seq<ServiceName>, top: Pid)
    ensures forall k :: 0 <= k < |ns| ==> !Each(KStarting, ns, top)[k].PidChanged?
  {
    forall k | 0 <= k < |ns| ensures !Each(KStarting, ns, top)[k].PidChanged? {
      EachAt(KStarting, ns, top, k);
    }
  }

  lemma WaveIsDistinct(base: Services, up: set<ServiceName>, order: seq<ServiceName>, ns: seq<ServiceName>)
    requires IsWave(base, up, order, ns)
    ensures AreDistinct(ns) && forall n :: n in ns ==> n in base
  {
    WaveIsNew(base, up, order, ns);
  }

  lemma WaveHasSomebody(base: Services, up: set<ServiceName>, order: seq<ServiceName>, ns: seq<ServiceName>)
    requires IsWave(base, up, order, ns)
    ensures exists n :: n in base && !base[n].IsTerminal()
    ensures IsClosed(base) && IsIterationOrder(order, base) && ns == Filter(order, Runnable(base))
  {
    WaveIsNew(base, up, order, ns);
    assert ns[0] in ns && ns[0] in base && !base[ns[0]].IsTerminal();
  }

  /** They are found healthy. */
  lemma Check(s: State, base: Services, up: set<ServiceName>, order: seq<ServiceName>, ns: seq<ServiceName>,
        services: Services, top: Pid)
    returns (t: State, checked: Services)
    requires IsWave(base, up, order, ns) && IsAtStage(base, services, ns, Started, false)
    requires Stands(s, services, [], Each(KStarted, ns, top), top + |ns|)
    ensures Reaches(s, t) && IsAtStage(base, checked, ns, Started, true)
    ensures Stands(t, checked, [], Each(KToRunning, ns, top), top + |ns|)
  {
    hide Reaches, IsIterationOrder, IsWave, IsAtStage, Each, Moved, Filter, NextAll, IsComing, AllReady, IsClosed;
    var bound := top + |ns|;
    WaveIsDistinct(base, up, order, ns);
    StageKeys(base, services, ns, Started, false);
    var u := AllReport(s, services, ns, Each(KStarted, ns, top), top, |ns|, bound);
    assert ns[..|ns|] == ns;
    StageMoves(base, services, ns, KHealth, top, Started, false);
    checked := Moved(KHealth, services, ns, top);
    StageCommandsAre(base, up, order, ns, checked, Started, true, top);
    WaveIsSome(base, up, order, ns);
    SomebodyIsLeft(base, services, ns, Started, false);
    assert Each(KStarted, ns, top) + Each(KHealth, ns, top) == Each(KStarted, ns, top) + Each(KHealth, ns, top) + [];
    t := StageTurn(u, order, KStarted, ns, KHealth, ns, top, [], [], bound, Each(KToRunning, ns, top), 0);
    assert [] + Answers(KHealth, ns, top) + Each(KToRunning, ns, top) == Each(KToRunning, ns, top);
    ReachesTransitively(s, u, t);
  }

  /** They run, and the next wave is told to. */
  lemma Settle(s: State, base: Services, up: set<ServiceName>, order: seq<ServiceName>, ns: seq<ServiceName>,
        services: Services, top: Pid)
    returns (t: State)
    requires IsWave(base, up, order, ns) && IsAtStage(base, services, ns, Started, true)
    requires Stands(s, services, [], Each(KToRunning, ns, top), top + |ns|)
    ensures Reaches(s, t) && IsAtStage(base, t.core.services, ns, Running, true) && IsClosed(t.core.services)
    ensures Stands(t, t.core.services, [],
      Each(KRunning, ns, top) + Each(KRun, Filter(order, Runnable(t.core.services)), top), top + |ns|)
  {
    hide Reaches, IsIterationOrder, IsWave, IsAtStage, Each, Moved, Filter, NextAll, IsComing, AllReady, IsClosed,
      Runnable;
    WaveIsDistinct(base, up, order, ns);
    StageMoves(base, services, ns, KToRunning, top, Started, true);
    var running := Moved(KToRunning, services, ns, top);
    NextWaveIs(base, up, order, ns, running, top);
    WaveIsSome(base, up, order, ns);
    SomebodyIsLeft(base, services, ns, Started, true);
    NoNews(top, Each(KToRunning, ns, top));
    var commands := Each(KRun, Filter(order, Runnable(running)), top);
    t := StageTurn(s, order, KRunning, [], KToRunning, ns, top, [], [], top + |ns|, commands, 0);
    assert [] + Answers(KToRunning, ns, top) + commands == Each(KRunning, ns, top) + commands;
  }

  lemma NoNews(top: Pid, evs: seq<Event>)
    ensures Each(KRunning, [], top) + evs + [] == evs
  {
  }

  lemma WaveIsSome(base: Services, up: set<ServiceName>, order: seq<ServiceName>, ns: seq<ServiceName>)
    requires IsWave(base, up, order, ns)
    ensures ns != []
  {
  }

  lemma StageKeys(base: Services, services: Services, ns: seq<ServiceName>, status: ServiceStatus, checked: bool)
    requires IsAtStage(base, services, ns, status, checked)
    ensures services.Keys == base.Keys
  {
  }

  lemma NextWaveIs(base: Services, up: set<ServiceName>, order: seq<ServiceName>, ns: seq<ServiceName>,
        services: Services, top: Pid)
    requires IsWave(base, up, order, ns) && IsAtStage(base, services, ns, Running, true)
    ensures IsClosed(services) && IsIterationOrder(order, services) && IsComing(services, up + SetOf(ns))
    ensures NextAll(services, order, order, Active, 0) == Each(KRun, Filter(order, Runnable(services)), top)
  {
    StageIsClosed(base, services, ns, order, Running, true);
    WaveIsUp(base, up, order, ns, services);
    var up' := up + SetOf(ns);
    hide IsClosed, NextAll, GetsCommand, IsAtStage, IsWave, IsComing;
    forall n | n in order
      ensures n in services && GetsCommand(services, order, n, Runnable(services), KRun, Active, 0)
    {
      NextWaveCommands(services, up', order, 0, n);
    }
    CommandsAre(services, order, order, Runnable(services), KRun, Active, 0, top);
  }

  /** A wave brings up all services whose dependencies are up. */
  lemma Wave(s: State, up: set<ServiceName>, order: seq<ServiceName>, prev: seq<ServiceName>, top: Pid)
    returns (t: State)
    requires Rests(s, up, order, prev, top) && Filter(order, Runnable(s.core.services)) != []
    ensures var ns := Filter(order, Runnable(s.core.services));
      && Reaches(s, t) && Rests(t, up + SetOf(ns), order, ns, top + |ns|)
      && IsAtStage(s.core.services, t.core.services, ns, Running, true)
  {
    hide Reaches, IsClosed, IsIterationOrder, IsAtStage, Each, Filter, Stands;
    var base, ns := s.core.services, Filter(order, Runnable(s.core.services));
    assert IsWave(base, up, order, ns);
    var u, services := Launch(s, up, order, prev, ns, top);
    var v, checked := Check(u, base, up, order, ns, services, top);
    t := Settle(v, base, up, order, ns, checked, top);
    NextWaveIs(base, up, order, ns, t.core.services, top);
    EachIgnoresTop(KRunning, ns, top, top + |ns|);
    EachIgnoresTop(KRun, Filter(order, Runnable(t.core.services)), top, top + |ns|);
    ReachesTransitively(s, u, v);
    ReachesTransitively(s, v, t);
  }
}
