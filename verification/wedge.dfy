/** What cycles do: the states in which a cyclic configuration waits in vain are reached. */
module Wedges {
  import opened Formats
  import opened ServiceHandlers
  import opened Repos
  import opened Commands
  import opened Dependencies
  import opened Machine
  import opened Records
  import opened Iterations
  import opened StartOrder
  import opened Shutdowns
  import opened BringUp

  // ---------- configurations for given graphs ----------

  lemma {:induction false} SetInOrder<T>(some: set<T>) returns (order: seq<T>)
    ensures forall x :: x in order <==> x in some
    ensures forall i, j :: 0 <= i < j < |order| ==> order[i] != order[j]
  {
    if some == {} {
      order := [];
    } else {
      var x :| x in some;
      var rest := SetInOrder(some - {x});
      order := rest + [x];
    }
  }

  function ServiceOf(n: ServiceName, start: Graph<ServiceName>, stop: Graph<ServiceName>): Service {
    Service(n, "run", 0, if n in start then start[n] else [], if n in stop then stop[n] else [],
            Restart(Never, 0, 0), true, 0, [0], Ignore, 0, [])
  }

  function ConfigOf(order: seq<ServiceName>, start: Graph<ServiceName>, stop: Graph<ServiceName>)
    : (config: seq<Service>)
    ensures |config| == |order| && forall i :: 0 <= i < |order| ==> config[i] == ServiceOf(order[i], start, stop)
  {
    seq(|order|, i requires 0 <= i < |order| => ServiceOf(order[i], start, stop))
  }

  ghost predicate IsOrderOf(order: seq<ServiceName>, names: set<ServiceName>) {
    AreDistinct(order) && forall n :: n in order <==> n in names
  }

  lemma ConfigHolds(order: seq<ServiceName>, start: Graph<ServiceName>, stop: Graph<ServiceName>)
    requires IsOrderOf(order, start.Keys) && stop.Keys == start.Keys
    requires IsClosedGraph(start) && IsClosedGraph(stop)
    ensures forall s :: s in ConfigOf(order, start, stop) ==> IsWellFormed(s, ConfigOf(order, start, stop))
    ensures var services := FromServices(ConfigOf(order, start, stop));
      && services.Keys == start.Keys && IsIterationOrder(order, services) && IsComing(services, {})
      && forall n :: n in start ==> services[n] == NewHandler(ServiceOf(n, start, stop))
  {
    var config := ConfigOf(order, start, stop);
    forall n | n in start ensures IsDefined(config, n) {
      assert n in order;
      var i :| 0 <= i < |order| && order[i] == n;
      assert config[i].name == n;
    }
    forall s | s in config ensures IsWellFormed(s, config) {
      var i :| 0 <= i < |config| && config[i] == s;
      assert order[i] in order;
      forall d | d in s.startAfter ensures IsDefined(config, d) {
        assert DependsOn(start, s.name, d);
      }
      forall d | d in s.shutdownAfter ensures IsDefined(config, d) {
        assert DependsOn(stop, s.name, d);
      }
    }
    ConfigServices(order, start, stop);
    ValidatedIsClosed(config);
  }

  lemma ConfigDefines(order: seq<ServiceName>, start: Graph<ServiceName>, stop: Graph<ServiceName>, n: ServiceName)
    requires IsOrderOf(order, start.Keys)
    ensures IsDefined(ConfigOf(order, start, stop), n) <==> n in start
  {
    hide ConfigOf;
    var config := ConfigOf(order, start, stop);
    if n in start {
      assert n in order;
      var i :| 0 <= i < |order| && order[i] == n;
      assert config[i].name == n;
    }
    if IsDefined(config, n) {
      var i :| 0 <= i < |config| && config[i].name == n;
      assert order[i] in order;
    }
  }

  lemma ConfigServices(order: seq<ServiceName>, start: Graph<ServiceName>, stop: Graph<ServiceName>)
    requires IsOrderOf(order, start.Keys)
    ensures var services := FromServices(ConfigOf(order, start, stop));
      && services.Keys == start.Keys && IsIterationOrder(order, services)
      && forall n :: n in start ==> services[n] == NewHandler(ServiceOf(n, start, stop))
  {
    var config := ConfigOf(order, start, stop);
    var services := FromServices(config);
    FromServicesHolds(config);
    hide FromServices, ConfigOf;
    forall n ensures n in services <==> n in start {
      ConfigDefines(order, start, stop, n);
    }
    hide IsDefined;
    forall n | n in start ensures services[n] == NewHandler(ServiceOf(n, start, stop)) {
      var i :| 0 <= i < |config| && config[i] == services[n].service;
    }
  }

  // ---------- the first turn ----------

  lemma FirstTurn(config: seq<Service>, order: seq<ServiceName>) returns (t: State)
    requires IsComing(FromServices(config), {}) && IsIterationOrder(order, FromServices(config)) && order != []
    ensures Reaches(Start(config), t) && Rests(t, {}, order, [], 0) && t.core.services == FromServices(config)
  {
    hide Reaches, FromServices, NextAll, Filter, Each, CanTurn, Turned, IsIterationOrder;
    var s, services := Start(config), FromServices(config);
    FirstCommands(services, order);
    var commands := Each(KRun, Filter(order, Runnable(services)), 0);
    var b := HandleBatch(s.core, [], {}, 0);
    assert b == Batch(s.core, [], 0, false);
    assert s.inbox[..0] == [] && (s.inbox + PollSigterm(s.core))[0..] == [];
    TurnIs(s, 0, order, 0, b, [], commands);
    TurnIsSteps(s, PlainTurn(0, order, 0));
    t := Turned(s, PlainTurn(0, order, 0));
    NoNews(0, commands);
    assert [] + [] + commands == commands && Each(KRunning, [], 0) + commands + [] == Each(KRunning, [], 0) + commands;
  }

  lemma FirstCommands(services: Services, order: seq<ServiceName>)
    requires IsComing(services, {}) && IsIterationOrder(order, services) && order != []
    ensures IsClosed(services)
    ensures NextAll(services, order, order, Active, 0) == Each(KRun, Filter(order, Runnable(services)), 0)
    ensures !AllHaveFinished(services)
  {
    AllInOrder(services, order);
    assert order[0] in order && order[0] in services && services[order[0]].status == Initial;
    hide IsClosed, NextAll, GetsCommand, IsComing, IsIterationOrder;
    ComingIsClosed(services, {});
    forall n | n in order ensures GetsCommand(services, order, n, Runnable(services), KRun, Active, 0) {
      NextWaveCommands(services, {}, order, 0, n);
    }
    CommandsAre(services, order, order, Runnable(services), KRun, Active, 0, 0);
  }

  lemma ComingIsClosed(services: Services, up: set<ServiceName>)
    requires IsComing(services, up)
    ensures IsClosed(services)
  {
  }

  /** Some run of the program on a validated configuration gets there. */
  ghost predicate IsReachable(s: State) {
    exists config :: IsReachedWith(s, config)
  }

  ghost predicate IsReachedWith(s: State, config: seq<Service>) {
    (forall c :: c in config ==> IsWellFormed(c, config)) && Reaches(Start(config), s)
  }

  // ---------- starting ----------

  ghost predicate NobodyCanRun(services: Services)
    requires IsClosed(services)
  {
    forall n :: n in services ==> !IsServiceRunnable(services, services[n])
  }

  lemma NoWaveMeansNobody(services: Services, order: seq<ServiceName>)
    requires IsClosed(services) && IsIterationOrder(order, services) && Filter(order, Runnable(services)) == []
    ensures NobodyCanRun(services)
  {
    hide IsServiceRunnable;
    forall n | n in services ensures !IsServiceRunnable(services, services[n]) {
      assert n in order;
      assert n !in Filter(order, Runnable(services));
    }
  }

  lemma RestsBetween(s: State, up: set<ServiceName>, order: seq<ServiceName>, prev: seq<ServiceName>, top: Pid)
    requires Rests(s, up, order, prev, top)
    ensures IsComing(s.core.services, up) && IsIterationOrder(order, s.core.services)
    ensures IsClosed(s.core.services) && s.core.lifecycle == Active
    ensures var ns := Filter(order, Runnable(s.core.services)); ns != [] ==> IsWave(s.core.services, up, order, ns)
  {
    hide Filter, Runnable;
  }

  /** One more wave, which leaves the stuck set alone. */
  lemma OneWave(origin: State, s: State, up: set<ServiceName>, order: seq<ServiceName>, prev: seq<ServiceName>,
        top: Pid, g: Graph<ServiceName>, some: set<ServiceName>)
    returns (u: State, more: set<ServiceName>, ns: seq<ServiceName>)
    requires Reaches(origin, s) && Rests(s, up, order, prev, top)
    requires StartGraph(s.core.services) == g && IsStuck(g, some) && up !! some
    requires Filter(order, Runnable(s.core.services)) != []
    ensures Reaches(origin, u) && Rests(u, more, order, ns, top + |ns|)
    ensures StartGraph(u.core.services) == g && more !! some && |g.Keys - more| < |g.Keys - up|
  {
    hide *;
    var base := s.core.services;
    RestsBetween(s, up, order, prev, top);
    ns := Filter(order, Runnable(base));
    more := up + SetOf(ns);
    u := Wave(s, up, order, prev, top);
    ReachesTransitively(origin, s, u);
    StuckIsLeftOut(base, up, order, ns, g, some);
    SameGraph(base, u.core.services, ns, g);
    FewerLeft(base, up, order, ns, g);
  }

  /** Waves come up until nobody is runnable; the members of a stuck set never are. */
  lemma {:induction false} AllWaves(origin: State, s: State, up: set<ServiceName>, order: seq<ServiceName>,
        prev: seq<ServiceName>, top: Pid, g: Graph<ServiceName>, some: set<ServiceName>)
    returns (t: State, up': set<ServiceName>)
    requires Reaches(origin, s) && Rests(s, up, order, prev, top)
    requires StartGraph(s.core.services) == g && IsStuck(g, some) && up !! some
    ensures Reaches(origin, t) && IsComing(t.core.services, up') && up' !! some
    ensures StartGraph(t.core.services) == g && t.core.lifecycle == Active
    ensures IsClosed(t.core.services) && NobodyCanRun(t.core.services)
    decreases |g.Keys - up|
  {
    hide Reaches, IsStuck, Filter, NobodyCanRun, IsIterationOrder, Runnable, StartGraph, Rests, IsComing, IsClosed;
    RestsBetween(s, up, order, prev, top);
    if Filter(order, Runnable(s.core.services)) == [] {
      NoWaveMeansNobody(s.core.services, order);
      t, up' := s, up;
    } else {
      var u, more, ns := OneWave(origin, s, up, order, prev, top, g, some);
      t, up' := AllWaves(origin, u, more, order, ns, top + |ns|, g, some);
    }
  }

  lemma StuckIsLeftOut(base: Services, up: set<ServiceName>, order: seq<ServiceName>, ns: seq<ServiceName>,
        g: Graph<ServiceName>, some: set<ServiceName>)
    requires IsWave(base, up, order, ns) && StartGraph(base) == g && IsStuck(g, some) && up !! some
    ensures (up + SetOf(ns)) !! some
  {
    forall n | n in ns ensures n !in some {
      if n in some {
        StuckIsNotRunnable(base, up, g, some, n);
      }
    }
  }

  lemma StuckIsNotRunnable(base: Services, up: set<ServiceName>, g: Graph<ServiceName>, some: set<ServiceName>,
        n: ServiceName)
    requires IsComing(base, up) && StartGraph(base) == g && IsStuck(g, some) && up !! some && n in some
    ensures n in base && !IsServiceRunnable(base, base[n])
  {
    assert DependsWithin(g, some, n);
    var d :| d in some && DependsOn(g, n, d);
    assert d in base && base[d].status == Initial && d in base[n].service.startAfter;
  }

  lemma SameGraph(base: Services, services: Services, ns: seq<ServiceName>, g: Graph<ServiceName>)
    requires IsAtStage(base, services, ns, Running, true) && StartGraph(base) == g
    ensures StartGraph(services) == g
  {
    forall n | n in base ensures services[n].service == base[n].service {
    }
  }

  lemma FewerLeft(base: Services, up: set<ServiceName>, order: seq<ServiceName>, ns: seq<ServiceName>,
        g: Graph<ServiceName>)
    requires IsWave(base, up, order, ns) && StartGraph(base) == g
    ensures |g.Keys - (up + SetOf(ns))| < |g.Keys - up|
  {
    WaveIsNew(base, up, order, ns);
    WaveIsSome(base, up, order, ns);
    hide IsWave;
    var n := ns[0];
    assert n in ns && n in g.Keys - up && n !in g.Keys - (up + SetOf(ns));
    SmallerSet(g.Keys - (up + SetOf(ns)), g.Keys - up);
  }

  lemma SmallerSet<T>(a: set<T>, b: set<T>)
    requires a < b
    ensures |a| < |b|
  {
    assert b == a + (b - a);
  }

  lemma ComingWaits(services: Services, up: set<ServiceName>, m: ServiceName)
    requires IsComing(services, up) && m in services && m !in up
    ensures IsWaiting(services)
  {
    assert services[m].status == Initial;
  }

  lemma NoDependencies(g: Graph<ServiceName>) returns (none: Graph<ServiceName>)
    ensures none.Keys == g.Keys && IsClosedGraph(none) && forall n :: n in none ==> none[n] == []
  {
    none := map n | n in g :: [];
  }

  lemma StuckMember(g: Graph<ServiceName>, some: set<ServiceName>) returns (m: ServiceName)
    requires IsStuck(g, some)
    ensures m in some && m in g
  {
    m :| m in some;
  }

  /** A configuration with the given start-after graph. */
  lemma StartConfig(g: Graph<ServiceName>) returns (config: seq<Service>, order: seq<ServiceName>)
    requires IsClosedGraph(g)
    ensures forall s :: s in config ==> IsWellFormed(s, config)
    ensures IsIterationOrder(order, FromServices(config)) && IsComing(FromServices(config), {})
    ensures StartGraph(FromServices(config)) == g && forall n :: n in g ==> n in order
  {
    hide FromServices, IsWellFormed, IsClosedGraph, IsComing, IsIterationOrder, ConfigOf;
    order := SetInOrder(g.Keys);
    var stop := NoDependencies(g);
    ConfigHolds(order, g, stop);
    config := ConfigOf(order, g, stop);
  }

  /** A start-after graph with a stuck set leads some configuration into a state in which services wait,
      nothing else is missing, and nobody can be started. */
  lemma DeadlockIsReached(g: Graph<ServiceName>, some: set<ServiceName>) returns (t: State)
    requires IsClosedGraph(g) && IsStuck(g, some)
    ensures IsReachable(t) && IsDeadlockable(t.core, g) && NobodyCanRun(t.core.services)
  {
    hide Reaches, FromServices, IsWellFormed, IsClosedGraph, IsComing, IsIterationOrder, Rests, IsStuck, IsWaiting,
      NobodyCanRun, IsClosed, Start;
    var m := StuckMember(g, some);
    var config, order := StartConfig(g);
    var s := FirstTurn(config, order);
    var up;
    t, up := AllWaves(Start(config), s, {}, order, [], 0, g, some);
    assert IsReachedWith(t, config);
    assert t.core.services.Keys == g.Keys;
    ComingWaits(t.core.services, up, m);
  }

  ghost predicate AlwaysStartsSomebody(g: Graph<ServiceName>) {
    forall s: State :: IsReachable(s) && IsDeadlockable(s.core, g) ==>
      exists n :: n in s.core.services && IsServiceRunnable(s.core.services, s.core.services[n])
  }

  ghost predicate IsDeadlockable(c: Core, g: Graph<ServiceName>) {
    c.lifecycle == Active && IsClosed(c.services) && StartGraph(c.services) == g && IsWaiting(c.services)
  }

  /** While the system is up, waiting services never wait for each other in vain: in every reachable waiting
      state some service is told to run, if and only if start-after has no cycle. */
  lemma StartsSomebodyExactly(g: Graph<ServiceName>)
    requires IsClosedGraph(g)
    ensures IsAcyclic(g) <==> AlwaysStartsSomebody(g)
  {
    hide IsReachable, IsWaiting, IsServiceRunnable, IsClosedGraph;
    CyclicMeansStuck(g);
    if IsAcyclic(g) {
      forall s: State | IsReachable(s) && IsDeadlockable(s.core, g)
        ensures exists n :: n in s.core.services && IsServiceRunnable(s.core.services, s.core.services[n])
      {
        AcyclicStarts(g, s.core.services);
      }
    } else {
      var some :| IsStuck(g, some);
      var t := DeadlockIsReached(g, some);
      assert IsReachable(t) && IsDeadlockable(t.core, g);
    }
  }

  // ---------- stopping ----------

  /** The members of `some` run and stop after each other; the others have not been started, or have finished. */
  ghost predicate IsStandoff(services: Services, g: Graph<ServiceName>, some: set<ServiceName>, rest: ServiceStatus) {
    && IsClosed(services) && ShutdownGraph(services) == g && services.Keys == g.Keys
    && forall n :: n in services ==>
         if n in some then RunsWell(services[n])
         else services[n].status == rest && services[n].service.startAfter == [n]
  }

  lemma NobodyIsKillable(services: Services, g: Graph<ServiceName>, some: set<ServiceName>, rest: ServiceStatus,
        n: ServiceName)
    requires IsStandoff(services, g, some, rest) && IsStuck(g, some) && n in some
    ensures n in services && !IsServiceKillable(services, services[n])
  {
    assert DependsWithin(g, some, n);
    var d :| d in some && DependsOn(g, n, d);
    assert d in services && !services[d].IsTerminal() && d in services[n].service.shutdownAfter;
  }

  /** What a standoff commands: while the system is up nothing; in a graceful shutdown the end of those that
      were never started, and then nothing. */
  lemma StandoffGets(services: Services, order: seq<ServiceName>, g: Graph<ServiceName>, some: set<ServiceName>,
        rest: ServiceStatus, lifecycle: LifecycleStatus, n: ServiceName)
    requires IsStandoff(services, g, some, rest) && IsStuck(g, some)
    requires IsIterationOrder(order, services) && n in services
    requires (rest == Initial && lifecycle == Active) || lifecycle == ShuttingDown(Gracefully)
    requires rest == Initial || rest == Finished
    ensures GetsCommand(services, order, n, if lifecycle != Active && rest == Initial then services.Keys - some else {},
        KFinish, lifecycle, 0)
  {
    hide IsStuck, IsClosed, IsIterationOrder, IsServiceKillable;
    if n in some {
      NobodyIsKillable(services, g, some, rest, n);
    } else {
      OwnDependent(services, n);
    }
  }

  lemma OwnDependent(services: Services, n: ServiceName)
    requires IsClosed(services) && n in services && services[n].service.startAfter == [n]
    ensures !IsServiceRunnable(services, services[n])
  {
    assert n in services[n].service.startAfter;
  }

  lemma StandoffCommands(services: Services, order: seq<ServiceName>, g: Graph<ServiceName>, some: set<ServiceName>,
        rest: ServiceStatus, lifecycle: LifecycleStatus, top: Pid)
    requires IsStandoff(services, g, some, rest) && IsStuck(g, some) && IsIterationOrder(order, services)
    requires (rest == Initial && lifecycle == Active) || lifecycle == ShuttingDown(Gracefully)
    requires rest == Initial || rest == Finished
    ensures IsClosed(services)
    ensures NextAll(services, order, order, lifecycle, 0)
      == if lifecycle != Active && rest == Initial then Each(KFinish, Filter(order, services.Keys - some), top) else []
  {
    StandoffIsClosed(services, g, some, rest);
    hide IsStuck, IsClosed, IsStandoff, GetsCommand, NextAll, Each, Filter;
    var chosen := if lifecycle != Active && rest == Initial then services.Keys - some else {};
    AllInOrder(services, order);
    forall n | n in order ensures GetsCommand(services, order, n, chosen, KFinish, lifecycle, 0) {
      StandoffGets(services, order, g, some, rest, lifecycle, n);
    }
    CommandsAre(services, order, order, chosen, KFinish, lifecycle, 0, top);
    NobodyFinishes(order, top);
  }

  lemma StandoffIsClosed(services: Services, g: Graph<ServiceName>, some: set<ServiceName>, rest: ServiceStatus)
    requires IsStandoff(services, g, some, rest)
    ensures IsClosed(services)
  {
  }

  lemma NobodyFinishes(order: seq<ServiceName>, top: Pid)
    ensures Each(KFinish, Filter(order, {}), top) == []
  {
    NobodyIsLeft(order);
  }

  lemma StandoffIsNotOver(services: Services, g: Graph<ServiceName>, some: set<ServiceName>, rest: ServiceStatus)
    requires IsStandoff(services, g, some, rest) && IsStuck(g, some)
    ensures !AllHaveFinished(services)
  {
    var m := StuckMember(g, some);
    assert m in services && !services[m].IsTerminal();
  }

  /** The supervisor between two turns, on the way into the shutdown. */
  ghost predicate Lingers(s: State, services: Services, lifecycle: LifecycleStatus, sigterm: bool, inbox: seq<Event>) {
    && s.phase == Idle && s.outbox == [] && s.inbox == inbox
    && s.core.services == services && s.core.lifecycle == lifecycle && s.core.sigterm == sigterm
  }

  /** The signal is polled behind the last news. */
  lemma Polled(s: State, order: seq<ServiceName>, g: Graph<ServiceName>, some: set<ServiceName>, ns: seq<ServiceName>,
        top: Pid)
    returns (t: State)
    requires IsStuck(g, some) && IsIterationOrder(order, s.core.services)
    requires IsStandoff(s.core.services, g, some, Initial)
    requires Lingers(s, s.core.services, Active, true, Each(KRunning, ns, top))
    ensures Reaches(s, t) && Lingers(t, s.core.services, Active, true, [ShuttingDownInitiated(Gracefully)])
  {
    hide Reaches, IsStuck, IsStandoff, IsIterationOrder, NextAll, Each, CanTurn, Turned, IsClosed, HandleBatch;
    StandoffCommands(s.core.services, order, g, some, Initial, Active, 0);
    StandoffIsNotOver(s.core.services, g, some, Initial);
    Ignored(s.core, KRunning, ns, top, 0);
    assert s.inbox[..|ns|] == s.inbox;
    var b := Batch(s.core, [], |ns|, false);
    var polled := [ShuttingDownInitiated(Gracefully)];
    assert (s.inbox + PollSigterm(s.core))[|ns|..] == polled;
    TurnIs(s, |ns|, order, 0, b, polled, []);
    TurnIsSteps(s, PlainTurn(|ns|, order, 0));
    t := Turned(s, PlainTurn(|ns|, order, 0));
    assert polled + [] + [] == polled;
  }

  lemma ShutdownBegins(c: Core)
    ensures var b := HandleBatch(c, [ShuttingDownInitiated(Gracefully)], {}, 0);
      b == Batch(c.(lifecycle := ShuttingDown(Gracefully), sigterm := false), [], 1, false)
  {
    var e := ShuttingDownInitiated(Gracefully);
    assert [e][..0] == [];
    assert HandleBatch(c, [e], {}, 0) == HandleLast(Batch(c, [], 0, false), e, {}, 0);
  }

  /** The shutdown begins, with the signal polled once more behind it. */
  lemma Begun(s: State, order: seq<ServiceName>, g: Graph<ServiceName>, some: set<ServiceName>) returns (t: State)
    requires IsStuck(g, some) && IsIterationOrder(order, s.core.services)
    requires IsStandoff(s.core.services, g, some, Initial)
    requires Lingers(s, s.core.services, Active, true, [ShuttingDownInitiated(Gracefully)])
    ensures Reaches(s, t)
    ensures Lingers(t, s.core.services, ShuttingDown(Gracefully), false,
      [ShuttingDownInitiated(Gracefully)] + Each(KFinish, Filter(order, g.Keys - some), 0))
  {
    hide Reaches, IsStuck, IsIterationOrder, NextAll, Each, CanTurn, Turned, IsClosed, HandleBatch, Filter;
    StandoffCommands(s.core.services, order, g, some, Initial, ShuttingDown(Gracefully), 0);
    StandoffIsNotOver(s.core.services, g, some, Initial);
    ShutdownBegins(s.core);
    var commands := Each(KFinish, Filter(order, g.Keys - some), 0);
    var polled := [ShuttingDownInitiated(Gracefully)];
    assert s.inbox[..1] == s.inbox && (s.inbox + PollSigterm(s.core))[1..] == polled;
    TurnIs(s, 1, order, 0, HandleBatch(s.core, s.inbox[..1], {}, 0), polled, commands);
    TurnIsSteps(s, PlainTurn(1, order, 0));
    t := Turned(s, PlainTurn(1, order, 0));
    assert polled + [] + commands == polled + commands;
  }

  lemma OthersAreReady(services: Services, order: seq<ServiceName>, g: Graph<ServiceName>, some: set<ServiceName>,
        os: seq<ServiceName>)
    requires IsStandoff(services, g, some, Initial) && IsIterationOrder(order, services)
    requires os == Filter(order, g.Keys - some)
    ensures AllReady(KFinish, services, os)
    ensures forall n :: n in services ==> (n in os <==> n !in some)
  {
    FilterIsDistinct(order, g.Keys - some);
    forall n | n in services ensures n in os <==> n !in some {
      assert n in order;
    }
  }

  lemma FinishedAt(services: Services, os: seq<ServiceName>, n: ServiceName)
    requires AllReady(KFinish, services, os) && n in os
    ensures var moved := Moved(KFinish, services, os, 0);
      n in services && n in moved && moved[n] == services[n].(status := Finished)
  {
    MovedAt(KFinish, services, os, 0);
    var i :| 0 <= i < |os| && os[i] == n;
    assert Moved(KFinish, services, os, 0)[os[i]] == StepOf(KFinish, services[os[i]], 0 + i);
  }

  /** The services that were never started finish. */
  lemma OthersFinish(services: Services, order: seq<ServiceName>, g: Graph<ServiceName>, some: set<ServiceName>)
    requires IsStandoff(services, g, some, Initial) && IsIterationOrder(order, services)
    ensures var os := Filter(order, g.Keys - some);
      AllReady(KFinish, services, os) && IsStandoff(Moved(KFinish, services, os, 0), g, some, Finished)
      && IsIterationOrder(order, Moved(KFinish, services, os, 0))
  {
    hide Moved, Filter, AllReady, IsIterationOrder, IsClosed, ShutdownGraph;
    var os := Filter(order, g.Keys - some);
    OthersAreReady(services, order, g, some, os);
    ReadyIsDistinct(KFinish, services, os);
    MovedAt(KFinish, services, os, 0);
    var moved := Moved(KFinish, services, os, 0);
    forall n | n in services
      ensures n in moved && moved[n] == if n in some then services[n] else services[n].(status := Finished)
    {
      if n !in some {
        FinishedAt(services, os, n);
      }
    }
    SameConfiguration(services, moved, g, order);
  }

  lemma ReadyIsDistinct(k: Kind, services: Services, ns: seq<ServiceName>)
    requires AllReady(k, services, ns)
    ensures AreDistinct(ns) && forall n :: n in ns ==> n in services
  {
  }

  lemma SameConfiguration(services: Services, services': Services, g: Graph<ServiceName>, order: seq<ServiceName>)
    requires IsClosed(services) && ShutdownGraph(services) == g && IsIterationOrder(order, services)
    requires SameServices(services, services')
    ensures IsClosed(services') && ShutdownGraph(services') == g && IsIterationOrder(order, services')
  {
  }

  lemma Ended(s: State, order: seq<ServiceName>, g: Graph<ServiceName>, some: set<ServiceName>) returns (t: State)
    requires IsStuck(g, some) && IsIterationOrder(order, s.core.services)
    requires IsStandoff(s.core.services, g, some, Initial)
    requires Lingers(s, s.core.services, ShuttingDown(Gracefully), false,
      [ShuttingDownInitiated(Gracefully)] + Each(KFinish, Filter(order, g.Keys - some), 0))
    ensures Reaches(s, t) && t.core.lifecycle == ShuttingDown(Gracefully)
    ensures IsStandoff(t.core.services, g, some, Finished)
  {
    hide Reaches, IsStuck, IsIterationOrder, IsStandoff, NextAll, Each, CanTurn, Turned, IsClosed, HandleBatch, Filter,
      AllReady, Moved, Answers;
    var c, os, e := s.core, Filter(order, g.Keys - some), [ShuttingDownInitiated(Gracefully)];
    var q := Each(KFinish, os, 0);
    OthersFinish(c.services, order, g, some);
    ShutdownBegins(c);
    assert c.(lifecycle := ShuttingDown(Gracefully), sigterm := false) == c;
    BatchMoves(c, KFinish, os, 0, 0);
    BatchConcat(c, e, q, 0);
    var b := HandleBatch(c, e + q, {}, 0);
    StandoffCommands(b.core.services, order, g, some, Finished, ShuttingDown(Gracefully), 0);
    StandoffIsNotOver(c.services, g, some, Initial);
    assert s.inbox[..|e + q|] == e + q && (s.inbox + PollSigterm(c))[|e + q|..] == [];
    TurnIs(s, |e + q|, order, 0, b, [], []);
    TurnIsSteps(s, PlainTurn(|e + q|, order, 0));
    t := Turned(s, PlainTurn(|e + q|, order, 0));
  }

  /** A standoff in a graceful shutdown gets no further. */
  lemma StandoffIsWedged(c: Core, g: Graph<ServiceName>, some: set<ServiceName>, now: nat)
    requires IsStuck(g, some) && IsStandoff(c.services, g, some, Finished) && c.lifecycle == ShuttingDown(Gracefully)
    ensures IsWedgeable(c, g) && !MakesProgress(c, now)
  {
    StandoffIsNotOver(c.services, g, some, Finished);
    forall n, e | n in c.services ensures !IsCommandFor(c, n, now, e) {
      if n in some {
        NobodyIsKillable(c.services, g, some, Finished, n);
      }
    }
  }

  // ---------- the run into the standoff ----------

  /** The service stops after the given ones, and can be started or waits for itself. */
  predicate IsArranged(service: Service, stop: seq<ServiceName>, startable: bool) {
    service.shutdownAfter == stop && service.startAfter == if startable then [] else [service.name]
  }

  /** A configuration with the given shutdown-after graph, in which exactly `some` can be started. */
  lemma StopConfig(g: Graph<ServiceName>, some: set<ServiceName>)
    returns (config: seq<Service>, order: seq<ServiceName>)
    requires IsClosedGraph(g) && some <= g.Keys
    ensures forall s :: s in config ==> IsWellFormed(s, config)
    ensures var services := FromServices(config);
      && IsIterationOrder(order, services) && IsComing(services, {}) && services.Keys == g.Keys
      && (forall n :: n in g ==> n in order && IsArranged(services[n].service, g[n], n in some))
  {
    order := SetInOrder(g.Keys);
    var start: Graph<ServiceName> := map n | n in g :: if n in some then [] else [n];
    ClosedOnItself(g, some, start);
    hide FromServices, IsWellFormed, IsClosedGraph, IsComing, IsIterationOrder, ConfigOf;
    ConfigHolds(order, start, g);
    config := ConfigOf(order, start, g);
  }

  lemma ClosedOnItself(g: Graph<ServiceName>, some: set<ServiceName>, start: Graph<ServiceName>)
    requires start.Keys == g.Keys && forall n :: n in g ==> start[n] == if n in some then [] else [n]
    ensures IsClosedGraph(start)
  {
  }

  /** Exactly the members of `some` are runnable, and once they run nobody is. */
  lemma OnlySomeRun(base: Services, some: set<ServiceName>)
    requires IsComing(base, {}) && some <= base.Keys
    requires forall n :: n in base ==> base[n].service.startAfter == if n in some then [] else [n]
    ensures Runnable(base) == some
  {
    forall n | n in base ensures IsServiceRunnable(base, base[n]) <==> n in some {
      if n !in some {
        OwnDependent(base, n);
      }
    }
  }

  lemma SomeAreTheWave(base: Services, order: seq<ServiceName>, ns: seq<ServiceName>, some: set<ServiceName>)
    requires IsWave(base, {}, order, ns) && Runnable(base) == some
    ensures forall n :: n in base ==> (n in some <==> n in ns)
  {
    forall n | n in base ensures n in some <==> n in ns {
      assert n in order;
    }
  }

  lemma StandoffArises(base: Services, services: Services, order: seq<ServiceName>, ns: seq<ServiceName>,
        g: Graph<ServiceName>, some: set<ServiceName>)
    requires IsWave(base, {}, order, ns) && IsAtStage(base, services, ns, Running, true) && Runnable(base) == some
    requires IsComing(services, {} + SetOf(ns)) && base.Keys == g.Keys
    requires forall n :: n in g ==> IsArranged(base[n].service, g[n], n in some)
    ensures IsStandoff(services, g, some, Initial) && Runnable(services) == {}
  {
    SomeAreTheWave(base, order, ns, some);
    ComingIsClosed(services, {} + SetOf(ns));
    StandoffGraph(base, services, ns, g, some);
    hide IsWave, Runnable, IsServiceRunnable, IsClosed, ShutdownGraph, IsArranged, RunsWell;
    forall n | n in services
      ensures if n in some then RunsWell(services[n])
              else services[n].status == Initial && services[n].service.startAfter == [n]
    {
      StandsOff(base, services, ns, some, g, n);
    }
    StandoffStops(services, some);
  }

  lemma StandoffGraph(base: Services, services: Services, ns: seq<ServiceName>, g: Graph<ServiceName>,
        some: set<ServiceName>)
    requires IsAtStage(base, services, ns, Running, true) && base.Keys == g.Keys
    requires forall n :: n in g ==> IsArranged(base[n].service, g[n], n in some)
    ensures ShutdownGraph(services) == g
  {
    forall n | n in base ensures services[n].service == base[n].service {
    }
  }

  lemma StandsOff(base: Services, services: Services, ns: seq<ServiceName>, some: set<ServiceName>,
        g: Graph<ServiceName>, n: ServiceName)
    requires IsAtStage(base, services, ns, Running, true) && IsComing(services, {} + SetOf(ns)) && base.Keys == g.Keys
    requires n in services && (n in some <==> n in ns) && IsArranged(base[n].service, g[n], n in some)
    ensures if n in some then RunsWell(services[n])
            else services[n].status == Initial && services[n].service.startAfter == [n]
  {
    assert n in {} + SetOf(ns) <==> n in ns;
    assert services[n].service == base[n].service && services[n].service.name == n;
  }

  lemma StandoffStops(services: Services, some: set<ServiceName>)
    requires IsClosed(services)
    requires forall n :: n in services ==>
      if n in some then RunsWell(services[n])
      else services[n].status == Initial && services[n].service.startAfter == [n]
    ensures Runnable(services) == {}
  {
    NobodyElseCanRun(services, some);
  }

  lemma NobodyElseCanRun(services: Services, some: set<ServiceName>)
    requires IsClosed(services)
    requires forall n :: n in services ==>
      if n in some then services[n].status == Running else services[n].service.startAfter == [n]
    ensures Runnable(services) == {}
  {
    forall n | n in services ensures !IsServiceRunnable(services, services[n]) {
      if n !in some {
        OwnDependent(services, n);
      }
    }
  }

  /** A shutdown-after graph with a stuck set leads some configuration, all of whose processes run well, into
      a graceful shutdown that gets no further after one SIGTERM. */
  lemma WedgeIsReached(g: Graph<ServiceName>, some: set<ServiceName>) returns (t: State)
    requires IsClosedGraph(g) && IsStuck(g, some)
    ensures IsReachable(t) && IsWedgeable(t.core, g) && forall now: nat :: !MakesProgress(t.core, now)
  {
    hide Reaches, FromServices, IsWellFormed, IsClosedGraph, IsComing, IsIterationOrder, IsStuck, IsWedgeable,
      MakesProgress, IsClosed, Start, IsStandoff, Each;
    var m := StuckMember(g, some);
    StuckAreMembers(g, some);
    var config, order := StopConfig(g, some);
    var s := FirstTurn(config, order);
    var u, ns := SomeComeUp(s, order, g, some);
    ReachesTransitively(Start(config), s, u);
    ReachesStep(Start(config), u, Terminate);
    var v := Apply(u, Terminate);
    var w := Polled(v, order, g, some, ns, |ns|);
    ReachesTransitively(Start(config), v, w);
    var x := Begun(w, order, g, some);
    ReachesTransitively(Start(config), w, x);
    t := Ended(x, order, g, some);
    ReachesTransitively(Start(config), x, t);
    assert IsReachedWith(t, config);
    StandoffCanWedge(t.core, g, some);
    forall now: nat ensures !MakesProgress(t.core, now) {
      StandoffIsWedged(t.core, g, some, now);
    }
  }

  lemma StandoffCanWedge(c: Core, g: Graph<ServiceName>, some: set<ServiceName>)
    requires IsStuck(g, some) && IsStandoff(c.services, g, some, Finished) && c.lifecycle == ShuttingDown(Gracefully)
    ensures IsWedgeable(c, g) && IsClosed(c.services)
  {
    hide MakesProgress;
    StandoffIsWedged(c, g, some, 0);
  }

  lemma StuckAreMembers(g: Graph<ServiceName>, some: set<ServiceName>)
    requires IsStuck(g, some)
    ensures some <= g.Keys
  {
  }

  lemma ArrangedRuns(base: Services, g: Graph<ServiceName>, some: set<ServiceName>)
    requires IsComing(base, {}) && base.Keys == g.Keys && some <= g.Keys
    requires forall n :: n in g ==> IsArranged(base[n].service, g[n], n in some)
    ensures Runnable(base) == some
  {
    forall n | n in base ensures base[n].service.startAfter == if n in some then [] else [n] {
    }
    OnlySomeRun(base, some);
  }

  lemma SomeComeUp(s: State, order: seq<ServiceName>, g: Graph<ServiceName>, some: set<ServiceName>)
    returns (t: State, ns: seq<ServiceName>)
    requires IsStuck(g, some) && Rests(s, {}, order, [], 0) && s.core.services.Keys == g.Keys
    requires forall n :: n in g ==> n in order && IsArranged(s.core.services[n].service, g[n], n in some)
    ensures Reaches(s, t) && IsStandoff(t.core.services, g, some, Initial) && IsIterationOrder(order, t.core.services)
    ensures Lingers(t, t.core.services, Active, false, Each(KRunning, ns, |ns|))
  {
    hide Reaches, IsStuck, IsAtStage, Each, IsIterationOrder, IsStandoff, IsClosed, IsArranged, IsServiceRunnable,
      Runnable;
    var base := s.core.services;
    StuckAreMembers(g, some);
    var m := StuckMember(g, some);
    ArrangedRuns(base, g, some);
    ns := Filter(order, Runnable(base));
    assert m in ns;
    t := Wave(s, {}, order, [], 0);
    assert IsWave(base, {}, order, ns);
    StandoffArises(base, t.core.services, order, ns, g, some);
    NobodyIsLeft(order);
    assert Each(KRun, [], |ns|) == [] by { EmptyEach(KRun, |ns|); }
    assert Each(KRunning, ns, |ns|) + [] == Each(KRunning, ns, |ns|);
  }

  lemma EmptyEach(k: Kind, top: Pid)
    ensures Each(k, [], top) == []
  {
  }

  ghost predicate NeverWedges(g: Graph<ServiceName>) {
    forall s: State, now: nat :: IsReachable(s) && IsWedgeable(s.core, g) ==> MakesProgress(s.core, now)
  }

  /** Every reachable state of a graceful shutdown in which nothing is starting or being killed has a command
      that moves it on, if and only if shutdown-after has no cycle. */
  lemma GracefulNeverWedgesExactly(g: Graph<ServiceName>)
    requires IsClosedGraph(g)
    ensures IsAcyclic(g) <==> NeverWedges(g)
  {
    hide IsReachable, MakesProgress, IsClosedGraph;
    CyclicMeansStuck(g);
    if IsAcyclic(g) {
      forall s: State, now: nat | IsReachable(s) && IsWedgeable(s.core, g) ensures MakesProgress(s.core, now) {
        AcyclicProgresses(s.core, now, g);
      }
    } else {
      var some :| IsStuck(g, some);
      var t := WedgeIsReached(g, some);
      assert IsReachable(t) && IsWedgeable(t.core, g) && !MakesProgress(t.core, 0);
    }
  }
}
