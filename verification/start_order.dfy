/** Services start after those they name, and an acyclic configuration always has one to start. */
module StartOrder {
  import opened Formats
  import opened ServiceHandlers
  import opened Repos
  import opened Commands
  import opened Dependencies
  import opened Emissions
  import opened Machine
  import opened Kills
  import opened Records

  // ---------- nothing starts before its dependencies ----------

  /** `d` was Running or Finished in one of the first states of the run. */
  ghost predicate WasUp(r: Trace, upTo: nat, d: ServiceName) {
    exists k :: 0 <= k < |r.states| && k <= upTo && d in r.states[k].core.services
      && (r.states[k].core.services[d].status.Running? || r.states[k].core.services[d].status.Finished?)
  }

  ghost predicate DependenciesWereUp(r: Trace, upTo: nat, services: Services, n: ServiceName) {
    n in services ==> forall d :: d in services[n].service.startAfter ==> WasUp(r, upTo, d)
  }

  /** Runs on their way, and starts made, are of services whose dependencies were up. */
  ghost predicate StartInv(r: Trace, i: nat)
    requires i < |r.states|
  {
    var s := r.states[i];
    && (forall n :: Run(n) in s.Queue() ==> DependenciesWereUp(r, i, s.core.services, n))
    && (forall change :: change in s.core.changes && change.to == Starting ==>
          DependenciesWereUp(r, i, s.core.services, change.name))
  }

  /** A service is started by handling a Run for it. */
  lemma HandleStarts(c: Core, ev: Event, prepared: bool, now: nat, change: Change)
    requires CanHandle(c, ev) && IsPublished(ev)
    requires change.to == Starting && change in HandleEvent(c, ev, prepared, now).core.changes
    ensures change in c.changes || ev == Run(change.name)
  {
    if ev.Run? {
      RunStarts(c, ev.name, prepared, change);
    } else {
      HandleAssigns(c, ev, prepared, now);
    }
  }

  lemma RunStarts(c: Core, n: ServiceName, prepared: bool, change: Change)
    requires n in c.services && change in HandleRun(c, n, prepared).core.changes
    ensures change in c.changes || change.name == n
  {
  }

  lemma HandleRunsNobody(c: Core, ev: Event, prepared: bool, now: nat, n: ServiceName)
    requires CanHandle(c, ev)
    ensures Run(n) !in HandleEvent(c, ev, prepared, now).produced
  {
  }

  /** A Run is put on its way only for a service that is runnable at that moment. */
  lemma StepRuns(s: State, a: Action, n: ServiceName)
    requires IsClosed(s.core.services) && Enabled(s, a)
    requires Run(n) in Apply(s, a).Queue() && Run(n) !in s.Queue()
    ensures n in s.core.services && IsServiceRunnable(s.core.services, s.core.services[n])
  {
    var s' := Apply(s, a);
    assert Run(n) !in s.inbox && Run(n) !in s.outbox by {
      assert s.Queue() == s.inbox + s.outbox;
    }
    if a.Handle? {
      if CanHandle(s.core, s.inbox[0]) {
        HandleRunsNobody(s.core, s.inbox[0], a.prepared, a.now, n);
      }
    } else if a.Compute? {
      NextAllIsJustified(s.core.services, a.order, a.order, s.core.lifecycle, a.now);
      ReapsFollow(s.core.pidMap, a.reaped, n);
    }
  }

  lemma StepStarts(s: State, a: Action, change: Change)
    requires KillInv(s) && Enabled(s, a)
    requires change.to == Starting && change in Apply(s, a).core.changes && change !in s.core.changes
    ensures Run(change.name) in s.Queue()
  {
    if a.Handle? && CanHandle(s.core, s.inbox[0]) {
      assert s.Queue()[0] == s.inbox[0];
      HandleStarts(s.core, s.inbox[0], a.prepared, a.now, change);
    }
  }

  /** In every run, whenever a service has been started, every service of its start-after list had been
      Running or Finished at some earlier point. */
  lemma {:induction false} StartsInOrder(r: Trace, config: seq<Service>, i: nat)
    requires IsProgramTrace(r, config) && i < |r.states|
    ensures StartInv(r, i)
  {
    hide Apply, Enabled, TimerInv, DependenciesWereUp, SameServices;
    Begins(r, config);
    NoLostKill(r, config, i);
    if i == 0 {
      assert r.states[0].Queue() == [];
    } else {
      Goes(r, config, i - 1);
      StartsInOrder(r, config, i - 1);
      NoLostKill(r, config, i - 1);
      var s, a := r.states[i - 1], r.actions[i - 1];
      StepKeepsServices(s, a);
      forall n | Run(n) in r.states[i].Queue() ensures DependenciesWereUp(r, i, r.states[i].core.services, n) {
        if Run(n) !in s.Queue() {
          StepRuns(s, a, n);
          RunnableMeansUp(r, i - 1, n);
        }
        UpStaysUp(r, i, n);
      }
      forall change | change in r.states[i].core.changes && change.to == Starting
        ensures DependenciesWereUp(r, i, r.states[i].core.services, change.name)
      {
        if change !in s.core.changes {
          StepStarts(s, a, change);
        }
        UpStaysUp(r, i, change.name);
      }
    }
  }

  lemma RunnableMeansUp(r: Trace, i: nat, n: ServiceName)
    requires i < |r.states| && n in r.states[i].core.services && IsClosed(r.states[i].core.services)
    requires IsServiceRunnable(r.states[i].core.services, r.states[i].core.services[n])
    ensures DependenciesWereUp(r, i, r.states[i].core.services, n)
  {
  }

  lemma UpStaysUp(r: Trace, i: nat, n: ServiceName)
    requires 0 < i < |r.states| && SameServices(r.states[i - 1].core.services, r.states[i].core.services)
    requires DependenciesWereUp(r, i - 1, r.states[i - 1].core.services, n)
    ensures DependenciesWereUp(r, i, r.states[i].core.services, n)
  {
    if n in r.states[i].core.services {
      forall d | d in r.states[i].core.services[n].service.startAfter ensures WasUp(r, i, d) {
        assert WasUp(r, i - 1, d);
      }
    }
  }

  // ---------- somebody can always start ----------

  function StartGraph(services: Services): Graph<ServiceName> {
    map n | n in services :: services[n].service.startAfter
  }

  /** Some services still wait, and nothing stands in their way but each other. */
  ghost predicate IsWaiting(services: Services) {
    && (exists n :: n in services && services[n].status == Initial)
    && (forall n :: n in services ==>
          || services[n].status.Initial? || services[n].status.Running?
          || services[n].status.Finished?)
  }

  lemma AcyclicStarts(g: Graph<ServiceName>, services: Services)
    requires IsClosed(services) && StartGraph(services) == g && IsWaiting(services)
    requires forall some :: !IsStuck(g, some)
    ensures exists n :: n in services && IsServiceRunnable(services, services[n])
  {
    var waiting := set n | n in services && services[n].status == Initial;
    var m :| m in services && services[m].status == Initial;
    assert m in waiting;
    assert !IsStuck(g, waiting);
    var n :| n in waiting && !DependsWithin(g, waiting, n);
    forall d | d in services[n].service.startAfter ensures services[d].status.Running? || services[d].status.Finished? {
      assert DependsOn(g, n, d);
    }
    assert IsServiceRunnable(services, services[n]);
  }

  /** In whatever order the services are asked, a service is told to run if and only if the system is up, the
      service waits, and each service it starts after is Running or Finished. */
  lemma RunnableIsRun(services: Services, order: seq<ServiceName>, lifecycle: LifecycleStatus, n: ServiceName,
        now: nat)
    requires IsClosed(services) && IsIterationOrder(order, services)
    ensures Run(n) in NextAll(services, order, order, lifecycle, now) <==>
      && lifecycle == Active && n in services && services[n].status == Initial
      && forall d :: d in services[n].service.startAfter ==>
           d in services && (services[d].status == Running || services[d].status == Finished)
  {
    hide NextAll;
    CommandsExactly(services, order, lifecycle, now, Run(n));
  }

  /** So only the status of the service and those of the services it starts after matter. */
  lemma OnlyDependenciesMatter(services: Services, order: seq<ServiceName>, services': Services,
        order': seq<ServiceName>, n: ServiceName, now: nat, now': nat)
    requires IsClosed(services) && IsIterationOrder(order, services) && n in services
    requires IsClosed(services') && IsIterationOrder(order', services') && n in services'
    requires services'[n].status == services[n].status
    requires services'[n].service.startAfter == services[n].service.startAfter
    requires forall d :: d in services[n].service.startAfter ==> services'[d].status == services[d].status
    ensures Run(n) in NextAll(services', order', order', Active, now')
      <==> Run(n) in NextAll(services, order, order, Active, now)
  {
    hide NextAll;
    RunnableIsRun(services, order, Active, n, now);
    RunnableIsRun(services', order', Active, n, now');
  }
}
