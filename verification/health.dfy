/** The health monitor: one worker thread for every service that is up and has health checks. */
module HealthMonitors {
  import opened Formats

  // ---------- what should be watched ----------

  /** The event says that a process of `n` came up, respectively went away. */
  predicate IsUp(e: Event, n: ServiceName) { e == StatusChanged(n, Started) }

  predicate IsDown(e: Event, n: ServiceName) { e.ServiceExited? && e.name == n }

  /** Of all these events the last that says whether `n` is up says that it is. */
  predicate IsWatched(evs: seq<Event>, n: ServiceName) {
    evs != [] &&
    var last := evs[|evs| - 1];
    IsUp(last, n) || (!IsDown(last, n) && IsWatched(evs[..|evs| - 1], n))
  }

  /** The first definition of a name counts. */
  function FirstNamed(services: seq<Service>, n: ServiceName): (r: Option<Service>)
    ensures r.Some? <==> IsDefined(services, n)
    ensures r.Some? ==> exists i :: 0 <= i < |services| && services[i] == r.value && services[i].name == n
                                  && forall j :: 0 <= j < i ==> services[j].name != n
  {
    if services == [] then None
    else if services[0].name == n then Some(services[0])
    else
      assert IsDefined(services[1..], n) ==> IsDefined(services, n) by {
        if i :| 0 <= i < |services[1..]| && services[1..][i].name == n {
          assert services[i + 1].name == n;
        }
      }
      assert IsDefined(services, n) ==> IsDefined(services[1..], n) by {
        if i :| 0 <= i < |services| && services[i].name == n {
          assert services[1..][i - 1].name == n;
        }
      }
      FirstNamed(services[1..], n)
  }

  predicate HasChecks(services: seq<Service>, n: ServiceName) {
    var first := FirstNamed(services, n);
    first.Some? && first.value.anyCheckDefined
  }

  /** The reports the monitor makes itself: each time a service without checks comes up, that it is healthy. */
  function ReportsOf(evs: seq<Event>, services: seq<Service>): seq<Event> {
    if evs == [] then []
    else
      var last := evs[|evs| - 1];
      ReportsOf(evs[..|evs| - 1], services)
      + if last.StatusChanged? && IsUp(last, last.name) && !HasChecks(services, last.name)
        then [HealthCheck(last.name, true)] else []
  }

  /** Exactly the services without checks that came up are reported, and as healthy. */
  lemma {:induction false} ReportsAreExact(evs: seq<Event>, services: seq<Service>, e: Event)
    ensures e in ReportsOf(evs, services) <==>
      && e.HealthCheck? && e.healthy && StatusChanged(e.name, Started) in evs
      && forall first :: FirstNamed(services, e.name) == Some(first) ==> !first.anyCheckDefined
  {
    hide FirstNamed;
    if evs != [] {
      var most := evs[..|evs| - 1];
      ReportsAreExact(most, services, e);
      assert evs == most + [evs[|evs| - 1]];
    }
  }

  /** The services that are up and have checks. */
  ghost predicate AreWatched(names: set<ServiceName>, evs: seq<Event>, services: seq<Service>) {
    forall n :: n in names <==> IsWatched(evs, n) && HasChecks(services, n)
  }

  ghost function WatchedAfter(names: set<ServiceName>, e: Event, services: seq<Service>): set<ServiceName> {
    if e.StatusChanged? && e.status == Started && HasChecks(services, e.name) then names + {e.name}
    else if e.ServiceExited? then names - {e.name}
    else names
  }

  lemma OneMore(names: set<ServiceName>, evs: seq<Event>, e: Event, services: seq<Service>)
    requires AreWatched(names, evs, services)
    ensures AreWatched(WatchedAfter(names, e, services), evs + [e], services)
    ensures ReportsOf(evs + [e], services) == ReportsOf(evs, services)
      + if e.StatusChanged? && IsUp(e, e.name) && !HasChecks(services, e.name) then [HealthCheck(e.name, true)] else []
  {
    hide FirstNamed, HasChecks;
    assert (evs + [e])[..|evs|] == evs;
  }

  // ---------- the monitor ----------

  class Worker {
    const service: Service
    var running: bool

    constructor (service: Service)
      ensures this.service == service && running
    {
      this.service, running := service, true;
    }

    /** Notifies the thread and waits for its end. */
    method Stop()
      modifies this
      ensures !running
    {
      running := false;
    }
  }

  datatype Outcome = Waiting | Done | Panicked

  class HealthMonitor {
    const services: seq<Service>
    var workers: map<ServiceName, Worker>
    var reports: seq<Event>
    /** All workers ever started, and all events handled. */
    ghost var spawned: set<Worker>
    ghost var log: seq<Event>

    /** The running workers are those in the table, each under the name of its service. */
    ghost predicate IsConsistent()
      reads `workers, `spawned, spawned
    {
      && (forall n :: n in workers ==> workers[n] in spawned && workers[n].running && workers[n].service.name == n)
      && (forall w :: w in spawned && w.running ==> w.service.name in workers && workers[w.service.name] == w)
    }

    /** A service has a worker exactly while it is up and has checks. */
    ghost predicate Valid()
      reads this, spawned
    {
      && IsConsistent()
      && AreWatched(workers.Keys, log, services)
      && reports == ReportsOf(log, services)
    }

    constructor (services: seq<Service>)
      ensures Valid() && this.services == services && log == [] && spawned == {}
    {
      this.services := services;
      workers, reports, spawned, log := map[], [], {}, [];
    }

    method StopWorker(n: ServiceName)
      requires IsConsistent()
      modifies `workers, spawned
      ensures IsConsistent() && workers == old(workers) - {n} && workers.Keys == old(workers.Keys) - {n}
    {
      if n in workers {
        var w := workers[n];
        w.Stop();
        workers := workers - {n};
      }
    }

    method StartWorker(service: Service)
      requires IsConsistent() && service.name !in workers
      modifies `workers, `spawned
      ensures IsConsistent() && fresh(spawned - old(spawned)) && old(spawned) <= spawned
      ensures workers.Keys == old(workers.Keys) + {service.name} && workers[service.name].service == service
    {
      var w := new Worker(service);
      workers := workers[service.name := w];
      spawned := spawned + {w};
    }

    /** A service that came up gets a new worker, or a report at once if there is nothing to check. */
    method Watch(service: Service)
      requires IsConsistent()
      modifies `workers, `spawned, `reports, spawned
      ensures IsConsistent() && fresh(spawned - old(spawned)) && old(spawned) <= spawned
      ensures workers.Keys == old(workers.Keys) + if service.anyCheckDefined then {service.name} else {}
      ensures reports == old(reports) + if service.anyCheckDefined then [] else [HealthCheck(service.name, true)]
    {
      if !service.anyCheckDefined {
        reports := reports + [HealthCheck(service.name, true)];
      } else {
        StopWorker(service.name);
        StartWorker(service);
      }
    }

    /** Looks the service up, and watches it if there is one. */
    method WatchNamed(n: ServiceName) returns (known: bool)
      requires IsConsistent()
      modifies `workers, `spawned, `reports, spawned
      ensures IsConsistent() && fresh(spawned - old(spawned)) && old(spawned) <= spawned
      ensures known <==> IsDefined(services, n)
      ensures known ==> workers.Keys == old(workers.Keys) + if HasChecks(services, n) then {n} else {}
      ensures known ==> reports == old(reports) + if HasChecks(services, n) then [] else [HealthCheck(n, true)]
    {
      hide IsDefined, HealthMonitor.IsConsistent;
      var service := FirstNamed(services, n);
      known := service.Some?;
      if known {
        Watch(service.value);
      }
    }

    method StopAll()
      requires IsConsistent()
      modifies `workers, spawned
      ensures workers == map[] && forall w :: w in spawned ==> !w.running
    {
      while workers != map[]
        invariant IsConsistent()
        decreases |workers|
      {
        var n :| n in workers;
        ghost var before := workers;
        StopWorker(n);
        assert workers.Keys == before.Keys - {n};
        assert |workers.Keys| < |before.Keys|;
      }
      forall w | w in spawned ensures !w.running {
      }
    }

    /** One event of the loop. A service that is not configured cannot be looked up; after a shutdown
        announcement no worker is left. */
    method Handle(ev: Event) returns (outcome: Outcome)
      requires Valid()
      modifies this, spawned
      ensures fresh(spawned - old(spawned)) && old(spawned) <= spawned
      ensures outcome.Panicked? <==> ev.StatusChanged? && IsUp(ev, ev.name) && !IsDefined(services, ev.name)
      ensures outcome.Done? <==> ev.ShuttingDownInitiated?
      ensures outcome.Waiting? ==> Valid() && log == old(log) + [ev]
      ensures outcome.Done? ==> workers == map[] && forall w :: w in spawned ==> !w.running
    {
      OneMore(workers.Keys, log, ev, services);
      hide AreWatched, ReportsOf, FirstNamed, HasChecks, IsDefined, HealthMonitor.IsConsistent;
      match ev {
        case StatusChanged(n, Started) =>
          var known := WatchNamed(n);
          if !known {
            return Panicked;
          }
        case ServiceExited(n, _) => StopWorker(n);
        case ShuttingDownInitiated(_) =>
          StopAll();
          return Done;
        case _ =>
      }
      assert workers.Keys == WatchedAfter(old(workers.Keys), ev, services);
      log := log + [ev];
      outcome := Waiting;
    }

    /** The loop over the events that arrive: until a shutdown is announced, each service that is up and has
        checks has a worker, and nobody else; from then on nobody has. */
    method Run(evs: seq<Event>) returns (outcome: Outcome)
      requires Valid() && log == []
      modifies this, spawned
      ensures outcome.Waiting? ==> Valid() && log == evs && forall e :: e in evs ==> !e.ShuttingDownInitiated?
      ensures outcome.Done? ==> workers == map[] && forall w :: w in spawned ==> !w.running
      ensures outcome.Done? ==> exists e :: e in evs && e.ShuttingDownInitiated?
      ensures outcome.Panicked? ==> exists e :: e in evs && e.StatusChanged? && !IsDefined(services, e.name)
    {
      var i := 0;
      outcome := Waiting;
      while i < |evs|
        invariant 0 <= i <= |evs| && Valid() && log == evs[..i]
        invariant fresh(spawned - old(spawned))
        invariant forall k :: 0 <= k < i ==> !evs[k].ShuttingDownInitiated?
      {
        outcome := Handle(evs[i]);
        if !outcome.Waiting? {
          assert evs[i] in evs;
          return;
        }
        assert evs[..i + 1] == evs[..i] + [evs[i]];
        i := i + 1;
      }
      assert evs[..|evs|] == evs;
      outcome := Waiting;
    }
  }
}
