/** The supervisor's repository of services: construction and queries. */
module Repos {
  import opened Formats
  import opened ServiceHandlers

  type Services = map<ServiceName, ServiceHandler>

  /** Later definitions of a name replace earlier ones. */
  function FromServices(services: seq<Service>): Services {
    if services == [] then map[]
    else
      var last := services[|services| - 1];
      FromServices(services[..|services| - 1])[last.name := NewHandler(last)]
  }

  /** Keys are the services' own names and every name a lookup may be made for is a key. */
  ghost predicate IsClosed(services: Services) {
    forall n :: n in services ==>
      && services[n].service.name == n
      && (forall d :: d in services[n].service.startAfter ==> d in services)
      && (forall d :: d in services[n].service.shutdownAfter ==> d in services)
  }

  predicate AllHaveFinished(services: Services) {
    forall n :: n in services ==> services[n].IsTerminal()
  }

  predicate AnyFinishedFailed(services: Services) {
    exists n :: n in services && services[n].status == FinishedFailed
  }

  predicate IsServiceRunnable(services: Services, sh: ServiceHandler)
    requires forall d :: d in sh.service.startAfter ==> d in services
  {
    sh.status == Initial && forall d :: d in sh.service.startAfter ==>
        services[d].status.Running? || services[d].status.Finished?
  }

  predicate IsServiceKillable(services: Services, sh: ServiceHandler)
    requires forall d :: d in sh.service.shutdownAfter ==> d in services
  {
    forall d :: d in sh.service.shutdownAfter ==> services[d].IsTerminal()
  }

  /** `order` is the order in which the hash map is iterated. */
  predicate IsIterationOrder(order: seq<ServiceName>, services: Services) {
    && (forall n :: n in order ==> n in services) && (forall n :: n in services ==> n in order)
    && (forall i, j :: 0 <= i < j < |order| ==> order[i] != order[j])
  }

  /** The services that start after `name`, in iteration order. */
  function GetDependents(services: Services, order: seq<ServiceName>, name: ServiceName): (r: seq<ServiceName>)
    requires forall n :: n in order ==> n in services
    ensures forall n :: n in r <==> n in order && name in services[n].service.startAfter
  {
    if order == [] then []
    else
      (if name in services[order[0]].service.startAfter then [order[0]] else [])
      + GetDependents(services, order[1..], name)
  }

  /** The services that must die when `name` fails, in iteration order. */
  function GetDieIfFailed(services: Services, order: seq<ServiceName>, name: ServiceName): (r: seq<ServiceName>)
    requires forall n :: n in order ==> n in services
    ensures forall n :: n in r <==> n in order && name in services[n].service.dieIfFailed
  {
    if order == [] then []
    else
      (if name in services[order[0]].service.dieIfFailed then [order[0]] else [])
      + GetDieIfFailed(services, order[1..], name)
  }

  /** No later definition has the name of definition `i`. */
  predicate IsLastOfName(services: seq<Service>, i: int) {
    0 <= i < |services| && forall j :: i < j < |services| ==> services[j].name != services[i].name
  }

  /** The last definition of each name is the one that counts. */
  lemma {:induction false} LastDefinitionCounts(services: seq<Service>, i: int)
    requires IsLastOfName(services, i)
    ensures services[i].name in FromServices(services)
    ensures FromServices(services)[services[i].name] == NewHandler(services[i])
  {
    var k := |services| - 1;
    if i < k {
      assert IsLastOfName(services[..k], i);
      assert services[k].name != services[i].name;
      LastDefinitionCounts(services[..k], i);
    }
  }

  lemma {:induction false} KeysAreDefined(services: seq<Service>)
    ensures forall n :: n in FromServices(services) <==> IsDefined(services, n)
  {
    if services != [] {
      var k := |services| - 1;
      KeysAreDefined(services[..k]);
      forall n ensures n in FromServices(services) <==> IsDefined(services, n) {
        assert IsDefined(services[..k], n) ==> IsDefined(services, n);
        if IsDefined(services, n) && n != services[k].name {
          var i :| 0 <= i < |services| && services[i].name == n;
          assert services[..k][i].name == n;
        }
      }
    }
  }

  lemma {:induction false} HandlersAreNew(services: seq<Service>)
    ensures forall n :: n in FromServices(services) ==>
      && FromServices(services)[n].service in services
      && FromServices(services)[n] == NewHandler(FromServices(services)[n].service)
      && FromServices(services)[n].service.name == n
  {
    if services != [] {
      HandlersAreNew(services[..|services| - 1]);
    }
  }

  /** The repository holds exactly the names defined, each with a new handler of its last definition. */
  lemma FromServicesHolds(services: seq<Service>)
    ensures forall n :: n in FromServices(services) <==> IsDefined(services, n)
    ensures forall n :: n in FromServices(services) ==>
      && FromServices(services)[n].service in services
      && FromServices(services)[n] == NewHandler(FromServices(services)[n].service)
      && FromServices(services)[n].service.name == n
    ensures forall i :: IsLastOfName(services, i) ==>
      services[i].name in FromServices(services) && FromServices(services)[services[i].name] == NewHandler(services[i])
  {
    hide FromServices, IsDefined;
    KeysAreDefined(services);
    HandlersAreNew(services);
    forall i | IsLastOfName(services, i)
      ensures services[i].name in FromServices(services)
      ensures FromServices(services)[services[i].name] == NewHandler(services[i])
    {
      LastDefinitionCounts(services, i);
    }
  }

  /** A configuration accepted by `Validate` gives a repository in which no lookup by name can fail. */
  lemma ValidatedIsClosed(services: seq<Service>)
    requires forall s :: s in services ==> IsWellFormed(s, services)
    ensures IsClosed(FromServices(services))
  {
    FromServicesHolds(services);
  }
}
