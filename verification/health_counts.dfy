/** Failed health checks over the history of a run: the counter of a service counts all it has ever had while
    it was up, whether or not they came in a row, and in whichever of its lives. */
module HealthCounts {
  import opened Formats
  import opened ServiceHandlers
  import opened Repos
  import opened Commands
  import opened Emissions
  import opened Machine
  import opened Invariants
  import opened Records
  import opened Iterations
  import opened Overruns

  /** The step handles a health report on `n`. */
  predicate IsCheck(s: State, a: Action, n: ServiceName) {
    a.Handle? && |s.inbox| > 0 && s.inbox[0].HealthCheck? && s.inbox[0].name == n && n in s.core.services
  }

  predicate IsUp(status: ServiceStatus) { status == Starting || status == Started || status == Running }

  /** The report is bad, and `n` is up. */
  predicate IsFailure(s: State, a: Action, n: ServiceName) {
    IsCheck(s, a, n) && !s.inbox[0].healthy && IsUp(s.core.services[n].status)
  }

  /** How many of the first `i` steps handle a bad report on `n` while it is up. */
  function Failures(r: Trace, i: nat, n: ServiceName): nat
    requires i <= |r.actions| && |r.states| == |r.actions| + 1
  {
    if i == 0 then 0
    else Failures(r, i - 1, n) + if IsFailure(r.states[i - 1], r.actions[i - 1], n) then 1 else 0
  }

  /** One of the first `i` steps handles a report on `n`. */
  predicate WasChecked(r: Trace, i: nat, n: ServiceName)
    requires i <= |r.actions| && |r.states| == |r.actions| + 1
  {
    i > 0 && (IsCheck(r.states[i - 1], r.actions[i - 1], n) || WasChecked(r, i - 1, n))
  }

  /** The counter as the reports make it. */
  function Counted(r: Trace, i: nat, n: ServiceName): Option<int>
    requires i <= |r.actions| && |r.states| == |r.actions| + 1
  {
    if WasChecked(r, i, n) then Some(Failures(r, i, n)) else None
  }

  lemma HandleChecks(c: Core, ev: Event, prepared: bool, now: nat, n: ServiceName)
    requires CanHandle(c, ev) && n in c.services
    ensures var d := HandleEvent(c, ev, prepared, now).core;
      && n in d.services
      && (!(ev.HealthCheck? && ev.name == n) ==>
            d.services[n].healthinessChecksFailed == c.services[n].healthinessChecksFailed)
      && (ev.HealthCheck? && ev.name == n ==> d.services[n] == c.services[n].AddHealthcheckEvent(ev.healthy))
  {
    if ev.ShuttingDownInitiated? || ev.name != n {
      OthersUntouched(c, ev, prepared, now, n);
    }
  }

  lemma StepChecks(s: State, a: Action, n: ServiceName)
    requires Enabled(s, a) && n in s.core.services
    ensures n in Apply(s, a).core.services
    ensures Apply(s, a).core.services[n].healthinessChecksFailed
      == if IsCheck(s, a, n) then s.core.services[n].AddHealthcheckEvent(s.inbox[0].healthy).healthinessChecksFailed
         else s.core.services[n].healthinessChecksFailed
  {
    hide HandleEvent, ReapEvents, NextAll, AllHaveFinished;
    if a.Handle? && CanHandle(s.core, s.inbox[0]) {
      HandleChecks(s.core, s.inbox[0], a.prepared, a.now, n);
    } else {
      ServicesAreStill(s, a);
    }
  }

  lemma FailuresNeedChecks(r: Trace, i: nat, n: ServiceName)
    requires i <= |r.actions| && |r.states| == |r.actions| + 1
    ensures !WasChecked(r, i, n) ==> Failures(r, i, n) == 0
  {
  }

  /** In every run the counter of failed checks is empty until the first report is handled, and from then on is
      the number of bad reports handled while the service was up: no good report and no restart resets it. */
  lemma {:induction false} FailuresAreCounted(r: Trace, config: seq<Service>, i: nat, n: ServiceName)
    requires IsProgramTrace(r, config) && i < |r.states| && n in r.states[0].core.services
    ensures |r.states| == |r.actions| + 1 && n in r.states[i].core.services
    ensures r.states[i].core.services[n].healthinessChecksFailed == Counted(r, i, n)
  {
    hide IsProgramTrace, Enabled, Apply, FromServices, IsCheck;
    Begins(r, config);
    if i == 0 {
      FromServicesHolds(config);
    } else {
      Goes(r, config, i - 1);
      FailuresAreCounted(r, config, i - 1, n);
      FailuresNeedChecks(r, i - 1, n);
      StepChecks(r.states[i - 1], r.actions[i - 1], n);
    }
  }

  lemma {:induction false} FailuresGrow(r: Trace, i: nat, j: nat, n: ServiceName)
    requires i <= j <= |r.actions| && |r.states| == |r.actions| + 1
    ensures Failures(r, i, n) <= Failures(r, j, n) && (WasChecked(r, i, n) ==> WasChecked(r, j, n))
  {
    if i < j {
      FailuresGrow(r, i, j - 1, n);
    }
  }

  // ---------- what the counter decides ----------

  /** While the system is up a Running service is told to die for its own health if and only if it has had more
      bad reports than it may have, over the whole history. Without any report it counts as minus one. */
  lemma KilledForHealthExactly(r: Trace, config: seq<Service>, i: nat, n: ServiceName, order: seq<ServiceName>,
        now: nat)
    requires IsProgramTrace(r, config) && i < |r.states| && n in r.states[0].core.services
    requires var services := r.states[i].core.services;
      && n in services && services[n].status == Running
      && IsClosed(services) && IsIterationOrder(order, services)
    ensures |r.states| == |r.actions| + 1
    ensures var evs := Next(r.states[i].core.services, order, n, Active, now);
      var service := r.states[0].core.services[n].service;
      evs == if (if WasChecked(r, i, n) then Failures(r, i, n) else -1) > service.maxFailed
             then [StatusUpdate(n, InKilling), Kill(n)] else []
  {
    hide IsProgramTrace, IsClosed, IsIterationOrder, FromServices;
    FailuresAreCounted(r, config, i, n);
    ServicesStay(r, config, 0);
    ServicesStay(r, config, i);
  }

  /** While the system is up a Started service is told that it is Running if and only if it has had a report and
      never a bad one. */
  lemma ComesUpExactly(r: Trace, config: seq<Service>, i: nat, n: ServiceName, order: seq<ServiceName>, now: nat)
    requires IsProgramTrace(r, config) && i < |r.states| && n in r.states[0].core.services
    requires var services := r.states[i].core.services;
      && n in services && services[n].status == Started
      && IsClosed(services) && IsIterationOrder(order, services)
    ensures |r.states| == |r.actions| + 1
    ensures Next(r.states[i].core.services, order, n, Active, now)
      == if WasChecked(r, i, n) && Failures(r, i, n) == 0 then [StatusUpdate(n, Running)] else []
  {
    hide IsProgramTrace, IsClosed, IsIterationOrder, FromServices;
    FailuresAreCounted(r, config, i, n);
  }

  /** So a service that has had a bad report while it was up is never again told that it is Running, not even
      after a restart. */
  lemma OneFailureIsForGood(r: Trace, config: seq<Service>, i: nat, j: nat, n: ServiceName, order: seq<ServiceName>,
        now: nat)
    requires IsProgramTrace(r, config) && i <= j < |r.states| && n in r.states[0].core.services
    requires |r.states| == |r.actions| + 1 && Failures(r, i, n) > 0
    requires IsClosed(r.states[j].core.services) && IsIterationOrder(order, r.states[j].core.services)
    ensures StatusUpdate(n, Running) !in
      NextAll(r.states[j].core.services, order, order, r.states[j].core.lifecycle, now)
  {
    hide IsProgramTrace, IsClosed, IsIterationOrder, FromServices, NextAll, WasChecked, Failures;
    FailuresGrow(r, i, j, n);
    FailuresNeedChecks(r, j, n);
    FailuresAreCounted(r, config, j, n);
    var c := r.states[j].core;
    CommandsExactly(c.services, order, c.lifecycle, now, StatusUpdate(n, Running));
  }

  // ---------- failures need not be in a row ----------

  /** The only service is Running, has had two bad health reports with a good one before each, and is told to
      die for them: the two did not come in a row. */
  ghost predicate IsToldToDie(s: State) {
    && Looks(s, Unhealthy) && Fragile.maxFailed == 1 && Reports(s.history, A) == [true, false, true, false]
    && s.core.services[A].status == Running && StatusUpdate(A, InKilling) in s.Queue() && Kill(A) in s.Queue()
  }

  /** A validated configuration has a run, with fresh pids, in which that happens. */
  lemma FailuresNeedNotBeInARow()
    ensures IsWellFormed(Fragile, [Fragile])
    ensures exists s :: Reaches(Start([Fragile]), s) && IsToldToDie(s)
  {
    hide *;
    FragileIsWellFormed();
    var s := UntilUnhealthy();
    UnhealthyIsToldToDie(s);
  }

  lemma UnhealthyIsToldToDie(s: State)
    requires Looks(s, Unhealthy) && Reports(s.history, A) == [true, false, true, false]
    ensures IsToldToDie(s)
  {
    assert s.Queue() == [StatusChanged(A, Running), StatusUpdate(A, InKilling), Kill(A)];
  }
}
