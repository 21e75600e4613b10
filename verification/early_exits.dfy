/** Restarts over the history of a run: the counter of a service counts its early failing exits, bounds the
    restarts that follow them, and gives the delay of every start. */
module EarlyExits {
  import opened Formats
  import opened ServiceHandlers
  import opened Machine
  import opened Invariants
  import opened Kills
  import opened Records
  import opened Repos
  import opened Restarting

  /** The service is not Running yet, and has had a failed health check or none at all. */
  predicate FailsEarly(sh: ServiceHandler) {
    && (sh.status == Initial || sh.status == Starting || sh.status == Started)
    && (sh.healthinessChecksFailed == None || sh.healthinessChecksFailed.value > 0)
  }

  /** The step handles an exit of `n` while `n` is in an early state and has failed health checks. */
  predicate IsEarlyExit(s: State, a: Action, n: ServiceName) {
    && a.Handle? && |s.inbox| > 0 && s.inbox[0].ServiceExited? && s.inbox[0].name == n
    && CanHandle(s.core, s.inbox[0]) && FailsEarly(s.core.services[n])
  }

  /** The step starts a thread that forks a process for `n`. */
  predicate IsStart(s: State, a: Action, n: ServiceName) {
    && a.Handle? && a.prepared && |s.inbox| > 0 && s.inbox[0] == Run(n)
    && n in s.core.services && s.core.services[n].status == Initial
  }

  /** How many of the first `i` steps are early exits of `n`. */
  function Count(r: Trace, i: nat, n: ServiceName): nat
    requires i <= |r.actions| && |r.states| == |r.actions| + 1
  {
    if i == 0 then 0
    else Count(r, i - 1, n) + if IsEarlyExit(r.states[i - 1], r.actions[i - 1], n) then 1 else 0
  }

  /** An early exit of `n` is not yet followed by a start. */
  predicate HasFailedEarly(r: Trace, i: nat, n: ServiceName)
    requires i <= |r.actions| && |r.states| == |r.actions| + 1
  {
    i > 0 &&
    (IsEarlyExit(r.states[i - 1], r.actions[i - 1], n)
     || (!IsStart(r.states[i - 1], r.actions[i - 1], n) && HasFailedEarly(r, i - 1, n)))
  }

  /** How many of the first `i` steps start `n` after an early exit. */
  function Restarts(r: Trace, i: nat, n: ServiceName): nat
    requires i <= |r.actions| && |r.states| == |r.actions| + 1
  {
    if i == 0 then 0
    else Restarts(r, i - 1, n)
         + if IsStart(r.states[i - 1], r.actions[i - 1], n) && HasFailedEarly(r, i - 1, n) then 1 else 0
  }

  lemma HandleCounts(c: Core, ev: Event, prepared: bool, now: nat, n: ServiceName)
    requires CanHandle(c, ev) && IsPublished(ev) && n in c.services
    ensures var d := HandleEvent(c, ev, prepared, now).core;
      && n in d.services
      && d.services[n].restartAttempts == c.services[n].restartAttempts
         + if ev.ServiceExited? && ev.name == n && FailsEarly(c.services[n]) then 1 else 0
  {
    if ev.ShuttingDownInitiated? || ev.name != n {
      OthersUntouched(c, ev, prepared, now, n);
    }
  }

  lemma EarlyExitIs(s: State, a: Action, n: ServiceName)
    requires Enabled(s, a) && n in s.core.services
    ensures IsEarlyExit(s, a, n) <==>
      && a.Handle? && CanHandle(s.core, s.inbox[0]) && s.inbox[0].ServiceExited? && s.inbox[0].name == n
      && FailsEarly(s.core.services[n])
  {
  }

  lemma StepCounts(s: State, a: Action, n: ServiceName)
    requires KillInv(s) && Enabled(s, a) && n in s.core.services
    ensures n in Apply(s, a).core.services
    ensures Apply(s, a).core.services[n].restartAttempts
      == s.core.services[n].restartAttempts + if IsEarlyExit(s, a, n) then 1 else 0
  {
    hide HandleEvent, ReapEvents, AllHaveFinished, IsEarlyExit;
    if a.Handle? && CanHandle(s.core, s.inbox[0]) {
      assert s.Queue()[0] == s.inbox[0];
      HandleCounts(s.core, s.inbox[0], a.prepared, a.now, n);
      EarlyExitIs(s, a, n);
    } else {
      EarlyExitIs(s, a, n);
      ServicesAreStill(s, a);
    }
  }

  lemma StartsAtZero(config: seq<Service>, n: ServiceName)
    requires n in Start(config).core.services
    ensures Start(config).core.services[n].restartAttempts == 0
  {
    FromServicesHolds(config);
  }

  /** In every run the counter of a service is the number of its early failing exits so far: nothing else
      raises it and nothing resets it. */
  lemma {:induction false} CounterCounts(r: Trace, config: seq<Service>, i: nat, n: ServiceName)
    requires IsProgramTrace(r, config) && i < |r.states| && n in r.states[0].core.services
    ensures |r.states| == |r.actions| + 1 && n in r.states[i].core.services
    ensures r.states[i].core.services[n].restartAttempts == Count(r, i, n)
  {
    hide Enabled, Apply, Start, IsEarlyExit, KillInv;
    Begins(r, config);
    if i == 0 {
      StartsAtZero(config, n);
    } else {
      Goes(r, config, i - 1);
      CounterCounts(r, config, i - 1, n);
      NoLostKill(r, config, i - 1);
      StepCounts(r.states[i - 1], r.actions[i - 1], n);
    }
  }

  /** Every restart uses up an early exit. */
  lemma {:induction false} RestartsNeedExits(r: Trace, i: nat, n: ServiceName)
    requires i <= |r.actions| && |r.states| == |r.actions| + 1
    ensures Restarts(r, i, n) + (if HasFailedEarly(r, i, n) then 1 else 0) <= Count(r, i, n)
  {
    if i > 0 {
      RestartsNeedExits(r, i - 1, n);
    }
  }

  /** Whenever a service with strategy Never is started, it has failed early at most `attempts` times. */
  lemma StartsNeedAttempts(r: Trace, config: seq<Service>, i: nat, n: ServiceName)
    requires IsProgramTrace(r, config) && NeverForcedEarly(r, n) && i < |r.actions|
    requires n in r.states[0].core.services && r.states[0].core.services[n].service.restart.strategy == Never
    requires IsStart(r.states[i], r.actions[i], n)
    ensures Count(r, i, n) <= r.states[0].core.services[n].service.restart.attempts
  {
    CounterCounts(r, config, i, n);
    AttemptsAreLimited(r, config, i, n);
    ServicesStay(r, config, i);
    Begins(r, config);
  }

  /** A service with strategy Never that is not killed by force while the system is up is restarted after an
      early failing exit at most `attempts` times in the whole run. */
  lemma {:induction false} RestartsAreLimited(r: Trace, config: seq<Service>, i: nat, n: ServiceName)
    requires IsProgramTrace(r, config) && NeverForcedEarly(r, n) && i < |r.states|
    requires n in r.states[0].core.services && r.states[0].core.services[n].service.restart.strategy == Never
    ensures |r.states| == |r.actions| + 1
    ensures Restarts(r, i, n) <= r.states[0].core.services[n].service.restart.attempts
  {
    hide Enabled, Apply, Start, IsEarlyExit, IsStart, HasFailedEarly;
    if i > 0 {
      RestartsAreLimited(r, config, i - 1, n);
      if IsStart(r.states[i - 1], r.actions[i - 1], n) && HasFailedEarly(r, i - 1, n) {
        RestartsNeedExits(r, i - 1, n);
        StartsNeedAttempts(r, config, i - 1, n);
      }
    }
  }

  // ---------- the delay before a start ----------

  lemma HandleSpawns(c: Core, ev: Event, prepared: bool, now: nat)
    requires CanHandle(c, ev)
    ensures HandleEvent(c, ev, prepared, now).core.spawns
      == c.spawns + if ev.Run? && prepared && c.services[ev.name].status == Initial
                    then [Spawn(ev.name, SpawnDelay(c.services[ev.name]))] else []
  {
    hide SpawnDelay;
  }

  /** From one state to the next a thread is started for `n`, after the delay given, or none is. */
  ghost predicate Spawns(s: State, s': State, n: ServiceName, delay: Option<nat>) {
    match delay
    case Some(d) => s'.core.spawns == s.core.spawns + [Spawn(n, d)]
    case None =>
      && s.core.spawns <= s'.core.spawns
      && forall k :: |s.core.spawns| <= k < |s'.core.spawns| ==> s'.core.spawns[k].name != n
  }

  lemma StepSpawns(s: State, a: Action, n: ServiceName)
    requires Enabled(s, a)
    ensures Spawns(s, Apply(s, a), n, if IsStart(s, a, n) then Some(SpawnDelay(s.core.services[n])) else None)
  {
    hide HandleEvent, ReapEvents, SpawnDelay, AllHaveFinished;
    if a.Handle? && CanHandle(s.core, s.inbox[0]) {
      HandleSpawns(s.core, s.inbox[0], a.prepared, a.now);
    } else {
      assert Apply(s, a).core.spawns == s.core.spawns;
    }
  }

  function DelayAfter(service: Service, failures: nat): nat {
    service.startDelay + service.restart.backoff * failures
  }

  /** In every run and under every strategy, a start of a service waits for its start delay and one backoff for
      each early failing exit it has had so far, and nothing else spawns the service. */
  lemma StartsAreDelayedExactly(r: Trace, config: seq<Service>, i: nat, n: ServiceName)
    requires IsProgramTrace(r, config) && i < |r.actions| && n in r.states[0].core.services
    ensures |r.states| == |r.actions| + 1
    ensures var service := r.states[0].core.services[n].service;
      Spawns(r.states[i], r.states[i + 1], n,
             if IsStart(r.states[i], r.actions[i], n) then Some(DelayAfter(service, Count(r, i, n))) else None)
  {
    hide IsProgramTrace, Enabled, Apply, IsStart, Start, FromServices;
    Begins(r, config);
    Goes(r, config, i);
    StepSpawns(r.states[i], r.actions[i], n);
    CounterCounts(r, config, i, n);
    ServicesStay(r, config, 0);
    ServicesStay(r, config, i);
  }

  ghost predicate DelaysAreBounded(spawns: seq<Spawn>, n: ServiceName, service: Service) {
    forall k :: 0 <= k < |spawns| && spawns[k].name == n ==>
      service.startDelay <= spawns[k].delay <= service.startDelay + service.restart.backoff * service.restart.attempts
  }

  lemma BackoffGrows(backoff: nat, made: nat, attempts: nat)
    requires made <= attempts
    ensures backoff * made <= backoff * attempts
  {
  }

  lemma StartsStartSomebody(s: State, a: Action, n: ServiceName)
    requires IsStart(s, a, n)
    ensures n in s.core.services
  {
  }

  /** So no start of a service with strategy Never that is not killed by force while the system is up is
      delayed by more than the start delay and one backoff for each configured attempt. */
  lemma {:induction false} DelaysStayBounded(r: Trace, config: seq<Service>, i: nat, n: ServiceName)
    requires IsProgramTrace(r, config) && NeverForcedEarly(r, n) && i < |r.states|
    requires n in r.states[0].core.services && r.states[0].core.services[n].service.restart.strategy == Never
    ensures DelaysAreBounded(r.states[i].core.spawns, n, r.states[0].core.services[n].service)
  {
    hide IsProgramTrace, Enabled, Apply, IsStart, FromServices, NeverForcedEarly;
    Begins(r, config);
    if i > 0 {
      DelaysStayBounded(r, config, i - 1, n);
      StartsAreDelayedExactly(r, config, i - 1, n);
      if IsStart(r.states[i - 1], r.actions[i - 1], n) {
        var service := r.states[0].core.services[n].service;
        StartsNeedAttempts(r, config, i - 1, n);
        BackoffGrows(service.restart.backoff, Count(r, i - 1, n), service.restart.attempts);
      }
    }
  }
}
