/** Signals and kill timers over the history of a run: who is killed is signalled, and when it may be killed by
    force. */
module Timers {
  import opened Formats
  import opened ServiceHandlers
  import opened Repos
  import opened Commands
  import opened Queues
  import opened Emissions
  import opened Machine
  import opened Records
  import opened Kills
  import opened Effects

  // ---------- whoever is killed is signalled ----------

  /** The process `n` holds, if `n` is being killed, was sent the signal and its timer runs, or a Kill is on its
      way. */
  ghost predicate IsSignalledOrWill(s: State, n: ServiceName)
    requires n in s.core.services
  {
    var sh := s.core.services[n];
    sh.status == InKilling && sh.pid.Some? ==>
      Kill(n) in s.Queue() || (Signal(n, sh.pid.value, false) in s.core.signals && sh.shuttingDownStart.Some?)
  }

  lemma QueueKeeps(s: State, a: Action, e: Event)
    requires Enabled(s, a) && e in s.Queue() && !(a.Handle? && s.inbox[0] == e)
    ensures e in Apply(s, a).Queue()
  {
    hide HandleEvent, NextAll, ReapEvents, AllHaveFinished, IsClosed;
    var s' := Apply(s, a);
    assert e in s.inbox || e in s.outbox;
    if a.Handle? && CanHandle(s.core, s.inbox[0]) {
      assert s.inbox == [s.inbox[0]] + s.inbox[1..];
      assert s'.outbox == s.outbox + HandleEvent(s.core, s.inbox[0], a.prepared, a.now).produced;
    } else if a.Send? {
      assert s.outbox == [s.outbox[0]] + s.outbox[1..];
    } else if !a.Compute? {
      assert s.inbox <= s'.inbox && s'.outbox == s.outbox;
    }
  }

  /** A request to kill in front of the queue has its Kill behind it. */
  lemma KillIsBehind(s: State, a: Action, n: ServiceName)
    requires KillInv(s) && Enabled(s, a) && Handles(s, a, StatusUpdate(n, InKilling))
    ensures Kill(n) in Apply(s, a).Queue()
  {
    hide HandleEvent, NextAll, ReapEvents, AllHaveFinished, IsClosed;
    assert KillsFollow(s.Queue(), n);
    assert s.Queue()[0] == StatusUpdate(n, InKilling) && s.Queue()[1..] == s.inbox[1..] + s.outbox;
    assert Kill(n) in s.Queue()[1..];
    assert Kill(n) in s.Queue();
    QueueKeeps(s, a, Kill(n));
  }

  lemma StepSignalsOrWill(s: State, a: Action, n: ServiceName)
    requires KillInv(s) && Enabled(s, a) && n in s.core.services && IsSignalledOrWill(s, n)
    ensures n in Apply(s, a).core.services && IsSignalledOrWill(Apply(s, a), n)
  {
    hide KillInv, Enabled, Apply, IsAnswer;
    StatusesMoveExactly(s, a, n);
    PidsMoveExactly(s, a, n);
    TimersMoveExactly(s, a, n);
    SignalsAreExact(s, a);
    if Kill(n) in s.Queue() && !HandlesFor(s, a, n) {
      KillStaysFor(s, a, n);
    } else if HandlesFor(s, a, n) {
      HandlingSignalsOrWill(s, a, n);
    }
  }

  lemma KillStaysFor(s: State, a: Action, n: ServiceName)
    requires Enabled(s, a) && n in s.core.services && Kill(n) in s.Queue() && !HandlesFor(s, a, n)
    ensures Kill(n) in Apply(s, a).Queue()
  {
    hide Apply, HandleEvent, NextAll, ReapEvents, AllHaveFinished, IsClosed;
    QueueKeeps(s, a, Kill(n));
  }

  lemma HandlingSignalsOrWill(s: State, a: Action, n: ServiceName)
    requires KillInv(s) && Enabled(s, a) && n in s.core.services && IsSignalledOrWill(s, n) && HandlesFor(s, a, n)
    ensures n in Apply(s, a).core.services && IsSignalledOrWill(Apply(s, a), n)
  {
    hide KillInv, Enabled, Apply, IsAnswer;
    StatusesMoveExactly(s, a, n);
    PidsMoveExactly(s, a, n);
    TimersMoveExactly(s, a, n);
    SignalsAreExact(s, a);
    AnswersToKill();
    var ev := s.inbox[0];
    if ev == StatusUpdate(n, InKilling) {
      KillIsBehind(s, a, n);
    } else if Kill(n) in s.Queue() && ev != Kill(n) {
      QueueKeeps(s, a, Kill(n));
    }
  }

  /** Only a request to kill makes a status InKilling. */
  lemma AnswersToKill()
    ensures forall from, asked, to :: IsAnswer(from, asked, to) && to == InKilling ==>
              asked == InKilling || from == InKilling
  {
  }

  /** In every run the process of a service being killed has been sent the configured signal and its kill timer
      runs, unless the Kill that will do so is still on its way. */
  lemma {:induction false} KilledIsSignalled(r: Trace, config: seq<Service>, i: nat, n: ServiceName)
    requires IsProgramTrace(r, config) && i < |r.states| && n in r.states[0].core.services
    ensures n in r.states[i].core.services && IsSignalledOrWill(r.states[i], n)
  {
    hide IsProgramTrace, Enabled, Apply, KillInv, FromServices;
    Begins(r, config);
    if i == 0 {
      FromServicesHolds(config);
    } else {
      Goes(r, config, i - 1);
      KilledIsSignalled(r, config, i - 1, n);
      NoLostKill(r, config, i - 1);
      StepSignalsOrWill(r.states[i - 1], r.actions[i - 1], n);
    }
  }

  // ---------- what the timer tells ----------

  /** The step handles a Kill for `n`, or a pid of it, while `n` is being killed. */
  predicate StartsTimer(s: State, a: Action, n: ServiceName) {
    HandlesFor(s, a, n) && (s.inbox[0].Kill? || s.inbox[0].PidChanged?) && s.core.services[n].status == InKilling
  }

  predicate StopsTimer(s: State, a: Action, n: ServiceName) {
    HandlesFor(s, a, n) && s.inbox[0].ServiceExited?
  }

  /** Step `j` is the last of the first `i` to start or stop the timer of `n`, and starts it. */
  predicate IsTimedBy(r: Trace, i: nat, n: ServiceName, j: nat)
    requires i <= |r.actions| && |r.states| == |r.actions| + 1
  {
    && j < i && StartsTimer(r.states[j], r.actions[j], n)
    && forall k :: j < k < i ==> !StartsTimer(r.states[k], r.actions[k], n) && !StopsTimer(r.states[k], r.actions[k], n)
  }

  /** In every run the kill timer of a service runs if and only if the last step to touch it started it, and then
      holds the time of that step. */
  lemma {:induction false} TimersTellTime(r: Trace, config: seq<Service>, i: nat, n: ServiceName)
    requires IsProgramTrace(r, config) && i < |r.states| && n in r.states[0].core.services
    ensures |r.states| == |r.actions| + 1 && n in r.states[i].core.services
    ensures r.states[i].core.services[n].shuttingDownStart.None? <==> forall j: nat :: !IsTimedBy(r, i, n, j)
    ensures forall j: nat :: IsTimedBy(r, i, n, j) ==>
              r.actions[j].Handle? && r.states[i].core.services[n].shuttingDownStart == Some(r.actions[j].now)
  {
    hide IsProgramTrace, Enabled, Apply, StartsTimer, StopsTimer, FromServices;
    Begins(r, config);
    if i == 0 {
      FromServicesHolds(config);
    } else {
      Goes(r, config, i - 1);
      TimersTellTime(r, config, i - 1, n);
      var s, a := r.states[i - 1], r.actions[i - 1];
      StepTimes(s, a, n);
      if StartsTimer(s, a, n) {
        assert IsTimedBy(r, i, n, i - 1);
      } else if !StopsTimer(s, a, n) {
        forall j: nat ensures IsTimedBy(r, i, n, j) <==> IsTimedBy(r, i - 1, n, j) {
        }
        if s.core.services[n].shuttingDownStart.Some? {
          var j: nat :| IsTimedBy(r, i - 1, n, j);
          assert IsTimedBy(r, i, n, j);
        }
      } else {
        forall j: nat ensures !IsTimedBy(r, i, n, j) {
        }
      }
    }
  }

  lemma StepTimes(s: State, a: Action, n: ServiceName)
    requires Enabled(s, a) && n in s.core.services
    ensures n in Apply(s, a).core.services
    ensures var timer := Apply(s, a).core.services[n].shuttingDownStart;
      && (StartsTimer(s, a, n) ==> a.Handle? && timer == Some(a.now) && !StopsTimer(s, a, n))
      && (StopsTimer(s, a, n) ==> timer == None)
      && (!StartsTimer(s, a, n) && !StopsTimer(s, a, n) ==> timer == s.core.services[n].shuttingDownStart)
  {
    hide Apply, Enabled;
    TimersMoveExactly(s, a, n);
  }

  // ---------- killing by force ----------

  /** In whatever order the services are asked, a kill by force is commanded if and only if the service is being
      killed, holds a pid, and either the shutdown is forceful or its timer has run, in whole seconds, for more
      than the configured wait. */
  lemma ForcedExactly(services: Services, order: seq<ServiceName>, lifecycle: LifecycleStatus, now: nat,
        n: ServiceName)
    requires IsClosed(services) && IsIterationOrder(order, services)
    ensures ForceKill(n) in NextAll(services, order, order, lifecycle, now) <==>
      && n in services && services[n].status == InKilling && services[n].pid.Some?
      && (lifecycle == ShuttingDown(Forcefully)
          || (services[n].shuttingDownStart.Some?
              && (now - services[n].shuttingDownStart.value) / 1000 > services[n].service.terminationWait / 1000))
  {
    hide NextAll;
    CommandsExactly(services, order, lifecycle, now, ForceKill(n));
  }

  /** In every run, unless the shutdown is forceful, a kill by force is commanded only when the configured wait
      has passed since the last Kill, or pid, handled while the service was being killed; and no exit of the
      service has been handled since. */
  lemma ForcedAfterWait(r: Trace, config: seq<Service>, i: nat, n: ServiceName) returns (j: nat)
    requires IsProgramTrace(r, config) && i < |r.actions| && r.actions[i].Compute? && n in r.states[0].core.services
    requires r.states[i].core.lifecycle != ShuttingDown(Forcefully)
    requires |r.states| == |r.actions| + 1 && Enabled(r.states[i], r.actions[i])
    requires var c, a := r.states[i].core, r.actions[i];
      ForceKill(n) in NextAll(c.services, a.order, a.order, c.lifecycle, a.now)
    ensures IsTimedBy(r, i, n, j) && r.actions[j].Handle?
    ensures (r.actions[i].now - r.actions[j].now) / 1000 > r.states[0].core.services[n].service.terminationWait / 1000
  {
    hide IsProgramTrace, NextAll, Apply, StartsTimer, StopsTimer, IsTimedBy, FromServices, ReapEvents;
    var c, a := r.states[i].core, r.actions[i];
    ForcedExactly(c.services, a.order, c.lifecycle, a.now, n);
    TimersTellTime(r, config, i, n);
    ServicesStay(r, config, 0);
    ServicesStay(r, config, i);
    j :| IsTimedBy(r, i, n, j);
  }

  // ---------- whether the timer speaks of the present process ----------

  ghost predicate WasSignalled(s: State, n: ServiceName, p: Pid) {
    Signal(n, p, false) in s.core.signals || Signal(n, p, true) in s.core.signals
  }

  /** If the timer of a service that holds a pid runs, that process has been signalled. */
  ghost predicate IsTimedRightly(s: State, n: ServiceName)
    requires n in s.core.services
  {
    var sh := s.core.services[n];
    sh.shuttingDownStart.Some? && sh.pid.Some? ==> WasSignalled(s, n, sh.pid.value)
  }

  /** The step gives a new process to a service that is not being killed and whose timer still runs. */
  ghost predicate ReportsOverTimer(s: State, a: Action, n: ServiceName) {
    && HandlesFor(s, a, n) && s.inbox[0].PidChanged? && s.core.services[n].status != InKilling
    && s.core.services[n].shuttingDownStart.Some? && !WasSignalled(s, n, s.inbox[0].pid)
  }

  /** A step keeps the timer about the present process if and only if it does not give the service a new process
      while an old timer runs. */
  lemma TimedRightlyExactly(s: State, a: Action, n: ServiceName)
    requires Enabled(s, a) && n in s.core.services && IsTimedRightly(s, n)
    ensures n in Apply(s, a).core.services
    ensures IsTimedRightly(Apply(s, a), n) <==> !ReportsOverTimer(s, a, n)
  {
    hide Enabled, Apply;
    PidsMoveExactly(s, a, n);
    TimersMoveExactly(s, a, n);
    SignalsAreExact(s, a);
  }

  /** So in a run without such a step a service being killed whose timer runs has had its process signalled. */
  lemma {:induction false} TimedIsSignalled(r: Trace, config: seq<Service>, i: nat, n: ServiceName)
    requires IsProgramTrace(r, config) && i < |r.states| && n in r.states[0].core.services
    requires |r.states| == |r.actions| + 1
    requires forall k :: 0 <= k < i ==> !ReportsOverTimer(r.states[k], r.actions[k], n)
    ensures n in r.states[i].core.services && IsTimedRightly(r.states[i], n)
  {
    hide IsProgramTrace, Enabled, Apply, ReportsOverTimer, FromServices;
    Begins(r, config);
    if i == 0 {
      FromServicesHolds(config);
    } else {
      Goes(r, config, i - 1);
      TimedIsSignalled(r, config, i - 1, n);
      TimedRightlyExactly(r.states[i - 1], r.actions[i - 1], n);
    }
  }
}
