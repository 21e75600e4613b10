/** Why the supervisor kills, restarts and shuts down: in every run what it does was called for by a state it
    was in before. */
module Causes {
  import opened Formats
  import opened ServiceHandlers
  import opened Repos
  import opened Commands
  import opened Emissions
  import opened Machine
  import opened Records
  import opened Kills
  import opened Shutdowns

  // ---------- requests and what they move ----------

  /** The statuses a service gets only because a computed command asks for them. */
  predicate IsDecided(status: ServiceStatus) {
    status.InKilling? || status.Running? || status.Initial? || status.Finished?
  }

  /** What was asked for, when a status changed: killing a service that never started makes it Success. */
  function RequestOf(from: ServiceStatus, to: ServiceStatus): ServiceStatus {
    if from == Initial && to == Success then InKilling else to
  }

  ghost predicate IsCause(c: Core, n: ServiceName, status: ServiceStatus) {
    IsClosed(c.services) && n in c.services && IsUpdateJustified(c.services, c.lifecycle, n, status)
  }

  /** One of the states up to the `i`-th called for `n` to become `status`. */
  ghost predicate HadCause(r: Trace, i: nat, n: ServiceName, status: ServiceStatus) {
    exists k :: 0 <= k <= i && k < |r.states| && IsCause(r.states[k].core, n, status)
  }

  predicate IsRequest(e: Event, n: ServiceName, status: ServiceStatus) {
    e == StatusUpdate(n, status) || (e == Kill(n) && status == InKilling)
  }

  lemma HandleRequestsNothing(c: Core, ev: Event, prepared: bool, now: nat, e: Event, n: ServiceName,
        status: ServiceStatus)
    requires CanHandle(c, ev) && IsRequest(e, n, status) && IsDecided(status)
    ensures e !in HandleEvent(c, ev, prepared, now).produced
  {
  }

  /** Requests are put on their way by computing commands only. */
  lemma StepRequests(s: State, a: Action, e: Event, n: ServiceName, status: ServiceStatus)
    requires Enabled(s, a) && IsRequest(e, n, status) && IsDecided(status)
    requires e in Apply(s, a).Queue() && e !in s.Queue()
    ensures IsCause(s.core, n, status)
  {
    hide HandleEvent, NextAll, ReapEvents, AllHaveFinished, IsClosed;
    var s' := Apply(s, a);
    assert e !in s.inbox && e !in s.outbox by {
      assert s.Queue() == s.inbox + s.outbox;
    }
    if a.Handle? {
      if CanHandle(s.core, s.inbox[0]) {
        HandleRequestsNothing(s.core, s.inbox[0], a.prepared, a.now, e, n, status);
      }
    } else if a.Compute? {
      NextAllIsJustified(s.core.services, a.order, a.order, s.core.lifecycle, a.now);
      ReapsFollow(s.core.pidMap, a.reaped, n);
      assert IsJustified(s.core.services, s.core.lifecycle, a.now, e);
    }
  }

  lemma EarlierCause(r: Trace, i: nat, n: ServiceName, status: ServiceStatus)
    requires 0 < i && HadCause(r, i - 1, n, status)
    ensures HadCause(r, i, n, status)
  {
    hide IsCause;
  }

  /** In every run every request under way was called for by an earlier state. */
  lemma {:induction false} RequestsHadCauses(r: Trace, config: seq<Service>, i: nat, e: Event, n: ServiceName,
        status: ServiceStatus)
    requires IsProgramTrace(r, config) && i < |r.states| && IsRequest(e, n, status) && IsDecided(status)
    requires e in r.states[i].Queue()
    ensures HadCause(r, i, n, status)
  {
    hide IsProgramTrace, Enabled, Apply, IsCause, IsDecided, IsRequest, FromServices;
    Begins(r, config);
    if i > 0 {
      Goes(r, config, i - 1);
      if e in r.states[i - 1].Queue() {
        RequestsHadCauses(r, config, i - 1, e, n, status);
        EarlierCause(r, i, n, status);
      } else {
        StepRequests(r.states[i - 1], r.actions[i - 1], e, n, status);
      }
    }
  }

  lemma HandleObeys(c: Core, ev: Event, prepared: bool, now: nat, n: ServiceName)
    requires CanHandle(c, ev) && n in c.services
    ensures var d := HandleEvent(c, ev, prepared, now).core;
      && n in d.services
      && (d.services[n].status != c.services[n].status
          && IsDecided(RequestOf(c.services[n].status, d.services[n].status))
          ==> ev == StatusUpdate(n, RequestOf(c.services[n].status, d.services[n].status)))
  {
    if ev.ShuttingDownInitiated? || ev.StatusChanged? || (ev.Run? && !prepared) {
    } else {
      HandleAssigns(c, ev, prepared, now);
      if ev.name == n {
        OwnObeys(c, ev, prepared, now);
      }
    }
  }

  lemma OwnObeys(c: Core, ev: Event, prepared: bool, now: nat)
    requires CanHandle(c, ev) && !ev.ShuttingDownInitiated? && !ev.StatusChanged? && ev.name in c.services
    ensures var n, d := ev.name, HandleEvent(c, ev, prepared, now).core;
      && n in d.services
      && (d.services[n].status != c.services[n].status
          && IsDecided(RequestOf(c.services[n].status, d.services[n].status))
          ==> ev == StatusUpdate(n, RequestOf(c.services[n].status, d.services[n].status)))
  {
  }

  lemma StepObeys(s: State, a: Action, n: ServiceName)
    requires Enabled(s, a) && n in s.core.services
    ensures n in Apply(s, a).core.services
    ensures var from, to := s.core.services[n].status, Apply(s, a).core.services[n].status;
      from != to && IsDecided(RequestOf(from, to)) ==> StatusUpdate(n, RequestOf(from, to)) in s.Queue()
  {
    hide HandleEvent, NextAll, ReapEvents, AllHaveFinished, IsDecided, RequestOf;
    if a.Handle? && CanHandle(s.core, s.inbox[0]) {
      assert s.Queue()[0] == s.inbox[0];
      HandleObeys(s.core, s.inbox[0], a.prepared, a.now, n);
    } else {
      ServicesAreStill(s, a);
    }
  }

  /** In every run, whenever a service comes up, is killed, is to start again or is Finished, some earlier
      state called for it: it was healthy; or it had too many failed checks, or a service had failed that was
      to take it along, or it could be killed in the shutdown; or its strategy had it start again, or not. */
  lemma MovesHadCauses(r: Trace, config: seq<Service>, i: nat, n: ServiceName)
    requires IsProgramTrace(r, config) && i + 1 < |r.states| && n in r.states[i].core.services
    ensures n in r.states[i + 1].core.services
    ensures var from, to := r.states[i].core.services[n].status, r.states[i + 1].core.services[n].status;
      from != to && IsDecided(RequestOf(from, to)) ==> HadCause(r, i, n, RequestOf(from, to))
  {
    hide IsProgramTrace, Enabled, Apply, IsDecided, HadCause, RequestOf;
    Goes(r, config, i);
    StepObeys(r.states[i], r.actions[i], n);
    var request := RequestOf(r.states[i].core.services[n].status, r.states[i + 1].core.services[n].status);
    if IsDecided(request) && StatusUpdate(n, request) in r.states[i].Queue() {
      RequestsHadCauses(r, config, i, StatusUpdate(n, request), n, request);
    }
  }

  // ---------- signals ----------

  lemma {:induction false} KilledHadCause(r: Trace, config: seq<Service>, i: nat, n: ServiceName)
    requires IsProgramTrace(r, config) && i < |r.states|
    requires n in r.states[i].core.services && r.states[i].core.services[n].status == InKilling
    ensures HadCause(r, i, n, InKilling)
  {
    hide IsProgramTrace, Enabled, Apply, HadCause, FromServices;
    Begins(r, config);
    if i == 0 {
      FromServicesHolds(config);
    } else {
      Goes(r, config, i - 1);
      StepKeepsServices(r.states[i - 1], r.actions[i - 1]);
      if r.states[i - 1].core.services[n].status == InKilling {
        KilledHadCause(r, config, i - 1, n);
      } else {
        MovesHadCauses(r, config, i - 1, n);
      }
      EarlierCause(r, i, n, InKilling);
    }
  }

  lemma StepSignals(s: State, a: Action, k: nat)
    requires Enabled(s, a) && |s.core.signals| <= k < |Apply(s, a).core.signals|
    ensures var n := Apply(s, a).core.signals[k].name;
      n in s.core.services && s.core.services[n].status == InKilling
  {
    hide HandleEvent, NextAll, ReapEvents, AllHaveFinished;
    if a.Handle? && CanHandle(s.core, s.inbox[0]) {
      HandleSignals(s.core, s.inbox[0], a.prepared, a.now, k);
    }
  }

  lemma HandleSignals(c: Core, ev: Event, prepared: bool, now: nat, k: nat)
    requires CanHandle(c, ev) && |c.signals| <= k < |HandleEvent(c, ev, prepared, now).core.signals|
    ensures var n := HandleEvent(c, ev, prepared, now).core.signals[k].name;
      n in c.services && c.services[n].status == InKilling
  {
  }

  /** In every run nobody is signalled without a cause for killing it. */
  lemma SignalsHadCauses(r: Trace, config: seq<Service>, i: nat, k: nat)
    requires IsProgramTrace(r, config) && i + 1 < |r.states|
    requires |r.states[i].core.signals| <= k < |r.states[i + 1].core.signals|
    ensures HadCause(r, i, r.states[i + 1].core.signals[k].name, InKilling)
  {
    hide IsProgramTrace, Enabled, Apply, HadCause;
    Goes(r, config, i);
    StepSignals(r.states[i], r.actions[i], k);
    KilledHadCause(r, config, i, r.states[i + 1].core.signals[k].name);
  }

  // ---------- shutdowns ----------

  /** A SIGTERM is pending, all is over, or a service has failed whose strategy is to shut down. */
  ghost predicate CallsForShutdown(c: Core) {
    c.sigterm || AllHaveFinished(c.services) || exists m :: m in c.services && IsFatalToAll(c.services[m])
  }

  /** An earlier state called for a shutdown, or an earlier step could not prepare a service. */
  ghost predicate HadReason(r: Trace, i: nat) {
    || (exists k :: 0 <= k <= i && k < |r.states| && CallsForShutdown(r.states[k].core))
    || (exists k :: 0 <= k < i && k < |r.states| && k < |r.actions| && FailsToPrepare(r.states[k], r.actions[k]))
  }

  ghost predicate IsShutdownComing(s: State) {
    s.core.lifecycle.ShuttingDown? || exists e :: e in s.Queue() && e.ShuttingDownInitiated?
  }

  lemma HandleShutsDown(c: Core, ev: Event, prepared: bool, now: nat)
    requires CanHandle(c, ev) && !ev.ShuttingDownInitiated?
    requires !(ev.Run? && !prepared && ev.name in c.services && c.services[ev.name].status == Initial)
    ensures HandleEvent(c, ev, prepared, now).core.lifecycle == c.lifecycle
    ensures forall e :: e in HandleEvent(c, ev, prepared, now).produced ==> !e.ShuttingDownInitiated?
  {
  }

  lemma StepCallsForShutdown(s: State, a: Action)
    requires Enabled(s, a) && !IsShutdownComing(s) && IsShutdownComing(Apply(s, a))
    ensures CallsForShutdown(s.core) || FailsToPrepare(s, a)
  {
    hide HandleEvent, NextAll, ReapEvents, IsClosed;
    var s' := Apply(s, a);
    assert forall e :: e in s.inbox || e in s.outbox ==> e in s.Queue();
    if a.Handle? {
      if CanHandle(s.core, s.inbox[0]) && !FailsToPrepare(s, a) {
        assert s.inbox[0] in s.inbox;
        HandleShutsDown(s.core, s.inbox[0], a.prepared, a.now);
      }
    } else if a.Compute? {
      var e :| e in s'.Queue() && e.ShuttingDownInitiated?;
      NextAllIsJustified(s.core.services, a.order, a.order, s.core.lifecycle, a.now);
      ReapsFollow(s.core.pidMap, a.reaped, "");
      assert IsJustified(s.core.services, s.core.lifecycle, a.now, e);
    }
  }

  /** In every run a shutdown that is on or announced was asked for by SIGTERM or by the failure of a service
      whose strategy says so, or a service could not be prepared, or all was over. */
  lemma {:induction false} ShutdownHadReason(r: Trace, config: seq<Service>, i: nat)
    requires IsProgramTrace(r, config) && i < |r.states| && IsShutdownComing(r.states[i])
    ensures HadReason(r, i)
  {
    hide IsProgramTrace, Enabled, Apply, CallsForShutdown, FailsToPrepare, FromServices;
    Begins(r, config);
    if i > 0 {
      Goes(r, config, i - 1);
      if IsShutdownComing(r.states[i - 1]) {
        hide IsShutdownComing;
        ShutdownHadReason(r, config, i - 1);
      } else {
        StepCallsForShutdown(r.states[i - 1], r.actions[i - 1]);
      }
    }
  }
}
