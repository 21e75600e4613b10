/** The order in which a graceful shutdown kills. */
module GracefulKills {
  import opened Formats
  import opened ServiceHandlers
  import opened Repos
  import opened Commands
  import opened Emissions
  import opened Machine
  import opened Invariants
  import opened Records
  import opened Kills
  import opened OneService
  import opened LifeCycle

  /** `n` is being killed, or a request to kill it is on its way. */
  ghost predicate KillAsked(s: State, n: ServiceName) {
    (n in s.core.services && s.core.services[n].status == InKilling) || StatusUpdate(n, InKilling) in s.Queue()
  }

  ghost predicate Signalled(signals: seq<Signal>, n: ServiceName, since: nat) {
    exists k :: since <= k < |signals| && signals[k].name == n
  }

  lemma HandleSignalsTheAsked(c: Core, ev: Event, prepared: bool, now: nat, n: ServiceName)
    requires CanHandle(c, ev) && n in c.services
    ensures var d := HandleEvent(c, ev, prepared, now).core;
      && c.signals <= d.signals
      && n in d.services
      && (d.services[n].status == InKilling ==> c.services[n].status == InKilling || ev == StatusUpdate(n, InKilling))
      && (Signalled(d.signals, n, |c.signals|) ==> c.services[n].status == InKilling)
  {
    if ev.ShuttingDownInitiated? || ev.name != n {
      OthersUntouched(c, ev, prepared, now, n);
    }
  }

  /** While gracefully shutting down only the supervisor's own decision, taken when everything in
      shutdown-after has stopped, makes a service be killed, and only services being killed are signalled. */
  lemma StepAsksInOrder(s: State, a: Action, n: ServiceName)
    requires IsClosed(s.core.services) && n in s.core.services && s.core.lifecycle == ShuttingDown(Gracefully)
    requires Enabled(s, a)
    ensures s.core.signals <= Apply(s, a).core.signals
    ensures KillAsked(Apply(s, a), n) ==> KillAsked(s, n) || IsServiceKillable(s.core.services, s.core.services[n])
    ensures Signalled(Apply(s, a).core.signals, n, |s.core.signals|) ==> KillAsked(s, n)
  {
    hide HandleEvent, NextAll, ReapEvents, AllHaveFinished;
    var s' := Apply(s, a);
    var ask := StatusUpdate(n, InKilling);
    if a.Handle? {
      if CanHandle(s.core, s.inbox[0]) {
        HandleSignalsTheAsked(s.core, s.inbox[0], a.prepared, a.now, n);
        HandleAsksNoKill(s.core, s.inbox[0], a.prepared, a.now, n);
        assert ask in s'.Queue() ==> ask in s.inbox || ask in s.outbox;
      }
    } else if a.Compute? {
      NextAllIsJustified(s.core.services, a.order, a.order, s.core.lifecycle, a.now);
      ReapsFollow(s.core.pidMap, a.reaped, n);
    } else if a.Send? {
      assert s'.Queue() == s.Queue();
    } else {
      assert ask in s'.Queue() ==> ask in s.inbox || ask in s.outbox;
    }
  }

  /** The run starts none of `names` over a process. */
  ghost predicate AreOrderly(r: Trace, names: seq<ServiceName>) {
    forall d :: d in names ==> IsOrderlyFor(r, d)
  }

  /** A service whose shutdown-after list is terminal may be killed ever after, in a run that starts none of
      the list over a process. */
  lemma KillableForGood(r: Trace, config: seq<Service>, i: nat, j: nat, n: ServiceName)
    requires IsProgramTrace(r, config) && i <= j < |r.states|
    requires n in r.states[i].core.services && IsClosed(r.states[i].core.services)
    requires AreOrderly(r, r.states[i].core.services[n].service.shutdownAfter)
    requires IsServiceKillable(r.states[i].core.services, r.states[i].core.services[n])
    ensures n in r.states[j].core.services && IsClosed(r.states[j].core.services)
    ensures IsServiceKillable(r.states[j].core.services, r.states[j].core.services[n])
  {
    ServicesStay(r, config, i);
    ServicesStay(r, config, j);
    NoLostKill(r, config, j);
    forall d | d in r.states[i].core.services[n].service.shutdownAfter
      ensures r.states[j].core.services[d].IsTerminal()
    {
      TerminalForGood(r, config, i, j, d);
    }
  }

  /** What `GracefulOrder` keeps from one state to the next. */
  ghost predicate InOrder(s: State, n: ServiceName, signals: seq<Signal>) {
    && signals <= s.core.signals
    && IsClosed(s.core.services) && n in s.core.services
    && (KillAsked(s, n) || Signalled(s.core.signals, n, |signals|) ==>
        IsServiceKillable(s.core.services, s.core.services[n]))
  }

  lemma StepKeepsOrder(s: State, a: Action, n: ServiceName, signals: seq<Signal>)
    requires InOrder(s, n, signals) && s.core.lifecycle == ShuttingDown(Gracefully) && Enabled(s, a)
    ensures signals <= Apply(s, a).core.signals
    ensures KillAsked(Apply(s, a), n) || Signalled(Apply(s, a).core.signals, n, |signals|)
      ==> IsServiceKillable(s.core.services, s.core.services[n])
  {
    StepAsksInOrder(s, a, n);
    var s' := Apply(s, a);
    if Signalled(s'.core.signals, n, |signals|) {
      var k :| |signals| <= k < |s'.core.signals| && s'.core.signals[k].name == n;
      if k < |s.core.signals| {
        assert s.core.signals[k] == s'.core.signals[k];
        assert Signalled(s.core.signals, n, |signals|);
      } else {
        assert Signalled(s'.core.signals, n, |s.core.signals|);
      }
    }
  }

  lemma NothingAskedIsInOrder(s: State, n: ServiceName)
    requires IsClosed(s.core.services) && n in s.core.services && !KillAsked(s, n)
    ensures InOrder(s, n, s.core.signals)
  {
  }

  /** Shutdown order: if a service was not being killed when a graceful shutdown was under way, any
      signal it is sent while the shutdown stays graceful finds every service of its shutdown-after list
      terminal (in the state right after the signal, and ever after). */
  lemma {:induction false} GracefulOrder(r: Trace, config: seq<Service>, i: nat, j: nat, n: ServiceName)
    requires IsProgramTrace(r, config) && i <= j < |r.states|
    requires forall k :: i <= k <= j ==> r.states[k].core.lifecycle == ShuttingDown(Gracefully)
    requires n in r.states[i].core.services && !KillAsked(r.states[i], n)
    requires AreOrderly(r, r.states[i].core.services[n].service.shutdownAfter)
    ensures InOrder(r.states[j], n, r.states[i].core.signals)
  {
    hide IsProgramTrace, Enabled, Apply, KillAsked, IsServiceKillable, FromServices, AreOrderly, Signalled;
    if i == j {
      NoLostKill(r, config, j);
      NothingAskedIsInOrder(r.states[i], n);
    } else {
      Goes(r, config, j - 1);
      GracefulOrder(r, config, i, j - 1, n);
      var s := r.states[j - 1];
      ServicesStay(r, config, i);
      ServicesStay(r, config, j - 1);
      StepKeepsOrder(s, r.actions[j - 1], n, r.states[i].core.signals);
      OrderGoesOn(r, config, j, n);
    }
  }

  lemma OrderGoesOn(r: Trace, config: seq<Service>, j: nat, n: ServiceName)
    requires IsProgramTrace(r, config) && 0 < j < |r.states| && n in r.states[j - 1].core.services
    requires AreOrderly(r, r.states[j - 1].core.services[n].service.shutdownAfter)
    ensures IsClosed(r.states[j - 1].core.services) && IsClosed(r.states[j].core.services)
        && n in r.states[j].core.services
    ensures IsServiceKillable(r.states[j - 1].core.services, r.states[j - 1].core.services[n])
      ==> IsServiceKillable(r.states[j].core.services, r.states[j].core.services[n])
  {
    hide FromServices, IsTrace, IsProgramTrace, IsOrderlyFor;
    NoLostKill(r, config, j - 1);
    NoLostKill(r, config, j);
    ServicesStay(r, config, j - 1);
    ServicesStay(r, config, j);
    if IsServiceKillable(r.states[j - 1].core.services, r.states[j - 1].core.services[n]) {
      KillableForGood(r, config, j - 1, j, n);
    }
  }

  /** The step decides, in a graceful shutdown, to kill `n`. */
  ghost predicate DecidesToKill(s: State, a: Action, n: ServiceName) {
    && a.Compute? && Enabled(s, a) && s.core.lifecycle == ShuttingDown(Gracefully)
    && Kill(n) in NextAll(s.core.services, a.order, a.order, s.core.lifecycle, a.now)
  }

  /** Once a graceful shutdown has decided to kill a service, every service of its shutdown-after list is
      terminal in every later state, so also when the Kill is handled, however late that is and whatever the
      lifecycle has become by then. */
  lemma GracefulDecision(r: Trace, config: seq<Service>, i: nat, j: nat, n: ServiceName)
    requires IsProgramTrace(r, config) && i < j < |r.states| && i < |r.actions|
    requires DecidesToKill(r.states[i], r.actions[i], n) && n in r.states[i].core.services
    requires AreOrderly(r, r.states[i].core.services[n].service.shutdownAfter)
    ensures n in r.states[j].core.services && IsClosed(r.states[j].core.services)
    ensures IsServiceKillable(r.states[j].core.services, r.states[j].core.services[n])
  {
    hide IsProgramTrace, IsOrderlyFor, NextAll, Apply;
    var s, a := r.states[i], r.actions[i];
    NextAllIsJustified(s.core.services, a.order, a.order, s.core.lifecycle, a.now);
    assert IsJustified(s.core.services, s.core.lifecycle, a.now, Kill(n));
    KillableForGood(r, config, i, j, n);
  }
}
