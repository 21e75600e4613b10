/** Requests to kill are carried out. */
module Kills {
  import opened Formats
  import opened ServiceHandlers
  import opened Repos
  import opened Commands
  import opened Queues
  import opened Emissions
  import opened Machine
  import opened Invariants
  import opened Preservation
  import opened Records

  // ---------- no kill is lost ----------

  /** The kill timer of a process being killed runs, or is about to be started. */
  ghost predicate TimerInv(sh: ServiceHandler, n: ServiceName, q: seq<Event>) {
    sh.status == InKilling && sh.pid.Some? ==> sh.shuttingDownStart.Some? || Kill(n) in q
  }

  /** Nobody asks for the statuses that only the supervisor assigns. */
  ghost predicate IsPublished(e: Event) {
    e.StatusUpdate? ==> !e.status.Starting? && !e.status.Started? && !e.status.Success?
  }

  ghost predicate KillInv(s: State) {
    && IsClosed(s.core.services)
    && (forall e :: e in s.Queue() ==> IsPublished(e))
    && (forall n :: KillsFollow(s.Queue(), n))
    && (forall n :: n in s.core.services ==> TimerInv(s.core.services[n], n, s.Queue()))
  }

  /** No handler asks for a kill by itself. */
  lemma HandleAsksNoKill(c: Core, ev: Event, prepared: bool, now: nat, n: ServiceName)
    requires CanHandle(c, ev)
    ensures KillsFollow(HandleEvent(c, ev, prepared, now).produced, n)
    ensures StatusUpdate(n, InKilling) !in HandleEvent(c, ev, prepared, now).produced
  {
    var p := HandleEvent(c, ev, prepared, now).produced;
    if |p| == 1 {
      assert p == [p[0]];
      OneFollows(p[0], n);
    } else if |p| == 2 {
      assert p == [p[0]] + [p[1]];
      OneFollows(p[0], n);
      OneFollows(p[1], n);
      KillsFollowConcat([p[0]], [p[1]], n);
    }
  }

  lemma HandlePublishes(c: Core, ev: Event, prepared: bool, now: nat)
    requires CanHandle(c, ev)
    ensures forall e :: e in HandleEvent(c, ev, prepared, now).produced ==> IsPublished(e)
  {
  }

  lemma HandleKeepsTimer(c: Core, ev: Event, prepared: bool, now: nat, n: ServiceName, t: seq<Event>)
    requires CanHandle(c, ev) && n in c.services
    requires KillsFollow([ev] + t, n) && TimerInv(c.services[n], n, [ev] + t)
    ensures n in HandleEvent(c, ev, prepared, now).core.services
    ensures TimerInv(HandleEvent(c, ev, prepared, now).core.services[n], n, t)
  {
    assert ([ev] + t)[1..] == t;
    if ev.ShuttingDownInitiated? || ev.name != n {
      OthersUntouched(c, ev, prepared, now, n);
    }
  }

  lemma {:induction false} TailFollows(q: seq<Event>, n: ServiceName)
    requires KillsFollow(q, n) && q != []
    ensures KillsFollow(q[1..], n)
  {
  }

  lemma HandleKeepsKills(s: State, prepared: bool, now: nat)
    requires KillInv(s) && Enabled(s, Handle(prepared, now)) && CanHandle(s.core, s.inbox[0])
    ensures KillInv(Apply(s, Handle(prepared, now)))
  {
    hide HandleEvent, KillsFollow;
    var ev, t := s.inbox[0], s.inbox[1..] + s.outbox;
    var h := HandleEvent(s.core, ev, prepared, now);
    var s' := Apply(s, Handle(prepared, now));
    assert s.Queue() == [ev] + t && s.Queue()[1..] == t && s'.Queue() == t + h.produced;
    assert forall e :: e in t ==> e in s.Queue();
    HandlePublishes(s.core, ev, prepared, now);
    HandleKeepsConfiguration(s.core, ev, prepared, now);
    forall n ensures KillsFollow(s'.Queue(), n) {
      TailFollows(s.Queue(), n);
      HandleAsksNoKill(s.core, ev, prepared, now, n);
      KillsFollowConcat(t, h.produced, n);
    }
    forall n | n in s'.core.services ensures TimerInv(s'.core.services[n], n, s'.Queue()) {
      HandleKeepsTimer(s.core, ev, prepared, now, n, t);
    }
  }

  lemma ShutdownStays(c: Core, ev: Event, prepared: bool, now: nat)
    requires CanHandle(c, ev)
    ensures c.lifecycle.ShuttingDown? ==> HandleEvent(c, ev, prepared, now).core.lifecycle.ShuttingDown?
  {
  }

  lemma HandleKeepsConfiguration(c: Core, ev: Event, prepared: bool, now: nat)
    requires CanHandle(c, ev)
    ensures SameServices(c.services, HandleEvent(c, ev, prepared, now).core.services)
  {
    hide HandleEvent;
    HandleKeepsKeys(c, ev, prepared, now);
  }

  lemma {:induction false} ReapsFollow(pidMap: map<Pid, ServiceName>, reaped: seq<(Pid, int)>, n: ServiceName)
    ensures KillsFollow(ReapEvents(pidMap, reaped), n)
    ensures forall e :: e in ReapEvents(pidMap, reaped) ==> e.ServiceExited?
  {
    if reaped != [] {
      ReapsFollow(pidMap, reaped[1..], n);
      if reaped[0].0 in pidMap {
        var first := ServiceExited(pidMap[reaped[0].0], reaped[0].1);
        OneFollows(first, n);
        KillsFollowConcat([first], ReapEvents(pidMap, reaped[1..]), n);
      } else {
        assert ReapEvents(pidMap, reaped) == ReapEvents(pidMap, reaped[1..]);
      }
    }
  }

  lemma ComputeKeepsKills(s: State, order: seq<ServiceName>, now: nat, reaped: seq<(Pid, int)>)
    requires KillInv(s) && Enabled(s, Compute(order, now, reaped))
    ensures KillInv(Apply(s, Compute(order, now, reaped)))
  {
    var c, s' := s.core, Apply(s, Compute(order, now, reaped));
    var commands, exits := NextAll(c.services, order, order, c.lifecycle, now), ReapEvents(c.pidMap, reaped);
    assert s'.Queue() == s.Queue() + commands + exits;
    NextAllIsJustified(c.services, order, order, c.lifecycle, now);
    forall e | e in s'.Queue() ensures IsPublished(e) {
      ReapsFollow(c.pidMap, reaped, "");
      assert e in s.Queue() || e in commands || e in exits;
    }
    forall n ensures KillsFollow(s'.Queue(), n) {
      NextAllFollow(c.services, order, order, c.lifecycle, now, n);
      ReapsFollow(c.pidMap, reaped, n);
      KillsFollowConcat(s.Queue(), commands, n);
      KillsFollowConcat(s.Queue() + commands, exits, n);
    }
  }

  lemma InsertKeepsKills(s: State, s': State, e: Event)
    requires KillInv(s) && s'.core.services == s.core.services
    requires s'.inbox == s.inbox + [e] && s'.outbox == s.outbox && !e.StatusUpdate?
    ensures KillInv(s')
  {
    assert s'.Queue() == s.inbox + [e] + s.outbox;
    assert forall e' :: e' in s'.Queue() ==> e' == e || e' in s.inbox || e' in s.outbox;
    forall n ensures KillsFollow(s'.Queue(), n) {
      assert KillsFollow(s.Queue(), n);
      KillsFollowInsert(s.inbox, e, s.outbox, n);
    }
  }

  lemma StepKeepsKills(s: State, a: Action)
    requires KillInv(s) && Enabled(s, a)
    ensures KillInv(Apply(s, a))
  {
    if a.Handle? {
      if CanHandle(s.core, s.inbox[0]) {
        HandleKeepsKills(s, a.prepared, a.now);
      } else {
        assert Apply(s, a).Queue() == s.Queue();
      }
    } else if a.Compute? {
      ComputeKeepsKills(s, a.order, a.now, a.reaped);
    } else if a.Send? {
      assert Apply(s, a).Queue() == s.Queue();
    } else {
      QuietStepKeepsKills(s, a);
    }
  }

  lemma QuietStepKeepsKills(s: State, a: Action)
    requires KillInv(s) && Enabled(s, a) && !a.Handle? && !a.Compute? && !a.Send?
    ensures KillInv(Apply(s, a))
  {
    var s' := Apply(s, a);
    if |s'.inbox| == |s.inbox| + 1 {
      InsertKeepsKills(s, s', s'.inbox[|s.inbox|]);
    } else {
      assert s'.inbox == s.inbox && s'.outbox == s.outbox;
      assert s'.Queue() == s.Queue();
    }
  }

  lemma StartLosesNoKill(config: seq<Service>)
    requires forall s :: s in config ==> IsWellFormed(s, config)
    ensures KillInv(Start(config))
  {
    ValidatedIsClosed(config);
    FromServicesHolds(config);
    assert Start(config).Queue() == [];
  }

  /** In every state of every run, each request to kill a service on its way has a Kill for that service
      behind it, and a process whose service is being killed has its kill timer running or a Kill coming. */
  lemma {:induction false} NoLostKill(r: Trace, config: seq<Service>, i: nat)
    requires IsProgramTrace(r, config) && i < |r.states|
    ensures KillInv(r.states[i])
  {
    hide *;
    Begins(r, config);
    if i == 0 {
      StartLosesNoKill(config);
    } else {
      Goes(r, config, i - 1);
      NoLostKill(r, config, i - 1);
      StepKeepsKills(r.states[i - 1], r.actions[i - 1]);
    }
  }
}
