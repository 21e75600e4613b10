/** A run in which the kill timer of an earlier process speaks for a process that nobody has signalled. */
module StaleTimers {
  import opened Formats
  import opened ServiceHandlers
  import opened Repos
  import opened Commands
  import opened Machine
  import opened Iterations
  import opened Overruns
  import opened Timers

  /** The supervisor of the only service, between two steps of a turn. */
  ghost predicate At(s: State, phase: Phase, inbox: seq<Event>, outbox: seq<Event>, sh: ServiceHandler,
                     lifecycle: LifecycleStatus, sigterm: bool) {
    && s.phase == phase && s.inbox == inbox && s.outbox == outbox
    && s.core.services == map[A := sh] && s.core.lifecycle == lifecycle && s.core.sigterm == sigterm
  }

  /** What the events of this run do: announcements nothing, a pid brings up, a shutdown shuts down, a request to
      kill is granted. */
  predicate Turns(e: Event, sh: ServiceHandler, lifecycle: LifecycleStatus, sigterm: bool, sh': ServiceHandler,
                  told: seq<Event>, lifecycle': LifecycleStatus, sigterm': bool) {
    match e
    case StatusChanged(n, _) => n == A && sh' == sh && told == [] && lifecycle' == lifecycle && sigterm' == sigterm
    case PidChanged(n, p) =>
      && n == A && sh.status == Starting && sh' == sh.(status := Started, pid := Some(p))
      && told == [StatusChanged(A, Started)] && lifecycle' == lifecycle && sigterm' == sigterm
    case ShuttingDownInitiated(mode) =>
      sh' == sh && told == [] && lifecycle' == ShuttingDown(mode) && !sigterm'
    case StatusUpdate(n, InKilling) =>
      && n == A && sh.status == Started && sh' == sh.(status := InKilling)
      && told == [StatusChanged(A, InKilling)] && lifecycle' == lifecycle && sigterm' == sigterm
    case _ => false
  }

  lemma HandleAt(origin: State, s: State, e: Event, rest: seq<Event>, out: seq<Event>, sh: ServiceHandler,
        lifecycle: LifecycleStatus, sigterm: bool, sh': ServiceHandler, told: seq<Event>,
        lifecycle': LifecycleStatus, sigterm': bool)
    returns (t: State)
    requires Reaches(origin, s) && At(s, Handling, [e] + rest, out, sh, lifecycle, sigterm)
    requires 0 < s.taken <= 1 + |rest| && Turns(e, sh, lifecycle, sigterm, sh', told, lifecycle', sigterm')
    ensures Reaches(origin, t) && At(t, Handling, rest, out + told, sh', lifecycle', sigterm')
    ensures t.taken == s.taken - 1 && t.core.signals == s.core.signals
  {
    hide Reaches, NextAll, ReapEvents, AllHaveFinished, IsClosed;
    assert ([e] + rest)[1..] == rest;
    assert map[A := sh][A := sh'] == map[A := sh'];
    ReachesStep(origin, s, Handle(true, 0));
    t := Apply(s, Handle(true, 0));
  }

  lemma FinishAt(origin: State, s: State, inbox: seq<Event>, out: seq<Event>, sh: ServiceHandler,
        lifecycle: LifecycleStatus, sigterm: bool, commands: seq<Event>)
    returns (t: State)
    requires Reaches(origin, s) && At(s, Handling, inbox, out, sh, lifecycle, sigterm) && s.taken == 0
    requires sh.service == Fragile && IsClosed(map[A := sh]) && IsIterationOrder([A], map[A := sh])
    requires NextAll(map[A := sh], [A], [A], lifecycle, 0) == commands
    ensures Reaches(origin, t) && At(t, Idle, inbox + (out + commands), [], sh, lifecycle, sigterm)
    ensures t.core.signals == s.core.signals
  {
    hide Reaches, NextAll, AllHaveFinished, IsClosed, HandleEvent;
    var a := Compute([A], 0, []);
    assert ReapEvents(s.core.pidMap, []) == [];
    ReachesStep(origin, s, a);
    var u := Apply(s, a);
    assert u.outbox == out + commands;
    SendingIsSteps(origin, u);
    var v := u.(inbox := u.inbox + u.outbox, outbox := []);
    ReachesStep(origin, v, EndIteration);
    t := Apply(v, EndIteration);
  }

  lemma TakeAt(origin: State, s: State, count: nat, inbox: seq<Event>, sh: ServiceHandler,
        lifecycle: LifecycleStatus, sigterm: bool)
    returns (t: State)
    requires Reaches(origin, s) && At(s, Idle, inbox, [], sh, lifecycle, sigterm)
    requires count <= |inbox| && !sh.IsTerminal() && (sigterm ==> lifecycle == Active)
    ensures Reaches(origin, t)
    ensures At(t, Handling, inbox + if sigterm then [ShuttingDownInitiated(Gracefully)] else [], [], sh, lifecycle,
               sigterm)
    ensures t.taken == count && t.core.signals == s.core.signals
  {
    hide Reaches, NextAll, ReapEvents, IsClosed, HandleEvent;
    assert !s.core.services[A].IsTerminal();
    ReachesStep(origin, s, Take(count));
    t := Apply(s, Take(count));
  }

  lemma {:induction false} UnusedPid(signals: seq<Signal>) returns (p: Pid)
    ensures p > 1 && forall k :: 0 <= k < |signals| ==> signals[k].pid < p
  {
    if signals == [] {
      p := 2;
    } else {
      var most := UnusedPid(signals[..|signals| - 1]);
      var last := signals[|signals| - 1].pid;
      p := if last < most then most else last + 1;
      forall k | 0 <= k < |signals| ensures signals[k].pid < p {
        if k < |signals| - 1 {
          assert signals[..|signals| - 1][k] == signals[k];
        }
      }
    }
  }

  /** The service started over a process that was killed by force, as it is before its pid is known. */
  const Beside: ServiceHandler := RunBeside.handler

  function Up(p: Pid): ServiceHandler { Beside.(status := Started, pid := Some(p)) }

  const Shut: Event := ShuttingDownInitiated(Gracefully)
  const Asked: Event := StatusUpdate(A, InKilling)

  lemma CommandsWhileUp(p: Pid)
    ensures IsClosed(map[A := Up(p)]) && IsIterationOrder([A], map[A := Up(p)])
    ensures NextAll(map[A := Up(p)], [A], [A], Active, 0) == []
  {
    OnlyCommands(Up(p), 0);
  }

  lemma CommandsWhileShut(p: Pid)
    ensures IsClosed(map[A := Up(p)]) && IsIterationOrder([A], map[A := Up(p)])
    ensures NextAll(map[A := Up(p)], [A], [A], ShuttingDown(Gracefully), 0) == [Asked, Kill(A)]
  {
    OnlyCommands(Up(p), 0);
    var services, order := map[A := Up(p)], [A];
    assert order[1..] == [];
    assert NextAll(services, order, order[1..], ShuttingDown(Gracefully), 0) == [];
  }

  /** Started beside the old process, with the old timer running, and SIGTERM pending. */
  lemma ComesUpUnderSigterm(origin: State, s: State, p: Pid) returns (t: State)
    requires Reaches(origin, s) && Looks(s, RunBeside) && p > 1
    ensures Reaches(origin, t) && At(t, Idle, [Shut, StatusChanged(A, Started)], [], Up(p), Active, true)
    ensures t.core.signals == s.core.signals
  {
    hide Reaches, NextAll, ReapEvents, HandleEvent, IsClosed, IsIterationOrder, AllHaveFinished;
    SpawnIsSteps(origin, s, A, p);
    var s1 := Spawned(s, A, p);
    ReachesStep(origin, s1, Terminate);
    var s2 := Apply(s1, Terminate);
    var news, report := StatusChanged(A, Starting), PidChanged(A, p);
    assert At(s2, Idle, [news, report], [], Beside, Active, true);
    var s3 := TakeAt(origin, s2, 2, [news, report], Beside, Active, true);
    assert [news, report] + [Shut] == [news] + [report, Shut] && [report, Shut] == [report] + [Shut];
    var s4 := HandleAt(origin, s3, news, [report, Shut], [], Beside, Active, true, Beside, [], Active, true);
    var told := [StatusChanged(A, Started)];
    var s5 := HandleAt(origin, s4, report, [Shut], [] + [], Beside, Active, true, Up(p), told, Active, true);
    CommandsWhileUp(p);
    t := FinishAt(origin, s5, [Shut], [] + [] + told, Up(p), Active, true, []);
    assert [Shut] + ([] + [] + told + []) == [Shut, StatusChanged(A, Started)];
  }

  lemma IsAskedToDie(origin: State, s: State, p: Pid) returns (t: State)
    requires Reaches(origin, s) && At(s, Idle, [Shut, StatusChanged(A, Started)], [], Up(p), Active, true)
    ensures Reaches(origin, t) && t.core.signals == s.core.signals
    ensures At(t, Idle, [StatusChanged(A, Started), Shut, Asked, Kill(A)], [], Up(p), ShuttingDown(Gracefully), false)
  {
    hide Reaches, NextAll, ReapEvents, HandleEvent, IsClosed, IsIterationOrder, AllHaveFinished;
    var news, mode := StatusChanged(A, Started), ShuttingDown(Gracefully);
    var s1 := TakeAt(origin, s, 1, [Shut, news], Up(p), Active, true);
    assert [Shut, news] + [Shut] == [Shut] + [news, Shut];
    var s2 := HandleAt(origin, s1, Shut, [news, Shut], [], Up(p), Active, true, Up(p), [], mode, false);
    CommandsWhileShut(p);
    t := FinishAt(origin, s2, [news, Shut], [] + [], Up(p), mode, false, [Asked, Kill(A)]);
    assert [news, Shut] + ([] + [] + [Asked, Kill(A)]) == [news, Shut, Asked, Kill(A)];
  }

  lemma IsBeingKilled(origin: State, s: State, p: Pid) returns (t: State)
    requires Reaches(origin, s)
    requires At(s, Idle, [StatusChanged(A, Started), Shut, Asked, Kill(A)], [], Up(p), ShuttingDown(Gracefully), false)
    ensures Reaches(origin, t) && t.core.signals == s.core.signals
    ensures At(t, Handling, [Kill(A)], [StatusChanged(A, InKilling)], Up(p).(status := InKilling),
               ShuttingDown(Gracefully), false)
  {
    hide Reaches, NextAll, ReapEvents, HandleEvent, IsClosed, IsIterationOrder, AllHaveFinished;
    var news, mode, told := StatusChanged(A, Started), ShuttingDown(Gracefully), [StatusChanged(A, InKilling)];
    var s1 := TakeAt(origin, s, 3, [news, Shut, Asked, Kill(A)], Up(p), mode, false);
    assert [news, Shut, Asked, Kill(A)] + [] == [news] + [Shut, Asked, Kill(A)];
    var s2 := HandleAt(origin, s1, news, [Shut, Asked, Kill(A)], [], Up(p), mode, false, Up(p), [], mode, false);
    assert [Shut, Asked, Kill(A)] == [Shut] + [Asked, Kill(A)] && [Asked, Kill(A)] == [Asked] + [Kill(A)];
    var s3 := HandleAt(origin, s2, Shut, [Asked, Kill(A)], [] + [], Up(p), mode, false, Up(p), [], mode, false);
    t := HandleAt(origin, s3, Asked, [Kill(A)], [] + [] + [], Up(p), mode, false, Up(p).(status := InKilling), told,
                  mode, false);
    assert [] + [] + [] + told == told;
  }

  /** The service is being killed and its timer runs, so that it may be killed by force after a second, though
      its process has been sent no signal. */
  ghost predicate IsTimedWrongly(s: State) {
    && A in s.core.services && s.core.services[A].status == InKilling && s.core.services[A].pid.Some?
    && s.core.services[A].shuttingDownStart.Some? && !WasSignalled(s, A, s.core.services[A].pid.value)
    && s.core.services[A].ShouldForceKill(Some(Gracefully), Late)
  }

  /** A reachable state, with fresh pids, in which that is so: a service killed by force was started again, and
      the timer of its first process was never stopped. */
  lemma TimersCanBeStale()
    ensures IsWellFormed(Fragile, [Fragile])
    ensures exists s :: Reaches(Start([Fragile]), s) && IsTimedWrongly(s)
  {
    hide *;
    FragileIsWellFormed();
    var origin := Start([Fragile]);
    var s0 := UntilKilled();
    IsReset(s0);
    var s1 := GoOn(origin, s0, TurnAt(2, Late, []), Reset);
    IsRunBeside(s1);
    var s2 := GoOn(origin, s1, TurnAt(2, Late, []), RunBeside);
    var p := UnusedPid(s2.core.signals);
    var s3 := ComesUpUnderSigterm(origin, s2, p);
    var s4 := IsAskedToDie(origin, s3, p);
    var s5 := IsBeingKilled(origin, s4, p);
    UnsignalledIsTimedWrongly(s5, p);
  }

  lemma UnsignalledIsTimedWrongly(s: State, p: Pid)
    requires At(s, Handling, [Kill(A)], [StatusChanged(A, InKilling)], Up(p).(status := InKilling),
                ShuttingDown(Gracefully), false)
    requires forall k :: 0 <= k < |s.core.signals| ==> s.core.signals[k].pid < p
    ensures IsTimedWrongly(s)
  {
  }
}
