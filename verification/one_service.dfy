/** The invariant of a single service: it needs nothing but that this service is not started over a
    process, whatever happens to the others. */
module OneService {
  import opened Formats
  import opened ServiceHandlers
  import opened Commands
  import opened Queues
  import opened Machine
  import opened Invariants
  import opened Preservation
  import opened PidBook
  import opened Frames

  ghost predicate IsGood(s: State, n: ServiceName) {
    n in s.core.services && Local(s, n) && HoldsItsPids(s.core.services, s.core.pidMap, n)
  }

  lemma GoodExists(s: State, n: ServiceName)
    requires IsGood(s, n)
    ensures n in s.core.services
  {
  }

  /** The next event can be handled if it concerns a good service. */
  lemma GoodCanBeHandled(s: State, n: ServiceName)
    requires FrameInv(s) && IsGood(s, n) && s.inbox != []
    requires !s.inbox[0].ShuttingDownInitiated? && s.inbox[0].name == n
    ensures CanHandle(s.core, s.inbox[0])
  {
    LookupsFailExactly(s);
    FirstInOutlook(s, n);
  }

  lemma HandleKeepsHeldPids(c: Core, ev: Event, prepared: bool, now: nat, n: ServiceName, t: Outlook,
        children: set<Pid>)
    requires CanHandle(c, ev) && n in c.services && HoldsItsPids(c.services, c.pidMap, n)
    requires forall m :: IsHeld(c.services, c.pidMap, m)
    requires ev.PidChanged? && ev.name == n ==> c.services[n].pid.None?
    ensures var d := HandleEvent(c, ev, prepared, now).core;
      n in d.services && HoldsItsPids(d.services, d.pidMap, n)
  {
    hide HandleEvent;
    HandleKeepsPids(c, ev, prepared, now);
    HandleKeepsKeys(c, ev, prepared, now);
    if ev.ServiceExited? {
      assert IsHeld(c.services, c.pidMap, ev.name);
    }
  }

  lemma ReportFindsNoPid(s: State, n: ServiceName)
    requires s.inbox != [] && n in s.core.services && Local(s, n)
    ensures s.inbox[0].PidChanged? && s.inbox[0].name == n ==> s.core.services[n].pid.None?
  {
    FirstInOutlook(s, n);
  }

  lemma HandleKeepsGood(s: State, a: Action, n: ServiceName)
    requires FrameInv(s) && IsGood(s, n) && a.Handle? && Enabled(s, a) && RunsOnlyExitedOf(s, a, n)
    requires CanHandle(s.core, s.inbox[0])
    ensures IsGood(Apply(s, a), n)
  {
    hide HandleEvent, OutlookOf, NamesAreKnown, LocalInv, HoldsItsPids, IsHeld;
    FirstIsKnown(s);
    HandleKeepsLocal(s, a.prepared, a.now, n);
    ReportFindsNoPid(s, n);
    HandleKeepsHeldPids(s.core, s.inbox[0], a.prepared, a.now, n, Clear, {});
  }

  /** A panic changes nothing but the phase. */
  lemma PanicKeepsGood(s: State, a: Action, n: ServiceName)
    requires IsGood(s, n) && a.Handle? && Enabled(s, a) && !CanHandle(s.core, s.inbox[0])
    ensures IsGood(Apply(s, a), n)
  {
    hide LocalInv, HoldsItsPids;
    assert Apply(s, a).Queue() == s.Queue();
  }

  lemma SpawnReportKeepsGood(s: State, a: Action, n: ServiceName)
    requires FrameInv(s) && IsGood(s, n) && Enabled(s, a) && (a.SpawnSucceeds? || a.SpawnFails?)
    ensures IsGood(Apply(s, a), n)
  {
    hide LocalInv, HoldsItsPids, NamesAreKnown, OutlookOf, HandleEvent;
    var report := if a.SpawnSucceeds? then PidChanged(a.name, a.pid) else SpawnFailed(a.name);
    ReportKeepsLocal(s, Apply(s, a), a.name, report, n);
  }

  lemma ForkKeepsGood(s: State, a: Action, n: ServiceName)
    requires FrameInv(s) && IsGood(s, n) && Enabled(s, a) && a.Fork?
    ensures IsGood(Apply(s, a), n)
  {
    hide LocalInv, HoldsItsPids, NamesAreKnown, OutlookOf, HandleEvent;
    assert IsHeld(s.core.services, s.core.pidMap, n);
    ForkKeepsLocal(s, a, n);
  }

  lemma QuietStepKeepsGood(s: State, a: Action, n: ServiceName)
    requires FrameInv(s) && IsGood(s, n) && Enabled(s, a)
    requires a.Take? || a.Stop? || a.ReportHealth? || a.EndIteration? || a.Terminate?
    ensures IsGood(Apply(s, a), n)
  {
    hide LocalInv, HoldsItsPids, NamesAreKnown, OutlookOf, HandleEvent;
    QuietStepKeepsLocal(s, a, n);
  }

  lemma OtherStepKeepsGood(s: State, a: Action, n: ServiceName)
    requires FrameInv(s) && IsGood(s, n) && Enabled(s, a) && !a.Handle?
    ensures IsGood(Apply(s, a), n)
  {
    hide FrameInv, HandleEvent, LocalInv, OutlookOf, HoldsItsPids, NextAll, ReapEvents;
    if a.SpawnSucceeds? || a.SpawnFails? {
      SpawnReportKeepsGood(s, a, n);
    } else if a.Fork? {
      ForkKeepsGood(s, a, n);
    } else if a.Compute? {
      ComputeKeepsLocal(s, a.order, a.now, a.reaped, n);
    } else if a.Send? {
      SendKeepsLocal(s, n);
    } else {
      QuietStepKeepsGood(s, a, n);
    }
  }

  /** A step keeps a service good unless it starts this very service over a process. */
  lemma StepKeepsGood(s: State, a: Action, n: ServiceName)
    requires FrameInv(s) && IsGood(s, n) && Enabled(s, a) && RunsOnlyExitedOf(s, a, n)
    ensures IsGood(Apply(s, a), n)
  {
    hide FrameInv, IsGood, Apply, RunsOnlyExitedOf;
    if !a.Handle? {
      OtherStepKeepsGood(s, a, n);
    } else if CanHandle(s.core, s.inbox[0]) {
      HandleKeepsGood(s, a, n);
    } else {
      PanicKeepsGood(s, a, n);
    }
  }

  lemma StartIsGoodFor(config: seq<Service>, n: ServiceName)
    requires (forall s :: s in config ==> IsWellFormed(s, config)) && n in Start(config).core.services
    ensures IsGood(Start(config), n)
  {
    StartIsGood(config);
  }

  /** The run never starts `n` over a process. */
  ghost predicate IsOrderlyFor(r: Trace, n: ServiceName) {
    |r.states| == |r.actions| + 1
    && forall i :: 0 <= i < |r.actions| ==> RunsOnlyExitedOf(r.states[i], r.actions[i], n)
  }

  /** In every run that never starts `n` over a process, `n` is good throughout. */
  lemma {:induction false} RunKeepsGood(r: Trace, config: seq<Service>, i: nat, n: ServiceName)
    requires IsProgramTrace(r, config) && IsOrderlyFor(r, n) && i < |r.states|
    requires n in r.states[0].core.services
    ensures IsGood(r.states[i], n)
  {
    hide IsProgramTrace, IsGood, FrameInv, Enabled, Apply, RunsOnlyExitedOf, Start;
    Begins(r, config);
    if i == 0 {
      StartIsGoodFor(config, n);
    } else {
      Goes(r, config, i - 1);
      RunKeepsGood(r, config, i - 1, n);
      RunKeepsFrame(r, config, i - 1);
      StepKeepsGood(r.states[i - 1], r.actions[i - 1], n);
    }
  }

  /** In such a run no event about `n` makes the supervisor panic. */
  lemma NoPanicAbout(r: Trace, config: seq<Service>, i: nat, n: ServiceName)
    requires IsProgramTrace(r, config) && IsOrderlyFor(r, n) && i < |r.states| && n in r.states[0].core.services
    requires r.states[i].inbox != []
    requires !r.states[i].inbox[0].ShuttingDownInitiated? && r.states[i].inbox[0].name == n
    ensures CanHandle(r.states[i].core, r.states[i].inbox[0]) && r.states[i].phase != Crashed
  {
    hide IsProgramTrace, IsOrderlyFor, IsGood, CanHandle, NamesAreKnown, PidInv;
    RunKeepsFrame(r, config, i);
    RunKeepsGood(r, config, i, n);
    GoodCanBeHandled(r.states[i], n);
  }

  /** A run is orderly if and only if it is so for every service. */
  lemma OrderlyForAll(r: Trace)
    ensures IsOrderly(r) <==> |r.states| == |r.actions| + 1 && forall n :: IsOrderlyFor(r, n)
  {
    if |r.states| == |r.actions| + 1 {
      if IsOrderly(r) {
        forall n ensures IsOrderlyFor(r, n) {
          forall i | 0 <= i < |r.actions| ensures RunsOnlyExitedOf(r.states[i], r.actions[i], n) {
            assert RunsOnlyExited(r.states[i], r.actions[i]);
          }
        }
      }
      if forall n :: IsOrderlyFor(r, n) {
        forall i | 0 <= i < |r.actions| ensures RunsOnlyExited(r.states[i], r.actions[i]) {
          var s, a := r.states[i], r.actions[i];
          if a.Handle? && |s.inbox| > 0 && s.inbox[0].Run? {
            assert IsOrderlyFor(r, s.inbox[0].name);
            assert RunsOnlyExitedOf(s, a, s.inbox[0].name);
          }
        }
      }
    }
  }
}
