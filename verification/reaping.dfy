/** Whether every exit is heard of. A child that ends and is reaped before the report of its pid has been
    handled is nobody's child yet: its exit is dropped, and the late report makes a dead process run. */
module Reaping {
  import opened Formats
  import opened ServiceHandlers
  import opened Repos
  import opened Commands
  import opened Queues
  import opened Emissions
  import opened Machine
  import opened Invariants
  import opened Preservation
  import opened PidBook
  import opened OneService

  ghost predicate ExitIsQueued(s: State, n: ServiceName) {
    exists e :: e in s.Queue() && IsExit(e, n)
  }

  /** The process `n` holds is there, or its exit is under way. */
  ghost predicate IsAccounted(s: State, n: ServiceName) {
    n in s.core.services && s.core.services[n].pid.Some? ==>
      s.core.services[n].pid.value in s.children || ExitIsQueued(s, n)
  }

  /** The process has been forked, and its pid is not known to the supervisor yet: its thread has not sent the
      report, or the report has not been handled. */
  ghost predicate IsUnannounced(s: State, p: Pid) {
    p in s.forked || IsReported(s.inbox, p)
  }

  /** Every process about to be reported is there. */
  ghost predicate ReportsAreAlive(s: State) {
    forall p :: IsUnannounced(s, p) ==> p in s.children
  }

  ghost predicate AllAccounted(s: State) {
    (forall n :: IsAccounted(s, n)) && ReportsAreAlive(s)
  }

  /** The step reaps a child whose pid the supervisor does not know yet. */
  ghost predicate ReapsUnannounced(s: State, a: Action) {
    a.Compute? && exists p :: p in ReapedPids(a.reaped) && IsUnannounced(s, p)
  }

  lemma {:induction false} ReapIsReported(pidMap: map<Pid, ServiceName>, reaped: seq<(Pid, int)>, p: Pid)
    requires p in ReapedPids(reaped) && p in pidMap
    ensures exists e :: e in ReapEvents(pidMap, reaped) && IsExit(e, pidMap[p])
  {
    var i :| 0 <= i < |reaped| && reaped[i].0 == p;
    if i == 0 {
      assert ServiceExited(pidMap[p], reaped[0].1) in ReapEvents(pidMap, reaped);
    } else {
      assert reaped[1..][i - 1].0 == p;
      ReapIsReported(pidMap, reaped[1..], p);
      var e :| e in ReapEvents(pidMap, reaped[1..]) && IsExit(e, pidMap[p]);
      assert e in ReapEvents(pidMap, reaped);
    }
  }

  lemma HandleAccounts(s: State, a: Action, n: ServiceName)
    requires a.Handle? && Enabled(s, a) && CanHandle(s.core, s.inbox[0])
    requires IsAccounted(s, n) && ReportsAreAlive(s)
    ensures IsAccounted(Apply(s, a), n)
  {
    hide HandleEvent;
    var ev, s' := s.inbox[0], Apply(s, a);
    HandleKeepsPids(s.core, ev, a.prepared, a.now);
    HandleKeepsKeys(s.core, ev, a.prepared, a.now);
    assert s.Queue() == [ev] + (s.inbox[1..] + s.outbox);
    assert forall e :: e in s.inbox[1..] + s.outbox ==> e in s'.Queue();
    assert ev in s.inbox;
  }

  lemma HandleKeepsAlive(s: State, a: Action)
    requires a.Handle? && Enabled(s, a) && ReportsAreAlive(s)
    ensures ReportsAreAlive(Apply(s, a))
  {
    hide HandleEvent;
    assert forall e :: e in s.inbox[1..] ==> e in s.inbox;
  }

  lemma ComputeAccounts(s: State, a: Action, n: ServiceName)
    requires a.Compute? && Enabled(s, a) && IsAccounted(s, n) && IsHeld(s.core.services, s.core.pidMap, n)
    ensures IsAccounted(Apply(s, a), n)
  {
    hide HandleEvent, NextAll, ReapEvents;
    var s' := Apply(s, a);
    assert forall e :: e in s.Queue() ==> e in s'.Queue();
    if n in s.core.services && s.core.services[n].pid.Some? && s.core.services[n].pid.value in s.children {
      var p := s.core.services[n].pid.value;
      if p in ReapedPids(a.reaped) {
        ReapIsReported(s.core.pidMap, a.reaped, p);
        var e :| e in ReapEvents(s.core.pidMap, a.reaped) && IsExit(e, n);
        assert e in s'.Queue();
      }
    }
  }

  lemma OtherStepAccounts(s: State, a: Action)
    requires !a.Handle? && !a.Compute? && Enabled(s, a) && AllAccounted(s) && NoReports(s.outbox)
    ensures AllAccounted(Apply(s, a))
  {
    hide HandleEvent, NextAll, ReapEvents, AllHaveFinished;
    var s' := Apply(s, a);
    assert forall e :: e in s.Queue() ==> e in s'.Queue();
    assert s.children <= s'.children;
    forall n ensures IsAccounted(s', n) {
      assert IsAccounted(s, n);
    }
    forall e | e in s'.inbox && e.PidChanged? ensures e.pid in s'.children {
      assert e in s.inbox || e in s.outbox || a.SpawnSucceeds?;
    }
  }

  /** A step keeps every exit in sight if and only if it does not reap a child whose report, sent or not, is
      still to be handled. */
  lemma StepAccountsExactly(s: State, a: Action)
    requires PidInv(s) && AllAccounted(s) && Enabled(s, a)
    ensures AllAccounted(Apply(s, a)) <==> !ReapsUnannounced(s, a)
  {
    hide HandleEvent, NextAll, ReapEvents, IsAccounted, AreNew;
    if a.Handle? {
      HandleKeepsAlive(s, a);
      forall n ensures IsAccounted(Apply(s, a), n) {
        if CanHandle(s.core, s.inbox[0]) {
          HandleAccounts(s, a, n);
        } else {
          SameAccount(s, Apply(s, a), n);
        }
      }
    } else if a.Compute? {
      forall n ensures IsAccounted(Apply(s, a), n) {
        assert IsHeld(s.core.services, s.core.pidMap, n);
        ComputeAccounts(s, a, n);
      }
    } else {
      OtherStepAccounts(s, a);
    }
  }

  lemma SameAccount(s: State, s': State, n: ServiceName)
    requires IsAccounted(s, n)
    requires s'.core == s.core && s'.inbox == s.inbox && s'.outbox == s.outbox && s'.children == s.children
    ensures IsAccounted(s', n)
  {
    assert s'.Queue() == s.Queue();
  }

  /** No child ends and is reaped before the report of its pid has been handled. */
  ghost predicate ReapsOnlyAnnounced(r: Trace) {
    |r.states| == |r.actions| + 1 && forall i :: 0 <= i < |r.actions| ==> !ReapsUnannounced(r.states[i], r.actions[i])
  }

  lemma StartAccounts(config: seq<Service>)
    ensures AllAccounted(Start(config))
  {
    FromServicesHolds(config);
  }

  /** In every run that reaps only children whose reports have been handled, every pid held is that of a child
      that is there, or the exit of its service is under way. */
  lemma {:induction false} RunAccounts(r: Trace, config: seq<Service>, i: nat)
    requires IsProgramTrace(r, config) && ReapsOnlyAnnounced(r) && i < |r.states|
    ensures AllAccounted(r.states[i])
  {
    hide IsProgramTrace, PidInv, AllAccounted, Enabled, Apply, Start, ReapsUnannounced;
    Begins(r, config);
    if i == 0 {
      StartAccounts(config);
    } else {
      Goes(r, config, i - 1);
      RunAccounts(r, config, i - 1);
      RunKeepsPidInv(r, config, i - 1);
      StepAccountsExactly(r.states[i - 1], r.actions[i - 1]);
    }
  }

  // ---------- lost for good ----------

  /** `n` holds the pid of a child that is gone, and no exit of it is under way. */
  ghost predicate IsLost(s: State, n: ServiceName, p: Pid) {
    n in s.core.services && s.core.services[n].pid == Some(p) && p !in s.children && !ExitIsQueued(s, n)
  }

  lemma HandleLoses(s: State, a: Action, n: ServiceName, p: Pid)
    requires a.Handle? && Enabled(s, a) && CanHandle(s.core, s.inbox[0]) && IsGood(s, n) && IsLost(s, n, p)
    ensures IsLost(Apply(s, a), n, p)
  {
    hide HandleEvent, LocalInv, HoldsItsPids, OutlookOf;
    var ev, s' := s.inbox[0], Apply(s, a);
    ReportFindsNoPid(s, n);
    HandleKeepsPids(s.core, ev, a.prepared, a.now);
    HandleKeepsKeys(s.core, ev, a.prepared, a.now);
    HandleProducesNoExits(s.core, ev, a.prepared, a.now);
    assert s.Queue() == [ev] + (s.inbox[1..] + s.outbox);
    assert ev in s.Queue();
    assert forall e :: e in s'.Queue() ==> e in s.Queue() || e in HandleEvent(s.core, ev, a.prepared, a.now).produced;
  }

  lemma HandleProducesNoExits(c: Core, ev: Event, prepared: bool, now: nat)
    requires CanHandle(c, ev)
    ensures forall e :: e in HandleEvent(c, ev, prepared, now).produced ==> !e.ServiceExited?
  {
  }

  lemma ComputeLoses(s: State, a: Action, n: ServiceName, p: Pid)
    requires a.Compute? && Enabled(s, a) && IsGood(s, n) && IsLost(s, n, p)
    ensures IsLost(Apply(s, a), n, p)
  {
    hide HandleEvent, LocalInv, NextAll, ReapEvents, OutlookOf;
    var c, s' := s.core, Apply(s, a);
    var commands, exits := NextAll(c.services, a.order, a.order, c.lifecycle, a.now), ReapEvents(c.pidMap, a.reaped);
    NextAllIsJustified(c.services, a.order, a.order, c.lifecycle, a.now);
    ReapedOnce(c.services, c.pidMap, a.reaped, n);
    OutlookMembers(exits, n);
    assert forall e :: e in s'.Queue() ==> e in s.Queue() || e in commands || e in exits;
    forall e | e in s'.Queue() ensures !IsExit(e, n) {
      if e in commands {
        assert IsJustified(c.services, c.lifecycle, a.now, e);
      }
    }
  }

  lemma OtherStepLoses(s: State, a: Action, n: ServiceName, p: Pid)
    requires !a.Handle? && !a.Compute? && Enabled(s, a) && IsLost(s, n, p) && IsHeld(s.core.services, s.core.pidMap, n)
    ensures IsLost(Apply(s, a), n, p)
  {
    hide HandleEvent, NextAll, ReapEvents, AllHaveFinished;
    var s' := Apply(s, a);
    assert forall e :: e in s'.Queue() ==> e in s.Queue() || (e in s'.inbox && !e.ServiceExited?);
  }

  lemma StepLoses(s: State, a: Action, n: ServiceName, p: Pid)
    requires PidInv(s) && Enabled(s, a) && IsGood(s, n) && IsLost(s, n, p)
    ensures IsLost(Apply(s, a), n, p)
  {
    hide HandleEvent, NextAll, ReapEvents, IsGood, AreNew;
    assert IsHeld(s.core.services, s.core.pidMap, n);
    if a.Compute? {
      ComputeLoses(s, a, n, p);
    } else if !a.Handle? {
      OtherStepLoses(s, a, n, p);
    } else if CanHandle(s.core, s.inbox[0]) {
      HandleLoses(s, a, n, p);
    } else {
      assert Apply(s, a).Queue() == s.Queue();
    }
  }

  /** A lost exit is lost for good: in a run that never starts `n` over a process, `n` holds the dead pid from
      then on and never hears of an exit. */
  lemma {:induction false} LostForGood(r: Trace, config: seq<Service>, i: nat, j: nat, n: ServiceName, p: Pid)
    requires IsProgramTrace(r, config) && IsOrderlyFor(r, n) && n in r.states[0].core.services
    requires i <= j < |r.states| && IsLost(r.states[i], n, p)
    ensures IsLost(r.states[j], n, p)
  {
    hide *;
    if i < j {
      Goes(r, config, j - 1);
      LostForGood(r, config, i, j - 1, n, p);
      RunKeepsPidInv(r, config, j - 1);
      RunKeepsGood(r, config, j - 1, n);
      StepLoses(r.states[j - 1], r.actions[j - 1], n, p);
    }
  }

  // ---------- a child reaped early is lost ----------

  /** The process of `n` is gone, and the report of its pid is still to be sent or handled. */
  ghost predicate AwaitsTheDead(s: State, n: ServiceName, p: Pid) {
    p !in s.children && IsUnannouncedFor(s, n, p)
  }

  ghost predicate IsUnannouncedFor(s: State, n: ServiceName, p: Pid) {
    (p in s.forked && s.forked[p] == n) || PidChanged(n, p) in s.inbox
  }

  lemma ReportOfTheDead(s: State, a: Action, n: ServiceName, p: Pid)
    requires a.Handle? && Enabled(s, a) && s.inbox[0] == PidChanged(n, p) && IsGood(s, n) && p !in s.children
    ensures IsLost(Apply(s, a), n, p)
  {
    hide HandleEvent, LocalInv, HoldsItsPids, OutlookOf;
    var ev, s' := s.inbox[0], Apply(s, a);
    ReportFindsNoPid(s, n);
    NoPidNoExit(s, n);
    HandleKeepsPids(s.core, ev, a.prepared, a.now);
    HandleKeepsKeys(s.core, ev, a.prepared, a.now);
    HandleProducesNoExits(s.core, ev, a.prepared, a.now);
    assert forall e :: e in s'.Queue() ==> e in s.Queue() || e in HandleEvent(s.core, ev, a.prepared, a.now).produced;
  }

  lemma NoPidNoExit(s: State, n: ServiceName)
    requires n in s.core.services && Local(s, n) && s.core.services[n].pid.None?
    ensures !ExitIsQueued(s, n)
  {
    OutlookMembers(s.Queue(), n);
  }

  lemma StepAwaits(s: State, a: Action, n: ServiceName, p: Pid)
    requires Enabled(s, a) && IsGood(s, n) && AwaitsTheDead(s, n, p)
    ensures AwaitsTheDead(Apply(s, a), n, p) || IsLost(Apply(s, a), n, p)
  {
    hide HandleEvent, NextAll, ReapEvents, AllHaveFinished, IsGood, IsClosed, IsLost;
    if a.Handle? {
      if s.inbox[0] == PidChanged(n, p) {
        GoodExists(s, n);
        ReportOfTheDead(s, a, n, p);
      } else if CanHandle(s.core, s.inbox[0]) {
        assert PidChanged(n, p) in s.inbox ==> PidChanged(n, p) in s.inbox[1..];
      }
    } else if a.Fork? {
      assert a.pid != p;
    } else if a.SpawnSucceeds? && a.pid == p {
      assert Apply(s, a).inbox[|s.inbox|] == PidChanged(a.name, p);
    } else {
      assert s.inbox <= Apply(s, a).inbox;
    }
  }

  /** When a child is reaped before its report has been handled, its service is lost as soon as the report is:
      at every later point the report is still to come or the service holds the dead pid with no exit under
      way. */
  lemma {:induction false} ReapedEarlyIsLost(r: Trace, config: seq<Service>, i: nat, j: nat, n: ServiceName, p: Pid)
    requires IsProgramTrace(r, config) && IsOrderlyFor(r, n) && n in r.states[0].core.services
    requires i < j < |r.states| && i < |r.actions| && r.actions[i].Compute? && p in ReapedPids(r.actions[i].reaped)
    requires IsUnannouncedFor(r.states[i], n, p)
    ensures AwaitsTheDead(r.states[j], n, p) || IsLost(r.states[j], n, p)
  {
    hide *;
    Goes(r, config, j - 1);
    var s, a := r.states[j - 1], r.actions[j - 1];
    if i == j - 1 {
      ReapingLeavesTheDead(s, a, n, p);
    } else {
      ReapedEarlyIsLost(r, config, i, j - 1, n, p);
      RunKeepsGood(r, config, j - 1, n);
      RunKeepsPidInv(r, config, j - 1);
      if IsLost(s, n, p) {
        StepLoses(s, a, n, p);
      } else {
        StepAwaits(s, a, n, p);
      }
    }
  }

  lemma ReapingLeavesTheDead(s: State, a: Action, n: ServiceName, p: Pid)
    requires Enabled(s, a) && a.Compute? && p in ReapedPids(a.reaped) && IsUnannouncedFor(s, n, p)
    ensures AwaitsTheDead(Apply(s, a), n, p)
  {
    hide NextAll, ReapEvents, IsClosed;
  }
}
