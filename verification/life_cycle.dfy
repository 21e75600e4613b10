/** What every run does to the statuses: only edges of the transition table, terminal statuses for
    good, and an exit status that tells what happened. */
module LifeCycle {
  import opened Formats
  import opened ServiceHandlers
  import opened Repos
  import opened Queues
  import opened Machine
  import opened Invariants
  import opened Preservation
  import opened PidBook
  import opened Records
  import opened OneService

  // ---------- only edges ----------

  ghost predicate OnlyEdges(changes: seq<Change>) {
    forall k :: 0 <= k < |changes| ==> IsEdge(changes[k].from, changes[k].to)
  }

  ghost predicate OnlyEdgesOf(changes: seq<Change>, n: ServiceName) {
    forall k :: 0 <= k < |changes| && changes[k].name == n ==> IsEdge(changes[k].from, changes[k].to)
  }

  /** A request is answered by an edge or not at all. */
  lemma RequestsFollowEdges(sh: ServiceHandler, request: ServiceStatus)
    ensures sh.StatusAfter(request) == sh.status || IsEdge(sh.status, sh.StatusAfter(request))
  {
  }

  ghost predicate TakesEdge(c: Core, d: Core, n: ServiceName) {
    && n in c.services && n in d.services
    && (d.services[n].status == c.services[n].status || IsEdge(c.services[n].status, d.services[n].status))
  }

  lemma ExitTakesEdge(c: Core, n: ServiceName, exitCode: int)
    requires CanHandle(c, ServiceExited(n, exitCode))
    ensures TakesEdge(c, HandleExited(c, n, exitCode).core, n)
  {
    hide IsEdge, IsAllowed;
    RequestsFollowEdges(c.services[n], Failed);
    RequestsFollowEdges(c.services[n], Success);
  }

  lemma RequestTakesEdge(c: Core, n: ServiceName, status: ServiceStatus)
    requires n in c.services
    ensures TakesEdge(c, HandleStatusUpdate(c, n, status).core, n)
  {
    hide IsEdge, IsAllowed;
    RequestsFollowEdges(c.services[n], status);
  }

  lemma HandleTakesEdge(c: Core, ev: Event, now: nat, t: Outlook, children: set<Pid>)
    requires CanHandle(c, ev) && !ev.ShuttingDownInitiated? && LocalBefore(c, ev, ev.name, t, children)
    ensures TakesEdge(c, HandleEvent(c, ev, true, now).core, ev.name)
  {
    hide IsEdge, LocalInv, HandleExited, HandleStatusUpdate;
    DirectEdges();
    match ev {
      case ServiceExited(n, exitCode) => ExitTakesEdge(c, n, exitCode);
      case StatusUpdate(n, status) => RequestTakesEdge(c, n, status);
      case SpawnFailed(n) => ReportsAreAwaited(c, ev, n, t, children);
      case PidChanged(n, _) => ReportsAreAwaited(c, ev, n, t, children);
      case _ =>
    }
  }

  lemma HandleFollowsEdges(c: Core, ev: Event, prepared: bool, now: nat, n: ServiceName, t: Outlook,
        children: set<Pid>)
    requires CanHandle(c, ev) && OnlyEdgesOf(c.changes, n)
    requires !ev.ShuttingDownInitiated? && !ev.StatusChanged? && ev.name == n ==> LocalBefore(c, ev, n, t, children)
    ensures OnlyEdgesOf(HandleEvent(c, ev, prepared, now).core.changes, n)
  {
    if ev.Run? {
      RunFollowsEdges(c, ev.name, prepared, n);
    } else {
      hide HandleEvent, IsEdge, LocalBefore;
      HandleAssigns(c, ev, prepared, now);
      if !ev.ShuttingDownInitiated? && !ev.StatusChanged? && ev.name == n {
        PreparedIsForRun(c, ev, prepared, now);
        HandleTakesEdge(c, ev, now, t, children);
      }
    }
  }

  lemma PreparedIsForRun(c: Core, ev: Event, prepared: bool, now: nat)
    requires CanHandle(c, ev) && !ev.Run?
    ensures HandleEvent(c, ev, prepared, now) == HandleEvent(c, ev, true, now)
  {
  }

  lemma ReportsAreAwaited(c: Core, ev: Event, n: ServiceName, t: Outlook, children: set<Pid>)
    requires LocalBefore(c, ev, n, t, children) && IsReport(ev, n)
    ensures c.services[n].status.Starting? || c.services[n].status.InKilling?
  {
  }

  /** The assignments made without asking the table. */
  lemma DirectEdges()
    ensures IsEdge(Initial, Starting) && IsEdge(Starting, Started) && IsEdge(Starting, Failed)
        && IsEdge(InKilling, Failed)
  {
  }

  lemma RunFollowsEdges(c: Core, m: ServiceName, prepared: bool, n: ServiceName)
    requires m in c.services && OnlyEdgesOf(c.changes, n)
    ensures OnlyEdgesOf(HandleRun(c, m, prepared).core.changes, n)
  {
  }

  /** An exit decides the fate of a service that is up or being killed, and is no news for any other status:
      a bad exit code fails it, and so does any exit of a Running service with failed health checks. */
  lemma ExitDecides(c: Core, n: ServiceName, exitCode: int)
    requires CanHandle(c, ServiceExited(n, exitCode))
    ensures var sh, d := c.services[n], HandleExited(c, n, exitCode).core;
      && n in d.services
      && (if sh.status == Starting || sh.status == Started || sh.status == Running || sh.status == InKilling then
            var failed := exitCode !in sh.service.successfulExitCodes
              || (sh.status == Running
                  && (sh.healthinessChecksFailed == None || sh.healthinessChecksFailed.value > 0));
            d.services[n].status == if failed then Failed else Success
          else d.services[n].status == sh.status)
  {
  }

  lemma StepFollowsEdges(s: State, a: Action, n: ServiceName)
    requires Enabled(s, a) && (n in s.core.services ==> IsGood(s, n)) && OnlyEdgesOf(s.core.changes, n)
    ensures OnlyEdgesOf(Apply(s, a).core.changes, n)
  {
    hide HandleEvent, ReapEvents, OnlyEdgesOf, LocalInv, OutlookOf, HoldsItsPids;
    if a.Handle? && CanHandle(s.core, s.inbox[0]) {
      var ev := s.inbox[0];
      if n in s.core.services {
        FirstInOutlook(s, n);
      }
      HandleFollowsEdges(s.core, ev, a.prepared, a.now, n, OutlookOf(s.inbox[1..] + s.outbox, n), s.children);
    }
  }

  /** In every run that never starts `n` over a process each change of its status, by request or by direct
      assignment, is an edge of the transition table or the move of a never started service from Initial to
      Success. */
  lemma {:induction false} ChangesAreEdgesOf(r: Trace, config: seq<Service>, i: nat, n: ServiceName)
    requires IsProgramTrace(r, config) && IsOrderlyFor(r, n) && i < |r.states| && n in r.states[0].core.services
    ensures OnlyEdgesOf(r.states[i].core.changes, n)
  {
    hide *;
    Begins(r, config);
    if i == 0 {
      StartChangesNothing(config, n);
    } else {
      Goes(r, config, i - 1);
      ChangesAreEdgesOf(r, config, i - 1, n);
      RunKeepsGood(r, config, i - 1, n);
      StepFollowsEdges(r.states[i - 1], r.actions[i - 1], n);
    }
  }

  lemma StartChangesNothing(config: seq<Service>, n: ServiceName)
    ensures OnlyEdgesOf(Start(config).core.changes, n)
  {
  }

  lemma SameNames(r: Trace, config: seq<Service>, i: nat)
    requires IsProgramTrace(r, config) && i < |r.states|
    ensures r.states[i].core.services.Keys == r.states[0].core.services.Keys
  {
    ServicesStay(r, config, 0);
    ServicesStay(r, config, i);
  }

  /** So all changes of an orderly run are edges. */
  lemma ChangesAreEdges(r: Trace, config: seq<Service>, i: nat)
    requires IsProgramTrace(r, config) && IsOrderly(r) && i < |r.states|
    ensures OnlyEdges(r.states[i].core.changes)
  {
    hide IsProgramTrace, IsOrderly, IsOrderlyFor, IsEdge;
    OrderlyForAll(r);
    RecordIsAboutServices(r, config, i);
    SameNames(r, config, i);
    var changes := r.states[i].core.changes;
    forall k | 0 <= k < |changes| ensures IsEdge(changes[k].from, changes[k].to) {
      ChangesAreEdgesOf(r, config, i, changes[k].name);
    }
  }

  // ---------- terminal statuses are for good ----------

  lemma NoWayOut(from: ServiceStatus, to: ServiceStatus)
    ensures IsEdge(from, to) ==> !from.Finished? && !from.FinishedFailed?
  {
  }

  lemma ShorterRecord(changes: seq<Change>, n: ServiceName)
    requires changes != [] && IsChained(changes) && OnlyEdgesOf(changes, n)
    ensures var most, last := changes[..|changes| - 1], changes[|changes| - 1];
      && IsChained(most) && OnlyEdgesOf(most, n) && last.from == Recorded(most, last.name)
      && (last.name == n ==> IsEdge(last.from, last.to))
  {
    hide Recorded, IsEdge;
    var most := changes[..|changes| - 1];
    assert forall j :: 0 <= j < |most| ==> most[..j] == changes[..j];
  }

  lemma {:induction false} RecordedSettles(changes: seq<Change>, n: ServiceName, k: nat)
    requires IsChained(changes) && OnlyEdgesOf(changes, n) && k <= |changes|
    requires Recorded(changes[..k], n).Finished? || Recorded(changes[..k], n).FinishedFailed?
    ensures Recorded(changes, n) == Recorded(changes[..k], n)
    decreases |changes|
  {
    hide IsChained, OnlyEdgesOf, IsEdge;
    if k < |changes| {
      var most, last := changes[..|changes| - 1], changes[|changes| - 1];
      assert most[..k] == changes[..k];
      ShorterRecord(changes, n);
      RecordedSettles(most, n, k);
      NoWayOut(last.from, last.to);
    } else {
      assert changes[..k] == changes;
    }
  }

  /** Once Finished or FinishedFailed, a service stays so for the rest of every run that never starts it over
      a process, whatever happens to the others and whatever stale commands, late reports and exits still reach it. */
  lemma TerminalForGood(r: Trace, config: seq<Service>, i: nat, j: nat, n: ServiceName)
    requires IsProgramTrace(r, config) && IsOrderlyFor(r, n) && i <= j < |r.states|
    requires n in r.states[i].core.services && r.states[i].core.services[n].IsTerminal()
    ensures n in r.states[j].core.services
    ensures r.states[j].core.services[n].status == r.states[i].core.services[n].status
  {
    hide IsProgramTrace, IsOrderlyFor, IsChained, OnlyEdgesOf;
    SameNames(r, config, i);
    SameNames(r, config, j);
    RunKeepsRecord(r, config, i);
    RunKeepsRecord(r, config, j);
    ChangesAreEdgesOf(r, config, j, n);
    RecordGrows(r, config, i, j);
    var before, after := r.states[i].core.changes, r.states[j].core.changes;
    assert after[..|before|] == before;
    RecordedSettles(after, n, |before|);
  }

  // ---------- how the program ends ----------

  ghost predicate EverFailedForGood(changes: seq<Change>) {
    exists k :: 0 <= k < |changes| && changes[k].to == FinishedFailed
  }

  lemma {:induction false} LastFailure(changes: seq<Change>, n: ServiceName)
    requires Recorded(changes, n) == FinishedFailed
    ensures EverFailedForGood(changes)
  {
    var most := changes[..|changes| - 1];
    if changes[|changes| - 1].name != n {
      LastFailure(most, n);
      var k :| 0 <= k < |most| && most[k].to == FinishedFailed;
      assert changes[k].to == FinishedFailed;
    }
  }

  ghost predicate StoppedFaithfully(s: State) {
    s.phase.Stopped? ==>
      AllHaveFinished(s.core.services) && s.phase.exit == ExitOf(s.core.services)
  }

  lemma AllDoneStays(s: State, a: Action)
    requires Inv(s) && Enabled(s, a) && StoppedFaithfully(s)
    ensures StoppedFaithfully(Apply(s, a))
  {
  }

  lemma {:induction false} RunStopsFaithfully(r: Trace, config: seq<Service>, i: nat)
    requires IsProgramTrace(r, config) && IsOrderly(r) && i < |r.states|
    ensures StoppedFaithfully(r.states[i])
  {
    Begins(r, config);
    if i > 0 {
      hide *;
      Goes(r, config, i - 1);
      RunStopsFaithfully(r, config, i - 1);
      RunKeepsInv(r, config, i - 1);
      AllDoneStays(r.states[i - 1], r.actions[i - 1]);
    }
  }

  lemma FailureIsSeen(c: Core)
    requires RecordInv(c) && OnlyEdges(c.changes) && NamesServices(c)
    ensures EverFailedForGood(c.changes) <==> AnyFinishedFailed(c.services)
  {
    hide IsChained;
    forall n ensures OnlyEdgesOf(c.changes, n) {
    }
    if AnyFinishedFailed(c.services) {
      var n :| n in c.services && c.services[n].status == FinishedFailed;
      LastFailure(c.changes, n);
    }
    if EverFailedForGood(c.changes) {
      var k :| 0 <= k < |c.changes| && c.changes[k].to == FinishedFailed;
      var n := c.changes[k].name;
      assert c.changes[..k + 1][..k] == c.changes[..k];
      assert Recorded(c.changes[..k + 1], n) == FinishedFailed;
      RecordedSettles(c.changes, n, k + 1);
      assert c.services[n].status == FinishedFailed;
    }
  }

  /** The supervisor stops only when every service is terminal, and reports a failure if and only if
      some service became FinishedFailed at some point of the run. */
  lemma ExitStatusTellsHistory(r: Trace, config: seq<Service>, i: nat)
    requires IsProgramTrace(r, config) && IsOrderly(r) && i < |r.states| && r.states[i].phase.Stopped?
    ensures AllHaveFinished(r.states[i].core.services)
    ensures r.states[i].phase.exit == SomeServiceFailed <==> EverFailedForGood(r.states[i].core.changes)
  {
    RunStopsFaithfully(r, config, i);
    RunKeepsRecord(r, config, i);
    ChangesAreEdges(r, config, i);
    RecordIsAboutServices(r, config, i);
    FailureIsSeen(r.states[i].core);
  }

  // ---------- no lookup fails, at most one spawn and one exit under way ----------

  /** The supervisor never panics: every service it looks up exists, and a service whose exit is
      reported holds a pid. */
  lemma NeverCrashes(r: Trace, config: seq<Service>, i: nat)
    requires IsProgramTrace(r, config) && IsOrderly(r) && i < |r.states|
    ensures r.states[i].phase != Crashed
    ensures r.states[i].inbox != [] ==> CanHandle(r.states[i].core, r.states[i].inbox[0])
    ensures forall e :: e in r.states[i].Queue() && e.ServiceExited? ==>
      e.name in r.states[i].core.services && r.states[i].core.services[e.name].pid.Some?
  {
    RunKeepsInv(r, config, i);
    var s := r.states[i];
    if s.inbox != [] {
      NextEventCanBeHandled(s);
    }
    forall e | e in s.Queue() && e.ServiceExited?
      ensures e.name in s.core.services && s.core.services[e.name].pid.Some?
    {
      assert e in s.inbox || e in s.outbox;
      assert Local(s, e.name);
      assert IsExit(e, e.name);
      OutlookMembers(s.Queue(), e.name);
    }
  }

  /** Two reports of spawns of one service, or two exits of one service, are never on their way together,
      and a report on its way finds the service Starting or InKilling, without a pid. */
  lemma OneSpawnOneExit(r: Trace, config: seq<Service>, i: nat, n: ServiceName)
    requires IsProgramTrace(r, config) && IsOrderlyFor(r, n) && i < |r.states| && n in r.states[i].core.services
    ensures var s := r.states[i];
      && s.core.spawning[n] <= 1
      && (s.core.spawning[n] == 1 || (exists e :: e in s.Queue() && IsReport(e, n)) <==>
            || s.core.services[n].status.Starting?
            || (s.core.services[n].status.InKilling? && s.core.services[n].pid.None?))
      && (s.core.spawning[n] == 1 ==> forall e :: e in s.Queue() ==> !IsReport(e, n))
      && (forall j, k :: 0 <= j < k < |s.Queue()| ==> !(IsReport(s.Queue()[j], n) && IsReport(s.Queue()[k], n)))
      && (forall j, k :: 0 <= j < k < |s.Queue()| ==> !(IsExit(s.Queue()[j], n) && IsExit(s.Queue()[k], n)))
  {
    hide IsProgramTrace, IsOrderlyFor, HoldsItsPids;
    SameNames(r, config, i);
    RunKeepsGood(r, config, i, n);
    var s := r.states[i];
    OutlookMembers(s.Queue(), n);
    forall j, k | 0 <= j < k < |s.Queue()|
      ensures !(IsReport(s.Queue()[j], n) && IsReport(s.Queue()[k], n))
    {
      if IsReport(s.Queue()[j], n) && IsReport(s.Queue()[k], n) { ReportsAreSingle(s.Queue(), n, j, k); assert false; }
    }
    forall j, k | 0 <= j < k < |s.Queue()|
      ensures !(IsExit(s.Queue()[j], n) && IsExit(s.Queue()[k], n))
    {
      if IsExit(s.Queue()[j], n) && IsExit(s.Queue()[k], n) { ExitsAreSingle(s.Queue(), n, j, k); assert false; }
    }
  }

  /** The pid map and the pid of a service that is never started over a process agree, so a reaped process is
      credited to the service that holds it. */
  lemma PidsAreHeld(r: Trace, config: seq<Service>, i: nat, n: ServiceName, p: Pid)
    requires IsProgramTrace(r, config) && IsOrderlyFor(r, n) && i < |r.states| && n in r.states[i].core.services
    ensures r.states[i].core.services[n].pid == Some(p) <==>
        p in r.states[i].core.pidMap && r.states[i].core.pidMap[p] == n
  {
    hide IsProgramTrace, IsOrderlyFor, Local, AreNew, ForksAreNew;
    SameNames(r, config, i);
    RunKeepsGood(r, config, i, n);
    RunKeepsPidInv(r, config, i);
    assert IsHeld(r.states[i].core.services, r.states[i].core.pidMap, n);
  }
}
