/** How many status changes a shutdown can still take. */
module ShutdownMeasure {
  import opened Formats
  import opened ServiceHandlers
  import opened Repos
  import opened Commands
  import opened Emissions
  import opened Machine
  import opened Invariants
  import opened Preservation
  import opened Kills
  import opened Records
  import opened LifeCycle

  /** How far a status is from the end. */
  function Rank(status: ServiceStatus): nat {
    match status
    case Initial => 6
    case Starting => 5
    case Started => 4
    case Running => 3
    case InKilling => 2
    case Success => 1
    case Failed => 1
    case Finished => 0
    case FinishedFailed => 0
  }

  ghost function Pick(names: set<ServiceName>): (n: ServiceName)
    requires names != {}
    ensures n in names
  {
    var n :| n in names; n
  }

  ghost function TotalRank(services: Services, names: set<ServiceName>): nat
    requires names <= services.Keys
  {
    if names == {} then 0
    else Rank(services[Pick(names)].status) + TotalRank(services, names - {Pick(names)})
  }

  lemma {:induction false} TotalRankUpdate(services: Services, services': Services, names: set<ServiceName>,
        n: ServiceName)
    requires names <= services.Keys && names <= services'.Keys && n in services && n in services'
    requires forall m :: m in names && m != n ==> services'[m] == services[m]
    ensures TotalRank(services', names) + (if n in names then Rank(services[n].status) else 0)
         == TotalRank(services, names) + (if n in names then Rank(services'[n].status) else 0)
  {
    if names != {} {
      TotalRankUpdate(services, services', names - {Pick(names)}, n);
    }
  }

  lemma {:induction false} TotalRankBound(services: Services, names: set<ServiceName>)
    requires names <= services.Keys
    ensures TotalRank(services, names) <= 6 * |names|
  {
    if names != {} {
      TotalRankBound(services, names - {Pick(names)});
    }
  }

  predicate IsRestart(e: Event) { e.StatusUpdate? && e.status == Initial }

  /** How many restarts were already commanded. */
  function Restarts(q: seq<Event>): nat {
    if q == [] then 0 else (if IsRestart(q[0]) then 1 else 0) + Restarts(q[1..])
  }

  lemma {:induction false} RestartsConcat(p: seq<Event>, q: seq<Event>)
    ensures Restarts(p + q) == Restarts(p) + Restarts(q)
  {
    if p == [] {
      assert p + q == q;
    } else {
      assert (p + q)[1..] == p[1..] + q;
      RestartsConcat(p[1..], q);
    }
  }

  lemma {:induction false} NoRestarts(q: seq<Event>)
    requires forall e :: e in q ==> !IsRestart(e)
    ensures Restarts(q) == 0
  {
    if q != [] {
      NoRestarts(q[1..]);
    }
  }

  ghost function Measure(s: State): nat {
    TotalRank(s.core.services, s.core.services.Keys) + 6 * Restarts(s.Queue())
  }

  /** Every edge but a restart leads closer to the end. */
  lemma EdgesDescend(from: ServiceStatus, to: ServiceStatus)
    requires IsEdge(from, to)
    ensures to != Initial ==> Rank(to) < Rank(from)
    ensures to == Initial ==> Rank(to) < Rank(from) + 6
  {
  }

  /** A service returns to Initial only when told to. */
  lemma OnlyRestartsRestart(c: Core, ev: Event, prepared: bool, now: nat)
    requires CanHandle(c, ev) && !ev.ShuttingDownInitiated? && ev.name in c.services
    ensures var d := HandleEvent(c, ev, prepared, now).core;
      ev.name in d.services && (d.services[ev.name].status == Initial ==>
          c.services[ev.name].status == Initial || IsRestart(ev))
  {
  }

  lemma HandleProducesNoRestart(c: Core, ev: Event, prepared: bool, now: nat)
    requires CanHandle(c, ev)
    ensures Restarts(HandleEvent(c, ev, prepared, now).produced) == 0
  {
    NoRestarts(HandleEvent(c, ev, prepared, now).produced);
  }

  /** What one handled event changes is paid for by rank, or by the restart command it was. */
  lemma HandlePays(c: Core, ev: Event, prepared: bool, now: nat)
    requires CanHandle(c, ev)
    requires OnlyEdges(c.changes) && OnlyEdges(HandleEvent(c, ev, prepared, now).core.changes)
    ensures var d := HandleEvent(c, ev, prepared, now).core;
      && d.services.Keys == c.services.Keys
      && TotalRank(d.services, d.services.Keys) + |d.changes| - |c.changes|
         <= TotalRank(c.services, c.services.Keys) + (if IsRestart(ev) then 6 else 0)
  {
    var d := HandleEvent(c, ev, prepared, now).core;
    if ev.ShuttingDownInitiated? || ev.StatusChanged? {
      assert d.services == c.services && d.changes == c.changes;
    } else if ev.Run? && !prepared {
      GivingUpPays(c, ev.name);
    } else {
      var n := ev.name;
      HandleAssigns(c, ev, prepared, now);
      TotalRankUpdate(c.services, d.services, c.services.Keys, n);
      OnlyRestartsRestart(c, ev, prepared, now);
      if d.changes != c.changes {
        var change := d.changes[|c.changes|];
        assert IsEdge(change.from, change.to);
        EdgesDescend(change.from, change.to);
      }
    }
  }

  lemma GivingUpPays(c: Core, n: ServiceName)
    requires n in c.services
    ensures var d := HandleRun(c, n, false).core;
      && d.services.Keys == c.services.Keys
      && TotalRank(d.services, d.services.Keys) + |d.changes| - |c.changes| <= TotalRank(c.services, c.services.Keys)
  {
    TotalRankUpdate(c.services, HandleRun(c, n, false).core.services, c.services.Keys, n);
  }

  lemma StepKeepsEdges(s: State, a: Action)
    requires Inv(s) && Enabled(s, a) && OnlyEdges(s.core.changes)
    ensures OnlyEdges(Apply(s, a).core.changes)
  {
    hide Enabled, Apply, Local, IsEdge, NamesAreKnown, PhaseInv, ForksAreNew;
    var changes := Apply(s, a).core.changes;
    forall k | 0 <= k < |changes| ensures IsEdge(changes[k].from, changes[k].to) {
      StepFollowsEdges(s, a, changes[k].name);
    }
  }

  /** While shutting down, each step lowers the measure by at least the number of status changes it makes. */
  lemma StepPays(s: State, a: Action)
    requires Inv(s) && OnlyEdges(s.core.changes) && s.core.lifecycle.ShuttingDown? && Enabled(s, a)
    ensures Apply(s, a).core.lifecycle.ShuttingDown?
    ensures Measure(Apply(s, a)) + |Apply(s, a).core.changes| - |s.core.changes| <= Measure(s)
  {
    var s' := Apply(s, a);
    if a.Handle? {
      NextEventCanBeHandled(s);
      StepKeepsEdges(s, a);
      HandleStepPays(s, a);
    } else if a.Compute? {
      ComputePays(s, a);
    } else if a.Send? {
      assert s'.Queue() == s.Queue();
    } else {
      InsertPays(s, a);
    }
  }

  lemma HandleStepPays(s: State, a: Action)
    requires a.Handle? && Enabled(s, a) && CanHandle(s.core, s.inbox[0]) && s.core.lifecycle.ShuttingDown?
    requires OnlyEdges(s.core.changes) && OnlyEdges(Apply(s, a).core.changes)
    ensures Apply(s, a).core.lifecycle.ShuttingDown?
    ensures Measure(Apply(s, a)) + |Apply(s, a).core.changes| - |s.core.changes| <= Measure(s)
  {
    hide HandleEvent, TotalRank, OnlyEdges;
    var ev, t := s.inbox[0], s.inbox[1..] + s.outbox;
    var h := HandleEvent(s.core, ev, a.prepared, a.now);
    assert s.Queue()[0] == ev && s.Queue()[1..] == t && Apply(s, a).Queue() == t + h.produced;
    HandlePays(s.core, ev, a.prepared, a.now);
    ShutdownStays(s.core, ev, a.prepared, a.now);
    HandleProducesNoRestart(s.core, ev, a.prepared, a.now);
    RestartsConcat(t, h.produced);
  }

  lemma ComputePays(s: State, a: Action)
    requires a.Compute? && Enabled(s, a) && s.core.lifecycle.ShuttingDown?
    ensures Measure(Apply(s, a)) == Measure(s) && Apply(s, a).core == s.core
  {
    hide NextAll, ReapEvents, HandleEvent, TotalRank, Restarts;
    var c := s.core;
    var commands, exits := NextAll(c.services, a.order, a.order, c.lifecycle, a.now), ReapEvents(c.pidMap, a.reaped);
    NextAllIsJustified(c.services, a.order, a.order, c.lifecycle, a.now);
    ReapsFollow(c.pidMap, a.reaped, "");
    assert Apply(s, a).Queue() == s.Queue() + (commands + exits);
    NoRestarts(commands + exits);
    RestartsConcat(s.Queue(), commands + exits);
  }

  lemma InsertPays(s: State, a: Action)
    requires Enabled(s, a) && !a.Handle? && !a.Compute? && !a.Send?
    ensures Measure(Apply(s, a)) == Measure(s)
  {
    var s' := Apply(s, a);
    assert s'.inbox == s.inbox + s'.inbox[|s.inbox|..];
    var added := s'.inbox[|s.inbox|..];
    NoRestarts(added);
    RestartsConcat(s.inbox, s.outbox);
    RestartsConcat(s.inbox, added);
    RestartsConcat(s.inbox + added, s.outbox);
  }

  lemma {:induction false} ShutdownPays(r: Trace, config: seq<Service>, i: nat, j: nat)
    requires IsProgramTrace(r, config) && IsOrderly(r)
    requires i <= j < |r.states| && r.states[i].core.lifecycle.ShuttingDown?
    ensures r.states[j].core.lifecycle.ShuttingDown?
    ensures Measure(r.states[j]) + |r.states[j].core.changes| - |r.states[i].core.changes| <= Measure(r.states[i])
  {
    hide *;
    if i < j {
      Goes(r, config, j - 1);
      ShutdownPays(r, config, i, j - 1);
      RunKeepsInv(r, config, j - 1);
      ChangesAreEdges(r, config, j - 1);
      StepPays(r.states[j - 1], r.actions[j - 1]);
    }
  }

  /** From any point of a shutdown on there are at most six status changes for each service and six for
      each restart commanded before: no run shuts down forever changing statuses. */
  lemma ShutdownIsBounded(r: Trace, config: seq<Service>, i: nat, j: nat)
    requires IsProgramTrace(r, config) && IsOrderly(r)
    requires i <= j < |r.states| && r.states[i].core.lifecycle.ShuttingDown?
    ensures |r.states[j].core.changes| - |r.states[i].core.changes|
      <= 6 * |r.states[i].core.services| + 6 * Restarts(r.states[i].Queue())
  {
    ShutdownPays(r, config, i, j);
    TotalRankBound(r.states[i].core.services, r.states[i].core.services.Keys);
    assert |r.states[i].core.services.Keys| == |r.states[i].core.services|;
  }
}
