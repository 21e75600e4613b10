/** The commands handler keeps its own copy of the statuses from what the supervisor announces. */
module Replicas {
  import opened Formats
  import opened ServiceHandlers
  import opened Repos
  import opened Commands
  import opened Emissions
  import opened Machine
  import opened Invariants
  import opened Preservation
  import opened Kills
  import opened Records
  import opened Queues
  import opened Frames
  import opened OneService

  // ---------- the copy ----------

  type Statuses = map<ServiceName, ServiceStatus>

  datatype Outcome = Waiting | Ended | Panicked

  /** The event ends the loop of a handler that knows `names`. */
  predicate EndsLoop(e: Event, names: set<ServiceName>) {
    e.ShuttingDownInitiated? || (e.StatusChanged? && e.name !in names)
  }

  /** The events up to the first that ends the loop. */
  function HeardBy(evs: seq<Event>, names: set<ServiceName>): seq<Event> {
    if evs == [] || EndsLoop(evs[0], names) then [] else [evs[0]] + HeardBy(evs[1..], names)
  }

  function OutcomeOf(evs: seq<Event>, names: set<ServiceName>): Outcome {
    if evs == [] then Waiting
    else if evs[0].ShuttingDownInitiated? then Ended
    else if EndsLoop(evs[0], names) then Panicked
    else OutcomeOf(evs[1..], names)
  }

  /** The status last announced for `n`, Initial if none was. */
  function LastAnnounced(evs: seq<Event>, n: ServiceName): ServiceStatus {
    if evs == [] then Initial
    else
      var last := evs[|evs| - 1];
      if last.StatusChanged? && last.name == n then last.status else LastAnnounced(evs[..|evs| - 1], n)
  }

  class CommandsHandler {
    var services: Statuses
    /** Everything received before a shutdown announcement. */
    ghost var received: seq<Event>

    /** The copy holds, for each service, the status last announced. */
    ghost predicate Valid()
      reads this
    {
      forall n :: n in services ==> services[n] == LastAnnounced(received, n)
    }

    constructor (names: set<ServiceName>)
      ensures Valid() && services.Keys == names && received == []
    {
      services := map n | n in names :: Initial;
      received := [];
    }

    /** One pass of the loop over the events that have arrived: a shutdown announcement ends it for good, and
        so does, by a panic, an announcement about a service it does not know. */
    method Receive(evs: seq<Event>) returns (outcome: Outcome)
      requires Valid()
      modifies this
      ensures Valid() && services.Keys == old(services.Keys)
      ensures outcome == OutcomeOf(evs, services.Keys)
      ensures received == old(received) + HeardBy(evs, services.Keys)
    {
      var i := 0;
      while i < |evs|
        invariant 0 <= i <= |evs| && Valid() && services.Keys == old(services.Keys)
        invariant OutcomeOf(evs, services.Keys) == OutcomeOf(evs[i..], services.Keys)
        invariant received + HeardBy(evs[i..], services.Keys) == old(received) + HeardBy(evs, services.Keys)
      {
        assert evs[i..][0] == evs[i] && evs[i..][1..] == evs[i + 1..];
        match evs[i] {
          case StatusChanged(n, status) =>
            if n !in services {
              assert received + [] == received;
              return Panicked;
            }
            services := services[n := status];
          case ShuttingDownInitiated(_) =>
            assert received + [] == received;
            return Ended;
          case _ =>
        }
        ghost var before := received;
        received := received + [evs[i]];
        assert received[..|received| - 1] == before;
        i := i + 1;
      }
      assert evs[|evs|..] == [] && received + [] == received;
      outcome := Waiting;
    }

    /** What a client asking for a status is told. */
    method GetServiceStatus(n: ServiceName) returns (r: Option<ServiceStatus>)
      requires Valid()
      ensures r == if n in services then Some(LastAnnounced(received, n)) else None
    {
      if n in services {
        r := Some(services[n]);
      } else {
        r := None;
      }
    }
  }

  /** A handler that nothing ends hears everything. */
  lemma {:induction false} HearsAll(evs: seq<Event>, names: set<ServiceName>)
    requires forall e :: e in evs ==> !EndsLoop(e, names)
    ensures HeardBy(evs, names) == evs && OutcomeOf(evs, names) == Waiting
  {
    if evs != [] {
      HearsAll(evs[1..], names);
    }
  }

  // ---------- the copy agrees with the supervisor ----------

  predicate Announces(e: Event, n: ServiceName) { e.StatusChanged? && e.name == n }

  lemma {:induction false} LastAnnouncedConcat(p: seq<Event>, q: seq<Event>, n: ServiceName)
    ensures (forall e :: e in q ==> !Announces(e, n)) ==> LastAnnounced(p + q, n) == LastAnnounced(p, n)
    ensures q != [] && Announces(q[|q| - 1], n) ==> LastAnnounced(p + q, n) == q[|q| - 1].status
  {
    if q == [] {
      assert p + q == p;
    } else {
      var most := q[..|q| - 1];
      assert (p + q)[..|p + q| - 1] == p + most;
      assert forall e :: e in most ==> e in q;
      assert q[|q| - 1] in q;
      LastAnnouncedConcat(p, most, n);
    }
  }

  lemma {:induction false} LastAnnouncedInsert(p: seq<Event>, added: seq<Event>, q: seq<Event>, n: ServiceName)
    requires forall e :: e in added ==> !Announces(e, n)
    ensures LastAnnounced(p + added + q, n) == LastAnnounced(p + q, n)
  {
    if q == [] {
      assert p + added + q == p + added && p + q == p;
      LastAnnouncedConcat(p, added, n);
    } else {
      var most := q[..|q| - 1];
      assert (p + added + q)[..|p + added + q| - 1] == p + added + most;
      assert (p + q)[..|p + q| - 1] == p + most;
      LastAnnouncedInsert(p, added, most, n);
    }
  }

  /** The step gives `n` a status that is not announced: a failed spawn, or a failed preparation. */
  predicate IsSilent(s: State, a: Action, n: ServiceName) {
    && a.Handle? && |s.inbox| > 0 && n in s.core.services
    && ((s.inbox[0] == SpawnFailed(n) && s.core.services[n].status != Failed)
        || (s.inbox[0] == Run(n) && !a.prepared && s.core.services[n].status == Initial))
  }

  /** The step announces that `n` has failed, by a kill by force that it commands only now. */
  ghost predicate IsForetelling(s: State, a: Action, n: ServiceName) {
    && a.Compute? && Enabled(s, a)
    && exists e :: e in NextAll(s.core.services, a.order, a.order, s.core.lifecycle, a.now) && Announces(e, n)
  }

  predicate HandlesExit(s: State, a: Action, n: ServiceName) {
    a.Handle? && |s.inbox| > 0 && s.inbox[0].ServiceExited? && s.inbox[0].name == n && CanHandle(s.core, s.inbox[0])
  }

  /** From state `k` to state `i`, `n` keeps its status and no exit of it, always announced, is handled. */
  ghost predicate IsKept(r: Trace, i: nat, n: ServiceName, k: nat) {
    && k <= i < |r.states| && |r.states| == |r.actions| + 1 && n in r.states[i].core.services
    && (forall j :: k <= j <= i ==>
          n in r.states[j].core.services && r.states[j].core.services[n].status == r.states[i].core.services[n].status)
    && (forall j :: k <= j < i ==> !HandlesExit(r.states[j], r.actions[j], n))
  }

  ghost predicate SilencedAt(r: Trace, i: nat, n: ServiceName, k: nat) {
    k < i && IsKept(r, i, n, k + 1) && IsSilent(r.states[k], r.actions[k], n)
  }

  ghost predicate ForetoldAt(r: Trace, i: nat, n: ServiceName, k: nat) {
    k < i && IsKept(r, i, n, k) && IsForetelling(r.states[k], r.actions[k], n)
  }

  /** The status `n` has was given to it silently, and not announced since. */
  ghost predicate WasSilenced(r: Trace, i: nat, n: ServiceName) {
    exists k :: 0 <= k < i && SilencedAt(r, i, n, k)
  }

  /** The failure of `n` was announced while `n` had the status it still has. */
  ghost predicate WasForetold(r: Trace, i: nat, n: ServiceName) {
    exists k :: 0 <= k < i && ForetoldAt(r, i, n, k)
  }

  ghost predicate Agrees(s: State, n: ServiceName)
    requires n in s.core.services
  {
    s.core.services[n].status == LastAnnounced(s.Log(), n)
  }

  // ---------- what a step can do to the agreement ----------

  ghost predicate StaysSilent(s: State, a: Action, n: ServiceName)
    requires Enabled(s, a) && n in s.core.services && n in Apply(s, a).core.services
  {
    && Apply(s, a).core.services[n].status == s.core.services[n].status
    && LastAnnounced(Apply(s, a).Log(), n) == LastAnnounced(s.Log(), n)
    && !HandlesExit(s, a, n)
  }

  /** A step announces the status it leaves, or is one of the two exceptions, or changes nothing. */
  ghost predicate StepAgrees(s: State, a: Action, n: ServiceName)
    requires Enabled(s, a) && n in s.core.services
  {
    n in Apply(s, a).core.services &&
    (Agrees(Apply(s, a), n) || IsSilent(s, a, n) || IsForetelling(s, a, n) || StaysSilent(s, a, n))
  }

  lemma HandleAnnounces(c: Core, ev: Event, prepared: bool, now: nat, n: ServiceName)
    requires CanHandle(c, ev) && n in c.services
    ensures var h := HandleEvent(c, ev, prepared, now);
      && n in h.core.services
      && ((ev == SpawnFailed(n) && c.services[n].status != Failed)
          || (ev == Run(n) && !prepared && c.services[n].status == Initial)
          || (h.produced != [] && Announces(h.produced[|h.produced| - 1], n)
              && h.produced[|h.produced| - 1].status == h.core.services[n].status)
          || (h.core.services[n].status == c.services[n].status && (forall e :: e in h.produced ==> !Announces(e, n))
              && !(ev.ServiceExited? && ev.name == n)))
  {
    if ev.ShuttingDownInitiated? || ev.name != n {
      OthersUntouched(c, ev, prepared, now, n);
    }
  }

  lemma HandleStepAgrees(s: State, a: Action, n: ServiceName)
    requires a.Handle? && Enabled(s, a) && n in s.core.services && CanHandle(s.core, s.inbox[0])
    ensures StepAgrees(s, a, n)
  {
    hide HandleEvent, LastAnnounced;
    var ev, rest := s.inbox[0], s.inbox[1..] + s.outbox;
    var h := HandleEvent(s.core, ev, a.prepared, a.now);
    var s' := Apply(s, a);
    HandleAnnounces(s.core, ev, a.prepared, a.now, n);
    assert s.Queue() == [ev] + rest && s'.Queue() == rest + h.produced;
    assert s'.Log() == s.Log() + h.produced;
    LastAnnouncedConcat(s.Log(), h.produced, n);
  }

  /** The silence is real: a copy that agrees no longer does once a failed spawn has been handled. */
  lemma SilenceMisleads(s: State, a: Action, n: ServiceName)
    requires Enabled(s, a) && n in s.core.services && IsSilent(s, a, n) && Agrees(s, n)
    ensures n in Apply(s, a).core.services && !Agrees(Apply(s, a), n)
    ensures Apply(s, a).core.services[n].status.Failed? || Apply(s, a).core.services[n].status.FinishedFailed?
  {
    hide LastAnnounced;
    var h := HandleEvent(s.core, s.inbox[0], a.prepared, a.now);
    assert Apply(s, a).Log() == s.Log() + h.produced;
    LastAnnouncedConcat(s.Log(), h.produced, n);
  }

  /** What the commands announce is a kill by force commanded with it. */
  lemma {:induction false} AnnouncedInAdvance(
      services: Services, order: seq<ServiceName>, some: seq<ServiceName>, lifecycle: LifecycleStatus, now: nat,
          n: ServiceName, e: Event)
    requires IsClosed(services) && IsIterationOrder(order, services)
    requires forall m :: m in some ==> m in services
    requires Announces(e, n) && e in NextAll(services, order, some, lifecycle, now)
    ensures ForceKill(n) in NextAll(services, order, some, lifecycle, now)
    ensures n in services && services[n].status == InKilling && e.status == Failed
  {
    var first := Next(services, order, some[0], lifecycle, now);
    if e in first {
      NextIsJustified(services, order, some[0], lifecycle, now, e);
      if lifecycle == Active && services[some[0]].status == Failed {
        NoAnnouncement(services, order, some[0], now, e);
      }
      assert ForceKill(n) in first;
    } else {
      AnnouncedInAdvance(services, order, some[1..], lifecycle, now, n, e);
    }
  }

  lemma NoAnnouncement(services: Services, order: seq<ServiceName>, m: ServiceName, now: nat, e: Event)
    requires IsClosed(services) && IsIterationOrder(order, services) && m in services && services[m].status == Failed
    requires e in NextEvents(services, order, m, now)
    ensures !e.StatusChanged?
  {
    var dependents, dying := GetDependents(services, order, m), GetDieIfFailed(services, order, m);
    if e in KillCommands(dependents) {
      KillCommandsHold(dependents, e);
    }
    if e in KillCommands(dying) {
      KillCommandsHold(dying, e);
    }
  }

  lemma ComputeStepAgrees(s: State, a: Action, n: ServiceName)
    requires a.Compute? && Enabled(s, a) && n in s.core.services
    ensures StepAgrees(s, a, n)
  {
    hide HandleEvent, NextAll, ReapEvents, LastAnnounced;
    var c, s' := s.core, Apply(s, a);
    var commands, exits := NextAll(c.services, a.order, a.order, c.lifecycle, a.now), ReapEvents(c.pidMap, a.reaped);
    assert s'.Log() == s.Log() + (commands + exits);
    ReapsFollow(c.pidMap, a.reaped, n);
    if !IsForetelling(s, a, n) {
      LastAnnouncedConcat(s.Log(), commands + exits, n);
    }
  }

  lemma OtherStepAgrees(s: State, a: Action, n: ServiceName)
    requires !a.Handle? && !a.Compute? && Enabled(s, a) && n in s.core.services
    ensures StepAgrees(s, a, n)
  {
    hide LastAnnounced, HandleEvent, AllHaveFinished;
    InsertionIsSilent(s, a, n);
    ServicesAreStill(s, a);
  }

  lemma EveryStepAgrees(s: State, a: Action, n: ServiceName)
    requires Enabled(s, a) && n in s.core.services
    ensures StepAgrees(s, a, n)
  {
    if a.Handle? {
      if CanHandle(s.core, s.inbox[0]) {
        HandleStepAgrees(s, a, n);
      } else {
        PanicAgrees(s, a, n);
      }
    } else if a.Compute? {
      ComputeStepAgrees(s, a, n);
    } else {
      OtherStepAgrees(s, a, n);
    }
  }

  lemma PanicAgrees(s: State, a: Action, n: ServiceName)
    requires a.Handle? && Enabled(s, a) && n in s.core.services && !CanHandle(s.core, s.inbox[0])
    ensures StepAgrees(s, a, n)
  {
    assert Apply(s, a).Log() == s.Log();
  }

  // ---------- every run ----------

  lemma KeptFurther(r: Trace, i: nat, n: ServiceName, k: nat)
    requires k < i < |r.states| && IsKept(r, i - 1, n, k) && Enabled(r.states[i - 1], r.actions[i - 1])
    requires r.states[i] == Apply(r.states[i - 1], r.actions[i - 1]) && n in r.states[i].core.services
    requires StaysSilent(r.states[i - 1], r.actions[i - 1], n)
    ensures IsKept(r, i, n, k)
  {
    hide Apply, Enabled, LastAnnounced, HandlesExit;
  }

  lemma StartAgrees(config: seq<Service>, n: ServiceName)
    requires n in Start(config).core.services
    ensures Agrees(Start(config), n)
  {
    FromServicesHolds(config);
    assert Start(config).Log() == [];
  }

  /** In every run the status of a service is the one last announced on the bus, unless it was given silently
      or its end by force was announced in advance. */
  lemma {:induction false} AnnouncementsAgree(r: Trace, config: seq<Service>, i: nat, n: ServiceName)
    requires IsProgramTrace(r, config) && i < |r.states| && n in r.states[0].core.services
    ensures n in r.states[i].core.services
    ensures Agrees(r.states[i], n) || WasForetold(r, i, n) || WasSilenced(r, i, n)
  {
    hide IsProgramTrace, Agrees, Enabled, Apply, Start, IsSilent, IsForetelling, IsKept, StaysSilent;
    Begins(r, config);
    if i == 0 {
      StartAgrees(config, n);
    } else {
      Goes(r, config, i - 1);
      AnnouncementsAgree(r, config, i - 1, n);
      var s, a := r.states[i - 1], r.actions[i - 1];
      EveryStepAgrees(s, a, n);
      AgreementGoesOn(r, config, i, n);
    }
  }

  lemma AgreementGoesOn(r: Trace, config: seq<Service>, i: nat, n: ServiceName)
    requires 0 < i < |r.states| && |r.states| == |r.actions| + 1
    requires Enabled(r.states[i - 1], r.actions[i - 1]) && r.states[i] == Apply(r.states[i - 1], r.actions[i - 1])
    requires n in r.states[i - 1].core.services && StepAgrees(r.states[i - 1], r.actions[i - 1], n)
    requires Agrees(r.states[i - 1], n) || WasForetold(r, i - 1, n) || WasSilenced(r, i - 1, n)
    ensures n in r.states[i].core.services
    ensures Agrees(r.states[i], n) || WasForetold(r, i, n) || WasSilenced(r, i, n)
  {
    hide Enabled, Apply, LastAnnounced, IsSilent, IsForetelling, HandlesExit;
    var s, a, s' := r.states[i - 1], r.actions[i - 1], r.states[i];
    if Agrees(s', n) {
    } else if IsSilent(s, a, n) {
      assert SilencedAt(r, i, n, i - 1);
    } else if IsForetelling(s, a, n) {
      ForetellingKeeps(s, a, n);
      assert ForetoldAt(r, i, n, i - 1);
    } else if WasSilenced(r, i - 1, n) {
      var k :| 0 <= k < i - 1 && SilencedAt(r, i - 1, n, k);
      KeptFurther(r, i, n, k + 1);
      assert SilencedAt(r, i, n, k);
    } else if WasForetold(r, i - 1, n) {
      var k :| 0 <= k < i - 1 && ForetoldAt(r, i - 1, n, k);
      KeptFurther(r, i, n, k);
      assert ForetoldAt(r, i, n, k);
    }
  }

  lemma ForetellingKeeps(s: State, a: Action, n: ServiceName)
    requires Enabled(s, a) && IsForetelling(s, a, n)
    ensures Apply(s, a).core == s.core && !HandlesExit(s, a, n)
  {
  }

  // ---------- the exceptions are exact ----------

  /** The kill by force that was announced in advance is still under way. */
  lemma ForetoldStep(s: State, a: Action, n: ServiceName)
    requires Enabled(s, a) && n in s.core.services && s.core.services[n].status == InKilling
    requires n in Apply(s, a).core.services && Apply(s, a).core.services[n].status == InKilling
    requires ForceKill(n) in s.Queue() || IsForetelling(s, a, n)
    ensures ForceKill(n) in Apply(s, a).Queue()
  {
    hide HandleEvent, NextAll, ReapEvents;
    var c, s' := s.core, Apply(s, a);
    if a.Handle? {
      if CanHandle(c, s.inbox[0]) {
        if s.inbox[0] == ForceKill(n) {
          ForceKillEnds(c, s.inbox[0], a.prepared, a.now, n);
        }
        assert s.Queue() == [s.inbox[0]] + (s.inbox[1..] + s.outbox);
      } else {
        assert s'.Queue() == s.Queue();
      }
    } else if a.Compute? {
      if e :| e in NextAll(c.services, a.order, a.order, c.lifecycle, a.now) && Announces(e, n) {
        AnnouncedInAdvance(c.services, a.order, a.order, c.lifecycle, a.now, n, e);
      }
    } else if a.Send? {
      assert s'.Queue() == s.Queue();
    } else {
      assert s.inbox <= s'.inbox && s'.outbox == s.outbox;
    }
  }

  lemma ForceKillEnds(c: Core, ev: Event, prepared: bool, now: nat, n: ServiceName)
    requires CanHandle(c, ev) && n in c.services && ev == ForceKill(n) && c.services[n].status == InKilling
    ensures HandleEvent(c, ev, prepared, now).core.services[n].status == Failed
  {
  }

  /** The commands announce nothing but the failure, and nothing after it. */
  lemma ForetellingIsHeard(s: State, a: Action, n: ServiceName)
    requires Enabled(s, a) && IsForetelling(s, a, n)
    ensures n in s.core.services && s.core.services[n].status == InKilling
    ensures LastAnnounced(Apply(s, a).Log(), n) == Failed
  {
    hide HandleEvent, NextAll, ReapEvents, LastAnnounced;
    var c, s' := s.core, Apply(s, a);
    var commands, exits := NextAll(c.services, a.order, a.order, c.lifecycle, a.now), ReapEvents(c.pidMap, a.reaped);
    assert s'.Log() == s.Log() + commands + exits;
    ReapsFollow(c.pidMap, a.reaped, n);
    LastAnnouncedConcat(s.Log() + commands, exits, n);
    var first :| first in commands && Announces(first, n);
    AnnouncedInAdvance(c.services, a.order, a.order, c.lifecycle, a.now, n, first);
    forall e | e in commands && Announces(e, n) ensures e.status == Failed && c.services[n].status == InKilling {
      AnnouncedInAdvance(c.services, a.order, a.order, c.lifecycle, a.now, n, e);
    }
    OneOfThem(s.Log(), commands, n);
  }

  /** If all announcements added say the same, that is the last one. */
  lemma {:induction false} OneOfThem(p: seq<Event>, q: seq<Event>, n: ServiceName)
    requires exists e :: e in q && Announces(e, n)
    requires forall e :: e in q && Announces(e, n) ==> e.status == Failed
    ensures LastAnnounced(p + q, n) == Failed
  {
    var most, last := q[..|q| - 1], q[|q| - 1];
    assert (p + q)[..|p + q| - 1] == p + most && (p + q)[|p + q| - 1] == last;
    assert q == most + [last];
    if !Announces(last, n) {
      var e :| e in q && Announces(e, n);
      assert e in most;
      OneOfThem(p, most, n);
    }
  }

  lemma HandleQuietly(c: Core, ev: Event, prepared: bool, now: nat, n: ServiceName)
    requires CanHandle(c, ev) && n in c.services && c.services[n].status != Started
    requires !(ev.ServiceExited? && ev.name == n)
    requires n in HandleEvent(c, ev, prepared, now).core.services
    requires HandleEvent(c, ev, prepared, now).core.services[n].status == c.services[n].status
    ensures forall e :: e in HandleEvent(c, ev, prepared, now).produced ==> !Announces(e, n)
  {
    if ev.ShuttingDownInitiated? || ev.name != n {
      OthersUntouched(c, ev, prepared, now, n);
    }
  }

  /** A step that keeps the status of a service says nothing about it, unless it handles an exit of it or
      foretells its end. */
  lemma UnchangedIsSilent(s: State, a: Action, n: ServiceName)
    requires Enabled(s, a) && n in s.core.services && n in Apply(s, a).core.services
    requires Apply(s, a).core.services[n].status == s.core.services[n].status != Started
    requires !HandlesExit(s, a, n) && !IsForetelling(s, a, n)
    ensures LastAnnounced(Apply(s, a).Log(), n) == LastAnnounced(s.Log(), n)
  {
    hide HandleEvent, LastAnnounced, NextAll, ReapEvents, AllHaveFinished;
    if a.Handle? && CanHandle(s.core, s.inbox[0]) {
      var h := HandleEvent(s.core, s.inbox[0], a.prepared, a.now);
      HandleQuietly(s.core, s.inbox[0], a.prepared, a.now, n);
      assert Apply(s, a).Log() == s.Log() + h.produced;
      LastAnnouncedConcat(s.Log(), h.produced, n);
    } else if a.Handle? {
      assert Apply(s, a).Log() == s.Log();
    } else if a.Compute? {
      CommandsAreSilent(s, a, n);
    } else {
      InsertionIsSilent(s, a, n);
    }
  }

  lemma CommandsAreSilent(s: State, a: Action, n: ServiceName)
    requires a.Compute? && Enabled(s, a) && !IsForetelling(s, a, n)
    ensures LastAnnounced(Apply(s, a).Log(), n) == LastAnnounced(s.Log(), n)
  {
    hide HandleEvent, NextAll, ReapEvents, LastAnnounced;
    var c := s.core;
    var commands, exits := NextAll(c.services, a.order, a.order, c.lifecycle, a.now), ReapEvents(c.pidMap, a.reaped);
    assert Apply(s, a).Log() == s.Log() + (commands + exits);
    ReapsFollow(c.pidMap, a.reaped, n);
    LastAnnouncedConcat(s.Log(), commands + exits, n);
  }

  lemma InsertionIsSilent(s: State, a: Action, n: ServiceName)
    requires Enabled(s, a) && !a.Handle? && !a.Compute?
    ensures LastAnnounced(Apply(s, a).Log(), n) == LastAnnounced(s.Log(), n)
  {
    hide HandleEvent, NextAll, ReapEvents, LastAnnounced, AllHaveFinished;
    var s' := Apply(s, a);
    if a.Send? {
      assert s'.Queue() == s.Queue();
    } else {
      var added := s'.inbox[|s.inbox|..];
      assert s'.inbox == s.inbox + added;
      assert s'.Log() == (s.history + s.inbox) + added + s.outbox && s.Log() == (s.history + s.inbox) + s.outbox;
      LastAnnouncedInsert(s.history + s.inbox, added, s.outbox, n);
    }
  }

  /** What was foretold is what was last announced, and the kill by force is still under way. */
  lemma {:induction false} ForetoldIsLast(r: Trace, config: seq<Service>, i: nat, n: ServiceName, k: nat)
    requires IsProgramTrace(r, config) && i < |r.states| && ForetoldAt(r, i, n, k)
    ensures r.states[i].core.services[n].status == InKilling
    ensures ForceKill(n) in r.states[i].Queue() && LastAnnounced(r.states[i].Log(), n) == Failed
    decreases i
  {
    hide IsProgramTrace, Enabled, Apply, LastAnnounced, HandlesExit, IsForetelling;
    Goes(r, config, i - 1);
    var s, a := r.states[i - 1], r.actions[i - 1];
    assert r.states[k].core.services[n].status == r.states[i].core.services[n].status;
    Goes(r, config, k);
    ForetellingIsHeard(r.states[k], r.actions[k], n);
    if k < i - 1 {
      assert ForetoldAt(r, i - 1, n, k);
      ForetoldIsLast(r, config, i - 1, n, k);
    }
    ForetoldStep(s, a, n);
    if IsForetelling(s, a, n) {
      ForetellingIsHeard(s, a, n);
    } else {
      UnchangedIsSilent(s, a, n);
    }
  }

  /** What was given silently is not what was last announced, in a run that never starts `n` over a process. */
  lemma {:induction false} SilencedIsNotLast(r: Trace, config: seq<Service>, i: nat, n: ServiceName, k: nat)
    requires IsProgramTrace(r, config) && IsOrderlyFor(r, n) && i < |r.states| && SilencedAt(r, i, n, k)
    requires n in r.states[0].core.services
    ensures !Agrees(r.states[i], n)
    ensures r.states[i].core.services[n].status.Failed? || r.states[i].core.services[n].status.FinishedFailed?
    decreases i, 0
  {
    hide IsProgramTrace, IsOrderlyFor, Enabled, Apply, LastAnnounced, HandlesExit, IsForetelling, IsSilent, Agrees;
    Goes(r, config, i - 1);
    var s, a := r.states[i - 1], r.actions[i - 1];
    if k == i - 1 {
      SilencedFromAgreement(r, config, i - 1, n);
      SilenceMisleads(s, a, n);
    } else {
      assert SilencedAt(r, i - 1, n, k);
      SilencedIsNotLast(r, config, i - 1, n, k);
      NothingForetold(s, a, n);
      UnchangedIsSilent(s, a, n);
      SameDisagreement(s, Apply(s, a), n);
    }
  }

  lemma SameDisagreement(s: State, s': State, n: ServiceName)
    requires n in s.core.services && n in s'.core.services && !Agrees(s, n)
    requires s'.core.services[n].status == s.core.services[n].status
    requires LastAnnounced(s'.Log(), n) == LastAnnounced(s.Log(), n)
    ensures !Agrees(s', n)
  {
    hide LastAnnounced;
  }

  lemma NothingForetold(s: State, a: Action, n: ServiceName)
    requires n in s.core.services && s.core.services[n].status != InKilling
    ensures !IsForetelling(s, a, n)
  {
    hide LastAnnounced, Apply;
    if IsForetelling(s, a, n) {
      ForetellingIsHeard(s, a, n);
    }
  }

  /** Where a silent handler acts, the last announcement was right. */
  lemma SilencedFromAgreement(r: Trace, config: seq<Service>, i: nat, n: ServiceName)
    requires IsProgramTrace(r, config) && IsOrderlyFor(r, n) && i < |r.actions| && n in r.states[0].core.services
    requires i < |r.states| && IsSilent(r.states[i], r.actions[i], n)
    ensures n in r.states[i].core.services && Agrees(r.states[i], n)
    decreases i, 1
  {
    hide IsProgramTrace, IsOrderlyFor, LastAnnounced, Agrees, SilencedAt, ForetoldAt, LocalInv, HoldsItsPids;
    AnnouncementsAgree(r, config, i, n);
    RunKeepsGood(r, config, i, n);
    SilentStatus(r.states[i], r.actions[i], n);
    if WasSilenced(r, i, n) {
      var k :| 0 <= k < i && SilencedAt(r, i, n, k);
      SilencedIsNotLast(r, config, i, n, k);
    } else if WasForetold(r, i, n) {
      var k :| 0 <= k < i && ForetoldAt(r, i, n, k);
      ForetoldIsLast(r, config, i, n, k);
    }
  }

  /** A good service that is silenced has no kill by force under way. */
  lemma SilentStatus(s: State, a: Action, n: ServiceName)
    requires IsGood(s, n) && IsSilent(s, a, n)
    ensures var status := s.core.services[n].status;
      && !status.Failed? && !status.FinishedFailed? && (status == InKilling ==> ForceKill(n) !in s.Queue())
  {
    FirstInOutlook(s, n);
    OutlookMembers(s.Queue(), n);
  }

  /** In a run that never starts `n` over a process, the last announcement is wrong about `n` if and only if
      its status was given silently or its end by force was announced in advance. */
  lemma AgreementExactly(r: Trace, config: seq<Service>, i: nat, n: ServiceName)
    requires IsProgramTrace(r, config) && IsOrderlyFor(r, n) && i < |r.states| && n in r.states[0].core.services
    ensures n in r.states[i].core.services
    ensures Agrees(r.states[i], n) <==> !WasForetold(r, i, n) && !WasSilenced(r, i, n)
  {
    hide IsProgramTrace, IsOrderlyFor, LastAnnounced, SilencedAt, ForetoldAt;
    AnnouncementsAgree(r, config, i, n);
    if k :| 0 <= k < i && SilencedAt(r, i, n, k) {
      SilencedIsNotLast(r, config, i, n, k);
    }
    if k :| 0 <= k < i && ForetoldAt(r, i, n, k) {
      ForetoldIsLast(r, config, i, n, k);
    }
  }

  lemma StepHandlesKnown(s: State, a: Action)
    requires FrameInv(s) && Enabled(s, a)
    requires forall e :: e in s.history ==> e.ShuttingDownInitiated? || e.name in s.core.services
    ensures Apply(s, a).core.services.Keys == s.core.services.Keys
    ensures forall e :: e in Apply(s, a).history ==> e.ShuttingDownInitiated? || e.name in s.core.services
  {
    hide HandleEvent, IsTidy;
    StepKeepsServices(s, a);
    if a.Handle? && CanHandle(s.core, s.inbox[0]) {
      FirstIsKnown(s);
    }
  }

  /** Everything handled so far was about services of the configuration. */
  lemma {:induction false} AllHandledIsKnown(r: Trace, config: seq<Service>, i: nat)
    requires IsProgramTrace(r, config) && i < |r.states|
    ensures r.states[i].core.services.Keys == r.states[0].core.services.Keys
    ensures forall e :: e in r.states[i].history ==> e.ShuttingDownInitiated? || e.name in r.states[0].core.services
  {
    hide IsProgramTrace, FrameInv, Enabled, Apply;
    Begins(r, config);
    if i > 0 {
      Goes(r, config, i - 1);
      AllHandledIsKnown(r, config, i - 1);
      RunKeepsFrame(r, config, i - 1);
      StepHandlesKnown(r.states[i - 1], r.actions[i - 1]);
    }
  }

  lemma NothingEnds(r: Trace, config: seq<Service>, i: nat)
    requires IsProgramTrace(r, config) && i < |r.states|
    requires forall e :: e in r.states[i].history + r.states[i].inbox ==> !e.ShuttingDownInitiated?
    ensures forall e :: e in r.states[i].history + r.states[i].inbox ==> !EndsLoop(e, r.states[0].core.services.Keys)
  {
    hide IsProgramTrace, IsTidy;
    AllHandledIsKnown(r, config, i);
    RunKeepsFrame(r, config, i);
  }

  /** A commands handler that has received all there is, no shutdown having been announced, agrees with the
      supervisor about a service that neither exception applies to; and if the run never starts the service
      over a process, about no other. */
  lemma DrainedCopyAgrees(r: Trace, config: seq<Service>, i: nat, n: ServiceName)
    requires IsProgramTrace(r, config) && i < |r.states| && n in r.states[0].core.services
    requires r.states[i].outbox == []
    requires forall e :: e in r.states[i].history + r.states[i].inbox ==> !e.ShuttingDownInitiated?
    ensures n in r.states[i].core.services
    ensures var heard := HeardBy(r.states[i].history + r.states[i].inbox, r.states[0].core.services.Keys);
      var agrees := r.states[i].core.services[n].status == LastAnnounced(heard, n);
      && (!WasForetold(r, i, n) && !WasSilenced(r, i, n) ==> agrees)
      && (IsOrderlyFor(r, n) && agrees ==> !WasForetold(r, i, n) && !WasSilenced(r, i, n))
  {
    hide IsProgramTrace, IsOrderlyFor, LastAnnounced, WasSilenced, WasForetold, EndsLoop;
    var s := r.states[i];
    AnnouncementsAgree(r, config, i, n);
    if IsOrderlyFor(r, n) {
      AgreementExactly(r, config, i, n);
    }
    NothingEnds(r, config, i);
    HearsAll(s.history + s.inbox, r.states[0].core.services.Keys);
    assert s.Log() == s.history + s.inbox;
  }
}
