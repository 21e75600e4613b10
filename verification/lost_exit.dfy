/** A run whose only fault is that a child ends at once: it is reaped before its pid has been reported. */
module LostExits {
  import opened Formats
  import opened ServiceHandlers
  import opened Repos
  import opened Commands
  import opened Machine
  import opened Records
  import opened Iterations
  import opened Restarting
  import opened Reaping
  import opened HealthMonitors
  import opened Overruns

  // ---------- the run is orderly ----------

  ghost predicate IsUnforced(evs: seq<Event>) {
    forall e :: e in evs ==> !e.ForceKill?
  }

  lemma StepRemembers(s: State, a: Action)
    requires Enabled(s, a)
    ensures s.history <= Apply(s, a).history
    ensures a.Handle? && CanHandle(s.core, s.inbox[0]) ==> s.inbox[0] in Apply(s, a).history
  {
    hide HandleEvent, NextAll, ReapEvents;
  }

  lemma {:induction false} HistoryGrows(r: Trace, config: seq<Service>, i: nat, j: nat)
    requires IsProgramTrace(r, config) && i <= j < |r.states|
    ensures r.states[i].history <= r.states[j].history
  {
    hide *;
    if i < j {
      Goes(r, config, j - 1);
      HistoryGrows(r, config, i, j - 1);
      StepRemembers(r.states[j - 1], r.actions[j - 1]);
      PrefixOfPrefix(r.states[i].history, r.states[j - 1].history, r.states[j].history);
    }
  }

  /** A run that has handled no kill by force is orderly. */
  lemma UnforcedIsOrderly(r: Trace, config: seq<Service>)
    requires IsProgramTrace(r, config) && |r.states| > 0 && IsUnforced(r.states[|r.states| - 1].history)
    ensures IsOrderly(r)
  {
    hide IsProgramTrace, Apply, Enabled;
    Begins(r, config);
    forall n ensures NeverForcedEarly(r, n) {
      forall i | 0 <= i < |r.actions| ensures !ForceKillsEarly(r.states[i], r.actions[i], n) {
        if ForceKillsEarly(r.states[i], r.actions[i], n) {
          Goes(r, config, i);
          StepRemembers(r.states[i], r.actions[i]);
          HistoryGrows(r, config, i + 1, |r.states| - 1);
        }
      }
    }
    NotForcedIsOrderly(r, config);
  }

  lemma TurnRemembers(s: State, turn: Turn)
    requires CanTurn(s, turn) && IsUnforced(s.history) && IsUnforced(s.inbox)
    ensures IsUnforced(Turned(s, turn).history)
  {
    hide HandleBatch, Commanded;
    var polled := s.inbox + PollSigterm(s.core);
    var k := BatchOf(s, turn).handled;
    assert forall e :: e in polled ==> !e.ForceKill?;
    assert forall e :: e in polled[..k] ==> e in polled;
    assert forall e :: e in polled[..turn.count] ==> e in polled;
  }

  // ---------- the run ----------

  const Reaped: Scene :=
    Scene(Handler(Starting, None, None, None), map[], multiset{},
          [StatusChanged(A, Starting), PidChanged(A, 1)], {})
  const Ghost: Scene :=
    Scene(Handler(Started, Some(1), None, None), map[1 := A], multiset{},
          [StatusChanged(A, Started)], {})

  lemma NobodysReaped()
    ensures ReapEvents(map[], [(1, 9)]) == [] && ReapedPids([(1, 9)]) == {1}
  {
    var reaped: seq<(Pid, int)> := [(1, 9)];
    assert reaped[1..] == [] && ReapEvents(map[], reaped) == ReapEvents(map[], reaped[1..]);
    assert reaped[0].0 == 1 && 1 in ReapedPids(reaped);
  }

  /** The child is reaped while its report waits. */
  lemma IsReaped(s: State)
    requires Looks(s, Forked)
    ensures Leads(s, TurnAt(0, 0, [(1, 9)]), Reaped)
  {
    hide Leads, Brings, GetDependents, GetDieIfFailed, ReapEvents, ReapedPids;
    NothingBrings(s.core, Reaped, 0);
    assert Forked.inbox[..0] == [];
    NobodysReaped();
    TurnLeads(s, Forked, TurnAt(0, 0, [(1, 9)]), Reaped, []);
  }

  lemma ComesUpDead(s: State)
    requires Looks(s, Reaped)
    ensures Leads(s, TurnAt(2, 0, []), Ghost)
  {
    hide Leads, Brings, Yields, HandleEvent, GetDependents, GetDieIfFailed;
    ReportDoes(s.core, Reaped, Ghost, 1, 0);
    NewsBring(s.core, Starting, PidChanged(A, 1), 0, Ghost, [StatusChanged(A, Started)]);
    assert Reaped.inbox[..2] == Reaped.inbox;
    QuietTurnLeads(s, Reaped, TurnAt(2, 0, []), Ghost, [StatusChanged(A, Started)]);
  }

  /** A turn from one scene to the next of a run that has handled no kill by force. */
  lemma UnforcedTurn(origin: State, s: State, turn: Turn, scene: Scene) returns (t: State)
    requires Reaches(origin, s) && Leads(s, turn, scene) && IsUnforced(s.history) && IsUnforced(s.inbox)
    ensures Reaches(origin, t) && Looks(t, scene) && IsUnforced(t.history) && t.inbox == scene.inbox
  {
    hide Reaches, CanTurn, Turned, IsUnforced;
    t := Turned(s, turn);
    TurnIsSteps(s, turn);
    ReachesTransitively(origin, s, t);
    TurnRemembers(s, turn);
  }

  lemma GhostRises() returns (s: State)
    ensures Reaches(Start([Fragile]), s) && Looks(s, Ghost) && IsUnforced(s.history)
  {
    hide Reaches, CanTurn, Turned, Enabled, Apply, Start, Leads, Looks;
    var origin := Start([Fragile]);
    StartLooks();
    StartIsUnforced();
    ReachesItself(origin);
    Idles(origin);
    var s1 := UnforcedTurn(origin, origin, TurnAt(0, 0, []), RunQueued);
    Runs(s1);
    var s2 := UnforcedTurn(origin, s1, TurnAt(1, 0, []), Launching);
    Forks(s2);
    SpawnIsSteps(origin, s2, A, 1);
    var s3 := Spawned(s2, A, 1);
    ForkRemembers(s2);
    IsReaped(s3);
    var s4 := UnforcedTurn(origin, s3, TurnAt(0, 0, [(1, 9)]), Reaped);
    ComesUpDead(s4);
    s := UnforcedTurn(origin, s4, TurnAt(2, 0, []), Ghost);
  }

  lemma StartIsUnforced()
    ensures IsUnforced(Start([Fragile]).history) && IsUnforced(Start([Fragile]).inbox)
  {
  }

  lemma ForkRemembers(s: State)
    requires Looks(s, Launching) && IsUnforced(s.history) && CanSpawn(s, A, 1)
    ensures var t := Spawned(s, A, 1); IsUnforced(t.history) && IsUnforced(t.inbox)
  {
  }

  /** The supervisor takes the service for started, and has it watched, with a process that is gone and an
      exit that nobody reports. */
  ghost predicate IsGhost(s: State) {
    && IsLost(s, A, 1) && s.core.services[A].status == Started
    && s.core.spawning == multiset{} && (forall e :: e in s.Queue() ==> !e.PidChanged? && !e.SpawnFailed?)
    && IsWatched(s.Log(), A)
  }

  lemma GhostIsGhost(s: State)
    requires Looks(s, Ghost)
    ensures IsGhost(s)
  {
    assert s.Queue() == [StatusChanged(A, Started)];
    assert s.Log()[|s.Log()| - 1] == StatusChanged(A, Started);
  }

  /** Not every exit is heard of: an orderly run, with fresh pids, in which a service whose process is gone is
      Started and watched, with no exit under way. By `LostForGood` it stays that way. */
  lemma ExitsCanBeLost()
    ensures exists r :: IsProgramTrace(r, [Fragile]) && IsOrderly(r) && IsGhost(r.states[|r.states| - 1])
  {
    hide *;
    var s := GhostRises();
    var r := GhostRun(s);
    UnforcedIsOrderly(r, [Fragile]);
    GhostIsGhost(s);
    assert IsProgramTrace(r, [Fragile]) && IsOrderly(r) && IsGhost(r.states[|r.states| - 1]);
  }

  lemma GhostRun(s: State) returns (r: Trace)
    requires Reaches(Start([Fragile]), s)
    ensures |r.states| > 0 && IsProgramTrace(r, [Fragile]) && r.states[|r.states| - 1] == s
  {
    hide Start, Apply, Enabled, IsWellFormed;
    r :| IsTraceBetween(r, Start([Fragile]), s);
    FragileIsWellFormed();
  }
}
