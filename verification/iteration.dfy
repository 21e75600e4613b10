/** One whole turn of the supervisor's loop, as a composition of its steps. */
module Iterations {
  import opened Formats
  import opened Repos
  import opened Commands
  import opened Machine

  // ---------- reachability ----------

  ghost predicate Reaches(s: State, t: State) {
    exists r :: IsTraceBetween(r, s, t)
  }

  ghost predicate IsTraceBetween(r: Trace, s: State, t: State) {
    IsTrace(r) && r.states[0] == s && r.states[|r.states| - 1] == t
  }

  lemma ReachesItself(s: State)
    ensures Reaches(s, s)
  {
    assert IsTraceBetween(Trace([s], []), s, s);
  }

  lemma ReachesStep(s: State, t: State, a: Action)
    requires Reaches(s, t) && Enabled(t, a)
    ensures Reaches(s, Apply(t, a))
  {
    var r :| IsTraceBetween(r, s, t);
    var r' := Trace(r.states + [Apply(t, a)], r.actions + [a]);
    forall i | 0 <= i < |r'.actions|
      ensures Enabled(r'.states[i], r'.actions[i]) && r'.states[i + 1] == Apply(r'.states[i], r'.actions[i])
    {
      if i < |r.actions| {
        assert r'.states[i] == r.states[i] && r'.actions[i] == r.actions[i] && r'.states[i + 1] == r.states[i + 1];
      }
    }
    assert IsTraceBetween(r', s, Apply(t, a));
  }

  /** A thread for `n` forks a process and reports it, with nothing in between. */
  ghost predicate CanSpawn(s: State, n: ServiceName, p: Pid) {
    n in s.core.spawning && s.forked == map[] && IsFresh(s, p)
  }

  function Spawned(s: State, n: ServiceName, p: Pid): State {
    s.(core := s.core.(spawning := s.core.spawning - multiset{n}), inbox := s.inbox + [PidChanged(n, p)],
       children := s.children + {p})
  }

  lemma NobodyForked(n: ServiceName)
    ensures ForkedOf(map[], n) == 0
  {
    var nothing: map<Pid, ServiceName> := map[];
    assert (set p | p in nothing && nothing[p] == n) == {};
  }

  lemma SpawnIsSteps(origin: State, s: State, n: ServiceName, p: Pid)
    requires Reaches(origin, s) && CanSpawn(s, n, p)
    ensures Reaches(origin, Spawned(s, n, p))
  {
    hide Reaches, HandleEvent, NextAll, ReapEvents, AllHaveFinished;
    NobodyForked(n);
    ReachesStep(origin, s, Fork(n, p));
    var s1 := Apply(s, Fork(n, p));
    ReachesStep(origin, s1, SpawnSucceeds(n, p));
    assert s1.forked - {p} == s.forked;
    assert Apply(s1, SpawnSucceeds(n, p)) == Spawned(s, n, p);
  }

  // ---------- a batch ----------

  /** The outcome of handling events one after the other, as far as a panic lets it come. */
  datatype Batch = Batch(core: Core, produced: seq<Event>, handled: nat, crashed: bool)

  predicate IsPrepared(ev: Event, unprepared: set<ServiceName>) {
    ev.Run? ==> ev.name !in unprepared
  }

  /** `unprepared` are the services whose health checks cannot be prepared at the moment. */
  function HandleBatch(c: Core, evs: seq<Event>, unprepared: set<ServiceName>, now: nat): (b: Batch)
    ensures b.handled <= |evs|
    ensures !b.crashed ==> b.handled == |evs|
  {
    if evs == [] then Batch(c, [], 0, false)
    else HandleLast(HandleBatch(c, evs[..|evs| - 1], unprepared, now), evs[|evs| - 1], unprepared, now)
  }

  function HandleLast(b: Batch, ev: Event, unprepared: set<ServiceName>, now: nat): (b': Batch)
    ensures b'.handled <= b.handled + 1
    ensures !b'.crashed ==> !b.crashed && b'.handled == b.handled + 1
  {
    if b.crashed then b
    else if !CanHandle(b.core, ev) then b.(crashed := true)
    else
      var h := HandleEvent(b.core, ev, IsPrepared(ev, unprepared), now);
      Batch(h.core, b.produced + h.produced, b.handled + 1, false)
  }

  // ---------- a turn of the loop ----------

  /** What a turn depends on besides the supervisor's own state. */
  datatype Turn = Turn(count: nat, unprepared: set<ServiceName>, now: nat, order: seq<ServiceName>, reaped: seq<(Pid,
      int)>)

  ghost predicate CanTurn(s: State, turn: Turn) {
    && s.phase == Idle && s.outbox == [] && !AllHaveFinished(s.core.services) && turn.count <= |s.inbox|
    && (var b := BatchOf(s, turn); !b.crashed ==>
          IsClosed(b.core.services) && IsIterationOrder(turn.order, b.core.services) && CanReap(s, turn.reaped))
  }

  function BatchOf(s: State, turn: Turn): (b: Batch)
    requires turn.count <= |s.inbox|
    ensures b.handled <= turn.count
    ensures !b.crashed ==> b.handled == turn.count
  {
    HandleBatch(s.core, s.inbox[..turn.count], turn.unprepared, turn.now)
  }

  function Commanded(c: Core, turn: Turn): seq<Event>
    requires IsClosed(c.services) && IsIterationOrder(turn.order, c.services)
  {
    NextAll(c.services, turn.order, turn.order, c.lifecycle, turn.now) + ReapEvents(c.pidMap, turn.reaped)
  }

  ghost function Turned(s: State, turn: Turn): State
    requires CanTurn(s, turn)
  {
    var b := BatchOf(s, turn);
    var polled := s.inbox + PollSigterm(s.core);
    if b.crashed then
      State(b.core, polled[b.handled..], turn.count - b.handled, b.produced, Crashed, s.children, s.forked,
            s.history + polled[..b.handled])
    else
      State(b.core, polled[turn.count..] + b.produced + Commanded(b.core, turn),
            0, [], Idle, s.children - ReapedPids(turn.reaped), s.forked, s.history + polled[..turn.count])
  }

  /** The state after a batch of the first `k` events taken. */
  function AfterBatch(s: State, k: nat, unprepared: set<ServiceName>, now: nat): State
    requires k <= s.taken <= |s.inbox|
  {
    var b := HandleBatch(s.core, s.inbox[..k], unprepared, now);
    s.(core := b.core, inbox := s.inbox[b.handled..], taken := s.taken - b.handled, outbox := s.outbox + b.produced,
       history := s.history + s.inbox[..b.handled], phase := if b.crashed then Crashed else s.phase)
  }

  lemma BatchOneMore(s: State, k: nat, unprepared: set<ServiceName>, now: nat)
    requires k < s.taken <= |s.inbox| && s.phase == Handling
    requires !HandleBatch(s.core, s.inbox[..k], unprepared, now).crashed
    ensures var t := AfterBatch(s, k, unprepared, now);
      var a := Handle(IsPrepared(s.inbox[k], unprepared), now);
      Enabled(t, a) && Apply(t, a) == AfterBatch(s, k + 1, unprepared, now)
  {
    var t := AfterBatch(s, k, unprepared, now);
    var a := Handle(IsPrepared(s.inbox[k], unprepared), now);
    assert s.inbox[..k + 1][..k] == s.inbox[..k];
    assert t.inbox[0] == s.inbox[k] && t.inbox[1..] == s.inbox[k + 1..];
    var b := HandleBatch(s.core, s.inbox[..k], unprepared, now);
    assert HandleBatch(s.core, s.inbox[..k + 1], unprepared, now) == HandleLast(b, s.inbox[k], unprepared, now);
    if CanHandle(b.core, s.inbox[k]) {
      AppendOne(s, t, a, b, HandleEvent(b.core, s.inbox[k], a.prepared, now), k);
    }
  }

  lemma AppendOne(s: State, t: State, a: Action, b: Batch, h: Handled, k: nat)
    requires k < |s.inbox|
    ensures (s.outbox + b.produced) + h.produced == s.outbox + (b.produced + h.produced)
    ensures (s.history + s.inbox[..k]) + [s.inbox[k]] == s.history + s.inbox[..k + 1]
  {
  }

  lemma PanicEndsIt(s: State, k: nat, unprepared: set<ServiceName>, now: nat)
    requires 0 < k <= s.taken <= |s.inbox| && HandleBatch(s.core, s.inbox[..k - 1], unprepared, now).crashed
    ensures AfterBatch(s, k, unprepared, now) == AfterBatch(s, k - 1, unprepared, now)
  {
    assert s.inbox[..k][..k - 1] == s.inbox[..k - 1];
  }

  lemma {:induction false} BatchIsSteps(origin: State, s: State, k: nat, unprepared: set<ServiceName>, now: nat)
    requires Reaches(origin, s) && s.phase == Handling && k <= s.taken <= |s.inbox|
    ensures Reaches(origin, AfterBatch(s, k, unprepared, now))
  {
    if k == 0 {
      assert AfterBatch(s, 0, unprepared, now) == s by {
        assert s.inbox[0..] == s.inbox && s.outbox + [] == s.outbox && s.history + [] == s.history;
      }
    } else {
      hide HandleBatch, Reaches, Apply, Enabled;
      BatchIsSteps(origin, s, k - 1, unprepared, now);
      var t := AfterBatch(s, k - 1, unprepared, now);
      if HandleBatch(s.core, s.inbox[..k - 1], unprepared, now).crashed {
        PanicEndsIt(s, k, unprepared, now);
      } else {
        BatchOneMore(s, k - 1, unprepared, now);
        ReachesStep(origin, t, Handle(IsPrepared(s.inbox[k - 1], unprepared), now));
      }
    }
  }

  lemma {:induction false} SendingIsSteps(origin: State, s: State)
    requires Reaches(origin, s) && s.phase == Sending
    ensures Reaches(origin, s.(inbox := s.inbox + s.outbox, outbox := []))
    decreases |s.outbox|
  {
    if s.outbox == [] {
      assert s.inbox + [] == s.inbox;
      assert s.(inbox := s.inbox + s.outbox, outbox := []) == s;
    } else {
      ReachesStep(origin, s, Send);
      var s' := Apply(s, Send);
      SendingIsSteps(origin, s');
      assert s'.inbox + s'.outbox == s.inbox + s.outbox;
    }
  }

  /** A turn of the loop is made of steps of the machine. */
  lemma TurnIsSteps(s: State, turn: Turn)
    requires CanTurn(s, turn)
    ensures Reaches(s, Turned(s, turn))
  {
    ReachesItself(s);
    ReachesStep(s, s, Take(turn.count));
    var s1 := Apply(s, Take(turn.count));
    BatchIsSteps(s, s1, turn.count, turn.unprepared, turn.now);
    assert s1.inbox[..turn.count] == s.inbox[..turn.count];
    var b := BatchOf(s, turn);
    var s2 := AfterBatch(s1, turn.count, turn.unprepared, turn.now);
    assert s.outbox + b.produced == b.produced;
    if b.crashed {
      assert s2 == Turned(s, turn);
    } else {
      EndOfTurn(s, s2, turn);
    }
  }

  lemma EndOfTurn(origin: State, s: State, turn: Turn)
    requires Reaches(origin, s) && s.phase == Handling && s.taken == 0
    requires IsClosed(s.core.services) && IsIterationOrder(turn.order, s.core.services) && CanReap(s, turn.reaped)
    ensures Reaches(origin,
      State(s.core, s.inbox + s.outbox
          + Commanded(s.core, turn), 0, [], Idle, s.children - ReapedPids(turn.reaped), s.forked, s.history))
  {
    var a := Compute(turn.order, turn.now, turn.reaped);
    ReachesStep(origin, s, a);
    var s1 := s.(outbox := s.outbox
        + Commanded(s.core, turn), children := s.children - ReapedPids(turn.reaped), phase := Sending);
    assert s1 == Apply(s, a) by {
      Associate(s.outbox, NextAll(s.core.services, turn.order, turn.order, s.core.lifecycle, turn.now),
          ReapEvents(s.core.pidMap, turn.reaped));
    }
    SendingIsSteps(origin, s1);
    Associate(s.inbox, s.outbox, Commanded(s.core, turn));
    ReachesStep(origin, s1.(inbox := s1.inbox + s1.outbox, outbox := []), EndIteration);
  }

  lemma Associate(p: seq<Event>, q: seq<Event>, r: seq<Event>)
    ensures p + q + r == p + (q + r)
  {
  }

  // ---------- turns and what happens in between ----------

  datatype Happening = TurnOf(turn: Turn) | Outside(action: Action)

  predicate IsOutside(a: Action) {
    a.Fork? || a.SpawnSucceeds? || a.SpawnFails? || a.ReportHealth? || a.Terminate?
  }

  ghost predicate CanHappen(s: State, h: Happening) {
    match h
    case TurnOf(turn) => CanTurn(s, turn)
    case Outside(a) => IsOutside(a) && Enabled(s, a)
  }

  ghost function Happened(s: State, h: Happening): State
    requires CanHappen(s, h)
  {
    match h
    case TurnOf(turn) => Turned(s, turn)
    case Outside(a) => Apply(s, a)
  }

  ghost predicate CanFollow(s: State, hs: seq<Happening>)
    decreases |hs|
  {
    hs != [] ==> CanHappen(s, hs[0]) && CanFollow(Happened(s, hs[0]), hs[1..])
  }

  ghost function Followed(s: State, hs: seq<Happening>): State
    requires CanFollow(s, hs)
    decreases |hs|
  {
    if hs == [] then s else Followed(Happened(s, hs[0]), hs[1..])
  }

  lemma ReachesTransitively(s: State, t: State, u: State)
    requires Reaches(s, t) && Reaches(t, u)
    ensures Reaches(s, u)
  {
    hide Enabled, Apply;
    var p :| IsTraceBetween(p, s, t);
    var q :| IsTraceBetween(q, t, u);
    var r := Trace(p.states + q.states[1..], p.actions + q.actions);
    forall i | 0 <= i < |r.actions|
      ensures Enabled(r.states[i], r.actions[i]) && r.states[i + 1] == Apply(r.states[i], r.actions[i])
    {
      var k := |p.actions|;
      if i < k {
        assert r.states[i] == p.states[i] && r.states[i + 1] == p.states[i + 1] && r.actions[i] == p.actions[i];
      } else {
        assert r.states[i] == q.states[i - k] && r.states[i + 1] == q.states[i - k + 1]
            && r.actions[i] == q.actions[i - k];
      }
    }
    assert IsTraceBetween(r, s, u);
  }

  /** Whatever turns are taken and whatever happens in between, it is a run of the machine. */
  lemma {:induction false} FollowingIsSteps(s: State, hs: seq<Happening>)
    requires CanFollow(s, hs)
    ensures Reaches(s, Followed(s, hs))
    decreases |hs|
  {
    ReachesItself(s);
    if hs != [] {
      var t := Happened(s, hs[0]);
      match hs[0] {
        case TurnOf(turn) => TurnIsSteps(s, turn);
        case Outside(a) => ReachesStep(s, s, a);
      }
      FollowingIsSteps(t, hs[1..]);
      ReachesTransitively(s, t, Followed(s, hs));
    }
  }

  /** After a panic nothing brings the supervisor back. */
  lemma {:induction false} CrashedStays(s: State, hs: seq<Happening>)
    requires CanFollow(s, hs) && s.phase == Crashed
    ensures Followed(s, hs).phase == Crashed
    decreases |hs|
  {
    if hs != [] {
      CrashedStays(Happened(s, hs[0]), hs[1..]);
    }
  }
}
