/** What a queue of events holds for one service, and in which order. */
module Queues {
  import opened Formats

  /** Which events about a service are in a queue, and which unwelcome orders occur among them. */
  datatype Outlook = Outlook(
    run: bool,                 // Run
    initial: bool,             // StatusUpdate(Initial)
    failure: bool,             // StatusUpdate(Failed) or StatusUpdate(FinishedFailed)
    force: bool,               // ForceKill
    report: bool,              // PidChanged or SpawnFailed
    exit: bool,                // ServiceExited
    twoReports: bool,
    twoExits: bool,
    runAfterReport: bool,
    initialAfterReport: bool,
    failureAfterRun: bool,
    forceAfterRun: bool)

  const Clear := Outlook(false, false, false, false, false, false, false, false, false, false, false, false)

  function Single(e: Event, n: ServiceName): Outlook {
    Outlook(
      e == Run(n),
      e == StatusUpdate(n, Initial),
      e == StatusUpdate(n, Failed) || e == StatusUpdate(n, FinishedFailed),
      e == ForceKill(n),
      IsReport(e, n),
      IsExit(e, n),
      false, false, false, false, false, false)
  }

  predicate IsReport(e: Event, n: ServiceName) { (e.PidChanged? || e.SpawnFailed?) && e.name == n }

  predicate IsExit(e: Event, n: ServiceName) { e.ServiceExited? && e.name == n }

  function Join(a: Outlook, b: Outlook): Outlook {
    Outlook(
      a.run || b.run,
      a.initial || b.initial,
      a.failure || b.failure,
      a.force || b.force,
      a.report || b.report,
      a.exit || b.exit,
      a.twoReports || b.twoReports || (a.report && b.report),
      a.twoExits || b.twoExits || (a.exit && b.exit),
      a.runAfterReport || b.runAfterReport || (a.report && b.run),
      a.initialAfterReport || b.initialAfterReport || (a.report && b.initial),
      a.failureAfterRun || b.failureAfterRun || (a.run && b.failure),
      a.forceAfterRun || b.forceAfterRun || (a.run && b.force))
  }

  function OutlookOf(q: seq<Event>, n: ServiceName): Outlook {
    if q == [] then Clear else Join(Single(q[0], n), OutlookOf(q[1..], n))
  }

  lemma {:induction false} OutlookConcat(p: seq<Event>, q: seq<Event>, n: ServiceName)
    ensures OutlookOf(p + q, n) == Join(OutlookOf(p, n), OutlookOf(q, n))
  {
    hide Single;
    if p == [] {
      assert p + q == q;
    } else {
      assert (p + q)[1..] == p[1..] + q;
      OutlookConcat(p[1..], q, n);
    }
  }

  lemma OutlookOne(e: Event, n: ServiceName)
    ensures OutlookOf([e], n) == Single(e, n)
  {
    assert [e][1..] == [];
    assert OutlookOf([e], n) == Join(Single(e, n), Clear);
  }

  lemma OutlookInsert(p: seq<Event>, e: Event, q: seq<Event>, n: ServiceName)
    ensures OutlookOf(p + [e] + q, n) == Join(Join(OutlookOf(p, n), Single(e, n)), OutlookOf(q, n))
  {
    OutlookConcat(p + [e], q, n);
    OutlookConcat(p, [e], n);
    OutlookOne(e, n);
  }

  /** The flags mean what they say. */
  lemma {:induction false} OutlookMembers(q: seq<Event>, n: ServiceName)
    ensures OutlookOf(q, n).run <==> Run(n) in q
    ensures OutlookOf(q, n).initial <==> StatusUpdate(n, Initial) in q
    ensures OutlookOf(q, n).failure <==> StatusUpdate(n, Failed) in q || StatusUpdate(n, FinishedFailed) in q
    ensures OutlookOf(q, n).force <==> ForceKill(n) in q
    ensures OutlookOf(q, n).report <==> exists e :: e in q && IsReport(e, n)
    ensures OutlookOf(q, n).exit <==> exists e :: e in q && IsExit(e, n)
  {
    if q != [] {
      OutlookMembers(q[1..], n);
      assert q == [q[0]] + q[1..];
      assert forall e :: e in q <==> e == q[0] || e in q[1..];
    }
  }

  lemma {:induction false} ReportsAreSingle(q: seq<Event>, n: ServiceName, i: nat, j: nat)
    requires i < j < |q| && IsReport(q[i], n) && IsReport(q[j], n)
    ensures OutlookOf(q, n).twoReports
  {
    if i == 0 {
      assert q[j] == q[1..][j - 1];
      assert q[j] in q[1..];
      OutlookMembers(q[1..], n);
    } else {
      ReportsAreSingle(q[1..], n, i - 1, j - 1);
    }
  }

  lemma {:induction false} ExitsAreSingle(q: seq<Event>, n: ServiceName, i: nat, j: nat)
    requires i < j < |q| && IsExit(q[i], n) && IsExit(q[j], n)
    ensures OutlookOf(q, n).twoExits
  {
    if i == 0 {
      assert q[j] == q[1..][j - 1];
      assert q[j] in q[1..];
      OutlookMembers(q[1..], n);
    } else {
      ExitsAreSingle(q[1..], n, i - 1, j - 1);
    }
  }

  /** Events about others are invisible. */
  lemma {:induction false} OutlookClear(q: seq<Event>, n: ServiceName)
    requires forall e :: e in q ==> e.ShuttingDownInitiated? || e.name != n
    ensures OutlookOf(q, n) == Clear
  {
    if q != [] {
      OutlookClear(q[1..], n);
    }
  }

  /** Every request to kill `n` has the signal that carries it out behind it. */
  predicate KillsFollow(q: seq<Event>, n: ServiceName) {
    q != [] ==> (q[0] == StatusUpdate(n, InKilling) ==> Kill(n) in q[1..]) && KillsFollow(q[1..], n)
  }

  lemma OneFollows(e: Event, n: ServiceName)
    requires e != StatusUpdate(n, InKilling)
    ensures KillsFollow([e], n)
  {
    assert [e][1..] == [];
  }

  lemma PairFollows(m: ServiceName, n: ServiceName)
    ensures KillsFollow([StatusUpdate(m, InKilling), Kill(m)], n)
  {
    OneFollows(Kill(m), n);
    assert [StatusUpdate(m, InKilling), Kill(m)][1..] == [Kill(m)];
  }

  lemma {:induction false} KillsFollowConcat(p: seq<Event>, q: seq<Event>, n: ServiceName)
    requires KillsFollow(p, n) && KillsFollow(q, n)
    ensures KillsFollow(p + q, n)
  {
    if p == [] {
      assert p + q == q;
    } else {
      assert (p + q)[1..] == p[1..] + q;
      KillsFollowConcat(p[1..], q, n);
    }
  }

  /** Slipping in an event that asks for no kill. */
  lemma {:induction false} KillsFollowInsert(p: seq<Event>, e: Event, q: seq<Event>, n: ServiceName)
    requires KillsFollow(p + q, n) && e != StatusUpdate(n, InKilling)
    ensures KillsFollow(p + [e] + q, n)
  {
    if p == [] {
      assert p + q == q;
      assert p + [e] + q == [e] + q;
      assert ([e] + q)[1..] == q;
    } else {
      assert (p + q)[1..] == p[1..] + q;
      assert (p + [e] + q)[1..] == p[1..] + [e] + q;
      KillsFollowInsert(p[1..], e, q, n);
    }
  }
}
