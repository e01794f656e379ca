/** What one manager cycle leaves behind, from any table at all. */
module AgentCycle {
  import opened Prelude
  import opened AgentModel
  import opened AgentSafety
  import opened AgentCapacity

  /** A level-4 task is with its owner. */
  predicate OwnerHeld(t: Task) {
    t.def.authority >= 4 ==>
      t.status == Quarantined || (t.status == OwnerRequired && t.worker.None? && t.lease.None? && t.heartbeat.None? && t.expiry.None?)
  }

  /** A working row has a lease and a heartbeat that are current. */
  predicate Current(t: Task, now: int) {
    Active(t.status) ==> (t.expiry.Some? ==> now < t.expiry.value) && (t.heartbeat.Some? ==> now < t.heartbeat.value + 300)
  }

  /** The passes of a cycle at time `now`. */
  predicate OfCycle(p: Pass, now: int) {
    p == Enforce || p == Expire(now) || p == RouteTriage(now) || p == Release || (p.Assign? && p.now == now)
  }

  /** One iteration: the enforcing and expiring passes establish their property, and no pass of the cycle loses one. */
  lemma AtQuality(p: Pass, s: State, i: nat, now: int)
    requires OfCycle(p, now) && i < |s.tasks| && At(p, s, i).Some? && (p.Assign? ==> s.tasks[i].status == Ready)
    ensures var t, u := s.tasks[i], At(p, s, i).value.tasks[i];
            && (OwnerHeld(t) || p.Enforce? ==> OwnerHeld(u))
            && (Current(t, now) || p.Expire? ==> Current(u, now))
            && (u.status == Done <==> t.status == Done && (p.Enforce? ==> t.def.authority < 4))
            && (u.status == Pending ==> t.status == Pending && (p.Release? ==> !DependenciesDone(s.tasks, t.def.deps)))
  {
    hide Best, Analyst, LoadMap, Tally, DependenciesDone;
  }

  ghost predicate RowsHeld(ts: seq<Task>, n: nat)
    requires n <= |ts|
  {
    forall j :: 0 <= j < n ==> OwnerHeld(ts[j])
  }

  ghost predicate RowsCurrent(ts: seq<Task>, n: nat, now: int)
    requires n <= |ts|
  {
    forall j :: 0 <= j < n ==> Current(ts[j], now)
  }

  /** A row still PENDING among the first `n` waits for a dependency. */
  ghost predicate RowsWaiting(ts: seq<Task>, n: nat)
    requires n <= |ts|
  {
    forall j :: 0 <= j < n && ts[j].status == Pending ==> !DependenciesDone(ts, ts[j].def.deps)
  }

  /** The same rows are DONE. */
  ghost predicate SameDone(ts: seq<Task>, us: seq<Task>) {
    |ts| == |us| && forall j :: 0 <= j < |ts| ==> (ts[j].status == Done <==> us[j].status == Done) && ts[j].def == us[j].def
  }

  lemma {:induction false} SweepHeld(p: Pass, s: State, n: nat, now: int)
    requires OfCycle(p, now) && Proper(p, s) && Fits(p, |s.tasks|) && n <= Width(p, |s.tasks|) && Sweep(p, s, n).Some?
    ensures p.Enforce? ==> RowsHeld(Sweep(p, s, n).value.tasks, n)
    ensures p.Expire? ==> RowsCurrent(Sweep(p, s, n).value.tasks, n, now)
    ensures RowsHeld(s.tasks, |s.tasks|) ==> RowsHeld(Sweep(p, s, n).value.tasks, |s.tasks|)
    ensures RowsCurrent(s.tasks, |s.tasks|, now) ==> RowsCurrent(Sweep(p, s, n).value.tasks, |s.tasks|, now)
  {
    hide At, Proper, Current, OwnerHeld;
    if n > 0 {
      var u, i := Sweep(p, s, n - 1).value, Row(p, n - 1);
      SweepNext(p, s, n - 1);
      SweepHeld(p, s, n - 1, now);
      AtKeepsShape(p, u, i);
      AtQuality(p, u, i, now);
    }
  }

  /** One changed row: no row stops waiting, and the row itself may be the next that waits. */
  lemma WaitingKept(ts: seq<Task>, us: seq<Task>, i: nat, n: nat)
    requires SameDone(ts, us) && i < |ts| && n <= |ts| && RowsWaiting(ts, n)
    requires forall j :: 0 <= j < |ts| && j != i ==> us[j] == ts[j]
    requires us[i].status == Pending ==> ts[i].status == Pending
    ensures RowsWaiting(us, n)
    ensures i == n && (us[i].status == Pending ==> !DependenciesDone(ts, ts[i].def.deps)) ==> RowsWaiting(us, n + 1)
  {
    hide DependenciesDone;
    forall deps ensures DependenciesDone(ts, deps) <==> DependenciesDone(us, deps) {
      SameDoneSameDependencies(ts, us, deps);
    }
  }

  lemma {:induction false} SweepWaiting(p: Pass, s: State, n: nat, now: int)
    requires OfCycle(p, now) && Proper(p, s) && Fits(p, |s.tasks|) && n <= Width(p, |s.tasks|) && Sweep(p, s, n).Some?
    ensures !p.Enforce? ==> SameDone(s.tasks, Sweep(p, s, n).value.tasks)
    ensures p.Release? ==> RowsWaiting(Sweep(p, s, n).value.tasks, n)
    ensures p.Assign? && RowsWaiting(s.tasks, |s.tasks|) ==> RowsWaiting(Sweep(p, s, n).value.tasks, |s.tasks|)
  {
    hide At, Proper, DependenciesDone, Current, OwnerHeld, SameDone;
    SameDoneItself(s.tasks);
    if n > 0 {
      var u, i := Sweep(p, s, n - 1).value, Row(p, n - 1);
      SweepNext(p, s, n - 1);
      SweepWaiting(p, s, n - 1, now);
      AtKeepsShape(p, u, i);
      AtQuality(p, u, i, now);
      var v := At(p, u, i).value;
      hide RowsWaiting;
      if !p.Enforce? { SameDoneMore(s.tasks, u.tasks, v.tasks, i); }
      if p.Release? { WaitingKept(u.tasks, v.tasks, i, n - 1); }
      if p.Assign? && RowsWaiting(s.tasks, |s.tasks|) { WaitingKept(u.tasks, v.tasks, i, |s.tasks|); }
    }
  }

  lemma SameDoneItself(ts: seq<Task>)
    ensures SameDone(ts, ts)
  {
  }

  lemma SameDoneMore(ts: seq<Task>, us: seq<Task>, vs: seq<Task>, i: nat)
    requires SameDone(ts, us) && i < |us| == |vs| && forall j :: 0 <= j < |us| && j != i ==> vs[j] == us[j]
    requires vs[i].def == us[i].def && (vs[i].status == Done <==> us[i].status == Done)
    ensures SameDone(ts, vs) && SameDone(us, vs)
  {
  }

  lemma SameDoneSameDependencies(ts: seq<Task>, us: seq<Task>, deps: seq<nat>)
    requires SameDone(ts, us)
    ensures DependenciesDone(ts, deps) <==> DependenciesDone(us, deps)
  {
  }

  /**
  Whatever the table was: after a cycle every level-4 task is with its owner, nothing is in triage,
  no lease or heartbeat is stale, and every PENDING task waits for an unfinished dependency.
  */
  lemma CycleSettles(s: State, now: int)
    ensures var ts := Cycle(s, now).tasks;
            && |ts| == |s.tasks| && RowsHeld(ts, |ts|) && RowsCurrent(ts, |ts|, now)
            && NoTriageRow(ts) && RowsWaiting(ts, |ts|)
  {
    hide At, Sweep, OwnerHeld, Current, DependenciesDone, SameDone, RowsHeld, RowsCurrent, RowsWaiting;
    var a := Run(Enforce, s).value;
    SweepHeld(Enforce, s, |s.tasks|, now);
    var b := Run(Expire(now), a).value;
    SweepHeld(Expire(now), a, |a.tasks|, now);
    var c := Run(RouteTriage(now), b).value;
    SweepHeld(RouteTriage(now), b, |b.tasks|, now);
    SweepNoTriage(RouteTriage(now), b, |b.tasks|);
    var d := Run(Release, c).value;
    SweepHeld(Release, c, |c.tasks|, now);
    SweepWaiting(Release, c, |c.tasks|, now);
    SweepNoTriage(Release, c, |c.tasks|);
    var p := Assign(now, Ranked(d.tasks, |d.tasks|));
    RankedProper(d.tasks, |d.tasks|);
    SweepHeld(p, d, |p.order|, now);
    SweepWaiting(p, d, |p.order|, now);
    SweepNoTriage(p, d, |p.order|);
  }

  lemma AtNoTriage(p: Pass, s: State, i: nat)
    requires p.RouteTriage? || p.Release? || p.Assign?
    requires i < |s.tasks|
    ensures At(p, s, i).value.tasks[i].status == Triage ==> s.tasks[i].status == Triage && !p.RouteTriage?
  {
    hide Best, Analyst, LoadMap, Tally, DependenciesDone;
  }

  lemma {:induction false} SweepNoTriage(p: Pass, s: State, n: nat)
    requires p.RouteTriage? || p.Release? || p.Assign?
    requires Fits(p, |s.tasks|) && n <= Width(p, |s.tasks|)
    ensures Sweep(p, s, n).Some?
    ensures p.RouteTriage? ==> forall j :: 0 <= j < n ==> Sweep(p, s, n).value.tasks[j].status != Triage
    ensures NoTriageRow(s.tasks) ==> NoTriageRow(Sweep(p, s, n).value.tasks)
  {
    hide At;
    if n > 0 {
      var u, i := Sweep(p, s, n - 1).value, Row(p, n - 1);
      SweepNoTriage(p, s, n - 1);
      AtKeepsShape(p, u, i);
      AtNoTriage(p, u, i);
    }
  }
}
