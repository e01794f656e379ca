/** Leases and verification: what every run of the agent protocol keeps. */
module AgentSafety {
  import opened Prelude
  import opened AgentModel

  // ---------------------------------------------------------------- the transport log

  predicate IsFor(e: Event, post: bool, lease: nat) {
    e.Dispatched? == post && e.lease == lease
  }

  /** How often the log posts (or else ingests) the lease. */
  function Times(log: seq<Event>, post: bool, lease: nat): nat {
    if log == [] then 0
    else Times(log[..|log| - 1], post, lease) + (if IsFor(log[|log| - 1], post, lease) then 1 else 0)
  }

  lemma TimesAppend(log: seq<Event>, e: Event, post: bool, lease: nat)
    ensures Times(log + [e], post, lease) == Times(log, post, lease) + (if IsFor(e, post, lease) then 1 else 0)
  {
    assert (log + [e])[..|log|] == log;
  }

  // ---------------------------------------------------------------- the invariant

  predicate Capable(ws: seq<Worker>, v: nat) {
    exists w :: w in ws && w.id == v && w.verifier
  }

  /** The verifier is verifier-capable and is not the producer. */
  predicate FourEyes(ws: seq<Worker>, t: Task) {
    t.verifier.Some? && t.producer != t.verifier && Capable(ws, t.verifier.value)
  }

  predicate RowOk(s: State, t: Task, i: nat) {
    && (t.lease.Some? ==> t.lease.value < s.nextLease)
    && (t.dispatch.Some? ==> t.dispatch.value.lease < s.nextLease)
    && (Active(t.status) ==>
          && t.lease.Some? && t.worker.Some? && t.def.authority < 4
          && (t.dispatch == Some(DispatchIdFor(t, i)) <==> Times(s.log, true, t.lease.value) > 0)
          && Times(s.log, false, t.lease.value) == 0)
    && (t.status in {Verifying, Done} && t.def.authority < 4 ==> FourEyes(s.workers, t))
    && (t.status == Verifying ==> t.worker == t.verifier)
    && (t.status in {Leased, Running} && t.mode != RootCause ==> t.worker == t.producer)
    && (t.def.kind in {Development, EconReview} && (Active(t.status) || t.status == Triage) ==>
          t.producer == DesignatedProducer(t.def.kind))
  }

  /** Lost posts were made under leases that have been handed out. */
  ghost predicate LostOk(s: State) {
    forall l: nat :: Times(s.lost, true, l) > 0 ==> l < s.nextLease
  }

  ghost predicate LogOk(s: State) {
    forall l: nat ::
      && Times(s.log, true, l) <= 1
      && Times(s.log, false, l) <= Times(s.log, true, l)
      && (Times(s.log, true, l) > 0 ==> l < s.nextLease)
  }

  predicate Distinct(ts: seq<Task>) {
    forall i, j :: 0 <= i < j < |ts| && Active(ts[i].status) && Active(ts[j].status) ==> ts[i].lease != ts[j].lease
  }

  ghost predicate Safe(s: State) {
    && LogOk(s) && LostOk(s) && Distinct(s.tasks)
    && forall i :: 0 <= i < |s.tasks| ==> RowOk(s, s.tasks[i], i)
  }

  /** Some row works under this lease now. */
  predicate Live(s: State, lease: nat) {
    exists i :: 0 <= i < |s.tasks| && Active(s.tasks[i].status) && s.tasks[i].lease == Some(lease)
  }

  /** A lease that was handed out and under which no row works any more. */
  predicate Retired(s: State, lease: nat) {
    lease < s.nextLease && !Live(s, lease)
  }

  // ---------------------------------------------------------------- the four kinds of row change

  /** The row stops working, or was not working, and its old lease is at most forgotten. */
  predicate Quiet(t: Task, u: Task) {
    || u == t
    || (&& u.def == t.def && !Active(u.status)
        && u.lease in {t.lease, None} && u.dispatch in {t.dispatch, None}
        && (u.status == Done ==> t.status == Verifying && u.verifier == t.verifier && u.producer == t.producer)
        && (t.status == Done ==> t.def.authority >= 4)
        && (u.status == Triage ==> (Active(t.status) || t.status == Triage) && u.producer == t.producer))
  }

  /** The row starts working under the next unused lease. */
  predicate Granted(s: State, t: Task, u: Task) {
    && u.def == t.def && t.def.authority < 4 && t.status != Done
    && Active(u.status) && u.lease == Some(s.nextLease) && u.worker.Some? && u.dispatch == t.dispatch
    && (u.status == Verifying ==> FourEyes(s.workers, u) && u.worker == u.verifier)
    && (u.status in {Leased, Running} && u.mode != RootCause ==> u.worker == u.producer)
    && (u.def.kind in {Development, EconReview} ==> u.producer == DesignatedProducer(u.def.kind))
  }

  lemma QuietSafe(s: State, i: nat, u: Task)
    requires Safe(s) && i < |s.tasks| && Quiet(s.tasks[i], u)
    ensures Safe(s.(tasks := s.tasks[i := u]))
    ensures forall l :: Retired(s, l) ==> Retired(s.(tasks := s.tasks[i := u]), l)
  {
    var s' := s.(tasks := s.tasks[i := u]);
    forall j | 0 <= j < |s'.tasks| ensures RowOk(s', s'.tasks[j], j) {
      assert RowOk(s, s.tasks[j], j);
    }
  }

  lemma GrantedSafe(s: State, i: nat, u: Task)
    requires Safe(s) && i < |s.tasks| && Granted(s, s.tasks[i], u)
    ensures Safe(s.(tasks := s.tasks[i := u], nextLease := s.nextLease + 1))
    ensures forall l :: Retired(s, l) ==> Retired(s.(tasks := s.tasks[i := u], nextLease := s.nextLease + 1), l)
  {
    var s' := s.(tasks := s.tasks[i := u], nextLease := s.nextLease + 1);
    forall j | 0 <= j < |s'.tasks| ensures RowOk(s', s'.tasks[j], j) {
      assert RowOk(s, s.tasks[j], j);
    }
  }

  lemma PostedTimes(log: seq<Event>, i: nat, lease: nat)
    ensures forall k: nat, post ::
              Times(log + [Dispatched(i, lease)], post, k) == Times(log, post, k) + (if post && k == lease then 1 else 0)
  {
    forall k: nat, post ensures Times(log + [Dispatched(i, lease)], post, k) == Times(log, post, k) + (if post && k == lease then 1 else 0) {
      TimesAppend(log, Dispatched(i, lease), post, k);
    }
  }

  lemma PostedRow(s: State, i: nat, now: int, j: nat)
    requires Safe(s) && i < |s.tasks| && j < |s.tasks| && Dispatchable(s, i) && DispatchRow(s, i, now).Some?
    requires !Drifted(s.lane, s.tasks[i])
    ensures RowOk(DispatchRow(s, i, now).value, DispatchRow(s, i, now).value.tasks[j], j)
  {
    hide EnvelopeOk, Drifted, Capable, LogOk, Times;
    PostedTimes(s.log, i, s.tasks[i].lease.value);
    assert RowOk(s, s.tasks[i], i) && RowOk(s, s.tasks[j], j);
  }

  /** Posting the current lease of a row that has not been posted. */
  lemma PostedSafe(s: State, i: nat, now: int)
    requires Safe(s) && i < |s.tasks| && DispatchRow(s, i, now).Some? && !Drifted(s.lane, s.tasks[i])
    ensures Safe(DispatchRow(s, i, now).value)
    ensures forall l :: Retired(s, l) ==> Retired(DispatchRow(s, i, now).value, l)
  {
    hide EnvelopeOk, Drifted, FourEyes, Times;
    var s' := DispatchRow(s, i, now).value;
    if Dispatchable(s, i) {
      assert RowOk(s, s.tasks[i], i);
      PostedTimes(s.log, i, s.tasks[i].lease.value);
      hide RowOk;
      forall j | 0 <= j < |s'.tasks| ensures RowOk(s', s'.tasks[j], j) {
        PostedRow(s, i, now, j);
      }
    }
  }

  /** Recording the ingestion of a posted lease under which no row works any more. */
  lemma LoggedSafe(s: State, i: nat, lease: nat, w: nat)
    requires Safe(s) && Retired(s, lease)
    requires Times(s.log, true, lease) > 0 && Times(s.log, false, lease) == 0
    ensures Safe(s.(log := s.log + [Ingested(i, lease, w)]))
  {
    var s' := s.(log := s.log + [Ingested(i, lease, w)]);
    forall k: nat, post ensures Times(s'.log, post, k) == Times(s.log, post, k) + (if !post && k == lease then 1 else 0) {
      TimesAppend(s.log, Ingested(i, lease, w), post, k);
    }
    forall j | 0 <= j < |s'.tasks| ensures RowOk(s', s'.tasks[j], j) {
      assert RowOk(s, s.tasks[j], j);
    }
  }

  /**
  What every iteration, pass, step and run leaves alone: the definitions, the finished tasks, and
  whatever the log says about a lease that is no longer live.
  */
  ghost predicate Keeps(s: State, u: State) {
    && |u.tasks| == |s.tasks| && s.nextLease <= u.nextLease
    && (forall j :: 0 <= j < |s.tasks| ==>
          && u.tasks[j].def == s.tasks[j].def
          && (s.tasks[j].status == Done && s.tasks[j].def.authority < 4 ==> u.tasks[j] == s.tasks[j]))
    && (forall l: nat :: Retired(s, l) ==>
          && Retired(u, l) && Times(u.lost, true, l) == Times(s.lost, true, l)
          && forall post :: Times(u.log, post, l) == Times(s.log, post, l))
  }

  // ---------------------------------------------------------------- every iteration is one of them

  /** Recording a result leaves the row without its lease, whatever the outcome. */
  lemma RecordSafe(s: State, i: nat, r: TaskResult, now: int)
    requires Safe(s) && i < |s.tasks| && Active(s.tasks[i].status) && AcceptRow(s, i, r, now).Some?
    ensures var u := AcceptRow(s, i, r, now).value;
            Safe(u) && u.log == s.log && Retired(u, s.tasks[i].lease.value) && Keeps(s, u)
  {
    hide Best, Tally, LoadMap, LogOk;
    var t := s.tasks[i];
    var u := AcceptRow(s, i, r, now).value;
    assert RowOk(s, t, i);
    var t' := u.tasks[i];
    if u.nextLease == s.nextLease {
      QuietSafe(s, i, t');
      assert u == s.(tasks := s.tasks[i := t']);
    } else {
      assert u == s.(tasks := s.tasks[i := t'], nextLease := s.nextLease + 1);
      GrantedSafe(s, i, t');
    }
  }

  /** Logging an event about a lease that was live does not touch what the log says of the others. */
  lemma LoggedKeeps(s: State, v: State, e: Event)
    requires Keeps(s, v) && v.log == s.log && Live(s, e.lease)
    ensures Keeps(s, v.(log := s.log + [e]))
  {
    forall l: nat, post ensures Times(s.log + [e], post, l) == Times(s.log, post, l) + (if IsFor(e, post, l) then 1 else 0) {
      TimesAppend(s.log, e, post, l);
    }
  }

  lemma AtSafe(p: Pass, s: State, i: nat)
    requires Safe(s) && i < |s.tasks| && At(p, s, i).Some?
    requires p.Assign? ==> s.tasks[i].status == Ready
    ensures Safe(At(p, s, i).value) && Keeps(s, At(p, s, i).value)
  {
    hide Safe, Keeps;
    if p.Dispatch? {
      DispatchSafe(s, i, p.now);
    } else if p.Poll? {
      PollSafe(s, i, p.inbox, p.now);
    } else if (p.RouteTriage? || p.Assign?) && At(p, s, i).value.nextLease != s.nextLease {
      GrantSafe(p, s, i);
    } else {
      RestSafe(p, s, i);
    }
  }

  lemma DispatchSafe(s: State, i: nat, now: int)
    requires Safe(s) && i < |s.tasks| && DispatchRow(s, i, now).Some?
    ensures Safe(DispatchRow(s, i, now).value) && Keeps(s, DispatchRow(s, i, now).value)
  {
    hide LogOk, Distinct, EnvelopeOk, Drifted;
    var u := DispatchRow(s, i, now).value;
    assert RowOk(s, s.tasks[i], i);
    if Dispatchable(s, i) && Drifted(s.lane, s.tasks[i]) {
      assert u == s.(tasks := s.tasks[i := u.tasks[i]]);
      QuietSafe(s, i, u.tasks[i]);
      return;
    }
    if !Dispatchable(s, i) {
      KeepsItself(s);
      return;
    }
    PostedSafe(s, i, now);
    if u != s { LoggedKeeps(s, u.(log := s.log), Dispatched(i, s.tasks[i].lease.value)); }
  }

  lemma PollSafe(s: State, i: nat, inbox: map<nat, TaskResult>, now: int)
    requires Safe(s) && i < |s.tasks| && PollRow(s, i, inbox, now).Some?
    ensures Safe(PollRow(s, i, inbox, now).value) && Keeps(s, PollRow(s, i, inbox, now).value)
  {
    var t, u := s.tasks[i], PollRow(s, i, inbox, now).value;
    if Pollable(s, i) && t.lease.value in inbox {
      var r := inbox[t.lease.value];
      hide AcceptRow, LogOk, Distinct, Keeps;
      var v := AcceptRow(s, i, r, now).value;
      assert RowOk(s, t, i);
      RecordSafe(s, i, r, now);
      LoggedSafe(v, i, r.lease, r.worker);
      LoggedKeeps(s, v, Ingested(i, r.lease, r.worker));
    } else {
      KeepsItself(s);
    }
  }

  lemma GrantSafe(p: Pass, s: State, i: nat)
    requires Safe(s) && i < |s.tasks| && (p.RouteTriage? || p.Assign?) && At(p, s, i).value.nextLease != s.nextLease
    requires p.Assign? ==> s.tasks[i].status == Ready
    ensures Safe(At(p, s, i).value) && Keeps(s, At(p, s, i).value)
  {
    hide Best, Analyst, Tally, LoadMap, LogOk, Distinct;
    var u := At(p, s, i).value;
    assert RowOk(s, s.tasks[i], i);
    assert u == s.(tasks := s.tasks[i := u.tasks[i]], nextLease := s.nextLease + 1);
    GrantedSafe(s, i, u.tasks[i]);
  }

  lemma AtQuiet(p: Pass, s: State, i: nat)
    requires i < |s.tasks| && !p.Dispatch? && !p.Poll? && At(p, s, i).value.nextLease == s.nextLease
    requires p.Assign? ==> s.tasks[i].status == Ready
    ensures At(p, s, i).Some? && |At(p, s, i).value.tasks| == |s.tasks|
    ensures var u := At(p, s, i).value; u == s.(tasks := s.tasks[i := u.tasks[i]]) && Quiet(s.tasks[i], u.tasks[i])
  {
    hide Best, Analyst, Tally, LoadMap, DependenciesDone;
  }

  lemma RestSafe(p: Pass, s: State, i: nat)
    requires Safe(s) && i < |s.tasks| && !p.Dispatch? && !p.Poll? && At(p, s, i).value.nextLease == s.nextLease
    requires p.Assign? ==> s.tasks[i].status == Ready
    ensures Safe(At(p, s, i).value) && Keeps(s, At(p, s, i).value)
  {
    hide At, Safe;
    AtQuiet(p, s, i);
    QuietSafe(s, i, At(p, s, i).value.tasks[i]);
  }

  // ---------------------------------------------------------------- passes

  ghost predicate NoDuplicates(order: seq<nat>) {
    forall j, k :: 0 <= j < k < |order| ==> order[j] != order[k]
  }

  /** The rows of an assignment pass are distinct READY rows. */
  ghost predicate Proper(p: Pass, s: State) {
    && Fits(p, |s.tasks|)
    && (p.Assign? ==> NoDuplicates(p.order) && forall k :: 0 <= k < |p.order| ==> s.tasks[p.order[k]].status == Ready)
  }

  /** A row that no iteration has visited is as it was. */
  lemma SweepUntouched(p: Pass, s: State, n: nat, j: nat)
    requires Fits(p, |s.tasks|) && n <= Width(p, |s.tasks|) && j < |s.tasks|
    requires forall k :: 0 <= k < n ==> Row(p, k) != j
    ensures Sweep(p, s, n).Some? ==> Sweep(p, s, n).value.tasks[j] == s.tasks[j]
  {
    if n > 0 && Sweep(p, s, n - 1).Some? {
      SweepUntouched(p, s, n - 1, j);
      AtKeepsShape(p, Sweep(p, s, n - 1).value, Row(p, n - 1));
    }
  }

  lemma KeepsItself(s: State)
    ensures Keeps(s, s)
  {
  }

  lemma KeepsTransitive(s: State, u: State, v: State)
    requires Keeps(s, u) && Keeps(u, v)
    ensures Keeps(s, v)
  {
  }

  /** The row of the next iteration is still as the pass found it. */
  lemma SweepNext(p: Pass, s: State, n: nat)
    requires Proper(p, s) && n < Width(p, |s.tasks|) && Sweep(p, s, n).Some?
    ensures Row(p, n) < |s.tasks| && (p.Assign? ==> s.tasks[Row(p, n)].status == Ready)
    ensures Sweep(p, s, n).value.tasks[Row(p, n)] == s.tasks[Row(p, n)]
    ensures Sweep(p, s, n + 1) == At(p, Sweep(p, s, n).value, Row(p, n))
  {
    SweepUntouched(p, s, n, Row(p, n));
  }

  lemma {:induction false} SweepSafe(p: Pass, s: State, n: nat)
    requires Safe(s) && Proper(p, s) && Fits(p, |s.tasks|) && n <= Width(p, |s.tasks|) && Sweep(p, s, n).Some?
    ensures Safe(Sweep(p, s, n).value) && Keeps(s, Sweep(p, s, n).value)
  {
    hide Safe, Keeps, At, Proper;
    KeepsItself(s);
    if n > 0 {
      var u := Sweep(p, s, n - 1).value;
      SweepNext(p, s, n - 1);
      SweepSafe(p, s, n - 1);
      AtSafe(p, u, Row(p, n - 1));
      KeepsTransitive(s, u, At(p, u, Row(p, n - 1)).value);
    }
  }

  lemma {:induction false} InsertNoDuplicates(ts: seq<Task>, order: seq<nat>, i: nat)
    requires i < |ts| && forall k :: 0 <= k < |order| ==> order[k] < |ts|
    requires NoDuplicates(order) && forall k :: 0 <= k < |order| ==> order[k] != i
    ensures NoDuplicates(Insert(ts, order, i))
  {
    if order != [] && !Precedes(ts, i, order[0]) {
      var r := Insert(ts, order[1..], i);
      InsertNoDuplicates(ts, order[1..], i);
      forall k | 0 <= k < |r| ensures r[k] != order[0] {
        assert r[k] == i || r[k] in order[1..];
      }
    }
  }

  lemma {:induction false} RankedProper(ts: seq<Task>, n: nat)
    requires n <= |ts|
    ensures NoDuplicates(Ranked(ts, n))
  {
    if n > 0 {
      var r := Ranked(ts, n - 1);
      RankedProper(ts, n - 1);
      if ts[n - 1].status == Ready {
        InsertNoDuplicates(ts, r, n - 1);
        assert Ranked(ts, n) == Insert(ts, r, n - 1);
      } else {
        assert Ranked(ts, n) == r;
      }
    }
  }

  lemma RunSafe(p: Pass, s: State)
    requires Safe(s) && Proper(p, s) && Run(p, s).Some?
    ensures Safe(Run(p, s).value) && Keeps(s, Run(p, s).value)
  {
    SweepSafe(p, s, Width(p, |s.tasks|));
  }

  lemma CycleSafe(s: State, now: int)
    requires Safe(s)
    ensures Safe(Cycle(s, now)) && Keeps(s, Cycle(s, now))
  {
    hide Safe, Keeps, At, Sweep;
    var a := Run(Enforce, s).value;
    RunSafe(Enforce, s);
    var b := Run(Expire(now), a).value;
    RunSafe(Expire(now), a);
    KeepsTransitive(s, a, b);
    var c := Run(RouteTriage(now), b).value;
    RunSafe(RouteTriage(now), b);
    KeepsTransitive(s, b, c);
    var d := Run(Release, c).value;
    RunSafe(Release, c);
    KeepsTransitive(s, c, d);
    RankedProper(d.tasks, |d.tasks|);
    RunSafe(Assign(now, Ranked(d.tasks, |d.tasks|)), d);
    KeepsTransitive(s, d, Cycle(s, now));
  }

  // ---------------------------------------------------------------- runs of the transport

  lemma {:induction false} TimesConcat(a: seq<Event>, b: seq<Event>, post: bool, lease: nat)
    ensures Times(a + b, post, lease) == Times(a, post, lease) + Times(b, post, lease)
  {
    if b == [] {
      assert a + b == a;
    } else {
      TimesConcat(a, b[..|b| - 1], post, lease);
      assert (a + b)[..|a + b| - 1] == a + b[..|b| - 1];
    }
  }

  lemma AtExtendsLog(p: Pass, s: State, i: nat)
    requires i < |s.tasks| && At(p, s, i).Some?
    ensures s.log <= At(p, s, i).value.log
  {
    hide Best, Analyst, LoadMap, Tally, EnvelopeOk, ReceiptAccepted;
  }

  /** The first `n` iterations of a pass only ever add to the log. */
  lemma {:induction false} SweepExtendsLog(p: Pass, s: State, n: nat, m: nat)
    requires Fits(p, |s.tasks|) && n <= m <= Width(p, |s.tasks|) && Sweep(p, s, m).Some?
    ensures Sweep(p, s, n).Some? && Sweep(p, s, n).value.log <= Sweep(p, s, m).value.log
  {
    hide At;
    if n < m {
      SweepExtendsLog(p, s, n, m - 1);
      AtExtendsLog(p, Sweep(p, s, m - 1).value, Row(p, m - 1));
    }
  }

  lemma LogGrows(p: Pass, s: State, n: nat)
    requires Fits(p, |s.tasks|) && n <= Width(p, |s.tasks|) && Sweep(p, s, n).Some?
    ensures s.log <= Sweep(p, s, n).value.log
  {
    hide At;
    SweepExtendsLog(p, s, 0, n);
  }

  lemma PolledSafe(s: State, mode: Mode, inbox: map<nat, TaskResult>, now: int)
    requires Safe(s) && Polled(s, mode, inbox, now).Some?
    ensures var u := Polled(s, mode, inbox, now).value; Safe(u) && Keeps(s, u) && u.lost == s.lost && s.log <= u.log
  {
    hide Safe, Keeps, Sweep;
    var e := Run(Enforce, s).value;
    RunSafe(Enforce, s);
    LogGrows(Enforce, s, |s.tasks|);
    if mode != DispatchOnly {
      RunSafe(Poll(inbox, now), e);
      LogGrows(Poll(inbox, now), e, |e.tasks|);
      KeepsTransitive(s, e, Run(Poll(inbox, now), e).value);
    }
  }

  lemma {:induction false} GotSafe(s: State, now: int, n: nat)
    requires Safe(s) && n <= |s.tasks|
    ensures var v := Got(s, now, n); Safe(v) && Keeps(s, v) && v.lost == s.lost && s.log <= v.log
  {
    hide Safe, Keeps, Sweep;
    KeepsItself(s);
    if n > 0 {
      if Sweep(Dispatch(now), s, n).Some? {
        SweepSafe(Dispatch(now), s, n);
        LogGrows(Dispatch(now), s, n);
      } else {
        GotSafe(s, now, n - 1);
      }
    }
  }

  /** What a transport run that did not save posted of a lease: at most one post, and none if the saved log has one. */
  lemma UnsavedPosts(s: State, u: State, v: State, lease: nat)
    requires Safe(v) && s.log <= u.log <= v.log
    ensures var posts := NewEvents(u, v);
            && Times(v.log, true, lease) == Times(u.log, true, lease) + Times(posts, true, lease)
            && Times(s.log, true, lease) + Times(posts, true, lease) <= 1
            && Times(s.lost + posts, true, lease) == Times(s.lost, true, lease) + Times(posts, true, lease)
  {
    var posts := NewEvents(u, v);
    assert v.log == u.log + posts;
    TimesConcat(u.log, posts, true, lease);
    assert u.log == s.log + u.log[|s.log|..];
    TimesConcat(s.log, u.log[|s.log|..], true, lease);
    TimesConcat(s.lost, posts, true, lease);
  }

  lemma UnsavedSafe(s: State, u: State, v: State)
    requires Safe(s) && Safe(v) && Keeps(s, u) && Keeps(u, v) && s.log <= u.log <= v.log && u.lost == v.lost == s.lost
    ensures Safe(Unsaved(s, u, v)) && Keeps(s, Unsaved(s, u, v))
  {
    hide Times, FourEyes;
    var r := Unsaved(s, u, v);
    forall l: nat ensures Times(r.lost, true, l) > 0 ==> l < r.nextLease {
      UnsavedPosts(s, u, v, l);
    }
    forall l: nat | Retired(s, l) ensures Times(r.lost, true, l) == Times(s.lost, true, l) {
      UnsavedPosts(s, u, v, l);
      assert Times(u.log, true, l) == Times(s.log, true, l);
    }
    forall i | 0 <= i < |r.tasks| ensures RowOk(r, r.tasks[i], i) {
      assert RowOk(s, s.tasks[i], i);
    }
  }

  lemma TransportSafe(s: State, mode: Mode, inbox: map<nat, TaskResult>, now: int, dies: Option<nat>)
    requires Safe(s)
    ensures Safe(Transport(s, mode, inbox, now, dies)) && Keeps(s, Transport(s, mode, inbox, now, dies))
  {
    hide Safe, Keeps, Sweep, Polled, Unsaved, Got;
    KeepsItself(s);
    if Polled(s, mode, inbox, now).Some? {
      var u := Polled(s, mode, inbox, now).value;
      PolledSafe(s, mode, inbox, now);
      if mode != PollOnly {
        var n := Reach(dies, |u.tasks|);
        GotSafe(u, now, n);
        UnsavedSafe(s, u, Got(u, now, n));
        if dies.None? && Run(Dispatch(now), u).Some? {
          RunSafe(Dispatch(now), u);
          KeepsTransitive(s, u, Run(Dispatch(now), u).value);
        }
      }
    }
  }

  /** One step keeps the invariant, the finished tasks and the fate of every lease that is not live. */
  lemma StepSafe(s: State, step: Step)
    requires Safe(s)
    ensures Safe(Apply(s, step)) && Keeps(s, Apply(s, step))
  {
    hide Keeps, Sweep, LogOk, LostOk, Distinct, Transport, Cycle;
    KeepsItself(s);
    match step
    case StepCycle(now) => CycleSafe(s, now);
    case StepTransport(mode, inbox, now, dies) => TransportSafe(s, mode, inbox, now, dies);
    case StepRecoverRca => RunSafe(RecoverRca, s);
    case StepRecoverBounded => RunSafe(RecoverBounded, s);
    case StepBlockUnroutable => RunSafe(BlockUnroutable, s);
    case StepObserve(ws) => if SameTemplate(s.workers, ws) { ObserveSafe(s, ws); }
    case StepCheckout(lane) => CheckoutSafe(s, lane);
  }

  lemma CheckoutSafe(s: State, lane: Lane)
    requires Safe(s)
    ensures Safe(s.(lane := lane)) && Keeps(s, s.(lane := lane))
  {
    forall i | 0 <= i < |s.tasks| ensures RowOk(s.(lane := lane), s.tasks[i], i) {
      assert RowOk(s, s.tasks[i], i);
    }
  }

  lemma ObserveSafe(s: State, ws: seq<Worker>)
    requires Safe(s) && SameTemplate(s.workers, ws)
    ensures Safe(s.(workers := ws)) && Keeps(s, s.(workers := ws))
  {
    forall v | Capable(s.workers, v) ensures Capable(ws, v) {
      var k :| 0 <= k < |s.workers| && s.workers[k].id == v && s.workers[k].verifier;
      assert ws[k] in ws;
    }
    forall i | 0 <= i < |s.tasks| ensures RowOk(s.(workers := ws), s.tasks[i], i) {
      assert RowOk(s, s.tasks[i], i);
    }
  }

  // ---------------------------------------------------------------- runs

  /** The table as the repository defines it: nothing has started. */
  predicate Initial(s: State) {
    && s.log == [] && s.lost == []
    && forall i :: 0 <= i < |s.tasks| ==>
         s.tasks[i].status == Pending && s.tasks[i].lease.None? && s.tasks[i].dispatch.None?
  }

  lemma InitialSafe(s: State)
    requires Initial(s)
    ensures Safe(s)
  {
  }

  lemma {:induction false} EveryRunSafe(s: State, steps: seq<Step>)
    requires Safe(s)
    ensures Safe(RunSteps(s, steps)) && Keeps(s, RunSteps(s, steps))
  {
    hide Apply, Safe;
    if steps != [] {
      EveryRunSafe(s, steps[..|steps| - 1]);
      StepSafe(RunSteps(s, steps[..|steps| - 1]), steps[|steps| - 1]);
    }
  }

  /** How often a lease was posted, by runs that saved and by runs that did not. */
  function Posted(s: State, lease: nat): nat {
    Times(s.log, true, lease) + Times(s.lost, true, lease)
  }

  /** The transport run dispatches and does not save: it dies, or a row raises. */
  predicate Fails(s: State, step: Step) {
    && step.StepTransport? && step.mode != PollOnly
    && Polled(s, step.mode, step.inbox, step.now).Some?
    && (step.dies.Some? || Run(Dispatch(step.now), Polled(s, step.mode, step.inbox, step.now).value).None?)
  }

  /** Only a failing transport run adds to the lost posts. */
  lemma LostOnlyByFailure(s: State, step: Step)
    requires !Fails(s, step)
    ensures Apply(s, step).lost == s.lost
  {
    hide Sweep, SameTemplate;
  }

  /** A step posts a lease at most once more, and only a lease that the saved log does not have yet. */
  lemma StepPosts(s: State, step: Step, lease: nat)
    requires Safe(s)
    ensures Posted(s, lease) <= Posted(Apply(s, step), lease) <= Posted(s, lease) + 1
    ensures Posted(Apply(s, step), lease) > Posted(s, lease) ==> Times(s.log, true, lease) == 0
  {
    hide Sweep, Keeps, Times, Transport, Polled, SameTemplate, RowOk, Distinct;
    StepSafe(s, step);
    if Fails(s, step) {
      FailedPosts(s, step, lease);
    } else {
      LostOnlyByFailure(s, step);
      StepExtendsLog(s, step, lease);
    }
  }

  lemma FailedPosts(s: State, step: Step, lease: nat)
    requires Safe(s) && Fails(s, step)
    ensures Apply(s, step).log == s.log
    ensures Times(s.lost, true, lease) <= Times(Apply(s, step).lost, true, lease)
            && Times(Apply(s, step).lost, true, lease) - Times(s.lost, true, lease) + Times(s.log, true, lease) <= 1
  {
    hide Safe, Keeps, Sweep, Polled, Got, Times;
    var u := Polled(s, step.mode, step.inbox, step.now).value;
    var n := Reach(step.dies, |u.tasks|);
    PolledSafe(s, step.mode, step.inbox, step.now);
    GotSafe(u, step.now, n);
    UnsavedPosts(s, u, Got(u, step.now, n), lease);
  }

  lemma StepExtendsLog(s: State, step: Step, lease: nat)
    requires Safe(s)
    ensures Times(s.log, true, lease) <= Times(Apply(s, step).log, true, lease)
  {
    hide Safe, Keeps, Times, Sweep, Polled, Got, SameTemplate;
    match step {
      case StepCycle(now) => CycleExtendsLog(s, now);
      case StepTransport(mode, inbox, now, dies) =>
        if Polled(s, mode, inbox, now).Some? {
          var u := Polled(s, mode, inbox, now).value;
          PolledSafe(s, mode, inbox, now);
          if Run(Dispatch(now), u).Some? { LogGrows(Dispatch(now), u, |u.tasks|); }
        }
      case StepRecoverRca => LogGrows(RecoverRca, s, |s.tasks|);
      case StepRecoverBounded => LogGrows(RecoverBounded, s, |s.tasks|);
      case StepBlockUnroutable => LogGrows(BlockUnroutable, s, |s.tasks|);
      case StepObserve(_) =>
      case StepCheckout(_) =>
    }
    PrefixTimes(s.log, Apply(s, step).log, lease);
  }

  lemma CycleExtendsLog(s: State, now: int)
    ensures s.log <= Cycle(s, now).log
  {
    hide Sweep;
    var a := Run(Enforce, s).value;
    LogGrows(Enforce, s, |s.tasks|);
    var b := Run(Expire(now), a).value;
    LogGrows(Expire(now), a, |a.tasks|);
    var c := Run(RouteTriage(now), b).value;
    LogGrows(RouteTriage(now), b, |b.tasks|);
    var d := Run(Release, c).value;
    LogGrows(Release, c, |c.tasks|);
    var p := Assign(now, Ranked(d.tasks, |d.tasks|));
    LogGrows(p, d, |p.order|);
  }

  lemma PrefixTimes(a: seq<Event>, b: seq<Event>, lease: nat)
    requires a <= b
    ensures Times(a, true, lease) <= Times(b, true, lease)
  {
    assert b == a + b[|a|..];
    TimesConcat(a, b[|a|..], true, lease);
  }

  /**
  In every run a lease is ingested at most once and never without a post, and every post beyond the
  first is matched by a post of a transport run that did not save.
  */
  lemma PostsAndIngests(s: State, steps: seq<Step>, lease: nat)
    requires Initial(s)
    ensures var u := RunSteps(s, steps);
            && Times(u.log, false, lease) <= Times(u.log, true, lease) <= 1
            && Posted(u, lease) <= 1 + Times(u.lost, true, lease)
  {
    hide RunSteps;
    EveryRunSafe(s, steps);
  }

  /** A post in any run is a repetition if and only if a transport run that did not save had made it before. */
  lemma RepostedIff(s: State, steps: seq<Step>, step: Step, lease: nat)
    requires Initial(s) && Posted(RunSteps(s, steps + [step]), lease) > Posted(RunSteps(s, steps), lease)
    ensures var u := RunSteps(s, steps);
            && Posted(RunSteps(s, steps + [step]), lease) == Posted(u, lease) + 1
            && (Posted(u, lease) > 0 <==> Times(u.lost, true, lease) > 0)
  {
    hide Times, Apply;
    InitialSafe(s);
    EveryRunSafe(s, steps);
    assert (steps + [step])[..|steps|] == steps;
    StepPosts(RunSteps(s, steps), step, lease);
  }

  predicate NoFailure(s: State, steps: seq<Step>) {
    forall k :: 0 <= k < |steps| ==> !Fails(RunSteps(s, steps[..k]), steps[k])
  }

  lemma {:induction false} NothingLost(s: State, steps: seq<Step>)
    requires NoFailure(s, steps)
    ensures RunSteps(s, steps).lost == s.lost
  {
    hide Apply, Fails;
    if steps != [] {
      var rest := steps[..|steps| - 1];
      forall k | 0 <= k < |rest| ensures !Fails(RunSteps(s, rest[..k]), rest[k]) {
        assert rest[..k] == steps[..k];
      }
      NothingLost(s, rest);
      LostOnlyByFailure(RunSteps(s, rest), steps[|steps| - 1]);
    }
  }

  /** While every transport run that dispatches also saves, no lease is posted twice. */
  lemma LeaseAtMostOnce(s: State, steps: seq<Step>, lease: nat)
    requires Initial(s) && NoFailure(s, steps)
    ensures var u := RunSteps(s, steps); Times(u.log, false, lease) <= Posted(u, lease) <= 1
  {
    hide RunSteps, NoFailure;
    PostsAndIngests(s, steps, lease);
    NothingLost(s, steps);
  }

  lemma {:induction false} RunConcat(s: State, a: seq<Step>, b: seq<Step>)
    ensures RunSteps(s, a + b) == RunSteps(RunSteps(s, a), b)
  {
    hide Apply;
    if b == [] {
      assert a + b == a;
    } else {
      RunConcat(s, a, b[..|b| - 1]);
      assert (a + b)[..|a + b| - 1] == a + b[..|b| - 1];
    }
  }

  /** A lease that expired, failed, finished or was replaced never comes back, is never posted and never ingested again. */
  lemma RetiredForever(s: State, a: seq<Step>, b: seq<Step>, lease: nat)
    requires Initial(s) && Retired(RunSteps(s, a), lease)
    ensures Retired(RunSteps(s, a + b), lease)
    ensures Posted(RunSteps(s, a + b), lease) == Posted(RunSteps(s, a), lease)
    ensures Times(RunSteps(s, a + b).log, false, lease) == Times(RunSteps(s, a).log, false, lease)
  {
    InitialSafe(s);
    EveryRunSafe(s, a);
    EveryRunSafe(RunSteps(s, a), b);
    RunConcat(s, a, b);
  }

  lemma PollReadsLiveLease(u: State, i: nat, inbox: map<nat, TaskResult>, other: map<nat, TaskResult>, now: int)
    requires i < |u.tasks|
    requires Active(u.tasks[i].status) && u.tasks[i].lease.Some? ==>
               var l := u.tasks[i].lease.value;
               (l in inbox <==> l in other) && (l in inbox ==> inbox[l] == other[l])
    ensures At(Poll(inbox, now), u, i) == At(Poll(other, now), u, i)
  {
    hide IngestRow;
  }

  /** What the inbox holds for a lease that is not live has no effect on a poll. */
  lemma {:induction false} StaleResultsIgnored(s: State, inbox: map<nat, TaskResult>, other: map<nat, TaskResult>, now: int, n: nat)
    requires n <= |s.tasks|
    requires forall l: nat :: Live(s, l) ==> (l in inbox <==> l in other) && (l in inbox ==> inbox[l] == other[l])
    ensures Sweep(Poll(inbox, now), s, n) == Sweep(Poll(other, now), s, n)
  {
    hide At;
    if n > 0 {
      StaleResultsIgnored(s, inbox, other, now, n - 1);
      if Sweep(Poll(inbox, now), s, n - 1).Some? {
        SweepUntouched(Poll(inbox, now), s, n - 1, n - 1);
        PollReadsLiveLease(Sweep(Poll(inbox, now), s, n - 1).value, n - 1, inbox, other, now);
      }
    }
  }

  /**
  In every run a task under verification, or finished and not of level 4, has a verifier-capable
  verifier other than its producer, and a finished one keeps that forever.
  */
  lemma FourEyesAndFinality(s: State, a: seq<Step>, b: seq<Step>, i: nat)
    requires Initial(s) && i < |s.tasks|
    ensures |RunSteps(s, a).tasks| == |s.tasks| == |RunSteps(s, a + b).tasks|
    ensures var u := RunSteps(s, a);
            var t := u.tasks[i];
            && (t.status == Verifying || (t.status == Done && t.def.authority < 4) ==> FourEyes(u.workers, t))
            && (t.status == Done && t.def.authority < 4 ==> RunSteps(s, a + b).tasks[i] == t)
  {
    InitialSafe(s);
    EveryRunSafe(s, a);
    EveryRunSafe(RunSteps(s, a), b);
    RunConcat(s, a, b);
    assert RowOk(RunSteps(s, a), RunSteps(s, a).tasks[i], i);
  }
}
