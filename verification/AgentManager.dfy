/** The manager, transport and runner loops over one table, proved against the passes of AgentModel. */
module AgentManager {
  import opened Prelude
  import opened AgentModel
  import opened AgentSafety
  import opened AgentCapacity
  import opened AgentScheduling

  /** One more working row for worker `w`. */
  lemma LoadAfterGrant(ts: seq<Task>, ws: seq<Worker>, i: nat, u: Task, w: Worker)
    requires i < |ts| && w in ws && !Active(ts[i].status) && Active(u.status) && u.worker == Some(w.id)
    ensures w.id in LoadMap(ts, ws, None)
    ensures LoadMap(ts[i := u], ws, None) == LoadMap(ts, ws, None)[w.id := LoadMap(ts, ws, None)[w.id] + 1]
  {
    hide Tally;
    forall v | v in ws { TallyUpdate(ts, i, u, SelWorker(v.id)); }
  }

  lemma LoadAfterIdleChange(ts: seq<Task>, ws: seq<Worker>, i: nat, u: Task)
    requires i < |ts| && !Active(ts[i].status) && !Active(u.status)
    ensures LoadMap(ts[i := u], ws, None) == LoadMap(ts, ws, None)
  {
    hide Tally;
    forall v | v in ws { TallyUpdate(ts, i, u, SelWorker(v.id)); }
  }

  /** Once the limit is reached the rest of the assignment pass does nothing. */
  lemma {:induction false} LimitStopsAssign(p: Pass, s: State, k: nat, n: nat)
    requires p.Assign? && Fits(p, |s.tasks|) && k <= n <= |p.order|
    requires Sweep(p, s, k).Some? && Tally(Sweep(p, s, k).value.tasks, SelActive) >= s.maxParallel
    ensures Sweep(p, s, n) == Sweep(p, s, k)
  {
    hide Tally, Best, LoadMap;
    if k < n { LimitStopsAssign(p, s, k, n - 1); }
  }

  lemma OtherRowsNotRouted(s: State, i: nat, now: int)
    requires i < |s.tasks| && s.tasks[i].status != Triage
    ensures TriageRow(s, i, now) == s
  {
  }

  /** The sorted list of ready rows is an order the assignment pass can run over. */
  lemma RankedIsProper(s: State, now: int)
    ensures Proper(Assign(now, Ranked(s.tasks, |s.tasks|)), s)
  {
    RankedProper(s.tasks, |s.tasks|);
  }

  /** The load with one row counted for its worker. */
  function Counted(load: map<nat, nat>, t: Task): map<nat, nat> {
    if Active(t.status) && t.worker.Some? && t.worker.value in load
    then load[t.worker.value := load[t.worker.value] + 1] else load
  }

  /** The load over one more row, unless it is the row that is left out. */
  lemma LoadOfOneMore(ts: seq<Task>, t: Task, ws: seq<Worker>, except: Option<nat>)
    ensures var a, b := LoadMap(ts, ws, except), LoadMap(ts + [t], ws, except);
            b == if except == Some(|ts|) then a else Counted(a, t)
  {
    hide Tally;
    var rows := RowsBut(ts, except);
    RowsOfOneMore(ts, t, except);
    forall w | w in ws ensures Tally(rows + [t], SelWorker(w.id)) == Tally(rows, SelWorker(w.id)) + One(Hit(SelWorker(w.id), t)) {
      TallyAppend(rows, t, SelWorker(w.id));
    }
  }

  lemma RowsOfOneMore(ts: seq<Task>, t: Task, except: Option<nat>)
    ensures RowsBut(ts + [t], except) == if except == Some(|ts|) then RowsBut(ts, except) else RowsBut(ts, except) + [t]
  {
  }

  lemma TallyAppend(ts: seq<Task>, t: Task, sel: Sel)
    ensures Tally(ts + [t], sel) == Tally(ts, sel) + One(Hit(sel, t))
  {
    assert (ts + [t])[..|ts|] == ts;
  }

  lemma AssignNext(p: Pass, s: State, k: nat)
    requires p.Assign? && Fits(p, |s.tasks|) && Proper(p, s) && k < |p.order| && Sweep(p, s, k).Some?
    ensures Sweep(p, s, k).value.tasks[p.order[k]].status == Ready
    ensures Sweep(p, s, k + 1) == Some(AssignRow(Sweep(p, s, k).value, p.order[k], p.now))
  {
    hide AssignRow;
    SweepNext(p, s, k);
    AtAssign(p, Sweep(p, s, k).value, p.order[k]);
  }

  lemma LoadOfNone(ws: seq<Worker>, except: Option<nat>)
    ensures LoadMap([], ws, except) == map w | w in ws :: w.id := 0
  {
  }

  /** The active load of each configured worker, leaving out row `except`. */
  method ActiveWorkerLoad(ts: seq<Task>, ws: seq<Worker>, except: Option<nat>) returns (load: map<nat, nat>)
    ensures load == LoadMap(ts, ws, except)
  {
    load := map w | w in ws :: w.id := 0;
    LoadOfNone(ws, except);
    ghost var counted := [];
    for i := 0 to |ts|
      invariant counted == ts[..i] && load == LoadMap(counted, ws, except)
    {
      hide LoadMap, Counted;
      LoadOfOneMore(counted, ts[i], ws, except);
      counted := counted + [ts[i]];
      if except != Some(i) {
        load := Counted(load, ts[i]);
      }
    }
    assert counted == ts;
  }

  method CountActive(ts: seq<Task>) returns (n: nat)
    ensures n == Tally(ts, SelActive)
  {
    n := 0;
    for i := 0 to |ts|
      invariant n == Tally(ts[..i], SelActive)
    {
      assert ts[..i + 1][..i] == ts[..i];
      if Active(ts[i].status) { n := n + 1; }
    }
    assert ts[..|ts|] == ts;
  }

  class AgentManager {
    var tasks: seq<Task>
    var workers: seq<Worker>
    var nextLease: nat
    var log: seq<Event>
    var lost: seq<Event>
    var lane: Lane
    const maxParallel: nat
    const couriers: set<nat>

    constructor (tasks: seq<Task>, workers: seq<Worker>, maxParallel: nat, couriers: set<nat>, lane: Lane)
      ensures Snapshot() == State(tasks, workers, maxParallel, couriers, 0, [], [], lane)
    {
      this.tasks, this.workers, this.nextLease, this.log, this.lost := tasks, workers, 0, [], [];
      this.maxParallel, this.couriers, this.lane := maxParallel, couriers, lane;
    }

    function Snapshot(): State
      reads this
    {
      State(tasks, workers, maxParallel, couriers, nextLease, log, lost, lane)
    }

    method EnforceOwnerBoundaries()
      modifies this
      ensures Run(Enforce, old(Snapshot())) == Some(Snapshot())
    {
      for i := 0 to |tasks|
        invariant |tasks| == |old(tasks)| && Sweep(Enforce, old(Snapshot()), i) == Some(Snapshot())
      {
        var t := tasks[i];
        assert tasks[i := t] == tasks;
        if t.def.authority >= 4 && t.status != Quarantined {
          tasks := tasks[i := t.(status := OwnerRequired, reason := L4Owner, worker := None, lease := None,
                                 heartbeat := None, expiry := None)];
        }
      }
    }

    method ExpireStaleLeases(now: int)
      modifies this
      ensures Run(Expire(now), old(Snapshot())) == Some(Snapshot())
    {
      for i := 0 to |tasks|
        invariant |tasks| == |old(tasks)| && Sweep(Expire(now), old(Snapshot()), i) == Some(Snapshot())
      {
        var t := tasks[i];
        assert tasks[i := t] == tasks;
        if Active(t.status) {
          var stale := t.expiry.Some? && t.expiry.value <= now;
          if t.heartbeat.Some? && t.heartbeat.value + LEASE_SECONDS <= now {
            stale := true;
          }
          if stale {
            tasks := tasks[i := t.(status := Triage, worker := None, expiry := None, heartbeat := None)];
          }
        }
      }
    }

    /** Routing keeps a running load per worker instead of counting the table again for every row. */
    method RouteTriage(now: int)
      modifies this
      ensures Run(Pass.RouteTriage(now), old(Snapshot())) == Some(Snapshot())
    {
      var load := ActiveWorkerLoad(tasks, workers, None);
      for i := 0 to |tasks|
        invariant |tasks| == |old(tasks)| && Sweep(Pass.RouteTriage(now), old(Snapshot()), i) == Some(Snapshot())
        invariant load == LoadMap(tasks, workers, None)
      {
        hide LoadMap, TriageRow, Tally;
        if tasks[i].status == Triage {
          load := RouteTask(i, now, load);
        } else {
          OtherRowsNotRouted(Snapshot(), i, now);
        }
      }
    }

    /** Returns the load after the row has been routed. */
    method RouteTask(i: nat, now: int, load: map<nat, nat>) returns (after: map<nat, nat>)
      requires i < |tasks| && tasks[i].status == Triage && load == LoadMap(tasks, workers, None)
      modifies this
      ensures Snapshot() == TriageRow(old(Snapshot()), i, now) && after == LoadMap(tasks, workers, None)
      ensures |tasks| == |old(tasks)|
    {
      hide LoadMap, Tally, Analyst;
      var t := tasks[i];
      var u := t;
      after := load;
      if t.def.authority >= 4 {
        u := t.(status := OwnerRequired, reason := L4Owner, worker := None);
      } else if t.failure == Transient && t.retries < 1 {
        u := t.(retries := t.retries + 1, status := Ready);
      } else if t.def.kind == Research {
        u := t.(status := Blocked, reason := RcaReview, mode := RootCause, worker := None, lease := None,
                heartbeat := None, expiry := None, dispatch := None);
      } else {
        var analyst := Analyst(t, workers, load);
        if analyst.None? {
          u := t.(status := Blocked, reason := NoAnalyst);
        } else {
          var w := analyst.value;
          u := Grant(t, Running, w.id, nextLease, now).(mode := RootCause);
          LoadAfterGrant(tasks, workers, i, u, w);
          after := load[w.id := load[w.id] + 1];
          nextLease := nextLease + 1;
        }
      }
      if !Active(u.status) { LoadAfterIdleChange(tasks, workers, i, u); }
      tasks := tasks[i := u];
    }

    method ReleaseReadyTasks()
      modifies this
      ensures Run(Release, old(Snapshot())) == Some(Snapshot())
    {
      for i := 0 to |tasks|
        invariant |tasks| == |old(tasks)| && Sweep(Release, old(Snapshot()), i) == Some(Snapshot())
      {
        var t := tasks[i];
        assert tasks[i := t] == tasks;
        if t.status == Pending && DependenciesDone(tasks, t.def.deps) {
          tasks := tasks[i := t.(status := Ready)];
        }
      }
    }

    method AssignReadyTasks(now: int)
      modifies this
      ensures Run(Assign(now, Ranked(old(tasks), |old(tasks)|)), old(Snapshot())) == Some(Snapshot())
    {
      RankedIsProper(Snapshot(), now);
      OfferInOrder(now, Ranked(tasks, |tasks|));
    }

    /** Assignment keeps a running count and a running load, and stops at the limit. */
    method OfferInOrder(now: int, ranked: seq<nat>)
      requires Fits(Assign(now, ranked), |tasks|) && Proper(Assign(now, ranked), Snapshot())
      modifies this
      ensures Run(Assign(now, ranked), old(Snapshot())) == Some(Snapshot())
    {
      ghost var p, s := Assign(now, ranked), Snapshot();
      var load := ActiveWorkerLoad(tasks, workers, None);
      var activeCount: nat := CountActive(tasks);
      OfferedStart(p, load, activeCount);
      hide Proper, Fits, LoadMap, Tally, Sweep, Offered;
      var k: nat := 0;
      while k < |ranked| && activeCount < maxParallel
        invariant k <= |ranked| && Offered(p, s, k, load, activeCount)
      {
        load, activeCount := OfferNext(s, ranked, k, now, load, activeCount);
        k := k + 1;
      }
      OfferedEnd(p, s, k, load, activeCount);
    }

    /** The offer of one row of the order; `s` is the table that the pass started from. */
    method OfferNext(ghost s: State, ranked: seq<nat>, k: nat, now: int, load: map<nat, nat>, activeCount: nat)
      returns (after: map<nat, nat>, count: nat)
      requires Fits(Assign(now, ranked), |s.tasks|) && Proper(Assign(now, ranked), s) && k < |ranked|
      requires Offered(Assign(now, ranked), s, k, load, activeCount) && activeCount < maxParallel
      modifies this
      ensures Offered(Assign(now, ranked), s, k + 1, after, count)
    {
      hide Proper, AssignRow, LoadMap, Tally, Sweep, Offered;
      OfferedReady(Assign(now, ranked), s, k, load, activeCount);
      after, count := OfferTask(ranked[k], now, load, activeCount);
      OfferedNow(Assign(now, ranked), s, k + 1, after, count);
    }

    /** After `k` offers of a pass from `s`: the table, and the counters kept beside it. */
    ghost predicate Offered(p: Pass, s: State, k: nat, load: map<nat, nat>, activeCount: nat)
      reads this
      requires Fits(p, |s.tasks|) && k <= Width(p, |s.tasks|)
    {
      && Sweep(p, s, k) == Some(Snapshot())
      && load == LoadMap(tasks, workers, None) && activeCount == Tally(tasks, SelActive)
    }

    lemma OfferedStart(p: Pass, load: map<nat, nat>, activeCount: nat)
      requires Fits(p, |tasks|) && load == LoadMap(tasks, workers, None) && activeCount == Tally(tasks, SelActive)
      ensures Offered(p, Snapshot(), 0, load, activeCount)
    {
    }

    lemma OfferedNow(p: Pass, s: State, k: nat, load: map<nat, nat>, activeCount: nat)
      requires Fits(p, |s.tasks|) && k <= Width(p, |s.tasks|) && Sweep(p, s, k) == Some(Snapshot())
      requires load == LoadMap(tasks, workers, None) && activeCount == Tally(tasks, SelActive)
      ensures Offered(p, s, k, load, activeCount)
    {
    }

    /** The pass is over when every row has been offered or the limit is reached. */
    lemma OfferedEnd(p: Pass, s: State, k: nat, load: map<nat, nat>, activeCount: nat)
      requires p.Assign? && Fits(p, |s.tasks|) && k <= |p.order| && Offered(p, s, k, load, activeCount)
      requires k == |p.order| || activeCount >= s.maxParallel
      requires s.maxParallel == maxParallel
      ensures Run(p, s) == Some(Snapshot())
    {
      if k < |p.order| { LimitStopsAssign(p, s, k, |p.order|); }
    }

    lemma OfferedReady(p: Pass, s: State, k: nat, load: map<nat, nat>, activeCount: nat)
      requires p.Assign? && Fits(p, |s.tasks|) && Proper(p, s) && k < |p.order| && Offered(p, s, k, load, activeCount)
      ensures |tasks| == |s.tasks| && tasks[p.order[k]].status == Ready && load == LoadMap(tasks, workers, None)
      ensures Sweep(p, s, k + 1) == Some(AssignRow(Snapshot(), p.order[k], p.now)) && activeCount == Tally(tasks, SelActive)
    {
      hide AssignRow;
      AssignNext(p, s, k);
    }

    /** Returns the load and the number of working rows after the offer. */
    method OfferTask(i: nat, now: int, load: map<nat, nat>, activeCount: nat) returns (after: map<nat, nat>, count: nat)
      requires i < |tasks| && tasks[i].status == Ready && load == LoadMap(tasks, workers, None)
      requires activeCount == Tally(tasks, SelActive) && activeCount < maxParallel
      modifies this
      ensures Snapshot() == AssignRow(old(Snapshot()), i, now) && after == LoadMap(tasks, workers, None)
      ensures |tasks| == |old(tasks)| && count == Tally(tasks, SelActive)
    {
      hide LoadMap, Tally, Best;
      var t := tasks[i];
      var u := t;
      after, count := load, activeCount;
      if t.def.authority >= 4 {
        u := t.(status := OwnerRequired, reason := L4Owner);
      } else if t.def.kind == QaOnly && !t.def.qaDispatchEnabled {
        u := t.(reason := QaDisabled);
      } else {
        var selected := Best(t, workers, t.def.kind == QaOnly, load, DesignatedProducer(t.def.kind));
        if selected.Some? {
          var w := selected.value;
          if t.def.kind == QaOnly {
            u := Grant(t, Verifying, w.id, nextLease, now).(producer := None, verifier := Some(w.id));
          } else {
            u := Grant(t, Leased, w.id, nextLease, now).(producer := Some(w.id));
          }
          u := u.(attempt := t.attempt + 1);
          LoadAfterGrant(tasks, workers, i, u, w);
          after := load[w.id := load[w.id] + 1];
          nextLease := nextLease + 1;
          count := activeCount + 1;
        }
      }
      if !Active(u.status) { LoadAfterIdleChange(tasks, workers, i, u); }
      TallyUpdate(tasks, i, u, SelActive);
      assert tasks[i := t] == tasks;
      tasks := tasks[i := u];
    }

    /** One whole manager cycle. */
    method RunCycle(now: int)
      modifies this
      ensures Snapshot() == Apply(old(Snapshot()), StepCycle(now))
    {
      hide Sweep;
      EnforceOwnerBoundaries();
      ExpireStaleLeases(now);
      RouteTriage(now);
      ReleaseReadyTasks();
      AssignReadyTasks(now);
    }

    /** False stands for a raised error; the table in memory is then lost. */
    method RequestVerification(i: nat, now: int) returns (ok: bool)
      requires i < |tasks|
      modifies this
      ensures VerifyRow(old(Snapshot()), i, now) == if ok then Some(Snapshot()) else None
      ensures |tasks| == |old(tasks)| && workers == old(workers) && lost == old(lost) && lane == old(lane)
    {
      var t := tasks[i];
      if t.def.kind == QaOnly {
        return false;
      }
      if t.def.authority >= 4 {
        tasks := tasks[i := t.(status := OwnerRequired, reason := L4Owner, worker := None)];
        return true;
      }
      var load := ActiveWorkerLoad(tasks, workers, Some(i));
      hide LoadMap, Best;
      var verifier := Best(t, workers, true, load, DesignatedVerifier(t.def.kind));
      if verifier.None? {
        tasks := tasks[i := t.(status := Blocked, reason := NoVerifier)];
      } else {
        tasks := tasks[i := Grant(t, Verifying, verifier.value.id, nextLease, now).(verifier := Some(verifier.value.id))];
        nextLease := nextLease + 1;
      }
      return true;
    }

    method RecordResult(i: nat, r: TaskResult, now: int) returns (ok: bool)
      requires i < |tasks|
      modifies this
      ensures RecordRow(old(Snapshot()), i, r, now) == if ok then Some(Snapshot()) else None
      ensures |tasks| == |old(tasks)| && workers == old(workers) && lost == old(lost) && lane == old(lane) && (ok ==> log == old(log))
    {
      hide VerifyRow, ReceiptAccepted;
      var t := tasks[i];
      if t.def.authority >= 4 || t.worker != Some(r.worker) || r.outcome == Unrecognised {
        return false;
      }
      if r.outcome == Failure {
        if t.def.kind in {EconReview, Development, QaOnly} {
          tasks := tasks[i := t.(status := Blocked, failure := r.failure, failureEvidence := Some(r.evidence), reason := ReviewedCorrection,
                                 worker := None, heartbeat := None, expiry := None)];
        } else {
          tasks := tasks[i := t.(failure := r.failure, failureEvidence := Some(r.evidence), status := Triage)];
        }
        return true;
      }
      if !ReceiptAccepted(t, r) {
        return false;
      }
      if t.status == Verifying {
        tasks := tasks[i := t.(status := Done)];
        return true;
      }
      tasks := tasks[i := t.(evidence := Some(r.evidence))];
      VerifyKeepsLog(Snapshot(), i, now);
      ok := RequestVerification(i, now);
    }

    method IngestResult(i: nat, r: TaskResult, now: int) returns (ok: bool)
      requires i < |tasks|
      modifies this
      ensures IngestRow(old(Snapshot()), i, r, now) == if ok then Some(Snapshot()) else None
      ensures |tasks| == |old(tasks)| && workers == old(workers) && lost == old(lost) && lane == old(lane)
    {
      hide RecordRow, Preserved;
      if !Binds(tasks[i], i, r) {
        return false;
      }
      if Preserved(tasks[i], r) {
        tasks := tasks[i := tasks[i].(status := Triage)];
        ok := true;
      } else {
        ok := RecordResult(i, r, now);
      }
      if ok {
        log := log + [Ingested(i, r.lease, r.worker)];
      }
    }

    method PollResults(inbox: map<nat, TaskResult>, now: int) returns (ok: bool)
      modifies this
      ensures Run(Poll(inbox, now), old(Snapshot())) == if ok then Some(Snapshot()) else None
      ensures workers == old(workers) && lost == old(lost) && lane == old(lane)
    {
      ghost var s, p := Snapshot(), Poll(inbox, now);
      ok := true;
      for i := 0 to |tasks|
        invariant |tasks| == |s.tasks| && Sweep(p, s, i) == Some(Snapshot())
        invariant workers == s.workers && lost == s.lost && lane == s.lane
      {
        hide IngestRow;
        if Pollable(Snapshot(), i) && tasks[i].lease.value in inbox {
          ok := IngestResult(i, inbox[tasks[i].lease.value], now);
          if !ok {
            RaiseEndsPass(p, s, i + 1, |s.tasks|);
            return;
          }
        }
      }
    }

    /** A raised error comes before the post, and changes nothing. */
    method DispatchTask(i: nat, now: int) returns (ok: bool)
      requires i < |tasks| && Dispatchable(Snapshot(), i)
      modifies this
      ensures PostRow(old(Snapshot()), i, now) == if ok then Some(Snapshot()) else None
      ensures |tasks| == |old(tasks)| && (!ok ==> Snapshot() == old(Snapshot()))
    {
      hide EnvelopeOk;
      var t := tasks[i];
      if !EnvelopeOk(t) {
        return false;
      }
      log := log + [Dispatched(i, t.lease.value)];
      var u := t;
      if t.status == Leased {
        u := t.(status := Running);
      }
      tasks := tasks[i := u.(dispatch := Some(DispatchIdFor(t, i)), heartbeat := Some(now), expiry := Some(now + LEASE_SECONDS))];
      return true;
    }

    /** The dispatch loop over the first `n` rows; on an error the posts already made stay in the log. */
    method DispatchPending(now: int, n: nat) returns (ok: bool)
      requires n <= |tasks|
      modifies this
      ensures Sweep(Dispatch(now), old(Snapshot()), n) == if ok then Some(Snapshot()) else None
      ensures Snapshot() == Got(old(Snapshot()), now, n)
    {
      hide PostRow, Drifted, NamesCommits, ResearchQa, Dispatchable, Got;
      ghost var s, p := Snapshot(), Dispatch(now);
      ok := true;
      for i := 0 to n
        invariant |tasks| == |s.tasks| && Sweep(p, s, i) == Some(Snapshot())
      {
        if Dispatchable(Snapshot(), i) {
          var t := tasks[i];
          if ResearchQa(t) && !NamesCommits(lane, t) {
            ok := false;
          } else if Drifted(lane, t) {
            tasks := tasks[i := t.(status := Blocked, reason := EpochDrift)];
          } else if t.def.kind == QaOnly && !lane.trusted {
            ok := false;
          } else {
            ok := DispatchTask(i, now);
          }
          if !ok {
            RaiseEndsPass(p, s, i + 1, n);
            GotStays(s, now, i, n);
            return;
          }
        }
      }
      GotAll(s, now, n);
    }

    /** One run of the transport over the saved table, killed after `dies` rows of its dispatch loop if at all. */
    method RunTransport(mode: Mode, inbox: map<nat, TaskResult>, now: int, dies: Option<nat>)
      modifies this
      ensures Snapshot() == Apply(old(Snapshot()), StepTransport(mode, inbox, now, dies))
    {
      hide Sweep, Got;
      var savedTasks, savedLease, savedLog := tasks, nextLease, log;
      EnforceOwnerBoundaries();
      if mode != DispatchOnly {
        var polled := PollResults(inbox, now);
        if !polled {
          tasks, nextLease, log := savedTasks, savedLease, savedLog;
          return;
        }
      }
      if mode != PollOnly {
        var before := log;
        var n := Reach(dies, |tasks|);
        var dispatched := DispatchPending(now, n);
        if dies.Some? || !dispatched {
          lost := lost + if |before| <= |log| then log[|before|..] else [];
          tasks, log := savedTasks, savedLog;
          nextLease := if savedLease < nextLease then nextLease else savedLease;
        }
      }
    }

    method RecoverCompletedRootCauseAnalysis()
      modifies this
      ensures Run(RecoverRca, old(Snapshot())) == Some(Snapshot())
    {
      for i := 0 to |tasks|
        invariant |tasks| == |old(tasks)| && Sweep(RecoverRca, old(Snapshot()), i) == Some(Snapshot())
      {
        var t := tasks[i];
        assert tasks[i := t] == tasks;
        if t.mode == RootCause && t.status in {Verifying, Blocked} && t.evidence.Some? {
          if !(t.def.kind == Research && t.evidence.value.numericReceipt) {
            tasks := tasks[i := t.(status := Ready, worker := None, verifier := None, lease := None, heartbeat := None,
                                   expiry := None, reason := NotBlocked, mode := NoTriage, evidence := None, dispatch := None)];
          }
        }
      }
    }

    method RecoverBoundedSpecializedReasoning()
      modifies this
      ensures Run(RecoverBounded, old(Snapshot())) == Some(Snapshot())
    {
      for i := 0 to |tasks|
        invariant |tasks| == |old(tasks)| && Sweep(RecoverBounded, old(Snapshot()), i) == Some(Snapshot())
      {
        var t := tasks[i];
        assert tasks[i := t] == tasks;
        if t.def.deterministicWorkload && t.failure == SpecializedReasoning && t.status == Blocked && t.reason == NoReasoningRoute {
          tasks := tasks[i := t.(status := Ready, reason := NotBlocked, mode := NoTriage)];
        }
      }
    }

    method BlockUnroutableSpecializedReasoning()
      modifies this
      ensures Run(BlockUnroutable, old(Snapshot())) == Some(Snapshot())
    {
      for i := 0 to |tasks|
        invariant |tasks| == |old(tasks)| && Sweep(BlockUnroutable, old(Snapshot()), i) == Some(Snapshot())
      {
        var t := tasks[i];
        assert tasks[i := t] == tasks;
        if t.failure == SpecializedReasoning && !t.def.deterministicWorkload && t.status in {Triage, Ready, Blocked} {
          if !(t.status == Blocked && t.reason == NoReasoningRoute) {
            tasks := tasks[i := t.(status := Blocked, reason := NoReasoningRoute, mode := FailClosed, worker := None,
                                   verifier := None, lease := None, heartbeat := None, expiry := None, dispatch := None)];
          }
        }
      }
    }
  }

  lemma VerifyKeepsLog(s: State, i: nat, now: int)
    requires i < |s.tasks|
    ensures VerifyRow(s, i, now).Some? ==> VerifyRow(s, i, now).value.log == s.log
  {
    hide Best, LoadMap;
  }

  /** After an iteration that raises there is no result. */
  lemma {:induction false} RaiseEndsPass(p: Pass, s: State, k: nat, n: nat)
    requires Fits(p, |s.tasks|) && k <= n <= Width(p, |s.tasks|) && Sweep(p, s, k).None?
    ensures Sweep(p, s, n).None?
  {
    hide At;
    if k < n { RaiseEndsPass(p, s, k, n - 1); }
  }

  lemma GotAll(s: State, now: int, n: nat)
    requires n <= |s.tasks| && Sweep(Dispatch(now), s, n).Some?
    ensures Got(s, now, n) == Sweep(Dispatch(now), s, n).value
  {
    hide At;
  }

  /** A dispatch loop that raised in row `k` got no further. */
  lemma {:induction false} GotStays(s: State, now: int, k: nat, n: nat)
    requires k < n <= |s.tasks| && Sweep(Dispatch(now), s, k).Some? && Sweep(Dispatch(now), s, k + 1).None?
    ensures Got(s, now, n) == Sweep(Dispatch(now), s, k).value
  {
    hide At;
    RaiseEndsPass(Dispatch(now), s, k + 1, n);
    if k + 1 < n { GotStays(s, now, k, n - 1); }
  }
}
