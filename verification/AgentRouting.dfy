/** What triage does to a row, the one direct retry over every run, and where a retried task goes. */
module AgentRouting {
  import opened Prelude
  import opened AgentModel
  import opened AgentSafety
  import opened AgentCapacity
  import opened AgentScheduling
  import opened AgentDispatch

  // ---------------------------------------------------------------- one row of the routing pass

  /** A failure that is worth one direct retry. */
  predicate Retriable(t: Task) { t.failure == Transient && t.retries == 0 && t.def.authority < 4 }

  /** An analyst who is free for the task: enabled, cleared, able, not its producer, and below capacity. */
  predicate FreeAnalyst(ts: seq<Task>, t: Task, w: Worker) {
    && w.enabled && t.def.authority <= w.authorityMax && "root_cause_analysis" in w.capabilities && "diagnostics" in w.capabilities
    && t.producer != Some(w.id) && Tally(ts, SelWorker(w.id)) < w.capacity
  }

  /** What routing makes of a triaged row in a table `ts` that gets the lease `lease`. */
  ghost predicate Routed(ts: seq<Task>, ws: seq<Worker>, lease: nat, t: Task, u: Task, now: int) {
    if t.def.authority >= 4 then
      u.status == OwnerRequired && u.worker.None? && u.retries == t.retries && u.lease == t.lease
    else if Retriable(t) then
      u == t.(status := Ready, retries := 1)
    else if t.def.kind == Research then
      && u.status == Blocked && u.reason == RcaReview && u.mode == RootCause && u.retries == t.retries
      && u.worker.None? && u.lease.None? && u.dispatch.None? && u.heartbeat.None? && u.expiry.None? && u.producer == t.producer
    else if exists w :: w in ws && FreeAnalyst(ts, t, w) then
      && u.status == Running && u.mode == RootCause && u.retries == t.retries && u.producer == t.producer && u.attempt == t.attempt
      && u.lease == Some(lease) && u.heartbeat == Some(now) && u.expiry == Some(now + 300) && u.failure == t.failure
      && u.worker.Some? && (exists w :: w in ws && FreeAnalyst(ts, t, w) && u.worker == Some(w.id))
      && forall w :: w in ws && FreeAnalyst(ts, t, w) ==> u.worker.value <= w.id
    else
      u == t.(status := Blocked, reason := NoAnalyst)
  }

  lemma FreeIsAnalyst(ts: seq<Task>, t: Task, ws: seq<Worker>)
    ensures forall w :: w in ws ==> (CanAnalyse(t, w, LoadMap(ts, ws, None)) <==> FreeAnalyst(ts, t, w))
  {
    hide LoadMap, Tally;
    forall w | w in ws ensures CanAnalyse(t, w, LoadMap(ts, ws, None)) <==> FreeAnalyst(ts, t, w) {
      LoadIsTally(ts, ws, None, w);
    }
  }

  /** Routing of one triaged row, with the load and the retry written out. */
  lemma RowRouted(s: State, i: nat, now: int)
    requires i < |s.tasks| && s.tasks[i].status == Triage
    ensures Routed(s.tasks, s.workers, s.nextLease, s.tasks[i], TriageRow(s, i, now).tasks[i], now)
    ensures TriageRow(s, i, now).nextLease == s.nextLease + (if TriageRow(s, i, now).tasks[i].status == Running then 1 else 0)
  {
    FreeIsAnalyst(s.tasks, s.tasks[i], s.workers);
    hide LoadMap, Tally, FreeAnalyst, CanAnalyse;
  }

  /** The whole routing pass: every triaged row is routed in the table as it then is, and no other row changes. */
  lemma RoutingPass(s: State, now: int, i: nat)
    requires i < |s.tasks|
    ensures Run(RouteTriage(now), s).Some? && |Run(RouteTriage(now), s).value.tasks| == |s.tasks|
    ensures var u, at := Run(RouteTriage(now), s).value.tasks[i], AtRow(s, now, i);
            && |at.tasks| == |s.tasks| && at.tasks[i] == s.tasks[i] && at.workers == s.workers
            && if s.tasks[i].status == Triage then Routed(at.tasks, s.workers, at.nextLease, s.tasks[i], u, now) else u == s.tasks[i]
  {
    RowOfRun(RouteTriage(now), s, i);
    var at := AtRow(s, now, i);
    if s.tasks[i].status == Triage { RowRouted(at, i, now); } else { OtherRowStays(at, i, now); }
    hide Sweep, Routed, TriageRow;
  }

  // ---------------------------------------------------------------- what an offer makes of a ready row

  /** Ready and unchanged but for a noted reason, or granted to the producer or the verifier. */
  predicate OfferedRow(t: Task, u: Task, now: int) {
    || u == t.(reason := u.reason)
    || (t.def.authority >= 4 && u.status == OwnerRequired && u == t.(status := u.status, reason := u.reason))
    || (&& t.def.authority < 4 && u.attempt == t.attempt + 1 && u.mode == t.mode && u.retries == t.retries && u.failure == t.failure
        && u.worker.Some? && u.lease.Some? && u.heartbeat == Some(now) && u.expiry == Some(now + 300) && u.evidence == t.evidence
        && if t.def.kind == QaOnly then u.status == Verifying && u.producer.None? && u.verifier == u.worker
           else u.status == Leased && u.producer == u.worker && u.verifier == t.verifier)
  }

  lemma OfferOfRow(s: State, i: nat, now: int)
    requires i < |s.tasks|
    ensures OfferedRow(s.tasks[i], AssignRow(s, i, now).tasks[i], now)
  {
    hide Best, LoadMap, Tally;
  }

  lemma {:induction false} OffersOfRow(p: Pass, s: State, n: nat, i: nat)
    requires p.Assign? && Proper(p, s) && Fits(p, |s.tasks|) && n <= |p.order| && i < |s.tasks|
    ensures Sweep(p, s, n).Some?
    ensures OfferedRow(s.tasks[i], Sweep(p, s, n).value.tasks[i], p.now)
  {
    hide OfferedRow, AssignRow, NoDuplicates, At;
    NotOffered(s.tasks[i], p.now);
    if n > 0 {
      OffersOfRow(p, s, n - 1, i);
      var u := Sweep(p, s, n - 1).value;
      SweepNext(p, s, n - 1);
      AtAssign(p, u, p.order[n - 1]);
      AtKeepsShape(p, u, p.order[n - 1]);
      if p.order[n - 1] == i { OfferOfRow(u, i, p.now); }
    }
  }

  lemma NotOffered(t: Task, now: int)
    ensures OfferedRow(t, t, now)
  {
  }

  // ---------------------------------------------------------------- one cycle

  /** In this cycle the row is in triage, or gets there because its lease is stale. */
  predicate TriagedNow(t: Task, now: int) {
    || t.status == Triage
    || (Active(t.status) && ((t.expiry.Some? && t.expiry.value <= now) || (t.heartbeat.Some? && t.heartbeat.value + 300 <= now)))
  }

  lemma ExpiryOfRow(t: Task, now: int)
    requires t.def.authority < 4
    ensures EnforceRow(t) == t
    ensures var u := ExpireRow(t, now);
            && (u.status == Triage <==> TriagedNow(t, now))
            && (u != t ==> TriagedNow(t, now) && u == t.(status := Triage, worker := None, expiry := None, heartbeat := None))
  {
  }

  lemma RowBeforeRouting(s: State, now: int, i: nat)
    requires i < |s.tasks| && s.tasks[i].def.authority < 4
    ensures BeforeRouting(s, now).tasks[i] == ExpireRow(s.tasks[i], now)
  {
    hide Sweep, ExpireRow, EnforceRow;
    ExpiryOfRow(s.tasks[i], now);
    RowOfRun(Enforce, s, i);
    RowOfRun(Expire(now), Run(Enforce, s).value, i);
  }

  /** Releasing never touches a row that is not PENDING. */
  lemma ReleaseOfRow(c: State, i: nat)
    requires i < |c.tasks|
    ensures Run(Release, c).Some? && |Run(Release, c).value.tasks| == |c.tasks|
    ensures var u := Run(Release, c).value.tasks[i];
            u == c.tasks[i] || (c.tasks[i].status == Pending && u == c.tasks[i].(status := Ready))
  {
    hide Sweep, DependenciesDone;
    RowOfRun(Release, c, i);
  }

  lemma CycleRow(s: State, now: int, i: nat) returns (c: Task, d: Task)
    requires i < |s.tasks|
    ensures |Cycle(s, now).tasks| == |s.tasks|
    ensures c == Run(RouteTriage(now), BeforeRouting(s, now)).value.tasks[i]
    ensures d == c || (c.status == Pending && d == c.(status := Ready))
    ensures OfferedRow(d, Cycle(s, now).tasks[i], now)
  {
    var b := BeforeRouting(s, now);
    RoutingPass(b, now, i);
    hide Sweep, OfferedRow, BeforeRouting, Routed;
    var v := Run(RouteTriage(now), b).value;
    c := v.tasks[i];
    ReleaseOfRow(v, i);
    var w := Run(Release, v).value;
    d := w.tasks[i];
    RankedProper(w.tasks, |w.tasks|);
    OffersOfRow(Assign(now, Ranked(w.tasks, |w.tasks|)), w, |Ranked(w.tasks, |w.tasks|)|, i);
    CycleIs(s, now);
  }

  /** The row is due for its direct retry in this cycle. */
  predicate DueNow(t: Task, now: int) { Retriable(t) && TriagedNow(t, now) }

  /**
  A first transient failure, whatever the kind and the mode of the task: the cycle uses up its retry,
  keeps its mode, and leaves it leased to its producer, with its verifier if it needs no producer, or
  READY because the limit is reached, nobody eligible is allowed, or its dispatch is not enabled.
  */
  lemma DueRowIsRetried(s: State, now: int, i: nat)
    requires i < |s.tasks| && DueNow(s.tasks[i], now)
    ensures |Cycle(s, now).tasks| == |s.tasks|
    ensures var t, u := s.tasks[i], Cycle(s, now).tasks[i];
            && u.retries == 1 && u.mode == t.mode && u.failure == Transient
            && ( || (t.def.kind != QaOnly && u.status == Leased && u.worker.Some? && u.producer == u.worker && u.attempt == t.attempt + 1)
                 || (t.def.kind == QaOnly && u.status == Verifying && u.worker.Some? && u.verifier == u.worker && u.attempt == t.attempt + 1)
                 || (u.status == Ready && (Leasable(u) ==> Justified(Cycle(s, now), u))))
  {
    var c, d := CycleRow(s, now, i);
    ExpiryOfRow(s.tasks[i], now);
    RowBeforeRouting(s, now, i);
    RoutingPass(BeforeRouting(s, now), now, i);
    hide Cycle, BeforeRouting, Justified, ExpireRow, AtRow;
    if Leasable(Cycle(s, now).tasks[i]) { CycleLeavesNoIdleWork(s, now, i); }
  }

  /** In every other cycle the row keeps its retries. */
  lemma OtherRowKeepsRetries(s: State, now: int, i: nat)
    requires i < |s.tasks| && !DueNow(s.tasks[i], now)
    ensures |Cycle(s, now).tasks| == |s.tasks| && Cycle(s, now).tasks[i].retries == s.tasks[i].retries
  {
    var c, d := CycleRow(s, now, i);
    var b := BeforeRouting(s, now);
    RoutingPass(b, now, i);
    if s.tasks[i].def.authority < 4 {
      ExpiryOfRow(s.tasks[i], now);
      RowBeforeRouting(s, now, i);
    } else {
      OwnerRow(s, now, i);
    }
    hide Cycle, BeforeRouting, ExpireRow, AtRow;
  }

  lemma OwnerRow(s: State, now: int, i: nat)
    requires i < |s.tasks| && s.tasks[i].def.authority >= 4
    ensures var u := BeforeRouting(s, now).tasks[i]; u.def == s.tasks[i].def && u.retries == s.tasks[i].retries
  {
    hide Sweep;
    RowOfRun(Enforce, s, i);
    RowOfRun(Expire(now), Run(Enforce, s).value, i);
  }

  // ---------------------------------------------------------------- over every run

  lemma VerifyKeepsRetries(s: State, i: nat, now: int)
    requires i < |s.tasks| && VerifyRow(s, i, now).Some?
    ensures VerifyRow(s, i, now).value.tasks[i].retries == s.tasks[i].retries
  {
    hide Best, LoadMap;
  }

  lemma AtKeepsRetries(p: Pass, s: State, i: nat)
    requires (p.Enforce? || p.Poll? || p.Dispatch? || p.RecoverRca? || p.RecoverBounded? || p.BlockUnroutable?)
    requires i < |s.tasks| && At(p, s, i).Some?
    ensures |At(p, s, i).value.tasks| == |s.tasks| && At(p, s, i).value.tasks[i].retries == s.tasks[i].retries
  {
    hide VerifyRow, ReceiptAccepted, EnvelopeOk, Preserved, Binds;
    if p.Poll? && Pollable(s, i) && s.tasks[i].lease.value in p.inbox {
      var r := p.inbox[s.tasks[i].lease.value];
      var v := s.(tasks := s.tasks[i := s.tasks[i].(evidence := Some(r.evidence))]);
      if VerifyRow(v, i, p.now).Some? {
        VerifyKeepsRetries(v, i, p.now);
        VerifyKeepsRows(v, i, p.now);
      }
    }
  }

  lemma VerifyKeepsRows(s: State, i: nat, now: int)
    requires i < |s.tasks| && VerifyRow(s, i, now).Some?
    ensures |VerifyRow(s, i, now).value.tasks| == |s.tasks|
  {
    hide Best, LoadMap;
  }

  lemma RunKeepsRetries(p: Pass, s: State, i: nat)
    requires (p.Enforce? || p.Poll? || p.Dispatch? || p.RecoverRca? || p.RecoverBounded? || p.BlockUnroutable?)
    requires i < |s.tasks| && Run(p, s).Some?
    ensures |Run(p, s).value.tasks| == |s.tasks| && Run(p, s).value.tasks[i].retries == s.tasks[i].retries
  {
    hide At;
    RowOfRun(p, s, i);
    AtKeepsRetries(p, Sweep(p, s, i).value, i);
  }

  /** The step is a cycle that finds the row due. */
  predicate Retries(s: State, step: Step, i: nat)
    requires i < |s.tasks|
  {
    step.StepCycle? && DueNow(s.tasks[i], step.now)
  }

  /** A step uses up the retry exactly when it is a cycle that finds the row due for it. */
  lemma StepRetries(s: State, step: Step, i: nat)
    requires i < |s.tasks|
    ensures |Apply(s, step).tasks| == |s.tasks|
    ensures Apply(s, step).tasks[i].retries == s.tasks[i].retries + if Retries(s, step, i) then 1 else 0
  {
    hide Sweep, Cycle, Got, SameTemplate, DueNow, Transport;
    match step
    case StepCycle(now) =>
      if DueNow(s.tasks[i], now) { DueRowIsRetried(s, now, i); DueHasNone(s.tasks[i], now); } else { OtherRowKeepsRetries(s, now, i); }
    case StepTransport(mode, inbox, now, dies) => TransportRetries(s, mode, inbox, now, dies, i);
    case StepRecoverRca => RunKeepsRetries(RecoverRca, s, i);
    case StepRecoverBounded => RunKeepsRetries(RecoverBounded, s, i);
    case StepBlockUnroutable => RunKeepsRetries(BlockUnroutable, s, i);
    case StepObserve(_) =>
    case StepCheckout(_) =>
  }

  lemma DueHasNone(t: Task, now: int)
    requires DueNow(t, now)
    ensures t.retries == 0
  {
  }

  lemma TransportRetries(s: State, mode: Mode, inbox: map<nat, TaskResult>, now: int, dies: Option<nat>, i: nat)
    requires i < |s.tasks|
    ensures var u := Transport(s, mode, inbox, now, dies); |u.tasks| == |s.tasks| && u.tasks[i].retries == s.tasks[i].retries
  {
    hide Sweep, Got;
    var e := Run(Enforce, s).value;
    RunKeepsRetries(Enforce, s, i);
    if mode != DispatchOnly && Run(Poll(inbox, now), e).Some? { RunKeepsRetries(Poll(inbox, now), e, i); }
    if Polled(s, mode, inbox, now).Some? {
      var u := Polled(s, mode, inbox, now).value;
      if Run(Dispatch(now), u).Some? { RunKeepsRetries(Dispatch(now), u, i); }
    }
  }

  /** How many cycles of the run found the row due. */
  function RetriesIn(s: State, steps: seq<Step>, i: nat): nat {
    if steps == [] then 0 else
    var rest := steps[..|steps| - 1];
    var u := RunSteps(s, rest);
    RetriesIn(s, rest, i) + if i < |u.tasks| && Retries(u, steps[|steps| - 1], i) then 1 else 0
  }

  /** Over every run a task's retries are those cycles and no more; from a table without retries there is at most one. */
  lemma {:induction false} RetriesAreCounted(s: State, steps: seq<Step>, i: nat)
    requires i < |s.tasks|
    ensures var u := RunSteps(s, steps);
            && |u.tasks| == |s.tasks| && u.tasks[i].retries == s.tasks[i].retries + RetriesIn(s, steps, i)
            && RetriesIn(s, steps, i) <= 1 && (s.tasks[i].retries > 0 ==> RetriesIn(s, steps, i) == 0)
  {
    hide Apply, DueNow;
    if steps != [] {
      var rest, step := steps[..|steps| - 1], steps[|steps| - 1];
      RetriesAreCounted(s, rest, i);
      var u := RunSteps(s, rest);
      StepRetries(u, step, i);
      if Retries(u, step, i) { DueHasNone(u.tasks[i], step.now); }
    }
  }
}
