/** A retry that keeps the triage mode, and the producer's success that the runner then takes for an analysis. */
module AgentRetry {
  import opened Prelude
  import opened AgentModel
  import opened AgentSafety
  import opened AgentDispatch

  // ---------------------------------------------------------------- one row

  /**
  A success that is not yet verified is dropped by the runner, and the task sent round again, exactly
  when the triage mode is set and the evidence is not the numeric receipt of a Research task.
  */
  lemma SuccessIsDiscardedIffModeIsLeftOver(s: State, i: nat, r: TaskResult, now: int)
    requires i < |s.tasks| && s.tasks[i].status in {Leased, Running} && r.outcome == Success
    requires RecordRow(s, i, r, now).Some?
    ensures var t := RecordRow(s, i, r, now).value.tasks[i];
            && t.status in {Verifying, Blocked} && t.evidence == Some(r.evidence)
            && (RecoverRcaRow(t) != t <==> s.tasks[i].mode == RootCause && !(t.def.kind == Research && r.evidence.numericReceipt))
            && (RecoverRcaRow(t) != t ==> RecoverRcaRow(t).status == Ready && RecoverRcaRow(t).evidence.None?)
  {
    hide Best, LoadMap, ReceiptAccepted;
  }

  /** The retried task, ready or back with a producer, but still in the triage mode. */
  predicate Retrying(t: Task) {
    && t.def.authority < 4 && t.def.kind != QaOnly
    && t.mode == RootCause && t.failure == Transient && t.retries >= 1
    && t.status in {Ready, Leased, Running} && (t.status != Ready ==> t.worker == t.producer)
  }

  /** An analysis that is due for its one direct retry. */
  predicate DueForRetry(t: Task) {
    && t.def.authority < 4 && t.def.kind != QaOnly && t.status == Triage
    && t.mode == RootCause && t.failure == Transient && t.retries < 1
  }

  lemma TriageRetries(v: State, i: nat, now: int)
    requires i < |v.tasks| && DueForRetry(v.tasks[i])
    ensures Retrying(TriageRow(v, i, now).tasks[i])
  {
    hide Analyst, LoadMap;
  }

  lemma RestingStays(v: State, i: nat, now: int)
    requires i < |v.tasks| && Retrying(v.tasks[i])
    ensures TriageRow(v, i, now) == v && ReleaseRow(v.tasks, v.tasks[i]) == v.tasks[i]
    ensures EnforceRow(v.tasks[i]) == RecoverRcaRow(v.tasks[i]) == RecoverBoundedRow(v.tasks[i]) == v.tasks[i]
    ensures BlockUnroutableRow(v.tasks[i]) == v.tasks[i]
  {
    hide DependenciesDone;
  }

  lemma AssignedRetries(v: State, i: nat, now: int)
    requires i < |v.tasks| && Retrying(v.tasks[i])
    ensures Retrying(AssignRow(v, i, now).tasks[i])
  {
    hide Best, LoadMap, Tally;
  }

  // ---------------------------------------------------------------- one cycle

  lemma {:induction false} AssignmentRetries(s: State, p: Pass, i: nat, n: nat)
    requires p.Assign? && Fits(p, |s.tasks|) && n <= |p.order| && i < |s.tasks| && Retrying(s.tasks[i])
    ensures Retrying(Sweep(p, s, n).value.tasks[i])
  {
    hide Retrying, AssignRow;
    if n > 0 {
      AssignmentRetries(s, p, i, n - 1);
      var u := Sweep(p, s, n - 1).value;
      AtKeepsShape(p, u, p.order[n - 1]);
      if p.order[n - 1] == i { AssignedRetries(u, i, p.now); }
    }
  }

  /** A cycle gives the analysis its retry, and leaves a retried row that is not stale with its producer. */
  lemma CycleRetries(s: State, now: int, i: nat)
    requires Safe(s) && i < |s.tasks|
    requires DueForRetry(s.tasks[i]) || (Retrying(s.tasks[i]) && !Stale(s.tasks[i], now))
    ensures |Cycle(s, now).tasks| == |s.tasks| && Retrying(Cycle(s, now).tasks[i])
  {
    var b := BeforeRouting(s, now);
    ExpiredRow(s, now, i);
    RoutedRow(b, now, i);
    hide Safe, BeforeRouting, AtRow, Run, Cycle;
    var c := Run(RouteTriage(now), b).value;
    if DueForRetry(s.tasks[i]) {
      TriageRetries(AtRow(b, now, i), i, now);
    } else {
      RestingStays(AtRow(b, now, i), i, now);
    }
    hide Retrying, DueForRetry;
    CycleIs(s, now);
    CycleShape(s, now);
    RoutedAll(b, now);
    ReleasedRetries(c, i);
    AssignedAll(Run(Release, c).value, now, i);
  }

  lemma RoutedAll(b: State, now: int)
    ensures Run(RouteTriage(now), b).Some? && |Run(RouteTriage(now), b).value.tasks| == |b.tasks|
  {
    hide Sweep;
  }

  lemma ReleasedRetries(c: State, i: nat)
    requires i < |c.tasks| && Retrying(c.tasks[i])
    ensures |Run(Release, c).value.tasks| == |c.tasks| && Run(Release, c).value.tasks[i] == c.tasks[i]
  {
    hide Sweep, Retrying;
    RowOfRun(Release, c, i);
    RestingStays(Sweep(Release, c, i).value, i, 0);
  }

  lemma AssignedAll(d: State, now: int, i: nat)
    requires i < |d.tasks| && Retrying(d.tasks[i])
    ensures Retrying(Run(Assign(now, Ranked(d.tasks, |d.tasks|)), d).value.tasks[i])
  {
    hide Retrying, Sweep;
    var p := Assign(now, Ranked(d.tasks, |d.tasks|));
    AssignmentRetries(d, p, i, |p.order|);
  }

  // ---------------------------------------------------------------- one run of the transport

  /** Owner boundaries leave the row alone, and so does polling when no result for its lease has come. */
  lemma PolledRow(s: State, mode: Mode, inbox: map<nat, TaskResult>, now: int, i: nat)
    requires i < |s.tasks| && s.tasks[i].def.authority < 4 && Polled(s, mode, inbox, now).Some?
    ensures exists v: State :: |v.tasks| == |s.tasks| && v.tasks[i] == s.tasks[i] && v.couriers == s.couriers
              && (if mode == DispatchOnly then Polled(s, mode, inbox, now).value.tasks[i] == s.tasks[i]
                  else PollRow(v, i, inbox, now).Some? && Polled(s, mode, inbox, now).value.tasks[i] == PollRow(v, i, inbox, now).value.tasks[i])
  {
    hide Sweep, PollRow;
    var e := Run(Enforce, s).value;
    RowOfRun(Enforce, s, i);
    if mode != DispatchOnly {
      RowOfRun(Poll(inbox, now), e, i);
      hide Run, Polled;
      var v := Sweep(Poll(inbox, now), e, i).value;
      assert v.couriers == s.couriers && |v.tasks| == |s.tasks|;
      assert At(Poll(inbox, now), v, i) == PollRow(v, i, inbox, now);
    }
  }

  /** What dispatching a row leaves as it was. */
  predicate Posting(t: Task, u: Task) {
    && u == t.(status := u.status, dispatch := u.dispatch, heartbeat := u.heartbeat, expiry := u.expiry, reason := u.reason)
    && (u.status == t.status || (t.status == Leased && u.status == Running) || (t.status == Verifying && u.status == Blocked))
  }

  lemma SavedRow(s: State, step: Step, i: nat)
    requires step.StepTransport? && i < |s.tasks| && Polled(s, step.mode, step.inbox, step.now).Some? && !Fails(s, step)
    ensures |Apply(s, step).tasks| == |s.tasks|
    ensures Posting(Polled(s, step.mode, step.inbox, step.now).value.tasks[i], Apply(s, step).tasks[i])
  {
    hide Sweep, Polled, EnvelopeOk;
    if step.mode != PollOnly { RowOfRun(Dispatch(step.now), Polled(s, step.mode, step.inbox, step.now).value, i); }
  }

  /** A run that ended without saving leaves the table. */
  lemma UnsavedRow(s: State, step: Step)
    requires step.StepTransport? && (Polled(s, step.mode, step.inbox, step.now).None? || Fails(s, step))
    ensures Apply(s, step).tasks == s.tasks
  {
    hide Sweep, Polled, Got;
  }

  // ---------------------------------------------------------------- over runs

  /** The step neither finds the row's lease stale nor brings a result for it. */
  predicate LeavesAlone(s: State, step: Step, i: nat)
    requires i < |s.tasks|
  {
    && (step.StepCycle? ==> !Stale(s.tasks[i], step.now))
    && (step.StepTransport? && s.tasks[i].lease.Some? ==> s.tasks[i].lease.value !in step.inbox)
  }

  lemma TransportRetries(s: State, step: Step, i: nat)
    requires step.StepTransport? && i < |s.tasks| && Retrying(s.tasks[i]) && LeavesAlone(s, step, i)
    ensures |Apply(s, step).tasks| == |s.tasks| && Retrying(Apply(s, step).tasks[i])
  {
    hide Apply, Polled, Fails;
    if Polled(s, step.mode, step.inbox, step.now).None? || Fails(s, step) {
      UnsavedRow(s, step);
    } else {
      PolledRow(s, step.mode, step.inbox, step.now, i);
      SavedRow(s, step, i);
    }
  }

  lemma StepRetries(s: State, step: Step, i: nat)
    requires Safe(s) && i < |s.tasks| && Retrying(s.tasks[i]) && LeavesAlone(s, step, i)
    ensures |Apply(s, step).tasks| == |s.tasks| && Retrying(Apply(s, step).tasks[i])
  {
    hide Safe, Sweep, Cycle, Transport, SameTemplate, Retrying, RecoverRcaRow, RecoverBoundedRow, BlockUnroutableRow;
    match step
    case StepCycle(now) => CycleRetries(s, now, i);
    case StepTransport(_, _, _, _) => TransportRetries(s, step, i);
    case StepRecoverRca =>
      RowOfRun(RecoverRca, s, i);
      RestingStays(Sweep(RecoverRca, s, i).value, i, 0);
    case StepRecoverBounded =>
      RowOfRun(RecoverBounded, s, i);
      RestingStays(Sweep(RecoverBounded, s, i).value, i, 0);
    case StepBlockUnroutable =>
      RowOfRun(BlockUnroutable, s, i);
      RestingStays(Sweep(BlockUnroutable, s, i).value, i, 0);
    case StepObserve(_) =>
    case StepCheckout(_) =>
  }

  ghost predicate Undisturbed(s: State, steps: seq<Step>, i: nat) {
    forall k :: 0 <= k < |steps| ==> |RunSteps(s, steps[..k]).tasks| > i && LeavesAlone(RunSteps(s, steps[..k]), steps[k], i)
  }

  /** Over all steps that neither expire nor answer its lease, the retried row keeps the triage mode. */
  lemma {:induction false} RetryKeepsTriageMode(s: State, steps: seq<Step>, i: nat)
    requires Safe(s) && i < |s.tasks| && Retrying(s.tasks[i]) && Undisturbed(s, steps, i)
    ensures |RunSteps(s, steps).tasks| == |s.tasks| && Retrying(RunSteps(s, steps).tasks[i])
  {
    hide Safe, Apply, Retrying, LeavesAlone;
    if steps != [] {
      var rest := steps[..|steps| - 1];
      forall k | 0 <= k < |rest| ensures |RunSteps(s, rest[..k]).tasks| > i && LeavesAlone(RunSteps(s, rest[..k]), rest[k], i) {
        assert rest[..k] == steps[..k];
      }
      RetryKeepsTriageMode(s, rest, i);
      EveryRunSafe(s, rest);
      StepRetries(RunSteps(s, rest), steps[|steps| - 1], i);
    }
  }

  // ---------------------------------------------------------------- the lost success

  /** The step is a run of the transport that polls the result `r` for row `i` and saves. */
  predicate Brings(s: State, step: Step, i: nat, r: TaskResult)
    requires i < |s.tasks|
  {
    && step.StepTransport? && step.mode != DispatchOnly
    && Polled(s, step.mode, step.inbox, step.now).Some? && !Fails(s, step)
    && Pollable(s, i) && s.tasks[i].lease.value in step.inbox && step.inbox[s.tasks[i].lease.value] == r
  }

  lemma FailureBrought(s: State, step: Step, i: nat, r: TaskResult)
    requires i < |s.tasks| && Brings(s, step, i, r) && r.outcome == Failure && r.failure == Transient
    requires s.tasks[i].def.kind in {Generic, Research} && s.tasks[i].mode == RootCause && s.tasks[i].retries < 1
    requires s.tasks[i].def.authority < 4
    ensures |Apply(s, step).tasks| == |s.tasks| && DueForRetry(Apply(s, step).tasks[i])
  {
    hide Apply, Polled, Fails;
    PolledRow(s, step.mode, step.inbox, step.now, i);
    SavedRow(s, step, i);
  }

  /** A producer's success that waits for its verification, or has found no verifier. */
  predicate Answered(t: Task, e: Evidence) {
    t.status in {Verifying, Blocked} && t.evidence == Some(e) && t.mode == RootCause
  }

  lemma SuccessBrought(s: State, step: Step, i: nat, r: TaskResult)
    requires i < |s.tasks| && Brings(s, step, i, r) && r.outcome == Success && Retrying(s.tasks[i])
    ensures var u := Apply(s, step);
            |u.tasks| == |s.tasks| && Answered(u.tasks[i], r.evidence) && u.tasks[i].def == s.tasks[i].def
  {
    hide Apply, Polled, Fails, Best, LoadMap, ReceiptAccepted;
    PolledRow(s, step.mode, step.inbox, step.now, i);
    SavedRow(s, step, i);
  }

  lemma Discarded(s: State, i: nat, e: Evidence)
    requires i < |s.tasks| && Answered(s.tasks[i], e)
    ensures var u := Apply(s, StepRecoverRca);
            && |u.tasks| == |s.tasks|
            && if s.tasks[i].def.kind == Research && e.numericReceipt then u.tasks[i] == s.tasks[i]
               else u.tasks[i].status == Ready && u.tasks[i].evidence.None? && u.tasks[i].mode == NoTriage
  {
    hide Sweep;
    RowOfRun(RecoverRca, s, i);
  }


  /**
  An analyst's transient failure is retried by the producer, nothing disturbs the retry, and the
  producer succeeds: the runner's next pass throws the success away and readies the task once more.
  */
  lemma RetriedSuccessIsLost(s: State, failed: Step, now: int, between: seq<Step>, succeeded: Step, i: nat, f: TaskResult, r: TaskResult)
    requires Safe(s) && i < |s.tasks| && s.tasks[i].def.kind in {Generic, Research} && s.tasks[i].def.authority < 4
    requires s.tasks[i].mode == RootCause && s.tasks[i].retries < 1
    requires Brings(s, failed, i, f) && f.outcome == Failure && f.failure == Transient
    requires var c := Cycle(Apply(s, failed), now); Undisturbed(c, between, i)
    requires var b := RunSteps(Cycle(Apply(s, failed), now), between);
             i < |b.tasks| && Brings(b, succeeded, i, r) && r.outcome == Success
    ensures var b := RunSteps(Cycle(Apply(s, failed), now), between);
            var a := Apply(b, succeeded);
            var z := Apply(a, StepRecoverRca);
            && |a.tasks| == |z.tasks| == |s.tasks| && b.tasks[i].worker == b.tasks[i].producer
            && Answered(a.tasks[i], r.evidence)
            && (!(a.tasks[i].def.kind == Research && r.evidence.numericReceipt) ==>
                  z.tasks[i].status == Ready && z.tasks[i].evidence.None? && z.tasks[i].mode == NoTriage)
  {
    var c := Cycle(Apply(s, failed), now);
    var b := RunSteps(c, between);
    StepSafe(s, failed);
    CycleSafe(Apply(s, failed), now);
    FailureBrought(s, failed, i, f);
    hide Safe, Apply, Cycle, Brings, Undisturbed, DueForRetry, Answered;
    CycleRetries(Apply(s, failed), now, i);
    RetryKeepsTriageMode(c, between, i);
    BroughtIsRunning(b, succeeded, i, r);
    SuccessBrought(b, succeeded, i, r);
    Discarded(Apply(b, succeeded), i, r.evidence);
  }

  lemma BroughtIsRunning(s: State, step: Step, i: nat, r: TaskResult)
    requires i < |s.tasks| && Brings(s, step, i, r)
    ensures s.tasks[i].status in {Running, Verifying}
  {
    hide Polled, Fails;
  }
}
