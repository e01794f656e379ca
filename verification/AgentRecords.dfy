/** What a result, a dispatch and a recovery make of a row, in which order a transport run acts, and which hands a task passes through. */
module AgentRecords {
  import opened Prelude
  import opened AgentModel
  import opened AgentSafety
  import opened AgentDispatch
  import opened AgentRules

  // ---------------------------------------------------------------- results

  /** The roles and receipts of a success: the bound producer or verifier with a good receipt. */
  predicate RightHands(t: Task, r: TaskResult) {
    match t.def.kind
    case Generic => true
    case Research => r.evidence.receiptOk && (t.status == Verifying ==> t.evidence.Some? && t.producer != Some(r.worker))
    case EconReview =>
      && r.evidence.receiptOk && t.status in {Leased, Running, Verifying}
      && (t.status != Verifying ==> r.worker == RESEARCHER)
      && (t.status == Verifying ==> r.worker == QA_VERIFIER && t.producer == Some(RESEARCHER))
    case Development =>
      && r.evidence.receiptOk
      && (t.status == Verifying && t.evidence.Some? ==> r.worker == QA_VERIFIER && t.producer == Some(DEVELOPER))
      && (t.status != Verifying || t.evidence.None? ==> r.worker == DEVELOPER)
    case QaOnly =>
      t.status == Verifying ==> r.evidence.receiptOk && r.worker == QA_VERIFIER && t.verifier == Some(QA_VERIFIER) && t.producer.None?
  }

  /** The recording of a result raises exactly for the owner's work, a foreign worker, an unknown outcome, wrong hands, or QA work without a verifier. */
  lemma RecordRaisesIff(s: State, i: nat, r: TaskResult, now: int)
    requires i < |s.tasks|
    ensures var t := s.tasks[i];
            RecordRow(s, i, r, now).None? <==>
              || t.def.authority >= 4 || t.worker != Some(r.worker) || r.outcome == Unrecognised
              || (r.outcome == Success && (!RightHands(t, r) || (t.status != Verifying && t.def.kind == QaOnly)))
  {
    hide Best, LoadMap;
  }

  /** A failure closes special work and sends other work to triage; a success finishes verified work and sends other work to its verifier. */
  lemma RecordedRow(s: State, i: nat, r: TaskResult, now: int)
    requires i < |s.tasks| && RecordRow(s, i, r, now).Some?
    ensures var t, u := s.tasks[i], RecordRow(s, i, r, now).value.tasks[i];
            if r.outcome == Failure then
              if t.def.kind in {EconReview, Development, QaOnly} then
                u == t.(status := Blocked, reason := ReviewedCorrection, failure := r.failure, failureEvidence := Some(r.evidence),
                        worker := None, heartbeat := None, expiry := None)
              else u == t.(status := Triage, failure := r.failure, failureEvidence := Some(r.evidence))
            else if t.status == Verifying then u == t.(status := Done)
            else
              && u.evidence == Some(r.evidence) && u.producer == t.producer && u.mode == t.mode && u.attempt == t.attempt
              && VerifyRow(s.(tasks := s.tasks[i := t.(evidence := Some(r.evidence))]), i, now) == RecordRow(s, i, r, now)
              && if u.status == Verifying then u.lease == Some(s.nextLease) else u.status == Blocked && u.reason == NoVerifier
  {
    hide Best, LoadMap, ReceiptAccepted;
  }

  /** The four cases in which the numeric executor's refusal of an analyst keeps the original failure. */
  predicate KeepsOriginalFailure(t: Task, r: TaskResult) {
    && t.def.kind == Research && t.mode == RootCause && t.worker == Some(ARCHITECT) && t.failure == ResearchFailed
    && r.outcome == Failure && r.failure == RcaTransportMismatch && r.evidence.numericReceipt && r.evidence.inert
    && t.failureEvidence.Some? && t.failureEvidence.value.numericReceipt && t.failureEvidence.value.cacheMiss && t.failureEvidence.value.inert
  }

  /** A result is taken in exactly when it is well formed, names the row's task, lease, correlation, dispatch, worker and route, and can be recorded. */
  lemma IngestedIff(s: State, i: nat, r: TaskResult, now: int)
    requires i < |s.tasks|
    ensures var t := s.tasks[i];
            IngestRow(s, i, r, now).Some? <==>
              && r.wellFormed && r.task == i && r.correlation == i && t.lease == Some(r.lease) && t.worker == Some(r.worker)
              && t.dispatch == Some(r.dispatch) && r.dispatch == DispatchId(i, r.lease, r.worker, t.attempt)
              && r.transport == (if r.worker == DEEPSEEK then ToDeepseek else if r.worker == WINDOWS then ToWindows else ToCloud)
              && (KeepsOriginalFailure(t, r) || RecordRow(s, i, r, now).Some?)
  {
    hide RecordRow;
  }

  /** What is taken in is logged once, and is the recorded row or the original failure back in triage. */
  lemma IngestedRow(s: State, i: nat, r: TaskResult, now: int)
    requires i < |s.tasks| && IngestRow(s, i, r, now).Some?
    ensures var u := IngestRow(s, i, r, now).value;
            && u.log == s.log + [Ingested(i, r.lease, r.worker)] && |u.tasks| == |s.tasks|
            && if KeepsOriginalFailure(s.tasks[i], r) then u.tasks[i] == s.tasks[i].(status := Triage)
               else RecordRow(s, i, r, now).Some? && u.tasks == RecordRow(s, i, r, now).value.tasks
  {
    hide VerifyRow, ReceiptAccepted;
    AcceptKeepsLength(s, i, r, now);
  }

  lemma AcceptKeepsLength(s: State, i: nat, r: TaskResult, now: int)
    requires i < |s.tasks| && AcceptRow(s, i, r, now).Some?
    ensures |AcceptRow(s, i, r, now).value.tasks| == |s.tasks|
  {
    hide Best, LoadMap, ReceiptAccepted;
  }

  /** A row is polled exactly when it works under a posted lease of its own and not for the courier, and its result has come. */
  lemma PolledIff(s: State, i: nat, inbox: map<nat, TaskResult>, now: int)
    requires i < |s.tasks|
    ensures var t := s.tasks[i];
            var posted := && t.status in {Running, Verifying} && t.worker.Some? && t.worker.value !in s.couriers
                          && t.lease.Some? && t.dispatch == Some(DispatchId(i, t.lease.value, t.worker.value, t.attempt));
            if posted && t.lease.value in inbox then PollRow(s, i, inbox, now) == IngestRow(s, i, inbox[t.lease.value], now)
            else PollRow(s, i, inbox, now) == Some(s)
  {
    hide IngestRow;
  }

  // ---------------------------------------------------------------- dispatches

  /** A working lease that has not been posted yet and is not the courier's. */
  predicate ToPost(s: State, i: nat)
    requires i < |s.tasks|
  {
    var t := s.tasks[i];
    && t.status in {Leased, Running, Verifying} && t.lease.Some? && t.worker.Some? && t.worker.value !in s.couriers
    && t.dispatch != Some(DispatchId(i, t.lease.value, t.worker.value, t.attempt))
  }

  /** Work that its envelope may carry: in the right hands, with the producer's receipt when it is to be verified. */
  predicate Carried(t: Task) {
    && t.def.authority < 4
    && match t.def.kind
       case Generic => true
       case Research => t.status == Verifying ==> t.evidence.Some? && t.evidence.value.receiptOk
       case EconReview => if t.status == Verifying then VerifiedBy(t, RESEARCHER) else t.worker == Some(RESEARCHER)
       case Development => if t.status == Verifying then VerifiedBy(t, DEVELOPER) else t.worker == Some(DEVELOPER)
       case QaOnly =>
         t.status == Verifying && t.def.qaDispatchEnabled && t.producer.None? && t.worker == Some(QA_VERIFIER) == t.verifier
  }

  predicate VerifiedBy(t: Task, producer: nat) {
    && t.worker == Some(QA_VERIFIER) && t.producer == Some(producer) && t.evidence.Some? && t.evidence.value.receiptOk
  }

  /**
  One row of a dispatch pass: nothing to post, or Research QA of another commit, which is blocked, or
  work that cannot be posted, which raises, or one post with a fresh clock.
  */
  lemma DispatchedRow(s: State, i: nat, now: int)
    requires i < |s.tasks|
    ensures var t, out := s.tasks[i], DispatchRow(s, i, now);
            var qa := t.def.kind == Research && t.status == Verifying;
            if !ToPost(s, i) then out == Some(s)
            else if qa && (t.evidence.None? || t.evidence.value.source.None? || s.lane.commit.None?) then out.None?
            else if qa && t.evidence.value.source.value != s.lane.commit.value then
              out == Some(s.(tasks := s.tasks[i := t.(status := Blocked, reason := EpochDrift)]))
            else if (t.def.kind == QaOnly && !s.lane.trusted) || !Carried(t) then out.None?
            else
              out == Some(s.(log := s.log + [Dispatched(i, t.lease.value)],
                             tasks := s.tasks[i := t.(status := if t.status == Leased then Running else t.status,
                                                      dispatch := Some(DispatchId(i, t.lease.value, t.worker.value, t.attempt)),
                                                      heartbeat := Some(now), expiry := Some(now + 300))]))
  {
  }

  // ---------------------------------------------------------------- recoveries

  /** The runner turns a finished analysis back into the original work, unless it is the numeric receipt of a Research task, and touches nothing else. */
  lemma RequeuedIff(s: State, i: nat)
    requires i < |s.tasks|
    ensures var t, u := s.tasks[i], Run(RecoverRca, s).value.tasks[i];
            if t.mode == RootCause && (t.status == Verifying || t.status == Blocked) && t.evidence.Some?
               && (t.def.kind != Research || !t.evidence.value.numericReceipt)
            then u == t.(status := Ready, mode := NoTriage, reason := NotBlocked, worker := None, verifier := None, lease := None,
                         dispatch := None, heartbeat := None, expiry := None, evidence := None)
            else u == t
  {
    RowOfRun(RecoverRca, s, i);
    hide Sweep, Run;
  }

  /** It frees exactly the fail-closed blocks of deterministic workloads. */
  lemma FreedIff(s: State, i: nat)
    requires i < |s.tasks|
    ensures var t, u := s.tasks[i], Run(RecoverBounded, s).value.tasks[i];
            if t.status == Blocked && t.reason == NoReasoningRoute && t.failure == SpecializedReasoning && t.def.deterministicWorkload
            then u == t.(status := Ready, mode := NoTriage, reason := NotBlocked)
            else u == t
  {
    RowOfRun(RecoverBounded, s, i);
    hide Sweep, Run;
  }

  /** It blocks exactly the specialized reasoning of other workloads that is in triage, ready, or blocked for another reason. */
  lemma FailedClosedIff(s: State, i: nat)
    requires i < |s.tasks|
    ensures var t, u := s.tasks[i], Run(BlockUnroutable, s).value.tasks[i];
            if t.failure == SpecializedReasoning && !t.def.deterministicWorkload
               && (t.status == Triage || t.status == Ready || (t.status == Blocked && t.reason != NoReasoningRoute))
            then u == t.(status := Blocked, mode := FailClosed, reason := NoReasoningRoute, worker := None, verifier := None,
                         lease := None, dispatch := None, heartbeat := None, expiry := None)
            else u == t
  {
    RowOfRun(BlockUnroutable, s, i);
    hide Sweep, Run;
  }

  // ---------------------------------------------------------------- releasing

  lemma {:induction false} ReleaseKeepsDone(s: State, n: nat)
    requires n <= |s.tasks|
    ensures var u := Sweep(Release, s, n).value;
            |u.tasks| == |s.tasks| && forall j :: 0 <= j < |s.tasks| ==> (u.tasks[j].status == Done <==> s.tasks[j].status == Done)
  {
    hide DependenciesDone;
    if n > 0 { ReleaseKeepsDone(s, n - 1); }
  }

  /** A PENDING task is released exactly when every dependency is a DONE task of the table; nothing else changes. */
  lemma ReleasedIff(s: State, i: nat)
    requires i < |s.tasks|
    ensures Run(Release, s).Some? && |Run(Release, s).value.tasks| == |s.tasks|
    ensures var t, u := s.tasks[i], Run(Release, s).value.tasks[i];
            if t.status == Pending && forall d :: d in t.def.deps ==> d < |s.tasks| && s.tasks[d].status == Done
            then u == t.(status := Ready) else u == t
  {
    RowOfRun(Release, s, i);
    ReleaseKeepsDone(s, i);
    var v := Sweep(Release, s, i).value;
    assert At(Release, v, i).value.tasks[i] == ReleaseRow(v.tasks, v.tasks[i]);
    hide Sweep, Run, At;
  }

  // ---------------------------------------------------------------- the order within a transport run

  predicate OnlyIngests(events: seq<Event>) { forall k :: 0 <= k < |events| ==> events[k].Ingested? }

  predicate OnlyPosts(events: seq<Event>) { forall k :: 0 <= k < |events| ==> events[k].Dispatched? }

  /** The log after a pass is the log before it and events of one kind. */
  ghost predicate Logs(a: State, b: State, posts: bool) {
    exists events :: b.log == a.log + events && if posts then OnlyPosts(events) else OnlyIngests(events)
  }

  lemma LogsMore(a: State, b: State, c: State, posts: bool)
    requires Logs(a, b, posts) && (c.log == b.log || (|c.log| == |b.log| + 1 && b.log <= c.log && c.log[|b.log|].Dispatched? == posts))
    ensures Logs(a, c, posts)
  {
    var events :| b.log == a.log + events && if posts then OnlyPosts(events) else OnlyIngests(events);
    if c.log != b.log {
      var more := events + [c.log[|b.log|]];
      assert c.log == a.log + more;
      assert if posts then OnlyPosts(more) else OnlyIngests(more);
    }
  }

  lemma LogsNothing(a: State, posts: bool)
    ensures Logs(a, a, posts)
  {
    assert a.log == a.log + [] && OnlyPosts([]) && OnlyIngests([]);
  }

  lemma {:induction false} SweepLogs(p: Pass, s: State, n: nat)
    requires (p.Poll? || p.Dispatch?) && n <= |s.tasks| && Sweep(p, s, n).Some?
    ensures Logs(s, Sweep(p, s, n).value, p.Dispatch?)
  {
    hide Logs, At;
    LogsNothing(s, p.Dispatch?);
    if n > 0 {
      SweepLogs(p, s, n - 1);
      var u := Sweep(p, s, n - 1).value;
      AtLogs(p, u, n - 1);
      LogsMore(s, u, At(p, u, n - 1).value, p.Dispatch?);
    }
  }

  lemma AtLogs(p: Pass, s: State, i: nat)
    requires (p.Poll? || p.Dispatch?) && i < |s.tasks| && At(p, s, i).Some?
    ensures var c := At(p, s, i).value;
            c.log == s.log || (|c.log| == |s.log| + 1 && s.log <= c.log && c.log[|s.log|].Dispatched? == p.Dispatch?)
  {
    hide AcceptRow, EnvelopeOk;
  }

  lemma {:induction false} EnforceLogs(s: State, n: nat)
    requires n <= |s.tasks|
    ensures Sweep(Enforce, s, n).value.log == s.log
  {
    hide EnforceRow;
    if n > 0 { EnforceLogs(s, n - 1); }
  }

  /** A transport run that saves takes in its results before it posts: a result's verification can be posted in the same run. */
  lemma ResultsBeforePosts(s: State, step: Step) returns (ingests: seq<Event>, posts: seq<Event>)
    requires step.StepTransport? && Polled(s, step.mode, step.inbox, step.now).Some? && !Fails(s, step)
    ensures Apply(s, step).log == s.log + ingests + posts && OnlyIngests(ingests) && OnlyPosts(posts)
    ensures step.mode == DispatchOnly ==> ingests == []
    ensures step.mode == PollOnly ==> posts == []
    ensures Polled(s, step.mode, step.inbox, step.now).value.log == s.log + ingests
  {
    var e, u := Run(Enforce, s).value, Polled(s, step.mode, step.inbox, step.now).value;
    EnforceLogs(s, |s.tasks|);
    ingests, posts := [], [];
    hide Sweep;
    if step.mode != DispatchOnly {
      SweepLogs(Poll(step.inbox, step.now), e, |e.tasks|);
      ingests :| u.log == e.log + ingests && OnlyIngests(ingests);
    }
    if step.mode != PollOnly {
      SweepLogs(Dispatch(step.now), u, |u.tasks|);
      var v := Run(Dispatch(step.now), u).value;
      posts :| v.log == u.log + posts && OnlyPosts(posts);
    }
  }

  // ---------------------------------------------------------------- over every run

  /** A working row has a current clock of 300 seconds, and special work is in its bound hands. */
  predicate Ruled(t: Task) {
    && (Active(t.status) ==> t.heartbeat.Some? && t.expiry == Some(t.heartbeat.value + 300) && t.worker.Some?)
    && (t.status == Leased ==> t.worker.Some? && MayProduce(t.def.kind, t.worker.value) && t.def.kind != QaOnly)
    && (t.status == Verifying && t.def.kind != Generic ==> t.worker == t.verifier == Some(QA_VERIFIER))
    && (t.status == Done && t.def.kind != Generic && t.def.authority < 4 ==> t.verifier == Some(QA_VERIFIER))
  }

  predicate AllRuled(s: State) { forall i :: 0 <= i < |s.tasks| ==> Ruled(s.tasks[i]) }

  lemma AtRuled(p: Pass, s: State, i: nat)
    requires i < |s.tasks| && Ruled(s.tasks[i]) && At(p, s, i).Some?
    ensures |At(p, s, i).value.tasks| == |s.tasks| && Ruled(At(p, s, i).value.tasks[i])
  {
    hide LoadMap, Tally, DependenciesDone, EnvelopeOk, ReceiptAccepted, Binds, Preserved;
    if p.Poll? && Pollable(s, i) && s.tasks[i].lease.value in p.inbox { IngestRuled(s, i, p.inbox[s.tasks[i].lease.value], p.now); }
    if p.Assign? { AssignRuled(s, i, p.now); }
    hide VerifyRow, RecordRow, Best, AssignRow;
  }

  lemma AssignRuled(s: State, i: nat, now: int)
    requires i < |s.tasks| && Ruled(s.tasks[i])
    ensures |AssignRow(s, i, now).tasks| == |s.tasks| && Ruled(AssignRow(s, i, now).tasks[i])
  {
    hide LoadMap, Tally, Eligible, Score, Best;
  }

  lemma VerifyRuled(s: State, i: nat, now: int)
    requires i < |s.tasks| && Active(s.tasks[i].status) && VerifyRow(s, i, now).Some?
    ensures |VerifyRow(s, i, now).value.tasks| == |s.tasks| && Ruled(VerifyRow(s, i, now).value.tasks[i])
  {
    hide LoadMap, Tally, Eligible, Score, Best;
  }

  lemma IngestRuled(s: State, i: nat, r: TaskResult, now: int)
    requires i < |s.tasks| && Ruled(s.tasks[i]) && Active(s.tasks[i].status) && IngestRow(s, i, r, now).Some?
    ensures |IngestRow(s, i, r, now).value.tasks| == |s.tasks| && Ruled(IngestRow(s, i, r, now).value.tasks[i])
  {
    hide VerifyRow, ReceiptAccepted, Binds, Preserved;
    var v := s.(tasks := s.tasks[i := s.tasks[i].(evidence := Some(r.evidence))]);
    if VerifyRow(v, i, now).Some? { VerifyRuled(v, i, now); }
  }

  lemma {:induction false} SweepRuled(p: Pass, s: State, n: nat)
    requires AllRuled(s) && Fits(p, |s.tasks|) && n <= Width(p, |s.tasks|) && Sweep(p, s, n).Some?
    ensures AllRuled(Sweep(p, s, n).value)
  {
    hide At, Ruled;
    if n > 0 {
      var u, i := Sweep(p, s, n - 1).value, Row(p, n - 1);
      SweepRuled(p, s, n - 1);
      AtRuled(p, u, i);
      AtKeepsShape(p, u, i);
    }
  }

  lemma CycleRuled(s: State, now: int)
    requires AllRuled(s)
    ensures AllRuled(Cycle(s, now))
  {
    hide Sweep, AllRuled;
    var a := Run(Enforce, s).value;
    SweepRuled(Enforce, s, |s.tasks|);
    var b := Run(Expire(now), a).value;
    SweepRuled(Expire(now), a, |a.tasks|);
    var c := Run(RouteTriage(now), b).value;
    SweepRuled(RouteTriage(now), b, |b.tasks|);
    var d := Run(Release, c).value;
    SweepRuled(Release, c, |c.tasks|);
    var p := Assign(now, Ranked(d.tasks, |d.tasks|));
    SweepRuled(p, d, |p.order|);
  }

  lemma TransportRuled(s: State, mode: Mode, inbox: map<nat, TaskResult>, now: int, dies: Option<nat>)
    requires AllRuled(s)
    ensures AllRuled(Transport(s, mode, inbox, now, dies))
  {
    hide Sweep, Got, Ruled;
    var e := Run(Enforce, s).value;
    SweepRuled(Enforce, s, |s.tasks|);
    if mode != DispatchOnly && Run(Poll(inbox, now), e).Some? { SweepRuled(Poll(inbox, now), e, |e.tasks|); }
    if Polled(s, mode, inbox, now).Some? {
      var u := Polled(s, mode, inbox, now).value;
      if Run(Dispatch(now), u).Some? { SweepRuled(Dispatch(now), u, |u.tasks|); }
    }
  }

  lemma StepRuled(s: State, step: Step)
    requires AllRuled(s)
    ensures AllRuled(Apply(s, step))
  {
    hide Sweep, Cycle, Transport, SameTemplate, Ruled;
    match step
    case StepCycle(now) => CycleRuled(s, now);
    case StepTransport(mode, inbox, now, dies) => TransportRuled(s, mode, inbox, now, dies);
    case StepRecoverRca => SweepRuled(RecoverRca, s, |s.tasks|);
    case StepRecoverBounded => SweepRuled(RecoverBounded, s, |s.tasks|);
    case StepBlockUnroutable => SweepRuled(BlockUnroutable, s, |s.tasks|);
    case StepObserve(_) =>
    case StepCheckout(_) =>
  }

  /**
  In every run from an all-PENDING table: a working row carries a clock of 300 seconds, a producer's
  lease of special work is in its bound hands, and special work is verified, and was verified, by QA alone.
  */
  lemma {:induction false} EveryRunRuled(s: State, steps: seq<Step>)
    requires Initial(s)
    ensures AllRuled(RunSteps(s, steps))
  {
    hide Apply, Ruled;
    if steps != [] {
      EveryRunRuled(s, steps[..|steps| - 1]);
      StepRuled(RunSteps(s, steps[..|steps| - 1]), steps[|steps| - 1]);
    } else {
      InitialRuled(s);
    }
  }

  lemma InitialRuled(s: State)
    requires Initial(s)
    ensures AllRuled(s)
  {
  }
}
