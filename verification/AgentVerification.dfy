/** Who verifies whose work, and a success that the runner takes for an analysis. */
module AgentVerification {
  import opened Prelude
  import opened AgentModel
  import opened AgentSafety
  import opened AgentCapacity
  import opened AgentScheduling
  import opened AgentDispatch

  // ---------------------------------------------------------------- self-verification

  /** Worker `id` is the first of the ranking of verifiers for row `i`, which holds the evidence `e`. */
  ghost predicate FirstVerifier(s: State, i: nat, e: Evidence, id: nat)
    requires i < |s.tasks|
  {
    var t := s.tasks[i].(evidence := Some(e));
    var ts := s.tasks[i := t];
    exists w :: FirstRanked(t, s.workers, true, LoadMap(ts, s.workers, Some(i)), DesignatedVerifier(t.def.kind), w) && w.id == id
  }

  /**
  An accepted submission is verified by the worker who made it if and only if that worker is the
  first-ranked verifier; it then is not the producer, and the submission was a root-cause analysis.
  */
  lemma SubmitterVerifiesIff(s: State, i: nat, r: TaskResult, now: int)
    requires Safe(s) && UniqueIds(s.workers) && i < |s.tasks| && s.tasks[i].status in {Leased, Running}
    requires RecordRow(s, i, r, now).Some? && RecordRow(s, i, r, now).value.tasks[i].status == Verifying
    ensures var u := RecordRow(s, i, r, now).value.tasks[i];
            && (u.verifier == Some(r.worker) <==> FirstVerifier(s, i, r.evidence, r.worker))
            && (u.verifier == Some(r.worker) ==> s.tasks[i].producer != Some(r.worker) && s.tasks[i].mode == RootCause)
  {
    hide LoadMap, Tally, LogOk, LostOk, Distinct, Times, ReceiptAccepted, FirstRanked, Best, UniqueIds;
    var t := s.tasks[i].(evidence := Some(r.evidence));
    var v := s.(tasks := s.tasks[i := t]);
    assert RowOk(s, s.tasks[i], i);
    ChosenIffFirst(t, s.workers, true, LoadMap(v.tasks, s.workers, Some(i)), DesignatedVerifier(t.def.kind), r.worker);
    assert RecordRow(s, i, r, now) == VerifyRow(v, i, now);
  }

  // ---------------------------------------------------------------- a run in which an analyst verifies its own analysis

  const WORK := TaskDef(0, 0, [], 0, Generic, false, false, Needs({}, {}, {}, {}, {}, None, {}, 0.0, None))
  const PLAIN_EVIDENCE := Evidence(true, false, true, false, None)
  const NOT_STARTED := Task(WORK, Pending, None, None, None, None, 0, None, None, None, Unknown, 0, NoTriage, None, None, NotBlocked)

  /** A plain task, a producer, and an analyst who is the only verifier. */
  function AtStart(): State { Table(NOT_STARTED, 0, []) }

  function Table(t: Task, nextLease: nat, log: seq<Event>): State {
    State([t], [PRODUCER, ANALYST], 1, {}, nextLease, log, [], Lane(None, false))
  }

  function FirstLease(): Task {
    Grant(NOT_STARTED, Leased, 4, 0, 0).(producer := Some(4), attempt := 1)
  }

  function FirstPosted(): Task { FirstLease().(status := Running, dispatch := Some(DispatchId(0, 0, 4, 1))) }

  function FirstFailed(): Task { FirstPosted().(status := Triage, failure := OtherFailure, failureEvidence := Some(PLAIN_EVIDENCE)) }

  function Analysing(): Task { Grant(FirstFailed(), Running, 9, 1, 0).(mode := RootCause) }

  function AnalysisPosted(): Task { Analysing().(dispatch := Some(DispatchId(0, 1, 9, 1))) }

  function Analysed(): Task { Grant(AnalysisPosted().(evidence := Some(PLAIN_EVIDENCE)), Verifying, 9, 2, 0).(verifier := Some(9)) }

  function FailedResult(): TaskResult {
    TaskResult(true, 0, 0, 0, DispatchId(0, 0, 4, 1), 4, ToCloud, Failure, OtherFailure, PLAIN_EVIDENCE)
  }

  function AnalysisResult(): TaskResult {
    TaskResult(true, 0, 1, 0, DispatchId(0, 1, 9, 1), 9, ToCloud, Success, Unknown, PLAIN_EVIDENCE)
  }

  function SelfVerifyingSteps(): seq<Step> {
    [StepCycle(0), StepTransport(DispatchOnly, map[], 0, None), StepTransport(PollOnly, map[0 := FailedResult()], 0, None),
     StepCycle(0), StepTransport(DispatchOnly, map[], 0, None), StepTransport(PollOnly, map[1 := AnalysisResult()], 0, None)]
  }

  lemma OneRow(p: Pass, s: State)
    requires |s.tasks| == 1 && Fits(p, 1) && Width(p, 1) == 1 && Row(p, 0) == 0
    ensures Run(p, s) == At(p, s, 0)
  {
    hide At;
    assert Sweep(p, s, 0) == Some(s);
  }

  /** The load that the routing of a one-row table sees: nothing while the row does not count. */
  lemma NoLoad(t: Task, except: Option<nat>, w: Worker)
    requires (except == Some(0) || (except.None? && !Active(t.status))) && w in [PRODUCER, ANALYST]
    ensures Load(LoadMap([t], [PRODUCER, ANALYST], except), w.id) == 0
  {
    LoadIsTally([t], [PRODUCER, ANALYST], except, w);
    assert [t][..0] == [];
  }

  lemma TwoWorkers(t: Task, verifierOnly: bool, load: map<nat, nat>)
    requires t.def == WORK && Load(load, 4) == Load(load, 9) == 0
    ensures !verifierOnly ==> Best(t, [PRODUCER, ANALYST], false, load, None) == Some(PRODUCER)
    ensures verifierOnly && t.producer == Some(4) ==> Best(t, [PRODUCER, ANALYST], true, load, None) == Some(ANALYST)
    ensures t.producer == Some(4) ==> Analyst(t, [PRODUCER, ANALYST], load) == Some(ANALYST)
  {
    assert [PRODUCER, ANALYST][..1] == [PRODUCER] && [PRODUCER][..0] == [];
    assert Best(t, [], verifierOnly, load, None) == None && Analyst(t, [], load) == None;
    assert Score(t, PRODUCER, load) == 35.0 && Score(t, ANALYST, load) == 20.0;
  }

  lemma CycleOneRow(s: State, now: int)
    requires |s.tasks| == 1
    ensures var a := At(Enforce, s, 0).value;
            var b := At(Expire(now), a, 0).value;
            var c := At(RouteTriage(now), b, 0).value;
            var d := At(Release, c, 0).value;
            |d.tasks| == 1 && Cycle(s, now) == if d.tasks[0].status == Ready then AssignRow(d, 0, now) else d
  {
    hide At;
    var a := Run(Enforce, s).value;
    OneRow(Enforce, s);
    var b := Run(Expire(now), a).value;
    OneRow(Expire(now), a);
    var c := Run(RouteTriage(now), b).value;
    OneRow(RouteTriage(now), b);
    var d := Run(Release, c).value;
    OneRow(Release, c);
    var p := Assign(now, Ranked(d.tasks, 1));
    assert Ranked(d.tasks, 0) == [];
    if d.tasks[0].status == Ready {
      OneRow(p, d);
      AtAssign(p, d, 0);
    } else {
      assert p.order == [] && Sweep(p, d, 0) == Some(d);
    }
  }

  function ReadyTask(): Task { NOT_STARTED.(status := Ready) }

  lemma FirstOffer()
    ensures AssignRow(Table(ReadyTask(), 0, []), 0, 0) == Table(FirstLease(), 1, [])
  {
    NoLoad(ReadyTask(), None, PRODUCER);
    NoLoad(ReadyTask(), None, ANALYST);
    TwoWorkers(ReadyTask(), false, LoadMap([ReadyTask()], [PRODUCER, ANALYST], None));
    assert [ReadyTask()][..0] == [];
    hide Best, LoadMap;
    assert [ReadyTask()][0 := FirstLease()] == [FirstLease()];
  }

  lemma FirstCycle()
    ensures Cycle(AtStart(), 0) == Table(FirstLease(), 1, [])
  {
    hide AssignRow, LoadMap, Cycle;
    CycleOneRow(AtStart(), 0);
    FirstOffer();
    assert [NOT_STARTED][0 := NOT_STARTED] == [NOT_STARTED] && [NOT_STARTED][0 := ReadyTask()] == [ReadyTask()];
    assert DependenciesDone([NOT_STARTED], []);
  }

  lemma FirstRouting(log: seq<Event>)
    ensures TriageRow(Table(FirstFailed(), 1, log), 0, 0) == Table(Analysing(), 2, log)
  {
    NoLoad(FirstFailed(), None, PRODUCER);
    NoLoad(FirstFailed(), None, ANALYST);
    TwoWorkers(FirstFailed(), false, LoadMap([FirstFailed()], [PRODUCER, ANALYST], None));
    hide Best, Analyst, LoadMap;
    assert [FirstFailed()][0 := Analysing()] == [Analysing()];
  }

  lemma SecondCycle(log: seq<Event>)
    ensures Cycle(Table(FirstFailed(), 1, log), 0) == Table(Analysing(), 2, log)
  {
    hide AssignRow, TriageRow, Cycle;
    CycleOneRow(Table(FirstFailed(), 1, log), 0);
    FirstRouting(log);
    assert [FirstFailed()][0 := FirstFailed()] == [FirstFailed()] && [Analysing()][0 := Analysing()] == [Analysing()];
  }

  lemma TransportOneRow(s: State, mode: Mode, inbox: map<nat, TaskResult>)
    requires |s.tasks| == 1 && s.tasks[0].def.authority < 4 && mode != Both
    requires mode == PollOnly ==> At(Poll(inbox, 0), s, 0).Some?
    requires mode == DispatchOnly ==> At(Dispatch(0), s, 0).Some?
    ensures Transport(s, mode, inbox, 0, None) == if mode == PollOnly then At(Poll(inbox, 0), s, 0).value else At(Dispatch(0), s, 0).value
  {
    OneRow(Enforce, s);
    assert s.tasks[0 := s.tasks[0]] == s.tasks;
    assert Run(Enforce, s) == Some(s);
    hide At;
    OneRow(Poll(inbox, 0), s);
    OneRow(Dispatch(0), s);
  }

  lemma PostOneRow(t: Task, nextLease: nat, log: seq<Event>)
    requires Dispatchable(Table(t, nextLease, log), 0) && t.def == WORK
    ensures var u := t.(status := if t.status == Leased then Running else t.status, dispatch := Some(DispatchIdFor(t, 0)),
                        heartbeat := Some(0), expiry := Some(LEASE_SECONDS));
            Transport(Table(t, nextLease, log), DispatchOnly, map[], 0, None)
            == Table(u, nextLease, log + [Dispatched(0, t.lease.value)])
  {
    TransportOneRow(Table(t, nextLease, log), DispatchOnly, map[]);
  }

  lemma FailurePolled(log: seq<Event>)
    ensures Transport(Table(FirstPosted(), 1, log), PollOnly, map[0 := FailedResult()], 0, None)
            == Table(FirstFailed(), 1, log + [Ingested(0, 0, 4)])
  {
    var s, inbox := Table(FirstPosted(), 1, log), map[0 := FailedResult()];
    assert At(Poll(inbox, 0), s, 0) == IngestRow(s, 0, FailedResult(), 0);
    assert Binds(FirstPosted(), 0, FailedResult());
    assert [FirstPosted()][0 := FirstFailed()] == [FirstFailed()];
    TransportOneRow(s, PollOnly, inbox);
  }

  function Submitted(): Task { AnalysisPosted().(evidence := Some(PLAIN_EVIDENCE)) }

  lemma SelfVerified(log: seq<Event>)
    ensures VerifyRow(Table(Submitted(), 2, log), 0, 0) == Some(Table(Analysed(), 3, log))
  {
    NoLoad(Submitted(), Some(0), PRODUCER);
    NoLoad(Submitted(), Some(0), ANALYST);
    TwoWorkers(Submitted(), true, LoadMap([Submitted()], [PRODUCER, ANALYST], Some(0)));
    hide Best, LoadMap;
    assert [Submitted()][0 := Analysed()] == [Analysed()];
  }

  lemma AnalysisPolled(log: seq<Event>)
    ensures Transport(Table(AnalysisPosted(), 2, log), PollOnly, map[1 := AnalysisResult()], 0, None)
            == Table(Analysed(), 3, log + [Ingested(0, 1, 9)])
  {
    hide VerifyRow, Transport;
    var s, inbox := Table(AnalysisPosted(), 2, log), map[1 := AnalysisResult()];
    assert At(Poll(inbox, 0), s, 0) == IngestRow(s, 0, AnalysisResult(), 0);
    assert Binds(AnalysisPosted(), 0, AnalysisResult()) && ReceiptAccepted(AnalysisPosted(), AnalysisResult());
    assert [AnalysisPosted()][0 := Submitted()] == [Submitted()];
    SelfVerified(log);
    TransportOneRow(s, PollOnly, inbox);
  }

  lemma RunSnoc(s: State, steps: seq<Step>, step: Step)
    ensures RunSteps(s, steps + [step]) == Apply(RunSteps(s, steps), step)
  {
    hide Apply;
    assert (steps + [step])[..|steps|] == steps;
  }

  lemma SixSteps(steps: seq<Step>, s0: State, s1: State, s2: State, s3: State, s4: State, s5: State, s6: State)
    requires |steps| == 6 && Apply(s0, steps[0]) == s1 && Apply(s1, steps[1]) == s2 && Apply(s2, steps[2]) == s3
    requires Apply(s3, steps[3]) == s4 && Apply(s4, steps[4]) == s5 && Apply(s5, steps[5]) == s6
    ensures RunSteps(s0, steps[..5]) == s5 && RunSteps(s0, steps) == s6
  {
    hide Apply;
    assert RunSteps(s0, []) == s0;
    RunSnoc(s0, [], steps[0]);
    RunSnoc(s0, steps[..1], steps[1]);
    RunSnoc(s0, steps[..2], steps[2]);
    RunSnoc(s0, steps[..3], steps[3]);
    RunSnoc(s0, steps[..4], steps[4]);
    RunSnoc(s0, steps[..5], steps[5]);
    assert [] + [steps[0]] == steps[..1] && steps[..1] + [steps[1]] == steps[..2] && steps[..2] + [steps[2]] == steps[..3];
    assert steps[..3] + [steps[3]] == steps[..4] && steps[..4] + [steps[4]] == steps[..5] && steps[..5] + [steps[5]] == steps;
  }

  /** The first `n` events of the run. */
  function Log(n: nat): seq<Event>
    requires n <= 4
  {
    [Dispatched(0, 0), Ingested(0, 0, 4), Dispatched(0, 1), Ingested(0, 1, 9)][..n]
  }

  lemma FirstHalf()
    ensures |SelfVerifyingSteps()| == 6
    ensures Apply(AtStart(), SelfVerifyingSteps()[0]) == Table(FirstLease(), 1, Log(0))
    ensures Apply(Table(FirstLease(), 1, Log(0)), SelfVerifyingSteps()[1]) == Table(FirstPosted(), 1, Log(1))
    ensures Apply(Table(FirstPosted(), 1, Log(1)), SelfVerifyingSteps()[2]) == Table(FirstFailed(), 1, Log(2))
  {
    hide Cycle, Transport, FirstLease, FirstPosted, FirstFailed;
    FirstCycle();
    FirstPost();
    FailurePolled(Log(1));
    assert Log(0) == [] && Log(1) == [] + [Dispatched(0, 0)] && Log(2) == Log(1) + [Ingested(0, 0, 4)];
  }

  lemma SecondHalf()
    ensures |SelfVerifyingSteps()| == 6
    ensures Apply(Table(FirstFailed(), 1, Log(2)), SelfVerifyingSteps()[3]) == Table(Analysing(), 2, Log(2))
    ensures Apply(Table(Analysing(), 2, Log(2)), SelfVerifyingSteps()[4]) == Table(AnalysisPosted(), 2, Log(3))
    ensures Apply(Table(AnalysisPosted(), 2, Log(3)), SelfVerifyingSteps()[5]) == Table(Analysed(), 3, Log(4))
  {
    hide Cycle, Transport, FirstFailed, Analysing, AnalysisPosted, Analysed;
    SecondCycle(Log(2));
    SecondPost(Log(2));
    AnalysisPolled(Log(3));
    assert Log(3) == Log(2) + [Dispatched(0, 1)] && Log(4) == Log(3) + [Ingested(0, 1, 9)];
  }

  lemma SelfVerifyingRun()
    ensures |SelfVerifyingSteps()| == 6
    ensures RunSteps(AtStart(), SelfVerifyingSteps()[..5]) == Table(AnalysisPosted(), 2, Log(3))
    ensures RunSteps(AtStart(), SelfVerifyingSteps()) == Table(Analysed(), 3, Log(4))
  {
    FirstHalf();
    SecondHalf();
    hide Apply, Table, FirstLease, FirstPosted, FirstFailed, Analysing, AnalysisPosted, Analysed, AtStart, SelfVerifyingSteps, Log;
    SixSteps(SelfVerifyingSteps(), AtStart(), Table(FirstLease(), 1, Log(0)), Table(FirstPosted(), 1, Log(1)),
             Table(FirstFailed(), 1, Log(2)), Table(Analysing(), 2, Log(2)), Table(AnalysisPosted(), 2, Log(3)), Table(Analysed(), 3, Log(4)));
  }

  lemma FirstPost()
    ensures Transport(Table(FirstLease(), 1, []), DispatchOnly, map[], 0, None) == Table(FirstPosted(), 1, [] + [Dispatched(0, 0)])
  {
    hide Transport;
    PostOneRow(FirstLease(), 1, []);
  }

  lemma SecondPost(log: seq<Event>)
    ensures Transport(Table(Analysing(), 2, log), DispatchOnly, map[], 0, None) == Table(AnalysisPosted(), 2, log + [Dispatched(0, 1)])
  {
    hide Transport;
    PostOneRow(Analysing(), 2, log);
  }

  /** From an all-PENDING table: the producer fails, the analyst submits its analysis, and is made its verifier. */
  lemma AnalystMayVerifyOwnAnalysis()
    ensures Initial(AtStart())
    ensures var before, after := RunSteps(AtStart(), SelfVerifyingSteps()[..5]), RunSteps(AtStart(), SelfVerifyingSteps());
            && before.tasks == [AnalysisPosted()] && before.tasks[0].mode == RootCause && before.tasks[0].worker == Some(9)
            && Binds(before.tasks[0], 0, AnalysisResult()) && AnalysisResult().outcome == Success
            && after.tasks == [Analysed()] && Analysed().status == Verifying && Analysed().verifier == Some(9)
  {
    SelfVerifyingRun();
    hide RunSteps;
  }
}
