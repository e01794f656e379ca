/** The parallelism limit and the worker capacities, over every run. */
module AgentCapacity {
  import opened Prelude
  import opened AgentModel
  import opened AgentSafety

  predicate UniqueIds(ws: seq<Worker>) {
    forall j, k :: 0 <= j < k < |ws| ==> ws[j].id != ws[k].id
  }

  /** Rows in triage count against the limit too: routing them never looks at it. */
  predicate Bounded(s: State) {
    && UniqueIds(s.workers)
    && Tally(s.tasks, SelActive) + Tally(s.tasks, SelTriage) <= s.maxParallel
    && forall k :: 0 <= k < |s.workers| ==> Tally(s.tasks, SelWorker(s.workers[k].id)) <= s.workers[k].capacity
  }

  // ---------------------------------------------------------------- counting after a change

  function One(b: bool): nat { if b then 1 else 0 }

  lemma {:induction false} TallyUpdate(ts: seq<Task>, i: nat, u: Task, sel: Sel)
    requires i < |ts|
    ensures Tally(ts[i := u], sel) + One(Hit(sel, ts[i])) == Tally(ts, sel) + One(Hit(sel, u))
  {
    var n := |ts| - 1;
    if i < n {
      TallyUpdate(ts[..n], i, u, sel);
      assert ts[i := u][..n] == ts[..n][i := u];
    } else {
      assert ts[i := u][..n] == ts[..n];
    }
  }

  lemma {:induction false} TallyWithout(ts: seq<Task>, i: nat, sel: Sel)
    requires i < |ts|
    ensures Tally(ts[..i] + ts[i + 1..], sel) + One(Hit(sel, ts[i])) == Tally(ts, sel)
  {
    var n := |ts| - 1;
    if i < n {
      TallyWithout(ts[..n], i, sel);
      assert (ts[..i] + ts[i + 1..])[..n - 1] == ts[..n][..i] + ts[..n][i + 1..];
    } else {
      assert ts[..i] + ts[i + 1..] == ts[..n];
    }
  }

  lemma {:induction false} TallyZero(ts: seq<Task>, sel: Sel)
    requires forall j :: 0 <= j < |ts| ==> !Hit(sel, ts[j])
    ensures Tally(ts, sel) == 0
  {
    if ts != [] { TallyZero(ts[..|ts| - 1], sel); }
  }

  /** The load that routing compares with a worker's capacity. */
  lemma LoadIsTally(ts: seq<Task>, ws: seq<Worker>, except: Option<nat>, w: Worker)
    requires w in ws && (except.Some? ==> except.value < |ts|)
    ensures Load(LoadMap(ts, ws, except), w.id) + One(except.Some? && Hit(SelWorker(w.id), ts[except.value]))
            == Tally(ts, SelWorker(w.id))
  {
    hide Tally, Hit;
    if except.Some? { TallyWithout(ts, except.value, SelWorker(w.id)); }
    assert w.id in LoadMap(ts, ws, except);
  }

  // ---------------------------------------------------------------- iterations

  /** A change of one row that adds no working or triaged row, and no load to any worker. */
  predicate Lighter(t: Task, u: Task) {
    && (Active(u.status) ==> Active(t.status) && u.worker == t.worker)
    && (u.status == Triage ==> t.status == Triage || Active(t.status))
  }

  lemma LighterBounded(s: State, i: nat, u: Task)
    requires Bounded(s) && i < |s.tasks| && Lighter(s.tasks[i], u)
    ensures Bounded(s.(tasks := s.tasks[i := u]))
  {
    TallyUpdate(s.tasks, i, u, SelActive);
    TallyUpdate(s.tasks, i, u, SelTriage);
    forall k | 0 <= k < |s.workers| {
      TallyUpdate(s.tasks, i, u, SelWorker(s.workers[k].id));
    }
  }

  /** Row `i` goes to worker `w`, who had room without it, in place of a row that counted or of free room. */
  lemma HandedBounded(s: State, i: nat, u: Task, w: Worker, next: nat)
    requires Bounded(s) && i < |s.tasks| && w in s.workers && Active(u.status) && u.worker == Some(w.id)
    requires Tally(s.tasks, SelWorker(w.id)) < w.capacity + One(Hit(SelWorker(w.id), s.tasks[i]))
    requires Active(s.tasks[i].status) || s.tasks[i].status == Triage
             || Tally(s.tasks, SelActive) + Tally(s.tasks, SelTriage) < s.maxParallel
    ensures Bounded(s.(tasks := s.tasks[i := u], nextLease := next))
  {
    TallyUpdate(s.tasks, i, u, SelActive);
    TallyUpdate(s.tasks, i, u, SelTriage);
    forall k | 0 <= k < |s.workers|
      ensures Tally(s.tasks[i := u], SelWorker(s.workers[k].id)) <= s.workers[k].capacity
    {
      TallyUpdate(s.tasks, i, u, SelWorker(s.workers[k].id));
    }
  }

  lemma TriageBounded(s: State, i: nat, now: int)
    requires Bounded(s) && i < |s.tasks|
    ensures Bounded(TriageRow(s, i, now)) && TriageRow(s, i, now).tasks[i].status != Triage
  {
    hide Bounded, Tally, LoadMap, Analyst;
    var u := TriageRow(s, i, now);
    if u.nextLease != s.nextLease {
      var w := Analyst(s.tasks[i], s.workers, LoadMap(s.tasks, s.workers, None)).value;
      LoadIsTally(s.tasks, s.workers, None, w);
      HandedBounded(s, i, u.tasks[i], w, s.nextLease + 1);
    } else {
      LighterBounded(s, i, u.tasks[i]);
      assert u == s.(tasks := s.tasks[i := u.tasks[i]]);
    }
  }

  lemma AssignBounded(s: State, i: nat, now: int)
    requires Bounded(s) && i < |s.tasks| && s.tasks[i].status == Ready && Tally(s.tasks, SelTriage) == 0
    ensures Bounded(AssignRow(s, i, now)) && AssignRow(s, i, now).tasks[i].status != Triage
  {
    hide Bounded, Tally, LoadMap, Best;
    var t, u := s.tasks[i], AssignRow(s, i, now);
    if u.nextLease != s.nextLease {
      var w := Best(t, s.workers, t.def.kind == QaOnly, LoadMap(s.tasks, s.workers, None), DesignatedProducer(t.def.kind)).value;
      LoadIsTally(s.tasks, s.workers, None, w);
      HandedBounded(s, i, u.tasks[i], w, s.nextLease + 1);
    } else {
      LighterBounded(s, i, u.tasks[i]);
      assert u == s.(tasks := s.tasks[i := u.tasks[i]]);
    }
  }

  /** Verification is handed out against the load without the row itself, so it never overbooks. */
  lemma VerifyBounded(s: State, i: nat, now: int)
    requires Bounded(s) && i < |s.tasks| && Active(s.tasks[i].status) && VerifyRow(s, i, now).Some?
    ensures Bounded(VerifyRow(s, i, now).value)
  {
    hide Bounded, Tally, LoadMap, Best;
    var t, u := s.tasks[i], VerifyRow(s, i, now).value;
    if u.nextLease != s.nextLease {
      var w := Best(t, s.workers, true, LoadMap(s.tasks, s.workers, Some(i)), DesignatedVerifier(t.def.kind)).value;
      LoadIsTally(s.tasks, s.workers, Some(i), w);
      HandedBounded(s, i, u.tasks[i], w, s.nextLease + 1);
    } else {
      LighterBounded(s, i, u.tasks[i]);
      assert u == s.(tasks := s.tasks[i := u.tasks[i]]);
    }
  }

  lemma PollBounded(s: State, i: nat, inbox: map<nat, TaskResult>, now: int)
    requires Bounded(s) && i < |s.tasks| && PollRow(s, i, inbox, now).Some?
    ensures Bounded(PollRow(s, i, inbox, now).value)
  {
    hide Tally, LoadMap, Best, VerifyRow, ReceiptAccepted;
    if Pollable(s, i) && s.tasks[i].lease.value in inbox {
      var t, r := s.tasks[i], inbox[s.tasks[i].lease.value];
      var v := AcceptRow(s, i, r, now).value;
      if r.outcome == Success && t.status != Verifying {
        var t' := t.(evidence := Some(r.evidence));
        LighterBounded(s, i, t');
        VerifyBounded(s.(tasks := s.tasks[i := t']), i, now);
      } else {
        LighterBounded(s, i, v.tasks[i]);
        assert v == s.(tasks := s.tasks[i := v.tasks[i]]);
      }
    }
  }

  lemma AtBounded(p: Pass, s: State, i: nat)
    requires Bounded(s) && i < |s.tasks| && At(p, s, i).Some?
    requires p.Assign? ==> s.tasks[i].status == Ready && Tally(s.tasks, SelTriage) == 0
    ensures Bounded(At(p, s, i).value)
    ensures p.RouteTriage? || p.Release? || p.Assign? ==>
              At(p, s, i).value.tasks[i].status == Triage ==> s.tasks[i].status == Triage && !p.RouteTriage?
  {
    hide Bounded, Tally, LoadMap, TriageRow, AssignRow, PollRow, EnvelopeOk, DependenciesDone;
    var u := At(p, s, i).value;
    if p.RouteTriage? {
      TriageBounded(s, i, p.now);
    } else if p.Assign? {
      AssignBounded(s, i, p.now);
    } else if p.Poll? {
      PollBounded(s, i, p.inbox, p.now);
    } else {
      LighterBounded(s, i, u.tasks[i]);
      LogIrrelevant(s.(tasks := s.tasks[i := u.tasks[i]]), u.log);
      assert u == s.(tasks := s.tasks[i := u.tasks[i]]).(log := u.log);
    }
  }

  lemma LogIrrelevant(s: State, log: seq<Event>)
    requires Bounded(s)
    ensures Bounded(s.(log := log))
  {
  }

  // ---------------------------------------------------------------- passes

  predicate NoTriageRow(ts: seq<Task>) {
    forall j :: 0 <= j < |ts| ==> ts[j].status != Triage
  }

  lemma {:induction false} SweepBounded(p: Pass, s: State, n: nat)
    requires Bounded(s) && Proper(p, s) && Fits(p, |s.tasks|) && n <= Width(p, |s.tasks|) && Sweep(p, s, n).Some?
    requires p.Assign? ==> NoTriageRow(s.tasks)
    ensures Bounded(Sweep(p, s, n).value)
    ensures p.Assign? || p.Release? ==> NoTriageRow(s.tasks) ==> NoTriageRow(Sweep(p, s, n).value.tasks)
    ensures p.RouteTriage? ==> forall j :: 0 <= j < n ==> Sweep(p, s, n).value.tasks[j].status != Triage
  {
    hide Bounded, At, Proper;
    if n > 0 {
      var u, i := Sweep(p, s, n - 1).value, Row(p, n - 1);
      SweepNext(p, s, n - 1);
      SweepBounded(p, s, n - 1);
      if p.Assign? { TallyZero(u.tasks, SelTriage); }
      AtKeepsShape(p, u, i);
      AtBounded(p, u, i);
    }
  }

  lemma RunBounded(p: Pass, s: State)
    requires Bounded(s) && Proper(p, s) && Fits(p, |s.tasks|) && Run(p, s).Some?
    requires p.Assign? ==> NoTriageRow(s.tasks)
    ensures Bounded(Run(p, s).value)
    ensures p.Release? && NoTriageRow(s.tasks) ==> NoTriageRow(Run(p, s).value.tasks)
    ensures p.RouteTriage? ==> NoTriageRow(Run(p, s).value.tasks)
  {
    hide Bounded, At, Proper, Sweep;
    SweepBounded(p, s, Width(p, |s.tasks|));
  }

  /** The assignment pass may ignore triage only because routing has just emptied it. */
  lemma CycleBounded(s: State, now: int)
    requires Bounded(s)
    ensures Bounded(Cycle(s, now))
  {
    hide Bounded, At, Sweep, NoTriageRow;
    var a := Run(Enforce, s).value;
    RunBounded(Enforce, s);
    var b := Run(Expire(now), a).value;
    RunBounded(Expire(now), a);
    var c := Run(RouteTriage(now), b).value;
    RunBounded(RouteTriage(now), b);
    var d := Run(Release, c).value;
    RunBounded(Release, c);
    RankedProper(d.tasks, |d.tasks|);
    RunBounded(Assign(now, Ranked(d.tasks, |d.tasks|)), d);
  }

  lemma TransportBounded(s: State, mode: Mode, inbox: map<nat, TaskResult>, now: int, dies: Option<nat>)
    requires Bounded(s)
    ensures Bounded(Transport(s, mode, inbox, now, dies))
  {
    hide Tally, Sweep, Got, NewEvents;
    var e := Run(Enforce, s).value;
    RunBounded(Enforce, s);
    if mode != DispatchOnly && Run(Poll(inbox, now), e).Some? { RunBounded(Poll(inbox, now), e); }
    if Polled(s, mode, inbox, now).Some? {
      var u := Polled(s, mode, inbox, now).value;
      if Run(Dispatch(now), u).Some? { RunBounded(Dispatch(now), u); }
    }
  }

  lemma StepBounded(s: State, step: Step)
    requires Bounded(s)
    ensures Bounded(Apply(s, step))
  {
    hide Sweep, Tally, Transport, Cycle;
    match step
    case StepCycle(now) => CycleBounded(s, now);
    case StepTransport(mode, inbox, now, dies) => TransportBounded(s, mode, inbox, now, dies);
    case StepRecoverRca => RunBounded(RecoverRca, s);
    case StepRecoverBounded => RunBounded(RecoverBounded, s);
    case StepBlockUnroutable => RunBounded(BlockUnroutable, s);
    case StepObserve(_) =>
    case StepCheckout(_) =>
  }

  /** From any start within the limits, every run stays within the parallelism limit and every worker's capacity. */
  lemma {:induction false} EveryRunBounded(s: State, steps: seq<Step>)
    requires Bounded(s)
    ensures Bounded(RunSteps(s, steps))
  {
    hide Bounded, Apply;
    if steps != [] {
      EveryRunBounded(s, steps[..|steps| - 1]);
      StepBounded(RunSteps(s, steps[..|steps| - 1]), steps[|steps| - 1]);
    }
  }

  /** Every run from the initial table keeps the number of working rows within the limit. */
  lemma LimitKeptFromInitial(s: State, steps: seq<Step>)
    requires Initial(s) && UniqueIds(s.workers)
    ensures var u := RunSteps(s, steps); Tally(u.tasks, SelActive) + Tally(u.tasks, SelTriage) <= u.maxParallel
  {
    hide RunSteps;
    InitialBounded(s);
    EveryRunBounded(s, steps);
  }

  lemma InitialBounded(s: State)
    requires Initial(s) && UniqueIds(s.workers)
    ensures Bounded(s)
  {
    hide Tally;
    TallyZero(s.tasks, SelActive);
    TallyZero(s.tasks, SelTriage);
    forall k | 0 <= k < |s.workers| ensures Tally(s.tasks, SelWorker(s.workers[k].id)) == 0 {
      TallyZero(s.tasks, SelWorker(s.workers[k].id));
    }
  }

  /** Routing one row takes the working rows above the limit exactly when they are at it and the row gets an analyst. */
  lemma RoutingExceedsLimitIff(s: State, i: nat, now: int)
    requires i < |s.tasks| && s.tasks[i].status == Triage && Tally(s.tasks, SelActive) <= s.maxParallel
    ensures Tally(TriageRow(s, i, now).tasks, SelActive) > s.maxParallel
            <==> Tally(s.tasks, SelActive) == s.maxParallel && TriageRow(s, i, now).tasks[i].status == Running
  {
    hide Tally, LoadMap, Analyst;
    var u := TriageRow(s, i, now);
    TallyUpdate(s.tasks, i, u.tasks[i], SelActive);
    assert u.tasks == s.tasks[i := u.tasks[i]];
  }

  lemma TwoRows(t: Task, u: Task, sel: Sel)
    ensures Tally([t, u], sel) == One(Hit(sel, t)) + One(Hit(sel, u))
  {
    hide Hit;
    assert [t, u][..1] == [t] && [t][..0] == [];
    assert Tally([t], sel) == Tally([t][..0], sel) + One(Hit(sel, t));
  }

  const PRODUCER := Worker(4, {}, {}, 3, false, 1, true, true, 1.0, 0.0, 0.0, 0.0, {}, {})
  const ANALYST := Worker(9, RCA_CAPABILITIES, {}, 3, true, 1, true, true, 0.5, 0.0, 0.0, 0.0, {}, {})
  const PLAIN_WORK := TaskDef(0, 0, [], 0, Generic, false, false, Needs({}, {}, {}, {}, {}, None, {}, 0.0, None))
  const WORKING := Task(PLAIN_WORK, Leased, Some(4), Some(4), None, Some(0), 1, None, None, None, Unknown, 0, NoTriage, None, None, NotBlocked)
  const FAILED := WORKING.(status := Triage, lease := None, worker := None, failure := OtherFailure)

  /**
  The limit on working rows is not kept by itself: triage hands out a lease without looking at it.
  The table has more working and triaged rows than the limit, which by `LimitKeptFromInitial` no
  run from an all-PENDING table reaches.
  */
  lemma ActiveLimitAloneIsNotKept()
    ensures var s := State([WORKING, FAILED], [PRODUCER, ANALYST], 1, {}, 1, [], [], Lane(None, false));
            Tally(s.tasks, SelActive) == s.maxParallel && Tally(TriageRow(s, 1, 0).tasks, SelActive) == s.maxParallel + 1
  {
    var s := State([WORKING, FAILED], [PRODUCER, ANALYST], 1, {}, 1, [], [], Lane(None, false));
    hide Tally, LoadMap, Analyst;
    var load := LoadMap(s.tasks, s.workers, None);
    TwoRows(WORKING, FAILED, SelActive);
    TwoRows(WORKING, FAILED, SelWorker(ANALYST.id));
    LoadIsTally(s.tasks, s.workers, None, ANALYST);
    assert CanAnalyse(FAILED, ANALYST, load) && ANALYST in s.workers;
    assert Analyst(FAILED, s.workers, load).Some?;
    assert TriageRow(s, 1, 0).tasks[1].status == Running;
    RoutingExceedsLimitIff(s, 1, 0);
    TallyUpdate(s.tasks, 1, TriageRow(s, 1, 0).tasks[1], SelActive);
    assert TriageRow(s, 1, 0).tasks == s.tasks[1 := TriageRow(s, 1, 0).tasks[1]];
  }
}
