/** The dependency order: what has to be finished before a task leaves PENDING, and what never does. */
module AgentDependencies {
  import opened Prelude
  import opened AgentModel
  import opened AgentSafety

  /** Task `d` is finished and is not a level-4 task. */
  predicate Finished(s: State, d: nat) {
    d < |s.tasks| && s.tasks[d].status == Done && s.tasks[d].def.authority < 4
  }

  predicate Released(t: Task) {
    t.def.authority < 4 && t.status != Pending
  }

  ghost predicate Ordered(s: State) {
    && (forall i :: 0 <= i < |s.tasks| && s.tasks[i].status == Done ==> s.tasks[i].def.authority < 4)
    && (forall i, d :: 0 <= i < |s.tasks| && Released(s.tasks[i]) && d in s.tasks[i].def.deps ==> Finished(s, d))
  }

  /** The tasks of `set` wait for each other or for a level-4 task. */
  ghost predicate Stuck(s: State, waiting: set<nat>) {
    forall i :: i in waiting ==>
      i < |s.tasks| && exists d :: d in s.tasks[i].def.deps && d < |s.tasks| && (d in waiting || s.tasks[d].def.authority >= 4)
  }

  predicate AllPending(s: State, waiting: set<nat>) {
    forall i :: i in waiting ==> i < |s.tasks| && (s.tasks[i].def.authority < 4 ==> s.tasks[i].status == Pending)
  }

  // ---------------------------------------------------------------- iterations

  /** A row leaves PENDING only when its dependencies are done, and DONE comes only from VERIFYING. */
  lemma AtRelease(p: Pass, s: State, i: nat)
    requires Safe(s) && i < |s.tasks| && At(p, s, i).Some? && (p.Assign? ==> s.tasks[i].status == Ready)
    ensures var t, u := s.tasks[i], At(p, s, i).value.tasks[i];
            && (Released(u) ==> Released(t) || DependenciesDone(s.tasks, t.def.deps))
            && (u.status == Done ==> t.status in {Verifying, Done})
  {
    hide Safe, Best, Analyst, LoadMap, Tally, DependenciesDone, EnvelopeOk, ReceiptAccepted;
    AtKeepsShape(p, s, i);
  }

  lemma AtOrdered(p: Pass, s: State, i: nat)
    requires Safe(s) && Ordered(s) && i < |s.tasks| && At(p, s, i).Some? && (p.Assign? ==> s.tasks[i].status == Ready)
    ensures Ordered(At(p, s, i).value)
  {
    hide At;
    var u := At(p, s, i).value;
    AtKeepsShape(p, s, i);
    AtSafe(p, s, i);
    AtRelease(p, s, i);
    assert RowOk(s, s.tasks[i], i);
    assert forall d :: Finished(s, d) ==> Finished(u, d);
  }

  lemma AtStuck(p: Pass, s: State, i: nat, waiting: set<nat>)
    requires Safe(s) && Ordered(s) && i < |s.tasks| && At(p, s, i).Some? && (p.Assign? ==> s.tasks[i].status == Ready)
    requires Stuck(s, waiting) && AllPending(s, waiting)
    ensures AllPending(At(p, s, i).value, waiting)
  {
    hide At, Safe;
    AtKeepsShape(p, s, i);
    AtRelease(p, s, i);
    if i in waiting && s.tasks[i].def.authority < 4 && Released(At(p, s, i).value.tasks[i]) {
      assert false;
    }
  }

  // ---------------------------------------------------------------- passes, steps, runs

  /** Everything that the dependency argument carries along a run. */
  ghost predicate Good(s: State, waiting: set<nat>) {
    Safe(s) && Ordered(s) && Stuck(s, waiting) && AllPending(s, waiting)
  }

  lemma StuckKept(s: State, u: State, waiting: set<nat>)
    requires Keeps(s, u) && Stuck(s, waiting)
    ensures Stuck(u, waiting)
  {
  }

  lemma AtGood(p: Pass, s: State, i: nat, waiting: set<nat>)
    requires Good(s, waiting) && i < |s.tasks| && At(p, s, i).Some? && (p.Assign? ==> s.tasks[i].status == Ready)
    ensures Good(At(p, s, i).value, waiting)
  {
    hide At, Safe, Keeps, Ordered, Stuck, AllPending;
    AtSafe(p, s, i);
    AtOrdered(p, s, i);
    AtStuck(p, s, i, waiting);
    StuckKept(s, At(p, s, i).value, waiting);
  }

  lemma {:induction false} SweepGood(p: Pass, s: State, n: nat, waiting: set<nat>)
    requires Good(s, waiting) && Proper(p, s) && Fits(p, |s.tasks|) && n <= Width(p, |s.tasks|) && Sweep(p, s, n).Some?
    ensures Good(Sweep(p, s, n).value, waiting)
  {
    hide Good, At, Proper;
    if n > 0 {
      SweepNext(p, s, n - 1);
      SweepGood(p, s, n - 1, waiting);
      AtGood(p, Sweep(p, s, n - 1).value, Row(p, n - 1), waiting);
    }
  }

  lemma RunGood(p: Pass, s: State, waiting: set<nat>)
    requires Good(s, waiting) && Proper(p, s) && Fits(p, |s.tasks|) && Run(p, s).Some?
    ensures Good(Run(p, s).value, waiting)
  {
    hide Good, Proper, Sweep;
    SweepGood(p, s, Width(p, |s.tasks|), waiting);
  }

  lemma CycleGood(s: State, now: int, waiting: set<nat>)
    requires Good(s, waiting)
    ensures Good(Cycle(s, now), waiting)
  {
    hide Good, At, Sweep;
    var a := Run(Enforce, s).value;
    RunGood(Enforce, s, waiting);
    var b := Run(Expire(now), a).value;
    RunGood(Expire(now), a, waiting);
    var c := Run(RouteTriage(now), b).value;
    RunGood(RouteTriage(now), b, waiting);
    var d := Run(Release, c).value;
    RunGood(Release, c, waiting);
    RankedProper(d.tasks, |d.tasks|);
    RunGood(Assign(now, Ranked(d.tasks, |d.tasks|)), d, waiting);
  }

  lemma ObserveGood(s: State, ws: seq<Worker>, waiting: set<nat>)
    requires Good(s, waiting) && SameTemplate(s.workers, ws)
    ensures Good(s.(workers := ws), waiting)
  {
    hide Safe, SameTemplate;
    ObserveSafe(s, ws);
    assert forall d :: Finished(s, d) ==> Finished(s.(workers := ws), d);
  }

  /** The old table with more leases handed out and more posts lost. */
  lemma UnsavedGood(s: State, u: State, v: State, waiting: set<nat>)
    requires Good(s, waiting) && Safe(Unsaved(s, u, v))
    ensures Good(Unsaved(s, u, v), waiting)
  {
    hide Safe, NewEvents;
    assert forall d :: Finished(s, d) ==> Finished(Unsaved(s, u, v), d);
  }

  lemma TransportGood(s: State, mode: Mode, inbox: map<nat, TaskResult>, now: int, dies: Option<nat>, waiting: set<nat>)
    requires Good(s, waiting)
    ensures Good(Transport(s, mode, inbox, now, dies), waiting)
  {
    hide Good, Sweep, Got, Unsaved, Safe, Keeps;
    GoodIsSafe(s, waiting);
    TransportSafe(s, mode, inbox, now, dies);
    var e := Run(Enforce, s).value;
    RunGood(Enforce, s, waiting);
    if mode != DispatchOnly && Run(Poll(inbox, now), e).Some? { RunGood(Poll(inbox, now), e, waiting); }
    if Polled(s, mode, inbox, now).Some? && mode != PollOnly {
      var u := Polled(s, mode, inbox, now).value;
      if dies.None? && Run(Dispatch(now), u).Some? {
        RunGood(Dispatch(now), u, waiting);
      } else {
        UnsavedGood(s, u, Got(u, now, Reach(dies, |u.tasks|)), waiting);
      }
    }
  }

  lemma GoodIsSafe(s: State, waiting: set<nat>)
    requires Good(s, waiting)
    ensures Safe(s)
  {
  }

  lemma StepGood(s: State, step: Step, waiting: set<nat>)
    requires Good(s, waiting)
    ensures Good(Apply(s, step), waiting)
  {
    hide Good, Sweep, SameTemplate, Transport, Cycle;
    match step
    case StepCycle(now) => CycleGood(s, now, waiting);
    case StepTransport(mode, inbox, now, dies) => TransportGood(s, mode, inbox, now, dies, waiting);
    case StepRecoverRca => RunGood(RecoverRca, s, waiting);
    case StepRecoverBounded => RunGood(RecoverBounded, s, waiting);
    case StepBlockUnroutable => RunGood(BlockUnroutable, s, waiting);
    case StepObserve(ws) => if SameTemplate(s.workers, ws) { ObserveGood(s, ws, waiting); }
    case StepCheckout(lane) => CheckoutGood(s, lane, waiting);
  }

  lemma CheckoutGood(s: State, lane: Lane, waiting: set<nat>)
    requires Good(s, waiting)
    ensures Good(s.(lane := lane), waiting)
  {
    hide Safe;
    CheckoutSafe(s, lane);
    assert forall d :: Finished(s, d) ==> Finished(s.(lane := lane), d);
  }

  lemma {:induction false} EveryRunGood(s: State, steps: seq<Step>, waiting: set<nat>)
    requires Good(s, waiting)
    ensures Good(RunSteps(s, steps), waiting)
  {
    hide Good, Apply;
    if steps != [] {
      EveryRunGood(s, steps[..|steps| - 1], waiting);
      StepGood(RunSteps(s, steps[..|steps| - 1]), steps[|steps| - 1], waiting);
    }
  }

  // ---------------------------------------------------------------- dependency chains

  /** Each task of the chain depends on the next one. */
  predicate Chain(ts: seq<Task>, path: seq<nat>) {
    && path != []
    && (forall k :: 0 <= k < |path| ==> path[k] < |ts|)
    && (forall k :: 0 <= k < |path| - 1 ==> path[k + 1] in ts[path[k]].def.deps)
  }

  lemma {:induction false} ChainFinished(s: State, path: seq<nat>)
    requires Ordered(s) && Chain(s.tasks, path) && Released(s.tasks[path[0]])
    ensures forall k :: 1 <= k < |path| ==> Finished(s, path[k])
  {
    if |path| > 1 {
      var n := |path| - 1;
      ChainFinished(s, path[..n]);
      var before := path[n - 1];
      assert path[..n][n - 1] == before;
      assert before == path[0] || Finished(s, before);
      assert Released(s.tasks[before]) && path[n] in s.tasks[before].def.deps;
      forall k | 1 <= k < |path| ensures Finished(s, path[k]) {
        if k < n { assert path[..n][k] == path[k]; }
      }
    }
  }

  /** In every run, a task below level 4 that has left PENDING has its whole dependency closure finished. */
  lemma ReleasedAfterClosure(s: State, steps: seq<Step>, path: seq<nat>)
    requires Initial(s) && Chain(RunSteps(s, steps).tasks, path)
    requires Released(RunSteps(s, steps).tasks[path[0]])
    ensures forall k :: 1 <= k < |path| ==> Finished(RunSteps(s, steps), path[k])
  {
    hide Apply;
    EveryRunGood(s, steps, {});
    ChainFinished(RunSteps(s, steps), path);
  }

  /** A chain that runs into itself, or into a level-4 task. */
  predicate Doomed(ts: seq<Task>, path: seq<nat>) {
    var n := |path| - 1;
    Chain(ts, path) && n > 0 && (path[n] in path[..n] || ts[path[n]].def.authority >= 4)
  }

  function Elements(path: seq<nat>): set<nat> {
    set x | x in path
  }

  lemma DoomedIsStuck(s: State, path: seq<nat>)
    requires Doomed(s.tasks, path)
    ensures Stuck(s, Elements(path[..|path| - 1]))
  {
    var n := |path| - 1;
    var waiting := Elements(path[..n]);
    forall i | i in waiting
      ensures i < |s.tasks| && exists d :: d in s.tasks[i].def.deps && d < |s.tasks| && (d in waiting || s.tasks[d].def.authority >= 4)
    {
      var k :| 0 <= k < n && path[k] == i;
      var d := path[k + 1];
      assert d in s.tasks[i].def.deps && d < |s.tasks|;
      assert k + 1 < n ==> path[..n][k + 1] == d;
    }
  }

  /** Every task on a doomed chain stays PENDING in every run. */
  lemma DoomedStaysPending(s: State, steps: seq<Step>, path: seq<nat>, k: nat)
    requires Initial(s) && Doomed(s.tasks, path) && k < |path| - 1 && s.tasks[path[k]].def.authority < 4
    ensures |RunSteps(s, steps).tasks| == |s.tasks| && RunSteps(s, steps).tasks[path[k]].status == Pending
  {
    hide Apply, Safe;
    var waiting := Elements(path[..|path| - 1]);
    DoomedIsStuck(s, path);
    InitialGood(s, waiting);
    EveryRunGood(s, steps, waiting);
    EveryRunSafe(s, steps);
    assert path[..|path| - 1][k] in waiting;
  }

  lemma InitialGood(s: State, waiting: set<nat>)
    requires Initial(s) && Stuck(s, waiting)
    ensures Good(s, waiting)
  {
  }
}
