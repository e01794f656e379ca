/** What no run changes: the configuration, the definitions of the tasks, and the rows that are finished or quarantined. */
module AgentFrozen {
  import opened Prelude
  import opened AgentModel
  import opened AgentSafety
  import opened AgentDispatch

  // ---------------------------------------------------------------- owner boundaries

  /** After the boundaries every level-4 row is free and with its owner, a quarantined one excepted, and every other row is as it was. */
  lemma OwnerBoundary(s: State, i: nat)
    requires i < |s.tasks|
    ensures var t, u := s.tasks[i], Run(Enforce, s).value.tasks[i];
            if t.def.authority >= 4 && t.status != Quarantined
            then && u.status == OwnerRequired && u.reason == L4Owner
                 && u.worker.None? && u.lease.None? && u.heartbeat.None? && u.expiry.None?
                 && u == t.(status := u.status, reason := u.reason, worker := None, lease := None, heartbeat := None, expiry := None)
            else u == t
  {
    hide Sweep;
    RowOfRun(Enforce, s, i);
  }

  // ---------------------------------------------------------------- one relation that every step keeps

  predicate Frozen(t: Task) {
    t.status == Quarantined || (t.status == Done && t.def.authority < 4)
  }

  predicate Kept(s: State, u: State) {
    && |u.tasks| == |s.tasks| && u.maxParallel == s.maxParallel && u.couriers == s.couriers
    && forall i :: 0 <= i < |s.tasks| ==>
         u.tasks[i].def == s.tasks[i].def && (Frozen(s.tasks[i]) ==> u.tasks[i] == s.tasks[i])
  }

  lemma AtKeeps(p: Pass, s: State, i: nat)
    requires i < |s.tasks| && At(p, s, i).Some? && (p.Assign? ==> s.tasks[i].status == Ready)
    ensures Kept(s, At(p, s, i).value)
  {
    AtKeepsShape(p, s, i);
    hide LoadMap, Tally, Best, DependenciesDone, EnvelopeOk, VerifyRow, RecordRow, PostRow;
  }

  lemma {:induction false} SweepKeeps(p: Pass, s: State, n: nat)
    requires Proper(p, s) && Fits(p, |s.tasks|) && n <= Width(p, |s.tasks|) && Sweep(p, s, n).Some?
    ensures Kept(s, Sweep(p, s, n).value)
  {
    hide At, Proper, Frozen;
    if n > 0 {
      SweepKeeps(p, s, n - 1);
      SweepNext(p, s, n - 1);
      AtKeeps(p, Sweep(p, s, n - 1).value, Row(p, n - 1));
    }
  }

  lemma CycleKeeps(s: State, now: int)
    ensures Kept(s, Cycle(s, now)) && Cycle(s, now).lane == s.lane && Cycle(s, now).workers == s.workers
  {
    hide Sweep, Frozen;
    var a := Run(Enforce, s).value;
    SweepKeeps(Enforce, s, |s.tasks|);
    var b := Run(Expire(now), a).value;
    SweepKeeps(Expire(now), a, |a.tasks|);
    var c := Run(RouteTriage(now), b).value;
    SweepKeeps(RouteTriage(now), b, |b.tasks|);
    var d := Run(Release, c).value;
    SweepKeeps(Release, c, |c.tasks|);
    var p := Assign(now, Ranked(d.tasks, |d.tasks|));
    RankedProper(d.tasks, |d.tasks|);
    SweepKeeps(p, d, |p.order|);
  }

  lemma TransportKeeps(s: State, mode: Mode, inbox: map<nat, TaskResult>, now: int, dies: Option<nat>)
    ensures var u := Transport(s, mode, inbox, now, dies); Kept(s, u) && u.lane == s.lane && u.workers == s.workers
  {
    hide Sweep, Got, Frozen;
    var e := Run(Enforce, s).value;
    SweepKeeps(Enforce, s, |s.tasks|);
    if mode != DispatchOnly && Run(Poll(inbox, now), e).Some? { SweepKeeps(Poll(inbox, now), e, |e.tasks|); }
    if Polled(s, mode, inbox, now).Some? {
      var u := Polled(s, mode, inbox, now).value;
      if Run(Dispatch(now), u).Some? { SweepKeeps(Dispatch(now), u, |u.tasks|); }
    }
  }

  /** The workers as a step leaves them: new metrics are taken in only for the same workers. */
  function WorkersAfter(ws: seq<Worker>, step: Step): seq<Worker> {
    if step.StepObserve? && SameTemplate(ws, step.workers) then step.workers else ws
  }

  lemma StepKeeps(s: State, step: Step)
    ensures var u := Apply(s, step);
            Kept(s, u) && u.workers == WorkersAfter(s.workers, step)
            && u.lane == if step.StepCheckout? then step.lane else s.lane
  {
    hide Sweep, Cycle, Transport, SameTemplate, Frozen;
    match step
    case StepCycle(now) => CycleKeeps(s, now);
    case StepTransport(mode, inbox, now, dies) => TransportKeeps(s, mode, inbox, now, dies);
    case StepRecoverRca => SweepKeeps(RecoverRca, s, |s.tasks|);
    case StepRecoverBounded => SweepKeeps(RecoverBounded, s, |s.tasks|);
    case StepBlockUnroutable => SweepKeeps(BlockUnroutable, s, |s.tasks|);
    case StepObserve(_) =>
    case StepCheckout(_) =>
  }

  // ---------------------------------------------------------------- over every run

  /** The commit of the last start in the run. */
  function LastLane(lane: Lane, steps: seq<Step>): Lane {
    if steps == [] then lane else
    var last := steps[|steps| - 1];
    if last.StepCheckout? then last.lane else LastLane(lane, steps[..|steps| - 1])
  }

  function LastWorkers(ws: seq<Worker>, steps: seq<Step>): seq<Worker> {
    if steps == [] then ws else WorkersAfter(LastWorkers(ws, steps[..|steps| - 1]), steps[|steps| - 1])
  }

  /**
  No run adds or removes a task, changes its definition or the limits, or touches a quarantined task
  or one that is finished below level 4; the commit is that of the last start, the workers are those
  last observed.
  */
  lemma {:induction false} RunsKeep(s: State, steps: seq<Step>)
    ensures var u := RunSteps(s, steps);
            && |u.tasks| == |s.tasks| && u.maxParallel == s.maxParallel && u.couriers == s.couriers
            && u.lane == LastLane(s.lane, steps) && u.workers == LastWorkers(s.workers, steps)
            && forall i :: 0 <= i < |s.tasks| ==>
                 && u.tasks[i].def == s.tasks[i].def
                 && (s.tasks[i].status == Quarantined || (s.tasks[i].status == Done && s.tasks[i].def.authority < 4)
                     ==> u.tasks[i] == s.tasks[i])
  {
    hide Apply;
    if steps != [] {
      var rest, step := steps[..|steps| - 1], steps[|steps| - 1];
      RunsKeep(s, rest);
      StepKeeps(RunSteps(s, rest), step);
    }
  }
}
