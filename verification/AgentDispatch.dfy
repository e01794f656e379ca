/** Dispatch passes that raise or die: when they do, what they repeat, and the row that stops them for good. */
module AgentDispatch {
  import opened Prelude
  import opened AgentModel
  import opened AgentSafety
  import opened AgentCapacity

  // ---------------------------------------------------------------- when a pass raises

  lemma BadEnvelopeRaises(s: State, now: int, i: nat)
    requires i < |s.tasks|
    ensures At(Dispatch(now), s, i).None? <==> Dispatchable(s, i) && Refused(s.lane, s.tasks[i])
  {
    hide EnvelopeOk;
  }

  /** A row that is to be posted and cannot be: Research QA without its commits, the wrong branch, or a failed envelope check. */
  predicate Refused(lane: Lane, t: Task) {
    || (ResearchQa(t) && !NamesCommits(lane, t))
    || (!Drifted(lane, t) && ((t.def.kind == QaOnly && !lane.trusted) || !EnvelopeOk(t)))
  }

  predicate BadRow(s: State, i: nat) {
    i < |s.tasks| && Dispatchable(s, i) && Refused(s.lane, s.tasks[i])
  }

  /** A pass over the first `n` rows raises if and only if one of them is to be posted and cannot be. */
  lemma {:induction false} SweepFailsIff(s: State, now: int, n: nat)
    requires n <= |s.tasks|
    ensures Sweep(Dispatch(now), s, n).None? <==> exists i :: 0 <= i < n && BadRow(s, i)
  {
    hide At, Refused;
    if n > 0 {
      SweepFailsIff(s, now, n - 1);
      if Sweep(Dispatch(now), s, n - 1).Some? {
        var u := Sweep(Dispatch(now), s, n - 1).value;
        SweepUntouched(Dispatch(now), s, n - 1, n - 1);
        BadEnvelopeRaises(u, now, n - 1);
        assert BadRow(s, n - 1) <==> BadRow(u, n - 1);
      } else {
        var i :| 0 <= i < n - 1 && BadRow(s, i);
      }
    }
  }

  /** One row that cannot be posted stops the whole dispatch pass, and nothing else does. */
  lemma DispatchFailsIff(s: State, now: int)
    ensures Run(Dispatch(now), s).None? <==> exists i :: 0 <= i < |s.tasks| && BadRow(s, i)
  {
    SweepFailsIff(s, now, |s.tasks|);
  }

  // ---------------------------------------------------------------- posts that are made again

  predicate SameTable(a: State, b: State) {
    a.tasks == b.tasks && a.couriers == b.couriers && a.log == b.log && a.lane == b.lane
  }

  lemma RowReads(a: State, b: State, now: int, later: int, i: nat)
    requires i < |a.tasks| == |b.tasks| && a.tasks[i] == b.tasks[i] && a.couriers == b.couriers && a.log == b.log && a.lane == b.lane
    ensures At(Dispatch(now), a, i).Some? <==> At(Dispatch(later), b, i).Some?
    ensures At(Dispatch(now), a, i).Some? ==> At(Dispatch(now), a, i).value.log == At(Dispatch(later), b, i).value.log
  {
    hide EnvelopeOk;
  }

  /** What a dispatch pass posts depends on the table and the commit alone, not on the clock. */
  lemma {:induction false} SweepReads(a: State, b: State, now: int, later: int, n: nat)
    requires SameTable(a, b) && n <= |a.tasks|
    ensures Sweep(Dispatch(now), a, n).Some? <==> Sweep(Dispatch(later), b, n).Some?
    ensures Sweep(Dispatch(now), a, n).Some? ==> Sweep(Dispatch(now), a, n).value.log == Sweep(Dispatch(later), b, n).value.log
  {
    hide At;
    if n > 0 {
      SweepReads(a, b, now, later, n - 1);
      if Sweep(Dispatch(now), a, n - 1).Some? {
        SweepUntouched(Dispatch(now), a, n - 1, n - 1);
        SweepUntouched(Dispatch(later), b, n - 1, n - 1);
        RowReads(Sweep(Dispatch(now), a, n - 1).value, Sweep(Dispatch(later), b, n - 1).value, now, later, n - 1);
      }
    }
  }

  lemma {:induction false} GotReads(a: State, b: State, now: int, later: int, n: nat)
    requires SameTable(a, b) && n <= |a.tasks|
    ensures Got(a, now, n).log == Got(b, later, n).log
  {
    hide Sweep;
    if n > 0 {
      SweepReads(a, b, now, later, n);
      if Sweep(Dispatch(now), a, n).None? { GotReads(a, b, now, later, n - 1); }
    }
  }

  lemma {:induction false} GotGrows(s: State, now: int, n: nat, m: nat)
    requires n <= m <= |s.tasks|
    ensures s.log <= Got(s, now, n).log <= Got(s, now, m).log
  {
    hide Sweep;
    if m > 0 {
      if Sweep(Dispatch(now), s, m).Some? {
        SweepExtendsLog(Dispatch(now), s, n, m);
        LogGrows(Dispatch(now), s, n);
      } else if n < m {
        GotGrows(s, now, n, m - 1);
      } else {
        GotGrows(s, now, n - 1, m - 1);
      }
    }
  }

  /** The table that a run of the transport that only dispatches works on. */
  function Enforced(s: State): State { Run(Enforce, s).value }

  lemma {:induction false} EnforceReads(a: State, b: State, n: nat)
    requires SameTable(a, b) && n <= |a.tasks|
    ensures Sweep(Enforce, a, n).value.tasks == Sweep(Enforce, b, n).value.tasks
    ensures Sweep(Enforce, a, n).value.log == a.log && Sweep(Enforce, b, n).value.log == b.log
  {
    hide EnforceRow;
    if n > 0 { EnforceReads(a, b, n - 1); }
  }

  /**
  A run that dispatched and did not save leaves the table as it was, so the next run posts again
  everything that it had posted, as far as the next run gets.
  */
  lemma FailedRunIsRepeated(s: State, inbox: map<nat, TaskResult>, now: int, dies: Option<nat>, later: int, again: nat)
    requires Fails(s, StepTransport(DispatchOnly, inbox, now, dies)) && Reach(dies, |s.tasks|) <= again <= |s.tasks|
    ensures var t := Apply(s, StepTransport(DispatchOnly, inbox, now, dies));
            && t.tasks == s.tasks && t.log == s.log
            && t.lost == s.lost + Posts(Enforced(s), now, Reach(dies, |s.tasks|))
            && Posts(Enforced(s), now, Reach(dies, |s.tasks|)) <= Posts(Enforced(t), later, again)
  {
    hide Sweep, Got;
    var t := Apply(s, StepTransport(DispatchOnly, inbox, now, dies));
    var n := Reach(dies, |s.tasks|);
    EnforceReads(s, t, |s.tasks|);
    GotReads(Enforced(s), Enforced(t), now, later, n);
    GotGrows(Enforced(t), later, n, again);
    GotGrows(Enforced(s), now, n, n);
  }

  // ---------------------------------------------------------------- the row that stops every dispatch

  /** The families that only their designated workers can be dispatched to. */
  predicate Special(k: Kind) { k in {Development, EconReview, QaOnly} }

  /** A special task leased to an analyst: not dispatched, not dispatchable, and due for another analyst when it expires. */
  predicate Wedged(s: State, i: nat) {
    && i < |s.tasks|
    && var t := s.tasks[i];
       && Special(t.def.kind) && t.def.authority < 4 && t.status == Running && t.mode == RootCause
       && t.lease.Some? && t.worker.Some? && t.worker.value !in s.couriers && t.dispatch != Some(DispatchIdFor(t, i))
       && (t.def.kind != QaOnly ==> t.producer == DesignatedProducer(t.def.kind) && t.worker != t.producer)
       && (t.failure == Transient ==> t.retries >= 1)
  }

  /** While such a row is there, every dispatch pass raises. */
  lemma WedgedStopsDispatch(s: State, i: nat, now: int)
    requires Wedged(s, i)
    ensures Run(Dispatch(now), s).None?
  {
    assert BadRow(s, i);
    DispatchFailsIff(s, now);
  }

  /** No analyst was found, or the analyst's work is carried by the offline courier. */
  predicate LetGo(s: State, i: nat) {
    i < |s.tasks| && (s.tasks[i].status == Blocked || (s.tasks[i].worker.Some? && s.tasks[i].worker.value in s.couriers))
  }

  /** What a pass over all rows makes of one row. */
  lemma RowOfRun(p: Pass, s: State, i: nat)
    requires !p.Assign? && i < |s.tasks| && Run(p, s).Some?
    ensures Sweep(p, s, i).Some? && Sweep(p, s, i).value.tasks[i] == s.tasks[i] && At(p, Sweep(p, s, i).value, i).Some?
    ensures Run(p, s).value.tasks[i] == At(p, Sweep(p, s, i).value, i).value.tasks[i]
  {
    hide At;
    SweepUntouched(p, s, i, i);
    RowSettled(p, s, i, |s.tasks|);
  }

  lemma {:induction false} RowSettled(p: Pass, s: State, i: nat, n: nat)
    requires !p.Assign? && i < n <= |s.tasks| && Sweep(p, s, n).Some?
    ensures Sweep(p, s, i).Some? && At(p, Sweep(p, s, i).value, i).Some?
    ensures Sweep(p, s, n).value.tasks[i] == At(p, Sweep(p, s, i).value, i).value.tasks[i]
  {
    hide At;
    if i < n - 1 {
      RowSettled(p, s, i, n - 1);
      AtKeepsShape(p, Sweep(p, s, n - 1).value, n - 1);
    }
  }

  lemma NotReadyNotAssigned(s: State, now: int, i: nat)
    requires i < |s.tasks| && s.tasks[i].status != Ready
    ensures Run(Assign(now, Ranked(s.tasks, |s.tasks|)), s).value.tasks[i] == s.tasks[i]
  {
    hide At;
    var p := Assign(now, Ranked(s.tasks, |s.tasks|));
    SweepUntouched(p, s, |p.order|, i);
  }

  /** A special row that works, is stale and is not due for a direct retry goes to an analyst, if there is one. */
  predicate Expiring(s: State, i: nat, now: int) {
    && i < |s.tasks|
    && var t := s.tasks[i];
       Special(t.def.kind) && t.def.authority < 4 && Active(t.status) && Stale(t, now) && (t.failure == Transient ==> t.retries >= 1)
  }

  lemma TriageWedges(s: State, i: nat, now: int)
    requires Safe(s) && i < |s.tasks| && s.tasks[i].status == Triage
    requires Special(s.tasks[i].def.kind) && s.tasks[i].def.authority < 4
    requires s.tasks[i].failure == Transient ==> s.tasks[i].retries >= 1
    ensures Wedged(TriageRow(s, i, now), i) || LetGo(TriageRow(s, i, now), i)
    ensures TriageRow(s, i, now).tasks[i].status == Blocked
            <==> Analyst(s.tasks[i], s.workers, LoadMap(s.tasks, s.workers, None)).None?
  {
    hide LoadMap, Tally, Analyst, LogOk, LostOk, Distinct, Times;
    assert RowOk(s, s.tasks[i], i);
  }

  /** The table that a cycle starts to route. */
  function BeforeRouting(s: State, now: int): (r: State)
    ensures |r.tasks| == |s.tasks|
  {
    Run(Expire(now), Run(Enforce, s).value).value
  }

  lemma ExpiredRow(s: State, now: int, i: nat)
    requires Safe(s) && i < |s.tasks| && s.tasks[i].def.authority < 4
    ensures Safe(BeforeRouting(s, now)) && BeforeRouting(s, now).tasks[i] == ExpireRow(s.tasks[i], now)
    ensures BeforeRouting(s, now).couriers == s.couriers && BeforeRouting(s, now).workers == s.workers
  {
    hide Safe, Sweep;
    RunSafe(Enforce, s);
    RowOfRun(Enforce, s, i);
    RunSafe(Expire(now), Run(Enforce, s).value);
    RowOfRun(Expire(now), Run(Enforce, s).value, i);
  }

  /** The table in which a routing pass over `b` reaches row `i`. */
  function AtRow(b: State, now: int, i: nat): (r: State)
    requires i < |b.tasks|
    ensures |r.tasks| == |b.tasks|
  {
    Sweep(RouteTriage(now), b, i).value
  }

  lemma RoutedRow(b: State, now: int, i: nat)
    requires Safe(b) && i < |b.tasks|
    ensures var v := AtRow(b, now, i);
            && Safe(v) && v.tasks[i] == b.tasks[i] && v.couriers == b.couriers && v.workers == b.workers
            && Run(RouteTriage(now), b).value.tasks[i] == TriageRow(v, i, now).tasks[i]
  {
    hide Safe, TriageRow;
    SweepSafe(RouteTriage(now), b, i);
    RowOfRun(RouteTriage(now), b, i);
  }

  /** Releasing and assigning do not touch a row that is neither PENDING nor READY. */
  lemma RestOfCycle(c: State, now: int, i: nat)
    requires i < |c.tasks| && c.tasks[i].status !in {Pending, Ready}
    ensures var d := Run(Release, c).value;
            Run(Assign(now, Ranked(d.tasks, |d.tasks|)), d).value.tasks[i] == c.tasks[i]
  {
    hide Sweep, DependenciesDone;
    RowOfRun(Release, c, i);
    NotReadyNotAssigned(Run(Release, c).value, now, i);
  }

  lemma CycleIs(s: State, now: int)
    ensures var c := Run(RouteTriage(now), BeforeRouting(s, now)).value;
            var d := Run(Release, c).value;
            Cycle(s, now) == Run(Assign(now, Ranked(d.tasks, |d.tasks|)), d).value && Cycle(s, now).couriers == s.couriers
  {
    hide Sweep;
  }

  /** Being wedged or let go is about the row and the couriers alone. */
  lemma SameRowSameFate(x: State, y: State, i: nat)
    requires i < |x.tasks| && i < |y.tasks| && x.tasks[i] == y.tasks[i] && x.couriers == y.couriers
    ensures (Wedged(x, i) <==> Wedged(y, i)) && (LetGo(x, i) <==> LetGo(y, i))
  {
  }

  /** What a cycle does to a special row that expires: an analyst takes it, and then every dispatch raises, or it is let go. */
  lemma ExpiredSpecialTaskWedges(s: State, now: int, i: nat)
    requires Safe(s) && Expiring(s, i, now)
    ensures |Cycle(s, now).tasks| == |s.tasks| && (Wedged(Cycle(s, now), i) || LetGo(Cycle(s, now), i))
    ensures var v := AtRow(BeforeRouting(s, now), now, i);
            && v.tasks[i] == ExpireRow(s.tasks[i], now) && v.workers == s.workers && v.couriers == s.couriers
            && Cycle(s, now).tasks[i] == TriageRow(v, i, now).tasks[i]
            && (Cycle(s, now).tasks[i].status == Blocked <==> Analyst(v.tasks[i], v.workers, LoadMap(v.tasks, v.workers, None)).None?)
  {
    var b := BeforeRouting(s, now);
    ExpiredRow(s, now, i);
    RoutedRow(b, now, i);
    hide Safe, Run, Analyst, LoadMap, TriageRow, BeforeRouting, AtRow, Cycle, Wedged;
    var v, c := AtRow(b, now, i), Run(RouteTriage(now), b).value;
    TriageWedges(v, i, now);
    AnalystRunsOrBlocks(v, i, now);
    RestOfCycle(c, now, i);
    CycleIs(s, now);
    RoutedShape(v, i, now);
    SameRowSameFate(TriageRow(v, i, now), Cycle(s, now), i);
  }

  lemma RoutedShape(v: State, i: nat, now: int)
    requires i < |v.tasks|
    ensures |TriageRow(v, i, now).tasks| == |v.tasks| && TriageRow(v, i, now).couriers == v.couriers
  {
    hide Analyst, LoadMap;
  }

  lemma AnalystRunsOrBlocks(v: State, i: nat, now: int)
    requires i < |v.tasks| && v.tasks[i].status == Triage && Special(v.tasks[i].def.kind) && v.tasks[i].def.authority < 4
    requires v.tasks[i].failure == Transient ==> v.tasks[i].retries >= 1
    ensures TriageRow(v, i, now).tasks[i].status in {Running, Blocked}
  {
    hide Analyst, LoadMap;
  }

  /** A special task whose lease expires into an analyst's hands stops every dispatch from the cycle on. */
  lemma AnalystOfSpecialTaskStopsDispatch(s: State, now: int, i: nat, later: int)
    requires Safe(s) && Expiring(s, i, now) && !LetGo(Cycle(s, now), i)
    ensures Run(Dispatch(later), Cycle(s, now)).None?
  {
    ExpiredSpecialTaskWedges(s, now, i);
    WedgedStopsDispatch(Cycle(s, now), i, later);
  }

  // ---------------------------------------------------------------- over runs

  lemma CycleKeepsWedge(s: State, now: int, i: nat)
    requires Safe(s) && Wedged(s, i)
    ensures Wedged(Cycle(s, now), i) || (LetGo(Cycle(s, now), i) && Stale(s.tasks[i], now))
  {
    if Stale(s.tasks[i], now) {
      WedgedExpires(s, i, now);
      ExpiredSpecialTaskWedges(s, now, i);
    } else {
      QuietCycle(s, now, i);
      CycleShape(s, now);
      hide Cycle;
      SameRowSameFate(s, Cycle(s, now), i);
    }
  }

  lemma OtherRowStays(v: State, i: nat, now: int)
    requires i < |v.tasks| && v.tasks[i].status != Triage
    ensures TriageRow(v, i, now) == v
  {
  }

  lemma WedgedExpires(s: State, i: nat, now: int)
    requires Wedged(s, i) && Stale(s.tasks[i], now)
    ensures Expiring(s, i, now)
  {
  }

  /** Every step but a cycle keeps the row. */
  lemma OtherStepKeepsRow(s: State, step: Step, i: nat)
    requires Wedged(s, i) && !step.StepCycle?
    ensures var r := Apply(s, step); |r.tasks| == |s.tasks| && r.couriers == s.couriers && r.tasks[i] == s.tasks[i]
    ensures Apply(s, step).workers == if step.StepObserve? && SameTemplate(s.workers, step.workers) then step.workers else s.workers
  {
    hide Sweep, Got, SameTemplate;
    match step
    case StepTransport(mode, inbox, now, dies) =>
      var e := Run(Enforce, s).value;
      RowOfRun(Enforce, s, i);
      if mode != DispatchOnly && Run(Poll(inbox, now), e).Some? { RowOfRun(Poll(inbox, now), e, i); }
      if Polled(s, mode, inbox, now).Some? { WedgedStopsDispatch(Polled(s, mode, inbox, now).value, i, now); }
    case StepRecoverRca => RowOfRun(RecoverRca, s, i);
    case StepRecoverBounded => RowOfRun(RecoverBounded, s, i);
    case StepBlockUnroutable => RowOfRun(BlockUnroutable, s, i);
    case StepObserve(_) =>
    case StepCheckout(_) =>
  }

  /** A wedged row leaves only by a cycle that finds it stale and then finds no analyst, or one that the courier serves. */
  lemma StepKeepsWedge(s: State, step: Step, i: nat)
    requires Safe(s) && Wedged(s, i)
    ensures Wedged(Apply(s, step), i) || (LetGo(Apply(s, step), i) && step.StepCycle? && Stale(s.tasks[i], step.now))
  {
    hide Safe, Apply;
    if step.StepCycle? {
      CycleStep(s, step);
      CycleKeepsWedge(s, step.now, i);
    } else {
      OtherStepKeepsRow(s, step, i);
      SameRowSameFate(s, Apply(s, step), i);
    }
  }

  lemma CycleStep(s: State, step: Step)
    requires step.StepCycle?
    ensures Apply(s, step) == Cycle(s, step.now)
  {
  }

  /** A wedge lasts, and no dispatch pass ends, as long as each cycle that finds the row stale finds it an analyst of its own. */
  lemma {:induction false} WedgeLasts(s: State, steps: seq<Step>, i: nat, now: int)
    requires Safe(s) && Wedged(s, i) && forall k :: 0 <= k <= |steps| ==> !LetGo(RunSteps(s, steps[..k]), i)
    ensures Wedged(RunSteps(s, steps), i) && Run(Dispatch(now), RunSteps(s, steps)).None?
  {
    hide Apply, Safe, Wedged, LetGo;
    if steps != [] {
      var rest := steps[..|steps| - 1];
      forall k | 0 <= k <= |rest| ensures !LetGo(RunSteps(s, rest[..k]), i) {
        assert rest[..k] == steps[..k];
      }
      WedgeLasts(s, rest, i, now);
      EveryRunSafe(s, rest);
      StepKeepsWedge(RunSteps(s, rest), steps[|steps| - 1], i);
      assert steps[..|steps|] == steps;
    }
    WedgedStopsDispatch(RunSteps(s, steps), i, now);
  }

  // ---------------------------------------------------------------- when there is always an analyst

  /** An analyst for a task of this authority and producer who has room for every other task, and none who is served by the courier. */
  predicate AlwaysAnalyst(ws: seq<Worker>, couriers: set<nat>, tasks: nat, def: TaskDef, producer: Option<nat>) {
    && (exists w :: w in ws && w.enabled && def.authority <= w.authorityMax && RCA_CAPABILITIES <= w.capabilities
                    && producer != Some(w.id) && tasks <= w.capacity)
    && (forall w :: w in ws && RCA_CAPABILITIES <= w.capabilities ==> w.id !in couriers)
  }

  lemma {:induction false} TallyBelow(ts: seq<Task>, i: nat, sel: Sel)
    requires i < |ts| && !Hit(sel, ts[i])
    ensures Tally(ts, sel) < |ts|
  {
    TallyWithout(ts, i, sel);
    TallyAtMost(ts[..i] + ts[i + 1..], sel);
  }

  lemma {:induction false} TallyAtMost(ts: seq<Task>, sel: Sel)
    ensures Tally(ts, sel) <= |ts|
  {
    if ts != [] { TallyAtMost(ts[..|ts| - 1], sel); }
  }

  lemma AnalystFound(v: State, i: nat, now: int)
    requires i < |v.tasks| && v.tasks[i].status == Triage
    requires AlwaysAnalyst(v.workers, v.couriers, |v.tasks|, v.tasks[i].def, v.tasks[i].producer)
    ensures var r := Analyst(v.tasks[i], v.workers, LoadMap(v.tasks, v.workers, None));
            r.Some? && r.value.id !in v.couriers
  {
    hide Tally, LoadMap;
    var w :| w in v.workers && w.enabled && v.tasks[i].def.authority <= w.authorityMax && RCA_CAPABILITIES <= w.capabilities
             && v.tasks[i].producer != Some(w.id) && |v.tasks| <= w.capacity;
    LoadIsTally(v.tasks, v.workers, None, w);
    TallyBelow(v.tasks, i, SelWorker(w.id));
    assert CanAnalyse(v.tasks[i], w, LoadMap(v.tasks, v.workers, None));
  }

  /** The row as a wedge keeps it: definition and producer stay. */
  predicate SameWork(t: Task, u: Task) { t.def == u.def && t.producer == u.producer }

  lemma AnalystTakesOver(v: State, i: nat, now: int)
    requires i < |v.tasks| && v.tasks[i].status == Triage && Special(v.tasks[i].def.kind) && v.tasks[i].def.authority < 4
    requires v.tasks[i].failure == Transient ==> v.tasks[i].retries >= 1
    requires AlwaysAnalyst(v.workers, v.couriers, |v.tasks|, v.tasks[i].def, v.tasks[i].producer)
    ensures !LetGo(TriageRow(v, i, now), i) && SameWork(v.tasks[i], TriageRow(v, i, now).tasks[i])
  {
    AnalystFound(v, i, now);
    hide AlwaysAnalyst, Analyst, LoadMap;
  }

  predicate AnalystsStay(s: State, i: nat) {
    i < |s.tasks| && AlwaysAnalyst(s.workers, s.couriers, |s.tasks|, s.tasks[i].def, s.tasks[i].producer)
  }

  lemma CycleKeepsAnalysts(s: State, now: int, i: nat)
    requires Safe(s) && Wedged(s, i) && AnalystsStay(s, i)
    ensures Wedged(Cycle(s, now), i) && AnalystsStay(Cycle(s, now), i) && SameWork(s.tasks[i], Cycle(s, now).tasks[i])
  {
    CycleShape(s, now);
    if Stale(s.tasks[i], now) {
      WedgedExpires(s, i, now);
      ExpiredSpecialTaskWedges(s, now, i);
      var v := AtRow(BeforeRouting(s, now), now, i);
      RoutedLength(s, now, i);
      hide Safe, Cycle, AtRow, BeforeRouting, AlwaysAnalyst, TriageRow, Wedged;
      AnalystTakesOver(v, i, now);
      RoutedShape(v, i, now);
      SameRowSameFate(TriageRow(v, i, now), Cycle(s, now), i);
    } else {
      hide Cycle, AlwaysAnalyst;
      QuietCycle(s, now, i);
      SameRowSameFate(s, Cycle(s, now), i);
    }
  }

  lemma RoutedLength(s: State, now: int, i: nat)
    requires i < |s.tasks|
    ensures |AtRow(BeforeRouting(s, now), now, i).tasks| == |s.tasks|
  {
  }

  lemma CycleShape(s: State, now: int)
    ensures var r := Cycle(s, now); |r.tasks| == |s.tasks| && r.workers == s.workers && r.couriers == s.couriers
  {
    hide Sweep;
  }

  lemma QuietCycle(s: State, now: int, i: nat)
    requires Safe(s) && Wedged(s, i) && !Stale(s.tasks[i], now)
    ensures |Cycle(s, now).tasks| == |s.tasks| && Cycle(s, now).tasks[i] == s.tasks[i]
  {
    var b := BeforeRouting(s, now);
    ExpiredRow(s, now, i);
    RoutedRow(b, now, i);
    CycleShape(s, now);
    hide Safe, Run, BeforeRouting, AtRow, Cycle;
    OtherRowStays(AtRow(b, now, i), i, now);
    CycleIs(s, now);
    RestOfCycle(Run(RouteTriage(now), b).value, now, i);
  }

  /** The steps never take the last roomy analyst away. */
  predicate LeavesAnalysts(s: State, i: nat, step: Step)
    requires i < |s.tasks|
  {
    step.StepObserve? ==> AlwaysAnalyst(step.workers, s.couriers, |s.tasks|, s.tasks[i].def, s.tasks[i].producer)
  }

  lemma StepKeepsAnalysts(s: State, step: Step, i: nat)
    requires Safe(s) && Wedged(s, i) && AnalystsStay(s, i) && LeavesAnalysts(s, i, step)
    ensures Wedged(Apply(s, step), i) && AnalystsStay(Apply(s, step), i) && SameWork(s.tasks[i], Apply(s, step).tasks[i])
    ensures |Apply(s, step).tasks| == |s.tasks| && Apply(s, step).couriers == s.couriers
  {
    hide Safe, Sweep, Cycle, Transport, SameTemplate, AlwaysAnalyst;
    if step.StepCycle? {
      CycleKeepsAnalysts(s, step.now, i);
      CycleShape(s, step.now);
    } else {
      StepKeepsWedge(s, step, i);
      OtherStepKeepsRow(s, step, i);
    }
  }

  /**
  With an analyst who always has room, and none of them served by the courier, the wedge is
  permanent: over every run the row stays with analysts and no dispatch pass ever ends.
  */
  lemma {:induction false} WedgeIsPermanent(s: State, steps: seq<Step>, i: nat, now: int)
    requires Safe(s) && Wedged(s, i) && AnalystsStay(s, i)
    requires forall k :: 0 <= k < |steps| ==> LeavesAnalysts(s, i, steps[k])
    ensures var r := RunSteps(s, steps);
            && Wedged(r, i) && AnalystsStay(r, i) && SameWork(s.tasks[i], r.tasks[i])
            && |r.tasks| == |s.tasks| && r.couriers == s.couriers && Run(Dispatch(now), r).None?
  {
    hide Apply, Safe, Wedged, AlwaysAnalyst;
    if steps != [] {
      var rest := steps[..|steps| - 1];
      WedgeIsPermanent(s, rest, i, now);
      EveryRunSafe(s, rest);
      StepKeepsAnalysts(RunSteps(s, rest), steps[|steps| - 1], i);
    }
    WedgedStopsDispatch(RunSteps(s, steps), i, now);
  }
}
