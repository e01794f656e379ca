/** When the backfill recovers: from which states it completes, what tears a unit, what the source list misses. */
module BackfillRecovery {
  import opened Prelude
  import opened Calendar
  import opened ArchivePlan
  import opened Backfill
  import opened BackfillLaws

  function Work(runs: seq<Run>): nat {
    if runs == [] then 0 else Work(runs[..|runs| - 1]) + runs[|runs| - 1].max
  }

  predicate Faultless(runs: seq<Run>) {
    forall i :: 0 <= i < |runs| ==> runs[i].faults == []
  }

  // ---------------------------------------------------------------- faultless runs

  /** `g` units pass the integrity check, and the next one, if any, does not. */
  predicate GoodUpTo(archive: Archive, units: seq<Unit>, m: nat, g: nat) {
    g <= |units| && Good(archive, units, g, m) && (g < |units| ==> !Good(archive, units, g + 1, m))
  }

  /** `r` is `s` with the units from `c` up to `d` stored, recorded and entered in the manifest. */
  predicate Extended(s: Store, r: Store, archive: Archive, units: seq<Unit>, m: nat, c: nat, d: nat) {
    && c <= d <= |units| && Reached(r, archive, units, m, d, 0)
    && r.manifest == s.manifest + units[c..d]
    && (Good(archive, units, |units|, m) ==> r.failed == s.failed)
  }

  /** The next unit of an untorn state stages when its archive passes the integrity check. */
  lemma {:induction false} GoodStages(series: seq<Frame>, archive: Archive, units: seq<Unit>, start: Date, end: Date, m: nat, c: nat, k: nat)
    requires PlanOk(units, start, end) && c < |units| && Good(archive, units, c + 1, m) && k <= m == |series|
    requires forall i :: 0 <= i < m ==> series[i] == Stored(archive, units, c, i)
    ensures Staged(series, archive, units[c], k).Ok?
  {
    hide PlanOk, MergeWithoutOverlap, Stored;
    if k > 0 {
      GoodStages(series, archive, units, start, end, m, c, k - 1);
      NextAppends(archive, units, start, end, c, m, k - 1);
    }
  }

  lemma GoodPart(archive: Archive, units: seq<Unit>, m: nat, g: nat, c: nat)
    requires GoodUpTo(archive, units, m, g) && c <= |units|
    ensures Good(archive, units, c, m) <==> c <= g
  {
    if c > g {
      var i, k :| 0 <= i < g + 1 && 0 <= k < m && TimesOf(archive(units[i], k)) != Expected(units[i], k);
      assert i < c;
    }
  }

  /** An attempt without a fault on the next unit of an untorn state: it works exactly when the unit's archives are good. */
  lemma AttemptFaultless(s: Store, archive: Archive, units: seq<Unit>, start: Date, end: Date, m: nat, c: nat)
    requires PlanOk(units, start, end) && Reached(s, archive, units, m, c, 0) && c < |units|
    ensures var (after, on) := Attempt(s, archive, units[c], NoFault);
            && (on <==> Good(archive, units, c + 1, m))
            && (on ==> Extended(s, after, archive, units, m, c, c + 1))
            && (!on ==> after == Failed(s, units[c]))
  {
    hide PlanOk, Staged, Stored;
    if Good(archive, units, c + 1, m) { GoodStages(s.series, archive, units, start, end, m, c, m); }
    if Staged(s.series, archive, units[c], m).Ok? { StagedReached(s, archive, units, start, end, m, c); }
    assert units[..c + 1] == units[..c] + [units[c]] && units[c..c + 1] == [units[c]];
  }

  lemma {:induction false} ProcessedFaultless(
    s: Store, archive: Archive, units: seq<Unit>, start: Date, end: Date, m: nat, g: nat, c: nat, selected: seq<Unit>, i: nat)
    requires PlanOk(units, start, end) && GoodUpTo(archive, units, m, g)
    requires c + |selected| <= |units| && selected == units[c..c + |selected|] && i <= |selected|
    requires c + i <= g && Reached(s, archive, units, m, c + i, 0)
    ensures Extended(s, Processed(s, archive, selected, [], i), archive, units, m, c + i, Least(c + |selected|, g))
    decreases |selected| - i
  {
    hide PlanOk, Attempt, Good, Staged, Stored;
    assert units[c + i..c + i] == [];
    if i < |selected| {
      assert selected[i] == units[c + i];
      AttemptFaultless(s, archive, units, start, end, m, c + i);
      GoodPart(archive, units, m, g, c + i + 1);
      if c + i < g {
        var after := Attempt(s, archive, units[c + i], NoFault).0;
        var d := Least(c + |selected|, g);
        ProcessedFaultless(after, archive, units, start, end, m, g, c, selected, i + 1);
        assert units[c + i..d] == units[c + i..c + i + 1] + units[c + i + 1..d];
      } else {
        GoodPart(archive, units, m, g, |units|);
      }
    }
  }

  lemma RanFaultless(s: Store, archive: Archive, plan: Plan, start: Date, end: Date, m: nat, g: nat, c: nat, max: nat)
    requires PlanOk(plan.units, start, end) && plan.unavailable == [] && GoodUpTo(archive, plan.units, m, g)
    requires c <= g && Reached(s, archive, plan.units, m, c, 0)
    ensures Extended(s, Ran(s, archive, plan, max, []), archive, plan.units, m, c, Least(c + max, g))
  {
    hide PlanOk, Pending, Processed, Good, Extended;
    PlanOrder(plan.units, start, end);
    PendingSuffix(plan.units, start, end, c);
    var pending := plan.units[c..];
    var selected := pending[..Least(max, |pending|)];
    assert selected == plan.units[c..c + |selected|];
    ProcessedFaultless(s, archive, plan.units, start, end, m, g, c, selected, 0);
  }

  lemma ExtendedJoin(a: Store, b: Store, r: Store, archive: Archive, units: seq<Unit>, m: nat, c: nat, d: nat, e: nat)
    requires Extended(a, b, archive, units, m, c, d) && Extended(b, r, archive, units, m, d, e)
    ensures Extended(a, r, archive, units, m, c, e)
  {
    hide Reached, Good;
    assert units[c..e] == units[c..d] + units[d..e];
  }

  /** How many units from the first on have archives that pass the integrity check. */
  ghost function GoodCount(archive: Archive, units: seq<Unit>, m: nat): (g: nat)
    ensures GoodUpTo(archive, units, m, g)
  {
    GoodCountIn(archive, units, m, |units|)
  }

  ghost function GoodCountIn(archive: Archive, units: seq<Unit>, m: nat, n: nat): (g: nat)
    requires n <= |units|
    ensures g <= n && Good(archive, units, g, m) && (g < n ==> !Good(archive, units, g + 1, m))
  {
    if n == 0 then 0 else
    var g := GoodCountIn(archive, units, m, n - 1);
    if g == n - 1 && Good(archive, units, n, m) then n else g
  }

  lemma ReachedIsGood(s: Store, archive: Archive, units: seq<Unit>, m: nat, c: nat)
    requires Reached(s, archive, units, m, c, 0)
    ensures c <= GoodCount(archive, units, m)
  {
    GoodPart(archive, units, m, GoodCount(archive, units, m), c);
  }

  /**
  From any untorn state, however it came about, runs without faults record exactly the next units up
  to the sum of their bounds or the first bad archive: how the work is cut into runs does not matter.
  */
  lemma {:induction false} BoundIndependence(s: Store, archive: Archive, plan: Plan, start: Date, end: Date, m: nat, c: nat, runs: seq<Run>)
    requires PlanOk(plan.units, start, end) && plan.unavailable == [] && Reached(s, archive, plan.units, m, c, 0) && Faultless(runs)
    ensures c <= GoodCount(archive, plan.units, m)
    ensures Extended(s, AllRan(s, archive, plan, runs), archive, plan.units, m, c, Least(c + Work(runs), GoodCount(archive, plan.units, m)))
  {
    hide PlanOk, Ran, Good, GoodCount;
    ReachedIsGood(s, archive, plan.units, m, c);
    if runs == [] {
      assert plan.units[c..c] == [];
    } else {
      hide Extended, Reached;
      var rest, max := runs[..|runs| - 1], runs[|runs| - 1].max;
      BoundIndependence(s, archive, plan, start, end, m, c, rest);
      var g := GoodCount(archive, plan.units, m);
      var before, d := AllRan(s, archive, plan, rest), Least(c + Work(rest), g);
      ExtendedReached(s, before, archive, plan.units, m, c, d);
      RanFaultless(before, archive, plan, start, end, m, g, d, max);
      ExtendedJoin(s, before, AllRan(s, archive, plan, runs), archive, plan.units, m, c, d, Least(d + max, g));
    }
  }

  lemma ExtendedReached(s: Store, r: Store, archive: Archive, units: seq<Unit>, m: nat, c: nat, d: nat)
    requires Extended(s, r, archive, units, m, c, d)
    ensures d <= |units| && Reached(r, archive, units, m, d, 0) && r.completed == units[..d]
  {
  }

  /** From any state that runs can reach, runs without faults complete the plan if and only if nothing is torn and archives and bounds suffice. */
  lemma CompletesIff(s: Store, archive: Archive, plan: Plan, start: Date, end: Date, m: nat, c: nat, n: nat, runs: seq<Run>)
    requires PlanOk(plan.units, start, end) && plan.unavailable == [] && Reached(s, archive, plan.units, m, c, n) && Faultless(runs)
    ensures AllRan(s, archive, plan, runs).completed == plan.units
            <==> n == 0 && Good(archive, plan.units, |plan.units|, m) && |plan.units| <= c + Work(runs)
  {
    hide AllRan, Work, PlanOk, Good;
    if n > 0 {
      TornForever(s, archive, plan, start, end, m, c, n, runs);
      assert |s.completed| == c < |plan.units|;
    } else {
      hide Reached;
      BoundIndependence(s, archive, plan, start, end, m, c, runs);
      hide Extended, GoodCount, Faultless;
      PrefixIsAll(s, AllRan(s, archive, plan, runs), archive, plan.units, m, c, c + Work(runs), GoodCount(archive, plan.units, m));
    }
  }

  lemma PrefixIsAll(s: Store, r: Store, archive: Archive, units: seq<Unit>, m: nat, c: nat, bound: nat, g: nat)
    requires GoodUpTo(archive, units, m, g) && Extended(s, r, archive, units, m, c, Least(bound, g))
    ensures r.completed == units <==> Good(archive, units, |units|, m) && |units| <= bound
  {
    hide Good, Stored;
    GoodPart(archive, units, m, g, |units|);
    assert units[..|units|] == units && |r.completed| == Least(bound, g);
  }

  // ---------------------------------------------------------------- faults that leave their mark

  /** A fault that cuts off a commit after its first file, or one that strikes between the checkpoint and the manifest. */
  datatype Blow = Tear | Skip

  predicate Deals(blow: Blow, fault: Fault) {
    match blow
    case Tear => fault.CommitFault? && fault.replaced > 0
    case Skip => fault.RecordFault?
  }

  function Hit(blow: Blow, s: Store, archive: Archive, u: Unit, fault: Fault): nat {
    if Staged(s.series, archive, u, |s.series|).Ok? && Deals(blow, fault) then 1 else 0
  }

  /** How many units that did stage were struck so in `Processed`. */
  function Hits(blow: Blow, s: Store, archive: Archive, units: seq<Unit>, faults: seq<Fault>, i: nat): nat
    requires i <= |units|
    decreases |units| - i
  {
    if i == |units| then 0 else
    var (after, on) := Attempt(s, archive, units[i], FaultAt(faults, i));
    Hit(blow, s, archive, units[i], FaultAt(faults, i)) + if on then Hits(blow, after, archive, units, faults, i + 1) else 0
  }

  function RunHits(blow: Blow, s: Store, archive: Archive, plan: Plan, run: Run): nat {
    if plan.unavailable != [] then 0 else
    var pending := Pending(plan.units, s.completed);
    Hits(blow, s, archive, pending[..Least(run.max, |pending|)], run.faults, 0)
  }

  function AllHits(blow: Blow, s: Store, archive: Archive, plan: Plan, runs: seq<Run>): nat {
    if runs == [] then 0 else
    var rest := runs[..|runs| - 1];
    AllHits(blow, s, archive, plan, rest) + RunHits(blow, AllRan(s, archive, plan, rest), archive, plan, runs[|runs| - 1])
  }

  /** No fault of any run is of this kind. */
  predicate Free(blow: Blow, runs: seq<Run>) {
    forall i, j :: 0 <= i < |runs| && 0 <= j < |runs[i].faults| ==> !Deals(blow, runs[i].faults[j])
  }

  lemma {:induction false} NoHits(blow: Blow, s: Store, archive: Archive, units: seq<Unit>, faults: seq<Fault>, i: nat)
    requires i <= |units| && forall j :: 0 <= j < |faults| ==> !Deals(blow, faults[j])
    ensures Hits(blow, s, archive, units, faults, i) == 0
    decreases |units| - i
  {
    hide Attempt;
    if i < |units| {
      assert !Deals(blow, FaultAt(faults, i));
      var (after, on) := Attempt(s, archive, units[i], FaultAt(faults, i));
      if on { NoHits(blow, after, archive, units, faults, i + 1); }
    }
  }

  lemma {:induction false} FreeOfHits(blow: Blow, s: Store, archive: Archive, plan: Plan, runs: seq<Run>)
    requires Free(blow, runs)
    ensures AllHits(blow, s, archive, plan, runs) == 0
  {
    hide Pending, Hits, Deals;
    if runs != [] {
      var rest, run := runs[..|runs| - 1], runs[|runs| - 1];
      FreeOfHits(blow, s, archive, plan, rest);
      var before := AllRan(s, archive, plan, rest);
      var pending := Pending(plan.units, before.completed);
      NoHits(blow, before, archive, pending[..Least(run.max, |pending|)], run.faults, 0);
    }
  }

  // ---------------------------------------------------------------- torn units

  ghost predicate Untorn(s: Store, archive: Archive, units: seq<Unit>, m: nat) {
    exists c: nat :: Reached(s, archive, units, m, c, 0)
  }

  ghost predicate Torn(s: Store, archive: Archive, units: seq<Unit>, m: nat) {
    exists c: nat, n: nat :: n > 0 && Reached(s, archive, units, m, c, n)
  }

  lemma NotBoth(s: Store, archive: Archive, units: seq<Unit>, start: Date, end: Date, m: nat)
    requires PlanOk(units, start, end) && Torn(s, archive, units, m) && m > 0
    ensures !Untorn(s, archive, units, m)
  {
    hide PlanOk, Stored, Reached;
    var c: nat, n: nat :| n > 0 && Reached(s, archive, units, m, c, n);
    FirstSeries(s, archive, units, m, c, n);
    StoredGrows(archive, units, start, end, c, m);
    if Untorn(s, archive, units, m) {
      var d: nat :| Reached(s, archive, units, m, d, 0);
      FirstSeries(s, archive, units, m, d, 0);
    }
  }

  lemma FirstSeries(s: Store, archive: Archive, units: seq<Unit>, m: nat, c: nat, n: nat)
    requires Reached(s, archive, units, m, c, n) && m > 0
    ensures c == |s.completed| <= |units| && |s.series| == m
    ensures n > 0 ==> c < |units| && Good(archive, units, c + 1, m)
    ensures s.series[0] == Stored(archive, units, if n > 0 then c + 1 else c, 0)
  {
  }

  lemma StoredGrows(archive: Archive, units: seq<Unit>, start: Date, end: Date, c: nat, m: nat)
    requires PlanOk(units, start, end) && c < |units| && Good(archive, units, c + 1, m) && m > 0
    ensures Stored(archive, units, c, 0) != Stored(archive, units, c + 1, 0)
  {
    hide PlanOk;
    UnitDays(units, start, end, c);
    assert |Expected(units[c], 0)| > 0;
  }

  /** An attempt on the next unit of an untorn state tears it exactly when the unit stages and a file, but not the checkpoint, is replaced. */
  lemma AttemptTears(s: Store, archive: Archive, units: seq<Unit>, start: Date, end: Date, m: nat, c: nat, fault: Fault)
    requires PlanOk(units, start, end) && Reached(s, archive, units, m, c, 0) && c < |units| && m > 0
    ensures var (after, on) := Attempt(s, archive, units[c], fault);
            && (Hit(Tear, s, archive, units[c], fault) > 0 ==> !on && Torn(after, archive, units, m))
            && (Hit(Tear, s, archive, units[c], fault) == 0 ==>
                  if on then Reached(after, archive, units, m, c + 1, 0) else Untorn(after, archive, units, m))
  {
    hide PlanOk, Staged, Stored;
    var after := Attempt(s, archive, units[c], fault).0;
    if Staged(s.series, archive, units[c], m).Ok? {
      StagedReached(s, archive, units, start, end, m, c);
      assert units[..c + 1] == units[..c] + [units[c]];
      match fault {
        case CommitFault(replaced, _) => assert Reached(after, archive, units, m, c, Least(replaced, m));
        case StageFault => assert Reached(after, archive, units, m, c, 0);
        case _ => assert Reached(after, archive, units, m, c + 1, 0);
      }
    } else {
      assert Reached(after, archive, units, m, c, 0);
    }
  }

  lemma {:induction false} ProcessedTears(
    s: Store, archive: Archive, units: seq<Unit>, start: Date, end: Date, m: nat, c: nat, selected: seq<Unit>, faults: seq<Fault>, i: nat)
    requires PlanOk(units, start, end) && Reached(s, archive, units, m, c + i, 0) && m > 0
    requires c + |selected| <= |units| && selected == units[c..c + |selected|] && i <= |selected|
    ensures var r := Processed(s, archive, selected, faults, i);
            if Hits(Tear, s, archive, selected, faults, i) > 0 then Torn(r, archive, units, m) else Untorn(r, archive, units, m)
    decreases |selected| - i
  {
    hide PlanOk, Attempt, Reached, Hit;
    if i < |selected| {
      assert selected[i] == units[c + i];
      AttemptTears(s, archive, units, start, end, m, c + i, FaultAt(faults, i));
      var (after, on) := Attempt(s, archive, units[c + i], FaultAt(faults, i));
      if on { ProcessedTears(after, archive, units, start, end, m, c, selected, faults, i + 1); }
    }
  }

  lemma RanTears(s: Store, archive: Archive, plan: Plan, start: Date, end: Date, m: nat, run: Run)
    requires PlanOk(plan.units, start, end) && Untorn(s, archive, plan.units, m) && m > 0
    ensures var r := Ran(s, archive, plan, run.max, run.faults);
            if RunHits(Tear, s, archive, plan, run) > 0 then Torn(r, archive, plan.units, m) else Untorn(r, archive, plan.units, m)
  {
    hide Hits, Pending, Processed, Tiles, InOrder;
    var c: nat :| Reached(s, archive, plan.units, m, c, 0);
    PendingSuffix(plan.units, start, end, c);
    var pending := plan.units[c..];
    var selected := pending[..Least(run.max, |pending|)];
    assert selected == plan.units[c..c + |selected|];
    ProcessedTears(s, archive, plan.units, start, end, m, c, selected, run.faults, 0);
  }

  lemma TornStays(s: Store, archive: Archive, plan: Plan, start: Date, end: Date, m: nat, run: Run)
    requires PlanOk(plan.units, start, end) && Torn(s, archive, plan.units, m)
    ensures Torn(Ran(s, archive, plan, run.max, run.faults), archive, plan.units, m)
  {
    hide Pending, Processed, Tiles, InOrder, Reached;
    var c: nat, n: nat :| n > 0 && Reached(s, archive, plan.units, m, c, n);
    TornSelected(s, archive, plan, start, end, m, c, n, run);
  }

  lemma TornSelected(s: Store, archive: Archive, plan: Plan, start: Date, end: Date, m: nat, c: nat, n: nat, run: Run)
    requires PlanOk(plan.units, start, end) && n > 0 && Reached(s, archive, plan.units, m, c, n)
    ensures Reached(Ran(s, archive, plan, run.max, run.faults), archive, plan.units, m, c, n)
  {
    hide Pending, Processed, Tiles, InOrder;
    PendingSuffix(plan.units, start, end, c);
    var pending := plan.units[c..];
    var selected := pending[..Least(run.max, |pending|)];
    assert selected == plan.units[c..c + |selected|];
    TornProcessed(s, archive, plan.units, start, end, m, c, n, selected, run.faults);
  }

  /** Over all runs: a unit ends up torn exactly when some commit of a staged unit was cut off after its first file. */
  lemma {:induction false} TornIff(s: Store, archive: Archive, plan: Plan, start: Date, end: Date, m: nat, runs: seq<Run>)
    requires PlanOk(plan.units, start, end) && Untorn(s, archive, plan.units, m) && m > 0
    ensures var r := AllRan(s, archive, plan, runs);
            && (Torn(r, archive, plan.units, m) <==> AllHits(Tear, s, archive, plan, runs) > 0)
            && (Untorn(r, archive, plan.units, m) <==> AllHits(Tear, s, archive, plan, runs) == 0)
  {
    hide PlanOk, Ran, RunHits, Torn, Untorn;
    if runs != [] {
      var rest, run := runs[..|runs| - 1], runs[|runs| - 1];
      TornIff(s, archive, plan, start, end, m, rest);
      var before := AllRan(s, archive, plan, rest);
      if Torn(before, archive, plan.units, m) {
        TornStays(before, archive, plan, start, end, m, run);
      } else {
        RanTears(before, archive, plan, start, end, m, run);
      }
    }
    if Torn(AllRan(s, archive, plan, runs), archive, plan.units, m) {
      NotBoth(AllRan(s, archive, plan, runs), archive, plan.units, start, end, m);
    }
  }

  /** Whatever else goes wrong, runs that never cut off a commit after its first file leave a state that later runs can complete. */
  lemma RecoverableRuns(archive: Archive, plan: Plan, start: Date, end: Date, m: nat, runs: seq<Run>, later: seq<Run>)
    requires PlanOk(plan.units, start, end) && plan.unavailable == [] && m > 0 && Free(Tear, runs) && Faultless(later)
    requires Good(archive, plan.units, |plan.units|, m) && |plan.units| <= Work(later)
    ensures AllRan(AllRan(Empty(m), archive, plan, runs), archive, plan, later).completed == plan.units
  {
    hide PlanOk, AllRan, Good, AllHits, Reached;
    var s := AllRan(Empty(m), archive, plan, runs);
    NothingReached(archive, plan.units, m);
    FreeOfHits(Tear, Empty(m), archive, plan, runs);
    TornIff(Empty(m), archive, plan, start, end, m, runs);
    var c: nat :| Reached(s, archive, plan.units, m, c, 0);
    CompletesIff(s, archive, plan, start, end, m, c, 0, later);
  }

  lemma NothingReached(archive: Archive, units: seq<Unit>, m: nat)
    ensures Reached(Empty(m), archive, units, m, 0, 0)
  {
  }

  // ---------------------------------------------------------------- the source manifest

  /** The manifest misses `lag` of the recorded units, and lists all of them in order when it misses none. */
  predicate Lagging(s: Store, lag: int) {
    |s.completed| - |s.manifest| == lag && (lag == 0 ==> s.manifest == s.completed)
  }

  lemma AttemptLags(s: Store, archive: Archive, u: Unit, fault: Fault, lag: nat)
    requires Lagging(s, lag)
    ensures Lagging(Attempt(s, archive, u, fault).0, lag + Hit(Skip, s, archive, u, fault))
  {
    hide Staged, Replaced;
  }

  lemma {:induction false} ProcessedLags(s: Store, archive: Archive, units: seq<Unit>, faults: seq<Fault>, i: nat, lag: nat)
    requires Lagging(s, lag) && i <= |units|
    ensures Lagging(Processed(s, archive, units, faults, i), lag + Hits(Skip, s, archive, units, faults, i))
    decreases |units| - i
  {
    hide Attempt, Hit, Lagging;
    if i < |units| {
      AttemptLags(s, archive, units[i], FaultAt(faults, i), lag);
      var (after, on) := Attempt(s, archive, units[i], FaultAt(faults, i));
      if on { ProcessedLags(after, archive, units, faults, i + 1, lag + Hit(Skip, s, archive, units[i], FaultAt(faults, i))); }
    }
  }

  /** Over all runs the manifest misses exactly as many recorded units as were struck between the two writes. */
  lemma {:induction false} ManifestLags(s: Store, archive: Archive, plan: Plan, runs: seq<Run>, lag: nat)
    requires Lagging(s, lag)
    ensures Lagging(AllRan(s, archive, plan, runs), lag + AllHits(Skip, s, archive, plan, runs))
  {
    hide Pending, Processed, Hits, Lagging;
    if runs != [] {
      var rest, run := runs[..|runs| - 1], runs[|runs| - 1];
      ManifestLags(s, archive, plan, rest, lag);
      var before := AllRan(s, archive, plan, rest);
      var pending := Pending(plan.units, before.completed);
      ProcessedLags(before, archive, pending[..Least(run.max, |pending|)], run.faults, 0, lag + AllHits(Skip, s, archive, plan, rest));
    }
  }

  /** Whatever else goes wrong, runs that are never struck between the two writes list every recorded unit. */
  lemma ManifestOfRuns(archive: Archive, plan: Plan, m: nat, runs: seq<Run>)
    requires Free(Skip, runs)
    ensures var r := AllRan(Empty(m), archive, plan, runs); r.manifest == r.completed
  {
    hide AllRan, AllHits, Free;
    FreeOfHits(Skip, Empty(m), archive, plan, runs);
    ManifestIsCompleteIff(archive, plan, m, runs);
  }

  /** The manifest is the list of recorded units if and only if no staged unit was struck between the checkpoint and the manifest. */
  lemma ManifestIsCompleteIff(archive: Archive, plan: Plan, m: nat, runs: seq<Run>)
    ensures var r := AllRan(Empty(m), archive, plan, runs);
            r.manifest == r.completed <==> AllHits(Skip, Empty(m), archive, plan, runs) == 0
  {
    hide AllRan, AllHits;
    ManifestLags(Empty(m), archive, plan, runs, 0);
  }

  /** A unit that was recorded but missed the manifest is never added to it. */
  lemma {:induction false} MissedManifestForever(s: Store, archive: Archive, plan: Plan, runs: seq<Run>, u: Unit)
    requires u in s.completed && u !in s.manifest
    ensures var r := AllRan(s, archive, plan, runs); u in r.completed && u !in r.manifest
  {
    hide Pending, Processed;
    if runs != [] {
      var rest, run := runs[..|runs| - 1], runs[|runs| - 1];
      MissedManifestForever(s, archive, plan, rest, u);
      var before := AllRan(s, archive, plan, rest);
      if plan.unavailable == [] {
        var pending := Pending(plan.units, before.completed);
        PendingFresh(plan.units, before.completed, u);
        MissedProcessed(before, archive, pending[..Least(run.max, |pending|)], run.faults, 0, u);
      }
    }
  }

  lemma {:induction false} PendingFresh(units: seq<Unit>, completed: seq<Unit>, u: Unit)
    requires u in completed
    ensures u !in Pending(units, completed)
  {
    if units != [] { PendingFresh(units[..|units| - 1], completed, u); }
  }

  lemma {:induction false} MissedProcessed(s: Store, archive: Archive, units: seq<Unit>, faults: seq<Fault>, i: nat, u: Unit)
    requires u in s.completed && u !in s.manifest && u !in units && i <= |units|
    ensures var r := Processed(s, archive, units, faults, i); u in r.completed && u !in r.manifest
    decreases |units| - i
  {
    hide Staged, Replaced;
    if i < |units| {
      var (after, on) := Attempt(s, archive, units[i], FaultAt(faults, i));
      if on { MissedProcessed(after, archive, units, faults, i + 1, u); }
    }
  }
}
