/** Whole sequences of bounded, failing and crashing runs of the backfill over one plan. */
module BackfillLaws {
  import opened Prelude
  import opened Calendar
  import opened ArchivePlan
  import opened Backfill

  // ---------------------------------------------------------------- sorting and merging

  predicate Rising(f: Frame) { forall i, j :: 0 <= i < j < |f| ==> f[i].time < f[j].time }

  lemma RisingSplit(f: Frame)
    requires Rising(f) && f != []
    ensures Rising(f[..|f| - 1]) && AtMost(f[..|f| - 1], f[|f| - 1].time)
  {
  }

  lemma {:induction false} InsertLast(f: Frame, c: Candle)
    requires AtMost(f, c.time)
    ensures Insert(f, c) == f + [c]
  {
  }

  lemma {:induction false} SortedStays(f: Frame)
    requires Rising(f)
    ensures SortByTime(f) == f
  {
    hide Rising, AtMost, Insert;
    if f != [] {
      var rest, last := f[..|f| - 1], f[|f| - 1];
      RisingSplit(f);
      SortedStays(rest);
      InsertLast(rest, last);
      assert f == rest + [last];
    }
  }

  predicate Risen(f: Frame) { forall i, j :: 0 <= i < j < |f| ==> f[i].time <= f[j].time }

  predicate AtMost(f: Frame, t: int) { forall i :: 0 <= i < |f| ==> f[i].time <= t }

  lemma {:induction false} InsertAtMost(f: Frame, c: Candle, t: int)
    requires AtMost(f, t) && c.time <= t
    ensures AtMost(Insert(f, c), t)
  {
    if f != [] && c.time < f[|f| - 1].time { InsertAtMost(f[..|f| - 1], c, t); }
  }

  lemma {:induction false} InsertKeeps(f: Frame, c: Candle)
    ensures multiset(Insert(f, c)) == multiset(f) + multiset{c}
  {
    if f != [] && c.time < f[|f| - 1].time {
      InsertKeeps(f[..|f| - 1], c);
      assert f == f[..|f| - 1] + [f[|f| - 1]];
    }
  }

  lemma {:induction false} InsertSorts(f: Frame, c: Candle)
    requires Risen(f)
    ensures Risen(Insert(f, c))
  {
    if f != [] && c.time < f[|f| - 1].time {
      var rest, last := f[..|f| - 1], f[|f| - 1];
      InsertSorts(rest, c);
      InsertAtMost(rest, c, last.time);
      RisenSnoc(Insert(rest, c), last);
    }
  }

  lemma RisenSnoc(f: Frame, c: Candle)
    requires Risen(f) && AtMost(f, c.time)
    ensures Risen(f + [c])
  {
  }

  lemma {:induction false} SortByTimeSorts(f: Frame)
    ensures Risen(SortByTime(f)) && multiset(SortByTime(f)) == multiset(f)
  {
    hide Insert;
    if f != [] {
      var rest := f[..|f| - 1];
      SortByTimeSorts(rest);
      InsertSorts(SortByTime(rest), f[|f| - 1]);
      InsertKeeps(SortByTime(rest), f[|f| - 1]);
      assert f == rest + [f[|f| - 1]];
    }
  }

  /** A merge keeps every candle of both frames, in time order, or reports an overlap. */
  lemma MergeKeeps(existing: Frame, incoming: Frame)
    requires Rising(existing) && Rising(incoming)
    ensures MergeWithoutOverlap(existing, incoming) == Err(Overlapping) <==> Overlap(existing, incoming)
    ensures MergeWithoutOverlap(existing, incoming).Ok? ==>
              var r := MergeWithoutOverlap(existing, incoming).value;
              Risen(r) && multiset(r) == multiset(existing) + multiset(incoming)
  {
    SortByTimeSorts(existing + incoming);
    if existing == [] { assert existing + incoming == incoming; }
  }

  /** Incoming candles that are all later are appended. */
  lemma MergeAppends(existing: Frame, incoming: Frame)
    requires Rising(existing + incoming)
    ensures MergeWithoutOverlap(existing, incoming) == Ok(existing + incoming)
  {
    var all := existing + incoming;
    SortedStays(all);
    forall i, j | 0 <= i < |existing| && 0 <= j < |incoming| ensures existing[i].time != incoming[j].time {
      assert all[i].time < all[|existing| + j].time;
    }
    if existing == [] { assert all == incoming; }
  }

  // ---------------------------------------------------------------- grids

  lemma GridJoin(a: int, b: int, c: int, k: nat)
    requires a <= b <= c
    ensures DayTimes(a, b, k) + DayTimes(b, c, k) == DayTimes(a, c, k)
  {
    var left, right, all := DayTimes(a, b, k), DayTimes(b, c, k), DayTimes(a, c, k);
    assert |left| + |right| == |all|;
    forall i | 0 <= i < |all| ensures (left + right)[i] == all[i] {
    }
  }

  lemma GridRises(a: int, b: int, k: nat)
    ensures var g := DayTimes(a, b, k); forall i, j :: 0 <= i < j < |g| ==> g[i] < g[j]
  {
  }

  lemma RisingByTimes(f: Frame, a: int, b: int, k: nat)
    requires TimesOf(f) == DayTimes(a, b, k)
    ensures Rising(f)
  {
    hide DayTimes;
    GridRises(a, b, k);
    forall i, j | 0 <= i < j < |f| ensures f[i].time < f[j].time {
      assert f[i].time == TimesOf(f)[i] && f[j].time == TimesOf(f)[j];
    }
  }

  lemma TimesJoin(f: Frame, g: Frame)
    ensures TimesOf(f + g) == TimesOf(f) + TimesOf(g)
  {
  }

  // ---------------------------------------------------------------- what is stored

  /** The candles of the first `c` units of a series, in plan order. */
  function Stored(archive: Archive, units: seq<Unit>, c: nat, k: nat): Frame
    requires c <= |units|
  {
    if c == 0 then [] else Stored(archive, units, c - 1, k) + archive(units[c - 1], k)
  }

  /** The first `c` units passed the integrity check in all `m` series. */
  predicate Good(archive: Archive, units: seq<Unit>, c: nat, m: nat) {
    c <= |units| && forall i, k :: 0 <= i < c && 0 <= k < m ==> TimesOf(archive(units[i], k)) == Expected(units[i], k)
  }

  /** The day on which the unit after the first `c` starts. */
  function DayAfter(units: seq<Unit>, c: nat, after: Date): Date
    requires c <= |units|
  {
    if c < |units| then units[c].first else after
  }

  lemma {:induction false} TilesAt(units: seq<Unit>, start: Date, after: Date, c: nat)
    requires Tiles(units, start, after) && c <= |units|
    ensures Tiles(units[..c], start, DayAfter(units, c, after))
    decreases |units|
  {
    if c < |units| {
      var rest := units[..|units| - 1];
      TilesAt(rest, start, units[|units| - 1].first, c);
      assert rest[..c] == units[..c];
    } else {
      assert units[..c] == units;
    }
  }

  /** The plan of a backfill: tiles the range with dated units. */
  predicate PlanOk(units: seq<Unit>, start: Date, end: Date) {
    Real(start) && Real(end) && UpTo(start, end) && Tiles(units, start, NextDay(end)) && InOrder(units, start, end)
  }

  lemma UnitDays(units: seq<Unit>, start: Date, end: Date, c: nat)
    requires PlanOk(units, start, end) && c < |units|
    ensures DayNumber(units[c].last) + 1 == DayNumber(DayAfter(units, c + 1, NextDay(end)))
    ensures DayNumber(start) <= DayNumber(units[c].first) <= DayNumber(units[c].last)
  {
    TilesAt(units, start, NextDay(end), c + 1);
    var head := units[..c + 1];
    assert head[|head| - 1] == units[c];
    assert WellDated(units[c], start, end);
    NextDayNumber(units[c].last);
    if start != units[c].first { DayNumberMonotone(start, units[c].first); }
    if units[c].first != units[c].last { DayNumberMonotone(units[c].first, units[c].last); }
  }

  lemma StartDay(units: seq<Unit>, start: Date, end: Date)
    requires PlanOk(units, start, end)
    ensures units != [] && units[0].first == start
  {
    TilesAt(units, start, NextDay(end), 0);
    assert units[..0] == [];
    if units == [] {
      NextDayNumber(end);
      if start != end { DayNumberMonotone(start, end); }
    }
  }

  /** The stored times are the full grid from the start of the range to the first day not yet stored. */
  lemma {:induction false} StoredTimes(archive: Archive, units: seq<Unit>, start: Date, end: Date, c: nat, m: nat, k: nat)
    requires PlanOk(units, start, end) && Good(archive, units, c, m) && k < m
    ensures TimesOf(Stored(archive, units, c, k)) == DayTimes(DayNumber(start), DayNumber(DayAfter(units, c, NextDay(end))), k)
    ensures DayNumber(start) <= DayNumber(DayAfter(units, c, NextDay(end)))
  {
    hide PlanOk, DayTimes, DayNumber;
    if c == 0 {
      StartDay(units, start, end);
      GridNothing(DayNumber(start), k);
    } else {
      StoredTimes(archive, units, start, end, c - 1, m, k);
      UnitDays(units, start, end, c - 1);
      var u := units[c - 1];
      TimesJoin(Stored(archive, units, c - 1, k), archive(u, k));
      GridJoin(DayNumber(start), DayNumber(u.first), DayNumber(u.last) + 1, k);
    }
  }

  lemma GridNothing(a: int, k: nat)
    ensures DayTimes(a, a, k) == []
  {
  }

  /** Staging the next unit appends its candles to every series. */
  lemma {:induction false} StagedNext(series: seq<Frame>, archive: Archive, units: seq<Unit>, start: Date, end: Date, c: nat, k: nat)
    requires PlanOk(units, start, end) && Good(archive, units, c, |series|) && c < |units| && k <= |series|
    requires forall i :: 0 <= i < |series| ==> series[i] == Stored(archive, units, c, i)
    requires Staged(series, archive, units[c], k).Ok?
    ensures forall i :: 0 <= i < k ==> Staged(series, archive, units[c], k).value[i] == Stored(archive, units, c + 1, i)
    ensures forall i :: 0 <= i < k ==> TimesOf(archive(units[c], i)) == Expected(units[c], i)
  {
    hide PlanOk, MergeWithoutOverlap, Stored;
    if k > 0 {
      StagedNext(series, archive, units, start, end, c, k - 1);
      NextAppends(archive, units, start, end, c, |series|, k - 1);
    }
  }

  lemma NextAppends(archive: Archive, units: seq<Unit>, start: Date, end: Date, c: nat, m: nat, k: nat)
    requires PlanOk(units, start, end) && Good(archive, units, c, m) && c < |units| && k < m
    requires TimesOf(archive(units[c], k)) == Expected(units[c], k)
    ensures MergeWithoutOverlap(Stored(archive, units, c, k), archive(units[c], k)) == Ok(Stored(archive, units, c + 1, k))
  {
    hide PlanOk, DayTimes, MergeWithoutOverlap;
    var u := units[c];
    StoredTimes(archive, units, start, end, c, m, k);
    UnitDays(units, start, end, c);
    TimesJoin(Stored(archive, units, c, k), archive(u, k));
    GridJoin(DayNumber(start), DayNumber(u.first), DayNumber(u.last) + 1, k);
    RisingByTimes(Stored(archive, units, c + 1, k), DayNumber(start), DayNumber(u.last) + 1, k);
    MergeAppends(Stored(archive, units, c, k), archive(u, k));
  }

  // ---------------------------------------------------------------- reachable states

  /**
  `c` units are recorded; every series holds the candles of exactly these units, and the first `n`
  series also hold the one unit whose commit was cut off before it was recorded.
  */
  predicate Reached(s: Store, archive: Archive, units: seq<Unit>, m: nat, c: nat, n: nat) {
    && n <= m == |s.series|
    && c <= |units| && s.completed == units[..c]
    && (n > 0 ==> c < |units|)
    && Good(archive, units, if n > 0 then c + 1 else c, m)
    && forall k :: 0 <= k < m ==> s.series[k] == Stored(archive, units, if k < n then c + 1 else c, k)
  }

  lemma StagedReached(s: Store, archive: Archive, units: seq<Unit>, start: Date, end: Date, m: nat, c: nat)
    requires PlanOk(units, start, end) && Reached(s, archive, units, m, c, 0) && c < |units|
    requires Staged(s.series, archive, units[c], m).Ok?
    ensures var frames := Staged(s.series, archive, units[c], m).value;
            && (forall k :: 0 <= k < m ==> frames[k] == Stored(archive, units, c + 1, k))
            && Good(archive, units, c + 1, m)
  {
    hide PlanOk;
    StagedNext(s.series, archive, units, start, end, c, m);
  }

  /** Any attempt on the next unit of an untorn state. */
  lemma AttemptReached(s: Store, archive: Archive, units: seq<Unit>, start: Date, end: Date, m: nat, c: nat, fault: Fault)
    requires PlanOk(units, start, end) && Reached(s, archive, units, m, c, 0) && c < |units|
    ensures var (after, on) := Attempt(s, archive, units[c], fault);
            && (on ==> Reached(after, archive, units, m, c + 1, 0))
            && (!on ==> Reached(after, archive, units, m, c, 0) || Reached(after, archive, units, m, c + 1, 0)
                        || (fault.CommitFault? && fault.replaced > 0 && Reached(after, archive, units, m, c, Least(fault.replaced, m))))
  {
    hide PlanOk, Staged, Stored;
    if Staged(s.series, archive, units[c], m).Ok? {
      StagedReached(s, archive, units, start, end, m, c);
      assert units[..c + 1] == units[..c] + [units[c]];
    }
  }

  /** A torn unit can never be staged again: its first series already holds its timestamps. */
  lemma TornFails(s: Store, archive: Archive, units: seq<Unit>, start: Date, end: Date, m: nat, c: nat, n: nat)
    requires PlanOk(units, start, end) && Reached(s, archive, units, m, c, n) && n > 0
    ensures Staged(s.series, archive, units[c], m) == Err(Overlapping)
  {
    hide PlanOk;
    var u := units[c];
    var incoming, before := archive(u, 0), Stored(archive, units, c, 0);
    UnitDays(units, start, end, c);
    assert |Expected(u, 0)| > 0;
    assert s.series[0] == before + incoming;
    assert s.series[0][|before|].time == incoming[0].time;
    assert MergeWithoutOverlap(s.series[0], incoming) == Err(Overlapping);
    assert Staged(s.series, archive, u, 1) == Err(Overlapping) by { assert Staged(s.series, archive, u, 0) == Ok([]); }
    StagedErrorLasts(s.series, archive, u, 1, m);
  }

  // ---------------------------------------------------------------- pending units

  lemma {:induction false} PendingSuffix(units: seq<Unit>, start: Date, end: Date, c: nat)
    requires InOrder(units, start, end) && c <= |units|
    ensures Pending(units, units[..c]) == units[c..]
  {
    PendingOf(units, units[..c], start, end, c, |units|);
    assert units[..|units|] == units;
  }

  lemma {:induction false} PendingOf(units: seq<Unit>, done: seq<Unit>, start: Date, end: Date, c: nat, n: nat)
    requires InOrder(units, start, end) && c <= |units| && n <= |units| && done == units[..c]
    ensures Pending(units[..n], done) == if n <= c then [] else units[c..n]
  {
    hide InOrder, Recorded;
    if n > 0 {
      PendingOf(units, done, start, end, c, n - 1);
      Slices(units, c, n);
      if n <= c {
        RecordedBefore(units, c, n - 1);
      } else {
        NotBefore(units, start, end, c, n - 1);
      }
    }
  }

  lemma Slices(units: seq<Unit>, c: nat, n: nat)
    requires 0 < n <= |units|
    ensures units[..n][..n - 1] == units[..n - 1]
    ensures c < n ==> units[c..n] == units[c..n - 1] + [units[n - 1]]
  {
  }

  lemma RecordedBefore(units: seq<Unit>, c: nat, i: nat)
    requires i < c <= |units|
    ensures Recorded(units[i], units[..c])
  {
    assert units[..c][i] == units[i];
  }

  lemma NotBefore(units: seq<Unit>, start: Date, end: Date, c: nat, i: nat)
    requires InOrder(units, start, end) && c <= i < |units|
    ensures !Recorded(units[i], units[..c])
  {
    forall j | 0 <= j < c ensures units[j] != units[i] {
      assert WellDated(units[j], start, end) && Before(units[j].last, units[i].first);
    }
  }

  // ---------------------------------------------------------------- one run

  /** The torn part, if any, of a state that some run reached. */
  ghost predicate Reachable(s: Store, archive: Archive, units: seq<Unit>, m: nat) {
    exists c: nat, n: nat :: Reached(s, archive, units, m, c, n)
  }

  lemma {:induction false} ProcessedReached(
    s: Store, archive: Archive, units: seq<Unit>, start: Date, end: Date, m: nat, c: nat, selected: seq<Unit>, faults: seq<Fault>, i: nat)
    requires PlanOk(units, start, end) && Reached(s, archive, units, m, c + i, 0)
    requires c + |selected| <= |units| && selected == units[c..c + |selected|] && i <= |selected|
    ensures Reachable(Processed(s, archive, selected, faults, i), archive, units, m)
    decreases |selected| - i
  {
    hide PlanOk, Attempt, Reached;
    if i < |selected| {
      assert selected[i] == units[c + i];
      AttemptReached(s, archive, units, start, end, m, c + i, FaultAt(faults, i));
      var (after, on) := Attempt(s, archive, units[c + i], FaultAt(faults, i));
      if on { ProcessedReached(after, archive, units, start, end, m, c, selected, faults, i + 1); }
    }
  }

  lemma RanReached(s: Store, archive: Archive, plan: Plan, start: Date, end: Date, m: nat, max: nat, faults: seq<Fault>)
    requires PlanOk(plan.units, start, end) && Reachable(s, archive, plan.units, m)
    ensures Reachable(Ran(s, archive, plan, max, faults), archive, plan.units, m)
  {
    hide Attempt, Pending, Processed, Tiles, InOrder;
    var units := plan.units;
    var c: nat, n: nat :| Reached(s, archive, units, m, c, n);
    PendingSuffix(units, start, end, c);
    var pending := units[c..];
    var selected := pending[..Least(max, |pending|)];
    assert selected == units[c..c + |selected|];
    if n == 0 {
      ProcessedReached(s, archive, units, start, end, m, c, selected, faults, 0);
    } else {
      TornProcessed(s, archive, units, start, end, m, c, n, selected, faults);
    }
  }

  lemma TornProcessed(
    s: Store, archive: Archive, units: seq<Unit>, start: Date, end: Date, m: nat, c: nat, n: nat, selected: seq<Unit>, faults: seq<Fault>)
    requires PlanOk(units, start, end) && Reached(s, archive, units, m, c, n) && n > 0
    requires c + |selected| <= |units| && selected == units[c..c + |selected|]
    ensures var r := Processed(s, archive, selected, faults, 0);
            r.completed == s.completed && r.series == s.series && r.manifest == s.manifest && Reached(r, archive, units, m, c, n)
  {
    hide PlanOk, Staged;
    if selected != [] {
      assert selected[0] == units[c];
      TornFails(s, archive, units, start, end, m, c, n);
    }
  }

  // ---------------------------------------------------------------- all runs

  datatype Run = Run(max: nat, faults: seq<Fault>)

  function AllRan(s: Store, archive: Archive, plan: Plan, runs: seq<Run>): Store {
    if runs == [] then s else
    var last := |runs| - 1;
    Ran(AllRan(s, archive, plan, runs[..last]), archive, plan, runs[last].max, runs[last].faults)
  }

  /**
  Over any bounded runs, failures and crashes: the recorded units are a prefix of the plan, and each
  series is the candles of that prefix, plus at most the one unit that was cut off.
  */
  lemma {:induction false} EveryRunReached(archive: Archive, plan: Plan, start: Date, end: Date, m: nat, runs: seq<Run>)
    requires PlanOk(plan.units, start, end)
    ensures Reachable(AllRan(Empty(m), archive, plan, runs), archive, plan.units, m)
  {
    hide PlanOk, Ran;
    if runs == [] {
      assert Reached(Empty(m), archive, plan.units, m, 0, 0);
    } else {
      EveryRunReached(archive, plan, start, end, m, runs[..|runs| - 1]);
      RanReached(AllRan(Empty(m), archive, plan, runs[..|runs| - 1]), archive, plan, start, end, m,
                 runs[|runs| - 1].max, runs[|runs| - 1].faults);
    }
  }

  /** No series ever stores a timestamp twice, and every series is the full grid of the days it covers. */
  lemma NoTimestampTwice(archive: Archive, plan: Plan, start: Date, end: Date, m: nat, runs: seq<Run>, k: nat)
    requires PlanOk(plan.units, start, end) && k < m
    ensures var s := AllRan(Empty(m), archive, plan, runs);
            && |s.series| == m && Rising(s.series[k])
            && exists after: int :: TimesOf(s.series[k]) == DayTimes(DayNumber(start), after, k)
  {
    hide AllRan, PlanOk, DayTimes;
    EveryRunReached(archive, plan, start, end, m, runs);
    var s := AllRan(Empty(m), archive, plan, runs);
    var c: nat, n: nat :| Reached(s, archive, plan.units, m, c, n);
    var stored := if k < n then c + 1 else c;
    StoredTimes(archive, plan.units, start, end, stored, m, k);
    RisingByTimes(s.series[k], DayNumber(start), DayNumber(DayAfter(plan.units, stored, NextDay(end))), k);
  }

  /** When every unit is recorded, every series is exactly the full grid of the requested dates. */
  lemma CompleteIsFullGrid(archive: Archive, plan: Plan, start: Date, end: Date, m: nat, runs: seq<Run>, k: nat)
    requires PlanOk(plan.units, start, end) && k < m
    requires |AllRan(Empty(m), archive, plan, runs).completed| == |plan.units|
    ensures var s := AllRan(Empty(m), archive, plan, runs);
            |s.series| == m && TimesOf(s.series[k]) == DayTimes(DayNumber(start), DayNumber(end) + 1, k)
  {
    hide AllRan, PlanOk, DayTimes;
    EveryRunReached(archive, plan, start, end, m, runs);
    var s := AllRan(Empty(m), archive, plan, runs);
    var c: nat, n: nat :| Reached(s, archive, plan.units, m, c, n);
    StoredTimes(archive, plan.units, start, end, c, m, k);
    PlanEnds(plan.units, start, end);
  }

  lemma PlanEnds(units: seq<Unit>, start: Date, end: Date)
    requires PlanOk(units, start, end)
    ensures DayNumber(NextDay(end)) == DayNumber(end) + 1
  {
    NextDayNumber(end);
  }

  /** A torn unit wedges the backfill: no later run records or stores anything. */
  lemma {:induction false} TornForever(s: Store, archive: Archive, plan: Plan, start: Date, end: Date, m: nat, c: nat, n: nat, runs: seq<Run>)
    requires PlanOk(plan.units, start, end) && Reached(s, archive, plan.units, m, c, n) && n > 0
    ensures var r := AllRan(s, archive, plan, runs);
            r.completed == s.completed && r.series == s.series && r.manifest == s.manifest
  {
    hide PlanOk, Pending, Processed;
    if runs != [] {
      var rest := runs[..|runs| - 1];
      TornForever(s, archive, plan, start, end, m, c, n, rest);
      var before := AllRan(s, archive, plan, rest);
      if plan.unavailable == [] {
        PlanOrder(plan.units, start, end);
        PendingSuffix(plan.units, start, end, c);
        var pending := plan.units[c..];
        var selected := pending[..Least(runs[|runs| - 1].max, |pending|)];
        assert selected == plan.units[c..c + |selected|];
        TornProcessed(before, archive, plan.units, start, end, m, c, n, selected, runs[|runs| - 1].faults);
      }
    }
  }

  lemma PlanOrder(units: seq<Unit>, start: Date, end: Date)
    requires PlanOk(units, start, end)
    ensures InOrder(units, start, end)
  {
  }

  // ---------------------------------------------------------------- built plans

  /** The plan that `BuildArchivePlan` makes is one on which all of the above holds. */
  lemma BuiltPlanOk(inventories: map<Name, Inventory>, symbols: seq<Name>, start: Date, end: Date)
    requires Real(start) && Real(end)
    ensures var r := PlanOf(inventories, symbols, start, end);
            r.Ok? && r.value.unavailable == [] ==> PlanOk(r.value.units, start, end)
  {
    hide Tiles, InOrder, PlanFrom, Leap;
    var r := PlanOf(inventories, symbols, start, end);
    if r.Ok? && r.value.unavailable == [] {
      var known := Known(symbols, inventories).value;
      PlanTiles(known, start, end);
      PlanInOrder(known, start, end);
    }
  }
}
