/**
The resumable archive backfill: bounded runs that stage a unit, replace the series files one by
one, then record the unit in the checkpoint and in the source manifest. Faults may strike anywhere.
*/
module Backfill {
  import opened Prelude
  import opened Calendar
  import opened ArchivePlan

  /** One candle: its open time in minutes since the first day of year 1, and the rest of its columns. */
  datatype Candle = Candle(time: int, body: int)

  type Frame = seq<Candle>

  /** What downloading, validating and resampling a unit yields for a series. */
  type Archive = (Unit, nat) -> Frame

  // ---------------------------------------------------------------- time grids

  const TIMEFRAMES: nat := 3
  const DAY: int := 1440

  /** Minutes of a candle of the series; series are numbered symbol by symbol. */
  function StepOf(k: nat): int {
    match k % TIMEFRAMES case 0 => 15 case 1 => 60 case _ => 240
  }

  function PerDay(k: nat): int {
    match k % TIMEFRAMES case 0 => 96 case 1 => 24 case _ => 6
  }

  function Grid(start: int, step: int, count: nat): (g: seq<int>)
    ensures |g| == count
  {
    seq(count, i => start + i * step)
  }

  /** The open times of a series over the days `first` up to, not including, `after`. */
  function DayTimes(first: int, after: int, k: nat): seq<int> {
    if after < first then [] else Grid(first * DAY, StepOf(k), (after - first) * PerDay(k))
  }

  function Expected(u: Unit, k: nat): seq<int> { DayTimes(DayNumber(u.first), DayNumber(u.last) + 1, k) }

  function TimesOf(f: Frame): (r: seq<int>)
    ensures |r| == |f|
  {
    seq(|f|, i requires 0 <= i < |f| => f[i].time)
  }

  // ---------------------------------------------------------------- merging

  predicate Overlap(a: Frame, b: Frame) {
    exists i, j :: 0 <= i < |a| && 0 <= j < |b| && a[i].time == b[j].time
  }

  function Insert(f: Frame, c: Candle): Frame {
    if f == [] || f[|f| - 1].time <= c.time then f + [c]
    else Insert(f[..|f| - 1], c) + [f[|f| - 1]]
  }

  function SortByTime(f: Frame): Frame {
    if f == [] then [] else Insert(SortByTime(f[..|f| - 1]), f[|f| - 1])
  }

  datatype Error = Integrity | Overlapping | TooFewArchives | DatesUnavailable | Download

  /** Appends the incoming candles unless a timestamp is already stored. */
  function MergeWithoutOverlap(existing: Frame, incoming: Frame): Result<Frame, Error> {
    if existing == [] then Ok(incoming)
    else if Overlap(existing, incoming) then Err(Overlapping)
    else Ok(SortByTime(existing + incoming))
  }

  // ---------------------------------------------------------------- runs

  /** What interrupts the work on a unit. A crash is not recorded as a failure; an exception is. */
  datatype Fault =
    | NoFault
    | StageFault
    | CommitFault(replaced: nat, crash: bool)
    | RecordFault(crash: bool)

  datatype Store = Store(completed: seq<Unit>, failed: seq<Unit>, manifest: seq<Unit>, series: seq<Frame>)

  /** The merged frames of the first `k` series. */
  function Staged(series: seq<Frame>, archive: Archive, u: Unit, k: nat): (r: Result<seq<Frame>, Error>)
    requires k <= |series|
    ensures r.Ok? ==> |r.value| == k
  {
    if k == 0 then Ok([]) else
    match Staged(series, archive, u, k - 1)
    case Err(e) => Err(e)
    case Ok(frames) =>
      if TimesOf(archive(u, k - 1)) != Expected(u, k - 1) then Err(Integrity) else
      match MergeWithoutOverlap(series[k - 1], archive(u, k - 1))
      case Err(e) => Err(e)
      case Ok(frame) => Ok(frames + [frame])
  }

  function Failed(s: Store, u: Unit): Store { s.(failed := s.failed + [u]) }

  function Least(x: nat, y: nat): nat { if x < y then x else y }

  /** The first `n` files replaced. */
  function Replaced(series: seq<Frame>, frames: seq<Frame>, n: nat): (r: seq<Frame>)
    requires |series| == |frames|
    ensures |r| == |series|
  {
    seq(|series|, k requires 0 <= k < |series| => if k < n then frames[k] else series[k])
  }

  /** The state after one unit, and whether the run goes on. */
  function Attempt(s: Store, archive: Archive, u: Unit, fault: Fault): (Store, bool) {
    match Staged(s.series, archive, u, |s.series|)
    case Err(_) => (Failed(s, u), false)
    case Ok(frames) =>
      match fault
      case StageFault => (Failed(s, u), false)
      case CommitFault(replaced, crash) =>
        var t := s.(series := Replaced(s.series, frames, replaced));
        (if crash then t else Failed(t, u), false)
      case RecordFault(crash) =>
        var t := s.(series := frames, completed := s.completed + [u]);
        (if crash then t else Failed(t, u), false)
      case NoFault => (s.(series := frames, completed := s.completed + [u], manifest := s.manifest + [u]), true)
  }

  function FaultAt(faults: seq<Fault>, i: nat): Fault { if i < |faults| then faults[i] else NoFault }

  /** The units from the `i`-th on, each with its own fault; the first failure ends the run. */
  function Processed(s: Store, archive: Archive, units: seq<Unit>, faults: seq<Fault>, i: nat): Store
    requires i <= |units|
    decreases |units| - i
  {
    if i == |units| then s else
    var (after, on) := Attempt(s, archive, units[i], FaultAt(faults, i));
    if on then Processed(after, archive, units, faults, i + 1) else after
  }

  predicate Recorded(u: Unit, completed: seq<Unit>) { u in completed }

  function Pending(units: seq<Unit>, completed: seq<Unit>): seq<Unit> {
    if units == [] then [] else
    var u := units[|units| - 1];
    Pending(units[..|units| - 1], completed) + if Recorded(u, completed) then [] else [u]
  }

  /** One run of at most `max` units. */
  function Ran(s: Store, archive: Archive, plan: Plan, max: nat, faults: seq<Fault>): Store {
    if plan.unavailable != [] then s else
    var pending := Pending(plan.units, s.completed);
    Processed(s, archive, pending[..Least(max, |pending|)], faults, 0)
  }

  // ---------------------------------------------------------------- the program

  class State {
    var completed: seq<Unit>
    var failed: seq<Unit>
    var manifest: seq<Unit>
    const files: array<Frame>

    constructor (series: nat)
      ensures Now() == Empty(series) && fresh(files)
    {
      completed, failed, manifest := [], [], [];
      files := new Frame[series](_ => []);
      new;
      assert files[..] == Empty(series).series;
    }

    function Now(): Store
      reads this, files
    {
      Store(completed, failed, manifest, files[..])
    }

    method StageUnit(archive: Archive, u: Unit, fault: Fault) returns (r: Result<seq<Frame>, Error>)
      ensures fault != StageFault ==> r == Staged(files[..], archive, u, files.Length)
      ensures fault == StageFault ==> r.Err?
    {
      if fault == StageFault {
        return Err(Download);
      }
      var frames: seq<Frame> := [];
      ghost var series := files[..];
      for k := 0 to files.Length
        invariant Staged(series, archive, u, k) == Ok(frames)
      {
        var incoming := archive(u, k);
        if TimesOf(incoming) != Expected(u, k) {
          StagedErrorLasts(series, archive, u, k + 1, files.Length);
          return Err(Integrity);
        }
        var merged := MergeWithoutOverlap(files[k], incoming);
        if merged.Err? {
          StagedErrorLasts(series, archive, u, k + 1, files.Length);
          return Err(merged.error);
        }
        frames := frames + [merged.value];
      }
      r := Ok(frames);
    }

    /** Replaces the files in order; a fault stops after `count` of them. */
    method CommitStagedFrames(frames: seq<Frame>, count: nat)
      requires |frames| == files.Length && count <= files.Length
      modifies files
      ensures files[..] == Replaced(old(files[..]), frames, count)
    {
      for k := 0 to count
        invariant forall i :: 0 <= i < k ==> files[i] == frames[i]
        invariant forall i :: k <= i < files.Length ==> files[i] == old(files[i])
      {
        files[k] := frames[k];
      }
    }

    method ProcessUnit(archive: Archive, u: Unit, fault: Fault) returns (on: bool)
      modifies this, files
      ensures (Now(), on) == Attempt(old(Now()), archive, u, fault)
    {
      hide Staged, Replaced;
      var staged := StageUnit(archive, u, fault);
      if staged.Err? {
        failed := failed + [u];
        return false;
      }
      if fault.CommitFault? {
        ReplacedAtMost(files[..], staged.value, fault.replaced);
        CommitStagedFrames(staged.value, Least(fault.replaced, files.Length));
        if !fault.crash { failed := failed + [u]; }
        return false;
      }
      ReplacedAll(files[..], staged.value);
      CommitStagedFrames(staged.value, files.Length);
      completed := completed + [u];
      if fault.RecordFault? {
        if !fault.crash { failed := failed + [u]; }
        return false;
      }
      manifest := manifest + [u];
      on := true;
    }

    method RunBackfill(archive: Archive, plan: Plan, symbols: nat, maxArchives: nat, faults: seq<Fault>) returns (error: Option<Error>)
      requires symbols > 0
      modifies this, files
      ensures error == if maxArchives < symbols then Some(TooFewArchives) else if plan.unavailable != [] then Some(DatesUnavailable) else None
      ensures Now() == if maxArchives < symbols then old(Now()) else Ran(old(Now()), archive, plan, maxArchives / symbols, faults)
    {
      hide Attempt, Pending;
      if maxArchives < symbols {
        return Some(TooFewArchives);
      }
      if plan.unavailable != [] {
        return Some(DatesUnavailable);
      }
      error := None;
      var pending := Pending(plan.units, completed);
      var selected := pending[..Least(maxArchives / symbols, |pending|)];
      var i, on := 0, true;
      while i < |selected| && on
        invariant i <= |selected|
        invariant Processed(old(Now()), archive, selected, faults, 0)
                  == if on then Processed(Now(), archive, selected, faults, i) else Now()
        decreases |selected| - i
      {
        on := ProcessUnit(archive, selected[i], FaultAt(faults, i));
        i := i + 1;
      }
    }
  }

  function Empty(series: nat): Store { Store([], [], [], seq(series, _ => [])) }

  lemma {:induction false} StagedErrorLasts(series: seq<Frame>, archive: Archive, u: Unit, k: nat, n: nat)
    requires k <= n <= |series| && Staged(series, archive, u, k).Err?
    ensures Staged(series, archive, u, n) == Staged(series, archive, u, k)
  {
    hide MergeWithoutOverlap, Expected;
    if k < n { StagedErrorLasts(series, archive, u, k, n - 1); }
  }

  lemma ReplacedAtMost(series: seq<Frame>, frames: seq<Frame>, n: nat)
    requires |series| == |frames|
    ensures Replaced(series, frames, Least(n, |series|)) == Replaced(series, frames, n)
  {
  }

  lemma ReplacedAll(series: seq<Frame>, frames: seq<Frame>)
    requires |series| == |frames|
    ensures Replaced(series, frames, |series|) == frames
  {
  }
}
