/** Which files a unit names, which times its days have, and which failures a run records. */
module BackfillUnits {
  import opened Prelude
  import opened Calendar
  import opened ArchivePlan
  import opened Backfill
  import opened BackfillLaws

  // ---------------------------------------------------------------- files

  /** One file for each symbol: its own monthly file of that month, or its own daily file of that date. */
  predicate NamesFiles(u: Unit, inventories: seq<Inventory>) {
    && |u.files| == |inventories|
    && forall i :: 0 <= i < |inventories| ==>
         if u.kind == Monthly then
           (u.first.year, u.first.month) in inventories[i].monthly && u.files[i] == inventories[i].monthly[(u.first.year, u.first.month)]
         else u.first in inventories[i].daily && u.files[i] == inventories[i].daily[u.first]
  }

  predicate AllName(units: seq<Unit>, inventories: seq<Inventory>) {
    forall k :: 0 <= k < |units| ==> NamesFiles(units[k], inventories)
  }

  lemma {:induction false} DaysPlanNames(inventories: seq<Inventory>, year: int, month: int, from: int, until: int)
    ensures AllName(DaysPlan(inventories, year, month, from, until).units, inventories)
    decreases until - from
  {
    if from < until { DaysPlanNames(inventories, year, month, from, until - 1); }
  }

  /** Every unit of a plan names the file of every symbol. */
  lemma {:induction false} PlanNamesFiles(inventories: seq<Inventory>, start: Date, end: Date)
    requires Real(start) && Real(end)
    ensures AllName(PlanFrom(inventories, start, end).units, inventories)
    decreases MonthsLeft(start, end)
  {
    hide NamesFiles, Leap;
    if !Before(end, start) {
      MonthPlanNames(inventories, start, end);
      PlanNamesFiles(inventories, NextMonth(start), end);
    }
  }

  lemma MonthPlanNames(inventories: seq<Inventory>, cursor: Date, end: Date)
    ensures AllName(MonthPlan(inventories, cursor, end).units, inventories)
  {
    DaysPlanNames(inventories, cursor.year, cursor.month, cursor.day, Earlier(end, Last(cursor.year, cursor.month)).day + 1);
    hide DaysPlan, Leap;
  }

  // ---------------------------------------------------------------- times

  /** The three timeframes of a symbol: a quarter of an hour, an hour, four hours. */
  predicate Spaced(times: seq<int>, first: int, minutes: int) {
    forall i :: 0 <= i < |times| ==> times[i] == first * 1440 + i * minutes
  }

  /** A unit's days hold a candle every 15, 60 or 240 minutes, from the first midnight to the last candle before the next. */
  lemma DaysAreSpaced(first: int, after: int, k: nat)
    requires first <= after
    ensures var times := DayTimes(first, after, k);
            var minutes := if k % 3 == 0 then 15 else if k % 3 == 1 then 60 else 240;
            Spaced(times, first, minutes) && |times| * minutes == (after - first) * 1440
  {
    var days := after - first;
    assert k % 3 == 0 ==> (days * 96) * 15 == days * 1440;
    assert k % 3 == 1 ==> (days * 24) * 60 == days * 1440;
    assert k % 3 == 2 ==> (days * 6) * 240 == days * 1440;
  }

  // ---------------------------------------------------------------- failures

  /** What stopped the work on a unit was an exception, which is recorded, and not a crash. */
  predicate Raised(s: Store, archive: Archive, u: Unit, fault: Fault) {
    || Staged(s.series, archive, u, |s.series|).Err?
    || match fault
       case NoFault => false
       case StageFault => true
       case CommitFault(_, crash) => !crash
       case RecordFault(crash) => !crash
  }

  /** A unit is recorded as failed exactly when an exception stopped it, and the run goes on exactly when nothing did. */
  lemma AttemptRecords(s: Store, archive: Archive, u: Unit, fault: Fault)
    ensures var (after, on) := Attempt(s, archive, u, fault);
            && after.failed == s.failed + (if Raised(s, archive, u, fault) then [u] else [])
            && (on <==> Staged(s.series, archive, u, |s.series|).Ok? && fault == NoFault)
            && (on ==> after.completed == s.completed + [u] && after.manifest == s.manifest + [u])
            && (Staged(s.series, archive, u, |s.series|).Err? || fault == StageFault ==>
                  after.completed == s.completed && after.manifest == s.manifest && after.series == s.series)
            && (fault.CommitFault? ==> after.completed == s.completed && after.manifest == s.manifest)
  {
    hide Staged, Replaced;
  }

  /** A run records at most one failure, of the unit at which it stops; every unit that it did before is recorded as completed. */
  lemma {:induction false} ProcessedRecords(s: Store, archive: Archive, units: seq<Unit>, faults: seq<Fault>, i: nat) returns (done: nat)
    requires i <= |units|
    ensures var r := Processed(s, archive, units, faults, i);
            && i <= done <= |units|
            && (r.failed == s.failed || (done < |units| && r.failed == s.failed + [units[done]]))
            && (r.completed == s.completed + units[i..done] || (done < |units| && r.completed == s.completed + units[i..done + 1]))
            && (done == |units| ==> r.failed == s.failed && r.manifest == s.manifest + units[i..])
    decreases |units| - i
  {
    hide Staged, Replaced, Attempt;
    done := i;
    assert units[i..i] == [];
    if i < |units| {
      AttemptRecords(s, archive, units[i], FaultAt(faults, i));
      var (after, on) := Attempt(s, archive, units[i], FaultAt(faults, i));
      assert units[i..i + 1] == [units[i]];
      if on {
        done := ProcessedRecords(after, archive, units, faults, i + 1);
        assert units[i..done] == [units[i]] + units[i + 1..done];
        if done < |units| { assert units[i..done + 1] == [units[i]] + units[i + 1..done + 1]; }
        assert units[i..] == [units[i]] + units[i + 1..];
      } else {
        StoppedRecords(s, archive, units[i], FaultAt(faults, i));
      }
    }
  }

  lemma StoppedRecords(s: Store, archive: Archive, u: Unit, fault: Fault)
    ensures var (after, on) := Attempt(s, archive, u, fault);
            !on ==> after.completed == s.completed || after.completed == s.completed + [u]
  {
    hide Staged, Replaced;
  }
}
