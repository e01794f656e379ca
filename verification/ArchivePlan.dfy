/** The archive plan: which monthly and daily files cover a range of dates, and which dates have none. */
module ArchivePlan {
  import opened Prelude
  import opened Calendar

  type Name = string

  /** Archive files of one symbol by month (year, month) and by date. */
  datatype Inventory = Inventory(monthly: map<(int, int), Name>, daily: map<Date, Name>)

  datatype Kind = Monthly | Daily

  datatype Unit = Unit(kind: Kind, first: Date, last: Date, files: seq<Name>)

  datatype Plan = Plan(units: seq<Unit>, unavailable: seq<Date>)

  datatype Error = EndBeforeStart | MissingInventory

  function Join(a: Plan, b: Plan): Plan { Plan(a.units + b.units, a.unavailable + b.unavailable) }

  predicate MonthlyEverywhere(inventories: seq<Inventory>, month: (int, int)) {
    forall i :: 0 <= i < |inventories| ==> month in inventories[i].monthly
  }

  predicate DailyEverywhere(inventories: seq<Inventory>, date: Date) {
    forall i :: 0 <= i < |inventories| ==> date in inventories[i].daily
  }

  function MonthlyUnit(inventories: seq<Inventory>, year: int, month: int): Unit
    requires MonthlyEverywhere(inventories, (year, month))
  {
    Unit(Monthly, First(year, month), Last(year, month),
         seq(|inventories|, i requires 0 <= i < |inventories| => inventories[i].monthly[(year, month)]))
  }

  function DailyUnit(inventories: seq<Inventory>, date: Date): Unit
    requires DailyEverywhere(inventories, date)
  {
    Unit(Daily, date, date, seq(|inventories|, i requires 0 <= i < |inventories| => inventories[i].daily[date]))
  }

  /** The plan of one date by its daily files. */
  function DayPlan(inventories: seq<Inventory>, date: Date): Plan {
    if DailyEverywhere(inventories, date) then Plan([DailyUnit(inventories, date)], []) else Plan([], [date])
  }

  /** The plan of the days `from` up to, not including, `to` of one month. */
  function DaysPlan(inventories: seq<Inventory>, year: int, month: int, from: int, until: int): Plan
    decreases until - from
  {
    if from >= until then Plan([], [])
    else Join(DaysPlan(inventories, year, month, from, until - 1), DayPlan(inventories, Date(year, month, until - 1)))
  }

  function Earlier(a: Date, b: Date): Date { if Before(b, a) then b else a }

  /** The month is wholly inside the range and every symbol has its monthly file. */
  predicate MonthlyFor(inventories: seq<Inventory>, start: Date, end: Date, year: int, month: int) {
    && UpTo(start, First(year, month)) && UpTo(Last(year, month), end)
    && MonthlyEverywhere(inventories, (year, month))
  }

  /** The plan of the part of the cursor's month from the cursor on. */
  function MonthPlan(inventories: seq<Inventory>, cursor: Date, end: Date): Plan {
    if MonthlyFor(inventories, cursor, end, cursor.year, cursor.month) then
      Plan([MonthlyUnit(inventories, cursor.year, cursor.month)], [])
    else DaysPlan(inventories, cursor.year, cursor.month, cursor.day, Earlier(end, Last(cursor.year, cursor.month)).day + 1)
  }

  function MonthsLeft(cursor: Date, end: Date): int {
    12 * (end.year - cursor.year) + end.month - cursor.month + 1
  }

  function PlanFrom(inventories: seq<Inventory>, cursor: Date, end: Date): Plan
    requires Real(cursor) && Real(end)
    decreases MonthsLeft(cursor, end)
  {
    if Before(end, cursor) then Plan([], [])
    else Join(MonthPlan(inventories, cursor, end), PlanFrom(inventories, NextMonth(cursor), end))
  }

  /** One inventory for each symbol, or the error that a symbol has none. */
  function Known(symbols: seq<Name>, inventories: map<Name, Inventory>): Option<seq<Inventory>> {
    if forall i :: 0 <= i < |symbols| ==> symbols[i] in inventories then
      Some(seq(|symbols|, i requires 0 <= i < |symbols| => inventories[symbols[i]]))
    else None
  }

  function PlanOf(inventories: map<Name, Inventory>, symbols: seq<Name>, start: Date, end: Date): Result<Plan, Error>
    requires Real(start) && Real(end)
  {
    if Before(end, start) then Err(EndBeforeStart) else
    match Known(symbols, inventories)
    case None => Err(MissingInventory)
    case Some(known) => Ok(PlanFrom(known, start, end))
  }

  /** The month file if it can be used, the daily files and the missing dates otherwise. */
  method PlanMonth(inventories: seq<Inventory>, cursor: Date, end: Date) returns (units: seq<Unit>, unavailable: seq<Date>)
    requires Real(cursor) && Real(end) && UpTo(cursor, end)
    ensures Plan(units, unavailable) == MonthPlan(inventories, cursor, end)
  {
    hide MonthlyEverywhere, DailyEverywhere, Leap;
    units, unavailable := [], [];
    var year, month := cursor.year, cursor.month;
    var scopedEnd := Earlier(end, Last(year, month));
    if cursor == First(year, month) && scopedEnd == Last(year, month) && MonthlyEverywhere(inventories, (year, month)) {
      units := units + [MonthlyUnit(inventories, year, month)];
    } else {
      for day := cursor.day to scopedEnd.day + 1
        invariant Plan(units, unavailable) == DaysPlan(inventories, year, month, cursor.day, day)
      {
        var date := Date(year, month, day);
        if DailyEverywhere(inventories, date) {
          units := units + [DailyUnit(inventories, date)];
        } else {
          unavailable := unavailable + [date];
        }
      }
    }
  }

  /** Walks the range month by month; the cursor is the start, then the first day of each later month. */
  method BuildArchivePlan(inventories: map<Name, Inventory>, symbols: seq<Name>, start: Date, end: Date)
    returns (r: Result<Plan, Error>)
    requires Real(start) && Real(end)
    ensures r == PlanOf(inventories, symbols, start, end)
  {
    hide MonthPlan, Leap;
    if Before(end, start) {
      return Err(EndBeforeStart);
    }
    var scoped := Known(symbols, inventories);
    if scoped.None? {
      return Err(MissingInventory);
    }
    var known := scoped.value;
    var units, unavailable, cursor := [], [], start;
    while UpTo(cursor, end)
      invariant Real(cursor)
      invariant Join(Plan(units, unavailable), PlanFrom(known, cursor, end)) == PlanFrom(known, start, end)
      decreases MonthsLeft(cursor, end)
    {
      var monthUnits, monthUnavailable := PlanMonth(known, cursor, end);
      JoinAssoc(Plan(units, unavailable), MonthPlan(known, cursor, end), PlanFrom(known, NextMonth(cursor), end));
      units := units + monthUnits;
      unavailable := unavailable + monthUnavailable;
      cursor := NextMonth(cursor);
    }
    assert Join(Plan(units, unavailable), Plan([], [])) == Plan(units, unavailable);
    r := Ok(Plan(units, unavailable));
  }

  lemma JoinAssoc(a: Plan, b: Plan, c: Plan)
    ensures Join(Join(a, b), c) == Join(a, Join(b, c))
  {
  }

  // ---------------------------------------------------------------- partition

  predicate Covers(u: Unit, d: Date) { UpTo(u.first, d) && UpTo(d, u.last) }

  /** The units that cover a date. */
  function Covering(units: seq<Unit>, d: Date): seq<Unit> {
    if units == [] then [] else
    Covering(units[..|units| - 1], d) + if Covers(units[|units| - 1], d) then [units[|units| - 1]] else []
  }

  /** How often a date is listed. */
  function Mentions(dates: seq<Date>, d: Date): nat {
    if dates == [] then 0 else
    Mentions(dates[..|dates| - 1], d) + if dates[|dates| - 1] == d then 1 else 0
  }

  lemma {:induction false} CoveringJoin(a: seq<Unit>, b: seq<Unit>, d: Date)
    ensures Covering(a + b, d) == Covering(a, d) + Covering(b, d)
  {
    hide Covers;
    if b == [] {
      assert a + b == a;
    } else {
      CoveringJoin(a, b[..|b| - 1], d);
      assert (a + b)[..|a + b| - 1] == a + b[..|b| - 1];
    }
  }

  lemma {:induction false} MentionsJoin(a: seq<Date>, b: seq<Date>, d: Date)
    ensures Mentions(a + b, d) == Mentions(a, d) + Mentions(b, d)
  {
    if b == [] {
      assert a + b == a;
    } else {
      MentionsJoin(a, b[..|b| - 1], d);
      assert (a + b)[..|a + b| - 1] == a + b[..|b| - 1];
    }
  }

  /** The plan covers the date exactly as its daily files say, or not at all. */
  predicate CoveredByDay(p: Plan, inventories: seq<Inventory>, d: Date) {
    if DailyEverywhere(inventories, d) then
      Covering(p.units, d) == [DailyUnit(inventories, d)] && Mentions(p.unavailable, d) == 0
    else Covering(p.units, d) == [] && Mentions(p.unavailable, d) == 1
  }

  predicate Untouched(p: Plan, d: Date) { Covering(p.units, d) == [] && Mentions(p.unavailable, d) == 0 }

  lemma JoinUntouched(a: Plan, b: Plan, d: Date)
    ensures Untouched(a, d) ==> Covering(Join(a, b).units, d) == Covering(b.units, d)
                                && Mentions(Join(a, b).unavailable, d) == Mentions(b.unavailable, d)
    ensures Untouched(b, d) ==> Covering(Join(a, b).units, d) == Covering(a.units, d)
                                && Mentions(Join(a, b).unavailable, d) == Mentions(a.unavailable, d)
  {
    CoveringJoin(a.units, b.units, d);
    MentionsJoin(a.unavailable, b.unavailable, d);
  }

  lemma DayPlanCovers(inventories: seq<Inventory>, date: Date, d: Date)
    ensures if d == date then CoveredByDay(DayPlan(inventories, date), inventories, d)
            else Untouched(DayPlan(inventories, date), d)
  {
    hide DailyEverywhere;
    if DailyEverywhere(inventories, date) {
      CoveringOne(DailyUnit(inventories, date), d);
    } else {
      MentionsOne(date, d);
    }
  }

  lemma CoveringOne(u: Unit, d: Date)
    ensures Covering([u], d) == if Covers(u, d) then [u] else []
  {
    assert [u][..0] == [];
  }

  lemma MentionsOne(date: Date, d: Date)
    ensures Mentions([date], d) == if date == d then 1 else 0
  {
    assert [date][..0] == [];
  }

  lemma {:induction false} DaysPlanCovers(inventories: seq<Inventory>, year: int, month: int, from: int, until: int, d: Date)
    decreases until - from
    ensures var p := DaysPlan(inventories, year, month, from, until);
            if d.year == year && d.month == month && from <= d.day < until then CoveredByDay(p, inventories, d)
            else Untouched(p, d)
  {
    hide DayPlan, Covering, Mentions, DailyEverywhere;
    if from < until {
      DaysPlanCovers(inventories, year, month, from, until - 1, d);
      DayPlanCovers(inventories, Date(year, month, until - 1), d);
      JoinUntouched(DaysPlan(inventories, year, month, from, until - 1), DayPlan(inventories, Date(year, month, until - 1)), d);
    } else {
      NothingTouched(d);
    }
  }

  lemma NothingTouched(d: Date)
    ensures Untouched(Plan([], []), d)
  {
  }

  /** One date of a plan: by its month, by its day, or unavailable. */
  predicate CoveredRight(p: Plan, inventories: seq<Inventory>, start: Date, end: Date, d: Date) {
    if MonthlyFor(inventories, start, end, d.year, d.month) then
      Covering(p.units, d) == [MonthlyUnit(inventories, d.year, d.month)] && Mentions(p.unavailable, d) == 0
    else CoveredByDay(p, inventories, d)
  }

  lemma MonthPlanCovers(inventories: seq<Inventory>, cursor: Date, end: Date, d: Date)
    requires Real(cursor) && Real(end) && UpTo(cursor, end) && Real(d)
    ensures var p := MonthPlan(inventories, cursor, end);
            if UpTo(cursor, d) && UpTo(d, end) && d.year == cursor.year && d.month == cursor.month
            then CoveredRight(p, inventories, cursor, end, d) else Untouched(p, d)
  {
    hide DailyEverywhere, MonthlyEverywhere;
    if MonthlyFor(inventories, cursor, end, cursor.year, cursor.month) {
      CoveringOne(MonthlyUnit(inventories, cursor.year, cursor.month), d);
    } else {
      hide Covering, Mentions, DaysPlan;
      DaysPlanCovers(inventories, cursor.year, cursor.month, cursor.day, Earlier(end, Last(cursor.year, cursor.month)).day + 1, d);
    }
  }

  lemma LaterMonth(inventories: seq<Inventory>, cursor: Date, end: Date, d: Date)
    requires Real(cursor) && Real(d)
    ensures UpTo(NextMonth(cursor), d) <==> Before(cursor, d) && (d.year, d.month) != (cursor.year, cursor.month)
    ensures UpTo(NextMonth(cursor), d) ==>
              MonthlyFor(inventories, NextMonth(cursor), end, d.year, d.month) == MonthlyFor(inventories, cursor, end, d.year, d.month)
  {
    hide MonthlyEverywhere;
  }

  /**
  The plan partitions the range: a date is covered by exactly one unit or listed exactly once as
  unavailable; by a monthly unit exactly when its month is wholly inside the range and every symbol
  has the file. Dates outside the range do not appear.
  */
  lemma {:induction false} PlanPartition(inventories: seq<Inventory>, start: Date, end: Date, d: Date)
    requires Real(start) && Real(end) && Real(d)
    ensures var p := PlanFrom(inventories, start, end);
            if UpTo(start, d) && UpTo(d, end) then CoveredRight(p, inventories, start, end, d) else Untouched(p, d)
    decreases MonthsLeft(start, end)
  {
    hide MonthPlan, Covering, Mentions, DailyEverywhere, MonthlyEverywhere;
    if Before(end, start) {
      NothingTouched(d);
    } else {
      MonthPlanCovers(inventories, start, end, d);
      PlanPartition(inventories, NextMonth(start), end, d);
      LaterMonth(inventories, start, end, d);
      JoinUntouched(MonthPlan(inventories, start, end), PlanFrom(inventories, NextMonth(start), end), d);
    }
  }

  // ---------------------------------------------------------------- order

  predicate WellDated(u: Unit, start: Date, end: Date) {
    && Real(u.first) && Real(u.last) && UpTo(u.first, u.last) && UpTo(start, u.first) && UpTo(u.last, end)
    && (u.kind == Daily ==> u.first == u.last)
    && (u.kind == Monthly ==> u.first == First(u.first.year, u.first.month) && u.last == Last(u.first.year, u.first.month))
  }

  predicate AllDated(units: seq<Unit>, start: Date, end: Date) {
    forall i :: 0 <= i < |units| ==> WellDated(units[i], start, end)
  }

  predicate Ascending(units: seq<Unit>) {
    forall i, j :: 0 <= i < j < |units| ==> Before(units[i].last, units[j].first)
  }

  /** Units in order of their dates, none outside the range: sorting them changes nothing. */
  predicate InOrder(units: seq<Unit>, start: Date, end: Date) { AllDated(units, start, end) && Ascending(units) }

  lemma JoinInOrder(a: seq<Unit>, b: seq<Unit>, start: Date, middle: Date, next: Date, end: Date)
    requires InOrder(a, start, middle) && InOrder(b, next, end) && UpTo(start, next) && UpTo(middle, end) && Before(middle, next)
    ensures InOrder(a + b, start, end)
  {
    forall i, j | 0 <= i < j < |a + b| ensures Before((a + b)[i].last, (a + b)[j].first) {
      if i < |a| <= j { assert WellDated(a[i], start, middle) && WellDated(b[j - |a|], next, end); }
    }
    forall i | 0 <= i < |a + b| ensures WellDated((a + b)[i], start, end) {
      if i < |a| { assert WellDated(a[i], start, middle); } else { assert WellDated(b[i - |a|], next, end); }
    }
  }

  lemma {:induction false} DaysPlanInOrder(inventories: seq<Inventory>, year: int, month: int, from: int, until: int)
    requires Real(Date(year, month, from)) && Real(Date(year, month, until)) && from <= until
    ensures InOrder(DaysPlan(inventories, year, month, from, until + 1).units, Date(year, month, from), Date(year, month, until))
    decreases until - from
  {
    hide DailyEverywhere, MonthLength, AllDated, Ascending, DayPlan;
    var date := Date(year, month, until);
    DayInOrder(inventories, date);
    if from == until {
      DaysPlanOne(inventories, year, month, from);
    } else {
      DaysPlanInOrder(inventories, year, month, from, until - 1);
      JoinInOrder(DaysPlan(inventories, year, month, from, until).units, DayPlan(inventories, date).units,
                  Date(year, month, from), Date(year, month, until - 1), date, date);
    }
  }

  lemma DaysPlanOne(inventories: seq<Inventory>, year: int, month: int, day: int)
    ensures DaysPlan(inventories, year, month, day, day + 1) == DayPlan(inventories, Date(year, month, day))
  {
    var p := DayPlan(inventories, Date(year, month, day));
    assert DaysPlan(inventories, year, month, day, day) == Plan([], []);
    assert Join(Plan([], []), p) == p;
  }

  lemma DayInOrder(inventories: seq<Inventory>, date: Date)
    requires Real(date)
    ensures InOrder(DayPlan(inventories, date).units, date, date)
  {
    hide DailyEverywhere;
  }

  lemma MonthPlanInOrder(inventories: seq<Inventory>, cursor: Date, end: Date)
    requires Real(cursor) && Real(end) && UpTo(cursor, end)
    ensures InOrder(MonthPlan(inventories, cursor, end).units, cursor, Earlier(end, Last(cursor.year, cursor.month)))
  {
    hide DailyEverywhere, MonthlyEverywhere, DaysPlan, Leap;
    if !MonthlyFor(inventories, cursor, end, cursor.year, cursor.month) {
      DaysPlanInOrder(inventories, cursor.year, cursor.month, cursor.day, Earlier(end, Last(cursor.year, cursor.month)).day);
    }
  }

  /** The plan is already in the order that the final sort asks for, and stays inside the range. */
  lemma {:induction false} PlanInOrder(inventories: seq<Inventory>, start: Date, end: Date)
    requires Real(start) && Real(end)
    ensures InOrder(PlanFrom(inventories, start, end).units, start, end)
    decreases MonthsLeft(start, end)
  {
    hide MonthPlan, InOrder, Leap;
    if UpTo(start, end) {
      MonthPlanInOrder(inventories, start, end);
      PlanInOrder(inventories, NextMonth(start), end);
      JoinInOrder(MonthPlan(inventories, start, end).units, PlanFrom(inventories, NextMonth(start), end).units,
                  start, Earlier(end, Last(start.year, start.month)), NextMonth(start), end);
    } else {
      NothingInOrder(start, end);
    }
  }

  lemma NothingInOrder(start: Date, end: Date)
    ensures InOrder([], start, end)
  {
  }

  // ---------------------------------------------------------------- no gaps

  /** The units follow one another day by day, from `start` to the day before `after`. */
  predicate Tiles(units: seq<Unit>, start: Date, after: Date) {
    if units == [] then start == after else
    var u := units[|units| - 1];
    Tiles(units[..|units| - 1], start, u.first) && after == NextDay(u.last)
  }

  lemma {:induction false} TilesJoin(a: seq<Unit>, b: seq<Unit>, start: Date, middle: Date, after: Date)
    requires Tiles(a, start, middle) && Tiles(b, middle, after)
    ensures Tiles(a + b, start, after)
  {
    if b == [] {
      assert a + b == a;
    } else {
      TilesJoin(a, b[..|b| - 1], start, middle, b[|b| - 1].first);
      assert (a + b)[..|a + b| - 1] == a + b[..|b| - 1];
    }
  }

  lemma TilesOne(u: Unit)
    ensures Tiles([u], u.first, NextDay(u.last))
  {
    assert [u][..0] == [];
  }

  lemma {:induction false} DaysPlanTiles(inventories: seq<Inventory>, year: int, month: int, from: int, until: int)
    requires Real(Date(year, month, from)) && Real(Date(year, month, until)) && from <= until
    requires DaysPlan(inventories, year, month, from, until + 1).unavailable == []
    ensures Tiles(DaysPlan(inventories, year, month, from, until + 1).units, Date(year, month, from), NextDay(Date(year, month, until)))
    decreases until - from
  {
    hide DailyEverywhere, Tiles, Leap;
    var date := Date(year, month, until);
    assert DayPlan(inventories, date).unavailable == [];
    TilesOne(DailyUnit(inventories, date));
    if from == until {
      DaysPlanOne(inventories, year, month, from);
    } else {
      DaysPlanTiles(inventories, year, month, from, until - 1);
      TilesJoin(DaysPlan(inventories, year, month, from, until).units, DayPlan(inventories, date).units,
                Date(year, month, from), date, NextDay(date));
    }
  }

  lemma MonthPlanTiles(inventories: seq<Inventory>, cursor: Date, end: Date)
    requires Real(cursor) && Real(end) && UpTo(cursor, end) && MonthPlan(inventories, cursor, end).unavailable == []
    ensures Tiles(MonthPlan(inventories, cursor, end).units, cursor, NextDay(Earlier(end, Last(cursor.year, cursor.month))))
  {
    hide DailyEverywhere, MonthlyEverywhere, DaysPlan, Tiles, Leap;
    if MonthlyFor(inventories, cursor, end, cursor.year, cursor.month) {
      TilesOne(MonthlyUnit(inventories, cursor.year, cursor.month));
    } else {
      DaysPlanTiles(inventories, cursor.year, cursor.month, cursor.day, Earlier(end, Last(cursor.year, cursor.month)).day);
    }
  }

  /** A plan without unavailable dates tiles its range: no day between two units, none before or after. */
  lemma {:induction false} PlanTiles(inventories: seq<Inventory>, start: Date, end: Date)
    requires Real(start) && Real(end) && UpTo(start, end) && PlanFrom(inventories, start, end).unavailable == []
    ensures Tiles(PlanFrom(inventories, start, end).units, start, NextDay(end))
    decreases MonthsLeft(start, end)
  {
    hide MonthPlan, Tiles, Leap;
    var next := NextMonth(start);
    MonthPlanTiles(inventories, start, end);
    if UpTo(next, end) {
      PlanTiles(inventories, next, end);
      TilesJoin(MonthPlan(inventories, start, end).units, PlanFrom(inventories, next, end).units, start, next, NextDay(end));
    } else {
      assert MonthPlan(inventories, start, end).units + [] == MonthPlan(inventories, start, end).units;
    }
  }
}
