/** Dates of the proleptic Gregorian calendar, ordered by year, month and day, and numbered by day. */
module Calendar {

  datatype Date = Date(year: int, month: int, day: int)

  predicate Leap(year: int) { year % 4 == 0 && (year % 100 != 0 || year % 400 == 0) }

  function YearLength(year: int): nat { if Leap(year) then 366 else 365 }

  function MonthLength(year: int, month: int): (n: nat)
    ensures 28 <= n <= 31
  {
    if month == 2 then (if Leap(year) then 29 else 28)
    else if month == 4 || month == 6 || month == 9 || month == 11 then 30
    else 31
  }

  predicate Real(d: Date) {
    1 <= d.year && 1 <= d.month <= 12 && 1 <= d.day <= MonthLength(d.year, d.month)
  }

  predicate Before(a: Date, b: Date) {
    a.year < b.year || (a.year == b.year && (a.month < b.month || (a.month == b.month && a.day < b.day)))
  }

  predicate UpTo(a: Date, b: Date) { a == b || Before(a, b) }

  function First(year: int, month: int): Date { Date(year, month, 1) }

  function Last(year: int, month: int): Date { Date(year, month, MonthLength(year, month)) }

  /** The first day of the month after the date's own. */
  function NextMonth(d: Date): Date {
    if d.month == 12 then First(d.year + 1, 1) else First(d.year, d.month + 1)
  }

  function NextDay(d: Date): Date {
    if d.day == MonthLength(d.year, d.month) then NextMonth(d) else d.(day := d.day + 1)
  }

  function DaysBeforeYear(year: int): nat {
    if year <= 1 then 0 else DaysBeforeYear(year - 1) + YearLength(year - 1)
  }

  function DaysBeforeMonth(year: int, month: int): nat {
    if month <= 1 then 0 else DaysBeforeMonth(year, month - 1) + MonthLength(year, month - 1)
  }

  /** Days since the first day of year 1. */
  function DayNumber(d: Date): int {
    DaysBeforeYear(d.year) + DaysBeforeMonth(d.year, d.month) + d.day - 1
  }

  /** The running sum over the months, written out. */
  function MonthStart(year: int, month: int): int {
    var shift := if month > 2 then MonthLength(year, 2) - 28 else 0;
    shift + match month
            case 1 => 0 case 2 => 31 case 3 => 59 case 4 => 90 case 5 => 120 case 6 => 151
            case 7 => 181 case 8 => 212 case 9 => 243 case 10 => 273 case 11 => 304 case 12 => 334 case _ => 365
  }

  lemma TwelveMonths(year: int)
    ensures DaysBeforeMonth(year, 13) == YearLength(year)
  {
    var m := 1;
    while m < 13
      invariant 1 <= m <= 13
      invariant DaysBeforeMonth(year, m) == MonthStart(year, m)
    {
      m := m + 1;
    }
  }

  /** The day after has the next number, also across months and years. */
  lemma NextDayNumber(d: Date)
    requires Real(d)
    ensures Real(NextDay(d)) && DayNumber(NextDay(d)) == DayNumber(d) + 1
  {
    hide Leap;
    if d.day == MonthLength(d.year, d.month) && d.month == 12 {
      TwelveMonths(d.year);
      assert DaysBeforeMonth(d.year, 13) == DaysBeforeMonth(d.year, 12) + MonthLength(d.year, 12);
    }
  }

  lemma {:induction false} MonthsGrow(year: int, m: int, n: int)
    requires 1 <= m <= n
    ensures DaysBeforeMonth(year, m) + (if m < n then MonthLength(year, m) else 0) <= DaysBeforeMonth(year, n)
  {
    hide MonthLength, Leap;
    if m < n - 1 { MonthsGrow(year, m, n - 1); }
  }

  lemma {:induction false} YearsGrow(x: int, y: int)
    requires 1 <= x < y
    ensures DaysBeforeYear(x) + YearLength(x) <= DaysBeforeYear(y)
  {
    hide YearLength, Leap;
    if x < y - 1 { YearsGrow(x, y - 1); }
  }

  /** The number orders dates as year, month and day do. */
  lemma DayNumberMonotone(a: Date, b: Date)
    requires Real(a) && Real(b) && Before(a, b)
    ensures DayNumber(a) < DayNumber(b)
  {
    hide Leap, MonthLength, YearLength;
    if a.year < b.year {
      YearsGrow(a.year, b.year);
      MonthsGrow(a.year, a.month, 13);
      TwelveMonths(a.year);
      MonthsGrow(b.year, 1, b.month);
    } else if a.month < b.month {
      MonthsGrow(a.year, a.month, b.month);
    }
  }

  // ---------------------------------------------------------------- the Gregorian cycle

  lemma {:induction false} YearsRepeat(year: int)
    requires year >= 1
    ensures DaysBeforeYear(year + 400) == DaysBeforeYear(year) + 146_097
    decreases year
  {
    if year == 1 {
      FirstCycle();
    } else {
      LeapRepeats(year - 1);
      hide Leap;
      YearsRepeat(year - 1);
    }
  }

  /** The days before a year, by the rule of leap years in closed form. */
  function Elapsed(year: int): int { 365 * (year - 1) + (year - 1) / 4 - (year - 1) / 100 + (year - 1) / 400 }

  lemma {:induction false} DaysBeforeYearIs(year: int)
    requires year >= 1
    ensures DaysBeforeYear(year) == Elapsed(year)
    decreases year
  {
    if year > 1 {
      DaysBeforeYearIs(year - 1);
      LeapStep(year - 1);
    }
  }

  lemma DivSteps(x: int)
    ensures x / 4 == (x - 1) / 4 + if x % 4 == 0 then 1 else 0
    ensures x / 100 == (x - 1) / 100 + if x % 100 == 0 then 1 else 0
    ensures x / 400 == (x - 1) / 400 + if x % 400 == 0 then 1 else 0
  {
  }

  lemma Centuries(x: int)
    ensures x % 400 == 0 ==> x % 100 == 0
    ensures x % 100 == 0 ==> x % 4 == 0
  {
    var c, k := x / 400, x / 100;
    if x % 400 == 0 { assert x == 100 * (4 * c) + 0; }
    if x % 100 == 0 { assert x == 4 * (25 * k) + 0; }
  }

  lemma LeapStep(year: int)
    requires year >= 1
    ensures Elapsed(year + 1) - Elapsed(year) == YearLength(year)
  {
    DivSteps(year);
    Centuries(year);
  }

  lemma LeapRepeats(year: int)
    ensures Leap(year + 400) == Leap(year)
  {
  }

  lemma FirstCycle()
    ensures DaysBeforeYear(401) == 146_097
  {
    DaysBeforeYearIs(401);
  }

  lemma MonthsRepeat(year: int, month: int)
    ensures DaysBeforeMonth(year + 400, month) == DaysBeforeMonth(year, month)
    decreases month
  {
    if month > 1 {
      LeapRepeats(year);
      hide Leap;
      MonthsRepeat(year, month - 1);
    }
  }

  lemma FirstMonth(year: int)
    ensures DaysBeforeMonth(year, 1) == 0
  {
  }

  /** The Gregorian cycle: the same date 400 years later is 146097 days later, and the day numbers of years follow the leap rule. */
  lemma GregorianCycle(d: Date)
    requires Real(d)
    ensures Real(Date(d.year + 400, d.month, d.day))
    ensures DayNumber(Date(d.year + 400, d.month, d.day)) == DayNumber(d) + 146_097
    ensures DayNumber(Date(d.year, 1, 1)) == Elapsed(d.year)
  {
    LeapRepeats(d.year);
    hide Leap, DaysBeforeYear, DaysBeforeMonth, Elapsed;
    FirstMonth(d.year);
    YearsRepeat(d.year);
    MonthsRepeat(d.year, d.month);
    DaysBeforeYearIs(d.year);
  }

  /** The months with a thirty-first day, and the length of February. */
  lemma MonthEnds(year: int, month: int)
    requires year >= 1 && 1 <= month <= 12
    ensures Real(Date(year, month, 31)) <==> month in {1, 3, 5, 7, 8, 10, 12}
    ensures Real(Date(year, month, 30)) <==> month != 2
    ensures Real(Date(year, month, 29)) <==> month != 2 || (year % 4 == 0 && year % 100 != 0) || year % 400 == 0
  {
  }
}
