/** The charges of a month: bounded on an advancing clock, and made again from zero after each return to the month. */
module UsageLedgerMonths {
  import opened Prelude
  import opened UsageLedger
  import opened UsageLedgerLaws

  function MonthOf(step: Step): int { step.month }

  /** With a request still open, no step outside the ledger's month changes the ledger, ever. */
  lemma {:induction false} FrozenAfterRollover(s: System, steps: seq<Step>)
    requires s.disk.Some? && s.disk.value.inflight != map[]
    requires forall i :: 0 <= i < |steps| ==> MonthOf(steps[i]) != s.disk.value.month
    ensures Run(s, steps) == s
  {
    hide Valid, WorstCase, CalculateCost;
    if steps != [] { FrozenAfterRollover(s, steps[..|steps| - 1]); }
  }

  function SpentIn(charges: seq<Charge>, month: int): int {
    if charges == [] then 0 else
    SpentIn(charges[..|charges| - 1], month) + if charges[|charges| - 1].month == month then charges[|charges| - 1].cost else 0
  }

  function SpentBefore(disk: Option<Ledger>, month: int): int {
    if disk.Some? && disk.value.month == month then disk.value.spent else 0
  }

  // ---------------------------------------------------------------- visits to a month

  /** The ledger leaves month `m` with this step. */
  ghost predicate Leaves(s: System, step: Step, m: int) {
    s.disk.Some? && s.disk.value.month == m && After(s, step).disk.Some? && After(s, step).disk.value.month != m
  }

  /** What was charged in each of the times that the ledger was in month `m` and has left it. */
  ghost function Visits(steps: seq<Step>, m: int): seq<int> {
    if steps == [] then [] else
    var rest, step := steps[..|steps| - 1], steps[|steps| - 1];
    var s := Run(Start(), rest);
    Visits(rest, m) + if Leaves(s, step, m) then [SpentBefore(s.disk, m)] else []
  }

  function Sum(xs: seq<int>): int {
    if xs == [] then 0 else Sum(xs[..|xs| - 1]) + xs[|xs| - 1]
  }

  lemma SumSnoc(xs: seq<int>, x: int)
    ensures Sum(xs + [x]) == Sum(xs) + x
  {
    assert (xs + [x])[..|xs|] == xs;
  }

  lemma LedgerMonth(s: System, step: Step)
    ensures var t := After(s, step);
            && (s.disk.Some? ==> t.disk.Some?)
            && (t.disk.Some? ==> t.disk.value.month == MonthOf(step) || (s.disk.Some? && t.disk.value.month == s.disk.value.month))
  {
    hide Valid, WorstCase, CalculateCost, Rounded;
  }

  lemma ReserveVisits(s: System, month: int, q: Request, m: int)
    requires Sound(s)
    ensures var t := AfterReserve(s, month, q);
            && t.charges == s.charges
            && SpentBefore(t.disk, m) == if Leaves(s, Reserve(month, q), m) then 0 else SpentBefore(s.disk, m)
  {
    hide OnGrid, Granted, Shares, ChargedOnce, WorstCase, Valid, Total;
  }

  /** A reconciliation keeps the ledger's month, and charges it what the ledger's spent amount grows by. */
  lemma ReconcileCharges(s: System, month: int, id: Id, model: Model, usage: Usage, up: bool)
    ensures var t := AfterReconcile(s, month, id, model, usage, up);
            && (s.disk.Some? <==> t.disk.Some?)
            && if s.disk.Some? && t.disk.Some? && t.charges != s.charges
               then t.disk.value.month == s.disk.value.month == month
                    && t.charges == s.charges + [Charge(id, t.disk.value.spent - s.disk.value.spent, month)]
               else t.charges == s.charges && forall m :: SpentBefore(t.disk, m) == SpentBefore(s.disk, m)
    ensures forall m :: !Leaves(s, Reconcile(month, id, model, usage, up), m)
  {
    hide CalculateCost, Valid, Rounded;
  }

  lemma ReconcileVisits(s: System, month: int, id: Id, model: Model, usage: Usage, up: bool, m: int)
    ensures var t := AfterReconcile(s, month, id, model, usage, up);
            && !Leaves(s, Reconcile(month, id, model, usage, up), m)
            && SpentIn(t.charges, m) - SpentBefore(t.disk, m) == SpentIn(s.charges, m) - SpentBefore(s.disk, m)
  {
    hide AfterReconcile, Leaves;
    ReconcileCharges(s, month, id, model, usage, up);
    var t := AfterReconcile(s, month, id, model, usage, up);
    if t.charges != s.charges { assert t.charges[..|t.charges| - 1] == s.charges; }
  }

  /**
  On any clock: what a month is charged is the sum over the ledger's visits to it, because every
  visit starts from zero; and each single visit is within the cap and its tolerance.
  */
  lemma {:induction false} SpentIsSumOfVisits(steps: seq<Step>, m: int)
    ensures var s := Run(Start(), steps);
            && SpentIn(s.charges, m) == Sum(Visits(steps, m)) + SpentBefore(s.disk, m)
            && 0 <= SpentBefore(s.disk, m) <= CAP + CAP_TOLERANCE
            && forall k :: 0 <= k < |Visits(steps, m)| ==> 0 <= Visits(steps, m)[k] <= CAP + CAP_TOLERANCE
  {
    hide Sound, AfterReserve, AfterReconcile, SpentIn, SpentBefore, Leaves;
    EveryRunSound(steps);
    WithinCap(Run(Start(), steps), m);
    if steps == [] {
      NothingSpent(m);
    } else {
      var rest, step := steps[..|steps| - 1], steps[|steps| - 1];
      var s := Run(Start(), rest);
      SpentIsSumOfVisits(rest, m);
      EveryRunSound(rest);
      SumSnoc(Visits(rest, m), SpentBefore(s.disk, m));
      assert Visits(rest, m) + [] == Visits(rest, m);
      match step
      case Reserve(month, q) => ReserveVisits(s, month, q, m);
      case Reconcile(month, id, model, usage, up) => ReconcileVisits(s, month, id, model, usage, up, m);
    }
  }

  lemma NothingSpent(m: int)
    ensures SpentIn(Start().charges, m) == 0 && SpentBefore(Start().disk, m) == 0
  {
  }

  lemma WithinCap(s: System, m: int)
    requires Sound(s)
    ensures 0 <= SpentBefore(s.disk, m) <= CAP + CAP_TOLERANCE
  {
    hide OnGrid, Granted, Shares, ChargedOnce, Total;
  }

  lemma {:induction false} SumBounded(xs: seq<int>, bound: int)
    requires forall k :: 0 <= k < |xs| ==> xs[k] <= bound
    ensures Sum(xs) <= |xs| * bound
  {
    if xs != [] {
      var rest := xs[..|xs| - 1];
      SumBounded(rest, bound);
      assert |xs| * bound == |rest| * bound + bound;
    }
  }

  /** A month exceeds its cap only by returns: each time that the ledger has left the month allows one more cap. */
  lemma CapPerVisit(steps: seq<Step>, m: int)
    ensures SpentIn(Run(Start(), steps).charges, m) <= |Visits(steps, m)| * (CAP + CAP_TOLERANCE) + (CAP + CAP_TOLERANCE)
  {
    hide Run, SpentIn, SpentBefore, Visits;
    SpentIsSumOfVisits(steps, m);
    SumBounded(Visits(steps, m), CAP + CAP_TOLERANCE);
  }

  // ---------------------------------------------------------------- an advancing clock

  predicate Advancing(steps: seq<Step>) {
    forall i, j :: 0 <= i < j < |steps| ==> MonthOf(steps[i]) <= MonthOf(steps[j])
  }

  /** On a clock that never runs back the ledger's month is the month of some step, and no month is visited twice. */
  lemma {:induction false} VisitedOnce(steps: seq<Step>, m: int)
    requires Advancing(steps)
    ensures var s := Run(Start(), steps);
            && (s.disk.Some? ==> exists i :: 0 <= i < |steps| && MonthOf(steps[i]) == s.disk.value.month)
            && (Visits(steps, m) == [] || (|Visits(steps, m)| == 1 && s.disk.Some? && s.disk.value.month > m))
  {
    hide After, SpentBefore;
    if steps != [] {
      var rest, step := steps[..|steps| - 1], steps[|steps| - 1];
      VisitedOnce(rest, m);
      var s, t := Run(Start(), rest), Run(Start(), steps);
      LedgerMonth(s, step);
      if s.disk.Some? {
        var i :| 0 <= i < |rest| && MonthOf(rest[i]) == s.disk.value.month;
        assert MonthOf(steps[i]) <= MonthOf(steps[|steps| - 1]);
        assert steps[i] == rest[i];
      }
      if t.disk.Some? && t.disk.value.month == MonthOf(step) {
        assert MonthOf(steps[|steps| - 1]) == t.disk.value.month;
      }
    }
  }

  /** On a clock that never runs back, the charges of any one month stay within the cap and its tolerance. */
  lemma MonthlyCap(steps: seq<Step>, month: int)
    requires Advancing(steps)
    ensures SpentIn(Run(Start(), steps).charges, month) <= CAP + CAP_TOLERANCE
  {
    hide Run, SpentIn, Visits;
    VisitedOnce(steps, month);
    SpentIsSumOfVisits(steps, month);
    if Visits(steps, month) != [] { assert Visits(steps, month)[..0] == []; }
  }

  // ---------------------------------------------------------------- a clock that runs back

  /** A request that is reserved and reconciled with nothing else open is one charge of its cost. */
  lemma PaidRequest(s: System, month: int, q: Request, usage: Usage, cost: int)
    requires Sound(s) && (s.disk.Some? ==> s.disk.value.inflight == map[])
    requires CalculateCost(q.model, usage) == Ok(cost) && Whole(cost) && WorstCase(q).Ok? && cost <= WorstCase(q).value
    requires SpentBefore(s.disk, month) + WorstCase(q).value <= UsableCap(q.blocker)
    ensures var t := After(After(s, Reserve(month, q)), Reconcile(month, |s.grants|, q.model, usage, true));
            && t.disk.Some? && t.disk.value.inflight == map[] && t.disk.value.month == month
            && t.disk.value.spent == SpentBefore(s.disk, month) + cost
            && t.charges == s.charges + [Charge(|s.grants|, cost, month)] && |t.grants| == |s.grants| + 1
  {
    hide Balanced, OnGrid, Shares, ChargedOnce, CalculateCost, WorstCase, Rounded, Whole;
    var amount, id := WorstCase(q).value, |s.grants|;
    LoadedForPayment(s, month);
    var l := Loaded(s.disk, month).value;
    WorstCaseOnGrid(q);
    ReservationBalanced(l, id, q, amount);
    hide Loaded, Sound;
    var held := WithReservation(l, id, q, amount);
    BalancedValid(held);
    hide Valid;
    assert After(s, Reserve(month, q)) == AfterGrant(s, month, q, l, amount);
    HeldOnGrid(l, held, cost);
    Settled(After(s, Reserve(month, q)), held, month, id, q, usage, cost);
  }

  /** With nothing open, a request sees an empty ledger that has spent what this month was charged since the last return to it. */
  lemma LoadedForPayment(s: System, month: int)
    requires Sound(s) && (s.disk.Some? ==> s.disk.value.inflight == map[])
    ensures Loaded(s.disk, month).Ok?
    ensures var l := Loaded(s.disk, month).value;
            && Balanced(l) && OnGrid(l) && l.inflight == map[] && l.reserved == 0
            && l.month == month && l.spent == SpentBefore(s.disk, month)
  {
    hide Balanced, OnGrid, Shares, ChargedOnce;
    if s.disk.Some? { BalancedValid(s.disk.value); }
    LoadedSound(s, month);
    NothingReserved(Loaded(s.disk, month).value);
  }

  /** The reconciliation of the only open request. */
  lemma Settled(t: System, held: Ledger, month: int, id: Id, q: Request, usage: Usage, cost: int)
    requires t.disk == Some(held) && Balanced(held) && OnGrid(held) && held.month == month && held.inflight.Keys == {id}
    requires held.inflight[id].reserved >= cost && CalculateCost(q.model, usage) == Ok(cost)
    requires Rounded(held.spent + cost, true) == held.spent + cost
    ensures var u := After(t, Reconcile(month, id, q.model, usage, true));
            && u.disk.Some? && u.disk.value.inflight == map[] && u.disk.value.month == month
            && u.disk.value.spent == held.spent + cost
            && u.charges == t.charges + [Charge(id, cost, month)] && u.grants == t.grants
  {
    hide Balanced, OnGrid, CalculateCost, Rounded;
    BalancedValid(held);
    CostNonneg(q.model, usage);
    ChargeWithin(held, id, cost, true);
    BalancedValid(WithCharge(held, id, cost, true));
    hide Valid;
    assert held.inflight - {id} == map[];
  }

  lemma NothingReserved(l: Ledger)
    requires Balanced(l) && l.inflight == map[]
    ensures l.reserved == 0
  {
  }

  lemma HeldOnGrid(l: Ledger, held: Ledger, cost: int)
    requires OnGrid(l) && held.spent == l.spent && Whole(cost)
    ensures Rounded(held.spent + cost, true) == held.spent + cost
  {
    WholeSum(l.spent, cost);
  }

  function Pay(month: int, id: Id, q: Request, usage: Usage): seq<Step> {
    [Reserve(month, q), Reconcile(month, id, q.model, usage, true)]
  }

  lemma RunSnoc(steps: seq<Step>, step: Step)
    ensures Run(Start(), steps + [step]) == After(Run(Start(), steps), step)
  {
    hide After;
    assert (steps + [step])[..|steps + [step]| - 1] == steps;
  }

  /** As `PaidRequest`, at the end of any run. */
  lemma PaidRun(steps: seq<Step>, month: int, q: Request, usage: Usage, cost: int)
    requires var s := Run(Start(), steps);
             && (s.disk.Some? ==> s.disk.value.inflight == map[])
             && SpentBefore(s.disk, month) + WorstCaseOf(q) <= UsableCap(q.blocker)
    requires CalculateCost(q.model, usage) == Ok(cost) && Whole(cost) && WorstCase(q).Ok? && cost <= WorstCaseOf(q)
    ensures var s := Run(Start(), steps);
            var t := Run(Start(), steps + Pay(month, |s.grants|, q, usage));
            && t.disk.Some? && t.disk.value.inflight == map[] && t.disk.value.month == month
            && t.disk.value.spent == SpentBefore(s.disk, month) + cost && |t.grants| == |s.grants| + 1
            && SpentIn(t.charges, 1) == SpentIn(s.charges, 1) + (if month == 1 then cost else 0)
  {
    hide Run, After, Sound, CalculateCost, WorstCase;
    var s := Run(Start(), steps);
    EveryRunSound(steps);
    PaidRequest(s, month, q, usage, cost);
    var first := Reserve(month, q);
    var second := Reconcile(month, |s.grants|, q.model, usage, true);
    RunSnoc(steps, first);
    RunSnoc(steps + [first], second);
    assert steps + Pay(month, |s.grants|, q, usage) == steps + [first] + [second];
    var t := Run(Start(), steps + Pay(month, |s.grants|, q, usage));
    assert t.charges[..|t.charges| - 1] == s.charges;
  }

  function WorstCaseOf(q: Request): int { if WorstCase(q).Ok? then WorstCase(q).value else 0 }

  /** A message of the greatest allowed length, with its 30 bytes of JSON around it. */
  function LongMessage(): Message { Message(true, 24_000, true, true, 24_030) }

  function BlockerRequest(): Request { Request(Pro, 1, 24_030, 32768, true) }

  /** One token for four bytes of the message, and the full answer. */
  function BlockerUsage(): Usage { Usage(Given(6000), Given(32768), Absent, Absent) }

  const BLOCKER_COST := 1_244_726_400

  lemma BlockerPrices()
    ensures RequestOf(true, [LongMessage()], Routine, true, 32768, true) == Ok(BlockerRequest())
    ensures BlockerRequest().blocker && BlockerRequest().model == Pro
    ensures CalculateCost(Pro, BlockerUsage()) == Ok(BLOCKER_COST) && Whole(BLOCKER_COST)
    ensures WorstCase(BlockerRequest()) == Ok(1_594_083_600) && WorstCaseOf(BlockerRequest()) == 1_594_083_600
  {
  }

  /** `n` blocker requests in one month, each answered before the next; the first has the id `first`. */
  function Paid(month: int, first: nat, n: nat): seq<Step> {
    if n == 0 then [] else Paid(month, first, n - 1) + Pay(month, first + n - 1, BlockerRequest(), BlockerUsage())
  }

  lemma {:induction false} PaidMany(steps: seq<Step>, month: int, n: nat)
    requires var s := Run(Start(), steps);
             && (s.disk.Some? ==> s.disk.value.inflight == map[])
             && SpentBefore(s.disk, month) == 0 && n <= 125
    ensures var s := Run(Start(), steps);
            var t := Run(Start(), steps + Paid(month, |s.grants|, n));
            && (t.disk.Some? ==> t.disk.value.inflight == map[]) && (n > 0 ==> t.disk.Some? && t.disk.value.month == month)
            && SpentBefore(t.disk, month) == BLOCKER_COST * n && |t.grants| == |s.grants| + n
            && SpentIn(t.charges, 1) == SpentIn(s.charges, 1) + (if month == 1 then BLOCKER_COST * n else 0)
  {
    hide Run, Pay, CalculateCost, WorstCase, WorstCaseOf, BlockerRequest, BlockerUsage, SpentIn, Whole;
    var first := |Run(Start(), steps).grants|;
    if n == 0 {
      assert steps + [] == steps;
    } else {
      PaidMany(steps, month, n - 1);
      BlockerPrices();
      var before := steps + Paid(month, first, n - 1);
      PaidRun(before, month, BlockerRequest(), BlockerUsage(), BLOCKER_COST);
      assert before + Pay(month, first + n - 1, BlockerRequest(), BlockerUsage()) == steps + Paid(month, first, n);
    }
  }

  /** A hundred blocker requests in month 1, one with the clock in month 2, and a hundred more in month 1. */
  function ClockBackSteps(): seq<Step> { Paid(1, 0, 100) + Paid(2, 100, 1) + Paid(1, 101, 100) }

  /** `MonthlyCap` needs its clock: requests that the provider does send charge 6.22 USD to month 1 once the clock runs back. */
  lemma ClockBackExceedsCap()
    ensures SpentIn(Run(Start(), ClockBackSteps()).charges, 1) == 2 * 100 * BLOCKER_COST > CAP + CAP_TOLERANCE
    ensures RequestOf(true, [LongMessage()], Routine, true, 32768, true) == Ok(BlockerRequest())
  {
    hide Paid, Run, BlockerRequest, SpentIn;
    BlockerPrices();
    var first := Paid(1, 0, 100);
    var second := first + Paid(2, 100, 1);
    RunNothing();
    PaidMany([], 1, 100);
    assert [] + first == first;
    PaidMany(first, 2, 1);
    PaidMany(second, 1, 100);
  }

  lemma RunNothing()
    ensures Run(Start(), []) == Start() && SpentIn([], 1) == 0
  {
  }
}
