/** Whole runs of concurrent reservers, reconcilers, lost replies and crashes over one usage ledger. */
module UsageLedgerLaws {
  import opened Prelude
  import opened UsageLedger

  // ---------------------------------------------------------------- sums of reservations

  lemma {:induction false} TotalSame(m: map<Id, Rec>, w: map<Id, Rec>, ids: set<Id>)
    requires forall id :: id in ids ==> Weight(m, id) == Weight(w, id)
    ensures Total(m, ids) == Total(w, ids)
    decreases ids
  {
    if ids != {} {
      var id :| id in ids;
      TotalTake(m, ids, id);
      TotalTake(w, ids, id);
      TotalSame(m, w, ids - {id});
    }
  }

  lemma TotalAdd(m: map<Id, Rec>, id: Id, rec: Rec, ids: set<Id>)
    requires id !in ids
    ensures Total(m[id := rec], ids + {id}) == Total(m, ids) + rec.reserved
    ensures Total(m[id := rec], ids) == Total(m, ids)
  {
    TotalTake(m[id := rec], ids + {id}, id);
    assert ids + {id} - {id} == ids;
    TotalSame(m[id := rec], m, ids);
  }

  lemma TotalDrop(m: map<Id, Rec>, id: Id, ids: set<Id>)
    requires id in m
    ensures id in ids ==> Total(m - {id}, ids - {id}) == Total(m, ids) - m[id].reserved
    ensures id !in ids ==> Total(m - {id}, ids) == Total(m, ids)
  {
    if id in ids {
      TotalTake(m, ids, id);
      TotalSame(m - {id}, m, ids - {id});
    } else {
      TotalSame(m - {id}, m, ids);
    }
  }

  lemma {:induction false} TotalNonneg(m: map<Id, Rec>, ids: set<Id>)
    requires forall id :: id in m ==> m[id].reserved >= 0
    ensures Total(m, ids) >= 0
    decreases ids
  {
    if ids != {} {
      var id :| id in ids;
      TotalTake(m, ids, id);
      TotalNonneg(m, ids - {id});
    }
  }

  lemma {:induction false} TotalSplit(m: map<Id, Rec>, a: set<Id>, b: set<Id>)
    requires a !! b
    ensures Total(m, a + b) == Total(m, a) + Total(m, b)
    decreases a
  {
    if a == {} {
      assert a + b == b;
    } else {
      var id :| id in a;
      TotalTake(m, a, id);
      TotalTake(m, a + b, id);
      assert a + b - {id} == (a - {id}) + b;
      TotalSplit(m, a - {id}, b);
    }
  }

  // ---------------------------------------------------------------- costs

  lemma MulMono(x: int, y: int, z: int)
    requires x <= y && 0 <= z
    ensures x * z <= y * z
  {
  }

  /** Usage within the payload bound and the token limit never costs more than the reservation. */
  lemma CostWithinReservation(q: Request, u: Usage)
    requires WorstCase(q).Ok? && CalculateCost(q.model, u).Ok?
    requires u.prompt.n <= q.payloadBytes + 2048 && u.completion.n <= q.maxTokens
    ensures 0 <= CalculateCost(q.model, u).value <= WorstCase(q).value
  {
  }

  lemma CostNonneg(model: Model, u: Usage)
    requires CalculateCost(model, u).Ok?
    ensures CalculateCost(model, u).value >= 0
  {
    MulMono(0, HitOf(u), PriceOf(model).hit);
    MulMono(0, MissOf(u), PriceOf(model).miss);
    MulMono(0, u.completion.n, PriceOf(model).output);
  }

  lemma WorstCaseOnGrid(q: Request)
    requires WorstCase(q).Ok?
    ensures WorstCase(q).value > 0 && Whole(WorstCase(q).value)
  {
    hide Whole;
    match q.model
    case Flash => FourTimes((q.payloadBytes + 2048) * 1400 + q.maxTokens * 2800);
    case Pro => FourTimes((q.payloadBytes + 2048) * 4350 + q.maxTokens * 8700);
  }

  lemma FourTimes(k: int)
    ensures Whole(4 * k)
  {
  }

  /** A whole number of 1e-10 USD. */
  predicate Whole(x: int) { x % GRID == 0 }

  lemma WholeSum(x: int, y: int)
    requires Whole(x) && Whole(y)
    ensures Whole(x + y) && Whole(x - y)
  {
  }

  /** Rounding stays on the grid, moves by at most half a step, and never passes a grid point. */
  lemma RoundedNear(x: int, up: bool)
    ensures var r := Rounded(x, up); Whole(r) && -2 <= r - x <= 2
    ensures forall g :: Whole(g) ==> (x <= g ==> Rounded(x, up) <= g) && (g <= x ==> g <= Rounded(x, up))
  {
  }

  // ---------------------------------------------------------------- the system

  datatype Grant = Grant(q: Request, amount: int)

  datatype Charge = Charge(id: Id, cost: int, month: int)

  /**
  The ledger with what the world knows about it: the reservations granted so far (request ids are
  their numbers), the charges made, and what blockers and other requests have spent this month.
  */
  datatype System = System(
    disk: Option<Ledger>, grants: seq<Grant>, charges: seq<Charge>, spentBlocker: int, spentOther: int, overruns: nat)

  /** A lost reply, a crash or a failed save is a reservation that no later step reconciles. */
  datatype Step =
    | Reserve(month: int, q: Request)
    | Reconcile(month: int, id: Id, model: Model, usage: Usage, up: bool)

  function Start(): System { System(None, [], [], 0, 0, 0) }

  predicate IsBlocker(grants: seq<Grant>, id: Id) { id < |grants| && grants[id].q.blocker }

  function Rolled(s: System, month: int): System {
    if s.disk.Some? && s.disk.value.month != month then s.(spentBlocker := 0, spentOther := 0, overruns := 0) else s
  }

  ghost function AfterReserve(s: System, month: int, q: Request): System {
    var out := Reserved(s.disk, month, q, |s.grants|);
    if out.result.Err? then s.(disk := out.disk)
    else Rolled(s, month).(disk := out.disk, grants := s.grants + [Grant(q, out.result.value)])
  }

  function Recorded(s: System, id: Id, cost: int, month: int, overrun: bool): System {
    var t := s.(charges := s.charges + [Charge(id, cost, month)], overruns := if overrun then s.overruns + 1 else s.overruns);
    if IsBlocker(s.grants, id) then t.(spentBlocker := s.spentBlocker + cost) else t.(spentOther := s.spentOther + cost)
  }

  ghost function AfterReconcile(s: System, month: int, id: Id, model: Model, usage: Usage, up: bool): System {
    var out := Reconciled(s.disk, month, id, model, usage, up);
    if out.result.Err? || s.disk.None? || out.disk.None? || id !in s.disk.value.inflight then s.(disk := out.disk)
    else Recorded(s, id, out.disk.value.spent - s.disk.value.spent, month,
                  out.result.value > s.disk.value.inflight[id].reserved).(disk := out.disk)
  }

  ghost function After(s: System, step: Step): System {
    match step
    case Reserve(month, q) => AfterReserve(s, month, q)
    case Reconcile(month, id, model, usage, up) => AfterReconcile(s, month, id, model, usage, up)
  }

  ghost function Run(s: System, steps: seq<Step>): System {
    if steps == [] then s else After(Run(s, steps[..|steps| - 1]), steps[|steps| - 1])
  }

  // ---------------------------------------------------------------- the invariant

  /** The open requests that are (or are not) blockers. */
  function Open(l: Ledger, grants: seq<Grant>, blocker: bool): set<Id> {
    set id | id in l.inflight && IsBlocker(grants, id) == blocker
  }

  ghost predicate Balanced(l: Ledger) {
    && SignsOk(l)
    && l.reserved == Total(l.inflight, l.inflight.Keys)
    && l.spent + l.reserved <= CAP + CAP_TOLERANCE
  }

  predicate OnGrid(l: Ledger) {
    Whole(l.spent) && Whole(l.reserved) && forall id :: id in l.inflight ==> Whole(l.inflight[id].reserved)
  }

  predicate Granted(l: Ledger, grants: seq<Grant>) {
    forall id :: id in l.inflight ==> id < |grants| && l.inflight[id].reserved == grants[id].amount
  }

  /** What requests of one kind hold: their charges of this month and their open reservations. */
  ghost function Held(s: System, blocker: bool): int
    requires s.disk.Some?
  {
    (if blocker then s.spentBlocker else s.spentOther) + Total(s.disk.value.inflight, Open(s.disk.value, s.grants, blocker))
  }

  ghost predicate Shares(s: System)
    requires s.disk.Some?
  {
    && s.spentBlocker >= 0 && s.spentOther >= 0
    && s.disk.value.spent == s.spentBlocker + s.spentOther
    && Held(s, false) <= CAP - PROTECTED + CHARGE_TOLERANCE * s.overruns
    && (s.overruns == 0 ==> s.disk.value.spent + s.disk.value.reserved <= CAP)
  }

  predicate ChargedOnce(s: System) {
    && (forall i :: 0 <= i < |s.charges| ==> s.charges[i].id < |s.grants|)
    && (forall i :: 0 <= i < |s.charges| && s.disk.Some? ==> s.charges[i].id !in s.disk.value.inflight)
    && (forall i, j :: 0 <= i < j < |s.charges| ==> s.charges[i].id != s.charges[j].id)
  }

  ghost predicate Sound(s: System) {
    && ChargedOnce(s)
    && match s.disk
       case None => s == Start()
       case Some(l) => Balanced(l) && OnGrid(l) && Granted(l, s.grants) && Shares(s)
  }

  lemma BalancedValid(l: Ledger)
    requires Balanced(l)
    ensures Valid(l)
  {
  }

  lemma FreshBalanced(month: int)
    ensures Balanced(Fresh(month)) && OnGrid(Fresh(month))
  {
  }

  // ---------------------------------------------------------------- reserving

  lemma ReservationBalanced(l: Ledger, id: Id, q: Request, amount: int)
    requires Balanced(l) && OnGrid(l) && id !in l.inflight && amount > 0 && Whole(amount)
    requires l.spent + l.reserved + amount <= CAP
    ensures Balanced(WithReservation(l, id, q, amount)) && OnGrid(WithReservation(l, id, q, amount))
  {
    hide Whole;
    var after := WithReservation(l, id, q, amount);
    WholeSum(l.reserved, amount);
    TotalAdd(l.inflight, id, Rec(amount, q.model, false), l.inflight.Keys);
    assert after.inflight.Keys == l.inflight.Keys + {id};
  }

  lemma ReservationOpen(l: Ledger, grants: seq<Grant>, q: Request, amount: int, blocker: bool)
    requires Granted(l, grants)
    ensures var id := |grants|;
            Open(WithReservation(l, id, q, amount), grants + [Grant(q, amount)], blocker)
            == Open(l, grants, blocker) + if q.blocker == blocker then {id} else {}
  {
  }

  /** The ledger that a successful reservation starts from. */
  lemma LoadedSound(s: System, month: int)
    requires Sound(s) && Loaded(s.disk, month).Ok?
    ensures var l, r := Loaded(s.disk, month).value, Rolled(s, month);
            && Balanced(l) && OnGrid(l) && Granted(l, s.grants) && l.month == month
            && r.spentBlocker >= 0 && r.spentOther >= 0
            && l.spent == r.spentBlocker + r.spentOther
            && (r.overruns == 0 ==> l.spent + l.reserved <= CAP)
            && r.spentOther + Total(l.inflight, Open(l, s.grants, false)) <= CAP - PROTECTED + CHARGE_TOLERANCE * r.overruns
            && (forall id :: id in l.inflight ==> s.disk.Some? && id in s.disk.value.inflight)
  {
    hide Balanced, OnGrid;
    FreshBalanced(month);
    var l := Loaded(s.disk, month).value;
    if l.inflight == map[] { assert Open(l, s.grants, false) == {}; }
  }

  lemma LoadedTotals(l: Ledger, grants: seq<Grant>)
    requires SignsOk(l) && l.reserved == Total(l.inflight, l.inflight.Keys)
    ensures Total(l.inflight, Open(l, grants, false)) <= l.reserved
  {
    var others, blockers := Open(l, grants, false), Open(l, grants, true);
    assert others + blockers == l.inflight.Keys;
    TotalSplit(l.inflight, others, blockers);
    TotalNonneg(l.inflight, blockers);
  }

  function AfterGrant(s: System, month: int, q: Request, l: Ledger, amount: int): System {
    Rolled(s, month).(disk := Some(WithReservation(l, |s.grants|, q, amount)), grants := s.grants + [Grant(q, amount)])
  }

  lemma ReserveSound(s: System, month: int, q: Request)
    requires Sound(s)
    ensures Sound(AfterReserve(s, month, q))
  {
    hide Balanced, OnGrid, WorstCase, Loaded, Valid, ChargedOnce, Granted, Shares;
    var out := Reserved(s.disk, month, q, |s.grants|);
    if out.result.Ok? {
      var amount, l := WorstCase(q).value, Loaded(s.disk, month).value;
      WorstCaseOnGrid(q);
      LoadedSound(s, month);
      GrantSound(s, month, q, l, amount);
      assert AfterReserve(s, month, q) == AfterGrant(s, month, q, l, amount);
    } else {
      assert AfterReserve(s, month, q) == s;
    }
  }

  lemma GrantSound(s: System, month: int, q: Request, l: Ledger, amount: int)
    requires Sound(s) && Loaded(s.disk, month) == Ok(l) && amount > 0 && Whole(amount)
    requires l.spent + l.reserved + amount <= UsableCap(q.blocker)
    ensures Sound(AfterGrant(s, month, q, l, amount))
  {
    hide Balanced, OnGrid, Loaded, ChargedOnce, Whole;
    LoadedSound(s, month);
    var id := |s.grants|;
    var rolled, after := Rolled(s, month), WithReservation(l, id, q, amount);
    ReservationBalanced(l, id, q, amount);
    ReservationOpen(l, s.grants, q, amount, false);
    TotalAdd(l.inflight, id, Rec(amount, q.model, false), Open(l, s.grants, false));
    assert Open(l, s.grants, false) + {} == Open(l, s.grants, false);
    ReserveOthers(l, s.grants, amount, rolled.spentOther, rolled.spentBlocker);
    ReserveChargedOnce(s, month, q, l, amount);
  }

  lemma ReserveOthers(l: Ledger, grants: seq<Grant>, amount: int, spentOther: int, spentBlocker: int)
    requires Balanced(l) && spentBlocker >= 0 && l.spent == spentOther + spentBlocker
    ensures spentOther + Total(l.inflight, Open(l, grants, false)) + amount <= l.spent + l.reserved + amount
  {
    LoadedTotals(l, grants);
  }

  lemma ReserveChargedOnce(s: System, month: int, q: Request, l: Ledger, amount: int)
    requires ChargedOnce(s) && forall id :: id in l.inflight ==> s.disk.Some? && id in s.disk.value.inflight
    ensures ChargedOnce(AfterGrant(s, month, q, l, amount))
  {
  }

  // ---------------------------------------------------------------- reconciling

  lemma ChargeBalanced(l: Ledger, id: Id, actual: int, up: bool)
    requires Balanced(l) && OnGrid(l) && id in l.inflight && actual >= 0
    requires Valid(WithCharge(l, id, actual, up))
    ensures Balanced(WithCharge(l, id, actual, up)) && OnGrid(WithCharge(l, id, actual, up))
  {
    hide Whole, Rounded;
    TotalDrop(l.inflight, id, l.inflight.Keys);
    assert (l.inflight - {id}).Keys == l.inflight.Keys - {id};
    RoundedNear(l.spent + actual, up);
    WholeSum(l.reserved, l.inflight[id].reserved);
    WholeSum(l.reserved, 0);
  }

  lemma ChargeNear(spent: int, reserved: int, actual: int, up: bool)
    requires Whole(spent) && Whole(reserved) && 0 <= actual <= reserved + CHARGE_TOLERANCE
    ensures spent <= Rounded(spent + actual, up) <= spent + reserved + CHARGE_TOLERANCE
    ensures actual <= reserved ==> Rounded(spent + actual, up) <= spent + reserved
  {
    hide Rounded, Whole;
    RoundedNear(spent + actual, up);
    FourTimes(10);
    WholeSum(spent, reserved);
    WholeSum(spent + reserved, CHARGE_TOLERANCE);
  }

  /** A charge within the reservation is always saved, and commits no more than before. */
  lemma ChargeWithin(l: Ledger, id: Id, actual: int, up: bool)
    requires Balanced(l) && OnGrid(l) && id in l.inflight && 0 <= actual <= l.inflight[id].reserved
    ensures Balanced(WithCharge(l, id, actual, up))
    ensures var w := WithCharge(l, id, actual, up); l.spent <= w.spent <= l.spent + l.inflight[id].reserved
  {
    hide Rounded, Whole;
    TotalDrop(l.inflight, id, l.inflight.Keys);
    assert (l.inflight - {id}).Keys == l.inflight.Keys - {id};
    TotalNonneg(l.inflight - {id}, l.inflight.Keys - {id});
    ChargeNear(l.spent, l.inflight[id].reserved, actual, up);
  }

  lemma ChargeOpen(l: Ledger, grants: seq<Grant>, id: Id, actual: int, up: bool, blocker: bool)
    requires id in l.inflight
    ensures Open(WithCharge(l, id, actual, up), grants, blocker) == Open(l, grants, blocker) - {id}
  {
  }

  lemma ChargeShares(s: System, id: Id, actual: int, up: bool, month: int)
    requires s.disk.Some? && Balanced(s.disk.value) && OnGrid(s.disk.value) && Shares(s)
    requires id in s.disk.value.inflight && 0 <= actual <= s.disk.value.inflight[id].reserved + CHARGE_TOLERANCE
    ensures Shares(AfterCharge(s, month, id, actual, up))
  {
    hide Balanced, Rounded, Whole;
    var l := s.disk.value;
    ChargeNear(l.spent, l.inflight[id].reserved, actual, up);
    ChargeOpen(l, s.grants, id, actual, up, false);
    TotalDrop(l.inflight, id, Open(l, s.grants, false));
    if IsBlocker(s.grants, id) { assert Open(l, s.grants, false) - {id} == Open(l, s.grants, false); }
  }

  lemma QuarantineSound(s: System, id: Id)
    requires Sound(s) && s.disk.Some? && id in s.disk.value.inflight
    ensures Sound(s.(disk := Some(WithQuarantine(s.disk.value, id))))
  {
    var l := s.disk.value;
    var w := WithQuarantine(l, id);
    assert w.inflight.Keys == l.inflight.Keys;
    TotalSame(l.inflight, w.inflight, l.inflight.Keys);
    assert Open(w, s.grants, false) == Open(l, s.grants, false);
    TotalSame(l.inflight, w.inflight, Open(l, s.grants, false));
  }

  ghost function AfterCharge(s: System, month: int, id: Id, actual: int, up: bool): System
    requires s.disk.Some? && id in s.disk.value.inflight
  {
    var l := s.disk.value;
    var w := WithCharge(l, id, actual, up);
    Recorded(s, id, w.spent - l.spent, month, actual > l.inflight[id].reserved).(disk := Some(w))
  }

  lemma ReconcileSound(s: System, month: int, id: Id, model: Model, usage: Usage, up: bool)
    requires Sound(s)
    ensures Sound(AfterReconcile(s, month, id, model, usage, up))
  {
    hide Sound, CalculateCost, Valid, WithCharge, WithQuarantine;
    var cost := CalculateCost(model, usage);
    var loaded := Loaded(s.disk, month);
    if cost.Ok? && loaded.Ok? && id in loaded.value.inflight {
      var l, actual := loaded.value, cost.value;
      assert s.disk == Some(l);
      CostNonneg(model, usage);
      if actual > l.inflight[id].reserved + CHARGE_TOLERANCE {
        QuarantineSound(s, id);
      } else if Valid(WithCharge(l, id, actual, up)) {
        ChargeSound(s, month, id, actual, up);
        assert AfterReconcile(s, month, id, model, usage, up) == AfterCharge(s, month, id, actual, up);
      }
    }
  }

  lemma ChargeSound(s: System, month: int, id: Id, actual: int, up: bool)
    requires Sound(s) && s.disk.Some? && id in s.disk.value.inflight
    requires 0 <= actual <= s.disk.value.inflight[id].reserved + CHARGE_TOLERANCE
    requires Valid(WithCharge(s.disk.value, id, actual, up))
    ensures Sound(AfterCharge(s, month, id, actual, up))
  {
    hide Balanced, OnGrid, Valid, Shares, ChargedOnce;
    var l := s.disk.value;
    ChargeBalanced(l, id, actual, up);
    ChargeShares(s, id, actual, up, month);
    ReconcileChargedOnce(s, id, actual, up, WithCharge(l, id, actual, up).spent - l.spent, month, actual > l.inflight[id].reserved);
  }

  lemma ReconcileChargedOnce(s: System, id: Id, actual: int, up: bool, cost: int, month: int, overrun: bool)
    requires ChargedOnce(s) && s.disk.Some? && Granted(s.disk.value, s.grants) && id in s.disk.value.inflight
    ensures ChargedOnce(Recorded(s, id, cost, month, overrun).(disk := Some(WithCharge(s.disk.value, id, actual, up))))
  {
  }

  // ---------------------------------------------------------------- every run

  lemma StepSound(s: System, step: Step)
    requires Sound(s)
    ensures Sound(After(s, step))
  {
    hide Sound, AfterReserve, AfterReconcile;
    match step
    case Reserve(month, q) => ReserveSound(s, month, q);
    case Reconcile(month, id, model, usage, up) => ReconcileSound(s, month, id, model, usage, up);
  }

  /**
  Any interleaving keeps the ledger: what is reserved is exactly the sum of the open reservations,
  the committed total is within the cap plus the tolerance of the code, no request is charged twice,
  and requests that are not blockers hold at most 4.50 USD plus 1e-9 for each overrun.
  */
  lemma {:induction false} EveryRunSound(steps: seq<Step>)
    ensures Sound(Run(Start(), steps))
  {
    hide Sound, After;
    if steps == [] {
      StartSound();
    } else {
      EveryRunSound(steps[..|steps| - 1]);
      StepSound(Run(Start(), steps[..|steps| - 1]), steps[|steps| - 1]);
    }
  }

  lemma StartSound()
    ensures Sound(Start())
  {
  }

  // ---------------------------------------------------------------- the protected reserve

  /** A reconciliation reports usage of the request that was granted, within its payload and token bounds. */
  predicate Bounded(s: System, step: Step) {
    step.Reconcile? && step.id < |s.grants| && step.usage.prompt.Given? && step.usage.completion.Given? ==>
      var q := s.grants[step.id].q;
      step.model == q.model && step.usage.prompt.n <= q.payloadBytes + 2048 && step.usage.completion.n <= q.maxTokens
  }

  ghost predicate BoundedRun(s: System, steps: seq<Step>) {
    steps == [] || (
      var rest := steps[..|steps| - 1];
      BoundedRun(s, rest) && Bounded(Run(s, rest), steps[|steps| - 1]))
  }

  predicate Priced(grants: seq<Grant>) {
    forall i :: 0 <= i < |grants| ==> WorstCase(grants[i].q) == Ok(grants[i].amount)
  }

  lemma StepPriced(s: System, step: Step)
    requires Sound(s) && Priced(s.grants) && s.overruns == 0 && Bounded(s, step)
    ensures Priced(After(s, step).grants) && After(s, step).overruns == 0
  {
    hide Balanced, OnGrid, Shares, ChargedOnce, WorstCase, CalculateCost, Valid;
    if step.Reconcile? {
      var cost, loaded := CalculateCost(step.model, step.usage), Loaded(s.disk, step.month);
      if cost.Ok? && loaded.Ok? && step.id in loaded.value.inflight {
        CostGiven(step.model, step.usage);
        CostWithinReservation(s.grants[step.id].q, step.usage);
      }
    }
  }

  lemma CostGiven(model: Model, u: Usage)
    requires CalculateCost(model, u).Ok?
    ensures u.prompt.Given? && u.completion.Given?
  {
  }

  lemma {:induction false} BoundedRunPriced(steps: seq<Step>)
    requires BoundedRun(Start(), steps)
    ensures var s := Run(Start(), steps); Sound(s) && Priced(s.grants) && s.overruns == 0
  {
    hide Sound, After, Bounded, Priced;
    EveryRunSound(steps);
    if steps == [] {
      assert Priced([]) by { NothingPriced(); }
    } else {
      var rest := steps[..|steps| - 1];
      BoundedRunPriced(rest);
      StepPriced(Run(Start(), rest), steps[|steps| - 1]);
    }
  }

  lemma NothingPriced()
    ensures Priced([])
  {
  }

  /**
  While the provider's usage stays within the bounds that were reserved: the cap of 5.00 USD is
  kept without tolerance and requests that are not blockers hold at most 4.50 USD.
  */
  lemma ReserveIsProtected(steps: seq<Step>)
    requires BoundedRun(Start(), steps)
    ensures var s := Run(Start(), steps);
            s.disk.Some? ==> && s.disk.value.spent + s.disk.value.reserved <= 200_000_000_000
                             && Held(s, false) <= 180_000_000_000
                             && s.disk.value.spent + s.disk.value.reserved == Held(s, false) + Held(s, true)
  {
    hide Run, BoundedRun, Priced;
    BoundedRunPriced(steps);
    var s := Run(Start(), steps);
    if s.disk.Some? {
      var l := s.disk.value;
      assert Open(l, s.grants, false) + Open(l, s.grants, true) == l.inflight.Keys;
      TotalSplit(l.inflight, Open(l, s.grants, false), Open(l, s.grants, true));
    }
  }

  /** What blockers hold in a month; a month that the ledger is not in starts from nothing. */
  ghost function BlockersHold(s: System, month: int): int {
    if s.disk.Some? && s.disk.value.month == month then Held(s, true) else 0
  }

  predicate RolloverBlocks(disk: Option<Ledger>, month: int) {
    disk.Some? && disk.value.month != month && disk.value.inflight != map[]
  }

  /** In any month a blocker is admitted while blockers hold at most 0.50 USD with it, unless a request of another month is open. */
  lemma BlockerAdmitted(steps: seq<Step>, month: int, q: Request)
    requires BoundedRun(Start(), steps) && q.blocker && WorstCase(q).Ok?
    ensures var s := Run(Start(), steps);
            var r := Reserved(s.disk, month, q, |s.grants|).result;
            if RolloverBlocks(s.disk, month) then r == Err(RolloverBlocked)
            else BlockersHold(s, month) + WorstCase(q).value <= 20_000_000_000 ==> r == Ok(WorstCase(q).value)
  {
    hide Run, BoundedRun, Held, WorstCase;
    ReserveIsProtected(steps);
    EveryRunSound(steps);
    var s := Run(Start(), steps);
    if s.disk.Some? { BalancedValid(s.disk.value); }
    if !RolloverBlocks(s.disk, month) && BlockersHold(s, month) + WorstCase(q).value <= PROTECTED {
      WorstCaseOnGrid(q);
      FreshBalanced(month);
      var l := Loaded(s.disk, month).value;
      Admitted(l, |s.grants|, q, WorstCase(q).value);
    }
  }

  lemma Admitted(l: Ledger, id: Id, q: Request, amount: int)
    requires Balanced(l) && OnGrid(l) && id !in l.inflight && amount > 0 && Whole(amount) && l.spent + l.reserved + amount <= CAP
    ensures Valid(WithReservation(l, id, q, amount))
  {
    ReservationBalanced(l, id, q, amount);
    BalancedValid(WithReservation(l, id, q, amount));
  }

  /** Within the bounds, reconciling an open request in its own month always succeeds. */
  lemma BoundedReconcileSucceeds(steps: seq<Step>, id: Id, usage: Usage, up: bool)
    requires BoundedRun(Start(), steps)
    requires var s := Run(Start(), steps);
             && s.disk.Some? && id in s.disk.value.inflight && id < |s.grants|
             && CalculateCost(s.grants[id].q.model, usage).Ok?
             && usage.prompt.n <= s.grants[id].q.payloadBytes + 2048 && usage.completion.n <= s.grants[id].q.maxTokens
    ensures var s := Run(Start(), steps);
            var r := Reconciled(s.disk, s.disk.value.month, id, s.grants[id].q.model, usage, up);
            r.result == CalculateCost(s.grants[id].q.model, usage) && r.disk.Some? && id !in r.disk.value.inflight
  {
    hide Run, BoundedRun, CalculateCost, WorstCase, Shares, ChargedOnce;
    BoundedRunPriced(steps);
    var s := Run(Start(), steps);
    var q := s.grants[id].q;
    assert WorstCase(q) == Ok(s.grants[id].amount);
    CostWithinReservation(q, usage);
    BalancedValid(s.disk.value);
    ChargeWithin(s.disk.value, id, CalculateCost(q.model, usage).value, up);
    BalancedValid(WithCharge(s.disk.value, id, CalculateCost(q.model, usage).value, up));
  }
}
