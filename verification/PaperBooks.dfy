/** Order sizes, reported equity, drawdown, margin, evidence and conservation of the paper accounts. */
module PaperBooks {
  import opened Prelude
  import opened Reals
  import opened Derivatives
  import opened PaperStep
  import opened PaperStepLaws
  import opened PaperLedger
  import opened PaperLedgerLaws
  import opened PaperFunding
  import opened PaperOrders

  // ---------------------------------------------------------------- order sizes

  function Share(x: real, y: real): real { x * y }

  function Over(x: real, y: real): real
    requires y != 0.0
  {
    x / y
  }

  function Steps(k: int, step: real): real { k as real * step }

  /** `r` is `x` rounded towards zero to a multiple of the step. */
  ghost predicate RoundedDown(r: real, x: real, step: real) {
    if step <= 0.0 then r == x else
    && Magnitude(r) <= Magnitude(x) < Magnitude(r) + step
    && (r > 0.0 ==> x > 0.0) && (r < 0.0 ==> x < 0.0)
    && exists k: int :: r == Steps(k, step)
  }

  predicate BelowMinimum(r: real, price: real, spec: Spec) {
    Magnitude(r) < spec.minimumQuantity || Magnitude(Share(r, price)) < spec.minimumNotional
  }

  /** The size for a wanted notional: rounded down, and nothing when it is below an exchange minimum. */
  ghost predicate SizeFor(size: real, notional: real, price: real, spec: Spec) {
    && price > 0.0
    && exists r :: RoundedDown(r, Over(notional, price), spec.quantityStep)
         && size == (if BelowMinimum(r, price, spec) then 0.0 else r)
         && (!BelowMinimum(r, price, spec) ==> Magnitude(r) <= spec.maximumMarketQuantity)
  }

  lemma FloorRoundsDown(x: real, step: real)
    ensures RoundedDown(FloorStep(x, step), x, step)
  {
    if step > 0.0 {
      FloorStepTowardsZero(x, step);
      FloorNonneg(Magnitude(x), step);
      var k := (Abs(x) / step).Floor;
      var r := FloorStep(x, step);
      assert x >= 0.0 ==> r == Steps(k, step);
      assert x < 0.0 ==> r == Steps(-k, step);
    }
  }

  lemma TargetQuantityIs(notional: real, price: real, spec: Spec)
    requires TargetQuantity(notional, price, spec).Ok?
    ensures SizeFor(TargetQuantity(notional, price, spec).value, notional, price, spec)
  {
    var x := notional / price;
    var r := FloorStep(x, spec.quantityStep);
    FloorRoundsDown(x, spec.quantityStep);
    AbsIs(r);
    AbsIs(Times(r, price));
    ProductIs(r, price);
    assert x == Over(notional, price);
    hide FloorStep, RoundedDown, Times, Share, Over, Abs, Magnitude;
    assert RoundedDown(r, Over(notional, price), spec.quantityStep);
  }

  lemma AbsIs(x: real)
    ensures Abs(x) == Magnitude(x)
  {
  }

  /** Wallet and open profit at the opening marks. */
  function OpeningEquity(row: Row, o: Observation): real
    requires |row.positions| == |o.marks|
  {
    row.wallet + ProfitAt(row.positions, o, false, |o.marks|)
  }

  /** The open profit of the first `k` positions at the opening or the closing marks. */
  function ProfitAt(ps: seq<Pos>, o: Observation, close: bool, k: nat): real
    requires k <= |ps| == |o.marks|
  {
    if k == 0 then 0.0 else
    var mark := if close then o.marks[k - 1].close else o.marks[k - 1].open;
    ProfitAt(ps, o, close, k - 1) + ps[k - 1].quantity * (mark - ps[k - 1].entry)
  }

  lemma {:induction false} ProfitIs(ps: seq<Pos>, o: Observation, close: bool, k: nat)
    requires k <= |ps| == |o.marks|
    ensures OpenProfit(ps, if close then Closes(o.marks) else Opens(o.marks), k) == ProfitAt(ps, o, close, k)
  {
    if k > 0 { ProfitIs(ps, o, close, k - 1); }
  }

  lemma ProductIs(x: real, y: real)
    ensures Times(x, y) == x * y == Share(x, y)
  {
  }

  lemma {:induction false} WantedSizes(o: Observation, equity: real, k: nat)
    requires Shaped(o, |o.marks|) && k <= |o.marks| && Desired(o, equity, k).Ok?
    ensures forall i :: 0 <= i < k ==> SizeFor(Desired(o, equity, k).value[i], Share(equity, o.targets[i]), o.marks[i].open, o.specs[i])
  {
    hide TargetQuantity, SizeFor;
    if k > 0 {
      WantedSizes(o, equity, k - 1);
      var before, wanted := Desired(o, equity, k - 1).value, Times(equity, o.targets[k - 1]);
      TargetQuantityIs(wanted, o.marks[k - 1].open, o.specs[k - 1]);
      assert Desired(o, equity, k).value == before + [TargetQuantity(wanted, o.marks[k - 1].open, o.specs[k - 1]).value];
      assert wanted == Share(equity, o.targets[k - 1]);
    }
  }

  /** The positions are at their sizes, but for orders that were refused. */
  predicate AtSizes(row: Row, after: Row, sizes: seq<real>, k: nat) {
    && |after.positions| == |row.positions| && k <= |sizes| == |row.positions| && row.rejections <= after.rejections
    && (forall i :: 0 <= i < k ==>
          after.positions[i].quantity == sizes[i] || (after.positions[i] == row.positions[i] && row.rejections < after.rejections))
    && (forall i :: k <= i < |row.positions| ==> after.positions[i] == row.positions[i])
  }

  lemma PlacedAt(row: Row, o: Observation, name: ProfileName, p: Profile, asset: nat, size: real)
    requires RowShaped(row, |o.marks|) && Shaped(o, |o.marks|) && asset < |o.marks| && Placed(row, o, name, p, asset, size).Ok?
    ensures var r := Placed(row, o, name, p, asset, size).value;
            && |r.positions| == |row.positions|
            && (forall i :: 0 <= i < |r.positions| && i != asset ==> r.positions[i] == row.positions[i])
            && if r.positions[asset].quantity == size then r.rejections >= row.rejections
               else r.positions == row.positions && r.rejections == row.rejections + 1
  {
    hide MarginOf, OrderPrice, Fee, Equity, Refuses, TierUse, Max, MinuteVwap, Realized, Times;
  }

  lemma {:induction false} OrdersAt(row: Row, o: Observation, name: ProfileName, p: Profile, equity: real, sizes: seq<real>, k: nat)
    requires RowShaped(row, |o.marks|) && Shaped(o, |o.marks|) && k <= |o.marks| == |sizes|
    requires Orders(row, o, name, p, equity, sizes, k).Ok?
    ensures AtSizes(row, Orders(row, o, name, p, equity, sizes, k).value, sizes, k)
  {
    hide Placed, Times;
    if k > 0 {
      OrdersAt(row, o, name, p, equity, sizes, k - 1);
      var noted := Noted(Orders(row, o, name, p, equity, sizes, k - 1).value, k - 1, Times(equity, o.targets[k - 1]), sizes[k - 1]);
      PlacedAt(noted, o, name, p, k - 1, sizes[k - 1]);
    }
  }

  /**
  With changed targets every position ends at the size that its target asks for, of the equity at
  the opening marks, unless its order was refused; without a change nothing is traded at all.
  */
  lemma RebalanceAims(row: Row, o: Observation, name: ProfileName, p: Profile) returns (sizes: seq<real>)
    requires RowShaped(row, |o.marks|) && Shaped(o, |o.marks|) && Rebalanced(row, o, name, p).Ok?
    ensures !o.targetChanged ==> Rebalanced(row, o, name, p).value == row
    ensures o.targetChanged ==>
              && Rebalanced(row, o, name, p).value.targets == o.targets && |sizes| == |o.marks|
              && AtSizes(row, Rebalanced(row, o, name, p).value, sizes, |sizes|)
              && forall i :: 0 <= i < |sizes| ==> SizeFor(sizes[i], Share(OpeningEquity(row, o), o.targets[i]), o.marks[i].open, o.specs[i])
  {
    hide Orders, Desired, OpenProfit, ProfitAt, SizeFor;
    sizes := [];
    if o.targetChanged {
      var equity := OpeningEquity(row, o);
      ProfitIs(row.positions, o, false, |o.marks|);
      assert Equity(row.wallet, row.positions, Opens(o.marks)) == equity;
      sizes := Desired(o, equity, |o.marks|).value;
      WantedSizes(o, equity, |o.marks|);
      OrdersAt(row, o, name, p, equity, sizes, |o.marks|);
    }
  }

  lemma SettledPositions(row: Row, o: Observation, p: Profile)
    requires RowShaped(row, |o.marks|) && Shaped(o, |o.marks|) && Settled(row, o, p).Ok?
    ensures var r := Settled(row, o, p).value;
            && |r.positions| == |row.positions| && r.rejections == row.rejections && r.targets == row.targets
            && if r.liquidations == row.liquidations then r.positions == row.positions
               else r.liquidations == row.liquidations + 1 && forall i :: 0 <= i < |r.positions| ==> r.positions[i].quantity == 0.0
  {
    hide MarginOf, OpenProfit, Liquidated, TierUse, Max, Liquidates;
    var m := MarginOf(row.positions, Closes(o.marks), o.tiers, p.accountLeverage, FeeRate(p), |o.marks|).value;
    var counted := CountLiquidation(Used(row, m, Equity(row.wallet, row.positions, Closes(o.marks))));
    LiquidatedFlat(counted, Adverse(row.positions, o.marks), LiquidationRate(p), |o.marks|);
    LiquidatedKeeps(counted, Adverse(row.positions, o.marks), LiquidationRate(p), |o.marks|);
  }

  /**
  One observation, funding paid first: the positions end at the sizes that changed targets ask for
  but for refused orders, or as they were without a change, or all flat when the bar forced them out.
  */
  lemma StepAims(row: Row, o: Observation, name: ProfileName, p: Profile) returns (sizes: seq<real>)
    requires RowShaped(row, |o.marks|) && Shaped(o, |o.marks|) && Stepped(row, o, name, p).Ok?
    ensures var r := Stepped(row, o, name, p).value;
            var equity := row.wallet - FundingDue(row.positions, o, |o.marks|) + ProfitAt(row.positions, o, false, |o.marks|);
            && |sizes| == (if o.targetChanged then |o.marks| else 0)
            && (forall i :: 0 <= i < |sizes| ==> SizeFor(sizes[i], Share(equity, o.targets[i]), o.marks[i].open, o.specs[i]))
            && (o.targetChanged ==> r.targets == o.targets)
            && if r.liquidations == row.liquidations
               then (if o.targetChanged then AtSizes(row, r, sizes, |sizes|) else r.positions == row.positions)
               else |r.positions| == |o.marks| && forall i :: 0 <= i < |r.positions| ==> r.positions[i].quantity == 0.0
  {
    hide Funded, Rebalanced, Settled, FundingDue, ProfitAt, SizeFor;
    var funded := Funded(row, o, |o.marks|);
    FundedPays(row, o, |o.marks|);
    FundedKeeps(row, o, |o.marks|);
    sizes := RebalanceAims(funded, o, name, p);
    if !o.targetChanged { sizes := []; }
    RebalancedKeeps(funded, o, name, p);
    SettledPositions(Rebalanced(funded, o, name, p).value, o, p);
  }

  // ---------------------------------------------------------------- what a bar reports

  function Greater(x: real, y: real): real { if x >= y then x else y }

  /** The equity is the account at the closing marks; its high and its worst drawdown are kept. */
  predicate ReportsClose(row: Row, after: Row, o: Observation) {
    && |after.positions| == |o.marks|
    && after.equity == after.wallet + ProfitAt(after.positions, o, true, |o.marks|)
    && after.equity > 0.0
    && after.equityHigh == Greater(row.equityHigh, after.equity)
    && after.maximumDrawdown == Greater(row.maximumDrawdown, 1.0 - after.equity / Greater(after.equityHigh, 0.000000000001))
  }

  lemma StepReports(row: Row, o: Observation, name: ProfileName, p: Profile)
    requires RowShaped(row, |o.marks|) && Shaped(o, |o.marks|) && Stepped(row, o, name, p).Ok? && 0.0 <= row.maximumDrawdown < 1.0
    ensures ReportsClose(row, Stepped(row, o, name, p).value, o)
  {
    hide Funded, Rebalanced, Settled, ProfitAt, OpenProfit;
    var funded := Funded(row, o, |o.marks|);
    var r := Rebalanced(funded, o, name, p).value;
    var after := Stepped(row, o, name, p).value;
    FundedKeeps(row, o, |o.marks|);
    RebalancedKeeps(funded, o, name, p);
    SettledHigh(r, o, p);
    SettledReports(r, o, p);
    ProfitIs(after.positions, o, true, |o.marks|);
  }

  lemma SettledHigh(row: Row, o: Observation, p: Profile)
    requires RowShaped(row, |o.marks|) && Shaped(o, |o.marks|) && Settled(row, o, p).Ok?
    ensures var r := Settled(row, o, p).value;
            && r.equityHigh == Greater(row.equityHigh, r.equity)
            && r.maximumDrawdown == Greater(row.maximumDrawdown, 1.0 - r.equity / Greater(r.equityHigh, 0.000000000001))
  {
    hide MarginOf, OpenProfit, Liquidated, TierUse, Liquidates;
    var m := MarginOf(row.positions, Closes(o.marks), o.tiers, p.accountLeverage, FeeRate(p), |o.marks|).value;
    var used := Used(row, m, Equity(row.wallet, row.positions, Closes(o.marks)));
    LiquidatedKeeps(CountLiquidation(used), Adverse(row.positions, o.marks), LiquidationRate(p), |o.marks|);
  }

  // ---------------------------------------------------------------- margin

  /** Initial margin of one open position: at the account's and at the tier's leverage, and at the tier's own rate. */
  lemma InitialMargin(p: Pos, mark: real, tiers: seq<Tier>, leverage: real, feeRate: real)
    requires p.quantity != 0.0 && mark > 0.0 && leverage > 0.0 && tiers != []
    requires forall i :: 0 <= i < |tiers| ==> tiers[i].maximumLeverage > 0.0
    ensures var notional := Share(Magnitude(p.quantity), mark);
            var tier := tiers[TierIndex(notional, tiers)];
            var d := DetailOf(p, mark, tiers, leverage, feeRate);
            && d.Ok? && d.value.notional == notional > 0.0 && d.value.tierLimit == tier.limit
            && var margin := d.value.initial - Share(notional, feeRate);
               && margin >= Over(notional, leverage) && margin >= Over(notional, tier.maximumLeverage)
               && margin >= Share(notional, tier.initialRate)
               && margin in {Over(notional, leverage), Over(notional, tier.maximumLeverage), Share(notional, tier.initialRate)}
  {
    var notional := Share(Magnitude(p.quantity), mark);
    var tier := tiers[TierIndex(notional, tiers)];
    var effective := Min(leverage, tier.maximumLeverage);
    var rate := Max(Over(1.0, effective), tier.initialRate);
    DetailIs(p, mark, tiers, leverage, feeRate, notional, effective, rate);
    hide TierIndex, DetailOf, Over, Share, Magnitude;
    InverseOrder(leverage, effective);
    InverseOrder(tier.maximumLeverage, effective);
    ShareOfNotional(notional, leverage);
    ShareOfNotional(notional, tier.maximumLeverage);
    ShareOfNotional(notional, effective);
    MoreOfNotional(notional, Over(1.0, leverage), rate);
    MoreOfNotional(notional, Over(1.0, tier.maximumLeverage), rate);
    MoreOfNotional(notional, tier.initialRate, rate);
  }

  lemma DetailIs(p: Pos, mark: real, tiers: seq<Tier>, leverage: real, feeRate: real, notional: real, effective: real, rate: real)
    requires p.quantity != 0.0 && mark > 0.0 && tiers != [] && notional == Share(Magnitude(p.quantity), mark)
    requires effective == Min(leverage, tiers[TierIndex(notional, tiers)].maximumLeverage) > 0.0
    requires rate == Max(Over(1.0, effective), tiers[TierIndex(notional, tiers)].initialRate)
    ensures notional > 0.0
    ensures var d := DetailOf(p, mark, tiers, leverage, feeRate);
            && d.Ok? && d.value.notional == notional && d.value.tierLimit == tiers[TierIndex(notional, tiers)].limit
            && d.value.initial == Share(notional, rate) + Share(notional, feeRate)
  {
    hide TierIndex;
    ProductIs(Abs(p.quantity), mark);
    ProductIs(notional, rate);
    ProductIs(notional, feeRate);
    hide Times;
  }

  lemma InverseOrder(x: real, y: real)
    requires 0.0 < y <= x
    ensures Over(1.0, x) <= Over(1.0, y)
  {
    var a, b := 1.0 / x, 1.0 / y;
    hide Times;
    DivTimes(1.0, x);
    DivTimes(1.0, y);
    PositiveInverse(y);
    if b < a {
      TimesStrict(b, a, x);
      TimesMono(y, x, b);
      TimesSwap(b, x, 0.0);
      TimesSwap(b, y, 0.0);
    }
  }

  lemma PositiveInverse(y: real)
    requires y > 0.0
    ensures 1.0 / y > 0.0
  {
  }

  lemma ShareOfNotional(notional: real, leverage: real)
    requires notional > 0.0 && leverage > 0.0
    ensures Over(notional, leverage) == Share(notional, Over(1.0, leverage))
  {
    var a, q := 1.0 / leverage, notional / leverage;
    hide Times;
    DivTimes(1.0, leverage);
    DivTimes(notional, leverage);
    TimesSwap(notional, leverage, a);
    TimesSwap(leverage, notional, a);
    TimesOne(notional);
    TimesCancel(leverage, q, Times(notional, a));
    ProductIs(notional, a);
  }

  lemma MoreOfNotional(notional: real, x: real, y: real)
    requires notional > 0.0 && x <= y
    ensures Share(notional, x) <= Share(notional, y)
  {
  }

  /** Maintenance margin: the tier's rate less its deduction, never below nothing, and the closing fee. */
  lemma MaintenanceMargin(p: Pos, mark: real, tiers: seq<Tier>, leverage: real, feeRate: real)
    requires p.quantity != 0.0 && mark > 0.0 && DetailOf(p, mark, tiers, leverage, feeRate).Ok?
    ensures tiers != []
    ensures var notional := Magnitude(p.quantity) * mark;
            var tier := tiers[TierIndex(notional, tiers)];
            var m := DetailOf(p, mark, tiers, leverage, feeRate).value.maintenance - notional * feeRate;
            && m >= 0.0 && m >= notional * tier.maintenanceRate - tier.deduction
            && (m > 0.0 ==> m == notional * tier.maintenanceRate - tier.deduction)
  {
    hide TierIndex;
    assert Times(Abs(p.quantity), mark) == Magnitude(p.quantity) * mark > 0.0;
  }

  /** A flat position needs no margin and no tier. */
  lemma FlatNeedsNothing(p: Pos, mark: real, tiers: seq<Tier>, leverage: real, feeRate: real)
    requires p.quantity == 0.0
    ensures DetailOf(p, mark, tiers, leverage, feeRate) == Ok(Detail(0.0, 0.0, 0.0, 0.0))
  {
  }

  function SumInitial(ds: seq<Detail>): real {
    if ds == [] then 0.0 else SumInitial(ds[..|ds| - 1]) + ds[|ds| - 1].initial
  }

  function SumMaintenance(ds: seq<Detail>): real {
    if ds == [] then 0.0 else SumMaintenance(ds[..|ds| - 1]) + ds[|ds| - 1].maintenance
  }

  /** The totals are the sums over the details, one detail for each position. */
  lemma {:induction false} MarginAddsUp(ps: seq<Pos>, marks: seq<real>, tiers: seq<seq<Tier>>, leverage: real, feeRate: real, k: nat)
    requires k <= |ps| == |marks| == |tiers| && MarginOf(ps, marks, tiers, leverage, feeRate, k).Ok?
    ensures var m := MarginOf(ps, marks, tiers, leverage, feeRate, k).value;
            && m.initial == SumInitial(m.details) && m.maintenance == SumMaintenance(m.details)
            && forall i :: 0 <= i < k ==> DetailOf(ps[i], marks[i], tiers[i], leverage, feeRate) == Ok(m.details[i])
  {
    hide DetailOf;
    if k > 0 {
      MarginAddsUp(ps, marks, tiers, leverage, feeRate, k - 1);
      var m := MarginOf(ps, marks, tiers, leverage, feeRate, k).value;
      assert m.details[..k - 1] == MarginOf(ps, marks, tiers, leverage, feeRate, k - 1).value.details;
    }
  }

  /** The highest use of margin and of a tier so far covers this use. */
  lemma UseIsHighest(row: Row, m: Margin, equity: real)
    ensures var r := Used(row, m, equity);
            && r.marginUse == Greater(row.marginUse, m.initial / Greater(equity, 0.000000000001))
            && r.tierUse >= row.tierUse
            && forall i :: 0 <= i < |m.details| && m.details[i].tierLimit > 0.0 ==> r.tierUse >= m.details[i].notional / m.details[i].tierLimit
  {
    TierUseCovers(m.details);
    hide TierUse;
  }

  lemma {:induction false} TierUseCovers(ds: seq<Detail>)
    ensures forall i :: 0 <= i < |ds| && ds[i].tierLimit > 0.0 ==> TierUse(ds) >= ds[i].notional / ds[i].tierLimit
  {
    if ds != [] { TierUseCovers(ds[..|ds| - 1]); }
  }

  /** An account that may be kept: every open notional inside its tier, and the initial margin inside the equity at the opening marks. */
  predicate Admissible(wallet: real, ps: seq<Pos>, o: Observation, m: Margin)
    requires |ps| == |o.marks|
  {
    && (forall i :: 0 <= i < |m.details| ==> m.details[i].tierLimit > 0.0 ==> m.details[i].notional <= m.details[i].tierLimit + 0.00000001)
    && m.initial <= wallet + ProfitAt(ps, o, false, |o.marks|) + 0.00000001
  }

  /**
  An order that changes a position is counted once. It is filled if and only if the account that it
  would leave, after its price and its fee, is admissible; otherwise the account is kept and the
  refusal is counted and recorded.
  */
  lemma FilledIff(row: Row, o: Observation, name: ProfileName, p: Profile, asset: nat, size: real)
    requires RowShaped(row, |o.marks|) && Shaped(o, |o.marks|) && asset < |o.marks| && size != row.positions[asset].quantity
    requires Placed(row, o, name, p, asset, size).Ok?
    ensures var delta := size - row.positions[asset].quantity;
            var price := OrderPrice(delta, o.tradeOpens[asset], WindowOf(o, name, asset), p);
            var wallet := row.wallet + Realized(row.positions[asset], delta, price) - Fee(delta, price, FeeRate(p));
            var ps := row.positions[asset := Derivatives.Traded(row.positions[asset], delta, price)];
            var m := MarginOf(ps, Opens(o.marks), o.tiers, p.accountLeverage, FeeRate(p), |o.marks|);
            var r := Placed(row, o, name, p, asset, size).value;
            && m.Ok? && r.orders == row.orders + 1
            && if Admissible(wallet, ps, o, m.value) then
                 r.wallet == wallet && r.positions == ps && r.rejections == row.rejections && r.fillCount == row.fillCount + 1
               else
                 r.wallet == row.wallet && r.positions == row.positions && r.rejections == row.rejections + 1
                 && r.fillCount == row.fillCount && r.journal == row.journal + [Rejected(asset, delta, price)]
  {
    var delta := size - row.positions[asset].quantity;
    var price := OrderPrice(delta, o.tradeOpens[asset], WindowOf(o, name, asset), p);
    var ps := row.positions[asset := Derivatives.Traded(row.positions[asset], delta, price)];
    ProfitIs(ps, o, false, |o.marks|);
    hide MarginOf, OrderPrice, Fee, OpenProfit, ProfitAt, TierUse, Max, MinuteVwap, Realized, Derivatives.Traded;
  }

  /** A wanted order is noted as skipped exactly when its size is nothing and nothing is held. */
  lemma SkippedIff(row: Row, asset: nat, requested: real, size: real)
    requires asset < |row.positions|
    ensures Noted(row, asset, requested, size)
            == if size == 0.0 && row.positions[asset].quantity == 0.0 && requested != 0.0
               then row.(journal := row.journal + [Skipped(asset)]) else row
  {
  }

  // ---------------------------------------------------------------- evidence

  /** An event names its place, its predecessor and the public observation that it digests. */
  predicate Evidence(e: Event, start: int) {
    && e.core.market.OfMarket?
    && var o := e.core.market.observation;
       && o.publicOnly && o.execution >= start
       && e.core.execution == o.execution && e.core.signalClose == o.signalClose
       && e.core.targets == o.targets && e.core.targetChanged == o.targetChanged
  }

  predicate AllEvidence(core: Core, config: Config) {
    forall i :: 0 <= i < |core.events| ==> Evidence(core.events[i], config.start)
  }

  lemma {:induction false} ObservedEvidence(core: Core, observations: seq<Observation>, config: Config, source: int)
    requires CoreShaped(core, config.symbols) && AllShaped(observations, config.symbols) && AllEvidence(core, config)
    requires ObservedAll(core, observations, config, source).Ok?
    ensures AllEvidence(ObservedAll(core, observations, config, source).value, config)
    ensures var events := ObservedAll(core, observations, config, source).value.events;
            && |events| == |core.events| + |observations| && core.events <= events
            && forall i :: |core.events| <= i < |events| ==> events[i].core.source == source
    ensures ObservedAll(core, observations, config, source).value.barCount == core.barCount + |observations|
  {
    hide Stepped, RowShaped, Shaped;
    if observations != [] { ObservedEvidence(core, observations[..|observations| - 1], config, source); }
  }

  lemma AppliedEvidence(s: State, observations: seq<Observation>, config: Config, source: int, run: int)
    requires CoreShaped(s.core, config.symbols) && AllShaped(observations, config.symbols) && AllEvidence(s.core, config)
    requires Applied(s, observations, config, source, run).Ok?
    ensures var core := Applied(s, observations, config, source, run).value.core;
            && AllEvidence(core, config) && core.lastRun == run && core.source == source
            && |core.events| == |s.core.events| + |observations| && s.core.events <= core.events
            && (forall i :: |s.core.events| <= i < |core.events| ==> core.events[i].core.source == source)
            && core.barCount == s.core.barCount + |observations|
  {
    hide ObservedAll, Completion, CoreShaped, Shaped, Evidence;
    ObservedEvidence(s.core, observations, config, source);
  }

  /** Every event of every run is evidence of a public observation that is not older than the start. */
  lemma {:induction false} RunsAreEvidence(batches: seq<Batch>, config: Config, source: int, run: int)
    requires BatchesShaped(batches, config.symbols)
    ensures AllEvidence(AfterBatches(NewState(config, source, run), batches, config).core, config)
  {
    hide Applied, Evidence;
    if batches != [] {
      var rest, b := batches[..|batches| - 1], batches[|batches| - 1];
      RunsAreEvidence(rest, config, source, run);
      var before := AfterBatches(NewState(config, source, run), rest, config);
      if Applied(before, b.observations, config, b.source, b.run).Ok? {
        AppliedEvidence(before, b.observations, config, b.source, b.run);
      }
    }
  }

  // ---------------------------------------------------------------- fees over every run

  function ChargeOf(e: Entry, p: Profile): real {
    if e.Fill? then Magnitude(e.quantity * e.price) * ((if e.liquidation then p.liquidationFeeBps else p.feeBps) / 10000.0) else 0.0
  }

  /** What the profile's rates charge on every fill of a journal. */
  function Charges(journal: seq<Entry>, p: Profile): real {
    if journal == [] then 0.0 else Charges(journal[..|journal| - 1], p) + ChargeOf(journal[|journal| - 1], p)
  }

  predicate FairFees(journal: seq<Entry>, p: Profile) {
    forall i :: 0 <= i < |journal| && journal[i].Fill? ==> journal[i].fee == ChargeOf(journal[i], p)
  }

  lemma {:induction false} FeesAreCharges(journal: seq<Entry>, p: Profile)
    requires FairFees(journal, p)
    ensures Tally(journal).fees == Charges(journal, p)
  {
    hide Magnitude;
    if journal != [] { FeesAreCharges(journal[..|journal| - 1], p); }
  }

  lemma EntryFee(e: Entry, o: Observation, name: ProfileName, p: Profile)
    requires Shaped(o, |o.marks|) && EntryOk(e, o, name, p) && e.Fill?
    ensures e.fee == ChargeOf(e, p)
  {
  }

  lemma StepFair(row: Row, o: Observation, name: ProfileName, p: Profile)
    requires RowShaped(row, |o.marks|) && Shaped(o, |o.marks|) && Stepped(row, o, name, p).Ok? && FairFees(row.journal, p)
    ensures FairFees(Stepped(row, o, name, p).value.journal, p)
  {
    hide Stepped, EntryOk, HitsIn, ChargeOf, Shaped;
    StepWrites(row, o, name, p);
    var journal := Stepped(row, o, name, p).value.journal;
    forall i | 0 <= i < |journal| && journal[i].Fill? ensures journal[i].fee == ChargeOf(journal[i], p) {
      if i < |row.journal| { assert journal[i] == row.journal[i]; } else { EntryFee(journal[i], o, name, p); }
    }
  }

  predicate BothFair(core: Core, config: Config) {
    FairFees(core.conservative.journal, config.conservative) && FairFees(core.stress.journal, config.stress)
  }

  lemma {:induction false} ObservedFair(core: Core, observations: seq<Observation>, config: Config, source: int)
    requires CoreShaped(core, config.symbols) && AllShaped(observations, config.symbols) && BothFair(core, config)
    requires ObservedAll(core, observations, config, source).Ok?
    ensures BothFair(ObservedAll(core, observations, config, source).value, config)
  {
    hide Stepped, RowShaped, Shaped, Guard, NewEvent, FairFees;
    if observations != [] {
      var last := |observations| - 1;
      ObservedFair(core, observations[..last], config, source);
      var before, o := ObservedAll(core, observations[..last], config, source).value, observations[last];
      ShapedHere(before, o, config.symbols);
      StepFair(before.conservative, o, Conservative, config.conservative);
      StepFair(before.stress, o, Stress, config.stress);
    }
  }

  lemma AppliedFair(s: State, observations: seq<Observation>, config: Config, source: int, run: int)
    requires CoreShaped(s.core, config.symbols) && AllShaped(observations, config.symbols) && BothFair(s.core, config)
    requires Applied(s, observations, config, source, run).Ok?
    ensures BothFair(Applied(s, observations, config, source, run).value.core, config)
  {
    hide ObservedAll, Completion, CoreShaped, Shaped, FairFees;
    ObservedFair(s.core, observations, config, source);
  }

  lemma {:induction false} RunsFair(batches: seq<Batch>, config: Config, source: int, run: int)
    requires BatchesShaped(batches, config.symbols)
    ensures BothFair(AfterBatches(NewState(config, source, run), batches, config).core, config)
  {
    hide Applied;
    if batches != [] {
      hide FairFees;
      var rest, b := batches[..|batches| - 1], batches[|batches| - 1];
      RunsFair(rest, config, source, run);
      var before := AfterBatches(NewState(config, source, run), rest, config);
      if Applied(before, b.observations, config, b.source, b.run).Ok? {
        AppliedFair(before, b.observations, config, b.source, b.run);
      }
    }
  }

  function ProfileOf(config: Config, name: ProfileName): Profile {
    if name == Conservative then config.conservative else config.stress
  }

  /**
  Conservation in quantities and prices alone, over every sequence of batches and at any marks: the
  initial cash, plus quantity times (mark - price) of every fill, minus the profile's fee on each
  fill, minus quantity times opening mark times rate of every position at every funding.
  */
  lemma EveryRunBalances(batches: seq<Batch>, config: Config, source: int, run: int, name: ProfileName, marks: seq<real>)
    requires BatchesShaped(batches, config.symbols) && |marks| == config.symbols
    ensures var s := NewState(config, source, run);
            var row := RowOf(AfterBatches(s, batches, config).core, name);
            && |row.positions| == |marks|
            && Equity(row.wallet, row.positions, marks)
               == ProfileOf(config, name).initialCash + Gain(row.journal, marks) - Charges(row.journal, ProfileOf(config, name))
                  - DueOfBatches(s, batches, config, name)
  {
    hide AfterBatches, DueOfBatches, Gain, Charges, Increasing, LastCloses, Replay, Tally, FairFees, CoreAccepted, OpenProfit, NewRow;
    RunsSound(batches, config, source, run);
    RunsPay(batches, config, source, run, name);
    RunsFair(batches, config, source, run);
    var row := RowOf(AfterBatches(NewState(config, source, run), batches, config).core, name);
    FeesAreCharges(row.journal, ProfileOf(config, name));
    Conservation(row, ProfileOf(config, name), marks);
  }
}
