/**
One bar of one profile of the prospective paper account: funding, orders with margin rejection,
marking to the close, and liquidation at the adverse extreme of the bar.
*/
module PaperStep {
  import opened Prelude
  import opened Reals
  import opened Derivatives

  datatype Bar = Bar(open: real, high: real, low: real, close: real)

  datatype ProfileName = Conservative | Stress

  datatype Observation = Observation(
    execution: int, signalClose: int, targets: seq<real>, targetChanged: bool, tradeOpens: seq<real>, marks: seq<Bar>,
    fundingRates: seq<seq<real>>, expectedFunding: seq<int>,
    conservativeWindows: seq<seq<Minute>>, stressWindows: seq<seq<Minute>>,
    specs: seq<Spec>, tiers: seq<seq<Tier>>, publicOnly: bool)

  /** One record of the execution journal. */
  datatype Entry =
    | Fill(asset: nat, quantity: real, price: real, fee: real, liquidation: bool)
    | Funding(asset: nat, amount: real)
    | Rejected(asset: nat, quantity: real, price: real)
    | Skipped(asset: nat)

  datatype Row = Row(
    wallet: real, equity: real, equityHigh: real, maximumDrawdown: real, positions: seq<Pos>, targets: seq<real>,
    fillCount: nat, assetFills: seq<nat>, orders: nat, hits: nat, expectedFunding: int, actualFunding: nat,
    rejections: nat, liquidations: nat, marginUse: real, tierUse: real, fees: real, funding: real, journal: seq<Entry>)

  const FLOOR: real := 0.000000000001
  const MARGIN_TOLERANCE: real := 0.00000001

  /** One list entry for each of the `n` symbols. */
  predicate Shaped(o: Observation, n: nat) {
    && |o.targets| == |o.tradeOpens| == |o.marks| == |o.fundingRates| == |o.expectedFunding| == n
    && |o.conservativeWindows| == |o.stressWindows| == |o.specs| == |o.tiers| == n
  }

  predicate RowShaped(row: Row, n: nat) {
    |row.positions| == |row.assetFills| == n
  }

  function NewRow(p: Profile, n: nat): (row: Row)
    ensures RowShaped(row, n)
  {
    Row(p.initialCash, p.initialCash, p.initialCash, 0.0, Flat(n), seq(n, i => 0.0), 0, seq(n, i => 0), 0, 0, 0, 0, 0, 0,
        0.0, 0.0, 0.0, 0.0, [])
  }

  function Flat(n: nat): (ps: seq<Pos>)
    ensures |ps| == n && forall i :: 0 <= i < n ==> ps[i] == Pos(0.0, 0.0)
  {
    seq(n, i => Pos(0.0, 0.0))
  }

  function Opens(marks: seq<Bar>): (r: seq<real>)
    ensures |r| == |marks|
  {
    seq(|marks|, i requires 0 <= i < |marks| => marks[i].open)
  }

  function Closes(marks: seq<Bar>): (r: seq<real>)
    ensures |r| == |marks|
  {
    seq(|marks|, i requires 0 <= i < |marks| => marks[i].close)
  }

  /** The low for a long or flat position, the high for a short one. */
  function Adverse(ps: seq<Pos>, marks: seq<Bar>): (r: seq<real>)
    requires |ps| == |marks|
    ensures |r| == |marks|
  {
    seq(|marks|, i requires 0 <= i < |marks| => if ps[i].quantity >= 0.0 then marks[i].low else marks[i].high)
  }

  /** The unrealized profit of the first `k` positions. */
  function OpenProfit(ps: seq<Pos>, marks: seq<real>, k: nat): real
    requires k <= |ps| == |marks|
  {
    if k == 0 then 0.0 else OpenProfit(ps, marks, k - 1) + Unrealized(ps[k - 1], marks[k - 1])
  }

  function Equity(wallet: real, ps: seq<Pos>, marks: seq<real>): real
    requires |ps| == |marks|
  {
    wallet + OpenProfit(ps, marks, |ps|)
  }

  // ---------------------------------------------------------------- funding

  function FundOnce(row: Row, asset: nat, mark: real, rate: real): Row
    requires asset < |row.positions|
  {
    var quantity := row.positions[asset].quantity;
    var cash := FundingCashflow(quantity, mark, rate);
    row.(wallet := row.wallet + cash, funding := row.funding + cash, actualFunding := row.actualFunding + 1,
         journal := if quantity == 0.0 then row.journal else row.journal + [Funding(asset, cash)])
  }

  function FundRates(row: Row, asset: nat, mark: real, rates: seq<real>, k: nat): (r: Row)
    requires asset < |row.positions| && k <= |rates|
    ensures |r.positions| == |row.positions| && r.assetFills == row.assetFills
  {
    if k == 0 then row else FundOnce(FundRates(row, asset, mark, rates, k - 1), asset, mark, rates[k - 1])
  }

  function Expect(row: Row, count: int): Row {
    row.(expectedFunding := row.expectedFunding + count)
  }

  /** Funding of the first `k` symbols. */
  function Funded(row: Row, o: Observation, k: nat): (r: Row)
    requires RowShaped(row, |o.marks|) && Shaped(o, |o.marks|) && k <= |o.marks|
    ensures RowShaped(r, |o.marks|)
  {
    if k == 0 then row else
    var before := Expect(Funded(row, o, k - 1), o.expectedFunding[k - 1]);
    FundRates(before, k - 1, o.marks[k - 1].open, o.fundingRates[k - 1], |o.fundingRates[k - 1]|)
  }

  // ---------------------------------------------------------------- orders

  /** Order sizes of the first `k` symbols. */
  function Desired(o: Observation, equity: real, k: nat): (r: Result<seq<real>, Error>)
    requires Shaped(o, |o.marks|) && k <= |o.marks|
    ensures r.Ok? ==> |r.value| == k
  {
    if k == 0 then Ok([]) else
    match Desired(o, equity, k - 1)
    case Err(e) => Err(e)
    case Ok(sizes) =>
      match TargetQuantity(Times(equity, o.targets[k - 1]), o.marks[k - 1].open, o.specs[k - 1])
      case Err(e) => Err(e)
      case Ok(q) => Ok(sizes + [q])
  }

  function WindowOf(o: Observation, name: ProfileName, asset: nat): seq<Minute>
    requires Shaped(o, |o.marks|) && asset < |o.marks|
  {
    if name == Conservative then o.conservativeWindows[asset] else o.stressWindows[asset]
  }

  function Fee(delta: real, price: real, rate: real): real {
    Times(Abs(Times(delta, price)), rate)
  }

  function FeeRate(p: Profile): real { p.feeBps / 10000.0 }

  /** The account after a trade of `delta` at `price`. */
  function Filled(row: Row, asset: nat, delta: real, price: real, fee: real, liquidation: bool): Row
    requires asset < |row.positions| == |row.assetFills|
  {
    row.(wallet := row.wallet + Realized(row.positions[asset], delta, price) - fee,
         positions := row.positions[asset := Traded(row.positions[asset], delta, price)],
         fees := row.fees + fee, fillCount := row.fillCount + 1,
         assetFills := row.assetFills[asset := row.assetFills[asset] + 1],
         journal := row.journal + [Fill(asset, delta, price, fee, liquidation)])
  }

  /** The note left when a wanted order is below the exchange minimum and nothing is held. */
  function Noted(row: Row, asset: nat, requested: real, size: real): Row
    requires asset < |row.positions|
  {
    if requested != 0.0 && size == 0.0 && row.positions[asset].quantity == 0.0 then
      row.(journal := row.journal + [Skipped(asset)])
    else row
  }

  function Ordered(row: Row, hit: bool): Row {
    row.(orders := row.orders + 1, hits := if hit then row.hits + 1 else row.hits)
  }

  function Refused(row: Row, asset: nat, delta: real, price: real): Row {
    row.(rejections := row.rejections + 1, journal := row.journal + [Rejected(asset, delta, price)])
  }

  function TierUse(details: seq<Detail>): real {
    if details == [] then 0.0 else
    var d := details[|details| - 1];
    var rest := TierUse(details[..|details| - 1]);
    if d.tierLimit > 0.0 then Max(rest, d.notional / d.tierLimit) else rest
  }

  function Used(row: Row, m: Margin, equity: real): Row {
    row.(marginUse := Max(row.marginUse, m.initial / Max(equity, FLOOR)), tierUse := Max(row.tierUse, TierUse(m.details)))
  }

  predicate TierExceeded(details: seq<Detail>) {
    exists i :: 0 <= i < |details| && details[i].tierLimit > 0.0 && details[i].notional > details[i].tierLimit + MARGIN_TOLERANCE
  }

  /** The candidate account is refused when a tier is exceeded or its margin is above its equity. */
  predicate Refuses(m: Margin, equity: real) {
    TierExceeded(m.details) || m.initial > equity + MARGIN_TOLERANCE
  }

  /** The order that would take `asset` to `size`. */
  function Placed(row: Row, o: Observation, name: ProfileName, p: Profile, asset: nat, size: real): (r: Result<Row, Error>)
    requires RowShaped(row, |o.marks|) && Shaped(o, |o.marks|) && asset < |o.marks|
    ensures r.Ok? ==> RowShaped(r.value, |o.marks|)
  {
    var delta := size - row.positions[asset].quantity;
    if delta == 0.0 then Ok(row) else
    var window := WindowOf(o, name, asset);
    var price := OrderPrice(delta, o.tradeOpens[asset], window, p);
    var ordered := Ordered(row, MinuteVwap(window).Some?);
    var candidate := Filled(ordered, asset, delta, price, Fee(delta, price, FeeRate(p)), false);
    match MarginOf(candidate.positions, Opens(o.marks), o.tiers, p.accountLeverage, FeeRate(p), |o.marks|)
    case Err(e) => Err(e)
    case Ok(m) =>
      var equity := Equity(candidate.wallet, candidate.positions, Opens(o.marks));
      if Refuses(m, equity) then Ok(Refused(ordered, asset, delta, price)) else Ok(Used(candidate, m, equity))
  }

  /** Orders of the first `k` symbols. */
  function Orders(row: Row, o: Observation, name: ProfileName, p: Profile, equity: real, sizes: seq<real>, k: nat): (r: Result<Row, Error>)
    requires RowShaped(row, |o.marks|) && Shaped(o, |o.marks|) && k <= |o.marks| == |sizes|
    ensures r.Ok? ==> RowShaped(r.value, |o.marks|)
  {
    if k == 0 then Ok(row) else
    match Orders(row, o, name, p, equity, sizes, k - 1)
    case Err(e) => Err(e)
    case Ok(r) => Placed(Noted(r, k - 1, Times(equity, o.targets[k - 1]), sizes[k - 1]), o, name, p, k - 1, sizes[k - 1])
  }

  function Retargeted(row: Row, targets: seq<real>): Row { row.(targets := targets) }

  function Rebalanced(row: Row, o: Observation, name: ProfileName, p: Profile): (r: Result<Row, Error>)
    requires RowShaped(row, |o.marks|) && Shaped(o, |o.marks|)
    ensures r.Ok? ==> RowShaped(r.value, |o.marks|)
  {
    if !o.targetChanged then Ok(row) else
    var equity := Equity(row.wallet, row.positions, Opens(o.marks));
    match Desired(o, equity, |o.marks|)
    case Err(e) => Err(e)
    case Ok(sizes) =>
      match Orders(row, o, name, p, equity, sizes, |o.marks|)
      case Err(e) => Err(e)
      case Ok(r) => Ok(Retargeted(r, o.targets))
  }

  // ---------------------------------------------------------------- close of the bar

  function LiquidationRate(p: Profile): real { p.liquidationFeeBps / 10000.0 }

  function LiquidateOne(row: Row, asset: nat, mark: real, rate: real): Row
    requires asset < |row.positions| == |row.assetFills|
  {
    var delta := -row.positions[asset].quantity;
    if delta == 0.0 then row else
    var price := Worse(mark, delta, rate);
    Filled(row, asset, delta, price, Fee(delta, price, rate), true)
  }

  /** The first `k` positions closed at the adverse marks. */
  function Liquidated(row: Row, marks: seq<real>, rate: real, k: nat): (r: Row)
    requires RowShaped(row, |marks|) && k <= |marks|
    ensures RowShaped(r, |marks|)
  {
    if k == 0 then row else LiquidateOne(Liquidated(row, marks, rate, k - 1), k - 1, marks[k - 1], rate)
  }

  function CountLiquidation(row: Row): Row { row.(liquidations := row.liquidations + 1) }

  function Marked(row: Row, equity: real): Result<Row, Error> {
    if equity <= 0.0 then Err(NonPositiveEquity) else
    var high := Max(row.equityHigh, equity);
    Ok(row.(equity := equity, equityHigh := high,
            maximumDrawdown := Max(row.maximumDrawdown, 1.0 - equity / Max(high, FLOOR))))
  }

  /** The bar forces the account out. */
  predicate Liquidates(maintenance: real, adverseEquity: real) {
    maintenance > 0.0 && adverseEquity <= maintenance
  }

  function Settled(row: Row, o: Observation, p: Profile): (r: Result<Row, Error>)
    requires RowShaped(row, |o.marks|) && Shaped(o, |o.marks|)
    ensures r.Ok? ==> RowShaped(r.value, |o.marks|)
  {
    var closes, adverse := Closes(o.marks), Adverse(row.positions, o.marks);
    var equity := Equity(row.wallet, row.positions, closes);
    match MarginOf(row.positions, closes, o.tiers, p.accountLeverage, FeeRate(p), |o.marks|)
    case Err(e) => Err(e)
    case Ok(m) =>
      match MarginOf(row.positions, adverse, o.tiers, p.accountLeverage, FeeRate(p), |o.marks|)
      case Err(e) => Err(e)
      case Ok(worst) =>
        var used := Used(row, m, equity);
        if Liquidates(worst.maintenance, Equity(row.wallet, row.positions, adverse)) then
          var out := Liquidated(CountLiquidation(used), adverse, LiquidationRate(p), |o.marks|);
          Marked(out, out.wallet)
        else Marked(used, equity)
  }

  /** The account after one observation. */
  function Stepped(row: Row, o: Observation, name: ProfileName, p: Profile): (r: Result<Row, Error>)
    requires RowShaped(row, |o.marks|) && Shaped(o, |o.marks|)
    ensures r.Ok? ==> RowShaped(r.value, |o.marks|)
  {
    match Rebalanced(Funded(row, o, |o.marks|), o, name, p)
    case Err(e) => Err(e)
    case Ok(r) => Settled(r, o, p)
  }

  // ---------------------------------------------------------------- the program

  method OpenProfitOf(ps: seq<Pos>, marks: seq<real>) returns (sum: real)
    requires |ps| == |marks|
    ensures sum == OpenProfit(ps, marks, |ps|)
  {
    hide Unrealized;
    sum := 0.0;
    for i := 0 to |ps|
      invariant sum == OpenProfit(ps, marks, i)
    {
      sum := sum + Unrealized(ps[i], marks[i]);
    }
  }

  method PayFunding(current: Row, o: Observation) returns (row: Row)
    requires RowShaped(current, |o.marks|) && Shaped(o, |o.marks|)
    ensures row == Funded(current, o, |o.marks|)
  {
    hide FundOnce;
    row := current;
    for asset := 0 to |o.marks|
      invariant row == Funded(current, o, asset)
    {
      row := Expect(row, o.expectedFunding[asset]);
      var rates, before := o.fundingRates[asset], row;
      for k := 0 to |rates|
        invariant row == FundRates(before, asset, o.marks[asset].open, rates, k)
      {
        row := FundOnce(row, asset, o.marks[asset].open, rates[k]);
      }
    }
  }

  lemma {:induction false} DesiredErrorLasts(o: Observation, equity: real, k: nat, n: nat)
    requires Shaped(o, |o.marks|) && k <= n <= |o.marks| && Desired(o, equity, k).Err?
    ensures Desired(o, equity, n) == Desired(o, equity, k)
  {
    hide TargetQuantity;
    if k < n { DesiredErrorLasts(o, equity, k, n - 1); }
  }

  method DesiredSizes(o: Observation, equity: real) returns (r: Result<seq<real>, Error>)
    requires Shaped(o, |o.marks|)
    ensures r == Desired(o, equity, |o.marks|)
  {
    hide TargetQuantity, Times;
    var sizes := [];
    for i := 0 to |o.marks|
      invariant Desired(o, equity, i) == Ok(sizes)
    {
      var size := TargetQuantity(Times(equity, o.targets[i]), o.marks[i].open, o.specs[i]);
      if size.Err? {
        DesiredErrorLasts(o, equity, i + 1, |o.marks|);
        return Err(size.error);
      }
      sizes := sizes + [size.value];
    }
    r := Ok(sizes);
  }

  /** Trades on a copy of the positions and keeps the copy only if the margin check passes. */
  method Place(row: Row, o: Observation, name: ProfileName, p: Profile, asset: nat, size: real) returns (r: Result<Row, Error>)
    requires RowShaped(row, |o.marks|) && Shaped(o, |o.marks|) && asset < |o.marks|
    ensures r == Placed(row, o, name, p, asset, size)
  {
    hide Times, Traded, Realized, OrderPrice, MinuteVwap, MarginOf, OpenProfit, Refuses, Used, Fee, Unrealized;
    var delta := size - row.positions[asset].quantity;
    if delta == 0.0 {
      return Ok(row);
    }
    var window := WindowOf(o, name, asset);
    var price := OrderPrice(delta, o.tradeOpens[asset], window, p);
    var ordered := Ordered(row, MinuteVwap(window).Some?);
    var leg := new Position(row.positions[asset]);
    var realized := leg.ApplyTrade(delta, price);
    var candidate := row.positions[asset := leg.Now()];
    var fee := Fee(delta, price, FeeRate(p));
    var wallet := row.wallet + realized - fee;
    var margin := MarginRequirements(candidate, Opens(o.marks), o.tiers, p.accountLeverage, FeeRate(p));
    if margin.Err? {
      return Err(margin.error);
    }
    var profit := OpenProfitOf(candidate, Opens(o.marks));
    if Refuses(margin.value, wallet + profit) {
      return Ok(Refused(ordered, asset, delta, price));
    }
    var filled := ordered.(wallet := wallet, positions := candidate, fees := ordered.fees + fee,
      fillCount := ordered.fillCount + 1, assetFills := ordered.assetFills[asset := ordered.assetFills[asset] + 1],
      journal := ordered.journal + [Fill(asset, delta, price, fee, false)]);
    r := Ok(Used(filled, margin.value, wallet + profit));
  }

  lemma {:induction false} OrdersErrorLasts(row: Row, o: Observation, name: ProfileName, p: Profile, equity: real, sizes: seq<real>, k: nat, n: nat)
    requires RowShaped(row, |o.marks|) && Shaped(o, |o.marks|) && k <= n <= |o.marks| == |sizes|
    requires Orders(row, o, name, p, equity, sizes, k).Err?
    ensures Orders(row, o, name, p, equity, sizes, n) == Orders(row, o, name, p, equity, sizes, k)
  {
    hide Placed, Noted;
    if k < n { OrdersErrorLasts(row, o, name, p, equity, sizes, k, n - 1); }
  }

  method Rebalance(current: Row, o: Observation, name: ProfileName, p: Profile) returns (r: Result<Row, Error>)
    requires RowShaped(current, |o.marks|) && Shaped(o, |o.marks|)
    ensures r == Rebalanced(current, o, name, p)
  {
    hide Placed, Times, OpenProfit;
    if !o.targetChanged {
      return Ok(current);
    }
    var profit := OpenProfitOf(current.positions, Opens(o.marks));
    var equity := current.wallet + profit;
    var sizes := DesiredSizes(o, equity);
    if sizes.Err? {
      return Err(sizes.error);
    }
    var row := current;
    for asset := 0 to |o.marks|
      invariant RowShaped(row, |o.marks|)
      invariant Orders(current, o, name, p, equity, sizes.value, asset) == Ok(row)
    {
      row := Noted(row, asset, Times(equity, o.targets[asset]), sizes.value[asset]);
      var placed := Place(row, o, name, p, asset, sizes.value[asset]);
      if placed.Err? {
        OrdersErrorLasts(current, o, name, p, equity, sizes.value, asset + 1, |o.marks|);
        return Err(placed.error);
      }
      row := placed.value;
    }
    r := Ok(Retargeted(row, o.targets));
  }

  method Liquidate(current: Row, marks: seq<real>, rate: real) returns (row: Row)
    requires RowShaped(current, |marks|)
    ensures row == Liquidated(current, marks, rate, |marks|)
  {
    hide Times, Traded, Realized, Worse, Fee, Unrealized;
    row := current;
    for asset := 0 to |marks|
      invariant RowShaped(row, |marks|)
      invariant row == Liquidated(current, marks, rate, asset)
    {
      var delta := -row.positions[asset].quantity;
      if delta != 0.0 {
        var price := Worse(marks[asset], delta, rate);
        var leg := new Position(row.positions[asset]);
        var realized := leg.ApplyTrade(delta, price);
        var charge := Fee(delta, price, rate);
        row := row.(wallet := row.wallet + realized - charge, positions := row.positions[asset := leg.Now()],
          fees := row.fees + charge, fillCount := row.fillCount + 1,
          assetFills := row.assetFills[asset := row.assetFills[asset] + 1],
          journal := row.journal + [Fill(asset, delta, price, charge, true)]);
      }
    }
  }

  method Settle(current: Row, o: Observation, p: Profile) returns (r: Result<Row, Error>)
    requires RowShaped(current, |o.marks|) && Shaped(o, |o.marks|)
    ensures r == Settled(current, o, p)
  {
    hide MarginOf, OpenProfit, Liquidated, Marked, TierUse, Max;
    var closes, adverse := Closes(o.marks), Adverse(current.positions, o.marks);
    var profit := OpenProfitOf(current.positions, closes);
    var adverseProfit := OpenProfitOf(current.positions, adverse);
    var margin := MarginRequirements(current.positions, closes, o.tiers, p.accountLeverage, FeeRate(p));
    if margin.Err? {
      return Err(margin.error);
    }
    var worst := MarginRequirements(current.positions, adverse, o.tiers, p.accountLeverage, FeeRate(p));
    if worst.Err? {
      return Err(worst.error);
    }
    var row, equity := Used(current, margin.value, current.wallet + profit), current.wallet + profit;
    if worst.value.maintenance > 0.0 && current.wallet + adverseProfit <= worst.value.maintenance {
      row := Liquidate(CountLiquidation(row), adverse, LiquidationRate(p));
      equity := row.wallet;
    }
    r := Marked(row, equity);
  }

  /** One observation: funding, then orders if the target changed, then the close of the bar. */
  method ProfileStep(current: Row, o: Observation, name: ProfileName, p: Profile) returns (r: Result<Row, Error>)
    requires RowShaped(current, |o.marks|) && Shaped(o, |o.marks|)
    ensures r == Stepped(current, o, name, p)
  {
    hide Funded, Rebalanced, Settled;
    var funded := PayFunding(current, o);
    r := Rebalance(funded, o, name, p);
    if r.Ok? {
      r := Settle(r.value, o, p);
    }
  }
}
