/**
The single-series target-exposure simulator over exact real arithmetic: a target emitted at one
close is executed at the next open, sized so that the exposure after costs is the target.
*/
module TargetExposure {
  import opened Prelude

  datatype Candle = Candle(timestamp: int, open: real, high: real, low: real, close: real)

  /** `dust` is the absolute threshold below which a trade is skipped. */
  datatype Config = Config(
    initialCash: real, feeBps: real, slippageBps: real, maxAbsExposure: real, liquidateAtEnd: bool, dust: real)

  datatype Error = BadConfig | BadMarket | BadTargets | BadDenominator

  datatype Account = Account(cash: real, quantity: real)

  datatype Reason = TargetRebalance | EndLiquidation

  datatype Fill = Fill(bar: nat, reason: Reason, change: real, price: real, fee: real, after: Account)

  datatype Row = Row(account: Account, close: real, equity: real)

  datatype Report = Report(rows: seq<Row>, fills: seq<Fill>)

  /** The threshold written in the source. */
  const DUST: real := 0.000000000001

  function Abs(x: real): real { if x < 0.0 then -x else x }

  function Max(x: real, y: real): real { if x < y then y else x }

  function Min(x: real, y: real): real { if x < y then x else y }

  predicate ValidConfig(c: Config) {
    c.initialCash > 0.0 && c.feeBps >= 0.0 && c.slippageBps >= 0.0 && c.maxAbsExposure > 0.0 && c.dust >= 0.0
  }

  predicate ValidCandle(c: Candle) {
    && c.open > 0.0 && c.high > 0.0 && c.low > 0.0 && c.close > 0.0
    && c.high >= Max(c.open, Max(c.close, c.low)) && c.low <= Min(c.open, Min(c.close, c.high))
  }

  predicate ValidMarket(market: seq<Candle>) {
    && market != []
    && (forall i :: 0 <= i < |market| ==> ValidCandle(market[i]))
    && (forall i, j :: 0 <= i < j < |market| ==> market[i].timestamp < market[j].timestamp)
  }

  predicate ValidTargets(targets: seq<real>, n: nat, c: Config) {
    |targets| == n && forall i :: 0 <= i < n ==> Abs(targets[i]) <= c.maxAbsExposure + DUST
  }

  function FeeRate(c: Config): real { c.feeBps / 10000.0 }

  function SlippageRate(c: Config): real { c.slippageBps / 10000.0 }

  // ---------------------------------------------------------------- one execution

  function FillPrice(reference: real, change: real, slippage: real): real {
    if change > 0.0 then reference * (1.0 + slippage) else reference * (1.0 - slippage)
  }

  function Equity(a: Account, price: real): real { a.cash + a.quantity * price }

  /** What one unit traded in this direction costs in fee and slippage. */
  function CostDrag(price: real, buy: bool, fee: real, slippage: real): real {
    var fill := FillPrice(price, if buy then 1.0 else -1.0, slippage);
    if buy then (fill - price) + fill * fee else (price - fill) + fill * fee
  }

  function Numerator(a: Account, price: real, target: real): real {
    target * Equity(a, price) - a.quantity * price
  }

  function Denominator(price: real, target: real, buy: bool, fee: real, slippage: real): real {
    if buy then price + target * CostDrag(price, true, fee, slippage)
    else price - target * CostDrag(price, false, fee, slippage)
  }

  /** The quantity change that lands on the target exposure after its own costs. */
  function SizeTrade(a: Account, price: real, target: real, c: Config): Result<real, Error> {
    var numerator := Numerator(a, price, target);
    if Abs(numerator) <= c.dust then Ok(0.0) else
    var denominator := Denominator(price, target, numerator > 0.0, FeeRate(c), SlippageRate(c));
    if denominator <= 0.0 then Err(BadDenominator) else Ok(numerator / denominator)
  }

  function Trade(a: Account, price: real, change: real, c: Config): Account {
    var fill := FillPrice(price, change, SlippageRate(c));
    Account(a.cash - (change * fill + Abs(change * fill) * FeeRate(c)), a.quantity + change)
  }

  function Execute(a: Account, price: real, target: real, c: Config): Result<Account, Error> {
    match SizeTrade(a, price, target, c)
    case Err(e) => Err(e)
    case Ok(change) => Ok(if Abs(change) > c.dust then Trade(a, price, change, c) else a)
  }

  // ---------------------------------------------------------------- the run

  /** The account at the close of bar `n - 1`, before any end liquidation. */
  function After(market: seq<Candle>, targets: seq<real>, c: Config, n: nat): Result<Account, Error>
    requires n <= |market| == |targets|
  {
    if n == 0 then Ok(Account(c.initialCash, 0.0)) else
    match After(market, targets, c, n - 1)
    case Err(e) => Err(e)
    case Ok(a) => if n == 1 then Ok(a) else Execute(a, market[n - 1].open, targets[n - 2], c)
  }

  /** The row of bar `i`. */
  function RowOf(market: seq<Candle>, targets: seq<real>, c: Config, i: nat): Row
    requires i < |market| == |targets| && After(market, targets, c, i + 1).Ok?
  {
    var a := After(market, targets, c, i + 1).value;
    Row(a, market[i].close, Equity(a, market[i].close))
  }

  function FillFor(bar: nat, reason: Reason, a: Account, price: real, change: real, c: Config): Fill {
    var fill := FillPrice(price, change, SlippageRate(c));
    Fill(bar, reason, change, fill, Abs(change * fill) * FeeRate(c), Trade(a, price, change, c))
  }

  /** The fills of the first `n` bars. */
  function FillsOf(market: seq<Candle>, targets: seq<real>, c: Config, n: nat): seq<Fill>
    requires n <= |market| == |targets| && After(market, targets, c, n).Ok?
  {
    if n <= 1 then [] else
    var a := After(market, targets, c, n - 1).value;
    var change := SizeTrade(a, market[n - 1].open, targets[n - 2], c).value;
    FillsOf(market, targets, c, n - 1)
    + (if Abs(change) > c.dust then [FillFor(n - 1, TargetRebalance, a, market[n - 1].open, change, c)] else [])
  }

  /** The account after the optional end liquidation at the last close. */
  function Liquidated(a: Account, close: real, c: Config): Account {
    if c.liquidateAtEnd && Abs(a.quantity) > c.dust
    then Account(Trade(a, close, -a.quantity, c).cash, 0.0) else a
  }

  function AllRows(market: seq<Candle>, targets: seq<real>, c: Config): seq<Row>
    requires |market| == |targets| && After(market, targets, c, |market|).Ok?
  {
    EarlierBarsOk(market, targets, c, |market|);
    seq(|market|, i requires 0 <= i < |market| => RowOf(market, targets, c, i))
  }

  function Finish(market: seq<Candle>, targets: seq<real>, c: Config): Report
    requires market != [] && |market| == |targets| && After(market, targets, c, |market|).Ok?
  {
    var last := |market| - 1;
    var a, close := After(market, targets, c, |market|).value, market[last].close;
    var rows := AllRows(market, targets, c);
    var fills := FillsOf(market, targets, c, |market|);
    if c.liquidateAtEnd && Abs(a.quantity) > c.dust then
      var out := Liquidated(a, close, c);
      Report(rows[last := Row(out, close, out.cash)],
             fills + [FillFor(last, EndLiquidation, a, close, -a.quantity, c).(after := out)])
    else Report(rows, fills)
  }

  lemma {:induction false} EarlierBarsOk(market: seq<Candle>, targets: seq<real>, c: Config, n: nat)
    requires n <= |market| == |targets| && After(market, targets, c, n).Ok?
    ensures forall i :: 0 <= i <= n ==> After(market, targets, c, i).Ok?
  {
    if n > 0 { EarlierBarsOk(market, targets, c, n - 1); }
  }

  lemma {:induction false} LaterBarsErr(market: seq<Candle>, targets: seq<real>, c: Config, n: nat, m: nat)
    requires n <= m <= |market| == |targets| && After(market, targets, c, n).Err?
    ensures After(market, targets, c, m) == After(market, targets, c, n)
  {
    if n < m { LaterBarsErr(market, targets, c, n, m - 1); }
  }

  /** What a whole run reports, or the error it raises. */
  function Outcome(market: seq<Candle>, targets: seq<real>, c: Config): Result<Report, Error> {
    if !ValidConfig(c) then Err(BadConfig)
    else if !ValidMarket(market) then Err(BadMarket)
    else if !ValidTargets(targets, |market|, c) then Err(BadTargets)
    else match After(market, targets, c, |market|)
      case Err(e) => Err(e)
      case Ok(_) => Ok(Finish(market, targets, c))
  }

  /** Pays for one fill and moves the position. */
  method PayFill(bar: nat, reason: Reason, a: Account, price: real, change: real, c: Config) returns (after: Account, fill: Fill)
    ensures after == Trade(a, price, change, c) && fill == FillFor(bar, reason, a, price, change, c)
  {
    var fillPrice := FillPrice(price, change, SlippageRate(c));
    var notional := Abs(change * fillPrice);
    var fee := notional * FeeRate(c);
    after := Account(a.cash - (change * fillPrice + fee), a.quantity + change);
    fill := Fill(bar, reason, change, fillPrice, fee, after);
  }

  /** Everything the loop knows after the first `n` bars. */
  ghost predicate Simulated(market: seq<Candle>, targets: seq<real>, c: Config, n: nat, a: Account, rows: seq<Row>, fills: seq<Fill>)
    requires n <= |market| == |targets|
  {
    && After(market, targets, c, n) == Ok(a) && fills == FillsOf(market, targets, c, n) && |rows| == n
    && forall i :: 0 <= i < n ==> IsRow(market, targets, c, i, rows[i])
  }

  predicate IsRow(market: seq<Candle>, targets: seq<real>, c: Config, i: nat, row: Row)
    requires i < |market| == |targets|
  {
    After(market, targets, c, i + 1).Ok? && row == RowOf(market, targets, c, i)
  }

  lemma OneMoreBar(market: seq<Candle>, targets: seq<real>, c: Config, n: nat, a: Account, rows: seq<Row>, fills: seq<Fill>, b: Account, made: seq<Fill>)
    requires n < |market| == |targets| && Simulated(market, targets, c, n, a, rows, fills)
    requires n == 0 ==> b == a && made == []
    requires n > 0 ==>
               var change := SizeTrade(a, market[n].open, targets[n - 1], c);
               && change.Ok?
               && b == (if Abs(change.value) > c.dust then Trade(a, market[n].open, change.value, c) else a)
               && made == if Abs(change.value) > c.dust then [FillFor(n, TargetRebalance, a, market[n].open, change.value, c)] else []
    ensures Simulated(market, targets, c, n + 1, b, rows + [Row(b, market[n].close, Equity(b, market[n].close))], fills + made)
  {
    hide SizeTrade, Trade, FillFor, Equity;
    assert After(market, targets, c, n + 1) == Ok(b);
    assert fills + made == FillsOf(market, targets, c, n + 1);
    assert IsRow(market, targets, c, n, Row(b, market[n].close, Equity(b, market[n].close)));
  }

  method RunBacktest(market: seq<Candle>, targets: seq<real>, c: Config) returns (r: Result<Report, Error>)
    ensures r == Outcome(market, targets, c)
  {
    if !ValidConfig(c) { return Err(BadConfig); }
    if !ValidMarket(market) { return Err(BadMarket); }
    if !ValidTargets(targets, |market|, c) { return Err(BadTargets); }
    hide ValidConfig, ValidMarket, ValidTargets, Trade, FillFor, SizeTrade, Equity;
    var account := Account(c.initialCash, 0.0);
    var fills: seq<Fill> := [];
    var rows: seq<Row> := [];
    for index := 0 to |market|
      invariant Simulated(market, targets, c, index, account, rows, fills)
    {
      hide Simulated;
      var candle := market[index];
      var before, made := account, [];
      if index > 0 {
        var sized := SizeTrade(before, candle.open, targets[index - 1], c);
        if sized.Err? {
          SizingErrorEndsRun(market, targets, c, index, before, rows, fills);
          return Err(sized.error);
        }
        if Abs(sized.value) > c.dust {
          var fill;
          account, fill := PayFill(index, TargetRebalance, before, candle.open, sized.value, c);
          made := [fill];
        }
      }
      OneMoreBar(market, targets, c, index, before, rows, fills, account, made);
      rows := rows + [Row(account, candle.close, Equity(account, candle.close))];
      fills := fills + made;
    }
    ghost var runRows := rows;
    var last := |market| - 1;
    var close := market[last].close;
    if c.liquidateAtEnd && Abs(account.quantity) > c.dust {
      var out, fill := PayFill(last, EndLiquidation, account, close, -account.quantity, c);
      out := Account(out.cash, 0.0);
      rows := rows[last := Row(out, close, out.cash)];
      fills := fills + [fill.(after := out)];
    }
    r := Ok(Report(rows, fills));
    RowsOfRun(market, targets, c, runRows);
  }

  lemma RowsOfRun(market: seq<Candle>, targets: seq<real>, c: Config, rows: seq<Row>)
    requires |rows| == |market| == |targets| && After(market, targets, c, |market|).Ok?
    requires forall i :: 0 <= i < |rows| ==> IsRow(market, targets, c, i, rows[i])
    ensures rows == AllRows(market, targets, c)
  {
    forall i | 0 <= i < |rows| ensures rows[i] == AllRows(market, targets, c)[i] {
      assert IsRow(market, targets, c, i, rows[i]);
    }
  }

  lemma SizingErrorEndsRun(market: seq<Candle>, targets: seq<real>, c: Config, n: nat, a: Account, rows: seq<Row>, fills: seq<Fill>)
    requires 0 < n < |market| == |targets| && Simulated(market, targets, c, n, a, rows, fills)
    requires SizeTrade(a, market[n].open, targets[n - 1], c).Err?
    ensures After(market, targets, c, |market|) == Err(SizeTrade(a, market[n].open, targets[n - 1], c).error)
  {
    LaterBarsErr(market, targets, c, n + 1, |market|);
  }

  // ---------------------------------------------------------------- drawdown

  /** The greatest of the first `n` values. */
  function Peak(equity: seq<real>, n: nat): real
    requires 0 < n <= |equity|
  {
    if n == 1 then equity[0] else Max(Peak(equity, n - 1), equity[n - 1])
  }

  lemma {:induction false} PeakIsGreatest(equity: seq<real>, n: nat) returns (at: nat)
    requires 0 < n <= |equity|
    ensures forall i :: 0 <= i < n ==> equity[i] <= Peak(equity, n)
    ensures at < n && equity[at] == Peak(equity, n)
  {
    at := n - 1;
    if n > 1 {
      var k := PeakIsGreatest(equity, n - 1);
      if equity[n - 1] < equity[k] { at := k; }
    }
  }

  /** A drawdown is never positive, zero exactly at a new high, relative to the peak so far, and above -1 exactly while there is equity. */
  predicate IsDrawdown(equity: seq<real>, i: nat, d: real)
    requires i < |equity|
  {
    && d <= 0.0 && (d > -1.0 <==> equity[i] > 0.0)
    && (d == 0.0 <==> forall j :: 0 <= j < i ==> equity[j] <= equity[i])
    && equity[i] == (1.0 + d) * Peak(equity, i + 1)
  }

  /** A run starts from positive cash; later equity may be lost, and more than lost. */
  method CalculateDrawdown(equity: seq<real>) returns (drawdown: seq<real>)
    requires equity != [] ==> equity[0] > 0.0
    ensures |drawdown| == |equity|
    ensures forall i :: 0 <= i < |equity| ==> IsDrawdown(equity, i, drawdown[i])
  {
    drawdown := [];
    if equity == [] { return; }
    var peak := equity[0];
    for i := 0 to |equity|
      invariant |drawdown| == i && peak == if i == 0 then equity[0] else Peak(equity, i)
      invariant forall k :: 0 <= k < i ==> IsDrawdown(equity, k, drawdown[k])
    {
      peak := Max(peak, equity[i]);
      RatioToPeak(equity, i);
      drawdown := drawdown + [equity[i] / peak - 1.0];
    }
  }

  lemma MulStrict(a: real, b: real, x: real)
    requires a < b && x > 0.0
    ensures a * x < b * x
  {
  }

  lemma Ratio(x: real, peak: real)
    requires x <= peak && peak > 0.0
    ensures x / peak <= 1.0 && (x / peak == 1.0 <==> x == peak) && (x / peak) * peak == x && (x / peak > 0.0 <==> x > 0.0)
  {
    var q := x / peak;
    assert q * peak == x;
    if q > 1.0 { MulStrict(1.0, q, peak); }
    if q > 0.0 { MulStrict(0.0, q, peak); }
    if q < 0.0 { MulStrict(q, 0.0, peak); }
  }

  lemma RatioToPeak(equity: seq<real>, i: nat)
    requires i < |equity| && equity[0] > 0.0
    ensures Peak(equity, i + 1) > 0.0 && IsDrawdown(equity, i, equity[i] / Peak(equity, i + 1) - 1.0)
  {
    var k := PeakIsGreatest(equity, i + 1);
    Ratio(equity[i], Peak(equity, i + 1));
  }
}
