/** Which inputs the simulator accepts, what each bar heads for, and what each fill says. */
module TargetExposureBars {
  import opened Prelude
  import opened Reals
  import opened TargetExposure
  import opened TargetExposureLaws
  import opened TargetExposureRuns

  // ---------------------------------------------------------------- accepted inputs

  predicate PositiveCandle(c: Candle) {
    && c.open > 0.0 && c.close > 0.0 && c.low > 0.0
    && c.low <= c.open <= c.high && c.low <= c.close <= c.high
  }

  /** A run is refused exactly for its settings, its candles, its targets, or a trade that cannot be sized, in this order. */
  lemma RefusedIff(market: seq<Candle>, targets: seq<real>, c: Config)
    ensures var settings := c.initialCash > 0.0 && c.feeBps >= 0.0 && c.slippageBps >= 0.0 && c.maxAbsExposure > 0.0 && c.dust >= 0.0;
            var candles := && |market| > 0 && (forall i :: 0 <= i < |market| ==> PositiveCandle(market[i]))
                           && (forall i, j :: 0 <= i < j < |market| ==> market[i].timestamp < market[j].timestamp);
            var inRange := && |targets| == |market|
                           && forall i :: 0 <= i < |market| ==>
                                -c.maxAbsExposure - 0.000000000001 <= targets[i] <= c.maxAbsExposure + 0.000000000001;
            && (Outcome(market, targets, c) == Err(BadConfig) <==> !settings)
            && (Outcome(market, targets, c) == Err(BadMarket) <==> settings && !candles)
            && (Outcome(market, targets, c) == Err(BadTargets) <==> settings && candles && !inRange)
  {
    forall i | 0 <= i < |market| ensures ValidCandle(market[i]) <==> PositiveCandle(market[i]) {
    }
    hide ValidCandle, PositiveCandle, Finish;
    if ValidTargets(targets, |market|, c) { RaisesOnlyDenominator(market, targets, c, |market|); }
  }

  lemma {:induction false} RaisesOnlyDenominator(market: seq<Candle>, targets: seq<real>, c: Config, n: nat)
    requires n <= |market| == |targets|
    ensures After(market, targets, c, n).Err? ==> After(market, targets, c, n) == Err(BadDenominator)
  {
    hide Numerator, Denominator, Trade;
    if n > 0 { RaisesOnlyDenominator(market, targets, c, n - 1); }
  }

  // ---------------------------------------------------------------- one bar

  function Size(x: real): real { if x >= 0.0 then x else 0.0 - x }

  /** A quantity `change` traded at the reference price: slippage against the trader and the fee on what changed hands. */
  predicate PaidFor(a: Account, b: Account, reference: real, change: real, price: real, fee: real, c: Config) {
    && price == (if change > 0.0 then reference * (1.0 + c.slippageBps / 10000.0) else reference * (1.0 - c.slippageBps / 10000.0))
    && fee == Size(change * price) * (c.feeBps / 10000.0)
    && b.cash == a.cash - change * price - fee && b.quantity == a.quantity + change
  }

  lemma FillPays(bar: nat, reason: Reason, a: Account, price: real, change: real, c: Config)
    ensures var f := FillFor(bar, reason, a, price, change, c);
            && f.bar == bar && f.reason == reason && f.change == change && f.after == Trade(a, price, change, c)
            && PaidFor(a, f.after, price, change, f.price, f.fee, c)
  {
  }

  /** The exposure is the target times the equity, both at the price of the trade. */
  predicate AtTarget(a: Account, price: real, target: real) {
    a.quantity * price == target * (a.cash + a.quantity * price)
  }

  lemma OnTargetIs(a: Account, price: real, target: real)
    requires OnTarget(a, price, target)
    ensures AtTarget(a, price, target)
  {
    EquityIs(a, price);
  }

  /**
  The first bar does not trade. Every later bar executes the target of the bar before it at its own
  open: it ends on that target, or its trade is not above the threshold (`TradesIff`) and nothing changes.
  */
  lemma BarAims(market: seq<Candle>, targets: seq<real>, c: Config, i: nat)
    requires CostsBelowAll(c) && ValidMarket(market) && |targets| == |market| && i < |market|
    requires After(market, targets, c, i).Ok? && After(market, targets, c, i + 1).Ok?
    ensures var a, b := After(market, targets, c, i).value, After(market, targets, c, i + 1).value;
            if i == 0 then a == b == Account(c.initialCash, 0.0) else
            if Trades(a, market[i].open, targets[i - 1], c) then AtTarget(b, market[i].open, targets[i - 1]) else b == a
  {
    if i == 0 {
      assert After(market, targets, c, 0).Ok?;
    } else {
      assert ValidCandle(market[i]);
      var a, price, target := After(market, targets, c, i).value, market[i].open, targets[i - 1];
      hide ValidMarket, ValidCandle, SizeTrade, Trade, AtTarget, CostsBelowAll, After;
      NextAccount(market, targets, c, i);
      if Trades(a, price, target, c) {
        LandsOnTarget(a, price, target, c);
        OnTargetIs(Execute(a, price, target, c).value, price, target);
      }
    }
  }

  lemma NextAccount(market: seq<Candle>, targets: seq<real>, c: Config, i: nat)
    requires 0 < i < |market| == |targets| && After(market, targets, c, i).Ok?
    ensures After(market, targets, c, i + 1) == Execute(After(market, targets, c, i).value, market[i].open, targets[i - 1], c)
  {
    hide Execute;
  }

  /** A trade is worth making exactly when it is above the threshold, in value and in quantity. */
  lemma TradesIff(a: Account, price: real, target: real, c: Config)
    requires price > 0.0 && c.dust >= 0.0 && SizeTrade(a, price, target, c).Ok?
    ensures Trades(a, price, target, c) <==>
              && Size(target * (a.cash + a.quantity * price) - a.quantity * price) > c.dust
              && Size(SizeTrade(a, price, target, c).value) > c.dust
  {
    hide Denominator;
  }

  // ---------------------------------------------------------------- the fills of a report

  /** A fill of a run, from the account `a`: at the open of its bar or, at the end, at the last close. */
  predicate FillSays(f: Fill, a: Account, market: seq<Candle>, c: Config) {
    && f.bar < |market| && Size(f.change) > c.dust
    && match f.reason
       case TargetRebalance => f.bar > 0 && PaidFor(a, f.after, market[f.bar].open, f.change, f.price, f.fee, c)
       case EndLiquidation =>
         && f.bar == |market| - 1 && f.change == 0.0 - a.quantity && f.after.quantity == 0.0
         && PaidFor(a, f.after, market[f.bar].close, f.change, f.price, f.fee, c)
  }

  /** Each fill continues the account that the fill before it left; their bars do not fall, and only the last may be the end. */
  predicate JournalSays(fills: seq<Fill>, market: seq<Candle>, c: Config) {
    && (forall k :: 0 <= k < |fills| ==>
          FillSays(fills[k], LastAccount(fills[..k], c), market, c))
    && (forall j, k :: 0 <= j < k < |fills| ==> fills[j].bar <= fills[k].bar && fills[j].reason == TargetRebalance)
    && (forall j, k :: 0 <= j < k < |fills| && fills[k].reason == TargetRebalance ==> fills[j].bar < fills[k].bar)
  }

  function LastAccount(fills: seq<Fill>, c: Config): Account {
    if fills == [] then Account(c.initialCash, 0.0) else fills[|fills| - 1].after
  }

  lemma JournalSnoc(fills: seq<Fill>, f: Fill, market: seq<Candle>, c: Config)
    requires JournalSays(fills, market, c) && FillSays(f, LastAccount(fills, c), market, c)
    requires forall j :: 0 <= j < |fills| ==> fills[j].reason == TargetRebalance
    requires forall j :: 0 <= j < |fills| ==> fills[j].bar <= f.bar && (f.reason == TargetRebalance ==> fills[j].bar < f.bar)
    ensures JournalSays(fills + [f], market, c)
  {
    hide FillSays;
    var all := fills + [f];
    forall k | 0 <= k < |all| ensures FillSays(all[k], LastAccount(all[..k], c), market, c) {
      if k < |fills| { assert all[..k] == fills[..k]; } else { assert all[..k] == fills; }
    }
  }

  lemma FillForSays(bar: nat, reason: Reason, a: Account, market: seq<Candle>, price: real, change: real, c: Config)
    requires bar < |market| && Abs(change) > c.dust
    requires if reason == TargetRebalance then bar > 0 && price == market[bar].open
             else bar == |market| - 1 && price == market[bar].close && change == -a.quantity
    ensures FillSays(FillFor(bar, reason, a, price, change, c), a, market, c)
  {
    FillPays(bar, reason, a, price, change, c);
    FillRecords(bar, reason, a, price, change, c);
    hide PaidFor, FillFor, Settle, Trade;
  }

  lemma {:induction false} FillsSay(market: seq<Candle>, targets: seq<real>, c: Config, n: nat)
    requires n <= |market| == |targets| && After(market, targets, c, n).Ok?
    ensures var fills := FillsOf(market, targets, c, n);
            && JournalSays(fills, market, c) && LastAccount(fills, c) == After(market, targets, c, n).value
            && forall k :: 0 <= k < |fills| ==> fills[k].bar < n && fills[k].reason == TargetRebalance
  {
    hide SizeTrade, FillSays, Trade, JournalSays, FillFor;
    if n > 1 {
      FillsSay(market, targets, c, n - 1);
      var a, fills := After(market, targets, c, n - 1).value, FillsOf(market, targets, c, n - 1);
      var change := SizeTrade(a, market[n - 1].open, targets[n - 2], c).value;
      if Abs(change) > c.dust {
        var f := FillFor(n - 1, TargetRebalance, a, market[n - 1].open, change, c);
        FillPays(n - 1, TargetRebalance, a, market[n - 1].open, change, c);
        FillForSays(n - 1, TargetRebalance, a, market, market[n - 1].open, change, c);
        JournalSnoc(fills, f, market, c);
        assert FillsOf(market, targets, c, n) == fills + [f];
      } else {
        assert FillsOf(market, targets, c, n) == fills;
      }
    } else {
      NothingSaid(market, c);
      if n == 1 { assert After(market, targets, c, 0).Ok?; }
    }
  }

  lemma NothingSaid(market: seq<Candle>, c: Config)
    ensures JournalSays([], market, c)
  {
  }

  /**
  The fills of a report: each at the open of a later bar than the one before, or the sale at the last
  close, at the price and fee of the settings, and each from the account that the one before it left.
  */
  lemma ReportSays(market: seq<Candle>, targets: seq<real>, c: Config)
    requires Outcome(market, targets, c).Ok?
    ensures JournalSays(Outcome(market, targets, c).value.fills, market, c)
  {
    AcceptedShape(market, targets, c);
    FillsSay(market, targets, c, |market|);
    FinishFills(market, targets, c);
    var last, a := |market| - 1, After(market, targets, c, |market|).value;
    hide After, FillsOf, Finish, FillSays, ValidMarket, ValidTargets, ValidConfig, Trade, JournalSays, FillFor, Settle;
    if c.liquidateAtEnd && Abs(a.quantity) > c.dust {
      var f := FillFor(last, EndLiquidation, a, market[last].close, -a.quantity, c);
      FillForSays(last, EndLiquidation, a, market, market[last].close, -a.quantity, c);
      FillRecords(last, EndLiquidation, a, market[last].close, -a.quantity, c);
      FillPays(last, EndLiquidation, a, market[last].close, -a.quantity, c);
      assert f.(after := Liquidated(a, market[last].close, c)) == f;
      JournalSnoc(FillsOf(market, targets, c, |market|), f, market, c);
    }
  }

  /** Each reported row is an account and its value at its own close. */
  lemma RowsAtClose(market: seq<Candle>, targets: seq<real>, c: Config, i: nat)
    requires Outcome(market, targets, c).Ok? && i < |market|
    ensures |Outcome(market, targets, c).value.rows| == |market|
    ensures var r := Outcome(market, targets, c).value.rows[i];
            r.close == market[i].close && r.equity == r.account.cash + r.account.quantity * market[i].close
  {
    RowIs(market, targets, c, i);
    hide Outcome, Reported;
  }
}
