/** Theorems about whole runs of the simulator, and about two runs side by side. */
module TargetExposureRuns {
  import opened Prelude
  import opened Reals
  import opened TargetExposure
  import opened TargetExposureLaws

  // ---------------------------------------------------------------- whole reports

  /** What `RunSolvent` means for everything that a run reports. */
  lemma ReportSolvent(market: seq<Candle>, targets: seq<real>, c: Config)
    requires CostsBelowAll(c) && ValidMarket(market) && ValidTargets(targets, |market|, c) && LongOnly(targets)
    ensures var r := Outcome(market, targets, c);
            && r.Ok? && |r.value.rows| == |market|
            && forall i :: 0 <= i < |market| ==> Solvent(r.value.rows[i].account) && r.value.rows[i].equity > 0.0
  {
    RunSolvent(market, targets, c, |market|);
    hide After, Liquidated, Finish, CostsBelowAll, LongOnly, ValidTargets, RowOf;
    LastRow(market, targets, c);
    var r, last := Outcome(market, targets, c).value, |market| - 1;
    forall i | 0 <= i < |market| ensures Solvent(r.rows[i].account) && r.rows[i].equity > 0.0 {
      BarSolvent(market, targets, c, i);
      if i == last { LiquidationSolvent(After(market, targets, c, |market|).value, market[last].close, c); }
      if i == last { SolventEquity(Liquidated(After(market, targets, c, |market|).value, market[last].close, c), market[last].close); }
    }
  }

  lemma BarSolvent(market: seq<Candle>, targets: seq<real>, c: Config, i: nat)
    requires CostsBelowAll(c) && ValidMarket(market) && |market| == |targets| && LongOnly(targets) && i < |market|
    requires After(market, targets, c, |market|).Ok?
    ensures After(market, targets, c, i + 1).Ok? && market[i].close > 0.0 && Solvent(After(market, targets, c, i + 1).value)
    ensures var row := AllRows(market, targets, c)[i]; Solvent(row.account) && row.equity > 0.0
  {
    RunSolvent(market, targets, c, i + 1);
    hide After;
    assert ValidCandle(market[i]);
    SolventEquity(After(market, targets, c, i + 1).value, market[i].close);
  }

  /** Selling out pays the cost of the whole position and keeps the rest. */
  lemma LiquidationSolvent(a: Account, close: real, c: Config)
    requires CostsBelowAll(c) && Solvent(a) && close > 0.0
    ensures Solvent(Liquidated(a, close, c))
    ensures Liquidated(a, close, c) != a ==> Liquidated(a, close, c).cash == Equity(a, close) - CostPaid(close, -a.quantity, c) > 0.0
  {
    if c.liquidateAtEnd && Abs(a.quantity) > c.dust {
      hide Trade, Equity, CostPaid, Times;
      var b := Trade(a, close, -a.quantity, c);
      TradeCosts(a, close, -a.quantity, c);
      CostBelowValue(close, -a.quantity, c);
      EquityIs(a, close);
      EquityIs(b, close);
      TimesOne(close);
      TimesSwap(0.0, close, 0.0);
      TimesNeg(a.quantity, close);
    }
  }

  // ---------------------------------------------------------------- causality

  /** The first `n` bars see the first `n` candles and the first `n - 1` targets, and nothing later. */
  lemma {:induction false} NoLookAhead(m1: seq<Candle>, t1: seq<real>, m2: seq<Candle>, t2: seq<real>, c: Config, n: nat)
    requires |m1| == |t1| && |m2| == |t2| && n <= |m1| && n <= |m2|
    requires m1[..n] == m2[..n] && (n > 0 ==> t1[..n - 1] == t2[..n - 1])
    ensures After(m1, t1, c, n) == After(m2, t2, c, n)
    ensures After(m1, t1, c, n).Ok? ==> FillsOf(m1, t1, c, n) == FillsOf(m2, t2, c, n)
  {
    if n > 0 {
      assert m1[..n - 1] == m1[..n][..n - 1] && m2[..n - 1] == m2[..n][..n - 1];
      if n > 1 {
        assert t1[..n - 2] == t1[..n - 1][..n - 2] && t2[..n - 2] == t2[..n - 1][..n - 2];
        assert t1[n - 2] == t1[..n - 1][n - 2] == t2[n - 2];
      }
      assert m1[n - 1] == m1[..n][n - 1] == m2[n - 1];
      hide Execute, SizeTrade, FillFor;
      NoLookAhead(m1, t1, m2, t2, c, n - 1);
    }
  }

  /** The run ends by selling what it holds. */
  predicate SellsOut(market: seq<Candle>, targets: seq<real>, c: Config)
    requires |market| == |targets|
  {
    var a := After(market, targets, c, |market|);
    c.liquidateAtEnd && a.Ok? && Abs(a.value.quantity) > c.dust
  }

  /** The account that bar `i` reports. */
  function Reported(market: seq<Candle>, targets: seq<real>, c: Config, i: nat): Account
    requires i < |market| == |targets| && After(market, targets, c, i + 1).Ok?
  {
    var a := After(market, targets, c, i + 1).value;
    if i == |market| - 1 then Liquidated(a, market[i].close, c) else a
  }

  lemma RowIs(market: seq<Candle>, targets: seq<real>, c: Config, i: nat)
    requires Outcome(market, targets, c).Ok? && i < |market|
    ensures |market| == |targets| && |Outcome(market, targets, c).value.rows| == |market| && After(market, targets, c, i + 1).Ok?
    ensures var a := Reported(market, targets, c, i);
            Outcome(market, targets, c).value.rows[i] == Row(a, market[i].close, Equity(a, market[i].close))
  {
    hide After, Liquidated, Equity, ValidMarket, ValidTargets, ValidConfig, FillsOf, FillFor;
    AcceptedShape(market, targets, c);
    LastRow(market, targets, c);
    EarlierBarsOk(market, targets, c, |market|);
  }

  lemma ReportedIs(market: seq<Candle>, targets: seq<real>, c: Config, i: nat)
    requires i < |market| == |targets| && After(market, targets, c, i + 1).Ok?
    ensures var a := After(market, targets, c, i + 1).value;
            Reported(market, targets, c, i) == if i == |market| - 1 && SellsOut(market, targets, c) then Liquidated(a, market[i].close, c) else a
  {
  }

  /** The first equity of every accepted run is its initial cash, so its drawdowns are defined. */
  lemma FirstEquity(market: seq<Candle>, targets: seq<real>, c: Config)
    requires Outcome(market, targets, c).Ok?
    ensures |Outcome(market, targets, c).value.rows| > 0
    ensures Outcome(market, targets, c).value.rows[0].equity == c.initialCash > 0.0
  {
    RowIs(market, targets, c, 0);
    assert After(market, targets, c, 1) == Ok(Account(c.initialCash, 0.0)) by { assert After(market, targets, c, 0).Ok?; }
  }

  /**
  The reports of two runs agree on every bar whose past agrees, unless one of the two runs, but not
  the other, ends on that bar and sells out there.
  */
  lemma ReportsAgreeOnCommonPast(m1: seq<Candle>, t1: seq<real>, m2: seq<Candle>, t2: seq<real>, c: Config, n: nat)
    requires Outcome(m1, t1, c).Ok? && Outcome(m2, t2, c).Ok? && n <= |m1| && n <= |m2|
    requires m1[..n] == m2[..n] && (n > 0 ==> t1[..n - 1] == t2[..n - 1])
    ensures |m1| == |t1| && |m2| == |t2|
    ensures |Outcome(m1, t1, c).value.rows| == |m1| && |Outcome(m2, t2, c).value.rows| == |m2|
    ensures forall i :: 0 <= i < n && ((i == |m1| - 1 && SellsOut(m1, t1, c)) <==> (i == |m2| - 1 && SellsOut(m2, t2, c))) ==>
              Outcome(m1, t1, c).value.rows[i] == Outcome(m2, t2, c).value.rows[i]
  {
    RowIs(m1, t1, c, 0);
    RowIs(m2, t2, c, 0);
    hide Outcome, SellsOut;
    forall i | 0 <= i < n && ((i == |m1| - 1 && SellsOut(m1, t1, c)) <==> (i == |m2| - 1 && SellsOut(m2, t2, c)))
      ensures Outcome(m1, t1, c).value.rows[i] == Outcome(m2, t2, c).value.rows[i]
    {
      RowsAgree(m1, t1, m2, t2, c, n, i);
    }
  }

  lemma RowsAgree(m1: seq<Candle>, t1: seq<real>, m2: seq<Candle>, t2: seq<real>, c: Config, n: nat, i: nat)
    requires Outcome(m1, t1, c).Ok? && Outcome(m2, t2, c).Ok? && i < n <= |m1| == |t1| && n <= |m2| == |t2|
    requires m1[..n] == m2[..n] && t1[..n - 1] == t2[..n - 1]
    requires (i == |m1| - 1 && SellsOut(m1, t1, c)) <==> (i == |m2| - 1 && SellsOut(m2, t2, c))
    ensures i < |Outcome(m1, t1, c).value.rows| && i < |Outcome(m2, t2, c).value.rows|
    ensures Outcome(m1, t1, c).value.rows[i] == Outcome(m2, t2, c).value.rows[i]
  {
    hide After, Outcome, Equity, Reported, Liquidated, SellsOut;
    RowIs(m1, t1, c, i);
    RowIs(m2, t2, c, i);
    ReportedIs(m1, t1, c, i);
    ReportedIs(m2, t2, c, i);
    assert m1[..i + 1] == m1[..n][..i + 1] && m2[..i + 1] == m2[..n][..i + 1];
    assert t1[..i] == t1[..n - 1][..i] && t2[..i] == t2[..n - 1][..i];
    assert m1[i] == m1[..n][i] == m2[i];
    NoLookAhead(m1, t1, m2, t2, c, i + 1);
  }

  /** The final target is never executed: it affects nothing that the run reports. */
  lemma FinalTargetIgnored(market: seq<Candle>, t1: seq<real>, t2: seq<real>, c: Config)
    requires ValidTargets(t1, |market|, c) && ValidTargets(t2, |market|, c) && market != []
    requires t1[..|market| - 1] == t2[..|market| - 1]
    ensures Outcome(market, t1, c) == Outcome(market, t2, c)
  {
    hide Execute, SizeTrade, FillFor, Liquidated, FillsOf;
    NoLookAhead(market, t1, market, t2, c, |market|);
    if After(market, t1, c, |market|).Ok? {
      EarlierBarsOk(market, t1, c, |market|);
      EarlierBarsOk(market, t2, c, |market|);
      forall i | 0 <= i < |market| ensures RowOf(market, t1, c, i) == RowOf(market, t2, c, i) {
        assert t1[..i] == t1[..|market| - 1][..i] && t2[..i] == t2[..|market| - 1][..i];
        NoLookAhead(market, t1, market, t2, c, i + 1);
      }
      assert AllRows(market, t1, c) == AllRows(market, t2, c);
    }
  }

  // ---------------------------------------------------------------- the fill journal

  /** What a journal line does to an account, from its quantity, price and fee alone. */
  function Settle(a: Account, f: Fill): Account {
    Account(a.cash - (f.change * f.price + f.fee), a.quantity + f.change)
  }

  /** The account that a journal of fills leads to. */
  function Replay(a: Account, fills: seq<Fill>): Account {
    if fills == [] then a else Settle(Replay(a, fills[..|fills| - 1]), fills[|fills| - 1])
  }

  /** Every fill records the account that the journal up to it leads to. */
  predicate Reconciles(a: Account, fills: seq<Fill>) {
    forall k :: 0 <= k < |fills| ==> fills[k].after == Replay(a, fills[..k + 1])
  }

  lemma ReplayAppend(a: Account, fills: seq<Fill>, f: Fill)
    requires Reconciles(a, fills)
    requires f.after == Settle(Replay(a, fills), f)
    ensures Replay(a, fills + [f]) == f.after && Reconciles(a, fills + [f])
  {
    hide Settle;
    assert (fills + [f])[..|fills|] == fills;
    forall k | 0 <= k < |fills| + 1 ensures (fills + [f])[k].after == Replay(a, (fills + [f])[..k + 1]) {
      if k < |fills| {
        assert (fills + [f])[..k + 1] == fills[..k + 1];
      } else {
        assert (fills + [f])[..k + 1] == fills + [f];
      }
    }
  }

  lemma FillRecords(bar: nat, reason: Reason, a: Account, price: real, change: real, c: Config)
    ensures var f := FillFor(bar, reason, a, price, change, c);
            f.after == Trade(a, price, change, c) == Settle(a, f)
            && (reason == EndLiquidation && change == -a.quantity ==> f.after.quantity == 0.0)
  {
  }

  lemma {:induction false} FillsReplay(market: seq<Candle>, targets: seq<real>, c: Config, n: nat)
    requires n <= |market| == |targets| && After(market, targets, c, n).Ok?
    ensures Replay(Account(c.initialCash, 0.0), FillsOf(market, targets, c, n)) == After(market, targets, c, n).value
    ensures Reconciles(Account(c.initialCash, 0.0), FillsOf(market, targets, c, n))
  {
    if n > 1 {
      hide Replay, Reconciles, SizeTrade, FillFor, Trade, Settle;
      FillsReplay(market, targets, c, n - 1);
      var a := After(market, targets, c, n - 1).value;
      var change := SizeTrade(a, market[n - 1].open, targets[n - 2], c).value;
      var before := FillsOf(market, targets, c, n - 1);
      if Abs(change) > c.dust {
        FillRecords(n - 1, TargetRebalance, a, market[n - 1].open, change, c);
        ReplayAppend(Account(c.initialCash, 0.0), before, FillFor(n - 1, TargetRebalance, a, market[n - 1].open, change, c));
      } else {
        assert FillsOf(market, targets, c, n) == before;
      }
    } else {
      assert FillsOf(market, targets, c, n) == [];
    }
  }

  /** The journal of a report, replayed from the initial cash, reproduces every account it names and the final one. */
  lemma JournalReplays(market: seq<Candle>, targets: seq<real>, c: Config)
    requires Outcome(market, targets, c).Ok?
    ensures var r := Outcome(market, targets, c).value;
            && r.rows != [] && Reconciles(Account(c.initialCash, 0.0), r.fills)
            && Replay(Account(c.initialCash, 0.0), r.fills) == r.rows[|r.rows| - 1].account
  {
    hide Replay, Reconciles, Finish, FillFor, Settle, After, FillsOf, ValidMarket, ValidTargets, ValidConfig, Equity, FillPrice;
    AcceptedShape(market, targets, c);
    FillsReplay(market, targets, c, |market|);
    LastRow(market, targets, c);
    FinishFills(market, targets, c);
    var last, start := |market| - 1, Account(c.initialCash, 0.0);
    var a, fills := After(market, targets, c, |market|).value, FillsOf(market, targets, c, |market|);
    if c.liquidateAtEnd && Abs(a.quantity) > c.dust {
      var f := FillFor(last, EndLiquidation, a, market[last].close, -a.quantity, c);
      FillRecords(last, EndLiquidation, a, market[last].close, -a.quantity, c);
      assert f.(after := Liquidated(a, market[last].close, c)) == f;
      ReplayAppend(start, fills, f);
    }
  }

  lemma AcceptedShape(market: seq<Candle>, targets: seq<real>, c: Config)
    requires Outcome(market, targets, c).Ok?
    ensures market != [] && |market| == |targets| && After(market, targets, c, |market|).Ok?
  {
    hide After, Finish;
  }

  lemma FinishFills(market: seq<Candle>, targets: seq<real>, c: Config)
    requires market != [] && |market| == |targets| && After(market, targets, c, |market|).Ok?
    ensures var last, a, fills := |market| - 1, After(market, targets, c, |market|).value, FillsOf(market, targets, c, |market|);
            Finish(market, targets, c).fills
            == if c.liquidateAtEnd && Abs(a.quantity) > c.dust
               then fills + [FillFor(last, EndLiquidation, a, market[last].close, -a.quantity, c).(after := Liquidated(a, market[last].close, c))]
               else fills
  {
    hide After, FillsOf, FillFor, Trade, AllRows, Liquidated;
  }

  // ---------------------------------------------------------------- costs only cost

  /** The same simulation at no lower costs. */
  predicate NoCheaper(c: Config, d: Config) {
    && CostsBelowAll(c) && CostsBelowAll(d) && c.dust == d.dust
    && c.initialCash == d.initialCash && c.liquidateAtEnd == d.liquidateAtEnd
    && FeeRate(c) <= FeeRate(d) && SlippageRate(c) <= SlippageRate(d)
  }

  lemma FractionMono(buy: bool, c: Config, d: Config)
    requires NoCheaper(c, d)
    ensures CostFraction(buy, c) <= CostFraction(buy, d)
  {
    var f, s, g, t := FeeRate(c), SlippageRate(c), FeeRate(d), SlippageRate(d);
    hide Times, FeeRate, SlippageRate;
    TimesSwap(s, f, 0.0);
    TimesSwap(t, f, 0.0);
    TimesMono(s, t, f);
    TimesMono(f, g, t);
    if !buy {
      // (t - s) (1 - f) >= 0 and (g - f) (1 - t) >= 0
      TimesNonneg(1.0 - f, t - s);
      TimesLinear(1.0 - f, t, s);
      TimesSwap(1.0 - f, t, 0.0);
      TimesSwap(1.0 - f, s, 0.0);
      TimesLinear(t, 1.0, f);
      TimesLinear(s, 1.0, f);
      TimesNonneg(1.0 - t, g - f);
      TimesLinear(1.0 - t, g, f);
      TimesSwap(1.0 - t, g, 0.0);
      TimesSwap(1.0 - t, f, 0.0);
      TimesLinear(g, 1.0, t);
      TimesLinear(f, 1.0, t);
      TimesSwap(g, t, 0.0);
      TimesOne(t);
      TimesOne(s);
      TimesOne(g);
      TimesOne(f);
    }
  }

  /** Account `b` is the fraction `k` of account `a`, in cash and in quantity. */
  predicate Fraction(a: Account, b: Account, k: real) {
    0.0 < k <= 1.0 && b.cash == Times(k, a.cash) && b.quantity == Times(k, a.quantity)
  }

  lemma FractionEquity(a: Account, b: Account, k: real, price: real)
    requires Fraction(a, b, k)
    ensures Equity(b, price) == Times(k, Equity(a, price)) && Times(b.quantity, price) == Times(k, Times(a.quantity, price))
  {
    EquityIs(a, price);
    EquityIs(b, price);
    hide Times, Equity;
    TimesSwap(k, a.quantity, price);
    TimesLinear(k, a.cash, Times(a.quantity, price));
  }

  /**
  Both runs close the same gap up to the factor `k`. The dearer one pays at least `k` times the
  cost: were it less, the value it moves would be at least as large a multiple, and then the cost too.
  */
  lemma CostsScale(k: real, t: real, w: real, f: real, v: real, g: real, buy: bool)
    requires 0.0 < k <= 1.0 && 0.0 <= t <= 1.0 && w > 0.0 && v > 0.0 && 0.0 <= f <= g && (!buy ==> f < 1.0)
    requires var a, b := Times(t, Times(w, f)), Times(t, Times(v, g));
             if buy then v + b == Times(k, w + a) else v - b == Times(k, w - a)
    ensures Times(k, Times(w, f)) <= Times(v, g)
  {
    hide Times;
    var cost, dear := Times(w, f), Times(v, g);
    var gap := Times(k, cost) - dear;
    TimesLinear(k, w, Times(t, cost));
    TimesSwap(k, t, cost);
    TimesLinear(t, Times(k, cost), dear);
    if gap > 0.0 {
      // v == k w + t gap, or k w - t gap for a sale
      TimesMono(f, g, v);
      TimesSwap(v, f, 0.0);
      TimesSwap(f, k, w);
      TimesSwap(f, w, 0.0);
      ShareOf(t, gap);
      TimesLinear(f, Times(k, w), Times(t, gap));
      TimesNonneg(f, Times(t, gap));
      if !buy {
        TimesMono(Times(t, gap), gap, f);
        TimesStrict(f, 1.0, gap);
        TimesSwap(gap, f, 0.0);
        TimesOne(gap);
      }
    }
  }

  /** An execution that moves more than the threshold. */
  predicate Trades(a: Account, price: real, target: real, c: Config) {
    SizeTrade(a, price, target, c).Ok? && Abs(SizeTrade(a, price, target, c).value) > c.dust
  }

  /** The cost of the same gap closed at lower and at higher costs. */
  lemma DearerCosts(a: Account, b: Account, k: real, price: real, target: real, c: Config, d: Config)
    requires NoCheaper(c, d) && price > 0.0 && 0.0 <= target <= 1.0 && Fraction(a, b, k)
    requires Trades(a, price, target, c) && Trades(b, price, target, d)
    ensures Times(k, CostPaid(price, SizeTrade(a, price, target, c).value, c)) <= CostPaid(price, SizeTrade(b, price, target, d).value, d)
  {
    var x, y := SizeTrade(a, price, target, c).value, SizeTrade(b, price, target, d).value;
    SizedTrade(a, price, target, c);
    SizedTrade(b, price, target, d);
    GapScales(a, b, k, price, target);
    hide SizeTrade, Times, CostFraction, Numerator, Fraction;
    var n, m := Numerator(a, price, target), Numerator(b, price, target);
    var buy := x > 0.0;
    var w, v := Times(Abs(x), price), Times(Abs(y), price);
    var f, g := CostFraction(buy, c), CostFraction(buy, d);
    FractionMono(buy, c, d);
    FractionRange(buy, c);
    TimesPositive(Abs(x), price);
    TimesPositive(Abs(y), price);
    TimesSwap(Abs(x), price, f);
    TimesSwap(Abs(y), price, g);
    TimesNeg(x, price);
    TimesNeg(y, price);
    TimesNeg(k, n);
    CostsScale(k, target, w, f, v, g, buy);
  }

  lemma GapScales(a: Account, b: Account, k: real, price: real, target: real)
    requires Fraction(a, b, k)
    ensures var n, m := Numerator(a, price, target), Numerator(b, price, target);
            0.0 < k <= 1.0 && m == Times(k, n) && (m > 0.0 <==> n > 0.0) && (m == 0.0 <==> n == 0.0)
  {
  }

  /** With the exact threshold a trade happens exactly when there is a gap to close, so a fraction trades when the whole does. */
  lemma ExactThreshold(a: Account, b: Account, k: real, price: real, target: real, c: Config, d: Config)
    requires NoCheaper(c, d) && c.dust == 0.0 && price > 0.0 && 0.0 <= target <= 1.0 && Fraction(a, b, k)
    ensures Trades(a, price, target, c) <==> Trades(b, price, target, d)
  {
    hide Numerator, SizeTrade, Fraction;
    LongTargetSized(a, price, target, c);
    LongTargetSized(b, price, target, d);
    TradesIffGap(a, price, target, c);
    TradesIffGap(b, price, target, d);
    GapScales(a, b, k, price, target);
  }

  lemma TradesIffGap(a: Account, price: real, target: real, c: Config)
    requires price > 0.0 && c.dust == 0.0 && SizeTrade(a, price, target, c).Ok?
    ensures SizeTrade(a, price, target, c).value != 0.0 <==> Numerator(a, price, target) != 0.0
  {
    var n := Numerator(a, price, target);
    var den := Denominator(price, target, n > 0.0, FeeRate(c), SlippageRate(c));
    hide Numerator, Denominator;
    if n != 0.0 { DivTimes(n, den); TimesOne(den); }
  }

  /** Two accounts at the same exposure are proportional. */
  lemma SameExposureProportional(a: Account, b: Account, price: real, target: real) returns (k: real)
    requires price > 0.0 && OnTarget(a, price, target) && OnTarget(b, price, target)
    requires Equity(a, price) > 0.0 && 0.0 < Equity(b, price) <= Equity(a, price)
    ensures Fraction(a, b, k) && Equity(b, price) == Times(k, Equity(a, price))
  {
    EquityIs(a, price);
    EquityIs(b, price);
    hide Times, Equity;
    var e, f := Equity(a, price), Equity(b, price);
    k := f / e;
    DivTimes(f, e);
    TimesSwap(e, k, 0.0);
    if k > 1.0 { TimesStrict(1.0, k, e); TimesOne(e); }
    if k <= 0.0 { TimesMono(k, 0.0, e); TimesOne(e); }
    TimesSwap(target, k, e);
    TimesSwap(k, a.quantity, price);
    TimesSwap(price, b.quantity, 0.0);
    TimesSwap(price, Times(k, a.quantity), 0.0);
    TimesCancel(price, b.quantity, Times(k, a.quantity));
    TimesLinear(k, e, Times(a.quantity, price));
  }

  /** One bar at higher costs turns a fraction of the cheaper account into at most that fraction. */
  lemma ExecuteFraction(a: Account, b: Account, k: real, price: real, target: real, c: Config, d: Config) returns (l: real)
    requires NoCheaper(c, d) && price > 0.0 && 0.0 <= target <= 1.0 && Solvent(a) && Solvent(b) && Fraction(a, b, k)
    requires c.dust > 0.0 ==> (Trades(a, price, target, c) <==> Trades(b, price, target, d))
    ensures Execute(a, price, target, c).Ok? && Execute(b, price, target, d).Ok?
    ensures Fraction(Execute(a, price, target, c).value, Execute(b, price, target, d).value, l) && l <= k
  {
    hide SizeTrade, Trade, Equity, Numerator, Times, Fraction, OnTarget, CostPaid;
    LongTargetSized(a, price, target, c);
    LongTargetSized(b, price, target, d);
    if c.dust == 0.0 { ExactThreshold(a, b, k, price, target, c, d); }
    if !Trades(a, price, target, c) {
      FractionRangeOf(a, b, k);
      l := k;
    } else {
      var a', b' := Execute(a, price, target, c).value, Execute(b, price, target, d).value;
      EquityLeft(a, price, target, c);
      EquityLeft(b, price, target, d);
      LandsOnTarget(a, price, target, c);
      LandsOnTarget(b, price, target, d);
      DearerCosts(a, b, k, price, target, c, d);
      FractionEquity(a, b, k, price);
      FractionRangeOf(a, b, k);
      var x, y := SizeTrade(a, price, target, c).value, SizeTrade(b, price, target, d).value;
      TradeCosts(a, price, x, c);
      TradeCosts(b, price, y, d);
      TimesLinear(k, Equity(a, price), CostPaid(price, x, c));
      ShareOf(k, Equity(a', price));
      l := SameExposureProportional(a', b', price, target);
      if l > k {
        TimesStrict(k, l, Equity(a', price));
        TimesSwap(Equity(a', price), k, 0.0);
        TimesSwap(Equity(a', price), l, 0.0);
      }
    }
  }

  lemma FractionRangeOf(a: Account, b: Account, k: real)
    requires Fraction(a, b, k)
    ensures 0.0 < k <= 1.0
  {
  }

  /** The run trades at the open of bar `i`. */
  predicate TradesAt(market: seq<Candle>, targets: seq<real>, c: Config, i: nat)
    requires 0 < i < |market| == |targets|
  {
    var a := After(market, targets, c, i);
    a.Ok? && Trades(a.value, market[i].open, targets[i - 1], c)
  }

  /** Both runs trade at the same bars, and both or neither sell out. With the exact threshold this is nothing to ask. */
  predicate SameTrades(market: seq<Candle>, targets: seq<real>, c: Config, d: Config)
    requires |market| == |targets|
  {
    c.dust > 0.0 ==>
      && (forall i :: 0 < i < |market| ==> (TradesAt(market, targets, c, i) <==> TradesAt(market, targets, d, i)))
      && (SellsOut(market, targets, c) <==> SellsOut(market, targets, d))
  }

  lemma {:induction false} RunFraction(market: seq<Candle>, targets: seq<real>, c: Config, d: Config, n: nat) returns (k: real)
    requires NoCheaper(c, d) && ValidMarket(market) && |market| == |targets| && LongOnly(targets) && n <= |market|
    requires SameTrades(market, targets, c, d)
    ensures After(market, targets, c, n).Ok? && After(market, targets, d, n).Ok?
    ensures Fraction(After(market, targets, c, n).value, After(market, targets, d, n).value, k)
  {
    RunSolvent(market, targets, c, n);
    RunSolvent(market, targets, d, n);
    if n <= 1 {
      k := 1.0;
    } else {
      RunSolvent(market, targets, c, n - 1);
      RunSolvent(market, targets, d, n - 1);
      hide Execute, Fraction, Solvent, Trades, SellsOut;
      var j := RunFraction(market, targets, c, d, n - 1);
      assert ValidCandle(market[n - 1]);
      assert c.dust > 0.0 ==> (TradesAt(market, targets, c, n - 1) <==> TradesAt(market, targets, d, n - 1));
      k := ExecuteFraction(After(market, targets, c, n - 1).value, After(market, targets, d, n - 1).value, j,
                           market[n - 1].open, targets[n - 2], c, d);
    }
  }

  /** The proceeds of selling out fall with the costs and with the fraction held. */
  lemma LiquidationMono(a: Account, b: Account, k: real, close: real, c: Config, d: Config)
    requires NoCheaper(c, d) && Solvent(a) && Solvent(b) && Fraction(a, b, k) && close > 0.0
    requires c.dust > 0.0 && c.liquidateAtEnd ==> (Abs(a.quantity) > c.dust <==> Abs(b.quantity) > d.dust)
    ensures Equity(Liquidated(b, close, d), close) <= Equity(Liquidated(a, close, c), close)
  {
    LiquidationSolvent(a, close, c);
    LiquidationSolvent(b, close, d);
    FractionEquity(a, b, k, close);
    SolventEquity(a, close);
    QuantityZeroIff(a, b, k);
    if c.liquidateAtEnd && Abs(a.quantity) > c.dust {
      LiquidationCost(a, close, c);
      LiquidationCost(b, close, d);
      hide Times, Equity, CostPaid, Liquidated, CostFraction;
      var f, g, q := CostFraction(false, c), CostFraction(false, d), Times(a.quantity, close);
      FractionMono(false, c, d);
      // b keeps k (e - q g) <= k (e - q f) <= e - q f
      TimesSwap(k, q, g);
      TimesLinear(k, Equity(a, close), Times(q, g));
      TimesMono(f, g, q);
      TimesMono(Equity(a, close) - Times(q, g), Equity(a, close) - Times(q, f), k);
      ShareOf(k, Equity(a, close) - Times(q, f));
    } else {
      hide Times;
      ShareOf(k, Equity(a, close));
    }
  }

  lemma QuantityZeroIff(a: Account, b: Account, k: real)
    requires Fraction(a, b, k) && Solvent(a)
    ensures b.quantity > 0.0 <==> a.quantity > 0.0
    ensures b.quantity >= 0.0
  {
    hide Times;
    TimesOne(k);
    TimesNonneg(k, a.quantity);
    if a.quantity > 0.0 { TimesPositive(k, a.quantity); }
  }

  lemma LiquidationCost(a: Account, close: real, c: Config)
    requires CostsBelowAll(c) && c.liquidateAtEnd && Solvent(a) && a.quantity > c.dust && close > 0.0
    ensures Liquidated(a, close, c).quantity == 0.0
    ensures Equity(Liquidated(a, close, c), close) == Equity(a, close) - Times(Times(a.quantity, close), CostFraction(false, c)) > 0.0
  {
    LiquidationSolvent(a, close, c);
    EquityIs(Liquidated(a, close, c), close);
    hide Equity, CostFraction, Times;
    TimesSwap(a.quantity, close, CostFraction(false, c));
    TimesSwap(0.0, close, 0.0);
    TimesOne(close);
  }

  /**
  Costs only cost: on the same candles and long-or-flat targets, raising the fee, the slippage or
  both never raises the reported equity of any bar, the final one after liquidation included, as
  long as the threshold does not make the two runs trade at different bars.
  */
  lemma CostMonotone(market: seq<Candle>, targets: seq<real>, c: Config, d: Config)
    requires NoCheaper(c, d) && ValidMarket(market) && LongOnly(targets)
    requires ValidTargets(targets, |market|, c) && ValidTargets(targets, |market|, d) && SameTrades(market, targets, c, d)
    ensures Outcome(market, targets, c).Ok? && Outcome(market, targets, d).Ok?
    ensures var r, q := Outcome(market, targets, c).value.rows, Outcome(market, targets, d).value.rows;
            |r| == |q| == |market| && forall i :: 0 <= i < |market| ==> q[i].equity <= r[i].equity
  {
    hide After, Liquidated, Equity, Fraction, Finish, LongOnly, CostsBelowAll, ValidTargets, SameTrades;
    RunsAccepted(market, targets, c, d);
    var r, q := Outcome(market, targets, c).value.rows, Outcome(market, targets, d).value.rows;
    RowIs(market, targets, c, 0);
    RowIs(market, targets, d, 0);
    forall i | 0 <= i < |market| ensures q[i].equity <= r[i].equity {
      RowIs(market, targets, c, i);
      RowIs(market, targets, d, i);
      BarMonotone(market, targets, c, d, i);
    }
  }

  lemma RunsAccepted(market: seq<Candle>, targets: seq<real>, c: Config, d: Config)
    requires NoCheaper(c, d) && ValidMarket(market) && LongOnly(targets)
    requires ValidTargets(targets, |market|, c) && ValidTargets(targets, |market|, d)
    ensures market != [] && |market| == |targets|
    ensures After(market, targets, c, |market|).Ok? && Outcome(market, targets, c) == Ok(Finish(market, targets, c))
    ensures After(market, targets, d, |market|).Ok? && Outcome(market, targets, d) == Ok(Finish(market, targets, d))
  {
    hide Finish, After;
    RunSolvent(market, targets, c, |market|);
    RunSolvent(market, targets, d, |market|);
  }

  lemma LastRow(market: seq<Candle>, targets: seq<real>, c: Config)
    requires market != [] && |market| == |targets| && After(market, targets, c, |market|).Ok?
    ensures var last := |market| - 1;
            var r := Finish(market, targets, c).rows;
            && |r| == |market| && (forall i :: 0 <= i < last ==> r[i] == AllRows(market, targets, c)[i])
            && r[last].close == market[last].close
            && r[last].account == Liquidated(After(market, targets, c, |market|).value, market[last].close, c)
            && r[last].equity == Equity(Liquidated(After(market, targets, c, |market|).value, market[last].close, c), market[last].close)
  {
    hide After, FillsOf, FillFor, Trade;
    EarlierBarsOk(market, targets, c, |market|);
  }

  lemma BarMonotone(market: seq<Candle>, targets: seq<real>, c: Config, d: Config, i: nat)
    requires NoCheaper(c, d) && ValidMarket(market) && |market| == |targets| && LongOnly(targets) && i < |market|
    requires SameTrades(market, targets, c, d)
    ensures After(market, targets, c, i + 1).Ok? && After(market, targets, d, i + 1).Ok?
    ensures Equity(Reported(market, targets, d, i), market[i].close) <= Equity(Reported(market, targets, c, i), market[i].close)
  {
    RunSolvent(market, targets, c, i + 1);
    RunSolvent(market, targets, d, i + 1);
    var k := RunFraction(market, targets, c, d, i + 1);
    var a, b := After(market, targets, c, i + 1).value, After(market, targets, d, i + 1).value;
    assert ValidCandle(market[i]);
    hide After, Liquidated, Times, Equity, TradesAt;
    FractionEquity(a, b, k, market[i].close);
    SolventEquity(a, market[i].close);
    ShareOf(k, Equity(a, market[i].close));
    if i == |market| - 1 { LiquidationMono(a, b, k, market[i].close, c, d); }
  }

  // ---------------------------------------------------------------- what the threshold does to it

  /** Cash of `x`, a fee in basis points, and the threshold of the program. */
  function TinyConfig(x: real, feeBps: real): Config { Config(x, feeBps, 0.0, 1.0, false, DUST) }

  function FallingMarket(): seq<Candle> { [Candle(0, 1.0, 1.0, 1.0, 1.0), Candle(1, 1.0, 1.0, 0.5, 0.5)] }

  function AllIn(): seq<real> { [1.0, 0.0] }

  lemma TinyGap(x: real)
    ensures Numerator(Account(x, 0.0), 1.0, 1.0) == x
    ensures Denominator(1.0, 1.0, true, 0.0, 0.0) == 1.0 && Denominator(1.0, 1.0, true, 0.01, 0.0) == 1.01
  {
  }

  lemma CheapTrades(x: real)
    requires x > DUST
    ensures Execute(Account(x, 0.0), 1.0, 1.0, TinyConfig(x, 0.0)) == Ok(Account(0.0, x))
  {
    TinyGap(x);
    hide Numerator, Denominator, Trade;
    assert SizeTrade(Account(x, 0.0), 1.0, 1.0, TinyConfig(x, 0.0)) == Ok(x);
    assert Trade(Account(x, 0.0), 1.0, x, TinyConfig(x, 0.0)) == Account(0.0, x) by { TradeForFree(x); }
  }

  lemma TradeForFree(x: real)
    requires x > 0.0
    ensures Trade(Account(x, 0.0), 1.0, x, TinyConfig(x, 0.0)) == Account(0.0, x)
  {
  }

  lemma DearDoesNot(x: real)
    requires DUST < x <= 1.01 * DUST
    ensures Execute(Account(x, 0.0), 1.0, 1.0, TinyConfig(x, 100.0)) == Ok(Account(x, 0.0))
  {
    TinyGap(x);
    hide Numerator, Denominator;
    assert SizeTrade(Account(x, 0.0), 1.0, 1.0, TinyConfig(x, 100.0)) == Ok(x / 1.01);
  }

  /**
  `CostMonotone` needs its condition: with an initial cash just above the threshold only the cheaper
  run trades, the price falls by half, and the dearer run reports twice as much.
  */
  lemma ThresholdBreaksMonotonicity(x: real)
    requires DUST < x <= 1.01 * DUST
    ensures var m, c, d := FallingMarket(), TinyConfig(x, 0.0), TinyConfig(x, 100.0);
            && NoCheaper(c, d) && LongOnly(AllIn()) && Outcome(m, AllIn(), c).Ok? && Outcome(m, AllIn(), d).Ok?
            && |Outcome(m, AllIn(), c).value.rows| == |Outcome(m, AllIn(), d).value.rows| == 2
            && Outcome(m, AllIn(), c).value.rows[1].equity == 0.5 * x
            && Outcome(m, AllIn(), d).value.rows[1].equity == x
  {
    CheapTrades(x);
    DearDoesNot(x);
    TinyRun(x, 0.0, Account(0.0, x));
    TinyRun(x, 100.0, Account(x, 0.0));
    hide Outcome;
  }

  lemma TinyRun(x: real, feeBps: real, b: Account)
    requires x > DUST && feeBps >= 0.0 && Execute(Account(x, 0.0), 1.0, 1.0, TinyConfig(x, feeBps)) == Ok(b)
    ensures var r := Outcome(FallingMarket(), AllIn(), TinyConfig(x, feeBps));
            r.Ok? && |r.value.rows| == 2 && r.value.rows[1].equity == Equity(b, 0.5)
  {
    hide Execute, Equity;
    var m, t, c := FallingMarket(), AllIn(), TinyConfig(x, feeBps);
    assert After(m, t, c, 0).Ok? && After(m, t, c, 1) == Ok(Account(x, 0.0));
    assert After(m, t, c, 2) == Ok(b);
    assert Outcome(m, t, c).Ok?;
    hide Outcome, After;
    RowIs(m, t, c, 1);
  }
}
