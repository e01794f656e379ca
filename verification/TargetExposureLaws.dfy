/** What the target-exposure simulator promises: exact sizing, solvency, causality, and costs that only cost. */
module TargetExposureLaws {
  import opened Prelude
  import opened Reals
  import opened TargetExposure

  /** Fee and slippage are both below 100 %. */
  predicate CostsBelowAll(c: Config) {
    && ValidConfig(c) && 0.0 <= FeeRate(c) < 1.0 && 0.0 <= SlippageRate(c) < 1.0
  }

  /** Long-or-flat targets, as a spot account can hold them. */
  predicate LongOnly(targets: seq<real>) {
    forall i :: 0 <= i < |targets| ==> 0.0 <= targets[i] <= 1.0
  }

  predicate Solvent(a: Account) {
    a.cash >= 0.0 && a.quantity >= 0.0 && (a.cash > 0.0 || a.quantity > 0.0)
  }

  // ---------------------------------------------------------------- costs as fractions

  /** What a direction costs as a fraction of the traded value: the drag over the price. */
  function CostFraction(buy: bool, c: Config): real {
    var f, s := FeeRate(c), SlippageRate(c);
    if buy then s + f + Times(s, f) else s + f - Times(s, f)
  }

  lemma FractionRange(buy: bool, c: Config)
    requires CostsBelowAll(c)
    ensures CostFraction(buy, c) >= 0.0 && (!buy ==> CostFraction(buy, c) < 1.0)
  {
    hide Times;
    var f, s := FeeRate(c), SlippageRate(c);
    ShareOf(s, f);
    TimesStrict(s, 1.0, 1.0 - f);
    TimesLinear(s, 1.0, f);
    TimesSwap(s, 1.0 - f, 0.0);
    TimesOne(s);
    TimesOne(1.0 - f);
  }

  /** The drag per unit, and what a unit costs or brings in, as shares of the price. */
  lemma DragIsFraction(price: real, buy: bool, c: Config)
    ensures var fill := FillPrice(price, if buy then 1.0 else -1.0, SlippageRate(c));
            && CostDrag(price, buy, FeeRate(c), SlippageRate(c)) == Times(price, CostFraction(buy, c))
            && (buy ==> fill + Times(fill, FeeRate(c)) == price + Times(price, CostFraction(buy, c)))
            && (!buy ==> fill - Times(fill, FeeRate(c)) == price - Times(price, CostFraction(buy, c)))
  {
  }

  // ---------------------------------------------------------------- one trade

  /** The cost of a trade, at the reference price. */
  function CostPaid(price: real, change: real, c: Config): real {
    Times(Abs(change), Times(price, CostFraction(change > 0.0, c)))
  }

  lemma EquityIs(a: Account, price: real)
    ensures Equity(a, price) == a.cash + Times(a.quantity, price)
  {
  }

  lemma NumeratorIs(a: Account, price: real, target: real)
    ensures Numerator(a, price, target) == Times(target, Equity(a, price)) - Times(a.quantity, price)
  {
  }

  /** A trade moves the equity by its cost alone. */
  lemma TradeCosts(a: Account, price: real, change: real, c: Config)
    requires CostsBelowAll(c) && price > 0.0
    ensures Equity(Trade(a, price, change, c), price) == Equity(a, price) - CostPaid(price, change, c)
    ensures Trade(a, price, change, c).quantity == a.quantity + change
  {
  }

  lemma DenominatorIs(price: real, target: real, buy: bool, c: Config)
    ensures var k := Times(target, CostFraction(buy, c));
            Denominator(price, target, buy, FeeRate(c), SlippageRate(c)) == Times(price, if buy then 1.0 + k else 1.0 - k)
  {
    DragIsFraction(price, buy, c);
    var f := CostFraction(buy, c);
    assert target * (price * f) == price * (target * f);
  }

  lemma SignOfProduct(price: real, k: real)
    requires price > 0.0
    ensures Times(price, k) <= 0.0 <==> k <= 0.0
  {
    if k > 0.0 { TimesPositive(price, k); } else { TimesNonneg(price, -k); TimesNeg(price, k); }
  }

  /** Sizing fails exactly when the post-cost target cannot be attained, which no price decides. */
  lemma SizingFailsIff(a: Account, price: real, target: real, c: Config)
    requires price > 0.0
    ensures var n := Numerator(a, price, target);
            var k := Times(target, CostFraction(n > 0.0, c));
            && (SizeTrade(a, price, target, c).Err? <==> Abs(n) > c.dust && (if n > 0.0 then k <= -1.0 else k >= 1.0))
            && (SizeTrade(a, price, target, c).Err? ==> SizeTrade(a, price, target, c) == Err(BadDenominator))
  {
    hide Numerator, Denominator, CostFraction, Times;
    var n := Numerator(a, price, target);
    var k := Times(target, CostFraction(n > 0.0, c));
    DenominatorIs(price, target, n > 0.0, c);
    SignOfProduct(price, if n > 0.0 then 1.0 + k else 1.0 - k);
  }

  /** Sign and size of a sized trade: value moved plus the target share of the cost is the gap to close. */
  lemma SizedTrade(a: Account, price: real, target: real, c: Config)
    requires price > 0.0 && c.dust >= 0.0 && SizeTrade(a, price, target, c).Ok? && Abs(SizeTrade(a, price, target, c).value) > c.dust
    ensures var change, n := SizeTrade(a, price, target, c).value, Numerator(a, price, target);
            && change != 0.0 && (change > 0.0 <==> n > 0.0)
            && n == Times(change, price) + Times(target, CostPaid(price, change, c))
  {
    var change, n := SizeTrade(a, price, target, c).value, Numerator(a, price, target);
    var f := CostFraction(n > 0.0, c);
    var k := Times(target, f);
    var g := if n > 0.0 then 1.0 + k else 1.0 - k;
    var den := Times(price, g);
    DenominatorIs(price, target, n > 0.0, c);
    hide Numerator, Denominator, CostFraction, Times;
    assert den > 0.0 && change == n / den;
    DivTimes(n, den);
    TimesSwap(den, change, 0.0);
    if n > 0.0 && change <= 0.0 { TimesMono(change, 0.0, den); TimesOne(den); }
    if n <= 0.0 && change > 0.0 { TimesPositive(den, change); }
    CostShare(price, target, change, f, n > 0.0);
  }

  /** change * price * (1 ± target * f) is the value moved plus the target share of the cost. */
  lemma CostShare(price: real, target: real, change: real, f: real, buy: bool)
    requires change > 0.0 <==> buy
    ensures var k := Times(target, f);
            Times(Times(price, if buy then 1.0 + k else 1.0 - k), change)
            == Times(change, price) + Times(target, Times(Abs(change), Times(price, f)))
  {
  }

  /** After every trade the position is worth exactly the target share of the equity that is left after costs. */
  lemma LandsOnTarget(a: Account, price: real, target: real, c: Config)
    requires CostsBelowAll(c) && price > 0.0
    requires SizeTrade(a, price, target, c).Ok? && Abs(SizeTrade(a, price, target, c).value) > c.dust
    ensures OnTarget(Execute(a, price, target, c).value, price, target)
  {
    var change := SizeTrade(a, price, target, c).value;
    hide SizeTrade, Trade, Equity, Numerator, Times, CostPaid;
    var b := Trade(a, price, change, c);
    SizedTrade(a, price, target, c);
    NumeratorIs(a, price, target);
    TradeCosts(a, price, change, c);
    TimesLinear(target, Equity(a, price), CostPaid(price, change, c));
    TimesSwap(price, a.quantity + change, 0.0);
    TimesSwap(price, a.quantity, 0.0);
    TimesSwap(price, change, 0.0);
    TimesLinear(price, a.quantity, change);
  }

  /** The position is worth the target share of the equity. */
  predicate OnTarget(a: Account, price: real, target: real) {
    Times(a.quantity, price) == Times(target, Equity(a, price))
  }

  // ---------------------------------------------------------------- solvency

  /** A long-or-flat target below full cost is always attainable. */
  lemma LongTargetSized(a: Account, price: real, target: real, c: Config)
    requires CostsBelowAll(c) && price > 0.0 && 0.0 <= target <= 1.0
    ensures SizeTrade(a, price, target, c).Ok?
  {
    SizingFailsIff(a, price, target, c);
    FractionRange(true, c);
    FractionRange(false, c);
    hide SizeTrade, Numerator, CostFraction, Times;
    ShareOf(target, CostFraction(true, c));
    ShareOf(target, CostFraction(false, c));
    assert SizeTrade(a, price, target, c).Ok? || SizeTrade(a, price, target, c).Err?;
  }

  lemma SolventEquity(a: Account, price: real)
    requires Solvent(a) && price > 0.0
    ensures Equity(a, price) > 0.0 && 0.0 <= Times(a.quantity, price) <= Equity(a, price)
  {
    EquityIs(a, price);
    hide Equity, Times;
    TimesNonneg(a.quantity, price);
    if a.quantity > 0.0 { TimesPositive(a.quantity, price); }
  }

  /** The equity left after the trade's cost is positive. */
  lemma EquityLeft(a: Account, price: real, target: real, c: Config)
    requires CostsBelowAll(c) && price > 0.0 && 0.0 <= target <= 1.0 && Solvent(a)
    requires SizeTrade(a, price, target, c).Ok? && Abs(SizeTrade(a, price, target, c).value) > c.dust
    ensures Equity(Execute(a, price, target, c).value, price) > 0.0
  {
    var change, e := SizeTrade(a, price, target, c).value, Equity(a, price);
    var cost := CostPaid(price, change, c);
    hide SizeTrade, Trade, Equity, Numerator, Times, CostPaid;
    SolventEquity(a, price);
    SizedTrade(a, price, target, c);
    NumeratorIs(a, price, target);
    TradeCosts(a, price, change, c);
    CostBelowValue(price, change, c);
    TimesLinear(target, cost, e);
    if cost >= e {
      ShareOf(target, cost - e);
    }
  }

  /** A sale costs less than it brings in. */
  lemma CostBelowValue(price: real, change: real, c: Config)
    requires CostsBelowAll(c) && price > 0.0 && change != 0.0
    ensures CostPaid(price, change, c) >= 0.0
    ensures if change > 0.0 then Times(change, price) > 0.0 else CostPaid(price, change, c) < -Times(change, price)
  {
    hide Times, CostFraction;
    var k := CostFraction(change > 0.0, c);
    FractionRange(change > 0.0, c);
    TimesPositive(Abs(change), price);
    TimesSwap(Abs(change), price, k);
    TimesNonneg(Times(Abs(change), price), k);
    TimesNeg(change, price);
    if change < 0.0 {
      TimesStrict(k, 1.0, Times(Abs(change), price));
      TimesOne(Times(Abs(change), price));
    }
  }

  /** One execution keeps the account solvent and never raises the sizing error. */
  lemma ExecuteSolvent(a: Account, price: real, target: real, c: Config)
    requires CostsBelowAll(c) && price > 0.0 && 0.0 <= target <= 1.0 && Solvent(a)
    ensures Execute(a, price, target, c).Ok? && Solvent(Execute(a, price, target, c).value)
  {
    hide SizeTrade, Trade, Equity, OnTarget;
    LongTargetSized(a, price, target, c);
    if Abs(SizeTrade(a, price, target, c).value) > c.dust {
      EquityLeft(a, price, target, c);
      LandsOnTarget(a, price, target, c);
      OnTargetSolvent(Execute(a, price, target, c).value, price, target);
    }
  }

  lemma OnTargetSolvent(b: Account, price: real, target: real)
    requires price > 0.0 && 0.0 <= target <= 1.0 && Equity(b, price) > 0.0 && OnTarget(b, price, target)
    ensures Solvent(b)
  {
  }

  /** Long-or-flat runs below full cost never borrow, never go short, never lose everything and never raise. */
  lemma {:induction false} RunSolvent(market: seq<Candle>, targets: seq<real>, c: Config, n: nat)
    requires CostsBelowAll(c) && ValidMarket(market) && |market| == |targets| && LongOnly(targets) && n <= |market|
    ensures After(market, targets, c, n).Ok? && Solvent(After(market, targets, c, n).value)
  {
    hide Execute;
    if n > 0 {
      RunSolvent(market, targets, c, n - 1);
      if n > 1 {
        assert ValidCandle(market[n - 1]);
        ExecuteSolvent(After(market, targets, c, n - 1).value, market[n - 1].open, targets[n - 2], c);
      }
    }
  }
}
