/** What a portfolio run may know when it trades, when it trades, what it heads for, and what it pays. */
module PortfolioCausality {
  import opened Prelude
  import opened Reals
  import opened Portfolio
  import opened PortfolioLaws

  // ---------------------------------------------------------------- accepted inputs

  /** One positive open and close and one weight for each asset, the weights not negative and at most one together. */
  predicate FullRow(m: Market, row: nat, n: nat)
    requires row < |m.opens| && row < |m.closes| && row < |m.weights|
  {
    && |m.opens[row]| == n && |m.closes[row]| == n && |m.weights[row]| == n
    && (forall i :: 0 <= i < n ==> m.opens[row][i] > 0.0 && m.closes[row][i] > 0.0 && m.weights[row][i] >= 0.0)
    && Sum(m.weights[row]) <= 1.0000000001
  }

  /** A period is run exactly with at least three full rows, positive cash, and costs below the whole; it then always ends without an error. */
  lemma AcceptedIff(m: Market, c: Costs, risk: bool, n: nat)
    ensures Outcome(m, c, risk, n).Ok? <==>
              && |m.opens| >= 3 && |m.closes| == |m.opens| && |m.weights| == |m.opens| && |m.scheduled| == |m.opens| && m.initialCash > 0.0
              && (forall row :: 0 <= row < |m.opens| ==> FullRow(m, row, n))
              && 0.0 <= c.fee < 1.0 && 0.0 <= c.slippage < 1.0 && c.dust >= 0.0
  {
    if |m.closes| == |m.weights| == |m.opens| {
      forall row | 0 <= row < |m.opens| ensures ValidRow(m, row, n) <==> FullRow(m, row, n) {
      }
    }
    if ValidMarket(m, n) && ValidCosts(c) { ReportIsCashOnly(m, c, risk, n); }
    hide Bars, Flatten, Sum, ValidRow, FullRow;
  }

  // ---------------------------------------------------------------- no look-ahead

  /** The markets show the same prices in the first `rows` bars and the same signals in all but the last of these. */
  predicate SamePast(m: Market, w: Market, rows: nat) {
    && m.initialCash == w.initialCash && rows <= |m.opens| && rows <= |w.opens|
    && |m.closes| == |m.weights| == |m.scheduled| == |m.opens| && |w.closes| == |w.weights| == |w.scheduled| == |w.opens|
    && (forall r :: 0 <= r < rows ==> m.opens[r] == w.opens[r] && m.closes[r] == w.closes[r])
    && (forall r :: 0 <= r < rows - 1 ==> m.weights[r] == w.weights[r] && m.scheduled[r] == w.scheduled[r])
  }

  lemma SameBars(s: Sim, m: Market, w: Market, c: Costs, risk: bool, n: nat, row: nat)
    requires ValidMarket(m, n) && ValidMarket(w, n) && SamePast(m, w, row + 1) && |s.book.quantity| == n
    ensures Bar(s, m, row, c, risk, n) == Bar(s, w, row, c, risk, n)
  {
    hide SellOut, Rebalance, Worth, Breached;
    RowIsValid(m, row, n);
    RowIsValid(w, row, n);
    if row > 0 {
      RowIsValid(m, row - 1, n);
      RowIsValid(w, row - 1, n);
    }
    hide ValidMarket;
  }

  /**
  No look-ahead: with the switch or without it, the first `rows` bars depend on their prices and on
  the weights and review flags of the bars before the last of them.
  */
  lemma {:induction false} NoLookAhead(m: Market, w: Market, c: Costs, risk: bool, n: nat, rows: nat)
    requires ValidMarket(m, n) && ValidMarket(w, n) && SamePast(m, w, rows)
    ensures Bars(m, c, risk, n, rows) == Bars(w, c, risk, n, rows)
  {
    hide Bar, ValidMarket;
    if rows > 0 {
      NoLookAhead(m, w, c, risk, n, rows - 1);
      if Bars(m, c, risk, n, rows - 1).Ok? { SameBars(Bars(m, c, risk, n, rows - 1).value, m, w, c, risk, n, rows - 1); }
    }
  }

  /** The weights and the review flag of the last bar change nothing in the outcome. */
  lemma LastSignalIgnored(m: Market, w: Market, c: Costs, risk: bool, n: nat)
    requires ValidMarket(m, n) && ValidMarket(w, n) && |m.opens| == |w.opens| && SamePast(m, w, |m.opens|)
    ensures Outcome(m, c, risk, n) == Outcome(w, c, risk, n)
  {
    NoLookAhead(m, w, c, risk, n, |m.opens|);
    RowIsValid(m, |m.opens| - 1, n);
    RowIsValid(w, |w.opens| - 1, n);
    hide Bars, SellOut, ValidMarket;
  }

  // ---------------------------------------------------------------- when it trades, and what it heads for

  /** Cash and holdings at the given prices. */
  function ValueAt(cash: real, quantity: seq<real>, prices: seq<real>, k: nat): real
    requires k <= |quantity| == |prices|
  {
    if k == 0 then cash else ValueAt(cash, quantity, prices, k - 1) + quantity[k - 1] * prices[k - 1]
  }

  lemma {:induction false} WorthIs(cash: real, quantity: seq<real>, prices: seq<real>, k: nat)
    requires k <= |quantity| == |prices|
    ensures Worth(cash, quantity, prices, k) == ValueAt(cash, quantity, prices, k)
  {
    if k > 0 { WorthIs(cash, quantity, prices, k - 1); }
  }

  /** `want` at this price is the weight's share of the equity. */
  predicate Wanted(want: real, price: real, equity: real, weight: real) { want * price == equity * weight }

  /** A holding after a rebalance with the common share `ratio` of what is wanted. */
  predicate HeadsFor(held: real, after: real, want: real, ratio: real, dust: real) {
    if want < held - dust then after == want
    else if want > held + dust then after == held + ratio * (want - held) || (after == held && ratio * (want - held) <= dust)
    else after == held
  }

  /** Every holding heads for its weight of the equity at the open, all by one share of what they want. */
  ghost predicate Heads(b: Book, after: Book, prices: seq<real>, weights: seq<real>, ratio: real, dust: real) {
    && 0.0 <= ratio <= 1.0 && |b.quantity| == |after.quantity| == |prices| == |weights|
    && forall i :: 0 <= i < |prices| ==>
         Headed(b.quantity[i], after.quantity[i], prices[i], ValueAt(b.cash, b.quantity, prices, |prices|), weights[i], ratio, dust)
  }

  ghost predicate Headed(held: real, after: real, price: real, equity: real, weight: real, ratio: real, dust: real) {
    exists want :: Wanted(want, price, equity, weight) && HeadsFor(held, after, want, ratio, dust)
  }

  ghost predicate HeadsByShare(b: Book, after: Book, prices: seq<real>, weights: seq<real>, dust: real) {
    exists ratio :: Heads(b, after, prices, weights, ratio, dust)
  }

  lemma DesiredIsWanted(equity: real, weight: real, price: real)
    requires price > 0.0
    ensures Wanted(Times(equity, weight) / price, price, equity, weight)
  {
    DivTimes(Times(equity, weight), price);
  }

  lemma LandedHeads(held: real, want: real, ratio: real, c: Costs)
    ensures HeadsFor(held, Landed(held, want, ratio, c), want, ratio, c.dust)
  {
    assert Times(want - held, ratio) == ratio * (want - held);
  }

  lemma TradedHeads(b: Book, prices: seq<real>, weights: seq<real>, row: nat, c: Costs)
    requires ValidCosts(c) && CashOnly(b) && |b.quantity| == |prices| == |weights| && AllPositive(prices) && AllNonneg(weights)
    ensures Rebalance(b, prices, weights, row, c).Ok?
    ensures HeadsByShare(b, Rebalance(b, prices, weights, row, c).value, prices, weights, c.dust)
  {
    var ratio := RebalanceKeeps(b, prices, weights, row, c);
    var after := Traded(b, prices, weights, row, c);
    hide Rebalance, Traded, Wanted, HeadsFor, Landed, Times;
    WorthIs(b.cash, b.quantity, prices, |prices|);
    var equity := ValueAt(b.cash, b.quantity, prices, |prices|);
    forall i | 0 <= i < |prices| ensures Headed(b.quantity[i], after.quantity[i], prices[i], equity, weights[i], ratio, c.dust) {
      var want := Desired(b, prices, weights)[i];
      DesiredIsWanted(equity, weights[i], prices[i]);
      LandedHeads(b.quantity[i], want, ratio, c);
    }
    hide Headed, ValueAt;
    assert Heads(b, after, prices, weights, ratio, c.dust);
  }

  /** The signal of the bar before asks for a trade at the open of `row`. */
  predicate Asked(m: Market, row: nat)
    requires 0 < row < |m.opens| && |m.weights| == |m.scheduled| == |m.opens|
  {
    row == 1 || m.weights[row - 1] != m.weights[row - 2] || m.scheduled[row - 1]
  }

  /**
  At the open of a row: a forced exit sells out; otherwise a run that is halted, or is not asked by
  the bar before, keeps its book, and one that is asked heads for the weights of the bar before.
  */
  lemma TradesWhenAsked(m: Market, c: Costs, risk: bool, n: nat, row: nat)
    requires ValidMarket(m, n) && ValidCosts(c) && row < |m.opens|
    ensures |m.weights| == |m.scheduled| == |m.closes| == |m.opens| && |m.opens[row]| == |m.closes[row]| == n && (row > 0 ==> |m.weights[row - 1]| == n)
    ensures Bars(m, c, risk, n, row).Ok? && Bars(m, c, risk, n, row + 1).Ok?
    ensures var before, after := Bars(m, c, risk, n, row).value, Bars(m, c, risk, n, row + 1).value;
            && (if row > 0 && risk && before.armed then
                  after.halted && after.book == SellOut(before.book, m.opens[row], NextBarOpen, row, c, n)
                else if row == 0 || before.armed || before.halted || !Asked(m, row) then after.book == before.book
                else HeadsByShare(before.book, after.book, m.opens[row], m.weights[row - 1], c.dust))
            && after.equity == before.equity + [ValueAt(after.book.cash, after.book.quantity, m.closes[row], n)]
  {
    RunIsCashOnly(m, c, risk, n, row);
    RunIsCashOnly(m, c, risk, n, row + 1);
    RowIsValid(m, row, n);
    if row > 0 { RowIsValid(m, row - 1, n); }
    NextBar(m, c, risk, n, row + 1);
    var before := Bars(m, c, risk, n, row).value;
    if row > 0 && !before.armed && !before.halted && Asked(m, row) {
      TradedHeads(before.book, m.opens[row], m.weights[row - 1], row, c);
    }
    hide Bars, SellOut, Rebalance, Worth, ValueAt, Breached, ValidMarket, CashOnly, HeadsByShare;
    var after := Bar(before, m, row, c, risk, n).value;
    WorthIs(after.book.cash, after.book.quantity, m.closes[row], n);
  }

  /** The switch is armed by a close at or below four fifths of the highest close so far, and only while it watches. */
  lemma ArmedAtFourFifths(s: Sim, m: Market, row: nat, risk: bool, n: nat)
    requires ValidMarket(m, n) && row < |m.opens| && |s.book.quantity| == n
    ensures |m.closes| == |m.opens| && |m.closes[row]| == n
    ensures var r, equity := MarkAtClose(s, m, row, risk, n), ValueAt(s.book.cash, s.book.quantity, m.closes[row], n);
            && r.book == s.book && r.equity == s.equity + [equity] && r.halted == s.halted
            && if risk && !s.halted && !s.armed
               then r.peak == (if equity > s.peak then equity else s.peak) && (r.armed <==> 5.0 * equity <= 4.0 * r.peak)
               else r.peak == s.peak && r.armed == s.armed
  {
    RowIsValid(m, row, n);
    WorthIs(s.book.cash, s.book.quantity, m.closes[row], n);
    hide ValidMarket, Worth, ValueAt;
  }

  /** What the weights ask for is worth at most the equity, up to 1e-10 of it. */
  lemma {:induction false} WantedWithinEquity(equity: real, wants: seq<real>, prices: seq<real>, weights: seq<real>, k: nat)
    requires |wants| == |prices| == |weights| && k <= |prices|
    requires forall i :: 0 <= i < |prices| ==> Wanted(wants[i], prices[i], equity, weights[i])
    ensures ValueAt(0.0, wants, prices, k) == Times(equity, Sum(weights[..k]))
  {
    if k > 0 {
      WantedWithinEquity(equity, wants, prices, weights, k - 1);
      assert weights[..k][..k - 1] == weights[..k - 1];
    }
  }

  lemma ExposureWithinEquity(m: Market, n: nat, row: nat, equity: real, wants: seq<real>, prices: seq<real>)
    requires ValidMarket(m, n) && row < |m.opens| && |wants| == |prices| == n && equity >= 0.0
    requires |m.weights| == |m.opens| && |m.weights[row]| == n
    requires forall i :: 0 <= i < n ==> Wanted(wants[i], prices[i], equity, m.weights[row][i])
    ensures ValueAt(0.0, wants, prices, n) <= equity * (1.0 + 0.0000000001)
  {
    WantedWithinEquity(equity, wants, prices, m.weights[row], n);
    assert ValidRow(m, row, n);
    assert m.weights[row][..n] == m.weights[row];
    TimesMono(Sum(m.weights[row]), 1.0 + 0.0000000001, equity);
  }

  // ---------------------------------------------------------------- fills

  /** Sold below and bought above the reference price by the slippage, and charged the fee. */
  predicate FairFill(f: Fill, reference: real, c: Costs) {
    && f.amount > c.dust
    && f.price == (if f.sell then reference * (1.0 - c.slippage) else reference * (1.0 + c.slippage))
    && f.fee == f.amount * f.price * c.fee
  }

  /** A fill at the open of its row, or a sale at the last close. */
  predicate FillOfRun(f: Fill, m: Market, n: nat, c: Costs) {
    && |m.opens| == |m.closes| && f.row < |m.opens| && |m.opens[f.row]| == |m.closes[f.row]| == n && f.asset < n
    && match f.kind
       case NextBarOpen => f.row > 0 && FairFill(f, m.opens[f.row][f.asset], c)
       case TerminalBarClose => f.sell && f.row == |m.opens| - 1 && FairFill(f, m.closes[f.row][f.asset], c)
  }

  /** The fills that were added are fair ones at these prices. */
  ghost predicate Adds(b: Book, after: Book, prices: seq<real>, kind: Kind, row: nat, c: Costs) {
    && b.fills <= after.fills
    && forall k :: |b.fills| <= k < |after.fills| ==>
         var f := after.fills[k]; f.asset < |prices| && f.kind == kind && f.row == row && FairFill(f, prices[f.asset], c)
  }

  lemma SellIsFair(b: Book, i: nat, amount: real, price: real, kind: Kind, row: nat, c: Costs)
    requires i < |b.quantity| && amount > c.dust
    ensures var f := Sell(b, i, amount, price, kind, row, c).fills[|b.fills|];
            f.sell && f.asset == i && f.kind == kind && f.row == row && FairFill(f, price, c)
  {
  }

  lemma BuyIsFair(b: Book, i: nat, amount: real, price: real, row: nat, c: Costs)
    requires i < |b.quantity| && amount > c.dust
    ensures var f := Buy(b, i, amount, price, row, c).fills[|b.fills|];
            !f.sell && f.asset == i && f.kind == NextBarOpen && f.row == row && FairFill(f, price, c)
  {
  }

  lemma {:induction false} SellOutAdds(b: Book, prices: seq<real>, kind: Kind, row: nat, c: Costs, k: nat)
    requires k <= |b.quantity| == |prices|
    ensures var r := SellOut(b, prices, kind, row, c, k);
            Adds(b, r, prices, kind, row, c) && forall j :: |b.fills| <= j < |r.fills| ==> r.fills[j].sell
  {
    hide FairFill, Times, SellPrice;
    if k > 0 {
      SellOutAdds(b, prices, kind, row, c, k - 1);
      var a := SellOut(b, prices, kind, row, c, k - 1);
      if a.quantity[k - 1] > c.dust { SellIsFair(a, k - 1, a.quantity[k - 1], prices[k - 1], kind, row, c); }
    }
  }

  lemma {:induction false} SellsAdd(b: Book, changes: seq<real>, prices: seq<real>, row: nat, c: Costs, k: nat)
    requires k <= |b.quantity| == |prices| == |changes|
    ensures Adds(b, Sells(b, changes, prices, row, c, k), prices, NextBarOpen, row, c)
  {
    hide FairFill, Times, SellPrice;
    if k > 0 {
      SellsAdd(b, changes, prices, row, c, k - 1);
      var a := Sells(b, changes, prices, row, c, k - 1);
      if changes[k - 1] < -c.dust { SellIsFair(a, k - 1, -changes[k - 1], prices[k - 1], NextBarOpen, row, c); }
    }
  }

  lemma {:induction false} BuysAdd(b: Book, changes: seq<real>, ratio: real, prices: seq<real>, row: nat, c: Costs, k: nat)
    requires k <= |b.quantity| == |prices| == |changes|
    ensures Adds(b, Buys(b, changes, ratio, prices, row, c, k), prices, NextBarOpen, row, c)
  {
    hide FairFill, Times, BuyPrice;
    if k > 0 {
      BuysAdd(b, changes, ratio, prices, row, c, k - 1);
      var a := Buys(b, changes, ratio, prices, row, c, k - 1);
      var amount := Times(changes[k - 1], ratio);
      if changes[k - 1] > c.dust && amount > c.dust { BuyIsFair(a, k - 1, amount, prices[k - 1], row, c); }
    }
  }

  lemma TradedAdds(b: Book, prices: seq<real>, weights: seq<real>, row: nat, c: Costs)
    requires |b.quantity| == |prices| == |weights| && AllPositive(prices)
    ensures Adds(b, Traded(b, prices, weights, row, c), prices, NextBarOpen, row, c)
  {
    hide Sells, Buys, Spend, Changes, FairFill;
    var n, changes := |prices|, Changes(b, prices, weights);
    var sold := Sells(b, changes, prices, row, c, n);
    SellsAdd(b, changes, prices, row, c, n);
    BuysAdd(sold, changes, Ratio(sold.cash, Spend(changes, prices, c, n)), prices, row, c, n);
  }

  predicate FillsOfRun(fills: seq<Fill>, m: Market, n: nat, c: Costs) {
    forall k :: 0 <= k < |fills| ==> FillOfRun(fills[k], m, n, c)
  }

  lemma OpenFills(b: Book, after: Book, m: Market, n: nat, c: Costs, row: nat)
    requires ValidMarket(m, n) && 0 < row < |m.opens| && FillsOfRun(b.fills, m, n, c)
    requires |m.opens[row]| == n && Adds(b, after, m.opens[row], NextBarOpen, row, c)
    ensures FillsOfRun(after.fills, m, n, c)
  {
    RowIsValid(m, row, n);
    hide ValidMarket, FairFill;
    forall k | 0 <= k < |after.fills| ensures FillOfRun(after.fills[k], m, n, c) {
      if k < |b.fills| { assert after.fills[k] == b.fills[k]; }
    }
  }

  lemma BarFills(s: Sim, m: Market, row: nat, c: Costs, risk: bool, n: nat)
    requires ValidMarket(m, n) && ValidCosts(c) && row < |m.opens| && |s.book.quantity| == n && CashOnly(s.book)
    requires FillsOfRun(s.book.fills, m, n, c)
    ensures Bar(s, m, row, c, risk, n).Ok? && FillsOfRun(Bar(s, m, row, c, risk, n).value.book.fills, m, n, c)
  {
    hide SellOut, Rebalance, Worth, CashOnly, AllNonneg, AllPositive, Breached, FillsOfRun, Adds;
    BarKeeps(s, m, row, c, risk, n);
    RowIsValid(m, row, n);
    var a := s;
    if risk && s.armed && row > 0 {
      SellOutKeeps(s.book, m.opens[row], NextBarOpen, row, c, n);
      SellOutAdds(s.book, m.opens[row], NextBarOpen, row, c, n);
      a := ExitAtOpen(s, m, row, c, n).value;
      OpenFills(s.book, a.book, m, n, c, row);
    }
    if row > 0 && !a.halted && !a.armed && Due(m, row) {
      RowIsValid(m, row - 1, n);
      var _ := RebalanceKeeps(a.book, m.opens[row], m.weights[row - 1], row, c);
      TradedAdds(a.book, m.opens[row], m.weights[row - 1], row, c);
      OpenFills(a.book, Traded(a.book, m.opens[row], m.weights[row - 1], row, c), m, n, c, row);
    }
  }

  lemma {:induction false} RunFills(m: Market, c: Costs, risk: bool, n: nat, rows: nat)
    requires ValidMarket(m, n) && ValidCosts(c) && rows <= |m.opens|
    ensures Bars(m, c, risk, n, rows).Ok? && FillsOfRun(Bars(m, c, risk, n, rows).value.book.fills, m, n, c)
  {
    hide Bar, ValidMarket, FillOfRun, CashOnly;
    RunIsCashOnly(m, c, risk, n, rows);
    if rows > 0 {
      RunIsCashOnly(m, c, risk, n, rows - 1);
      RunFills(m, c, risk, n, rows - 1);
      BarFills(Bars(m, c, risk, n, rows - 1).value, m, rows - 1, c, risk, n);
    }
  }

  /**
  Every fill of a report: at the open of its row, or sold at the last close, on the worse side of
  that price by the slippage, with the fee on what changed hands.
  */
  lemma ReportFills(m: Market, c: Costs, risk: bool, n: nat)
    requires ValidMarket(m, n) && ValidCosts(c)
    ensures Outcome(m, c, risk, n).Ok? && FillsOfRun(Outcome(m, c, risk, n).value.book.fills, m, n, c)
  {
    RunFills(m, c, risk, n, |m.opens|);
    OneMarkPerBar(m, c, risk, n, |m.opens|);
    var last := |m.opens| - 1;
    RowIsValid(m, last, n);
    var s := Bars(m, c, risk, n, |m.opens|).value;
    SellOutAdds(s.book, m.closes[last], TerminalBarClose, last, c, n);
    var after := SellOut(s.book, m.closes[last], TerminalBarClose, last, c, n);
    hide Bars, SellOut, ValidMarket, FairFill;
    forall k | 0 <= k < |after.fills| ensures FillOfRun(after.fills[k], m, n, c) {
      if k < |s.book.fills| { assert after.fills[k] == s.book.fills[k]; }
    }
  }
}
