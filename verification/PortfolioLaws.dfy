/** Cash-only execution, the fill journal, and the drawdown switch against the plain simulator. */
module PortfolioLaws {
  import opened Prelude
  import opened Reals
  import opened Portfolio

  predicate CashOnly(b: Book) {
    b.cash >= 0.0 && AllNonneg(b.quantity)
  }

  // ---------------------------------------------------------------- fills

  lemma ProceedsNonneg(amount: real, price: real, c: Costs)
    requires ValidCosts(c) && amount >= 0.0 && price > 0.0
    ensures Proceeds(amount, price, c) >= 0.0
  {
    hide Times;
    TimesNonneg(price, 1.0 - c.slippage);
    var gross := Times(amount, SellPrice(price, c));
    TimesNonneg(amount, SellPrice(price, c));
    ShareOf(c.fee, gross);
    TimesSwap(c.fee, gross, 0.0);
  }

  lemma OutlayLinear(change: real, ratio: real, price: real, c: Costs)
    ensures Outlay(Times(change, ratio), price, c) == Times(ratio, Outlay(change, price, c))
  {
    hide Times;
    var fill := BuyPrice(price, c);
    TimesSwap(change, ratio, fill);
    TimesSwap(ratio, change, fill);
    TimesSwap(ratio, Times(change, fill), c.fee);
    TimesLinear(ratio, Times(change, fill), Times(Times(change, fill), c.fee));
  }

  lemma OutlayNonneg(amount: real, price: real, c: Costs)
    requires ValidCosts(c) && amount >= 0.0 && price > 0.0
    ensures Outlay(amount, price, c) >= 0.0
  {
    hide Times;
    TimesNonneg(price, 1.0 + c.slippage);
    TimesNonneg(amount, BuyPrice(price, c));
    TimesNonneg(Times(amount, BuyPrice(price, c)), c.fee);
  }

  // ---------------------------------------------------------------- selling out

  /** What is left of a holding that is sold out: nothing, or the whole of it when it is too small to sell. */
  function Rest(held: real, dust: real): real { if held > dust then 0.0 else held }

  lemma {:induction false} SellOutKeeps(b: Book, prices: seq<real>, kind: Kind, row: nat, c: Costs, k: nat)
    requires ValidCosts(c) && k <= |b.quantity| == |prices| && AllPositive(prices) && CashOnly(b)
    ensures var r := SellOut(b, prices, kind, row, c, k);
            && CashOnly(r) && r.cash >= b.cash
            && (forall i :: 0 <= i < |prices| ==> r.quantity[i] == if i < k then Rest(b.quantity[i], c.dust) else b.quantity[i])
  {
    if k > 0 {
      SellOutKeeps(b, prices, kind, row, c, k - 1);
      var a := SellOut(b, prices, kind, row, c, k - 1);
      hide Proceeds, SellPrice, Times;
      if a.quantity[k - 1] > c.dust { ProceedsNonneg(a.quantity[k - 1], prices[k - 1], c); }
    }
  }

  /** Nothing that could be sold; with the exact threshold, nothing at all. */
  predicate Flat(quantity: seq<real>, dust: real) {
    forall i :: 0 <= i < |quantity| ==> 0.0 <= quantity[i] <= dust
  }

  lemma SellOutFlattens(b: Book, prices: seq<real>, kind: Kind, row: nat, c: Costs)
    requires ValidCosts(c) && |b.quantity| == |prices| && AllPositive(prices) && CashOnly(b)
    ensures Flat(SellOut(b, prices, kind, row, c, |prices|).quantity, c.dust)
  {
    SellOutKeeps(b, prices, kind, row, c, |prices|);
  }

  /** Selling out a flat wallet does nothing. */
  lemma {:induction false} NothingToSell(b: Book, prices: seq<real>, kind: Kind, row: nat, c: Costs, k: nat)
    requires ValidCosts(c) && k <= |b.quantity| == |prices| && Flat(b.quantity, c.dust)
    ensures SellOut(b, prices, kind, row, c, k) == b
  {
    if k > 0 { NothingToSell(b, prices, kind, row, c, k - 1); }
  }

  // ---------------------------------------------------------------- rebalancing

  lemma {:induction false} WorthNonneg(cash: real, quantity: seq<real>, prices: seq<real>, k: nat)
    requires k <= |quantity| == |prices| && cash >= 0.0 && AllNonneg(quantity) && AllPositive(prices)
    ensures Worth(cash, quantity, prices, k) >= cash
  {
    hide Times;
    if k > 0 {
      WorthNonneg(cash, quantity, prices, k - 1);
      TimesNonneg(quantity[k - 1], prices[k - 1]);
    }
  }

  lemma QuotientNonneg(x: real, y: real)
    requires x >= 0.0 && y > 0.0
    ensures x / y >= 0.0
  {
  }

  /** Wanted quantities are never negative, so no sale exceeds what is held. */
  lemma SalesCovered(b: Book, prices: seq<real>, weights: seq<real>)
    requires CashOnly(b) && |b.quantity| == |prices| == |weights| && AllPositive(prices) && AllNonneg(weights)
    ensures forall i :: 0 <= i < |prices| ==> Desired(b, prices, weights)[i] >= 0.0 && b.quantity[i] + Changes(b, prices, weights)[i] >= 0.0
  {
    hide Times;
    WorthNonneg(b.cash, b.quantity, prices, |prices|);
    forall i | 0 <= i < |prices| ensures Desired(b, prices, weights)[i] >= 0.0 {
      TimesNonneg(Worth(b.cash, b.quantity, prices, |prices|), weights[i]);
      QuotientNonneg(Times(Worth(b.cash, b.quantity, prices, |prices|), weights[i]), prices[i]);
    }
  }

  /** The sells leave each sold asset at its wanted quantity and only add cash. */
  lemma {:induction false} SellsKeep(b: Book, changes: seq<real>, prices: seq<real>, row: nat, c: Costs, k: nat)
    requires ValidCosts(c) && k <= |b.quantity| == |prices| == |changes| && AllPositive(prices) && CashOnly(b)
    requires forall i :: 0 <= i < |changes| ==> b.quantity[i] + changes[i] >= 0.0
    ensures var r := Sells(b, changes, prices, row, c, k);
            && CashOnly(r) && r.cash >= b.cash
            && (forall i :: 0 <= i < |prices| ==>
                  r.quantity[i] == if i < k && changes[i] < -c.dust then b.quantity[i] + changes[i] else b.quantity[i])
  {
    if k > 0 {
      SellsKeep(b, changes, prices, row, c, k - 1);
      hide Proceeds, SellPrice, Times;
      if changes[k - 1] < -c.dust { ProceedsNonneg(-changes[k - 1], prices[k - 1], c); }
    }
  }

  lemma {:induction false} SpendNonneg(changes: seq<real>, prices: seq<real>, c: Costs, k: nat)
    requires ValidCosts(c) && k <= |prices| == |changes| && AllPositive(prices)
    ensures Spend(changes, prices, c, k) >= 0.0
  {
    hide Outlay;
    if k > 0 {
      SpendNonneg(changes, prices, c, k - 1);
      if changes[k - 1] > c.dust { OutlayNonneg(changes[k - 1], prices[k - 1], c); }
    }
  }

  /** A wanted purchase whose share is too small to be made. */
  predicate TooSmall(change: real, ratio: real, c: Costs) {
    change > c.dust && Times(change, ratio) <= c.dust
  }

  /** What the purchases among the first `k` assets that are too small to be made would have cost. */
  function Skipped(changes: seq<real>, ratio: real, prices: seq<real>, c: Costs, k: nat): real
    requires k <= |prices| == |changes|
  {
    if k == 0 then 0.0 else
    Skipped(changes, ratio, prices, c, k - 1)
    + (if TooSmall(changes[k - 1], ratio, c) then Outlay(Times(changes[k - 1], ratio), prices[k - 1], c) else 0.0)
  }

  /** The purchases take the prorated spend but for those that are too small. */
  lemma {:induction false} BuysKeep(b: Book, changes: seq<real>, ratio: real, prices: seq<real>, row: nat, c: Costs, k: nat)
    requires ValidCosts(c) && k <= |b.quantity| == |prices| == |changes| && AllPositive(prices) && AllNonneg(b.quantity) && 0.0 <= ratio <= 1.0
    ensures Skipped(changes, ratio, prices, c, k) >= 0.0
    ensures var r := Buys(b, changes, ratio, prices, row, c, k);
            && AllNonneg(r.quantity)
            && r.cash == b.cash - Times(ratio, Spend(changes, prices, c, k)) + Skipped(changes, ratio, prices, c, k)
            && (forall i :: 0 <= i < |prices| ==>
                  r.quantity[i] == if i < k && changes[i] > c.dust && !TooSmall(changes[i], ratio, c)
                                   then b.quantity[i] + Times(changes[i], ratio) else b.quantity[i])
  {
    hide Outlay, BuyPrice, Times;
    TimesOne(ratio);
    if k > 0 {
      BuysKeep(b, changes, ratio, prices, row, c, k - 1);
      var change, price := changes[k - 1], prices[k - 1];
      TimesLinear(ratio, Spend(changes, prices, c, k - 1), Outlay(change, price, c));
      OutlayLinear(change, ratio, price, c);
      if change > c.dust {
        TimesNonneg(change, ratio);
        OutlayNonneg(Times(change, ratio), price, c);
      }
    }
  }

  /** With the exact threshold only purchases of nothing are skipped. */
  lemma {:induction false} NothingSkipped(changes: seq<real>, ratio: real, prices: seq<real>, c: Costs, k: nat)
    requires ValidCosts(c) && c.dust == 0.0 && k <= |prices| == |changes| && ratio >= 0.0
    ensures Skipped(changes, ratio, prices, c, k) == 0.0
  {
    hide Outlay, Times;
    if k > 0 {
      NothingSkipped(changes, ratio, prices, c, k - 1);
      if TooSmall(changes[k - 1], ratio, c) {
        TimesNonneg(changes[k - 1], ratio);
        NoPurchaseNoOutlay(changes[k - 1], ratio, prices[k - 1], c);
      }
    }
  }

  lemma NoPurchaseNoOutlay(change: real, ratio: real, price: real, c: Costs)
    requires Times(change, ratio) == 0.0
    ensures Outlay(Times(change, ratio), price, c) == 0.0
  {
  }

  /** The prorating factor is a share, and the prorated spend is within the cash. */
  lemma RatioAffords(cash: real, spend: real)
    requires cash >= 0.0 && spend >= 0.0
    ensures var r := Ratio(cash, spend);
            && 0.0 <= r <= 1.0 && Times(r, spend) <= cash
            && (r < 1.0 && spend > 0.0 ==> Times(r, spend) == cash)
  {
    hide Times;
    TimesOne(spend);
    if spend > 0.0 {
      var q := cash / spend;
      QuotientNonneg(cash, spend);
      DivTimes(cash, spend);
      TimesSwap(spend, q, 0.0);
      if q > 1.0 { TimesStrict(1.0, q, spend); }
    }
    TimesOne(Ratio(cash, spend));
  }

  /** Where an asset ends up: a sold one on its wanted quantity, a bought one at the common share of its want. */
  function Landed(held: real, want: real, ratio: real, c: Costs): real {
    if want - held < -c.dust then want
    else if want - held > c.dust && !TooSmall(want - held, ratio, c) then held + Times(want - held, ratio)
    else held
  }

  /**
  One rebalance: nothing is borrowed or shorted, so the wallet check passes. Every sold asset lands
  on its wanted quantity and every bought one moves by one common share of what it wants. When that
  share is below one, the cash left is exactly what the purchases that were too small would have
  cost, which is nothing with the exact threshold.
  */
  lemma RebalanceKeeps(b: Book, prices: seq<real>, weights: seq<real>, row: nat, c: Costs) returns (ratio: real)
    requires ValidCosts(c) && CashOnly(b) && |b.quantity| == |prices| == |weights| && AllPositive(prices) && AllNonneg(weights)
    ensures Rebalance(b, prices, weights, row, c) == Ok(Traded(b, prices, weights, row, c)) && CashOnly(Traded(b, prices, weights, row, c))
    ensures 0.0 <= ratio <= 1.0
    ensures var r, want := Traded(b, prices, weights, row, c), Desired(b, prices, weights);
            && (forall i :: 0 <= i < |prices| ==> r.quantity[i] == Landed(b.quantity[i], want[i], ratio, c))
            && ((exists i :: 0 <= i < |prices| && want[i] - b.quantity[i] > c.dust) && ratio < 1.0 ==>
                  r.cash == Skipped(Changes(b, prices, weights), ratio, prices, c, |prices|) && (c.dust == 0.0 ==> r.cash == 0.0))
  {
    var n, changes := |prices|, Changes(b, prices, weights);
    var sold := Sells(b, changes, prices, row, c, n);
    var spend := Spend(changes, prices, c, n);
    SalesCovered(b, prices, weights);
    SellsKeep(b, changes, prices, row, c, n);
    SpendNonneg(changes, prices, c, n);
    RatioAffords(sold.cash, spend);
    ratio := Ratio(sold.cash, spend);
    BuysKeep(sold, changes, ratio, prices, row, c, n);
    var r := Traded(b, prices, weights, row, c);
    hide Sells, Buys, Spend, Ratio, Times, Desired, Changes, Skipped, TooSmall;
    NotBreached(r);
    if c.dust == 0.0 { NothingSkipped(changes, ratio, prices, c, n); }
    if ratio < 1.0 && exists i :: 0 <= i < n && Desired(b, prices, weights)[i] - b.quantity[i] > c.dust {
      var i :| 0 <= i < n && Desired(b, prices, weights)[i] - b.quantity[i] > c.dust;
      SpendPositive(changes, prices, c, n, i);
    }
  }

  lemma NotBreached(b: Book)
    requires CashOnly(b)
    ensures !Breached(b.cash, b.quantity) && Max(b.cash, 0.0) == b.cash
  {
  }

  lemma {:induction false} SpendPositive(changes: seq<real>, prices: seq<real>, c: Costs, k: nat, i: nat)
    requires ValidCosts(c) && i < k <= |prices| == |changes| && AllPositive(prices) && changes[i] > c.dust
    ensures Spend(changes, prices, c, k) > 0.0
  {
    hide Outlay;
    if i == k - 1 {
      SpendNonneg(changes, prices, c, k - 1);
      OutlayPositive(changes[i], prices[i], c);
    } else {
      SpendPositive(changes, prices, c, k - 1, i);
      if changes[k - 1] > c.dust { OutlayNonneg(changes[k - 1], prices[k - 1], c); }
    }
  }

  lemma OutlayPositive(amount: real, price: real, c: Costs)
    requires ValidCosts(c) && amount > 0.0 && price > 0.0
    ensures Outlay(amount, price, c) > 0.0
  {
    hide Times;
    TimesPositive(price, 1.0 + c.slippage);
    TimesPositive(amount, BuyPrice(price, c));
    TimesNonneg(Times(amount, BuyPrice(price, c)), c.fee);
  }

  // ---------------------------------------------------------------- bars

  lemma BarKeeps(s: Sim, m: Market, row: nat, c: Costs, risk: bool, n: nat)
    requires ValidMarket(m, n) && ValidCosts(c) && row < |m.opens| && |s.book.quantity| == n && CashOnly(s.book)
    ensures Bar(s, m, row, c, risk, n).Ok? && CashOnly(Bar(s, m, row, c, risk, n).value.book)
  {
    hide SellOut, Rebalance, Worth, CashOnly, AllNonneg, AllPositive, Breached;
    RowIsValid(m, row, n);
    var a := s;
    if risk && s.armed && row > 0 {
      SellOutKeeps(s.book, m.opens[row], NextBarOpen, row, c, n);
      NotBreached(SellOut(s.book, m.opens[row], NextBarOpen, row, c, n));
      a := ExitAtOpen(s, m, row, c, n).value;
    }
    if row > 0 && !a.halted && !a.armed && Due(m, row) {
      RowIsValid(m, row - 1, n);
      var _ := RebalanceKeeps(a.book, m.opens[row], m.weights[row - 1], row, c);
    }
  }

  /**
  Cash and every quantity stay non-negative at every bar, for any number of assets and any
  threshold, with the switch or without it, so the wallet error cannot be raised.
  */
  lemma {:induction false} RunIsCashOnly(m: Market, c: Costs, risk: bool, n: nat, rows: nat)
    requires ValidMarket(m, n) && ValidCosts(c) && rows <= |m.opens|
    ensures Bars(m, c, risk, n, rows).Ok? && CashOnly(Bars(m, c, risk, n, rows).value.book)
  {
    hide Bar, ValidMarket;
    if rows > 0 {
      RunIsCashOnly(m, c, risk, n, rows - 1);
      BarKeeps(Bars(m, c, risk, n, rows - 1).value, m, rows - 1, c, risk, n);
    } else {
      StartIsCashOnly(m, n);
    }
  }

  lemma StartIsCashOnly(m: Market, n: nat)
    requires ValidMarket(m, n)
    ensures CashOnly(Start(m, n).book)
  {
  }

  /** Every period ends without error, cash-only, and with nothing that could still be sold. */
  lemma ReportIsCashOnly(m: Market, c: Costs, risk: bool, n: nat)
    requires ValidMarket(m, n) && ValidCosts(c)
    ensures Outcome(m, c, risk, n).Ok? && CashOnly(Outcome(m, c, risk, n).value.book)
    ensures |Outcome(m, c, risk, n).value.book.quantity| == n && Flat(Outcome(m, c, risk, n).value.book.quantity, c.dust)
  {
    RunIsCashOnly(m, c, risk, n, |m.opens|);
    OneMarkPerBar(m, c, risk, n, |m.opens|);
    hide Bars, CashOnly, Flat, Flatten;
    FlattenKeeps(Bars(m, c, risk, n, |m.opens|).value, m, c, n);
  }

  lemma FlattenKeeps(s: Sim, m: Market, c: Costs, n: nat)
    requires ValidMarket(m, n) && ValidCosts(c) && |s.book.quantity| == n && |s.equity| == |m.opens| && CashOnly(s.book)
    ensures var b := Flatten(s, m, c, n).book; CashOnly(b) && |b.quantity| == n && Flat(b.quantity, c.dust)
  {
    var last := |m.opens| - 1;
    RowIsValid(m, last, n);
    hide SellOut, ValidMarket, CashOnly, Flat;
    SellOutKeeps(s.book, m.closes[last], TerminalBarClose, last, c, n);
    SellOutFlattens(s.book, m.closes[last], TerminalBarClose, last, c);
  }

  // ---------------------------------------------------------------- the fill journal

  /** A wallet read back from the journal: each line's side, amount, price and fee, nothing else. */
  datatype Holding = Holding(cash: real, quantity: seq<real>)

  function Settle(h: Holding, f: Fill): Holding {
    if f.asset >= |h.quantity| then h else
    var gross := Times(f.amount, f.price);
    if f.sell then Holding(h.cash + (gross - f.fee), h.quantity[f.asset := h.quantity[f.asset] - f.amount])
    else Holding(h.cash - (gross + f.fee), h.quantity[f.asset := h.quantity[f.asset] + f.amount])
  }

  function Replay(h: Holding, fills: seq<Fill>): Holding {
    if fills == [] then h else Settle(Replay(h, fills[..|fills| - 1]), fills[|fills| - 1])
  }

  /** The line's recorded cash and quantity are those of the replay. */
  predicate LineAgrees(h: Holding, f: Fill) {
    f.asset < |h.quantity| && f.cashAfter == h.cash && f.quantityAfter == h.quantity[f.asset]
  }

  /** The book is what its journal says, line by line and at the end. */
  ghost predicate Journaled(start: Holding, b: Book) {
    && Replay(start, b.fills) == Holding(b.cash, b.quantity)
    && forall k :: 0 <= k < |b.fills| ==> LineAgrees(Replay(start, b.fills[..k + 1]), b.fills[k])
  }

  lemma JournalAppend(start: Holding, b: Book, r: Book, f: Fill)
    requires Journaled(start, b) && r.fills == b.fills + [f]
    requires Settle(Holding(b.cash, b.quantity), f) == Holding(r.cash, r.quantity) && LineAgrees(Holding(r.cash, r.quantity), f)
    ensures Journaled(start, r)
  {
    hide Settle, LineAgrees;
    assert r.fills[..|b.fills|] == b.fills;
    forall k | 0 <= k < |r.fills| ensures LineAgrees(Replay(start, r.fills[..k + 1]), r.fills[k]) {
      if k < |b.fills| {
        assert r.fills[..k + 1] == b.fills[..k + 1];
      } else {
        assert r.fills[..k + 1] == r.fills;
      }
    }
  }

  lemma SellJournaled(start: Holding, b: Book, i: nat, amount: real, price: real, kind: Kind, row: nat, c: Costs)
    requires Journaled(start, b) && i < |b.quantity|
    ensures Journaled(start, Sell(b, i, amount, price, kind, row, c))
  {
    hide Times, SellPrice, Journaled;
    var r := Sell(b, i, amount, price, kind, row, c);
    JournalAppend(start, b, r, r.fills[|b.fills|]);
  }

  lemma BuyJournaled(start: Holding, b: Book, i: nat, amount: real, price: real, row: nat, c: Costs)
    requires Journaled(start, b) && i < |b.quantity|
    ensures Journaled(start, Buy(b, i, amount, price, row, c))
  {
    hide Times, BuyPrice, Journaled;
    var r := Buy(b, i, amount, price, row, c);
    JournalAppend(start, b, r, r.fills[|b.fills|]);
  }

  lemma {:induction false} SellOutJournaled(start: Holding, b: Book, prices: seq<real>, kind: Kind, row: nat, c: Costs, k: nat)
    requires k <= |b.quantity| == |prices| && Journaled(start, b)
    ensures Journaled(start, SellOut(b, prices, kind, row, c, k))
  {
    hide Journaled, Sell;
    if k > 0 {
      SellOutJournaled(start, b, prices, kind, row, c, k - 1);
      var a := SellOut(b, prices, kind, row, c, k - 1);
      SellJournaled(start, a, k - 1, a.quantity[k - 1], prices[k - 1], kind, row, c);
    }
  }

  lemma {:induction false} SellsJournaled(start: Holding, b: Book, changes: seq<real>, prices: seq<real>, row: nat, c: Costs, k: nat)
    requires k <= |b.quantity| == |prices| == |changes| && Journaled(start, b)
    ensures Journaled(start, Sells(b, changes, prices, row, c, k))
  {
    hide Journaled, Sell;
    if k > 0 {
      SellsJournaled(start, b, changes, prices, row, c, k - 1);
      SellJournaled(start, Sells(b, changes, prices, row, c, k - 1), k - 1, -changes[k - 1], prices[k - 1], NextBarOpen, row, c);
    }
  }

  lemma {:induction false} BuysJournaled(start: Holding, b: Book, changes: seq<real>, ratio: real, prices: seq<real>, row: nat, c: Costs, k: nat)
    requires k <= |b.quantity| == |prices| == |changes| && Journaled(start, b)
    ensures Journaled(start, Buys(b, changes, ratio, prices, row, c, k))
  {
    hide Journaled, Buy, Times;
    if k > 0 {
      BuysJournaled(start, b, changes, ratio, prices, row, c, k - 1);
      BuyJournaled(start, Buys(b, changes, ratio, prices, row, c, k - 1), k - 1, Times(changes[k - 1], ratio), prices[k - 1], row, c);
    }
  }

  lemma BarJournaled(start: Holding, s: Sim, m: Market, row: nat, c: Costs, risk: bool, n: nat)
    requires ValidMarket(m, n) && ValidCosts(c) && row < |m.opens| && |s.book.quantity| == n && CashOnly(s.book) && Journaled(start, s.book)
    ensures Bar(s, m, row, c, risk, n).Ok? && Journaled(start, Bar(s, m, row, c, risk, n).value.book)
  {
    hide SellOut, Rebalance, Worth, CashOnly, AllNonneg, AllPositive, Breached, Journaled;
    BarKeeps(s, m, row, c, risk, n);
    RowIsValid(m, row, n);
    var a := s;
    if risk && s.armed && row > 0 {
      SellOutKeeps(s.book, m.opens[row], NextBarOpen, row, c, n);
      SellOutJournaled(start, s.book, m.opens[row], NextBarOpen, row, c, n);
      a := ExitAtOpen(s, m, row, c, n).value;
    }
    if row > 0 && !a.halted && !a.armed && Due(m, row) {
      RowIsValid(m, row - 1, n);
      var _ := RebalanceKeeps(a.book, m.opens[row], m.weights[row - 1], row, c);
      TradedJournaled(start, a.book, m.opens[row], m.weights[row - 1], row, c);
    }
  }

  lemma TradedJournaled(start: Holding, b: Book, prices: seq<real>, weights: seq<real>, row: nat, c: Costs)
    requires |b.quantity| == |prices| == |weights| && AllPositive(prices) && Journaled(start, b)
    ensures Journaled(start, Traded(b, prices, weights, row, c))
  {
    hide Journaled, Sells, Buys, Spend, Changes;
    var n, changes := |prices|, Changes(b, prices, weights);
    var sold := Sells(b, changes, prices, row, c, n);
    SellsJournaled(start, b, changes, prices, row, c, n);
    BuysJournaled(start, sold, changes, Ratio(sold.cash, Spend(changes, prices, c, n)), prices, row, c, n);
  }

  lemma {:induction false} RunJournaled(m: Market, c: Costs, risk: bool, n: nat, rows: nat)
    requires ValidMarket(m, n) && ValidCosts(c) && rows <= |m.opens|
    ensures Bars(m, c, risk, n, rows).Ok?
    ensures Journaled(Holding(m.initialCash, seq(n, _ => 0.0)), Bars(m, c, risk, n, rows).value.book)
  {
    hide Bar, ValidMarket;
    RunIsCashOnly(m, c, risk, n, rows);
    if rows > 0 {
      RunIsCashOnly(m, c, risk, n, rows - 1);
      RunJournaled(m, c, risk, n, rows - 1);
      BarJournaled(Holding(m.initialCash, seq(n, _ => 0.0)), Bars(m, c, risk, n, rows - 1).value, m, rows - 1, c, risk, n);
    }
  }

  /** Replaying the journal from the initial cash reproduces every recorded cash and quantity and the terminal wallet. */
  lemma ReportJournaled(m: Market, c: Costs, risk: bool, n: nat)
    requires ValidMarket(m, n) && ValidCosts(c)
    ensures Outcome(m, c, risk, n).Ok?
    ensures Journaled(Holding(m.initialCash, seq(n, _ => 0.0)), Outcome(m, c, risk, n).value.book)
  {
    RunJournaled(m, c, risk, n, |m.opens|);
    OneMarkPerBar(m, c, risk, n, |m.opens|);
    hide SellOut, Bars, Journaled;
    FlattenJournaled(Holding(m.initialCash, seq(n, _ => 0.0)), Bars(m, c, risk, n, |m.opens|).value, m, c, n);
  }

  lemma FlattenJournaled(start: Holding, s: Sim, m: Market, c: Costs, n: nat)
    requires ValidMarket(m, n) && |s.book.quantity| == n && |s.equity| == |m.opens| && Journaled(start, s.book)
    ensures Journaled(start, Flatten(s, m, c, n).book)
  {
    hide SellOut, Journaled;
    var last := |m.opens| - 1;
    RowIsValid(m, last, n);
    SellOutJournaled(start, s.book, m.closes[last], TerminalBarClose, last, c, n);
  }

  // ---------------------------------------------------------------- the drawdown switch

  /** The highest of the initial cash and the plain run's first `k` marks. */
  function PlainPeak(m: Market, c: Costs, n: nat, k: nat): real
    requires ValidMarket(m, n) && ValidCosts(c) && k <= |m.opens|
  {
    if k == 0 then m.initialCash else
    RunIsCashOnly(m, c, false, n, k);
    OneMarkPerBar(m, c, false, n, k);
    Max(PlainPeak(m, c, n, k - 1), Bars(m, c, false, n, k).value.equity[k - 1])
  }

  /** The plain run's close of `row` is at or below 80 % of its highest close so far. */
  predicate Triggers(m: Market, c: Costs, n: nat, row: nat)
    requires ValidMarket(m, n) && ValidCosts(c) && row < |m.opens|
  {
    RunIsCashOnly(m, c, false, n, row + 1);
    OneMarkPerBar(m, c, false, n, row + 1);
    Bars(m, c, false, n, row + 1).value.equity[row] <= PlainPeak(m, c, n, row + 1) * KEEP_FRACTION
  }

  /** While the switch has not fired, one bar of both runs does the same; the switch only watches. */
  lemma SameBar(r: Sim, p: Sim, m: Market, row: nat, c: Costs, n: nat)
    requires ValidMarket(m, n) && row < |m.opens| && |r.book.quantity| == n && r.book == p.book && r.equity == p.equity
    requires !r.armed && !r.halted && !p.armed && !p.halted && Bar(p, m, row, c, false, n).Ok?
    ensures Bar(r, m, row, c, true, n).Ok?
    ensures var s, q := Bar(r, m, row, c, true, n).value, Bar(p, m, row, c, false, n).value;
            && s.book == q.book && s.equity == q.equity && |q.equity| == |p.equity| + 1
            && !q.armed && !q.halted && !s.halted
            && s.peak == Max(r.peak, q.equity[|p.equity|])
            && (s.armed <==> q.equity[|p.equity|] <= s.peak * KEEP_FRACTION)
  {
    RowIsValid(m, row, n);
    hide Rebalance, Worth, ValidMarket, Due;
  }

  /** Up to and including the first trigger the switched run is the plain run. */
  lemma {:induction false} SameUntilTrigger(m: Market, c: Costs, n: nat, rows: nat)
    requires ValidMarket(m, n) && ValidCosts(c) && rows <= |m.opens|
    requires forall k :: 0 <= k < rows - 1 ==> !Triggers(m, c, n, k)
    ensures Bars(m, c, true, n, rows).Ok? && Bars(m, c, false, n, rows).Ok?
    ensures var r, p := Bars(m, c, true, n, rows).value, Bars(m, c, false, n, rows).value;
            && r.book == p.book && r.equity == p.equity && r.peak == PlainPeak(m, c, n, rows) && !r.halted
            && (r.armed <==> rows > 0 && Triggers(m, c, n, rows - 1))
            && !p.armed && !p.halted
  {
    hide Bar, Bars, ValidMarket, ValidCosts, CashOnly, Triggers, PlainPeak;
    RunIsCashOnly(m, c, true, n, rows);
    RunIsCashOnly(m, c, false, n, rows);
    if rows == 0 {
      BothStart(m, c, n);
    } else {
      PlainRow(m, c, n, rows - 1);
      SameUntilTrigger(m, c, n, rows - 1);
      NextBar(m, c, true, n, rows);
      NextBar(m, c, false, n, rows);
      SameBar(Bars(m, c, true, n, rows - 1).value, Bars(m, c, false, n, rows - 1).value, m, rows - 1, c, n);
    }
  }

  lemma BothStart(m: Market, c: Costs, n: nat)
    requires ValidMarket(m, n) && ValidCosts(c)
    ensures Bars(m, c, true, n, 0) == Bars(m, c, false, n, 0) == Ok(Start(m, n)) && PlainPeak(m, c, n, 0) == Start(m, n).peak
  {
  }

  /** The plain run's marks: the peak so far and the trigger read the mark of the row. */
  lemma PlainRow(m: Market, c: Costs, n: nat, row: nat)
    requires ValidMarket(m, n) && ValidCosts(c) && row < |m.opens|
    ensures Bars(m, c, false, n, row).Ok? && |Bars(m, c, false, n, row).value.equity| == row
    ensures Bars(m, c, false, n, row + 1).Ok? && |Bars(m, c, false, n, row + 1).value.equity| == row + 1
    ensures var mark := Bars(m, c, false, n, row + 1).value.equity[row];
            && PlainPeak(m, c, n, row + 1) == Max(PlainPeak(m, c, n, row), mark)
            && (Triggers(m, c, n, row) <==> mark <= PlainPeak(m, c, n, row + 1) * KEEP_FRACTION)
  {
    RunIsCashOnly(m, c, false, n, row);
    RunIsCashOnly(m, c, false, n, row + 1);
    OneMarkPerBar(m, c, false, n, row);
    OneMarkPerBar(m, c, false, n, row + 1);
    hide Bars, ValidMarket, CashOnly;
  }

  /** The wallet right after the exit that follows a trigger at `row`. */
  function Exited(m: Market, c: Costs, n: nat, row: nat): Book
    requires ValidMarket(m, n) && ValidCosts(c) && row + 1 < |m.opens|
  {
    RunIsCashOnly(m, c, false, n, row + 1);
    RowIsValid(m, row + 1, n);
    SellOut(Bars(m, c, false, n, row + 1).value.book, m.opens[row + 1], NextBarOpen, row + 1, c, n)
  }

  /** A flat wallet is worth its cash and at most the threshold of every asset. */
  lemma {:induction false} FlatIsCash(cash: real, quantity: seq<real>, prices: seq<real>, dust: real, k: nat)
    requires k <= |quantity| == |prices| && Flat(quantity, dust) && AllPositive(prices)
    ensures cash <= Worth(cash, quantity, prices, k) <= cash + Times(dust, Sum(prices[..k]))
  {
    hide Times;
    TimesOne(dust);
    if k > 0 {
      FlatIsCash(cash, quantity, prices, dust, k - 1);
      TimesNonneg(quantity[k - 1], prices[k - 1]);
      TimesMono(quantity[k - 1], dust, prices[k - 1]);
      TimesSwap(quantity[k - 1], prices[k - 1], 0.0);
      TimesSwap(dust, prices[k - 1], 0.0);
      TimesLinear(dust, Sum(prices[..k - 1]), prices[k - 1]);
      assert prices[..k][..k - 1] == prices[..k - 1];
    }
  }

  /** The marks of a wallet that no longer changes, from `row` up to `rows`. */
  function Marks(m: Market, n: nat, out: Book, row: nat, rows: nat): (r: seq<real>)
    requires ValidMarket(m, n) && |out.quantity| == n && row <= rows <= |m.opens|
    ensures |r| == rows - row
    decreases rows
  {
    if row == rows then [] else
    RowIsValid(m, rows - 1, n);
    Marks(m, n, out, row, rows - 1) + [Worth(out.cash, out.quantity, m.closes[rows - 1], n)]
  }

  lemma ExitBar(m: Market, c: Costs, n: nat, row: nat)
    requires ValidMarket(m, n) && ValidCosts(c) && row + 1 < |m.opens|
    requires Triggers(m, c, n, row) && forall k :: 0 <= k < row ==> !Triggers(m, c, n, k)
    ensures Bars(m, c, true, n, row + 2).Ok? && Bars(m, c, false, n, row + 1).Ok?
    ensures |Exited(m, c, n, row).quantity| == n && Flat(Exited(m, c, n, row).quantity, c.dust)
    ensures var r := Bars(m, c, true, n, row + 2).value;
            && r.book == Exited(m, c, n, row) && r.halted && !r.armed
            && r.equity == Bars(m, c, false, n, row + 1).value.equity + Marks(m, n, Exited(m, c, n, row), row + 1, row + 2)
  {
    hide ValidMarket, ValidCosts, Bar, Triggers, Flat, Worth, CashOnly, Bars, Marks;
    SameUntilTrigger(m, c, n, row + 1);
    RunIsCashOnly(m, c, true, n, row + 2);
    ExitedFlat(m, c, n, row);
    var s, out := Bars(m, c, true, n, row + 1).value, Exited(m, c, n, row);
    NextBar(m, c, true, n, row + 2);
    ExitStep(m, c, n, row + 1, s);
    OneMoreMark(m, n, out, row + 1, row + 1);
  }

  lemma ExitedFlat(m: Market, c: Costs, n: nat, row: nat)
    requires ValidMarket(m, n) && ValidCosts(c) && row + 1 < |m.opens|
    ensures |Exited(m, c, n, row).quantity| == n && Flat(Exited(m, c, n, row).quantity, c.dust)
  {
    RunIsCashOnly(m, c, false, n, row + 1);
    RowIsValid(m, row + 1, n);
    hide SellOut, Bars, ValidMarket, CashOnly;
    SellOutFlattens(Bars(m, c, false, n, row + 1).value.book, m.opens[row + 1], NextBarOpen, row + 1, c);
  }

  lemma OneMoreMark(m: Market, n: nat, out: Book, first: nat, row: nat)
    requires ValidMarket(m, n) && |out.quantity| == n && first <= row < |m.opens|
    ensures |m.closes| == |m.opens| && |m.closes[row]| == n && Marks(m, n, out, first, first) == []
    ensures Marks(m, n, out, first, row + 1) == Marks(m, n, out, first, row) + [Worth(out.cash, out.quantity, m.closes[row], n)]
  {
    RowIsValid(m, row, n);
  }

  lemma ExitStep(m: Market, c: Costs, n: nat, row: nat, s: Sim)
    requires ValidMarket(m, n) && 0 < row < |m.opens| && |s.book.quantity| == n && s.armed && Bar(s, m, row, c, true, n).Ok?
    ensures |m.opens[row]| == |m.closes[row]| == n
    ensures var out := SellOut(s.book, m.opens[row], NextBarOpen, row, c, n);
            Bar(s, m, row, c, true, n).value
            == s.(book := out, halted := true, armed := false, equity := s.equity + [Worth(out.cash, out.quantity, m.closes[row], n)])
  {
    RowIsValid(m, row, n);
    hide SellOut, Rebalance, Worth, ValidMarket, Due;
  }

  /** After the exit the wallet never changes again, whatever the threshold left of it. */
  lemma {:induction false} HaltedForever(m: Market, c: Costs, n: nat, row: nat, rows: nat)
    requires ValidMarket(m, n) && ValidCosts(c) && row + 2 <= rows <= |m.opens|
    requires Triggers(m, c, n, row) && forall k :: 0 <= k < row ==> !Triggers(m, c, n, k)
    ensures Bars(m, c, true, n, rows).Ok? && Bars(m, c, false, n, row + 1).Ok?
    ensures |Exited(m, c, n, row).quantity| == n && Flat(Exited(m, c, n, row).quantity, c.dust)
    ensures var r, out := Bars(m, c, true, n, rows).value, Exited(m, c, n, row);
            && r.book == out && r.halted && !r.armed
            && r.equity == Bars(m, c, false, n, row + 1).value.equity + Marks(m, n, out, row + 1, rows)
  {
    hide ValidMarket, ValidCosts, CashOnly, Triggers, Bar, Bars, Exited, Marks, Flat, Worth;
    ExitBar(m, c, n, row);
    if rows > row + 2 {
      HaltedForever(m, c, n, row, rows - 1);
      NextBar(m, c, true, n, rows);
      HaltedMore(m, c, n, row + 1, rows - 1, Bars(m, c, true, n, rows - 1).value, Exited(m, c, n, row),
                 Bars(m, c, false, n, row + 1).value.equity);
    }
  }

  lemma NextBar(m: Market, c: Costs, risk: bool, n: nat, rows: nat)
    requires ValidMarket(m, n) && 0 < rows <= |m.opens| && Bars(m, c, risk, n, rows - 1).Ok?
    ensures Bars(m, c, risk, n, rows) == Bar(Bars(m, c, risk, n, rows - 1).value, m, rows - 1, c, risk, n)
  {
    hide Bar, ValidMarket;
  }

  lemma HaltedMore(m: Market, c: Costs, n: nat, first: nat, row: nat, s: Sim, out: Book, head: seq<real>)
    requires ValidMarket(m, n) && first <= row < |m.opens| && |out.quantity| == n
    requires s.book == out && s.halted && !s.armed && s.equity == head + Marks(m, n, out, first, row)
    ensures Bar(s, m, row, c, true, n) == Ok(s.(equity := head + Marks(m, n, out, first, row + 1)))
  {
    hide ValidMarket, Worth, Bar, Marks;
    HaltedStep(m, c, n, row, s);
    OneMoreMark(m, n, out, first, row);
    assert s.equity + [Worth(out.cash, out.quantity, m.closes[row], n)] == head + Marks(m, n, out, first, row + 1);
  }

  lemma HaltedStep(m: Market, c: Costs, n: nat, row: nat, s: Sim)
    requires ValidMarket(m, n) && row < |m.opens| && |s.book.quantity| == n && s.halted && !s.armed
    ensures |m.closes| == |m.opens| && |m.closes[row]| == n
    ensures Bar(s, m, row, c, true, n) == Ok(s.(equity := s.equity + [Worth(s.book.cash, s.book.quantity, m.closes[row], n)]))
  {
    RowIsValid(m, row, n);
    hide SellOut, Rebalance, Worth, ValidMarket, Due;
  }

  /** Without a trigger before the last bar, the switched report has the plain wallet and marks. */
  lemma UntriggeredRunIsPlain(m: Market, c: Costs, n: nat)
    requires ValidMarket(m, n) && ValidCosts(c) && forall k :: 0 <= k < |m.opens| - 1 ==> !Triggers(m, c, n, k)
    ensures Outcome(m, c, true, n).Ok? && Outcome(m, c, false, n).Ok?
    ensures var r, p := Outcome(m, c, true, n).value, Outcome(m, c, false, n).value;
            r.book == p.book && r.equity == p.equity
  {
    RunIsCashOnly(m, c, true, n, |m.opens|);
    RunIsCashOnly(m, c, false, n, |m.opens|);
    OneMarkPerBar(m, c, true, n, |m.opens|);
    OneMarkPerBar(m, c, false, n, |m.opens|);
    SameUntilTrigger(m, c, n, |m.opens|);
    RowIsValid(m, |m.opens| - 1, n);
    hide Bars, SellOut, Triggers;
  }

  /**
  With a first trigger at `row`, a close at or below 80 % of the highest close so far, the switched
  run has the plain marks up to and including that close, sells everything at the next open, marks
  the unchanged wallet at every later close, and reports the cash of that sale at the end.
  */
  lemma TriggeredRunExitsAtNextOpen(m: Market, c: Costs, n: nat, row: nat)
    requires ValidMarket(m, n) && ValidCosts(c) && row + 1 < |m.opens|
    requires Triggers(m, c, n, row) && forall k :: 0 <= k < row ==> !Triggers(m, c, n, k)
    ensures Outcome(m, c, true, n).Ok? && Bars(m, c, false, n, row + 1).Ok?
    ensures |Bars(m, c, false, n, row + 1).value.equity| == row + 1
    ensures |Exited(m, c, n, row).quantity| == n && Flat(Exited(m, c, n, row).quantity, c.dust)
    ensures var r, out := Outcome(m, c, true, n).value, Exited(m, c, n, row);
            && r.book == out
            && r.equity == Bars(m, c, false, n, row + 1).value.equity + Marks(m, n, out, row + 1, |m.opens| - 1) + [out.cash]
  {
    hide Bars, Bar, Flatten, Triggers, Exited, Marks, Flat;
    var rows := |m.opens|;
    HaltedForever(m, c, n, row, rows);
    OneMarkPerBar(m, c, true, n, rows);
    OneMarkPerBar(m, c, false, n, row + 1);
    FlattenNothing(Bars(m, c, true, n, rows).value, m, c, n, Exited(m, c, n, row), Bars(m, c, false, n, row + 1).value.equity, row + 1);
  }

  /** Each of these marks is the cash of the sale and at most the threshold of every asset; with the exact threshold it is that cash. */
  lemma {:induction false} MarksAreCash(m: Market, c: Costs, n: nat, out: Book, first: nat, rows: nat, k: nat)
    requires ValidMarket(m, n) && |out.quantity| == n && Flat(out.quantity, c.dust) && first <= k < rows <= |m.opens|
    ensures |m.closes| == |m.opens|
    ensures var mark := Marks(m, n, out, first, rows)[k - first];
            out.cash <= mark <= out.cash + Times(c.dust, Sum(m.closes[k])) && (c.dust == 0.0 ==> mark == out.cash)
    decreases rows
  {
    hide ValidMarket, Worth;
    if k < rows - 1 {
      MarksAreCash(m, c, n, out, first, rows - 1, k);
    } else {
      RowIsValid(m, k, n);
      hide Times;
      FlatIsCash(out.cash, out.quantity, m.closes[k], c.dust, n);
      assert m.closes[k][..n] == m.closes[k];
      TimesSwap(c.dust, Sum(m.closes[k]), 0.0);
      TimesOne(Sum(m.closes[k]));
    }
  }

  /** Ending a period with a flat wallet only replaces the last mark by the cash. */
  lemma FlattenNothing(s: Sim, m: Market, c: Costs, n: nat, out: Book, head: seq<real>, first: nat)
    requires ValidMarket(m, n) && ValidCosts(c) && |s.book.quantity| == n && |s.equity| == |m.opens|
    requires s.book == out && Flat(out.quantity, c.dust) && first < |m.opens| && s.equity == head + Marks(m, n, out, first, |m.opens|)
    ensures Flatten(s, m, c, n).book == out
    ensures Flatten(s, m, c, n).equity == head + Marks(m, n, out, first, |m.opens| - 1) + [out.cash]
  {
    hide SellOut, Flat, ValidMarket, Worth, Marks;
    NothingSold(m, c, n, out);
    var last, earlier := |m.opens| - 1, Marks(m, n, out, first, |m.opens| - 1);
    OneMoreMark(m, n, out, first, last);
    assert s.equity == head + earlier + [Worth(out.cash, out.quantity, m.closes[last], n)];
  }

  lemma NothingSold(m: Market, c: Costs, n: nat, out: Book)
    requires ValidMarket(m, n) && ValidCosts(c) && |out.quantity| == n && Flat(out.quantity, c.dust)
    ensures |m.closes[|m.opens| - 1]| == n
    ensures SellOut(out, m.closes[|m.opens| - 1], TerminalBarClose, |m.opens| - 1, c, n) == out
  {
    RowIsValid(m, |m.opens| - 1, n);
    NothingToSell(out, m.closes[|m.opens| - 1], TerminalBarClose, |m.opens| - 1, c, n);
  }
}
