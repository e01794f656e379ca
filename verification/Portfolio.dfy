/**
The spot portfolio simulator: prior-close weights traded at the next open, sells first, buys
prorated to the cash there is, and an optional drawdown switch that sells out at the next open.
*/
module Portfolio {
  import opened Prelude
  import opened Reals

  datatype Kind = NextBarOpen | TerminalBarClose

  /** A line of the fill journal. */
  datatype Fill = Fill(asset: nat, sell: bool, kind: Kind, row: nat, amount: real, price: real, fee: real, cashAfter: real, quantityAfter: real)

  /** The wallet and its journal. */
  datatype Book = Book(cash: real, quantity: seq<real>, fills: seq<Fill>)

  /** `dust` is the amount at or below which nothing is traded. */
  datatype Costs = Costs(fee: real, slippage: real, dust: real)

  /** Prices and weights of the period, one row per bar; `scheduled` marks the allocation reviews. */
  datatype Market = Market(opens: seq<seq<real>>, closes: seq<seq<real>>, weights: seq<seq<real>>, scheduled: seq<bool>, initialCash: real)

  datatype Sim = Sim(book: Book, peak: real, armed: bool, halted: bool, equity: seq<real>)

  datatype Error = InvalidInput | WalletBreached

  const CASH_TOLERANCE: real := 0.0000001
  const QUANTITY_TOLERANCE: real := 0.000000000001
  const KEEP_FRACTION: real := 0.80

  function Max(x: real, y: real): real { if x < y then y else x }

  function Min(x: real, y: real): real { if x < y then x else y }

  predicate AllPositive(xs: seq<real>) {
    forall i :: 0 <= i < |xs| ==> xs[i] > 0.0
  }

  predicate AllNonneg(xs: seq<real>) {
    forall i :: 0 <= i < |xs| ==> xs[i] >= 0.0
  }

  function Sum(xs: seq<real>): real {
    if xs == [] then 0.0 else Sum(xs[..|xs| - 1]) + xs[|xs| - 1]
  }

  predicate ValidRow(m: Market, row: nat, n: nat)
    requires row < |m.opens| && |m.closes| == |m.weights| == |m.opens|
  {
    && |m.opens[row]| == |m.closes[row]| == |m.weights[row]| == n
    && AllPositive(m.opens[row]) && AllPositive(m.closes[row]) && AllNonneg(m.weights[row])
    && Sum(m.weights[row]) <= 1.0 + 0.0000000001
  }

  predicate ValidMarket(m: Market, n: nat) {
    && 3 <= |m.opens| == |m.closes| == |m.weights| == |m.scheduled| && m.initialCash > 0.0
    && forall row :: 0 <= row < |m.opens| ==> ValidRow(m, row, n)
  }

  predicate ValidCosts(c: Costs) {
    0.0 <= c.fee < 1.0 && 0.0 <= c.slippage < 1.0 && c.dust >= 0.0
  }

  // ---------------------------------------------------------------- single fills

  function SellPrice(price: real, c: Costs): real { Times(price, 1.0 - c.slippage) }

  function BuyPrice(price: real, c: Costs): real { Times(price, 1.0 + c.slippage) }

  /** What a sale brings in and what a purchase takes out, fee included. */
  function Proceeds(amount: real, price: real, c: Costs): real {
    var gross := Times(amount, SellPrice(price, c));
    gross - Times(gross, c.fee)
  }

  function Outlay(amount: real, price: real, c: Costs): real {
    var gross := Times(amount, BuyPrice(price, c));
    gross + Times(gross, c.fee)
  }

  function Sell(b: Book, i: nat, amount: real, price: real, kind: Kind, row: nat, c: Costs): Book
    requires i < |b.quantity|
  {
    var cash, q := b.cash + Proceeds(amount, price, c), b.quantity[i] - amount;
    Book(cash, b.quantity[i := q],
         b.fills + [Fill(i, true, kind, row, amount, SellPrice(price, c), Times(Times(amount, SellPrice(price, c)), c.fee), cash, q)])
  }

  function Buy(b: Book, i: nat, amount: real, price: real, row: nat, c: Costs): Book
    requires i < |b.quantity|
  {
    var cash, q := b.cash - Outlay(amount, price, c), b.quantity[i] + amount;
    Book(cash, b.quantity[i := q],
         b.fills + [Fill(i, false, NextBarOpen, row, amount, BuyPrice(price, c), Times(Times(amount, BuyPrice(price, c)), c.fee), cash, q)])
  }

  // ---------------------------------------------------------------- selling out

  /** The first `k` assets sold out at the given prices. */
  function SellOut(b: Book, prices: seq<real>, kind: Kind, row: nat, c: Costs, k: nat): (r: Book)
    requires k <= |b.quantity| == |prices|
    ensures |r.quantity| == |b.quantity|
  {
    if k == 0 then b else
    var a := SellOut(b, prices, kind, row, c, k - 1);
    if a.quantity[k - 1] > c.dust then Sell(a, k - 1, a.quantity[k - 1], prices[k - 1], kind, row, c) else a
  }

  // ---------------------------------------------------------------- rebalancing

  function Worth(cash: real, quantity: seq<real>, prices: seq<real>, k: nat): real
    requires k <= |quantity| == |prices|
  {
    if k == 0 then cash else Worth(cash, quantity, prices, k - 1) + Times(quantity[k - 1], prices[k - 1])
  }

  /** The quantities that the weights ask for at these prices. */
  function Desired(b: Book, prices: seq<real>, weights: seq<real>): (r: seq<real>)
    requires |b.quantity| == |prices| == |weights| && AllPositive(prices)
    ensures |r| == |prices|
  {
    var equity := Worth(b.cash, b.quantity, prices, |prices|);
    seq(|prices|, i requires 0 <= i < |prices| => Times(equity, weights[i]) / prices[i])
  }

  function Changes(b: Book, prices: seq<real>, weights: seq<real>): (r: seq<real>)
    requires |b.quantity| == |prices| == |weights| && AllPositive(prices)
    ensures |r| == |prices|
    ensures forall i :: 0 <= i < |r| ==> r[i] == Desired(b, prices, weights)[i] - b.quantity[i]
  {
    seq(|prices|, i requires 0 <= i < |prices| => Desired(b, prices, weights)[i] - b.quantity[i])
  }

  /** All sells among the first `k` assets. */
  function Sells(b: Book, changes: seq<real>, prices: seq<real>, row: nat, c: Costs, k: nat): (r: Book)
    requires k <= |b.quantity| == |prices| == |changes|
    ensures |r.quantity| == |b.quantity|
  {
    if k == 0 then b else
    var a := Sells(b, changes, prices, row, c, k - 1);
    if changes[k - 1] < -c.dust then Sell(a, k - 1, -changes[k - 1], prices[k - 1], NextBarOpen, row, c) else a
  }

  /** The outlay that all wanted purchases among the first `k` assets would need. */
  function Spend(changes: seq<real>, prices: seq<real>, c: Costs, k: nat): real
    requires k <= |prices| == |changes|
  {
    if k == 0 then 0.0 else
    Spend(changes, prices, c, k - 1) + (if changes[k - 1] > c.dust then Outlay(changes[k - 1], prices[k - 1], c) else 0.0)
  }

  function Ratio(cash: real, spend: real): real {
    if spend > 0.0 then Min(1.0, Max(cash, 0.0) / spend) else 0.0
  }

  /** All prorated purchases among the first `k` assets. */
  function Buys(b: Book, changes: seq<real>, ratio: real, prices: seq<real>, row: nat, c: Costs, k: nat): (r: Book)
    requires k <= |b.quantity| == |prices| == |changes|
    ensures |r.quantity| == |b.quantity|
  {
    if k == 0 then b else
    var a := Buys(b, changes, ratio, prices, row, c, k - 1);
    if changes[k - 1] > c.dust && Times(changes[k - 1], ratio) > c.dust
    then Buy(a, k - 1, Times(changes[k - 1], ratio), prices[k - 1], row, c) else a
  }

  predicate Breached(cash: real, quantity: seq<real>) {
    cash < -CASH_TOLERANCE || exists i :: 0 <= i < |quantity| && quantity[i] < -QUANTITY_TOLERANCE
  }

  /** The wallet right after the purchases, before the breach check. */
  function Traded(b: Book, prices: seq<real>, weights: seq<real>, row: nat, c: Costs): (r: Book)
    requires |b.quantity| == |prices| == |weights| && AllPositive(prices)
    ensures |r.quantity| == |b.quantity|
  {
    var n, changes := |prices|, Changes(b, prices, weights);
    var sold := Sells(b, changes, prices, row, c, n);
    Buys(sold, changes, Ratio(sold.cash, Spend(changes, prices, c, n)), prices, row, c, n)
  }

  function Rebalance(b: Book, prices: seq<real>, weights: seq<real>, row: nat, c: Costs): (r: Result<Book, Error>)
    requires |b.quantity| == |prices| == |weights| && AllPositive(prices)
    ensures r.Ok? ==> |r.value.quantity| == |b.quantity|
  {
    var t := Traded(b, prices, weights, row, c);
    if Breached(t.cash, t.quantity) then Err(WalletBreached) else Ok(t.(cash := Max(t.cash, 0.0)))
  }

  // ---------------------------------------------------------------- bars

  /** Is an allocation executed at the open of this row? */
  predicate Due(m: Market, row: nat)
    requires 0 < row < |m.opens| && |m.weights| == |m.scheduled| == |m.opens|
  {
    row == 1 || m.weights[row - 1] != m.weights[row - 2] || m.scheduled[row - 1]
  }

  /** The forced exit at the first open after the trigger. */
  function ExitAtOpen(s: Sim, m: Market, row: nat, c: Costs, n: nat): (r: Result<Sim, Error>)
    requires ValidMarket(m, n) && row < |m.opens| && |s.book.quantity| == n
    ensures r.Ok? ==> |r.value.book.quantity| == n
  {
    if !(s.armed && row > 0) then Ok(s) else
    assert ValidRow(m, row, n);
    var out := SellOut(s.book, m.opens[row], NextBarOpen, row, c, n);
    if Breached(out.cash, out.quantity) then Err(WalletBreached) else Ok(s.(book := out, halted := true, armed := false))
  }

  function TradeAtOpen(s: Sim, m: Market, row: nat, c: Costs, n: nat): (r: Result<Sim, Error>)
    requires ValidMarket(m, n) && row < |m.opens| && |s.book.quantity| == n
    ensures r.Ok? ==> |r.value.book.quantity| == n
  {
    if !(row > 0 && !s.halted && !s.armed && Due(m, row)) then Ok(s) else
    assert ValidRow(m, row, n) && ValidRow(m, row - 1, n);
    match Rebalance(s.book, m.opens[row], m.weights[row - 1], row, c)
    case Err(e) => Err(e)
    case Ok(b) => Ok(s.(book := b))
  }

  /** Mark to market at the close, and watch the drawdown from the highest close so far. */
  function MarkAtClose(s: Sim, m: Market, row: nat, risk: bool, n: nat): Sim
    requires ValidMarket(m, n) && row < |m.opens| && |s.book.quantity| == n
  {
    assert ValidRow(m, row, n);
    var equity := Worth(s.book.cash, s.book.quantity, m.closes[row], n);
    var t := s.(equity := s.equity + [equity]);
    if !(risk && !s.halted && !s.armed) then t else
    var peak := Max(s.peak, equity);
    t.(peak := peak, armed := equity <= peak * KEEP_FRACTION)
  }

  function Bar(s: Sim, m: Market, row: nat, c: Costs, risk: bool, n: nat): (r: Result<Sim, Error>)
    requires ValidMarket(m, n) && row < |m.opens| && |s.book.quantity| == n
    ensures r.Ok? ==> |r.value.book.quantity| == n
  {
    match (if risk then ExitAtOpen(s, m, row, c, n) else Ok(s))
    case Err(e) => Err(e)
    case Ok(a) =>
      match TradeAtOpen(a, m, row, c, n)
      case Err(e) => Err(e)
      case Ok(b) => Ok(MarkAtClose(b, m, row, risk, n))
  }

  function Start(m: Market, n: nat): Sim {
    Sim(Book(m.initialCash, seq(n, _ => 0.0), []), m.initialCash, false, false, [])
  }

  /** The simulation after the first `rows` bars. */
  function Bars(m: Market, c: Costs, risk: bool, n: nat, rows: nat): (r: Result<Sim, Error>)
    requires ValidMarket(m, n) && rows <= |m.opens|
    ensures r.Ok? ==> |r.value.book.quantity| == n
  {
    if rows == 0 then Ok(Start(m, n)) else
    match Bars(m, c, risk, n, rows - 1)
    case Err(e) => Err(e)
    case Ok(s) => Bar(s, m, rows - 1, c, risk, n)
  }

  /** The period ends flat: everything is sold at the last close, and the last equity is the cash. */
  function Flatten(s: Sim, m: Market, c: Costs, n: nat): Sim
    requires ValidMarket(m, n) && |s.book.quantity| == n && |s.equity| == |m.opens|
  {
    var last := |m.opens| - 1;
    assert ValidRow(m, last, n);
    var out := SellOut(s.book, m.closes[last], TerminalBarClose, last, c, n);
    s.(book := out, equity := s.equity[last := out.cash])
  }

  lemma {:induction false} OneMarkPerBar(m: Market, c: Costs, risk: bool, n: nat, rows: nat)
    requires ValidMarket(m, n) && rows <= |m.opens|
    ensures Bars(m, c, risk, n, rows).Ok? ==> |Bars(m, c, risk, n, rows).value.equity| == rows
  {
    if rows > 0 { OneMarkPerBar(m, c, risk, n, rows - 1); }
  }

  lemma {:induction false} ErrorsLast(m: Market, c: Costs, risk: bool, n: nat, rows: nat, more: nat)
    requires ValidMarket(m, n) && rows <= more <= |m.opens| && Bars(m, c, risk, n, rows).Err?
    ensures Bars(m, c, risk, n, more) == Bars(m, c, risk, n, rows)
  {
    hide Bar;
    if rows < more { ErrorsLast(m, c, risk, n, rows, more - 1); }
  }

  function Outcome(m: Market, c: Costs, risk: bool, n: nat): Result<Sim, Error> {
    if !ValidMarket(m, n) || !ValidCosts(c) then Err(InvalidInput) else
    match Bars(m, c, risk, n, |m.opens|)
    case Err(e) => Err(e)
    case Ok(s) => OneMarkPerBar(m, c, risk, n, |m.opens|); Ok(Flatten(s, m, c, n))
  }

  // ---------------------------------------------------------------- the simulator

  method WantedSpend(changes: seq<real>, prices: seq<real>, c: Costs) returns (spend: real)
    requires |prices| == |changes|
    ensures spend == Spend(changes, prices, c, |changes|)
  {
    spend := 0.0;
    for i := 0 to |changes|
      invariant spend == Spend(changes, prices, c, i)
    {
      hide Outlay;
      if changes[i] > c.dust {
        spend := spend + Outlay(changes[i], prices[i], c);
      }
    }
  }

  /** The loops of the simulator over one quantity array; a false result is the raised wallet error. */
  class Simulator {
    var cash: real
    const quantity: array<real>
    var fills: seq<Fill>
    var peak: real
    var armed: bool
    var halted: bool
    var equity: seq<real>

    constructor (m: Market, n: nat)
      ensures Now() == Start(m, n) && fresh(quantity) && quantity.Length == n
    {
      cash, fills, peak, armed, halted, equity := m.initialCash, [], m.initialCash, false, false, [];
      quantity := new real[n](_ => 0.0);
    }

    function Wallet(): Book
      reads this, quantity
    {
      Book(cash, quantity[..], fills)
    }

    function Now(): Sim
      reads this, quantity
    {
      Sim(Wallet(), peak, armed, halted, equity)
    }

    method SellOne(i: nat, amount: real, price: real, kind: Kind, row: nat, c: Costs)
      requires i < quantity.Length
      modifies this`cash, this`fills, quantity
      ensures Wallet() == Sell(old(Wallet()), i, amount, price, kind, row, c)
    {
      hide SellPrice, Times;
      var fill := SellPrice(price, c);
      var gross := Times(amount, fill);
      var fee := Times(gross, c.fee);
      cash := cash + (gross - fee);
      quantity[i] := quantity[i] - amount;
      assert quantity[..] == old(quantity[..])[i := quantity[i]];
      fills := fills + [Fill(i, true, kind, row, amount, fill, fee, cash, quantity[i])];
    }

    method BuyOne(i: nat, amount: real, price: real, row: nat, c: Costs)
      requires i < quantity.Length
      modifies this`cash, this`fills, quantity
      ensures Wallet() == Buy(old(Wallet()), i, amount, price, row, c)
    {
      hide BuyPrice, Times;
      var fill := BuyPrice(price, c);
      var gross := Times(amount, fill);
      var fee := Times(gross, c.fee);
      cash := cash - (gross + fee);
      quantity[i] := quantity[i] + amount;
      assert quantity[..] == old(quantity[..])[i := quantity[i]];
      fills := fills + [Fill(i, false, NextBarOpen, row, amount, fill, fee, cash, quantity[i])];
    }

    method SellAll(prices: seq<real>, kind: Kind, row: nat, c: Costs)
      requires |prices| == quantity.Length
      modifies this`cash, this`fills, quantity
      ensures Wallet() == SellOut(old(Wallet()), prices, kind, row, c, |prices|)
    {
      ghost var b := Wallet();
      for i := 0 to quantity.Length
        invariant Wallet() == SellOut(b, prices, kind, row, c, i)
      {
        hide Sell;
        if quantity[i] > c.dust {
          SellOne(i, quantity[i], prices[i], kind, row, c);
        }
      }
    }

    method SellDown(changes: seq<real>, prices: seq<real>, row: nat, c: Costs)
      requires |prices| == |changes| == quantity.Length
      modifies this`cash, this`fills, quantity
      ensures Wallet() == Sells(old(Wallet()), changes, prices, row, c, |prices|)
    {
      ghost var b := Wallet();
      for i := 0 to quantity.Length
        invariant Wallet() == Sells(b, changes, prices, row, c, i)
      {
        hide Sell;
        if changes[i] < -c.dust {
          SellOne(i, -changes[i], prices[i], NextBarOpen, row, c);
        }
      }
    }

    method BuyUp(changes: seq<real>, ratio: real, prices: seq<real>, row: nat, c: Costs)
      requires |prices| == |changes| == quantity.Length
      modifies this`cash, this`fills, quantity
      ensures Wallet() == Buys(old(Wallet()), changes, ratio, prices, row, c, |prices|)
    {
      ghost var b := Wallet();
      for i := 0 to quantity.Length
        invariant Wallet() == Buys(b, changes, ratio, prices, row, c, i)
      {
        hide Buy, Times;
        if changes[i] > c.dust {
          var amount := Times(changes[i], ratio);
          if amount > c.dust {
            BuyOne(i, amount, prices[i], row, c);
          }
        }
      }
    }

    /** Releases cash from all sells, then buys what that cash affords. */
    method RebalanceAt(prices: seq<real>, weights: seq<real>, row: nat, c: Costs) returns (ok: bool)
      requires |prices| == |weights| == quantity.Length && AllPositive(prices)
      modifies this`cash, this`fills, quantity
      ensures Rebalance(old(Wallet()), prices, weights, row, c) == if ok then Ok(Wallet()) else Err(WalletBreached)
    {
      hide Changes, Sells, Spend, Ratio, Buys, Breached;
      var changes := Changes(Wallet(), prices, weights);
      SellDown(changes, prices, row, c);
      var spend := WantedSpend(changes, prices, c);
      BuyUp(changes, Ratio(cash, spend), prices, row, c);
      ok := !Breached(cash, quantity[..]);
      cash := if ok then Max(cash, 0.0) else cash;
    }

    /** The previous close armed the switch: everything is sold before any planned rebalance. */
    method ForcedExit(m: Market, row: nat, c: Costs, n: nat) returns (ok: bool)
      requires ValidMarket(m, n) && row < |m.opens| && quantity.Length == n
      modifies this, quantity
      ensures ExitAtOpen(old(Now()), m, row, c, n) == if ok then Ok(Now()) else Err(WalletBreached)
    {
      hide SellOut, Breached, ValidMarket, ValidRow;
      ok := true;
      if armed && row > 0 {
        RowIsValid(m, row, n);
        SellAll(m.opens[row], NextBarOpen, row, c);
        ok := !Breached(cash, quantity[..]);
        halted, armed := true, false;
      }
    }

    method PlannedTrade(m: Market, row: nat, c: Costs, n: nat) returns (ok: bool)
      requires ValidMarket(m, n) && row < |m.opens| && quantity.Length == n
      modifies this`cash, this`fills, quantity
      ensures TradeAtOpen(old(Now()), m, row, c, n) == if ok then Ok(Now()) else Err(WalletBreached)
    {
      hide Rebalance;
      ok := true;
      if row > 0 && !halted && !armed && Due(m, row) {
        RowIsValid(m, row, n);
        RowIsValid(m, row - 1, n);
        ok := RebalanceAt(m.opens[row], m.weights[row - 1], row, c);
      }
    }

    method CloseBar(m: Market, row: nat, risk: bool, n: nat)
      requires ValidMarket(m, n) && row < |m.opens| && quantity.Length == n
      modifies this`equity, this`peak, this`armed
      ensures Now() == MarkAtClose(old(Now()), m, row, risk, n)
    {
      hide Worth;
      RowIsValid(m, row, n);
      var value := Worth(cash, quantity[..], m.closes[row], n);
      equity := equity + [value];
      if risk && !halted && !armed {
        peak := Max(peak, value);
        armed := value <= peak * KEEP_FRACTION;
      }
    }

    method RunBar(m: Market, row: nat, c: Costs, risk: bool, n: nat) returns (ok: bool)
      requires ValidMarket(m, n) && row < |m.opens| && quantity.Length == n
      modifies this, quantity
      ensures Bar(old(Now()), m, row, c, risk, n) == if ok then Ok(Now()) else Err(WalletBreached)
    {
      hide ExitAtOpen, TradeAtOpen, MarkAtClose, ValidMarket;
      ok := true;
      if risk {
        ok := ForcedExit(m, row, c, n);
        if !ok { return; }
      }
      ok := PlannedTrade(m, row, c, n);
      if !ok { return; }
      CloseBar(m, row, risk, n);
    }

    method RunBars(m: Market, c: Costs, risk: bool, n: nat) returns (ok: bool)
      requires ValidMarket(m, n) && quantity.Length == n && Now() == Start(m, n)
      modifies this, quantity
      ensures Bars(m, c, risk, n, |m.opens|) == if ok then Ok(Now()) else Err(WalletBreached)
    {
      hide Bar, ValidMarket;
      for row := 0 to |m.opens|
        invariant Bars(m, c, risk, n, row) == Ok(Now())
      {
        ok := RunBar(m, row, c, risk, n);
        if !ok {
          ErrorsLast(m, c, risk, n, row + 1, |m.opens|);
          return;
        }
      }
      ok := true;
    }

    method Finish(m: Market, c: Costs)
      requires ValidMarket(m, quantity.Length) && |equity| == |m.opens|
      modifies this, quantity
      ensures Now() == Flatten(old(Now()), m, c, quantity.Length)
    {
      hide SellOut;
      var last := |m.opens| - 1;
      RowIsValid(m, last, quantity.Length);
      SellAll(m.closes[last], TerminalBarClose, last, c);
      equity := equity[last := cash];
    }
  }

  method ExactBacktest(m: Market, c: Costs, risk: bool, n: nat) returns (r: Result<Sim, Error>)
    ensures r == Outcome(m, c, risk, n)
  {
    if !ValidMarket(m, n) || !ValidCosts(c) {
      return Err(InvalidInput);
    }
    var sim := new Simulator(m, n);
    var ok := sim.RunBars(m, c, risk, n);
    if !ok {
      return Err(WalletBreached);
    }
    OneMarkPerBar(m, c, risk, n, |m.opens|);
    sim.Finish(m, c);
    r := Ok(sim.Now());
  }

  lemma RowIsValid(m: Market, row: nat, n: nat)
    requires ValidMarket(m, n) && row < |m.opens|
    ensures |m.opens| == |m.closes| == |m.weights| && |m.opens[row]| == |m.closes[row]| == |m.weights[row]| == n
    ensures AllPositive(m.opens[row]) && AllPositive(m.closes[row]) && AllNonneg(m.weights[row])
  {
    assert ValidRow(m, row, n);
  }
}
