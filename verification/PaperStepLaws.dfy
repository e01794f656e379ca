/** Replay and conservation of the paper account over whole runs of observations. */
module PaperStepLaws {
  import opened Prelude
  import opened Reals
  import opened Derivatives
  import opened PaperStep

  // ---------------------------------------------------------------- the journal as an account

  datatype Book = Book(wallet: real, positions: seq<Pos>)

  /** An account that knows only the journal. */
  function Post(b: Book, e: Entry): (r: Book)
    ensures |r.positions| == |b.positions|
  {
    match e
    case Fill(asset, quantity, price, fee, _) =>
      if asset >= |b.positions| then b else
      Book(b.wallet + Realized(b.positions[asset], quantity, price) - fee,
           b.positions[asset := Traded(b.positions[asset], quantity, price)])
    case Funding(_, amount) => b.(wallet := b.wallet + amount)
    case _ => b
  }

  function Replay(b: Book, journal: seq<Entry>): (r: Book)
    ensures |r.positions| == |b.positions|
  {
    if journal == [] then b else Post(Replay(b, journal[..|journal| - 1]), journal[|journal| - 1])
  }

  datatype Totals = Totals(fees: real, funding: real, fills: nat, ordered: nat, rejections: nat)

  function Count(t: Totals, e: Entry): Totals {
    match e
    case Fill(_, _, _, fee, liquidation) =>
      t.(fees := t.fees + fee, fills := t.fills + 1, ordered := if liquidation then t.ordered else t.ordered + 1)
    case Funding(_, amount) => t.(funding := t.funding + amount)
    case Rejected(_, _, _) => t.(ordered := t.ordered + 1, rejections := t.rejections + 1)
    case Skipped(_) => t
  }

  function Tally(journal: seq<Entry>): Totals {
    if journal == [] then Totals(0.0, 0.0, 0, 0, 0) else Count(Tally(journal[..|journal| - 1]), journal[|journal| - 1])
  }

  function FillsOf(journal: seq<Entry>, asset: nat): nat {
    if journal == [] then 0 else
    var e := journal[|journal| - 1];
    FillsOf(journal[..|journal| - 1], asset) + if e.Fill? && e.asset == asset then 1 else 0
  }

  /** What the trade gains up to the given marks. */
  function GainOf(e: Entry, marks: seq<real>): real {
    if e.Fill? && e.asset < |marks| then Times(e.quantity, marks[e.asset] - e.price) else 0.0
  }

  /** The gain of every fill up to the given marks: the sum of quantity times (mark - fill price). */
  function Gain(journal: seq<Entry>, marks: seq<real>): real {
    if journal == [] then 0.0 else Gain(journal[..|journal| - 1], marks) + GainOf(journal[|journal| - 1], marks)
  }

  function Opening(p: Profile, n: nat): Book { Book(p.initialCash, Flat(n)) }

  /** The row is what its own journal replays to. */
  predicate Audited(row: Row, p: Profile, n: nat) {
    && RowShaped(row, n)
    && Book(row.wallet, row.positions) == Replay(Opening(p, n), row.journal)
    && Totals(row.fees, row.funding, row.fillCount, row.orders, row.rejections) == Tally(row.journal)
    && FillsMatch(row)
    && InRange(row.journal, n)
  }

  predicate InRange(journal: seq<Entry>, n: nat) {
    forall i :: 0 <= i < |journal| && journal[i].Fill? ==> journal[i].asset < n
  }

  predicate FillsMatch(row: Row) {
    forall i :: 0 <= i < |row.assetFills| ==> row.assetFills[i] == FillsOf(row.journal, i)
  }

  /** As `Audited`, except that one order is counted and not yet decided. */
  predicate Pending(row: Row, p: Profile, n: nat) {
    row.orders > 0 && Audited(row.(orders := row.orders - 1), p, n)
  }

  lemma Snoc(journal: seq<Entry>, e: Entry)
    ensures var j := journal + [e]; j[..|j| - 1] == journal && j[|j| - 1] == e
  {
  }

  lemma {:induction false} NewRowAudited(p: Profile, n: nat)
    ensures Audited(NewRow(p, n), p, n)
  {
  }

  // ---------------------------------------------------------------- one change at a time

  lemma FundOnceAudited(row: Row, p: Profile, n: nat, asset: nat, mark: real, rate: real)
    requires Audited(row, p, n) && asset < n
    ensures Audited(FundOnce(row, asset, mark, rate), p, n)
  {
    var quantity := row.positions[asset].quantity;
    hide Traded, Realized;
    if quantity == 0.0 {
      FlatEarnsNothing(mark, rate);
    } else {
      hide FundingCashflow;
      Snoc(row.journal, Funding(asset, FundingCashflow(quantity, mark, rate)));
    }
  }

  lemma FlatEarnsNothing(mark: real, rate: real)
    ensures FundingCashflow(0.0, mark, rate) == 0.0
  {
  }

  lemma FilledAudited(row: Row, p: Profile, n: nat, asset: nat, delta: real, price: real, fee: real, liquidation: bool)
    requires asset < n && if liquidation then Audited(row, p, n) else Pending(row, p, n)
    ensures Audited(Filled(row, asset, delta, price, fee, liquidation), p, n)
  {
    hide Traded, Realized;
    Snoc(row.journal, Fill(asset, delta, price, fee, liquidation));
  }

  lemma RefusedAudited(row: Row, p: Profile, n: nat, asset: nat, delta: real, price: real)
    requires Pending(row, p, n)
    ensures Audited(Refused(row, asset, delta, price), p, n)
  {
    Snoc(row.journal, Rejected(asset, delta, price));
  }

  lemma NotedAudited(row: Row, p: Profile, n: nat, asset: nat, requested: real, size: real)
    requires Audited(row, p, n) && asset < n
    ensures Audited(Noted(row, asset, requested, size), p, n)
  {
    Snoc(row.journal, Skipped(asset));
  }

  // ---------------------------------------------------------------- the phases of a bar

  lemma {:induction false} FundRatesAudited(row: Row, p: Profile, n: nat, asset: nat, mark: real, rates: seq<real>, k: nat)
    requires Audited(row, p, n) && asset < n && k <= |rates|
    ensures Audited(FundRates(row, asset, mark, rates, k), p, n)
  {
    hide Audited, FundOnce;
    AuditedShaped(row, p, n);
    if k > 0 {
      FundRatesAudited(row, p, n, asset, mark, rates, k - 1);
      FundOnceAudited(FundRates(row, asset, mark, rates, k - 1), p, n, asset, mark, rates[k - 1]);
    }
  }

  lemma {:induction false} FundedAudited(row: Row, p: Profile, o: Observation, k: nat)
    requires Audited(row, p, |o.marks|) && Shaped(o, |o.marks|) && k <= |o.marks|
    ensures Audited(Funded(row, o, k), p, |o.marks|)
  {
    hide FundRates, Audited, Expect;
    AuditedShaped(row, p, |o.marks|);
    if k > 0 {
      FundedAudited(row, p, o, k - 1);
      var before := Expect(Funded(row, o, k - 1), o.expectedFunding[k - 1]);
      ExpectAudited(Funded(row, o, k - 1), p, |o.marks|, o.expectedFunding[k - 1]);
      AuditedShaped(before, p, |o.marks|);
      FundRatesAudited(before, p, |o.marks|, k - 1, o.marks[k - 1].open, o.fundingRates[k - 1], |o.fundingRates[k - 1]|);
    }
  }

  lemma ExpectAudited(row: Row, p: Profile, n: nat, count: int)
    requires Audited(row, p, n)
    ensures Audited(Expect(row, count), p, n)
  {
  }

  lemma OrderedPending(row: Row, p: Profile, n: nat, hit: bool)
    requires Audited(row, p, n)
    ensures Pending(Ordered(row, hit), p, n)
  {
  }

  lemma UsedAudited(row: Row, p: Profile, n: nat, m: Margin, equity: real)
    requires Audited(row, p, n)
    ensures Audited(Used(row, m, equity), p, n)
  {
    hide Max, TierUse;
  }

  lemma PlacedAudited(row: Row, o: Observation, name: ProfileName, p: Profile, asset: nat, size: real)
    requires Audited(row, p, |o.marks|) && Shaped(o, |o.marks|) && asset < |o.marks|
    requires Placed(row, o, name, p, asset, size).Ok?
    ensures Audited(Placed(row, o, name, p, asset, size).value, p, |o.marks|)
  {
    hide Audited, Pending, MarginOf, OrderPrice, Fee, Equity, Refuses, Used, Refused, Filled, Ordered, MinuteVwap;
    assert RowShaped(row, |o.marks|) by { AuditedShaped(row, p, |o.marks|); }
    var delta := size - row.positions[asset].quantity;
    if delta != 0.0 {
      var window := WindowOf(o, name, asset);
      var price := OrderPrice(delta, o.tradeOpens[asset], window, p);
      var fee := Fee(delta, price, FeeRate(p));
      var ordered := Ordered(row, MinuteVwap(window).Some?);
      OrderedPending(row, p, |o.marks|, MinuteVwap(window).Some?);
      RefusedAudited(ordered, p, |o.marks|, asset, delta, price);
      OrderedShaped(row, MinuteVwap(window).Some?, |o.marks|);
      FilledAudited(ordered, p, |o.marks|, asset, delta, price, fee, false);
      var candidate := Filled(ordered, asset, delta, price, fee, false);
      AuditedShaped(candidate, p, |o.marks|);
      match MarginOf(candidate.positions, Opens(o.marks), o.tiers, p.accountLeverage, FeeRate(p), |o.marks|)
      case Err(e) =>
      case Ok(m) => UsedAudited(candidate, p, |o.marks|, m, Equity(candidate.wallet, candidate.positions, Opens(o.marks)));
    }
  }

  lemma AuditedShaped(row: Row, p: Profile, n: nat)
    requires Audited(row, p, n)
    ensures RowShaped(row, n)
  {
  }

  lemma OrderedShaped(row: Row, hit: bool, n: nat)
    requires RowShaped(row, n)
    ensures RowShaped(Ordered(row, hit), n)
  {
  }

  lemma {:induction false} OrdersAudited(row: Row, o: Observation, name: ProfileName, p: Profile, equity: real, sizes: seq<real>, k: nat)
    requires Audited(row, p, |o.marks|) && Shaped(o, |o.marks|) && k <= |o.marks| == |sizes|
    requires Orders(row, o, name, p, equity, sizes, k).Ok?
    ensures Audited(Orders(row, o, name, p, equity, sizes, k).value, p, |o.marks|)
  {
    hide Audited, Placed, Noted;
    AuditedShaped(row, p, |o.marks|);
    if k > 0 {
      OrdersAudited(row, o, name, p, equity, sizes, k - 1);
      var before := Orders(row, o, name, p, equity, sizes, k - 1).value;
      var noted := Noted(before, k - 1, Times(equity, o.targets[k - 1]), sizes[k - 1]);
      NotedAudited(before, p, |o.marks|, k - 1, Times(equity, o.targets[k - 1]), sizes[k - 1]);
      PlacedAudited(noted, o, name, p, k - 1, sizes[k - 1]);
    }
  }

  lemma RetargetedAudited(row: Row, p: Profile, n: nat, targets: seq<real>)
    requires Audited(row, p, n)
    ensures Audited(Retargeted(row, targets), p, n)
  {
  }

  lemma RebalancedAudited(row: Row, o: Observation, name: ProfileName, p: Profile)
    requires Audited(row, p, |o.marks|) && Shaped(o, |o.marks|) && Rebalanced(row, o, name, p).Ok?
    ensures Audited(Rebalanced(row, o, name, p).value, p, |o.marks|)
  {
    hide Audited, Orders, Desired, Retargeted;
    AuditedShaped(row, p, |o.marks|);
    if o.targetChanged {
      var equity := Equity(row.wallet, row.positions, Opens(o.marks));
      var sizes := Desired(o, equity, |o.marks|).value;
      OrdersAudited(row, o, name, p, equity, sizes, |o.marks|);
      RetargetedAudited(Orders(row, o, name, p, equity, sizes, |o.marks|).value, p, |o.marks|, o.targets);
    }
  }

  lemma {:induction false} LiquidatedAudited(row: Row, p: Profile, marks: seq<real>, rate: real, k: nat)
    requires Audited(row, p, |marks|) && k <= |marks|
    ensures Audited(Liquidated(row, marks, rate, k), p, |marks|)
  {
    hide Audited, Filled, Worse, Fee;
    AuditedShaped(row, p, |marks|);
    if k > 0 {
      LiquidatedAudited(row, p, marks, rate, k - 1);
      var before := Liquidated(row, marks, rate, k - 1);
      var delta := -before.positions[k - 1].quantity;
      if delta != 0.0 {
        var price := Worse(marks[k - 1], delta, rate);
        FilledAudited(before, p, |marks|, k - 1, delta, price, Fee(delta, price, rate), true);
      }
    }
  }

  lemma MarkedAudited(row: Row, p: Profile, n: nat, equity: real)
    requires Audited(row, p, n) && Marked(row, equity).Ok?
    ensures Audited(Marked(row, equity).value, p, n)
  {
    hide Max;
  }

  lemma CountedAudited(row: Row, p: Profile, n: nat)
    requires Audited(row, p, n)
    ensures Audited(CountLiquidation(row), p, n)
  {
  }

  lemma SettledAudited(row: Row, o: Observation, p: Profile)
    requires Audited(row, p, |o.marks|) && Shaped(o, |o.marks|) && Settled(row, o, p).Ok?
    ensures Audited(Settled(row, o, p).value, p, |o.marks|)
  {
    hide Audited, MarginOf, Equity, Liquidated, Marked, Used, CountLiquidation, Liquidates;
    AuditedShaped(row, p, |o.marks|);
    var closes, adverse := Closes(o.marks), Adverse(row.positions, o.marks);
    var equity := Equity(row.wallet, row.positions, closes);
    var m := MarginOf(row.positions, closes, o.tiers, p.accountLeverage, FeeRate(p), |o.marks|).value;
    var worst := MarginOf(row.positions, adverse, o.tiers, p.accountLeverage, FeeRate(p), |o.marks|).value;
    var used := Used(row, m, equity);
    UsedAudited(row, p, |o.marks|, m, equity);
    if Liquidates(worst.maintenance, Equity(row.wallet, row.positions, adverse)) {
      CountedAudited(used, p, |o.marks|);
      AuditedShaped(CountLiquidation(used), p, |o.marks|);
      LiquidatedAudited(CountLiquidation(used), p, adverse, LiquidationRate(p), |o.marks|);
      var out := Liquidated(CountLiquidation(used), adverse, LiquidationRate(p), |o.marks|);
      MarkedAudited(out, p, |o.marks|, out.wallet);
    } else {
      MarkedAudited(used, p, |o.marks|, equity);
    }
  }

  /** Every observation keeps the row equal to the replay of its journal. */
  lemma StepAudited(row: Row, o: Observation, name: ProfileName, p: Profile)
    requires Audited(row, p, |o.marks|) && Shaped(o, |o.marks|) && RowShaped(row, |o.marks|) && Stepped(row, o, name, p).Ok?
    ensures Audited(Stepped(row, o, name, p).value, p, |o.marks|)
  {
    hide Audited, Funded, Rebalanced, Settled;
    FundedAudited(row, p, o, |o.marks|);
    var funded := Funded(row, o, |o.marks|);
    RebalancedAudited(funded, o, name, p);
    SettledAudited(Rebalanced(funded, o, name, p).value, o, p);
  }

  // ---------------------------------------------------------------- conservation

  lemma {:induction false} OpenProfitKept(ps: seq<Pos>, qs: seq<Pos>, marks: seq<real>, k: nat)
    requires k <= |ps| == |qs| == |marks| && forall i :: 0 <= i < k ==> ps[i] == qs[i]
    ensures OpenProfit(ps, marks, k) == OpenProfit(qs, marks, k)
  {
    hide Unrealized;
    if k > 0 { OpenProfitKept(ps, qs, marks, k - 1); }
  }

  /** Replacing one position moves the open profit by the change of that position. */
  lemma {:induction false} OpenProfitMoves(ps: seq<Pos>, asset: nat, after: Pos, marks: seq<real>, k: nat)
    requires asset < k <= |ps| == |marks|
    ensures OpenProfit(ps[asset := after], marks, k)
            == OpenProfit(ps, marks, k) + Unrealized(after, marks[asset]) - Unrealized(ps[asset], marks[asset])
  {
    hide Unrealized;
    if asset == k - 1 {
      OpenProfitKept(ps, ps[asset := after], marks, k - 1);
    } else {
      OpenProfitMoves(ps, asset, after, marks, k - 1);
    }
  }

  function Worth(b: Book, marks: seq<real>): real
    requires |b.positions| == |marks|
  {
    Equity(b.wallet, b.positions, marks)
  }

  /** What an entry adds to the account at every mark. */
  lemma PostWorth(b: Book, e: Entry, marks: seq<real>)
    requires |b.positions| == |marks| && (e.Fill? ==> e.asset < |marks|)
    ensures Worth(Post(b, e), marks) == Worth(b, marks) + GainOf(e, marks)
      - (if e.Fill? then e.fee else 0.0) + (if e.Funding? then e.amount else 0.0)
  {
    if e.Fill? {
      var before := b.positions[e.asset];
      var after := Traded(before, e.quantity, e.price);
      TradeIdentity(before, e.quantity, e.price);
      OpenProfitMoves(b.positions, e.asset, after, marks, |marks|);
    }
  }

  /** Conservation of any journal: adds, partial closes, flips, rejections and liquidations alike. */
  lemma {:induction false} ReplayWorth(b: Book, journal: seq<Entry>, marks: seq<real>)
    requires |b.positions| == |marks| && InRange(journal, |marks|)
    ensures Worth(Replay(b, journal), marks)
            == Worth(b, marks) + Gain(journal, marks) - Tally(journal).fees + Tally(journal).funding
  {
    hide Post, GainOf;
    if journal != [] {
      var rest, e := journal[..|journal| - 1], journal[|journal| - 1];
      ReplayWorth(b, rest, marks);
      PostWorth(Replay(b, rest), e, marks);
    }
  }

  lemma {:induction false} FlatProfit(ps: seq<Pos>, marks: seq<real>, k: nat)
    requires k <= |ps| == |marks| && forall i :: 0 <= i < k ==> ps[i].quantity == 0.0
    ensures OpenProfit(ps, marks, k) == 0.0
  {
    if k > 0 { FlatProfit(ps, marks, k - 1); TimesZero(marks[k - 1] - ps[k - 1].entry); }
  }

  /**
  At any marks, wallet and open profit are the initial cash, plus the gain of every fill up to
  the marks, minus the fees, plus the funding.
  */
  lemma Conservation(row: Row, p: Profile, marks: seq<real>)
    requires Audited(row, p, |marks|)
    ensures Equity(row.wallet, row.positions, marks)
            == p.initialCash + Gain(row.journal, marks) - row.fees + row.funding
  {
    hide Replay, Tally, Gain, FillsMatch, InRange;
    var b := Opening(p, |marks|);
    ReplayWorth(b, row.journal, marks);
    FlatProfit(b.positions, marks, |marks|);
  }

  // ---------------------------------------------------------------- what each phase of a bar leaves alone

  /** Funding changes money, its counters and the journal. */
  predicate OnlyFunded(row: Row, r: Row) {
    r == row.(wallet := r.wallet, funding := r.funding, actualFunding := r.actualFunding,
              expectedFunding := r.expectedFunding, journal := r.journal)
  }

  /** Orders leave funding, equity, drawdown and forced exits alone, and take back no refusal. */
  predicate OnlyOrdered(row: Row, r: Row) {
    && row.rejections <= r.rejections
    && r == row.(wallet := r.wallet, positions := r.positions, targets := r.targets, fillCount := r.fillCount,
                 assetFills := r.assetFills, orders := r.orders, hits := r.hits, rejections := r.rejections,
                 marginUse := r.marginUse, tierUse := r.tierUse, fees := r.fees, journal := r.journal)
  }

  /** A forced exit only trades. */
  predicate OnlyClosed(row: Row, r: Row) {
    r == row.(wallet := r.wallet, positions := r.positions, fillCount := r.fillCount, assetFills := r.assetFills,
              fees := r.fees, journal := r.journal)
  }

  lemma {:induction false} FundRatesKeep(row: Row, asset: nat, mark: real, rates: seq<real>, k: nat)
    requires asset < |row.positions| && k <= |rates|
    ensures OnlyFunded(row, FundRates(row, asset, mark, rates, k))
  {
    hide FundingCashflow;
    if k > 0 { FundRatesKeep(row, asset, mark, rates, k - 1); }
  }

  lemma {:induction false} FundedKeeps(row: Row, o: Observation, k: nat)
    requires RowShaped(row, |o.marks|) && Shaped(o, |o.marks|) && k <= |o.marks|
    ensures OnlyFunded(row, Funded(row, o, k))
  {
    hide FundRates;
    if k > 0 {
      FundedKeeps(row, o, k - 1);
      FundRatesKeep(Expect(Funded(row, o, k - 1), o.expectedFunding[k - 1]), k - 1, o.marks[k - 1].open,
                    o.fundingRates[k - 1], |o.fundingRates[k - 1]|);
    }
  }

  lemma PlacedKeeps(row: Row, o: Observation, name: ProfileName, p: Profile, asset: nat, size: real)
    requires RowShaped(row, |o.marks|) && Shaped(o, |o.marks|) && asset < |o.marks| && Placed(row, o, name, p, asset, size).Ok?
    ensures OnlyOrdered(row, Placed(row, o, name, p, asset, size).value)
  {
    hide MarginOf, OrderPrice, Fee, Equity, Refuses, TierUse, Max, MinuteVwap, Traded, Realized;
  }

  lemma {:induction false} OrdersKeep(row: Row, o: Observation, name: ProfileName, p: Profile, equity: real, sizes: seq<real>, k: nat)
    requires RowShaped(row, |o.marks|) && Shaped(o, |o.marks|) && k <= |o.marks| == |sizes|
    requires Orders(row, o, name, p, equity, sizes, k).Ok?
    ensures OnlyOrdered(row, Orders(row, o, name, p, equity, sizes, k).value)
  {
    hide Placed, Times;
    if k > 0 {
      OrdersKeep(row, o, name, p, equity, sizes, k - 1);
      var noted := Noted(Orders(row, o, name, p, equity, sizes, k - 1).value, k - 1, Times(equity, o.targets[k - 1]), sizes[k - 1]);
      PlacedKeeps(noted, o, name, p, k - 1, sizes[k - 1]);
    }
  }

  lemma RebalancedKeeps(row: Row, o: Observation, name: ProfileName, p: Profile)
    requires RowShaped(row, |o.marks|) && Shaped(o, |o.marks|) && Rebalanced(row, o, name, p).Ok?
    ensures OnlyOrdered(row, Rebalanced(row, o, name, p).value)
  {
    hide Orders, Desired, OpenProfit;
    if o.targetChanged {
      var equity := Equity(row.wallet, row.positions, Opens(o.marks));
      OrdersKeep(row, o, name, p, equity, Desired(o, equity, |o.marks|).value, |o.marks|);
    }
  }

  lemma {:induction false} LiquidatedKeeps(row: Row, marks: seq<real>, rate: real, k: nat)
    requires RowShaped(row, |marks|) && k <= |marks|
    ensures OnlyClosed(row, Liquidated(row, marks, rate, k))
  {
    hide Worse, Traded, Realized, Fee;
    if k > 0 { LiquidatedKeeps(row, marks, rate, k - 1); }
  }

  // ---------------------------------------------------------------- the reported equity

  lemma MarkedEquity(row: Row, equity: real)
    requires Marked(row, equity).Ok?
    ensures var r := Marked(row, equity).value;
            && r.equity == equity > 0.0 && r.equityHigh >= equity && r.equityHigh >= row.equityHigh
            && (0.0 <= row.maximumDrawdown < 1.0 ==> row.maximumDrawdown <= r.maximumDrawdown < 1.0)
            && r.wallet == row.wallet && r.positions == row.positions
  {
    var high := Max(row.equityHigh, equity);
    RatioPositive(equity, Max(high, FLOOR));
  }

  lemma RatioPositive(x: real, y: real)
    requires x > 0.0 && y > 0.0
    ensures x / y > 0.0
  {
  }

  lemma LiquidateOneFlat(row: Row, asset: nat, mark: real, rate: real)
    requires asset < |row.positions| == |row.assetFills|
    ensures var r := LiquidateOne(row, asset, mark, rate);
            |r.positions| == |row.positions| && r.positions[asset].quantity == 0.0
            && forall i :: 0 <= i < |r.positions| && i != asset ==> r.positions[i] == row.positions[i]
  {
    hide Times, Worse;
  }

  /** A liquidation leaves no position. */
  lemma {:induction false} LiquidatedFlat(row: Row, marks: seq<real>, rate: real, k: nat)
    requires RowShaped(row, |marks|) && k <= |marks|
    ensures forall i :: 0 <= i < k ==> Liquidated(row, marks, rate, k).positions[i].quantity == 0.0
  {
    hide LiquidateOne;
    if k > 0 {
      LiquidatedFlat(row, marks, rate, k - 1);
      LiquidateOneFlat(Liquidated(row, marks, rate, k - 1), k - 1, marks[k - 1], rate);
      assert Liquidated(row, marks, rate, k) == LiquidateOne(Liquidated(row, marks, rate, k - 1), k - 1, marks[k - 1], rate);
    }
  }

  /** The row's own numbers agree: equity is wallet plus open profit at `marks`, positive, at most its high. */
  predicate Reports(row: Row, marks: seq<real>) {
    && |marks| == |row.positions|
    && row.equity == Equity(row.wallet, row.positions, marks)
    && 0.0 < row.equity <= row.equityHigh
    && 0.0 <= row.maximumDrawdown < 1.0
  }

  lemma UsedKeeps(row: Row, m: Margin, equity: real)
    ensures var r := Used(row, m, equity);
            r.wallet == row.wallet && r.positions == row.positions && r.maximumDrawdown == row.maximumDrawdown
            && r.assetFills == row.assetFills && r.journal == row.journal
  {
    hide Max, TierUse;
  }

  /** Whether or not the bar liquidates, the reported equity is the account at the closing marks. */
  lemma SettledReports(row: Row, o: Observation, p: Profile)
    requires RowShaped(row, |o.marks|) && Shaped(o, |o.marks|) && Settled(row, o, p).Ok? && 0.0 <= row.maximumDrawdown < 1.0
    ensures Reports(Settled(row, o, p).value, Closes(o.marks))
  {
    hide MarginOf, OpenProfit, Liquidated, Marked, Used, Liquidates;
    var closes, adverse := Closes(o.marks), Adverse(row.positions, o.marks);
    var equity := Equity(row.wallet, row.positions, closes);
    var m := MarginOf(row.positions, closes, o.tiers, p.accountLeverage, FeeRate(p), |o.marks|).value;
    var worst := MarginOf(row.positions, adverse, o.tiers, p.accountLeverage, FeeRate(p), |o.marks|).value;
    var used := Used(row, m, equity);
    UsedKeeps(row, m, equity);
    if Liquidates(worst.maintenance, Equity(row.wallet, row.positions, adverse)) {
      var start := CountLiquidation(used);
      var out := Liquidated(start, adverse, LiquidationRate(p), |o.marks|);
      LiquidatedFlat(start, adverse, LiquidationRate(p), |o.marks|);
      LiquidatedKeeps(start, adverse, LiquidationRate(p), |o.marks|);
      FlatProfit(out.positions, closes, |o.marks|);
      MarkedEquity(out, out.wallet);
    } else {
      MarkedEquity(used, equity);
    }
  }

  // ---------------------------------------------------------------- risk checks

  lemma {:induction false} AdverseIsWorst(ps: seq<Pos>, marks: seq<Bar>, k: nat)
    requires k <= |ps| == |marks| && forall i :: 0 <= i < |marks| ==> marks[i].low <= marks[i].close <= marks[i].high
    ensures OpenProfit(ps, Adverse(ps, marks), k) <= OpenProfit(ps, Closes(marks), k)
  {
    if k > 0 {
      AdverseIsWorst(ps, marks, k - 1);
      LegIsWorst(ps[k - 1], marks[k - 1]);
    }
  }

  lemma LegIsWorst(p: Pos, mark: Bar)
    requires mark.low <= mark.close <= mark.high
    ensures Unrealized(p, if p.quantity >= 0.0 then mark.low else mark.high) <= Unrealized(p, mark.close)
  {
  }

  /**
  With closes inside the bar, an account that pays maintenance margin and is not liquidated closes
  with more equity than its maintenance margin: the non-positive-equity error is left to
  liquidations and to accounts without maintenance margin.
  */
  lemma SurvivorIsSolvent(row: Row, o: Observation, p: Profile)
    requires RowShaped(row, |o.marks|) && Shaped(o, |o.marks|)
    requires forall i :: 0 <= i < |o.marks| ==> o.marks[i].low <= o.marks[i].close <= o.marks[i].high
    requires var adverse := Adverse(row.positions, o.marks);
             var worst := MarginOf(row.positions, adverse, o.tiers, p.accountLeverage, FeeRate(p), |o.marks|);
             && worst.Ok? && worst.value.maintenance > 0.0
             && !Liquidates(worst.value.maintenance, Equity(row.wallet, row.positions, adverse))
    ensures Settled(row, o, p) != Err(NonPositiveEquity)
    ensures Settled(row, o, p).Ok? ==>
              var worst := MarginOf(row.positions, Adverse(row.positions, o.marks), o.tiers, p.accountLeverage, FeeRate(p), |o.marks|);
              Settled(row, o, p).value.equity > worst.value.maintenance
  {
    hide MarginOf, OpenProfit, Used;
    AdverseIsWorst(row.positions, o.marks, |o.marks|);
    MarginErrors(row.positions, Closes(o.marks), o.tiers, p.accountLeverage, FeeRate(p), |o.marks|);
  }

  lemma {:induction false} MarginErrors(ps: seq<Pos>, marks: seq<real>, tiers: seq<seq<Tier>>, leverage: real, feeRate: real, k: nat)
    requires k <= |ps| == |marks| == |tiers|
    ensures MarginOf(ps, marks, tiers, leverage, feeRate, k) != Err(NonPositiveEquity)
  {
    hide TierIndex, Times;
    if k > 0 { MarginErrors(ps, marks, tiers, leverage, feeRate, k - 1); }
  }

  /**
  An order either leaves wallet and positions as they were, or leaves an account inside every
  risk tier whose initial margin, at the opening marks, is covered by its equity.
  */
  lemma OrderWithinMargin(row: Row, o: Observation, name: ProfileName, p: Profile, asset: nat, size: real)
    requires RowShaped(row, |o.marks|) && Shaped(o, |o.marks|) && asset < |o.marks| && Placed(row, o, name, p, asset, size).Ok?
    ensures var r := Placed(row, o, name, p, asset, size).value;
            || (r.wallet == row.wallet && r.positions == row.positions)
            || (&& r.positions[asset].quantity == size
                && (forall i :: 0 <= i < |o.marks| && i != asset ==> r.positions[i] == row.positions[i])
                && WithinMargin(r, o, p))
  {
    hide MarginOf, OrderPrice, Fee, OpenProfit, TierExceeded, Used, MinuteVwap, Times, Realized;
    var delta := size - row.positions[asset].quantity;
    if delta != 0.0 {
      var window := WindowOf(o, name, asset);
      var price := OrderPrice(delta, o.tradeOpens[asset], window, p);
      var ordered := Ordered(row, MinuteVwap(window).Some?);
      var candidate := Filled(ordered, asset, delta, price, Fee(delta, price, FeeRate(p)), false);
      var m := MarginOf(candidate.positions, Opens(o.marks), o.tiers, p.accountLeverage, FeeRate(p), |o.marks|).value;
      UsedKeeps(candidate, m, Equity(candidate.wallet, candidate.positions, Opens(o.marks)));
    }
  }

  predicate WithinMargin(row: Row, o: Observation, p: Profile)
    requires RowShaped(row, |o.marks|) && Shaped(o, |o.marks|)
  {
    match MarginOf(row.positions, Opens(o.marks), o.tiers, p.accountLeverage, FeeRate(p), |o.marks|)
    case Err(_) => false
    case Ok(m) =>
      && m.initial <= Equity(row.wallet, row.positions, Opens(o.marks)) + MARGIN_TOLERANCE
      && !TierExceeded(m.details)
  }
}
