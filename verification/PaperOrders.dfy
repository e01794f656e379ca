/** What a paper account trades and at what price: sizes, fills, fees, margin, and the books they leave. */
module PaperOrders {
  import opened Prelude
  import opened Reals
  import opened Derivatives
  import opened PaperStep
  import opened PaperStepLaws
  import opened PaperLedger
  import opened PaperLedgerLaws
  import opened PaperFunding

  // ---------------------------------------------------------------- prices and fees

  function Magnitude(x: real): real { if x >= 0.0 then x else 0.0 - x }

  /** The minutes that the profile may trade in. */
  function Minutes(o: Observation, name: ProfileName, asset: nat): seq<Minute>
    requires Shaped(o, |o.marks|) && asset < |o.marks|
  {
    match name case Conservative => o.conservativeWindows[asset] case Stress => o.stressWindows[asset]
  }

  predicate HasTrades(window: seq<Minute>) { Volume(window) > 0.0 && Turnover(window) > 0.0 }

  /** The price before costs: the average of the traded minutes, or the opening trade. */
  function Reference(o: Observation, name: ProfileName, asset: nat): real
    requires Shaped(o, |o.marks|) && asset < |o.marks|
  {
    var w := Minutes(o, name, asset);
    if HasTrades(w) then Turnover(w) / Volume(w) else o.tradeOpens[asset]
  }

  /** What is lost on the reference price: half the spread, the floor, and the impact of every ten per cent of the turnover. */
  function LossBps(o: Observation, name: ProfileName, p: Profile, asset: nat, quantity: real): real
    requires Shaped(o, |o.marks|) && asset < |o.marks|
  {
    var w := Minutes(o, name, asset);
    if !HasTrades(w) then p.fallbackSlippageBps else
    var turnover := if Turnover(w) < 1.0 then 1.0 else Turnover(w);
    p.spreadBps / 2.0 + p.impactFloorBps
    + Magnitude(quantity) * (Turnover(w) / Volume(w)) / turnover / 0.1 * p.impactBpsPerTenPercent
  }

  /** The price is off its reference by the given basis points, against the trader. */
  predicate Worsened(price: real, reference: real, quantity: real, bps: real) {
    if quantity > 0.0 then price == reference * (1.0 + Magnitude(bps / 10000.0))
    else price == reference * (1.0 - Magnitude(bps / 10000.0))
  }

  predicate Charged(quantity: real, price: real, fee: real, bps: real) {
    fee == Magnitude(quantity * price) * (bps / 10000.0)
  }

  predicate OrderPriced(o: Observation, name: ProfileName, p: Profile, asset: nat, quantity: real, price: real)
    requires Shaped(o, |o.marks|)
  {
    && asset < |o.marks| && quantity != 0.0
    && Worsened(price, Reference(o, name, asset), quantity, LossBps(o, name, p, asset, quantity))
  }

  /** An entry that the observation can have written for this profile. */
  predicate EntryOk(e: Entry, o: Observation, name: ProfileName, p: Profile)
    requires Shaped(o, |o.marks|)
  {
    match e
    case Fill(asset, quantity, price, fee, false) =>
      OrderPriced(o, name, p, asset, quantity, price) && Charged(quantity, price, fee, p.feeBps)
    case Fill(asset, quantity, price, fee, true) =>
      && asset < |o.marks| && quantity != 0.0
      && Worsened(price, if quantity < 0.0 then o.marks[asset].low else o.marks[asset].high, quantity, p.liquidationFeeBps)
      && Charged(quantity, price, fee, p.liquidationFeeBps)
    case Rejected(asset, quantity, price) => OrderPriced(o, name, p, asset, quantity, price)
    case _ => true
  }

  /** Orders among the entries, filled or refused, that met traded minutes. */
  function HitsIn(entries: seq<Entry>, o: Observation, name: ProfileName): nat
    requires Shaped(o, |o.marks|)
  {
    if entries == [] then 0 else
    var e := entries[|entries| - 1];
    HitsIn(entries[..|entries| - 1], o, name)
    + if ((e.Fill? && !e.liquidation) || e.Rejected?) && e.asset < |o.marks| && HasTrades(Minutes(o, name, e.asset)) then 1 else 0
  }

  /** The journal has grown by such entries, and as many hits were counted as they show. */
  ghost predicate Writes(row: Row, after: Row, o: Observation, name: ProfileName, p: Profile)
    requires Shaped(o, |o.marks|)
  {
    && row.journal <= after.journal
    && (forall i :: |row.journal| <= i < |after.journal| ==> EntryOk(after.journal[i], o, name, p))
    && after.hits == row.hits + HitsIn(after.journal[|row.journal|..], o, name)
  }

  lemma WritesNothing(row: Row, after: Row, o: Observation, name: ProfileName, p: Profile)
    requires Shaped(o, |o.marks|) && after.journal == row.journal && after.hits == row.hits
    ensures Writes(row, after, o, name, p)
  {
  }

  lemma WritesOne(row: Row, after: Row, o: Observation, name: ProfileName, p: Profile, e: Entry)
    requires Shaped(o, |o.marks|) && after.journal == row.journal + [e] && EntryOk(e, o, name, p)
    requires after.hits == row.hits + HitsIn([e], o, name)
    ensures Writes(row, after, o, name, p)
  {
    hide EntryOk;
    assert after.journal[|row.journal|..] == [e];
  }

  lemma {:induction false} HitsJoin(a: seq<Entry>, b: seq<Entry>, o: Observation, name: ProfileName)
    requires Shaped(o, |o.marks|)
    ensures HitsIn(a + b, o, name) == HitsIn(a, o, name) + HitsIn(b, o, name)
  {
    hide Shaped, HasTrades;
    if b == [] {
      assert a + b == a;
    } else {
      HitsJoin(a, b[..|b| - 1], o, name);
      assert (a + b)[..|a + b| - 1] == a + b[..|b| - 1];
    }
  }

  lemma WritesMore(row: Row, middle: Row, after: Row, o: Observation, name: ProfileName, p: Profile)
    requires Shaped(o, |o.marks|) && Writes(row, middle, o, name, p) && Writes(middle, after, o, name, p)
    ensures Writes(row, after, o, name, p)
  {
    hide EntryOk, HitsIn, Shaped;
    var a, b := middle.journal[|row.journal|..], after.journal[|middle.journal|..];
    HitsJoin(a, b, o, name);
    assert after.journal[|row.journal|..] == a + b;
    forall i | |row.journal| <= i < |after.journal| ensures EntryOk(after.journal[i], o, name, p) {
      if i < |middle.journal| { assert after.journal[i] == middle.journal[i]; }
    }
  }

  // ---------------------------------------------------------------- who writes what

  lemma WorseIs(base: real, side: real, bps: real)
    requires side != 0.0
    ensures Worsened(Worse(base, side, bps / 10000.0), base, side, bps)
  {
  }

  lemma OrderPriceIs(o: Observation, name: ProfileName, p: Profile, asset: nat, delta: real)
    requires Shaped(o, |o.marks|) && asset < |o.marks| && delta != 0.0
    ensures OrderPriced(o, name, p, asset, delta, OrderPrice(delta, o.tradeOpens[asset], WindowOf(o, name, asset), p))
    ensures MinuteVwap(WindowOf(o, name, asset)).Some? <==> HasTrades(Minutes(o, name, asset))
  {
    hide Worse, Worsened, LossBps, ImpactBps, Volume, Turnover;
    var w := WindowOf(o, name, asset);
    if w == [] { NoMinutes(); }
    if HasTrades(w) {
      LossIs(o, name, p, asset, delta);
      WorseIs(Turnover(w) / Volume(w), delta, LossBps(o, name, p, asset, delta));
    } else {
      LossUntraded(o, name, p, asset, delta);
      WorseIs(o.tradeOpens[asset], delta, p.fallbackSlippageBps);
    }
  }

  lemma NoMinutes()
    ensures Volume([]) == 0.0
  {
  }

  lemma LossUntraded(o: Observation, name: ProfileName, p: Profile, asset: nat, delta: real)
    requires Shaped(o, |o.marks|) && asset < |o.marks| && !HasTrades(Minutes(o, name, asset))
    ensures LossBps(o, name, p, asset, delta) == p.fallbackSlippageBps
  {
  }

  lemma LossIs(o: Observation, name: ProfileName, p: Profile, asset: nat, delta: real)
    requires Shaped(o, |o.marks|) && asset < |o.marks| && HasTrades(Minutes(o, name, asset))
    ensures var w := Minutes(o, name, asset);
            LossBps(o, name, p, asset, delta) == ImpactBps(Times(Abs(delta), Turnover(w) / Volume(w)), Turnover(w), p)
  {
    hide Volume, Turnover, ImpactBps;
    var w := Minutes(o, name, asset);
    ImpactIs(delta, Turnover(w) / Volume(w), Turnover(w), p);
  }

  lemma ImpactIs(delta: real, vwap: real, turnover: real, p: Profile)
    ensures ImpactBps(Times(Abs(delta), vwap), turnover, p)
            == p.spreadBps / 2.0 + p.impactFloorBps
               + Magnitude(delta) * vwap / (if turnover < 1.0 then 1.0 else turnover) / 0.1 * p.impactBpsPerTenPercent
  {
  }

  lemma FeeIs(delta: real, price: real, bps: real)
    ensures Charged(delta, price, Fee(delta, price, bps / 10000.0), bps)
  {
  }

  lemma OneHit(e: Entry, o: Observation, name: ProfileName)
    requires Shaped(o, |o.marks|)
    ensures HitsIn([e], o, name)
            == if ((e.Fill? && !e.liquidation) || e.Rejected?) && e.asset < |o.marks| && HasTrades(Minutes(o, name, e.asset)) then 1 else 0
  {
    assert [e][..0] == [];
  }

  lemma PlacedWrites(row: Row, o: Observation, name: ProfileName, p: Profile, asset: nat, size: real)
    requires RowShaped(row, |o.marks|) && Shaped(o, |o.marks|) && asset < |o.marks| && Placed(row, o, name, p, asset, size).Ok?
    ensures Writes(row, Placed(row, o, name, p, asset, size).value, o, name, p)
  {
    hide MarginOf, OrderPrice, Fee, Equity, Refuses, TierUse, Max, MinuteVwap, Traded, Realized, Writes, HitsIn, OrderPriced, Charged, HasTrades;
    var delta := size - row.positions[asset].quantity;
    var after := Placed(row, o, name, p, asset, size).value;
    if delta == 0.0 {
      WritesNothing(row, after, o, name, p);
    } else {
      var price := OrderPrice(delta, o.tradeOpens[asset], WindowOf(o, name, asset), p);
      OrderPriceIs(o, name, p, asset, delta);
      FeeIs(delta, price, p.feeBps);
      var e := after.journal[|row.journal|];
      OneHit(e, o, name);
      WritesOne(row, after, o, name, p, e);
    }
  }

  lemma NotedWrites(row: Row, o: Observation, name: ProfileName, p: Profile, asset: nat, requested: real, size: real)
    requires RowShaped(row, |o.marks|) && Shaped(o, |o.marks|) && asset < |o.marks|
    ensures Writes(row, Noted(row, asset, requested, size), o, name, p)
  {
    hide Writes, HitsIn;
    var after := Noted(row, asset, requested, size);
    if after == row {
      WritesNothing(row, after, o, name, p);
    } else {
      OneHit(Skipped(asset), o, name);
      WritesOne(row, after, o, name, p, Skipped(asset));
    }
  }

  lemma {:induction false} OrdersWrite(row: Row, o: Observation, name: ProfileName, p: Profile, equity: real, sizes: seq<real>, k: nat)
    requires RowShaped(row, |o.marks|) && Shaped(o, |o.marks|) && k <= |o.marks| == |sizes|
    requires Orders(row, o, name, p, equity, sizes, k).Ok?
    ensures Writes(row, Orders(row, o, name, p, equity, sizes, k).value, o, name, p)
  {
    hide Placed, Writes, Noted;
    if k == 0 {
      WritesNothing(row, row, o, name, p);
    } else {
      OrdersWrite(row, o, name, p, equity, sizes, k - 1);
      var before := Orders(row, o, name, p, equity, sizes, k - 1).value;
      var noted := Noted(before, k - 1, Times(equity, o.targets[k - 1]), sizes[k - 1]);
      NotedWrites(before, o, name, p, k - 1, Times(equity, o.targets[k - 1]), sizes[k - 1]);
      NotedShaped(before, k - 1, Times(equity, o.targets[k - 1]), sizes[k - 1], |o.marks|);
      PlacedWrites(noted, o, name, p, k - 1, sizes[k - 1]);
      var after := Orders(row, o, name, p, equity, sizes, k).value;
      WritesMore(before, noted, after, o, name, p);
      WritesMore(row, before, after, o, name, p);
    }
  }

  lemma NotedShaped(row: Row, asset: nat, requested: real, size: real, n: nat)
    requires RowShaped(row, n) && asset < n
    ensures RowShaped(Noted(row, asset, requested, size), n)
  {
  }

  lemma RebalancedWrites(row: Row, o: Observation, name: ProfileName, p: Profile)
    requires RowShaped(row, |o.marks|) && Shaped(o, |o.marks|) && Rebalanced(row, o, name, p).Ok?
    ensures Writes(row, Rebalanced(row, o, name, p).value, o, name, p)
  {
    hide Orders, Desired, OpenProfit, EntryOk, HitsIn;
    if o.targetChanged {
      var equity := Equity(row.wallet, row.positions, Opens(o.marks));
      OrdersWrite(row, o, name, p, equity, Desired(o, equity, |o.marks|).value, |o.marks|);
    } else {
      WritesNothing(row, row, o, name, p);
    }
  }

  /** Forced exits happen at the low for what is sold and at the high for what is bought back. */
  predicate AdverseMarks(row: Row, o: Observation, marks: seq<real>) {
    && |row.positions| == |o.marks| == |marks|
    && forall i :: 0 <= i < |marks| ==> marks[i] == if row.positions[i].quantity >= 0.0 then o.marks[i].low else o.marks[i].high
  }

  lemma {:induction false} LiquidatedWrites(row: Row, o: Observation, name: ProfileName, p: Profile, marks: seq<real>, k: nat)
    requires RowShaped(row, |o.marks|) && Shaped(o, |o.marks|) && AdverseMarks(row, o, marks) && k <= |marks| == |o.marks|
    ensures var r := Liquidated(row, marks, LiquidationRate(p), k);
            && Writes(row, r, o, name, p) && forall i :: k <= i < |marks| ==> r.positions[i] == row.positions[i]
  {
    hide Worse, Traded, Realized, Fee, Writes, HitsIn, Charged, Worsened, AdverseMarks;
    if k == 0 {
      WritesNothing(row, row, o, name, p);
    } else {
      LiquidatedWrites(row, o, name, p, marks, k - 1);
      var before := Liquidated(row, marks, LiquidationRate(p), k - 1);
      var after := Liquidated(row, marks, LiquidationRate(p), k);
      var delta := -before.positions[k - 1].quantity;
      if delta != 0.0 {
        LiquidatedOne(row, before, o, name, p, marks, k - 1);
      } else {
        WritesNothing(before, after, o, name, p);
      }
      WritesMore(row, before, after, o, name, p);
    }
  }

  lemma LiquidatedOne(row: Row, before: Row, o: Observation, name: ProfileName, p: Profile, marks: seq<real>, asset: nat)
    requires RowShaped(before, |o.marks|) && Shaped(o, |o.marks|) && AdverseMarks(row, o, marks) && asset < |marks|
    requires before.positions[asset] == row.positions[asset] && before.positions[asset].quantity != 0.0
    ensures Writes(before, LiquidateOne(before, asset, marks[asset], LiquidationRate(p)), o, name, p)
  {
    hide Worse, Traded, Realized, Fee, Writes, HitsIn, Charged, Worsened;
    var delta := -before.positions[asset].quantity;
    var price := Worse(marks[asset], delta, LiquidationRate(p));
    WorseIs(marks[asset], delta, p.liquidationFeeBps);
    FeeIs(delta, price, p.liquidationFeeBps);
    var e := Fill(asset, delta, price, Fee(delta, price, LiquidationRate(p)), true);
    OneHit(e, o, name);
    WritesOne(before, LiquidateOne(before, asset, marks[asset], LiquidationRate(p)), o, name, p, e);
  }

  lemma SettledWrites(row: Row, o: Observation, name: ProfileName, p: Profile)
    requires RowShaped(row, |o.marks|) && Shaped(o, |o.marks|) && Settled(row, o, p).Ok?
    ensures Writes(row, Settled(row, o, p).value, o, name, p)
  {
    hide MarginOf, OpenProfit, Liquidated, TierUse, Max, Liquidates, Writes;
    var m := MarginOf(row.positions, Closes(o.marks), o.tiers, p.accountLeverage, FeeRate(p), |o.marks|).value;
    var used := Used(row, m, Equity(row.wallet, row.positions, Closes(o.marks)));
    var counted, adverse := CountLiquidation(used), Adverse(row.positions, o.marks);
    var after := Settled(row, o, p).value;
    WritesNothing(row, used, o, name, p);
    WritesNothing(used, counted, o, name, p);
    LiquidatedWrites(counted, o, name, p, adverse, |o.marks|);
    var out := Liquidated(counted, adverse, LiquidationRate(p), |o.marks|);
    WritesMore(row, used, counted, o, name, p);
    WritesMore(row, counted, out, o, name, p);
    if after.journal == used.journal && after.hits == used.hits {
      WritesNothing(used, after, o, name, p);
      WritesMore(row, used, after, o, name, p);
    } else {
      WritesNothing(out, after, o, name, p);
      WritesMore(row, out, after, o, name, p);
    }
  }

  lemma {:induction false} FundRatesWrite(row: Row, asset: nat, mark: real, rates: seq<real>, k: nat, o: Observation, name: ProfileName, p: Profile)
    requires asset < |row.positions| && k <= |rates| && Shaped(o, |o.marks|)
    ensures Writes(row, FundRates(row, asset, mark, rates, k), o, name, p)
  {
    hide FundingCashflow, Writes, HitsIn, Shaped;
    if k == 0 {
      WritesNothing(row, row, o, name, p);
    } else {
      FundRatesWrite(row, asset, mark, rates, k - 1, o, name, p);
      var before, after := FundRates(row, asset, mark, rates, k - 1), FundRates(row, asset, mark, rates, k);
      if after.journal == before.journal {
        WritesNothing(before, after, o, name, p);
      } else {
        var e := after.journal[|before.journal|];
        OneHit(e, o, name);
        WritesOne(before, after, o, name, p, e);
      }
      WritesMore(row, before, after, o, name, p);
    }
  }

  lemma {:induction false} FundedWrites(row: Row, o: Observation, name: ProfileName, p: Profile, k: nat)
    requires RowShaped(row, |o.marks|) && Shaped(o, |o.marks|) && k <= |o.marks|
    ensures Writes(row, Funded(row, o, k), o, name, p)
  {
    hide FundRates, Writes;
    if k == 0 {
      WritesNothing(row, row, o, name, p);
    } else {
      FundedWrites(row, o, name, p, k - 1);
      var before := Funded(row, o, k - 1);
      var expected := Expect(before, o.expectedFunding[k - 1]);
      WritesNothing(before, expected, o, name, p);
      FundRatesWrite(expected, k - 1, o.marks[k - 1].open, o.fundingRates[k - 1], |o.fundingRates[k - 1]|, o, name, p);
      WritesMore(before, expected, Funded(row, o, k), o, name, p);
      WritesMore(row, before, Funded(row, o, k), o, name, p);
    }
  }

  /**
  Everything that an observation writes into the journal: orders at their reference price worsened
  by the profile's costs, forced exits at the adverse extreme, and the fee of each.
  */
  lemma StepWrites(row: Row, o: Observation, name: ProfileName, p: Profile)
    requires RowShaped(row, |o.marks|) && Shaped(o, |o.marks|) && Stepped(row, o, name, p).Ok?
    ensures Writes(row, Stepped(row, o, name, p).value, o, name, p)
  {
    hide Funded, Rebalanced, Settled, Writes;
    var funded := Funded(row, o, |o.marks|);
    FundedWrites(row, o, name, p, |o.marks|);
    RebalancedWrites(funded, o, name, p);
    var rebalanced := Rebalanced(funded, o, name, p).value;
    SettledWrites(rebalanced, o, name, p);
    WritesMore(row, funded, rebalanced, o, name, p);
    WritesMore(row, rebalanced, Stepped(row, o, name, p).value, o, name, p);
  }

  /** Each row of the ledger is stepped with its own profile: its costs, its windows, its fees. */
  lemma ObservedWrites(core: Core, o: Observation, config: Config, source: int)
    requires CoreShaped(core, config.symbols) && Shaped(o, config.symbols) && Observed(core, o, config, source).Ok?
    ensures Shaped(o, |o.marks|)
    ensures var after := Observed(core, o, config, source).value;
            && Writes(core.conservative, after.conservative, o, Conservative, config.conservative)
            && Writes(core.stress, after.stress, o, Stress, config.stress)
  {
    hide Stepped, Guard, NewEvent, Writes;
    ShapedHere(core, o, config.symbols);
    StepWrites(core.conservative, o, Conservative, config.conservative);
    StepWrites(core.stress, o, Stress, config.stress);
  }

  /** Every minute traded between these prices on average. */
  predicate TradedBetween(window: seq<Minute>, low: real, high: real) {
    forall i :: 0 <= i < |window| ==> Within(low, high, window[i].volume, window[i].turnover)
  }

  predicate Within(low: real, high: real, volume: real, turnover: real) {
    low * volume <= turnover <= high * volume
  }

  lemma WithinAdds(low: real, high: real, v: real, t: real, w: real, u: real)
    requires Within(low, high, v, t) && Within(low, high, w, u)
    ensures Within(low, high, v + w, t + u)
  {
    assert low * (v + w) == low * v + low * w && high * (v + w) == high * v + high * w;
  }

  lemma {:induction false} TotalsBetween(window: seq<Minute>, low: real, high: real)
    requires TradedBetween(window, low, high)
    ensures Within(low, high, Volume(window), Turnover(window))
  {
    if window != [] {
      var rest, last := window[..|window| - 1], window[|window| - 1];
      TotalsBetween(rest, low, high);
      assert Within(low, high, last.volume, last.turnover);
      hide Within;
      WithinAdds(low, high, Volume(rest), Turnover(rest), last.volume, last.turnover);
    }
  }

  /** The reference price of traded minutes lies between the prices at which they traded. */
  lemma ReferenceBetween(o: Observation, name: ProfileName, asset: nat, low: real, high: real)
    requires Shaped(o, |o.marks|) && asset < |o.marks| && HasTrades(Minutes(o, name, asset))
    requires TradedBetween(Minutes(o, name, asset), low, high)
    ensures low <= Reference(o, name, asset) <= high
  {
    var w := Minutes(o, name, asset);
    TotalsBetween(w, low, high);
    hide Volume, Turnover, TradedBetween;
    var q := Turnover(w) / Volume(w);
    assert q * Volume(w) == Turnover(w);
    NotAbove(low, q, Volume(w));
    NotAbove(q, high, Volume(w));
  }

  lemma NotAbove(x: real, y: real, z: real)
    requires z > 0.0 && x * z <= y * z
    ensures x <= y
  {
    if x > y { TimesStrict(y, x, z); }
  }

  /** No order is filled on the better side of its reference price. */
  lemma NeverBetter(price: real, reference: real, quantity: real, bps: real)
    requires Worsened(price, reference, quantity, bps) && reference >= 0.0
    ensures quantity > 0.0 ==> price >= reference
    ensures quantity <= 0.0 ==> price <= reference
  {
    var m := Magnitude(bps / 10000.0);
    assert reference * m >= 0.0;
  }
}
