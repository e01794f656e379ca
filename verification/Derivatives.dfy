/** Positions, funding, risk tiers and margin of the derivatives paper core, over exact reals. */
module Derivatives {
  import opened Prelude
  import opened Reals

  /** A netted position: signed quantity and the average price at which it was opened. */
  datatype Pos = Pos(quantity: real, entry: real)

  datatype Spec = Spec(quantityStep: real, minimumQuantity: real, minimumNotional: real, maximumMarketQuantity: real)

  datatype Tier = Tier(limit: real, maintenanceRate: real, initialRate: real, deduction: real, maximumLeverage: real)

  datatype Error = NonPositivePrice | QuantityTooLarge | NoRiskTiers | ZeroLeverage | NonPositiveEquity

  function Abs(x: real): real { if x < 0.0 then -x else x }

  function Sign(x: real): real { if x < 0.0 then -1.0 else 1.0 }

  function Max(x: real, y: real): real { if x < y then y else x }

  function Min(x: real, y: real): real { if x < y then x else y }

  // ---------------------------------------------------------------- trades

  predicate Adds(p: Pos, delta: real) {
    p.quantity == 0.0 || Sign(p.quantity) == Sign(delta)
  }

  function Weighted(p: Pos, delta: real, price: real): real
    requires Abs(p.quantity) + Abs(delta) != 0.0
  {
    (Times(Abs(p.quantity), p.entry) + Times(Abs(delta), price)) / (Abs(p.quantity) + Abs(delta))
  }

  /** The position after a trade. */
  function Traded(p: Pos, delta: real, price: real): Pos {
    if delta == 0.0 then p else
    var after := p.quantity + delta;
    if Adds(p, delta) then Pos(after, Weighted(p, delta, price))
    else if after == 0.0 then Pos(0.0, 0.0)
    else if Sign(after) != Sign(p.quantity) then Pos(after, price)
    else Pos(after, p.entry)
  }

  /** The profit that the trade realizes. */
  function Realized(p: Pos, delta: real, price: real): real {
    if delta == 0.0 || Adds(p, delta) then 0.0
    else Times(Times(Min(Abs(p.quantity), Abs(delta)), price - p.entry), Sign(p.quantity))
  }

  function Unrealized(p: Pos, mark: real): real {
    Times(p.quantity, mark - p.entry)
  }

  class Position {
    var quantity: real
    var averageEntry: real

    constructor (p: Pos)
      ensures Now() == p
    {
      quantity, averageEntry := p.quantity, p.entry;
    }

    function Now(): Pos
      reads this
    {
      Pos(quantity, averageEntry)
    }

    /** Nets a trade into the position: adds, closes in part, closes, or flips. */
    method ApplyTrade(delta: real, price: real) returns (realized: real)
      modifies this
      ensures Now() == Traded(old(Now()), delta, price) && realized == Realized(old(Now()), delta, price)
      ensures forall mark :: realized + Unrealized(Now(), mark) - Unrealized(old(Now()), mark) == Times(delta, mark - price)
    {
      TradeIdentity(Now(), delta, price);
      hide Times, Unrealized;
      realized := 0.0;
      if delta == 0.0 {
        return;
      }
      var before, entry := quantity, averageEntry;
      var after := before + delta;
      if before == 0.0 || Sign(before) == Sign(delta) {
        averageEntry := (Times(Abs(before), entry) + Times(Abs(delta), price)) / (Abs(before) + Abs(delta));
      } else {
        var closed := Min(Abs(before), Abs(delta));
        realized := Times(Times(closed, price - entry), Sign(before));
        if after == 0.0 {
          averageEntry := 0.0;
        } else if Sign(after) != Sign(before) {
          averageEntry := price;
        }
      }
      quantity := after;
    }
  }

  /**
  The one-trade identity: what a trade realizes plus the change of the unrealized profit is the
  traded quantity times the distance from the fill to the mark, at every mark.
  */
  lemma TradeIdentity(p: Pos, delta: real, price: real)
    ensures forall mark :: Realized(p, delta, price) + Unrealized(Traded(p, delta, price), mark) - Unrealized(p, mark)
                           == Times(delta, mark - price)
  {
  }

  lemma TimesZero(x: real)
    ensures Times(0.0, x) == 0.0
  {
  }

  function FundingCashflow(quantity: real, mark: real, rate: real): real {
    -Times(Times(quantity, mark), rate)
  }

  // ---------------------------------------------------------------- order sizes

  /** Rounds towards zero to a multiple of the step. */
  function FloorStep(value: real, step: real): real {
    if step <= 0.0 then value
    else Times(Sign(value), Times((Abs(value) / step).Floor as real, step))
  }

  function TargetQuantity(notional: real, price: real, spec: Spec): Result<real, Error> {
    if price <= 0.0 then Err(NonPositivePrice) else
    var quantity := FloorStep(notional / price, spec.quantityStep);
    if Abs(quantity) < spec.minimumQuantity || Abs(Times(quantity, price)) < spec.minimumNotional then Ok(0.0)
    else if Abs(quantity) > spec.maximumMarketQuantity then Err(QuantityTooLarge)
    else Ok(quantity)
  }

  /** Rounding never changes the side, never grows the order, and loses less than one step. */
  lemma FloorStepTowardsZero(value: real, step: real)
    requires step > 0.0
    ensures var r := FloorStep(value, step);
            && Abs(r) <= Abs(value) < Abs(r) + step
            && (r != 0.0 ==> Sign(r) == Sign(value))
  {
    var x := Abs(value) / step;
    var k := x.Floor as real;
    assert k <= x < k + 1.0;
    FloorNonneg(Abs(value), step);
    hide Times;
    DivTimes(Abs(value), step);
    TimesMono(k, x, step);
    TimesStrict(x, k + 1.0, step);
    TimesLinear(step, k, 1.0);
    TimesOne(step);
    TimesSwap(step, k, 0.0);
    TimesNonneg(k, step);
    TimesOne(Times(k, step));
    TimesNeg(1.0, Times(k, step));
  }

  lemma FloorNonneg(x: real, step: real)
    requires x >= 0.0 && step > 0.0
    ensures (x / step).Floor >= 0
  {
    assert x / step >= 0.0;
  }

  // ---------------------------------------------------------------- margin

  const TIER_TOLERANCE: real := 0.000000001

  /** The index of the first tier whose limit covers the notional, or of the last one. */
  function TierIndex(notional: real, tiers: seq<Tier>): (k: nat)
    requires tiers != []
    ensures k < |tiers|
    ensures forall j :: 0 <= j < k ==> notional > tiers[j].limit + TIER_TOLERANCE
    ensures notional <= tiers[k].limit + TIER_TOLERANCE || k == |tiers| - 1
  {
    if notional <= tiers[0].limit + TIER_TOLERANCE || |tiers| == 1 then 0
    else 1 + TierIndex(notional, tiers[1..])
  }

  datatype Detail = Detail(notional: real, initial: real, maintenance: real, tierLimit: real)

  datatype Margin = Margin(initial: real, maintenance: real, details: seq<Detail>)

  function DetailOf(p: Pos, mark: real, tiers: seq<Tier>, leverage: real, feeRate: real): Result<Detail, Error> {
    var notional := Times(Abs(p.quantity), mark);
    if notional <= 0.0 then Ok(Detail(0.0, 0.0, 0.0, 0.0))
    else if tiers == [] then Err(NoRiskTiers) else
    var tier := tiers[TierIndex(notional, tiers)];
    var effective := Min(leverage, tier.maximumLeverage);
    if effective == 0.0 then Err(ZeroLeverage) else
    var fee := Times(notional, feeRate);
    Ok(Detail(notional,
              Times(notional, Max(1.0 / effective, tier.initialRate)) + fee,
              Max(Times(notional, tier.maintenanceRate) - tier.deduction, 0.0) + fee,
              tier.limit))
  }

  /** Totals and details of the first `k` positions. */
  function MarginOf(ps: seq<Pos>, marks: seq<real>, tiers: seq<seq<Tier>>, leverage: real, feeRate: real, k: nat): (r: Result<Margin, Error>)
    requires k <= |ps| == |marks| == |tiers|
    ensures r.Ok? ==> |r.value.details| == k
  {
    if k == 0 then Ok(Margin(0.0, 0.0, [])) else
    match MarginOf(ps, marks, tiers, leverage, feeRate, k - 1)
    case Err(e) => Err(e)
    case Ok(m) =>
      match DetailOf(ps[k - 1], marks[k - 1], tiers[k - 1], leverage, feeRate)
      case Err(e) => Err(e)
      case Ok(d) => Ok(Margin(m.initial + d.initial, m.maintenance + d.maintenance, m.details + [d]))
  }

  lemma {:induction false} MarginErrorLasts(ps: seq<Pos>, marks: seq<real>, tiers: seq<seq<Tier>>, leverage: real, feeRate: real, k: nat, n: nat)
    requires k <= n <= |ps| == |marks| == |tiers| && MarginOf(ps, marks, tiers, leverage, feeRate, k).Err?
    ensures MarginOf(ps, marks, tiers, leverage, feeRate, n) == MarginOf(ps, marks, tiers, leverage, feeRate, k)
  {
    hide DetailOf;
    if k < n { MarginErrorLasts(ps, marks, tiers, leverage, feeRate, k, n - 1); }
  }

  method MarginRequirements(ps: seq<Pos>, marks: seq<real>, tiers: seq<seq<Tier>>, leverage: real, feeRate: real)
    returns (r: Result<Margin, Error>)
    requires |ps| == |marks| == |tiers|
    ensures r == MarginOf(ps, marks, tiers, leverage, feeRate, |ps|)
  {
    hide DetailOf;
    var initial, maintenance, details := 0.0, 0.0, [];
    for i := 0 to |ps|
      invariant MarginOf(ps, marks, tiers, leverage, feeRate, i) == Ok(Margin(initial, maintenance, details))
    {
      var d := DetailOf(ps[i], marks[i], tiers[i], leverage, feeRate);
      if d.Err? {
        MarginErrorLasts(ps, marks, tiers, leverage, feeRate, i + 1, |ps|);
        return Err(d.error);
      }
      initial := initial + d.value.initial;
      maintenance := maintenance + d.value.maintenance;
      details := details + [d.value];
    }
    r := Ok(Margin(initial, maintenance, details));
  }

  // ---------------------------------------------------------------- fills

  datatype Minute = Minute(volume: real, turnover: real)

  function Volume(window: seq<Minute>): real {
    if window == [] then 0.0 else Volume(window[..|window| - 1]) + window[|window| - 1].volume
  }

  function Turnover(window: seq<Minute>): real {
    if window == [] then 0.0 else Turnover(window[..|window| - 1]) + window[|window| - 1].turnover
  }

  function MinuteVwap(window: seq<Minute>): Option<real> {
    if window == [] || Volume(window) <= 0.0 || Turnover(window) <= 0.0 then None
    else Some(Turnover(window) / Volume(window))
  }

  datatype Profile = Profile(
    initialCash: real, feeBps: real, spreadBps: real, impactFloorBps: real, impactBpsPerTenPercent: real,
    fallbackSlippageBps: real, accountLeverage: real, liquidationFeeBps: real)

  /** The magnitude of `x` with the sign of `side`. */
  function CopySign(x: real, side: real): real { if side < 0.0 then -Abs(x) else Abs(x) }

  /** The price on the far side of `base` by the given rate. */
  function Worse(base: real, side: real, rate: real): real {
    Times(base, 1.0 + CopySign(rate, side))
  }

  function ImpactBps(notional: real, turnover: real, p: Profile): real {
    p.spreadBps / 2.0 + p.impactFloorBps + Times(notional / Max(turnover, 1.0) / 0.10, p.impactBpsPerTenPercent)
  }

  /** The fill price of an order: minute VWAP with impact, or the bar open with the fallback slippage. */
  function OrderPrice(delta: real, open: real, window: seq<Minute>, p: Profile): real {
    match MinuteVwap(window)
    case None => Worse(open, delta, p.fallbackSlippageBps / 10000.0)
    case Some(vwap) => Worse(vwap, delta, ImpactBps(Times(Abs(delta), vwap), Turnover(window), p) / 10000.0)
  }
}
