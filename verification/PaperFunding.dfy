/** What funding takes and gives: per observation, between opposite positions, and over every run. */
module PaperFunding {
  import opened Prelude
  import opened Reals
  import opened Derivatives
  import opened PaperStep
  import opened PaperStepLaws
  import opened PaperLedger
  import opened PaperLedgerLaws

  // ---------------------------------------------------------------- what is due

  /** What a position pays at the first `k` rates. */
  function Owed(quantity: real, mark: real, rates: seq<real>, k: nat): real
    requires k <= |rates|
  {
    if k == 0 then 0.0 else Owed(quantity, mark, rates, k - 1) + quantity * mark * rates[k - 1]
  }

  /** What the first `k` positions pay at the rates and opening marks of the observation. */
  function FundingDue(ps: seq<Pos>, o: Observation, k: nat): real
    requires Shaped(o, |ps|) && k <= |ps|
  {
    if k == 0 then 0.0 else
    FundingDue(ps, o, k - 1) + Owed(ps[k - 1].quantity, o.marks[k - 1].open, o.fundingRates[k - 1], |o.fundingRates[k - 1]|)
  }

  /** How many funding rates there were for the first `k` symbols, and how many were expected. */
  function Rates(o: Observation, k: nat): nat
    requires k <= |o.fundingRates|
  {
    if k == 0 then 0 else Rates(o, k - 1) + |o.fundingRates[k - 1]|
  }

  function ExpectedRates(o: Observation, k: nat): int
    requires k <= |o.expectedFunding|
  {
    if k == 0 then 0 else ExpectedRates(o, k - 1) + o.expectedFunding[k - 1]
  }

  lemma CashflowIs(quantity: real, mark: real, rate: real)
    ensures FundingCashflow(quantity, mark, rate) == -(quantity * mark * rate)
  {
  }

  lemma {:induction false} FundRatesPay(row: Row, asset: nat, mark: real, rates: seq<real>, k: nat)
    requires asset < |row.positions| && k <= |rates|
    ensures var r, due := FundRates(row, asset, mark, rates, k), Owed(row.positions[asset].quantity, mark, rates, k);
            && r.wallet == row.wallet - due && r.funding == row.funding - due && r.positions == row.positions
            && r.actualFunding == row.actualFunding + k && r.expectedFunding == row.expectedFunding
  {
    hide FundingCashflow;
    if k > 0 {
      FundRatesPay(row, asset, mark, rates, k - 1);
      CashflowIs(row.positions[asset].quantity, mark, rates[k - 1]);
    }
  }

  lemma {:induction false} FundedPays(row: Row, o: Observation, k: nat)
    requires RowShaped(row, |o.marks|) && Shaped(o, |o.marks|) && k <= |o.marks|
    ensures var r := Funded(row, o, k);
            && r.wallet == row.wallet - FundingDue(row.positions, o, k) && r.funding == row.funding - FundingDue(row.positions, o, k)
            && r.positions == row.positions
            && r.actualFunding == row.actualFunding + Rates(o, k) && r.expectedFunding == row.expectedFunding + ExpectedRates(o, k)
  {
    hide FundRates, Owed;
    if k > 0 {
      FundedPays(row, o, k - 1);
      FundRatesPay(Expect(Funded(row, o, k - 1), o.expectedFunding[k - 1]), k - 1, o.marks[k - 1].open,
                   o.fundingRates[k - 1], |o.fundingRates[k - 1]|);
    }
  }

  lemma SettledFunding(row: Row, o: Observation, p: Profile)
    requires RowShaped(row, |o.marks|) && Shaped(o, |o.marks|) && Settled(row, o, p).Ok?
    ensures var r := Settled(row, o, p).value;
            r.funding == row.funding && r.actualFunding == row.actualFunding && r.expectedFunding == row.expectedFunding
  {
    hide MarginOf, OpenProfit, Liquidated, TierUse, Max, Liquidates;
    var m := MarginOf(row.positions, Closes(o.marks), o.tiers, p.accountLeverage, FeeRate(p), |o.marks|).value;
    var used := Used(row, m, Equity(row.wallet, row.positions, Closes(o.marks)));
    LiquidatedKeeps(CountLiquidation(used), Adverse(row.positions, o.marks), LiquidationRate(p), |o.marks|);
  }

  /**
  One observation: the funding total moves by minus the sum, over the positions held before it and
  their rates, of quantity times opening mark times rate, and every rate is counted.
  */
  lemma StepPaysFunding(row: Row, o: Observation, name: ProfileName, p: Profile)
    requires RowShaped(row, |o.marks|) && Shaped(o, |o.marks|) && Stepped(row, o, name, p).Ok?
    ensures var r := Stepped(row, o, name, p).value;
            && r.funding == row.funding - FundingDue(row.positions, o, |o.marks|)
            && r.actualFunding == row.actualFunding + Rates(o, |o.marks|)
            && r.expectedFunding == row.expectedFunding + ExpectedRates(o, |o.marks|)
  {
    hide Funded, Rebalanced, Settled, FundingDue;
    FundedPays(row, o, |o.marks|);
    RebalancedKeeps(Funded(row, o, |o.marks|), o, name, p);
    SettledFunding(Rebalanced(Funded(row, o, |o.marks|), o, name, p).value, o, p);
  }

  // ---------------------------------------------------------------- who pays whom

  lemma {:induction false} OwedSides(quantity: real, mark: real, rates: seq<real>, k: nat)
    requires k <= |rates| && mark >= 0.0 && forall i :: 0 <= i < k ==> rates[i] >= 0.0
    ensures quantity >= 0.0 ==> Owed(quantity, mark, rates, k) >= 0.0
    ensures quantity <= 0.0 ==> Owed(quantity, mark, rates, k) <= 0.0
  {
    if k > 0 {
      OwedSides(quantity, mark, rates, k - 1);
      var notional := quantity * mark;
      assert quantity >= 0.0 ==> notional >= 0.0;
      assert quantity <= 0.0 ==> notional <= 0.0;
      assert notional >= 0.0 ==> notional * rates[k - 1] >= 0.0;
      assert notional <= 0.0 ==> notional * rates[k - 1] <= 0.0;
    }
  }

  predicate RatesNonneg(o: Observation) {
    forall a, i :: 0 <= a < |o.fundingRates| && 0 <= i < |o.fundingRates[a]| ==> o.fundingRates[a][i] >= 0.0
  }

  predicate OpensNonneg(o: Observation) { forall a :: 0 <= a < |o.marks| ==> o.marks[a].open >= 0.0 }

  lemma {:induction false} DueSides(ps: seq<Pos>, o: Observation, k: nat)
    requires Shaped(o, |ps|) && k <= |ps| && RatesNonneg(o) && OpensNonneg(o)
    ensures (forall a :: 0 <= a < |ps| ==> ps[a].quantity >= 0.0) ==> FundingDue(ps, o, k) >= 0.0
    ensures (forall a :: 0 <= a < |ps| ==> ps[a].quantity <= 0.0) ==> FundingDue(ps, o, k) <= 0.0
  {
    hide Owed;
    if k > 0 {
      DueSides(ps, o, k - 1);
      OwedSides(ps[k - 1].quantity, o.marks[k - 1].open, o.fundingRates[k - 1], |o.fundingRates[k - 1]|);
    }
  }

  /** At rates that are not negative an account of longs never gains by funding, and one of shorts never loses. */
  lemma LongsPayShorts(row: Row, o: Observation, name: ProfileName, p: Profile)
    requires RowShaped(row, |o.marks|) && Shaped(o, |o.marks|) && Stepped(row, o, name, p).Ok? && RatesNonneg(o) && OpensNonneg(o)
    ensures (forall a :: 0 <= a < |row.positions| ==> row.positions[a].quantity >= 0.0) ==>
              Stepped(row, o, name, p).value.funding <= row.funding
    ensures (forall a :: 0 <= a < |row.positions| ==> row.positions[a].quantity <= 0.0) ==>
              Stepped(row, o, name, p).value.funding >= row.funding
  {
    hide Stepped, FundingDue, RatesNonneg, OpensNonneg;
    StepPaysFunding(row, o, name, p);
    DueSides(row.positions, o, |o.marks|);
  }

  predicate Opposite(ps: seq<Pos>, qs: seq<Pos>) {
    |ps| == |qs| && forall a :: 0 <= a < |ps| ==> qs[a].quantity == -ps[a].quantity
  }

  lemma {:induction false} OwedOpposite(quantity: real, mark: real, rates: seq<real>, k: nat)
    requires k <= |rates|
    ensures Owed(-quantity, mark, rates, k) == -Owed(quantity, mark, rates, k)
  {
    if k > 0 {
      OwedOpposite(quantity, mark, rates, k - 1);
      assert (-quantity) * mark * rates[k - 1] == -(quantity * mark * rates[k - 1]);
    }
  }

  lemma {:induction false} DueOpposite(ps: seq<Pos>, qs: seq<Pos>, o: Observation, k: nat)
    requires Shaped(o, |ps|) && k <= |ps| && Opposite(ps, qs)
    ensures FundingDue(qs, o, k) == -FundingDue(ps, o, k)
  {
    hide Owed;
    if k > 0 {
      DueOpposite(ps, qs, o, k - 1);
      OwedOpposite(ps[k - 1].quantity, o.marks[k - 1].open, o.fundingRates[k - 1], |o.fundingRates[k - 1]|);
    }
  }

  /** Two accounts with opposite positions exchange exactly what the other pays. */
  lemma OppositesExchange(row: Row, other: Row, o: Observation, name: ProfileName, p: Profile, otherName: ProfileName, q: Profile)
    requires RowShaped(row, |o.marks|) && RowShaped(other, |o.marks|) && Shaped(o, |o.marks|) && Opposite(row.positions, other.positions)
    requires Stepped(row, o, name, p).Ok? && Stepped(other, o, otherName, q).Ok?
    ensures Stepped(row, o, name, p).value.funding - row.funding
            == -(Stepped(other, o, otherName, q).value.funding - other.funding)
    ensures Funded(row, o, |o.marks|).wallet - row.wallet == -(Funded(other, o, |o.marks|).wallet - other.wallet)
  {
    hide Stepped, Funded, FundingDue;
    StepPaysFunding(row, o, name, p);
    StepPaysFunding(other, o, otherName, q);
    FundedPays(row, o, |o.marks|);
    FundedPays(other, o, |o.marks|);
    DueOpposite(row.positions, other.positions, o, |o.marks|);
  }

  // ---------------------------------------------------------------- over every run

  function RowOf(core: Core, name: ProfileName): Row {
    if name == Conservative then core.conservative else core.stress
  }

  /** What one profile pays over the observations of a batch. */
  function DueOf(core: Core, observations: seq<Observation>, config: Config, source: int, name: ProfileName): real
    requires CoreShaped(core, config.symbols) && AllShaped(observations, config.symbols)
  {
    if observations == [] then 0.0 else
    var last := |observations| - 1;
    DueOf(core, observations[..last], config, source, name)
    + match ObservedAll(core, observations[..last], config, source)
      case Err(_) => 0.0
      case Ok(before) => FundingDue(RowOf(before, name).positions, observations[last], config.symbols)
  }

  lemma {:induction false} ObservedPays(core: Core, observations: seq<Observation>, config: Config, source: int, name: ProfileName)
    requires CoreShaped(core, config.symbols) && AllShaped(observations, config.symbols)
    requires ObservedAll(core, observations, config, source).Ok?
    ensures RowOf(ObservedAll(core, observations, config, source).value, name).funding
            == RowOf(core, name).funding - DueOf(core, observations, config, source, name)
  {
    hide Stepped, Guard, NewEvent, FundingDue;
    if observations != [] {
      var last := |observations| - 1;
      ObservedPays(core, observations[..last], config, source, name);
      var before, o := ObservedAll(core, observations[..last], config, source).value, observations[last];
      ShapedHere(before, o, config.symbols);
      StepPaysFunding(before.conservative, o, Conservative, config.conservative);
      StepPaysFunding(before.stress, o, Stress, config.stress);
    }
  }

  /** What one profile pays over all batches that succeed. */
  function DueOfBatches(s: State, batches: seq<Batch>, config: Config, name: ProfileName): real
    requires CoreShaped(s.core, config.symbols) && BatchesShaped(batches, config.symbols)
  {
    if batches == [] then 0.0 else
    var rest, b := batches[..|batches| - 1], batches[|batches| - 1];
    var before := AfterBatches(s, rest, config);
    DueOfBatches(s, rest, config, name)
    + if Applied(before, b.observations, config, b.source, b.run).Ok? then DueOf(before.core, b.observations, config, b.source, name) else 0.0
  }

  lemma AppliedPays(s: State, observations: seq<Observation>, config: Config, source: int, run: int, name: ProfileName)
    requires CoreShaped(s.core, config.symbols) && AllShaped(observations, config.symbols)
    requires Applied(s, observations, config, source, run).Ok?
    ensures RowOf(Applied(s, observations, config, source, run).value.core, name).funding
            == RowOf(s.core, name).funding - DueOf(s.core, observations, config, source, name)
  {
    hide ObservedAll, Completion, CoreShaped, Shaped, DueOf;
    ObservedPays(s.core, observations, config, source, name);
  }

  lemma {:induction false} RunsPay(batches: seq<Batch>, config: Config, source: int, run: int, name: ProfileName)
    requires BatchesShaped(batches, config.symbols)
    ensures RowOf(AfterBatches(NewState(config, source, run), batches, config).core, name).funding
            == -DueOfBatches(NewState(config, source, run), batches, config, name)
  {
    hide Applied, DueOf;
    if batches != [] {
      var rest, b := batches[..|batches| - 1], batches[|batches| - 1];
      RunsPay(rest, config, source, run, name);
      var before := AfterBatches(NewState(config, source, run), rest, config);
      if Applied(before, b.observations, config, b.source, b.run).Ok? {
        AppliedPays(before, b.observations, config, b.source, b.run, name);
      }
    }
  }
}
