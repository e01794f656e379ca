/** When a paper account is collected further, sent to review, or quarantined, over every run. */
module PaperVerdict {
  import opened Prelude
  import opened Reals
  import opened Derivatives
  import opened PaperStep
  import opened PaperStepLaws
  import opened PaperLedger
  import opened PaperLedgerLaws

  // ---------------------------------------------------------------- one verdict

  /** Too few days have passed since the start, or too few bars were completed. */
  predicate Early(core: Core, config: Config) {
    || core.barCount < config.minimumBars
    || (core.lastExecution.None? && config.minimumDays > 0)
    || (core.lastExecution.Some? && core.lastExecution.value - config.start < config.minimumDays * 86_400_000)
  }

  /** The account has grown by at least the given share of its initial cash. */
  predicate Grown(equity: real, initial: real, share: real) {
    if initial > 0.0 then equity >= initial + share * initial else equity <= initial + share * initial
  }

  /** `part` is at least the given share of `whole`, of which there is always one. */
  predicate Covered(part: nat, whole: int, share: real) {
    part as real >= share * (if whole >= 1 then whole as real else 1.0)
  }

  /** Every gate of one profile, on the numbers of its row. */
  predicate MeetsGate(row: Row, initial: real, gate: Gate) {
    && row.rejections == 0 && row.liquidations == 0
    && Grown(row.equity, initial, gate.totalReturn) && row.maximumDrawdown <= gate.drawdown
    && row.fillCount >= gate.fills && (forall i :: 0 <= i < |row.assetFills| ==> row.assetFills[i] >= gate.assetFills)
    && Covered(row.actualFunding, row.expectedFunding, gate.fundingCoverage)
    && Covered(row.hits, row.orders, gate.executionCoverage)
    && row.marginUse <= gate.marginUse && row.tierUse <= gate.tierUse
  }

  predicate BothMeet(core: Core, config: Config) {
    && MeetsGate(core.conservative, config.conservative.initialCash, config.conservativeGate)
    && MeetsGate(core.stress, config.stress.initialCash, config.stressGate)
  }

  /** The status and the decision say what the two rows and the elapsed time say. */
  predicate Judged(core: Core, config: Config) {
    && (core.status == Collecting <==> Early(core, config))
    && (core.status == ReviewRequired <==> !Early(core, config) && BothMeet(core, config))
    && (core.status == Quarantined <==> !Early(core, config) && !BothMeet(core, config))
    && (core.decision == Collect <==> core.status == Collecting)
    && (core.decision == OwnerReview <==> core.status == ReviewRequired)
    && (core.decision == NoPromotion <==> core.status == Quarantined)
  }

  lemma QuotientAtLeast(x: real, y: real, z: real)
    requires y > 0.0
    ensures x / y >= z <==> x >= z * y
  {
    var q := x / y;
    assert q * y == x;
    if q >= z { assert (q - z) * y >= 0.0; } else { assert (z - q) * y > 0.0; }
  }

  lemma GrownIff(equity: real, initial: real, share: real)
    requires initial != 0.0
    ensures equity / initial - 1.0 >= share <==> Grown(equity, initial, share)
  {
    var q := equity / initial;
    if initial > 0.0 {
      QuotientAtLeast(equity, initial, 1.0 + share);
      Distribute(share, initial);
      assert q >= 1.0 + share <==> equity >= initial + share * initial;
    } else {
      QuotientAtLeast(0.0 - equity, 0.0 - initial, 1.0 + share);
      SameQuotient(equity, initial);
      Distribute(share, 0.0 - initial);
      assert q >= 1.0 + share <==> 0.0 - equity >= (0.0 - initial) + share * (0.0 - initial);
      assert share * (0.0 - initial) == 0.0 - share * initial;
    }
  }

  lemma Distribute(share: real, x: real)
    ensures (1.0 + share) * x == x + share * x
  {
  }

  lemma SameQuotient(x: real, y: real)
    requires y < 0.0
    ensures x / y == (0.0 - x) / (0.0 - y)
  {
    var q, r := x / y, (0.0 - x) / (0.0 - y);
    assert q * y == x && r * (0.0 - y) == 0.0 - x;
    assert (q - r) * y == 0.0;
    if q != r { NoZeroDivisor(q - r, y); }
  }

  lemma NoZeroDivisor(x: real, y: real)
    requires x != 0.0 && y != 0.0
    ensures x * y != 0.0
  {
  }

  lemma PassesIff(row: Row, p: Profile, gate: Gate)
    requires p.initialCash != 0.0
    ensures Passes(row, p, gate) <==> MeetsGate(row, p.initialCash, gate)
  {
    hide Grown;
    GrownIff(row.equity, p.initialCash, gate.totalReturn);
    QuotientAtLeast(row.actualFunding as real, AtLeastOne(row.expectedFunding), gate.fundingCoverage);
    QuotientAtLeast(row.hits as real, AtLeastOne(row.orders), gate.executionCoverage);
  }

  /**
  After every batch: collected further exactly while the time or the bars do not suffice, sent to
  the owner's review exactly when they do and both rows meet every gate, quarantined otherwise.
  */
  lemma VerdictExact(s: State, observations: seq<Observation>, config: Config, source: int, run: int)
    requires CoreShaped(s.core, config.symbols) && AllShaped(observations, config.symbols)
    requires Applied(s, observations, config, source, run).Ok?
    ensures Judged(Applied(s, observations, config, source, run).value.core, config)
  {
    hide ObservedAll, Passes, MeetsGate;
    var core := ObservedAll(s.core, observations, config, source).value;
    if config.conservative.initialCash != 0.0 { PassesIff(core.conservative, config.conservative, config.conservativeGate); }
    if config.stress.initialCash != 0.0 { PassesIff(core.stress, config.stress, config.stressGate); }
  }

  // ---------------------------------------------------------------- counters never fall

  /** Refused orders and forced exits, once counted, stay counted. */
  predicate Counted(row: Row, after: Row) {
    row.rejections <= after.rejections && row.liquidations <= after.liquidations
  }

  /** The bar counts one forced exit exactly when its adverse extreme leaves no more than the maintenance margin. */
  lemma SettledCounts(row: Row, o: Observation, p: Profile)
    requires RowShaped(row, |o.marks|) && Shaped(o, |o.marks|) && Settled(row, o, p).Ok?
    ensures Settled(row, o, p).value.rejections == row.rejections
    ensures var adverse := Adverse(row.positions, o.marks);
            var worst := MarginOf(row.positions, adverse, o.tiers, p.accountLeverage, FeeRate(p), |o.marks|);
            && worst.Ok?
            && Settled(row, o, p).value.liquidations
               == row.liquidations
                  + if 0.0 < worst.value.maintenance && Equity(row.wallet, row.positions, adverse) <= worst.value.maintenance then 1 else 0
  {
    hide MarginOf, OpenProfit, Liquidated, TierUse, Max;
    var adverse := Adverse(row.positions, o.marks);
    var m := MarginOf(row.positions, Closes(o.marks), o.tiers, p.accountLeverage, FeeRate(p), |o.marks|).value;
    var used := Used(row, m, Equity(row.wallet, row.positions, Closes(o.marks)));
    LiquidatedKeeps(CountLiquidation(used), adverse, LiquidationRate(p), |o.marks|);
  }

  lemma StepCounted(row: Row, o: Observation, name: ProfileName, p: Profile)
    requires RowShaped(row, |o.marks|) && Shaped(o, |o.marks|) && Stepped(row, o, name, p).Ok?
    ensures Counted(row, Stepped(row, o, name, p).value)
  {
    hide Funded, Rebalanced, Settled, MarginOf, OpenProfit;
    var funded := Funded(row, o, |o.marks|);
    FundedKeeps(row, o, |o.marks|);
    RebalancedKeeps(funded, o, name, p);
    SettledCounts(Rebalanced(funded, o, name, p).value, o, p);
  }

  predicate BothCounted(core: Core, after: Core) {
    Counted(core.conservative, after.conservative) && Counted(core.stress, after.stress)
  }

  lemma {:induction false} ObservedCounted(core: Core, observations: seq<Observation>, config: Config, source: int)
    requires CoreShaped(core, config.symbols) && AllShaped(observations, config.symbols)
    requires ObservedAll(core, observations, config, source).Ok?
    ensures BothCounted(core, ObservedAll(core, observations, config, source).value)
  {
    hide Stepped, RowShaped, Shaped, Guard, NewEvent;
    if observations != [] {
      var last := |observations| - 1;
      ObservedCounted(core, observations[..last], config, source);
      var before, o := ObservedAll(core, observations[..last], config, source).value, observations[last];
      ShapedHere(before, o, config.symbols);
      StepCounted(before.conservative, o, Conservative, config.conservative);
      StepCounted(before.stress, o, Stress, config.stress);
    }
  }

  lemma AppliedCounted(s: State, observations: seq<Observation>, config: Config, source: int, run: int)
    requires CoreShaped(s.core, config.symbols) && AllShaped(observations, config.symbols)
    requires Applied(s, observations, config, source, run).Ok?
    ensures BothCounted(s.core, Applied(s, observations, config, source, run).value.core)
  {
    hide ObservedAll, Completion, CoreShaped, Shaped;
    ObservedCounted(s.core, observations, config, source);
  }

  // ---------------------------------------------------------------- over every run

  /** Before the first batch the state waits; after it, the verdict of the last batch fits the rows as they are. */
  lemma {:induction false} RunsJudged(batches: seq<Batch>, config: Config, source: int, run: int)
    requires BatchesShaped(batches, config.symbols)
    ensures var core := AfterBatches(NewState(config, source, run), batches, config).core;
            core == NewCore(config, source, run) || Judged(core, config)
  {
    hide Applied, Judged, NewRow;
    if batches != [] {
      var rest, b := batches[..|batches| - 1], batches[|batches| - 1];
      RunsJudged(rest, config, source, run);
      var before := AfterBatches(NewState(config, source, run), rest, config);
      if Applied(before, b.observations, config, b.source, b.run).Ok? {
        VerdictExact(before, b.observations, config, b.source, b.run);
      }
    }
  }

  lemma {:induction false} RunsCounted(s: State, a: seq<Batch>, b: seq<Batch>, config: Config)
    requires CoreShaped(s.core, config.symbols) && BatchesShaped(a, config.symbols) && BatchesShaped(b, config.symbols)
    ensures BatchesShaped(a + b, config.symbols)
    ensures BothCounted(AfterBatches(s, a, config).core, AfterBatches(s, a + b, config).core)
  {
    hide Applied, CoreShaped, AllShaped;
    if b == [] {
      assert a + b == a;
    } else {
      var rest, last := b[..|b| - 1], b[|b| - 1];
      RunsCounted(s, a, rest, config);
      assert (a + b)[..|a + b| - 1] == a + rest;
      var before := AfterBatches(s, a + rest, config);
      if Applied(before, last.observations, config, last.source, last.run).Ok? {
        AppliedCounted(before, last.observations, config, last.source, last.run);
      }
    }
  }

  /** Was an order refused or the account forced out in this row? */
  predicate Marred(row: Row) { row.rejections > 0 || row.liquidations > 0 }

  /** Once a profile had an order refused or was liquidated, no later batch sends the account to review. */
  lemma MarredIsNeverReviewed(a: seq<Batch>, b: seq<Batch>, config: Config, source: int, run: int)
    requires BatchesShaped(a, config.symbols) && BatchesShaped(b, config.symbols)
    requires var core := AfterBatches(NewState(config, source, run), a, config).core; Marred(core.conservative) || Marred(core.stress)
    ensures BatchesShaped(a + b, config.symbols)
    ensures var core := AfterBatches(NewState(config, source, run), a + b, config).core;
            core.status != ReviewRequired && core.decision != OwnerReview
  {
    hide AfterBatches, Early;
    RunsCounted(NewState(config, source, run), a, b, config);
    RunsJudged(a + b, config, source, run);
  }
}
