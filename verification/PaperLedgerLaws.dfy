/** Batches, verification and conservation of the prospective paper ledger. */
module PaperLedgerLaws {
  import opened Prelude
  import opened Reals
  import opened Derivatives
  import opened PaperStep
  import opened PaperStepLaws
  import opened PaperLedger

  // ---------------------------------------------------------------- batches

  lemma {:induction false} ObservedAppend(core: Core, a: seq<Observation>, b: seq<Observation>, config: Config, source: int)
    requires CoreShaped(core, config.symbols) && AllShaped(a, config.symbols) && AllShaped(b, config.symbols)
    ensures AllShaped(a + b, config.symbols)
    ensures ObservedAll(core, a + b, config, source)
            == match ObservedAll(core, a, config, source)
               case Err(f) => Err(f)
               case Ok(middle) => ObservedAll(middle, b, config, source)
    decreases |b|
  {
    hide Observed, CoreShaped, Shaped;
    if b == [] {
      assert a + b == a;
    } else {
      var last := |b| - 1;
      ObservedAppend(core, a, b[..last], config, source);
      assert (a + b)[..|a + b| - 1] == a + b[..last];
    }
  }

  /** The fields that a batch reads: everything but what closing a batch writes. */
  predicate SameInputs(c: Core, d: Core) {
    c == d.(lastRun := c.lastRun, source := c.source, status := c.status, decision := c.decision,
            paperOnly := c.paperOnly, live := c.live, credentials := c.credentials, promotion := c.promotion)
  }

  lemma OneFromClosed(c: Core, d: Core, o: Observation, config: Config, source: int)
    requires CoreShaped(c, config.symbols) && CoreShaped(d, config.symbols) && Shaped(o, config.symbols) && SameInputs(c, d)
    ensures match Observed(c, o, config, source)
            case Err(f) => Observed(d, o, config, source) == Err(f)
            case Ok(x) => Observed(d, o, config, source).Ok? && SameInputs(x, Observed(d, o, config, source).value)
  {
    hide Stepped, RowShaped, Shaped;
  }

  /** What observing does never depends on the fields that closing a batch writes. */
  lemma {:induction false} ObservedFromClosed(c: Core, d: Core, observations: seq<Observation>, config: Config, source: int)
    requires CoreShaped(c, config.symbols) && CoreShaped(d, config.symbols) && AllShaped(observations, config.symbols) && SameInputs(c, d)
    ensures match ObservedAll(c, observations, config, source)
            case Err(f) => ObservedAll(d, observations, config, source) == Err(f)
            case Ok(x) => ObservedAll(d, observations, config, source).Ok?
                          && SameInputs(x, ObservedAll(d, observations, config, source).value)
  {
    hide Observed, CoreShaped, Shaped, SameInputs;
    if observations != [] {
      var last := |observations| - 1;
      var before := observations[..last];
      ObservedFromClosed(c, d, before, config, source);
      if ObservedAll(c, before, config, source).Ok? {
        OneFromClosed(ObservedAll(c, before, config, source).value, ObservedAll(d, before, config, source).value,
                      observations[last], config, source);
      }
    }
  }

  lemma ClosedOfSame(x: Core, y: Core, config: Config, source: int, run: int)
    requires SameInputs(x, y)
    ensures Closed(x, config, source, run) == Closed(y, config, source, run)
  {
    hide Passes;
  }

  /**
  Applying `a` and then `b`, with advancing run ids, is applying `a + b` at the last run id. If `a`
  fails, the joined batch fails with the same error, unless it was only the verdict after `a` that
  could not be computed.
  */
  lemma BatchIndependence(s: State, a: seq<Observation>, b: seq<Observation>, config: Config, source: int, r1: int, r2: int)
    requires CoreShaped(s.core, config.symbols) && AllShaped(a, config.symbols) && AllShaped(b, config.symbols)
    requires s.core.lastRun < r1 < r2
    ensures AllShaped(a + b, config.symbols)
    ensures match Applied(s, a, config, source, r1)
            case Ok(middle) => Applied(middle, b, config, source, r2) == Applied(s, a + b, config, source, r2)
            case Err(f) => f != NoInitialCash ==> Applied(s, a + b, config, source, r2) == Err(f)
  {
    hide ObservedAll, Completion, CoreShaped, Shaped;
    ObservedAppend(s.core, a, b, config, source);
    var first := Applied(s, a, config, source, r1);
    if first.Ok? {
      var middle := ObservedAll(s.core, a, config, source).value;
      ObservedFromClosed(middle, first.value.core, b, config, source);
      var whole := ObservedAll(middle, b, config, source);
      if whole.Ok? {
        ClosedOfSame(whole.value, ObservedAll(first.value.core, b, config, source).value, config, source, r2);
      }
    } else if ObservedAll(s.core, a, config, source).Ok? {
      VerdictError(s.core, a, config, source, r1);
    }
  }

  lemma VerdictError(core: Core, a: seq<Observation>, config: Config, source: int, run: int)
    requires CoreShaped(core, config.symbols) && AllShaped(a, config.symbols) && ObservedAll(core, a, config, source).Ok?
    ensures var r := Closed(ObservedAll(core, a, config, source).value, config, source, run); r.Err? ==> r == Err(NoInitialCash)
  {
    hide ObservedAll, Passes;
  }

  // ---------------------------------------------------------------- verification

  lemma NewStateAccepted(config: Config, source: int, run: int)
    ensures Accepts(NewState(config, source, run), config)
  {
  }

  lemma ExtendedAccepted(core: Core, o: Observation, config: Config, source: int, conservative: Row, stress: Row)
    requires CoreAccepted(core, config)
    ensures CoreAccepted(Extended(core, o, source, conservative, stress), config)
  {
    var e := NewEvent(core, o, source);
    var events := core.events + [e];
    assert events[..|events| - 1] == core.events;
  }

  lemma {:induction false} ObservedAccepted(core: Core, observations: seq<Observation>, config: Config, source: int)
    requires CoreShaped(core, config.symbols) && AllShaped(observations, config.symbols)
    requires CoreAccepted(core, config) && ObservedAll(core, observations, config, source).Ok?
    ensures CoreAccepted(ObservedAll(core, observations, config, source).value, config)
  {
    hide Stepped, Extended, CoreAccepted, RowShaped, Shaped;
    if observations != [] {
      var last := |observations| - 1;
      ObservedAccepted(core, observations[..last], config, source);
      var before, o := ObservedAll(core, observations[..last], config, source).value, observations[last];
      ShapedHere(before, o, config.symbols);
      ExtendedAccepted(before, o, config, source, Stepped(before.conservative, o, Conservative, config.conservative).value,
                       Stepped(before.stress, o, Stress, config.stress).value);
    }
  }

  /** Verification accepts every state that a batch makes of an accepted state. */
  lemma AppliedAccepted(s: State, observations: seq<Observation>, config: Config, source: int, run: int)
    requires CoreShaped(s.core, config.symbols) && AllShaped(observations, config.symbols)
    requires Accepts(s, config) && Applied(s, observations, config, source, run).Ok?
    ensures Accepts(Applied(s, observations, config, source, run).value, config)
  {
    hide ObservedAll, Completion, CoreShaped, Shaped, Chain;
    ObservedAccepted(s.core, observations, config, source);
  }

  /** Event `i` is intact, paper only, and names its place and the digest of the event before it. */
  predicate InPlace(events: seq<Event>, i: nat)
    requires i < |events|
  {
    var e := events[i];
    && e.digest == OfEvent(e.core) && e.core.schema == 1 && e.core.sequence == i + 1 && e.core.paperOnly && !e.core.live
    && e.core.previous == if i == 0 then Zero else events[i - 1].digest
  }

  lemma {:induction false} ChainIff(events: seq<Event>)
    ensures Chain(events) <==> forall i :: 0 <= i < |events| ==> InPlace(events, i)
  {
    if events != [] {
      var last := |events| - 1;
      var rest := events[..last];
      ChainIff(rest);
      forall i | 0 <= i < last ensures InPlace(rest, i) <==> InPlace(events, i) {
      }
      assert InPlace(events, last) <==> Linked(events[last], |events|, Head(rest));
      hide InPlace;
    }
  }

  /** A state is accepted exactly with its own digest, the frozen identities and refusals, and an intact chain that ends where it says. */
  lemma AcceptsIff(s: State, config: Config)
    ensures Accepts(s, config) <==>
              var core := s.core;
              && s.digest == OfState(core) && core.contract == config.contract
              && core.paperOnly && !core.live && !core.credentials && !core.promotion
              && core.barCount == |core.events| && (forall i :: 0 <= i < |core.events| ==> InPlace(core.events, i))
              && (core.events == [] ==> core.lastExecution == None)
              && (core.events != [] ==> core.lastExecution == Some(core.events[|core.events| - 1].core.execution))
  {
    ChainIff(s.core.events);
    hide Chain, InPlace;
  }

  /** The digest of the last event determines the whole log. */
  lemma {:induction false} HeadDeterminesLog(x: seq<Event>, y: seq<Event>)
    requires Chain(x) && Chain(y) && Head(x) == Head(y)
    ensures x == y
  {
    if x != [] && y != [] {
      var lastX, lastY := |x| - 1, |y| - 1;
      assert x[lastX].core == y[lastY].core;
      HeadDeterminesLog(x[..lastX], y[..lastY]);
      assert x == x[..lastX] + [x[lastX]] && y == y[..lastY] + [y[lastY]];
    }
  }

  /** The observations that a log attests. */
  function Attested(events: seq<Event>): seq<Digest> {
    seq(|events|, i requires 0 <= i < |events| => events[i].core.market)
  }

  function Markets(observations: seq<Observation>): seq<Digest> {
    seq(|observations|, i requires 0 <= i < |observations| => OfMarket(observations[i]))
  }

  lemma {:induction false} ObservedAttests(core: Core, observations: seq<Observation>, config: Config, source: int)
    requires CoreShaped(core, config.symbols) && AllShaped(observations, config.symbols)
    requires ObservedAll(core, observations, config, source).Ok?
    ensures Attested(ObservedAll(core, observations, config, source).value.events) == Attested(core.events) + Markets(observations)
  {
    hide Stepped, RowShaped, Shaped, Guard;
    if observations != [] {
      var last := |observations| - 1;
      ObservedAttests(core, observations[..last], config, source);
      var before := ObservedAll(core, observations[..last], config, source).value;
      AttestedSnoc(before.events, NewEvent(before, observations[last], source));
      MarketsSnoc(observations);
    } else {
      assert Attested(core.events) + Markets([]) == Attested(core.events);
    }
  }

  lemma AttestedSnoc(events: seq<Event>, e: Event)
    ensures Attested(events + [e]) == Attested(events) + [e.core.market]
  {
  }

  lemma MarketsSnoc(observations: seq<Observation>)
    requires observations != []
    ensures Markets(observations) == Markets(observations[..|observations| - 1]) + [OfMarket(observations[|observations| - 1])]
  {
  }

  /**
  Two batches on one accepted state that end with the same head digest saw the same observations
  and hold the same two accounts.
  */
  lemma SameHeadSameAccounts(core: Core, a: seq<Observation>, b: seq<Observation>, config: Config, source: int, other: int)
    requires CoreShaped(core, config.symbols) && AllShaped(a, config.symbols) && AllShaped(b, config.symbols)
    requires CoreAccepted(core, config)
    requires ObservedAll(core, a, config, source).Ok? && ObservedAll(core, b, config, other).Ok?
    requires Head(ObservedAll(core, a, config, source).value.events) == Head(ObservedAll(core, b, config, other).value.events)
    ensures a == b
    ensures var x, y := ObservedAll(core, a, config, source).value, ObservedAll(core, b, config, other).value;
            x.conservative == y.conservative && x.stress == y.stress && x.events == y.events
  {
    hide ObservedAll, CoreShaped, Shaped;
    var x, y := ObservedAll(core, a, config, source).value, ObservedAll(core, b, config, other).value;
    ObservedAccepted(core, a, config, source);
    ObservedAccepted(core, b, config, other);
    HeadDeterminesLog(x.events, y.events);
    ObservedAttests(core, a, config, source);
    ObservedAttests(core, b, config, other);
    assert Markets(a) == Markets(b) by {
      var k := |Attested(core.events)|;
      assert Markets(a) == (Attested(core.events) + Markets(a))[k..];
      assert Markets(b) == (Attested(core.events) + Markets(b))[k..];
    }
    MarketsInjective(a, b);
    RowsIgnoreSource(core, a, config, source, other);
  }

  lemma MarketsInjective(a: seq<Observation>, b: seq<Observation>)
    requires Markets(a) == Markets(b)
    ensures a == b
  {
    assert |a| == |Markets(a)| == |Markets(b)| == |b|;
    forall i | 0 <= i < |a| ensures a[i] == b[i] {
      assert OfMarket(a[i]) == Markets(a)[i] == Markets(b)[i] == OfMarket(b[i]);
    }
  }

  lemma {:induction false} RowsIgnoreSource(core: Core, observations: seq<Observation>, config: Config, source: int, other: int)
    requires CoreShaped(core, config.symbols) && AllShaped(observations, config.symbols)
    requires ObservedAll(core, observations, config, source).Ok? && ObservedAll(core, observations, config, other).Ok?
    ensures var x, y := ObservedAll(core, observations, config, source).value, ObservedAll(core, observations, config, other).value;
            x.conservative == y.conservative && x.stress == y.stress
  {
    hide Stepped, RowShaped, Shaped, Guard;
    if observations != [] {
      RowsIgnoreSource(core, observations[..|observations| - 1], config, source, other);
    }
  }

  // ---------------------------------------------------------------- whole runs

  datatype Batch = Batch(observations: seq<Observation>, source: int, run: int)

  predicate BatchesShaped(batches: seq<Batch>, n: nat) {
    forall i :: 0 <= i < |batches| ==> AllShaped(batches[i].observations, n)
  }

  /** A failed batch saves nothing: the next one starts from the state before it. */
  function AfterBatches(s: State, batches: seq<Batch>, config: Config): (r: State)
    requires CoreShaped(s.core, config.symbols) && BatchesShaped(batches, config.symbols)
    ensures CoreShaped(r.core, config.symbols)
  {
    if batches == [] then s else
    var before := AfterBatches(s, batches[..|batches| - 1], config);
    var b := batches[|batches| - 1];
    match Applied(before, b.observations, config, b.source, b.run)
    case Err(_) => before
    case Ok(after) => after
  }

  /** Reported equity: the opening cash, or the account at closing marks. */
  predicate RowSound(row: Row, p: Profile, n: nat, closes: Option<seq<real>>) {
    && Audited(row, p, n)
    && 0.0 <= row.maximumDrawdown < 1.0
    && (closes.Some? ==> Reports(row, closes.value))
  }

  predicate Increasing(events: seq<Event>, start: int) {
    && (forall i :: 0 <= i < |events| ==> start <= events[i].core.execution)
    && (forall i :: 0 <= i < |events| - 1 ==> events[i].core.execution < events[i + 1].core.execution)
  }

  /** The closing marks of the last observation of a log. */
  function LastCloses(events: seq<Event>): Option<seq<real>> {
    if events == [] || !events[|events| - 1].core.market.OfMarket? then None
    else Some(Closes(events[|events| - 1].core.market.observation.marks))
  }

  predicate Sound(core: Core, config: Config) {
    && CoreAccepted(core, config)
    && RowSound(core.conservative, config.conservative, config.symbols, LastCloses(core.events))
    && RowSound(core.stress, config.stress, config.symbols, LastCloses(core.events))
    && Increasing(core.events, config.start)
  }

  lemma StepSound(row: Row, o: Observation, name: ProfileName, p: Profile, closes: Option<seq<real>>)
    requires RowSound(row, p, |o.marks|, closes) && Shaped(o, |o.marks|) && RowShaped(row, |o.marks|) && Stepped(row, o, name, p).Ok?
    ensures RowSound(Stepped(row, o, name, p).value, p, |o.marks|, Some(Closes(o.marks)))
  {
    hide Audited, Funded, Rebalanced, Settled, Reports;
    StepAudited(row, o, name, p);
    var funded := Funded(row, o, |o.marks|);
    FundedKeeps(row, o, |o.marks|);
    RebalancedKeeps(funded, o, name, p);
    SettledReports(Rebalanced(funded, o, name, p).value, o, p);
    assert Reports(Stepped(row, o, name, p).value, Closes(o.marks));
    ReportsDrawdown(Stepped(row, o, name, p).value, Closes(o.marks));
  }

  lemma ReportsDrawdown(row: Row, marks: seq<real>)
    requires Reports(row, marks)
    ensures 0.0 <= row.maximumDrawdown < 1.0
  {
  }

  lemma NewRowSound(p: Profile, n: nat)
    ensures RowSound(NewRow(p, n), p, n, None)
  {
    NewRowAudited(p, n);
  }

  lemma NewCoreSound(config: Config, source: int, run: int)
    ensures Sound(NewCore(config, source, run), config)
  {
    hide RowSound, NewRow;
    NewRowSound(config.conservative, config.symbols);
    NewRowSound(config.stress, config.symbols);
  }

  lemma ExtendedIncreasing(core: Core, o: Observation, config: Config, source: int, conservative: Row, stress: Row)
    requires Increasing(core.events, config.start) && LastMatches(core) && Guard(core, o, config) == None
    ensures Increasing(Extended(core, o, source, conservative, stress).events, config.start)
    ensures LastCloses(Extended(core, o, source, conservative, stress).events) == Some(Closes(o.marks))
  {
  }

  lemma ObservedSound(core: Core, o: Observation, config: Config, source: int)
    requires CoreShaped(core, config.symbols) && Shaped(o, config.symbols)
    requires Sound(core, config) && Observed(core, o, config, source).Ok?
    ensures Sound(Observed(core, o, config, source).value, config)
  {
    hide Stepped, Chain, RowSound, Increasing, RowShaped, Shaped, LastCloses, Guard, CoreAccepted;
    ShapedHere(core, o, config.symbols);
    var conservative := Stepped(core.conservative, o, Conservative, config.conservative).value;
    var stress := Stepped(core.stress, o, Stress, config.stress).value;
    StepSound(core.conservative, o, Conservative, config.conservative, LastCloses(core.events));
    StepSound(core.stress, o, Stress, config.stress, LastCloses(core.events));
    ExtendedAccepted(core, o, config, source, conservative, stress);
    AcceptedLast(core, config);
    ExtendedIncreasing(core, o, config, source, conservative, stress);
  }

  lemma AcceptedLast(core: Core, config: Config)
    requires CoreAccepted(core, config)
    ensures LastMatches(core)
  {
  }

  lemma {:induction false} ObservedAllSound(core: Core, observations: seq<Observation>, config: Config, source: int)
    requires CoreShaped(core, config.symbols) && AllShaped(observations, config.symbols)
    requires Sound(core, config) && ObservedAll(core, observations, config, source).Ok?
    ensures Sound(ObservedAll(core, observations, config, source).value, config)
  {
    hide Observed, Sound, RowShaped, Shaped;
    if observations != [] {
      var last := |observations| - 1;
      ObservedAllSound(core, observations[..last], config, source);
      ObservedSound(ObservedAll(core, observations[..last], config, source).value, observations[last], config, source);
    }
  }

  lemma AppliedSound(s: State, observations: seq<Observation>, config: Config, source: int, run: int)
    requires CoreShaped(s.core, config.symbols) && AllShaped(observations, config.symbols)
    requires Sound(s.core, config) && Applied(s, observations, config, source, run).Ok?
    ensures var r := Applied(s, observations, config, source, run).value;
            Sound(r.core, config) && Accepts(r, config) && r.core.lastRun == run && s.core.lastRun < run
  {
    hide ObservedAll, Completion, CoreShaped, Shaped, Chain, RowSound, Increasing;
    ObservedAllSound(s.core, observations, config, source);
  }

  lemma {:induction false} RunsSound(batches: seq<Batch>, config: Config, source: int, run: int)
    requires BatchesShaped(batches, config.symbols)
    ensures var r := AfterBatches(NewState(config, source, run), batches, config);
            Sound(r.core, config) && Accepts(r, config)
  {
    hide Applied, Sound, Accepts, NewRow;
    if batches == [] {
      NewCoreSound(config, source, run);
      NewStateAccepted(config, source, run);
    } else {
      var rest, b := batches[..|batches| - 1], batches[|batches| - 1];
      RunsSound(rest, config, source, run);
      var before := AfterBatches(NewState(config, source, run), rest, config);
      if Applied(before, b.observations, config, b.source, b.run).Ok? {
        AppliedSound(before, b.observations, config, b.source, b.run);
      }
    }
  }

  /**
  Over every sequence of batches from a new state, in both profiles: the account equals the replay
  of its journal; at any marks its value is the opening cash plus the gain of all fills minus fees
  plus funding; and the reported equity is that value at the last closing marks.
  */
  lemma EveryRunConserves(batches: seq<Batch>, config: Config, source: int, run: int, marks: seq<real>)
    requires BatchesShaped(batches, config.symbols) && |marks| == config.symbols
    ensures var core := AfterBatches(NewState(config, source, run), batches, config).core;
            && Conserved(core.conservative, config.conservative, marks, LastCloses(core.events))
            && Conserved(core.stress, config.stress, marks, LastCloses(core.events))
  {
    hide AfterBatches, CoreAccepted, RowSound, Increasing, LastCloses, Conserved, NewRow;
    RunsSound(batches, config, source, run);
    var core := AfterBatches(NewState(config, source, run), batches, config).core;
    SoundConserves(core.conservative, config.conservative, marks, LastCloses(core.events));
    SoundConserves(core.stress, config.stress, marks, LastCloses(core.events));
  }

  predicate Conserved(row: Row, p: Profile, marks: seq<real>, closes: Option<seq<real>>) {
    var n := |marks|;
    && RowShaped(row, n)
    && Replay(Opening(p, n), row.journal) == Book(row.wallet, row.positions)
    && Equity(row.wallet, row.positions, marks) == p.initialCash + Gain(row.journal, marks) - row.fees + row.funding
    && (closes.Some? ==> row.equity == p.initialCash + Gain(row.journal, closes.value) - row.fees + row.funding)
  }

  lemma SoundConserves(row: Row, p: Profile, marks: seq<real>, closes: Option<seq<real>>)
    requires RowSound(row, p, |marks|, closes)
    ensures Conserved(row, p, marks, closes)
  {
    hide OpenProfit, Gain, Replay, Tally, FillsMatch, InRange;
    Conservation(row, p, marks);
    if closes.Some? { Conservation(row, p, closes.value); }
  }
}
