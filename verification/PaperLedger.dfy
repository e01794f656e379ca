/**
The prospective paper ledger: two profile accounts and a hash-chained log of observations that is
extended in batches, one batch for each workflow run.
*/
module PaperLedger {
  import opened Prelude
  import opened Derivatives
  import opened PaperStep

  /** SHA-256 over canonical JSON, as an injective function of what is digested. */
  datatype Digest = Zero | OfMarket(observation: Observation) | OfEvent(core: EventCore) | OfState(state: Core)

  datatype EventCore = EventCore(
    schema: int, sequence: int, execution: int, signalClose: int, targets: seq<real>, targetChanged: bool, market: Digest,
    source: int, previous: Digest, paperOnly: bool, live: bool)

  datatype Event = Event(core: EventCore, digest: Digest)

  /** The identities that a state carries and that must not change under it. */
  datatype Contract = Contract(schema: int, forward: int, strategy: int, manifest: int, engine: int)

  datatype Status = Waiting | Collecting | ReviewRequired | Quarantined

  datatype Decision = Collect | OwnerReview | NoPromotion

  datatype Core = Core(
    contract: Contract, start: int, lastExecution: Option<int>, lastRun: int, source: int, barCount: int, events: seq<Event>,
    conservative: Row, stress: Row, status: Status, decision: Decision,
    paperOnly: bool, live: bool, credentials: bool, promotion: bool)

  datatype State = State(core: Core, digest: Digest)

  datatype Gate = Gate(
    totalReturn: real, drawdown: real, fills: int, assetFills: int, fundingCoverage: real, executionCoverage: real,
    marginUse: real, tierUse: real)

  datatype Config = Config(
    contract: Contract, symbols: nat, start: int, minimumDays: int, minimumBars: int,
    conservative: Profile, stress: Profile, conservativeGate: Gate, stressGate: Gate)

  datatype Failure =
    | RunIdNotAdvanced | NotPublic | BeforeCutoff | NotIncreasing | StepFailed(error: Error) | NoInitialCash

  const EVENT_SCHEMA: int := 1
  const DAY: int := 86400000

  // ---------------------------------------------------------------- states

  function NewCore(config: Config, source: int, run: int): Core {
    Core(config.contract, config.start, None, run, source, 0, [], NewRow(config.conservative, config.symbols),
         NewRow(config.stress, config.symbols), Waiting, Collect, true, false, false, false)
  }

  function Sealed(core: Core): State { State(core, OfState(core)) }

  function NewState(config: Config, source: int, run: int): State { Sealed(NewCore(config, source, run)) }

  function Head(events: seq<Event>): Digest {
    if events == [] then Zero else events[|events| - 1].digest
  }

  /** An event is intact and names its place and its predecessor. */
  predicate Linked(e: Event, sequence: int, previous: Digest) {
    && e.core.schema == EVENT_SCHEMA
    && e.core.sequence == sequence
    && e.core.previous == previous
    && e.digest == OfEvent(e.core)
    && e.core.paperOnly && !e.core.live
  }

  predicate Chain(events: seq<Event>) {
    events == [] || (
      var rest := events[..|events| - 1];
      Chain(rest) && Linked(events[|events| - 1], |events|, Head(rest)))
  }

  predicate Frozen(core: Core, config: Config) {
    core.contract == config.contract && core.paperOnly && !core.live && !core.credentials && !core.promotion
  }

  predicate LastMatches(core: Core) {
    core.lastExecution == if core.events == [] then None else Some(core.events[|core.events| - 1].core.execution)
  }

  predicate CoreAccepted(core: Core, config: Config) {
    && Frozen(core, config)
    && |core.events| == core.barCount
    && Chain(core.events)
    && LastMatches(core)
  }

  /** What verification accepts. */
  predicate Accepts(s: State, config: Config) {
    s.digest == OfState(s.core) && CoreAccepted(s.core, config)
  }

  lemma {:induction false} ChainPrefix(events: seq<Event>, k: nat)
    requires Chain(events) && k <= |events|
    ensures Chain(events[..k])
  {
    if k < |events| {
      var rest := events[..|events| - 1];
      ChainPrefix(rest, k);
      assert events[..k] == rest[..k];
    } else {
      assert events[..k] == events;
    }
  }

  /** Walks the chain with the digest of the previous event. */
  method VerifyState(s: State, config: Config) returns (accepted: bool)
    ensures accepted == Accepts(s, config)
  {
    hide Linked;
    if s.digest != OfState(s.core) || !Frozen(s.core, config) || |s.core.events| != s.core.barCount {
      return false;
    }
    var events, previous := s.core.events, Zero;
    for i := 0 to |events|
      invariant Chain(events[..i]) && previous == Head(events[..i])
    {
      assert events[..i + 1][..i] == events[..i];
      if !Linked(events[i], i + 1, previous) {
        if Chain(events) { ChainPrefix(events, i + 1); }
        return false;
      }
      previous := events[i].digest;
    }
    assert events[..|events|] == events;
    accepted := LastMatches(s.core);
  }

  // ---------------------------------------------------------------- one observation

  predicate CoreShaped(core: Core, n: nat) { RowShaped(core.conservative, n) && RowShaped(core.stress, n) }

  predicate AllShaped(observations: seq<Observation>, n: nat) {
    forall i :: 0 <= i < |observations| ==> Shaped(observations[i], n)
  }

  function NewEvent(core: Core, o: Observation, source: int): Event {
    var e := EventCore(EVENT_SCHEMA, |core.events| + 1, o.execution, o.signalClose, o.targets, o.targetChanged, OfMarket(o),
                       source, Head(core.events), true, false);
    Event(e, OfEvent(e))
  }

  function Guard(core: Core, o: Observation, config: Config): Option<Failure> {
    if !o.publicOnly then Some(NotPublic)
    else if o.execution < config.start then Some(BeforeCutoff)
    else if core.lastExecution.Some? && o.execution <= core.lastExecution.value then Some(NotIncreasing)
    else None
  }

  function Extended(core: Core, o: Observation, source: int, conservative: Row, stress: Row): Core {
    core.(conservative := conservative, stress := stress, events := core.events + [NewEvent(core, o, source)],
          lastExecution := Some(o.execution), barCount := core.barCount + 1)
  }

  function Observed(core: Core, o: Observation, config: Config, source: int): (r: Result<Core, Failure>)
    requires CoreShaped(core, config.symbols) && Shaped(o, config.symbols)
    ensures r.Ok? ==> CoreShaped(r.value, config.symbols)
  {
    match Guard(core, o, config)
    case Some(f) => Err(f)
    case None =>
      match Stepped(core.conservative, o, Conservative, config.conservative)
      case Err(e) => Err(StepFailed(e))
      case Ok(conservative) =>
        match Stepped(core.stress, o, Stress, config.stress)
        case Err(e) => Err(StepFailed(e))
        case Ok(stress) => Ok(Extended(core, o, source, conservative, stress))
  }

  function ObservedAll(core: Core, observations: seq<Observation>, config: Config, source: int): (r: Result<Core, Failure>)
    requires CoreShaped(core, config.symbols) && AllShaped(observations, config.symbols)
    ensures r.Ok? ==> CoreShaped(r.value, config.symbols)
  {
    if observations == [] then Ok(core) else
    var last := |observations| - 1;
    match ObservedAll(core, observations[..last], config, source)
    case Err(f) => Err(f)
    case Ok(before) => Observed(before, observations[last], config, source)
  }

  // ---------------------------------------------------------------- completion

  function AtLeastOne(count: int): real { if count < 1 then 1.0 else count as real }

  predicate Passes(row: Row, p: Profile, gate: Gate)
    requires p.initialCash != 0.0
  {
    && row.equity / p.initialCash - 1.0 >= gate.totalReturn
    && row.maximumDrawdown <= gate.drawdown
    && row.fillCount >= gate.fills
    && (forall i :: 0 <= i < |row.assetFills| ==> row.assetFills[i] >= gate.assetFills)
    && row.actualFunding as real / AtLeastOne(row.expectedFunding) >= gate.fundingCoverage
    && row.hits as real / AtLeastOne(row.orders) >= gate.executionCoverage
    && row.marginUse <= gate.marginUse
    && row.tierUse <= gate.tierUse
    && row.rejections == 0
    && row.liquidations == 0
  }

  predicate Ready(core: Core, config: Config) {
    var last := if core.lastExecution.Some? then core.lastExecution.value else config.start;
    last - config.start >= config.minimumDays * DAY && core.barCount >= config.minimumBars
  }

  /** The status and decision after a batch. */
  function Completion(core: Core, config: Config): Result<(Status, Decision), Failure> {
    if !Ready(core, config) then Ok((Collecting, Collect))
    else if config.conservative.initialCash == 0.0 || config.stress.initialCash == 0.0 then Err(NoInitialCash)
    else if Passes(core.conservative, config.conservative, config.conservativeGate)
            && Passes(core.stress, config.stress, config.stressGate) then Ok((ReviewRequired, OwnerReview))
    else Ok((Quarantined, NoPromotion))
  }

  function Closed(core: Core, config: Config, source: int, run: int): Result<State, Failure> {
    match Completion(core, config)
    case Err(f) => Err(f)
    case Ok(verdict) =>
      Ok(Sealed(core.(lastRun := run, source := source, status := verdict.0, decision := verdict.1,
                      paperOnly := true, live := false, credentials := false, promotion := false)))
  }

  /** One batch. */
  function Applied(s: State, observations: seq<Observation>, config: Config, source: int, run: int): (r: Result<State, Failure>)
    requires CoreShaped(s.core, config.symbols) && AllShaped(observations, config.symbols)
    ensures r.Ok? ==> CoreShaped(r.value.core, config.symbols)
  {
    if run <= s.core.lastRun then Err(RunIdNotAdvanced) else
    match ObservedAll(s.core, observations, config, source)
    case Err(f) => Err(f)
    case Ok(core) => Closed(core, config, source, run)
  }

  lemma {:induction false} ObservedErrorLasts(core: Core, observations: seq<Observation>, config: Config, source: int, k: nat)
    requires CoreShaped(core, config.symbols) && AllShaped(observations, config.symbols) && k <= |observations|
    requires ObservedAll(core, observations[..k], config, source).Err?
    ensures ObservedAll(core, observations, config, source) == ObservedAll(core, observations[..k], config, source)
    decreases |observations|
  {
    hide Observed, CoreShaped;
    if k < |observations| {
      var last := |observations| - 1;
      assert observations[..last][..k] == observations[..k];
      ObservedErrorLasts(core, observations[..last], config, source, k);
    } else {
      assert observations[..k] == observations;
    }
  }

  method ApplyObservations(s: State, observations: seq<Observation>, config: Config, source: int, run: int)
    returns (r: Result<State, Failure>)
    requires CoreShaped(s.core, config.symbols) && AllShaped(observations, config.symbols)
    ensures r == Applied(s, observations, config, source, run)
  {
    hide Stepped, NewEvent, Guard, RowShaped, Shaped, Closed;
    var core := s.core;
    if run <= core.lastRun {
      return Err(RunIdNotAdvanced);
    }
    for i := 0 to |observations|
      invariant CoreShaped(core, config.symbols)
      invariant ObservedAll(s.core, observations[..i], config, source) == Ok(core)
    {
      var o := observations[i];
      assert observations[..i + 1][..i] == observations[..i];
      var guard := Guard(core, o, config);
      if guard.Some? {
        ObservedErrorLasts(s.core, observations, config, source, i + 1);
        return Err(guard.value);
      }
      ShapedHere(core, o, config.symbols);
      var conservative := ProfileStep(core.conservative, o, Conservative, config.conservative);
      if conservative.Err? {
        ObservedErrorLasts(s.core, observations, config, source, i + 1);
        return Err(StepFailed(conservative.error));
      }
      var stress := ProfileStep(core.stress, o, Stress, config.stress);
      if stress.Err? {
        ObservedErrorLasts(s.core, observations, config, source, i + 1);
        return Err(StepFailed(stress.error));
      }
      var event := NewEvent(core, o, source);
      core := core.(conservative := conservative.value, stress := stress.value, events := core.events + [event],
        lastExecution := Some(o.execution), barCount := core.barCount + 1);
    }
    assert observations[..|observations|] == observations;
    r := Closed(core, config, source, run);
  }

  lemma ShapedHere(core: Core, o: Observation, n: nat)
    requires CoreShaped(core, n) && Shaped(o, n)
    ensures |o.marks| == n && Shaped(o, |o.marks|) && RowShaped(core.conservative, |o.marks|) && RowShaped(core.stress, |o.marks|)
  {
  }
}
