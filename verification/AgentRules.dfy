/** The rules of each pass and what they keep over every run: who is fit, who decides, what is posted, what is recorded. */
module AgentRules {
  import opened Prelude
  import opened AgentModel
  import opened AgentSafety
  import opened AgentCapacity
  import opened AgentScheduling
  import opened AgentDispatch

  // ---------------------------------------------------------------- who is fit for a task

  datatype Reason =
    | Disabled | Unavailable | AuthorityInsufficient | NotVerifier | ProducerVerifierSeparation
    | MissingCapability | MissingResource | CapacityExhausted | HealthBelowMinimum | CostBudgetExceeded
    | DataNotLocal | TrustDomainMismatch

  /** Does this speak against a worker with `load` working rows? */
  predicate Rejects(r: Reason, t: Task, w: Worker, verifierOnly: bool, load: nat) {
    var n := t.def.needs;
    match r
    case Disabled => !w.enabled
    case Unavailable => !w.available
    case AuthorityInsufficient => w.authorityMax < t.def.authority
    case NotVerifier => verifierOnly && !w.verifier
    case ProducerVerifierSeparation => verifierOnly && t.producer == Some(w.id)
    case MissingCapability => exists c :: c in n.capabilities && c !in w.capabilities
    case MissingResource => exists c :: c in n.resources && c !in w.resources
    case CapacityExhausted => load >= w.capacity
    case HealthBelowMinimum => w.health < n.minHealth
    case CostBudgetExceeded => n.maxCost.Some? && w.costUnits > n.maxCost.value
    case DataNotLocal => n.locality != {} && forall c :: c in n.locality ==> c !in w.locality && c !in w.resources
    case TrustDomainMismatch => n.trust.Some? && n.trust.value !in w.trust
  }

  /** A worker is eligible if and only if nothing speaks against it. */
  lemma EligibleIffNotRejected(t: Task, w: Worker, verifierOnly: bool, load: map<nat, nat>)
    ensures Eligible(t, w, verifierOnly, load) <==> forall r :: !Rejects(r, t, w, verifierOnly, Load(load, w.id))
  {
    var n, l := t.def.needs, Load(load, w.id);
    LocalityMeets(n.locality, w.locality, w.resources);
    if forall r :: !Rejects(r, t, w, verifierOnly, l) {
      assert !Rejects(Disabled, t, w, verifierOnly, l) && !Rejects(Unavailable, t, w, verifierOnly, l);
      assert !Rejects(AuthorityInsufficient, t, w, verifierOnly, l) && !Rejects(NotVerifier, t, w, verifierOnly, l);
      assert !Rejects(ProducerVerifierSeparation, t, w, verifierOnly, l) && !Rejects(MissingCapability, t, w, verifierOnly, l);
      assert !Rejects(MissingResource, t, w, verifierOnly, l) && !Rejects(CapacityExhausted, t, w, verifierOnly, l);
      assert !Rejects(HealthBelowMinimum, t, w, verifierOnly, l) && !Rejects(CostBudgetExceeded, t, w, verifierOnly, l);
      assert !Rejects(DataNotLocal, t, w, verifierOnly, l) && !Rejects(TrustDomainMismatch, t, w, verifierOnly, l);
    }
  }

  lemma LocalityMeets(a: set<string>, b: set<string>, c: set<string>)
    ensures a * (b + c) == {} <==> forall x :: x in a ==> x !in b && x !in c
  {
    if a * (b + c) == {} {
      forall x | x in a ensures x !in b && x !in c {
        assert x !in a * (b + c);
      }
    }
  }

  // ---------------------------------------------------------------- who is chosen

  /** The workers that a special task is bound to. */
  predicate MayProduce(k: Kind, id: nat) {
    match k
    case Generic => true
    case Research => id == RESEARCHER
    case EconReview => id == RESEARCHER
    case Development => id == DEVELOPER
    case QaOnly => id == QA_VERIFIER
  }

  predicate MayVerify(k: Kind, id: nat) { k == Generic || id == QA_VERIFIER }

  /** Fit for the task at the load that the table shows without row `except`, and bound to it if it is special. */
  ghost predicate Fit(ts: seq<Task>, except: Option<nat>, t: Task, w: Worker, verifierOnly: bool, verify: bool) {
    && (forall r :: !Rejects(r, t, w, verifierOnly, Tally(RowsBut(ts, except), SelWorker(w.id))))
    && if verify then MayVerify(t.def.kind, w.id) else MayProduce(t.def.kind, w.id)
  }

  /** `w` is fit, and whoever else is fit scores less, or the same with a greater id. */
  ghost predicate BestFit(ts: seq<Task>, ws: seq<Worker>, except: Option<nat>, t: Task, w: Worker, verifierOnly: bool, verify: bool) {
    && w in ws && Fit(ts, except, t, w, verifierOnly, verify) && w.capacity > 0
    && var load := LoadMap(ts, ws, except);
       forall v :: v in ws && Fit(ts, except, t, v, verifierOnly, verify) && v.capacity > 0 ==>
         Score(t, v, load) < Score(t, w, load) || (Score(t, v, load) == Score(t, w, load) && w.id <= v.id)
  }

  lemma LoadOfWorker(ts: seq<Task>, ws: seq<Worker>, except: Option<nat>, w: Worker)
    requires w in ws
    ensures Load(LoadMap(ts, ws, except), w.id) == Tally(RowsBut(ts, except), SelWorker(w.id))
  {
    hide Tally, RowsBut;
    assert w.id in LoadMap(ts, ws, except);
  }

  lemma FitIsOfferable(ts: seq<Task>, ws: seq<Worker>, except: Option<nat>, t: Task, w: Worker, verifierOnly: bool, verify: bool)
    requires w in ws
    ensures Fit(ts, except, t, w, verifierOnly, verify)
            <==> Offerable(t, w, verifierOnly, LoadMap(ts, ws, except),
                           if verify then DesignatedVerifier(t.def.kind) else DesignatedProducer(t.def.kind))
  {
    EligibleIffNotRejected(t, w, verifierOnly, LoadMap(ts, ws, except));
    LoadOfWorker(ts, ws, except, w);
    hide Eligible, Rejects, LoadMap, Tally, RowsBut;
  }

  lemma BestIsBestFit(ts: seq<Task>, ws: seq<Worker>, except: Option<nat>, t: Task, verifierOnly: bool, verify: bool)
    ensures var r := Best(t, ws, verifierOnly, LoadMap(ts, ws, except),
                          if verify then DesignatedVerifier(t.def.kind) else DesignatedProducer(t.def.kind));
            if r.Some? then BestFit(ts, ws, except, t, r.value, verifierOnly, verify)
            else forall w :: w in ws ==> !Fit(ts, except, t, w, verifierOnly, verify)
  {
    var load := LoadMap(ts, ws, except);
    var allowed := if verify then DesignatedVerifier(t.def.kind) else DesignatedProducer(t.def.kind);
    BestIsFirst(t, ws, verifierOnly, load, allowed);
    forall w | w in ws
      ensures Fit(ts, except, t, w, verifierOnly, verify) <==> Offerable(t, w, verifierOnly, load, allowed)
    {
      FitIsOfferable(ts, ws, except, t, w, verifierOnly, verify);
    }
    hide Fit, LoadMap, Score, Best, DesignatedProducer, DesignatedVerifier;
  }

  /** An offer leases the row to the best fit worker, or there is none, or the row is not to be leased now. */
  lemma OfferToBestFit(s: State, i: nat, now: int)
    requires i < |s.tasks|
    ensures var t, u := s.tasks[i], AssignRow(s, i, now).tasks[i];
            var qa := t.def.kind == QaOnly;
            if Tally(s.tasks, SelActive) >= s.maxParallel || t.def.authority >= 4 || (qa && !t.def.qaDispatchEnabled) then
              u.attempt == t.attempt && u.lease == t.lease && u.worker == t.worker
            else if exists w :: w in s.workers && Fit(s.tasks, None, t, w, qa, false) then
              && u.lease == Some(s.nextLease) && u.attempt == t.attempt + 1
              && exists w :: BestFit(s.tasks, s.workers, None, t, w, qa, false) && u.worker == Some(w.id)
            else u == t
  {
    var t, qa := s.tasks[i], s.tasks[i].def.kind == QaOnly;
    BestIsBestFit(s.tasks, s.workers, None, t, qa, false);
    hide Best, LoadMap, Tally, BestFit, Fit, DesignatedVerifier;
    var r := Best(t, s.workers, qa, LoadMap(s.tasks, s.workers, None), DesignatedProducer(t.def.kind));
    if r.Some? { BestFitIsFit(s.tasks, s.workers, None, t, r.value, qa, false); }
  }

  lemma BestFitIsFit(ts: seq<Task>, ws: seq<Worker>, except: Option<nat>, t: Task, w: Worker, verifierOnly: bool, verify: bool)
    requires BestFit(ts, ws, except, t, w, verifierOnly, verify)
    ensures w in ws && Fit(ts, except, t, w, verifierOnly, verify)
  {
    hide Fit, LoadMap, Score;
  }

  /** Verification goes to the best fit verifier, at the load without the row itself, or is blocked when there is none. */
  lemma VerificationToBestFit(s: State, i: nat, now: int)
    requires i < |s.tasks|
    ensures VerifyRow(s, i, now).None? <==> s.tasks[i].def.kind == QaOnly
    ensures VerifyRow(s, i, now).Some? ==>
              var t, u := s.tasks[i], VerifyRow(s, i, now).value.tasks[i];
              if t.def.authority >= 4 then u == t.(status := OwnerRequired, reason := L4Owner, worker := None)
              else if exists w :: w in s.workers && Fit(s.tasks, Some(i), t, w, true, true) then
                && (exists w :: BestFit(s.tasks, s.workers, Some(i), t, w, true, true) && u.worker == Some(w.id))
                && u == t.(status := Verifying, worker := u.worker, verifier := u.worker, lease := Some(s.nextLease),
                           heartbeat := Some(now), expiry := Some(now + 300))
              else u == t.(status := Blocked, reason := NoVerifier)
  {
    var t := s.tasks[i];
    BestIsBestFit(s.tasks, s.workers, Some(i), t, true, true);
    hide Best, LoadMap, Tally, BestFit, Fit, DesignatedProducer;
    var r := Best(t, s.workers, true, LoadMap(s.tasks, s.workers, Some(i)), DesignatedVerifier(t.def.kind));
    if r.Some? { BestFitIsFit(s.tasks, s.workers, Some(i), t, r.value, true, true); }
  }

  // ---------------------------------------------------------------- the score

  function Hits(a: set<string>, b: set<string>): nat { |a * b| }

  /** No worse in any component. */
  predicate NoWorse(t: Task, v: Worker, w: Worker, loadV: nat, loadW: nat)
    requires v.capacity > 0 && w.capacity > 0
  {
    var n := t.def.needs;
    && v.health <= w.health && w.latencyMs <= v.latencyMs && w.failureRate <= v.failureRate && w.costUnits <= v.costUnits
    && loadW as real / w.capacity as real <= loadV as real / v.capacity as real
    && Hits(n.preferred, v.resources) <= Hits(n.preferred, w.resources)
    && Hits(n.preferredLocality, v.locality + v.resources) <= Hits(n.preferredLocality, w.locality + w.resources)
    && Hits(n.preferredTrust, v.trust) <= Hits(n.preferredTrust, w.trust)
  }

  /** A worker that is no worse in health, latency, failures, cost, use and preferences never scores lower. */
  lemma ScoreIsMonotone(t: Task, v: Worker, w: Worker, load: map<nat, nat>)
    requires v.capacity > 0 && w.capacity > 0 && NoWorse(t, v, w, Load(load, v.id), Load(load, w.id))
    ensures Score(t, v, load) <= Score(t, w, load)
  {
  }

  /** What each component is worth: the difference that one change of a worker makes. */
  lemma ScoreWeights(t: Task, w: Worker, load: map<nat, nat>, x: real)
    requires w.capacity > 0
    ensures Score(t, w.(health := w.health + x), load) == Score(t, w, load) + 30.0 * x
    ensures Score(t, w.(failureRate := w.failureRate + x), load) == Score(t, w, load) - 30.0 * x
    ensures Score(t, w.(costUnits := w.costUnits + x), load) == Score(t, w, load) - 5.0 * x
    ensures 0.0 <= x && w.latencyMs + x <= 10000.0 ==> Score(t, w.(latencyMs := w.latencyMs + x), load) == Score(t, w, load) - x / 250.0
    ensures 0.0 <= x && 10000.0 <= w.latencyMs ==> Score(t, w.(latencyMs := w.latencyMs + x), load) == Score(t, w, load)
  {
  }

  /** A preferred resource, place or trust domain more is worth 20, 15 and 10; a worker out of use is worth 25 more than a full one. */
  lemma PreferenceWeights(t: Task, v: Worker, w: Worker, load: map<nat, nat>)
    requires w.capacity > 0 && v == w.(resources := v.resources, locality := v.locality, trust := v.trust)
    ensures var n := t.def.needs;
            Score(t, v, load) - Score(t, w, load)
            == 20.0 * (Hits(n.preferred, v.resources) as real - Hits(n.preferred, w.resources) as real)
               + 15.0 * (Hits(n.preferredLocality, v.locality + v.resources) as real - Hits(n.preferredLocality, w.locality + w.resources) as real)
               + 10.0 * (Hits(n.preferredTrust, v.trust) as real - Hits(n.preferredTrust, w.trust) as real)
  {
  }

  lemma UseWeight(t: Task, w: Worker, a: map<nat, nat>, b: map<nat, nat>)
    requires w.capacity > 0 && Load(a, w.id) == 0 && Load(b, w.id) == w.capacity
    ensures Score(t, w, a) - Score(t, w, b) == 25.0
  {
    assert 0 as real / w.capacity as real == 0.0 && w.capacity as real / w.capacity as real == 1.0;
  }
}
