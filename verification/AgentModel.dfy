/**
The task table of the agent manager and what one loop iteration of each of its
functions does to one row.

A function of the manager is a pass over the rows; `At` is one iteration of a pass and
`Sweep` is the whole loop. An iteration that raises yields `None`, because the process then
dies without saving the table.
*/
module AgentModel {
  import opened Prelude

  datatype Status =
    | Pending | Ready | Leased | Running | Verifying | Triage
    | Blocked | Done | OwnerRequired | Quarantined

  /** The task families that the manager routes to a designated producer or verifier. */
  datatype Kind = Generic | Research | Development | EconReview | QaOnly

  datatype FailureClass = Unknown | Transient | SpecializedReasoning | ResearchFailed | RcaTransportMismatch | OtherFailure

  datatype TriageMode = NoTriage | RootCause | FailClosed

  datatype BlockReason = NotBlocked | L4Owner | RcaReview | NoAnalyst | NoVerifier | NoReasoningRoute | QaDisabled | ReviewedCorrection | EpochDrift

  /** A digest of the task's correlation, lease, worker and attempt; collision-free by construction. */
  datatype DispatchId = DispatchId(task: nat, lease: nat, worker: nat, attempt: nat)

  /**
  What the code later reads of a stored result: is the receipt well formed, is it the numeric one,
  does it promote or enable nothing, does it report a missing cache, and the commit it names, if
  that and the receipt digest have the right form.
  */
  datatype Evidence = Evidence(receiptOk: bool, numericReceipt: bool, inert: bool, cacheMiss: bool, source: Option<nat>)

  datatype Needs = Needs(
    capabilities: set<string>, resources: set<string>, preferred: set<string>,
    locality: set<string>, preferredLocality: set<string>,
    trust: Option<string>, preferredTrust: set<string>,
    minHealth: real, maxCost: Option<real>)

  /** The repository's definition of a task. `idRank` is the position of its id among all ids. */
  datatype TaskDef = TaskDef(
    idRank: nat, priority: int, deps: seq<nat>, authority: nat, kind: Kind,
    qaDispatchEnabled: bool, deterministicWorkload: bool, needs: Needs)

  datatype Task = Task(
    def: TaskDef, status: Status, worker: Option<nat>, producer: Option<nat>, verifier: Option<nat>,
    lease: Option<nat>, attempt: nat, heartbeat: Option<int>, expiry: Option<int>,
    dispatch: Option<DispatchId>, failure: FailureClass, retries: nat,
    mode: TriageMode, evidence: Option<Evidence>, failureEvidence: Option<Evidence>, reason: BlockReason)

  /** Ids are ordered as their strings are. */
  datatype Worker = Worker(
    id: nat, capabilities: set<string>, resources: set<string>, authorityMax: nat, verifier: bool, capacity: nat,
    enabled: bool, available: bool, health: real, latencyMs: real, failureRate: real, costUnits: real,
    locality: set<string>, trust: set<string>)

  datatype Outcome = Success | Failure | Unrecognised

  datatype Route = ToDeepseek | ToWindows | ToCloud

  /**
  A result artifact as found for a lease id; every field is chosen by the outside. `wellFormed` is
  the check of its keys and schema version. The correlation of a row is its number.
  */
  datatype TaskResult = TaskResult(
    wellFormed: bool, task: nat, lease: nat, correlation: nat, dispatch: DispatchId, worker: nat, transport: Route,
    outcome: Outcome, failure: FailureClass, evidence: Evidence)

  /** The two transport events, in the order in which they are emitted. */
  datatype Event = Dispatched(task: nat, lease: nat) | Ingested(task: nat, lease: nat, worker: nat)

  /** The commit that the running process was started on, if it is well formed, and whether it runs on the trusted branch. */
  datatype Lane = Lane(commit: Option<nat>, trusted: bool)

  /**
  `log` holds the events of the passes whose table was saved. `lost` holds the posts that went out
  in transport runs that raised or died before they saved.
  */
  datatype State = State(
    tasks: seq<Task>, workers: seq<Worker>, maxParallel: nat, couriers: set<nat>,
    nextLease: nat, log: seq<Event>, lost: seq<Event>, lane: Lane)

  const LEASE_SECONDS := 300
  const ARCHITECT: nat := 10
  const DEEPSEEK: nat := 20
  const DEVELOPER: nat := 30
  const QA_VERIFIER: nat := 40
  const RESEARCHER: nat := 50
  const WINDOWS: nat := 60
  const RCA_CAPABILITIES: set<string> := {"root_cause_analysis", "diagnostics"}

  predicate Active(st: Status) {
    st in {Leased, Running, Verifying}
  }

  // ---------------------------------------------------------------- counting rows

  datatype Sel = SelActive | SelTriage | SelWorker(w: nat)

  predicate Hit(sel: Sel, t: Task) {
    match sel
    case SelActive => Active(t.status)
    case SelTriage => t.status == Triage
    case SelWorker(w) => Active(t.status) && t.worker == Some(w)
  }

  function Tally(ts: seq<Task>, sel: Sel): nat {
    if ts == [] then 0 else Tally(ts[..|ts| - 1], sel) + (if Hit(sel, ts[|ts| - 1]) then 1 else 0)
  }

  function RowsBut(ts: seq<Task>, except: Option<nat>): seq<Task> {
    if except.Some? && except.value < |ts| then ts[..except.value] + ts[except.value + 1..] else ts
  }

  /** The active load of every configured worker, over all rows but row `except`. */
  function LoadMap(ts: seq<Task>, ws: seq<Worker>, except: Option<nat>): map<nat, nat> {
    map w | w in ws :: w.id := Tally(RowsBut(ts, except), SelWorker(w.id))
  }

  // ---------------------------------------------------------------- routing

  function Load(load: map<nat, nat>, w: nat): nat {
    if w in load then load[w] else 0
  }

  predicate Eligible(t: Task, w: Worker, verifierOnly: bool, load: map<nat, nat>) {
    var n := t.def.needs;
    && w.enabled && w.available
    && t.def.authority <= w.authorityMax
    && (verifierOnly ==> w.verifier && t.producer != Some(w.id))
    && n.capabilities <= w.capabilities
    && n.resources <= w.resources
    && Load(load, w.id) < w.capacity
    && n.minHealth <= w.health
    && (n.maxCost.Some? ==> w.costUnits <= n.maxCost.value)
    && (n.locality != {} ==> n.locality * (w.locality + w.resources) != {})
    && (n.trust.Some? ==> n.trust.value in w.trust)
  }

  function MinReal(a: real, b: real): real { if a <= b then a else b }

  function Score(t: Task, w: Worker, load: map<nat, nat>): real
    requires w.capacity > 0
  {
    var n := t.def.needs;
    var utilization := Load(load, w.id) as real / w.capacity as real;
    w.health * 30.0 - MinReal(w.latencyMs / 1000.0, 10.0) * 4.0 - w.failureRate * 30.0
    - w.costUnits * 5.0 - utilization * 20.0
    + |n.preferred * w.resources| as real * 20.0
    + |n.preferredLocality * (w.locality + w.resources)| as real * 15.0
    + |n.preferredTrust * w.trust| as real * 10.0
    + (1.0 - utilization) * 5.0
  }

  /** Does `v` come before `w` in the ranking of eligible workers? */
  predicate Outranks(t: Task, v: Worker, w: Worker, load: map<nat, nat>)
    requires v.capacity > 0 && w.capacity > 0
  {
    var a, b := Score(t, v, load), Score(t, w, load);
    a > b || (a == b && v.id < w.id)
  }

  /** The first of the eligible, allowed workers in rank order. */
  function Best(t: Task, ws: seq<Worker>, verifierOnly: bool, load: map<nat, nat>, allowed: Option<nat>): (r: Option<Worker>)
    ensures r.Some? ==> r.value in ws && Eligible(t, r.value, verifierOnly, load)
                        && (allowed.Some? ==> r.value.id == allowed.value)
  {
    if ws == [] then None else
    var w := ws[|ws| - 1];
    var r := Best(t, ws[..|ws| - 1], verifierOnly, load, allowed);
    if Eligible(t, w, verifierOnly, load) && (allowed.Some? ==> w.id == allowed.value)
       && (r.None? || Outranks(t, w, r.value, load))
    then Some(w) else r
  }

  predicate CanAnalyse(t: Task, w: Worker, load: map<nat, nat>) {
    && w.enabled && t.def.authority <= w.authorityMax && RCA_CAPABILITIES <= w.capabilities
    && t.producer != Some(w.id) && Load(load, w.id) < w.capacity
  }

  /** The root-cause analyst with the least id. */
  function Analyst(t: Task, ws: seq<Worker>, load: map<nat, nat>): (r: Option<Worker>)
    ensures r.Some? ==> r.value in ws && CanAnalyse(t, r.value, load)
    ensures r.Some? ==> forall w :: w in ws && CanAnalyse(t, w, load) ==> r.value.id <= w.id
    ensures r.None? ==> forall w :: w in ws ==> !CanAnalyse(t, w, load)
  {
    if ws == [] then None else
    var w := ws[|ws| - 1];
    var r := Analyst(t, ws[..|ws| - 1], load);
    if CanAnalyse(t, w, load) && (r.None? || w.id < r.value.id) then Some(w) else r
  }

  function DesignatedProducer(k: Kind): Option<nat> {
    match k
    case Generic => None
    case Research => Some(RESEARCHER)
    case EconReview => Some(RESEARCHER)
    case Development => Some(DEVELOPER)
    case QaOnly => Some(QA_VERIFIER)
  }

  function DesignatedVerifier(k: Kind): Option<nat> {
    if k == Generic then None else Some(QA_VERIFIER)
  }

  // ---------------------------------------------------------------- one row of each pass

  /** The identity that a dispatch of the row's current lease would carry. */
  function DispatchIdFor(t: Task, i: nat): DispatchId
    requires t.lease.Some? && t.worker.Some?
  {
    DispatchId(i, t.lease.value, t.worker.value, t.attempt)
  }

  function EnforceRow(t: Task): Task {
    if t.def.authority < 4 || t.status == Quarantined then t else
    t.(status := OwnerRequired, reason := L4Owner, worker := None, lease := None, heartbeat := None, expiry := None)
  }

  predicate Stale(t: Task, now: int) {
    || (t.expiry.Some? && t.expiry.value <= now)
    || (t.heartbeat.Some? && t.heartbeat.value + LEASE_SECONDS <= now)
  }

  function ExpireRow(t: Task, now: int): Task {
    if Active(t.status) && Stale(t, now)
    then t.(status := Triage, worker := None, expiry := None, heartbeat := None) else t
  }

  predicate DependenciesDone(ts: seq<Task>, deps: seq<nat>) {
    forall d :: d in deps ==> d < |ts| && ts[d].status == Done
  }

  function ReleaseRow(ts: seq<Task>, t: Task): Task {
    if t.status == Pending && DependenciesDone(ts, t.def.deps) then t.(status := Ready) else t
  }

  /** A row that receives lease `lease` for worker `w`, with a fresh heartbeat. */
  function Grant(t: Task, st: Status, w: nat, lease: nat, now: int): Task {
    t.(status := st, worker := Some(w), lease := Some(lease), heartbeat := Some(now), expiry := Some(now + LEASE_SECONDS))
  }

  function TriageRow(s: State, i: nat, now: int): State
    requires i < |s.tasks|
  {
    var t := s.tasks[i];
    if t.status != Triage then s else
    if t.def.authority >= 4 then
      s.(tasks := s.tasks[i := t.(status := OwnerRequired, reason := L4Owner, worker := None)])
    else if t.failure == Transient && t.retries < 1 then
      s.(tasks := s.tasks[i := t.(status := Ready, retries := t.retries + 1)])
    else if t.def.kind == Research then
      s.(tasks := s.tasks[i := t.(status := Blocked, reason := RcaReview, mode := RootCause, worker := None,
                                  lease := None, heartbeat := None, expiry := None, dispatch := None)])
    else
      match Analyst(t, s.workers, LoadMap(s.tasks, s.workers, None))
      case None => s.(tasks := s.tasks[i := t.(status := Blocked, reason := NoAnalyst)])
      case Some(w) =>
        s.(tasks := s.tasks[i := Grant(t, Running, w.id, s.nextLease, now).(mode := RootCause)],
           nextLease := s.nextLease + 1)
  }

  function AssignRow(s: State, i: nat, now: int): State
    requires i < |s.tasks|
  {
    var t := s.tasks[i];
    if Tally(s.tasks, SelActive) >= s.maxParallel then s else
    if t.def.authority >= 4 then s.(tasks := s.tasks[i := t.(status := OwnerRequired, reason := L4Owner)])
    else if t.def.kind == QaOnly && !t.def.qaDispatchEnabled then
      s.(tasks := s.tasks[i := t.(reason := QaDisabled)])
    else
      match Best(t, s.workers, t.def.kind == QaOnly, LoadMap(s.tasks, s.workers, None), DesignatedProducer(t.def.kind))
      case None => s
      case Some(w) =>
        var g := Grant(t, if t.def.kind == QaOnly then Verifying else Leased, w.id, s.nextLease, now);
        var g := if t.def.kind == QaOnly then g.(producer := None, verifier := Some(w.id)) else g.(producer := Some(w.id));
        s.(tasks := s.tasks[i := g.(attempt := t.attempt + 1)], nextLease := s.nextLease + 1)
  }

  function VerifyRow(s: State, i: nat, now: int): Option<State>
    requires i < |s.tasks|
  {
    var t := s.tasks[i];
    if t.def.kind == QaOnly then None else
    if t.def.authority >= 4 then
      Some(s.(tasks := s.tasks[i := t.(status := OwnerRequired, reason := L4Owner, worker := None)]))
    else
      match Best(t, s.workers, true, LoadMap(s.tasks, s.workers, Some(i)), DesignatedVerifier(t.def.kind))
      case None => Some(s.(tasks := s.tasks[i := t.(status := Blocked, reason := NoVerifier)]))
      case Some(w) =>
        Some(s.(tasks := s.tasks[i := Grant(t, Verifying, w.id, s.nextLease, now).(verifier := Some(w.id))],
                nextLease := s.nextLease + 1))
  }

  /** Role and receipt checks that a success must pass for the special families. */
  predicate ReceiptAccepted(t: Task, r: TaskResult) {
    match t.def.kind
    case Generic => true
    case EconReview =>
      && Active(t.status) && r.evidence.receiptOk
      && r.worker == (if t.status == Verifying then QA_VERIFIER else RESEARCHER)
      && (t.status == Verifying ==> t.producer == Some(RESEARCHER))
    case Development =>
      var qa := t.status == Verifying && t.evidence.Some?;
      && r.evidence.receiptOk && r.worker == (if qa then QA_VERIFIER else DEVELOPER)
      && (qa ==> t.producer == Some(DEVELOPER))
    case QaOnly =>
      t.status == Verifying ==>
        r.worker == QA_VERIFIER && t.verifier == Some(r.worker) && t.producer.None? && r.evidence.receiptOk
    case Research =>
      r.evidence.receiptOk && (t.status == Verifying ==> t.producer != Some(r.worker) && t.evidence.Some?)
  }

  function RecordRow(s: State, i: nat, r: TaskResult, now: int): Option<State>
    requires i < |s.tasks|
  {
    var t := s.tasks[i];
    var closed := t.(status := Blocked, failure := r.failure, failureEvidence := Some(r.evidence), reason := ReviewedCorrection,
                     worker := None, heartbeat := None, expiry := None);
    if t.def.authority >= 4 || t.worker != Some(r.worker) then None else
    match r.outcome
    case Unrecognised => None
    case Failure =>
      if t.def.kind in {EconReview, Development, QaOnly} then Some(s.(tasks := s.tasks[i := closed]))
      else Some(s.(tasks := s.tasks[i := t.(status := Triage, failure := r.failure, failureEvidence := Some(r.evidence))]))
    case Success =>
      if !ReceiptAccepted(t, r) then None else
      if t.status == Verifying then Some(s.(tasks := s.tasks[i := t.(status := Done)])) else
      VerifyRow(s.(tasks := s.tasks[i := t.(evidence := Some(r.evidence))]), i, now)
  }

  function TransportFor(w: nat): Route {
    if w == DEEPSEEK then ToDeepseek else if w == WINDOWS then ToWindows else ToCloud
  }

  /** The result is well formed and binds the row's current lease, worker, dispatch and transport. */
  predicate Binds(t: Task, i: nat, r: TaskResult) {
    && t.lease.Some? && t.worker.Some?
    && r.wellFormed && r.task == i && r.lease == t.lease.value && r.correlation == i
    && t.dispatch == Some(DispatchIdFor(t, i)) && r.dispatch == DispatchIdFor(t, i)
    && r.worker == t.worker.value && r.transport == TransportFor(t.worker.value)
  }

  /** The numeric executor refuses an analyst's lease of a Research task whose own failure was a missing cache. */
  predicate Preserved(t: Task, r: TaskResult) {
    && r.outcome == Failure && t.def.kind == Research && t.mode == RootCause && t.worker == Some(ARCHITECT)
    && r.failure == RcaTransportMismatch && r.evidence.numericReceipt && r.evidence.inert
    && t.failure == ResearchFailed && t.failureEvidence.Some?
    && var original := t.failureEvidence.value; original.numericReceipt && original.cacheMiss && original.inert
  }

  /** Back to triage with its own failure, or recorded. */
  function AcceptRow(s: State, i: nat, r: TaskResult, now: int): Option<State>
    requires i < |s.tasks|
  {
    if Preserved(s.tasks[i], r) then Some(s.(tasks := s.tasks[i := s.tasks[i].(status := Triage)]))
    else RecordRow(s, i, r, now)
  }

  function IngestRow(s: State, i: nat, r: TaskResult, now: int): Option<State>
    requires i < |s.tasks|
  {
    if !Binds(s.tasks[i], i, r) then None else
    match AcceptRow(s, i, r, now)
    case None => None
    case Some(u) => Some(u.(log := s.log + [Ingested(i, r.lease, r.worker)]))
  }

  predicate Pollable(s: State, i: nat)
    requires i < |s.tasks|
  {
    var t := s.tasks[i];
    && t.status in {Running, Verifying} && t.worker.Some? && t.worker.value !in s.couriers
    && t.lease.Some? && t.dispatch == Some(DispatchIdFor(t, i))
  }

  function PollRow(s: State, i: nat, inbox: map<nat, TaskResult>, now: int): Option<State>
    requires i < |s.tasks|
  {
    if Pollable(s, i) && s.tasks[i].lease.value in inbox
    then IngestRow(s, i, inbox[s.tasks[i].lease.value], now) else Some(s)
  }

  predicate Dispatchable(s: State, i: nat)
    requires i < |s.tasks|
  {
    var t := s.tasks[i];
    && Active(t.status) && t.lease.Some? && t.worker.Some? && t.worker.value !in s.couriers
    && t.dispatch != Some(DispatchIdFor(t, i))
  }

  /** The route and receipt checks of the dispatch envelope. */
  predicate EnvelopeOk(t: Task) {
    && t.def.authority < 4
    && match t.def.kind
       case Generic => true
       case EconReview =>
         if t.status == Verifying
         then t.worker == Some(QA_VERIFIER) && t.producer == Some(RESEARCHER) && t.evidence.Some? && t.evidence.value.receiptOk
         else t.worker == Some(RESEARCHER)
       case Development =>
         if t.status == Verifying
         then t.worker == Some(QA_VERIFIER) && t.producer == Some(DEVELOPER) && t.evidence.Some? && t.evidence.value.receiptOk
         else t.worker == Some(DEVELOPER)
       case Research => t.status == Verifying ==> t.evidence.Some? && t.evidence.value.receiptOk
       case QaOnly =>
         && t.status == Verifying && t.def.qaDispatchEnabled
         && t.worker == Some(QA_VERIFIER) && t.verifier == Some(QA_VERIFIER) && t.producer.None?
  }

  predicate ResearchQa(t: Task) { t.def.kind == Research && t.status == Verifying }

  /** Independent Research QA must name a commit, and the process must know its own. */
  predicate NamesCommits(lane: Lane, t: Task) {
    t.evidence.Some? && t.evidence.value.source.Some? && lane.commit.Some?
  }

  /** Independent Research QA of work that was produced on another commit. */
  predicate Drifted(lane: Lane, t: Task) {
    ResearchQa(t) && NamesCommits(lane, t) && t.evidence.value.source != lane.commit
  }

  /** The post of a lease whose envelope passes its checks. */
  function PostRow(s: State, i: nat, now: int): Option<State>
    requires i < |s.tasks| && s.tasks[i].lease.Some? && s.tasks[i].worker.Some?
  {
    var t := s.tasks[i];
    if !EnvelopeOk(t) then None else
    var t' := t.(status := if t.status == Leased then Running else t.status, dispatch := Some(DispatchIdFor(t, i)),
                 heartbeat := Some(now), expiry := Some(now + LEASE_SECONDS));
    Some(s.(tasks := s.tasks[i := t'], log := s.log + [Dispatched(i, t.lease.value)]))
  }

  /** Research QA of another commit's work is blocked instead of posted. */
  function DispatchRow(s: State, i: nat, now: int): Option<State>
    requires i < |s.tasks|
  {
    var t := s.tasks[i];
    if !Dispatchable(s, i) then Some(s) else
    if ResearchQa(t) && !NamesCommits(s.lane, t) then None else
    if Drifted(s.lane, t) then Some(s.(tasks := s.tasks[i := t.(status := Blocked, reason := EpochDrift)])) else
    if t.def.kind == QaOnly && !s.lane.trusted then None else PostRow(s, i, now)
  }

  /** A finished root-cause analysis turns back into the original work. */
  function RecoverRcaRow(t: Task): Task {
    if t.mode == RootCause && t.status in {Verifying, Blocked} && t.evidence.Some?
       && !(t.def.kind == Research && t.evidence.value.numericReceipt)
    then t.(status := Ready, worker := None, verifier := None, lease := None, heartbeat := None, expiry := None,
            reason := NotBlocked, mode := NoTriage, evidence := None, dispatch := None)
    else t
  }

  function RecoverBoundedRow(t: Task): Task {
    if t.def.deterministicWorkload && t.failure == SpecializedReasoning && t.status == Blocked && t.reason == NoReasoningRoute
    then t.(status := Ready, reason := NotBlocked, mode := NoTriage) else t
  }

  function BlockUnroutableRow(t: Task): Task {
    if t.failure == SpecializedReasoning && !t.def.deterministicWorkload && t.status in {Triage, Ready, Blocked}
       && !(t.status == Blocked && t.reason == NoReasoningRoute)
    then t.(status := Blocked, reason := NoReasoningRoute, mode := FailClosed, worker := None, verifier := None,
            lease := None, heartbeat := None, expiry := None, dispatch := None)
    else t
  }

  // ---------------------------------------------------------------- passes

  datatype Pass =
    | Enforce | Expire(now: int) | RouteTriage(now: int) | Release | Assign(now: int, order: seq<nat>)
    | Dispatch(now: int) | Poll(inbox: map<nat, TaskResult>, now: int)
    | RecoverRca | RecoverBounded | BlockUnroutable

  /** How many iterations the pass makes over a table of `n` rows. */
  function Width(p: Pass, n: nat): nat {
    if p.Assign? then |p.order| else n
  }

  /** The row that iteration `k` visits. */
  function Row(p: Pass, k: nat): nat
    requires p.Assign? ==> k < |p.order|
  {
    if p.Assign? then p.order[k] else k
  }

  predicate Fits(p: Pass, n: nat) {
    p.Assign? ==> forall j :: 0 <= j < |p.order| ==> p.order[j] < n
  }

  /** One iteration of the pass, at row `i`. */
  function At(p: Pass, s: State, i: nat): Option<State>
    requires i < |s.tasks|
  {
    var t := s.tasks[i];
    match p
    case Enforce => Some(s.(tasks := s.tasks[i := EnforceRow(t)]))
    case Expire(now) => Some(s.(tasks := s.tasks[i := ExpireRow(t, now)]))
    case RouteTriage(now) => Some(TriageRow(s, i, now))
    case Release => Some(s.(tasks := s.tasks[i := ReleaseRow(s.tasks, t)]))
    case Assign(now, _) => Some(AssignRow(s, i, now))
    case Dispatch(now) => DispatchRow(s, i, now)
    case Poll(inbox, now) => PollRow(s, i, inbox, now)
    case RecoverRca => Some(s.(tasks := s.tasks[i := RecoverRcaRow(t)]))
    case RecoverBounded => Some(s.(tasks := s.tasks[i := RecoverBoundedRow(t)]))
    case BlockUnroutable => Some(s.(tasks := s.tasks[i := BlockUnroutableRow(t)]))
  }

  /** No pass adds or removes a row, or touches the configuration. */
  lemma AtKeepsShape(p: Pass, s: State, i: nat)
    requires i < |s.tasks|
    ensures At(p, s, i).Some? ==>
              var u := At(p, s, i).value;
              && |u.tasks| == |s.tasks| && u.workers == s.workers && u.maxParallel == s.maxParallel && u.couriers == s.couriers
              && u.lost == s.lost && u.lane == s.lane && u.tasks[i].def == s.tasks[i].def
              && (forall j :: 0 <= j < |s.tasks| && j != i ==> u.tasks[j] == s.tasks[j])
  {
    hide EnvelopeOk, Drifted, ReceiptAccepted, Best, Analyst, LoadMap, Tally, DependenciesDone, Preserved, Binds;
  }

  /** The first `n` iterations of the pass, or None when one of them raises. */
  function Sweep(p: Pass, s: State, n: nat): (r: Option<State>)
    requires Fits(p, |s.tasks|) && n <= Width(p, |s.tasks|)
    ensures r.Some? ==> |r.value.tasks| == |s.tasks| && r.value.workers == s.workers
                        && r.value.maxParallel == s.maxParallel && r.value.couriers == s.couriers && r.value.lost == s.lost
                        && r.value.lane == s.lane
    ensures !(p.Dispatch? || p.Poll?) ==> r.Some?
  {
    if n == 0 then Some(s) else
    match Sweep(p, s, n - 1)
    case None => None
    case Some(u) => AtKeepsShape(p, u, Row(p, n - 1)); At(p, u, Row(p, n - 1))
  }

  function Run(p: Pass, s: State): Option<State>
    requires Fits(p, |s.tasks|)
  {
    Sweep(p, s, Width(p, |s.tasks|))
  }

  // ---------------------------------------------------------------- the order in which ready work is offered

  predicate Precedes(ts: seq<Task>, i: nat, j: nat)
    requires i < |ts| && j < |ts|
  {
    var a, b := ts[i].def, ts[j].def;
    a.priority > b.priority || (a.priority == b.priority && a.idRank <= b.idRank)
  }

  /** Row `i` put into an order that is already sorted. */
  function Insert(ts: seq<Task>, order: seq<nat>, i: nat): (r: seq<nat>)
    requires i < |ts| && forall k :: 0 <= k < |order| ==> order[k] < |ts|
    ensures forall j: nat :: j in r <==> j == i || j in order
    ensures forall k :: 0 <= k < |r| ==> r[k] == i || r[k] in order
  {
    if order == [] then [i]
    else if Precedes(ts, i, order[0]) then [i] + order
    else [order[0]] + Insert(ts, order[1..], i)
  }

  /** The READY rows among the first `n`, by falling priority and then by id. */
  function Ranked(ts: seq<Task>, n: nat): (r: seq<nat>)
    requires n <= |ts|
    ensures forall k :: 0 <= k < |r| ==> r[k] < n && ts[r[k]].status == Ready
    ensures forall j: nat :: j in r <==> j < n && ts[j].status == Ready
  {
    if n == 0 then []
    else if ts[n - 1].status == Ready then Insert(ts, Ranked(ts, n - 1), n - 1)
    else Ranked(ts, n - 1)
  }

  /** One manager cycle; none of its passes raises. */
  function Cycle(s: State, now: int): State {
    var a := Run(Enforce, s).value;
    var b := Run(Expire(now), a).value;
    var c := Run(RouteTriage(now), b).value;
    var d := Run(Release, c).value;
    Run(Assign(now, Ranked(d.tasks, |d.tasks|)), d).value
  }

  // ---------------------------------------------------------------- runs

  /** What one run of the transport does before its only save. */
  datatype Mode = PollOnly | DispatchOnly | Both

  /**
  One action of the manager, the transport or the runner, a change of the workers' metrics, or a
  process that starts on another commit.
  `dies` is the number of rows after which the process is killed while it dispatches.
  */
  datatype Step =
    | StepCycle(now: int)
    | StepTransport(mode: Mode, inbox: map<nat, TaskResult>, now: int, dies: Option<nat>)
    | StepRecoverRca | StepRecoverBounded | StepBlockUnroutable
    | StepObserve(workers: seq<Worker>)
    | StepCheckout(lane: Lane)

  /** Only the observed metrics and the enabled flag of a worker ever change. */
  predicate SameTemplate(ws: seq<Worker>, vs: seq<Worker>) {
    && |ws| == |vs|
    && forall j :: 0 <= j < |ws| ==>
         && ws[j].id == vs[j].id && ws[j].verifier == vs[j].verifier && ws[j].capacity == vs[j].capacity
         && ws[j].authorityMax == vs[j].authorityMax && ws[j].capabilities == vs[j].capabilities
  }

  function Least(x: nat, y: nat): nat { if x < y then x else y }

  /** The table in memory when the transport starts to dispatch; None when polling raised. */
  function Polled(s: State, mode: Mode, inbox: map<nat, TaskResult>, now: int): (r: Option<State>)
    ensures r.Some? ==> |r.value.tasks| == |s.tasks|
  {
    var e := Run(Enforce, s).value;
    if mode == DispatchOnly then Some(e) else Run(Poll(inbox, now), e)
  }

  /** How far a dispatch pass gets in its first `n` rows: to the row that raises, or to the end. */
  function Got(s: State, now: int, n: nat): (r: State)
    requires n <= |s.tasks|
    ensures |r.tasks| == |s.tasks| && r.workers == s.workers && r.lost == s.lost && r.lane == s.lane
  {
    if n == 0 then s else
    match Sweep(Dispatch(now), s, n)
    case Some(u) => u
    case None => Got(s, now, n - 1)
  }

  /** The events of `b` that `a` does not have yet. */
  function NewEvents(a: State, b: State): seq<Event> {
    if |a.log| <= |b.log| then b.log[|a.log|..] else []
  }

  /** The posts that a dispatch pass over `s` makes in its first `n` rows, whether or not it raises. */
  function Posts(s: State, now: int, n: nat): seq<Event>
    requires n <= |s.tasks|
  {
    NewEvents(s, Got(s, now, n))
  }

  /** The posts made between `u` and `v` stay out in the world; the table on disk is the old one. */
  function Unsaved(s: State, u: State, v: State): State {
    s.(nextLease := if s.nextLease < v.nextLease then v.nextLease else s.nextLease, lost := s.lost + NewEvents(u, v))
  }

  function Reach(dies: Option<nat>, n: nat): nat { if dies.Some? then Least(dies.value, n) else n }

  /** One run of the transport: owner boundaries, polling, dispatching, and one save at the end. */
  function Transport(s: State, mode: Mode, inbox: map<nat, TaskResult>, now: int, dies: Option<nat>): State {
    match Polled(s, mode, inbox, now)
    case None => s
    case Some(u) =>
      if mode == PollOnly then u else
      var done := Run(Dispatch(now), u);
      if dies.None? && done.Some? then done.value
      else Unsaved(s, u, Got(u, now, Reach(dies, |u.tasks|)))
  }

  /** The state after a step. */
  function Apply(s: State, step: Step): State {
    match step
    case StepCycle(now) => Cycle(s, now)
    case StepTransport(mode, inbox, now, dies) => Transport(s, mode, inbox, now, dies)
    case StepRecoverRca => Run(RecoverRca, s).value
    case StepRecoverBounded => Run(RecoverBounded, s).value
    case StepBlockUnroutable => Run(BlockUnroutable, s).value
    case StepObserve(ws) => if SameTemplate(s.workers, ws) then s.(workers := ws) else s
    case StepCheckout(lane) => s.(lane := lane)
  }

  function RunSteps(s: State, steps: seq<Step>): State {
    if steps == [] then s else Apply(RunSteps(s, steps[..|steps| - 1]), steps[|steps| - 1])
  }
}
