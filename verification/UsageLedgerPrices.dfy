/** What a paid request costs, token by token, and what it leaves in the ledger. */
module UsageLedgerPrices {
  import opened Prelude
  import opened UsageLedger
  import opened UsageLedgerLaws

  // ---------------------------------------------------------------- token prices

  /** The tokens that a usage reports; an absent or null hit count is zero, an absent miss count is the rest of the prompt. */
  predicate Reports(u: Usage, hits: nat, misses: nat, outputs: nat) {
    && u.prompt == Given(hits + misses) && u.completion == Given(outputs)
    && (if u.hit.Given? then u.hit.n == hits else hits == 0)
    && (match u.miss case Given(n) => n == misses case Null => misses == 0 case Absent => true)
  }

  /** The price list in quarters of 1e-10 USD: cached prompt, other prompt, output. */
  function Priced(model: Model, hits: int, misses: int, outputs: int): int {
    match model
    case Flash => 112 * hits + 5600 * misses + 11200 * outputs
    case Pro => 145 * hits + 17400 * misses + 34800 * outputs
  }

  lemma CostIsPriced(model: Model, u: Usage, hits: nat, misses: nat, outputs: nat)
    requires Reports(u, hits, misses, outputs)
    ensures CalculateCost(model, u) == Ok(Priced(model, hits, misses, outputs))
  {
  }

  /** A usage has a cost if and only if it reports some number of hits, misses and outputs. */
  lemma CostIff(model: Model, u: Usage)
    ensures CalculateCost(model, u).Ok? <==> exists hits: nat, misses: nat, outputs: nat :: Reports(u, hits, misses, outputs)
  {
    if CalculateCost(model, u).Ok? {
      assert Reports(u, HitOf(u), MissOf(u), u.completion.n);
    } else if exists hits: nat, misses: nat, outputs: nat :: Reports(u, hits, misses, outputs) {
      var hits: nat, misses: nat, outputs: nat :| Reports(u, hits, misses, outputs);
      CostIsPriced(model, u, hits, misses, outputs);
    }
  }

  /** The request has a saved reservation of its own in this month. */
  ghost predicate OpenHere(disk: Option<Ledger>, month: int, id: Id) {
    disk.Some? && Valid(disk.value) && disk.value.month == month && id in disk.value.inflight
  }

  /**
  Reconciling an open request: its tokens are charged at the price list, it is closed and counted;
  or they cost more than was reserved, and it stays reserved and is quarantined; or the charge would
  break the ledger, and nothing changes.
  */
  lemma ReconcileCharges(disk: Option<Ledger>, month: int, id: Id, model: Model, u: Usage, up: bool, hits: nat, misses: nat, outputs: nat)
    requires OpenHere(disk, month, id) && Reports(u, hits, misses, outputs)
    ensures var cost, l := Priced(model, hits, misses, outputs), disk.value;
            var out := Reconciled(disk, month, id, model, u, up);
            if cost > l.inflight[id].reserved + 40 then
              && (out.result == Err(AmbiguousCharge) ==>
                    && out.disk.Some? && out.disk.value.spent == l.spent && out.disk.value.reserved == l.reserved
                    && out.disk.value.inflight == l.inflight[id := l.inflight[id].(quarantined := true)]
                    && out.disk.value.requests == l.requests)
              && (out.result != Err(AmbiguousCharge) ==> out == Outcome(disk, Err(Malformed)))
            else if out.result.Ok? then
              && out.result.value == cost && out.disk.Some?
              && -2 <= out.disk.value.spent - (l.spent + cost) <= 2 && Whole(out.disk.value.spent)
              && out.disk.value.reserved == l.reserved - l.inflight[id].reserved
              && out.disk.value.inflight == l.inflight - {id} && out.disk.value.requests == l.requests + 1
            else out == Outcome(disk, Err(Malformed))
  {
    CostIsPriced(model, u, hits, misses, outputs);
    var cost := Priced(model, hits, misses, outputs);
    RoundedNear(disk.value.spent + cost, up);
    hide Valid, CalculateCost, Priced, Rounded, Reports, Whole;
  }

  /** Nothing is charged without a reservation that is open in the month, and the reason is named. */
  lemma NothingOpen(disk: Option<Ledger>, month: int, id: Id, model: Model, u: Usage, up: bool, hits: nat, misses: nat, outputs: nat)
    requires Reports(u, hits, misses, outputs) && !OpenHere(disk, month, id)
    ensures Reconciled(disk, month, id, model, u, up)
            == Outcome(disk, Err(if disk.Some? && !Valid(disk.value) then Malformed
                                 else if disk.Some? && disk.value.month != month && disk.value.inflight != map[] then RolloverBlocked
                                 else ReservationMissing))
  {
    CostIsPriced(model, u, hits, misses, outputs);
    hide Valid, CalculateCost, Priced, Reports;
  }

  /** What a reconciliation of this usage charges, if it succeeds. */
  ghost function Charge(disk: Option<Ledger>, month: int, id: Id, model: Model, u: Usage, up: bool): Result<int, Error> {
    Reconciled(disk, month, id, model, u, up).result
  }

  lemma ChargeIsPriced(disk: Option<Ledger>, month: int, id: Id, model: Model, u: Usage, up: bool, hits: nat, misses: nat, outputs: nat)
    requires Charge(disk, month, id, model, u, up).Ok? && Reports(u, hits, misses, outputs)
    ensures Charge(disk, month, id, model, u, up).value == Priced(model, hits, misses, outputs)
  {
    CostIsPriced(model, u, hits, misses, outputs);
    hide Loaded, Valid, CalculateCost, Priced;
  }

  /** On any ledgers: one hit, one miss or one output token more is charged exactly its price more. */
  lemma OneTokenMore(d: Option<Ledger>, e: Option<Ledger>, month: int, id: Id, model: Model, u: Usage, v: Usage, up: bool,
                     hits: nat, misses: nat, outputs: nat, more: nat, lost: nat, said: nat)
    requires Charge(d, month, id, model, u, up).Ok? && Charge(e, month, id, model, v, up).Ok?
    requires Reports(u, hits, misses, outputs) && Reports(v, hits + more, misses + lost, outputs + said) && more + lost + said == 1
    ensures Charge(e, month, id, model, v, up).value - Charge(d, month, id, model, u, up).value
            == match model case Flash => 112 * more + 5600 * lost + 11200 * said case Pro => 145 * more + 17400 * lost + 34800 * said
  {
    hide Charge;
    ChargeIsPriced(d, month, id, model, u, up, hits, misses, outputs);
    ChargeIsPriced(e, month, id, model, v, up, hits + more, misses + lost, outputs + said);
  }

  /** On any ledgers: no tokens are charged nothing, and two usages in one are charged what they are charged apart. */
  lemma ChargesAdd(d: Option<Ledger>, e: Option<Ledger>, f: Option<Ledger>, month: int, id: Id, model: Model,
                   u: Usage, v: Usage, both: Usage, up: bool, a: nat, b: nat, c: nat, x: nat, y: nat, z: nat)
    requires Charge(d, month, id, model, u, up).Ok? && Charge(e, month, id, model, v, up).Ok? && Charge(f, month, id, model, both, up).Ok?
    requires Reports(u, a, b, c) && Reports(v, x, y, z) && Reports(both, a + x, b + y, c + z)
    ensures Charge(f, month, id, model, both, up).value == Charge(d, month, id, model, u, up).value + Charge(e, month, id, model, v, up).value
    ensures a + b + c == 0 ==> Charge(d, month, id, model, u, up).value == 0
  {
    hide Charge;
    ChargeIsPriced(d, month, id, model, u, up, a, b, c);
    ChargeIsPriced(e, month, id, model, v, up, x, y, z);
    ChargeIsPriced(f, month, id, model, both, up, a + x, b + y, c + z);
  }

  /** Never charged below the prompt at the cached price, and never above it at the full price, the output added. */
  lemma ChargeBetween(disk: Option<Ledger>, month: int, id: Id, model: Model, u: Usage, up: bool)
    requires Charge(disk, month, id, model, u, up).Ok?
    ensures u.prompt.Given? && u.completion.Given? && u.prompt.n >= 0 && u.completion.n >= 0
    ensures Priced(model, u.prompt.n, 0, u.completion.n) <= Charge(disk, month, id, model, u, up).value <= Priced(model, 0, u.prompt.n, u.completion.n)
  {
    CostIff(model, u);
    var hits: nat, misses: nat, outputs: nat :| Reports(u, hits, misses, outputs);
    ChargeIsPriced(disk, month, id, model, u, up, hits, misses, outputs);
    hide Charge;
  }

  // ---------------------------------------------------------------- reservations

  /** A reservation is the price of the greatest usage: every payload byte and 2048 more as prompt that is not cached, and all output tokens. */
  lemma ReservationIsWorstUsage(q: Request)
    ensures WorstCase(q).Ok? <==> 1 <= q.maxTokens <= 32768 && q.messages > 0
    ensures WorstCase(q).Ok? ==>
              && WorstCase(q).value == Priced(q.model, 0, q.payloadBytes + 2048, q.maxTokens)
              && CalculateCost(q.model, Usage(Given(q.payloadBytes + 2048), Given(q.maxTokens), Absent, Absent)) == WorstCase(q)
  {
  }

  // ---------------------------------------------------------------- requests

  /** Exactly one clean, allowed user message of 1 to 24000 bytes is sent, and only with a key, a listed complexity and a grant. */
  lemma RequestAllowedIff(key: bool, messages: seq<Message>, complexity: Complexity, blocker: bool, maxTokens: int, authorized: bool)
    ensures RequestOf(key, messages, complexity, blocker, maxTokens, authorized).Ok? <==>
              && key && authorized && complexity != Unlisted && |messages| == 1
              && var m := messages[0]; m.shaped && m.listed && m.clean && 1 <= m.contentBytes <= 24_000
    ensures var r := RequestOf(key, messages, complexity, blocker, maxTokens, authorized);
            r.Ok? ==> r.value.payloadBytes == messages[0].payloadBytes && r.value.maxTokens == maxTokens && r.value.messages == 1
  {
  }

  /** Thinking is for everything but routine work. */
  lemma ThinkingRoutes(complexity: Complexity, blocker: bool)
    requires RouteTask(complexity, blocker).Ok?
    ensures RouteTask(complexity, blocker).value.thinking <==> blocker || complexity != Routine
  {
  }

  // ---------------------------------------------------------------- the ledger file

  /**
  A ledger is accepted exactly with the schema and the prices of the program, without negative
  amounts, with reservations that sum up to what is reserved within 1e-7 USD, and within 5.00 USD
  and a tolerance of 1e-9.
  */
  lemma ValidIff(l: Ledger)
    ensures Valid(l) <==>
              && l.schema == 2 && l.pricing == 20260809 && l.spent >= 0 && l.reserved >= 0 && l.requests >= 0
              && (forall id :: id in l.inflight ==> l.inflight[id].reserved >= 0)
              && Total(l.inflight, l.inflight.Keys) <= l.reserved + 4000 && l.reserved <= Total(l.inflight, l.inflight.Keys) + 4000
              && l.spent + l.reserved <= 200_000_000_040
  {
  }
}
