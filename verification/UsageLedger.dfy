/**
The paid-request ledger: worst-case reservation before the network call, reconciliation after it,
and the monthly cap. Money is counted in quarters of 1e-10 USD, the finest price there is.
*/
module UsageLedger {
  import opened Prelude

  datatype Model = Flash | Pro

  /** Prices of one token in quarters of 1e-10 USD. */
  datatype Price = Price(hit: nat, miss: nat, output: nat)

  const GRID: nat := 4
  const CAP: nat := 200_000_000_000
  const PROTECTED: nat := 20_000_000_000
  const CHARGE_TOLERANCE: nat := 40
  const CAP_TOLERANCE: nat := 40
  const SUM_TOLERANCE: nat := 4000
  const LEDGER_SCHEMA := 2
  const PRICING_VERSION := 20260809
  const MAX_CONTENT_BYTES: nat := 24_000

  function PriceOf(model: Model): Price {
    match model case Flash => Price(112, 5600, 11200) case Pro => Price(145, 17400, 34800)
  }

  datatype Error =
    | KeyMissing | EgressDenied | UnknownComplexity | NetworkDenied
    | Malformed | RolloverBlocked | TokensOutOfBound | NoMessages | BudgetExhausted
    | UsageMissing | UsageMalformed | UsageInconsistent | ReservationMissing | AmbiguousCharge

  type Id = nat

  datatype Rec = Rec(reserved: int, model: Model, quarantined: bool)

  datatype Ledger = Ledger(
    schema: int, pricing: int, month: int, spent: int, reserved: int, requests: int, inflight: map<Id, Rec>)

  function Fresh(month: int): Ledger { Ledger(LEDGER_SCHEMA, PRICING_VERSION, month, 0, 0, 0, map[]) }

  // ---------------------------------------------------------------- validation

  function Weight(inflight: map<Id, Rec>, id: Id): int {
    if id in inflight then inflight[id].reserved else 0
  }

  /** The reservations held under the given ids. */
  ghost function Total(inflight: map<Id, Rec>, ids: set<Id>): int {
    if ids == {} then 0 else
    var id :| id in ids;
    Weight(inflight, id) + Total(inflight, ids - {id})
  }

  lemma {:induction false} TotalTake(inflight: map<Id, Rec>, ids: set<Id>, id: Id)
    requires id in ids
    ensures Total(inflight, ids) == Weight(inflight, id) + Total(inflight, ids - {id})
    decreases ids
  {
    var first :| first in ids && Total(inflight, ids) == Weight(inflight, first) + Total(inflight, ids - {first});
    if first != id {
      TotalTake(inflight, ids - {first}, id);
      TotalTake(inflight, ids - {id}, first);
      assert ids - {first} - {id} == ids - {id} - {first};
    }
  }

  predicate SignsOk(l: Ledger) {
    && l.schema == LEDGER_SCHEMA && l.pricing == PRICING_VERSION && l.requests >= 0
    && l.spent >= 0 && l.reserved >= 0 && forall id :: id in l.inflight ==> l.inflight[id].reserved >= 0
  }

  ghost predicate Valid(l: Ledger) {
    && SignsOk(l)
    && -(SUM_TOLERANCE as int) <= Total(l.inflight, l.inflight.Keys) - l.reserved <= SUM_TOLERANCE
    && l.spent + l.reserved <= CAP + CAP_TOLERANCE
  }

  method Validate(l: Ledger) returns (ok: bool)
    ensures ok == Valid(l)
  {
    if l.schema != LEDGER_SCHEMA || l.pricing != PRICING_VERSION {
      return false;
    }
    if l.spent < 0 || l.reserved < 0 || l.requests < 0 {
      return false;
    }
    var left, expected := l.inflight.Keys, 0;
    while left != {}
      invariant left <= l.inflight.Keys
      invariant forall id :: id in l.inflight && id !in left ==> l.inflight[id].reserved >= 0
      invariant expected + Total(l.inflight, left) == Total(l.inflight, l.inflight.Keys)
      decreases left
    {
      var id :| id in left;
      if l.inflight[id].reserved < 0 {
        return false;
      }
      TotalTake(l.inflight, left, id);
      expected := expected + l.inflight[id].reserved;
      left := left - {id};
    }
    ok := -(SUM_TOLERANCE as int) <= expected - l.reserved <= SUM_TOLERANCE && l.spent + l.reserved <= CAP + CAP_TOLERANCE;
  }

  /** The ledger that a request sees in `month`; a new month starts empty unless a request is open. */
  ghost function Loaded(disk: Option<Ledger>, month: int): Result<Ledger, Error> {
    match disk
    case None => Ok(Fresh(month))
    case Some(l) =>
      if !Valid(l) then Err(Malformed)
      else if l.month == month then Ok(l)
      else if l.inflight != map[] then Err(RolloverBlocked)
      else Ok(Fresh(month))
  }

  // ---------------------------------------------------------------- prices

  datatype Counter = Absent | Null | Given(n: int)

  datatype Usage = Usage(prompt: Counter, completion: Counter, hit: Counter, miss: Counter)

  function HitOf(u: Usage): int { if u.hit.Given? then u.hit.n else 0 }

  function MissOf(u: Usage): int
    requires u.prompt.Given?
  {
    match u.miss case Absent => u.prompt.n - HitOf(u) case Null => 0 case Given(n) => n
  }

  function CalculateCost(model: Model, u: Usage): Result<int, Error> {
    if u.prompt == Absent || u.completion == Absent then Err(UsageMissing)
    else if u.prompt == Null || u.completion == Null then Err(UsageMalformed)
    else
      var hit, miss := HitOf(u), MissOf(u);
      if u.prompt.n < 0 || u.completion.n < 0 || hit < 0 || miss < 0 || hit + miss != u.prompt.n then Err(UsageInconsistent)
      else
        var price := PriceOf(model);
        Ok(hit * price.hit + miss * price.miss + u.completion.n * price.output)
  }

  datatype Request = Request(model: Model, messages: nat, payloadBytes: nat, maxTokens: int, blocker: bool)

  function WorstCase(q: Request): Result<int, Error> {
    if q.maxTokens <= 0 || q.maxTokens > 32768 then Err(TokensOutOfBound)
    else if q.messages == 0 then Err(NoMessages)
    else
      var price := PriceOf(q.model);
      Ok((q.payloadBytes + 2048) * price.miss + q.maxTokens * price.output)
  }

  // ---------------------------------------------------------------- what is sent, and to which model

  datatype Complexity = Routine | Complex | Critical | Unlisted

  datatype Route = Route(model: Model, thinking: bool)

  function RouteTask(complexity: Complexity, blocker: bool): Result<Route, Error> {
    if complexity == Unlisted then Err(UnknownComplexity)
    else if blocker || complexity == Critical then Ok(Route(Pro, true))
    else Ok(Route(Flash, complexity == Complex))
  }

  /**
  An outbound message: does it have the two fields of a user message, does it start with an allowed
  prompt, is it free of prohibited text, and how long is it as JSON once it is redacted?
  */
  datatype Message = Message(shaped: bool, contentBytes: nat, listed: bool, clean: bool, payloadBytes: nat)

  function PrepareEgress(messages: seq<Message>): Result<nat, Error> {
    if |messages| != 1 then Err(EgressDenied) else
    var m := messages[0];
    if !m.shaped || m.contentBytes == 0 || m.contentBytes > MAX_CONTENT_BYTES || !m.listed || !m.clean then Err(EgressDenied)
    else Ok(m.payloadBytes)
  }

  /** `key` is whether a key is set; `authorized` is what the network authorizer says of the body and the address. */
  function RequestOf(key: bool, messages: seq<Message>, complexity: Complexity, blocker: bool, maxTokens: int, authorized: bool)
    : Result<Request, Error>
  {
    if !key then Err(KeyMissing) else
    match PrepareEgress(messages)
    case Err(e) => Err(e)
    case Ok(payload) =>
      match RouteTask(complexity, blocker)
      case Err(e) => Err(e)
      case Ok(route) => if !authorized then Err(NetworkDenied) else Ok(Request(route.model, 1, payload, maxTokens, blocker))
  }

  /** Every blocker and every critical task, and nothing else, is priced as Pro. */
  lemma RouteOfRequest(key: bool, messages: seq<Message>, complexity: Complexity, blocker: bool, maxTokens: int, authorized: bool)
    ensures var q := RequestOf(key, messages, complexity, blocker, maxTokens, authorized);
            q.Ok? ==> q.value.blocker == blocker && (q.value.model == Pro <==> blocker || complexity == Critical)
                      && WorstCase(q.value) != Err(NoMessages)
  {
  }

  /** Rounds to 1e-10 USD; `up` is the way a tie falls. */
  function Rounded(x: int, up: bool): int {
    match x % GRID
    case 0 => x
    case 1 => x - 1
    case 2 => if up then x + 2 else x - 2
    case _ => x + 1
  }

  // ---------------------------------------------------------------- the two locked sections

  function UsableCap(blocker: bool): int { if blocker then CAP else CAP - PROTECTED }

  function WithReservation(l: Ledger, id: Id, q: Request, amount: int): Ledger {
    l.(inflight := l.inflight[id := Rec(amount, q.model, false)], reserved := l.reserved + amount)
  }

  function WithCharge(l: Ledger, id: Id, actual: int, up: bool): Ledger
    requires id in l.inflight
  {
    l.(reserved := l.reserved - l.inflight[id].reserved, spent := Rounded(l.spent + actual, up),
       requests := l.requests + 1, inflight := l.inflight - {id})
  }

  function WithQuarantine(l: Ledger, id: Id): Ledger
    requires id in l.inflight
  {
    l.(inflight := l.inflight[id := l.inflight[id].(quarantined := true)])
  }

  /** What a locked section leaves on disk and tells its caller. */
  datatype Outcome = Outcome(disk: Option<Ledger>, result: Result<int, Error>)

  ghost function Saved(disk: Option<Ledger>, l: Ledger, result: Result<int, Error>): Outcome {
    if Valid(l) then Outcome(Some(l), result) else Outcome(disk, Err(Malformed))
  }

  /** Reserving the worst case of a request under a fresh id; returns the amount. */
  ghost function Reserved(disk: Option<Ledger>, month: int, q: Request, id: Id): Outcome {
    match WorstCase(q)
    case Err(e) => Outcome(disk, Err(e))
    case Ok(amount) =>
      match Loaded(disk, month)
      case Err(e) => Outcome(disk, Err(e))
      case Ok(l) =>
        if l.spent + l.reserved + amount > UsableCap(q.blocker) then Outcome(disk, Err(BudgetExhausted))
        else Saved(disk, WithReservation(l, id, q, amount), Ok(amount))
  }

  /** Replacing a reservation by the actual cost; returns the cost. */
  ghost function Reconciled(disk: Option<Ledger>, month: int, id: Id, model: Model, usage: Usage, up: bool): Outcome {
    match CalculateCost(model, usage)
    case Err(e) => Outcome(disk, Err(e))
    case Ok(actual) =>
      match Loaded(disk, month)
      case Err(e) => Outcome(disk, Err(e))
      case Ok(l) =>
        if id !in l.inflight then Outcome(disk, Err(ReservationMissing))
        else if actual > l.inflight[id].reserved + CHARGE_TOLERANCE then
          Saved(disk, WithQuarantine(l, id), Err(AmbiguousCharge))
        else Saved(disk, WithCharge(l, id, actual, up), Ok(actual))
  }

  // ---------------------------------------------------------------- the program

  class Provider {
    var disk: Option<Ledger>

    constructor ()
      ensures disk == None
    {
      disk := None;
    }

    method Load(month: int) returns (r: Result<Ledger, Error>)
      ensures r == Loaded(disk, month)
    {
      if disk.None? {
        return Ok(Fresh(month));
      }
      var l := disk.value;
      var valid := Validate(l);
      if !valid {
        return Err(Malformed);
      }
      if l.month != month {
        if l.inflight != map[] {
          return Err(RolloverBlocked);
        }
        return Ok(Fresh(month));
      }
      r := Ok(l);
    }

    method Save(l: Ledger) returns (ok: bool)
      modifies this
      ensures ok == Valid(l) && disk == if ok then Some(l) else old(disk)
    {
      ok := Validate(l);
      if ok { disk := Some(l); }
    }

    method Reserve(month: int, q: Request, id: Id) returns (r: Result<int, Error>)
      modifies this
      ensures Outcome(disk, r) == Reserved(old(disk), month, q, id)
    {
      hide Valid, WorstCase;
      var worst := WorstCase(q);
      if worst.Err? {
        return Err(worst.error);
      }
      var loaded := Load(month);
      if loaded.Err? {
        return Err(loaded.error);
      }
      var l, amount := loaded.value, worst.value;
      var cap := if q.blocker then CAP else CAP - PROTECTED;
      if l.spent + l.reserved + amount > cap {
        return Err(BudgetExhausted);
      }
      l := l.(inflight := l.inflight[id := Rec(amount, q.model, false)]);
      l := l.(reserved := l.reserved + amount);
      var ok := Save(l);
      r := if ok then Ok(amount) else Err(Malformed);
    }

    method Reconcile(month: int, id: Id, model: Model, usage: Usage, up: bool) returns (r: Result<int, Error>)
      modifies this
      ensures Outcome(disk, r) == Reconciled(old(disk), month, id, model, usage, up)
    {
      hide Valid, CalculateCost, Rounded;
      var cost := CalculateCost(model, usage);
      if cost.Err? {
        return Err(cost.error);
      }
      var loaded := Load(month);
      if loaded.Err? {
        return Err(loaded.error);
      }
      var l, actual := loaded.value, cost.value;
      if id !in l.inflight {
        return Err(ReservationMissing);
      }
      var rec := l.inflight[id];
      if actual > rec.reserved + CHARGE_TOLERANCE {
        l := l.(inflight := l.inflight[id := rec.(quarantined := true)]);
        var kept := Save(l);
        return Err(if kept then AmbiguousCharge else Malformed);
      }
      l := l.(reserved := l.reserved - rec.reserved);
      l := l.(spent := Rounded(l.spent + actual, up));
      l := l.(requests := l.requests + 1);
      l := l.(inflight := l.inflight - {id});
      var ok := Save(l);
      r := if ok then Ok(actual) else Err(Malformed);
    }

    /** One paid request: nothing is posted before the reservation is saved, and a lost reply keeps it. */
    method Chat(
      month: int, key: bool, messages: seq<Message>, complexity: Complexity, blocker: bool, maxTokens: int, authorized: bool,
      id: Id, reply: Option<Usage>, replyMonth: int, up: bool) returns (r: Result<int, Error>)
      modifies this
      ensures match RequestOf(key, messages, complexity, blocker, maxTokens, authorized)
              case Err(e) => Outcome(disk, r) == Outcome(old(disk), Err(e))
              case Ok(q) =>
                var reserved := Reserved(old(disk), month, q, id);
                if reserved.result.Err? then Outcome(disk, r) == reserved
                else if reply.None? then Outcome(disk, r) == Outcome(reserved.disk, Err(AmbiguousCharge))
                else Outcome(disk, r) == Reconciled(reserved.disk, replyMonth, id, q.model, reply.value, up)
    {
      hide Reserved, Reconciled;
      if !key {
        return Err(KeyMissing);
      }
      var payload := PrepareEgress(messages);
      if payload.Err? {
        return Err(payload.error);
      }
      var route := RouteTask(complexity, blocker);
      if route.Err? {
        return Err(route.error);
      }
      if !authorized {
        return Err(NetworkDenied);
      }
      var model := route.value.model;
      r := Reserve(month, Request(model, |messages|, payload.value, maxTokens, blocker), id);
      if r.Ok? {
        if reply.None? {
          return Err(AmbiguousCharge);
        }
        r := Reconcile(replyMonth, id, model, reply.value, up);
      }
    }
  }
}
