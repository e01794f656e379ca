/**
Closed candles from a public kline endpoint: one complete page, and windows of many pages. `ms` is
the interval length in milliseconds; the program supports 900000, 3600000 and 14400000, and
everything below holds for any positive length.
*/
module Klines {
  import opened Prelude

  const MAX_LIMIT: int := 1000

  /** A row of the payload; times and prices are numbers, `None` in a payload is a row that is not. */
  datatype Row = Row(open: int, close: int, openPrice: real, high: real, low: real, closePrice: real, volume: real)

  datatype Error =
    | BadBound(name: string) | BadNow | EndBeforeStart | BoundsRequired | BadLimit | BadPageLimit | BadMaxPages
    | Malformed | BadRange | OffGrid | WrongDuration | NotClosed | BeforeStart | AfterEnd | Duplicate | NotChronological
    | BadPrices | Incomplete | EmptyWindow | WindowTooLong | OpenCandle | TooManyPages | Transport | PagesIncomplete

  datatype Window = Window(start: Option<int>, end: Option<int>, complete: bool)

  // ---------------------------------------------------------------- grids

  function Scaled(i: int, ms: int): int { i * ms }

  /** The multiples of `ms` from the `first`-th to the `last`-th. */
  function Grid(first: int, last: int, ms: int): seq<int> {
    if last < first then [] else seq(last - first + 1, i => Scaled(first + i, ms))
  }

  function FirstIndex(start: int, ms: int): int
    requires ms > 0
  {
    (start + ms - 1) / ms
  }

  function LastIndex(end: int, ms: int): int
    requires ms > 0
  {
    end / ms
  }

  /** The open times in a window. */
  function ExpectedOpens(start: int, end: int, ms: int): seq<int>
    requires ms > 0
  {
    Grid(FirstIndex(start, ms), LastIndex(end, ms), ms)
  }

  // ---------------------------------------------------------------- one page

  predicate PricesOk(r: Row) {
    && r.openPrice > 0.0 && r.high > 0.0 && r.low > 0.0 && r.closePrice > 0.0 && r.volume >= 0.0
    && r.low <= r.openPrice <= r.high && r.low <= r.closePrice <= r.high
  }

  function Opens(rows: seq<Row>): (r: seq<int>)
    ensures |r| == |rows|
  {
    seq(|rows|, i requires 0 <= i < |rows| => rows[i].open)
  }

  /** The first check that a row fails on its own. */
  function RowError(r: Row, ms: int, now: int, w: Window): Option<Error>
    requires ms > 0
  {
    if r.open < 0 || r.close <= r.open then Some(BadRange)
    else if r.open % ms != 0 then Some(OffGrid)
    else if r.close != r.open + ms - 1 then Some(WrongDuration)
    else if r.close >= now then Some(NotClosed)
    else if w.start.Some? && r.open < w.start.value then Some(BeforeStart)
    else if w.end.Some? && r.open > w.end.value then Some(AfterEnd)
    else None
  }

  /** The rows accepted among the first `k`, or the first error. */
  function Accepted(payload: seq<Option<Row>>, ms: int, now: int, w: Window, k: nat): (r: Result<seq<Row>, Error>)
    requires ms > 0 && k <= |payload|
    ensures r.Ok? ==> |r.value| == k
  {
    if k == 0 then Ok([]) else
    match Accepted(payload, ms, now, w, k - 1)
    case Err(e) => Err(e)
    case Ok(rows) =>
      match payload[k - 1]
      case None => Err(Malformed)
      case Some(r) =>
        match RowError(r, ms, now, w)
        case Some(e) => Err(e)
        case None =>
          if r.open in Opens(rows) then Err(Duplicate)
          else if rows != [] && r.open <= rows[|rows| - 1].open then Err(NotChronological)
          else if !PricesOk(r) then Err(BadPrices)
          else Ok(rows + [r])
  }

  function WindowError(now: int, w: Window): Option<Error> {
    if now <= 0 then Some(BadNow)
    else if w.start.Some? && w.start.value < 0 then Some(BadBound("start_time_ms"))
    else if w.end.Some? && w.end.value < 0 then Some(BadBound("end_time_ms"))
    else if w.start.Some? && w.end.Some? && w.end.value < w.start.value then Some(EndBeforeStart)
    else if w.complete && (w.start.None? || w.end.None?) then Some(BoundsRequired)
    else None
  }

  function Normalized(payload: seq<Option<Row>>, ms: int, now: int, w: Window): Result<seq<Row>, Error>
    requires ms > 0
  {
    match WindowError(now, w)
    case Some(e) => Err(e)
    case None =>
      match Accepted(payload, ms, now, w, |payload|)
      case Err(e) => Err(e)
      case Ok(rows) =>
        if w.complete && Opens(rows) != ExpectedOpens(w.start.value, w.end.value, ms) then Err(Incomplete) else Ok(rows)
  }

  /** What the endpoint answers to a request for a window. */
  type Server = (int, int) -> Result<seq<Option<Row>>, Error>

  /** The guards of a single-page request. */
  function PageError(start: int, end: int, ms: int, now: int, limit: int): Option<Error>
    requires ms > 0
  {
    if !(1 <= limit <= MAX_LIMIT) then Some(BadLimit)
    else if start < 0 then Some(BadBound("start_time_ms"))
    else if end < 0 then Some(BadBound("end_time_ms"))
    else if end < start then Some(EndBeforeStart)
    else
      var expected := ExpectedOpens(start, end, ms);
      if expected == [] then Some(EmptyWindow)
      else if |expected| > limit then Some(WindowTooLong)
      else if expected[|expected| - 1] + ms - 1 >= now then Some(OpenCandle)
      else None
  }

  function Fetched(server: Server, start: int, end: int, ms: int, now: int, limit: int): Result<seq<Row>, Error>
    requires ms > 0
  {
    match PageError(start, end, ms, now, limit)
    case Some(e) => Err(e)
    case None =>
      match server(start, end)
      case Err(e) => Err(e)
      case Ok(payload) => Normalized(payload, ms, now, Window(Some(start), Some(end), true))
  }

  lemma {:induction false} AcceptedErrorLasts(payload: seq<Option<Row>>, ms: int, now: int, w: Window, k: nat, n: nat)
    requires ms > 0 && k <= n <= |payload| && Accepted(payload, ms, now, w, k).Err?
    ensures Accepted(payload, ms, now, w, n) == Accepted(payload, ms, now, w, k)
  {
    hide RowError, PricesOk;
    if k < n { AcceptedErrorLasts(payload, ms, now, w, k, n - 1); }
  }

  /** Walks the payload with the set of open times seen and the previous open time. */
  method NormalizeClosedKlines(payload: seq<Option<Row>>, ms: int, now: int, w: Window) returns (r: Result<seq<Row>, Error>)
    requires ms > 0
    ensures r == Normalized(payload, ms, now, w)
  {
    hide RowError, PricesOk, ExpectedOpens;
    var problem := WindowError(now, w);
    if problem.Some? {
      return Err(problem.value);
    }
    var normalized, seen, previous: Option<int> := [], {}, None;
    for k := 0 to |payload|
      invariant Accepted(payload, ms, now, w, k) == Ok(normalized)
      invariant forall t :: t in seen <==> t in Opens(normalized)
      invariant previous == if normalized == [] then None else Some(normalized[|normalized| - 1].open)
    {
      if payload[k].None? {
        AcceptedErrorLasts(payload, ms, now, w, k + 1, |payload|);
        return Err(Malformed);
      }
      var row := payload[k].value;
      var error := RowError(row, ms, now, w);
      if error.None? {
        if row.open in seen {
          error := Some(Duplicate);
        } else if previous.Some? && row.open <= previous.value {
          error := Some(NotChronological);
        } else if !PricesOk(row) {
          error := Some(BadPrices);
        }
      }
      if error.Some? {
        AcceptedErrorLasts(payload, ms, now, w, k + 1, |payload|);
        return Err(error.value);
      }
      OpensSnoc(normalized, row);
      normalized := normalized + [row];
      seen := seen + {row.open};
      previous := Some(row.open);
    }
    if w.complete && Opens(normalized) != ExpectedOpens(w.start.value, w.end.value, ms) {
      return Err(Incomplete);
    }
    r := Ok(normalized);
  }

  lemma OpensSnoc(rows: seq<Row>, r: Row)
    ensures Opens(rows + [r]) == Opens(rows) + [r.open]
  {
  }

  // ---------------------------------------------------------------- many pages

  /** The windows that the pages ask for, by grid index. */
  function Pages(first: int, last: int, limit: int): seq<(int, int)>
    requires limit > 0
    decreases last - first
  {
    if first > last then [] else
    var pageEnd := first + Least(limit - 1, last - first);
    [(first, pageEnd)] + Pages(pageEnd + 1, last, limit)
  }

  function Least(x: int, y: int): int { if x < y then x else y }

  /** The candles of the pages from the `i`-th on, or the first error. */
  function Collected(server: Server, pages: seq<(int, int)>, ms: int, now: int, limit: int, k: nat): Result<seq<Row>, Error>
    requires ms > 0 && k <= |pages|
  {
    if k == 0 then Ok([]) else
    match Collected(server, pages, ms, now, limit, k - 1)
    case Err(e) => Err(e)
    case Ok(rows) =>
      match Fetched(server, Scaled(pages[k - 1].0, ms), Scaled(pages[k - 1].1, ms), ms, now, limit)
      case Err(e) => Err(e)
      case Ok(page) => Ok(rows + page)
  }

  function RequiredPages(first: int, last: int, limit: int): int
    requires limit > 0
  {
    (last - first + 1 + limit - 1) / limit
  }

  function PaginationError(start: int, end: int, ms: int, now: int, pageLimit: int, maxPages: int): Option<Error>
    requires ms > 0
  {
    if start < 0 then Some(BadBound("start_time_ms"))
    else if end < 0 then Some(BadBound("end_time_ms"))
    else if end < start then Some(EndBeforeStart)
    else if !(1 <= pageLimit <= MAX_LIMIT) then Some(BadPageLimit)
    else if maxPages < 1 then Some(BadMaxPages)
    else if now <= 0 then Some(BadNow)
    else
      var first, last := FirstIndex(start, ms), LastIndex(end, ms);
      if first > last then Some(EmptyWindow)
      else if Scaled(last, ms) + ms - 1 >= now then Some(OpenCandle)
      else if RequiredPages(first, last, pageLimit) > maxPages then Some(TooManyPages)
      else None
  }

  function Paginated(server: Server, start: int, end: int, ms: int, now: int, pageLimit: int, maxPages: int): Result<seq<Row>, Error>
    requires ms > 0
  {
    match PaginationError(start, end, ms, now, pageLimit, maxPages)
    case Some(e) => Err(e)
    case None =>
      var first, last := FirstIndex(start, ms), LastIndex(end, ms);
      var pages := Pages(first, last, pageLimit);
      match Collected(server, pages, ms, now, pageLimit, |pages|)
      case Err(e) => Err(e)
      case Ok(rows) => if Opens(rows) != Grid(first, last, ms) then Err(PagesIncomplete) else Ok(rows)
  }

  lemma {:induction false} CollectedErrorLasts(server: Server, pages: seq<(int, int)>, ms: int, now: int, limit: int, k: nat, n: nat)
    requires ms > 0 && k <= n <= |pages| && Collected(server, pages, ms, now, limit, k).Err?
    ensures Collected(server, pages, ms, now, limit, n) == Collected(server, pages, ms, now, limit, k)
  {
    hide Fetched;
    if k < n { CollectedErrorLasts(server, pages, ms, now, limit, k, n - 1); }
  }

  lemma MultiplesApart(x: int, y: int, ms: int)
    requires ms > 0
    ensures (Scaled(y, ms) - Scaled(x, ms)) / ms == y - x
    ensures x < y ==> Scaled(x, ms) < Scaled(y, ms)
    ensures Scaled(x + 1, ms) == Scaled(x, ms) + ms
    ensures Scaled(x, ms) + Scaled(y, ms) == Scaled(x + y, ms)
  {
    DivOfMultiple(y - x, ms);
    assert Scaled(y, ms) - Scaled(x, ms) == (y - x) * ms;
    if x < y { assert (y - x) * ms > 0; }
  }

  lemma DivOfMultiple(k: int, ms: int)
    requires ms > 0
    ensures (k * ms) / ms == k && (k * ms + ms - 1) / ms == k
  {
    DivUnique(k * ms, ms, k, 0);
    DivUnique(k * ms + ms - 1, ms, k, ms - 1);
  }

  /** Quotient and remainder are unique. */
  lemma DivUnique(x: int, d: int, q: int, r: int)
    requires d > 0 && x == q * d + r && 0 <= r < d
    ensures x / d == q
  {
    var e := x / d - q;
    assert x == d * (x / d) + x % d;
    assert d * e == r - x % d;
    MulBounds(d, e);
  }

  lemma MulBounds(d: int, e: int)
    requires d > 0
    ensures e >= 1 ==> d * e >= d
    ensures e <= -1 ==> d * e <= -d
  {
  }

  lemma PagesStep(first: int, last: int, limit: int)
    requires limit > 0 && first <= last
    ensures var pageEnd := first + Least(limit - 1, last - first);
            Pages(first, last, limit) == [(first, pageEnd)] + Pages(pageEnd + 1, last, limit)
  {
  }

  /** Requests page after page; `requested` is the log of the requests, in open-time milliseconds. */
  method FetchClosedKlinesPaginated(server: Server, start: int, end: int, ms: int, now: int, pageLimit: int, maxPages: int)
    returns (r: Result<seq<Row>, Error>, requested: seq<(int, int)>)
    requires ms > 0
    ensures r == Paginated(server, start, end, ms, now, pageLimit, maxPages)
    ensures PaginationError(start, end, ms, now, pageLimit, maxPages).Some? ==> requested == []
    ensures PaginationError(start, end, ms, now, pageLimit, maxPages).None? ==>
              var pages := Pages(FirstIndex(start, ms), LastIndex(end, ms), pageLimit);
              |requested| <= |pages| && requested == InMillis(pages, ms)[..|requested|] && (r.Ok? ==> |requested| == |pages|)
  {
    hide Fetched, Scaled, Grid;
    requested := [];
    var problem := PaginationError(start, end, ms, now, pageLimit, maxPages);
    if problem.Some? {
      return Err(problem.value), requested;
    }
    var firstOpen, lastOpen := Scaled(FirstIndex(start, ms), ms), Scaled(LastIndex(end, ms), ms);
    ghost var pages := Pages(FirstIndex(start, ms), LastIndex(end, ms), pageLimit);
    var result, pageStart := [], firstOpen;
    ghost var index, last := FirstIndex(start, ms), LastIndex(end, ms);
    while pageStart <= lastOpen
      invariant pageStart == Scaled(index, ms) && |requested| <= |pages|
      invariant Pages(index, last, pageLimit) == pages[|requested|..]
      invariant Collected(server, pages, ms, now, pageLimit, |requested|) == Ok(result)
      invariant requested == InMillis(pages, ms)[..|requested|]
      decreases last - index
    {
      MultiplesApart(index, last, ms);
      MultiplesApart(last, index, ms);
      PagesStep(index, last, pageLimit);
      var lastIndex := Least(pageLimit - 1, (lastOpen - pageStart) / ms);
      var pageEnd := pageStart + Scaled(lastIndex, ms);
      MultiplesApart(index, lastIndex, ms);
      MultiplesApart(index + lastIndex, 0, ms);
      assert pages[|requested|] == pages[|requested|..][0] == (index, index + lastIndex);
      assert pages[|requested| + 1..] == pages[|requested|..][1..];
      LogSnoc(pages, ms, |requested|);
      var page := Fetched(server, pageStart, pageEnd, ms, now, pageLimit);
      requested := requested + [(pageStart, pageEnd)];
      if page.Err? {
        CollectedErrorLasts(server, pages, ms, now, pageLimit, |requested|, |pages|);
        return Err(page.error), requested;
      }
      result := result + page.value;
      index := index + lastIndex + 1;
      pageStart := pageEnd + ms;
    }
    MultiplesApart(index, last, ms);
    assert Pages(index, last, pageLimit) == [];
    if Opens(result) != Grid(FirstIndex(start, ms), LastIndex(end, ms), ms) {
      return Err(PagesIncomplete), requested;
    }
    r := Ok(result);
  }

  function InMillis(pages: seq<(int, int)>, ms: int): (r: seq<(int, int)>)
    ensures |r| == |pages|
  {
    seq(|pages|, i requires 0 <= i < |pages| => (Scaled(pages[i].0, ms), Scaled(pages[i].1, ms)))
  }

  lemma LogSnoc(pages: seq<(int, int)>, ms: int, k: nat)
    requires k < |pages|
    ensures InMillis(pages, ms)[..k + 1] == InMillis(pages, ms)[..k] + [(Scaled(pages[k].0, ms), Scaled(pages[k].1, ms))]
  {
  }

  // ---------------------------------------------------------------- exactness

  lemma {:induction false} PageCount(first: int, last: int, limit: int)
    requires limit > 0
    ensures first <= last ==> |Pages(first, last, limit)| == RequiredPages(first, last, limit)
    ensures first > last ==> |Pages(first, last, limit)| == 0
    decreases last - first
  {
    if first <= last {
      var count := last - first + 1;
      if count <= limit {
        DivUnique(count + limit - 1, limit, 1, count - 1);
      } else {
        PageCount(first + limit, last, limit);
        DivShift(count - 1, limit);
      }
    }
  }

  lemma DivShift(x: int, d: int)
    requires d > 0
    ensures (x + d) / d == x / d + 1
  {
    assert x == d * (x / d) + x % d;
    assert x + d == (x / d + 1) * d + x % d;
    DivUnique(x + d, d, x / d + 1, x % d);
  }

  /** Every page asked for lies in the window, is not empty and is at most one page long. */
  lemma {:induction false} PagesInside(first: int, last: int, limit: int, k: nat)
    requires limit > 0 && k < |Pages(first, last, limit)|
    ensures var (a, b) := Pages(first, last, limit)[k]; first <= a <= b <= last && b - a + 1 <= limit
    decreases last - first
  {
    if k > 0 {
      var pageEnd := first + Least(limit - 1, last - first);
      PagesInside(pageEnd + 1, last, limit, k - 1);
    }
  }

  lemma OnGridWindow(a: int, b: int, ms: int)
    requires ms > 0
    ensures FirstIndex(Scaled(a, ms), ms) == a && LastIndex(Scaled(b, ms), ms) == b
  {
    DivOfMultiple(a, ms);
    DivOfMultiple(b, ms);
  }

  /** Each page meets every guard of the single-page request. */
  lemma EveryPageAllowed(start: int, end: int, ms: int, now: int, pageLimit: int, maxPages: int, k: nat)
    requires ms > 0 && PaginationError(start, end, ms, now, pageLimit, maxPages).None?
    requires k < |Pages(FirstIndex(start, ms), LastIndex(end, ms), pageLimit)|
    ensures var (a, b) := Pages(FirstIndex(start, ms), LastIndex(end, ms), pageLimit)[k];
            PageError(Scaled(a, ms), Scaled(b, ms), ms, now, pageLimit) == None
  {
    hide Scaled, Pages;
    var first, last := FirstIndex(start, ms), LastIndex(end, ms);
    var (a, b) := Pages(first, last, pageLimit)[k];
    PagesInside(first, last, pageLimit, k);
    OnGridWindow(a, b, ms);
    FirstNonneg(start, ms);
    NonnegMultiple(a, ms);
    MultiplesApart(a, b, ms);
    MultiplesApart(b, last, ms);
    assert ExpectedOpens(Scaled(a, ms), Scaled(b, ms), ms) == Grid(a, b, ms);
    NonnegMultiple(b, ms);
  }

  lemma NonnegMultiple(a: int, ms: int)
    requires a >= 0 && ms > 0
    ensures Scaled(a, ms) >= 0
  {
  }

  lemma FirstNonneg(start: int, ms: int)
    requires start >= 0 && ms > 0
    ensures FirstIndex(start, ms) >= 0
  {
  }

  /** The grids of the first `k` pages, one after another. */
  function PageGrids(pages: seq<(int, int)>, ms: int, k: nat): seq<int>
    requires k <= |pages|
  {
    if k == 0 then [] else PageGrids(pages, ms, k - 1) + Grid(pages[k - 1].0, pages[k - 1].1, ms)
  }

  lemma GridJoin(a: int, b: int, c: int, ms: int)
    requires a - 1 <= b <= c
    ensures Grid(a, b, ms) + Grid(b + 1, c, ms) == Grid(a, c, ms)
  {
    hide Scaled;
    var left, right, all := Grid(a, b, ms), Grid(b + 1, c, ms), Grid(a, c, ms);
    assert |left| + |right| == |all|;
    forall i | 0 <= i < |all| ensures (left + right)[i] == all[i] {
      if i >= |left| { assert right[i - |left|] == Scaled(b + 1 + (i - |left|), ms) == Scaled(a + i, ms); }
    }
  }

  lemma {:induction false} PageStarts(first: int, last: int, limit: int, k: nat)
    requires limit > 0 && k < |Pages(first, last, limit)|
    ensures var pages := Pages(first, last, limit);
            && pages[k].0 == (if k == 0 then first else pages[k - 1].1 + 1)
            && (k == |pages| - 1 ==> pages[k].1 == last)
    decreases last - first
  {
    var pageEnd := first + Least(limit - 1, last - first);
    if k > 0 {
      PageStarts(pageEnd + 1, last, limit, k - 1);
      if k == 1 { assert Pages(first, last, limit)[0].1 == pageEnd; }
    }
  }

  /** The page grids concatenate to the full grid, without gap or overlap. */
  lemma {:induction false} PagesTile(first: int, last: int, limit: int, ms: int, k: nat)
    requires limit > 0 && 0 < k <= |Pages(first, last, limit)|
    ensures var pages := Pages(first, last, limit);
            PageGrids(pages, ms, k) == Grid(first, pages[k - 1].1, ms) && first <= pages[k - 1].1 + 1
  {
    hide Pages, Grid;
    var pages := Pages(first, last, limit);
    PageStarts(first, last, limit, k - 1);
    PagesInside(first, last, limit, k - 1);
    if k > 1 {
      PagesTile(first, last, limit, ms, k - 1);
      GridJoin(first, pages[k - 2].1, pages[k - 1].1, ms);
    } else {
      assert PageGrids(pages, ms, 1) == PageGrids(pages, ms, 0) + Grid(pages[0].0, pages[0].1, ms);
      assert [] + Grid(pages[0].0, pages[0].1, ms) == Grid(pages[0].0, pages[0].1, ms);
    }
  }

  lemma OpensJoin(a: seq<Row>, b: seq<Row>)
    ensures Opens(a + b) == Opens(a) + Opens(b)
  {
  }

  lemma FetchedOpens(server: Server, a: int, b: int, ms: int, now: int, limit: int)
    requires ms > 0 && Fetched(server, Scaled(a, ms), Scaled(b, ms), ms, now, limit).Ok?
    ensures Opens(Fetched(server, Scaled(a, ms), Scaled(b, ms), ms, now, limit).value) == Grid(a, b, ms)
  {
    hide Scaled, PageError, Accepted, Grid;
    OnGridWindow(a, b, ms);
  }

  lemma {:induction false} CollectedOpens(server: Server, pages: seq<(int, int)>, ms: int, now: int, limit: int, k: nat)
    requires ms > 0 && k <= |pages| && Collected(server, pages, ms, now, limit, k).Ok?
    ensures Opens(Collected(server, pages, ms, now, limit, k).value) == PageGrids(pages, ms, k)
  {
    hide Fetched, Scaled, Grid;
    if k > 0 {
      CollectedOpens(server, pages, ms, now, limit, k - 1);
      FetchedOpens(server, pages[k - 1].0, pages[k - 1].1, ms, now, limit);
      OpensJoin(Collected(server, pages, ms, now, limit, k - 1).value,
                Fetched(server, Scaled(pages[k - 1].0, ms), Scaled(pages[k - 1].1, ms), ms, now, limit).value);
    }
  }

  /**
  When the guards pass, exactly the required number of pages is planned, and the result has exactly
  the open times of the full grid whenever all pages succeed: the final completeness error cannot occur.
  */
  lemma PaginationExact(server: Server, start: int, end: int, ms: int, now: int, pageLimit: int, maxPages: int)
    requires ms > 0 && PaginationError(start, end, ms, now, pageLimit, maxPages).None?
    ensures var first, last := FirstIndex(start, ms), LastIndex(end, ms);
            var pages := Pages(first, last, pageLimit);
            var collected := Collected(server, pages, ms, now, pageLimit, |pages|);
            && |pages| == RequiredPages(first, last, pageLimit)
            && Paginated(server, start, end, ms, now, pageLimit, maxPages) == collected
            && (collected.Ok? ==> Opens(collected.value) == ExpectedOpens(start, end, ms))
  {
    hide Fetched, Scaled, Grid, Pages;
    var first, last := FirstIndex(start, ms), LastIndex(end, ms);
    var pages := Pages(first, last, pageLimit);
    PageCount(first, last, pageLimit);
    var collected := Collected(server, pages, ms, now, pageLimit, |pages|);
    SomePage(first, last, pageLimit);
    if collected.Ok? {
      CollectedOpens(server, pages, ms, now, pageLimit, |pages|);
      PagesTile(first, last, pageLimit, ms, |pages|);
      PageStarts(first, last, pageLimit, |pages| - 1);
    }
  }

  lemma SomePage(first: int, last: int, limit: int)
    requires limit > 0 && first <= last
    ensures Pages(first, last, limit) != []
  {
  }

  // ---------------------------------------------------------------- acceptance

  /** A payload that normalization accepts, said without its order of checks. */
  predicate Acceptable(payload: seq<Option<Row>>, ms: int, now: int, w: Window)
    requires ms > 0
  {
    && (forall i :: 0 <= i < |payload| ==> payload[i].Some? && RowError(payload[i].value, ms, now, w).None? && PricesOk(payload[i].value))
    && (forall i :: 0 < i < |payload| ==> payload[i - 1].value.open < payload[i].value.open)
  }

  predicate Climbing(rows: seq<Row>) { forall i, j :: 0 <= i < j < |rows| ==> rows[i].open < rows[j].open }

  lemma ClimbingSnoc(rows: seq<Row>, r: Row)
    requires Climbing(rows) && (rows != [] ==> rows[|rows| - 1].open < r.open)
    ensures Climbing(rows + [r]) && r.open !in Opens(rows)
  {
  }

  /** The payload is these rows. */
  predicate Holds(payload: seq<Option<Row>>, rows: seq<Row>) {
    |payload| == |rows| && forall i :: 0 <= i < |rows| ==> payload[i] == Some(rows[i])
  }

  lemma AcceptableSnoc(payload: seq<Option<Row>>, x: Option<Row>, ms: int, now: int, w: Window)
    requires ms > 0
    ensures Acceptable(payload + [x], ms, now, w) <==>
              && Acceptable(payload, ms, now, w)
              && x.Some? && RowError(x.value, ms, now, w).None? && PricesOk(x.value)
              && (payload != [] ==> payload[|payload| - 1].value.open < x.value.open)
  {
    hide RowError, PricesOk;
    var all := payload + [x];
    if Acceptable(all, ms, now, w) {
      assert all[|payload|] == x;
      forall i | 0 <= i < |payload| ensures payload[i] == all[i] {
      }
    }
  }

  lemma {:induction false} AcceptedOnly(payload: seq<Option<Row>>, ms: int, now: int, w: Window, k: nat)
    requires ms > 0 && k <= |payload|
    ensures Accepted(payload, ms, now, w, k).Ok? <==> Acceptable(payload[..k], ms, now, w)
    ensures var a := Accepted(payload, ms, now, w, k); a.Ok? ==> Holds(payload[..k], a.value) && Climbing(a.value)
  {
    if k > 0 {
      hide RowError, PricesOk, Acceptable, Climbing;
      AcceptedOnly(payload, ms, now, w, k - 1);
      var before, x := payload[..k - 1], payload[k - 1];
      assert payload[..k] == before + [x];
      AcceptableSnoc(before, x, ms, now, w);
      var a := Accepted(payload, ms, now, w, k - 1);
      if a.Ok? && x.Some? {
        if a.value != [] { assert before[k - 2] == Some(a.value[k - 2]); }
        if a.value != [] ==> a.value[k - 2].open < x.value.open { ClimbingSnoc(a.value, x.value); }
      }
    }
  }

  /** Normalization of a complete window succeeds exactly on acceptable rows with the open times of the grid. */
  lemma CompleteWindowAcceptance(payload: seq<Option<Row>>, ms: int, now: int, start: int, end: int)
    requires ms > 0 && WindowError(now, Window(Some(start), Some(end), true)).None?
    ensures var w := Window(Some(start), Some(end), true);
            Normalized(payload, ms, now, w).Ok? <==>
              && Acceptable(payload, ms, now, w)
              && |payload| == |ExpectedOpens(start, end, ms)|
              && forall i :: 0 <= i < |payload| ==> payload[i].value.open == ExpectedOpens(start, end, ms)[i]
  {
    hide RowError, PricesOk, ExpectedOpens;
    var w := Window(Some(start), Some(end), true);
    AcceptedOnly(payload, ms, now, w, |payload|);
    assert payload[..|payload|] == payload;
    var a := Accepted(payload, ms, now, w, |payload|);
    if a.Ok? {
      forall i | 0 <= i < |payload| ensures Opens(a.value)[i] == payload[i].value.open {
        assert payload[i] == Some(a.value[i]);
      }
    }
  }
}
