/** What accepted candles look like, which times a window has, and which requests are made at all. */
module KlinesRows {
  import opened Prelude
  import opened Klines

  // ---------------------------------------------------------------- the times of a window

  predicate Rises(xs: seq<int>) { forall i, j :: 0 <= i < j < |xs| ==> xs[i] < xs[j] }

  lemma MultiplesBetween(t: int, start: int, end: int, ms: int)
    requires ms > 0 && start >= 0
    ensures t % ms == 0 && start <= t <= end <==> exists k :: FirstIndex(start, ms) <= k <= LastIndex(end, ms) && t == Scaled(k, ms)
  {
    if t % ms == 0 && start <= t <= end {
      var k := t / ms;
      DivisionIs(t, ms);
      DivisionIs(start + ms - 1, ms);
      DivisionIs(end, ms);
      Monotone(k, LastIndex(end, ms), ms, t, end);
      if k < FirstIndex(start, ms) { Below(k, FirstIndex(start, ms), ms); }
      assert FirstIndex(start, ms) <= k <= LastIndex(end, ms) && t == Scaled(k, ms);
    } else if exists k :: FirstIndex(start, ms) <= k <= LastIndex(end, ms) && t == Scaled(k, ms) {
      var k :| FirstIndex(start, ms) <= k <= LastIndex(end, ms) && t == Scaled(k, ms);
      DivisionIs(start + ms - 1, ms);
      DivisionIs(end, ms);
      MultiplesApart(FirstIndex(start, ms), k, ms);
      MultiplesApart(k, LastIndex(end, ms), ms);
      ScaledDivides(k, ms);
    }
  }

  lemma DivisionIs(x: int, d: int)
    requires d > 0
    ensures x == Scaled(x / d, d) + x % d && 0 <= x % d < d
  {
  }

  lemma Monotone(k: int, last: int, ms: int, t: int, end: int)
    requires ms > 0 && t == Scaled(k, ms) && t <= end && end == Scaled(last, ms) + end % ms
    ensures k <= last
  {
    if k > last { Below(last, k, ms); }
  }

  lemma Below(k: int, l: int, ms: int)
    requires ms > 0 && k < l
    ensures Scaled(k, ms) + ms <= Scaled(l, ms)
  {
    assert (l - k - 1) * ms >= 0;
  }

  lemma ScaledDivides(k: int, ms: int)
    requires ms > 0
    ensures Scaled(k, ms) % ms == 0
  {
    DivOfMultiple(k, ms);
    DivisionIs(Scaled(k, ms), ms);
  }

  /** The expected open times are exactly the multiples of the interval inside the window, in rising order. */
  lemma ExpectedAreMultiples(start: int, end: int, ms: int)
    requires ms > 0 && start >= 0
    ensures forall t :: t in ExpectedOpens(start, end, ms) <==> start <= t <= end && t % ms == 0
    ensures Rises(ExpectedOpens(start, end, ms))
  {
    var first, last := FirstIndex(start, ms), LastIndex(end, ms);
    forall t ensures t in ExpectedOpens(start, end, ms) <==> start <= t <= end && t % ms == 0 {
      MultiplesBetween(t, start, end, ms);
      GridHas(first, last, ms, t);
      hide FirstIndex, LastIndex, Grid, Scaled;
    }
    GridRises(first, last, ms);
  }

  lemma GridHas(first: int, last: int, ms: int, t: int)
    ensures t in Grid(first, last, ms) <==> exists k :: first <= k <= last && t == Scaled(k, ms)
  {
    hide Scaled;
    var g := Grid(first, last, ms);
    if exists k :: first <= k <= last && t == Scaled(k, ms) {
      var k :| first <= k <= last && t == Scaled(k, ms);
      assert g[k - first] == t;
    }
  }

  lemma GridRises(first: int, last: int, ms: int)
    requires ms > 0
    ensures Rises(Grid(first, last, ms))
  {
    hide Scaled;
    var g := Grid(first, last, ms);
    forall i, j | 0 <= i < j < |g| ensures g[i] < g[j] {
      MultiplesApart(first + i, first + j, ms);
    }
  }

  // ---------------------------------------------------------------- accepted rows

  /** A closed candle of the window, on the grid, with positive prices and its high and low around open and close. */
  predicate Fits(r: Row, ms: int, now: int, w: Window)
    requires ms > 0
  {
    && 0 <= r.open && r.open % ms == 0 && r.close - r.open == ms - 1 && r.open < r.close < now
    && (w.start.Some? ==> w.start.value <= r.open) && (w.end.Some? ==> r.open <= w.end.value)
    && r.low > 0.0 && r.low <= r.openPrice && r.low <= r.closePrice && r.openPrice <= r.high && r.closePrice <= r.high && r.volume >= 0.0
  }

  lemma FitsIff(r: Row, ms: int, now: int, w: Window)
    requires ms > 0
    ensures RowError(r, ms, now, w).None? && PricesOk(r) <==> Fits(r, ms, now, w)
  {
  }

  /** Everything that normalization lets through fits its window, and rises strictly. */
  lemma AcceptedRowsFit(payload: seq<Option<Row>>, ms: int, now: int, w: Window)
    requires ms > 0 && Normalized(payload, ms, now, w).Ok?
    ensures var rows := Normalized(payload, ms, now, w).value;
            && |rows| == |payload| && (forall i :: 0 <= i < |rows| ==> payload[i] == Some(rows[i]) && Fits(rows[i], ms, now, w))
            && (forall i, j :: 0 <= i < j < |rows| ==> rows[i].open < rows[j].open)
  {
    hide RowError, PricesOk, ExpectedOpens, Climbing;
    AcceptedOnly(payload, ms, now, w, |payload|);
    assert payload[..|payload|] == payload;
    var rows := Normalized(payload, ms, now, w).value;
    forall i | 0 <= i < |rows| ensures payload[i] == Some(rows[i]) && Fits(rows[i], ms, now, w) {
      FitsIff(rows[i], ms, now, w);
    }
    ClimbingMeans(rows);
  }

  lemma ClimbingMeans(rows: seq<Row>)
    requires Climbing(rows)
    ensures forall i, j :: 0 <= i < j < |rows| ==> rows[i].open < rows[j].open
  {
  }

  /** A complete window is accepted exactly when its rows fit and their open times are the multiples in the window. */
  lemma CompleteIff(payload: seq<Option<Row>>, ms: int, now: int, start: int, end: int)
    requires ms > 0
    ensures Normalized(payload, ms, now, Window(Some(start), Some(end), true)).Ok? <==>
              && now > 0 && 0 <= start <= end
              && (forall i :: 0 <= i < |payload| ==> payload[i].Some? && Fits(payload[i].value, ms, now, Window(Some(start), Some(end), true)))
              && (forall i :: 0 < i < |payload| ==> payload[i - 1].value.open < payload[i].value.open)
              && |payload| == |ExpectedOpens(start, end, ms)|
              && forall i :: 0 <= i < |payload| ==> payload[i].value.open == ExpectedOpens(start, end, ms)[i]
  {
    var w := Window(Some(start), Some(end), true);
    hide RowError, PricesOk, ExpectedOpens, Accepted;
    if now > 0 && 0 <= start <= end {
      CompleteWindowAcceptance(payload, ms, now, start, end);
      forall i | 0 <= i < |payload| && payload[i].Some?
        ensures RowError(payload[i].value, ms, now, w).None? && PricesOk(payload[i].value) <==> Fits(payload[i].value, ms, now, w)
      {
        FitsIff(payload[i].value, ms, now, w);
      }
    }
  }

  /** What is wrong with a row after rows that were accepted. */
  function Fault(x: Option<Row>, rows: seq<Row>, ms: int, now: int, w: Window): Option<Error>
    requires ms > 0
  {
    if x.None? then Some(Malformed) else
    var r := x.value;
    if r.open < 0 || r.close <= r.open then Some(BadRange)
    else if r.open % ms != 0 then Some(OffGrid)
    else if r.close - r.open != ms - 1 then Some(WrongDuration)
    else if now <= r.close then Some(NotClosed)
    else if w.start.Some? && r.open < w.start.value then Some(BeforeStart)
    else if w.end.Some? && w.end.value < r.open then Some(AfterEnd)
    else if exists i :: 0 <= i < |rows| && rows[i].open == r.open then Some(Duplicate)
    else if rows != [] && r.open < rows[|rows| - 1].open then Some(NotChronological)
    else if !Fits(r, ms, now, w) then Some(BadPrices)
    else None
  }

  /** A refused payload is refused for what is wrong with its first bad row. */
  lemma {:induction false} FirstFault(payload: seq<Option<Row>>, ms: int, now: int, w: Window, k: nat) returns (bad: nat, rows: seq<Row>)
    requires ms > 0 && k <= |payload|
    ensures Accepted(payload, ms, now, w, k).Err? ==>
              && bad < k && Accepted(payload, ms, now, w, bad) == Ok(rows) && |rows| == bad
              && Fault(payload[bad], rows, ms, now, w) == Some(Accepted(payload, ms, now, w, k).error)
    ensures Accepted(payload, ms, now, w, k).Ok? ==>
              forall i :: 0 <= i < k ==> Fault(payload[i], Accepted(payload, ms, now, w, k).value[..i], ms, now, w) == None
  {
    bad, rows := 0, [];
    if k > 0 {
      hide Fault, RowError, PricesOk;
      bad, rows := FirstFault(payload, ms, now, w, k - 1);
      var before := Accepted(payload, ms, now, w, k - 1);
      if before.Ok? {
        FaultIs(payload, ms, now, w, k);
        var after := Accepted(payload, ms, now, w, k);
        if after.Err? {
          bad, rows := k - 1, before.value;
        } else {
          forall i | 0 <= i < k ensures Fault(payload[i], after.value[..i], ms, now, w) == None {
            assert after.value[..i] == before.value[..i];
            if i == k - 1 { assert before.value[..i] == before.value; }
          }
        }
      }
    }
  }

  lemma FaultIs(payload: seq<Option<Row>>, ms: int, now: int, w: Window, k: nat)
    requires ms > 0 && 0 < k <= |payload| && Accepted(payload, ms, now, w, k - 1).Ok?
    ensures var rows := Accepted(payload, ms, now, w, k - 1).value;
            match Fault(payload[k - 1], rows, ms, now, w)
            case Some(e) => Accepted(payload, ms, now, w, k) == Err(e)
            case None => payload[k - 1].Some? && Accepted(payload, ms, now, w, k) == Ok(rows + [payload[k - 1].value])
  {
    var rows := Accepted(payload, ms, now, w, k - 1).value;
    if payload[k - 1].Some? {
      var r := payload[k - 1].value;
      FitsIff(r, ms, now, w);
      OpensHas(rows, r.open);
      hide Opens;
    }
  }

  lemma OpensHas(rows: seq<Row>, t: int)
    ensures t in Opens(rows) <==> exists i :: 0 <= i < |rows| && rows[i].open == t
  {
    if exists i :: 0 <= i < |rows| && rows[i].open == t {
      var i :| 0 <= i < |rows| && rows[i].open == t;
      assert Opens(rows)[i] == t;
    }
  }

  // ---------------------------------------------------------------- requests

  /** All candles are closed exactly when the last one is. */
  lemma AllClosed(opens: seq<int>, ms: int, now: int)
    requires Rises(opens) && opens != []
    ensures (forall t :: t in opens ==> t + ms <= now) <==> opens[|opens| - 1] + ms - 1 < now
  {
    assert opens[|opens| - 1] in opens;
    forall t | t in opens ensures t <= opens[|opens| - 1] {
      var i :| 0 <= i < |opens| && opens[i] == t;
    }
  }

  /** A page is asked for exactly when its window has between one and `limit` candles, `limit` is at most 1000, and all are closed. */
  lemma PageAllowedIff(start: int, end: int, ms: int, now: int, limit: int)
    requires ms > 0
    ensures PageError(start, end, ms, now, limit).None? <==>
              && 0 <= start <= end && limit <= 1000
              && 1 <= |ExpectedOpens(start, end, ms)| <= limit
              && forall t :: t in ExpectedOpens(start, end, ms) ==> t + ms <= now
  {
    if 0 <= start <= end {
      ExpectedAreMultiples(start, end, ms);
      var opens := ExpectedOpens(start, end, ms);
      if opens != [] { AllClosed(opens, ms, now); }
    }
    hide ExpectedOpens;
  }

  lemma CountOfWindow(start: int, end: int, ms: int)
    requires ms > 0
    ensures |ExpectedOpens(start, end, ms)| == if FirstIndex(start, ms) <= LastIndex(end, ms) then LastIndex(end, ms) - FirstIndex(start, ms) + 1 else 0
  {
  }

  /** Enough pages are allowed exactly when their candles cover the count. */
  lemma PagesCover(count: int, limit: int, maxPages: int)
    requires limit > 0
    ensures (count + limit - 1) / limit <= maxPages <==> count <= Scaled(maxPages, limit)
  {
    var q := (count + limit - 1) / limit;
    DivisionIs(count + limit - 1, limit);
    if q <= maxPages {
      if q < maxPages { Below(q, maxPages, limit); }
    } else {
      Below(maxPages, q, limit);
    }
  }

  /**
  A window is fetched exactly when its bounds are in order, it has candles, all of them are closed,
  the page size is between 1 and 1000, and the allowed pages hold them all.
  */
  lemma PaginationAllowedIff(start: int, end: int, ms: int, now: int, pageLimit: int, maxPages: int)
    requires ms > 0
    ensures PaginationError(start, end, ms, now, pageLimit, maxPages).None? <==>
              && 0 <= start <= end && 1 <= pageLimit <= 1000 && maxPages >= 1 && now > 0
              && 1 <= |ExpectedOpens(start, end, ms)| <= Scaled(maxPages, pageLimit)
              && forall t :: t in ExpectedOpens(start, end, ms) ==> t + ms <= now
  {
    if 0 <= start <= end && 1 <= pageLimit {
      ExpectedAreMultiples(start, end, ms);
      CountOfWindow(start, end, ms);
      var first, last := FirstIndex(start, ms), LastIndex(end, ms);
      PagesCover(last - first + 1, pageLimit, maxPages);
      if first <= last {
        LastOfGrid(first, last, ms);
        AllClosed(ExpectedOpens(start, end, ms), ms, now);
        assert ExpectedOpens(start, end, ms)[last - first] == Scaled(last, ms);
      }
    }
    hide ExpectedOpens, FirstIndex, LastIndex, Scaled;
  }

  /** The reasons for which a window is not fetched, each with the guards that hold before it. */
  lemma PaginationRefusals(start: int, end: int, ms: int, now: int, pageLimit: int, maxPages: int)
    requires ms > 0
    ensures var e := PaginationError(start, end, ms, now, pageLimit, maxPages);
            var bounds := 0 <= start <= end;
            var sizes := bounds && 1 <= pageLimit <= 1000 && 1 <= maxPages && 0 < now;
            && (e == Some(BadBound("start_time_ms")) <==> start < 0)
            && (e == Some(BadBound("end_time_ms")) <==> end < 0 <= start)
            && (e == Some(EndBeforeStart) <==> 0 <= end < start)
            && (e == Some(BadPageLimit) <==> bounds && !(1 <= pageLimit <= 1000))
            && (e == Some(BadMaxPages) <==> bounds && 1 <= pageLimit <= 1000 && maxPages < 1)
            && (e == Some(BadNow) <==> bounds && 1 <= pageLimit <= 1000 && 1 <= maxPages && now <= 0)
            && (e == Some(EmptyWindow) <==> sizes && ExpectedOpens(start, end, ms) == [])
            && (e == Some(TooManyPages) ==> |ExpectedOpens(start, end, ms)| > Scaled(maxPages, pageLimit))
  {
    CountOfWindow(start, end, ms);
    if 1 <= pageLimit { PagesCover(LastIndex(end, ms) - FirstIndex(start, ms) + 1, pageLimit, maxPages); }
    hide ExpectedOpens, FirstIndex, LastIndex, Scaled;
  }

  lemma LastOfGrid(first: int, last: int, ms: int)
    requires first <= last
    ensures Grid(first, last, ms)[last - first] == Scaled(last, ms)
  {
  }

  /** A window is malformed exactly for the clock, for a bound before the epoch, for reversed bounds, or for missing bounds of a complete window. */
  lemma WindowAllowedIff(now: int, w: Window)
    ensures WindowError(now, w).None? <==>
              && now > 0 && (w.start.Some? ==> w.start.value >= 0) && (w.end.Some? ==> w.end.value >= 0)
              && (w.start.Some? && w.end.Some? ==> w.start.value <= w.end.value)
              && (w.complete ==> w.start.Some? && w.end.Some?)
  {
  }
}
