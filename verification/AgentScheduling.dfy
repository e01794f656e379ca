/** Who gets the work: routing picks the first of the ranking, and a cycle leaves no offerable work idle. */
module AgentScheduling {
  import opened Prelude
  import opened AgentModel
  import opened AgentSafety
  import opened AgentCapacity

  predicate Offerable(t: Task, w: Worker, verifierOnly: bool, load: map<nat, nat>, allowed: Option<nat>) {
    Eligible(t, w, verifierOnly, load) && (allowed.Some? ==> w.id == allowed.value)
  }

  /** The choice is empty only when nobody is eligible, and nobody eligible outranks it. */
  lemma {:induction false} BestIsFirst(t: Task, ws: seq<Worker>, verifierOnly: bool, load: map<nat, nat>, allowed: Option<nat>)
    ensures var r := Best(t, ws, verifierOnly, load, allowed);
            forall w :: w in ws && Offerable(t, w, verifierOnly, load, allowed) ==> r.Some? && !Outranks(t, w, r.value, load)
  {
    hide Score, Eligible;
    if ws != [] {
      BestIsFirst(t, ws[..|ws| - 1], verifierOnly, load, allowed);
      assert ws == ws[..|ws| - 1] + [ws[|ws| - 1]];
    }
  }

  /** Worker `w` may take the task and outranks every other worker who may. */
  predicate FirstRanked(t: Task, ws: seq<Worker>, verifierOnly: bool, load: map<nat, nat>, allowed: Option<nat>, w: Worker) {
    && w in ws && Offerable(t, w, verifierOnly, load, allowed)
    && forall v :: v in ws && v.id != w.id && Offerable(t, v, verifierOnly, load, allowed) ==> Outranks(t, w, v, load)
  }

  /** The choice is the worker with a given id if and only if that worker is first in the ranking. */
  lemma ChosenIffFirst(t: Task, ws: seq<Worker>, verifierOnly: bool, load: map<nat, nat>, allowed: Option<nat>, id: nat)
    requires UniqueIds(ws)
    ensures var r := Best(t, ws, verifierOnly, load, allowed);
            r.Some? && r.value.id == id <==> exists w :: FirstRanked(t, ws, verifierOnly, load, allowed, w) && w.id == id
  {
    hide Best, Score, UniqueIds;
    BestIsFirst(t, ws, verifierOnly, load, allowed);
    var r := Best(t, ws, verifierOnly, load, allowed);
    if r.Some? {
      assert FirstRanked(t, ws, verifierOnly, load, allowed, r.value);
      forall w | FirstRanked(t, ws, verifierOnly, load, allowed, w) ensures w.id == r.value.id {
      }
    }
  }

  // ---------------------------------------------------------------- the order of the offers

  predicate Sorted(ts: seq<Task>, order: seq<nat>)
    requires forall k :: 0 <= k < |order| ==> order[k] < |ts|
  {
    forall j, k :: 0 <= j < k < |order| ==> Precedes(ts, order[j], order[k])
  }

  lemma {:induction false} InsertSorted(ts: seq<Task>, order: seq<nat>, i: nat)
    requires i < |ts| && forall k :: 0 <= k < |order| ==> order[k] < |ts|
    requires Sorted(ts, order)
    ensures forall k :: 0 <= k < |Insert(ts, order, i)| ==> Insert(ts, order, i)[k] < |ts|
    ensures Sorted(ts, Insert(ts, order, i))
  {
    if order != [] && !Precedes(ts, i, order[0]) {
      var r := Insert(ts, order[1..], i);
      InsertSorted(ts, order[1..], i);
      forall k | 0 <= k < |r| ensures Precedes(ts, order[0], r[k]) {
        assert r[k] == i || r[k] in order[1..];
      }
    }
  }

  lemma {:induction false} RankedInOrder(ts: seq<Task>, n: nat)
    requires n <= |ts|
    ensures Sorted(ts, Ranked(ts, n))
  {
    hide Insert, Precedes;
    if n > 0 {
      var r := Ranked(ts, n - 1);
      RankedInOrder(ts, n - 1);
      if ts[n - 1].status == Ready { InsertSorted(ts, r, n - 1); }
    }
  }

  /** Ready work is offered by falling priority, and by id within one priority. */
  lemma RankedSorted(ts: seq<Task>, n: nat)
    requires n <= |ts|
    ensures forall j, k :: 0 <= j < k < |Ranked(ts, n)| ==>
              var a, b := ts[Ranked(ts, n)[j]].def, ts[Ranked(ts, n)[k]].def;
              a.priority > b.priority || (a.priority == b.priority && a.idRank <= b.idRank)
  {
    RankedInOrder(ts, n);
    hide Ranked;
  }

  // ---------------------------------------------------------------- no idle work

  /** Ready work that the assignment pass may lease at all. */
  predicate Leasable(t: Task) {
    t.status == Ready && t.def.authority < 4 && (t.def.kind == QaOnly ==> t.def.qaDispatchEnabled)
  }

  /** The row waits for a good reason: the limit is reached, or no allowed worker is eligible. */
  predicate Justified(s: State, t: Task) {
    || Tally(s.tasks, SelActive) >= s.maxParallel
    || forall w :: w in s.workers ==>
         !Offerable(t, w, t.def.kind == QaOnly, LoadMap(s.tasks, s.workers, None), DesignatedProducer(t.def.kind))
  }

  lemma TallyNeverFalls(ts: seq<Task>, i: nat, u: Task, sel: Sel)
    requires i < |ts| && (Hit(sel, ts[i]) ==> Hit(sel, u))
    ensures Tally(ts, sel) <= Tally(ts[i := u], sel)
  {
    TallyUpdate(ts, i, u, sel);
  }

  /** More load never makes a worker eligible. */
  lemma JustifiedStays(s: State, i: nat, u: Task, next: nat, t: Task)
    requires i < |s.tasks| && s.tasks[i].status == Ready && Justified(s, t)
    ensures Justified(s.(tasks := s.tasks[i := u], nextLease := next), t)
  {
    hide Tally, LoadMap;
    var s' := s.(tasks := s.tasks[i := u], nextLease := next);
    TallyNeverFalls(s.tasks, i, u, SelActive);
    forall w | w in s.workers
      ensures Load(LoadMap(s.tasks, s.workers, None), w.id) <= Load(LoadMap(s'.tasks, s.workers, None), w.id)
    {
      LoadIsTally(s.tasks, s.workers, None, w);
      LoadIsTally(s'.tasks, s.workers, None, w);
      TallyNeverFalls(s.tasks, i, u, SelWorker(w.id));
    }
  }

  lemma AssignJustifies(s: State, i: nat, now: int)
    requires i < |s.tasks| && s.tasks[i].status == Ready
    ensures var u := AssignRow(s, i, now);
            && u == s.(tasks := s.tasks[i := u.tasks[i]], nextLease := u.nextLease)
            && (Leasable(u.tasks[i]) ==> Justified(u, u.tasks[i]))
  {
    hide Tally, LoadMap, Best, Eligible;
    var t, u := s.tasks[i], AssignRow(s, i, now);
    BestIsFirst(t, s.workers, t.def.kind == QaOnly, LoadMap(s.tasks, s.workers, None), DesignatedProducer(t.def.kind));
    if Leasable(u.tasks[i]) { assert u == s; }
    assert u.tasks == s.tasks[i := u.tasks[i]];
  }

  lemma AtAssign(p: Pass, s: State, i: nat)
    requires p.Assign? && i < |s.tasks|
    ensures At(p, s, i) == Some(AssignRow(s, i, p.now))
  {
    hide AssignRow;
  }

  /** The first `n` rows of the order are leased, or not leasable, or wait for a good reason. */
  predicate AllJustified(s: State, order: seq<nat>, n: nat)
    requires n <= |order| && forall k :: 0 <= k < |order| ==> order[k] < |s.tasks|
  {
    forall k :: 0 <= k < n && Leasable(s.tasks[order[k]]) ==> Justified(s, s.tasks[order[k]])
  }

  lemma NothingJustified(s: State, order: seq<nat>)
    requires forall k :: 0 <= k < |order| ==> order[k] < |s.tasks|
    ensures AllJustified(s, order, 0)
  {
  }

  lemma AssignKeepsJustified(s: State, order: seq<nat>, n: nat, now: int)
    requires n < |order| && NoDuplicates(order) && forall k :: 0 <= k < |order| ==> order[k] < |s.tasks|
    requires s.tasks[order[n]].status == Ready && AllJustified(s, order, n)
    ensures |AssignRow(s, order[n], now).tasks| == |s.tasks| && AllJustified(AssignRow(s, order[n], now), order, n + 1)
  {
    hide AssignRow, Justified, Leasable;
    var i, u := order[n], AssignRow(s, order[n], now);
    AssignJustifies(s, i, now);
    forall k | 0 <= k < n + 1 && Leasable(u.tasks[order[k]]) ensures Justified(u, u.tasks[order[k]]) {
      if k < n { JustifiedStays(s, i, u.tasks[i], u.nextLease, s.tasks[order[k]]); }
    }
  }

  lemma {:induction false} SweepJustifies(p: Pass, s: State, n: nat)
    requires p.Assign? && Proper(p, s) && Fits(p, |s.tasks|) && NoDuplicates(p.order) && n <= |p.order|
    ensures Sweep(p, s, n).Some? && AllJustified(Sweep(p, s, n).value, p.order, n)
  {
    NothingJustified(s, p.order);
    hide At, AssignRow, AllJustified, Proper, NoDuplicates;
    if n > 0 {
      var v := Sweep(p, s, n - 1).value;
      SweepJustifies(p, s, n - 1);
      SweepNext(p, s, n - 1);
      AtAssign(p, v, p.order[n - 1]);
      AssignKeepsJustified(v, p.order, n - 1, p.now);
    }
  }

  /** After a cycle every leasable task still READY waits for the parallelism limit or for an eligible worker. */
  lemma CycleLeavesNoIdleWork(s: State, now: int, i: nat)
    requires i < |Cycle(s, now).tasks| && Leasable(Cycle(s, now).tasks[i])
    ensures Justified(Cycle(s, now), Cycle(s, now).tasks[i])
  {
    hide At, Justified, Sweep;
    var d := Run(Release, Run(RouteTriage(now), Run(Expire(now), Run(Enforce, s).value).value).value).value;
    var p := Assign(now, Ranked(d.tasks, |d.tasks|));
    RankedProper(d.tasks, |d.tasks|);
    assert Proper(p, d);
    SweepJustifies(p, d, |p.order|);
    if i in p.order {
      var k :| 0 <= k < |p.order| && p.order[k] == i;
    } else {
      SweepUntouched(p, d, |p.order|, i);
    }
  }
}
