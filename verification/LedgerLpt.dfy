// The LPT window over every run: the batch plans each waiting session exactly once, every session
// that reads the plan finds itself in it, and the plan is within 4/3 - 1/(3m) of the best.

module LedgerLpt {
  import opened Text
  import Scheduling
  import opened Ledger
  import opened LedgerRuns

  // ----- sorting

  ghost predicate SortedByWork(a: seq<Arrival>) {
    forall i, j :: 0 <= i <= j < |a| ==> a[j].work <= a[i].work
  }

  lemma {:induction false} InsertKeeps(x: Arrival, a: seq<Arrival>)
    ensures multiset(Insert(x, a)) == multiset(a) + multiset{x}
  {
    var n := |a| - 1;
    if n >= 0 && Sooner(x, a[n]) {
      InsertKeeps(x, a[..n]);
      assert a == a[..n] + [a[n]];
    }
  }

  lemma {:induction false} InsertSorts(x: Arrival, a: seq<Arrival>)
    requires SortedByWork(a)
    ensures SortedByWork(Insert(x, a))
  {
    hide Sooner;
    var n := |a| - 1;
    if n >= 0 && Sooner(x, a[n]) {
      InsertSorts(x, a[..n]);
      var front := Insert(x, a[..n]);
      SoonerWorksMore(x, a[n]);
      forall i | 0 <= i < |front| ensures front[i].work >= a[n].work {
        InsertFrom(x, a[..n], i);
      }
    } else if n >= 0 {
      SoonerWorksMore(x, a[n]);
    }
  }

  lemma SoonerWorksMore(x: Arrival, y: Arrival)
    ensures if Sooner(x, y) then x.work >= y.work else y.work >= x.work
  {
  }

  lemma {:induction false} InsertFrom(x: Arrival, a: seq<Arrival>, i: nat)
    requires i < |Insert(x, a)|
    ensures Insert(x, a)[i] == x || Insert(x, a)[i] in a
  {
    hide Sooner;
    var n := |a| - 1;
    if n >= 0 && Sooner(x, a[n]) && i < |Insert(x, a[..n])| {
      InsertFrom(x, a[..n], i);
    }
  }

  lemma {:induction false} LongestFirstSorts(a: seq<Arrival>)
    ensures SortedByWork(LongestFirst(a))
    ensures multiset(LongestFirst(a)) == multiset(a)
  {
    var n := |a| - 1;
    if n >= 0 {
      assert a == a[..n] + [a[n]];
      LongestFirstSorts(a[..n]);
      InsertKeeps(a[n], LongestFirst(a[..n]));
      InsertSorts(a[n], LongestFirst(a[..n]));
    }
  }

  // The order of the batch: more work first, then the smaller request id, then the smaller context.
  ghost predicate InBatchOrder(x: Arrival, y: Arrival) {
    || x.work > y.work
    || (x.work == y.work && (x.rid < y.rid || (x.rid == y.rid && x.ctx <= y.ctx)))
  }

  ghost predicate BatchOrdered(a: seq<Arrival>) {
    forall i, j :: 0 <= i <= j < |a| ==> InBatchOrder(a[i], a[j])
  }

  lemma {:induction false} InsertOrders(x: Arrival, a: seq<Arrival>)
    requires BatchOrdered(a)
    ensures BatchOrdered(Insert(x, a))
  {
    hide Sooner, InBatchOrder;
    var n := |a| - 1;
    if n >= 0 {
      SoonerIsOrder(x, a[n]);
    }
    forall y, z | InBatchOrder(y, z) ensures forall u :: InBatchOrder(z, u) ==> InBatchOrder(y, u) {
      OrderChains(y, z);
    }
    SoonerIsOrder(x, x);
    if n >= 0 && Sooner(x, a[n]) {
      InsertOrders(x, a[..n]);
      var front := Insert(x, a[..n]);
      forall i | 0 <= i < |front| ensures InBatchOrder(front[i], a[n]) {
        InsertFrom(x, a[..n], i);
      }
    }
  }

  lemma SoonerIsOrder(x: Arrival, y: Arrival)
    ensures if Sooner(x, y) then InBatchOrder(x, y) else InBatchOrder(y, x)
    ensures InBatchOrder(y, y)
  {
  }

  lemma OrderChains(x: Arrival, y: Arrival)
    requires InBatchOrder(x, y)
    ensures forall z :: InBatchOrder(y, z) ==> InBatchOrder(x, z)
  {
  }

  // Ties in work go to the smaller request id, as the sort of the tuples breaks them.
  lemma {:induction false} TiesGoById(a: seq<Arrival>)
    ensures BatchOrdered(LongestFirst(a))
  {
    var n := |a| - 1;
    if n >= 0 {
      TiesGoById(a[..n]);
      InsertOrders(a[n], LongestFirst(a[..n]));
    }
  }

  // ----- the plan

  ghost predicate DistinctSessions(a: seq<Arrival>) {
    forall i, j :: 0 <= i < j < |a| ==> a[i].rid != a[j].rid
  }

  // Each session of the batch is planned once, on the replica its place in the batch was given.
  lemma {:induction false} PlanPlaces(results: map<RequestId, Replica>, batch: seq<Arrival>, at: seq<Replica>, i: nat)
    requires |batch| == |at| && DistinctSessions(batch) && i < |batch|
    ensures var plan := Plan(results, batch, at);
            batch[i].rid in plan && plan[batch[i].rid] == at[i]
  {
    var n := |batch| - 1;
    if i < n {
      PlanPlaces(results, batch[..n], at[..n], i);
      assert batch[i].rid != batch[n].rid;
    }
  }

  lemma {:induction false} SortingKeepsDistinct(a: seq<Arrival>, b: seq<Arrival>)
    requires multiset(a) == multiset(b) && DistinctSessions(a)
    ensures DistinctSessions(b)
  {
    forall i, j | 0 <= i < j < |b| ensures b[i].rid != b[j].rid {
      if b[i].rid == b[j].rid {
        var k := IndexIn(a, b, i);
        var l := IndexIn(a, b, j);
        assert k == l && multiset(a)[b[i]] == multiset(b)[b[i]];
        TwiceInB(b, i, j);
        OnceInA(a, k);
        assert false;
      }
    }
  }

  lemma IndexIn(a: seq<Arrival>, b: seq<Arrival>, i: nat) returns (k: nat)
    requires multiset(a) == multiset(b) && i < |b|
    ensures k < |a| && a[k] == b[i]
  {
    assert b[i] in multiset(a);
    k :| 0 <= k < |a| && a[k] == b[i];
  }

  lemma TwiceInB(b: seq<Arrival>, i: nat, j: nat)
    requires i < j < |b| && b[i] == b[j]
    ensures multiset(b)[b[i]] >= 2
  {
    assert b == b[..j] + [b[j]] + b[j + 1..];
    assert b[i] in b[..j];
  }

  lemma OnceInA(a: seq<Arrival>, k: nat)
    requires DistinctSessions(a) && k < |a|
    ensures multiset(a)[a[k]] == 1
  {
    assert a == a[..k] + [a[k]] + a[k + 1..];
    assert a[k] !in a[..k] && a[k] !in a[k + 1..];
  }

  // ----- the window of every reachable world

  ghost predicate InWindow(w: World, rid: RequestId) {
    rid in w.phase && w.phase[rid].Waiting? && (w.phase[rid].on == LptWindow || w.phase[rid].on == LptBatch)
  }

  // Past the point where a session joins the window.
  ghost predicate Joined(w: World, rid: RequestId) {
    rid in w.phase && (w.phase[rid].Waiting? ==> InWindow(w, rid))
  }

  ghost predicate Pending(s: State, rid: RequestId) {
    exists i :: 0 <= i < |s.lptPending| && s.lptPending[i].rid == rid
  }

  ghost predicate WindowOk(w: World) {
    && DistinctSessions(w.s.lptPending)
    && (forall rid :: Pending(w.s, rid) ==> Joined(w, rid))
    && (forall rid :: InWindow(w, rid) ==> if w.s.lptClosed then rid in w.s.lptResult else Pending(w.s, rid))
    && (w.s.lptClosed ==> w.s.lptPending == [])
    && (forall rid :: WaitsOn(w, rid, LptWindow) ==> w.s.lptOpen && !w.s.lptClosed)
    && (forall rid, q :: WaitsOn(w, rid, LptWindow) && WaitsOn(w, q, LptWindow) ==> rid == q)
  }

  ghost predicate SameWindow(s: State, s': State) {
    s'.lptPending == s.lptPending && s'.lptResult == s.lptResult && s'.lptOpen == s.lptOpen && s'.lptClosed == s.lptClosed
  }

  // Session rid joins an open window, opening it when it is the first.
  ghost predicate Joins(s: State, s': State, rid: RequestId, o: Outcome) {
    && !s.lptClosed && !s'.lptClosed && s'.lptOpen && s'.lptResult == s.lptResult
    && |s'.lptPending| == |s.lptPending| + 1 && s'.lptPending[..|s.lptPending|] == s.lptPending
    && s'.lptPending[|s.lptPending|].rid == rid
    && o == Await(if s.lptOpen then LptBatch else LptWindow)
  }

  lemma BookWindow(p: Params, s: State, rid: RequestId, dest: Replica, turn: nat, ctx: real)
    requires Valid(p, s) && dest in p.replicas
    ensures SameWindow(s, Book(p, s, rid, dest, turn, ctx))
  {
    hide TablesOk, Charge, Added;
  }

  // Either the window is untouched and the outcome does not wait on it, or rid joins it.
  ghost predicate TouchesWindow(s: State, s': State, rid: RequestId, o: Outcome) {
    (SameWindow(s, s') && o != Await(LptWindow) && o != Await(LptBatch)) || Joins(s, s', rid, o)
  }

  lemma PollWindow(p: Params, s: State, rid: RequestId, ctx: real, expired: bool)
    requires Valid(p, s)
    ensures var r := Poll(p, s, rid, ctx, expired); TouchesWindow(s, r.0, rid, r.1)
  {
    hide TablesOk, Book, Free;
    BookWindow(p, s, rid, LeastLoaded(p, s), 0, ctx);
  }

  lemma OrdinaryWindow(p: Params, s: State, rid: RequestId, ctx: real, work: Option<real>, expired: bool)
    requires Valid(p, s)
    ensures var r := Ordinary(p, s, rid, ctx, work, expired); TouchesWindow(s, r.0, rid, r.1)
  {
    hide Valid, Book, Free, Poll, LptEnter, SameBooks, TouchesWindow;
    LptEnterWindow(p, s, rid, ctx, work);
    var s1 := Admit(p, s);
    SameTouches(p, s, s1, rid, ctx, expired);
  }

  lemma SameTouches(p: Params, s: State, s1: State, rid: RequestId, ctx: real, expired: bool)
    requires Valid(p, s1) && SameWindow(s, s1)
    ensures var r := Poll(p, s1, rid, ctx, expired); TouchesWindow(s, r.0, rid, r.1)
    ensures var r := PlaceOn(p, s1, rid, LeastLoaded(p, s1), 0, ctx); TouchesWindow(s, r.0, rid, r.1)
  {
    hide Valid, Book, Free;
    BookWindow(p, s1, rid, LeastLoaded(p, s1), 0, ctx);
  }

  lemma LptEnterWindow(p: Params, s: State, rid: RequestId, ctx: real, work: Option<real>)
    requires Valid(p, s)
    ensures var r := LptEnter(p, s, rid, ctx, work); TouchesWindow(s, r.0, rid, r.1)
  {
    hide TablesOk, Book, Free;
    BookWindow(p, s, rid, LeastLoaded(p, s), 0, ctx);
  }

  lemma FollowWindow(p: Params, s: State, rid: RequestId, g: GroupKey, ctx: real, work: Option<real>, expired: bool)
    requires Valid(p, s)
    ensures var r := Follow(p, s, rid, g, ctx, work, expired); TouchesWindow(s, r.0, rid, r.1)
  {
    hide TablesOk, Book, Free, Ordinary, TouchesWindow;
    OrdinaryWindow(p, s, rid, ctx, work, expired);
    if g in s.leader {
      var target := BestOther(p, s, s.leader[g]);
      if target.Some? {
        BookWindow(p, s, rid, target.value, 0, ctx);
        PlacedTouches(s, Book(p, s, rid, target.value, 0, ctx), rid, Pull(p, target.value, s.leader[g]));
      }
    }
  }

  lemma PlacedTouches(s: State, s': State, rid: RequestId, o: Outcome)
    requires SameWindow(s, s') && !o.Await?
    ensures TouchesWindow(s, s', rid, o)
  {
  }

  lemma StaggerWindow(p: Params, s: State, rid: RequestId, g: GroupKey, ctx: real, work: Option<real>, expired: bool)
    requires Valid(p, s)
    ensures var r := StaggerEnter(p, s, rid, g, ctx, work, expired); TouchesWindow(s, r.0, rid, r.1)
  {
    hide TablesOk, Book, Free, Follow;
    if g !in s.claimed {
      var dest := LeastLoaded(p, s);
      BookWindow(p, Lead(p, s, rid, g, dest), rid, dest, 0, ctx);
    } else {
      FollowWindow(p, s, rid, g, ctx, work, expired);
    }
  }

  lemma StartWindow(p: Params, w: World, e: Event)
    requires Valid(p, w.s) && Enabled(p, w, e) && e.Start?
    ensures var r := Segment(p, w, e); TouchesWindow(w.s, r.0, e.rid, r.1)
  {
    hide TablesOk, Ordinary, StaggerEnter;
    var s0 := Declare(p, w.s, e.rid, e.final);
    OrdinaryWindow(p, s0, e.rid, e.ctx, e.work, e.expired);
    if e.group.Some? {
      StaggerWindow(p, s0, e.rid, e.group.value, e.ctx, e.work, e.expired);
    }
  }

  lemma TakeWindow(p: Params, s: State, rid: RequestId, ctx: real)
    requires Valid(p, s)
    ensures var s' := TakeResult(p, s, rid, ctx).0;
            && s'.lptPending == s.lptPending && s'.lptResult == s.lptResult - {rid}
            && s'.lptOpen == s.lptOpen && s'.lptClosed == s.lptClosed
  {
    hide Valid, Book, Planned;
    BookWindow(p, Forget(p, s, rid), rid, Planned(p, s, rid), 0, ctx);
  }

  lemma LaterWindow(p: Params, s: State, rid: RequestId, turn: nat, ctx: real)
    requires Valid(p, s) && turn > 0
    ensures SameWindow(s, Continue(p, s, rid, turn, ctx).0)
  {
    hide TablesOk, Book, Release, Moves, Free, LeastLoaded;
    if rid !in s.resident {
      BookWindow(p, s, rid, LeastLoaded(p, s), turn, ctx);
    } else if Moves(p, s, rid, turn, ctx) {
      MovesHasTarget(p, s, rid, turn, ctx);
      MigrateWindow(p, s, rid, BestOther(p, s, s.resident[rid]).value, turn, ctx);
    } else {
      BookWindow(p, s, rid, s.resident[rid], turn, ctx);
    }
  }

  lemma MigrateWindow(p: Params, s: State, rid: RequestId, dest: Replica, turn: nat, ctx: real)
    requires Valid(p, s) && rid in s.resident && dest in p.replicas && turn > 0
    ensures SameWindow(s, Migrate(p, s, rid, dest, turn, ctx).0)
  {
    hide TablesOk, Book, Pull;
    BookWindow(p, Release(p, s, rid, s.resident[rid], turn - 1), rid, dest, turn, ctx);
  }

  // ----- steps keep the window in order

  lemma UntouchedWindow(w: World, w': World, rid: RequestId)
    requires WindowOk(w) && SameWindow(w.s, w'.s)
    requires rid in w'.phase && w'.phase == w.phase[rid := w'.phase[rid]]
    requires !InWindow(w', rid) && (InWindow(w, rid) ==> WaitsOn(w, rid, LptBatch))
    requires w'.phase[rid].Waiting? ==> rid !in w.phase || (w.phase[rid].Waiting? && !InWindow(w, rid))
    ensures WindowOk(w')
  {
    forall q ensures InWindow(w', q) <==> q != rid && InWindow(w, q) {
    }
    forall q ensures Pending(w'.s, q) <==> Pending(w.s, q) {
    }
    forall q | Pending(w'.s, q) ensures Joined(w', q) {
      assert Joined(w, q);
    }
    forall q ensures WaitsOn(w', q, LptWindow) <==> WaitsOn(w, q, LptWindow) {
      assert WaitsOn(w', q, LptWindow) ==> InWindow(w', q);
    }
  }

  lemma JoinedWindow(w: World, w': World, rid: RequestId, o: Outcome)
    requires WindowOk(w) && Joins(w.s, w'.s, rid, o)
    requires !Joined(w, rid)
    requires rid in w'.phase && w'.phase == w.phase[rid := w'.phase[rid]]
    requires w'.phase[rid].Waiting? && w'.phase[rid].on == o.on
    ensures WindowOk(w')
  {
    var (a, b) := (w.s.lptPending, w'.s.lptPending);
    assert forall i :: 0 <= i < |a| ==> b[i] == a[i];
    forall q ensures Pending(w'.s, q) <==> q == rid || Pending(w.s, q) {
      if q == rid {
        assert b[|a|].rid == rid;
      }
      if Pending(w.s, q) {
        var i :| 0 <= i < |a| && a[i].rid == q;
        assert b[i].rid == q;
      }
    }
    forall q ensures InWindow(w', q) <==> q == rid || InWindow(w, q) {
    }
    assert !Pending(w.s, rid);
    forall i | 0 <= i < |a| ensures a[i].rid != rid {
    }
    forall q ensures WaitsOn(w', q, LptWindow) ==> (q == rid && !w.s.lptOpen) || WaitsOn(w, q, LptWindow) {
    }
  }

  lemma LeftWindow(w: World, w': World, rid: RequestId)
    requires WindowOk(w) && w.s.lptClosed && w'.s.lptClosed && w'.s.lptPending == w.s.lptPending
    requires w'.s.lptOpen == w.s.lptOpen
    requires w'.s.lptResult == w.s.lptResult || w'.s.lptResult == w.s.lptResult - {rid}
    requires rid in w'.phase && !w'.phase[rid].Waiting? && w'.phase == w.phase[rid := w'.phase[rid]]
    ensures WindowOk(w')
  {
    forall q ensures InWindow(w', q) <==> q != rid && InWindow(w, q) {
    }
    forall q ensures !Pending(w'.s, q) {
    }
    forall q ensures WaitsOn(w', q, LptWindow) ==> WaitsOn(w, q, LptWindow) {
    }
  }

  // Closing the window plans every session that was pending in it.
  lemma CloseWindowPlans(p: Params, s: State)
    requires Valid(p, s) && DistinctSessions(s.lptPending)
    ensures var s' := CloseWindow(p, s);
            var batch := LongestFirst(s.lptPending);
            && s'.lptPending == [] && s'.lptClosed && s'.lptOpen == s.lptOpen
            && |BatchPlacement(p, s)| == |batch|
            && (forall i :: 0 <= i < |batch| ==> batch[i].rid in s'.lptResult && s'.lptResult[batch[i].rid] == BatchPlacement(p, s)[i])
            && (forall rid :: Pending(s, rid) ==> rid in s'.lptResult)
  {
    hide Valid, BatchPlacement, Plan, LongestFirst;
    var (batch, at) := (LongestFirst(s.lptPending), BatchPlacement(p, s));
    LongestFirstSorts(s.lptPending);
    SortingKeepsDistinct(s.lptPending, batch);
    forall i | 0 <= i < |batch|
      ensures batch[i].rid in Plan(s.lptResult, batch, at) && Plan(s.lptResult, batch, at)[batch[i].rid] == at[i]
    {
      PlanPlaces(s.lptResult, batch, at, i);
    }
    forall rid | Pending(s, rid) ensures exists k :: 0 <= k < |batch| && batch[k].rid == rid {
      PendingIsSorted(s, rid);
    }
  }

  lemma PendingIsSorted(s: State, rid: RequestId)
    requires Pending(s, rid)
    ensures var batch := LongestFirst(s.lptPending); exists k :: 0 <= k < |batch| && batch[k].rid == rid
  {
    var i :| 0 <= i < |s.lptPending| && s.lptPending[i].rid == rid;
    LongestFirstSorts(s.lptPending);
    var k := IndexIn(LongestFirst(s.lptPending), s.lptPending, i);
  }

  lemma ClosedWindow(w: World, w': World, rid: RequestId, planned: map<RequestId, Replica>)
    requires WindowOk(w) && WaitsOn(w, rid, LptWindow)
    requires forall q :: Pending(w.s, q) ==> q in planned
    requires w'.s.lptPending == [] && w'.s.lptClosed && w'.s.lptOpen == w.s.lptOpen && w'.s.lptResult == planned - {rid}
    requires rid in w'.phase && !w'.phase[rid].Waiting? && w'.phase == w.phase[rid := w'.phase[rid]]
    ensures WindowOk(w')
  {
    forall q ensures InWindow(w', q) <==> q != rid && InWindow(w, q) {
    }
    forall q ensures !Pending(w'.s, q) {
    }
    forall q ensures !WaitsOn(w', q, LptWindow) {
      assert WaitsOn(w', q, LptWindow) ==> q != rid && WaitsOn(w, q, LptWindow);
    }
  }

  lemma StepKeepsWindow(p: Params, w: World, e: Event)
    requires BooksOk(p, w) && WindowOk(w) && Enabled(p, w, e)
    ensures WindowOk(Step(p, w, e))
  {
    hide Step, Segment, Valid, PhasesMatch, Conserved, FinalsFollow, BookedTurn, SameBooks, Continue, ObserveAll, FinalObservations, WindowOk, NewPhase, Shrunk, Fed, SameWindow;
    var w' := Step(p, w, e);
    StepIs(p, w, e);
    if e.NextTurn? {
      LaterEffect(p, w, e);
      LaterWindow(p, Declare(p, w.s, e.rid, e.final), e.rid, NextOf(w, e.rid), e.ctx);
      DeclareWindow(p, w.s, Declare(p, w.s, e.rid, e.final), w'.s, e.rid, e.final);
      UntouchedWindow(w, w', e.rid);
    } else if e.Measured? {
      MeasuredEffect(p, w, e);
      ReportWindow(p, w, e);
      UntouchedWindow(w, w', e.rid);
    } else if e.Completed? {
      CompletedEffect(p, w, e);
      ReportWindow(p, w, e);
      UntouchedWindow(w, w', e.rid);
    } else {
      FirstTurnKeepsWindow(p, w, e);
    }
  }

  lemma DeclareWindow(p: Params, s: State, s0: State, s': State, rid: RequestId, final: Option<real>)
    requires Valid(p, s) && s0 == Declare(p, s, rid, final) && SameWindow(s0, s')
    ensures SameWindow(s, s')
  {
  }

  lemma ReportWindow(p: Params, w: World, e: Event)
    requires Valid(p, w.s) && Enabled(p, w, e) && (e.Measured? || e.Completed?)
    ensures SameWindow(w.s, Segment(p, w, e).0)
  {
    hide Record, Finish, Valid;
    RecordWindow(p, w.s, e.rid, TurnNow(w, e.rid), if e.Measured? then e.ctx else 0.0);
    FinishWindow(p, w.s, e.rid);
  }

  lemma RecordWindow(p: Params, s: State, rid: RequestId, turn: nat, ctx: real)
    requires Valid(p, s)
    ensures SameWindow(s, Record(p, s, rid, turn, ctx))
  {
    hide TablesOk, Charge;
  }

  lemma FinishWindow(p: Params, s: State, rid: RequestId)
    requires Valid(p, s)
    ensures SameWindow(s, Finish(p, s, rid))
  {
    hide Valid, Finish;
    FinishKeepsQueues(p, s, rid);
  }

  lemma FirstTurnKeepsWindow(p: Params, w: World, e: Event)
    requires BooksOk(p, w) && WindowOk(w) && Enabled(p, w, e) && FirstTurn(e)
    ensures WindowOk(Step(p, w, e))
  {
    hide Step, Segment, Valid, PhasesMatch, Conserved, FinalsFollow, BookedTurn, SameBooks, NewPhase, Shrunk, Fed, SameWindow, Joins, WindowOk;
    var (w', r) := (Step(p, w, e), Segment(p, w, e));
    StepIs(p, w, e);
    FirstTurnEffect(p, w, e);
    if e.WindowEnd? || e.BatchReady? || e.BatchTimeout? {
      LeavingKeepsWindow(p, w, e);
    } else {
      EnteringTouches(p, w, e);
      if Joins(w.s, r.0, e.rid, r.1) {
        JoinedWindow(w, w', e.rid, r.1);
      } else {
        UntouchedWindow(w, w', e.rid);
      }
    }
  }

  lemma EnteringTouches(p: Params, w: World, e: Event)
    requires Valid(p, w.s) && Enabled(p, w, e) && FirstTurn(e)
    requires !e.WindowEnd? && !e.BatchReady? && !e.BatchTimeout?
    ensures var r := Segment(p, w, e);
            && !Joined(w, e.rid)
            && ((SameWindow(w.s, r.0) && r.1 != Await(LptWindow) && r.1 != Await(LptBatch))
                || Joins(w.s, r.0, e.rid, r.1))
            && (Joins(w.s, r.0, e.rid, r.1) ==> r.1.Await?)
  {
    hide Valid, Ordinary, Follow, Poll, StaggerEnter;
    match e {
      case Start(_, _, _, _, _, _) => StartWindow(p, w, e);
      case LeaderReady(rid, expired) =>
        FollowWindow(p, w.s, rid, w.phase[rid].on.group, w.phase[rid].ctx, w.phase[rid].work, expired);
      case LeaderTimeout(rid, expired) => OrdinaryWindow(p, w.s, rid, w.phase[rid].ctx, w.phase[rid].work, expired);
      case PollAgain(rid, expired) => PollWindow(p, w.s, rid, w.phase[rid].ctx, expired);
    }
  }

  lemma LeavingKeepsWindow(p: Params, w: World, e: Event)
    requires BooksOk(p, w) && WindowOk(w) && Enabled(p, w, e) && FirstTurn(e)
    requires e.WindowEnd? || e.BatchReady? || e.BatchTimeout?
    ensures WindowOk(Step(p, w, e))
  {
    hide Step, Valid, PhasesMatch, Conserved, FinalsFollow, BookedTurn, SameBooks, NewPhase, Shrunk, Fed, SameWindow, CloseWindow, TakeResult, Book;
    var w' := Step(p, w, e);
    StepIs(p, w, e);
    FirstTurnEffect(p, w, e);
    LeavingNeverWaits(p, w, e);
    if e.WindowEnd? {
      CloseWindowPlans(p, w.s);
      TakeWindow(p, CloseWindow(p, w.s), e.rid, w.phase[e.rid].ctx);
      ClosedWindow(w, w', e.rid, CloseWindow(p, w.s).lptResult);
    } else if e.BatchReady? {
      TakeWindow(p, w.s, e.rid, w.phase[e.rid].ctx);
      LeftWindow(w, w', e.rid);
    } else {
      BookWindow(p, w.s, e.rid, LeastLoaded(p, w.s), 0, w.phase[e.rid].ctx);
      UntouchedWindow(w, w', e.rid);
    }
  }

  lemma LeavingNeverWaits(p: Params, w: World, e: Event)
    requires Valid(p, w.s) && Enabled(p, w, e)
    requires e.WindowEnd? || e.BatchReady? || e.BatchTimeout?
    ensures Segment(p, w, e).1.Placed?
  {
    hide Valid, Book, CloseWindow, Planned, Forget;
  }

  // Every session reading the plan finds itself in it, in every reachable world.
  lemma {:induction false} WindowsStayOk(p: Params, events: seq<Event>)
    requires |p.replicas| > 0 && p.growth.priorWeight > -1.0
    ensures WindowOk(Run(p, events))
  {
    hide Step, WindowOk, BooksOk, Enabled;
    if |events| == 0 {
      NoWindowAtFirst(p);
    } else {
      var (w, e) := (Run(p, events[..|events| - 1]), events[|events| - 1]);
      RunsConserve(p, events[..|events| - 1]);
      WindowsStayOk(p, events[..|events| - 1]);
      if Enabled(p, w, e) {
        StepKeepsWindow(p, w, e);
      } else {
        DisabledIsIdle(p, w, e);
      }
    }
  }

  lemma NoWindowAtFirst(p: Params)
    ensures WindowOk(Begin(p))
  {
  }

  // A session woken after its window closed is booked where the plan put it.
  lemma WokenSessionsFollowThePlan(p: Params, events: seq<Event>, rid: RequestId)
    requires |p.replicas| > 0 && p.growth.priorWeight > -1.0
    requires Enabled(p, Run(p, events), BatchReady(rid))
    ensures var (w, w') := (Run(p, events), Run(p, events + [BatchReady(rid)]));
            rid in w.s.lptResult && rid in w'.s.resident && w'.s.resident[rid] == w.s.lptResult[rid]
  {
    hide Run, WindowOk, Step;
    var w := Run(p, events);
    WindowsStayOk(p, events);
    RunSnoc(p, events, BatchReady(rid));
    WokenIsPlanned(w, rid);
    BatchReadyBooks(p, w, rid);
  }

  lemma WokenIsPlanned(w: World, rid: RequestId)
    requires WindowOk(w) && WaitsOn(w, rid, LptBatch) && w.s.lptClosed
    ensures rid in w.s.lptResult
  {
    assert InWindow(w, rid);
  }

  lemma BatchReadyBooks(p: Params, w: World, rid: RequestId)
    requires Valid(p, w.s) && Enabled(p, w, BatchReady(rid)) && rid in w.s.lptResult
    ensures var s' := Step(p, w, BatchReady(rid)).s; rid in s'.resident && s'.resident[rid] == w.s.lptResult[rid]
  {
    hide TablesOk, Charge, Added, LeastLoaded, Shrunk, Fed, NewPhase;
  }

  // When the window closes over replicas with equal free budgets, the batch's placement, charged
  // by work, carries all the work and loads no replica beyond 4/3 - 1/(3m) of any assignment's
  // makespan t.
  lemma BatchIsNearOptimal(p: Params, s: State, other: seq<Replica>, t: real, r: Replica)
    requires Valid(p, s) && Scheduling.Distinct(p.replicas)
    requires Scheduling.EqualFree(p.replicas, FreeMap(p, s))
    requires forall i :: 0 <= i < |s.lptPending| ==> s.lptPending[i].work >= 0.0
    requires var works := Works(LongestFirst(s.lptPending));
             |other| == |works| && Scheduling.Within(other, p.replicas) && Scheduling.Makespan(works, other, t)
    ensures var works := Works(LongestFirst(s.lptPending));
            && Scheduling.SumLoads(works, BatchPlacement(p, s), p.replicas) == Scheduling.Sum(works)
            && Scheduling.WithinLptBound(|p.replicas| as real, Scheduling.Load(works, BatchPlacement(p, s), r), t)
  {
    hide TablesOk, Scheduling.Load, Scheduling.Sum, Scheduling.Greedy, Scheduling.WithinLptBound, Free;
    var batch := LongestFirst(s.lptPending);
    var works := Works(batch);
    LongestFirstSorts(s.lptPending);
    forall i | 0 <= i < |works| ensures works[i] >= 0.0 {
      var k := IndexIn(s.lptPending, batch, i);
    }
    Scheduling.GreedyIsLeastLoaded(p.replicas, FreeMap(p, s), works);
    Scheduling.LoadsAddUp(works, BatchPlacement(p, s), p.replicas);
    Scheduling.LptBound(p.replicas, works, BatchPlacement(p, s), other, t, r);
  }
}
