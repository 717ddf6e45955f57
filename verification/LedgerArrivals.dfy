// The LPT window holds what the sessions declared: every arrival stands in it with the work of its
// own Start call, and the batch is near optimal for those works.

module LedgerArrivals {
  import opened Text
  import Scheduling
  import opened Ledger
  import opened LedgerRuns
  import opened LedgerLpt
  import opened LedgerBatches
  import opened LedgerLearning
  import LedgerLandings

  // The total work that a session declares on arrival, or its context when it declares none or zero.
  function WorkAtStart(e: Event): real {
    if e.Start? then
      match e.work
      case Some(work) => if work == 0.0 then e.ctx else work
      case None => e.ctx
    else 0.0
  }

  // The work declared by the call that started this request.
  ghost function DeclaredWork(p: Params, events: seq<Event>, rid: RequestId): real
    requires |p.replicas| > 0 && p.growth.priorWeight > -1.0
  {
    var n := |events| - 1;
    if n < 0 then 0.0
    else if events[n].Start? && events[n].rid == rid && Happens(p, events, n) then WorkAtStart(events[n])
    else DeclaredWork(p, events[..n], rid)
  }

  // ----- what one call adds to the window

  // The window stays, takes in this arrival, or is emptied.
  ghost predicate Pends(s: State, s': State, x: Arrival) {
    s'.lptPending == s.lptPending || s'.lptPending == s.lptPending + [x] || s'.lptPending == []
  }

  function Incoming(rid: RequestId, ctx: real, work: Option<real>): Arrival {
    Arrival(WorkAtStart(Start(rid, ctx, None, work, None, false)), rid, ctx)
  }

  lemma BookPends(p: Params, s: State, rid: RequestId, dest: Replica, turn: nat, ctx: real)
    requires Valid(p, s) && dest in p.replicas
    ensures Book(p, s, rid, dest, turn, ctx).lptPending == s.lptPending
  {
    hide TablesOk, Charge, Added;
  }

  lemma EnterPends(p: Params, s: State, rid: RequestId, ctx: real, work: Option<real>)
    requires Valid(p, s)
    ensures Pends(s, LptEnter(p, s, rid, ctx, work).0, Incoming(rid, ctx, work))
  {
    hide TablesOk, Book, Free;
    BookPends(p, s, rid, LeastLoaded(p, s), 0, ctx);
  }

  lemma PollPends(p: Params, s: State, rid: RequestId, ctx: real, expired: bool)
    requires Valid(p, s)
    ensures Poll(p, s, rid, ctx, expired).0.lptPending == s.lptPending
  {
    hide TablesOk, Book, Free;
    BookPends(p, s, rid, LeastLoaded(p, s), 0, ctx);
  }

  lemma OrdinaryPends(p: Params, s: State, rid: RequestId, ctx: real, work: Option<real>, expired: bool)
    requires Valid(p, s)
    ensures Pends(s, Ordinary(p, s, rid, ctx, work, expired).0, Incoming(rid, ctx, work))
  {
    hide Valid, Book, Free, Poll, LptEnter, SameBooks, Incoming;
    EnterPends(p, s, rid, ctx, work);
    var s1 := Admit(p, s);
    PollPends(p, s1, rid, ctx, expired);
    BookPends(p, s1, rid, LeastLoaded(p, s1), 0, ctx);
  }

  lemma FollowPends(p: Params, s: State, rid: RequestId, g: GroupKey, ctx: real, work: Option<real>, expired: bool)
    requires Valid(p, s)
    ensures Pends(s, Follow(p, s, rid, g, ctx, work, expired).0, Incoming(rid, ctx, work))
  {
    hide TablesOk, Book, Free, Ordinary, Incoming;
    OrdinaryPends(p, s, rid, ctx, work, expired);
    if g in s.leader {
      var target := BestOther(p, s, s.leader[g]);
      if target.Some? {
        BookPends(p, s, rid, target.value, 0, ctx);
      }
    }
  }

  lemma MemberPends(p: Params, s: State, rid: RequestId, g: GroupKey, ctx: real, work: Option<real>, expired: bool)
    requires Valid(p, s)
    ensures Pends(s, StaggerEnter(p, s, rid, g, ctx, work, expired).0, Incoming(rid, ctx, work))
  {
    hide TablesOk, Book, Free, Follow, Incoming;
    FollowPends(p, s, rid, g, ctx, work, expired);
    if g !in s.claimed {
      var dest := LeastLoaded(p, s);
      BookPends(p, Lead(p, s, rid, g, dest), rid, dest, 0, ctx);
    }
  }

  lemma StartPends(p: Params, w: World, e: Event)
    requires Valid(p, w.s) && Enabled(p, w, e) && e.Start?
    ensures Pends(w.s, Segment(p, w, e).0, Incoming(e.rid, e.ctx, e.work))
  {
    hide TablesOk, Ordinary, StaggerEnter, Incoming;
    var s0 := Declare(p, w.s, e.rid, e.final);
    OrdinaryPends(p, s0, e.rid, e.ctx, e.work, e.expired);
    if e.group.Some? {
      MemberPends(p, s0, e.rid, e.group.value, e.ctx, e.work, e.expired);
    }
  }

  lemma LeavingPends(p: Params, w: World, e: Event)
    requires Valid(p, w.s) && Enabled(p, w, e) && (e.WindowEnd? || e.BatchReady? || e.BatchTimeout?)
    ensures Segment(p, w, e).0.lptPending == [] || Segment(p, w, e).0.lptPending == w.s.lptPending
  {
    hide Valid, Book, TakeResult, LeastLoaded, Plan, BatchPlacement;
    TakeWindow(p, CloseWindow(p, w.s), e.rid, w.phase[e.rid].ctx);
    TakeWindow(p, w.s, e.rid, w.phase[e.rid].ctx);
    BookPends(p, w.s, e.rid, LeastLoaded(p, w.s), 0, w.phase[e.rid].ctx);
  }

  lemma FirstTurnPends(p: Params, w: World, e: Event)
    requires Valid(p, w.s) && Enabled(p, w, e) && FirstTurn(e)
    ensures Pends(w.s, Segment(p, w, e).0, Incoming(e.rid, FirstContext(w, e), FirstWork(w, e)))
  {
    hide Valid, Ordinary, Follow, Poll, Incoming;
    if e.Start? {
      StartPends(p, w, e);
    } else if e.LeaderReady? {
      FollowPends(p, w.s, e.rid, w.phase[e.rid].on.group, w.phase[e.rid].ctx, w.phase[e.rid].work, e.expired);
    } else if e.LeaderTimeout? {
      OrdinaryPends(p, w.s, e.rid, w.phase[e.rid].ctx, w.phase[e.rid].work, e.expired);
    } else if e.PollAgain? {
      PollPends(p, w.s, e.rid, w.phase[e.rid].ctx, e.expired);
    } else {
      hide Segment;
      LeavingPends(p, w, e);
    }
  }

  lemma OthersPend(p: Params, w: World, e: Event)
    requires Valid(p, w.s) && Enabled(p, w, e) && !FirstTurn(e)
    ensures Segment(p, w, e).0.lptPending == w.s.lptPending
  {
    hide Valid, Continue, Record, Finish, SameWindow;
    if e.NextTurn? {
      LaterPends(p, w, e);
    } else {
      hide Segment;
      ReportWindow(p, w, e);
      SameWindowSamePending(w.s, Segment(p, w, e).0);
    }
  }

  lemma SameWindowSamePending(s: State, s': State)
    requires SameWindow(s, s')
    ensures s'.lptPending == s.lptPending
  {
  }

  lemma LaterPends(p: Params, w: World, e: Event)
    requires Valid(p, w.s) && Enabled(p, w, e) && e.NextTurn?
    ensures Segment(p, w, e).0.lptPending == w.s.lptPending
  {
    hide TablesOk, Continue;
    LaterWindow(p, Declare(p, w.s, e.rid, e.final), e.rid, NextOf(w, e.rid), e.ctx);
  }

  // ----- every run

  // Waiting sessions carry what they declared, and so does the window.
  ghost predicate Declares(p: Params, events: seq<Event>, w: World)
    requires |p.replicas| > 0 && p.growth.priorWeight > -1.0
  {
    && (forall rid :: rid in w.phase && w.phase[rid].Waiting? ==>
          Incoming(rid, w.phase[rid].ctx, w.phase[rid].work).work == DeclaredWork(p, events, rid))
    && (forall i :: 0 <= i < |w.s.lptPending| ==>
          w.s.lptPending[i].work == DeclaredWork(p, events, w.s.lptPending[i].rid) && w.s.lptPending[i].rid in w.phase)
  }

  lemma FirstCallDeclares(p: Params, events: seq<Event>, w: World, e: Event)
    requires |p.replicas| > 0 && p.growth.priorWeight > -1.0
    requires w == Run(p, events) && BooksOk(p, w) && Enabled(p, w, e) && FirstTurn(e) && Declares(p, events, w)
    ensures Declares(p, events + [e], Step(p, w, e))
  {
    hide Run, Step, Segment, Valid, PhasesMatch, Conserved, FinalsFollow, BookedTurn, SameBooks, Enabled, NewPhase, Shrunk, Fed, DeclaredWork, Incoming;
    var (w', all) := (Step(p, w, e), events + [e]);
    FirstTurnPends(p, w, e);
    FirstTurnEffect(p, w, e);
    StepIs(p, w, e);
    forall rid ensures DeclaredWork(p, all, rid) == if e.Start? && e.rid == rid then WorkAtStart(e) else DeclaredWork(p, events, rid) {
      DeclaredSnoc(p, events, e, rid);
    }
    StartsAreNew(p, w, e);
    IncomingIsDeclared(p, events, w, e);
  }

  lemma DeclaredSnoc(p: Params, events: seq<Event>, e: Event, rid: RequestId)
    requires |p.replicas| > 0 && p.growth.priorWeight > -1.0 && Enabled(p, Run(p, events), e)
    ensures DeclaredWork(p, events + [e], rid) == if e.Start? && e.rid == rid then WorkAtStart(e) else DeclaredWork(p, events, rid)
  {
    hide Run, Enabled;
    assert (events + [e])[..|events|] == events;
  }

  lemma StartsAreNew(p: Params, w: World, e: Event)
    requires Enabled(p, w, e)
    ensures e.Start? ==> e.rid !in w.phase
  {
  }

  lemma IncomingIsDeclared(p: Params, events: seq<Event>, w: World, e: Event)
    requires |p.replicas| > 0 && p.growth.priorWeight > -1.0
    requires Enabled(p, w, e) && FirstTurn(e) && Declares(p, events, w)
    ensures Incoming(e.rid, FirstContext(w, e), FirstWork(w, e)).work
            == if e.Start? then WorkAtStart(e) else DeclaredWork(p, events, e.rid)
    ensures Incoming(e.rid, FirstContext(w, e), FirstWork(w, e)).rid == e.rid
  {
  }

  lemma LaterCallDeclares(p: Params, events: seq<Event>, w: World, e: Event)
    requires |p.replicas| > 0 && p.growth.priorWeight > -1.0
    requires w == Run(p, events) && BooksOk(p, w) && Enabled(p, w, e) && !FirstTurn(e) && Declares(p, events, w)
    ensures Declares(p, events + [e], Step(p, w, e))
  {
    hide Run, Step, Segment, Valid, PhasesMatch, Conserved, FinalsFollow, BookedTurn, Enabled, Shrunk, Fed, DeclaredWork, Incoming;
    var all := events + [e];
    OthersPend(p, w, e);
    StepIs(p, w, e);
    forall rid ensures DeclaredWork(p, all, rid) == DeclaredWork(p, events, rid) {
      DeclaredSnoc(p, events, e, rid);
    }
    NeverWaits(p, w, e);
  }

  lemma NeverWaits(p: Params, w: World, e: Event)
    requires Valid(p, w.s) && Enabled(p, w, e) && !FirstTurn(e)
    ensures !NewPhase(w, e, Segment(p, w, e).1).Waiting?
  {
    hide Valid, Continue, Record, Finish;
    if e.NextTurn? {
      LaterNeverWaits(p, Declare(p, w.s, e.rid, e.final), e.rid, NextOf(w, e.rid), e.ctx);
    }
  }

  // Over every run each session stands in the window with the work that its Start call declared.
  lemma {:induction false} WindowsHoldDeclaredWork(p: Params, events: seq<Event>)
    requires |p.replicas| > 0 && p.growth.priorWeight > -1.0
    ensures Declares(p, events, Run(p, events))
  {
    hide Step, BooksOk, Enabled, Declares;
    var n := |events| - 1;
    if n < 0 {
      NothingDeclared(p);
    } else {
      var (w, e) := (Run(p, events[..n]), events[n]);
      assert events == events[..n] + [e];
      RunsConserve(p, events[..n]);
      WindowsHoldDeclaredWork(p, events[..n]);
      if !Enabled(p, w, e) {
        DisabledIsIdle(p, w, e);
        IdleDeclares(p, events[..n], e);
      } else if FirstTurn(e) {
        FirstCallDeclares(p, events[..n], w, e);
      } else {
        LaterCallDeclares(p, events[..n], w, e);
      }
    }
  }

  lemma NothingDeclared(p: Params)
    requires |p.replicas| > 0 && p.growth.priorWeight > -1.0
    ensures Declares(p, [], Run(p, []))
  {
  }

  lemma IdleDeclares(p: Params, events: seq<Event>, e: Event)
    requires |p.replicas| > 0 && p.growth.priorWeight > -1.0 && !Enabled(p, Run(p, events), e)
    requires Declares(p, events, Run(p, events))
    ensures Declares(p, events + [e], Run(p, events))
  {
    hide Run, Enabled, Incoming;
    assert (events + [e])[..|events|] == events;
    assert !Happens(p, events + [e], |events|);
  }

  // ----- the batch of the declared works

  // Where the plan puts a session: the one that closed the window has taken its result already.
  function PlannedAt(s: State, rid: RequestId): Option<Replica> {
    if rid in s.lptResult then Some(s.lptResult[rid]) else if rid in s.resident then Some(s.resident[rid]) else None
  }

  ghost function DeclaredWorks(p: Params, events: seq<Event>, sessions: seq<RequestId>): (works: seq<real>)
    requires |p.replicas| > 0 && p.growth.priorWeight > -1.0
    ensures |works| == |sessions|
  {
    seq(|sessions|, i requires 0 <= i < |sessions| => DeclaredWork(p, events, sessions[i]))
  }

  ghost predicate PlannedOn(s: State, sessions: seq<RequestId>, at: seq<Replica>) {
    |at| == |sessions| && forall i :: 0 <= i < |sessions| ==> PlannedAt(s, sessions[i]) == Some(at[i])
  }

  // No assignment of these works to the replicas meets a makespan that this one misses by more than
  // 4/3 - 1/(3m).
  ghost predicate NearOptimal(replicas: seq<Replica>, works: seq<real>, at: seq<Replica>)
    requires |works| == |at|
  {
    forall other, t, r ::
      |other| == |works| && Scheduling.Within(other, replicas) && Scheduling.Makespan(works, other, t)
      ==> Scheduling.WithinLptBound(|replicas| as real, Scheduling.Load(works, at, r), t)
  }

  ghost predicate DistinctIds(sessions: seq<RequestId>) {
    forall i, j :: 0 <= i < j < |sessions| ==> sessions[i] != sessions[j]
  }

  function SessionsOf(batch: seq<Arrival>): (sessions: seq<RequestId>)
    ensures |sessions| == |batch|
  {
    seq(|batch|, i requires 0 <= i < |batch| => batch[i].rid)
  }

  lemma ClosingPlans(p: Params, w: World, rid: RequestId)
    requires BooksOk(p, w) && WindowOk(w) && Enabled(p, w, WindowEnd(rid))
    ensures DistinctSessions(w.s.lptPending)
    ensures var (batch, s') := (LongestFirst(w.s.lptPending), Step(p, w, WindowEnd(rid)).s);
            && |BatchPlacement(p, w.s)| == |batch|
            && PlannedOn(s', SessionsOf(batch), BatchPlacement(p, w.s))
  {
    hide Step, Segment, Valid, PhasesMatch, Conserved, LongestFirst, BatchPlacement, CloseWindow, TakeResult, WindowOk;
    var e := WindowEnd(rid);
    OpenWindow(w, rid);
    CloseWindowPlans(p, w.s);
    StepIs(p, w, e);
    ClosingStep(p, w, rid);
  }

  lemma ClosingStep(p: Params, w: World, rid: RequestId)
    requires BooksOk(p, w) && WindowOk(w) && Enabled(p, w, WindowEnd(rid))
    ensures var plan: map<RequestId, Replica> := CloseWindow(p, w.s).lptResult;
            var s' := Step(p, w, WindowEnd(rid)).s;
            && s'.lptResult == plan - {rid} && rid in plan && rid in s'.resident && s'.resident[rid] == plan[rid]
  {
    hide Step, Valid, PhasesMatch, Conserved, CloseWindow, TakeResult;
    var e := WindowEnd(rid);
    OpenWindow(w, rid);
    CloseWindowPlans(p, w.s);
    StepIs(p, w, e);
    TakeWindow(p, CloseWindow(p, w.s), rid, w.phase[rid].ctx);
    LedgerLandings.FirstTurnGoes(p, w, e);
    WaitingIsPending(w, rid);
  }

  lemma WaitingIsPending(w: World, rid: RequestId)
    requires WindowOk(w) && WaitsOn(w, rid, LptWindow)
    ensures Pending(w.s, rid)
  {
    assert InWindow(w, rid);
  }

  // Until it closes, the window holds exactly the sessions that wait in it.
  lemma WindowIsWaiting(p: Params, events: seq<Event>, q: RequestId)
    requires |p.replicas| > 0 && p.growth.priorWeight > -1.0 && p.lptWindow && AllPatient(p, events)
    requires !Run(p, events).s.lptClosed
    ensures InWindow(Run(p, events), q) <==> Pending(Run(p, events).s, q)
  {
    hide Run;
    WindowsStayOk(p, events);
    RunsGather(p, events);
  }

  lemma SessionsArePending(pending: seq<Arrival>, q: RequestId)
    ensures q in SessionsOf(LongestFirst(pending)) <==> exists i :: 0 <= i < |pending| && pending[i].rid == q
  {
    hide LongestFirst;
    var batch := LongestFirst(pending);
    LongestFirstSorts(pending);
    if q in SessionsOf(batch) {
      var k :| 0 <= k < |batch| && SessionsOf(batch)[k] == q;
      var i := IndexIn(pending, batch, k);
    }
    if i :| 0 <= i < |pending| && pending[i].rid == q {
      var k := IndexIn(batch, pending, i);
      assert SessionsOf(batch)[k] == q;
    }
  }

  lemma WorksAreDeclared(p: Params, events: seq<Event>)
    requires |p.replicas| > 0 && p.growth.priorWeight > -1.0
    ensures var batch := LongestFirst(Run(p, events).s.lptPending);
            Works(batch) == DeclaredWorks(p, events, SessionsOf(batch))
  {
    hide Run, LongestFirst, DeclaredWork, Incoming;
    var pending := Run(p, events).s.lptPending;
    var batch := LongestFirst(pending);
    LongestFirstSorts(pending);
    WindowsHoldDeclaredWork(p, events);
    forall i | 0 <= i < |batch| ensures batch[i].work == DeclaredWork(p, events, batch[i].rid) {
      var k := IndexIn(pending, batch, i);
    }
  }

  // When a run closes its window, without groups and with everyone waiting for it: the sessions that
  // wait in it are placed, longest declared work first, and whatever replicas they go to, no replica
  // carries more of the work they declared than 4/3 - 1/(3m) times the makespan of any assignment.
  lemma DeclaredBatchesAreNearOptimal(p: Params, events: seq<Event>, rid: RequestId)
      returns (sessions: seq<RequestId>, at: seq<Replica>)
    requires |p.replicas| > 0 && p.growth.priorWeight > -1.0 && Scheduling.Distinct(p.replicas)
    requires p.lptWindow && AllPatient(p, events)
    requires Enabled(p, Run(p, events), WindowEnd(rid))
    ensures DistinctIds(sessions) && forall q :: q in sessions <==> InWindow(Run(p, events), q)
    ensures Scheduling.Descending(DeclaredWorks(p, events, sessions))
    ensures PlannedOn(Run(p, events + [WindowEnd(rid)]).s, sessions, at) && Scheduling.Within(at, p.replicas)
    ensures NearOptimal(p.replicas, DeclaredWorks(p, events, sessions), at)
  {
    hide Run, Step, WindowOk, BatchPlacement, CloseWindow, FreeMap, LongestFirst, DeclaredWorks, PlannedOn, Valid, PhasesMatch, Conserved,
         Scheduling.Makespan, Scheduling.WithinLptBound, Scheduling.Load, InWindow, Works;
    var w := Run(p, events);
    var batch := LongestFirst(w.s.lptPending);
    sessions, at := SessionsOf(batch), BatchPlacement(p, w.s);
    RunsConserve(p, events);
    WindowsStayOk(p, events);
    OpenWindow(w, rid);
    RunSnoc(p, events, WindowEnd(rid));
    ClosingPlans(p, w, rid);
    WorksAreDeclared(p, events);
    LongestFirstSorts(w.s.lptPending);
    SortingKeepsDistinct(w.s.lptPending, batch);
    WorksDescend(batch);
    forall q ensures q in sessions <==> InWindow(w, q) {
      WindowIsWaiting(p, events, q);
      SessionsArePending(w.s.lptPending, q);
    }
    var works := DeclaredWorks(p, events, sessions);
    forall other, t, r | |other| == |works| && Scheduling.Within(other, p.replicas) && Scheduling.Makespan(works, other, t)
      ensures Scheduling.WithinLptBound(|p.replicas| as real, Scheduling.Load(works, at, r), t)
    {
      BatchesAreNearOptimal(p, events, rid, other, t, r);
    }
  }

  lemma WorksDescend(batch: seq<Arrival>)
    requires SortedByWork(batch)
    ensures Scheduling.Descending(Works(batch))
  {
  }

  // ----- the first wave

  // How many sessions have arrived.
  ghost function ArrivedSessions(p: Params, events: seq<Event>): nat
    requires |p.replicas| > 0 && p.growth.priorWeight > -1.0
  {
    var n := |events| - 1;
    if n < 0 then 0
    else ArrivedSessions(p, events[..n]) + if events[n].Start? && Happens(p, events, n) then 1 else 0
  }

  // No session arrives in a group.
  ghost predicate Ungrouped(p: Params, events: seq<Event>) {
    forall i :: 0 <= i < |events| && events[i].Start? && p.stagger ==> events[i].group.None?
  }

  ghost predicate OnlyPolling(w: World) {
    forall rid :: rid in w.phase && w.phase[rid].Waiting? ==> w.phase[rid].on == Headroom
  }

  lemma BookKeepsCount(p: Params, s: State, rid: RequestId, dest: Replica, turn: nat, ctx: real)
    requires Valid(p, s) && dest in p.replicas
    ensures Book(p, s, rid, dest, turn, ctx).admitted == s.admitted
  {
    hide TablesOk, Charge, Added;
  }

  lemma PollKeepsCount(p: Params, s: State, rid: RequestId, ctx: real, expired: bool)
    requires Valid(p, s)
    ensures var r := Poll(p, s, rid, ctx, expired); r.0.admitted == s.admitted && (r.1.Await? ==> r.1.on == Headroom)
  {
    hide TablesOk, Book, Free;
    BookKeepsCount(p, s, rid, LeastLoaded(p, s), 0, ctx);
  }

  lemma OrdinaryCounts(p: Params, s: State, rid: RequestId, ctx: real, work: Option<real>, expired: bool)
    requires Valid(p, s) && !p.lptWindow
    ensures var r := Ordinary(p, s, rid, ctx, work, expired);
            r.0.admitted == s.admitted + 1 && (r.1.Await? ==> r.1.on == Headroom)
  {
    hide Valid, Book, Free, Poll, SameBooks;
    var s1 := Admit(p, s);
    PollKeepsCount(p, s1, rid, ctx, expired);
    BookKeepsCount(p, s1, rid, LeastLoaded(p, s1), 0, ctx);
  }

  lemma FirstCallCounts(p: Params, w: World, e: Event)
    requires Valid(p, w.s) && Enabled(p, w, e) && OnlyPolling(w) && FirstTurn(e) && !p.lptWindow
    requires e.Start? && p.stagger ==> e.group.None?
    ensures var r := Segment(p, w, e);
            && r.0.admitted == w.s.admitted + (if e.Start? then 1 else 0)
            && (r.1.Await? ==> r.1.on == Headroom)
  {
    hide Valid, Ordinary, Poll, Declare;
    if e.Start? {
      LedgerLandings.DeclareKeepsTokens(p, w.s, e.rid, e.final);
      OrdinaryCounts(p, Declare(p, w.s, e.rid, e.final), e.rid, e.ctx, e.work, e.expired);
    } else {
      assert e.PollAgain?;
      PollKeepsCount(p, w.s, e.rid, w.phase[e.rid].ctx, e.expired);
    }
  }

  lemma ContinueKeepsCount(p: Params, s: State, rid: RequestId, turn: nat, ctx: real)
    requires Valid(p, s) && turn > 0
    ensures Continue(p, s, rid, turn, ctx).0.admitted == s.admitted
  {
    hide TablesOk, Book, Release, Moves, Free, LeastLoaded, BestOther, Pull;
    if rid !in s.resident {
      BookKeepsCount(p, s, rid, LeastLoaded(p, s), turn, ctx);
    } else if Moves(p, s, rid, turn, ctx) {
      MovesHasTarget(p, s, rid, turn, ctx);
      MigrateKeepsCount(p, s, rid, BestOther(p, s, s.resident[rid]).value, turn, ctx);
    } else {
      BookKeepsCount(p, s, rid, s.resident[rid], turn, ctx);
    }
  }

  lemma MigrateKeepsCount(p: Params, s: State, rid: RequestId, dest: Replica, turn: nat, ctx: real)
    requires Valid(p, s) && rid in s.resident && dest in p.replicas && turn > 0
    ensures Migrate(p, s, rid, dest, turn, ctx).0.admitted == s.admitted
  {
    hide TablesOk, Book, Pull;
    BookKeepsCount(p, Release(p, s, rid, s.resident[rid], turn - 1), rid, dest, turn, ctx);
  }

  lemma RecordKeepsCount(p: Params, s: State, rid: RequestId, turn: nat, ctx: real)
    requires Valid(p, s)
    ensures Record(p, s, rid, turn, ctx).admitted == s.admitted
  {
    hide TablesOk, Charge;
  }

  lemma LaterCallCounts(p: Params, w: World, e: Event)
    requires Valid(p, w.s) && Enabled(p, w, e) && !FirstTurn(e)
    ensures Segment(p, w, e).0.admitted == w.s.admitted
  {
    hide Valid, Continue, Record, Finish, Declare;
    if e.NextTurn? {
      LedgerLandings.DeclareKeepsTokens(p, w.s, e.rid, e.final);
      ContinueKeepsCount(p, Declare(p, w.s, e.rid, e.final), e.rid, NextOf(w, e.rid), e.ctx);
    } else if e.Measured? {
      RecordKeepsCount(p, w.s, e.rid, TurnNow(w, e.rid), e.ctx);
    } else {
      FinishKeepsQueues(p, w.s, e.rid);
    }
  }

  // While no session arrives in a group and there is no window, the ledger has counted every arrival.
  lemma {:induction false} ArrivalsAreCounted(p: Params, events: seq<Event>)
    requires |p.replicas| > 0 && p.growth.priorWeight > -1.0 && !p.lptWindow && Ungrouped(p, events)
    ensures Run(p, events).s.admitted == ArrivedSessions(p, events) && OnlyPolling(Run(p, events))
  {
    hide Step, Enabled, OnlyPolling, BooksOk;
    var n := |events| - 1;
    if n < 0 {
      NothingPolls(p);
    } else {
      var (w, e) := (Run(p, events[..n]), events[n]);
      ArrivalsAreCounted(p, events[..n]);
      if Enabled(p, w, e) {
        StepCounts(p, w, e);
      } else {
        DisabledIsIdle(p, w, e);
      }
    }
  }

  lemma NothingPolls(p: Params)
    ensures OnlyPolling(Begin(p)) && Begin(p).s.admitted == 0
  {
  }

  lemma StepCounts(p: Params, w: World, e: Event)
    requires Valid(p, w.s) && Enabled(p, w, e) && OnlyPolling(w) && !p.lptWindow
    requires e.Start? && p.stagger ==> e.group.None?
    ensures Step(p, w, e).s.admitted == w.s.admitted + (if e.Start? then 1 else 0)
    ensures OnlyPolling(Step(p, w, e))
  {
    hide Step, Segment, Valid, Enabled, Shrunk, Fed;
    StepIs(p, w, e);
    if FirstTurn(e) {
      FirstCallCounts(p, w, e);
    } else {
      LaterCallCounts(p, w, e);
      NeverWaits(p, w, e);
    }
  }

  // A session that arrives in time waits exactly when the first wave is over and no replica has its
  // context free.
  lemma WaitsExactlyWhen(p: Params, events: seq<Event>, e: Event)
    requires |p.replicas| > 0 && p.growth.priorWeight > -1.0 && !p.lptWindow && Ungrouped(p, events + [e])
    requires Enabled(p, Run(p, events), e) && e.Start? && !e.expired
    ensures var w := Run(p, events);
            Segment(p, w, e).1.Await? <==>
              ArrivedSessions(p, events) >= p.wave1 && forall q :: q in p.replicas ==> Free(p, w.s, q) < e.ctx
  {
    hide Run, Segment, ArrivedSessions, Free;
    var w := Run(p, events);
    assert forall i :: 0 <= i < |events| ==> (events + [e])[i] == events[i];
    assert (events + [e])[|events|] == e;
    ArrivalsAreCounted(p, events);
    LedgerLandings.FirstTurnGoes(p, w, e);
  }
}
