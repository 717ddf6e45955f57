// The batch that a run closes its LPT window over: without groups and without a session giving up
// on the window, nothing is booked before it, so the batch starts from equal free budgets.

module LedgerBatches {
  import opened Text
  import opened Totals
  import Budgets
  import Growth
  import Scheduling
  import opened Ledger
  import opened LedgerRuns
  import opened LedgerLpt
  import LedgerBudget
  import LedgerLandings

  ghost predicate NothingBooked(p: Params, s: State)
    requires Valid(p, s)
  {
    s.resident == map[] && forall r :: r in p.replicas ==> s.used[r] == 0.0
  }

  ghost predicate WorksAreNonNegative(s: State) {
    forall i :: 0 <= i < |s.lptPending| ==> s.lptPending[i].work >= 0.0
  }

  ghost predicate AllInWindow(w: World) {
    forall rid :: rid in w.phase ==> InWindow(w, rid)
  }

  // Until its window closes, the ledger has booked nothing and every session waits in the window.
  ghost predicate Gathering(p: Params, w: World)
    requires Valid(p, w.s)
  {
    w.s.lptClosed || (NothingBooked(p, w.s) && AllInWindow(w) && WorksAreNonNegative(w.s))
  }

  // No session arrives in a group or gives up on the window, and declared work is never negative.
  predicate Patient(p: Params, e: Event) {
    && !e.BatchTimeout?
    && (e.Start? ==> (p.stagger ==> e.group.None?) && (e.work.Some? ==> e.work.value >= 0.0))
  }

  lemma NothingGathered(p: Params)
    requires |p.replicas| > 0 && p.growth.priorWeight > -1.0
    ensures Gathering(p, Begin(p))
  {
  }

  lemma EqualWhenNothingBooked(p: Params, s: State)
    requires Valid(p, s) && NothingBooked(p, s)
    ensures Scheduling.EqualFree(p.replicas, FreeMap(p, s))
  {
    forall r | r in p.replicas ensures Free(p, s, r) == p.budget {
      assert On(s.resident, s.charge, r) == map[];
    }
  }

  // A closed window stays closed.
  lemma StaysClosed(p: Params, w: World, e: Event)
    requires Valid(p, w.s) && Enabled(p, w, e) && w.s.lptClosed && !e.WindowEnd?
    ensures Step(p, w, e).s.lptClosed
  {
    hide Step, Segment, Valid;
    StepIs(p, w, e);
    if e.NextTurn? {
      LaterStaysClosed(p, w, e);
    } else if e.Measured? || e.Completed? {
      ReportWindow(p, w, e);
    } else if e.BatchReady? || e.BatchTimeout? {
      LeavingStaysClosed(p, w, e);
    } else {
      EnteringTouches(p, w, e);
    }
  }

  lemma LaterStaysClosed(p: Params, w: World, e: Event)
    requires Valid(p, w.s) && Enabled(p, w, e) && w.s.lptClosed && e.NextTurn?
    ensures Segment(p, w, e).0.lptClosed
  {
    hide TablesOk, Continue;
    LaterWindow(p, Declare(p, w.s, e.rid, e.final), e.rid, NextOf(w, e.rid), e.ctx);
  }

  lemma LeavingStaysClosed(p: Params, w: World, e: Event)
    requires Valid(p, w.s) && Enabled(p, w, e) && w.s.lptClosed && (e.BatchReady? || e.BatchTimeout?)
    ensures Segment(p, w, e).0.lptClosed
  {
    hide Valid, Book, TakeResult, LeastLoaded;
    TakeWindow(p, w.s, e.rid, w.phase[e.rid].ctx);
    BookWindow(p, w.s, e.rid, LeastLoaded(p, w.s), 0, w.phase[e.rid].ctx);
  }

  // Ending the window closes it.
  lemma EndCloses(p: Params, w: World, e: Event)
    requires Valid(p, w.s) && Enabled(p, w, e) && e.WindowEnd?
    ensures Step(p, w, e).s.lptClosed
  {
    hide Step, Valid, TakeResult;
    StepIs(p, w, e);
    TakeWindow(p, CloseWindow(p, w.s), e.rid, w.phase[e.rid].ctx);
  }

  // An arrival at an open window joins it and waits.
  lemma ArrivalJoins(p: Params, w: World, e: Event)
    requires Valid(p, w.s) && Enabled(p, w, e) && e.Start? && p.lptWindow && !w.s.lptClosed
    requires !p.stagger || e.group.None?
    ensures var (r, x) := (Segment(p, w, e), Arrival(WorkOf(e.ctx, e.work), e.rid, e.ctx));
            && r.0.resident == w.s.resident && r.0.used == w.s.used && r.0.charge == w.s.charge && !r.0.lptClosed
            && r.0.lptPending == w.s.lptPending + [x] && r.0.lptOpen
            && r.1 == Await(if w.s.lptOpen then LptBatch else LptWindow)
  {
    hide Valid, LptEnter, Poll, StaggerEnter, PlaceOn, WorkOf, Declare;
    var s0 := Declare(p, w.s, e.rid, e.final);
    DeclareKeepsWindow(p, w.s, e.rid, e.final);
    JoinsOpenWindow(p, s0, e.rid, e.ctx, e.work);
  }

  lemma DeclareKeepsWindow(p: Params, s: State, rid: RequestId, final: Option<real>)
    requires Valid(p, s)
    ensures var s0 := Declare(p, s, rid, final);
            && s0.resident == s.resident && s0.used == s.used && s0.charge == s.charge
            && s0.lptPending == s.lptPending && s0.lptOpen == s.lptOpen && s0.lptClosed == s.lptClosed
  {
    hide Valid;
  }

  lemma JoinsOpenWindow(p: Params, s: State, rid: RequestId, ctx: real, work: Option<real>)
    requires Valid(p, s) && !s.lptClosed
    ensures var r := LptEnter(p, s, rid, ctx, work);
            && r.0.resident == s.resident && r.0.used == s.used && r.0.charge == s.charge && !r.0.lptClosed
            && r.0.lptPending == s.lptPending + [Arrival(WorkOf(ctx, work), rid, ctx)] && r.0.lptOpen
            && r.1 == Await(if s.lptOpen then LptBatch else LptWindow)
  {
    hide Valid, WorkOf, PlaceOn;
  }

  // Before the window closes, the only things that happen are arrivals and the end of the window.
  lemma OnlyArrivals(p: Params, w: World, e: Event)
    requires Valid(p, w.s) && Enabled(p, w, e) && AllInWindow(w) && !w.s.lptClosed && !e.BatchTimeout?
    ensures e.Start? || e.WindowEnd?
  {
    hide Valid;
    if !e.Start? {
      assert InWindow(w, e.rid);
    }
  }

  lemma StepGathers(p: Params, w: World, e: Event)
    requires BooksOk(p, w) && WindowOk(w) && Enabled(p, w, e) && Patient(p, e)
    requires p.lptWindow && Gathering(p, w)
    ensures Gathering(p, Step(p, w, e))
  {
    hide Step, Segment, Valid, PhasesMatch, Conserved, WindowOk, Enabled, NewPhase;
    if e.WindowEnd? {
      EndCloses(p, w, e);
    } else if w.s.lptClosed {
      StaysClosed(p, w, e);
    } else {
      OnlyArrivals(p, w, e);
      ArrivalGathers(p, w, e);
    }
  }

  lemma ArrivalGathers(p: Params, w: World, e: Event)
    requires Valid(p, w.s) && Enabled(p, w, e) && Patient(p, e) && e.Start?
    requires p.lptWindow && Gathering(p, w) && !w.s.lptClosed
    ensures Gathering(p, Step(p, w, e))
  {
    hide Step, Segment, Valid, Shrunk, Fed;
    StepIs(p, w, e);
    ArrivalJoins(p, w, e);
    var w' := Step(p, w, e);
    forall rid | rid in w'.phase ensures InWindow(w', rid) {
      assert rid != e.rid ==> InWindow(w, rid);
    }
  }

  ghost predicate AllPatient(p: Params, events: seq<Event>) {
    forall i :: 0 <= i < |events| ==> Patient(p, events[i])
  }

  lemma {:induction false} RunsGather(p: Params, events: seq<Event>)
    requires |p.replicas| > 0 && p.growth.priorWeight > -1.0
    requires p.lptWindow && AllPatient(p, events)
    ensures Gathering(p, Run(p, events))
  {
    hide Step, WindowOk, BooksOk, Enabled, Patient, Gathering;
    var n := |events| - 1;
    if n < 0 {
      NothingGathered(p);
    } else {
      var (w, e) := (Run(p, events[..n]), events[n]);
      RunsConserve(p, events[..n]);
      WindowsStayOk(p, events[..n]);
      RunsGather(p, events[..n]);
      if Enabled(p, w, e) {
        StepGathers(p, w, e);
      } else {
        DisabledIsIdle(p, w, e);
      }
    }
  }

  // Whatever sessions arrived in whatever order, the batch that a run closes its window over
  // starts from equal free budgets, carries all their work and loads no replica beyond
  // 4/3 - 1/(3m) of any assignment's makespan t.
  lemma BatchesAreNearOptimal(p: Params, events: seq<Event>, rid: RequestId, other: seq<Replica>, t: real, r: Replica)
    requires |p.replicas| > 0 && p.growth.priorWeight > -1.0 && Scheduling.Distinct(p.replicas)
    requires p.lptWindow && AllPatient(p, events)
    requires Enabled(p, Run(p, events), WindowEnd(rid))
    requires var works := Works(LongestFirst(Run(p, events).s.lptPending));
             |other| == |works| && Scheduling.Within(other, p.replicas) && Scheduling.Makespan(works, other, t)
    ensures var s := Run(p, events).s;
            var works := Works(LongestFirst(s.lptPending));
            && Scheduling.EqualFree(p.replicas, FreeMap(p, s))
            && (forall q :: Pending(s, q) ==> q in CloseWindow(p, s).lptResult)
            && Scheduling.SumLoads(works, BatchPlacement(p, s), p.replicas) == Scheduling.Sum(works)
            && Scheduling.WithinLptBound(|p.replicas| as real, Scheduling.Load(works, BatchPlacement(p, s), r), t)
  {
    hide Run, WindowOk, BatchPlacement, CloseWindow, FreeMap, LongestFirst, Works, Scheduling.Makespan, Scheduling.WithinLptBound, Scheduling.Load;
    var w := Run(p, events);
    WindowsStayOk(p, events);
    RunsGather(p, events);
    OpenWindow(w, rid);
    EqualWhenNothingBooked(p, w.s);
    CloseWindowPlans(p, w.s);
    BatchIsNearOptimal(p, w.s, other, t, r);
  }

  // A session that still waits for the end of the window finds it open.
  lemma OpenWindow(w: World, rid: RequestId)
    requires WindowOk(w) && WaitsOn(w, rid, LptWindow)
    ensures !w.s.lptClosed && DistinctSessions(w.s.lptPending)
  {
  }

  // ----- a group leader unbalances the batch

  // Only request 0 is booked: `lead` tokens on r, with a reserve that is not negative.
  ghost predicate OnlyLeader(p: Params, s: State, r: Replica, lead: real) {
    && r in p.replicas && s.resident == map[0 := r] && 0 in s.charge && s.charge[0] >= 0.0
    && (forall q :: q in p.replicas ==> q in s.used && s.used[q] == if q == r then lead else 0.0)
    && !s.lptClosed
  }

  lemma LeaderFree(p: Params, s: State, r: Replica, lead: real, q: Replica)
    requires Valid(p, s) && OnlyLeader(p, s, r, lead) && q in p.replicas
    ensures Free(p, s, q) == p.budget - if q == r then lead + s.charge[0] else 0.0
  {
    hide TablesOk;
    var on := On(s.resident, s.charge, q);
    if q == r {
      assert on == map[0 := s.charge[0]];
      TotalWithoutAny(on, 0);
      assert on - {0} == map[];
    } else {
      assert on == map[];
    }
  }

  lemma LeaderBooks(p: Params, e: Event) returns (r: Replica)
    requires |p.replicas| > 0 && Growth.NonNegativeConfig(p.growth) && p.stagger
    requires e.Start? && e.rid == 0 && e.group.Some? && e.ctx >= 0.0
    ensures var s := Step(p, Begin(p), e).s; OnlyLeader(p, s, r, e.ctx) && s.lptPending == [] && !s.lptOpen
    ensures Step(p, Begin(p), e).phase == map[0 := InTurn(0, false)]
  {
    hide Step, Segment, Valid, SameBooks, FinalsFollow, Charge, PhasesMatch, Conserved, LedgerLandings.Destination;
    var w := Begin(p);
    BeginIsConserved(p);
    FirstTurnEffect(p, w, e);
    StepIs(p, w, e);
    LeaderIsBooked(p, w, e);
    r := Step(p, w, e).s.resident[0];
    NothingObserved(p.growth);
    LedgerBudget.ChargeNonNegative(p, Step(p, w, e).s, [], 0, e.ctx, 0);
  }

  // An unclaimed group's first member is booked at once and does not touch the window.
  lemma LeaderIsBooked(p: Params, w: World, e: Event)
    requires Valid(p, w.s) && Enabled(p, w, e) && e.Start? && p.stagger && e.group.Some? && e.group.value !in w.s.claimed
    ensures !Segment(p, w, e).1.Await? && SameWindow(w.s, Segment(p, w, e).0)
  {
    hide Valid, Segment, SameWindow;
    LeaderGoes(p, w, e);
    StartWindow(p, w, e);
  }

  lemma LeaderGoes(p: Params, w: World, e: Event)
    requires Valid(p, w.s) && Enabled(p, w, e) && e.Start? && p.stagger && e.group.Some? && e.group.value !in w.s.claimed
    ensures !Segment(p, w, e).1.Await?
  {
    hide Valid, Segment, LeastLoaded;
    LedgerLandings.FirstTurnGoes(p, w, e);
  }

  // One more session joins the window behind the leader.
  lemma BehindLeader(p: Params, w: World, e: Event, r: Replica, lead: real)
    requires Valid(p, w.s) && Enabled(p, w, e) && e.Start? && e.group.None? && p.lptWindow && OnlyLeader(p, w.s, r, lead)
    ensures var w' := Step(p, w, e);
            && OnlyLeader(p, w'.s, r, lead) && w'.s.lptOpen
            && w'.s.lptPending == w.s.lptPending + [Arrival(WorkOf(e.ctx, e.work), e.rid, e.ctx)]
            && w'.phase == w.phase[e.rid := Waiting(if w.s.lptOpen then LptBatch else LptWindow, e.ctx, e.work)]
  {
    hide Step, Segment, Valid, Shrunk, Fed;
    StepIs(p, w, e);
    ArrivalJoins(p, w, e);
  }

  lemma TwoAlikeSorted(x: Arrival, y: Arrival)
    requires x.work == y.work
    ensures |LongestFirst([x, y])| == 2 && Works(LongestFirst([x, y])) == [x.work, x.work]
  {
    assert [x, y][..1] == [x] && [x][..0] == [];
    assert LongestFirst([x]) == Insert(x, []) == [x];
    assert Insert(y, []) == [y];
    var batch := LongestFirst([x, y]);
    assert batch == if Sooner(y, x) then [y, x] else [x, y];
    assert forall i :: 0 <= i < 2 ==> Works(batch)[i] == x.work;
  }

  // A group leader of `lead` tokens, then two sessions of less work, on two replicas: the window
  // closes over unequal free budgets, and its batch puts more on one replica than the 4/3 - 1/(3m)
  // bound allows against one session on each.
  lemma LeaderUnbalancesBatch(p: Params, g: GroupKey, lead: real, w: real) returns (r: Replica)
    requires |p.replicas| == 2 && Scheduling.Distinct(p.replicas) && Growth.NonNegativeConfig(p.growth)
    requires p.lptWindow && p.stagger && 0.0 < w < lead
    ensures var events := [Start(0, lead, None, None, Some(g), false), Start(1, w, None, None, None, false),
                           Start(2, w, None, None, None, false)];
            var s := Run(p, events).s;
            && Enabled(p, Run(p, events), WindowEnd(1))
            && !Scheduling.EqualFree(p.replicas, FreeMap(p, s))
            && Works(LongestFirst(s.lptPending)) == [w, w]
            && Scheduling.Makespan([w, w], p.replicas, w)
            && !Scheduling.WithinLptBound(2.0, Scheduling.Load([w, w], BatchPlacement(p, s), r), w)
  {
    hide Step, Run, Segment, Free, LongestFirst, Works, Scheduling.Makespan, Scheduling.Load,
         Scheduling.WithinLptBound, Scheduling.Greedy, Begin;
    var (a, b, c) := (Start(0, lead, None, None, Some(g), false), Start(1, w, None, None, None, false),
                      Start(2, w, None, None, None, false));
    RunOne(p, a);
    var first := LeaderBooks(p, a);
    RunSnoc(p, [a], b);
    BehindLeader(p, Run(p, [a]), b, first, lead);
    RunSnoc(p, [a, b], c);
    assert [a] + [b] == [a, b] && [a, b] + [c] == [a, b, c];
    BehindLeader(p, Run(p, [a, b]), c, first, lead);
    var s := Run(p, [a, b, c]).s;
    assert s.lptPending == [Arrival(w, 1, w), Arrival(w, 2, w)];
    TwoAlikeSorted(Arrival(w, 1, w), Arrival(w, 2, w));
    r := LeaderSkews(p, s, first, lead, w);
  }

  lemma LeaderSkews(p: Params, s: State, first: Replica, lead: real, w: real) returns (r: Replica)
    requires Valid(p, s) && |p.replicas| == 2 && Scheduling.Distinct(p.replicas)
    requires OnlyLeader(p, s, first, lead) && 0.0 < w < lead
    requires Works(LongestFirst(s.lptPending)) == [w, w]
    ensures !Scheduling.EqualFree(p.replicas, FreeMap(p, s))
    ensures Scheduling.Makespan([w, w], p.replicas, w)
    ensures !Scheduling.WithinLptBound(2.0, Scheduling.Load([w, w], BatchPlacement(p, s), r), w)
  {
    hide TablesOk, Free, LongestFirst, Works, Scheduling.Makespan, Scheduling.Load, Scheduling.WithinLptBound, Scheduling.Greedy;
    var other := if p.replicas[0] == first then p.replicas[1] else p.replicas[0];
    LeaderFree(p, s, first, lead, first);
    LeaderFree(p, s, first, lead, other);
    var free := FreeMap(p, s);
    assert free[other] - free[first] == lead + s.charge[0];
    assert 1 as real * w == w;
    r := Budgets.SmallJobsMiss(p.replicas, free, [w, w], w, first, other);
  }
}
