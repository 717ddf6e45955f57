// When the token budget holds on every replica, over every run.

module LedgerBudget {
  import opened Text
  import opened Totals
  import Growth
  import opened Ledger
  import opened LedgerRuns

  // The booking of this step has room where it lands: a first turn found a replica with its
  // context free; a later turn fits in place or moves, and does not overshoot; a measurement is
  // no larger than what was booked.
  ghost predicate HasRoom(p: Params, w: World, e: Event)
    requires Valid(p, w.s) && Enabled(p, w, e)
  {
    match e
    case Completed(_) => true
    case Measured(rid, ctx) => ctx <= Newest(w.s, rid)
    case NextTurn(rid, ctx, final) =>
      var (s0, turn) := (Declare(p, w.s, rid, final), NextOf(w, rid));
      if rid in w.s.resident then FitsInPlace(p, s0, rid, turn, ctx) || Moves(p, s0, rid, turn, ctx)
      else Free(p, s0, LeastLoaded(p, s0)) >= ctx
    case _ =>
      var (s, o) := Segment(p, w, e);
      o.Await? || (e.rid in s.resident && s.resident[e.rid] in w.s.used
                   && Free(p, w.s, s.resident[e.rid]) >= FirstContext(w, e))
  }

  // Contexts never shrink within a trajectory: neither at the next turn nor when measured.
  ghost predicate Grows(w: World, e: Event) {
    && (e.NextTurn? && e.rid in w.s.resident ==> e.ctx >= Newest(w.s, e.rid))
    && (e.Measured? ==>
          forall u :: u in Turns(w.s, e.rid) && u < TurnNow(w, e.rid) ==> Turns(w.s, e.rid)[u] <= e.ctx)
  }

  ghost predicate AllSteps(p: Params, events: seq<Event>)
    requires |p.replicas| > 0 && p.growth.priorWeight > -1.0
  {
    var n := |events| - 1;
    n < 0 || (AllSteps(p, events[..n]) && GoodStep(p, Run(p, events[..n]), events[n]))
  }

  ghost predicate GoodStep(p: Params, w: World, e: Event)
    requires Valid(p, w.s)
  {
    Enabled(p, w, e) ==> HasRoom(p, w, e) && Grows(w, e)
  }

  // ----- histories never decrease

  ghost predicate Monotone(turns: map<nat, real>) {
    forall i, j :: i in turns && j in turns && i <= j ==> turns[i] <= turns[j]
  }

  ghost predicate HistoriesGrow(s: State) {
    forall rid :: rid in s.history ==> Monotone(s.history[rid])
  }

  ghost predicate ChargesOk(s: State) {
    forall rid :: rid in s.charge ==> s.charge[rid] >= 0.0
  }

  ghost predicate Learned(p: Params, w: World) {
    Growth.Summarizes(p.growth, w.s.tables, w.fed) && Growth.NonNegativeGrowth(w.fed)
  }

  ghost predicate WithinBudget(p: Params, s: State)
    requires Valid(p, s)
  {
    forall r :: r in p.replicas ==> s.used[r] <= p.budget
  }

  ghost predicate Safe(p: Params, w: World) {
    BooksOk(p, w) && HistoriesGrow(w.s) && ChargesOk(w.s) && Learned(p, w) && WithinBudget(p, w.s)
  }

  lemma ReserveNonNegative(s: State, r: Replica)
    requires ChargesOk(s)
    ensures Reserve(s, r) >= 0.0
  {
    TotalNonNegative(On(s.resident, s.charge, r));
  }

  lemma ChargeNonNegative(p: Params, s: State, fed: seq<Growth.Observation>, rid: RequestId, ctx: real, turn: nat)
    requires Valid(p, s) && Growth.NonNegativeConfig(p.growth)
    requires Growth.Summarizes(p.growth, s.tables, fed) && Growth.NonNegativeGrowth(fed)
    ensures Charge(p, s, rid, ctx, turn) >= 0.0
  {
    hide Growth.Estimate, Growth.Summarizes, Growth.KeyOf, Growth.NonNegativeConfig;
    Growth.EstimateNonNegative(p.growth, s.tables, fed, Growth.KeyOf(p.growth, ctx, turn));
  }

  lemma BookedKeepsCharges(p: Params, w: World, s': State, rid: RequestId, turn: nat, ctx: real)
    requires Valid(p, s') && Growth.NonNegativeConfig(p.growth)
    requires ChargesOk(w.s) && Learned(p, w)
    requires BookedTurn(p, w.s, s', rid, turn, ctx)
    ensures ChargesOk(s')
  {
    hide Charge, Growth.NonNegativeConfig, Growth.Summarizes, Growth.NonNegativeGrowth, Valid;
    ChargeNonNegative(p, s', w.fed, rid, ctx, turn);
  }

  lemma BookedKeepsGrowth(p: Params, s: State, s': State, rid: RequestId, turn: nat, ctx: real)
    requires Valid(p, s') && HistoriesGrow(s)
    requires BookedTurn(p, s, s', rid, turn, ctx)
    requires forall u :: u in Turns(s, rid) ==> u <= turn && (u < turn ==> Turns(s, rid)[u] <= ctx)
    ensures HistoriesGrow(s')
  {
    hide Charge, Valid;
    forall q | q in s'.history ensures Monotone(s'.history[q]) {
      if q == rid {
        assert Monotone(Turns(s, rid));
      } else {
        assert q in s.history;
      }
    }
  }

  // ----- what each step does to the used tokens

  lemma RoomKeepsBudget(p: Params, s: State, r: Replica, added: real)
    requires Valid(p, s) && ChargesOk(s) && r in p.replicas
    requires Free(p, s, r) >= added
    ensures s.used[r] + added <= p.budget
  {
    ReserveNonNegative(s, r);
  }

  lemma FirstTurnWithin(p: Params, w: World, e: Event)
    requires Safe(p, w) && Enabled(p, w, e) && FirstTurn(e) && HasRoom(p, w, e)
    ensures WithinBudget(p, Step(p, w, e).s)
  {
    hide Step, Segment, Charge, Learned, HistoriesGrow, PhasesMatch, Conserved, TablesOk, Free, NewPhase, Shrunk, Fed, ChargesOk;
    FirstTurnEffect(p, w, e);
    StepIs(p, w, e);
    if !Segment(p, w, e).1.Await? {
      RoomKeepsBudget(p, w.s, Step(p, w, e).s.resident[e.rid], FirstContext(w, e));
    }
  }

  lemma LaterWithin(p: Params, w: World, e: Event)
    requires Safe(p, w) && Enabled(p, w, e) && e.NextTurn? && HasRoom(p, w, e) && p.budget >= 0.0
    ensures WithinBudget(p, Step(p, w, e).s)
  {
    hide Step, Charge, Learned, HistoriesGrow, Continue, Valid, FitsInPlace, Moves, BookedTurn, ChargesOk, Conserved, TurnsUpTo, PhasesMatch, WithinBudget, Free;
    var (rid, turn) := (e.rid, NextOf(w, e.rid));
    LaterEffect(p, w, e);
    var (w', s0) := (Step(p, w, e), Declare(p, w.s, rid, e.final));
    DeclareKeepsFree(p, w.s, rid, e.final);
    DeclareKeepsCharges(p, w.s, rid, e.final);
    DeclareKeepsWithin(p, w.s, rid, e.final);
    if rid in w.s.resident {
      LaterFinds(p, w, e);
    }
    ContinueWithin(p, s0, rid, turn, e.ctx);
  }

  lemma DeclareKeepsWithin(p: Params, s: State, rid: RequestId, final: Option<real>)
    requires Valid(p, s) && WithinBudget(p, s)
    ensures WithinBudget(p, Declare(p, s, rid, final))
  {
  }

  // A later turn with room where it lands keeps every replica within the budget.
  lemma ContinueWithin(p: Params, s: State, rid: RequestId, turn: nat, ctx: real)
    requires Valid(p, s) && ChargesOk(s) && WithinBudget(p, s) && p.budget >= 0.0 && turn > 0
    requires rid in s.resident ==> HoldsNewest(s, rid, turn - 1)
    requires if rid in s.resident then FitsInPlace(p, s, rid, turn, ctx) || Moves(p, s, rid, turn, ctx)
             else Free(p, s, LeastLoaded(p, s)) >= ctx
    ensures WithinBudget(p, Continue(p, s, rid, turn, ctx).0)
  {
    hide Charge, Free, Continue, Reserve, Valid, FitsInPlace, Moves, ChargesOk, Added, NewestOf, WithinBudget;
    var s' := Continue(p, s, rid, turn, ctx).0;
    LaterBooking(p, s, rid, turn, ctx);
    var dest := s'.resident[rid];
    if rid !in s.resident {
      FreshAdds(s, s, rid, dest, turn, ctx);
      FreshGoesToLeastLoaded(p, s, rid, turn, ctx);
      RoomKeepsBudget(p, s, dest, ctx);
      OneMoreWithin(p, s, s', s.used, dest, ctx);
    } else if Moves(p, s, rid, turn, ctx) {
      MovedAdds(s, rid, dest, turn, ctx);
      MovesWithRoom(p, s, rid, turn, ctx);
      RoomKeepsBudget(p, s, dest, ctx);
      var here := s.resident[rid];
      OneMoreWithin(p, s, s', s.used[here := Max(0.0, s.used[here] - Turns(s, rid)[turn - 1])], dest, ctx);
    } else {
      StayedAdds(s, rid, turn, ctx);
      FitsMeansRoom(p, s, rid, turn, ctx);
      RoomKeepsBudget(p, s, dest, Max(0.0, ctx - Turns(s, rid)[turn - 1]));
      OneMoreWithin(p, s, s', s.used, dest, Max(0.0, ctx - Turns(s, rid)[turn - 1]));
    }
  }

  lemma OneMoreWithin(p: Params, s: State, s': State, used: map<Replica, real>, dest: Replica, added: real)
    requires Valid(p, s) && Valid(p, s') && WithinBudget(p, s) && dest in p.replicas && dest in used && dest in s.used
    requires s'.used == used[dest := used[dest] + added]
    requires forall r :: r in s.used && r != dest ==> r in used && used[r] <= Max(p.budget, s.used[r])
    requires used[dest] + added <= p.budget
    ensures WithinBudget(p, s')
  {
  }

  lemma DeclareKeepsFree(p: Params, s: State, rid: RequestId, final: Option<real>)
    requires Valid(p, s)
    ensures var s0 := Declare(p, s, rid, final);
            Valid(p, s0) && s0.used == s.used && s0.resident == s.resident && s0.history == s.history && s0.charge == s.charge
  {
  }

  lemma DeclareKeepsCharges(p: Params, s: State, rid: RequestId, final: Option<real>)
    requires Valid(p, s) && ChargesOk(s)
    ensures ChargesOk(Declare(p, s, rid, final))
  {
  }

  lemma FreshGoesToLeastLoaded(p: Params, s: State, rid: RequestId, turn: nat, ctx: real)
    requires Valid(p, s) && turn > 0 && rid !in s.resident
    ensures var s' := Continue(p, s, rid, turn, ctx).0;
            rid in s'.resident && s'.resident[rid] == LeastLoaded(p, s)
  {
    hide Valid, Charge, Free, LeastLoaded;
  }

  lemma MovesWithRoom(p: Params, s: State, rid: RequestId, turn: nat, ctx: real)
    requires Valid(p, s) && turn > 0 && rid in s.resident && Moves(p, s, rid, turn, ctx)
    ensures var s' := Continue(p, s, rid, turn, ctx).0;
            rid in s'.resident && s'.resident[rid] in p.replicas && Free(p, s, s'.resident[rid]) >= ctx
  {
    hide Charge, Free, FitsInPlace, TablesOk;
  }

  lemma FitsMeansRoom(p: Params, s: State, rid: RequestId, turn: nat, ctx: real)
    requires Valid(p, s) && turn > 0 && rid in s.resident && FitsInPlace(p, s, rid, turn, ctx)
    requires turn - 1 in Turns(s, rid)
    ensures Free(p, s, s.resident[rid]) >= Max(0.0, ctx - Turns(s, rid)[turn - 1])
  {
    hide Free;
  }

  lemma MeasuredWithin(p: Params, w: World, e: Event)
    requires Safe(p, w) && Enabled(p, w, e) && e.Measured? && HasRoom(p, w, e)
    ensures WithinBudget(p, Step(p, w, e).s)
  {
    hide Step, Charge, Learned, HistoriesGrow, Free, TablesOk, BookedTurn, ChargesOk, Conserved, NewestOf, LastTurn;
    MeasuredEffect(p, w, e);
    HasTurns(w, e.rid);
    ResidesInFleet(p, w.s, e.rid);
  }

  lemma CompletedWithin(p: Params, w: World, e: Event)
    requires Safe(p, w) && Enabled(p, w, e) && e.Completed? && p.budget >= 0.0
    ensures WithinBudget(p, Step(p, w, e).s)
  {
    hide Step, Charge, Learned, HistoriesGrow, Free, TablesOk, ChargesOk, Conserved, NewestOf, LastTurn, ObserveAll, FinalObservations;
    CompletedEffect(p, w, e);
    UsedCovers(p, w, e.rid);
  }

  // ----- every good step is safe

  lemma {:induction false} RemainingIsNonNegative(cfg: Growth.Config, turns: map<nat, real>, final: real, n: nat)
    requires forall u :: u in turns ==> turns[u] <= final
    ensures Growth.NonNegativeGrowth(Remaining(cfg, turns, final, n))
  {
    if n > 0 {
      RemainingIsNonNegative(cfg, turns, final, n - 1);
    }
  }

  lemma CompletedLearns(p: Params, w: World, e: Event)
    requires Safe(p, w) && Enabled(p, w, e) && e.Completed? && p.growth.priorWeight > -1.0
    ensures Learned(p, Step(p, w, e))
  {
    hide Step, ObserveAll, Growth.Summarizes, Growth.NonNegativeGrowth, WithinBudget, HistoriesGrow, ChargesOk, PhasesMatch, Conserved, NewestOf, LastTurn, FinalObservations, TablesOk;
    CompletedEffect(p, w, e);
    StepKeepsSummary(p, w, e);
    NewestIsLargest(w, e.rid);
    FinalGrowthIsNonNegative(p, w.fed, w.s.history[e.rid]);
  }

  lemma FinalGrowthIsNonNegative(p: Params, fed: seq<Growth.Observation>, turns: map<nat, real>)
    requires |turns| > 0 && forall u :: u in turns ==> turns[u] <= NewestOf(turns)
    requires Growth.NonNegativeGrowth(fed)
    ensures Growth.NonNegativeGrowth(fed + FinalObservations(p, turns))
  {
    hide Remaining, NewestOf, LastTurn;
    RemainingIsNonNegative(p.growth, turns, NewestOf(turns), LastTurn(turns) + 1);
  }

  lemma NewestIsLargest(w: World, rid: RequestId)
    requires PhasesMatch(w) && HistoriesGrow(w.s) && rid in w.s.history && rid in w.s.resident
    ensures forall u :: u in w.s.history[rid] ==> w.s.history[rid][u] <= NewestOf(w.s.history[rid])
  {
    hide NewestOf, LastTurn;
    HasTurns(w, rid);
    assert PhaseMatches(w, rid) && Monotone(w.s.history[rid]);
  }

  lemma GoodStepKeepsGrowth(p: Params, w: World, e: Event)
    requires Safe(p, w) && Enabled(p, w, e) && Grows(w, e)
    ensures HistoriesGrow(Step(p, w, e).s)
  {
    hide Step, Segment, Charge, Free, TablesOk, ChargesOk, Conserved, NewestOf, LastTurn, ObserveAll, FinalObservations, WithinBudget, Learned;
    var s' := Step(p, w, e).s;
    assert PhaseMatches(w, e.rid);
    if e.NextTurn? {
      LaterEffect(p, w, e);
      LaterGrows(p, w, e);
      BookedKeepsGrowth(p, w.s, s', e.rid, NextOf(w, e.rid), e.ctx);
    } else if e.Measured? {
      MeasuredEffect(p, w, e);
      BookedKeepsGrowth(p, w.s, s', e.rid, TurnNow(w, e.rid), e.ctx);
    } else if e.Completed? {
      CompletedEffect(p, w, e);
    } else {
      FirstTurnEffect(p, w, e);
      if !Segment(p, w, e).1.Await? {
        BookedKeepsGrowth(p, w.s, s', e.rid, 0, FirstContext(w, e));
      }
    }
  }

  lemma LaterGrows(p: Params, w: World, e: Event)
    requires Safe(p, w) && Enabled(p, w, e) && Grows(w, e) && e.NextTurn?
    ensures forall u :: u in Turns(w.s, e.rid) ==> u <= NextOf(w, e.rid) && Turns(w.s, e.rid)[u] <= e.ctx
  {
    hide Charge, Free, TablesOk, ChargesOk, Conserved, NewestOf, LastTurn, WithinBudget, Learned;
    assert PhaseMatches(w, e.rid);
    if e.rid in w.s.resident {
      HasTurns(w, e.rid);
      assert Monotone(w.s.history[e.rid]);
    }
  }

  lemma GoodStepKeepsCharges(p: Params, w: World, e: Event)
    requires Safe(p, w) && Enabled(p, w, e) && Growth.NonNegativeConfig(p.growth)
    ensures ChargesOk(Step(p, w, e).s)
    ensures !e.Completed? ==> Learned(p, Step(p, w, e))
  {
    hide Step, Segment, Charge, Free, Valid, Conserved, NewestOf, LastTurn, ObserveAll, FinalObservations, WithinBudget, HistoriesGrow, Growth.Summarizes, Growth.NonNegativeConfig, PhasesMatch;
    var s' := Step(p, w, e).s;
    if e.NextTurn? {
      LaterEffect(p, w, e);
      BookedKeepsCharges(p, w, s', e.rid, NextOf(w, e.rid), e.ctx);
    } else if e.Measured? {
      MeasuredEffect(p, w, e);
      BookedKeepsCharges(p, w, s', e.rid, TurnNow(w, e.rid), e.ctx);
    } else if e.Completed? {
      CompletedEffect(p, w, e);
    } else {
      FirstTurnEffect(p, w, e);
      if !Segment(p, w, e).1.Await? {
        BookedKeepsCharges(p, w, s', e.rid, 0, FirstContext(w, e));
      }
    }
  }

  lemma GoodStepIsSafe(p: Params, w: World, e: Event)
    requires Safe(p, w) && GoodStep(p, w, e)
    requires Growth.NonNegativeConfig(p.growth) && p.budget >= 0.0
    ensures Safe(p, Step(p, w, e))
  {
    hide BooksOk, HistoriesGrow, ChargesOk, Learned, WithinBudget, Segment;
    StepKeepsBooks(p, w, e);
    if Enabled(p, w, e) {
      hide Enabled, HasRoom, Step;
      GoodStepKeepsGrowth(p, w, e);
      GoodStepKeepsCharges(p, w, e);
      if e.NextTurn? {
        LaterWithin(p, w, e);
      } else if e.Measured? {
        MeasuredWithin(p, w, e);
      } else if e.Completed? {
        CompletedWithin(p, w, e);
        CompletedLearns(p, w, e);
      } else {
        FirstTurnWithin(p, w, e);
      }
    }
  }

  // Check-then-book is one segment, so no interleaving breaks the gate: as long as every booking
  // has room where it lands and contexts do not shrink, no replica ever exceeds its budget.
  lemma {:induction false} BudgetHolds(p: Params, events: seq<Event>)
    requires |p.replicas| > 0 && p.budget >= 0.0 && Growth.NonNegativeConfig(p.growth)
    requires AllSteps(p, events)
    ensures Safe(p, Run(p, events))
    ensures forall r :: r in p.replicas ==> r in Run(p, events).s.used && Run(p, events).s.used[r] <= p.budget
  {
    hide Step, Learned, HistoriesGrow, ChargesOk, BooksOk, GoodStep;
    if |events| == 0 {
      BeginIsSafe(p);
    } else {
      var n := |events| - 1;
      BudgetHolds(p, events[..n]);
      GoodStepIsSafe(p, Run(p, events[..n]), events[n]);
    }
    RunIsValid(p, events);
  }

  lemma RunIsValid(p: Params, events: seq<Event>)
    requires |p.replicas| > 0 && p.growth.priorWeight > -1.0
    ensures Valid(p, Run(p, events).s)
    ensures forall r :: r in p.replicas ==> r in Run(p, events).s.used
  {
    hide Run;
  }

  lemma BeginIsSafe(p: Params)
    requires |p.replicas| > 0 && p.budget >= 0.0 && p.growth.priorWeight > -1.0
    ensures Safe(p, Begin(p))
  {
    hide Growth.Summarizes;
    BeginIsConserved(p);
    NothingObserved(p.growth);
  }

  // ----- the shipped gate, with the features that skip it turned off

  predicate Plain(p: Params) {
    p.wave1 <= 0 && !p.lptWindow && !p.stagger
  }

  // No admission was forced by its deadline, no turn overshot or returned after completion, and
  // no turn measured larger than it was booked.
  ghost predicate Disciplined(p: Params, w: World, e: Event)
    requires Valid(p, w.s) && Enabled(p, w, e)
  {
    && ((e.Start? || e.PollAgain?) ==> !e.expired)
    && (e.NextTurn? ==>
          && e.rid in w.s.resident
          && var (s0, turn) := (Declare(p, w.s, e.rid, e.final), NextOf(w, e.rid));
             FitsInPlace(p, s0, e.rid, turn, e.ctx) || Moves(p, s0, e.rid, turn, e.ctx))
    && (e.Measured? ==> e.ctx <= Newest(w.s, e.rid))
    && Grows(w, e)
  }

  ghost predicate AllDisciplined(p: Params, events: seq<Event>)
    requires |p.replicas| > 0 && p.growth.priorWeight > -1.0
  {
    var n := |events| - 1;
    n < 0 || (AllDisciplined(p, events[..n])
              && (Enabled(p, Run(p, events[..n]), events[n]) ==> Disciplined(p, Run(p, events[..n]), events[n])))
  }

  ghost predicate OnlyHeadroom(w: World) {
    forall rid :: rid in w.phase && w.phase[rid].Waiting? ==> w.phase[rid].on == Headroom
  }

  lemma PollHasRoom(p: Params, s: State, s1: State, rid: RequestId, ctx: real)
    requires Valid(p, s) && Valid(p, s1) && SameTokens(s, s1)
    ensures var (s', o) := Poll(p, s1, rid, ctx, false);
            || o == Await(Headroom)
            || (o.Placed? && rid in s'.resident && s'.resident[rid] in s.used && Free(p, s, s'.resident[rid]) >= ctx)
  {
    hide TablesOk, Charge, Added;
    assert forall r :: Reserve(s, r) == Reserve(s1, r);
  }

  ghost predicate SameTokens(s: State, s1: State) {
    s1.used == s.used && s1.resident == s.resident && s1.charge == s.charge
  }

  lemma PlainFirstTurnHasRoom(p: Params, w: World, e: Event)
    requires Plain(p) && Valid(p, w.s) && OnlyHeadroom(w) && Enabled(p, w, e) && FirstTurn(e)
    requires Disciplined(p, w, e)
    ensures HasRoom(p, w, e)
    ensures Segment(p, w, e).1.Await? ==> Segment(p, w, e).1.on == Headroom
  {
    hide TablesOk, Book, Free, Poll, LeastLoaded;
    if e.Start? {
      var s0 := Declare(p, w.s, e.rid, e.final);
      PollHasRoom(p, w.s, Admit(p, s0), e.rid, e.ctx);
    } else {
      assert w.phase[e.rid].on == Headroom;
      PollHasRoom(p, w.s, w.s, e.rid, w.phase[e.rid].ctx);
    }
  }

  lemma PhaseKeepsHeadroom(w: World, w': World, rid: RequestId, ph: Phase)
    requires OnlyHeadroom(w) && w'.phase == w.phase[rid := ph]
    requires ph.Waiting? ==> ph.on == Headroom
    ensures OnlyHeadroom(w')
  {
  }

  lemma PlainFirstStep(p: Params, w: World, e: Event)
    requires Plain(p) && BooksOk(p, w) && OnlyHeadroom(w) && Enabled(p, w, e) && FirstTurn(e) && Disciplined(p, w, e)
    ensures HasRoom(p, w, e) && OnlyHeadroom(Step(p, w, e))
  {
    hide Step, Segment, Valid, PhasesMatch, Conserved, FinalsFollow, BookedTurn, SameBooks, Disciplined, HasRoom, Enabled, OnlyHeadroom;
    var w' := Step(p, w, e);
    PlainFirstTurnHasRoom(p, w, e);
    FirstTurnEffect(p, w, e);
    assert e.rid in w'.phase && w'.phase == w.phase[e.rid := w'.phase[e.rid]];
    PhaseKeepsHeadroom(w, w', e.rid, w'.phase[e.rid]);
  }

  lemma PlainLaterStep(p: Params, w: World, e: Event)
    requires BooksOk(p, w) && OnlyHeadroom(w) && Enabled(p, w, e) && !FirstTurn(e)
    ensures OnlyHeadroom(Step(p, w, e))
  {
    hide Step, Segment, Valid, PhasesMatch, Conserved, FinalsFollow, BookedTurn, Enabled, OnlyHeadroom, Continue, ObserveAll, FinalObservations;
    var w' := Step(p, w, e);
    if e.NextTurn? {
      LaterEffect(p, w, e);
    } else if e.Measured? {
      MeasuredEffect(p, w, e);
    } else {
      CompletedEffect(p, w, e);
    }
    PhaseKeepsHeadroom(w, w', e.rid, w'.phase[e.rid]);
  }

  lemma PlainStep(p: Params, w: World, e: Event)
    requires Plain(p) && BooksOk(p, w) && OnlyHeadroom(w) && Enabled(p, w, e) && Disciplined(p, w, e)
    ensures GoodStep(p, w, e) && OnlyHeadroom(Step(p, w, e))
  {
    if FirstTurn(e) {
      hide Step, Segment, BooksOk, OnlyHeadroom, HasRoom, Enabled;
      PlainFirstStep(p, w, e);
    } else {
      hide Step, Segment, BooksOk, OnlyHeadroom, Moves, FitsInPlace, Free;
      PlainLaterStep(p, w, e);
    }
  }

  // With the plain gate, disciplined runs never push a replica over its budget.
  lemma {:induction false} PlainRunsStayWithinBudget(p: Params, events: seq<Event>)
    requires |p.replicas| > 0 && p.budget >= 0.0 && Growth.NonNegativeConfig(p.growth) && Plain(p)
    requires AllDisciplined(p, events)
    ensures AllSteps(p, events) && OnlyHeadroom(Run(p, events))
    ensures forall r :: r in p.replicas ==> r in Run(p, events).s.used && Run(p, events).s.used[r] <= p.budget
  {
    hide Step, Enabled, Disciplined, BooksOk, GoodStep, OnlyHeadroom, Safe;
    if |events| == 0 {
      BeginWaitsOnNothing(p);
    } else {
      var n := |events| - 1;
      var w := Run(p, events[..n]);
      PlainRunsStayWithinBudget(p, events[..n]);
      RunsConserve(p, events[..n]);
      if Enabled(p, w, events[n]) {
        PlainStep(p, w, events[n]);
      } else {
        DisabledIsGood(p, w, events[n]);
      }
    }
    BudgetHolds(p, events);
  }

  lemma BeginWaitsOnNothing(p: Params)
    ensures OnlyHeadroom(Begin(p))
  {
  }

  lemma DisabledIsGood(p: Params, w: World, e: Event)
    requires Valid(p, w.s) && !Enabled(p, w, e)
    ensures GoodStep(p, w, e) && Step(p, w, e) == w
  {
    hide Enabled;
    DisabledIsIdle(p, w, e);
  }
}
