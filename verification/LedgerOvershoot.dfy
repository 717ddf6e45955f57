// Where the budget stops being a bound: the bookings made without the gate, and short runs that
// exceed the budget.

module LedgerOvershoot {
  import opened Text
  import opened Totals
  import opened Ledger
  import opened LedgerRuns
  import opened LedgerBudget
  import opened LedgerLandings
  import LedgerBatches

  // ----- bookings that look at no budget

  // The step books the emptiest replica whether or not it has room: a group leader, a session that
  // meets a closed window or leaves an open one, one of the first wave, one out of time, and a
  // turn that returns after its request completed.
  ghost predicate SkipsGate(p: Params, w: World, e: Event)
    requires Valid(p, w.s) && Enabled(p, w, e)
  {
    match e
    case Start(_, _, _, _, group, expired) =>
      if p.stagger && group.Some? then group.value !in w.s.claimed
      else if p.lptWindow then w.s.lptClosed
      else w.s.admitted < p.wave1 || expired
    case LeaderTimeout(_, expired) => if p.lptWindow then w.s.lptClosed else w.s.admitted < p.wave1 || expired
    case PollAgain(_, expired) => expired
    case BatchTimeout(_) => true
    case NextTurn(rid, _, _) => rid !in w.s.resident
    case _ => false
  }

  // Such a booking leaves the budget exactly when its context exceeds what the emptiest replica
  // has unused.
  lemma UngatedOvershootsExactlyWhen(p: Params, events: seq<Event>, e: Event)
    requires |p.replicas| > 0 && p.growth.priorWeight > -1.0
    requires var w := Run(p, events); Enabled(p, w, e) && SkipsGate(p, w, e) && WithinBudget(p, w.s)
    ensures var (w, w') := (Run(p, events), Run(p, events + [e]));
            && LeastLoaded(p, w.s) in w.s.used
            && (WithinBudget(p, w'.s)
                <==> (if e.NextTurn? then e.ctx else FirstContext(w, e)) <= p.budget - w.s.used[LeastLoaded(p, w.s)])
  {
    hide Run, Step, Enabled, LeastLoaded, WithinBudget, SkipsGate, Destination, TokensAdded;
    StepOvershootsExactlyWhen(p, events, e);
    SkippingGoesToLeast(p, Run(p, events), e);
  }

  lemma SkippingGoesToLeast(p: Params, w: World, e: Event)
    requires Valid(p, w.s) && Enabled(p, w, e) && SkipsGate(p, w, e)
    ensures Destination(p, w, e) == Some(LeastLoaded(p, w.s))
    ensures TokensAdded(p, w, e) == if e.NextTurn? then e.ctx else FirstContext(w, e)
  {
    hide Valid, LeastLoaded, Free, FollowerDestination, Moves;
  }

  // A later turn that stays leaves the budget exactly when its growth exceeds what its replica has
  // unused.
  lemma StayingOvershootsExactlyWhen(p: Params, events: seq<Event>, e: Event)
    requires |p.replicas| > 0 && p.growth.priorWeight > -1.0
    requires var w := Run(p, events);
             && Enabled(p, w, e) && e.NextTurn? && e.rid in w.s.resident && WithinBudget(p, w.s)
             && !Moves(p, Declare(p, w.s, e.rid, e.final), e.rid, NextOf(w, e.rid), e.ctx)
    ensures var (w, w') := (Run(p, events), Run(p, events + [e]));
            && w.s.resident[e.rid] in w.s.used
            && (WithinBudget(p, w'.s)
                <==> Max(0.0, e.ctx - Newest(w.s, e.rid)) <= p.budget - w.s.used[w.s.resident[e.rid]])
  {
    hide Run, Step, Enabled, Moves, WithinBudget, Newest, Valid, Declare, Destination, TokensAdded;
    StepOvershootsExactlyWhen(p, events, e);
    StayingGoesHome(p, Run(p, events), e);
  }

  lemma StayingGoesHome(p: Params, w: World, e: Event)
    requires Valid(p, w.s) && Enabled(p, w, e) && e.NextTurn? && e.rid in w.s.resident
    requires !Moves(p, Declare(p, w.s, e.rid, e.final), e.rid, NextOf(w, e.rid), e.ctx)
    ensures Destination(p, w, e) == Some(w.s.resident[e.rid])
    ensures TokensAdded(p, w, e) == Max(0.0, e.ctx - Newest(w.s, e.rid))
  {
    hide Valid, Moves, Declare, Newest;
    MovesIgnoresFinals(p, w.s, e.rid, e.final, NextOf(w, e.rid), e.ctx);
  }

  // ----- short runs that exceed the budget

  // With one replica, a first turn that does not wait is booked there.
  lemma OnlyReplicaTakes(p: Params, w: World, e: Event)
    requires |p.replicas| == 1 && BooksOk(p, w) && Enabled(p, w, e) && FirstTurn(e)
    requires !Segment(p, w, e).1.Await?
    ensures p.replicas[0] in w.s.used && p.replicas[0] in Step(p, w, e).s.used
    ensures Step(p, w, e).s.used[p.replicas[0]] == w.s.used[p.replicas[0]] + FirstContext(w, e)
    ensures Step(p, w, e).phase == w.phase[e.rid := InTurn(0, false)]
    ensures Step(p, w, e).s.resident == w.s.resident[e.rid := p.replicas[0]]
    ensures Step(p, w, e).s.history == w.s.history[e.rid := Turns(w.s, e.rid)[0 := FirstContext(w, e)]]
  {
    hide Step, Segment, Charge, SameBooks, FinalsFollow, PhasesMatch, Conserved, TablesOk, Enabled;
    FirstTurnEffect(p, w, e);
  }

  // The same for an admission that never waits, from the start of a run.
  lemma FirstBookingTakes(p: Params, e: Event)
    requires |p.replicas| == 1 && p.growth.priorWeight > -1.0
    requires Enabled(p, Begin(p), e) && SkipsGate(p, Begin(p), e) && e.Start?
    ensures var (s, r) := (Run(p, [e]).s, p.replicas[0]);
            r in s.used && s.used[r] == e.ctx
  {
    hide Step, Run, Segment, Enabled, SkipsGate, BooksOk, LeastLoaded, Destination;
    RunOne(p, e);
    BeginIsConserved(p);
    SkippingGoesToLeast(p, Begin(p), e);
    FirstTurnGoes(p, Begin(p), e);
    OnlyReplicaTakes(p, Begin(p), e);
  }

  // A session out of time, one of the first wave, and a group leader each exceed the budget at once.
  lemma FirstBookingsOvershoot(p: Params, ctx: real, group: Option<GroupKey>, expired: bool)
    requires |p.replicas| == 1 && p.growth.priorWeight > -1.0 && 0.0 <= p.budget < ctx
    requires if p.stagger && group.Some? then true else !p.lptWindow && (expired || p.wave1 > 0)
    ensures var (s, r) := (Run(p, [Start(0, ctx, None, None, group, expired)]).s, p.replicas[0]);
            r in s.used && s.used[r] > p.budget
  {
    hide Run;
    FirstBookingTakes(p, Start(0, ctx, None, None, group, expired));
  }

  // A session alone in the LPT window exceeds the budget when the window ends.
  lemma LptBatchOvershoots(p: Params, ctx: real)
    requires |p.replicas| == 1 && p.growth.priorWeight > -1.0 && 0.0 <= p.budget < ctx
    requires p.lptWindow
    ensures var (start, end) := (Start(0, ctx, None, None, None, false), WindowEnd(0));
            && WithinBudget(p, Run(p, [start]).s)
            && Enabled(p, Run(p, [start]), end) && !WithinBudget(p, Run(p, [start, end]).s)
  {
    hide Step, Segment, Run, Planned, CloseWindow, Destination, TokensAdded;
    var (start, end) := (Start(0, ctx, None, None, None, false), WindowEnd(0));
    RunOne(p, start);
    LedgerBatches.ArrivalJoins(p, Begin(p), start);
    StepIs(p, Begin(p), start);
    assert [start, end] == [start] + [end];
    StepOvershootsExactlyWhen(p, [start], end);
    EndsOnOnlyReplica(p, Run(p, [start]), end);
  }

  lemma EndsOnOnlyReplica(p: Params, w: World, e: Event)
    requires |p.replicas| == 1 && Valid(p, w.s) && Enabled(p, w, e) && e.WindowEnd?
    ensures Destination(p, w, e) == Some(p.replicas[0]) && TokensAdded(p, w, e) == w.phase[e.rid].ctx
  {
    hide Valid, Planned, CloseWindow;
    assert Planned(p, CloseWindow(p, w.s), e.rid) in p.replicas;
  }

  // ----- one request on one replica, turn by turn

  // Request 0 is in this turn, alone on the only replica, with this size booked for it.
  ghost predicate Serving(p: Params, w: World, turn: nat, recorded: bool, size: real, used: real) {
    && |p.replicas| == 1 && BooksOk(p, w) && size >= 0.0
    && 0 in w.phase && w.phase[0] == InTurn(turn, recorded)
    && w.s.resident == map[0 := p.replicas[0]]
    && 0 in w.s.history && turn in w.s.history[0] && w.s.history[0][turn] == size
    && p.replicas[0] in w.s.used && w.s.used[p.replicas[0]] == used
  }

  lemma ServesAtOnce(p: Params, ctx: real)
    requires |p.replicas| == 1 && Plain(p) && p.growth.priorWeight > -1.0 && 0.0 <= ctx <= p.budget
    ensures Serving(p, Run(p, [Start(0, ctx, None, None, None, false)]), 0, false, ctx, ctx)
  {
    hide Step, Segment, Run, BooksOk;
    var e := Start(0, ctx, None, None, None, false);
    BeginIsConserved(p);
    RunOne(p, e);
    AdmittedAtFirst(p, e);
    StepKeepsBooks(p, Begin(p), e);
    OnlyReplicaTakes(p, Begin(p), e);
  }

  lemma AdmittedAtFirst(p: Params, e: Event)
    requires |p.replicas| == 1 && Plain(p) && Valid(p, Begin(p).s) && Enabled(p, Begin(p), e)
    requires e.Start? && e.ctx <= p.budget
    ensures !Segment(p, Begin(p), e).1.Await?
  {
    hide TablesOk, Book, LeastLoaded, Free;
    var s := Admit(p, Declare(p, Begin(p).s, e.rid, e.final));
    AllFreeAtFirst(p, s);
  }

  lemma AllFreeAtFirst(p: Params, s: State)
    requires Valid(p, s) && SameTokens(Init(p), s)
    ensures Free(p, s, LeastLoaded(p, s)) == p.budget
  {
    hide LeastLoaded;
    assert On(s.resident, s.charge, LeastLoaded(p, s)) == map[];
  }

  lemma ServingMeasured(p: Params, w: World, turn: nat, size: real, used: real)
    requires Serving(p, w, turn, false, size, used)
    ensures Serving(p, Step(p, w, Measured(0, size)), turn, true, size, used)
  {
    hide Step, Charge, PhasesMatch, Conserved, TablesOk, FinalsFollow;
    MeasuredEffect(p, w, Measured(0, size));
    StepKeepsBooks(p, w, Measured(0, size));
  }

  lemma ServingNext(p: Params, w: World, turn: nat, size: real, used: real, ctx: real)
    requires Serving(p, w, turn, true, size, used) && ctx >= 0.0
    ensures Serving(p, Step(p, w, NextTurn(0, ctx, None)), turn + 1, false, ctx, used + Max(0.0, ctx - size))
  {
    hide Step, PhasesMatch, Conserved, Valid, NewestOf, LastTurn;
    var e := NextTurn(0, ctx, None);
    HasTurns(w, 0);
    ServingStays(p, w, turn, size, used, ctx);
    StepKeepsBooks(p, w, e);
    ServingLater(p, w, turn, size, used, ctx);
  }

  lemma ServingStays(p: Params, w: World, turn: nat, size: real, used: real, ctx: real)
    requires Serving(p, w, turn, true, size, used) && ctx >= 0.0 && Newest(w.s, 0) == size
    ensures Lands(p, w.s, Step(p, w, NextTurn(0, ctx, None)).s, p.replicas[0], Max(0.0, ctx - size))
  {
    hide Step, PhasesMatch, Conserved, TablesOk, Moves, NewestOf, LastTurn;
    NowhereToMove(p, Declare(p, w.s, 0, None), 0, turn + 1, ctx);
    StayingLands(p, w, NextTurn(0, ctx, None));
  }

  lemma ServingLater(p: Params, w: World, turn: nat, size: real, used: real, ctx: real)
    requires Serving(p, w, turn, true, size, used) && ctx >= 0.0
    ensures var w' := Step(p, w, NextTurn(0, ctx, None));
            && 0 in w'.phase && w'.phase[0] == InTurn(turn + 1, false) && w'.s.resident == map[0 := p.replicas[0]]
            && 0 in w'.s.history && turn + 1 in w'.s.history[0] && w'.s.history[0][turn + 1] == ctx
  {
    hide Step, Charge, PhasesMatch, Conserved, TablesOk, FinalsFollow, Continue;
    LaterEffect(p, w, NextTurn(0, ctx, None));
  }

  lemma NowhereToMove(p: Params, s: State, rid: RequestId, turn: nat, ctx: real)
    requires |p.replicas| == 1 && Valid(p, s) && rid in s.resident && turn > 0
    ensures !Moves(p, s, rid, turn, ctx)
  {
    hide Free, FitsInPlace, TablesOk;
    assert Others(p.replicas, p.replicas[0]) == [] by {
      assert p.replicas[..0] == [];
    }
  }

  lemma ServingCompleted(p: Params, w: World, turn: nat, size: real, used: real)
    requires Serving(p, w, turn, true, size, used)
    ensures var s := Step(p, w, Completed(0)).s;
            s.resident == map[] && p.replicas[0] in s.used && s.used[p.replicas[0]] == used - size
  {
    hide Step, PhasesMatch, Conserved, TablesOk, NewestOf, LastTurn, ObserveAll, FinalObservations;
    HasTurns(w, 0);
    UsedCovers(p, w, 0);
    CompletedEffect(p, w, Completed(0));
  }

  // A request admitted with room grows past the budget at its next turn.
  lemma LaterTurnOvershoots(p: Params, ctx: real, more: real)
    requires |p.replicas| == 1 && Plain(p) && p.growth.priorWeight > -1.0 && 0.0 <= ctx <= p.budget < more
    ensures var events := [Start(0, ctx, None, None, None, false), Measured(0, ctx), NextTurn(0, more, None)];
            var (s, r) := (Run(p, events).s, p.replicas[0]);
            r in s.used && s.used[r] > p.budget
  {
    hide Step, Run;
    var (a, b, c) := (Start(0, ctx, None, None, None, false), Measured(0, ctx), NextTurn(0, more, None));
    ServesAtOnce(p, ctx);
    RunSnoc(p, [a], b);
    ServingMeasured(p, Run(p, [a]), 0, ctx, ctx);
    RunSnoc(p, [a, b], c);
    assert [a] + [b] == [a, b] && [a, b] + [c] == [a, b, c];
    ServingNext(p, Run(p, [a, b]), 0, ctx, ctx, more);
  }

  // A context that shrinks between two turns served in place stays booked after the request is
  // done and nobody is left.
  lemma ShrinkStaysBooked(p: Params, ctx: real, less: real)
    requires |p.replicas| == 1 && Plain(p) && p.growth.priorWeight > -1.0 && 0.0 <= less < ctx <= p.budget
    ensures var events := [Start(0, ctx, None, None, None, false), Measured(0, ctx), NextTurn(0, less, None),
                           Measured(0, less), Completed(0)];
            var (s, r) := (Run(p, events).s, p.replicas[0]);
            s.resident == map[] && r in s.used && s.used[r] == ctx - less > 0.0
  {
    hide Step, Run, Serving;
    var (a, b, c) := (Start(0, ctx, None, None, None, false), Measured(0, ctx), NextTurn(0, less, None));
    var (d, e) := (Measured(0, less), Completed(0));
    ServesAtOnce(p, ctx);
    RunSnoc(p, [a], b);
    RunSnoc(p, [a, b], c);
    RunSnoc(p, [a, b, c], d);
    RunSnoc(p, [a, b, c, d], e);
    assert [a] + [b] == [a, b] && [a, b] + [c] == [a, b, c];
    assert [a, b, c] + [d] == [a, b, c, d] && [a, b, c, d] + [e] == [a, b, c, d, e];
    ServingMeasured(p, Run(p, [a]), 0, ctx, ctx);
    ServingNext(p, Run(p, [a, b]), 0, ctx, ctx, less);
    ServingMeasured(p, Run(p, [a, b, c]), 1, less, ctx);
    ServingCompleted(p, Run(p, [a, b, c, d]), 1, less, ctx);
  }
}
