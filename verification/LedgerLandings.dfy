// Where each call of a run puts its tokens, and exactly when that exceeds the budget.

module LedgerLandings {
  import opened Text
  import opened Totals
  import Scheduling
  import opened Ledger
  import opened LedgerRuns
  import opened LedgerBudget

  // ----- the replica that a call books, read off the state it finds

  // Without a group: the emptiest replica, unless the session joins the window or keeps polling.
  ghost function PlainDestination(p: Params, s: State, ctx: real, expired: bool): Option<Replica>
    requires Valid(p, s)
  {
    var least := LeastLoaded(p, s);
    if p.lptWindow then (if s.lptClosed then Some(least) else None)
    else if s.admitted < p.wave1 || expired || Free(p, s, least) >= ctx then Some(least)
    else None
  }

  // A released member of a group: the emptiest replica besides its leader's.
  ghost function FollowerDestination(p: Params, s: State, g: GroupKey, ctx: real, expired: bool): Option<Replica>
    requires Valid(p, s)
  {
    if g in s.leader && BestOther(p, s, s.leader[g]).Some? then BestOther(p, s, s.leader[g])
    else PlainDestination(p, s, ctx, expired)
  }

  // A member of a group that arrives: the leader is booked at once, the others wait for it.
  ghost function MemberDestination(p: Params, s: State, g: GroupKey, ctx: real, expired: bool): Option<Replica>
    requires Valid(p, s)
  {
    if g !in s.claimed then Some(LeastLoaded(p, s))
    else if g in s.ready && !s.ready[g] then None
    else FollowerDestination(p, s, g, ctx, expired)
  }

  // A later turn: where its history is, unless it moves or has none.
  ghost function LaterDestination(p: Params, s: State, rid: RequestId, turn: nat, ctx: real): Option<Replica>
    requires Valid(p, s) && turn > 0
  {
    if rid !in s.resident then Some(LeastLoaded(p, s))
    else if Moves(p, s, rid, turn, ctx) then BestOther(p, s, s.resident[rid])
    else Some(s.resident[rid])
  }

  ghost function Destination(p: Params, w: World, e: Event): Option<Replica>
    requires Valid(p, w.s) && Enabled(p, w, e)
  {
    var s := w.s;
    match e
    case Start(_, ctx, _, _, group, expired) =>
      if p.stagger && group.Some? then MemberDestination(p, s, group.value, ctx, expired)
      else PlainDestination(p, s, ctx, expired)
    case LeaderReady(rid, expired) => FollowerDestination(p, s, w.phase[rid].on.group, w.phase[rid].ctx, expired)
    case LeaderTimeout(rid, expired) => PlainDestination(p, s, w.phase[rid].ctx, expired)
    case WindowEnd(rid) => Some(Planned(p, CloseWindow(p, s), rid))
    case BatchReady(rid) => Some(Planned(p, s, rid))
    case BatchTimeout(_) => Some(LeastLoaded(p, s))
    case PollAgain(rid, expired) =>
      if expired || Free(p, s, LeastLoaded(p, s)) >= w.phase[rid].ctx then Some(LeastLoaded(p, s)) else None
    case NextTurn(rid, ctx, _) => LaterDestination(p, s, rid, NextOf(w, rid), ctx)
    case Measured(rid, _) => if rid in s.resident then Some(s.resident[rid]) else None
    case Completed(_) => None
  }

  // The tokens it adds there: the whole context, the growth of a turn that stays, or the
  // difference between a measured size and the booked one.
  ghost function TokensAdded(p: Params, w: World, e: Event): real
    requires Valid(p, w.s)
  {
    if e.NextTurn? then
      if e.rid in w.s.resident && !Moves(p, w.s, e.rid, NextOf(w, e.rid), e.ctx)
      then Max(0.0, e.ctx - Newest(w.s, e.rid)) else e.ctx
    else if e.Measured? then e.ctx - Newest(w.s, e.rid)
    else if e.Completed? then 0.0
    else FirstContext(w, e)
  }

  // ----- states that estimate alike

  lemma SameTokensSameFree(p: Params, s: State, s1: State)
    requires Valid(p, s) && Valid(p, s1) && SameTokens(s, s1)
    ensures FreeMap(p, s1) == FreeMap(p, s)
    ensures forall r :: r in p.replicas ==> Free(p, s1, r) == Free(p, s, r)
  {
    hide TablesOk, Total;
    forall r | r in p.replicas ensures Free(p, s1, r) == Free(p, s, r) {
    }
  }

  lemma SameTokensSameChoice(p: Params, s: State, s1: State, x: Replica)
    requires Valid(p, s) && Valid(p, s1) && SameTokens(s, s1)
    ensures LeastLoaded(p, s1) == LeastLoaded(p, s) && BestOther(p, s1, x) == BestOther(p, s, x)
    ensures Free(p, s1, LeastLoaded(p, s)) == Free(p, s, LeastLoaded(p, s))
  {
    hide Scheduling.ArgMax, FreeMap, Free, Valid, SameTokens;
    SameTokensSameFree(p, s, s1);
  }

  lemma DeclareKeepsTokens(p: Params, s: State, rid: RequestId, final: Option<real>)
    requires Valid(p, s)
    ensures var s0 := Declare(p, s, rid, final);
            && Valid(p, s0) && SameTokens(s, s0) && s0.history == s.history && SameQueues(s, s0)
  {
    hide Valid;
  }

  // ----- first turns

  // The segment books rid on dest, or waits when there is none.
  ghost predicate GoesTo(rid: RequestId, r: (State, Outcome), dest: Option<Replica>) {
    if dest.Some? then !r.1.Await? && rid in r.0.resident && r.0.resident[rid] == dest.value else r.1.Await?
  }

  lemma PlacedThere(p: Params, s: State, rid: RequestId, r: Replica, turn: nat, ctx: real)
    requires Valid(p, s) && r in p.replicas
    ensures GoesTo(rid, PlaceOn(p, s, rid, r, turn, ctx), Some(r))
  {
    hide TablesOk, Charge, Added;
  }

  lemma PlainGoes(p: Params, s: State, s1: State, rid: RequestId, ctx: real, work: Option<real>, expired: bool)
    requires Valid(p, s) && Valid(p, s1) && SameTokens(s, s1) && SameQueues(s, s1)
    ensures GoesTo(rid, Ordinary(p, s1, rid, ctx, work, expired), PlainDestination(p, s, ctx, expired))
  {
    hide Valid, PlaceOn, LeastLoaded, Free, GoesTo, LptEnter, Poll;
    SameTokensSameChoice(p, s, s1, LeastLoaded(p, s));
    if p.lptWindow {
      WindowGoes(p, s1, rid, ctx, work);
    } else {
      var s2 := Admit(p, s1);
      SameTokensSameChoice(p, s, s2, LeastLoaded(p, s));
      PlacedThere(p, s2, rid, LeastLoaded(p, s2), 0, ctx);
      PollGoes(p, s, s2, rid, ctx, expired);
    }
  }

  lemma WindowGoes(p: Params, s: State, rid: RequestId, ctx: real, work: Option<real>)
    requires Valid(p, s)
    ensures GoesTo(rid, LptEnter(p, s, rid, ctx, work), if s.lptClosed then Some(LeastLoaded(p, s)) else None)
  {
    hide Valid, PlaceOn, LeastLoaded;
    PlacedThere(p, s, rid, LeastLoaded(p, s), 0, ctx);
  }

  lemma PollGoes(p: Params, s: State, s1: State, rid: RequestId, ctx: real, expired: bool)
    requires Valid(p, s) && Valid(p, s1) && SameTokens(s, s1)
    ensures GoesTo(rid, Poll(p, s1, rid, ctx, expired),
                   if expired || Free(p, s, LeastLoaded(p, s)) >= ctx then Some(LeastLoaded(p, s)) else None)
  {
    hide Valid, PlaceOn, LeastLoaded, Free;
    SameTokensSameChoice(p, s, s1, LeastLoaded(p, s));
    PlacedThere(p, s1, rid, LeastLoaded(p, s1), 0, ctx);
  }

  lemma FollowerGoes(p: Params, s: State, s1: State, rid: RequestId, g: GroupKey, ctx: real, work: Option<real>, expired: bool)
    requires Valid(p, s) && Valid(p, s1) && SameTokens(s, s1) && SameQueues(s, s1)
    ensures GoesTo(rid, Follow(p, s1, rid, g, ctx, work, expired), FollowerDestination(p, s, g, ctx, expired))
  {
    hide Valid, Ordinary, PlainDestination, BestOther, SameTokens, GoesTo;
    PlainGoes(p, s, s1, rid, ctx, work, expired);
    if g in s.leader {
      SameTokensSameChoice(p, s, s1, s.leader[g]);
      LeaderInFleet(p, s, g);
      var target := BestOther(p, s, s.leader[g]);
      if target.Some? {
        PulledThere(p, s1, rid, target.value, s.leader[g], ctx);
      }
    }
  }

  lemma PulledThere(p: Params, s: State, rid: RequestId, dest: Replica, from: Replica, ctx: real)
    requires Valid(p, s) && dest in p.replicas && from in p.replicas
    ensures GoesTo(rid, (Book(p, s, rid, dest, 0, ctx), Pull(p, dest, from)), Some(dest))
  {
    hide TablesOk, Charge, Added;
  }

  lemma MemberGoes(p: Params, s: State, s1: State, rid: RequestId, g: GroupKey, ctx: real, work: Option<real>, expired: bool)
    requires Valid(p, s) && Valid(p, s1) && SameTokens(s, s1) && SameQueues(s, s1)
    ensures GoesTo(rid, StaggerEnter(p, s1, rid, g, ctx, work, expired), MemberDestination(p, s, g, ctx, expired))
  {
    hide Valid, Follow, FollowerDestination, LeastLoaded, Book, Lead;
    SameTokensSameChoice(p, s, s1, LeastLoaded(p, s));
    FollowerGoes(p, s, s1, rid, g, ctx, work, expired);
    LeaderPlaced(p, s1, rid, g, LeastLoaded(p, s1), ctx);
  }

  lemma LeaderPlaced(p: Params, s: State, rid: RequestId, g: GroupKey, dest: Replica, ctx: real)
    requires Valid(p, s) && dest in p.replicas
    ensures GoesTo(rid, (Book(p, Lead(p, s, rid, g, dest), rid, dest, 0, ctx), Placed(dest, None)), Some(dest))
  {
    hide Valid, Lead;
    PlacedThere(p, Lead(p, s, rid, g, dest), rid, dest, 0, ctx);
  }

  lemma FirstTurnGoes(p: Params, w: World, e: Event)
    requires Valid(p, w.s) && Enabled(p, w, e) && FirstTurn(e)
    ensures GoesTo(e.rid, Segment(p, w, e), Destination(p, w, e))
  {
    hide Valid, Ordinary, Follow, StaggerEnter, Poll, PlaceOn, LeastLoaded, Free, GoesTo, PlainDestination,
         FollowerDestination, MemberDestination, Planned, CloseWindow, Declare, SameTokens, Forget;
    SameTokensItself(w.s);
    match e {
      case Start(rid, ctx, final, work, group, expired) =>
        var s0 := Declare(p, w.s, rid, final);
        DeclareKeepsTokens(p, w.s, rid, final);
        PlainGoes(p, w.s, s0, rid, ctx, work, expired);
        if group.Some? {
          MemberGoes(p, w.s, s0, rid, group.value, ctx, work, expired);
        }
      case LeaderReady(rid, expired) =>
        FollowerGoes(p, w.s, w.s, rid, w.phase[rid].on.group, w.phase[rid].ctx, w.phase[rid].work, expired);
      case LeaderTimeout(rid, expired) => PlainGoes(p, w.s, w.s, rid, w.phase[rid].ctx, w.phase[rid].work, expired);
      case WindowEnd(rid) =>
        var s1 := CloseWindow(p, w.s);
        PlacedThere(p, Forget(p, s1, rid), rid, Planned(p, s1, rid), 0, w.phase[rid].ctx);
      case BatchReady(rid) => PlacedThere(p, Forget(p, w.s, rid), rid, Planned(p, w.s, rid), 0, w.phase[rid].ctx);
      case BatchTimeout(rid) => PlacedThere(p, w.s, rid, LeastLoaded(p, w.s), 0, w.phase[rid].ctx);
      case PollAgain(rid, expired) => PollGoes(p, w.s, w.s, rid, w.phase[rid].ctx, expired);
    }
  }

  lemma SameTokensItself(s: State)
    ensures SameTokens(s, s) && SameQueues(s, s)
  {
  }

  // ----- every step lands where it should

  // The step adds this many tokens to one replica and none to any other.
  ghost predicate Lands(p: Params, s: State, s': State, dest: Replica, added: real) {
    && dest in p.replicas && dest in s.used && dest in s'.used && s'.used[dest] == s.used[dest] + added
    && forall r :: r in p.replicas && r != dest ==> r in s.used && r in s'.used && s'.used[r] <= s.used[r]
  }

  // The step lands on dest, where the request then resides, or adds nothing anywhere.
  ghost predicate LandsAt(p: Params, s: State, s': State, rid: RequestId, dest: Option<Replica>, added: real) {
    if dest.Some? then rid in s'.resident && s'.resident[rid] == dest.value && Lands(p, s, s', dest.value, added)
    else forall r :: r in p.replicas ==> r in s.used && r in s'.used && s'.used[r] <= s.used[r]
  }

  lemma FirstTurnLands(p: Params, w: World, e: Event)
    requires BooksOk(p, w) && Enabled(p, w, e) && FirstTurn(e)
    ensures LandsAt(p, w.s, Step(p, w, e).s, e.rid, Destination(p, w, e), TokensAdded(p, w, e))
  {
    hide Step, Segment, PhasesMatch, Conserved, Enabled, FinalsFollow, TablesOk, Charge, Destination;
    FirstTurnGoes(p, w, e);
    StepIs(p, w, e);
    FirstTurnEffect(p, w, e);
  }

  lemma MovesIgnoresFinals(p: Params, s: State, rid: RequestId, final: Option<real>, turn: nat, ctx: real)
    requires Valid(p, s) && rid in s.resident && turn > 0
    ensures var s0 := Declare(p, s, rid, final);
            && rid in s0.resident && Moves(p, s0, rid, turn, ctx) == Moves(p, s, rid, turn, ctx)
            && BestOther(p, s0, s.resident[rid]) == BestOther(p, s, s.resident[rid])
  {
    hide TablesOk, Free, BestOther, Declare;
    var s0 := Declare(p, s, rid, final);
    DeclareKeepsTokens(p, s, rid, final);
    SameTokensSameFree(p, s, s0);
    SameTokensSameChoice(p, s, s0, s.resident[rid]);
  }

  // A later turn, as a booking made on the state after its final was declared.
  lemma LaterLands(p: Params, w: World, e: Event)
    requires BooksOk(p, w) && Enabled(p, w, e) && e.NextTurn?
    ensures LandsAt(p, w.s, Step(p, w, e).s, e.rid, Destination(p, w, e), TokensAdded(p, w, e))
  {
    hide Step, Valid, PhasesMatch, Conserved, Moves, LandsAt, LeastLoaded, BestOther;
    if e.rid !in w.s.resident {
      ReturnLands(p, w, e);
    } else if Moves(p, w.s, e.rid, NextOf(w, e.rid), e.ctx) {
      MovingLands(p, w, e);
    } else {
      StayingLands(p, w, e);
    }
  }

  lemma ReturnLands(p: Params, w: World, e: Event)
    requires BooksOk(p, w) && Enabled(p, w, e) && e.NextTurn? && e.rid !in w.s.resident
    ensures LandsAt(p, w.s, Step(p, w, e).s, e.rid, Some(LeastLoaded(p, w.s)), e.ctx)
  {
    hide Step, Continue, Valid, PhasesMatch, Conserved, Enabled, Declare, LeastLoaded, LandsAt, SameTokens, SameQueues;
    LaterSetup(p, w, e);
    LaterStep(p, w, e);
    DeclareKeepsTokens(p, w.s, e.rid, e.final);
    ReturnBooks(p, w.s, Declare(p, w.s, e.rid, e.final), e.rid, NextOf(w, e.rid), e.ctx);
    OneUpdateLands(p, w.s, Step(p, w, e).s, e.rid, LeastLoaded(p, w.s), e.ctx);
  }

  lemma ReturnBooks(p: Params, s: State, s0: State, rid: RequestId, turn: nat, ctx: real)
    requires Valid(p, s) && Valid(p, s0) && SameTokens(s, s0) && turn > 0 && rid !in s.resident
    ensures var (s', least) := (Continue(p, s0, rid, turn, ctx).0, LeastLoaded(p, s));
            && least in s.used && rid in s'.resident && s'.resident[rid] == least
            && s'.used == s.used[least := s.used[least] + ctx]
  {
    hide Valid, Continue, Charge, Moves, Added, LeastLoaded, Free, BestOther, Turns;
    SameTokensSameChoice(p, s, s0, LeastLoaded(p, s));
    FreshGoesToLeastLoaded(p, s0, rid, turn, ctx);
    LaterBooking(p, s0, rid, turn, ctx);
    FreshAdds(s, s0, rid, LeastLoaded(p, s), turn, ctx);
  }

  lemma MovingLands(p: Params, w: World, e: Event)
    requires BooksOk(p, w) && Enabled(p, w, e) && e.NextTurn? && e.rid in w.s.resident
    requires Moves(p, w.s, e.rid, NextOf(w, e.rid), e.ctx)
    ensures LandsAt(p, w.s, Step(p, w, e).s, e.rid, BestOther(p, w.s, w.s.resident[e.rid]), e.ctx)
  {
    hide Step, Continue, Charge, Moves, Added, TablesOk, PhasesMatch, Conserved, Enabled, Declare, BestOther, NewestOf, LastTurn;
    LaterSetup(p, w, e);
    LaterStep(p, w, e);
    LaterFinds(p, w, e);
    var (s0, turn) := (Declare(p, w.s, e.rid, e.final), NextOf(w, e.rid));
    MovesIgnoresFinals(p, w.s, e.rid, e.final, turn, e.ctx);
    MovesHasTarget(p, s0, e.rid, turn, e.ctx);
    MovesToTarget(p, s0, e.rid, turn, e.ctx);
    LaterBooking(p, s0, e.rid, turn, e.ctx);
    MovedAdds(s0, e.rid, Step(p, w, e).s.resident[e.rid], turn, e.ctx);
  }

  lemma MovesToTarget(p: Params, s: State, rid: RequestId, turn: nat, ctx: real)
    requires Valid(p, s) && turn > 0 && rid in s.resident && Moves(p, s, rid, turn, ctx)
    requires BestOther(p, s, s.resident[rid]).Some?
    ensures var s' := Continue(p, s, rid, turn, ctx).0;
            rid in s'.resident && s'.resident[rid] == BestOther(p, s, s.resident[rid]).value
  {
    hide TablesOk, Charge, Added, Moves, BestOther;
  }

  lemma StayingLands(p: Params, w: World, e: Event)
    requires BooksOk(p, w) && Enabled(p, w, e) && e.NextTurn? && e.rid in w.s.resident
    requires !Moves(p, w.s, e.rid, NextOf(w, e.rid), e.ctx)
    ensures LandsAt(p, w.s, Step(p, w, e).s, e.rid, Some(w.s.resident[e.rid]), Max(0.0, e.ctx - Newest(w.s, e.rid)))
  {
    hide Step, Continue, Charge, Valid, Moves, Added, PhasesMatch, Conserved, Enabled, Declare, NewestOf, LastTurn, LandsAt;
    LaterSetup(p, w, e);
    LaterStep(p, w, e);
    LaterFinds(p, w, e);
    ResidesInFleet(p, w.s, e.rid);
    var (s0, turn) := (Declare(p, w.s, e.rid, e.final), NextOf(w, e.rid));
    MovesIgnoresFinals(p, w.s, e.rid, e.final, turn, e.ctx);
    LaterBooking(p, s0, e.rid, turn, e.ctx);
    StayedAdds(s0, e.rid, turn, e.ctx);
    OneUpdateLands(p, w.s, Step(p, w, e).s, e.rid, w.s.resident[e.rid], Max(0.0, e.ctx - Newest(w.s, e.rid)));
  }

  lemma OneUpdateLands(p: Params, s: State, s': State, rid: RequestId, dest: Replica, added: real)
    requires Valid(p, s) && dest in p.replicas && dest in s.used
    requires rid in s'.resident && s'.resident[rid] == dest && s'.used == s.used[dest := s.used[dest] + added]
    ensures LandsAt(p, s, s', rid, Some(dest), added)
  {
    hide TablesOk;
  }

  lemma MeasuredLands(p: Params, w: World, e: Event)
    requires BooksOk(p, w) && Enabled(p, w, e) && e.Measured?
    ensures LandsAt(p, w.s, Step(p, w, e).s, e.rid, Destination(p, w, e), TokensAdded(p, w, e))
  {
    hide Step, Charge, PhasesMatch, Conserved, TablesOk, FinalsFollow, NewestOf, LastTurn;
    MeasuredEffect(p, w, e);
    HasTurns(w, e.rid);
    ResidesInFleet(p, w.s, e.rid);
  }

  lemma CompletedLands(p: Params, w: World, e: Event)
    requires BooksOk(p, w) && Enabled(p, w, e) && e.Completed?
    ensures LandsAt(p, w.s, Step(p, w, e).s, e.rid, Destination(p, w, e), TokensAdded(p, w, e))
  {
    hide Step, PhasesMatch, Conserved, TablesOk, NewestOf, LastTurn, ObserveAll, FinalObservations;
    CompletedEffect(p, w, e);
    UsedCovers(p, w, e.rid);
  }

  lemma StepLands(p: Params, w: World, e: Event)
    requires BooksOk(p, w) && Enabled(p, w, e)
    ensures LandsAt(p, w.s, Step(p, w, e).s, e.rid, Destination(p, w, e), TokensAdded(p, w, e))
  {
    hide Step, BooksOk, Enabled, LandsAt, Destination, TokensAdded;
    if e.NextTurn? {
      LaterLands(p, w, e);
    } else if e.Measured? {
      MeasuredLands(p, w, e);
    } else if e.Completed? {
      CompletedLands(p, w, e);
    } else {
      FirstTurnLands(p, w, e);
    }
  }

  // ----- when a step exceeds the budget

  lemma LandingOvershootsExactlyWhen(p: Params, s: State, s': State, rid: RequestId, dest: Option<Replica>, added: real)
    requires Valid(p, s) && Valid(p, s') && WithinBudget(p, s) && LandsAt(p, s, s', rid, dest, added)
    ensures dest.Some? ==> dest.value in s.used && rid in s'.resident && s'.resident[rid] == dest.value
    ensures WithinBudget(p, s') <==> dest.None? || added <= p.budget - s.used[dest.value]
  {
    hide TablesOk;
  }

  // From any reachable world within the budget, for every kind of call: the call leaves the budget
  // exactly when it adds more to the replica it lands on than that replica has unused.
  lemma StepOvershootsExactlyWhen(p: Params, events: seq<Event>, e: Event)
    requires |p.replicas| > 0 && p.growth.priorWeight > -1.0
    requires Enabled(p, Run(p, events), e) && WithinBudget(p, Run(p, events).s)
    ensures var (w, w') := (Run(p, events), Run(p, events + [e]));
            var (dest, added) := (Destination(p, w, e), TokensAdded(p, w, e));
            && (dest.Some? ==> dest.value in w.s.used && e.rid in w'.s.resident && w'.s.resident[e.rid] == dest.value)
            && (WithinBudget(p, w'.s) <==> dest.None? || added <= p.budget - w.s.used[dest.value])
  {
    hide Run, Step, Enabled, WithinBudget, Destination, TokensAdded, LandsAt, Valid, PhasesMatch, Conserved;
    var w := Run(p, events);
    RunsConserve(p, events);
    RunSnoc(p, events, e);
    StepLands(p, w, e);
    LandingOvershootsExactlyWhen(p, w.s, Step(p, w, e).s, e.rid, Destination(p, w, e), TokensAdded(p, w, e));
  }
}
