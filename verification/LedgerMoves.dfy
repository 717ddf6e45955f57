// When a later turn leaves its replica, and where to: read off the free budgets, the newest size of
// the request and the parameters alone.

module LedgerMoves {
  import opened Text
  import Scheduling
  import opened Ledger
  import opened LedgerRuns
  import opened LedgerBudget
  import opened LedgerLandings

  // Some other replica has this much free.
  ghost predicate RoomBeside(p: Params, s: State, here: Replica, size: real)
    requires Valid(p, s)
  {
    exists q :: q in p.replicas && q != here && Free(p, s, q) >= size
  }

  // Some other replica has this much free, and is emptier by more than this.
  ghost predicate EmptierBeside(p: Params, s: State, here: Replica, size: real, gap: real)
    requires Valid(p, s) && here in p.replicas
  {
    exists q :: q in p.replicas && q != here && Free(p, s, q) >= size && Free(p, s, q) - Free(p, s, here) > gap
  }

  // The tokens that a turn of this context needs beyond those booked for the request.
  function Increase(newest: real, ctx: real): real {
    if ctx > newest then ctx - newest else 0.0
  }

  // The slack rule: enabled by a slack of zero or more, another replica is emptier by more than that
  // share of the budget and has the whole context free.
  ghost predicate SlackRule(p: Params, s: State, here: Replica, ctx: real)
    requires Valid(p, s) && here in p.replicas
  {
    p.rebalanceSlack >= 0.0 && EmptierBeside(p, s, here, ctx, p.rebalanceSlack * p.budget)
  }

  // The room rule: the growth does not fit, by at least the price of moving the context, and another
  // replica has the whole context free.
  ghost predicate RoomRule(p: Params, s: State, here: Replica, newest: real, ctx: real)
    requires Valid(p, s) && here in p.replicas
  {
    var missing := Increase(newest, ctx) - Free(p, s, here);
    && missing > 0.0 && RoomBeside(p, s, here, ctx)
    && (p.p2pAvailable ==> missing >= p.costRatioP2p * ctx)
    && (!p.p2pAvailable ==> missing >= p.costRatio * ctx)
  }

  ghost predicate MoveRule(p: Params, s: State, here: Replica, newest: real, ctx: real)
    requires Valid(p, s) && here in p.replicas
  {
    p.allowMigration && (SlackRule(p, s, here, ctx) || RoomRule(p, s, here, newest, ctx))
  }

  // No replica besides `here` has more free than this one.
  ghost predicate EmptiestBeside(p: Params, s: State, here: Replica, best: Replica)
    requires Valid(p, s)
  {
    best in p.replicas && best != here && forall q :: q in p.replicas && q != here ==> Free(p, s, q) <= Free(p, s, best)
  }

  // The choice among the others is one that no other is emptier than, and there is one if the fleet
  // has another replica.
  lemma BestOtherIsEmptiest(p: Params, s: State, here: Replica)
    requires Valid(p, s)
    ensures BestOther(p, s, here).Some? <==> exists q :: q in p.replicas && q != here
    ensures BestOther(p, s, here).Some? ==> EmptiestBeside(p, s, here, BestOther(p, s, here).value)
  {
    hide TablesOk, Free;
    var others := Others(p.replicas, here);
    if |others| > 0 {
      assert others[0] in others;
      var best := Scheduling.ArgMax(others, FreeMap(p, s));
      forall q | q in p.replicas && q != here ensures Free(p, s, q) <= Free(p, s, best) {
        assert FreeMap(p, s)[q] <= FreeMap(p, s)[best];
      }
    }
    assert forall q :: q in p.replicas && q != here ==> q in others;
  }

  lemma RebalancesByRule(p: Params, s: State, rid: RequestId, ctx: real)
    requires Valid(p, s) && rid in s.resident && s.resident[rid] in p.replicas
    ensures Rebalances(p, s, rid, ctx) <==> p.allowMigration && SlackRule(p, s, s.resident[rid], ctx)
  {
    hide TablesOk, Free, BestOther;
    var here := s.resident[rid];
    BestOtherIsEmptiest(p, s, here);
    var best := BestOther(p, s, here);
    if best.Some? {
      assert EmptierBeside(p, s, here, ctx, p.rebalanceSlack * p.budget)
        <==> Free(p, s, best.value) >= ctx && Free(p, s, best.value) - Free(p, s, here) > p.rebalanceSlack * p.budget;
    }
  }

  lemma MovesByRule(p: Params, s: State, rid: RequestId, turn: nat, ctx: real)
    requires Valid(p, s) && turn > 0 && rid in s.resident && s.resident[rid] in p.replicas && turn - 1 in Turns(s, rid)
    ensures Moves(p, s, rid, turn, ctx) <==> MoveRule(p, s, s.resident[rid], Turns(s, rid)[turn - 1], ctx)
  {
    hide TablesOk, Free, BestOther, SlackRule, Rebalances;
    var here := s.resident[rid];
    RebalancesByRule(p, s, rid, ctx);
    BestOtherIsEmptiest(p, s, here);
    var best := BestOther(p, s, here);
    if best.Some? {
      assert RoomBeside(p, s, here, ctx) <==> Free(p, s, best.value) >= ctx;
    }
  }

  // A step of any world with sound books.
  lemma StepLeavesExactlyWhen(p: Params, w: World, e: Event)
    requires BooksOk(p, w) && Enabled(p, w, e) && e.NextTurn? && e.rid in w.s.resident
    ensures w.s.resident[e.rid] in p.replicas
    ensures var (here, s') := (w.s.resident[e.rid], Step(p, w, e).s);
            && e.rid in s'.resident
            && (s'.resident[e.rid] != here <==> MoveRule(p, w.s, here, Newest(w.s, e.rid), e.ctx))
            && (s'.resident[e.rid] != here ==> EmptiestBeside(p, w.s, here, s'.resident[e.rid]))
  {
    hide Step, Valid, PhasesMatch, Conserved, Moves, MoveRule, BestOther, EmptiestBeside, Free, NewestOf, LastTurn, Continue,
         FinalsFollow, BookedTurn;
    var (here, turn) := (w.s.resident[e.rid], NextOf(w, e.rid));
    ResidesInFleet(p, w.s, e.rid);
    LaterFinds(p, w, e);
    LaterEffect(p, w, e);
    MovesByRule(p, w.s, e.rid, turn, e.ctx);
    BestOtherIsEmptiest(p, w.s, here);
    LaterLands(p, w, e);
    if Moves(p, w.s, e.rid, turn, e.ctx) {
      MovesHasTarget(p, w.s, e.rid, turn, e.ctx);
      EmptiestIsElsewhere(p, w.s, here, BestOther(p, w.s, here).value);
    }
  }

  lemma EmptiestIsElsewhere(p: Params, s: State, here: Replica, best: Replica)
    requires Valid(p, s) && EmptiestBeside(p, s, here, best)
    ensures best != here
  {
  }

  // Over every run: a later turn of a resident request leaves its replica exactly when one of the
  // two rules holds, and then goes where no other replica has more free.
  lemma TurnLeavesExactlyWhen(p: Params, events: seq<Event>, e: Event)
    requires |p.replicas| > 0 && p.growth.priorWeight > -1.0
    requires var w := Run(p, events); Enabled(p, w, e) && e.NextTurn? && e.rid in w.s.resident
    ensures Run(p, events).s.resident[e.rid] in p.replicas
    ensures var (w, w') := (Run(p, events), Run(p, events + [e]));
            var here := w.s.resident[e.rid];
            && e.rid in w'.s.resident
            && (w'.s.resident[e.rid] != here <==> MoveRule(p, w.s, here, Newest(w.s, e.rid), e.ctx))
            && (w'.s.resident[e.rid] != here ==> EmptiestBeside(p, w.s, here, w'.s.resident[e.rid]))
  {
    hide Run, Step, Enabled, MoveRule, EmptiestBeside, BooksOk;
    RunsConserve(p, events);
    RunSnoc(p, events, e);
    StepLeavesExactlyWhen(p, Run(p, events), e);
  }

  // ----- the two price ratios

  // The ratio that applies is the other one when peers can pull.
  function Ratio(p: Params): real {
    if p.p2pAvailable then p.costRatioP2p else p.costRatio
  }

  // Ledgers that agree on everything but the two ratios.
  ghost predicate SameButRatios(p: Params, q: Params) {
    q == p.(costRatio := q.costRatio, costRatioP2p := q.costRatioP2p)
  }

  lemma SameFrees(p: Params, q: Params, s: State)
    requires SameButRatios(p, q) && Valid(p, s)
    ensures Valid(q, s) && forall r :: r in p.replicas ==> Free(q, s, r) == Free(p, s, r)
  {
    hide TablesOk, Reserve;
  }

  lemma RatiosCompare(p: Params, q: Params, s: State, here: Replica, newest: real, ctx: real)
    requires SameButRatios(p, q) && Valid(p, s) && Valid(q, s) && here in p.replicas && ctx >= 0.0
    requires Ratio(p) <= Ratio(q)
    ensures MoveRule(q, s, here, newest, ctx) ==> MoveRule(p, s, here, newest, ctx)
  {
    hide TablesOk, Free;
    SameFrees(p, q, s);
    assert Ratio(p) * ctx <= Ratio(q) * ctx;
    if SlackRule(q, s, here, ctx) {
      var r :| r in q.replicas && r != here && Free(q, s, r) >= ctx && Free(q, s, r) - Free(q, s, here) > q.rebalanceSlack * q.budget;
      assert SlackRule(p, s, here, ctx);
    }
    if RoomRule(q, s, here, newest, ctx) {
      var r :| r in q.replicas && r != here && Free(q, s, r) >= ctx;
      assert RoomBeside(p, s, here, ctx);
    }
  }

  lemma SameBooksOk(p: Params, q: Params, w: World)
    requires SameButRatios(p, q) && BooksOk(p, w)
    ensures BooksOk(q, w)
  {
    hide TablesOk, PhasesMatch, Tokens;
  }

  // The other ratio has no influence, and raising the one that applies never makes a staying turn
  // leave: in any world of a run, under two ledgers that differ in ratios alone.
  lemma RatioDecides(p: Params, q: Params, events: seq<Event>, e: Event)
    requires |p.replicas| > 0 && p.growth.priorWeight > -1.0 && SameButRatios(p, q)
    requires var w := Run(p, events); Enabled(p, w, e) && e.NextTurn? && e.rid in w.s.resident
    ensures Valid(q, Run(p, events).s)
    ensures var w := Run(p, events);
            var (here, there, thence) := (w.s.resident[e.rid], Step(p, w, e).s, Step(q, w, e).s);
            && e.rid in there.resident && e.rid in thence.resident
            && (Ratio(p) == Ratio(q) ==> (there.resident[e.rid] == here <==> thence.resident[e.rid] == here))
            && (Ratio(p) <= Ratio(q) && there.resident[e.rid] == here ==> thence.resident[e.rid] == here)
  {
    hide Run, Step, MoveRule, EmptiestBeside, Valid, PhasesMatch, Conserved, Newest;
    var w := Run(p, events);
    RunsConserve(p, events);
    SameBooksOk(p, q, w);
    StepLeavesExactlyWhen(p, w, e);
    StepLeavesExactlyWhen(q, w, e);
    var (here, newest) := (w.s.resident[e.rid], Newest(w.s, e.rid));
    if Ratio(p) <= Ratio(q) {
      RatiosCompare(p, q, w.s, here, newest, e.ctx);
    }
    if Ratio(q) <= Ratio(p) {
      RatiosCompare(q, p, w.s, here, newest, e.ctx);
    }
  }

  // With a free pull, a turn that does not fit leaves whenever another replica has its context free.
  lemma FreePullsAlwaysMove(p: Params, events: seq<Event>, e: Event)
    requires |p.replicas| > 0 && p.growth.priorWeight > -1.0
    requires p.allowMigration && p.p2pAvailable && p.costRatioP2p == 0.0
    requires var w := Run(p, events); Enabled(p, w, e) && e.NextTurn? && e.rid in w.s.resident
    requires Run(p, events).s.resident[e.rid] in p.replicas
    requires var (s, here) := (Run(p, events).s, Run(p, events).s.resident[e.rid]);
             Increase(Newest(s, e.rid), e.ctx) > Free(p, s, here) && RoomBeside(p, s, here, e.ctx)
    ensures var (w, w') := (Run(p, events), Run(p, events + [e]));
            e.rid in w'.s.resident && w'.s.resident[e.rid] != w.s.resident[e.rid]
  {
    hide Run, Step, EmptiestBeside, RoomBeside, Free, Newest;
    TurnLeavesExactlyWhen(p, events, e);
  }
}
