// What happens past the loopback block: a run in which a call raises, and what repeating such a
// call does to the books, since the client's turn counter has not moved.

module LedgerRetries {
  import opened Text
  import opened Totals
  import Growth
  import Scheduling
  import opened Ledger
  import opened LedgerRuns
  import LedgerBudget
  import LedgerLandings
  import LedgerPulls

  // ----- repeating a call that raised

  // Every replica's used tokens are the newest sizes of its residents and what in-place turns kept,
  // and on one replica this many more.
  ghost predicate Stranded(p: Params, s: State, shrink: map<Replica, real>, at: Replica, extra: real)
    requires Valid(p, s)
  {
    forall r :: r in p.replicas ==> r in shrink && s.used[r] == Tokens(s, r) + shrink[r] + if r == at then extra else 0.0
  }

  // The newest turn of rid is k, booked at this size.
  ghost predicate Booked(w: World, rid: RequestId, k: nat, size: real) {
    rid in w.phase && w.phase[rid] == InTurn(k, false) && rid in w.s.resident && Newest(w.s, rid) == size
  }

  lemma BookedShare(p: Params, w: World, rid: RequestId, k: nat, size: real, r: Replica)
    requires BooksOk(p, w) && Booked(w, rid, k, size)
    ensures rid in w.s.history && k in w.s.history[rid] && w.s.history[rid][k] == size >= 0.0
    ensures forall u :: u in Turns(w.s, rid) ==> u <= k
    ensures Share(w.s.resident, Sizes(w.s), r, rid) == if w.s.resident[rid] == r then size else 0.0
  {
    hide Conserved, NewestOf, LastTurn, TablesOk;
    HasTurns(w, rid);
    assert PhaseMatches(w, rid);
  }

  // A turn 0 that raised and is placed again: the first booking is never given back, whether the
  // second one lands on the same replica or not.
  lemma FirstRetryStrands(p: Params, w: World, s: State, rid: RequestId, ctx: real, r: (State, Outcome))
    requires BooksOk(p, w) && Booked(w, rid, 0, ctx)
    requires s == w.s.(oracleFinal := s.oracleFinal) && Valid(p, s)
    requires Valid(p, r.0) && ServesFirstTurn(p, s, rid, ctx, r) && !r.1.Await?
    ensures Stranded(p, r.0, w.shrink, w.s.resident[rid], ctx)
  {
    hide PhasesMatch, NewestOf, LastTurn, Total, Charge, Tokens, Sizes, Share, TablesOk;
    var s' := r.0;
    BookedShare(p, w, rid, 0, ctx, w.s.resident[rid]);
    FirstRetryUsed(p, s, rid, ctx, r);
    var dest := s'.resident[rid];
    forall q | q in p.replicas
      ensures q in w.shrink && s'.used[q] == Tokens(s', q) + w.shrink[q] + if q == w.s.resident[rid] then ctx else 0.0
    {
      BookedShare(p, w, rid, 0, ctx, q);
      TokensAfterBooking(w.s, s', rid, dest, 0, ctx, q);
    }
  }

  lemma FirstRetryUsed(p: Params, s: State, rid: RequestId, ctx: real, r: (State, Outcome))
    requires Valid(p, s) && ServesFirstTurn(p, s, rid, ctx, r) && !r.1.Await?
    ensures rid in r.0.resident
    ensures var (s', dest) := (r.0, r.0.resident[rid]);
            && dest in p.replicas && dest in s.used && s'.resident == s.resident[rid := dest]
            && s'.used == s.used[dest := s.used[dest] + ctx]
            && s'.history == s.history[rid := Turns(s, rid)[0 := ctx]]
  {
    hide TablesOk, Charge;
  }

  // So the books balance again exactly when the turn had no tokens.
  lemma BalancedExactlyWhen(p: Params, s: State, shrink: map<Replica, real>, at: Replica, extra: real)
    requires Valid(p, s) && at in p.replicas && Stranded(p, s, shrink, at, extra)
    ensures (forall r :: r in p.replicas ==> s.used[r] == Tokens(s, r) + shrink[r]) <==> extra == 0.0
  {
    hide Tokens, TablesOk;
  }

  // The tokens that repeating a later turn adds or takes away too much: the growth is added once
  // more where the request stays, and the wrong turn's size is handed back where it moves.
  ghost function RetryExtra(p: Params, s: State, rid: RequestId, turn: nat, ctx: real): real
    requires Valid(p, s) && turn > 0 && rid in s.resident && turn - 1 in Turns(s, rid)
  {
    var prev := Turns(s, rid)[turn - 1];
    if Moves(p, s, rid, turn, ctx) then Max(ctx - s.used[s.resident[rid]], ctx - prev) else Max(0.0, ctx - prev)
  }

  lemma LaterRetryStrands(p: Params, w: World, s: State, rid: RequestId, turn: nat, ctx: real)
    requires BooksOk(p, w) && turn > 0 && Booked(w, rid, turn, ctx)
    requires s == w.s.(oracleFinal := s.oracleFinal) && Valid(p, s) && turn - 1 in Turns(s, rid)
    ensures var s' := Continue(p, s, rid, turn, ctx).0;
            Stranded(p, s', w.shrink, w.s.resident[rid], RetryExtra(p, s, rid, turn, ctx))
  {
    hide PhasesMatch, NewestOf, LastTurn, Total, Charge, Tokens, Sizes, Share, TablesOk, Continue, Moves, Added;
    var (s', here) := (Continue(p, s, rid, turn, ctx).0, s.resident[rid]);
    BookedShare(p, w, rid, turn, ctx, here);
    LaterBooking(p, s, rid, turn, ctx);
    var dest := s'.resident[rid];
    if Moves(p, s, rid, turn, ctx) {
      MovedAdds(s, rid, dest, turn, ctx);
    } else {
      StayedAdds(s, rid, turn, ctx);
    }
    forall q | q in p.replicas
      ensures q in w.shrink
      ensures s'.used[q] == Tokens(s', q) + w.shrink[q] + if q == here then RetryExtra(p, s, rid, turn, ctx) else 0.0
    {
      BookedShare(p, w, rid, turn, ctx, q);
      TokensAfterBooking(w.s, s', rid, dest, turn, ctx, q);
    }
  }

  // ----- after any run

  lemma RaisedIsNewest(p: Params, w: World, e: Event)
    requires BooksOk(p, w) && Enabled(p, w, e) && Segment(p, w, e).1.Raised?
    ensures var w' := Step(p, w, e);
            if e.NextTurn? then Booked(w', e.rid, NextOf(w, e.rid), e.ctx) && NextOf(w, e.rid) - 1 in Turns(w'.s, e.rid)
            else Booked(w', e.rid, 0, FirstContext(w, e))
  {
    hide Step, Segment, Valid, PhasesMatch, Conserved, Charge, Enabled, NewestOf, LastTurn, FinalsFollow, Continue;
    var w' := Step(p, w, e);
    LedgerPulls.RaisedIsBooked(p, w, e);
    if e.NextTurn? {
      LaterEffect(p, w, e);
      RaisingTurnResides(p, w, e);
      NewestIs(w'.s.history[e.rid], NextOf(w, e.rid));
    } else {
      LedgerPulls.OnlyPlacementsRaise(p, w, e);
      FirstTurnEffect(p, w, e);
      NewestIs(w'.s.history[e.rid], 0);
    }
  }

  lemma RaisingTurnResides(p: Params, w: World, e: Event)
    requires Valid(p, w.s) && Enabled(p, w, e) && e.NextTurn? && Segment(p, w, e).1.Raised?
    ensures e.rid in w.s.resident
  {
    hide Valid, Segment, Moves;
    LedgerPulls.ContinueRaises(p, w, e);
  }

  // Over every run: when a call that raised is made again and booked, what the first booking added
  // stays on the replica it had chosen, and the books balance again exactly when that is nothing.
  lemma RepeatedCallsStrand(p: Params, events: seq<Event>, e: Event, final: Option<real>, work: Option<real>,
                            group: Option<GroupKey>, expired: bool)
    requires |p.replicas| > 0 && p.growth.priorWeight > -1.0
    requires Enabled(p, Run(p, events), e) && Segment(p, Run(p, events), e).1.Raised?
    ensures var (w, w') := (Run(p, events), Run(p, events + [e]));
            var (s, at) := (Declare(p, w'.s, e.rid, final), w'.s.resident);
            && e.rid in at
            && if e.NextTurn? then
                 var turn := NextOf(w, e.rid);
                 && turn - 1 in Turns(s, e.rid)
                 && Stranded(p, Continue(p, s, e.rid, turn, e.ctx).0, w'.shrink, at[e.rid], RetryExtra(p, s, e.rid, turn, e.ctx))
               else
                 var (ctx, r) := (FirstContext(w, e), Arrive(p, s, e.rid, FirstContext(w, e), work, group, expired));
                 !r.1.Await? ==> Stranded(p, r.0, w'.shrink, at[e.rid], ctx)
  {
    hide Run, Step, Enabled, Segment, Valid, PhasesMatch, Conserved, Stranded, Continue, Arrive, RetryExtra, Newest;
    var w := Run(p, events);
    RunsConserve(p, events);
    RunSnoc(p, events, e);
    var w' := Step(p, w, e);
    StepKeepsBooks(p, w, e);
    RaisedIsNewest(p, w, e);
    var s := Declare(p, w'.s, e.rid, final);
    if e.NextTurn? {
      LaterRetryStrands(p, w', s, e.rid, NextOf(w, e.rid), e.ctx);
    } else {
      var ctx := FirstContext(w, e);
      var r := Arrive(p, s, e.rid, ctx, work, group, expired);
      ArriveServes(p, s, e.rid, ctx, work, group, expired);
      if !r.1.Await? {
        FirstRetryStrands(p, w', s, e.rid, ctx, r);
      }
    }
  }

  // ----- a run that raises

  // Sessions 0 to k - 1 are booked with one token each on the first k replicas, in order.
  ghost predicate Filled(p: Params, w: World, k: nat)
  {
    && k <= |p.replicas| && Valid(p, w.s) && w.fed == []
    && (forall rid: RequestId :: rid in w.s.resident <==> rid < k)
    && (forall rid: RequestId :: rid < k ==> w.s.resident[rid] == p.replicas[rid] && rid in w.s.charge && w.s.charge[rid] >= 0.0)
    && (forall i :: 0 <= i < |p.replicas| ==> p.replicas[i] in w.s.used && w.s.used[p.replicas[i]] == if i < k then 1.0 else 0.0)
    && (forall rid: RequestId :: k <= rid ==> rid !in w.phase)
    && w.s.claimed == {}
  }

  lemma FilledFree(p: Params, w: World, k: nat, i: nat)
    requires Filled(p, w, k) && Scheduling.Distinct(p.replicas) && i < |p.replicas|
    ensures Free(p, w.s, p.replicas[i]) == p.budget - if i < k then 1.0 + w.s.charge[i] else 0.0
  {
    hide TablesOk;
    var on := On(w.s.resident, w.s.charge, p.replicas[i]);
    forall rid ensures rid in on <==> rid == i && i < k {
    }
    if i < k {
      assert on == map[i := w.s.charge[i]];
      TotalWithoutAny(on, i);
      assert on - {i} == map[];
    } else {
      assert on == map[];
    }
  }

  // The emptiest replica is the next one in the list.
  lemma NextIsEmptiest(p: Params, w: World, k: nat)
    requires Filled(p, w, k) && Scheduling.Distinct(p.replicas) && k < |p.replicas|
    ensures LeastLoaded(p, w.s) == p.replicas[k]
  {
    hide TablesOk, Free, Scheduling.ArgMax;
    var (free, best) := (FreeMap(p, w.s), LeastLoaded(p, w.s));
    var j :| 0 <= j < |p.replicas| && p.replicas[j] == best;
    FilledFree(p, w, k, j);
    FilledFree(p, w, k, k);
    assert Free(p, w.s, p.replicas[k]) <= Free(p, w.s, best);
    assert free[p.replicas[k]] == free[best];
    Scheduling.ArgMaxIsFirst(p.replicas, free, k);
  }

  lemma FilledAfter(p: Params, w: World, w': World, k: nat, c: real)
    requires Filled(p, w, k) && k < |p.replicas| && Scheduling.Distinct(p.replicas) && Valid(p, w'.s) && c >= 0.0
    requires w'.fed == [] && w'.s.claimed == {} && w'.phase.Keys == w.phase.Keys + {k}
    requires w'.s.resident == w.s.resident[k := p.replicas[k]] && w'.s.charge == w.s.charge[k := c]
    requires p.replicas[k] in w.s.used && w'.s.used == w.s.used[p.replicas[k] := w.s.used[p.replicas[k]] + 1.0]
    ensures Filled(p, w', k + 1)
  {
    hide Valid;
    OneMoreUsed(p, w.s.used, w'.s.used, k);
  }

  lemma OneMoreUsed(p: Params, used: map<Replica, real>, used': map<Replica, real>, k: nat)
    requires k < |p.replicas| && Scheduling.Distinct(p.replicas) && p.replicas[k] in used
    requires forall i :: 0 <= i < |p.replicas| ==> p.replicas[i] in used && used[p.replicas[i]] == if i < k then 1.0 else 0.0
    requires used' == used[p.replicas[k] := used[p.replicas[k]] + 1.0]
    ensures forall i :: 0 <= i < |p.replicas| ==> p.replicas[i] in used' && used'[p.replicas[i]] == if i < k + 1 then 1.0 else 0.0
  {
    forall i | 0 <= i < |p.replicas|
      ensures p.replicas[i] in used' && used'[p.replicas[i]] == if i < k + 1 then 1.0 else 0.0
    {
      assert i != k ==> p.replicas[i] != p.replicas[k];
    }
  }

  // A session out of time goes to the next replica.
  lemma NextSession(p: Params, w: World, k: nat, group: Option<GroupKey>) returns (c: real)
    requires BooksOk(p, w) && Filled(p, w, k) && Scheduling.Distinct(p.replicas) && k < |p.replicas| && !p.lptWindow
    requires Growth.NonNegativeConfig(p.growth) && Growth.Summarizes(p.growth, w.s.tables, w.fed)
    ensures var (e, r) := (Start(k, 1.0, None, None, group, true), p.replicas[k]);
            var w' := Step(p, w, e);
            && Enabled(p, w, e) && !Segment(p, w, e).1.Await? && w'.fed == [] && w'.phase == w.phase[k := InTurn(0, false)]
            && w'.s.resident == w.s.resident[k := r] && c >= 0.0 && w'.s.charge == w.s.charge[k := c]
            && r in w.s.used && w'.s.used == w.s.used[r := w.s.used[r] + 1.0]
  {
    hide Step, Segment, Growth.NonNegativeConfig, Growth.Summarizes, Charge, PhasesMatch, Conserved, LeastLoaded, Free,
         SameBooks, FinalsFollow, TablesOk, LedgerLandings.FollowerDestination;
    var e := Start(k, 1.0, None, None, group, true);
    NextIsEmptiest(p, w, k);
    LedgerLandings.FirstTurnGoes(p, w, e);
    FirstTurnEffect(p, w, e);
    StepIs(p, w, e);
    var s' := Step(p, w, e).s;
    c := s'.charge[k];
    LedgerBudget.ChargeNonNegative(p, s', [], k, 1.0, 0);
  }

  lemma FillOne(p: Params, w: World, k: nat)
    requires BooksOk(p, w) && Filled(p, w, k) && Scheduling.Distinct(p.replicas) && k < |p.replicas| && !p.lptWindow
    requires Growth.NonNegativeConfig(p.growth) && Growth.Summarizes(p.growth, w.s.tables, w.fed)
    ensures Filled(p, Step(p, w, Start(k, 1.0, None, None, None, true)), k + 1)
  {
    hide Step, Segment, Growth.NonNegativeConfig, Growth.Summarizes, PhasesMatch, Conserved, Valid, Filled;
    var e := Start(k, 1.0, None, None, None, true);
    var c := NextSession(p, w, k, None);
    LedgerPulls.FirstTurnGroups(p, w, e);
    StepIs(p, w, e);
    NothingClaimed(p, w, k);
    FilledAfter(p, w, Step(p, w, e), k, c);
  }

  lemma NothingClaimed(p: Params, w: World, k: nat)
    requires Filled(p, w, k)
    ensures w.s.claimed == {} && w.fed == []
  {
  }

  function Arrivals(k: nat): seq<Event> {
    if k == 0 then [] else Arrivals(k - 1) + [Start(k - 1, 1.0, None, None, None, true)]
  }

  lemma {:induction false} Fill(p: Params, k: nat)
    requires Scheduling.Distinct(p.replicas) && k < |p.replicas| && !p.lptWindow && Growth.NonNegativeConfig(p.growth)
    ensures Filled(p, Run(p, Arrivals(k)), k)
  {
    hide Run, Step, Growth.Summarizes, Filled, BooksOk;
    if k == 0 {
      NothingFilled(p);
    } else {
      Fill(p, k - 1);
      RunsConserve(p, Arrivals(k - 1));
      RunsSummarize(p, Arrivals(k - 1));
      RunSnoc(p, Arrivals(k - 1), Start(k - 1, 1.0, None, None, None, true));
      FillOne(p, Run(p, Arrivals(k - 1)), k - 1);
    }
  }

  lemma NothingFilled(p: Params)
    requires |p.replicas| > 0 && p.growth.priorWeight > -1.0
    ensures Filled(p, Run(p, []), 0)
  {
    BeginIsConserved(p);
  }

  // The session that leads a group is booked and its group waits ...
  lemma LeaderClaims(p: Params, w: World, e: Event, g: GroupKey)
    requires BooksOk(p, w) && Enabled(p, w, e) && p.stagger && e.Start? && e.group == Some(g) && g !in w.s.claimed
    ensures var s' := Step(p, w, e).s;
            e.rid in s'.resident && LedgerPulls.Claims(w.s, s', e.rid, g)
  {
    hide Step, Segment, Valid, PhasesMatch, Conserved;
    LeaderSegmentClaims(p, w, e, g);
    StepIs(p, w, e);
  }

  lemma LeaderSegmentClaims(p: Params, w: World, e: Event, g: GroupKey)
    requires Valid(p, w.s) && Enabled(p, w, e) && p.stagger && e.Start? && e.group == Some(g) && g !in w.s.claimed
    ensures LedgerPulls.Claims(w.s, Segment(p, w, e).0, e.rid, g)
  {
    hide Valid, StaggerEnter, LedgerPulls.Claims, LedgerPulls.SameGroups, Ordinary, Declare;
    var s0 := Declare(p, w.s, e.rid, e.final);
    LedgerLandings.DeclareKeepsTokens(p, w.s, e.rid, e.final);
    LeaderEnters(p, s0, e.rid, g, e.ctx, e.work, e.expired);
    SameQueuesClaim(w.s, s0, Segment(p, w, e).0, e.rid, g);
  }

  lemma LeaderEnters(p: Params, s: State, rid: RequestId, g: GroupKey, ctx: real, work: Option<real>, expired: bool)
    requires Valid(p, s) && g !in s.claimed
    ensures LedgerPulls.Claims(s, StaggerEnter(p, s, rid, g, ctx, work, expired).0, rid, g)
  {
    hide TablesOk, Charge, Added, Free, LeastLoaded, Follow;
  }

  lemma SameQueuesClaim(s: State, s0: State, s': State, rid: RequestId, g: GroupKey)
    requires SameQueues(s, s0) && LedgerPulls.Claims(s0, s', rid, g)
    ensures LedgerPulls.Claims(s, s', rid, g)
  {
  }

  // ... until it records its turn 0.
  lemma RecordReleases(p: Params, s: State, rid: RequestId, ctx: real, g: GroupKey)
    requires Valid(p, s) && p.stagger && rid in s.leaderRid && s.leaderRid[rid] == g && g in s.ready
    ensures var s' := Record(p, s, rid, 0, ctx);
            s'.ready == s.ready[g := true] && s'.claimed == s.claimed && s'.leader == s.leader
  {
    hide TablesOk, Charge;
  }

  lemma {:induction false} IndexOfDistinct(rs: seq<Replica>, k: nat)
    requires Scheduling.Distinct(rs) && k < |rs|
    ensures IndexOf(rs, rs[k]) == k
  {
    var i := IndexOf(rs, rs[k]);
    assert rs[i] == rs[k];
  }

  lemma HasOther(p: Params, s: State, k: nat)
    requires Valid(p, s) && Scheduling.Distinct(p.replicas) && k < |p.replicas| && |p.replicas| > 1
    ensures BestOther(p, s, p.replicas[k]).Some?
  {
    hide Valid, Free;
    var other := if k == 0 then p.replicas[1] else p.replicas[0];
    assert other in p.replicas && other != p.replicas[k];
    assert other in Others(p.replicas, p.replicas[k]);
  }

  // With more than 254 replicas, staggering and pulls, some run raises: 254 sessions fill the first
  // replicas, a group's leader is placed on the next one and recorded, and a member of its group
  // would pull from there.
  lemma LargeFleetRaises(p: Params, g: GroupKey) returns (events: seq<Event>, e: Event)
    requires Scheduling.Distinct(p.replicas) && |p.replicas| > 254 && Growth.NonNegativeConfig(p.growth)
    requires p.stagger && p.p2pAvailable && !p.lptWindow
    ensures Enabled(p, Run(p, events), e) && Segment(p, Run(p, events), e).1.Raised?
  {
    hide Run, Step, Segment, BooksOk, Growth.Summarizes, Filled, LedgerPulls.SourceOf, Arrivals, BestOther, IndexOf;
    var k := 254;
    var (lead, done) := (Start(k, 1.0, None, None, Some(g), true), Measured(k, 1.0));
    events, e := Arrivals(k) + [lead] + [done], Start(k + 1, 1.0, None, None, Some(g), true);
    Fill(p, k);
    RunsConserve(p, Arrivals(k));
    RunsSummarize(p, Arrivals(k));
    RunsConserve(p, Arrivals(k) + [lead]);
    RunSnoc(p, Arrivals(k), lead);
    RunSnoc(p, Arrivals(k) + [lead], done);
    LeaderReleased(p, Run(p, Arrivals(k)), k, g);
    var w := Run(p, events);
    assert Enabled(p, w, e);
    IndexOfDistinct(p.replicas, k);
    HasOther(p, w.s, k);
    PullsFromLeader(p, w, e, g);
    LedgerPulls.RaisesExactlyWhen(p, events, e);
  }

  ghost predicate RaisesAt(p: Params, events: seq<Event>, e: Event)
    requires |p.replicas| > 0 && p.growth.priorWeight > -1.0
  {
    Enabled(p, Run(p, events), e) && Segment(p, Run(p, events), e).1.Raised?
  }

  // So a staggered fleet that can pull has a raising run exactly when it does not fit the loopback
  // block.
  lemma FleetRaisesExactlyWhen(p: Params, g: GroupKey)
    requires |p.replicas| > 0 && Scheduling.Distinct(p.replicas) && Growth.NonNegativeConfig(p.growth)
    requires p.stagger && p.p2pAvailable && !p.lptWindow
    ensures (exists events, e :: RaisesAt(p, events, e)) <==> |p.replicas| > 254
  {
    hide Run, Segment, Enabled;
    if |p.replicas| > 254 {
      var events, e := LargeFleetRaises(p, g);
      assert RaisesAt(p, events, e);
    } else {
      forall events, e ensures !RaisesAt(p, events, e) {
        if Enabled(p, Run(p, events), e) {
          LedgerPulls.SmallFleetNeverRaises(p, events, e);
        }
      }
    }
  }

  lemma PullsFromLeader(p: Params, w: World, e: Event, g: GroupKey)
    requires Valid(p, w.s) && Enabled(p, w, e) && p.stagger && e.Start? && e.final.None? && e.group == Some(g)
    requires g in w.s.claimed && g in w.s.ready && w.s.ready[g] && g in w.s.leader
    requires BestOther(p, w.s, w.s.leader[g]).Some?
    ensures LedgerPulls.SourceOf(p, w, e) == Some(w.s.leader[g])
  {
    hide Valid, BestOther;
  }

  // The leader's replica, once its turn 0 is recorded.
  lemma LeaderReleased(p: Params, w: World, k: nat, g: GroupKey)
    requires BooksOk(p, w) && Filled(p, w, k) && Scheduling.Distinct(p.replicas) && k < |p.replicas|
    requires p.stagger && !p.lptWindow && Growth.NonNegativeConfig(p.growth)
    requires Growth.Summarizes(p.growth, w.s.tables, w.fed)
    ensures var w1 := Step(p, w, Start(k, 1.0, None, None, Some(g), true));
            var w2 := Step(p, w1, Measured(k, 1.0));
            && g in w2.s.claimed && g in w2.s.ready && w2.s.ready[g] && g in w2.s.leader && w2.s.leader[g] == p.replicas[k]
            && k + 1 !in w2.phase
  {
    hide Step, Segment, PhasesMatch, Conserved, Growth.Summarizes, Growth.NonNegativeConfig, Filled, Valid, Record;
    var lead := Start(k, 1.0, None, None, Some(g), true);
    NothingClaimed(p, w, k);
    NextIsNew(p, w, k);
    var c := NextSession(p, w, k, Some(g));
    LeaderClaims(p, w, lead, g);
    var w1 := Step(p, w, lead);
    StepIs(p, w1, Measured(k, 1.0));
    MeasuredSegment(p, w1, Measured(k, 1.0));
    RecordReleases(p, w1.s, k, 1.0, g);
  }

  lemma NextIsNew(p: Params, w: World, k: nat)
    requires Filled(p, w, k)
    ensures k + 1 !in w.phase
  {
  }

  lemma MeasuredSegment(p: Params, w: World, e: Event)
    requires Valid(p, w.s) && Enabled(p, w, e) && e.Measured?
    ensures Segment(p, w, e).0 == Record(p, w.s, e.rid, TurnNow(w, e.rid), e.ctx)
  {
    hide Valid, Record;
  }
}
