// Which answers name a source to pull from, and which socket they name: a turn that leaves its
// replica, and a released member of a group, whenever peers can pull.

module LedgerSources {
  import opened Text
  import opened Ledger
  import opened LedgerRuns
  import opened LedgerLandings
  import opened LedgerMoves
  import LedgerBudget

  // `from` stands first at place i of the fleet.
  ghost predicate StandsAt(p: Params, from: Replica, i: nat) {
    i < |p.replicas| && p.replicas[i] == from && from !in p.replicas[..i]
  }

  // The answer that sends a request to `dest` to pull from the replica at place i: its loopback
  // address and the pull port, none without pulls, and an error past the 254 addresses.
  function PullAnswer(p: Params, dest: Replica, i: nat): Outcome {
    if !p.p2pAvailable then Placed(dest, None)
    else if i < 254 then Placed(dest, Some("127.0.7." + Numeral(i + 1) + ":" + IntText(p.p2pPort)))
    else Raised
  }

  ghost predicate PullsFrom(p: Params, o: Outcome, dest: Replica, from: Replica) {
    exists i :: StandsAt(p, from, i) && o == PullAnswer(p, dest, i)
  }

  lemma {:induction false} IndexIsFirst(rs: seq<Replica>, r: Replica)
    requires r in rs
    ensures r !in rs[..IndexOf(rs, r)]
  {
    if rs[0] != r {
      IndexIsFirst(rs[1..], r);
      var i := IndexOf(rs[1..], r);
      assert rs[..i + 1] == [rs[0]] + rs[1..][..i];
    }
  }

  lemma PullIsAnswer(p: Params, dest: Replica, from: Replica)
    requires from in p.replicas
    ensures PullsFrom(p, Pull(p, dest, from), dest, from)
  {
    var i := IndexOf(p.replicas, from);
    IndexIsFirst(p.replicas, from);
    assert StandsAt(p, from, i);
    var host := "127.0.7." + Numeral(i + 1);
    assert host + (":" + IntText(p.p2pPort)) == host + ":" + IntText(p.p2pPort);
  }

  // The group whose released member this call places.
  ghost function ReleasedGroup(p: Params, w: World, e: Event): Option<GroupKey>
    requires Enabled(p, w, e)
  {
    match e
    case Start(_, _, _, _, group, _) =>
      if p.stagger && group.Some? && group.value in w.s.claimed && (group.value in w.s.ready ==> w.s.ready[group.value])
      then group else None
    case LeaderReady(rid, _) => Some(w.phase[rid].on.group)
    case _ => None
  }

  // The replica of its leader, if there is another one to go to.
  ghost predicate FollowsLeader(p: Params, w: World, e: Event, from: Replica)
    requires Valid(p, w.s) && Enabled(p, w, e)
  {
    var g := ReleasedGroup(p, w, e);
    && g.Some? && g.value in w.s.leader && w.s.leader[g.value] == from
    && exists q :: q in p.replicas && q != from
  }

  // What is answered to a call that was placed, given where the request then resides.
  ghost predicate AnsweredRightly(p: Params, w: World, e: Event, dest: Replica, o: Outcome)
    requires Valid(p, w.s) && Enabled(p, w, e)
  {
    if e.NextTurn? && e.rid in w.s.resident && dest != w.s.resident[e.rid] then PullsFrom(p, o, dest, w.s.resident[e.rid])
    else if exists from :: FollowsLeader(p, w, e, from) then
      exists from :: FollowsLeader(p, w, e, from) && PullsFrom(p, o, dest, from) && EmptiestBeside(p, w.s, from, dest)
    else o == Placed(dest, None)
  }

  // ----- first turns

  // The answer of a first-turn segment: waiting, or placed where the request now resides without a
  // source.
  ghost predicate WithoutSource(rid: RequestId, r: (State, Outcome)) {
    r.1.Await? || (rid in r.0.resident && r.1 == Placed(r.0.resident[rid], None))
  }

  lemma PlacedWithoutSource(p: Params, s: State, rid: RequestId, r: Replica, turn: nat, ctx: real)
    requires Valid(p, s) && r in p.replicas
    ensures WithoutSource(rid, PlaceOn(p, s, rid, r, turn, ctx))
  {
    hide TablesOk, Charge, Added;
  }

  lemma OrdinaryWithoutSource(p: Params, s: State, rid: RequestId, ctx: real, work: Option<real>, expired: bool)
    requires Valid(p, s)
    ensures WithoutSource(rid, Ordinary(p, s, rid, ctx, work, expired))
  {
    hide Valid, PlaceOn, LeastLoaded, Free, WithoutSource, LptEnter, Poll;
    var s1 := Admit(p, s);
    PlacedWithoutSource(p, s1, rid, LeastLoaded(p, s1), 0, ctx);
    EnterWithoutSource(p, s, rid, ctx, work);
    PollWithoutSource(p, s1, rid, ctx, expired);
  }

  lemma EnterWithoutSource(p: Params, s: State, rid: RequestId, ctx: real, work: Option<real>)
    requires Valid(p, s)
    ensures WithoutSource(rid, LptEnter(p, s, rid, ctx, work))
  {
    hide Valid, PlaceOn, LeastLoaded;
    PlacedWithoutSource(p, s, rid, LeastLoaded(p, s), 0, ctx);
  }

  lemma PollWithoutSource(p: Params, s: State, rid: RequestId, ctx: real, expired: bool)
    requires Valid(p, s)
    ensures WithoutSource(rid, Poll(p, s, rid, ctx, expired))
  {
    hide Valid, PlaceOn, LeastLoaded, Free;
    PlacedWithoutSource(p, s, rid, LeastLoaded(p, s), 0, ctx);
  }

  // A released member: to the emptiest replica besides the leader's, pulling from there; or as
  // without a group when it has no leader or no other replica.
  ghost predicate FollowAnswer(p: Params, s: State, rid: RequestId, g: GroupKey, r: (State, Outcome))
    requires Valid(p, s)
  {
    if g in s.leader && BestOther(p, s, s.leader[g]).Some?
    then
      && rid in r.0.resident && r.0.resident[rid] == BestOther(p, s, s.leader[g]).value
      && PullsFrom(p, r.1, r.0.resident[rid], s.leader[g])
    else WithoutSource(rid, r)
  }

  lemma FollowAnswers(p: Params, s: State, rid: RequestId, g: GroupKey, ctx: real, work: Option<real>, expired: bool)
    requires Valid(p, s)
    ensures FollowAnswer(p, s, rid, g, Follow(p, s, rid, g, ctx, work, expired))
  {
    hide Valid, Ordinary, BestOther, WithoutSource, PullsFrom, Book;
    OrdinaryWithoutSource(p, s, rid, ctx, work, expired);
    if g in s.leader {
      LeaderInFleet(p, s, g);
      var target := BestOther(p, s, s.leader[g]);
      if target.Some? {
        PullIsAnswer(p, target.value, s.leader[g]);
        BookResides(p, s, rid, target.value, 0, ctx);
      }
    }
  }

  lemma BookResides(p: Params, s: State, rid: RequestId, dest: Replica, turn: nat, ctx: real)
    requires Valid(p, s) && dest in p.replicas
    ensures var s' := Book(p, s, rid, dest, turn, ctx); rid in s'.resident && s'.resident[rid] == dest
  {
    hide TablesOk, Charge, Added;
  }

  lemma MemberAnswers(p: Params, s: State, rid: RequestId, g: GroupKey, ctx: real, work: Option<real>, expired: bool)
    requires Valid(p, s)
    ensures var r := StaggerEnter(p, s, rid, g, ctx, work, expired);
            if g in s.claimed && (g in s.ready ==> s.ready[g]) then FollowAnswer(p, s, rid, g, r) else WithoutSource(rid, r)
  {
    hide Valid, Follow, FollowAnswer, Book, Lead, LeastLoaded;
    FollowAnswers(p, s, rid, g, ctx, work, expired);
    if g !in s.claimed {
      var dest := LeastLoaded(p, s);
      BookResides(p, Lead(p, s, rid, g, dest), rid, dest, 0, ctx);
    }
  }

  lemma FinalsDoNotMatter(p: Params, s: State, s0: State, rid: RequestId, g: GroupKey, r: (State, Outcome))
    requires Valid(p, s) && Valid(p, s0) && LedgerBudget.SameTokens(s, s0) && SameQueues(s, s0)
    ensures FollowAnswer(p, s0, rid, g, r) <==> FollowAnswer(p, s, rid, g, r)
  {
    hide Valid, BestOther, WithoutSource, PullsFrom, LedgerBudget.SameTokens;
    if g in s.leader {
      SameTokensSameChoice(p, s, s0, s.leader[g]);
    }
  }

  lemma FirstTurnAnswers(p: Params, w: World, e: Event)
    requires Valid(p, w.s) && Enabled(p, w, e) && FirstTurn(e)
    ensures var (r, g) := (Segment(p, w, e), ReleasedGroup(p, w, e));
            if g.Some? then FollowAnswer(p, w.s, e.rid, g.value, r) else WithoutSource(e.rid, r)
  {
    hide Valid, Ordinary, Follow, StaggerEnter, Poll, PlaceOn, LeastLoaded, WithoutSource, FollowAnswer, Planned, CloseWindow,
         Declare, Forget, LedgerBudget.SameTokens;
    match e {
      case Start(rid, ctx, final, work, group, expired) =>
        var s0 := Declare(p, w.s, rid, final);
        DeclareKeepsTokens(p, w.s, rid, final);
        OrdinaryWithoutSource(p, s0, rid, ctx, work, expired);
        if group.Some? {
          MemberAnswers(p, s0, rid, group.value, ctx, work, expired);
          FinalsDoNotMatter(p, w.s, s0, rid, group.value, Segment(p, w, e));
        }
      case LeaderReady(rid, expired) =>
        FollowAnswers(p, w.s, rid, w.phase[rid].on.group, w.phase[rid].ctx, w.phase[rid].work, expired);
      case LeaderTimeout(rid, expired) => OrdinaryWithoutSource(p, w.s, rid, w.phase[rid].ctx, w.phase[rid].work, expired);
      case WindowEnd(rid) =>
        var s1 := CloseWindow(p, w.s);
        PlacedWithoutSource(p, Forget(p, s1, rid), rid, Planned(p, s1, rid), 0, w.phase[rid].ctx);
      case BatchReady(rid) => PlacedWithoutSource(p, Forget(p, w.s, rid), rid, Planned(p, w.s, rid), 0, w.phase[rid].ctx);
      case BatchTimeout(rid) => PlacedWithoutSource(p, w.s, rid, LeastLoaded(p, w.s), 0, w.phase[rid].ctx);
      case PollAgain(rid, expired) => PollWithoutSource(p, w.s, rid, w.phase[rid].ctx, expired);
    }
  }

  lemma FirstTurnIsAnswered(p: Params, w: World, e: Event)
    requires Valid(p, w.s) && Enabled(p, w, e) && FirstTurn(e) && !Segment(p, w, e).1.Await?
    ensures var r := Segment(p, w, e);
            e.rid in r.0.resident && AnsweredRightly(p, w, e, r.0.resident[e.rid], r.1)
  {
    hide Valid, Segment, BestOther, PullsFrom, EmptiestBeside, ReleasedGroup;
    FirstTurnAnswers(p, w, e);
    var g := ReleasedGroup(p, w, e);
    if g.Some? && g.value in w.s.leader {
      var from := w.s.leader[g.value];
      BestOtherIsEmptiest(p, w.s, from);
      assert (exists q :: q in p.replicas && q != from) ==> FollowsLeader(p, w, e, from);
    }
  }

  // ----- later turns

  lemma LaterAnswers(p: Params, s: State, rid: RequestId, turn: nat, ctx: real)
    requires Valid(p, s) && turn > 0
    ensures var r := Continue(p, s, rid, turn, ctx);
            && rid in r.0.resident
            && if rid in s.resident && r.0.resident[rid] != s.resident[rid]
               then PullsFrom(p, r.1, r.0.resident[rid], s.resident[rid])
               else r.1 == Placed(r.0.resident[rid], None)
  {
    hide Valid, Book, Release, Moves, Free, LeastLoaded, BestOther, PullsFrom, Pull;
    if rid !in s.resident {
      BookResides(p, s, rid, LeastLoaded(p, s), turn, ctx);
    } else {
      ResidesInFleet(p, s, rid);
      var here := s.resident[rid];
      if Moves(p, s, rid, turn, ctx) {
        MovesHasTarget(p, s, rid, turn, ctx);
        var dest := BestOther(p, s, here).value;
        PullIsAnswer(p, dest, here);
        BookResides(p, Release(p, s, rid, here, turn - 1), rid, dest, turn, ctx);
      } else {
        BookResides(p, s, rid, here, turn, ctx);
      }
    }
  }

  lemma LaterTurnIsAnswered(p: Params, w: World, e: Event)
    requires Valid(p, w.s) && Enabled(p, w, e) && e.NextTurn?
    ensures var r := Segment(p, w, e);
            e.rid in r.0.resident && AnsweredRightly(p, w, e, r.0.resident[e.rid], r.1)
  {
    hide Valid, Continue, PullsFrom, EmptiestBeside;
    DeclareKeepsTokens(p, w.s, e.rid, e.final);
    LaterAnswers(p, Declare(p, w.s, e.rid, e.final), e.rid, NextOf(w, e.rid), e.ctx);
  }

  // Over every run: a turn that leaves its replica, and a released member of a group that has
  // another replica to go to, are told to pull from the replica left or the leader's whenever peers
  // can pull and it is one of the first 254, by that replica's socket; nobody else is.
  lemma AnswersNameSources(p: Params, events: seq<Event>, e: Event)
    requires |p.replicas| > 0 && p.growth.priorWeight > -1.0
    requires var w := Run(p, events);
             Enabled(p, w, e) && (FirstTurn(e) || e.NextTurn?) && !Segment(p, w, e).1.Await?
    ensures var (w, w') := (Run(p, events), Run(p, events + [e]));
            e.rid in w'.s.resident && AnsweredRightly(p, w, e, w'.s.resident[e.rid], Segment(p, w, e).1)
  {
    hide Run, Step, Segment, AnsweredRightly, Enabled;
    var w := Run(p, events);
    RunSnoc(p, events, e);
    StepIs(p, w, e);
    if e.NextTurn? {
      LaterTurnIsAnswered(p, w, e);
    } else {
      FirstTurnIsAnswered(p, w, e);
    }
  }
}
