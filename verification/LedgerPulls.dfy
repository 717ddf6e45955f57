// Who leads a group, and what a kv_source may name, over every run.

module LedgerPulls {
  import opened Text
  import Growth
  import opened Addressing
  import opened Ledger
  import opened LedgerRuns

  ghost predicate SameGroups(s: State, s': State) {
    s'.claimed == s.claimed && s'.ready == s.ready && s'.leader == s.leader && s'.leaderRid == s.leaderRid
  }

  // Request rid takes the lead of a group nobody had claimed, on the replica it is placed on.
  ghost predicate Claims(s: State, s': State, rid: RequestId, g: GroupKey) {
    && g !in s.claimed && rid in s'.resident
    && s'.claimed == s.claimed + {g} && s'.ready == s.ready[g := false]
    && s'.leader == s.leader[g := s'.resident[rid]] && s'.leaderRid == s.leaderRid[rid := g]
  }

  // ----- the groups of every reachable world

  ghost predicate GroupOk(w: World, g: GroupKey) {
    && (g in w.s.claimed <==> g in w.s.leader) && (g in w.s.claimed <==> g in w.s.ready)
    && (g in w.s.claimed <==> g in w.leaderOf)
    && (g in w.leaderOf ==>
      && w.leaderOf[g] in w.s.leaderRid && w.s.leaderRid[w.leaderOf[g]] == g
      && w.leaderOf[g] in w.turn0
      && (g in w.s.leader ==> w.turn0[w.leaderOf[g]] == w.s.leader[g])
      && (g in w.s.ready && w.s.ready[g] ==> w.leaderOf[g] in w.recorded0))
  }

  ghost predicate MemberOk(w: World, rid: RequestId) {
    && (rid in w.s.leaderRid ==> w.s.leaderRid[rid] in w.leaderOf && w.leaderOf[w.s.leaderRid[rid]] == rid)
    && (rid in w.s.leaderRid || rid in w.turn0 || rid in w.recorded0 ==> rid in w.phase)
  }

  ghost predicate GroupsOk(w: World) {
    (forall g :: GroupOk(w, g)) && (forall rid :: MemberOk(w, rid))
  }

  // ----- how a segment touches the groups

  lemma FirstTurnGroups(p: Params, w: World, e: Event)
    requires Valid(p, w.s) && Enabled(p, w, e) && FirstTurn(e)
    ensures var s' := Segment(p, w, e).0;
            || SameGroups(w.s, s')
            || (e.Start? && e.group.Some? && Claims(w.s, s', e.rid, e.group.value))
  {
    hide TablesOk, Book, Free, Ordinary, Follow, Poll, TakeResult, CloseWindow, SameGroups, Claims, StaggerEnter;
    match e {
      case Start(rid, ctx, final, work, group, expired) =>
        ArriveGroups(p, Declare(p, w.s, rid, final), rid, ctx, work, group, expired);
        DeclareGroups(p, w.s, Declare(p, w.s, rid, final), Segment(p, w, e).0, rid, final, group);
      case LeaderReady(rid, expired) =>
        FollowGroups(p, w.s, rid, w.phase[rid].on.group, w.phase[rid].ctx, w.phase[rid].work, expired);
      case LeaderTimeout(rid, expired) => OrdinaryGroups(p, w.s, rid, w.phase[rid].ctx, w.phase[rid].work, expired);
      case WindowEnd(rid) => WindowGroups(p, w.s, rid, w.phase[rid].ctx);
      case BatchReady(rid) => TakeGroups(p, w.s, rid, w.phase[rid].ctx);
      case BatchTimeout(rid) => BookGroups(p, w.s, rid, LeastLoaded(p, w.s), 0, w.phase[rid].ctx);
      case PollAgain(rid, expired) => PollGroups(p, w.s, rid, w.phase[rid].ctx, expired);
    }
  }

  lemma DeclareGroups(p: Params, s: State, s0: State, s': State, rid: RequestId, final: Option<real>, group: Option<GroupKey>)
    requires Valid(p, s) && s0 == Declare(p, s, rid, final)
    requires SameGroups(s0, s') || (group.Some? && Claims(s0, s', rid, group.value))
    ensures SameGroups(s, s') || (group.Some? && Claims(s, s', rid, group.value))
  {
  }

  lemma ArriveGroups(p: Params, s: State, rid: RequestId, ctx: real, work: Option<real>, group: Option<GroupKey>, expired: bool)
    requires Valid(p, s)
    ensures var s' := Arrive(p, s, rid, ctx, work, group, expired).0;
            SameGroups(s, s') || (group.Some? && Claims(s, s', rid, group.value))
  {
    hide Valid, Ordinary, StaggerEnter, SameGroups, Claims;
    OrdinaryGroups(p, s, rid, ctx, work, expired);
    if group.Some? {
      EnterGroups(p, s, rid, group.value, ctx, work, expired);
    }
  }

  lemma TakeGroups(p: Params, s: State, rid: RequestId, ctx: real)
    requires Valid(p, s)
    ensures SameGroups(s, TakeResult(p, s, rid, ctx).0)
  {
    hide Valid, Book, Planned;
    BookGroups(p, Forget(p, s, rid), rid, Planned(p, s, rid), 0, ctx);
  }

  lemma WindowGroups(p: Params, s: State, rid: RequestId, ctx: real)
    requires Valid(p, s)
    ensures SameGroups(s, TakeResult(p, CloseWindow(p, s), rid, ctx).0)
  {
    hide TablesOk, TakeResult, Plan, BatchPlacement;
    TakeGroups(p, CloseWindow(p, s), rid, ctx);
  }

  lemma BookGroups(p: Params, s: State, rid: RequestId, dest: Replica, turn: nat, ctx: real)
    requires Valid(p, s) && dest in p.replicas
    ensures SameGroups(s, Book(p, s, rid, dest, turn, ctx))
  {
    hide TablesOk, Charge, Added;
  }

  lemma PollGroups(p: Params, s: State, rid: RequestId, ctx: real, expired: bool)
    requires Valid(p, s)
    ensures SameGroups(s, Poll(p, s, rid, ctx, expired).0)
  {
    hide TablesOk, Book, Free;
    BookGroups(p, s, rid, LeastLoaded(p, s), 0, ctx);
  }

  lemma OrdinaryGroups(p: Params, s: State, rid: RequestId, ctx: real, work: Option<real>, expired: bool)
    requires Valid(p, s)
    ensures SameGroups(s, Ordinary(p, s, rid, ctx, work, expired).0)
  {
    hide Valid, Book, Free, Poll, LptEnter, SameBooks;
    LptEnterGroups(p, s, rid, ctx, work);
    var s1 := Admit(p, s);
    PollGroups(p, s1, rid, ctx, expired);
    BookGroups(p, s1, rid, LeastLoaded(p, s1), 0, ctx);
  }

  lemma LptEnterGroups(p: Params, s: State, rid: RequestId, ctx: real, work: Option<real>)
    requires Valid(p, s)
    ensures SameGroups(s, LptEnter(p, s, rid, ctx, work).0)
  {
    hide TablesOk, Book, Free;
    BookGroups(p, s, rid, LeastLoaded(p, s), 0, ctx);
  }

  lemma FollowGroups(p: Params, s: State, rid: RequestId, g: GroupKey, ctx: real, work: Option<real>, expired: bool)
    requires Valid(p, s)
    ensures SameGroups(s, Follow(p, s, rid, g, ctx, work, expired).0)
  {
    hide TablesOk, Charge, Free, LeastLoaded, Added, Ordinary;
    OrdinaryGroups(p, s, rid, ctx, work, expired);
  }

  lemma EnterGroups(p: Params, s: State, rid: RequestId, g: GroupKey, ctx: real, work: Option<real>, expired: bool)
    requires Valid(p, s)
    ensures var s' := StaggerEnter(p, s, rid, g, ctx, work, expired).0;
            SameGroups(s, s') || Claims(s, s', rid, g)
  {
    hide TablesOk, Charge, Free, LeastLoaded, Added, Follow;
    FollowGroups(p, s, rid, g, ctx, work, expired);
  }

  lemma LaterGroups(p: Params, s: State, rid: RequestId, turn: nat, ctx: real)
    requires Valid(p, s) && turn > 0
    ensures SameGroups(s, Continue(p, s, rid, turn, ctx).0)
  {
    hide TablesOk, Book, Release, Moves, Free, LeastLoaded;
    if rid !in s.resident {
      BookGroups(p, s, rid, LeastLoaded(p, s), turn, ctx);
    } else if Moves(p, s, rid, turn, ctx) {
      MovesHasTarget(p, s, rid, turn, ctx);
      MigrateGroups(p, s, rid, BestOther(p, s, s.resident[rid]).value, turn, ctx);
    } else {
      BookGroups(p, s, rid, s.resident[rid], turn, ctx);
    }
  }

  lemma MigrateGroups(p: Params, s: State, rid: RequestId, dest: Replica, turn: nat, ctx: real)
    requires Valid(p, s) && rid in s.resident && dest in p.replicas && turn > 0
    ensures SameGroups(s, Migrate(p, s, rid, dest, turn, ctx).0)
  {
    hide TablesOk, Book, Pull;
    BookGroups(p, Release(p, s, rid, s.resident[rid], turn - 1), rid, dest, turn, ctx);
  }

  lemma FinishGroups(p: Params, s: State, rid: RequestId)
    requires Valid(p, s)
    ensures SameGroups(s, Finish(p, s, rid))
  {
    hide Valid, Finish;
    FinishKeepsQueues(p, s, rid);
  }

  // ----- steps keep the groups in order

  lemma StepTracks(p: Params, w: World, e: Event)
    requires Valid(p, w.s) && Enabled(p, w, e)
    ensures var (w', s) := (Step(p, w, e), Segment(p, w, e).0);
            && w'.turn0 == (if e.rid in s.resident && e.rid !in w.turn0 then w.turn0[e.rid := s.resident[e.rid]] else w.turn0)
            && w'.recorded0 == (if e.Measured? && TurnNow(w, e.rid) == 0 then w.recorded0 + {e.rid} else w.recorded0)
            && w'.leaderOf == (if s.claimed != w.s.claimed && e.rid in s.leaderRid then w.leaderOf[s.leaderRid[e.rid] := e.rid] else w.leaderOf)
  {
    hide Valid, Segment, NewPhase, Shrunk, Fed;
  }

  lemma UntouchedGroups(w: World, w': World, rid: RequestId)
    requires GroupsOk(w) && SameGroups(w.s, w'.s)
    requires rid in w'.phase && forall q :: q in w.phase ==> q in w'.phase
    requires w'.leaderOf == w.leaderOf && w.recorded0 <= w'.recorded0 <= w.recorded0 + {rid}
    requires w'.turn0 == w.turn0 || (rid !in w.turn0 && rid in w'.turn0 && w'.turn0 == w.turn0[rid := w'.turn0[rid]])
    ensures GroupsOk(w')
  {
    forall g ensures GroupOk(w', g) {
      assert GroupOk(w, g);
    }
    forall q ensures MemberOk(w', q) {
      assert MemberOk(w, q);
    }
  }

  lemma ClaimedGroup(w: World, w': World, rid: RequestId, g: GroupKey)
    requires GroupsOk(w) && Claims(w.s, w'.s, rid, g)
    requires rid !in w.phase && rid in w'.phase && forall q :: q in w.phase ==> q in w'.phase
    requires w'.leaderOf == w.leaderOf[g := rid] && w'.recorded0 == w.recorded0
    requires w'.turn0 == w.turn0[rid := w'.s.resident[rid]]
    ensures GroupsOk(w')
  {
    assert MemberOk(w, rid);
    forall h ensures GroupOk(w', h) {
      assert GroupOk(w, h);
    }
    forall q ensures MemberOk(w', q) {
      assert MemberOk(w, q);
      if q in w.s.leaderRid {
        assert GroupOk(w, w.s.leaderRid[q]);
      }
    }
    assert GroupOk(w, g);
  }

  lemma ReadyGroup(w: World, w': World, rid: RequestId)
    requires GroupsOk(w)
    requires w'.s.claimed == w.s.claimed && w'.s.leader == w.s.leader && w'.s.leaderRid == w.s.leaderRid
    requires w'.s.ready == w.s.ready
             || (rid in w.s.leaderRid && w.s.leaderRid[rid] in w.s.ready && rid in w'.recorded0
                 && w'.s.ready == w.s.ready[w.s.leaderRid[rid] := true])
    requires rid in w'.phase && forall q :: q in w.phase ==> q in w'.phase
    requires w'.leaderOf == w.leaderOf && w.recorded0 <= w'.recorded0 <= w.recorded0 + {rid} && w'.turn0 == w.turn0
    ensures GroupsOk(w')
  {
    assert MemberOk(w, rid);
    forall g ensures GroupOk(w', g) {
      assert GroupOk(w, g);
    }
    forall q ensures MemberOk(w', q) {
      assert MemberOk(w, q);
    }
  }

  // A request that is resident was once placed for the first time.
  ghost predicate PlacedOnce(w: World) {
    forall rid :: rid in w.s.resident ==> rid in w.turn0
  }

  lemma FirstTurnKeepsGroups(p: Params, w: World, e: Event)
    requires BooksOk(p, w) && GroupsOk(w) && Enabled(p, w, e) && FirstTurn(e)
    ensures GroupsOk(Step(p, w, e))
  {
    hide Step, Segment, GroupsOk, Valid, PhasesMatch, Conserved, SameBooks, BookedTurn, FinalsFollow, NewPhase, Shrunk, Fed;
    FirstTurnGroups(p, w, e);
    FirstTurnEffect(p, w, e);
    StepIs(p, w, e);
    StepTracks(p, w, e);
    if SameGroups(w.s, Segment(p, w, e).0) {
      UntouchedGroups(w, Step(p, w, e), e.rid);
    } else {
      FreshIsUntracked(w, e.rid);
      ClaimedGroup(w, Step(p, w, e), e.rid, e.group.value);
    }
  }

  lemma FreshIsUntracked(w: World, rid: RequestId)
    requires GroupsOk(w) && rid !in w.phase
    ensures rid !in w.turn0
  {
    assert MemberOk(w, rid);
  }

  lemma LaterKeepsGroups(p: Params, w: World, e: Event)
    requires BooksOk(p, w) && GroupsOk(w) && Enabled(p, w, e) && e.NextTurn?
    ensures GroupsOk(Step(p, w, e))
  {
    hide Step, GroupsOk, Valid, PhasesMatch, Conserved, BookedTurn, FinalsFollow, NewPhase, Shrunk, Fed, Continue;
    LaterEffect(p, w, e);
    LaterGroups(p, Declare(p, w.s, e.rid, e.final), e.rid, NextOf(w, e.rid), e.ctx);
    StepIs(p, w, e);
    StepTracks(p, w, e);
    UntouchedGroups(w, Step(p, w, e), e.rid);
  }

  lemma MeasuredKeepsGroups(p: Params, w: World, e: Event)
    requires BooksOk(p, w) && GroupsOk(w) && PlacedOnce(w) && Enabled(p, w, e) && e.Measured?
    ensures GroupsOk(Step(p, w, e))
  {
    hide Step, GroupsOk, TablesOk, PhasesMatch, Conserved, NewPhase, Shrunk, Fed, Charge;
    StepIs(p, w, e);
    StepTracks(p, w, e);
    ReadyGroup(w, Step(p, w, e), e.rid);
  }

  lemma CompletedKeepsGroups(p: Params, w: World, e: Event)
    requires BooksOk(p, w) && GroupsOk(w) && Enabled(p, w, e) && e.Completed?
    ensures GroupsOk(Step(p, w, e))
  {
    hide Step, GroupsOk, Valid, PhasesMatch, Conserved, NewPhase, Shrunk, Fed, Finish, SameGroups;
    StepIs(p, w, e);
    StepTracks(p, w, e);
    CompletedStep(p, w, e);
    CompletedEffect(p, w, e);
    FinishGroups(p, w.s, e.rid);
    GroupsDecideLeaders(w.s, Step(p, w, e).s);
    UntouchedGroups(w, Step(p, w, e), e.rid);
  }

  lemma GroupsDecideLeaders(s: State, s': State)
    requires SameGroups(s, s')
    ensures s'.claimed == s.claimed
  {
  }

  lemma StepKeepsPlaced(p: Params, w: World, e: Event)
    requires BooksOk(p, w) && PlacedOnce(w) && Enabled(p, w, e)
    ensures PlacedOnce(Step(p, w, e))
  {
    hide Step, Segment, Valid, PhasesMatch, Conserved, SameBooks, FinalsFollow, NewPhase, Shrunk, Fed, Charge;
    StepIs(p, w, e);
    StepTracks(p, w, e);
    if e.NextTurn? {
      LaterEffect(p, w, e);
    } else if e.Measured? {
      MeasuredEffect(p, w, e);
    } else if e.Completed? {
      CompletedEffect(p, w, e);
    } else {
      FirstTurnPlaces(p, w, e);
    }
  }

  lemma FirstTurnPlaces(p: Params, w: World, e: Event)
    requires BooksOk(p, w) && Enabled(p, w, e) && FirstTurn(e)
    ensures var s' := Step(p, w, e).s;
            forall rid :: rid in s'.resident ==> rid == e.rid || rid in w.s.resident
  {
    hide Step, Segment, Valid, PhasesMatch, Conserved, FinalsFollow, Charge;
    FirstTurnEffect(p, w, e);
  }

  // In every reachable world each claimed group has exactly one leader, its recorded replica is
  // the leader's turn-0 replica, and it is ready only once that leader recorded turn 0.
  lemma {:induction false} GroupsStayOk(p: Params, events: seq<Event>)
    requires |p.replicas| > 0 && p.growth.priorWeight > -1.0
    ensures GroupsOk(Run(p, events)) && PlacedOnce(Run(p, events))
  {
    hide Step, GroupsOk, PlacedOnce, BooksOk, Enabled;
    if |events| == 0 {
      NoGroupsAtFirst(p);
    } else {
      var (w, e) := (Run(p, events[..|events| - 1]), events[|events| - 1]);
      RunsConserve(p, events[..|events| - 1]);
      GroupsStayOk(p, events[..|events| - 1]);
      if !Enabled(p, w, e) {
        DisabledIsIdle(p, w, e);
      } else {
        StepKeepsPlaced(p, w, e);
        if e.NextTurn? {
          LaterKeepsGroups(p, w, e);
        } else if e.Measured? {
          MeasuredKeepsGroups(p, w, e);
        } else if e.Completed? {
          CompletedKeepsGroups(p, w, e);
        } else {
          FirstTurnKeepsGroups(p, w, e);
        }
      }
    }
  }

  lemma NoGroupsAtFirst(p: Params)
    ensures GroupsOk(Begin(p)) && PlacedOnce(Begin(p))
  {
  }

  // ----- what a kv_source names

  // The one replica a source names is `from`, which is not the destination.
  ghost predicate Names(p: Params, source: string, from: Replica, dest: Replica) {
    && from in p.replicas && from != dest
    && var (host, port) := ReadSocketName(source);
       && port == Some(p.p2pPort)
       && ListenerHost(IndexOf(p.replicas, from)) == Some(host)
       && forall i: int :: ListenerHost(i) == Some(host) ==> i == IndexOf(p.replicas, from)
  }

  lemma PullNames(p: Params, dest: Replica, from: Replica)
    requires from in p.replicas && from != dest
    requires Pull(p, dest, from).Placed? && Pull(p, dest, from).source.Some?
    ensures Names(p, Pull(p, dest, from).source.value, from, dest)
  {
    var host := ListenerHost(IndexOf(p.replicas, from)).value;
    SocketNameRoundTrip(host, p.p2pPort);
    forall i: int | ListenerHost(i) == Some(host) ensures i == IndexOf(p.replicas, from) {
      ListenerHostInjective(i, IndexOf(p.replicas, from));
    }
  }

  // A first turn pulls only from a group leader that has recorded its own turn 0, and from the
  // replica that leader's turn 0 was placed on.
  ghost predicate FromReadyLeader(w: World, rid: RequestId, from: Replica) {
    exists g :: FromLeaderOf(w, g, rid, from)
  }

  ghost predicate FromLeaderOf(w: World, g: GroupKey, rid: RequestId, from: Replica) {
    && g in w.s.claimed && g in w.leaderOf && w.leaderOf[g] != rid
    && w.leaderOf[g] in w.recorded0 && w.leaderOf[g] in w.turn0 && w.turn0[w.leaderOf[g]] == from
  }

  // Event e, answered by o, pulls from `from` for one of the allowed reasons.
  ghost predicate PullFrom(p: Params, w: World, e: Event, o: Outcome, from: Replica)
    requires o.Placed? && o.source.Some?
  {
    && Names(p, o.source.value, from, o.replica)
    && if e.NextTurn? then e.rid in w.s.resident && w.s.resident[e.rid] == from
       else FromReadyLeader(w, e.rid, from)
  }

  lemma FollowPulls(p: Params, w: World, s: State, rid: RequestId, g: GroupKey, ctx: real, work: Option<real>, expired: bool)
    requires Valid(p, s) && GroupsOk(w) && s.leader == w.s.leader && rid !in w.turn0
    requires g in w.s.claimed && g in w.s.ready && w.s.ready[g]
    ensures var o := Follow(p, s, rid, g, ctx, work, expired).1;
            o.Placed? && o.source.Some? ==>
              exists from :: Names(p, o.source.value, from, o.replica) && FromReadyLeader(w, rid, from)
  {
    hide TablesOk, Book, Ordinary, BestOther, Names;
    assert GroupOk(w, g);
    OrdinaryPullsNothing(p, s, rid, ctx, work, expired);
    var target := BestOther(p, s, s.leader[g]);
    if target.Some? {
      var o := Pull(p, target.value, s.leader[g]);
      if o.Placed? && o.source.Some? {
        PullNames(p, target.value, s.leader[g]);
        PullPlacesAt(p, target.value, s.leader[g]);
        assert FromLeaderOf(w, g, rid, s.leader[g]);
      }
    }
  }

  lemma PullPlacesAt(p: Params, dest: Replica, from: Replica)
    requires from in p.replicas && Pull(p, dest, from).Placed?
    ensures Pull(p, dest, from).replica == dest
  {
  }

  lemma OrdinaryPullsNothing(p: Params, s: State, rid: RequestId, ctx: real, work: Option<real>, expired: bool)
    requires Valid(p, s)
    ensures var o := Ordinary(p, s, rid, ctx, work, expired).1; o.Placed? ==> o.source.None?
  {
    hide Valid, Book, Free, LeastLoaded;
  }

  lemma FirstTurnPulls(p: Params, w: World, e: Event)
    requires BooksOk(p, w) && GroupsOk(w) && UnplacedWaits(w) && Enabled(p, w, e) && FirstTurn(e)
    ensures var o := Segment(p, w, e).1;
            o.Placed? && o.source.Some? ==>
              exists from :: Names(p, o.source.value, from, o.replica) && FromReadyLeader(w, e.rid, from)
  {
    hide Valid, Book, Ordinary, Names, Follow, PhasesMatch, Conserved, Free, CloseWindow, FromReadyLeader;
    match e {
      case Start(rid, ctx, final, work, group, expired) =>
        var s0 := Declare(p, w.s, rid, final);
        FreshIsUntracked(w, rid);
        OrdinaryPullsNothing(p, s0, rid, ctx, work, expired);
        if group.Some? {
          var g := group.value;
          assert GroupOk(w, g);
          if g in w.s.claimed && w.s.ready[g] {
            FollowPulls(p, w, s0, rid, g, ctx, work, expired);
          }
        }
      case LeaderReady(rid, expired) =>
        var g := w.phase[rid].on.group;
        assert GroupOk(w, g);
        assert rid !in w.turn0;
        FollowPulls(p, w, w.s, rid, g, w.phase[rid].ctx, w.phase[rid].work, expired);
      case LeaderTimeout(rid, expired) => OrdinaryPullsNothing(p, w.s, rid, w.phase[rid].ctx, w.phase[rid].work, expired);
      case WindowEnd(rid) =>
      case BatchReady(rid) =>
      case BatchTimeout(rid) =>
      case PollAgain(rid, expired) =>
    }
  }

  // A waiting request has not been placed yet.
  ghost predicate UnplacedWaits(w: World) {
    forall rid :: rid in w.phase && w.phase[rid].Waiting? ==> rid !in w.turn0
  }

  lemma {:induction false} WaitsAreUnplaced(p: Params, events: seq<Event>)
    requires |p.replicas| > 0 && p.growth.priorWeight > -1.0
    ensures UnplacedWaits(Run(p, events))
  {
    hide Step, BooksOk, Enabled, GroupsOk;
    if |events| > 0 {
      var (w, e) := (Run(p, events[..|events| - 1]), events[|events| - 1]);
      RunsConserve(p, events[..|events| - 1]);
      GroupsStayOk(p, events[..|events| - 1]);
      WaitsAreUnplaced(p, events[..|events| - 1]);
      if !Enabled(p, w, e) {
        DisabledIsIdle(p, w, e);
      } else {
        StepKeepsWaitsUnplaced(p, w, e);
      }
    }
  }

  lemma StepKeepsWaitsUnplaced(p: Params, w: World, e: Event)
    requires BooksOk(p, w) && GroupsOk(w) && UnplacedWaits(w) && Enabled(p, w, e)
    ensures UnplacedWaits(Step(p, w, e))
  {
    hide Step, Segment, Valid, PhasesMatch, Conserved, FinalsFollow, NewPhase, Shrunk, Fed, Charge, GroupsOk, BookedTurn, SameBooks, ObserveAll, FinalObservations;
    StepIs(p, w, e);
    StepTracks(p, w, e);
    if e.NextTurn? {
      LaterEffect(p, w, e);
    } else if e.Measured? {
      MeasuredEffect(p, w, e);
    } else if e.Completed? {
      CompletedEffect(p, w, e);
    } else {
      FirstWaitIsUnplaced(p, w, e);
    }
  }

  lemma FirstWaitIsUnplaced(p: Params, w: World, e: Event)
    requires BooksOk(p, w) && GroupsOk(w) && UnplacedWaits(w) && Enabled(p, w, e) && FirstTurn(e)
    ensures var w' := Step(p, w, e);
            && e.rid in w'.phase && w'.phase == w.phase[e.rid := w'.phase[e.rid]]
            && (w'.phase[e.rid].Waiting? ==> e.rid !in w'.s.resident && e.rid !in w.turn0)
  {
    hide Step, Segment, Valid, PhasesMatch, Conserved, FinalsFollow, Charge, GroupsOk;
    FirstTurnEffect(p, w, e);
    if e.Start? {
      FreshIsUntracked(w, e.rid);
    }
  }

  lemma LaterPulls(p: Params, s: State, rid: RequestId, turn: nat, ctx: real)
    requires Valid(p, s) && turn > 0
    ensures var o := Continue(p, s, rid, turn, ctx).1;
            o.Placed? && o.source.Some? ==>
              rid in s.resident && Names(p, o.source.value, s.resident[rid], o.replica)
  {
    hide TablesOk, Charge, Added, Book, Release, Names, Moves, Free, BestOther, Pull;
    if rid in s.resident && Moves(p, s, rid, turn, ctx) {
      MovesHasTarget(p, s, rid, turn, ctx);
      var (dest, from) := (BestOther(p, s, s.resident[rid]).value, s.resident[rid]);
      var o := Pull(p, dest, from);
      if o.Placed? && o.source.Some? {
        PullNames(p, dest, from);
        PullPlacesAt(p, dest, from);
      }
    }
  }

  // Over every run: a kv_source names exactly one replica of the fleet, never the destination; a
  // later turn's is the request's previous residence, and a first turn's is the turn-0 replica of
  // a group leader whose own turn 0 is recorded.
  lemma PullsAreSafe(p: Params, events: seq<Event>, e: Event)
    requires |p.replicas| > 0 && p.growth.priorWeight > -1.0
    requires Enabled(p, Run(p, events), e)
    requires Segment(p, Run(p, events), e).1.Placed? && Segment(p, Run(p, events), e).1.source.Some?
    ensures exists from :: PullFrom(p, Run(p, events), e, Segment(p, Run(p, events), e).1, from)
  {
    hide Run, GroupsOk, UnplacedWaits, Names, FromReadyLeader, Continue, BooksOk, Segment;
    var w := Run(p, events);
    RunsConserve(p, events);
    GroupsStayOk(p, events);
    WaitsAreUnplaced(p, events);
    var o := Segment(p, w, e).1;
    if e.NextTurn? {
      LaterSegment(p, w, e);
      LaterPulls(p, Declare(p, w.s, e.rid, e.final), e.rid, NextOf(w, e.rid), e.ctx);
      assert PullFrom(p, w, e, o, w.s.resident[e.rid]);
    } else {
      OnlyPlacementsPull(p, w, e);
      FirstTurnPulls(p, w, e);
      var from :| Names(p, o.source.value, from, o.replica) && FromReadyLeader(w, e.rid, from);
      assert PullFrom(p, w, e, o, from);
    }
  }

  lemma LaterSegment(p: Params, w: World, e: Event)
    requires Valid(p, w.s) && Enabled(p, w, e) && e.NextTurn?
    ensures var s0 := Declare(p, w.s, e.rid, e.final);
            && Valid(p, s0) && s0.resident == w.s.resident && NextOf(w, e.rid) > 0
            && Segment(p, w, e) == Continue(p, s0, e.rid, NextOf(w, e.rid), e.ctx)
  {
    hide Continue;
  }

  lemma OnlyPlacementsPull(p: Params, w: World, e: Event)
    requires Valid(p, w.s) && Enabled(p, w, e) && Segment(p, w, e).1.Placed? && !e.NextTurn?
    ensures FirstTurn(e)
  {
  }

  // ----- when a call raises

  // The replica a member of group g would pull from.
  ghost function LeaderSource(p: Params, s: State, g: GroupKey): (from: Option<Replica>)
    requires Valid(p, s)
    ensures from.Some? ==> from.value in p.replicas
  {
    if g in s.leader && BestOther(p, s, s.leader[g]).Some? then Some(s.leader[g]) else None
  }

  // The replica the event would pull from, whether or not peers can: a released group member's
  // leader, and the old replica of a turn that moves.
  ghost function SourceOf(p: Params, w: World, e: Event): (from: Option<Replica>)
    requires Valid(p, w.s) && Enabled(p, w, e)
    ensures from.Some? ==> from.value in p.replicas
  {
    match e
    case Start(rid, _, final, _, group, _) =>
      if p.stagger && group.Some? && group.value in w.s.claimed && Growth.Get(w.s.ready, group.value, true)
      then LeaderSource(p, Declare(p, w.s, rid, final), group.value) else None
    case LeaderReady(rid, _) => LeaderSource(p, w.s, w.phase[rid].on.group)
    case NextTurn(rid, ctx, final) =>
      if rid in w.s.resident && Moves(p, Declare(p, w.s, rid, final), rid, NextOf(w, rid), ctx)
      then Some(w.s.resident[rid]) else None
    case _ => None
  }

  lemma OrdinaryNeverRaises(p: Params, s: State, rid: RequestId, ctx: real, work: Option<real>, expired: bool)
    requires Valid(p, s)
    ensures !Ordinary(p, s, rid, ctx, work, expired).1.Raised?
  {
    hide Valid, Book, Free, LeastLoaded;
  }

  lemma PullRaises(p: Params, dest: Replica, from: Replica)
    requires from in p.replicas
    ensures Pull(p, dest, from).Raised? <==> p.p2pAvailable && IndexOf(p.replicas, from) > 253
    ensures Pull(p, dest, from).Raised? || Pull(p, dest, from).Placed?
  {
  }

  // An answer that would name this source, if any, as the replica's listener.
  ghost predicate RaisesFor(p: Params, o: Outcome, from: Option<Replica>)
    requires from.Some? ==> from.value in p.replicas
  {
    o.Raised? <==> p.p2pAvailable && from.Some? && IndexOf(p.replicas, from.value) > 253
  }

  lemma FollowRaises(p: Params, s: State, rid: RequestId, g: GroupKey, ctx: real, work: Option<real>, expired: bool)
    requires Valid(p, s)
    ensures RaisesFor(p, Follow(p, s, rid, g, ctx, work, expired).1, LeaderSource(p, s, g))
  {
    hide TablesOk, Book, Ordinary, BestOther, IndexOf, Pull;
    OrdinaryNeverRaises(p, s, rid, ctx, work, expired);
    var from := LeaderSource(p, s, g);
    if from.Some? {
      PullRaises(p, BestOther(p, s, from.value).value, from.value);
    }
  }

  lemma EnterRaises(p: Params, s: State, rid: RequestId, g: GroupKey, ctx: real, work: Option<real>, expired: bool)
    requires Valid(p, s)
    ensures RaisesFor(p, StaggerEnter(p, s, rid, g, ctx, work, expired).1,
                      if g in s.claimed && Growth.Get(s.ready, g, true) then LeaderSource(p, s, g) else None)
  {
    hide Valid, Book, Follow, LeaderSource, IndexOf, LeastLoaded, Lead;
    FollowRaises(p, s, rid, g, ctx, work, expired);
  }

  lemma StartRaises(p: Params, w: World, e: Event)
    requires Valid(p, w.s) && Enabled(p, w, e) && e.Start?
    ensures RaisesFor(p, Segment(p, w, e).1, SourceOf(p, w, e))
  {
    hide Valid, Ordinary, StaggerEnter, LeaderSource, IndexOf, Declare;
    var s0 := Declare(p, w.s, e.rid, e.final);
    DeclareKeepsGroups(p, w.s, e.rid, e.final);
    OrdinaryNeverRaises(p, s0, e.rid, e.ctx, e.work, e.expired);
    if e.group.Some? {
      EnterRaises(p, s0, e.rid, e.group.value, e.ctx, e.work, e.expired);
    }
  }

  lemma DeclareKeepsGroups(p: Params, s: State, rid: RequestId, final: Option<real>)
    requires Valid(p, s)
    ensures Declare(p, s, rid, final).claimed == s.claimed && Declare(p, s, rid, final).ready == s.ready
  {
    hide Valid;
  }

  lemma ContinueRaises(p: Params, w: World, e: Event)
    requires Valid(p, w.s) && Enabled(p, w, e) && e.NextTurn?
    ensures RaisesFor(p, Segment(p, w, e).1, SourceOf(p, w, e))
  {
    hide TablesOk, Book, Release, Moves, Free, BestOther, IndexOf, Pull, LeastLoaded;
    var (s0, turn) := (Declare(p, w.s, e.rid, e.final), NextOf(w, e.rid));
    if e.rid in w.s.resident && Moves(p, s0, e.rid, turn, e.ctx) {
      MovesHasTarget(p, s0, e.rid, turn, e.ctx);
      PullRaises(p, BestOther(p, s0, w.s.resident[e.rid]).value, w.s.resident[e.rid]);
    }
  }

  lemma OthersNeverRaise(p: Params, w: World, e: Event)
    requires Valid(p, w.s) && Enabled(p, w, e) && !e.Start? && !e.LeaderReady? && !e.NextTurn?
    ensures !Segment(p, w, e).1.Raised?
  {
    hide Valid, Book, Ordinary, Free, CloseWindow, LeastLoaded, Record, Finish;
    if e.LeaderTimeout? {
      OrdinaryNeverRaises(p, w.s, e.rid, w.phase[e.rid].ctx, w.phase[e.rid].work, e.expired);
    }
  }

  // Over every run: a call raises exactly when peers can pull and the replica it would pull from
  // is past the 254 addresses of the loopback block. It raises after it has booked.
  lemma RaisesExactlyWhen(p: Params, events: seq<Event>, e: Event)
    requires |p.replicas| > 0 && p.growth.priorWeight > -1.0
    requires Enabled(p, Run(p, events), e)
    ensures var (w, w') := (Run(p, events), Run(p, events + [e]));
            && RaisesFor(p, Segment(p, w, e).1, SourceOf(p, w, e))
            && (Segment(p, w, e).1.Raised? ==> e.rid in w'.s.resident)
  {
    hide Run, Segment, SourceOf, RaisesFor, Step, Valid, PhasesMatch, Conserved;
    var w := Run(p, events);
    RunsConserve(p, events);
    if e.Start? {
      StartRaises(p, w, e);
    } else if e.NextTurn? {
      ContinueRaises(p, w, e);
    } else {
      RestRaises(p, w, e);
    }
    RunSnoc(p, events, e);
    if Segment(p, w, e).1.Raised? {
      RaisedIsBooked(p, w, e);
    }
  }

  lemma RestRaises(p: Params, w: World, e: Event)
    requires Valid(p, w.s) && Enabled(p, w, e) && !e.Start? && !e.NextTurn?
    ensures RaisesFor(p, Segment(p, w, e).1, SourceOf(p, w, e))
  {
    hide Valid, Follow, LeaderSource, IndexOf;
    if e.LeaderReady? {
      FollowRaises(p, w.s, e.rid, w.phase[e.rid].on.group, w.phase[e.rid].ctx, w.phase[e.rid].work, e.expired);
    } else {
      OthersNeverRaise(p, w, e);
    }
  }

  lemma RaisedIsBooked(p: Params, w: World, e: Event)
    requires BooksOk(p, w) && Enabled(p, w, e) && Segment(p, w, e).1.Raised?
    ensures e.rid in Step(p, w, e).s.resident
  {
    hide Step, Segment, Valid, PhasesMatch, Conserved, Charge, Enabled;
    if e.NextTurn? {
      LaterEffect(p, w, e);
    } else {
      OnlyPlacementsRaise(p, w, e);
      FirstTurnEffect(p, w, e);
    }
  }

  lemma OnlyPlacementsRaise(p: Params, w: World, e: Event)
    requires Valid(p, w.s) && Enabled(p, w, e) && Segment(p, w, e).1.Raised? && !e.NextTurn?
    ensures FirstTurn(e)
  {
  }

  // While the fleet fits the loopback block, no call of any run raises.
  lemma SmallFleetNeverRaises(p: Params, events: seq<Event>, e: Event)
    requires 0 < |p.replicas| <= 254 && p.growth.priorWeight > -1.0
    requires Enabled(p, Run(p, events), e)
    ensures !Segment(p, Run(p, events), e).1.Raised?
  {
    hide Run, Segment, SourceOf, Step;
    RaisesExactlyWhen(p, events, e);
  }
}
