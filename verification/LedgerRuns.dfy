// Runs of the ledger: the segments of many requests interleave freely, each request taking its
// turns in order, as the wave client drives them.

module LedgerRuns {
  import opened Text
  import opened Totals
  import Growth
  import opened Ledger

  datatype Phase =
    | Waiting(on: Wait, ctx: real, work: Option<real>)
    | InTurn(turn: nat, recorded: bool)
    | Gone(next: nat)

  datatype Event =
    | Start(rid: RequestId, ctx: real, final: Option<real>, work: Option<real>, group: Option<GroupKey>, expired: bool)
    | LeaderReady(rid: RequestId, expired: bool)
    | LeaderTimeout(rid: RequestId, expired: bool)
    | WindowEnd(rid: RequestId)
    | BatchReady(rid: RequestId)
    | BatchTimeout(rid: RequestId)
    | PollAgain(rid: RequestId, expired: bool)
    | NextTurn(rid: RequestId, ctx: real, final: Option<real>)
    | Measured(rid: RequestId, ctx: real)
    | Completed(rid: RequestId)

  // The ledger, where every request stands, and what has happened so far:
  // the tokens an in-place turn declined to give back, the replica of each turn 0, the requests
  // whose turn 0 was recorded, the leader of each group, and everything the estimator was fed.
  datatype World = World(
    s: State, phase: map<RequestId, Phase>, shrink: map<Replica, real>,
    turn0: map<RequestId, Replica>, recorded0: set<RequestId>, leaderOf: map<GroupKey, RequestId>,
    fed: seq<Growth.Observation>)

  function Begin(p: Params): World {
    World(Init(p), map[], map r | r in p.replicas :: 0.0, map[], {}, map[], [])
  }

  predicate WaitsOn(w: World, rid: RequestId, on: Wait) {
    rid in w.phase && w.phase[rid].Waiting? && w.phase[rid].on == on
  }

  // Which events can happen. Sizes are token counts, so never negative.
  predicate Enabled(p: Params, w: World, e: Event) {
    match e
    case Start(rid, ctx, _, _, _, _) => rid !in w.phase && ctx >= 0.0
    case LeaderReady(rid, _) =>
      && rid in w.phase && w.phase[rid].Waiting? && w.phase[rid].on.LeaderTurn?
      && Growth.Get(w.s.ready, w.phase[rid].on.group, false)
    case LeaderTimeout(rid, _) => rid in w.phase && w.phase[rid].Waiting? && w.phase[rid].on.LeaderTurn?
    case WindowEnd(rid) => WaitsOn(w, rid, LptWindow)
    case BatchReady(rid) => WaitsOn(w, rid, LptBatch) && w.s.lptClosed
    case BatchTimeout(rid) => WaitsOn(w, rid, LptBatch)
    case PollAgain(rid, _) => WaitsOn(w, rid, Headroom)
    case NextTurn(rid, ctx, _) =>
      && rid in w.phase && ctx >= 0.0
      && ((w.phase[rid].InTurn? && w.phase[rid].recorded) || (w.phase[rid].Gone? && w.phase[rid].next > 0))
    case Measured(rid, ctx) => rid in w.phase && ctx >= 0.0 && w.phase[rid].InTurn? && !w.phase[rid].recorded
    case Completed(rid) => rid in w.phase && w.phase[rid].InTurn? && w.phase[rid].recorded
  }

  // The turn a request is in, and the turn its next acquire is for.
  function TurnNow(w: World, rid: RequestId): nat {
    if rid in w.phase && w.phase[rid].InTurn? then w.phase[rid].turn else 0
  }

  function NextOf(w: World, rid: RequestId): (n: nat)
    ensures n > 0
  {
    if rid in w.phase && w.phase[rid].Gone? && w.phase[rid].next > 0 then w.phase[rid].next
    else TurnNow(w, rid) + 1
  }

  // The segment of the ledger that event e runs.
  ghost function Segment(p: Params, w: World, e: Event): (r: (State, Outcome))
    requires Valid(p, w.s)
    requires Enabled(p, w, e)
    ensures Valid(p, r.0)
  {
    var s := w.s;
    match e
    case Start(rid, ctx, final, work, group, expired) => Arrive(p, Declare(p, s, rid, final), rid, ctx, work, group, expired)
    case LeaderReady(rid, expired) =>
      var ph := w.phase[rid];
      Follow(p, s, rid, ph.on.group, ph.ctx, ph.work, expired)
    case LeaderTimeout(rid, expired) => Ordinary(p, s, rid, w.phase[rid].ctx, w.phase[rid].work, expired)
    case WindowEnd(rid) => TakeResult(p, CloseWindow(p, s), rid, w.phase[rid].ctx)
    case BatchReady(rid) => TakeResult(p, s, rid, w.phase[rid].ctx)
    case BatchTimeout(rid) => PlaceOn(p, s, rid, LeastLoaded(p, s), 0, w.phase[rid].ctx)
    case PollAgain(rid, expired) => Poll(p, s, rid, w.phase[rid].ctx, expired)
    case NextTurn(rid, ctx, final) => Continue(p, Declare(p, s, rid, final), rid, NextOf(w, rid), ctx)
    case Measured(rid, ctx) => (Record(p, s, rid, TurnNow(w, rid), ctx), Noted)
    case Completed(rid) => (Finish(p, s, rid), Noted)
  }

  function NewPhase(w: World, e: Event, o: Outcome): Phase {
    if o.Await? then
      if e.Start? then Waiting(o.on, e.ctx, e.work)
      else if e.rid in w.phase && w.phase[e.rid].Waiting? then w.phase[e.rid].(on := o.on)
      else Gone(0)
    else if e.Completed? then Gone(TurnNow(w, e.rid) + 1)
    else if e.Measured? then InTurn(TurnNow(w, e.rid), true)
    else if e.NextTurn? then InTurn(NextOf(w, e.rid), false)
    else InTurn(0, false)
  }

  ghost function Newest(s: State, rid: RequestId): real {
    NewestOf(Turns(s, rid))
  }

  // The tokens that a smaller context leaves booked when its turn is served in place.
  ghost function Kept(p: Params, w: World, e: Event): real
    requires Valid(p, w.s)
  {
    if e.NextTurn? && e.rid in w.s.resident
       && !Moves(p, Declare(p, w.s, e.rid, e.final), e.rid, NextOf(w, e.rid), e.ctx)
    then Max(0.0, Newest(w.s, e.rid) - e.ctx) else 0.0
  }

  ghost function Shrunk(p: Params, w: World, e: Event): map<Replica, real>
    requires Valid(p, w.s)
  {
    if e.rid in w.s.resident && w.s.resident[e.rid] in w.shrink
    then w.shrink[w.s.resident[e.rid] := w.shrink[w.s.resident[e.rid]] + Kept(p, w, e)]
    else w.shrink
  }

  ghost function Fed(p: Params, w: World, e: Event): seq<Growth.Observation> {
    w.fed + if e.Completed? && e.rid in w.s.resident && |Turns(w.s, e.rid)| > 0
            then FinalObservations(p, Turns(w.s, e.rid)) else []
  }

  ghost function Step(p: Params, w: World, e: Event): (w': World)
    requires Valid(p, w.s)
    ensures Valid(p, w'.s)
  {
    if !Enabled(p, w, e) then w
    else
      var (s, o) := Segment(p, w, e);
      World(
        s,
        w.phase[e.rid := NewPhase(w, e, o)],
        Shrunk(p, w, e),
        if e.rid in s.resident && e.rid !in w.turn0 then w.turn0[e.rid := s.resident[e.rid]] else w.turn0,
        if e.Measured? && TurnNow(w, e.rid) == 0
        then w.recorded0 + {e.rid} else w.recorded0,
        if s.claimed != w.s.claimed && e.rid in s.leaderRid
        then w.leaderOf[s.leaderRid[e.rid] := e.rid] else w.leaderOf,
        Fed(p, w, e))
  }

  lemma StepIs(p: Params, w: World, e: Event)
    requires Valid(p, w.s) && Enabled(p, w, e)
    ensures var (w', r) := (Step(p, w, e), Segment(p, w, e));
            && w'.s == r.0 && w'.phase == w.phase[e.rid := NewPhase(w, e, r.1)]
            && w'.shrink == Shrunk(p, w, e) && w'.fed == Fed(p, w, e)
  {
    hide Valid, Enabled, Segment, NewPhase, Shrunk, Fed;
  }

  ghost function Run(p: Params, events: seq<Event>): (w: World)
    requires |p.replicas| > 0 && p.growth.priorWeight > -1.0
    ensures Valid(p, w.s)
  {
    if |events| == 0 then Begin(p)
    else Step(p, Run(p, events[..|events| - 1]), events[|events| - 1])
  }

  lemma RunSnoc(p: Params, events: seq<Event>, e: Event)
    requires |p.replicas| > 0 && p.growth.priorWeight > -1.0
    ensures Run(p, events + [e]) == Step(p, Run(p, events), e)
  {
    hide Step;
    assert (events + [e])[..|events|] == events;
  }

  lemma RunOne(p: Params, e: Event)
    requires |p.replicas| > 0 && p.growth.priorWeight > -1.0
    ensures Run(p, [e]) == Step(p, Begin(p), e)
  {
    hide Step;
    assert [e][..0] == [];
  }

  lemma DisabledIsIdle(p: Params, w: World, e: Event)
    requires Valid(p, w.s) && !Enabled(p, w, e)
    ensures Step(p, w, e) == w
  {
    hide Enabled;
  }

  // ----- the books of every reachable world

  ghost function Sizes(s: State): map<RequestId, real> {
    map rid | rid in s.history :: NewestOf(s.history[rid])
  }

  // The newest sizes of the requests resident on r.
  ghost function Tokens(s: State, r: Replica): real {
    Total(On(s.resident, Sizes(s), r))
  }

  ghost predicate TurnsUpTo(turns: map<nat, real>, k: nat) {
    k in turns && forall u :: u in turns ==> u <= k && turns[u] >= 0.0
  }

  // A request is on the books exactly while it is between its first booking and its completion.
  ghost predicate PhaseMatches(w: World, rid: RequestId) {
    && (rid in w.s.resident <==> rid in w.phase && w.phase[rid].InTurn?)
    && (rid in w.s.resident <==> rid in w.s.history)
    && (rid in w.s.resident <==> rid in w.s.charge)
    && (rid in w.s.history && rid in w.phase && w.phase[rid].InTurn? ==> TurnsUpTo(w.s.history[rid], w.phase[rid].turn))
    && (rid in w.phase && w.phase[rid].Waiting? ==> w.phase[rid].ctx >= 0.0)
  }

  ghost predicate PhasesMatch(w: World) {
    forall rid :: PhaseMatches(w, rid)
  }

  // Every replica's used tokens are the newest sizes of its residents plus what in-place turns kept.
  ghost predicate Conserved(p: Params, w: World)
    requires Valid(p, w.s)
  {
    && (forall r :: r in p.replicas ==> r in w.shrink && w.shrink[r] >= 0.0)
    && (forall r :: r in p.replicas ==> w.s.used[r] == Tokens(w.s, r) + w.shrink[r])
  }

  ghost predicate BooksOk(p: Params, w: World) {
    Valid(p, w.s) && PhasesMatch(w) && Conserved(p, w)
  }

  lemma NewestIs(turns: map<nat, real>, k: nat)
    requires k in turns && forall u :: u in turns ==> u <= k
    ensures |turns| > 0 && LastTurn(turns) == k && NewestOf(turns) == turns[k]
  {
    assert |turns| > 0;
    assert LastTurn(turns) == k;
  }

  lemma SizesAfter(s: State, s': State, rid: RequestId, k: nat, ctx: real)
    requires s'.history == s.history[rid := Turns(s, rid)[k := ctx]]
    requires forall u :: u in Turns(s, rid) ==> u <= k
    ensures Sizes(s') == Sizes(s)[rid := ctx]
  {
    hide NewestOf, LastTurn;
    NewestIs(Turns(s, rid)[k := ctx], k);
    assert s'.history[rid] == Turns(s, rid)[k := ctx];
  }

  // Booking a turn on `dest`: the request's tokens leave wherever they were counted.
  lemma TokensAfterBooking(s: State, s': State, rid: RequestId, dest: Replica, k: nat, ctx: real, r: Replica)
    requires s'.history == s.history[rid := Turns(s, rid)[k := ctx]]
    requires s'.resident == s.resident[rid := dest]
    requires forall u :: u in Turns(s, rid) ==> u <= k
    ensures Tokens(s', r) == Tokens(s, r) - Share(s.resident, Sizes(s), r, rid) + if dest == r then ctx else 0.0
  {
    hide Total;
    SizesAfter(s, s', rid, k, ctx);
    PlaceEffect(s.resident, Sizes(s), rid, dest, ctx, r);
  }

  lemma HasTurns(w: World, rid: RequestId)
    requires PhasesMatch(w) && rid in w.s.resident
    ensures rid in w.s.history && |w.s.history[rid]| > 0 && rid in w.phase && w.phase[rid].InTurn?
    ensures w.phase[rid].turn in w.s.history[rid] && Newest(w.s, rid) == w.s.history[rid][w.phase[rid].turn]
    ensures LastTurn(w.s.history[rid]) == w.phase[rid].turn && NewestOf(w.s.history[rid]) >= 0.0
  {
    assert PhaseMatches(w, rid);
    NewestIs(w.s.history[rid], w.phase[rid].turn);
  }

  lemma CompletedPhases(w: World, w': World, rid: RequestId)
    requires PhasesMatch(w) && rid in w.phase && w.phase[rid].InTurn?
    requires w'.s.resident == w.s.resident - {rid} && w'.s.history == w.s.history - {rid}
    requires w'.s.charge == w.s.charge - {rid}
    requires w'.phase == w.phase[rid := Gone(w.phase[rid].turn + 1)]
    ensures PhasesMatch(w')
  {
    forall q ensures PhaseMatches(w', q) {
      assert PhaseMatches(w, q);
    }
  }

  // Every resident's newest size is among its replica's used tokens.
  lemma UsedCovers(p: Params, w: World, rid: RequestId)
    requires BooksOk(p, w) && rid in w.s.resident
    ensures w.s.resident[rid] in w.s.used
    ensures w.s.used[w.s.resident[rid]] >= Newest(w.s, rid) >= 0.0
  {
    hide Total, NewestOf, LastTurn, PhasesMatch, TablesOk;
    var r := w.s.resident[rid];
    assert w.s.used[r] == Tokens(w.s, r) + w.shrink[r] && w.shrink[r] >= 0.0;
    var own := On(w.s.resident, Sizes(w.s), r);
    forall q | q in own ensures own[q] >= 0.0 {
      HasTurns(w, q);
    }
    HasTurns(w, rid);
    TotalCoversEntry(own, rid);
  }

  // From s to s', request rid's turn is booked at ctx on dest ...
  ghost predicate Rebooked(s: State, s': State, rid: RequestId, dest: Replica, turn: nat, ctx: real) {
    && (forall u :: u in Turns(s, rid) ==> u <= turn)
    && s'.history == s.history[rid := Turns(s, rid)[turn := ctx]]
    && s'.resident == s.resident[rid := dest]
    && s'.charge.Keys == s.charge.Keys + {rid}
  }

  // ... and each replica's used tokens, less what it kept, change by exactly that.
  ghost predicate UsedFollows(p: Params, w: World, w': World, rid: RequestId, dest: Replica, ctx: real)
    requires Valid(p, w.s) && Valid(p, w'.s)
  {
    forall r :: r in p.replicas ==>
      && r in w.shrink && r in w'.shrink && w'.shrink[r] >= 0.0
      && w'.s.used[r] - w'.shrink[r]
         == w.s.used[r] - w.shrink[r] - Share(w.s.resident, Sizes(w.s), r, rid) + if dest == r then ctx else 0.0
  }

  lemma RebookedKeepsPhases(w: World, w': World, rid: RequestId, dest: Replica, turn: nat, recorded: bool, ctx: real)
    requires PhasesMatch(w)
    requires Rebooked(w.s, w'.s, rid, dest, turn, ctx) && ctx >= 0.0
    requires w'.phase == w.phase[rid := InTurn(turn, recorded)]
    ensures PhasesMatch(w')
  {
    forall q ensures PhaseMatches(w', q) {
      assert PhaseMatches(w, q);
      assert q in w'.s.charge <==> q in w.s.charge || q == rid;
      if q == rid {
        assert TurnsUpTo(w'.s.history[rid], turn);
      }
    }
  }

  lemma RebookedConserves(p: Params, w: World, w': World, rid: RequestId, dest: Replica, turn: nat, ctx: real)
    requires Valid(p, w.s) && Valid(p, w'.s) && Conserved(p, w)
    requires Rebooked(w.s, w'.s, rid, dest, turn, ctx) && UsedFollows(p, w, w', rid, dest, ctx)
    ensures Conserved(p, w')
  {
    hide Tokens, Share, Sizes;
    forall r | r in p.replicas ensures w'.s.used[r] == Tokens(w'.s, r) + w'.shrink[r] {
      TokensAfterBooking(w.s, w'.s, rid, dest, turn, ctx, r);
    }
  }

  lemma WaitingKeepsBooks(p: Params, w: World, w': World, rid: RequestId, ph: Phase)
    requires BooksOk(p, w) && Valid(p, w'.s)
    requires rid !in w.s.resident && ph.Waiting? && ph.ctx >= 0.0
    requires w'.s.used == w.s.used && w'.s.resident == w.s.resident && w'.s.history == w.s.history
    requires w'.s.charge == w.s.charge && w'.shrink == w.shrink && w'.phase == w.phase[rid := ph]
    ensures BooksOk(p, w')
  {
    hide Total, NewestOf, LastTurn;
    assert Sizes(w'.s) == Sizes(w.s);
    forall q ensures PhaseMatches(w', q) {
      assert PhaseMatches(w, q);
    }
  }

  // ----- first turns

  predicate FirstTurn(e: Event) {
    !e.NextTurn? && !e.Measured? && !e.Completed?
  }

  // What the first turn of a request carries from its arrival on.
  function FirstContext(w: World, e: Event): real {
    if e.Start? then e.ctx
    else if e.rid in w.phase && w.phase[e.rid].Waiting? then w.phase[e.rid].ctx
    else 0.0
  }

  function FirstWork(w: World, e: Event): Option<real> {
    if e.Start? then e.work
    else if e.rid in w.phase && w.phase[e.rid].Waiting? then w.phase[e.rid].work
    else None
  }

  lemma FirstTurnServes(p: Params, w: World, e: Event)
    requires Valid(p, w.s) && Enabled(p, w, e) && FirstTurn(e)
    ensures var s0 := if e.Start? then Declare(p, w.s, e.rid, e.final) else w.s;
            Valid(p, s0) && ServesFirstTurn(p, s0, e.rid, FirstContext(w, e), Segment(p, w, e))
  {
    hide ServesFirstTurn, Arrive, Follow, Ordinary, Poll, TakeResult, PlaceOn, CloseWindow, TablesOk;
    match e {
      case Start(rid, ctx, final, work, group, expired) =>
        ArriveServes(p, Declare(p, w.s, rid, final), rid, ctx, work, group, expired);
      case LeaderReady(rid, expired) =>
        FollowServes(p, w.s, rid, w.phase[rid].on.group, w.phase[rid].ctx, w.phase[rid].work, expired);
      case LeaderTimeout(rid, expired) => OrdinaryServes(p, w.s, rid, w.phase[rid].ctx, w.phase[rid].work, expired);
      case WindowEnd(rid) =>
        CloseWindowKeepsBooks(p, w.s);
        TakeResultServes(p, w.s, CloseWindow(p, w.s), rid, w.phase[rid].ctx);
      case BatchReady(rid) => TakeResultServes(p, w.s, w.s, rid, w.phase[rid].ctx);
      case BatchTimeout(rid) => PlaceServes(p, w.s, w.s, rid, LeastLoaded(p, w.s), w.phase[rid].ctx);
      case PollAgain(rid, expired) => PollServes(p, w.s, w.s, rid, w.phase[rid].ctx, expired);
    }
  }

  lemma CloseWindowKeepsBooks(p: Params, s: State)
    requires Valid(p, s)
    ensures SameBooks(s, CloseWindow(p, s))
  {
  }

  lemma FirstTurnStep(p: Params, w: World, e: Event)
    requires Valid(p, w.s) && Enabled(p, w, e) && FirstTurn(e)
    requires e.rid !in w.s.resident
    ensures var (w', r) := (Step(p, w, e), Segment(p, w, e));
            && w'.s == r.0 && w'.shrink == w.shrink
            && w'.phase == w.phase[e.rid := if r.1.Await? then Waiting(r.1.on, FirstContext(w, e), FirstWork(w, e))
                                            else InTurn(0, false)]
  {
    hide Segment, Kept, TablesOk;
  }

  // The one booking of a first turn, field by field.
  lemma FirstBooking(p: Params, s: State, rid: RequestId, ctx: real, r: (State, Outcome))
    requires Valid(p, s) && ServesFirstTurn(p, s, rid, ctx, r) && !r.1.Await?
    requires rid !in s.resident && rid !in s.history
    ensures rid in r.0.resident
    ensures var (dest, s') := (r.0.resident[rid], r.0);
            && dest in p.replicas && dest in s.used
            && s'.resident == s.resident[rid := dest]
            && s'.used == s.used[dest := s.used[dest] + ctx]
            && s'.history == s.history[rid := Turns(s, rid)[0 := ctx]]
            && s'.charge == s.charge[rid := Charge(p, s, rid, ctx, 0)]
            && s'.tables == s.tables && s'.oracleFinal == s.oracleFinal
  {
    hide Charge, TablesOk;
  }

  lemma FirstTurnKeepsBooks(p: Params, w: World, e: Event)
    requires BooksOk(p, w) && Enabled(p, w, e) && FirstTurn(e)
    ensures BooksOk(p, Step(p, w, e))
  {
    hide Segment, Step, Charge, Conserved, ServesFirstTurn, Valid, SameBooks;
    var (rid, ctx) := (e.rid, FirstContext(w, e));
    assert PhaseMatches(w, rid);
    FirstTurnServes(p, w, e);
    FirstTurnStep(p, w, e);
    var s0 := if e.Start? then Declare(p, w.s, e.rid, e.final) else w.s;
    hide Enabled, PhasesMatch;
    var w' := Step(p, w, e);
    if Segment(p, w, e).1.Await? {
      AwaitKeepsBooks(p, s0, rid, ctx, Segment(p, w, e));
      AwaitedBooks(p, w, w', s0, rid, w'.phase[rid]);
    } else {
      FirstBooking(p, s0, rid, ctx, Segment(p, w, e));
      FirstBookingKeepsBooks(p, w, w', rid, w'.s.resident[rid], ctx);
    }
  }

  lemma AwaitedBooks(p: Params, w: World, w': World, s0: State, rid: RequestId, ph: Phase)
    requires BooksOk(p, w) && Valid(p, w'.s)
    requires rid !in w.s.resident && ph.Waiting? && ph.ctx >= 0.0
    requires s0.used == w.s.used && s0.resident == w.s.resident && s0.history == w.s.history && s0.charge == w.s.charge
    requires SameBooks(s0, w'.s) && w'.shrink == w.shrink && w'.phase == w.phase[rid := ph]
    ensures BooksOk(p, w')
  {
    hide Conserved, PhasesMatch, Valid;
    WaitingKeepsBooks(p, w, w', rid, ph);
  }

  lemma FirstBookingKeepsBooks(p: Params, w: World, w': World, rid: RequestId, dest: Replica, ctx: real)
    requires BooksOk(p, w) && Valid(p, w'.s)
    requires rid !in w.s.resident && rid !in w.s.history && ctx >= 0.0 && dest in p.replicas && dest in w.s.used
    requires w'.s.resident == w.s.resident[rid := dest]
    requires w'.s.used == w.s.used[dest := w.s.used[dest] + ctx]
    requires w'.s.history == w.s.history[rid := Turns(w.s, rid)[0 := ctx]]
    requires w'.s.charge.Keys == w.s.charge.Keys + {rid}
    requires w'.shrink == w.shrink && w'.phase == w.phase[rid := InTurn(0, false)]
    ensures BooksOk(p, w')
  {
    hide Conserved, PhasesMatch, Valid, Rebooked, UsedFollows;
    FirstBookingRebooks(w.s, w'.s, rid, dest, ctx);
    FirstBookingUsed(p, w, w', rid, dest, ctx);
    RebookedKeepsPhases(w, w', rid, dest, 0, false, ctx);
    RebookedConserves(p, w, w', rid, dest, 0, ctx);
  }

  lemma AwaitKeepsBooks(p: Params, s: State, rid: RequestId, ctx: real, r: (State, Outcome))
    requires Valid(p, s) && ServesFirstTurn(p, s, rid, ctx, r) && r.1.Await?
    ensures SameBooks(s, r.0)
  {
  }

  lemma FirstBookingRebooks(s: State, s': State, rid: RequestId, dest: Replica, ctx: real)
    requires Turns(s, rid) == map[]
    requires s'.resident == s.resident[rid := dest]
    requires s'.history == s.history[rid := Turns(s, rid)[0 := ctx]]
    requires s'.charge.Keys == s.charge.Keys + {rid}
    ensures Rebooked(s, s', rid, dest, 0, ctx)
  {
  }

  lemma FirstBookingUsed(p: Params, w: World, w': World, rid: RequestId, dest: Replica, ctx: real)
    requires Valid(p, w.s) && Valid(p, w'.s) && Conserved(p, w)
    requires rid !in w.s.resident && dest in p.replicas && w'.shrink == w.shrink
    requires w'.s.used == w.s.used[dest := w.s.used[dest] + ctx]
    ensures UsedFollows(p, w, w', rid, dest, ctx)
  {
    hide Tokens, Sizes, Valid;
  }

  // ----- later turns

  lemma MigrateIsBooked(p: Params, s: State, rid: RequestId, dest: Replica, turn: nat, ctx: real)
    requires Valid(p, s) && rid in s.resident && dest in p.replicas && turn > 0 && turn - 1 in Turns(s, rid)
    ensures var here := s.resident[rid];
            BookedFields(p, s, Migrate(p, s, rid, dest, turn, ctx).0, rid, dest, turn, ctx,
                         s.used[here := Max(0.0, s.used[here] - Turns(s, rid)[turn - 1])])
  {
    hide Max, TablesOk, Growth.Estimate, Growth.KeyOf, Pull;
    var s1 := Release(p, s, rid, s.resident[rid], turn - 1);
    assert s1 == s.(used := s1.used);
    assert Turns(s1, rid) == Turns(s, rid);
    assert Added(s1, rid, dest, turn, ctx) == Added(s, rid, dest, turn, ctx);
    BookIsBooked(p, s1, rid, dest, turn, ctx);
    ChargeIgnoresUsed(p, s, s1, rid, ctx, turn);
  }

  // The three ways a later turn is booked: afresh, in place, or by moving away.
  lemma LaterBooking(p: Params, s: State, rid: RequestId, turn: nat, ctx: real)
    requires Valid(p, s) && turn > 0
    requires rid in s.resident ==> turn - 1 in Turns(s, rid)
    ensures var s' := Continue(p, s, rid, turn, ctx).0;
            && rid in s'.resident
            && (rid !in s.resident ==> BookedFields(p, s, s', rid, s'.resident[rid], turn, ctx, s.used))
            && (rid in s.resident ==>
                  var here := s.resident[rid];
                  if Moves(p, s, rid, turn, ctx) then
                    && s'.resident[rid] != here
                    && BookedFields(p, s, s', rid, s'.resident[rid], turn, ctx,
                                    s.used[here := Max(0.0, s.used[here] - Turns(s, rid)[turn - 1])])
                  else
                    s'.resident[rid] == here && BookedFields(p, s, s', rid, here, turn, ctx, s.used))
  {
    hide TablesOk, Charge, Book, Release, Migrate, Free, Added, Max, Rebalances, FitsInPlace, MovesForRoom;
    if rid !in s.resident {
      BookIsBooked(p, s, rid, LeastLoaded(p, s), turn, ctx);
    } else if Moves(p, s, rid, turn, ctx) {
      MovesHasTarget(p, s, rid, turn, ctx);
      MigrateIsBooked(p, s, rid, BestOther(p, s, s.resident[rid]).value, turn, ctx);
    } else {
      BookIsBooked(p, s, rid, s.resident[rid], turn, ctx);
    }
  }

  lemma LaterStep(p: Params, w: World, e: Event)
    requires Valid(p, w.s) && Enabled(p, w, e) && e.NextTurn?
    ensures var (w', s0) := (Step(p, w, e), Declare(p, w.s, e.rid, e.final));
            && Valid(p, s0)
            && w'.s == Continue(p, s0, e.rid, NextOf(w, e.rid), e.ctx).0
            && w'.shrink == Shrunk(p, w, e)
            && w'.phase == w.phase[e.rid := InTurn(NextOf(w, e.rid), false)]
  {
    hide Continue, Shrunk, TablesOk;
    LaterNeverWaits(p, Declare(p, w.s, e.rid, e.final), e.rid, NextOf(w, e.rid), e.ctx);
  }

  lemma LaterNeverWaits(p: Params, s: State, rid: RequestId, turn: nat, ctx: real)
    requires Valid(p, s) && turn > 0
    ensures var o := Continue(p, s, rid, turn, ctx).1; o.Placed? || o.Raised?
  {
    hide TablesOk, Charge, Moves, Free, Book, Release;
  }

  lemma LaterTurnKeepsBooks(p: Params, w: World, e: Event)
    requires BooksOk(p, w) && Enabled(p, w, e) && e.NextTurn?
    ensures BooksOk(p, Step(p, w, e))
  {
    hide Step, Continue, Charge, Conserved, Rebooked, UsedFollows, TablesOk, Moves, NewestOf, LastTurn, Added;
    var (rid, ctx, turn) := (e.rid, e.ctx, NextOf(w, e.rid));
    var w' := Step(p, w, e);
    LaterStep(p, w, e);
    LaterRebooked(p, w, e);
    LaterUsed(p, w, e);
    RebookedKeepsPhases(w, w', rid, w'.s.resident[rid], turn, false, ctx);
    RebookedConserves(p, w, w', rid, w'.s.resident[rid], turn, ctx);
  }

  // Where a later turn starts from.
  lemma LaterSetup(p: Params, w: World, e: Event)
    requires BooksOk(p, w) && Enabled(p, w, e) && e.NextTurn?
    ensures Valid(p, w.s) && PhasesMatch(w) && Conserved(p, w)
    ensures e.rid in w.phase && !w.phase[e.rid].Waiting?
    ensures var (s0, turn) := (Declare(p, w.s, e.rid, e.final), NextOf(w, e.rid));
            && Valid(p, s0) && turn > 0 && e.ctx >= 0.0
            && s0.used == w.s.used && s0.resident == w.s.resident && s0.history == w.s.history
            && s0.charge == w.s.charge && s0.tables == w.s.tables
            && Turns(s0, e.rid) == Turns(w.s, e.rid)
            && (forall u :: u in Turns(w.s, e.rid) ==> u <= turn)
            && (e.rid in w.s.resident ==> turn - 1 in Turns(w.s, e.rid))
  {
    hide Conserved, TablesOk;
    assert PhaseMatches(w, e.rid);
  }

  lemma LaterRebooked(p: Params, w: World, e: Event)
    requires BooksOk(p, w) && Enabled(p, w, e) && e.NextTurn?
    ensures var w' := Step(p, w, e);
            && e.rid in w'.s.resident && w'.s.resident[e.rid] in p.replicas
            && Rebooked(w.s, w'.s, e.rid, w'.s.resident[e.rid], NextOf(w, e.rid), e.ctx)
  {
    hide Step, Continue, Charge, Rebooked, UsedFollows, Valid, Moves, Added, PhasesMatch, Conserved, Declare, BooksOk, Enabled;
    LaterSetup(p, w, e);
    LaterStep(p, w, e);
    var (rid, ctx, turn) := (e.rid, e.ctx, NextOf(w, e.rid));
    var (w', s0) := (Step(p, w, e), Declare(p, w.s, rid, e.final));
    LaterBooking(p, s0, rid, turn, ctx);
    LaterRebooks(w.s, w'.s, rid, w'.s.resident[rid], turn, ctx);
  }

  lemma LaterUsed(p: Params, w: World, e: Event)
    requires BooksOk(p, w) && Enabled(p, w, e) && e.NextTurn?
    ensures var w' := Step(p, w, e);
            e.rid in w'.s.resident && UsedFollows(p, w, w', e.rid, w'.s.resident[e.rid], e.ctx)
  {
    hide Step, Continue, Charge, Rebooked, UsedFollows, Valid, Moves, Added, PhasesMatch, Conserved, Declare, BooksOk, Enabled;
    LaterSetup(p, w, e);
    LaterStep(p, w, e);
    var (rid, ctx, turn) := (e.rid, e.ctx, NextOf(w, e.rid));
    var (w', s0) := (Step(p, w, e), Declare(p, w.s, rid, e.final));
    LaterBooking(p, s0, rid, turn, ctx);
    var dest := w'.s.resident[rid];
    if rid in w.s.resident {
      LaterFinds(p, w, e);
      ShrinkIsTracked(p, w);
      ResidesInFleet(p, w.s, rid);
      ShrunkIs(p, w, e);
      var prev := w.s.history[rid][turn - 1];
      if Moves(p, s0, rid, turn, ctx) {
        MovedAdds(s0, rid, dest, turn, ctx);
        MovedUsed(p, w, w', rid, dest, prev, ctx);
      } else {
        StayedAdds(s0, rid, turn, ctx);
        StayedUsed(p, w, w', rid, prev, ctx);
      }
    } else {
      FreshAdds(w.s, s0, rid, dest, turn, ctx);
      FirstBookingUsed(p, w, w', rid, dest, ctx);
    }
  }

  lemma ResidesInFleet(p: Params, s: State, rid: RequestId)
    requires Valid(p, s) && rid in s.resident
    ensures s.resident[rid] in p.replicas
  {
  }

  lemma FreshAdds(s: State, s0: State, rid: RequestId, dest: Replica, turn: nat, ctx: real)
    requires rid !in s0.resident
    ensures Added(s0, rid, dest, turn, ctx) == ctx
  {
  }

  lemma LaterRebooks(s: State, s': State, rid: RequestId, dest: Replica, turn: nat, ctx: real)
    requires forall u :: u in Turns(s, rid) ==> u <= turn
    requires s'.resident == s.resident[rid := dest]
    requires s'.history == s.history[rid := Turns(s, rid)[turn := ctx]]
    requires s'.charge.Keys == s.charge.Keys + {rid}
    ensures Rebooked(s, s', rid, dest, turn, ctx)
  {
  }

  // In place: the growth is added and the shrink is kept.
  lemma StayedUsed(p: Params, w: World, w': World, rid: RequestId, prev: real, ctx: real)
    requires Valid(p, w.s) && Valid(p, w'.s)
    requires forall r :: r in p.replicas ==> r in w.shrink && w.shrink[r] >= 0.0
    requires rid in w.s.resident && rid in w.s.history && NewestOf(w.s.history[rid]) == prev
    requires var here := w.s.resident[rid];
             && w'.s.used == w.s.used[here := w.s.used[here] + Max(0.0, ctx - prev)]
             && w'.shrink == w.shrink[here := w.shrink[here] + Max(0.0, prev - ctx)]
    ensures UsedFollows(p, w, w', rid, w.s.resident[rid], ctx)
  {
    hide TablesOk, NewestOf, LastTurn;
    assert Sizes(w.s)[rid] == prev;
  }

  // A move hands back exactly what the old replica held, because the clamp at zero never bites.
  lemma MovedUsed(p: Params, w: World, w': World, rid: RequestId, dest: Replica, prev: real, ctx: real)
    requires Valid(p, w.s) && Valid(p, w'.s)
    requires forall r :: r in p.replicas ==> r in w.shrink && w.shrink[r] >= 0.0
    requires rid in w.s.resident && rid in w.s.history && NewestOf(w.s.history[rid]) == prev
    requires dest in p.replicas && dest != w.s.resident[rid] && prev <= w.s.used[w.s.resident[rid]]
    requires var here := w.s.resident[rid];
             && w'.s.used == w.s.used[here := Max(0.0, w.s.used[here] - prev)][dest := w.s.used[dest] + ctx]
             && w'.shrink == w.shrink[here := w.shrink[here] + 0.0]
    ensures UsedFollows(p, w, w', rid, dest, ctx)
  {
    hide TablesOk, NewestOf, LastTurn;
    assert Sizes(w.s)[rid] == prev;
  }

  lemma MovedAdds(s: State, rid: RequestId, dest: Replica, turn: nat, ctx: real)
    requires rid in s.resident && s.resident[rid] != dest
    ensures Added(s, rid, dest, turn, ctx) == ctx
  {
  }

  lemma StayedAdds(s: State, rid: RequestId, turn: nat, ctx: real)
    requires rid in s.resident && turn > 0 && turn - 1 in Turns(s, rid)
    ensures Added(s, rid, s.resident[rid], turn, ctx) == Max(0.0, ctx - Turns(s, rid)[turn - 1])
  {
  }

  lemma ShrunkIs(p: Params, w: World, e: Event)
    requires Valid(p, w.s) && Enabled(p, w, e) && e.NextTurn? && e.rid in w.s.resident
    requires w.s.resident[e.rid] in w.shrink
    ensures var (here, turn) := (w.s.resident[e.rid], NextOf(w, e.rid));
            && turn > 0 && Valid(p, Declare(p, w.s, e.rid, e.final))
            && Shrunk(p, w, e) == w.shrink[here := w.shrink[here] +
                 if Moves(p, Declare(p, w.s, e.rid, e.final), e.rid, turn, e.ctx) then 0.0
                 else Max(0.0, Newest(w.s, e.rid) - e.ctx)]
  {
    hide Moves, TablesOk, NewestOf, LastTurn, Max;
  }

  // Turn t is the newest one booked for rid, and its replica holds at least its tokens.
  ghost predicate HoldsNewest(s: State, rid: RequestId, t: nat) {
    && rid in s.history && t in s.history[rid] && rid in s.resident && s.resident[rid] in s.used
    && 0.0 <= NewestOf(s.history[rid]) == s.history[rid][t] <= s.used[s.resident[rid]]
  }

  // What a later turn of a resident request finds booked.
  lemma LaterFinds(p: Params, w: World, e: Event)
    requires BooksOk(p, w) && e.NextTurn? && e.rid in w.s.resident
    ensures HoldsNewest(w.s, e.rid, NextOf(w, e.rid) - 1)
  {
    hide Conserved, NewestOf, LastTurn, PhasesMatch, Valid;
    HasTurns(w, e.rid);
    UsedCovers(p, w, e.rid);
  }

  lemma ShrinkIsTracked(p: Params, w: World)
    requires BooksOk(p, w)
    ensures forall r :: r in p.replicas ==> r in w.shrink && w.shrink[r] >= 0.0
  {
    hide Tokens, PhasesMatch;
  }

  // ----- measurements and completions

  lemma MeasuredStep(p: Params, w: World, e: Event)
    requires BooksOk(p, w) && Enabled(p, w, e) && e.Measured?
    ensures var (w', turn, rid) := (Step(p, w, e), TurnNow(w, e.rid), e.rid);
            && e.ctx >= 0.0 && rid in w.s.resident && rid in w.s.history && turn in w.s.history[rid]
            && Valid(p, w'.s) && w'.s == Record(p, w.s, rid, turn, e.ctx)
            && Newest(w.s, rid) == Turns(w.s, rid)[turn] && (forall u :: u in w.s.history[rid] ==> u <= turn)
            && w'.shrink == w.shrink && w'.fed == w.fed && w'.phase == w.phase[rid := InTurn(turn, true)]
  {
    hide Conserved, Valid, Record, NewestOf, LastTurn, Moves, Step;
    assert PhaseMatches(w, e.rid);
    StepIs(p, w, e);
    HasTurns(w, e.rid);
    KeptNothing(p, w, e);
  }

  lemma KeptNothing(p: Params, w: World, e: Event)
    requires Valid(p, w.s) && !e.NextTurn?
    ensures Shrunk(p, w, e) == w.shrink
  {
    hide Valid;
  }

  lemma RecordFields(p: Params, s: State, rid: RequestId, turn: nat, ctx: real)
    requires Valid(p, s) && rid in s.resident && turn in Turns(s, rid)
    ensures var (s', r) := (Record(p, s, rid, turn, ctx), s.resident[rid]);
            && r in p.replicas && r in s.used && Valid(p, s')
            && s'.resident == s.resident && s'.tables == s.tables && s'.oracleFinal == s.oracleFinal
            && s'.used == s.used[r := s.used[r] + (ctx - Turns(s, rid)[turn])]
            && s'.history == s.history[rid := Turns(s, rid)[turn := ctx]]
            && s'.charge == s.charge[rid := Charge(p, s', rid, ctx, turn)]
  {
    hide MarkReady, Remeasured, Valid, Charge, TablesOk;
    var s1 := MarkReady(p, s, rid, turn);
    RemeasuredIs(p, s1, rid, turn, ctx);
    ChargeIgnoresUsed(p, s1, Record(p, s, rid, turn, ctx), rid, ctx, turn);
  }

  lemma MeasuredKeepsBooks(p: Params, w: World, e: Event)
    requires BooksOk(p, w) && Enabled(p, w, e) && e.Measured?
    ensures BooksOk(p, Step(p, w, e))
  {
    hide Conserved, Rebooked, UsedFollows, Valid, Charge, Record, Step, NewestOf, LastTurn, Enabled, PhasesMatch;
    var (rid, turn, w') := (e.rid, TurnNow(w, e.rid), Step(p, w, e));
    MeasuredStep(p, w, e);
    RecordFields(p, w.s, rid, turn, e.ctx);
    var dest := w.s.resident[rid];
    assert w'.s.resident == w.s.resident[rid := dest];
    LaterRebooks(w.s, w'.s, rid, dest, turn, e.ctx);
    MeasuredUsed(p, w, w', rid, turn, e.ctx);
    RebookedKeepsPhases(w, w', rid, dest, turn, true, e.ctx);
    RebookedConserves(p, w, w', rid, dest, turn, e.ctx);
  }

  lemma MeasuredUsed(p: Params, w: World, w': World, rid: RequestId, turn: nat, ctx: real)
    requires Valid(p, w.s) && Valid(p, w'.s) && Conserved(p, w)
    requires rid in w.s.resident && rid in w.s.history && turn in Turns(w.s, rid)
    requires Newest(w.s, rid) == Turns(w.s, rid)[turn]
    requires w'.shrink == w.shrink
    requires var r := w.s.resident[rid]; w'.s.used == w.s.used[r := w.s.used[r] + (ctx - Turns(w.s, rid)[turn])]
    ensures UsedFollows(p, w, w', rid, w.s.resident[rid], ctx)
  {
    hide Tokens, TablesOk, NewestOf, LastTurn;
    assert Sizes(w.s)[rid] == Newest(w.s, rid);
  }

  lemma FinishFields(p: Params, s: State, rid: RequestId)
    requires Valid(p, s) && rid in s.resident && |Turns(s, rid)| > 0
    ensures s.resident[rid] in s.used && TablesOk(p.growth, s.tables)
    ensures var (s', r) := (Finish(p, s, rid), s.resident[rid]);
            && s'.resident == s.resident - {rid} && s'.history == s.history - {rid}
            && s'.charge == s.charge - {rid} && s'.oracleFinal == s.oracleFinal
            && s'.used == Freed(s.used, r, Newest(s, rid))
            && s'.tables == ObserveAll(p.growth, s.tables, FinalObservations(p, Turns(s, rid)))
  {
    hide TablesOk, ObserveAll, FinalObservations, Freed, NewestOf, LastTurn, Turns;
  }

  lemma CompletedStep(p: Params, w: World, e: Event)
    requires Valid(p, w.s) && Enabled(p, w, e) && e.Completed?
    ensures var w' := Step(p, w, e);
            && w'.s == Finish(p, w.s, e.rid)
            && w'.phase == w.phase[e.rid := Gone(TurnNow(w, e.rid) + 1)]
            && forall q :: q in w.shrink ==> q in w'.shrink && w'.shrink[q] == w.shrink[q]
  {
    hide Valid, Finish, Fed;
    StepIs(p, w, e);
  }

  lemma CompletedKeepsBooks(p: Params, w: World, e: Event)
    requires BooksOk(p, w) && Enabled(p, w, e) && e.Completed?
    ensures BooksOk(p, Step(p, w, e))
  {
    hide Conserved, TablesOk, TurnsUpTo, FinalObservations, Step, NewestOf, LastTurn, Finish, ObserveAll;
    var (rid, w') := (e.rid, Step(p, w, e));
    assert PhaseMatches(w, rid);
    CompletedStep(p, w, e);
    HasTurns(w, rid);
    FinishFields(p, w.s, rid);
    UsedCovers(p, w, rid);
    CompletedConserves(p, w, w', rid);
    CompletedPhases(w, w', rid);
  }

  lemma CompletedConserves(p: Params, w: World, w': World, rid: RequestId)
    requires BooksOk(p, w) && Valid(p, w'.s)
    requires rid in w.s.resident && rid in w.s.history
    requires forall q :: q in w.shrink ==> q in w'.shrink && w'.shrink[q] == w.shrink[q]
    requires w'.s.resident == w.s.resident - {rid} && w'.s.history == w.s.history - {rid}
    requires Newest(w.s, rid) <= w.s.used[w.s.resident[rid]]
    requires var r := w.s.resident[rid]; w'.s.used == w.s.used[r := Max(0.0, w.s.used[r] - Newest(w.s, rid))]
    ensures Conserved(p, w')
  {
    hide Total, TablesOk, NewestOf, LastTurn;
    assert Sizes(w'.s) == Sizes(w.s) - {rid};
    assert Sizes(w.s)[rid] == Newest(w.s, rid);
    forall r | r in p.replicas ensures w'.s.used[r] == Tokens(w'.s, r) + w'.shrink[r] {
      RemoveEffect(w.s.resident, Sizes(w.s), rid, r);
    }
  }

  lemma StepKeepsBooks(p: Params, w: World, e: Event)
    requires BooksOk(p, w)
    ensures BooksOk(p, Step(p, w, e))
  {
    hide BooksOk, Enabled;
    if Enabled(p, w, e) {
      if e.NextTurn? {
        LaterTurnKeepsBooks(p, w, e);
      } else if e.Measured? {
        MeasuredKeepsBooks(p, w, e);
      } else if e.Completed? {
        CompletedKeepsBooks(p, w, e);
      } else {
        FirstTurnKeepsBooks(p, w, e);
      }
    }
  }

  // Conservation holds in every reachable world, over every interleaving.
  lemma {:induction false} RunsConserve(p: Params, events: seq<Event>)
    requires |p.replicas| > 0 && p.growth.priorWeight > -1.0
    ensures BooksOk(p, Run(p, events))
  {
    hide Step;
    if |events| == 0 {
      BeginIsConserved(p);
    } else {
      RunsConserve(p, events[..|events| - 1]);
      StepKeepsBooks(p, Run(p, events[..|events| - 1]), events[|events| - 1]);
    }
  }

  lemma BeginIsConserved(p: Params)
    requires |p.replicas| > 0 && p.growth.priorWeight > -1.0
    ensures BooksOk(p, Begin(p))
  {
    var w := Begin(p);
    forall rid ensures PhaseMatches(w, rid) {
    }
    forall r | r in p.replicas ensures Tokens(w.s, r) == 0.0 {
      assert On(w.s.resident, Sizes(w.s), r) == map[];
    }
  }

  // The zero clamps of release and completion never bite: what they subtract is on the books.
  lemma ClampsNeverBite(p: Params, events: seq<Event>, rid: RequestId)
    requires |p.replicas| > 0 && p.growth.priorWeight > -1.0
    requires rid in Run(p, events).s.resident
    ensures var s := Run(p, events).s;
            s.resident[rid] in s.used && s.used[s.resident[rid]] - Newest(s, rid) >= 0.0
  {
    hide Run;
    RunsConserve(p, events);
    UsedCovers(p, Run(p, events), rid);
    ResidesInFleet(p, Run(p, events).s, rid);
  }

  // No turn served in place on r was ever smaller than the turn before it.
  ghost predicate NeverKept(p: Params, events: seq<Event>, r: Replica)
    requires |p.replicas| > 0 && p.growth.priorWeight > -1.0
  {
    var n := |events| - 1;
    n < 0
    || (&& NeverKept(p, events[..n], r)
        && var (w, e) := (Run(p, events[..n]), events[n]);
           Enabled(p, w, e) && e.rid in w.s.resident && w.s.resident[e.rid] == r ==> Kept(p, w, e) == 0.0)
  }

  lemma {:induction false} ShrinkIsKept(p: Params, events: seq<Event>, r: Replica)
    requires |p.replicas| > 0 && p.growth.priorWeight > -1.0 && r in p.replicas
    ensures r in Run(p, events).shrink && Run(p, events).shrink[r] >= 0.0
    ensures Run(p, events).shrink[r] == 0.0 <==> NeverKept(p, events, r)
  {
    hide BooksOk, Enabled, Kept, Segment, NewPhase, Fed;
    var n := |events| - 1;
    if n >= 0 {
      ShrinkIsKept(p, events[..n], r);
      KeptIsNonNegative(p, Run(p, events[..n]), events[n]);
    }
  }

  lemma KeptIsNonNegative(p: Params, w: World, e: Event)
    requires Valid(p, w.s)
    ensures Enabled(p, w, e) ==> Kept(p, w, e) >= 0.0
  {
    hide Enabled, Valid, Moves, NewestOf, LastTurn;
  }

  // Once every trajectory is done, a replica is back to zero used tokens exactly when no turn
  // served in place on it ever shrank; otherwise what those turns kept stays booked for good.
  lemma QuietMeansEmpty(p: Params, events: seq<Event>, r: Replica)
    requires |p.replicas| > 0 && p.growth.priorWeight > -1.0 && r in p.replicas
    requires Run(p, events).s.resident == map[]
    ensures r in Run(p, events).s.used && r in Run(p, events).shrink
    ensures Run(p, events).s.used[r] == Run(p, events).shrink[r]
    ensures Run(p, events).s.used[r] == 0.0 <==> NeverKept(p, events, r)
  {
    hide Run;
    RunsConserve(p, events);
    ShrinkIsKept(p, events, r);
    var s := Run(p, events).s;
    assert On(s.resident, Sizes(s), r) == map[];
  }

  // ----- what each kind of event does to histories, charges and tables

  // The turn of rid is booked at ctx: its history, its residency and its charge follow.
  ghost predicate BookedTurn(p: Params, s: State, s': State, rid: RequestId, turn: nat, ctx: real)
    requires Valid(p, s')
  {
    && rid in s'.resident && s'.resident[rid] in p.replicas
    && s'.resident == s.resident[rid := s'.resident[rid]]
    && s'.history == s.history[rid := Turns(s, rid)[turn := ctx]]
    && s'.charge == s.charge[rid := Charge(p, s', rid, ctx, turn)]
    && s'.tables == s.tables
  }

  ghost predicate FinalsFollow(p: Params, w: World, w': World, e: Event)
    requires Valid(p, w.s)
  {
    w'.s.oracleFinal == if e.Start? || e.NextTurn? then Declare(p, w.s, e.rid, e.final).oracleFinal else w.s.oracleFinal
  }

  lemma FirstTurnEffect(p: Params, w: World, e: Event)
    requires BooksOk(p, w) && Enabled(p, w, e) && FirstTurn(e)
    ensures var (w', r) := (Step(p, w, e), Segment(p, w, e));
            && e.rid !in w.s.resident && e.rid !in w.s.history && FirstContext(w, e) >= 0.0
            && FinalsFollow(p, w, w', e) && w'.fed == w.fed && w'.shrink == w.shrink
            && if r.1.Await?
               then SameBooks(w.s.(oracleFinal := w'.s.oracleFinal), w'.s)
                    && w'.phase == w.phase[e.rid := Waiting(r.1.on, FirstContext(w, e), FirstWork(w, e))]
               else BookedTurn(p, w.s, w'.s, e.rid, 0, FirstContext(w, e))
                    && w'.phase == w.phase[e.rid := InTurn(0, false)]
                    && w'.s.used == w.s.used[w'.s.resident[e.rid] := w.s.used[w'.s.resident[e.rid]] + FirstContext(w, e)]
  {
    hide Segment, Step, Charge, Conserved, ServesFirstTurn, Valid, Shrunk, Fed, NewPhase;
    var (rid, ctx) := (e.rid, FirstContext(w, e));
    assert PhaseMatches(w, rid);
    FirstTurnServes(p, w, e);
    FirstTurnStep(p, w, e);
    FirstTurnFeedsNothing(p, w, e);
    var s0 := if e.Start? then Declare(p, w.s, e.rid, e.final) else w.s;
    if Segment(p, w, e).1.Await? {
      AwaitKeepsBooks(p, s0, rid, ctx, Segment(p, w, e));
    } else {
      FirstBooking(p, s0, rid, ctx, Segment(p, w, e));
      ChargeIgnoresUsed(p, s0, Segment(p, w, e).0, rid, ctx, 0);
    }
  }

  lemma FirstTurnFeedsNothing(p: Params, w: World, e: Event)
    requires Valid(p, w.s) && Enabled(p, w, e) && FirstTurn(e)
    ensures Step(p, w, e).fed == w.fed
  {
    hide Valid, Segment, NewPhase, Shrunk;
    StepIs(p, w, e);
  }

  lemma LaterEffect(p: Params, w: World, e: Event)
    requires BooksOk(p, w) && Enabled(p, w, e) && e.NextTurn?
    ensures var (w', s0, turn) := (Step(p, w, e), Declare(p, w.s, e.rid, e.final), NextOf(w, e.rid));
            && Valid(p, s0) && turn > 0 && e.ctx >= 0.0
            && BookedTurn(p, w.s, w'.s, e.rid, turn, e.ctx)
            && FinalsFollow(p, w, w', e) && w'.fed == w.fed
            && w'.s == Continue(p, s0, e.rid, turn, e.ctx).0
            && w'.phase == w.phase[e.rid := InTurn(turn, false)]
            && (forall u :: u in Turns(w.s, e.rid) ==> u <= turn)
            && (e.rid in w.s.resident ==> turn - 1 in Turns(w.s, e.rid))
  {
    hide Step, Continue, Charge, Valid, Moves, Added, PhasesMatch, Conserved, BooksOk, Enabled, Declare;
    LaterSetup(p, w, e);
    LaterStep(p, w, e);
    LaterFeedsNothing(p, w, e);
    var (rid, ctx, turn) := (e.rid, e.ctx, NextOf(w, e.rid));
    var s0 := Declare(p, w.s, rid, e.final);
    LaterBooking(p, s0, rid, turn, ctx);
    ChargeIgnoresUsed(p, s0, Step(p, w, e).s, rid, ctx, turn);
  }

  lemma LaterFeedsNothing(p: Params, w: World, e: Event)
    requires Valid(p, w.s) && Enabled(p, w, e) && e.NextTurn?
    ensures Step(p, w, e).fed == w.fed
  {
    hide Valid, Segment, NewPhase, Shrunk;
    StepIs(p, w, e);
  }

  lemma MeasuredEffect(p: Params, w: World, e: Event)
    requires BooksOk(p, w) && Enabled(p, w, e) && e.Measured?
    ensures var (w', turn) := (Step(p, w, e), TurnNow(w, e.rid));
            && e.ctx >= 0.0 && e.rid in w.s.resident && e.rid in w.s.history && turn in w.s.history[e.rid]
            && (forall u :: u in w.s.history[e.rid] ==> u <= turn)
            && BookedTurn(p, w.s, w'.s, e.rid, turn, e.ctx)
            && w'.s.resident == w.s.resident && FinalsFollow(p, w, w', e) && w'.fed == w.fed && w'.shrink == w.shrink
            && w'.phase == w.phase[e.rid := InTurn(turn, true)]
            && w'.s.used == w.s.used[w.s.resident[e.rid] := w.s.used[w.s.resident[e.rid]] + (e.ctx - w.s.history[e.rid][turn])]
  {
    hide Conserved, Valid, Charge, Record, Step, NewestOf, LastTurn, Enabled, PhasesMatch;
    MeasuredStep(p, w, e);
    RecordFields(p, w.s, e.rid, TurnNow(w, e.rid), e.ctx);
    assert Step(p, w, e).s.resident == w.s.resident[e.rid := w.s.resident[e.rid]];
  }

  lemma CompletedEffect(p: Params, w: World, e: Event)
    requires BooksOk(p, w) && Enabled(p, w, e) && e.Completed?
    ensures var (w', turns) := (Step(p, w, e), Turns(w.s, e.rid));
            && e.rid in w.s.resident && e.rid in w.s.history && |turns| > 0
            && LastTurn(turns) == TurnNow(w, e.rid)
            && w'.s.resident == w.s.resident - {e.rid} && w'.s.history == w.s.history - {e.rid}
            && w'.s.charge == w.s.charge - {e.rid} && w'.s.oracleFinal == w.s.oracleFinal
            && TablesOk(p.growth, w.s.tables)
            && w'.s.tables == ObserveAll(p.growth, w.s.tables, FinalObservations(p, turns))
            && w'.fed == w.fed + FinalObservations(p, turns)
            && w'.phase == w.phase[e.rid := Gone(TurnNow(w, e.rid) + 1)]
            && w'.s.used == w.s.used[w.s.resident[e.rid] := Max(0.0, w.s.used[w.s.resident[e.rid]] - Newest(w.s, e.rid))]
  {
    hide Conserved, TablesOk, TurnsUpTo, FinalObservations, Step, NewestOf, LastTurn, Finish, ObserveAll;
    assert PhaseMatches(w, e.rid);
    CompletedStep(p, w, e);
    CompletedFeeds(p, w, e);
    HasTurns(w, e.rid);
    FinishFields(p, w.s, e.rid);
  }

  lemma CompletedFeeds(p: Params, w: World, e: Event)
    requires Valid(p, w.s) && Enabled(p, w, e) && e.Completed?
    ensures Step(p, w, e).fed == Fed(p, w, e)
  {
    hide Valid, Segment, NewPhase, Shrunk, Fed, Enabled;
    StepIs(p, w, e);
  }

  // ----- the estimator of every reachable world

  lemma {:induction false} ObserveAllKeepsSummary(cfg: Growth.Config, t: Growth.Tables, seen: seq<Growth.Observation>, obs: seq<Growth.Observation>)
    requires cfg.priorWeight > -1.0 && TablesOk(cfg, t)
    requires Growth.Summarizes(cfg, t, seen)
    ensures Growth.Summarizes(cfg, ObserveAll(cfg, t, obs), seen + obs)
  {
    hide Growth.Summarizes, Growth.Observe;
    var n := |obs| - 1;
    if n < 0 {
      assert seen + obs == seen;
    } else {
      ObserveAllKeepsSummary(cfg, t, seen, obs[..n]);
      Growth.ObserveKeepsSummary(cfg, ObserveAll(cfg, t, obs[..n]), seen + obs[..n], obs[n]);
      assert seen + obs == seen + obs[..n] + [obs[n]];
    }
  }

  lemma StepKeepsSummary(p: Params, w: World, e: Event)
    requires BooksOk(p, w) && p.growth.priorWeight > -1.0
    requires Growth.Summarizes(p.growth, w.s.tables, w.fed)
    ensures Growth.Summarizes(p.growth, Step(p, w, e).s.tables, Step(p, w, e).fed)
  {
    hide Growth.Summarizes, Segment, BooksOk, Enabled, ObserveAll, FinalObservations, Valid, FinalsFollow;
    if Enabled(p, w, e) {
      if e.NextTurn? {
        LaterEffect(p, w, e);
      } else if e.Measured? {
        MeasuredEffect(p, w, e);
      } else if e.Completed? {
        CompletedEffect(p, w, e);
        ObserveAllKeepsSummary(p.growth, w.s.tables, w.fed, FinalObservations(p, Turns(w.s, e.rid)));
      } else {
        FirstTurnEffect(p, w, e);
      }
    }
  }

  // In every reachable world the tables are exactly the batch statistics of the completed
  // trajectories, whatever order their turns and completions interleaved in.
  lemma {:induction false} RunsSummarize(p: Params, events: seq<Event>)
    requires |p.replicas| > 0 && p.growth.priorWeight > -1.0
    ensures Growth.Summarizes(p.growth, Run(p, events).s.tables, Run(p, events).fed)
  {
    hide Step, Growth.Summarizes;
    if |events| == 0 {
      NothingObserved(p.growth);
    } else {
      RunsConserve(p, events[..|events| - 1]);
      RunsSummarize(p, events[..|events| - 1]);
      StepKeepsSummary(p, Run(p, events[..|events| - 1]), events[|events| - 1]);
    }
  }

  lemma NothingObserved(cfg: Growth.Config)
    ensures Growth.Summarizes(cfg, Growth.EMPTY, [])
  {
    forall key ensures Growth.KeyMatches(cfg, Growth.EMPTY, key, Growth.Batch([], key)) {
      assert cfg.guess * cfg.priorWeight == cfg.priorWeight * cfg.guess + 0.0;
    }
  }
}
