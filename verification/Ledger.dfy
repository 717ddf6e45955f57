// The admission ledger as a state and the atomic segments of its calls. A call is cut at its
// `await` points: each segment below runs without interruption and says what the call does next.

module Ledger {
  import opened Text
  import opened Totals
  import Growth
  import opened Scheduling
  import opened Addressing

  // Replica addresses and group keys are only ever compared.
  type Replica(==, !new)
  type GroupKey(==, !new)
  // Request ids are compared and, in the LPT sort, ordered.
  type RequestId = nat

  datatype Params = Params(
    replicas: seq<Replica>, budget: real, wave1: int, growth: Growth.Config,
    allowMigration: bool, costRatio: real, costRatioP2p: real, p2pAvailable: bool, p2pPort: int,
    oracle: bool, lptWindow: bool, rebalanceSlack: real, stagger: bool)

  // One session waiting in the LPT window.
  datatype Arrival = Arrival(work: real, rid: RequestId, ctx: real)

  datatype State = State(
    used: map<Replica, real>,
    resident: map<RequestId, Replica>,
    history: map<RequestId, map<nat, real>>,
    charge: map<RequestId, real>,
    oracleFinal: map<RequestId, real>,
    tables: Growth.Tables,
    admitted: nat,
    lptPending: seq<Arrival>, lptResult: map<RequestId, Replica>, lptOpen: bool, lptClosed: bool,
    leader: map<GroupKey, Replica>, ready: map<GroupKey, bool>, claimed: set<GroupKey>,
    leaderRid: map<RequestId, GroupKey>)

  // What a call waits for when its segment ends at an `await`.
  datatype Wait = LeaderTurn(group: GroupKey) | LptWindow | LptBatch | Headroom

  datatype Outcome =
    | Placed(replica: Replica, source: Option<string>)
    | Raised
    | Await(on: Wait)
    | Noted

  function Init(p: Params): State {
    State(map r | r in p.replicas :: 0.0, map[], map[], map[], map[], Growth.EMPTY, 0,
          [], map[], false, false, map[], map[], {}, map[])
  }

  ghost predicate TablesOk(cfg: Growth.Config, t: Growth.Tables) {
    forall key ::
      && (key in t.count ==> key in t.m2)
      && Growth.Get(t.meanN, key, cfg.priorWeight) + 1.0 > 0.0
  }

  ghost predicate Valid(p: Params, s: State) {
    && |p.replicas| > 0
    && (forall r :: r in p.replicas ==> r in s.used)
    && (forall rid :: rid in s.resident ==> s.resident[rid] in p.replicas)
    && (forall g :: g in s.leader ==> s.leader[g] in p.replicas)
    && (forall rid :: rid in s.lptResult ==> s.lptResult[rid] in p.replicas)
    && TablesOk(p.growth, s.tables)
  }

  function Max(a: real, b: real): real {
    if a >= b then a else b
  }

  // ----- estimates

  function Charge(p: Params, s: State, rid: RequestId, ctx: real, turn: nat): real
    requires forall key :: key in s.tables.count ==> key in s.tables.m2
  {
    if p.oracle && rid in s.oracleFinal then Max(0.0, s.oracleFinal[rid] - ctx)
    else Growth.Estimate(p.growth, s.tables, Growth.KeyOf(p.growth, ctx, turn))
  }

  ghost function Reserve(s: State, r: Replica): real {
    Total(On(s.resident, s.charge, r))
  }

  ghost function Free(p: Params, s: State, r: Replica): real
    requires r in s.used
  {
    p.budget - s.used[r] - Reserve(s, r)
  }

  ghost function FreeMap(p: Params, s: State): map<Replica, real>
    requires Valid(p, s)
  {
    map r | r in p.replicas :: Free(p, s, r)
  }

  ghost function LeastLoaded(p: Params, s: State): (r: Replica)
    requires Valid(p, s)
    ensures r in p.replicas
    ensures forall q :: q in p.replicas ==> Free(p, s, q) <= Free(p, s, r)
  {
    var r := ArgMax(p.replicas, FreeMap(p, s));
    assert forall q :: q in p.replicas ==> FreeMap(p, s)[q] <= FreeMap(p, s)[r];
    r
  }

  function Others(rs: seq<Replica>, x: Replica): (o: seq<Replica>)
    ensures forall r :: r in o <==> r in rs && r != x
  {
    if |rs| == 0 then []
    else Others(rs[..|rs| - 1], x) + if rs[|rs| - 1] == x then [] else [rs[|rs| - 1]]
  }

  ghost function BestOther(p: Params, s: State, x: Replica): (o: Option<Replica>)
    requires Valid(p, s)
    ensures o.Some? ==> o.value in p.replicas && o.value != x
  {
    var others := Others(p.replicas, x);
    if |others| == 0 then None else Some(ArgMax(others, FreeMap(p, s)))
  }

  // ----- bookings

  ghost function Turns(s: State, rid: RequestId): map<nat, real> {
    Growth.Get(s.history, rid, map[])
  }

  // The tokens a booking adds: only the growth when the previous turn sits on the same replica.
  ghost function Added(s: State, rid: RequestId, r: Replica, turn: nat, ctx: real): real {
    var turns := Turns(s, rid);
    if rid in s.resident && s.resident[rid] == r && turn > 0 && turn - 1 in turns
    then Max(0.0, ctx - turns[turn - 1]) else ctx
  }

  ghost function Book(p: Params, s: State, rid: RequestId, r: Replica, turn: nat, ctx: real): (s': State)
    requires Valid(p, s) && r in p.replicas
    ensures Valid(p, s')
  {
    s.(used := s.used[r := s.used[r] + Added(s, rid, r, turn, ctx)],
       resident := s.resident[rid := r],
       history := s.history[rid := Turns(s, rid)[turn := ctx]],
       charge := s.charge[rid := Charge(p, s, rid, ctx, turn)])
  }

  ghost function Release(p: Params, s: State, rid: RequestId, r: Replica, turn: nat): (s': State)
    requires Valid(p, s) && r in p.replicas
    ensures Valid(p, s')
  {
    var size := Growth.Get(Turns(s, rid), turn, 0.0);
    s.(used := s.used[r := Max(0.0, s.used[r] - size)])
  }

  // The books of two states: tokens, residency, histories, charges and what charges derive from.
  ghost predicate SameBooks(s: State, s': State) {
    && s'.used == s.used && s'.resident == s.resident && s'.history == s.history
    && s'.charge == s.charge && s'.oracleFinal == s.oracleFinal && s'.tables == s.tables
  }

  // A booking made on top of s, given the used tokens it started from.
  ghost predicate BookedFields(p: Params, s: State, s': State, rid: RequestId, dest: Replica, turn: nat, ctx: real, used: map<Replica, real>)
    requires Valid(p, s)
  {
    && dest in p.replicas && dest in used
    && s'.resident == s.resident[rid := dest]
    && s'.used == used[dest := used[dest] + Added(s, rid, dest, turn, ctx)]
    && s'.history == s.history[rid := Turns(s, rid)[turn := ctx]]
    && s'.charge == s.charge[rid := Charge(p, s, rid, ctx, turn)]
    && s'.tables == s.tables && s'.oracleFinal == s.oracleFinal
  }

  // The books of s' are those of s with one booking made.
  ghost predicate Books(p: Params, s: State, s': State, rid: RequestId, dest: Replica, turn: nat, ctx: real)
    requires Valid(p, s)
  {
    BookedFields(p, s, s', rid, dest, turn, ctx, s.used)
  }

  // A segment of turn 0 either waits and leaves the books alone or makes exactly one booking,
  // and reports the replica it booked.
  ghost predicate ServesFirstTurn(p: Params, s: State, rid: RequestId, ctx: real, r: (State, Outcome))
    requires Valid(p, s)
  {
    match r.1
    case Await(_) => SameBooks(s, r.0)
    case Noted => false
    case _ =>
      && rid in r.0.resident && Books(p, s, r.0, rid, r.0.resident[rid], 0, ctx)
      && (r.1.Placed? ==> r.1.replica == r.0.resident[rid])
  }

  function IndexOf(rs: seq<Replica>, r: Replica): (i: nat)
    requires r in rs
    ensures i < |rs| && rs[i] == r
  {
    if rs[0] == r then 0 else 1 + IndexOf(rs[1..], r)
  }

  // The answer that sends a request to `dest`, pulling its prefix from `source` when peers can.
  function Pull(p: Params, dest: Replica, source: Replica): Outcome
    requires source in p.replicas
  {
    if !p.p2pAvailable then Placed(dest, None)
    else
      match ListenerHost(IndexOf(p.replicas, source))
      case None => Raised
      case Some(host) => Placed(dest, Some(SocketName(host, p.p2pPort)))
  }

  ghost function Migrate(p: Params, s: State, rid: RequestId, dest: Replica, turn: nat, ctx: real): (r: (State, Outcome))
    requires Valid(p, s) && rid in s.resident && dest in p.replicas && turn > 0
    ensures Valid(p, r.0)
  {
    var from := s.resident[rid];
    (Book(p, Release(p, s, rid, from, turn - 1), rid, dest, turn, ctx), Pull(p, dest, from))
  }

  // ----- turns after the first

  ghost predicate Rebalances(p: Params, s: State, rid: RequestId, ctx: real)
    requires Valid(p, s) && rid in s.resident
  {
    var here := s.resident[rid];
    var cand := BestOther(p, s, here);
    && p.rebalanceSlack >= 0.0 && p.allowMigration && cand.Some?
    && Free(p, s, cand.value) - Free(p, s, here) > p.rebalanceSlack * p.budget
    && Free(p, s, cand.value) >= ctx
  }

  ghost function Need(s: State, rid: RequestId, turn: nat, ctx: real): real
    requires turn > 0
  {
    Max(0.0, ctx - Growth.Get(Turns(s, rid), turn - 1, 0.0))
  }

  ghost predicate FitsInPlace(p: Params, s: State, rid: RequestId, turn: nat, ctx: real)
    requires Valid(p, s) && rid in s.resident && turn > 0
  {
    Free(p, s, s.resident[rid]) >= Need(s, rid, turn, ctx)
  }

  ghost predicate MovesForRoom(p: Params, s: State, rid: RequestId, turn: nat, ctx: real)
    requires Valid(p, s) && rid in s.resident && turn > 0
  {
    var here := s.resident[rid];
    var ratio := if p.p2pAvailable then p.costRatioP2p else p.costRatio;
    var target := BestOther(p, s, here);
    && p.allowMigration
    && Need(s, rid, turn, ctx) - Free(p, s, here) >= ratio * ctx
    && target.Some? && Free(p, s, target.value) >= ctx
  }

  ghost predicate Moves(p: Params, s: State, rid: RequestId, turn: nat, ctx: real)
    requires Valid(p, s) && rid in s.resident && turn > 0
  {
    Rebalances(p, s, rid, ctx) || (!FitsInPlace(p, s, rid, turn, ctx) && MovesForRoom(p, s, rid, turn, ctx))
  }

  lemma MovesHasTarget(p: Params, s: State, rid: RequestId, turn: nat, ctx: real)
    requires Valid(p, s) && rid in s.resident && turn > 0 && Moves(p, s, rid, turn, ctx)
    ensures BestOther(p, s, s.resident[rid]).Some?
  {
    hide Free, FitsInPlace;
  }

  // Stay where the history is, move to the emptiest other replica, or stay and overshoot.
  ghost function Continue(p: Params, s: State, rid: RequestId, turn: nat, ctx: real): (r: (State, Outcome))
    requires Valid(p, s) && turn > 0
    ensures Valid(p, r.0)
  {
    if rid !in s.resident then PlaceOn(p, s, rid, LeastLoaded(p, s), turn, ctx)
    else
      var here := s.resident[rid];
      if Moves(p, s, rid, turn, ctx) then Migrate(p, s, rid, BestOther(p, s, here).value, turn, ctx)
      else PlaceOn(p, s, rid, here, turn, ctx)
  }

  ghost function PlaceOn(p: Params, s: State, rid: RequestId, r: Replica, turn: nat, ctx: real): (o: (State, Outcome))
    requires Valid(p, s) && r in p.replicas
    ensures Valid(p, o.0)
  {
    (Book(p, s, rid, r, turn, ctx), Placed(r, None))
  }

  // ----- the first turn

  ghost function Declare(p: Params, s: State, rid: RequestId, final: Option<real>): (s': State)
    requires Valid(p, s)
    ensures Valid(p, s')
  {
    if final.Some? then s.(oracleFinal := s.oracleFinal[rid := final.value]) else s
  }

  // Turn 0 up to its first `await`. `expired` says whether the admission deadline has passed.
  ghost function Arrive(p: Params, s: State, rid: RequestId, ctx: real, work: Option<real>, group: Option<GroupKey>, expired: bool):
    (r: (State, Outcome))
    requires Valid(p, s)
    ensures Valid(p, r.0)
  {
    if p.stagger && group.Some? then StaggerEnter(p, s, rid, group.value, ctx, work, expired)
    else Ordinary(p, s, rid, ctx, work, expired)
  }

  // The first member of a group takes the lead.
  ghost function Lead(p: Params, s: State, rid: RequestId, g: GroupKey, dest: Replica): (s': State)
    requires Valid(p, s) && dest in p.replicas
    ensures Valid(p, s') && SameBooks(s, s')
  {
    s.(claimed := s.claimed + {g}, ready := s.ready[g := false],
       leader := s.leader[g := dest], leaderRid := s.leaderRid[rid := g])
  }

  ghost function StaggerEnter(p: Params, s: State, rid: RequestId, g: GroupKey, ctx: real, work: Option<real>, expired: bool):
    (r: (State, Outcome))
    requires Valid(p, s)
    ensures Valid(p, r.0)
  {
    if g !in s.claimed then
      var dest := LeastLoaded(p, s);
      (Book(p, Lead(p, s, rid, g, dest), rid, dest, 0, ctx), Placed(dest, None))
    else if g in s.ready && !s.ready[g] then (s, Await(LeaderTurn(g)))
    else Follow(p, s, rid, g, ctx, work, expired)
  }

  ghost function Follow(p: Params, s: State, rid: RequestId, g: GroupKey, ctx: real, work: Option<real>, expired: bool):
    (r: (State, Outcome))
    requires Valid(p, s)
    ensures Valid(p, r.0)
  {
    if g !in s.leader then Ordinary(p, s, rid, ctx, work, expired)
    else
      var target := BestOther(p, s, s.leader[g]);
      if target.None? then Ordinary(p, s, rid, ctx, work, expired)
      else (Book(p, s, rid, target.value, 0, ctx), Pull(p, target.value, s.leader[g]))
  }

  ghost function Admit(p: Params, s: State): (s': State)
    requires Valid(p, s)
    ensures Valid(p, s') && SameBooks(s, s')
  {
    s.(admitted := s.admitted + 1)
  }

  ghost function Ordinary(p: Params, s: State, rid: RequestId, ctx: real, work: Option<real>, expired: bool):
    (r: (State, Outcome))
    requires Valid(p, s)
    ensures Valid(p, r.0)
  {
    if p.lptWindow then LptEnter(p, s, rid, ctx, work)
    else
      var s1 := Admit(p, s);
      if s1.admitted <= p.wave1 then PlaceOn(p, s1, rid, LeastLoaded(p, s1), 0, ctx)
      else Poll(p, s1, rid, ctx, expired)
  }

  // One round of the admission loop; a caller out of time is admitted regardless.
  ghost function Poll(p: Params, s: State, rid: RequestId, ctx: real, expired: bool): (r: (State, Outcome))
    requires Valid(p, s)
    ensures Valid(p, r.0)
  {
    if expired || Free(p, s, LeastLoaded(p, s)) >= ctx then PlaceOn(p, s, rid, LeastLoaded(p, s), 0, ctx)
    else (s, Await(Headroom))
  }

  // ----- the LPT window

  function WorkOf(ctx: real, work: Option<real>): real {
    if work.Some? && work.value != 0.0 then work.value else ctx
  }

  ghost function LptEnter(p: Params, s: State, rid: RequestId, ctx: real, work: Option<real>): (r: (State, Outcome))
    requires Valid(p, s)
    ensures Valid(p, r.0)
  {
    if s.lptClosed then PlaceOn(p, s, rid, LeastLoaded(p, s), 0, ctx)
    else
      (s.(lptPending := s.lptPending + [Arrival(WorkOf(ctx, work), rid, ctx)], lptOpen := true),
       Await(if s.lptOpen then LptBatch else LptWindow))
  }

  // The order of the tuples (-work, rid, ctx).
  predicate Sooner(a: Arrival, b: Arrival) {
    a.work > b.work
    || (a.work == b.work && (a.rid < b.rid || (a.rid == b.rid && a.ctx < b.ctx)))
  }

  function Insert(x: Arrival, sorted: seq<Arrival>): seq<Arrival> {
    if |sorted| == 0 || !Sooner(x, sorted[|sorted| - 1]) then sorted + [x]
    else Insert(x, sorted[..|sorted| - 1]) + [sorted[|sorted| - 1]]
  }

  function LongestFirst(arrivals: seq<Arrival>): seq<Arrival> {
    if |arrivals| == 0 then [] else Insert(arrivals[|arrivals| - 1], LongestFirst(arrivals[..|arrivals| - 1]))
  }

  function Works(arrivals: seq<Arrival>): (ws: seq<real>)
    ensures |ws| == |arrivals|
  {
    seq(|arrivals|, i requires 0 <= i < |arrivals| => arrivals[i].work)
  }

  ghost function Plan(results: map<RequestId, Replica>, batch: seq<Arrival>, at: seq<Replica>): (m: map<RequestId, Replica>)
    requires |batch| == |at|
    ensures forall rid :: rid in m ==> (rid in results && m[rid] == results[rid]) || m[rid] in at
  {
    var n := |batch| - 1;
    if n < 0 then results else Plan(results, batch[..n], at[..n])[batch[n].rid := at[n]]
  }

  // The placements of a batch, longest work first.
  ghost function BatchPlacement(p: Params, s: State): (at: seq<Replica>)
    requires Valid(p, s)
    ensures |at| == |LongestFirst(s.lptPending)| && Within(at, p.replicas)
  {
    Greedy(p.replicas, FreeMap(p, s), Works(LongestFirst(s.lptPending)))
  }

  ghost function CloseWindow(p: Params, s: State): (s': State)
    requires Valid(p, s)
    ensures Valid(p, s')
  {
    var batch := LongestFirst(s.lptPending);
    var at := BatchPlacement(p, s);
    assert forall r :: r in at ==> r in p.replicas;
    s.(lptPending := [], lptResult := Plan(s.lptResult, batch, at), lptClosed := true)
  }

  // The planned replica of a session, or the emptiest one when the plan does not name it.
  ghost function Planned(p: Params, s: State, rid: RequestId): (r: Replica)
    requires Valid(p, s)
    ensures r in p.replicas
  {
    if rid in s.lptResult then s.lptResult[rid] else LeastLoaded(p, s)
  }

  ghost function Forget(p: Params, s: State, rid: RequestId): (s': State)
    requires Valid(p, s)
    ensures Valid(p, s')
  {
    s.(lptResult := s.lptResult - {rid})
  }

  ghost function TakeResult(p: Params, s: State, rid: RequestId, ctx: real): (r: (State, Outcome))
    requires Valid(p, s)
    ensures Valid(p, r.0)
  {
    PlaceOn(p, Forget(p, s, rid), rid, Planned(p, s, rid), 0, ctx)
  }

  // ----- every first-turn segment makes at most one booking

  lemma BookIsBooked(p: Params, s: State, rid: RequestId, dest: Replica, turn: nat, ctx: real)
    requires Valid(p, s) && dest in p.replicas
    ensures BookedFields(p, s, Book(p, s, rid, dest, turn, ctx), rid, dest, turn, ctx, s.used)
  {
    hide Charge, Added, TablesOk;
  }

  lemma ChargeIgnoresUsed(p: Params, s: State, s1: State, rid: RequestId, ctx: real, turn: nat)
    requires Valid(p, s)
    requires s1.tables == s.tables && s1.oracleFinal == s.oracleFinal
    ensures Charge(p, s1, rid, ctx, turn) == Charge(p, s, rid, ctx, turn)
  {
  }

  lemma BookingIgnoresQueues(p: Params, s: State, s1: State, rid: RequestId, dest: Replica, turn: nat, ctx: real)
    requires Valid(p, s) && Valid(p, s1) && SameBooks(s, s1) && dest in p.replicas
    ensures Books(p, s, Book(p, s1, rid, dest, turn, ctx), rid, dest, turn, ctx)
  {
    hide Book, Max, Charge, TablesOk;
    BookIsBooked(p, s1, rid, dest, turn, ctx);
    ChargeIgnoresUsed(p, s, s1, rid, ctx, turn);
    assert Turns(s, rid) == Turns(s1, rid);
    assert Added(s, rid, dest, turn, ctx) == Added(s1, rid, dest, turn, ctx);
  }

  lemma PlaceServes(p: Params, s: State, s1: State, rid: RequestId, dest: Replica, ctx: real)
    requires Valid(p, s) && Valid(p, s1) && SameBooks(s, s1) && dest in p.replicas
    ensures ServesFirstTurn(p, s, rid, ctx, PlaceOn(p, s1, rid, dest, 0, ctx))
  {
    BookingIgnoresQueues(p, s, s1, rid, dest, 0, ctx);
  }

  lemma PollServes(p: Params, s: State, s1: State, rid: RequestId, ctx: real, expired: bool)
    requires Valid(p, s) && Valid(p, s1) && SameBooks(s, s1)
    ensures ServesFirstTurn(p, s, rid, ctx, Poll(p, s1, rid, ctx, expired))
  {
    hide Books, Free, PlaceOn;
    PlaceServes(p, s, s1, rid, LeastLoaded(p, s1), ctx);
  }

  lemma OrdinaryServes(p: Params, s: State, rid: RequestId, ctx: real, work: Option<real>, expired: bool)
    requires Valid(p, s)
    ensures ServesFirstTurn(p, s, rid, ctx, Ordinary(p, s, rid, ctx, work, expired))
  {
    hide Valid, Books, Free, PlaceOn, Poll, ServesFirstTurn, SameBooks, Admit, LptEnter;
    if p.lptWindow {
      LptEnterServes(p, s, rid, ctx, work);
    } else {
      var s1 := Admit(p, s);
      PlaceServes(p, s, s1, rid, LeastLoaded(p, s1), ctx);
      PollServes(p, s, s1, rid, ctx, expired);
    }
  }

  lemma LptEnterServes(p: Params, s: State, rid: RequestId, ctx: real, work: Option<real>)
    requires Valid(p, s)
    ensures ServesFirstTurn(p, s, rid, ctx, LptEnter(p, s, rid, ctx, work))
  {
    hide Books, Free, PlaceOn;
    PlaceServes(p, s, s, rid, LeastLoaded(p, s), ctx);
  }

  lemma BookServes(p: Params, s: State, s1: State, rid: RequestId, dest: Replica, ctx: real, o: Outcome)
    requires Valid(p, s) && Valid(p, s1) && SameBooks(s, s1) && dest in p.replicas
    requires o.Raised? || (o.Placed? && o.replica == dest)
    ensures ServesFirstTurn(p, s, rid, ctx, (Book(p, s1, rid, dest, 0, ctx), o))
  {
    hide Books;
    BookingIgnoresQueues(p, s, s1, rid, dest, 0, ctx);
  }

  lemma LeaderInFleet(p: Params, s: State, g: GroupKey)
    requires Valid(p, s) && g in s.leader
    ensures s.leader[g] in p.replicas
  {
    hide TablesOk;
  }

  lemma FollowServes(p: Params, s: State, rid: RequestId, g: GroupKey, ctx: real, work: Option<real>, expired: bool)
    requires Valid(p, s)
    ensures ServesFirstTurn(p, s, rid, ctx, Follow(p, s, rid, g, ctx, work, expired))
  {
    hide Valid, Books, Book, Free, Ordinary, ServesFirstTurn, BestOther;
    OrdinaryServes(p, s, rid, ctx, work, expired);
    if g in s.leader {
      LeaderInFleet(p, s, g);
      var target := BestOther(p, s, s.leader[g]);
      if target.Some? {
        BookServes(p, s, s, rid, target.value, ctx, Pull(p, target.value, s.leader[g]));
      }
    }
  }

  lemma StaggerServes(p: Params, s: State, rid: RequestId, g: GroupKey, ctx: real, work: Option<real>, expired: bool)
    requires Valid(p, s)
    ensures ServesFirstTurn(p, s, rid, ctx, StaggerEnter(p, s, rid, g, ctx, work, expired))
  {
    hide Books, Book, Free, Ordinary, Follow, ServesFirstTurn;
    if g !in s.claimed {
      var dest := LeastLoaded(p, s);
      BookServes(p, s, Lead(p, s, rid, g, dest), rid, dest, ctx, Placed(dest, None));
    } else {
      FollowServes(p, s, rid, g, ctx, work, expired);
      WaitServes(p, s, rid, ctx, LeaderTurn(g));
    }
  }

  lemma ArriveServes(p: Params, s: State, rid: RequestId, ctx: real, work: Option<real>, group: Option<GroupKey>, expired: bool)
    requires Valid(p, s)
    ensures ServesFirstTurn(p, s, rid, ctx, Arrive(p, s, rid, ctx, work, group, expired))
  {
    hide Valid, Ordinary, StaggerEnter, ServesFirstTurn;
    OrdinaryServes(p, s, rid, ctx, work, expired);
    if group.Some? {
      StaggerServes(p, s, rid, group.value, ctx, work, expired);
    }
  }

  lemma WaitServes(p: Params, s: State, rid: RequestId, ctx: real, on: Wait)
    requires Valid(p, s)
    ensures ServesFirstTurn(p, s, rid, ctx, (s, Await(on)))
  {
  }

  lemma TakeResultServes(p: Params, s: State, s1: State, rid: RequestId, ctx: real)
    requires Valid(p, s) && Valid(p, s1) && SameBooks(s, s1)
    ensures ServesFirstTurn(p, s, rid, ctx, TakeResult(p, s1, rid, ctx))
  {
    hide Books, PlaceOn, ServesFirstTurn, TablesOk;
    PlaceServes(p, s, Forget(p, s1, rid), rid, Planned(p, s1, rid), ctx);
  }

  // ----- reports

  // A leader's own turn 0 releases its group.
  ghost function MarkReady(p: Params, s: State, rid: RequestId, turn: nat): (s': State)
    requires Valid(p, s)
    ensures Valid(p, s') && SameBooks(s, s')
  {
    if p.stagger && turn == 0 && rid in s.leaderRid && s.leaderRid[rid] in s.ready
    then s.(ready := s.ready[s.leaderRid[rid] := true]) else s
  }

  // The booked size of a turn is replaced by the measured one.
  ghost function Remeasured(p: Params, s: State, rid: RequestId, turn: nat, ctx: real): (s': State)
    requires Valid(p, s) && rid in s.resident
    ensures Valid(p, s')
  {
    var r := s.resident[rid];
    var turns := Turns(s, rid);
    s.(used := s.used[r := s.used[r] + (ctx - Growth.Get(turns, turn, ctx))],
       history := s.history[rid := turns[turn := ctx]],
       charge := s.charge[rid := Charge(p, s, rid, ctx, turn)])
  }

  ghost function Record(p: Params, s: State, rid: RequestId, turn: nat, ctx: real): (s': State)
    requires Valid(p, s)
    ensures Valid(p, s')
  {
    var s1 := MarkReady(p, s, rid, turn);
    if rid !in s1.resident then s1 else Remeasured(p, s1, rid, turn, ctx)
  }

  ghost function LastTurn(turns: map<nat, real>): (t: nat)
    requires |turns| > 0
    ensures t in turns && forall u :: u in turns ==> u <= t
  {
    var k :| k in turns;
    var rest := turns - {k};
    assert forall u :: u in turns ==> u == k || u in rest;
    if |rest| == 0 then k
    else
      var t := LastTurn(rest);
      if t > k then t else k
  }

  // The size booked for the newest turn.
  ghost function NewestOf(turns: map<nat, real>): real {
    if |turns| == 0 then 0.0 else turns[LastTurn(turns)]
  }

  // The growth each turn below n still had ahead of it, earliest turn first.
  ghost function Remaining(cfg: Growth.Config, turns: map<nat, real>, final: real, n: nat): seq<Growth.Observation> {
    if n == 0 then []
    else
      Remaining(cfg, turns, final, n - 1)
      + if n - 1 in turns
        then [Growth.Observation(Growth.KeyOf(cfg, turns[n - 1], n - 1), final - turns[n - 1])] else []
  }

  ghost function ObserveAll(cfg: Growth.Config, t: Growth.Tables, obs: seq<Growth.Observation>): (t': Growth.Tables)
    requires TablesOk(cfg, t)
    ensures TablesOk(cfg, t')
  {
    var n := |obs| - 1;
    if n < 0 then t
    else
      var u := ObserveAll(cfg, t, obs[..n]);
      Growth.Observe(cfg, u, obs[n].key, obs[n].growth)
  }

  ghost function FinalObservations(p: Params, turns: map<nat, real>): seq<Growth.Observation>
    requires |turns| > 0
  {
    Remaining(p.growth, turns, NewestOf(turns), LastTurn(turns) + 1)
  }

  ghost function Freed(used: map<Replica, real>, r: Replica, size: real): map<Replica, real>
    requires r in used
  {
    used[r := Max(0.0, used[r] - size)]
  }

  // A finished request leaves the books ...
  ghost function Dropped(p: Params, s: State, rid: RequestId): (s': State)
    requires Valid(p, s)
    ensures Valid(p, s')
  {
    s.(resident := s.resident - {rid}, history := s.history - {rid}, charge := s.charge - {rid})
  }

  // ... its turns feed the estimator, and its newest size comes off its replica.
  ghost function Settled(p: Params, s: State, r: Replica, turns: map<nat, real>): (s': State)
    requires Valid(p, s) && r in p.replicas && |turns| > 0
    ensures Valid(p, s')
  {
    s.(tables := ObserveAll(p.growth, s.tables, FinalObservations(p, turns)),
       used := Freed(s.used, r, NewestOf(turns)))
  }

  ghost function Finish(p: Params, s: State, rid: RequestId): (s': State)
    requires Valid(p, s)
    ensures Valid(p, s')
  {
    if rid in s.resident && |Turns(s, rid)| > 0
    then Settled(p, Dropped(p, s, rid), s.resident[rid], Turns(s, rid))
    else Dropped(p, s, rid)
  }

  // The window and the groups of two states.
  ghost predicate SameQueues(s: State, s': State) {
    && s'.admitted == s.admitted && s'.lptPending == s.lptPending && s'.lptResult == s.lptResult
    && s'.lptOpen == s.lptOpen && s'.lptClosed == s.lptClosed
    && s'.leader == s.leader && s'.ready == s.ready && s'.claimed == s.claimed && s'.leaderRid == s.leaderRid
  }

  lemma SettledKeepsQueues(p: Params, s: State, r: Replica, turns: map<nat, real>)
    requires Valid(p, s) && r in p.replicas && |turns| > 0
    ensures SameQueues(s, Settled(p, s, r, turns))
  {
    hide Valid, ObserveAll, FinalObservations, Freed, NewestOf;
  }

  lemma FinishKeepsQueues(p: Params, s: State, rid: RequestId)
    requires Valid(p, s)
    ensures SameQueues(s, Finish(p, s, rid))
  {
    hide TablesOk, Settled;
    if rid in s.resident && |Turns(s, rid)| > 0 {
      SettledKeepsQueues(p, Dropped(p, s, rid), s.resident[rid], Turns(s, rid));
    }
  }

  // A recording, as one update of the state it starts from.
  lemma RemeasuredIs(p: Params, s: State, rid: RequestId, turn: nat, ctx: real)
    requires Valid(p, s) && rid in s.resident
    ensures TablesOk(p.growth, s.tables) && s.resident[rid] in s.used && s.resident[rid] in p.replicas
    ensures var (r, turns) := (s.resident[rid], Turns(s, rid));
            Remeasured(p, s, rid, turn, ctx)
            == s.(used := s.used[r := s.used[r] + (ctx - Growth.Get(turns, turn, ctx))],
                  history := s.history[rid := turns[turn := ctx]],
                  charge := s.charge[rid := Charge(p, s, rid, ctx, turn)])
  {
    hide TablesOk, Charge, Turns;
  }

  lemma FinalObservationsAre(p: Params, turns: map<nat, real>)
    requires |turns| > 0
    ensures NewestOf(turns) == turns[LastTurn(turns)]
    ensures FinalObservations(p, turns) == Remaining(p.growth, turns, turns[LastTurn(turns)], LastTurn(turns) + 1)
  {
    hide Remaining;
  }

  lemma ObserveOneMore(cfg: Growth.Config, t: Growth.Tables, obs: seq<Growth.Observation>, o: Growth.Observation)
    requires TablesOk(cfg, t)
    ensures Growth.Get(ObserveAll(cfg, t, obs).meanN, o.key, cfg.priorWeight) + 1.0 != 0.0
    ensures ObserveAll(cfg, t, obs + [o]) == Growth.Observe(cfg, ObserveAll(cfg, t, obs), o.key, o.growth)
  {
    hide Growth.Observe;
    assert (obs + [o])[..|obs|] == obs;
  }
}
