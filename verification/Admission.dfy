// The ledger object: its fields are updated in place, one method per atomic segment of a call.
// Each method is the ledger function of the same segment, applied to the fields.

module Admission {
  import opened Text
  import opened Totals
  import Growth
  import Scheduling
  import L = Ledger

  type Replica = L.Replica
  type RequestId = L.RequestId
  type GroupKey = L.GroupKey

  lemma FleetIsTracked(p: L.Params, s: L.State)
    requires L.Valid(p, s)
    ensures forall r :: r in p.replicas ==> r in s.used
    ensures forall rid :: rid in s.resident ==> s.resident[rid] in p.replicas && s.resident[rid] in s.used
    ensures L.TablesOk(p.growth, s.tables)
  {
    hide L.TablesOk;
  }

  lemma InFleet(p: L.Params, s: L.State, r: Replica)
    requires L.Valid(p, s) && r in p.replicas
    ensures r in s.used && L.TablesOk(p.growth, s.tables)
  {
    hide L.TablesOk;
  }

  lemma NothingToObserve(cfg: Growth.Config, t: Growth.Tables)
    requires L.TablesOk(cfg, t)
    ensures L.ObserveAll(cfg, t, []) == t
  {
  }

  lemma LastIsNewest(turns: map<nat, real>, last: nat)
    requires |turns| > 0 && last == L.LastTurn(turns)
    ensures turns[last] == L.NewestOf(turns)
  {
  }

  // Bookings and recordings, told field by field.

  lemma BookedFields(p: L.Params, s: L.State, rid: RequestId, replica: Replica, turn: nat, ctx: real, added: real, charge: real)
    requires L.Valid(p, s) && replica in p.replicas && replica in s.used && L.TablesOk(p.growth, s.tables)
    requires added == L.Added(s, rid, replica, turn, ctx) && charge == L.Charge(p, s, rid, ctx, turn)
    ensures s.(used := s.used[replica := s.used[replica] + added], resident := s.resident[rid := replica],
               history := s.history[rid := Growth.Get(s.history, rid, map[])[turn := ctx]],
               charge := s.charge[rid := charge]) == L.Book(p, s, rid, replica, turn, ctx)
  {
    hide L.Valid, L.Added, L.Charge;
  }

  lemma RemeasuredFields(p: L.Params, s: L.State, rid: RequestId, turn: nat, ctx: real, delta: real, charge: real)
    requires L.Valid(p, s) && rid in s.resident && s.resident[rid] in s.used && L.TablesOk(p.growth, s.tables)
    requires delta == ctx - Growth.Get(L.Turns(s, rid), turn, ctx) && charge == L.Charge(p, s, rid, ctx, turn)
    ensures s.(used := s.used[s.resident[rid] := s.used[s.resident[rid]] + delta],
               history := s.history[rid := Growth.Get(s.history, rid, map[])[turn := ctx]],
               charge := s.charge[rid := charge]) == L.Remeasured(p, s, rid, turn, ctx)
  {
    hide L.Valid, L.Charge, L.Remeasured;
    L.RemeasuredIs(p, s, rid, turn, ctx);
  }

  lemma MarkedFields(p: L.Params, s: L.State, rid: RequestId, turn: nat)
    requires L.Valid(p, s)
    ensures L.MarkReady(p, s, rid, turn)
            == s.(ready := if p.stagger && turn == 0 && rid in s.leaderRid && s.leaderRid[rid] in s.ready
                           then s.ready[s.leaderRid[rid] := true] else s.ready)
  {
    hide L.Valid, L.SameBooks;
  }

  lemma FirstIsBest(candidates: seq<Replica>, score: map<Replica, real>)
    requires |candidates| > 0 && forall r :: r in candidates ==> r in score
    ensures forall r :: r in candidates[..1] ==> r in score
    ensures Scheduling.ArgMax(candidates[..1], score) == candidates[0]
  {
  }

  lemma BestSoFar(candidates: seq<Replica>, score: map<Replica, real>, i: nat)
    requires 0 < i < |candidates| && forall r :: r in candidates ==> r in score
    ensures forall r :: r in candidates[..i + 1] ==> r in score
    ensures var best := Scheduling.ArgMax(candidates[..i], score);
            Scheduling.ArgMax(candidates[..i + 1], score)
              == if score[candidates[i]] > score[best] then candidates[i] else best
  {
    assert candidates[..i + 1][..i] == candidates[..i];
  }

  // Taking the arrivals out of the window changes no estimate.
  lemma BatchTaken(p: L.Params, s: L.State)
    requires L.Valid(p, s)
    ensures L.Valid(p, s.(lptPending := [])) && L.FreeMap(p, s.(lptPending := [])) == L.FreeMap(p, s)
    ensures |p.replicas| > 0 && forall r :: r in p.replicas ==> r in L.FreeMap(p, s)
  {
    hide L.TablesOk;
    FreeIgnoresQueues(p, s, s.(lptPending := []));
  }

  lemma FreeIgnoresQueues(p: L.Params, s: L.State, s': L.State)
    requires L.Valid(p, s) && L.Valid(p, s') && L.SameBooks(s, s')
    ensures L.FreeMap(p, s') == L.FreeMap(p, s)
  {
    hide L.TablesOk;
    assert forall r :: L.Reserve(s, r) == L.Reserve(s', r);
  }

  lemma ClosedFields(p: L.Params, s: L.State)
    requires L.Valid(p, s)
    ensures |p.replicas| > 0 && forall r :: r in p.replicas ==> r in L.FreeMap(p, s)
    ensures var batch := L.LongestFirst(s.lptPending);
            L.CloseWindow(p, s)
            == s.(lptPending := [], lptClosed := true,
                  lptResult := L.Plan(s.lptResult, batch, Scheduling.Greedy(p.replicas, L.FreeMap(p, s), L.Works(batch))))
  {
    hide L.TablesOk, L.Plan, L.LongestFirst, L.Works, Scheduling.Greedy, L.Free;
  }

  lemma OnePlanned(p: L.Params, s: L.State, rid: RequestId, target: Replica)
    requires L.Valid(p, s) && target in p.replicas
    ensures var s' := s.(lptResult := s.lptResult[rid := target]);
            L.Valid(p, s') && L.FreeMap(p, s') == L.FreeMap(p, s)
  {
    hide L.TablesOk;
    FreeIgnoresQueues(p, s, s.(lptResult := s.lptResult[rid := target]));
  }

  lemma StartOfPlan(replicas: seq<Replica>, free: map<Replica, real>, works: seq<real>, batch: seq<L.Arrival>, results: map<RequestId, Replica>)
    requires |replicas| > 0 && forall r :: r in replicas ==> r in free
    ensures Scheduling.Greedy(replicas, free, works[..0]) == []
    ensures forall r: Replica :: Scheduling.Load(works[..0], [], r) == 0.0
    ensures L.Plan(results, batch[..0], []) == results
  {
  }

  // Planning one more session of the batch.
  lemma PlanGrows(replicas: seq<Replica>, free: map<Replica, real>, works: seq<real>, batch: seq<L.Arrival>,
                  results: map<RequestId, Replica>, i: nat, at: seq<Replica>, target: Replica)
    requires |replicas| > 0 && forall r :: r in replicas ==> r in free
    requires |works| == |batch| && i < |works| && |at| == i && at == Scheduling.Greedy(replicas, free, works[..i])
    requires target == Scheduling.ArgMax(replicas, Scheduling.Remaining(replicas, free, works[..i], at))
    ensures at + [target] == Scheduling.Greedy(replicas, free, works[..i + 1])
    ensures forall r :: Scheduling.Load(works[..i + 1], at + [target], r)
                        == Scheduling.Load(works[..i], at, r) + if target == r then works[i] else 0.0
    ensures L.Plan(results, batch[..i + 1], at + [target]) == L.Plan(results, batch[..i], at)[batch[i].rid := target]
  {
    hide Scheduling.ArgMax, Scheduling.Remaining;
    assert works[..i + 1][..i] == works[..i] && batch[..i + 1][..i] == batch[..i] && (at + [target])[..i] == at;
  }

  class AdmissionLedger {
    const p: L.Params
    const estimator: Growth.GrowthEstimator
    var used: map<Replica, real>
    var resident: map<RequestId, Replica>
    var history: map<RequestId, map<nat, real>>
    var reserveCharge: map<RequestId, real>
    var oracleFinal: map<RequestId, real>
    var admittedCount: nat
    var lptPending: seq<L.Arrival>
    var lptResult: map<RequestId, Replica>
    var lptOpen: bool
    var lptClosed: bool
    var groupLeader: map<GroupKey, Replica>
    var groupReady: map<GroupKey, bool>
    var groupClaimed: set<GroupKey>
    var groupLeaderRid: map<RequestId, GroupKey>

    function State(): L.State
      reads this, estimator
    {
      L.State(used, resident, history, reserveCharge, oracleFinal, estimator.State(), admittedCount,
              lptPending, lptResult, lptOpen, lptClosed, groupLeader, groupReady, groupClaimed, groupLeaderRid)
    }

    ghost predicate Valid()
      reads this, estimator
    {
      estimator.config == p.growth && L.Valid(p, State())
    }

    constructor (p: L.Params)
      requires |p.replicas| > 0 && p.growth.priorWeight > -1.0
      ensures Valid() && this.p == p && fresh(estimator)
      ensures State() == L.Init(p)
    {
      this.p := p;
      estimator := new Growth.GrowthEstimator(p.growth);
      used := map r | r in p.replicas :: 0.0;
      resident, history, reserveCharge, oracleFinal := map[], map[], map[], map[];
      admittedCount := 0;
      lptPending, lptResult, lptOpen, lptClosed := [], map[], false, false;
      groupLeader, groupReady, groupClaimed, groupLeaderRid := map[], map[], {}, map[];
    }

    // ----- estimates

    method Reserve(replica: Replica) returns (total: real)
      ensures total == L.Reserve(State(), replica)
    {
      ghost var all := On(resident, reserveCharge, replica);
      var todo := resident.Keys;
      total := 0.0;
      assert all == map rid | rid in todo && rid in all :: all[rid];
      while todo != {}
        invariant todo <= resident.Keys
        invariant total + Total(map rid | rid in todo && rid in all :: all[rid]) == Total(all)
        decreases todo
      {
        var rid :| rid in todo;
        ghost var left := map q | q in todo && q in all :: all[q];
        ghost var rest := map q | q in todo - {rid} && q in all :: all[q];
        assert rest == left - {rid};
        TotalWithoutAny(left, rid);
        if resident[rid] == replica {
          total := total + Growth.Get(reserveCharge, rid, 0.0);
        }
        todo := todo - {rid};
      }
    }

    method EstimatedFree(replica: Replica) returns (free: real)
      requires replica in used
      ensures free == L.Free(p, State(), replica)
    {
      var reserve := Reserve(replica);
      free := p.budget - used[replica] - reserve;
    }

    // The first of the candidates with the most estimated free budget.
    method MostFree(candidates: seq<Replica>) returns (best: Replica)
      requires Valid() && |candidates| > 0
      requires forall r :: r in candidates ==> r in p.replicas
      ensures best == Scheduling.ArgMax(candidates, L.FreeMap(p, State()))
    {
      hide L.Free, L.Valid, Scheduling.ArgMax;
      ghost var free := L.FreeMap(p, State());
      FleetIsTracked(p, State());
      best := candidates[0];
      var most := EstimatedFree(best);
      FirstIsBest(candidates, free);
      for i := 1 to |candidates|
        invariant best in candidates[..i]
        invariant best == Scheduling.ArgMax(candidates[..i], free)
        invariant most == free[best]
      {
        var here := EstimatedFree(candidates[i]);
        BestSoFar(candidates, free, i);
        if here > most {
          best, most := candidates[i], here;
        }
      }
      assert candidates[..|candidates|] == candidates;
    }

    method LeastLoaded() returns (best: Replica)
      requires Valid()
      ensures best == L.LeastLoaded(p, State())
    {
      best := MostFree(p.replicas);
    }

    method BestOther(replica: Replica) returns (best: Option<Replica>)
      requires Valid()
      ensures best == L.BestOther(p, State(), replica)
    {
      var others := L.Others(p.replicas, replica);
      if |others| == 0 {
        best := None;
      } else {
        var r := MostFree(others);
        best := Some(r);
      }
    }

    // The reserve charge of a resident under the present tables and declared sizes.
    method ChargeOf(rid: RequestId, ctx: real, turn: nat) returns (c: real)
      requires Valid()
      ensures L.TablesOk(p.growth, State().tables) && c == L.Charge(p, State(), rid, ctx, turn)
    {
      if p.oracle && rid in oracleFinal {
        c := L.Max(0.0, oracleFinal[rid] - ctx);
      } else {
        c := Growth.Estimate(p.growth, estimator.State(), Growth.KeyOf(p.growth, ctx, turn));
      }
    }

    // ----- bookings

    // The tokens a booking adds to its replica.
    method AddedBy(rid: RequestId, replica: Replica, turn: nat, ctx: real) returns (added: real)
      ensures added == L.Added(State(), rid, replica, turn, ctx)
    {
      var turns := Growth.Get(history, rid, map[]);
      if rid in resident && resident[rid] == replica && turn > 0 && turn - 1 in turns {
        added := L.Max(0.0, ctx - turns[turn - 1]);
      } else {
        added := ctx;
      }
    }

    method Book(rid: RequestId, replica: Replica, turn: nat, ctx: real)
      requires Valid() && replica in p.replicas
      modifies this
      ensures Valid() && State() == L.Book(p, old(State()), rid, replica, turn, ctx)
    {
      hide L.Valid, L.Book, L.Charge, L.Added, L.TablesOk;
      ghost var s := State();
      InFleet(p, s, replica);
      var added := AddedBy(rid, replica, turn, ctx);
      var charge := ChargeOf(rid, ctx, turn);
      BookedFields(p, s, rid, replica, turn, ctx, added, charge);
      Store(used[replica := used[replica] + added], resident[rid := replica],
            history[rid := Growth.Get(history, rid, map[])[turn := ctx]], reserveCharge[rid := charge]);
    }

    // Writes the four dictionaries of a booking.
    method Store(used: map<Replica, real>, resident: map<RequestId, Replica>, history: map<RequestId, map<nat, real>>, charge: map<RequestId, real>)
      modifies this`used, this`resident, this`history, this`reserveCharge
      ensures this.used == used && this.resident == resident && this.history == history && reserveCharge == charge
    {
      this.used, this.resident, this.history, reserveCharge := used, resident, history, charge;
    }

    method ReleaseBooking(rid: RequestId, replica: Replica, turn: nat)
      requires Valid() && replica in p.replicas
      modifies this
      ensures Valid() && State() == L.Release(p, old(State()), rid, replica, turn)
    {
      hide L.TablesOk;
      ghost var s := State();
      var size := Growth.Get(Growth.Get(history, rid, map[]), turn, 0.0);
      FleetIsTracked(p, s);
      used := used[replica := L.Max(0.0, used[replica] - size)];
      assert State() == L.Release(p, s, rid, replica, turn);
    }

    // ----- acquire, a later turn

    method AcquireLater(rid: RequestId, turn: nat, ctx: real, final: Option<real>) returns (o: L.Outcome)
      requires Valid() && turn > 0
      modifies this
      ensures L.Valid(p, L.Declare(p, old(State()), rid, final))
      ensures Valid() && (State(), o) == L.Continue(p, L.Declare(p, old(State()), rid, final), rid, turn, ctx)
    {
      if final.Some? {
        oracleFinal := oracleFinal[rid := final.value];
      }
      assert State() == L.Declare(p, old(State()), rid, final);
      o := ContinueOrMigrate(rid, turn, ctx);
    }

    // Whether some other replica is emptier by more than the slack and has the context free.
    method ShouldRebalance(rid: RequestId, ctx: real) returns (move: bool, cand: Option<Replica>)
      requires Valid() && rid in resident
      ensures move == L.Rebalances(p, State(), rid, ctx)
      ensures cand == L.BestOther(p, State(), resident[rid]) || !move
    {
      hide L.TablesOk, L.Free, L.BestOther;
      if !(p.rebalanceSlack >= 0.0 && p.allowMigration) {
        return false, None;
      }
      cand := BestOther(resident[rid]);
      if cand.None? {
        return false, None;
      }
      var freeThere := EstimatedFree(cand.value);
      var freeHere := EstimatedFree(resident[rid]);
      move := freeThere - freeHere > p.rebalanceSlack * p.budget && freeThere >= ctx;
    }

    // Whether the deficit is worth a move and some other replica has the context free.
    method ShouldMove(rid: RequestId, turn: nat, ctx: real, need: real, freeHere: real) returns (move: bool, target: Option<Replica>)
      requires Valid() && rid in resident && turn > 0
      requires need == L.Need(State(), rid, turn, ctx) && freeHere == L.Free(p, State(), resident[rid])
      ensures move == L.MovesForRoom(p, State(), rid, turn, ctx)
      ensures target == L.BestOther(p, State(), resident[rid]) || !move
    {
      hide L.TablesOk, L.Free, L.BestOther, L.Need;
      var ratio := if p.p2pAvailable then p.costRatioP2p else p.costRatio;
      if !(p.allowMigration && need - freeHere >= ratio * ctx) {
        return false, None;
      }
      target := BestOther(resident[rid]);
      if target.None? {
        return false, None;
      }
      var freeThere := EstimatedFree(target.value);
      move := freeThere >= ctx;
    }

    method Migrate(rid: RequestId, dest: Replica, turn: nat, ctx: real) returns (o: L.Outcome)
      requires Valid() && rid in resident && dest in p.replicas && turn > 0
      modifies this
      ensures Valid() && (State(), o) == L.Migrate(p, old(State()), rid, dest, turn, ctx)
    {
      hide L.Book, L.Release, L.TablesOk, L.Pull;
      var here := resident[rid];
      ReleaseBooking(rid, here, turn - 1);
      Book(rid, dest, turn, ctx);
      o := L.Pull(p, dest, here);
    }

    method ContinueOrMigrate(rid: RequestId, turn: nat, ctx: real) returns (o: L.Outcome)
      requires Valid() && turn > 0
      modifies this
      ensures Valid() && (State(), o) == L.Continue(p, old(State()), rid, turn, ctx)
    {
      hide L.Book, L.Migrate, L.TablesOk, L.Free, L.Rebalances, L.MovesForRoom, L.BestOther;
      if rid !in resident {
        var replica := LeastLoaded();
        Book(rid, replica, turn, ctx);
        return L.Placed(replica, None);
      }
      var here := resident[rid];
      var need := L.Max(0.0, ctx - Growth.Get(Growth.Get(history, rid, map[]), turn - 1, 0.0));
      assert need == L.Need(State(), rid, turn, ctx);

      var rebalance, cand := ShouldRebalance(rid, ctx);
      if rebalance {
        L.MovesHasTarget(p, State(), rid, turn, ctx);
        o := Migrate(rid, cand.value, turn, ctx);
        return;
      }

      var freeHere := EstimatedFree(here);
      if freeHere >= need {
        Book(rid, here, turn, ctx);
        return L.Placed(here, None);
      }

      var move, target := ShouldMove(rid, turn, ctx, need, freeHere);
      if move {
        L.MovesHasTarget(p, State(), rid, turn, ctx);
        o := Migrate(rid, target.value, turn, ctx);
        return;
      }
      Book(rid, here, turn, ctx);
      o := L.Placed(here, None);
    }

    // ----- acquire, the first turn

    method AcquireFirst(rid: RequestId, ctx: real, final: Option<real>, work: Option<real>, group: Option<GroupKey>, expired: bool)
      returns (o: L.Outcome)
      requires Valid()
      modifies this
      ensures L.Valid(p, L.Declare(p, old(State()), rid, final))
      ensures Valid() && (State(), o) == L.Arrive(p, L.Declare(p, old(State()), rid, final), rid, ctx, work, group, expired)
    {
      if final.Some? {
        oracleFinal := oracleFinal[rid := final.value];
      }
      assert State() == L.Declare(p, old(State()), rid, final);
      if p.stagger && group.Some? {
        o := StaggerPlace(rid, group.value, ctx, work, expired);
      } else {
        o := PlaceOrdinary(rid, ctx, work, expired);
      }
    }

    method StaggerPlace(rid: RequestId, g: GroupKey, ctx: real, work: Option<real>, expired: bool) returns (o: L.Outcome)
      requires Valid()
      modifies this
      ensures Valid() && (State(), o) == L.StaggerEnter(p, old(State()), rid, g, ctx, work, expired)
    {
      hide L.Book, L.Follow, L.Valid, L.SameBooks, L.LeastLoaded;
      ghost var s := State();
      if g !in groupClaimed {
        var replica := LeastLoaded();
        groupClaimed := groupClaimed + {g};
        groupReady := groupReady[g := false];
        groupLeader := groupLeader[g := replica];
        groupLeaderRid := groupLeaderRid[rid := g];
        assert State() == L.Lead(p, s, rid, g, replica);
        Book(rid, replica, 0, ctx);
        return L.Placed(replica, None);
      }
      if g in groupReady && !groupReady[g] {
        return L.Await(L.LeaderTurn(g));
      }
      o := FollowLeader(rid, g, ctx, work, expired);
    }

    // A group member whose leader is ready, or whose group has no event to wait for.
    method FollowLeader(rid: RequestId, g: GroupKey, ctx: real, work: Option<real>, expired: bool) returns (o: L.Outcome)
      requires Valid()
      modifies this
      ensures Valid() && (State(), o) == L.Follow(p, old(State()), rid, g, ctx, work, expired)
    {
      hide L.Book, L.Ordinary, L.TablesOk, L.Pull, L.BestOther;
      if g in groupLeader {
        var leader := groupLeader[g];
        var target := BestOther(leader);
        if target.Some? {
          Book(rid, target.value, 0, ctx);
          return L.Pull(p, target.value, leader);
        }
      }
      o := PlaceOrdinary(rid, ctx, work, expired);
    }

    // Placement without a group, also taken when the wait for a leader times out.
    method PlaceOrdinary(rid: RequestId, ctx: real, work: Option<real>, expired: bool) returns (o: L.Outcome)
      requires Valid()
      modifies this
      ensures Valid() && (State(), o) == L.Ordinary(p, old(State()), rid, ctx, work, expired)
    {
      hide L.Book, L.Poll, L.LptEnter, L.Valid, L.SameBooks, L.LeastLoaded;
      ghost var s := State();
      if p.lptWindow {
        o := EnterWindow(rid, ctx, work);
        return;
      }
      admittedCount := admittedCount + 1;
      assert State() == L.Admit(p, s);
      if admittedCount <= p.wave1 {
        var replica := LeastLoaded();
        Book(rid, replica, 0, ctx);
        return L.Placed(replica, None);
      }
      o := PollRound(rid, ctx, expired);
    }

    // One round of the admission loop: book at once when a replica has room, sleep when none
    // has, and book regardless once the deadline has passed.
    method PollRound(rid: RequestId, ctx: real, expired: bool) returns (o: L.Outcome)
      requires Valid()
      modifies this
      ensures Valid() && (State(), o) == L.Poll(p, old(State()), rid, ctx, expired)
    {
      hide L.Book, L.TablesOk, L.Free;
      var candidate := LeastLoaded();
      if !expired {
        var free := EstimatedFree(candidate);
        if free < ctx {
          return L.Await(L.Headroom);
        }
      }
      Book(rid, candidate, 0, ctx);
      o := L.Placed(candidate, None);
    }

    // ----- the LPT window

    method EnterWindow(rid: RequestId, ctx: real, work: Option<real>) returns (o: L.Outcome)
      requires Valid()
      modifies this
      ensures Valid() && (State(), o) == L.LptEnter(p, old(State()), rid, ctx, work)
    {
      hide L.Book, L.TablesOk, L.Free;
      if lptClosed {
        var replica := LeastLoaded();
        Book(rid, replica, 0, ctx);
        return L.Placed(replica, None);
      }
      lptPending := lptPending + [L.Arrival(L.WorkOf(ctx, work), rid, ctx)];
      var first := !lptOpen;
      lptOpen := true;
      o := L.Await(if first then L.LptWindow else L.LptBatch);
    }

    // The first session of the window wakes: sort the batch longest first and plan it.
    method CloseWindow(rid: RequestId, ctx: real) returns (o: L.Outcome)
      requires Valid()
      modifies this
      ensures Valid() && (State(), o) == L.TakeResult(p, L.CloseWindow(p, old(State())), rid, ctx)
    {
      hide L.Valid, L.TakeResult, L.CloseWindow;
      PlanWindow();
      o := TakeResult(rid, ctx);
    }

    method PlanWindow()
      requires Valid()
      modifies this
      ensures Valid() && State() == L.CloseWindow(p, old(State()))
    {
      hide L.Valid, L.Plan, L.LongestFirst, L.FreeMap, L.Works, L.CloseWindow, Scheduling.Greedy;
      ghost var s := State();
      var batch := L.LongestFirst(lptPending);
      lptPending := [];
      BatchTaken(p, s);
      PlanBatch(batch);
      lptClosed := true;
      ClosedFields(p, s);
    }

    lemma StartPlanning(free: map<Replica, real>)
      requires Valid() && free == L.FreeMap(p, State())
      ensures Planning(free)
    {
    }

    ghost predicate Planning(free: map<Replica, real>)
      reads this, estimator
    {
      Valid() && L.FreeMap(p, State()) == free
    }

    method AddToPlan(rid: RequestId, target: Replica, ghost free: map<Replica, real>)
      requires Planning(free) && target in p.replicas
      modifies this`lptResult
      ensures Planning(free) && lptResult == old(lptResult)[rid := target]
    {
      hide L.Valid, L.FreeMap;
      OnePlanned(p, State(), rid, target);
      lptResult := lptResult[rid := target];
    }

    // Greedy placement of a sorted batch, charging each assignment as it is made.
    method PlanBatch(batch: seq<L.Arrival>)
      requires Valid() && |p.replicas| > 0
      requires forall r :: r in p.replicas ==> r in L.FreeMap(p, State())
      modifies this`lptResult
      ensures lptResult == L.Plan(old(lptResult), batch, Scheduling.Greedy(p.replicas, old(L.FreeMap(p, State())), L.Works(batch)))
    {
      hide L.Plan, Scheduling.Greedy, Scheduling.Load, Scheduling.ArgMax, Scheduling.Remaining, L.Valid, L.FreeMap, Planning;
      ghost var results := lptResult;
      ghost var free := L.FreeMap(p, State());
      var works := L.Works(batch);
      var provisional := map r | r in p.replicas :: 0.0;
      ghost var at: seq<Replica> := [];
      StartOfPlan(p.replicas, free, works, batch, results);
      StartPlanning(free);
      for i := 0 to |batch|
        invariant Planning(free)
        invariant |at| == i && at == Scheduling.Greedy(p.replicas, free, works[..i])
        invariant forall r :: r in p.replicas ==> r in provisional && provisional[r] == Scheduling.Load(works[..i], at, r)
        invariant lptResult == L.Plan(results, batch[..i], at)
      {
        var target := PlanNext(provisional, works[..i], at, free);
        PlanGrows(p.replicas, free, works, batch, results, i, at, target);
        AddToPlan(batch[i].rid, target, free);
        provisional := provisional[target := provisional[target] + batch[i].work];
        at := at + [target];
      }
      assert works[..|batch|] == works && batch[..|batch|] == batch;
    }

    // The estimated free budget of a replica less what the batch has provisionally put there.
    method StillFree(replica: Replica, provisional: map<Replica, real>, works: seq<real>, ghost at: seq<Replica>, ghost free: map<Replica, real>)
      returns (left: real)
      requires Planning(free) && |works| == |at| && replica in p.replicas
      requires forall r :: r in p.replicas ==> r in free
      requires replica in provisional && provisional[replica] == Scheduling.Load(works, at, replica)
      ensures left == Scheduling.Remaining(p.replicas, free, works, at)[replica]
    {
      hide L.Valid, L.Free, Scheduling.Load;
      FleetIsTracked(p, State());
      left := EstimatedFree(replica);
      left := left - provisional[replica];
    }

    // The replica with the most of that.
    method PlanNext(provisional: map<Replica, real>, works: seq<real>, ghost at: seq<Replica>, ghost free: map<Replica, real>)
      returns (target: Replica)
      requires Planning(free) && |p.replicas| > 0 && |works| == |at|
      requires forall r :: r in p.replicas ==> r in free
      requires forall r :: r in p.replicas ==> r in provisional && provisional[r] == Scheduling.Load(works, at, r)
      ensures target == Scheduling.ArgMax(p.replicas, Scheduling.Remaining(p.replicas, free, works, at))
    {
      hide Planning, Scheduling.Load, Scheduling.ArgMax;
      ghost var score := Scheduling.Remaining(p.replicas, free, works, at);
      target := p.replicas[0];
      var most := StillFree(target, provisional, works, at, free);
      FirstIsBest(p.replicas, score);
      for i := 1 to |p.replicas|
        invariant target in p.replicas[..i]
        invariant target == Scheduling.ArgMax(p.replicas[..i], score)
        invariant most == score[target]
      {
        var here := StillFree(p.replicas[i], provisional, works, at, free);
        BestSoFar(p.replicas, score, i);
        if here > most {
          target, most := p.replicas[i], here;
        }
      }
      assert p.replicas[..|p.replicas|] == p.replicas;
    }

    // Another session of the window wakes after the batch was planned.
    method TakeResult(rid: RequestId, ctx: real) returns (o: L.Outcome)
      requires Valid()
      modifies this
      ensures Valid() && (State(), o) == L.TakeResult(p, old(State()), rid, ctx)
    {
      hide L.Book, L.TablesOk, L.Free;
      ghost var s := State();
      var replica;
      if rid in lptResult {
        replica := lptResult[rid];
      } else {
        replica := LeastLoaded();
      }
      lptResult := lptResult - {rid};
      assert State() == L.Forget(p, s, rid);
      assert replica == L.Planned(p, s, rid);
      Book(rid, replica, 0, ctx);
      o := L.Placed(replica, None);
    }

    // A session whose wait for the batch timed out.
    method GiveUpOnBatch(rid: RequestId, ctx: real) returns (o: L.Outcome)
      requires Valid()
      modifies this
      ensures Valid() && (State(), o) == L.PlaceOn(p, old(State()), rid, L.LeastLoaded(p, old(State())), 0, ctx)
    {
      var replica := LeastLoaded();
      Book(rid, replica, 0, ctx);
      o := L.Placed(replica, None);
    }

    // ----- reports

    // Releases a group once its leader's own turn 0 has completed.
    method MarkGroupReady(rid: RequestId)
      requires p.stagger
      modifies this`groupReady
      ensures groupReady == if rid in groupLeaderRid && groupLeaderRid[rid] in old(groupReady)
                            then old(groupReady)[groupLeaderRid[rid] := true] else old(groupReady)
    {
      if rid in groupLeaderRid {
        var g := groupLeaderRid[rid];
        if g in groupReady && !groupReady[g] {
          groupReady := groupReady[g := true];
        }
      }
    }

    method RecordTurn(rid: RequestId, turn: nat, ctx: real)
      requires Valid()
      modifies this
      ensures Valid() && State() == L.Record(p, old(State()), rid, turn, ctx)
    {
      hide L.Valid, L.Charge, L.TablesOk, L.MarkReady, L.SameBooks, L.Remeasured;
      ghost var s := State();
      if p.stagger && turn == 0 {
        MarkGroupReady(rid);
      }
      MarkedFields(p, s, rid, turn);
      assert State() == L.MarkReady(p, s, rid, turn);
      if rid in resident {
        Remeasure(rid, turn, ctx);
      }
    }

    // Replaces the booked size of a turn by the measured one.
    method Remeasure(rid: RequestId, turn: nat, ctx: real)
      requires Valid() && rid in resident
      modifies this
      ensures Valid() && State() == L.Remeasured(p, old(State()), rid, turn, ctx)
    {
      hide L.Valid, L.Charge, L.TablesOk, L.Remeasured;
      FleetIsTracked(p, State());
      var replica := resident[rid];
      var turns: map<nat, real> := Growth.Get(history, rid, map[]);
      var delta := ctx - Growth.Get(turns, turn, ctx);
      var charge := ChargeOf(rid, ctx, turn);
      RemeasuredFields(p, State(), rid, turn, ctx, delta, charge);
      Store(used[replica := used[replica] + delta], resident, history[rid := turns[turn := ctx]], reserveCharge[rid := charge]);
    }

    method LastTurn(turns: map<nat, real>) returns (last: nat)
      requires |turns| > 0
      ensures last == L.LastTurn(turns)
    {
      var todo := turns.Keys;
      assert |todo| > 0;
      last :| last in todo;
      while todo != {}
        invariant todo <= turns.Keys && last in turns
        invariant forall t :: t in turns && t !in todo ==> t <= last
        decreases todo
      {
        var t :| t in todo;
        if t > last {
          last := t;
        }
        todo := todo - {t};
      }
    }

    // Feeds the estimator with the growth each recorded turn still had ahead of it.
    method ObserveFinal(turns: map<nat, real>)
      requires estimator.config == p.growth && L.TablesOk(p.growth, estimator.State()) && |turns| > 0
      modifies estimator
      ensures estimator.State() == L.ObserveAll(p.growth, old(estimator.State()), L.FinalObservations(p, turns))
    {
      hide L.ObserveAll, L.TablesOk, Growth.Observe, Growth.KeyOf, L.NewestOf, L.FinalObservations, L.LastTurn;
      ghost var t0 := estimator.State();
      NothingToObserve(p.growth, t0);
      var last := LastTurn(turns);
      var final := turns[last];
      for t := 0 to last + 1
        invariant estimator.State() == L.ObserveAll(p.growth, t0, L.Remaining(p.growth, turns, final, t))
      {
        if t in turns {
          ghost var seen := L.Remaining(p.growth, turns, final, t);
          var o := Growth.Observation(Growth.KeyOf(p.growth, turns[t], t), final - turns[t]);
          L.ObserveOneMore(p.growth, t0, seen, o);
          estimator.ObserveGrowth(o.key, o.growth);
          assert L.Remaining(p.growth, turns, final, t + 1) == seen + [o];
        } else {
          assert L.Remaining(p.growth, turns, final, t + 1) == L.Remaining(p.growth, turns, final, t);
        }
      }
      L.FinalObservationsAre(p, turns);
    }

    method OnTrajectoryDone(rid: RequestId)
      requires Valid()
      modifies this, estimator
      ensures Valid() && State() == L.Finish(p, old(State()), rid)
    {
      hide L.Valid, L.TablesOk, L.Dropped, L.Settled;
      FleetIsTracked(p, State());
      var was, turns := PopBooks(rid);
      if was.Some? && |turns| > 0 {
        Settle(was.value, turns);
      }
    }

    method PopBooks(rid: RequestId) returns (was: Option<Replica>, turns: map<nat, real>)
      requires Valid()
      modifies this`resident, this`history, this`reserveCharge
      ensures Valid() && State() == L.Dropped(p, old(State()), rid)
      ensures was == if rid in old(resident) then Some(old(resident)[rid]) else None
      ensures turns == L.Turns(old(State()), rid)
    {
      hide L.Valid;
      was := if rid in resident then Some(resident[rid]) else None;
      turns := Growth.Get(history, rid, map[]);
      resident, history, reserveCharge := resident - {rid}, history - {rid}, reserveCharge - {rid};
      assert State() == L.Dropped(p, old(State()), rid);
    }

    method Settle(replica: Replica, turns: map<nat, real>)
      requires Valid() && replica in p.replicas && |turns| > 0
      modifies this, estimator
      ensures Valid() && State() == L.Settled(p, old(State()), replica, turns)
    {
      hide L.Valid, L.TablesOk, L.ObserveAll, L.FinalObservations, L.LastTurn, L.NewestOf, L.Freed;
      ghost var s := State();
      InFleet(p, s, replica);
      ObserveFinal(turns);
      var last := LastTurn(turns);
      Free(replica, turns[last]);
      LastIsNewest(turns, last);
      assert State() == L.Settled(p, s, replica, turns);
    }

    // Takes a finished trajectory's tokens off its replica, but never below zero.
    method Free(replica: Replica, size: real)
      requires replica in used
      modifies this`used
      ensures used == L.Freed(old(used), replica, size)
    {
      used := used[replica := L.Max(0.0, used[replica] - size)];
    }
  }
}
