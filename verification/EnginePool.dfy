// The pool of engines: membership, health, the weight-transfer gate and the weight version. The
// pool's lock makes each method below one step; health checks of different engines may end in any
// order, also after their engine was removed or replaced.

module EnginePool {
  import opened Health
  import opened WeightUpdate
  import WeightRuns

  // What the pool is told about its members, and its members after that.
  datatype Callback = OnReady(id: EngineId, address: string) | OnGone(id: EngineId)

  function Told(members: map<EngineId, string>, c: Callback): map<EngineId, string> {
    match c
    case OnReady(id, address) => members[id := address]
    case OnGone(id) => members - {id}
  }

  function Members(calls: seq<Callback>): map<EngineId, string> {
    var n := |calls| - 1;
    if n < 0 then map[] else Told(Members(calls[..n]), calls[n])
  }

  class EngineState {
    const id: EngineId
    const address: string
    var ready: bool
    var consecutiveFailures: nat
    // Every check result of this engine since it was added.
    ghost var results: seq<bool>

    constructor (id: EngineId, address: string)
      ensures this.id == id && this.address == address && results == [] && Ok()
    {
      this.id, this.address := id, address;
      ready, consecutiveFailures, results := false, 0, [];
    }

    ghost predicate Ok()
      reads this
    {
      Health(ready, consecutiveFailures) == HealthAfter(results)
    }

    // The end of one health check; `unhealthy` says that the callback is started.
    method Report(ok: bool) returns (unhealthy: bool)
      requires Ok()
      modifies this
      ensures Ok() && results == old(results) + [ok]
      ensures ready <==> RecentSuccess(results)
      ensures unhealthy <==> Alarms(results, |results| - 1)
    {
      ghost var before := results;
      unhealthy := false;
      if !ok {
        consecutiveFailures := consecutiveFailures + 1;
        if consecutiveFailures >= 3 && ready {
          ready := false;
          unhealthy := true;
        }
      } else {
        consecutiveFailures := 0;
        ready := true;
      }
      results := results + [ok];
      assert results[..|before|] == before && results[|before|] == ok;
      HealthIsDebounced(results);
      AlarmsOncePerOutage(results, |before|);
    }
  }

  ghost function IdsOf(clients: seq<EngineId>): set<EngineId> {
    set id | id in clients
  }

  ghost predicate AllDifferent(clients: seq<EngineId>) {
    forall i, j :: 0 <= i < j < |clients| ==> clients[i] != clients[j]
  }

  lemma {:induction false} CountIds(clients: seq<EngineId>)
    requires AllDifferent(clients)
    ensures |IdsOf(clients)| == |clients|
  {
    var n := |clients| - 1;
    if n < 0 {
      assert IdsOf(clients) == {};
    } else {
      CountIds(clients[..n]);
      assert IdsOf(clients) == IdsOf(clients[..n]) + {clients[n]};
    }
  }

  // Engines ranked by their place in a list without repetitions.
  lemma PlacesAreRanks(jobs: seq<EngineId>, ranks: map<EngineId, nat>)
    requires AllDifferent(jobs) && ranks.Keys == IdsOf(jobs)
    requires forall i :: 0 <= i < |jobs| ==> ranks[jobs[i]] == i + 1
    ensures RanksFor(ranks, IdsOf(jobs))
  {
    CountIds(jobs);
    forall id | id in IdsOf(jobs) ensures 1 <= ranks[id] <= |jobs| && jobs[ranks[id] - 1] == id {
      var i :| 0 <= i < |jobs| && jobs[i] == id;
    }
    forall k | 1 <= k <= |jobs| ensures Given(ranks, k) {
      assert jobs[k - 1] in ranks && ranks[jobs[k - 1]] == k;
    }
  }

  // The trainer has rank 0, so the first engine gets rank 1.
  method AssignRanks(jobs: seq<EngineId>) returns (ranks: map<EngineId, nat>)
    requires AllDifferent(jobs)
    ensures RanksFor(ranks, IdsOf(jobs))
  {
    ranks := map[];
    var rank: nat := 1;
    for i := 0 to |jobs|
      invariant rank == i + 1
      invariant ranks.Keys == IdsOf(jobs[..i])
      invariant forall k :: 0 <= k < i ==> ranks[jobs[k]] == k + 1
    {
      assert jobs[..i + 1] == jobs[..i] + [jobs[i]];
      ranks := ranks[jobs[i] := rank];
      rank := rank + 1;
    }
    assert jobs[..|jobs|] == jobs;
    PlacesAreRanks(jobs, ranks);
  }

  lemma SameIds(clients: seq<EngineId>, ids: set<EngineId>)
    requires forall id :: id in clients <==> id in ids
    ensures IdsOf(clients) == ids
  {
  }

  lemma MembersSnoc(calls: seq<Callback>, c: Callback)
    ensures Members(calls + [c]) == Told(Members(calls), c)
  {
    assert (calls + [c])[..|calls|] == calls;
  }

  class EnginePool {
    var engines: map<EngineId, EngineState>
    var transferInited: bool
    var weightVersion: int
    // Every membership callback so far, and the engines and ranks of the last successful init.
    ghost var calls: seq<Callback>
    ghost var initEngines: map<EngineId, EngineState>
    ghost var initRanks: map<EngineId, nat>

    // The pool is what its callbacks made it, each member's health follows its own results, and
    // while the gate is open the last init that all engines answered ranked the present members.
    ghost predicate Valid()
      reads this, engines.Values
    {
      && Addresses() == Members(calls)
      && (forall id :: id in engines ==> engines[id].id == id && engines[id].Ok())
      && (forall id, other :: id in engines && other in engines && id != other ==> engines[id] != engines[other])
      && (transferInited ==> initEngines == engines && RanksFor(initRanks, engines.Keys))
    }

    // The pool over engines in these states, as the runs of weight updates see it.
    ghost function View(fleet: Fleet): WeightRuns.Pool
      reads this
    {
      WeightRuns.Pool(engines.Keys, transferInited, weightVersion, fleet)
    }

    ghost function Addresses(): map<EngineId, string>
      reads this, engines.Values
    {
      map id | id in engines :: engines[id].address
    }

    constructor ()
      ensures Valid() && engines == map[] && calls == [] && !transferInited && weightVersion == 0
    {
      engines, transferInited, weightVersion := map[], false, 0;
      calls, initEngines, initRanks := [], map[], map[];
    }

    // A fresh engine state, also for an id already known: a replaced engine keeps nothing.
    method AddEngine(id: EngineId, address: string)
      requires Valid()
      modifies this
      ensures Valid() && calls == old(calls) + [OnReady(id, address)]
      ensures engines.Keys == old(engines).Keys + {id} && fresh(engines[id]) && engines[id].results == []
      ensures forall other :: other in old(engines) && other != id ==> engines[other] == old(engines)[other]
      ensures !transferInited && weightVersion == old(weightVersion)
      ensures forall fleet: Fleet, remote: Remote ::
        View(fleet[id := remote]) == WeightRuns.Step(old(View(fleet)), WeightRuns.Add(id, remote))
    {
      hide Members;
      MembersSnoc(calls, OnReady(id, address));
      var engine := new EngineState(id, address);
      engines := engines[id := engine];
      transferInited := false;
      calls := calls + [OnReady(id, address)];
      assert Addresses() == old(Addresses())[id := address];
    }

    method RemoveEngine(id: EngineId)
      requires Valid()
      modifies this
      ensures Valid() && calls == old(calls) + [OnGone(id)]
      ensures engines == old(engines) - {id}
      ensures !transferInited && weightVersion == old(weightVersion)
      ensures forall fleet: Fleet :: View(fleet) == WeightRuns.Step(old(View(fleet)), WeightRuns.Remove(id))
    {
      hide Members, RanksFor, HealthAfter;
      MembersSnoc(calls, OnGone(id));
      engines := engines - {id};
      transferInited := false;
      calls := calls + [OnGone(id)];
      assert Addresses() == old(Addresses()) - {id};
    }

    // A health check ends on the engine object it was started on. When that object is no longer a
    // member, no member's state changes.
    method EndCheck(engine: EngineState, ok: bool) returns (unhealthy: bool)
      requires Valid() && engine.Ok()
      modifies engine
      ensures Valid() && engine.Ok() && engine.results == old(engine.results) + [ok]
      ensures unhealthy <==> Alarms(engine.results, |engine.results| - 1)
      ensures forall id :: id in engines && engines[id] != engine ==>
        engines[id].ready == old(engines[id].ready) && engines[id].results == old(engines[id].results)
      ensures forall id :: id in engines ==> (engines[id].ready <==> RecentSuccess(engines[id].results))
    {
      unhealthy := engine.Report(ok);
      forall id | id in engines ensures engines[id].ready <==> RecentSuccess(engines[id].results) {
        HealthIsDebounced(engines[id].results);
      }
    }

    // ----- the weight-transfer group

    // Assigns the ranks and sends them out; a failed engine leaves the gate as it was, but the
    // others keep their new ranks.
    method InitWeightTransfer(answers: Calls, fleet: Fleet) returns (ok: bool, ghost ranks: map<EngineId, nat>, after: Fleet)
      requires Valid() && engines.Keys <= answers.Keys && engines.Keys <= fleet.Keys
      modifies this`transferInited, this`initEngines, this`initRanks
      ensures Valid() && (ok <==> AllOk(engines.Keys, answers))
      ensures RanksFor(ranks, engines.Keys) && after == Join(engines.Keys, ranks, answers, fleet)
      ensures transferInited == (ok || old(transferInited))
      ensures ok ==> initEngines == engines && initRanks == ranks
      ensures View(after) == WeightRuns.Step(old(View(fleet)), WeightRuns.Init(ranks, answers))
    {
      hide RanksFor, Members, HealthAfter, AllOk, Join;
      ok, ranks, after := SendRanks(answers, fleet);
      if ok {
        transferInited := true;
        initEngines, initRanks := engines, ranks;
      }
    }

    // Ranks the clients and sends each its rank; tells whether all answered.
    method SendRanks(answers: Calls, fleet: Fleet) returns (ok: bool, ghost ranks: map<EngineId, nat>, after: Fleet)
      requires engines.Keys <= answers.Keys && engines.Keys <= fleet.Keys
      ensures RanksFor(ranks, engines.Keys)
      ensures ok <==> AllOk(engines.Keys, answers)
      ensures after == Join(engines.Keys, ranks, answers, fleet)
    {
      hide RanksFor, AllDifferent, AllOk, Join;
      var jobs := ClientSlice();
      SameIds(jobs, engines.Keys);
      var places := AssignRanks(jobs);
      ranks := places;
      RanksCover(places, jobs);
      after := JoinAll(jobs, places, answers, fleet);
      var errors := CountErrors(jobs, answers);
      ok := errors == 0;
    }

    // Sends each client its rank.
    method JoinAll(clients: seq<EngineId>, ranks: map<EngineId, nat>, answers: Calls, fleet: Fleet) returns (after: Fleet)
      requires AllDifferent(clients)
      requires forall id :: id in clients ==> id in answers && id in fleet && id in ranks
      ensures after == Join(IdsOf(clients), ranks, answers, fleet)
    {
      after := fleet;
      for i := 0 to |clients|
        invariant after.Keys == fleet.Keys
        invariant forall id :: id in fleet ==>
          after[id] == if id in clients[..i] && answers[id].took then fleet[id].(rank := ranks[id]) else fleet[id]
      {
        var id := clients[i];
        assert clients[..i + 1] == clients[..i] + [id];
        assert id !in clients[..i];
        if answers[id].took {
          after := after[id := after[id].(rank := ranks[id])];
        }
      }
      assert clients[..|clients|] == clients;
    }

    // ----- pausing and resuming everyone

    method PauseAll(answers: Calls, fleet: Fleet) returns (ok: bool, after: Fleet)
      requires Valid() && engines.Keys <= answers.Keys && engines.Keys <= fleet.Keys
      ensures ok <==> AllOk(engines.Keys, answers)
      ensures View(after) == WeightRuns.Step(View(fleet), WeightRuns.PauseAll(answers))
    {
      ok, after := SendAll(Pause, answers, fleet);
    }

    method ResumeAll(answers: Calls, fleet: Fleet) returns (ok: bool, after: Fleet)
      requires Valid() && engines.Keys <= answers.Keys && engines.Keys <= fleet.Keys
      ensures ok <==> AllOk(engines.Keys, answers)
      ensures View(after) == WeightRuns.Step(View(fleet), WeightRuns.ResumeAll(answers))
    {
      ok, after := SendAll(Resume, answers, fleet);
    }

    method SendAll(cmd: Command, answers: Calls, fleet: Fleet) returns (ok: bool, after: Fleet)
      requires engines.Keys <= answers.Keys && engines.Keys <= fleet.Keys
      ensures ok <==> AllOk(engines.Keys, answers)
      ensures after == Fan(engines.Keys, cmd, answers, fleet)
    {
      hide AllDifferent, AllOk, Fan;
      var clients := ClientSlice();
      SameIds(clients, engines.Keys);
      var errors;
      errors, after := FanOut(clients, cmd, answers, fleet);
      ok := errors == 0;
    }

    // The clients of all engines, in some order.
    method ClientSlice() returns (clients: seq<EngineId>)
      ensures forall id :: id in clients <==> id in engines.Keys
      ensures AllDifferent(clients)
    {
      clients := [];
      var todo := engines.Keys;
      while todo != {}
        invariant todo <= engines.Keys
        invariant forall id :: id in clients <==> id in engines && id !in todo
        invariant AllDifferent(clients)
        decreases todo
      {
        var id :| id in todo;
        clients := clients + [id];
        todo := todo - {id};
      }
    }

    // Sends a command to every client and counts the errors. The clients are distinct, so the order
    // in which the calls end does not matter.
    method FanOut(clients: seq<EngineId>, cmd: Command, answers: Calls, fleet: Fleet) returns (errors: nat, after: Fleet)
      requires AllDifferent(clients)
      requires forall id :: id in clients ==> id in answers && id in fleet
      ensures after == Fan(IdsOf(clients), cmd, answers, fleet) && after.Keys == fleet.Keys
      ensures errors == 0 <==> AllOk(IdsOf(clients), answers)
    {
      after := fleet;
      for i := 0 to |clients|
        invariant after.Keys == fleet.Keys
        invariant forall id :: id in fleet ==>
          after[id] == if id in clients[..i] && answers[id].took then Done(cmd, fleet[id]) else fleet[id]
      {
        var id := clients[i];
        assert clients[..i + 1] == clients[..i] + [id];
        assert id !in clients[..i];
        if answers[id].took {
          after := after[id := Done(cmd, after[id])];
        }
      }
      assert clients[..|clients|] == clients;
      errors := CountErrors(clients, answers);
    }

    method CountErrors(clients: seq<EngineId>, answers: Calls) returns (errors: nat)
      requires forall id :: id in clients ==> id in answers
      ensures errors == 0 <==> AllOk(IdsOf(clients), answers)
    {
      errors := 0;
      for i := 0 to |clients|
        invariant errors == 0 <==> forall id :: id in clients[..i] ==> answers[id].ok
      {
        assert clients[..i + 1] == clients[..i] + [clients[i]];
        if !answers[clients[i]].ok {
          errors := errors + 1;
        }
      }
      assert clients[..|clients|] == clients;
    }

    // The weight version moves to the target exactly when the gate was open and the whole update
    // succeeded; nothing else of the pool changes.
    method UpdateWeights(req: Request, a: Answers, fleet: Fleet) returns (ok: bool, after: Fleet)
      requires Valid() && engines.Keys <= fleet.Keys && Answered(engines.Keys, a)
      modifies this`weightVersion
      ensures Valid()
      ensures (ok, after) == if transferInited then Update(engines.Keys, req, a, fleet) else (false, fleet)
      ensures weightVersion == if ok then req.target else old(weightVersion)
      ensures View(after) == WeightRuns.Step(old(View(fleet)), WeightRuns.Update(req, a))
    {
      hide Members, RanksFor, HealthAfter, Answered, Update;
      if !transferInited {
        return false, fleet;
      }
      var clients := ClientSlice();
      SameIds(clients, engines.Keys);
      ok, after := RunPhases(clients, req, a, fleet);
      if ok {
        weightVersion := req.target;
      }
    }

    // The phases of an update, from the pause on ...
    method RunPhases(clients: seq<EngineId>, req: Request, a: Answers, fleet: Fleet) returns (ok: bool, after: Fleet)
      requires AllDifferent(clients)
      requires IdsOf(clients) <= fleet.Keys && Answered(IdsOf(clients), a)
      ensures (ok, after) == Update(IdsOf(clients), req, a, fleet)
    {
      hide Fan, AllOk, Honest, LoadAndServe;
      var errors;
      Reached(clients, fleet, a.pause);
      errors, after := FanOut(clients, Pause, a.pause, fleet);
      if errors > 0 {
        return false, after;
      }
      ok, after := LoadWeights(clients, req, a, after);
    }

    // ... from the transfer on ...
    method LoadWeights(clients: seq<EngineId>, req: Request, a: Answers, fleet: Fleet) returns (ok: bool, after: Fleet)
      requires AllDifferent(clients)
      requires IdsOf(clients) <= fleet.Keys && Answered(IdsOf(clients), a)
      ensures (ok, after) == LoadAndServe(IdsOf(clients), req, a, fleet)
    {
      hide Fan, AllOk, Honest, ResetAndResume;
      var errors;
      Reached(clients, fleet, a.load);
      errors, after := FanOut(clients, Load(req.target), a.load, fleet);
      if errors > 0 {
        Reached(clients, after, a.rollback);
        errors, after := FanOut(clients, Resume, a.rollback, after);
        return false, after;
      }
      ok, after := ServeAgain(clients, req, a, after);
    }

    // ... and from the cache reset on.
    method ServeAgain(clients: seq<EngineId>, req: Request, a: Answers, fleet: Fleet) returns (ok: bool, after: Fleet)
      requires AllDifferent(clients)
      requires IdsOf(clients) <= fleet.Keys && Answered(IdsOf(clients), a)
      ensures (ok, after) == ResetAndResume(IdsOf(clients), req, a, fleet)
    {
      hide Fan, AllOk, Honest;
      var errors;
      after := fleet;
      if req.resetCache {
        Reached(clients, fleet, a.reset);
        errors, after := FanOut(clients, ResetCache, a.reset, fleet);
        if errors > 0 {
          return false, after;
        }
      }
      Reached(clients, after, a.resume);
      errors, after := FanOut(clients, Resume, a.resume, after);
      ok := errors == 0;
    }
  }

  lemma RanksCover(ranks: map<EngineId, nat>, clients: seq<EngineId>)
    requires RanksFor(ranks, IdsOf(clients))
    ensures forall id :: id in clients ==> id in ranks
  {
    assert forall id :: id in clients ==> id in IdsOf(clients);
  }

  lemma Reached(clients: seq<EngineId>, fleet: Fleet, answers: Calls)
    requires IdsOf(clients) <= fleet.Keys && IdsOf(clients) <= answers.Keys
    ensures forall id :: id in clients ==> id in answers && id in fleet
  {
    assert forall id :: id in clients ==> id in IdsOf(clients);
  }
}
