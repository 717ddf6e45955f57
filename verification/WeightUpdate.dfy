// The four-phase weight update over a fleet of engines, whose every call may fail on its own.

module WeightUpdate {

  type EngineId(==, !new)

  // What one call to one engine came to: whether it answered without an error, and whether it
  // took effect on the engine. An error leaves the effect open.
  datatype Call = Call(ok: bool, took: bool)

  type Calls = map<EngineId, Call>

  // An answer without an error means that the call took effect.
  ghost predicate Honest(calls: Calls) {
    forall id :: id in calls && calls[id].ok ==> calls[id].took
  }

  ghost predicate AllOk(ids: set<EngineId>, calls: Calls) {
    forall id :: id in ids ==> id in calls && calls[id].ok
  }

  // An engine as the controller's commands leave it: paused or serving, the weights it holds, the
  // weights that its prefix cache was computed with, and its rank in the transfer group.
  datatype Remote = Remote(paused: bool, weights: int, cacheOf: int, rank: nat)

  type Fleet = map<EngineId, Remote>

  datatype Command = Pause | Load(version: int) | ResetCache | Resume

  function Done(cmd: Command, r: Remote): Remote {
    match cmd
    case Pause => r.(paused := true)
    case Load(version) => r.(weights := version)
    case ResetCache => r.(cacheOf := r.weights)
    case Resume => r.(paused := false)
  }

  // A command sent to every engine in `ids`.
  function Fan(ids: set<EngineId>, cmd: Command, calls: Calls, fleet: Fleet): Fleet {
    map id | id in fleet :: if id in ids && id in calls && calls[id].took then Done(cmd, fleet[id]) else fleet[id]
  }

  ghost predicate Given(ranks: map<EngineId, nat>, k: nat) {
    exists id :: id in ranks && ranks[id] == k
  }

  // Ranks 1 to N, each given to exactly one engine.
  ghost predicate RanksFor(ranks: map<EngineId, nat>, ids: set<EngineId>) {
    && ranks.Keys == ids
    && (forall id :: id in ids ==> 1 <= ranks[id] <= |ids|)
    && (forall id, other :: id in ids && other in ids && ranks[id] == ranks[other] ==> id == other)
    && (forall k :: 1 <= k <= |ids| ==> Given(ranks, k))
  }

  // Each engine in `ids` is sent its own rank.
  function Join(ids: set<EngineId>, ranks: map<EngineId, nat>, calls: Calls, fleet: Fleet): Fleet {
    map id | id in fleet ::
      if id in ids && id in ranks && id in calls && calls[id].took then fleet[id].(rank := ranks[id]) else fleet[id]
  }

  // The answers of the engines in each phase; `rollback` is the resume after a failed load.
  datatype Answers = Answers(pause: Calls, load: Calls, rollback: Calls, reset: Calls, resume: Calls)

  ghost predicate Answered(ids: set<EngineId>, a: Answers) {
    && ids <= a.pause.Keys && ids <= a.load.Keys && ids <= a.rollback.Keys && ids <= a.reset.Keys && ids <= a.resume.Keys
    && Honest(a.pause) && Honest(a.load) && Honest(a.rollback) && Honest(a.reset) && Honest(a.resume)
  }

  datatype Request = Request(target: int, resetCache: bool)

  // Pause, load, reset when asked, resume; only a failed load is followed by a resume.
  ghost function Update(ids: set<EngineId>, req: Request, a: Answers, fleet: Fleet): (bool, Fleet) {
    var paused := Fan(ids, Pause, a.pause, fleet);
    if AllOk(ids, a.pause) then LoadAndServe(ids, req, a, paused) else (false, paused)
  }

  ghost function LoadAndServe(ids: set<EngineId>, req: Request, a: Answers, fleet: Fleet): (bool, Fleet) {
    var loaded := Fan(ids, Load(req.target), a.load, fleet);
    if AllOk(ids, a.load) then ResetAndResume(ids, req, a, loaded) else (false, Fan(ids, Resume, a.rollback, loaded))
  }

  ghost function ResetAndResume(ids: set<EngineId>, req: Request, a: Answers, fleet: Fleet): (bool, Fleet) {
    var reset := if req.resetCache then Fan(ids, ResetCache, a.reset, fleet) else fleet;
    if req.resetCache && !AllOk(ids, a.reset) then (false, reset)
    else (AllOk(ids, a.resume), Fan(ids, Resume, a.resume, reset))
  }

  lemma FanDoes(ids: set<EngineId>, cmd: Command, calls: Calls, fleet: Fleet, id: EngineId)
    requires id in fleet
    ensures var after := Fan(ids, cmd, calls, fleet);
            && after.Keys == fleet.Keys
            && after[id] == if id in ids && id in calls && calls[id].took then Done(cmd, fleet[id]) else fleet[id]
  {
  }

  // What the phases from the cache reset on do to one engine.
  lemma ServingDoes(ids: set<EngineId>, req: Request, a: Answers, fleet: Fleet, id: EngineId)
    requires id in fleet
    ensures var after := ResetAndResume(ids, req, a, fleet).1;
            && after.Keys == fleet.Keys
            && after[id].weights == fleet[id].weights && after[id].rank == fleet[id].rank
            && (id !in ids ==> after[id] == fleet[id])
            && after[id].paused
               == (fleet[id].paused && !(id in ids && (req.resetCache ==> AllOk(ids, a.reset)) && id in a.resume && a.resume[id].took))
  {
    hide Fan, AllOk;
    FanDoes(ids, ResetCache, a.reset, fleet, id);
    FanDoes(ids, Resume, a.resume, if req.resetCache then Fan(ids, ResetCache, a.reset, fleet) else fleet, id);
  }

  // The update succeeds exactly when no engine failed in any phase that was run.
  lemma SucceedsExactlyWhenAllAnswer(ids: set<EngineId>, req: Request, a: Answers, fleet: Fleet)
    ensures Update(ids, req, a, fleet).0 <==>
            AllOk(ids, a.pause) && AllOk(ids, a.load) && (req.resetCache ==> AllOk(ids, a.reset)) && AllOk(ids, a.resume)
  {
  }

  // After a success every engine serves the target weights, with a cache of those weights if asked.
  lemma SuccessServesTarget(ids: set<EngineId>, req: Request, a: Answers, fleet: Fleet, id: EngineId)
    requires ids <= fleet.Keys && Answered(ids, a) && id in ids
    requires Update(ids, req, a, fleet).0
    ensures id in Update(ids, req, a, fleet).1
    ensures Update(ids, req, a, fleet).1[id]
            == Remote(false, req.target, if req.resetCache then req.target else fleet[id].cacheOf, fleet[id].rank)
  {
  }

  // Engines that are not members are never touched, and members never hold anything but their
  // old weights or the target.
  lemma FailureMixesAtMostTwoVersions(ids: set<EngineId>, req: Request, a: Answers, fleet: Fleet, id: EngineId)
    requires id in fleet
    ensures var after := Update(ids, req, a, fleet).1;
            && id in after
            && (id !in ids ==> after[id] == fleet[id])
            && after[id].weights in {fleet[id].weights, req.target}
  {
    hide Fan, AllOk, ResetAndResume;
    PhasesDo(ids, req, a, fleet, id);
  }

  // The phases of an update, one after the other on one engine.
  lemma PhasesDo(ids: set<EngineId>, req: Request, a: Answers, fleet: Fleet, id: EngineId)
    requires id in fleet
    ensures var paused := Fan(ids, Pause, a.pause, fleet);
            var loaded := Fan(ids, Load(req.target), a.load, paused);
            var rolled := Fan(ids, Resume, a.rollback, loaded);
            var served := ResetAndResume(ids, req, a, loaded).1;
            && fleet.Keys == paused.Keys == loaded.Keys == rolled.Keys == served.Keys
            && paused[id] == (if id in ids && id in a.pause && a.pause[id].took then fleet[id].(paused := true) else fleet[id])
            && loaded[id] == (if id in ids && id in a.load && a.load[id].took then paused[id].(weights := req.target) else paused[id])
            && rolled[id] == (if id in ids && id in a.rollback && a.rollback[id].took then loaded[id].(paused := false) else loaded[id])
            && served[id].weights == loaded[id].weights && served[id].rank == loaded[id].rank
            && (id !in ids ==> served[id] == loaded[id])
            && served[id].paused
               == (loaded[id].paused && !(id in ids && (req.resetCache ==> AllOk(ids, a.reset)) && id in a.resume && a.resume[id].took))
  {
    hide Fan, AllOk, ResetAndResume;
    var paused := Fan(ids, Pause, a.pause, fleet);
    var loaded := Fan(ids, Load(req.target), a.load, paused);
    FanDoes(ids, Pause, a.pause, fleet, id);
    FanDoes(ids, Load(req.target), a.load, paused, id);
    FanDoes(ids, Resume, a.rollback, loaded, id);
    ServingDoes(ids, req, a, loaded, id);
  }

  ghost predicate SomeTook(ids: set<EngineId>, calls: Calls) {
    exists id :: id in ids && id in calls && calls[id].took
  }

  ghost predicate SomeMissed(ids: set<EngineId>, calls: Calls) {
    exists id :: id in ids && id in calls && !calls[id].took
  }

  ghost predicate SomePaused(ids: set<EngineId>, fleet: Fleet) {
    exists id :: id in ids && id in fleet && fleet[id].paused
  }

  // The phase that resumes is reached and takes effect on this engine: the last phase of an update
  // that got there, or the rollback of a failed load.
  ghost predicate Resumes(ids: set<EngineId>, req: Request, a: Answers, id: EngineId) {
    && AllOk(ids, a.pause)
    && if !AllOk(ids, a.load) then id in a.rollback && a.rollback[id].took
       else (req.resetCache ==> AllOk(ids, a.reset)) && id in a.resume && a.resume[id].took
  }

  // From any fleet, a member is paused afterwards exactly when it was paused before or by the
  // update, and the update did not resume it.
  lemma EnginePausedExactlyWhen(ids: set<EngineId>, req: Request, a: Answers, fleet: Fleet, id: EngineId)
    requires id in ids && id in fleet
    ensures id in Update(ids, req, a, fleet).1
    ensures Update(ids, req, a, fleet).1[id].paused
            <==> (fleet[id].paused || (id in a.pause && a.pause[id].took)) && !Resumes(ids, req, a, id)
  {
    hide Fan, AllOk, ResetAndResume;
    PhasesDo(ids, req, a, fleet, id);
  }

  // Which updates leave an engine paused: one that fails to pause after pausing someone, or with
  // someone paused already; a failed load whose rollback misses someone; any failed cache reset;
  // and a resume that misses someone.
  ghost predicate LeavesPaused(ids: set<EngineId>, req: Request, a: Answers, fleet: Fleet) {
    if !AllOk(ids, a.pause) then SomeTook(ids, a.pause) || SomePaused(ids, fleet)
    else if !AllOk(ids, a.load) then SomeMissed(ids, a.rollback)
    else if req.resetCache && !AllOk(ids, a.reset) then true
    else SomeMissed(ids, a.resume)
  }

  // From any fleet, exactly those updates leave an engine paused.
  lemma PausedExactlyWhen(ids: set<EngineId>, req: Request, a: Answers, fleet: Fleet)
    requires ids <= fleet.Keys && Answered(ids, a)
    ensures SomePaused(ids, Update(ids, req, a, fleet).1) <==> LeavesPaused(ids, req, a, fleet)
  {
    hide Update, Resumes;
    var after := Update(ids, req, a, fleet).1;
    forall id | id in ids
      ensures id in after
      ensures after[id].paused <==> (fleet[id].paused || a.pause[id].took) && !Resumes(ids, req, a, id)
    {
      EnginePausedExactlyWhen(ids, req, a, fleet, id);
    }
    ResumesWhom(ids, req, a);
    if AllOk(ids, a.pause) && AllOk(ids, a.load) && req.resetCache && !AllOk(ids, a.reset) {
      var id :| id in ids && !(id in a.reset && a.reset[id].ok);
      assert after[id].paused;
    }
  }

  lemma ResumesWhom(ids: set<EngineId>, req: Request, a: Answers)
    requires Answered(ids, a)
    ensures forall id :: id in ids ==>
      (Resumes(ids, req, a, id) <==>
        AllOk(ids, a.pause)
        && if !AllOk(ids, a.load) then a.rollback[id].took
           else (req.resetCache ==> AllOk(ids, a.reset)) && a.resume[id].took)
  {
    hide AllOk, Honest;
  }

  // The rollback does its work: a failed load whose rollback every engine answered leaves none paused.
  lemma RollbackResumesAll(ids: set<EngineId>, req: Request, a: Answers, fleet: Fleet)
    requires ids <= fleet.Keys && Answered(ids, a)
    requires AllOk(ids, a.pause) && !AllOk(ids, a.load) && AllOk(ids, a.rollback)
    ensures !SomePaused(ids, Update(ids, req, a, fleet).1) && !Update(ids, req, a, fleet).0
  {
  }

  // Two serving engines, one of which fails to pause: the other is left paused.
  lemma FailedPauseLeavesPaused(x: EngineId, y: EngineId, req: Request, a: Answers)
    requires x != y && Answered({x, y}, a)
    requires a.pause[x].ok && !a.pause[y].ok && !a.pause[y].took
    ensures var serving := map[x := Remote(false, 0, 0, 1), y := Remote(false, 0, 0, 2)];
            var (ok, after) := Update({x, y}, req, a, serving);
            !ok && x in after && after[x].paused && y in after && !after[y].paused
  {
  }

  // A cache reset that one of two serving engines fails: the weights are loaded and both stay paused.
  lemma FailedResetLeavesPaused(x: EngineId, y: EngineId, target: int, a: Answers)
    requires x != y && Answered({x, y}, a)
    requires AllOk({x, y}, a.pause) && AllOk({x, y}, a.load) && a.reset[x].ok && !a.reset[y].ok
    ensures var serving := map[x := Remote(false, 0, 0, 1), y := Remote(false, 0, 0, 2)];
            var (ok, after) := Update({x, y}, Request(target, true), a, serving);
            && !ok && x in after && y in after
            && after[x].paused && after[y].paused && after[x].weights == after[y].weights == target
  {
    assert x in {x, y} && y in {x, y};
  }
}
