// Runs of weight updates and membership changes: which members hold the version that the pool
// reports, which are paused, when the transfer gate is open, and what ranks its members hold.

module WeightRuns {
  import opened WeightUpdate

  // The pool's membership, gate and reported version, and the engines themselves.
  datatype Pool = Pool(members: set<EngineId>, inited: bool, version: int, fleet: Fleet)

  // An added engine comes with whatever state it is in; the answers of a call are the engines'.
  datatype Event =
    | Add(id: EngineId, remote: Remote)
    | Remove(id: EngineId)
    | Init(ranks: map<EngineId, nat>, answers: Calls)
    | Update(req: Request, a: Answers)
    | PauseAll(answers: Calls)
    | ResumeAll(answers: Calls)

  ghost function UpdatedTo(w: Pool, req: Request, a: Answers): (bool, Fleet) {
    if w.inited then WeightUpdate.Update(w.members, req, a, w.fleet) else (false, w.fleet)
  }

  ghost function Step(w: Pool, e: Event): Pool {
    match e
    case Add(id, remote) => Pool(w.members + {id}, false, w.version, w.fleet[id := remote])
    case Remove(id) => Pool(w.members - {id}, false, w.version, w.fleet)
    case Init(ranks, answers) =>
      w.(inited := w.inited || AllOk(w.members, answers), fleet := Join(w.members, ranks, answers, w.fleet))
    case Update(req, a) =>
      var (ok, fleet) := UpdatedTo(w, req, a);
      w.(version := if ok then req.target else w.version, fleet := fleet)
    case PauseAll(answers) => w.(fleet := Fan(w.members, Pause, answers, w.fleet))
    case ResumeAll(answers) => w.(fleet := Fan(w.members, Resume, answers, w.fleet))
  }

  ghost function Run(events: seq<Event>): Pool {
    var n := |events| - 1;
    if n < 0 then Pool({}, false, 0, map[]) else Step(Run(events[..n]), events[n])
  }

  // The pool that event i finds.
  ghost function Before(events: seq<Event>, i: nat): Pool
    requires i <= |events|
  {
    Run(events[..i])
  }

  // Members answer their calls honestly, and an initialization ranks the present members 1 to N.
  ghost predicate Honestly(w: Pool, e: Event) {
    match e
    case Update(_, a) => Answered(w.members, a)
    case Init(ranks, answers) => RanksFor(ranks, w.members) && w.members <= answers.Keys && Honest(answers)
    case _ => true
  }

  ghost predicate HonestRun(events: seq<Event>) {
    forall i :: 0 <= i < |events| ==> Honestly(Before(events, i), events[i])
  }

  ghost predicate Succeeds(w: Pool, e: Event) {
    e.Update? && UpdatedTo(w, e.req, e.a).0
  }

  // The load phase of this update is reached, and takes effect on this member.
  ghost predicate LoadReaches(w: Pool, e: Event, id: EngineId) {
    && e.Update? && w.inited && id in w.members && AllOk(w.members, e.a.pause)
    && id in e.a.load && e.a.load[id].took
  }

  // The event pauses this engine and does not resume it again ...
  ghost predicate PausedBy(w: Pool, e: Event, id: EngineId) {
    match e
    case Add(x, remote) => x == id && remote.paused
    case PauseAll(answers) => id in w.members && id in answers && answers[id].took
    case Update(req, a) =>
      w.inited && id in w.members && id in a.pause && a.pause[id].took && !Resumes(w.members, req, a, id)
    case _ => false
  }

  // ... or resumes it.
  ghost predicate ResumedBy(w: Pool, e: Event, id: EngineId) {
    match e
    case Add(x, remote) => x == id && !remote.paused
    case ResumeAll(answers) => id in w.members && id in answers && answers[id].took
    case Update(req, a) => w.inited && id in w.members && Resumes(w.members, req, a, id)
    case _ => false
  }

  // An initialization that takes effect on this member.
  ghost predicate RankReaches(w: Pool, e: Event, id: EngineId) {
    e.Init? && id in w.members && id in e.ranks && id in e.answers && e.answers[id].took
  }

  // What an engine is left with: its weights, whether it is paused, and its rank.
  datatype Aspect = Weights | Pausing | Ranking

  function Value(x: Aspect, r: Remote): int {
    match x
    case Weights => r.weights
    case Pausing => if r.paused then 1 else 0
    case Ranking => r.rank
  }

  // The event decides that aspect of engine id ...
  ghost predicate Decides(x: Aspect, w: Pool, e: Event, id: EngineId) {
    || (e.Add? && e.id == id)
    || match x
       case Weights => LoadReaches(w, e, id)
       case Pausing => PausedBy(w, e, id) || ResumedBy(w, e, id)
       case Ranking => RankReaches(w, e, id)
  }

  // ... as this.
  ghost function Decided(x: Aspect, w: Pool, e: Event, id: EngineId): int
    requires Decides(x, w, e, id)
  {
    if e.Add? then Value(x, e.remote)
    else
      match x
      case Weights => e.req.target
      case Pausing => if PausedBy(w, e, id) then 1 else 0
      case Ranking => e.ranks[id]
  }

  // Event i is the last one to decide that aspect of id.
  ghost predicate LastDecision(x: Aspect, events: seq<Event>, i: nat, id: EngineId) {
    && i < |events| && Decides(x, Before(events, i), events[i], id)
    && forall j :: i < j < |events| ==> !Decides(x, Before(events, j), events[j], id)
  }

  // ----- single steps

  lemma UpdateWrites(w: Pool, e: Event, id: EngineId)
    requires e.Update? && id in w.fleet
    ensures var after := UpdatedTo(w, e.req, e.a).1;
            && after.Keys == w.fleet.Keys && after[id].rank == w.fleet[id].rank
            && after[id].weights == if LoadReaches(w, e, id) then e.req.target else w.fleet[id].weights
  {
    hide Fan, AllOk, ResetAndResume;
    PhasesDo(w.members, e.req, e.a, w.fleet, id);
  }

  lemma UpdatePauses(w: Pool, e: Event, id: EngineId)
    requires e.Update? && id in w.fleet
    ensures var after := UpdatedTo(w, e.req, e.a).1;
            id in after
            && after[id].paused == if ResumedBy(w, e, id) then false else PausedBy(w, e, id) || w.fleet[id].paused
  {
    hide AllOk, WeightUpdate.Update, Resumes;
    if w.inited && id in w.members {
      EnginePausedExactlyWhen(w.members, e.req, e.a, w.fleet, id);
    } else if w.inited {
      OutsidersStay(w.members, e.req, e.a, w.fleet, id);
    }
  }

  lemma OutsidersStay(ids: set<EngineId>, req: Request, a: Answers, fleet: Fleet, id: EngineId)
    requires id in fleet && id !in ids
    ensures id in WeightUpdate.Update(ids, req, a, fleet).1 && WeightUpdate.Update(ids, req, a, fleet).1[id] == fleet[id]
  {
    FailureMixesAtMostTwoVersions(ids, req, a, fleet, id);
  }

  lemma FleetStays(w: Pool, e: Event)
    requires !e.Add?
    ensures Step(w, e).fleet.Keys == w.fleet.Keys
  {
    hide AllOk;
  }

  // What a step leaves every engine with.
  lemma StepDecides(x: Aspect, w: Pool, e: Event, id: EngineId)
    requires w.members <= w.fleet.Keys && id in Step(w, e).members
    ensures id in Step(w, e).fleet && (Decides(x, w, e, id) || (id in w.members && id in w.fleet))
    ensures Value(x, Step(w, e).fleet[id])
            == if Decides(x, w, e, id) then Decided(x, w, e, id) else Value(x, w.fleet[id])
  {
    hide UpdatedTo, AllOk, Resumes;
    if e.Update? {
      UpdateWrites(w, e, id);
      UpdatePauses(w, e, id);
    }
  }

  lemma StepKeepsMembers(w: Pool, e: Event)
    requires w.members <= w.fleet.Keys
    ensures Step(w, e).members <= Step(w, e).fleet.Keys
  {
    hide Step;
    forall id | id in Step(w, e).members ensures id in Step(w, e).fleet {
      StepDecides(Weights, w, e, id);
    }
  }

  // A success loads its target everywhere and reports it; anything else leaves the version.
  lemma StepReports(w: Pool, e: Event)
    requires Honestly(w, e)
    ensures Succeeds(w, e) ==> Step(w, e).version == e.req.target
    ensures !Succeeds(w, e) ==> Step(w, e).version == w.version
    ensures Succeeds(w, e) ==> forall id :: id in w.members ==> LoadReaches(w, e, id)
  {
    hide RanksFor, Fan, Join;
  }

  // ----- runs

  lemma {:induction false} MembersAreEngines(events: seq<Event>)
    ensures Run(events).members <= Run(events).fleet.Keys
  {
    hide Step;
    var n := |events| - 1;
    if n >= 0 {
      MembersAreEngines(events[..n]);
      StepKeepsMembers(Run(events[..n]), events[n]);
    }
  }

  lemma RunAt(events: seq<Event>, i: nat)
    requires i < |events|
    ensures Before(events, i + 1) == Step(Before(events, i), events[i])
  {
    hide Step;
    assert events[..i + 1][..i] == events[..i];
  }

  lemma BeforePrefix(events: seq<Event>, n: nat, i: nat)
    requires i <= n <= |events|
    ensures Before(events[..n], i) == Before(events, i)
  {
    hide Run;
    assert events[..n][..i] == events[..i];
  }

  lemma BeforeAll(events: seq<Event>)
    ensures Before(events, |events|) == Run(events)
  {
    hide Run;
    assert events[..|events|] == events;
  }

  // Every member is left with what was last decided for it.
  lemma {:induction false} LastDecisionHolds(x: Aspect, events: seq<Event>, id: EngineId) returns (i: nat)
    requires id in Run(events).members
    ensures LastDecision(x, events, i, id)
    ensures id in Run(events).fleet && Value(x, Run(events).fleet[id]) == Decided(x, Before(events, i), events[i], id)
  {
    hide Step, Decides, Value, Decided;
    var n := |events| - 1;
    MembersAreEngines(events[..n]);
    StepDecides(x, Run(events[..n]), events[n], id);
    if Decides(x, Run(events[..n]), events[n], id) {
      i := n;
    } else {
      i := LastDecisionHolds(x, events[..n], id);
      LastDecisionExtends(x, events, i, id);
    }
  }

  lemma LastDecisionExtends(x: Aspect, events: seq<Event>, i: nat, id: EngineId)
    requires |events| > 0 && LastDecision(x, events[..|events| - 1], i, id)
    requires !Decides(x, Run(events[..|events| - 1]), events[|events| - 1], id)
    ensures LastDecision(x, events, i, id) && Before(events[..|events| - 1], i) == Before(events, i)
  {
    hide Run, Decides;
    var n := |events| - 1;
    forall j | i <= j < n ensures Before(events[..n], j) == Before(events, j) {
      BeforePrefix(events, n, j);
    }
  }

  lemma OneLastDecision(x: Aspect, events: seq<Event>, i: nat, j: nat, id: EngineId)
    requires LastDecision(x, events, i, id) && LastDecision(x, events, j, id)
    ensures i == j
  {
    hide Decides, Run;
  }

  lemma DecisionOf(x: Aspect, events: seq<Event>, i: nat, id: EngineId)
    requires LastDecision(x, events, i, id) && id in Run(events).members
    ensures id in Run(events).fleet && Value(x, Run(events).fleet[id]) == Decided(x, Before(events, i), events[i], id)
  {
    hide Decides, Decided, Value, Run;
    var last := LastDecisionHolds(x, events, id);
    OneLastDecision(x, events, i, last, id);
  }

  // ----- weights

  // A member has been one since its last write.
  lemma {:induction false} MemberSinceLastWrite(events: seq<Event>, i: nat, id: EngineId, j: nat)
    requires LastDecision(Weights, events, i, id) && id in Run(events).members && i < j <= |events|
    ensures id in Before(events, j).members
    decreases |events| - j
  {
    hide Step, Decides, Run;
    if j == |events| {
      BeforeAll(events);
    } else {
      MemberSinceLastWrite(events, i, id, j + 1);
      RunAt(events, j);
      MembersAreEngines(events[..j]);
      StepDecides(Weights, Before(events, j), events[j], id);
    }
  }

  // So no update has succeeded since then, and the reported version stands.
  lemma {:induction false} VersionStands(events: seq<Event>, i: nat, id: EngineId, j: nat)
    requires HonestRun(events) && LastDecision(Weights, events, i, id) && id in Run(events).members && i < j <= |events|
    ensures forall k :: j <= k < |events| ==> !Succeeds(Before(events, k), events[k])
    ensures Run(events).version == Before(events, j).version
    decreases |events| - j
  {
    hide Step, Run, Succeeds, LoadReaches, Honestly;
    if j == |events| {
      BeforeAll(events);
    } else {
      VersionStands(events, i, id, j + 1);
      RunAt(events, j);
      MemberSinceLastWrite(events, i, id, j);
      StepReports(Before(events, j), events[j]);
    }
  }

  // Event i gave engine id weights that the pool did not report, and nothing wrote them since: an
  // added engine that held others, or an update that failed after its load reached the engine.
  ghost predicate Strays(events: seq<Event>, i: nat, id: EngineId) {
    && LastDecision(Weights, events, i, id)
    && !Succeeds(Before(events, i), events[i])
    && Decided(Weights, Before(events, i), events[i], id) != Before(events, i).version
  }

  lemma StrayIsStale(events: seq<Event>, i: nat, id: EngineId)
    requires HonestRun(events) && id in Run(events).members && LastDecision(Weights, events, i, id)
    ensures Strays(events, i, id) <==> Decided(Weights, Before(events, i), events[i], id) != Run(events).version
  {
    hide Step, Run, Succeeds, LoadReaches, Honestly;
    VersionStands(events, i, id, i + 1);
    RunAt(events, i);
    StepReports(Before(events, i), events[i]);
    if Succeeds(Before(events, i), events[i]) {
      SuccessesUpdate(Before(events, i), events[i]);
    }
  }

  lemma SuccessesUpdate(w: Pool, e: Event)
    requires Succeeds(w, e)
    ensures e.Update?
  {
  }

  // A member does not hold the reported version exactly when its last write strayed.
  lemma StaleExactlyWhen(events: seq<Event>, id: EngineId)
    requires HonestRun(events) && id in Run(events).members
    ensures id in Run(events).fleet
    ensures Run(events).fleet[id].weights != Run(events).version <==> exists i :: Strays(events, i, id)
  {
    hide Run, Strays, HonestRun, LastDecision, Decides, Decided;
    var last := LastDecisionHolds(Weights, events, id);
    StrayIsStale(events, last, id);
    forall i | Strays(events, i, id) ensures i == last {
      StrayIsLast(events, i, id);
      OneLastDecision(Weights, events, i, last, id);
    }
  }

  lemma StrayIsLast(events: seq<Event>, i: nat, id: EngineId)
    requires Strays(events, i, id)
    ensures LastDecision(Weights, events, i, id)
  {
  }

  ghost predicate AllCurrent(w: Pool) {
    forall id :: id in w.members ==> id in w.fleet && w.fleet[id].weights == w.version
  }

  // Over every run: all members hold the reported version exactly when none of them was left
  // astray by an addition or by a failed update since it was last written.
  lemma AllCurrentExactlyWhen(events: seq<Event>)
    requires HonestRun(events)
    ensures AllCurrent(Run(events)) <==> !exists i, id :: id in Run(events).members && Strays(events, i, id)
  {
    hide Run, Strays, HonestRun;
    forall id | id in Run(events).members
      ensures id in Run(events).fleet
      ensures Run(events).fleet[id].weights != Run(events).version <==> exists i :: Strays(events, i, id)
    {
      StaleExactlyWhen(events, id);
    }
  }

  // ----- pausing

  // Event i paused the engine, and nothing paused or resumed it since.
  ghost predicate LeftPaused(events: seq<Event>, i: nat, id: EngineId) {
    LastDecision(Pausing, events, i, id) && PausedBy(Before(events, i), events[i], id)
  }

  lemma PausedByLast(events: seq<Event>, i: nat, id: EngineId)
    requires LastDecision(Pausing, events, i, id)
    ensures LeftPaused(events, i, id) <==> Decided(Pausing, Before(events, i), events[i], id) == 1
  {
    hide Run, Resumes;
  }

  // Over every run: a member is paused exactly when its last pause took effect and no resume did
  // since.
  lemma PausedExactlyWhen(events: seq<Event>, id: EngineId)
    requires id in Run(events).members
    ensures id in Run(events).fleet
    ensures Run(events).fleet[id].paused <==> exists i :: LeftPaused(events, i, id)
  {
    hide Run, LastDecision, PausedBy, Decided, Decides, LeftPaused;
    var last := LastDecisionHolds(Pausing, events, id);
    PausedByLast(events, last, id);
    forall i | LeftPaused(events, i, id) ensures i == last {
      LeftPausedIsLast(events, i, id);
      OneLastDecision(Pausing, events, i, last, id);
    }
  }

  lemma LeftPausedIsLast(events: seq<Event>, i: nat, id: EngineId)
    requires LeftPaused(events, i, id)
    ensures LastDecision(Pausing, events, i, id)
  {
  }

  // ----- the transfer gate

  predicate Regroups(e: Event) {
    e.Add? || e.Remove?
  }

  // Event i initialized the group, and the membership has not changed since.
  ghost predicate Grouped(events: seq<Event>, i: nat) {
    && i < |events| && events[i].Init? && AllOk(Before(events, i).members, events[i].answers)
    && forall j :: i < j < |events| ==> !Regroups(events[j])
  }

  // The gate is open exactly when an initialization that every member answered has not been
  // followed by a membership change; such a group still has the members it was made for.
  lemma {:induction false} GateOpenExactlyWhen(events: seq<Event>)
    ensures Run(events).inited <==> exists i :: Grouped(events, i)
    ensures forall i :: Grouped(events, i) ==> Before(events, i).members == Run(events).members
  {
    hide AllOk, UpdatedTo;
    var n := |events| - 1;
    if n >= 0 {
      GateOpenExactlyWhen(events[..n]);
      forall i: nat | i < n
        ensures Grouped(events, i) <==> Grouped(events[..n], i) && !Regroups(events[n])
        ensures Before(events[..n], i) == Before(events, i)
      {
        BeforePrefix(events, n, i);
      }
      assert Before(events, n) == Run(events[..n]);
      assert Grouped(events, n) <==> events[n].Init? && AllOk(Run(events[..n]).members, events[n].answers);
    }
  }

  // ----- the ranks that engines hold

  // The last initialization that reached x gave it the rank that the last one that reached y gave y.
  ghost predicate SameLastRank(events: seq<Event>, i: nat, j: nat, x: EngineId, y: EngineId) {
    && LastDecision(Ranking, events, i, x) && LastDecision(Ranking, events, j, y)
    && Decided(Ranking, Before(events, i), events[i], x) == Decided(Ranking, Before(events, j), events[j], y)
  }

  ghost predicate Collide(events: seq<Event>, x: EngineId, y: EngineId) {
    x != y && x in Run(events).members && y in Run(events).members && exists i, j :: SameLastRank(events, i, j, x, y)
  }

  ghost function HeldRanks(w: Pool): map<EngineId, nat> {
    map id | id in w.members && id in w.fleet :: w.fleet[id].rank
  }

  lemma CollidersHoldOneRank(events: seq<Event>, x: EngineId, y: EngineId)
    requires x != y && x in Run(events).members && y in Run(events).members
    ensures x in HeldRanks(Run(events)) && y in HeldRanks(Run(events))
    ensures Collide(events, x, y) <==> HeldRanks(Run(events))[x] == HeldRanks(Run(events))[y]
  {
    hide Run, LastDecision, Decides, Decided;
    var i := LastDecisionHolds(Ranking, events, x);
    var j := LastDecisionHolds(Ranking, events, y);
    forall k, l | SameLastRank(events, k, l, x, y) ensures k == i && l == j {
      OneLastDecision(Ranking, events, k, i, x);
      OneLastDecision(Ranking, events, l, j, y);
    }
    assert SameLastRank(events, i, j, x, y) <==> HeldRanks(Run(events))[x] == HeldRanks(Run(events))[y];
  }

  // An initialization that every member answers ranks every member.
  lemma GroupedRanksAll(w: Pool, e: Event, id: EngineId)
    requires Honestly(w, e) && e.Init? && AllOk(w.members, e.answers) && id in w.members
    ensures Decides(Ranking, w, e, id)
  {
  }

  lemma InitDecides(w: Pool, e: Event, id: EngineId)
    requires Honestly(w, e) && Decides(Ranking, w, e, id) && !e.Add?
    ensures e.Init? && RanksFor(e.ranks, w.members) && id in e.ranks && Decided(Ranking, w, e, id) == e.ranks[id]
  {
    hide RanksFor;
  }

  // While the group stands, every member was ranked by an initialization of exactly these members.
  lemma RankedByInit(events: seq<Event>, g: nat, i: nat, id: EngineId)
    requires HonestRun(events) && Grouped(events, g) && id in Run(events).members
    requires LastDecision(Ranking, events, i, id)
    ensures g <= i && events[i].Init? && RanksFor(events[i].ranks, Run(events).members)
    ensures id in events[i].ranks && Decided(Ranking, Before(events, i), events[i], id) == events[i].ranks[id]
  {
    hide Run, RanksFor, Decides, Decided, Honestly, AllOk, Step;
    StandsSince(events, g, g);
    GroupedRanksAll(Before(events, g), events[g], id);
    StandsSince(events, g, i);
    InitDecides(Before(events, i), events[i], id);
  }

  // The membership has been the present one ever since.
  lemma {:induction false} StandsSince(events: seq<Event>, g: nat, i: nat)
    requires Grouped(events, g) && g <= i < |events|
    ensures Before(events, i).members == Run(events).members
    decreases |events| - i
  {
    hide Run, AllOk, UpdatedTo;
    RunAt(events, i);
    if i + 1 == |events| {
      BeforeAll(events);
    } else {
      StandsSince(events, g, i + 1);
    }
  }

  lemma {:induction false} Pigeonhole(ranks: map<EngineId, nat>, n: nat)
    requires |ranks.Keys| == n && forall id :: id in ranks ==> 1 <= ranks[id] <= n
    requires forall id, other :: id in ranks && other in ranks && ranks[id] == ranks[other] ==> id == other
    ensures forall k :: 1 <= k <= n ==> Given(ranks, k)
    decreases n
  {
    if n > 0 {
      if !Given(ranks, n) {
        var id :| id in ranks;
        var rest := ranks - {id};
        assert rest.Keys == ranks.Keys - {id};
        assert forall q :: q in rest ==> ranks[q] != n;
        Pigeonhole(rest, n - 1);
        assert Given(rest, ranks[id]) by {
          assert ranks[id] != n;
        }
        assert false;
      }
      var top :| top in ranks && ranks[top] == n;
      var rest := ranks - {top};
      assert rest.Keys == ranks.Keys - {top};
      Pigeonhole(rest, n - 1);
      forall k | 1 <= k <= n ensures Given(ranks, k) {
        if k < n {
          assert Given(rest, k);
        }
      }
    }
  }

  // Over every run with an open gate: the engines hold the ranks 1 to N, one each, exactly when no
  // two of them were last ranked alike. Initializations that only some engines answer leave the
  // gate open and can break this.
  lemma HeldRanksExactlyWhen(events: seq<Event>)
    requires HonestRun(events) && Run(events).inited
    ensures RanksFor(HeldRanks(Run(events)), Run(events).members) <==> !exists x, y :: Collide(events, x, y)
  {
    hide Run, LastDecision, Decides, Decided, HonestRun, Grouped, Collide, RanksFor;
    var (w, held) := (Run(events), HeldRanks(Run(events)));
    GateOpenExactlyWhen(events);
    MembersAreEngines(events);
    var g :| Grouped(events, g);
    forall id | id in w.members ensures 1 <= held[id] <= |w.members| {
      HeldInRange(events, g, id);
    }
    forall x, y | x in w.members && y in w.members && x != y
      ensures Collide(events, x, y) <==> held[x] == held[y]
    {
      CollidersHoldOneRank(events, x, y);
    }
    CollidersAreMembers(events);
    RanksForMeans(held, w.members);
  }

  lemma CollidersAreMembers(events: seq<Event>)
    ensures forall x, y :: Collide(events, x, y) ==> x != y && x in Run(events).members && y in Run(events).members
  {
    hide Run;
  }

  lemma HeldInRange(events: seq<Event>, g: nat, id: EngineId)
    requires HonestRun(events) && Grouped(events, g) && id in Run(events).members
    ensures id in Run(events).fleet && 1 <= Run(events).fleet[id].rank <= |Run(events).members|
  {
    hide Run, LastDecision, Decides, Decided, HonestRun, Grouped;
    var i := LastDecisionHolds(Ranking, events, id);
    RankedByInit(events, g, i, id);
  }

  // Ranks between 1 and N are the ranks 1 to N as soon as no two are equal.
  lemma RanksForMeans(ranks: map<EngineId, nat>, ids: set<EngineId>)
    requires ranks.Keys == ids && forall id :: id in ids ==> 1 <= ranks[id] <= |ids|
    ensures RanksFor(ranks, ids) <==> forall x, y :: x in ids && y in ids && x != y ==> ranks[x] != ranks[y]
  {
    if forall x, y :: x in ids && y in ids && x != y ==> ranks[x] != ranks[y] {
      Pigeonhole(ranks, |ids|);
    }
  }

  // ----- short runs

  lemma RunOne(e: Event)
    ensures Before([e], 0) == Run([]) && Run([e]) == Step(Run([]), e)
  {
    hide Step;
    assert [e][..0] == [];
  }

  lemma RunMore(events: seq<Event>, e: Event)
    ensures Run(events + [e]) == Step(Run(events), e) && Before(events + [e], |events|) == Run(events)
    ensures forall i :: 0 <= i <= |events| ==> Before(events + [e], i) == Before(events, i)
  {
    hide Step;
    assert (events + [e])[..|events|] == events;
    forall i: nat | i <= |events| ensures Before(events + [e], i) == Before(events, i) {
      assert (events + [e])[..i] == events[..i];
    }
    BeforeAll(events);
  }

  lemma HonestMore(events: seq<Event>, e: Event)
    requires HonestRun(events) && Honestly(Run(events), e)
    ensures HonestRun(events + [e])
  {
    hide Run, Honestly;
    RunMore(events, e);
  }

  // An added engine that holds other weights than the pool reports.
  lemma AddedEngineIsStale(id: EngineId, remote: Remote)
    requires remote.weights != 0
    ensures HonestRun([Add(id, remote)]) && !AllCurrent(Run([Add(id, remote)]))
  {
    var e := Add(id, remote);
    RunOne(e);
    assert Strays([e], 0, id);
    AllCurrentExactlyWhen([e]);
  }

  // One engine, initialized and then updated to version 7: it loads the weights and fails the cache
  // reset, so it holds 7 while the pool reports 0.
  lemma FailedResetIsStale(id: EngineId, a: Answers)
    requires Answered({id}, a) && AllOk({id}, a.pause) && AllOk({id}, a.load) && !a.reset[id].ok
    ensures var events := [Add(id, Remote(false, 0, 0, 0)), Init(map[id := 1], map[id := Call(true, true)]),
                           Update(Request(7, true), a)];
            HonestRun(events) && Run(events).version == 0 && !AllCurrent(Run(events))
  {
    hide Run, Step, Honestly, HonestRun, Succeeds, Decides, Decided, AllCurrent;
    var (e, f, g) := (Add(id, Remote(false, 0, 0, 0)), Init(map[id := 1], map[id := Call(true, true)]),
                      Update(Request(7, true), a));
    OneInitialized(id);
    RunMore([e, f], g);
    assert [e, f] + [g] == [e, f, g];
    var w := Run([e, f]);
    FailingUpdate(w, g, id);
    HonestMore([e, f], g);
    assert Strays([e, f, g], 2, id);
    AllCurrentExactlyWhen([e, f, g]);
  }

  lemma OneInitialized(id: EngineId)
    ensures var events := [Add(id, Remote(false, 0, 0, 0)), Init(map[id := 1], map[id := Call(true, true)])];
            HonestRun(events) && Run(events) == Pool({id}, true, 0, map[id := Remote(false, 0, 0, 1)])
  {
    hide Run, HonestRun;
    var (e, f) := (Add(id, Remote(false, 0, 0, 0)), Init(map[id := 1], map[id := Call(true, true)]));
    NothingYet();
    RunOne(e);
    HonestMore([], e);
    RunMore([e], f);
    assert [] + [e] == [e] && [e] + [f] == [e, f];
    assert Given(map[id := 1], 1) by {
      assert id in map[id := 1];
    }
    HonestMore([e], f);
  }

  // An update of one engine that fails its cache reset, after the load.
  lemma FailingUpdate(w: Pool, e: Event, id: EngineId)
    requires w.members == {id} && w.inited && w.version == 0 && id in w.fleet
    requires e.Update? && Answered({id}, e.a) && AllOk({id}, e.a.pause) && AllOk({id}, e.a.load) && !e.a.reset[id].ok
    requires e.req == Request(7, true)
    ensures Honestly(w, e) && Step(w, e).members == {id} && Step(w, e).version == 0
    ensures !Succeeds(w, e) && Decides(Weights, w, e, id) && Decided(Weights, w, e, id) == 7
  {
    hide Fan;
    assert !AllOk({id}, e.a.reset) by {
      assert id in {id};
    }
  }

  // Two engines, ranked 1 and 2, then ranked anew the other way round with only the first answering:
  // the gate stays open and both hold rank 2.
  lemma FailedInitCollides(x: EngineId, y: EngineId)
    requires x != y
    ensures var events := [Add(x, Remote(false, 0, 0, 0)), Add(y, Remote(false, 0, 0, 0)),
                           Init(map[x := 1, y := 2], map[x := Call(true, true), y := Call(true, true)]),
                           Init(map[x := 2, y := 1], map[x := Call(true, true), y := Call(false, false)])];
            && HonestRun(events) && Run(events).inited
            && HeldRanks(Run(events)) == map[x := 2, y := 2]
            && Collide(events, x, y) && !RanksFor(HeldRanks(Run(events)), Run(events).members)
  {
    hide Run, Step, HonestRun, Honestly, RanksFor, Collide;
    var (e, f) := (Add(x, Remote(false, 0, 0, 0)), Add(y, Remote(false, 0, 0, 0)));
    var g := Init(map[x := 1, y := 2], map[x := Call(true, true), y := Call(true, true)]);
    var h := Init(map[x := 2, y := 1], map[x := Call(true, true), y := Call(false, false)]);
    TwoAdded(x, y);
    RunMore([e, f], g);
    RunMore([e, f, g], h);
    assert [e, f] + [g] == [e, f, g] && [e, f, g] + [h] == [e, f, g, h];
    RankedInTurn(x, y);
    HonestMore([e, f], g);
    RankedAgain(x, y);
    HonestMore([e, f, g], h);
    var w := Run([e, f, g, h]);
    assert HeldRanks(w) == map[x := 2, y := 2];
    CollidersHoldOneRank([e, f, g, h], x, y);
    HeldRanksExactlyWhen([e, f, g, h]);
  }

  function Ranked(x: EngineId, y: EngineId, inited: bool, i: nat, j: nat): Pool {
    Pool({x, y}, inited, 0, map[x := Remote(false, 0, 0, i), y := Remote(false, 0, 0, j)])
  }

  lemma TwoAdded(x: EngineId, y: EngineId)
    requires x != y
    ensures var events := [Add(x, Remote(false, 0, 0, 0)), Add(y, Remote(false, 0, 0, 0))];
            HonestRun(events) && Run(events) == Ranked(x, y, false, 0, 0)
  {
    hide Run, HonestRun;
    var (e, f) := (Add(x, Remote(false, 0, 0, 0)), Add(y, Remote(false, 0, 0, 0)));
    NothingYet();
    RunOne(e);
    HonestMore([], e);
    RunMore([e], f);
    assert [] + [e] == [e] && [e] + [f] == [e, f];
    HonestMore([e], f);
    assert {} + {x} + {y} == {x, y};
  }

  lemma RankedInTurn(x: EngineId, y: EngineId)
    requires x != y
    ensures var g := Init(map[x := 1, y := 2], map[x := Call(true, true), y := Call(true, true)]);
            Honestly(Ranked(x, y, false, 0, 0), g) && Step(Ranked(x, y, false, 0, 0), g) == Ranked(x, y, true, 1, 2)
  {
    hide RanksFor;
    BothRanked(x, y);
  }

  lemma RankedAgain(x: EngineId, y: EngineId)
    requires x != y
    ensures var h := Init(map[x := 2, y := 1], map[x := Call(true, true), y := Call(false, false)]);
            Honestly(Ranked(x, y, true, 1, 2), h) && Step(Ranked(x, y, true, 1, 2), h) == Ranked(x, y, true, 2, 2)
  {
    hide RanksFor;
    BothRanked(y, x);
    assert {x, y} == {y, x};
    assert map[y := 1, x := 2] == map[x := 2, y := 1];
  }

  lemma NothingYet()
    ensures Run([]) == Pool({}, false, 0, map[]) && HonestRun([])
  {
  }

  lemma BothRanked(x: EngineId, y: EngineId)
    requires x != y
    ensures RanksFor(map[x := 1, y := 2], {x, y})
  {
    var ranks: map<EngineId, nat> := map[x := 1, y := 2];
    assert x in ranks && y in ranks;
    assert Given(ranks, 1) && Given(ranks, 2);
  }
}
