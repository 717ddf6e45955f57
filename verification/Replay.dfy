// The ledger object driven through a run: each event is one method call, and after any sequence of
// them the object's fields are the state that the run reaches.

module Replay {
  import opened Ledger
  import opened LedgerRuns
  import opened Admission

  // What a driver knows: the object's own state and where every request stands.
  function Known(s: State, phase: map<RequestId, Phase>): World {
    World(s, phase, map[], map[], {}, map[], [])
  }

  lemma KnownIsEnough(p: Params, w: World, e: Event, o: Outcome)
    ensures Enabled(p, Known(w.s, w.phase), e) == Enabled(p, w, e)
    ensures NewPhase(Known(w.s, w.phase), e, o) == NewPhase(w, e, o)
    ensures NextOf(Known(w.s, w.phase), e.rid) == NextOf(w, e.rid)
    ensures TurnNow(Known(w.s, w.phase), e.rid) == TurnNow(w, e.rid)
  {
  }

  // The method call that an event stands for.
  method Perform(ledger: AdmissionLedger, phase: map<RequestId, Phase>, e: Event, ghost w: World) returns (o: Outcome)
    requires ledger.Valid() && w.s == ledger.State() && w.phase == phase && Enabled(ledger.p, w, e)
    modifies ledger, ledger.estimator
    ensures ledger.Valid() && (ledger.State(), o) == Segment(ledger.p, w, e)
  {
    hide Ledger.Valid, Arrive, Follow, Ordinary, TakeResult, CloseWindow, PlaceOn, Poll, Continue, Record, Finish, Declare;
    var known := Known(ledger.State(), phase);
    KnownIsEnough(ledger.p, w, e, Noted);
    match e {
      case Start(rid, ctx, final, work, group, expired) => o := ledger.AcquireFirst(rid, ctx, final, work, group, expired);
      case LeaderReady(rid, expired) =>
        o := ledger.FollowLeader(rid, phase[rid].on.group, phase[rid].ctx, phase[rid].work, expired);
      case LeaderTimeout(rid, expired) => o := ledger.PlaceOrdinary(rid, phase[rid].ctx, phase[rid].work, expired);
      case WindowEnd(rid) => o := ledger.CloseWindow(rid, phase[rid].ctx);
      case BatchReady(rid) => o := ledger.TakeResult(rid, phase[rid].ctx);
      case BatchTimeout(rid) => o := ledger.GiveUpOnBatch(rid, phase[rid].ctx);
      case PollAgain(rid, expired) => o := ledger.PollRound(rid, phase[rid].ctx, expired);
      case NextTurn(rid, ctx, final) => o := ledger.AcquireLater(rid, NextOf(known, rid), ctx, final);
      case Measured(rid, ctx) =>
        ledger.RecordTurn(rid, TurnNow(known, rid), ctx);
        o := Noted;
      case Completed(rid) =>
        ledger.OnTrajectoryDone(rid);
        o := Noted;
    }
  }

  // A new ledger driven through any events ends in the state of their run.
  method Drive(p: Params, events: seq<Event>) returns (ledger: AdmissionLedger, phase: map<RequestId, Phase>)
    requires |p.replicas| > 0 && p.growth.priorWeight > -1.0
    ensures ledger.Valid() && ledger.p == p
    ensures ledger.State() == Run(p, events).s && phase == Run(p, events).phase
  {
    hide Ledger.Valid, Step, Enabled, Segment, NewPhase;
    ledger := new AdmissionLedger(p);
    phase := map[];
    assert events[..0] == [];
    for i := 0 to |events|
      invariant ledger.Valid() && ledger.p == p && fresh(ledger) && fresh(ledger.estimator)
      invariant ledger.State() == Run(p, events[..i]).s && phase == Run(p, events[..i]).phase
    {
      ghost var w := Run(p, events[..i]);
      var e := events[i];
      RunSnoc(p, events[..i], e);
      assert events[..i + 1] == events[..i] + [e];
      var known := Known(ledger.State(), phase);
      KnownIsEnough(p, w, e, Noted);
      if Enabled(p, known, e) {
        StepIs(p, w, e);
        var o := Perform(ledger, phase, e, w);
        KnownIsEnough(p, w, e, o);
        phase := phase[e.rid := NewPhase(known, e, o)];
      } else {
        DisabledIsIdle(p, w, e);
      }
    }
    assert events[..|events|] == events;
  }
}
