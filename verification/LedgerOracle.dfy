// Replays that declare every session's final size: each replica's estimated free budget is the
// budget less what its residents have declared.

module LedgerOracle {
  import opened Totals
  import opened Ledger
  import opened LedgerRuns

  // The session has declared a final size, now or before, that its context does not exceed.
  ghost predicate Committed(p: Params, w: World, e: Event)
    requires Valid(p, w.s)
  {
    match e
    case Start(_, ctx, final, _, _, _) => final.Some? && ctx <= final.value
    case NextTurn(rid, ctx, final) =>
      var finals := Declare(p, w.s, rid, final).oracleFinal;
      rid in finals && ctx <= finals[rid]
    case Measured(rid, ctx) => rid in w.s.oracleFinal && ctx <= w.s.oracleFinal[rid]
    case _ => true
  }

  ghost predicate AllCommitted(p: Params, events: seq<Event>)
    requires |p.replicas| > 0 && p.growth.priorWeight > -1.0
  {
    var n := |events| - 1;
    n < 0 || (AllCommitted(p, events[..n])
              && (Enabled(p, Run(p, events[..n]), events[n]) ==> Committed(p, Run(p, events[..n]), events[n])))
  }

  // The charge of a resident is exactly what it has declared but not yet used.
  ghost predicate ChargeIsRest(w: World, rid: RequestId) {
    && (rid in w.s.resident ==>
          rid in w.s.oracleFinal && rid in w.s.charge && rid in w.s.history
          && Newest(w.s, rid) + w.s.charge[rid] == w.s.oracleFinal[rid])
    && (rid in w.phase && w.phase[rid].Waiting? ==> rid in w.s.oracleFinal && w.phase[rid].ctx <= w.s.oracleFinal[rid])
  }

  ghost predicate ChargesAreRest(w: World) {
    forall rid :: ChargeIsRest(w, rid)
  }

  // What the residents of r have declared.
  ghost function Declared(s: State, r: Replica): real {
    Total(On(s.resident, s.oracleFinal, r))
  }

  // ----- steps

  lemma BookedChargeIsRest(p: Params, w: World, w': World, rid: RequestId, turn: nat, ctx: real)
    requires p.oracle && Valid(p, w'.s) && ChargesAreRest(w)
    requires BookedTurn(p, w.s, w'.s, rid, turn, ctx)
    requires forall u :: u in Turns(w.s, rid) ==> u <= turn
    requires rid in w'.s.oracleFinal && ctx <= w'.s.oracleFinal[rid]
    requires forall q :: q != rid ==> (q in w.s.oracleFinal <==> q in w'.s.oracleFinal)
    requires forall q :: q != rid && q in w.s.oracleFinal ==> w'.s.oracleFinal[q] == w.s.oracleFinal[q]
    requires rid in w'.phase && !w'.phase[rid].Waiting? && w'.phase == w.phase[rid := w'.phase[rid]]
    ensures ChargesAreRest(w')
  {
    hide Newest, Charge, Valid, ChargeIsRest;
    ChargeIsWhatIsLeft(p, w'.s, rid, ctx, turn);
    OwnRest(p, w, w', rid, turn, ctx);
    forall q ensures ChargeIsRest(w', q) {
      if q != rid {
        OtherRest(w, w', q);
      }
    }
  }

  lemma OwnRest(p: Params, w: World, w': World, rid: RequestId, turn: nat, ctx: real)
    requires rid in w'.s.resident && rid in w'.s.oracleFinal && rid in w'.phase && !w'.phase[rid].Waiting?
    requires forall u :: u in Turns(w.s, rid) ==> u <= turn
    requires rid in w'.s.history && w'.s.history[rid] == Turns(w.s, rid)[turn := ctx]
    requires rid in w'.s.charge && w'.s.charge[rid] == w'.s.oracleFinal[rid] - ctx
    ensures ChargeIsRest(w', rid)
  {
    hide NewestOf, LastTurn;
    NewestIs(w'.s.history[rid], turn);
  }

  lemma OtherRest(w: World, w': World, q: RequestId)
    requires ChargesAreRest(w)
    requires q in w.s.resident <==> q in w'.s.resident
    requires q in w.s.charge <==> q in w'.s.charge
    requires q in w.s.charge ==> w.s.charge[q] == w'.s.charge[q]
    requires q in w.s.history <==> q in w'.s.history
    requires q in w.s.history ==> w.s.history[q] == w'.s.history[q]
    requires q in w.s.oracleFinal <==> q in w'.s.oracleFinal
    requires q in w.s.oracleFinal ==> w.s.oracleFinal[q] == w'.s.oracleFinal[q]
    requires q in w.phase <==> q in w'.phase
    requires q in w.phase ==> w.phase[q] == w'.phase[q]
    ensures ChargeIsRest(w', q)
  {
    hide NewestOf, LastTurn;
    assert ChargeIsRest(w, q);
  }

  lemma ChargeIsWhatIsLeft(p: Params, s: State, rid: RequestId, ctx: real, turn: nat)
    requires p.oracle && Valid(p, s) && rid in s.oracleFinal && ctx <= s.oracleFinal[rid]
    ensures Charge(p, s, rid, ctx, turn) == s.oracleFinal[rid] - ctx
  {
  }

  lemma WaitKeepsRest(w: World, w': World, rid: RequestId)
    requires ChargesAreRest(w)
    requires rid !in w.s.resident
    requires w'.s.resident == w.s.resident && w'.s.charge == w.s.charge && w'.s.history == w.s.history
    requires forall q :: q != rid ==> (q in w.s.oracleFinal <==> q in w'.s.oracleFinal)
    requires forall q :: q != rid && q in w.s.oracleFinal ==> w'.s.oracleFinal[q] == w.s.oracleFinal[q]
    requires rid in w'.phase && w'.phase[rid].Waiting? && w'.phase == w.phase[rid := w'.phase[rid]]
    requires rid in w'.s.oracleFinal && w'.phase[rid].ctx <= w'.s.oracleFinal[rid]
    ensures ChargesAreRest(w')
  {
    hide NewestOf, LastTurn;
    forall q ensures ChargeIsRest(w', q) {
      assert ChargeIsRest(w, q);
    }
  }

  lemma DropKeepsRest(w: World, w': World, rid: RequestId)
    requires ChargesAreRest(w)
    requires w'.s.resident == w.s.resident - {rid} && w'.s.charge == w.s.charge - {rid}
    requires w'.s.history == w.s.history - {rid} && w'.s.oracleFinal == w.s.oracleFinal
    requires rid in w'.phase && !w'.phase[rid].Waiting? && w'.phase == w.phase[rid := w'.phase[rid]]
    ensures ChargesAreRest(w')
  {
    hide NewestOf, LastTurn;
    forall q ensures ChargeIsRest(w', q) {
      assert ChargeIsRest(w, q);
    }
  }

  lemma FinalsOfOthers(p: Params, w: World, w': World, e: Event)
    requires Valid(p, w.s) && FinalsFollow(p, w, w', e)
    ensures forall q :: q != e.rid ==> (q in w.s.oracleFinal <==> q in w'.s.oracleFinal)
    ensures forall q :: q != e.rid && q in w.s.oracleFinal ==> w'.s.oracleFinal[q] == w.s.oracleFinal[q]
  {
  }

  lemma FirstTurnKeepsRest(p: Params, w: World, e: Event)
    requires p.oracle && BooksOk(p, w) && ChargesAreRest(w) && Enabled(p, w, e) && FirstTurn(e) && Committed(p, w, e)
    ensures ChargesAreRest(Step(p, w, e))
  {
    hide Step, Segment, Valid, PhasesMatch, Conserved, NewestOf, LastTurn, BookedTurn;
    var w' := Step(p, w, e);
    FirstTurnEffect(p, w, e);
    FinalsOfOthers(p, w, w', e);
    assert ChargeIsRest(w, e.rid);
    if Segment(p, w, e).1.Await? {
      WaitKeepsRest(w, w', e.rid);
    } else {
      assert Turns(w.s, e.rid) == map[];
      BookedChargeIsRest(p, w, w', e.rid, 0, FirstContext(w, e));
    }
  }

  lemma StepKeepsRest(p: Params, w: World, e: Event)
    requires p.oracle && BooksOk(p, w) && ChargesAreRest(w) && Enabled(p, w, e) && Committed(p, w, e)
    ensures ChargesAreRest(Step(p, w, e))
  {
    hide Step, Segment, Valid, PhasesMatch, Conserved, NewestOf, LastTurn, BookedTurn, ChargesAreRest, ObserveAll, FinalObservations;
    var w' := Step(p, w, e);
    if e.NextTurn? {
      LaterEffect(p, w, e);
      FinalsOfOthers(p, w, w', e);
      BookedChargeIsRest(p, w, w', e.rid, NextOf(w, e.rid), e.ctx);
    } else if e.Measured? {
      MeasuredEffect(p, w, e);
      FinalsOfOthers(p, w, w', e);
      BookedChargeIsRest(p, w, w', e.rid, TurnNow(w, e.rid), e.ctx);
    } else if e.Completed? {
      CompletedEffect(p, w, e);
      DropKeepsRest(w, w', e.rid);
    } else {
      FirstTurnKeepsRest(p, w, e);
    }
  }

  lemma {:induction false} ReplaysChargeTheRest(p: Params, events: seq<Event>)
    requires |p.replicas| > 0 && p.growth.priorWeight > -1.0 && p.oracle
    requires AllCommitted(p, events)
    ensures BooksOk(p, Run(p, events)) && ChargesAreRest(Run(p, events))
  {
    hide Step, Enabled, Committed, BooksOk, ChargesAreRest;
    RunsConserve(p, events);
    if |events| == 0 {
      NothingCharged(p);
    } else {
      var n := |events| - 1;
      ReplaysChargeTheRest(p, events[..n]);
      if Enabled(p, Run(p, events[..n]), events[n]) {
        StepKeepsRest(p, Run(p, events[..n]), events[n]);
      } else {
        DisabledIsIdle(p, Run(p, events[..n]), events[n]);
      }
    }
  }

  lemma NothingCharged(p: Params)
    ensures ChargesAreRest(Begin(p))
  {
  }

  // ----- the estimate

  lemma ReserveIsRest(w: World, r: Replica)
    requires PhasesMatch(w) && ChargesAreRest(w)
    ensures Tokens(w.s, r) + Reserve(w.s, r) == Declared(w.s, r)
  {
    hide Total, NewestOf, LastTurn;
    var sizes := On(w.s.resident, Sizes(w.s), r);
    var charges := On(w.s.resident, w.s.charge, r);
    var finals := On(w.s.resident, w.s.oracleFinal, r);
    forall rid
      ensures rid in sizes <==> rid in charges
      ensures rid in sizes <==> rid in finals
      ensures rid in sizes ==> sizes[rid] + charges[rid] == finals[rid]
    {
      assert PhaseMatches(w, rid) && ChargeIsRest(w, rid);
    }
    assert sizes.Keys == charges.Keys == finals.Keys;
    TotalOfSums(sizes, charges, finals);
  }

  // A replica's estimated free budget in every replay of committed sessions.
  lemma FreeIsUndeclared(p: Params, events: seq<Event>, r: Replica)
    requires |p.replicas| > 0 && p.growth.priorWeight > -1.0 && p.oracle && r in p.replicas
    requires AllCommitted(p, events)
    ensures var w := Run(p, events);
            r in w.s.used && r in w.shrink && Free(p, w.s, r) == p.budget - Declared(w.s, r) - w.shrink[r]
  {
    hide Run, AllCommitted, Tokens, Reserve, Declared;
    ReplaysChargeTheRest(p, events);
    ReserveIsRest(Run(p, events), r);
  }

  // A turn served in place without shrinking or re-declaring, and the recording of a turn, are
  // already paid for: they leave every replica's estimate where it was.
  lemma ServedTurnsAreNeutral(p: Params, events: seq<Event>, e: Event, r: Replica)
    requires |p.replicas| > 0 && p.growth.priorWeight > -1.0 && p.oracle && r in p.replicas
    requires AllCommitted(p, events + [e])
    requires var w := Run(p, events);
             Enabled(p, w, e)
             && (e.Measured?
                 || (e.NextTurn? && e.rid in w.s.resident && e.ctx >= Newest(w.s, e.rid)
                     && (e.final.None? || (e.rid in w.s.oracleFinal && w.s.oracleFinal[e.rid] == e.final.value))
                     && !Moves(p, Declare(p, w.s, e.rid, e.final), e.rid, NextOf(w, e.rid), e.ctx)))
    ensures var (w, w') := (Run(p, events), Run(p, events + [e]));
            r in w.s.used && r in w'.s.used && Free(p, w'.s, r) == Free(p, w.s, r)
  {
    hide Run, AllCommitted, Free, Step, Enabled, Moves, NewestOf, LastTurn, Declared;
    RunSnoc(p, events, e);
    CommittedSnoc(p, events, e);
    FreeIsUndeclared(p, events, r);
    FreeIsUndeclared(p, events + [e], r);
    RunsConserve(p, events);
    NeutralStep(p, Run(p, events), e, r);
  }

  lemma CommittedSnoc(p: Params, events: seq<Event>, e: Event)
    requires |p.replicas| > 0 && p.growth.priorWeight > -1.0
    requires AllCommitted(p, events + [e])
    ensures AllCommitted(p, events)
  {
    hide Step, Enabled, Committed;
    assert (events + [e])[..|events|] == events;
  }

  lemma NeutralStep(p: Params, w: World, e: Event, r: Replica)
    requires BooksOk(p, w) && r in p.replicas && Enabled(p, w, e)
    requires e.Measured?
             || (e.NextTurn? && e.rid in w.s.resident && e.ctx >= Newest(w.s, e.rid)
                 && (e.final.None? || (e.rid in w.s.oracleFinal && w.s.oracleFinal[e.rid] == e.final.value))
                 && !Moves(p, Declare(p, w.s, e.rid, e.final), e.rid, NextOf(w, e.rid), e.ctx))
    ensures var w' := Step(p, w, e);
            && Declared(w'.s, r) == Declared(w.s, r)
            && r in w.shrink && r in w'.shrink && w'.shrink[r] == w.shrink[r]
  {
    hide Step, Total, Moves, NewestOf, LastTurn, Valid, BookedTurn, PhasesMatch, Conserved, Continue;
    ShrinkIsTracked(p, w);
    if e.Measured? {
      MeasuredEffect(p, w, e);
    } else {
      StaysPut(p, w, e);
    }
  }

  lemma StaysPut(p: Params, w: World, e: Event)
    requires BooksOk(p, w) && Enabled(p, w, e) && e.NextTurn? && e.rid in w.s.resident
    requires e.ctx >= Newest(w.s, e.rid)
    requires e.final.None? || (e.rid in w.s.oracleFinal && w.s.oracleFinal[e.rid] == e.final.value)
    requires !Moves(p, Declare(p, w.s, e.rid, e.final), e.rid, NextOf(w, e.rid), e.ctx)
    ensures var w' := Step(p, w, e);
            && w'.s.resident == w.s.resident && w'.s.oracleFinal == w.s.oracleFinal
            && forall r :: r in w.shrink ==> r in w'.shrink && w'.shrink[r] == w.shrink[r]
  {
    hide Step, Moves, NewestOf, LastTurn, PhasesMatch, Conserved, Continue, Shrunk, TablesOk, Charge, Added;
    LaterEffect(p, w, e);
    LaterStep(p, w, e);
    LaterBooking(p, Declare(p, w.s, e.rid, e.final), e.rid, NextOf(w, e.rid), e.ctx);
    assert Step(p, w, e).s.resident == w.s.resident;
    ShrinkIsTracked(p, w);
    ResidesInFleet(p, w.s, e.rid);
    ShrunkIs(p, w, e);
  }
}
