// What the ledger learns and predicts, read off the calls of a run: the sizes that each request's
// turns were measured at, the growths that a completion feeds, and the charge of every resident.

module LedgerLearning {
  import opened Text
  import Growth
  import opened Estimates
  import opened Ledger
  import opened LedgerRuns

  // ----- the turns of a request, from the calls alone

  // Call n of the run is one that can happen when it is made.
  ghost predicate Happens(p: Params, events: seq<Event>, n: nat)
    requires |p.replicas| > 0 && p.growth.priorWeight > -1.0 && n < |events|
  {
    Enabled(p, Run(p, events[..n]), events[n])
  }

  // The sizes that the turns of a request were measured at, turn by turn.
  ghost function Measurements(p: Params, events: seq<Event>, rid: RequestId): seq<real>
    requires |p.replicas| > 0 && p.growth.priorWeight > -1.0
  {
    var n := |events| - 1;
    if n < 0 then []
    else
      Measurements(p, events[..n], rid)
      + if events[n].Measured? && events[n].rid == rid && Happens(p, events, n) then [events[n].ctx] else []
  }

  // How many of them had been fed to the estimator when the request last completed.
  ghost function DoneAt(p: Params, events: seq<Event>, rid: RequestId): nat
    requires |p.replicas| > 0 && p.growth.priorWeight > -1.0
  {
    var n := |events| - 1;
    if n < 0 then 0
    else if events[n].Completed? && events[n].rid == rid && Happens(p, events, n) then |Measurements(p, events[..n], rid)|
    else DoneAt(p, events[..n], rid)
  }

  // Turns `from` to `to - 1`, each with its own size and index and the growth it had ahead of it.
  function SamplesOf(sizes: seq<real>, from: nat, to: nat): seq<Sample>
    requires to <= |sizes|
  {
    if to <= from then []
    else SamplesOf(sizes, from, to - 1) + [Sample(sizes[to - 1], to - 1, sizes[|sizes| - 1] - sizes[to - 1])]
  }

  // Everything fed so far: each completion feeds one sample for each turn measured since the last.
  ghost function Samples(p: Params, events: seq<Event>): seq<Sample>
    requires |p.replicas| > 0 && p.growth.priorWeight > -1.0
  {
    var n := |events| - 1;
    if n < 0 then []
    else
      var (e, before) := (events[n], events[..n]);
      Samples(p, before)
      + if e.Completed? && Happens(p, events, n) then
          var sizes := Measurements(p, before, e.rid);
          SamplesOf(sizes, DoneAt(p, before, e.rid), |sizes|)
        else []
  }

  // ----- the history of a resident request is what was measured

  // The turns booked for a request, against its measurements `sizes` of which `from` are settled.
  ghost predicate TurnsFit(turns: map<nat, real>, sizes: seq<real>, from: nat, last: nat) {
    && (forall u: nat :: u in turns <==> from <= u <= last)
    && (forall u: nat :: from <= u < |sizes| && u <= last ==> turns[u] == sizes[u])
  }

  ghost predicate HistoryFits(w: World, rid: RequestId, sizes: seq<real>, from: nat) {
    && from <= |sizes|
    && (rid !in w.s.resident ==>
          && from == |sizes|
          && (rid in w.phase ==> !w.phase[rid].InTurn?)
          && (rid in w.phase && w.phase[rid].Gone? ==> w.phase[rid].next == |sizes|)
          && (rid !in w.phase || w.phase[rid].Waiting? ==> |sizes| == 0))
    && (rid in w.s.resident ==>
          && rid in w.phase && w.phase[rid].InTurn? && rid in w.s.history
          && var ph := w.phase[rid];
             && ph.turn + (if ph.recorded then 1 else 0) == |sizes| && from <= ph.turn
             && TurnsFit(w.s.history[rid], sizes, from, ph.turn))
  }

  // A call leaves every other request as it was.
  lemma OthersStay(p: Params, w: World, e: Event, q: RequestId)
    requires BooksOk(p, w) && Enabled(p, w, e) && q != e.rid
    ensures var w' := Step(p, w, e);
            && (q in w'.s.resident <==> q in w.s.resident) && (q in w'.s.history <==> q in w.s.history)
            && (q in w'.s.charge <==> q in w.s.charge) && (q in w'.phase <==> q in w.phase)
            && (q in w'.s.oracleFinal <==> q in w.s.oracleFinal)
            && (q in w.s.history ==> w'.s.history[q] == w.s.history[q])
            && (q in w.s.charge ==> w'.s.charge[q] == w.s.charge[q])
            && (q in w.s.oracleFinal ==> w'.s.oracleFinal[q] == w.s.oracleFinal[q])
            && (q in w.phase ==> w'.phase[q] == w.phase[q])
  {
    hide Step, Segment, Valid, PhasesMatch, Conserved, Charge, Enabled, Continue, ObserveAll, FinalObservations, NewestOf, LastTurn;
    if e.NextTurn? {
      LaterEffect(p, w, e);
    } else if e.Measured? {
      MeasuredEffect(p, w, e);
    } else if e.Completed? {
      CompletedEffect(p, w, e);
    } else {
      FirstTurnEffect(p, w, e);
    }
  }

  lemma FirstTurnFits(p: Params, w: World, e: Event, sizes: seq<real>, from: nat)
    requires BooksOk(p, w) && Enabled(p, w, e) && FirstTurn(e) && HistoryFits(w, e.rid, sizes, from)
    ensures HistoryFits(Step(p, w, e), e.rid, sizes, from)
  {
    hide Step, Segment, Valid, PhasesMatch, Conserved, Charge, FinalsFollow;
    FirstTurnEffect(p, w, e);
  }

  lemma LaterFits(p: Params, w: World, e: Event, sizes: seq<real>, from: nat)
    requires BooksOk(p, w) && Enabled(p, w, e) && e.NextTurn? && HistoryFits(w, e.rid, sizes, from)
    ensures HistoryFits(Step(p, w, e), e.rid, sizes, from)
  {
    hide Step, Segment, Valid, PhasesMatch, Conserved, Charge, FinalsFollow, Continue;
    LaterEffect(p, w, e);
    Unplaced(w, e.rid, p);
  }

  lemma Unplaced(w: World, rid: RequestId, p: Params)
    requires BooksOk(p, w)
    ensures rid in w.s.resident <==> rid in w.s.history
  {
    hide Valid, Conserved;
    assert PhaseMatches(w, rid);
  }

  lemma MeasuredFits(p: Params, w: World, e: Event, sizes: seq<real>, from: nat)
    requires BooksOk(p, w) && Enabled(p, w, e) && e.Measured? && HistoryFits(w, e.rid, sizes, from)
    ensures HistoryFits(Step(p, w, e), e.rid, sizes + [e.ctx], from)
  {
    hide Step, Segment, Valid, PhasesMatch, Conserved, Charge, FinalsFollow;
    MeasuredEffect(p, w, e);
  }

  lemma CompletedFits(p: Params, w: World, e: Event, sizes: seq<real>, from: nat)
    requires BooksOk(p, w) && Enabled(p, w, e) && e.Completed? && HistoryFits(w, e.rid, sizes, from)
    ensures HistoryFits(Step(p, w, e), e.rid, sizes, |sizes|)
  {
    hide Step, Segment, Valid, PhasesMatch, Conserved, Charge, ObserveAll, FinalObservations, NewestOf, LastTurn;
    CompletedEffect(p, w, e);
  }

  lemma StepFits(p: Params, w: World, e: Event, sizes: seq<real>, from: nat)
    requires BooksOk(p, w) && Enabled(p, w, e) && HistoryFits(w, e.rid, sizes, from)
    ensures HistoryFits(Step(p, w, e), e.rid, if e.Measured? then sizes + [e.ctx] else sizes, if e.Completed? then |sizes| else from)
  {
    hide Step, BooksOk, Enabled, HistoryFits;
    if e.NextTurn? {
      LaterFits(p, w, e, sizes, from);
    } else if e.Measured? {
      MeasuredFits(p, w, e, sizes, from);
    } else if e.Completed? {
      CompletedFits(p, w, e, sizes, from);
    } else {
      FirstTurnFits(p, w, e, sizes, from);
    }
  }

  // In every reachable world.
  lemma {:induction false} HistoriesFit(p: Params, events: seq<Event>, rid: RequestId)
    requires |p.replicas| > 0 && p.growth.priorWeight > -1.0
    ensures HistoryFits(Run(p, events), rid, Measurements(p, events, rid), DoneAt(p, events, rid))
  {
    hide Step, BooksOk, Enabled, HistoryFits;
    var n := |events| - 1;
    if n < 0 {
      NothingMeasured(p, rid);
    } else {
      var (w, e) := (Run(p, events[..n]), events[n]);
      var (sizes, from) := (Measurements(p, events[..n], rid), DoneAt(p, events[..n], rid));
      RunsConserve(p, events[..n]);
      HistoriesFit(p, events[..n], rid);
      assert sizes + [] == sizes;
      if !Enabled(p, w, e) {
        DisabledIsIdle(p, w, e);
      } else if e.rid == rid {
        StepFits(p, w, e, sizes, from);
      } else {
        OthersStay(p, w, e, rid);
        UntouchedFits(w, Step(p, w, e), rid, sizes, from);
      }
    }
  }

  lemma NothingMeasured(p: Params, rid: RequestId)
    ensures HistoryFits(Begin(p), rid, [], 0)
  {
  }

  lemma UntouchedFits(w: World, w': World, q: RequestId, sizes: seq<real>, from: nat)
    requires HistoryFits(w, q, sizes, from)
    requires (q in w'.s.resident <==> q in w.s.resident) && (q in w'.s.history <==> q in w.s.history)
    requires (q in w'.phase <==> q in w.phase) && (q in w.phase ==> w'.phase[q] == w.phase[q])
    requires q in w.s.history ==> w'.s.history[q] == w.s.history[q]
    ensures HistoryFits(w', q, sizes, from)
  {
  }

  // ----- what a completion feeds

  lemma {:induction false} RemainingAre(cfg: Growth.Config, turns: map<nat, real>, sizes: seq<real>, from: nat, n: nat)
    requires from < |sizes| && n <= |sizes| && TurnsFit(turns, sizes, from, |sizes| - 1)
    ensures Ledger.Remaining(cfg, turns, sizes[|sizes| - 1], n) == AllObserved(cfg, SamplesOf(sizes, from, n))
  {
    hide Growth.KeyOf, AllObserved;
    if n == 0 {
      NoneObserved(cfg);
    } else {
      RemainingAre(cfg, turns, sizes, from, n - 1);
      assert n - 1 in turns <==> from < n;
      if n > from {
        ObservedSnoc(cfg, SamplesOf(sizes, from, n - 1), Sample(sizes[n - 1], n - 1, sizes[|sizes| - 1] - sizes[n - 1]));
        assert turns[n - 1] == sizes[n - 1];
      } else {
        NoneObserved(cfg);
      }
    }
  }

  lemma NoneObserved(cfg: Growth.Config)
    ensures AllObserved(cfg, []) == []
  {
  }

  lemma ObservedSnoc(cfg: Growth.Config, front: seq<Sample>, last: Sample)
    ensures AllObserved(cfg, front + [last])
            == AllObserved(cfg, front) + [Growth.Observation(Growth.KeyOf(cfg, last.size, last.turn), last.growth)]
  {
    hide Growth.KeyOf;
    assert (front + [last])[..|front|] == front;
  }

  // A completion feeds one observation for each turn of the request, filed under that turn's own
  // size and index, with the growth from that size to the newest.
  lemma CompletionFeeds(p: Params, w: World, e: Event, sizes: seq<real>, from: nat)
    requires BooksOk(p, w) && Enabled(p, w, e) && e.Completed? && HistoryFits(w, e.rid, sizes, from)
    ensures Step(p, w, e).fed == w.fed + AllObserved(p.growth, SamplesOf(sizes, from, |sizes|))
  {
    hide Step, Segment, Valid, PhasesMatch, Conserved, Charge, ObserveAll, Ledger.Remaining, NewestOf, LastTurn, AllObserved;
    CompletedEffect(p, w, e);
    var turns := w.s.history[e.rid];
    FinalObservationsAre(p, turns);
    HasTurns(w, e.rid);
    RemainingAre(p.growth, turns, sizes, from, |sizes|);
  }

  lemma OthersFeedNothing(p: Params, w: World, e: Event)
    requires BooksOk(p, w) && Enabled(p, w, e) && !e.Completed?
    ensures Step(p, w, e).fed == w.fed
  {
    hide Step, Segment, Valid, PhasesMatch, Conserved, Charge, Continue;
    if e.NextTurn? {
      LaterEffect(p, w, e);
    } else if e.Measured? {
      MeasuredEffect(p, w, e);
    } else {
      FirstTurnEffect(p, w, e);
    }
  }

  lemma {:induction false} RunsFeed(p: Params, events: seq<Event>)
    requires |p.replicas| > 0 && p.growth.priorWeight > -1.0
    ensures Run(p, events).fed == AllObserved(p.growth, Samples(p, events))
  {
    hide Step, BooksOk, Enabled, HistoryFits, SamplesOf;
    var n := |events| - 1;
    if n >= 0 {
      var (w, e, before) := (Run(p, events[..n]), events[n], events[..n]);
      RunsConserve(p, before);
      RunsFeed(p, before);
      HistoriesFit(p, before, e.rid);
      assert Samples(p, before) + [] == Samples(p, before);
      if !Enabled(p, w, e) {
        DisabledIsIdle(p, w, e);
      } else if e.Completed? {
        var sizes := Measurements(p, before, e.rid);
        CompletionFeeds(p, w, e, sizes, DoneAt(p, before, e.rid));
        ObservedAppend(p.growth, Samples(p, before), SamplesOf(sizes, DoneAt(p, before, e.rid), |sizes|));
      } else {
        OthersFeedNothing(p, w, e);
      }
    }
  }

  // In every reachable world the tables are the batch statistics of the measured turns of all
  // completed trajectories.
  lemma RunsLearn(p: Params, events: seq<Event>)
    requires |p.replicas| > 0 && p.growth.priorWeight > -1.0
    ensures Growth.Summarizes(p.growth, Run(p, events).s.tables, AllObserved(p.growth, Samples(p, events)))
  {
    hide Run, Samples, Growth.Summarizes, AllObserved;
    RunsSummarize(p, events);
    RunsFeed(p, events);
  }

  // So what the ledger predicts for a turn is the expected growth over the measured turns alike to it.
  lemma PredictionsAreExpected(p: Params, events: seq<Event>, size: real, turn: nat)
    requires |p.replicas| > 0 && p.growth.priorWeight > -1.0
    ensures var (t, key) := (Run(p, events).s.tables, Growth.KeyOf(p.growth, size, turn));
            && (key in t.count ==> key in t.m2)
            && Growth.Estimate(p.growth, t, key)
               == Expected(p.growth, GrowthsLike(p.growth.mode, Samples(p, events), size, turn))
  {
    hide Run, Samples, Growth.Summarizes, AllObserved, Expected, GrowthsLike;
    RunsLearn(p, events);
    EstimateIsExpected(p.growth, Run(p, events).s.tables, Samples(p, events), size, turn);
  }

  // ----- the charge of every resident

  // Call i is the last one about this request.
  ghost predicate LastAbout(p: Params, events: seq<Event>, i: nat, rid: RequestId)
    requires |p.replicas| > 0 && p.growth.priorWeight > -1.0
  {
    && i < |events| && events[i].rid == rid && Happens(p, events, i)
    && forall j :: i < j < |events| && events[j].rid == rid ==> !Happens(p, events, j)
  }

  // What is reserved for a turn of this size and index: up to the declared final size in a replay
  // that declares one, and the expected growth otherwise.
  ghost function Reserved(p: Params, samples: seq<Sample>, declared: Option<real>, size: real, turn: nat): real
    requires p.growth.priorWeight > -1.0
  {
    if p.oracle && declared.Some? then (if declared.value > size then declared.value - size else 0.0)
    else Expected(p.growth, GrowthsLike(p.growth.mode, samples, size, turn))
  }

  // The final size that the calls of a request declared last.
  ghost function DeclaredFinal(p: Params, events: seq<Event>, rid: RequestId): Option<real>
    requires |p.replicas| > 0 && p.growth.priorWeight > -1.0
  {
    var n := |events| - 1;
    if n < 0 then None
    else
      var e := events[n];
      if (e.Start? || e.NextTurn?) && e.rid == rid && e.final.Some? && Happens(p, events, n) then e.final
      else DeclaredFinal(p, events[..n], rid)
  }

  function Stored(s: State, rid: RequestId): Option<real> {
    if rid in s.oracleFinal then Some(s.oracleFinal[rid]) else None
  }

  lemma CallStoresFinal(p: Params, w: World, e: Event, rid: RequestId)
    requires BooksOk(p, w) && Enabled(p, w, e)
    ensures Stored(Step(p, w, e).s, rid)
            == if (e.Start? || e.NextTurn?) && e.rid == rid && e.final.Some? then e.final else Stored(w.s, rid)
  {
    hide Step, Segment, Valid, PhasesMatch, Conserved, Charge, Enabled, Continue, ObserveAll, FinalObservations, NewestOf, LastTurn;
    if e.NextTurn? {
      LaterEffect(p, w, e);
    } else if e.Measured? {
      MeasuredEffect(p, w, e);
    } else if e.Completed? {
      CompletedEffect(p, w, e);
    } else {
      FirstTurnEffect(p, w, e);
    }
  }

  // The ledger knows of each request the final size it declared last.
  lemma {:induction false} FinalsAreDeclared(p: Params, events: seq<Event>, rid: RequestId)
    requires |p.replicas| > 0 && p.growth.priorWeight > -1.0
    ensures Stored(Run(p, events).s, rid) == DeclaredFinal(p, events, rid)
  {
    hide Step, BooksOk, Enabled, Stored;
    var n := |events| - 1;
    if n < 0 {
      NothingStored(p, rid);
    } else {
      RunsConserve(p, events[..n]);
      FinalsAreDeclared(p, events[..n], rid);
      if Enabled(p, Run(p, events[..n]), events[n]) {
        CallStoresFinal(p, Run(p, events[..n]), events[n], rid);
      } else {
        DisabledIsIdle(p, Run(p, events[..n]), events[n]);
      }
    }
  }

  lemma NothingStored(p: Params, rid: RequestId)
    ensures Stored(Begin(p).s, rid) == None
  {
  }

  // The charge of a resident, given what had been fed before call i.
  ghost predicate ChargedFrom(p: Params, events: seq<Event>, w: World, i: nat, rid: RequestId)
    requires |p.replicas| > 0 && p.growth.priorWeight > -1.0
  {
    && LastAbout(p, events, i, rid) && rid in w.s.charge && rid in w.phase && w.phase[rid].InTurn?
    && w.s.charge[rid] == Reserved(p, Samples(p, events[..i]), Stored(w.s, rid), Newest(w.s, rid), w.phase[rid].turn)
  }

  lemma ChargeIsReserved(p: Params, events: seq<Event>, s: State, rid: RequestId, size: real, turn: nat)
    requires |p.replicas| > 0 && p.growth.priorWeight > -1.0 && Valid(p, s) && s.tables == Run(p, events).s.tables
    ensures Charge(p, s, rid, size, turn) == Reserved(p, Samples(p, events), Stored(s, rid), size, turn)
  {
    hide Run, Samples, TablesOk, Growth.Estimate, Growth.KeyOf, Expected, GrowthsLike;
    PredictionsAreExpected(p, events, size, turn);
  }

  // A call about the request itself charges it anew, unless it waits or leaves.
  lemma OwnCall(p: Params, w: World, e: Event)
    requires BooksOk(p, w) && Enabled(p, w, e) && e.rid in Step(p, w, e).s.resident
    ensures var (w', rid) := (Step(p, w, e), e.rid);
            && rid in w'.phase && w'.phase[rid].InTurn? && rid in w'.s.charge && Valid(p, w'.s)
            && w'.s.tables == w.s.tables
            && w'.s.charge[rid] == Charge(p, w'.s, rid, Newest(w'.s, rid), w'.phase[rid].turn)
  {
    hide Step, Segment, Valid, PhasesMatch, Conserved, Charge, Continue, NewestOf, LastTurn, FinalsFollow, Enabled;
    var w' := Step(p, w, e);
    if e.NextTurn? {
      LaterEffect(p, w, e);
      NewestIs(w'.s.history[e.rid], NextOf(w, e.rid));
    } else if e.Measured? {
      MeasuredEffect(p, w, e);
      NewestIs(w'.s.history[e.rid], TurnNow(w, e.rid));
    } else if e.Completed? {
      CompletedEffect(p, w, e);
    } else {
      FirstTurnEffect(p, w, e);
      if !Segment(p, w, e).1.Await? {
        NewestIs(w'.s.history[e.rid], 0);
      }
    }
  }

  lemma LaterCall(p: Params, events: seq<Event>, i: nat, rid: RequestId)
    requires |p.replicas| > 0 && p.growth.priorWeight > -1.0 && |events| > 0
    requires LastAbout(p, events[..|events| - 1], i, rid)
    requires events[|events| - 1].rid == rid ==> !Happens(p, events, |events| - 1)
    ensures LastAbout(p, events, i, rid) && events[..|events| - 1][..i] == events[..i]
  {
    hide Run, Enabled;
    var before := events[..|events| - 1];
    forall j | 0 <= j < |before| ensures before[..j] == events[..j] {
    }
  }

  // Over every run: each resident's charge is what is reserved for its newest size and turn, from
  // what had been fed when it was last booked or measured.
  lemma {:induction false} ChargesAreReserved(p: Params, events: seq<Event>, rid: RequestId) returns (i: nat)
    requires |p.replicas| > 0 && p.growth.priorWeight > -1.0
    requires rid in Run(p, events).s.resident
    ensures ChargedFrom(p, events, Run(p, events), i, rid)
  {
    hide Step, BooksOk, Enabled, Samples, Reserved, Charge, NewestOf;
    var n := |events| - 1;
    var (w, e, before) := (Run(p, events[..n]), events[n], events[..n]);
    RunsConserve(p, before);
    if Enabled(p, w, e) && e.rid == rid {
      i := n;
      OwnCall(p, w, e);
      ChargeIsReserved(p, before, Run(p, events).s, rid, Newest(Run(p, events).s, rid), Run(p, events).phase[rid].turn);
    } else {
      if Enabled(p, w, e) {
        OthersStay(p, w, e, rid);
        ResidentsHaveHistory(p, w, rid);
      } else {
        DisabledIsIdle(p, w, e);
      }
      i := ChargesAreReserved(p, before, rid);
      LaterCall(p, events, i, rid);
    }
  }

  lemma ResidentsHaveHistory(p: Params, w: World, rid: RequestId)
    requires BooksOk(p, w) && rid in w.s.resident
    ensures rid in w.s.history && rid in w.s.charge
  {
    hide Valid, Conserved;
    assert PhaseMatches(w, rid);
  }

  // The same, read off the calls alone: the size and the index are those of the newest turn booked,
  // the final size is the one declared last.
  lemma ResidentsAreChargedExactly(p: Params, events: seq<Event>, rid: RequestId) returns (i: nat)
    requires |p.replicas| > 0 && p.growth.priorWeight > -1.0
    requires rid in Run(p, events).s.resident
    ensures LastAbout(p, events, i, rid)
    ensures var w := Run(p, events);
            && rid in w.s.charge && rid in w.phase && w.phase[rid].InTurn?
            && w.s.charge[rid] == Reserved(p, Samples(p, events[..i]), DeclaredFinal(p, events, rid), Newest(w.s, rid), w.phase[rid].turn)
            && (w.phase[rid].recorded ==>
                  Measurements(p, events, rid) != [] && Newest(w.s, rid) == Measurements(p, events, rid)[|Measurements(p, events, rid)| - 1])
  {
    hide Run, Samples, Reserved, LastAbout, DeclaredFinal, Stored, Measurements, DoneAt, BooksOk, NewestOf, LastTurn;
    i := ChargesAreReserved(p, events, rid);
    FinalsAreDeclared(p, events, rid);
    HistoriesFit(p, events, rid);
    RunsConserve(p, events);
    NewestIsMeasured(p, Run(p, events), rid, Measurements(p, events, rid), DoneAt(p, events, rid));
  }

  lemma NewestIsMeasured(p: Params, w: World, rid: RequestId, sizes: seq<real>, from: nat)
    requires BooksOk(p, w) && rid in w.s.resident && HistoryFits(w, rid, sizes, from)
    ensures w.phase[rid].recorded ==> sizes != [] && Newest(w.s, rid) == sizes[|sizes| - 1]
  {
    hide Valid, PhasesMatch, Conserved, NewestOf, LastTurn;
    HasTurns(w, rid);
  }
}
