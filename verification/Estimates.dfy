// What the estimator predicts, read off the turns it was fed: which earlier turns count as alike,
// and the blended mean and spread of the growth they had ahead of them.

module Estimates {
  import opened Powers
  import opened Growth

  // A finished turn: its size, its index and the growth that its trajectory still had ahead.
  datatype Sample = Sample(size: real, turn: nat, growth: real)

  // Both sizes lie between the same two powers of two, sizes below one counting as one.
  ghost predicate SameOctave(a: real, b: real) {
    exists k: nat :: InOctave(a, k) && InOctave(b, k)
  }

  ghost predicate InOctave(size: real, k: nat) {
    Pow2(k) as real <= (if size > 1.0 then size else 1.0) < Pow2(k + 1) as real
  }

  // Turns that the estimator does not tell apart: of the same index, of sizes in the same octave, or
  // both, by the mode it runs in.
  ghost predicate Alike(mode: ReserveMode, size: real, turn: nat, other: real, index: nat) {
    && (mode != BySize ==> turn == index)
    && (mode != ByTurn ==> SameOctave(size, other))
  }

  // The growths of the samples alike to a turn of this size and index.
  ghost function GrowthsLike(mode: ReserveMode, samples: seq<Sample>, size: real, turn: nat): seq<real> {
    if |samples| == 0 then []
    else
      var last := samples[|samples| - 1];
      GrowthsLike(mode, samples[..|samples| - 1], size, turn)
      + if Alike(mode, size, turn, last.size, last.turn) then [last.growth] else []
  }

  function Sum(xs: seq<real>): real {
    if |xs| == 0 then 0.0 else Sum(xs[..|xs| - 1]) + xs[|xs| - 1]
  }

  // The sum of the squared distances from c.
  function Squares(xs: seq<real>, c: real): real {
    if |xs| == 0 then 0.0 else Squares(xs[..|xs| - 1], c) + (xs[|xs| - 1] - c) * (xs[|xs| - 1] - c)
  }

  // The mean of the growths together with `priorWeight` times the initial guess.
  function ExpectedMean(cfg: Config, xs: seq<real>): real
    requires cfg.priorWeight > -1.0
  {
    if |xs| == 0 then cfg.guess
    else (cfg.priorWeight * cfg.guess + Sum(xs)) / (cfg.priorWeight + |xs| as real)
  }

  // The sample variance, from two samples on.
  function Variance(xs: seq<real>): real
    requires |xs| >= 2
  {
    Squares(xs, Sum(xs) / |xs| as real) / (|xs| as real - 1.0)
  }

  function Expected(cfg: Config, xs: seq<real>): real
    requires cfg.priorWeight > -1.0
  {
    ExpectedMean(cfg, xs) + cfg.z * if |xs| < 2 then 0.0 else cfg.root(Variance(xs))
  }

  // ----- keys

  lemma {:induction false} Pow2Grows(j: nat, k: nat)
    requires j < k
    ensures Pow2(j + 1) <= Pow2(k)
  {
    if j + 1 < k {
      Pow2Grows(j, k - 1);
    }
  }

  lemma OctaveIsBucket(size: real, k: nat)
    ensures InOctave(size, k) <==> SizeBucket(size) == k
  {
    var b := SizeBucket(size);
    BucketRange(size);
    if b < k {
      Pow2Grows(b, k);
    } else if k < b {
      Pow2Grows(k, b);
    }
  }

  // Two turns share a key exactly when they are alike.
  lemma SameKeyExactlyWhenAlike(cfg: Config, size: real, turn: nat, other: real, index: nat)
    ensures KeyOf(cfg, size, turn) == KeyOf(cfg, other, index) <==> Alike(cfg.mode, size, turn, other, index)
  {
    hide SizeBucket, InOctave;
    OctaveIsBucket(size, SizeBucket(size));
    OctaveIsBucket(other, SizeBucket(size));
    forall k: nat | InOctave(size, k) && InOctave(other, k) ensures SizeBucket(size) == SizeBucket(other) {
      OctaveIsBucket(size, k);
      OctaveIsBucket(other, k);
    }
  }

  // ----- samples as observations

  function Observed(cfg: Config, s: Sample): Observation {
    Observation(KeyOf(cfg, s.size, s.turn), s.growth)
  }

  function AllObserved(cfg: Config, samples: seq<Sample>): (obs: seq<Observation>)
    ensures |obs| == |samples|
  {
    if |samples| == 0 then []
    else AllObserved(cfg, samples[..|samples| - 1]) + [Observed(cfg, samples[|samples| - 1])]
  }

  lemma {:induction false} ObservedAppend(cfg: Config, xs: seq<Sample>, ys: seq<Sample>)
    ensures AllObserved(cfg, xs + ys) == AllObserved(cfg, xs) + AllObserved(cfg, ys)
  {
    hide Observed;
    var n := |ys| - 1;
    if n < 0 {
      assert xs + ys == xs;
    } else {
      assert (xs + ys)[..|xs| + n] == xs + ys[..n];
      ObservedAppend(cfg, xs, ys[..n]);
    }
  }

  lemma SumNothing(c: real)
    ensures Sum([]) == 0.0 && Squares([], c) == 0.0
  {
  }

  lemma SumSnoc(xs: seq<real>, x: real, c: real)
    ensures Sum(xs + [x]) == Sum(xs) + x && Squares(xs + [x], c) == Squares(xs, c) + Square(x - c)
  {
    assert (xs + [x])[..|xs|] == xs;
  }

  // The batch statistics of a key are those of the growths of the turns alike to it.
  lemma {:induction false} BatchOfAlike(cfg: Config, samples: seq<Sample>, size: real, turn: nat, c: real)
    ensures var (obs, key, xs) := (AllObserved(cfg, samples), KeyOf(cfg, size, turn), GrowthsLike(cfg.mode, samples, size, turn));
            && Batch(obs, key).n == |xs| && Batch(obs, key).sum == Sum(xs) && Deviation(obs, key, c) == Squares(xs, c)
  {
    hide Alike, KeyOf, Sum, Squares, Square;
    var n := |samples| - 1;
    if n >= 0 {
      var (last, obs) := (samples[n], AllObserved(cfg, samples));
      BatchOfAlike(cfg, samples[..n], size, turn, c);
      SameKeyExactlyWhenAlike(cfg, size, turn, last.size, last.turn);
      assert obs[..n] == AllObserved(cfg, samples[..n]);
      var front := GrowthsLike(cfg.mode, samples[..n], size, turn);
      SumSnoc(front, last.growth, c);
      assert front + [] == front;
      assert obs[n] == Observed(cfg, last);
    } else {
      SumNothing(c);
    }
  }

  // From tables that summarize the samples, the estimate for a turn is the expected growth over the
  // samples alike to it: the blended mean, and z times the root of the sample variance.
  lemma EstimateIsExpected(cfg: Config, t: Tables, samples: seq<Sample>, size: real, turn: nat)
    requires cfg.priorWeight > -1.0 && Summarizes(cfg, t, AllObserved(cfg, samples))
    ensures var key := KeyOf(cfg, size, turn);
            && (key in t.count ==> key in t.m2)
            && Estimate(cfg, t, key) == Expected(cfg, GrowthsLike(cfg.mode, samples, size, turn))
  {
    hide KeyOf, AllObserved, GrowthsLike, Sum, Squares, MeanFits, SpreadFits;
    var (obs, key, xs) := (AllObserved(cfg, samples), KeyOf(cfg, size, turn), GrowthsLike(cfg.mode, samples, size, turn));
    BatchOfAlike(cfg, samples, size, turn, 0.0);
    assert KeyMatches(cfg, t, key, Batch(obs, key));
    if |xs| > 0 {
      OnlineEqualsBatch(cfg, t, obs, key);
      BatchOfAlike(cfg, samples, size, turn, t.rmean[key]);
    }
  }
}
