// The causal growth estimator: online means and variances per key, against the batch statistics
// of everything that was observed.

module Growth {
  import opened Powers

  datatype ReserveMode = ByTurn | BySize | ByTurnAndSize

  datatype Key = TurnKey(turn: nat) | SizeKey(bucket: nat) | TurnSizeKey(turn: nat, bucket: nat)

  datatype Observation = Observation(key: Key, growth: real)

  // `root` stands for the square root taken of the variance.
  datatype Config = Config(guess: real, priorWeight: real, mode: ReserveMode, z: real, root: real -> real)

  datatype Tables = Tables(
    mean: map<Key, real>, meanN: map<Key, real>,
    rmean: map<Key, real>, m2: map<Key, real>, count: map<Key, nat>)

  const EMPTY := Tables(map[], map[], map[], map[], map[])

  function Get<K, V>(m: map<K, V>, k: K, default: V): V {
    if k in m then m[k] else default
  }

  // ----- keys

  function FloorLog2(x: real): nat
    requires x >= 1.0
    decreases x.Floor
  {
    if x < 2.0 then 0 else 1 + FloorLog2(x / 2.0)
  }

  function SizeBucket(size: real): nat {
    FloorLog2(if size > 1.0 then size else 1.0)
  }

  function KeyOf(cfg: Config, size: real, turn: nat): Key {
    match cfg.mode
    case ByTurn => TurnKey(turn)
    case BySize => SizeKey(SizeBucket(size))
    case ByTurnAndSize => TurnSizeKey(turn, SizeBucket(size))
  }

  // Bucket b holds the sizes from 2^b up to, not including, 2^(b+1); sizes below 1 join bucket 0.
  lemma {:induction false} BucketRange(size: real)
    ensures var (b, x) := (SizeBucket(size), if size > 1.0 then size else 1.0);
            Pow2(b) as real <= x < Pow2(b + 1) as real
  {
    FloorLog2Range(if size > 1.0 then size else 1.0);
  }

  lemma {:induction false} FloorLog2Range(x: real)
    requires x >= 1.0
    ensures Pow2(FloorLog2(x)) as real <= x < Pow2(FloorLog2(x) + 1) as real
    decreases x.Floor
  {
    if x >= 2.0 {
      FloorLog2Range(x / 2.0);
    }
  }

  // ----- estimates and observations

  function Mean(cfg: Config, t: Tables, key: Key): real {
    Get(t.mean, key, cfg.guess)
  }

  function Std(cfg: Config, t: Tables, key: Key): real
    requires key in t.count ==> key in t.m2
  {
    var n := Get(t.count, key, 0);
    if n < 2 then 0.0 else cfg.root(t.m2[key] / (n as real - 1.0))
  }

  function Estimate(cfg: Config, t: Tables, key: Key): real
    requires key in t.count ==> key in t.m2
  {
    Mean(cfg, t, key) + cfg.z * Std(cfg, t, key)
  }

  // One step of a running mean that already stands for n samples.
  function Blend(mean: real, x: real, n: real): real
    requires n + 1.0 != 0.0
  {
    mean + (x - mean) / (n + 1.0)
  }

  // One step of Welford's sum of squared deviations.
  function Spread(m2: real, x: real, before: real, after: real): real {
    m2 + (x - before) * (x - after)
  }

  function Observe(cfg: Config, t: Tables, key: Key, growth: real): Tables
    requires Get(t.meanN, key, cfg.priorWeight) + 1.0 != 0.0
  {
    var n := Get(t.meanN, key, cfg.priorWeight);
    var c := Get(t.count, key, 0);
    var rold := Get(t.rmean, key, 0.0);
    var rnew := Blend(rold, growth, c as real);
    Tables(
      t.mean[key := Blend(Mean(cfg, t, key), growth, n)],
      t.meanN[key := n + 1.0],
      t.rmean[key := rnew],
      t.m2[key := Spread(Get(t.m2, key, 0.0), growth, rold, rnew)],
      t.count[key := c + 1])
  }

  // ----- batch statistics

  // How many, their sum and the sum of their squares.
  datatype Stats = Stats(n: nat, sum: real, squares: real)

  function Plus(s: Stats, o: Observation, key: Key): Stats {
    if o.key != key then s
    else Stats(s.n + 1, s.sum + o.growth, s.squares + Square(o.growth))
  }

  function Batch(obs: seq<Observation>, key: Key): Stats {
    if |obs| == 0 then Stats(0, 0.0, 0.0)
    else Plus(Batch(obs[..|obs| - 1], key), obs[|obs| - 1], key)
  }

  function Square(x: real): real {
    x * x
  }

  // The sum of the squared distances from c.
  function Deviation(obs: seq<Observation>, key: Key, c: real): real {
    if |obs| == 0 then 0.0
    else
      var o := obs[|obs| - 1];
      Deviation(obs[..|obs| - 1], key, c)
      + if o.key == key then Square(o.growth - c) else 0.0
  }

  // The numbers of one entry against the statistics of its key: a prior-blended mean, ...
  ghost predicate MeanFits(w: real, guess: real, s: Stats, mean: real, meanN: real) {
    meanN == w + s.n as real && mean * meanN == w * guess + s.sum
  }

  // ... a plain mean, and the squares left over once the plain mean is taken out.
  ghost predicate SpreadFits(s: Stats, rmean: real, m2: real) {
    rmean * s.n as real == s.sum && m2 == s.squares - rmean * s.sum
  }

  ghost predicate KeyMatches(cfg: Config, t: Tables, key: Key, s: Stats) {
    && (key in t.mean <==> s.n > 0) && (key in t.meanN <==> s.n > 0)
    && (key in t.rmean <==> s.n > 0) && (key in t.m2 <==> s.n > 0) && (key in t.count <==> s.n > 0)
    && (s.n == 0 ==> s.sum == 0.0 && s.squares == 0.0)
    && Get(t.count, key, 0) == s.n
    && MeanFits(cfg.priorWeight, cfg.guess, s, Mean(cfg, t, key), Get(t.meanN, key, cfg.priorWeight))
    && SpreadFits(s, Get(t.rmean, key, 0.0), Get(t.m2, key, 0.0))
  }

  // The mean of the samples and of `w` samples of the initial guess.
  function BlendedMean(w: real, guess: real, s: Stats): real
    requires w + s.n as real != 0.0
  {
    (w * guess + s.sum) / (w + s.n as real)
  }

  function PlainMean(s: Stats): real
    requires s.n > 0
  {
    s.sum / s.n as real
  }

  // The tables are what the observations `obs` produce.
  ghost predicate Summarizes(cfg: Config, t: Tables, obs: seq<Observation>) {
    forall key :: KeyMatches(cfg, t, key, Batch(obs, key))
  }

  lemma MeanStep(w: real, g: real, n: real, sum: real, mean: real, x: real)
    requires n + 1.0 > 0.0 && mean * n == w * g + sum
    ensures Blend(mean, x, n) * (n + 1.0) == w * g + (sum + x)
  {
    var d := (x - mean) / (n + 1.0);
    assert d * (n + 1.0) == x - mean;
    assert (mean + d) * (n + 1.0) == mean * (n + 1.0) + d * (n + 1.0);
  }

  lemma WelfordStep(n: real, sum: real, squares: real, r: real, m2: real, x: real)
    requires n >= 0.0 && r * n == sum && m2 == squares - r * sum
    ensures var after := Blend(r, x, n);
            && after * (n + 1.0) == sum + x
            && Spread(m2, x, r, after) == squares + Square(x) - after * (sum + x)
  {
    var d := (x - r) / (n + 1.0);
    var after := r + d;
    assert d * (n + 1.0) == x - r;
    assert after * (n + 1.0) == r * (n + 1.0) + d * (n + 1.0);
    assert r * (sum + x) == r * (after * (n + 1.0));
    assert r * (after * (n + 1.0)) - r * after == after * (r * n);
  }

  lemma MeanFitsStep(w: real, guess: real, s: Stats, mean: real, meanN: real, x: real)
    requires w > -1.0
    requires MeanFits(w, guess, s, mean, meanN)
    ensures meanN + 1.0 > 0.0
    ensures MeanFits(w, guess, Stats(s.n + 1, s.sum + x, s.squares + Square(x)), Blend(mean, x, meanN), meanN + 1.0)
  {
    hide Blend;
    MeanStep(w, guess, meanN, s.sum, mean, x);
  }

  lemma SpreadFitsStep(s: Stats, rmean: real, m2: real, x: real)
    requires SpreadFits(s, rmean, m2)
    ensures var after := Blend(rmean, x, s.n as real);
            SpreadFits(Stats(s.n + 1, s.sum + x, s.squares + Square(x)), after, Spread(m2, x, rmean, after))
  {
    hide Blend, Spread, Square;
    assert (s.n + 1) as real == s.n as real + 1.0;
    WelfordStep(s.n as real, s.sum, s.squares, rmean, m2, x);
  }

  // One online update of an entry keeps it equal to the batch statistics of its key.
  lemma ObserveKey(cfg: Config, t: Tables, o: Observation, s: Stats)
    requires cfg.priorWeight > -1.0
    requires KeyMatches(cfg, t, o.key, s)
    ensures Get(t.meanN, o.key, cfg.priorWeight) + 1.0 > 0.0
    ensures KeyMatches(cfg, Observe(cfg, t, o.key, o.growth), o.key, Plus(s, o, o.key))
  {
    hide MeanFits, SpreadFits, Blend, Spread, Square;
    MeanFitsStep(cfg.priorWeight, cfg.guess, s, Mean(cfg, t, o.key), Get(t.meanN, o.key, cfg.priorWeight), o.growth);
    SpreadFitsStep(s, Get(t.rmean, o.key, 0.0), Get(t.m2, o.key, 0.0), o.growth);
  }

  // The tables stay equal to the batch statistics of everything observed.
  lemma ObserveKeepsSummary(cfg: Config, t: Tables, obs: seq<Observation>, o: Observation)
    requires cfg.priorWeight > -1.0
    requires Summarizes(cfg, t, obs)
    ensures Get(t.meanN, o.key, cfg.priorWeight) + 1.0 > 0.0
    ensures Summarizes(cfg, Observe(cfg, t, o.key, o.growth), obs + [o])
  {
    hide MeanFits, SpreadFits;
    assert KeyMatches(cfg, t, o.key, Batch(obs, o.key));
    ObserveKey(cfg, t, o, Batch(obs, o.key));
    var u := Observe(cfg, t, o.key, o.growth);
    assert (obs + [o])[..|obs|] == obs;
    forall key ensures KeyMatches(cfg, u, key, Batch(obs + [o], key)) {
      assert Batch(obs + [o], key) == Plus(Batch(obs, key), o, key);
      if key != o.key {
        assert KeyMatches(cfg, t, key, Batch(obs, key));
      }
    }
  }

  // The squared distance from c, expanded over the statistics.
  function Expand(s: Stats, c: real): real {
    s.squares - 2.0 * (c * s.sum) + s.n as real * (c * c)
  }

  lemma ExpandSquare(q: real, s: real, n: real, x: real, c: real)
    ensures q + x * x - 2.0 * (c * (s + x)) + (n + 1.0) * (c * c)
            == q - 2.0 * (c * s) + n * (c * c) + (x - c) * (x - c)
  {
    assert (x - c) * (x - c) == x * x - 2.0 * (c * x) + c * c;
    assert c * (s + x) == c * s + c * x;
    assert (n + 1.0) * (c * c) == n * (c * c) + c * c;
  }

  lemma SquareNonNegative(x: real)
    ensures Square(x) >= 0.0
  {
  }

  lemma ExpandStep(s: Stats, x: real, c: real)
    ensures Expand(Stats(s.n + 1, s.sum + x, s.squares + Square(x)), c) == Expand(s, c) + Square(x - c)
  {
    assert (s.n + 1) as real == s.n as real + 1.0;
    ExpandSquare(s.squares, s.sum, s.n as real, x, c);
  }

  lemma {:induction false} DeviationFromStats(obs: seq<Observation>, key: Key, c: real)
    ensures Deviation(obs, key, c) == Expand(Batch(obs, key), c)
    ensures Deviation(obs, key, c) >= 0.0
  {
    if |obs| > 0 {
      hide Expand, Square;
      var (front, o) := (obs[..|obs| - 1], obs[|obs| - 1]);
      DeviationFromStats(front, key, c);
      ExpandStep(Batch(front, key), o.growth, c);
      SquareNonNegative(o.growth - c);
    }
  }

  // The documented meaning of the tables: a prior-blended mean, a plain mean, and the sum of
  // squared deviations from the plain mean, which is never negative.
  lemma OnlineEqualsBatch(cfg: Config, t: Tables, obs: seq<Observation>, key: Key)
    requires cfg.priorWeight > -1.0
    requires Summarizes(cfg, t, obs)
    requires Batch(obs, key).n > 0
    ensures var s := Batch(obs, key);
            && key in t.mean && key in t.rmean && key in t.m2
            && t.mean[key] == BlendedMean(cfg.priorWeight, cfg.guess, s)
            && t.rmean[key] == PlainMean(s)
            && t.m2[key] == Deviation(obs, key, t.rmean[key])
            && t.m2[key] >= 0.0
  {
    var s := Batch(obs, key);
    assert KeyMatches(cfg, t, key, s);
    hide MeanFits, SpreadFits, Expand, BlendedMean, PlainMean;
    FitsMeans(cfg.priorWeight, cfg.guess, s, t.mean[key], t.meanN[key], t.rmean[key], t.m2[key]);
    DeviationFromStats(obs, key, t.rmean[key]);
  }

  lemma FitsMeans(w: real, guess: real, s: Stats, mean: real, meanN: real, rmean: real, m2: real)
    requires w > -1.0 && s.n > 0
    requires MeanFits(w, guess, s, mean, meanN) && SpreadFits(s, rmean, m2)
    ensures mean == BlendedMean(w, guess, s)
    ensures rmean == PlainMean(s)
    ensures m2 == Expand(s, rmean)
  {
    DivideOut(mean, meanN, w * guess + s.sum);
    DivideOut(rmean, s.n as real, s.sum);
    CentredSquares(rmean, s.n as real, s.sum);
  }

  lemma DivideOut(a: real, n: real, b: real)
    requires n != 0.0 && a * n == b
    ensures a == b / n
  {
  }

  lemma CentredSquares(r: real, n: real, sum: real)
    requires r * n == sum
    ensures n * (r * r) == r * sum
  {
    assert n * (r * r) == r * (r * n);
  }

  // ----- order does not matter

  lemma {:induction false} BatchWithout(obs: seq<Observation>, i: nat, key: Key)
    requires i < |obs|
    ensures Batch(obs, key) == Plus(Batch(obs[..i] + obs[i + 1..], key), obs[i], key)
  {
    var n := |obs| - 1;
    if i == n {
      assert obs[..i] + obs[i + 1..] == obs[..n];
    } else {
      hide Plus;
      BatchWithout(obs[..n], i, key);
      BatchSnoc(obs[..n][..i] + obs[..n][i + 1..], obs[n], key);
      assert obs[..n][..i] + obs[..n][i + 1..] + [obs[n]] == obs[..i] + obs[i + 1..];
      PlusCommutes(Batch(obs[..n][..i] + obs[..n][i + 1..], key), obs[i], obs[n], key);
    }
  }

  lemma BatchSnoc(obs: seq<Observation>, o: Observation, key: Key)
    ensures Batch(obs + [o], key) == Plus(Batch(obs, key), o, key)
  {
    assert (obs + [o])[..|obs|] == obs;
  }

  lemma PlusCommutes(s: Stats, a: Observation, b: Observation, key: Key)
    ensures Plus(Plus(s, a, key), b, key) == Plus(Plus(s, b, key), a, key)
  {
  }

  // The last element of a, found in b and dropped from both.
  lemma DropCommon<T>(a: seq<T>, b: seq<T>) returns (i: nat)
    requires |a| > 0 && multiset(a) == multiset(b)
    ensures i < |b| && b[i] == a[|a| - 1]
    ensures multiset(a[..|a| - 1]) == multiset(b[..i] + b[i + 1..])
  {
    var x := a[|a| - 1];
    assert a == a[..|a| - 1] + [x];
    assert x in multiset(b);
    i :| 0 <= i < |b| && b[i] == x;
    assert b == b[..i] + [x] + b[i + 1..];
    var (left, right) := (multiset(a[..|a| - 1]), multiset(b[..i] + b[i + 1..]));
    assert multiset(a) == left + multiset{x} && multiset(b) == right + multiset{x};
    assert left == multiset(a) - multiset{x} && right == multiset(b) - multiset{x};
  }

  lemma {:induction false} BatchIgnoresOrder(a: seq<Observation>, b: seq<Observation>, key: Key)
    requires multiset(a) == multiset(b)
    ensures Batch(a, key) == Batch(b, key)
  {
    hide Plus;
    if |a| == 0 {
      assert |multiset(b)| == 0;
    } else {
      var i := DropCommon(a, b);
      BatchIgnoresOrder(a[..|a| - 1], b[..i] + b[i + 1..], key);
      BatchWithout(b, i, key);
    }
  }

  lemma SameStatsSameEntry(cfg: Config, t: Tables, u: Tables, key: Key, s: Stats)
    requires cfg.priorWeight > -1.0 && s.n > 0
    requires KeyMatches(cfg, t, key, s) && KeyMatches(cfg, u, key, s)
    ensures t.mean[key] == u.mean[key] && t.rmean[key] == u.rmean[key] && t.m2[key] == u.m2[key]
  {
    hide MeanFits, SpreadFits;
    FitsMeans(cfg.priorWeight, cfg.guess, s, t.mean[key], t.meanN[key], t.rmean[key], t.m2[key]);
    FitsMeans(cfg.priorWeight, cfg.guess, s, u.mean[key], u.meanN[key], u.rmean[key], u.m2[key]);
    assert t.mean[key] == u.mean[key] && t.rmean[key] == u.rmean[key] && t.m2[key] == u.m2[key];
  }

  // The same observations in any order leave the same tables, so every later estimate agrees.
  lemma OrderIndependent(cfg: Config, t: Tables, a: seq<Observation>, u: Tables, b: seq<Observation>)
    requires cfg.priorWeight > -1.0
    requires Summarizes(cfg, t, a) && Summarizes(cfg, u, b)
    requires multiset(a) == multiset(b)
    ensures t == u
  {
    forall key
      ensures key in t.mean <==> key in u.mean
      ensures key in t.mean ==> t.mean[key] == u.mean[key]
      ensures key in t.meanN <==> key in u.meanN
      ensures key in t.meanN ==> t.meanN[key] == u.meanN[key]
      ensures key in t.rmean <==> key in u.rmean
      ensures key in t.rmean ==> t.rmean[key] == u.rmean[key]
      ensures key in t.m2 <==> key in u.m2
      ensures key in t.m2 ==> t.m2[key] == u.m2[key]
      ensures key in t.count <==> key in u.count
      ensures key in t.count ==> t.count[key] == u.count[key]
    {
      BatchIgnoresOrder(a, b, key);
      assert KeyMatches(cfg, t, key, Batch(a, key)) && KeyMatches(cfg, u, key, Batch(a, key));
      if Batch(a, key).n > 0 {
        SameStatsSameEntry(cfg, t, u, key, Batch(a, key));
      }
    }
    assert t.mean == u.mean && t.meanN == u.meanN && t.rmean == u.rmean && t.m2 == u.m2 && t.count == u.count;
  }

  // ----- estimates are never negative

  ghost predicate NonNegativeConfig(cfg: Config) {
    && cfg.guess >= 0.0 && cfg.priorWeight >= 0.0 && cfg.z >= 0.0
    && forall v :: v >= 0.0 ==> cfg.root(v) >= 0.0
  }

  ghost predicate NonNegativeGrowth(obs: seq<Observation>) {
    forall i :: 0 <= i < |obs| ==> obs[i].growth >= 0.0
  }

  lemma {:induction false} BatchSumNonNegative(obs: seq<Observation>, key: Key)
    requires NonNegativeGrowth(obs)
    ensures Batch(obs, key).sum >= 0.0
  {
    if |obs| > 0 {
      BatchSumNonNegative(obs[..|obs| - 1], key);
    }
  }

  lemma QuotientNonNegative(a: real, b: real)
    requires a >= 0.0 && b > 0.0
    ensures a / b >= 0.0
  {
  }

  // With non-negative parameters and growths, no reserve derived from the tables is negative.
  lemma EstimateNonNegative(cfg: Config, t: Tables, obs: seq<Observation>, key: Key)
    requires NonNegativeConfig(cfg) && NonNegativeGrowth(obs)
    requires Summarizes(cfg, t, obs)
    ensures key in t.count ==> key in t.m2
    ensures Estimate(cfg, t, key) >= 0.0
  {
    var s := Batch(obs, key);
    assert KeyMatches(cfg, t, key, s);
    if s.n > 0 {
      OnlineEqualsBatch(cfg, t, obs, key);
      BatchSumNonNegative(obs, key);
      assert cfg.priorWeight * cfg.guess >= 0.0;
      QuotientNonNegative(cfg.priorWeight * cfg.guess + s.sum, cfg.priorWeight + s.n as real);
      if s.n >= 2 {
        QuotientNonNegative(t.m2[key], s.n as real - 1.0);
      }
    }
    assert Mean(cfg, t, key) >= 0.0 && Std(cfg, t, key) >= 0.0;
    assert cfg.z * Std(cfg, t, key) >= 0.0;
  }

  // ----- the estimator object

  class GrowthEstimator {
    const config: Config
    var growthMean: map<Key, real>
    var growthMeanN: map<Key, real>
    var growthRmean: map<Key, real>
    var growthM2: map<Key, real>
    var growthCount: map<Key, nat>

    function State(): Tables
      reads this
    {
      Tables(growthMean, growthMeanN, growthRmean, growthM2, growthCount)
    }

    constructor (config: Config)
      ensures this.config == config
      ensures State() == EMPTY
    {
      this.config := config;
      growthMean, growthMeanN, growthRmean, growthM2, growthCount := map[], map[], map[], map[], map[];
    }

    method ObserveGrowth(key: Key, remaining: real)
      requires Get(growthMeanN, key, config.priorWeight) + 1.0 != 0.0
      modifies this
      ensures State() == old(Observe(config, State(), key, remaining))
    {
      hide Blend, Spread;
      var n := Get(growthMeanN, key, config.priorWeight);
      growthMean := growthMean[key := Blend(Get(growthMean, key, config.guess), remaining, n)];
      growthMeanN := growthMeanN[key := n + 1.0];
      var c := Get(growthCount, key, 0) + 1;
      var rold := Get(growthRmean, key, 0.0);
      var rnew := Blend(rold, remaining, (c - 1) as real);
      growthM2 := growthM2[key := Spread(Get(growthM2, key, 0.0), remaining, rold, rnew)];
      growthRmean := growthRmean[key := rnew];
      growthCount := growthCount[key := c];
    }
  }
}
