// Deterministic prompt token ids: a linear congruential generator whose high bits are reduced to
// a vocabulary range.

module Prompts {
  import opened Text
  import opened Powers

  const MULTIPLIER: nat := 6364136223846793005
  const INCREMENT: nat := 1442695040888963407
  const WORD: nat := 0x1_0000_0000_0000_0000

  // One step of the 64-bit generator.
  function Next(state: nat): (s: nat)
    ensures s < WORD
  {
    (state * MULTIPLIER + INCREMENT) % WORD
  }

  function StateAt(state: nat, k: nat): nat {
    if k == 0 then state else Next(StateAt(state, k - 1))
  }

  // The seed the generator starts from: zero is replaced by one.
  function Effective(seed: nat): nat {
    if seed == 0 then 1 else seed
  }

  // The remainder with the sign of the divisor.
  function FloorMod(a: nat, b: int): int
    requires b != 0
  {
    if b > 0 then a % b else if a % -b == 0 then 0 else a % -b + b
  }

  // The id at position k.
  function IdAt(seed: nat, k: nat, lo: int, hi: int): int
    requires lo != hi
  {
    lo + FloorMod(StateAt(Effective(seed), k + 1) / 0x2_0000_0000, hi - lo)
  }

  // The length asked for, and at least one.
  function Length(n: int): nat {
    if n < 1 then 1 else n
  }

  // An empty vocabulary range divides by zero.
  method NestedPromptIds(seed: nat, n: int, lo: int, hi: int) returns (ids: Option<seq<int>>)
    ensures ids.None? <==> lo == hi
    ensures ids.Some? ==> |ids.value| == Length(n) && forall k :: 0 <= k < Length(n) ==> ids.value[k] == IdAt(seed, k, lo, hi)
  {
    var length := Length(n);
    var span := hi - lo;
    if span == 0 {
      return None;
    }
    var state := Effective(seed);
    var out: seq<int> := [];
    for k := 0 to length
      invariant state == StateAt(Effective(seed), k)
      invariant |out| == k && forall j :: 0 <= j < k ==> out[j] == IdAt(seed, j, lo, hi)
    {
      state := Next(state);
      out := out + [lo + FloorMod(state / 0x2_0000_0000, span)];
    }
    ids := Some(out);
  }

  function Ids(seed: nat, n: int, lo: int, hi: int): (ids: seq<int>)
    requires lo != hi
    ensures |ids| == Length(n)
  {
    seq(Length(n), k requires 0 <= k < Length(n) => IdAt(seed, k, lo, hi))
  }

  // A shorter prompt of a conversation is a prefix of every longer one.
  lemma PromptsNest(seed: nat, n: int, m: int, lo: int, hi: int)
    requires lo != hi && n <= m
    ensures Ids(seed, n, lo, hi) == Ids(seed, m, lo, hi)[..Length(n)]
  {
    hide IdAt;
  }

  // The ids lie in the vocabulary range when there is one; over a reversed range they lie in the
  // mirrored half-open range instead.
  lemma IdsInRange(seed: nat, k: nat, lo: int, hi: int)
    requires lo != hi
    ensures lo <= IdAt(seed, k, lo, hi) < hi <==> lo < hi
    ensures hi < lo ==> hi < IdAt(seed, k, lo, hi) <= lo
  {
  }

  // Every id is made of the upper 31 bits of its state, whatever the lower 33 are: those bits, less
  // as many spans as bring them into the range.
  lemma IdsAreHighBits(seed: nat, k: nat, lo: int, hi: int) returns (high: nat, low: nat, spans: int)
    requires lo != hi
    ensures StateAt(Effective(seed), k + 1) == high * 8589934592 + low && low < 8589934592
    ensures high < 2147483648
    ensures IdAt(seed, k, lo, hi) == lo + high - spans * (hi - lo)
    ensures if lo < hi then lo <= IdAt(seed, k, lo, hi) < hi else hi < IdAt(seed, k, lo, hi) <= lo
  {
    hide Next;
    var state := StateAt(Effective(seed), k + 1);
    assert state == Next(StateAt(Effective(seed), k)) < WORD;
    high, low := state / 8589934592, state % 8589934592;
    spans := SpansOf(high, hi - lo);
  }

  lemma SpansOf(a: nat, b: int) returns (q: int)
    requires b != 0
    ensures FloorMod(a, b) == a - q * b
  {
    if b > 0 {
      q := a / b;
    } else {
      q := if a % -b == 0 then -(a / -b) else -(a / -b) - 1;
    }
  }

  lemma FirstStates()
    ensures Next(1) == 7806831264735756412
    ensures Next(7806831264735756412) == 9396908728118811419
    ensures Next(9396908728118811419) == 11960119808228829710
  {
  }

  lemma FirstStateAts()
    ensures StateAt(1, 1) == 7806831264735756412
    ensures StateAt(1, 2) == 9396908728118811419
    ensures StateAt(1, 3) == 11960119808228829710
  {
    hide Next;
    FirstStates();
    assert StateAt(1, 0) == 1;
  }

  // The first ids of the conversations whose seed is 0 or 1, over the default range.
  lemma FirstIds(seed: nat)
    requires seed <= 1
    ensures Ids(seed, 3, 10, 30000) == [17824, 28923, 25466]
  {
    hide Next, StateAt;
    FirstStateAts();
    assert Effective(seed) == 1;
    assert IdAt(seed, 0, 10, 30000) == 17824;
    assert IdAt(seed, 1, 10, 30000) == 28923;
    assert IdAt(seed, 2, 10, 30000) == 25466;
  }

  // ----- the step is a permutation

  // The inverse of the multiplier modulo the word size.
  const INVERSE: nat := 13877824140714322085

  function Previous(state: nat): nat {
    (state + (WORD - INCREMENT)) * INVERSE % WORD
  }

  lemma MultipleMod(x: int, q: int, m: nat)
    requires m > 0
    ensures (x + q * m) % m == x % m
  {
    ModUnique(x + q * m, m, x / m + q, x % m);
  }

  lemma ModTimes(x: int, y: int, m: nat)
    requires m > 0
    ensures (x % m) * y % m == x * y % m
  {
    var q := x / m;
    assert x * y == (x % m) * y + q * y * m;
    MultipleMod((x % m) * y, q * y, m);
  }

  lemma ModPlus(x: int, y: int, m: nat)
    requires m > 0
    ensures (x % m + y) % m == (x + y) % m
  {
    assert x + y == x % m + y + x / m * m;
    MultipleMod(x % m + y, x / m, m);
  }

  // Every 64-bit state has exactly one predecessor.
  lemma StepIsPermutation(state: nat)
    requires state < WORD
    ensures Previous(state) < WORD
    ensures Next(Previous(state)) == state
    ensures Previous(Next(state)) == state
  {
    PreviousOfNext(state);
    NextOfPrevious(state);
  }

  lemma Cancel(w: int, a: int, b: int, m: int, q: int)
    requires a * b == q * m + 1
    ensures w * a * b == w + w * q * m
  {
    assert w * a * b == w * (a * b);
    assert w * (q * m + 1) == w * q * m + w;
  }

  lemma UndoAlgebra(x: int, a: int, b: int, m: int, q: int)
    requires a * b == q * m + 1
    ensures (x * a + m) * b == (x * q + b) * m + x
  {
    Cancel(x, a, b, m, q);
    assert (x * a + m) * b == x * a * b + m * b;
    assert (x * q + b) * m == x * q * m + b * m;
  }

  lemma ReachAlgebra(w: int, a: int, b: int, c: int, m: int, q: int)
    requires a * b == q * m + 1
    ensures w * b * a + c == (w * q) * m + (w + c)
  {
    assert b * a == a * b;
    Cancel(w, b, a, m, q);
  }

  // Congruent numbers stay congruent when multiplied; the result is read off a known multiple.
  lemma Reduced(u: int, z: int, b: int, m: nat, k: int, x: nat)
    requires m > 0 && u % m == z % m && z * b == k * m + x && x < m
    ensures u * b % m == x
  {
    ModTimes(u, b, m);
    ModTimes(z, b, m);
    ModUnique(z * b, m, k, x);
  }

  // An affine step x -> a*x + c modulo m is undone by its inverse factor b.
  lemma AffineUndone(x: nat, a: nat, b: nat, c: nat, m: nat, q: nat)
    requires x < m && c <= m && a * b == q * m + 1
    ensures ((x * a + c) % m + (m - c)) * b % m == x
  {
    ModPlus(x * a + c, m - c, m);
    UndoAlgebra(x, a, b, m, q);
    Reduced((x * a + c) % m + (m - c), x * a + m, b, m, x * q + b, x);
  }

  lemma StepOfReduced(v: int, a: int, c: int, m: nat, k: int, y: nat)
    requires m > 0 && v * a + c == k * m + y && y < m
    ensures (v % m * a + c) % m == y
  {
    ModTimes(v, a, m);
    ModPlus(v % m * a, c, m);
    ModPlus(v * a, c, m);
    ModUnique(v * a + c, m, k, y);
  }

  lemma AffineReached(y: nat, a: nat, b: nat, c: nat, m: nat, q: nat)
    requires y < m && c <= m && a * b == q * m + 1
    ensures ((y + (m - c)) * b % m * a + c) % m == y
  {
    var w := y + (m - c);
    ReachAlgebra(w, a, b, c, m, q);
    OneMore(w * q, m, y);
    StepOfReduced(w * b, a, c, m, w * q + 1, y);
  }

  lemma OneMore(k: int, m: int, y: int)
    ensures (k + 1) * m + y == k * m + (m + y)
  {
  }

  lemma PreviousOfNext(state: nat)
    requires state < WORD
    ensures Previous(Next(state)) == state
  {
    AffineUndone(state, MULTIPLIER, INVERSE, INCREMENT, WORD, 4787856489426250814);
  }

  lemma NextOfPrevious(state: nat)
    requires state < WORD
    ensures Next(Previous(state)) == state
  {
    AffineReached(state, MULTIPLIER, INVERSE, INCREMENT, WORD, 4787856489426250814);
  }

  // Different states stay different at every position.
  lemma {:induction false} StatesStayDistinct(s: nat, t: nat, k: nat)
    requires s < WORD && t < WORD && s != t
    ensures StateAt(s, k) != StateAt(t, k) && StateAt(s, k) < WORD && StateAt(t, k) < WORD
  {
    if k > 0 {
      StatesStayDistinct(s, t, k - 1);
      PreviousOfNext(StateAt(s, k - 1));
      PreviousOfNext(StateAt(t, k - 1));
    }
  }

  // Conversations with different 64-bit seeds never meet, except that seeds zero and one are the same.
  lemma SeedsStayDistinct(a: nat, b: nat, k: nat)
    requires a < WORD && b < WORD
    ensures StateAt(Effective(a), k) == StateAt(Effective(b), k) <==> a == b || (a <= 1 && b <= 1)
  {
    if Effective(a) != Effective(b) {
      StatesStayDistinct(Effective(a), Effective(b), k);
    }
  }

  // ----- the period is the whole word

  // 1 + A + A^2 + ... with n terms, A the multiplier.
  function Series(n: nat): nat {
    if n == 0 then 0 else MULTIPLIER * Series(n - 1) + 1
  }

  // How far one step from `state` reaches, before reduction.
  function Stride(state: nat): nat {
    (MULTIPLIER - 1) * state + INCREMENT
  }

  lemma {:induction false} StateBySeries(state: nat, n: nat)
    requires state < WORD
    ensures StateAt(state, n) == (state + Series(n) * Stride(state)) % WORD
  {
    if n > 0 {
      StateBySeries(state, n - 1);
      var (s, d) := (Series(n - 1), Stride(state));
      SeriesStep(state, s, MULTIPLIER, INCREMENT);
      StepReduces(state + s * d, MULTIPLIER, INCREMENT, WORD);
    }
  }

  lemma StepReduces(x: int, a: int, c: int, m: nat)
    requires m > 0
    ensures (x % m * a + c) % m == (x * a + c) % m
  {
    ModTimes(x, a, m);
    ModPlus(x % m * a, c, m);
    ModPlus(x * a, c, m);
  }

  lemma SeriesStep(state: int, series: int, a: int, c: int)
    ensures var stride := (a - 1) * state + c;
            (state + series * stride) * a + c == state + (a * series + 1) * stride
  {
    var stride := (a - 1) * state + c;
    assert (a * series + 1) * stride == a * (series * stride) + stride;
    assert (state + series * stride) * a == state * a + a * (series * stride);
    assert stride == a * state - state + c;
  }

  lemma {:induction false} SeriesAdds(m: nat, n: nat)
    ensures Series(m + n) == Series(n) + Series(m) * (1 + (MULTIPLIER - 1) * Series(n))
  {
    if m > 0 {
      SeriesAdds(m - 1, n);
      SeriesAddsStep(Series(m - 1), Series(n));
    }
  }

  lemma SeriesAddsStep(x: nat, y: nat)
    ensures MULTIPLIER * (y + x * (1 + (MULTIPLIER - 1) * y)) + 1 == y + (MULTIPLIER * x + 1) * (1 + (MULTIPLIER - 1) * y)
  {
    var w := 1 + (MULTIPLIER - 1) * y;
    assert (MULTIPLIER * x + 1) * w == MULTIPLIER * (x * w) + w;
  }

  lemma {:induction false} SeriesParity(n: nat)
    ensures Series(n) % 2 == n % 2
  {
    if n > 0 {
      SeriesParity(n - 1);
      SeriesIs(n);
      hide Series;
      ParityStep(Series(n - 1), n);
    }
  }

  lemma SeriesIs(n: nat)
    requires n > 0
    ensures Series(n) == MULTIPLIER * Series(n - 1) + 1
  {
  }

  lemma ParityStep(x: nat, n: nat)
    requires n > 0 && x % 2 == (n - 1) % 2
    ensures (MULTIPLIER * x + 1) % 2 == n % 2
  {
    OddTimesParity(x);
  }

  lemma OddTimesParity(x: nat)
    ensures (MULTIPLIER * x + 1) % 2 == (x + 1) % 2
  {
    assert MULTIPLIER * x + 1 == 2 * (3182068111923396502 * x) + (x + 1);
  }

  // One more than twice an even multiple of s: the odd factor that doubling the length brings in.
  function OddPart(s: nat): nat {
    2 * (1591034055961698251 * s) + 1
  }

  lemma OddPartIsOdd(s: nat)
    ensures OddPart(s) % 2 == 1
  {
    TwiceAndOne(1591034055961698251 * s);
  }

  lemma TwiceAndOne(h: int)
    ensures (2 * h + 1) % 2 == 1
  {
  }

  lemma SeriesDoubles(m: nat)
    ensures Series(m + m) == 2 * (OddPart(Series(m)) * Series(m))
  {
    SeriesAdds(m, m);
    HalvesAdd(Series(m));
  }

  lemma HalvesAdd(s: nat)
    ensures s + s * (1 + (MULTIPLIER - 1) * s) == 2 * (OddPart(s) * s)
  {
    var h := 1591034055961698251 * s;
    assert (MULTIPLIER - 1) * s == 4 * h;
    assert s * (1 + 4 * h) == s + 4 * (h * s);
    assert (2 * h + 1) * s == 2 * (h * s) + s;
  }

  // The series is divisible by exactly the powers of two that divide its length, because the
  // multiplier is one more than a multiple of four.
  lemma {:induction false} SeriesDivisibility(k: nat, n: nat)
    ensures Series(n) % Pow2(k) == 0 <==> n % Pow2(k) == 0
  {
    if k == 0 {
      assert Pow2(0) == 1;
    } else {
      assert Pow2(k) == 2 * Pow2(k - 1);
      hide Pow2, Series;
      var p := Pow2(k - 1);
      if n % 2 == 1 {
        SeriesParity(n);
        OddIsNoMultiple(n, p);
        OddIsNoMultiple(Series(n), p);
      } else {
        SeriesDivisibility(k - 1, n / 2);
        DoublesDivisibility(k - 1, n / 2);
        assert n / 2 + n / 2 == n;
      }
    }
  }

  lemma DoublesDivisibility(k: nat, m: nat)
    requires Series(m) % Pow2(k) == 0 <==> m % Pow2(k) == 0
    ensures Series(m + m) % (2 * Pow2(k)) == 0 <==> (m + m) % (2 * Pow2(k)) == 0
  {
    hide Pow2, Series, OddPart;
    var p := Pow2(k);
    var (x, y) := (Series(m), OddPart(Series(m)) * Series(m));
    SeriesDoubles(m);
    DoubledMod(y, p);
    DoubledMod(m, p);
    OddPartIsOdd(x);
    OddFactor(k, OddPart(x), x);
  }

  lemma StrideIsOdd(state: nat)
    ensures Stride(state) % 2 == 1
  {
    assert Stride(state) == 2 * (3182068111923396502 * state + 721347520444481703) + 1;
  }

  lemma Returns(state: nat, n: nat)
    requires state < WORD
    ensures StateAt(state, n) == state <==> n % WORD == 0
  {
    hide StateAt, Series, Stride;
    StateBySeries(state, n);
    var x := Series(n) * Stride(state);
    Pow2Is64();
    StrideIsOdd(state);
    OddFactor(64, Stride(state), Series(n));
    SeriesDivisibility(64, n);
    assert x == Stride(state) * Series(n);
    SameIffMultiple(state, x);
  }

  lemma SameIffMultiple(state: nat, x: nat)
    requires state < WORD
    ensures (state + x) % WORD == state <==> x % WORD == 0
  {
    var (q, r) := (x / WORD, x % WORD);
    assert x == q * WORD + r;
    MultipleMod(state + r, q, WORD);
  }

  lemma {:induction false} StateAdds(state: nat, i: nat, n: nat)
    ensures StateAt(state, i + n) == StateAt(StateAt(state, i), n)
  {
    if n > 0 {
      StateAdds(state, i, n - 1);
      assert i + n - 1 == i + (n - 1);
    }
  }

  lemma {:induction false} StateInWord(state: nat, k: nat)
    requires state < WORD
    ensures StateAt(state, k) < WORD
  {
  }

  // A state comes back after exactly the multiples of 2^64 steps: no prompt repeats a state sooner.
  lemma FullPeriod(state: nat, i: nat, j: nat)
    requires state < WORD && i <= j
    ensures StateAt(state, i) == StateAt(state, j) <==> (j - i) % WORD == 0
  {
    StateInWord(state, i);
    StateAdds(state, i, j - i);
    Returns(StateAt(state, i), j - i);
  }
}
