// Free budgets and the LPT bound: every batch meets it exactly when the budgets are equal.

module Budgets {
  import opened Scheduling

  // Some replica of the greedy placement of this batch carries more than 4/3 - 1/(3m) times what
  // another assignment needs.
  ghost predicate Misses<R(!new)>(replicas: seq<R>, free: map<R, real>, works: seq<real>, other: seq<R>, t: real, r: R)
    requires |replicas| > 0 && forall q :: q in replicas ==> q in free
  {
    && AllAtLeast(works, 0.0) && Descending(works)
    && |other| == |works| && Within(other, replicas) && Makespan(works, other, t)
    && !WithinLptBound(|replicas| as real, Load(works, Greedy(replicas, free, works), r), t)
  }

  // No batch misses the bound.
  ghost predicate AllBatchesFit<R(!new)>(replicas: seq<R>, free: map<R, real>)
    requires |replicas| > 0 && forall q :: q in replicas ==> q in free
  {
    forall works, other, t, r :: !Misses(replicas, free, works, other, t, r)
  }

  // ----- jobs of one size

  ghost predicate AllOf(works: seq<real>, w: real) {
    forall i :: 0 <= i < |works| ==> works[i] == w
  }

  // Loads of jobs of one size are multiples of it.
  lemma {:induction false} LoadIsMultiple<R>(works: seq<real>, at: seq<R>, r: R, w: real) returns (c: nat)
    requires |works| == |at| && AllOf(works, w)
    ensures Load(works, at, r) == c as real * w && c <= |works|
  {
    var n := |works| - 1;
    if n < 0 {
      c := 0;
    } else {
      var c' := LoadIsMultiple(works[..n], at[..n], r, w);
      c := c' + if at[n] == r then 1 else 0;
      assert (c' + 1) as real * w == c' as real * w + w;
    }
  }

  lemma {:induction false} SumOfEqual(works: seq<real>, w: real)
    requires AllOf(works, w)
    ensures Sum(works) == |works| as real * w
  {
    var n := |works| - 1;
    if n >= 0 {
      SumOfEqual(works[..n], w);
      assert |works| as real * w == n as real * w + w;
    }
  }

  // One job on each replica.
  lemma {:induction false} OneEach<R>(works: seq<real>, replicas: seq<R>, w: real, r: R)
    requires |works| == |replicas| && AllOf(works, w) && w >= 0.0 && Distinct(replicas)
    ensures Load(works, replicas, r) <= w
    ensures r !in replicas ==> Load(works, replicas, r) == 0.0
  {
    var n := |works| - 1;
    if n >= 0 {
      OneEach(works[..n], replicas[..n], w, r);
    }
  }

  function Times(n: nat, t: real): real {
    if n == 0 then 0.0 else Times(n - 1, t) + t
  }

  lemma {:induction false} TimesIsProduct(n: nat, t: real)
    ensures Times(n, t) == n as real * t
  {
    if n > 0 {
      TimesIsProduct(n - 1, t);
      assert n as real * t == (n - 1) as real * t + t;
    }
  }

  // With one replica idle, the others carry the total between them.
  lemma {:induction false} SumWithout<R>(works: seq<real>, at: seq<R>, replicas: seq<R>, idle: R, t: real)
    requires |works| == |at| && Load(works, at, idle) == 0.0 && t >= 0.0
    requires forall r :: r in replicas ==> Load(works, at, r) <= t
    ensures SumLoads(works, at, replicas) <= Times(if idle in replicas then |replicas| - 1 else |replicas|, t)
  {
    hide Load;
    var m := |replicas| - 1;
    if m >= 0 {
      assert replicas == replicas[..m] + [replicas[m]];
      SumWithout(works, at, replicas[..m], idle, t);
      assert Load(works, at, replicas[m]) <= t;
    }
  }

  // ----- an unequal pair of budgets

  // While fewer jobs than the gap holds are placed, the poorer replica is never chosen.
  lemma {:induction false} PoorerStaysIdle<R>(replicas: seq<R>, free: map<R, real>, works: seq<real>, w: real, lo: R, hi: R)
    requires |replicas| > 0 && (forall q :: q in replicas ==> q in free) && lo in replicas && hi in replicas
    requires AllOf(works, w) && w >= 0.0
    requires |works| == 0 || (|works| - 1) as real * w < free[hi] - free[lo]
    ensures Load(works, Greedy(replicas, free, works), lo) == 0.0
  {
    hide Load, Remaining, ArgMax;
    var n := |works| - 1;
    if n < 0 {
      LoadUnused(works, Greedy(replicas, free, works), lo);
    } else {
      Smaller(n, w);
      PoorerStaysIdle(replicas, free, works[..n], w, lo, hi);
      PoorerIsPassedOver(replicas, free, works[..n], Greedy(replicas, free, works[..n]), w, lo, hi);
      LoadElsewhere(works, Greedy(replicas, free, works), lo);
    }
  }

  // With an idle poorer replica and jobs that do not fill the gap, the next one goes elsewhere.
  lemma PoorerIsPassedOver<R>(replicas: seq<R>, free: map<R, real>, works: seq<real>, at: seq<R>, w: real, lo: R, hi: R)
    requires |replicas| > 0 && (forall q :: q in replicas ==> q in free) && lo in replicas && hi in replicas
    requires |works| == |at| && AllOf(works, w) && w >= 0.0
    requires |works| as real * w < free[hi] - free[lo]
    requires Load(works, at, lo) == 0.0
    ensures ArgMax(replicas, Remaining(replicas, free, works, at)) != lo
  {
    hide Load, ArgMax;
    LoadIsAtMostAll(works, at, hi, w);
    var score := Remaining(replicas, free, works, at);
    assert score[lo] < score[hi] <= score[ArgMax(replicas, score)];
  }

  lemma LoadIsAtMostAll<R>(works: seq<real>, at: seq<R>, r: R, w: real)
    requires |works| == |at| && AllOf(works, w) && w >= 0.0
    ensures Load(works, at, r) <= |works| as real * w
  {
    hide Load;
    var c := LoadIsMultiple(works, at, r, w);
    MoreIsMore(c, |works|, w);
  }

  // A job placed on another replica leaves the load of this one.
  lemma LoadElsewhere<R>(works: seq<real>, at: seq<R>, r: R)
    requires |works| == |at| > 0 && at[|at| - 1] != r
    ensures Load(works, at, r) == Load(works[..|works| - 1], at[..|at| - 1], r)
  {
  }

  lemma Smaller(n: int, w: real)
    requires w >= 0.0
    ensures (n - 1) as real * w <= n as real * w
  {
    assert n as real * w == (n - 1) as real * w + w;
  }

  lemma MoreIsMore(c: nat, n: nat, w: real)
    requires c <= n && w >= 0.0
    ensures c as real * w <= n as real * w
  {
  }

  lemma GapArithmetic(m: nat, gap: real) returns (w: real)
    requires m > 0 && gap > 0.0
    ensures w > 0.0 && m as real * w == gap && (m - 1) as real * w < gap
  {
    w := gap / m as real;
    assert (m - 1) as real * w == m as real * w - w;
  }

  lemma TwiceIsTooMuch(m: nat, c: nat, w: real)
    requires m > 0 && w > 0.0 && c as real * w > w
    ensures !WithinLptBound(m as real, c as real * w, w)
  {
    assert c >= 2;
    assert c as real * w >= 2.0 * w;
    var (x, l) := (m as real, c as real * w);
    assert x * l >= x * (2.0 * w) == 2.0 * (x * w);
    assert (4.0 * x - 1.0) * w == 4.0 * (x * w) - w;
    assert 3.0 * x * l == 3.0 * (x * l);
    assert x * w > 0.0;
  }

  lemma SumExceeds(m: nat, w: real)
    requires m > 0 && w > 0.0
    ensures (m - 1) as real * w < m as real * w
  {
    assert m as real * w == (m - 1) as real * w + w;
  }

  // One job for each replica, but none for one of them: some replica takes two.
  lemma SomeoneTakesTwo<R(!new)>(works: seq<real>, at: seq<R>, replicas: seq<R>, w: real, idle: R)
    requires |works| == |at| == |replicas| > 0 && AllOf(works, w) && w > 0.0
    requires Distinct(replicas) && Within(at, replicas) && idle in replicas && Load(works, at, idle) == 0.0
    ensures exists r :: r in replicas && Load(works, at, r) > w
  {
    hide Load, SumLoads, Sum;
    LoadsAddUp(works, at, replicas);
    SumOfEqual(works, w);
    SumExceeds(|replicas|, w);
    TimesIsProduct(|replicas| - 1, w);
    if forall q :: q in replicas ==> Load(works, at, q) <= w {
      SumWithout(works, at, replicas, idle, w);
      assert false;
    }
  }

  // As many jobs as there are replicas, each too small to fill the gap: all avoid the poorer
  // replica, so one replica takes two where one each was possible.
  lemma SmallJobsMiss<R(!new)>(replicas: seq<R>, free: map<R, real>, works: seq<real>, w: real, lo: R, hi: R) returns (r: R)
    requires |works| == |replicas| > 0 && Distinct(replicas) && (forall q :: q in replicas ==> q in free)
    requires lo in replicas && hi in replicas
    requires AllOf(works, w) && w > 0.0 && (|replicas| - 1) as real * w < free[hi] - free[lo]
    ensures r in replicas && Misses(replicas, free, works, replicas, w, r)
  {
    hide Load, SumLoads, Sum, Greedy, WithinLptBound;
    var at := Greedy(replicas, free, works);
    PoorerStaysIdle(replicas, free, works, w, lo, hi);
    SomeoneTakesTwo(works, at, replicas, w, lo);
    r :| r in replicas && Load(works, at, r) > w;
    var c := LoadIsMultiple(works, at, r, w);
    TwiceIsTooMuch(|replicas|, c, w);
    forall q ensures Load(works, replicas, q) <= w {
      OneEach(works, replicas, w, q);
    }
  }

  lemma UnequalBudgetsMiss<R(!new)>(replicas: seq<R>, free: map<R, real>, lo: R, hi: R)
      returns (works: seq<real>, other: seq<R>, t: real, r: R)
    requires |replicas| > 0 && Distinct(replicas) && (forall q :: q in replicas ==> q in free)
    requires lo in replicas && hi in replicas && free[lo] < free[hi]
    ensures Misses(replicas, free, works, other, t, r)
  {
    hide Misses;
    t := GapArithmetic(|replicas|, free[hi] - free[lo]);
    works, other := seq(|replicas|, i => t), replicas;
    r := SmallJobsMiss(replicas, free, works, t, lo, hi);
  }

  // Every batch meets the bound exactly when the replicas start with equal free budgets.
  lemma EqualBudgetsExactlyWhen<R(!new)>(replicas: seq<R>, free: map<R, real>)
    requires |replicas| > 0 && Distinct(replicas) && forall q :: q in replicas ==> q in free
    ensures AllBatchesFit(replicas, free) <==> EqualFree(replicas, free)
  {
    if EqualFree(replicas, free) {
      forall works, other, t, r ensures !Misses(replicas, free, works, other, t, r) {
        if AllAtLeast(works, 0.0) && Descending(works) && |other| == |works| && Within(other, replicas) && Makespan(works, other, t) {
          GreedyIsLeastLoaded(replicas, free, works);
          LptBound(replicas, works, Greedy(replicas, free, works), other, t, r);
        }
      }
    } else {
      var a, b :| a in replicas && b in replicas && free[a] != free[b];
      var (lo, hi) := if free[a] < free[b] then (a, b) else (b, a);
      var works, other, t, r := UnequalBudgetsMiss(replicas, free, lo, hi);
      assert Misses(replicas, free, works, other, t, r);
    }
  }

  // Free budgets 10 and 0 and two jobs of 4: both go to the richer replica, which carries 8 where
  // 4 is possible.
  lemma GapOfTenMisses()
    ensures var (replicas, free, works) := ([0, 1], map[0 := 10.0, 1 := 0.0], [4.0, 4.0]);
            && Greedy(replicas, free, works) == [0, 0]
            && Load(works, Greedy(replicas, free, works), 0) == 8.0
            && Misses(replicas, free, works, [0, 1], 4.0, 0)
  {
    hide Load, Greedy;
    GapOfTenPlaces();
    forall r: int ensures Load([4.0, 4.0], [0, 1], r) <= 4.0 {
      LoadOfTwo(0, 1, r);
    }
    LoadOfTwo(0, 0, 0);
  }

  lemma LoadOfTwo(i: int, j: int, r: int)
    ensures Load([4.0], [i], r) == if i == r then 4.0 else 0.0
    ensures Load([4.0, 4.0], [i, j], r) == (if i == r then 4.0 else 0.0) + if j == r then 4.0 else 0.0
  {
    assert [4.0][..0] == [] && [i][..0] == [];
    assert [4.0, 4.0][..1] == [4.0] && [i, j][..1] == [i];
  }

  lemma GapOfTenPlaces()
    ensures Greedy([0, 1], map[0 := 10.0, 1 := 0.0], [4.0, 4.0]) == [0, 0]
  {
    hide Load;
    var (replicas, free) := ([0, 1], map[0 := 10.0, 1 := 0.0]);
    LoadUnused([], [], 0);
    LoadUnused([], [], 1);
    LoadOfTwo(0, 0, 0);
    LoadOfTwo(0, 0, 1);
    assert replicas[..1] == [0] && [4.0][..0] == [] && [4.0, 4.0][..1] == [4.0];
    assert ArgMax(replicas, Remaining(replicas, free, [], [])) == 0;
    assert Greedy(replicas, free, [4.0]) == [0];
    assert ArgMax(replicas, Remaining(replicas, free, [4.0], [0])) == 0;
  }
}
