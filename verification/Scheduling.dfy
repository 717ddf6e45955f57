// Greedy list scheduling onto replicas, and how far it is from the best assignment.
// Used by the windowed LPT batch of the admission ledger.

module Scheduling {

  function Sum(xs: seq<real>): real {
    if |xs| == 0 then 0.0 else Sum(xs[..|xs| - 1]) + xs[|xs| - 1]
  }

  // The work that assignment `at` puts on replica r.
  function Load<R(==)>(works: seq<real>, at: seq<R>, r: R): real
    requires |works| == |at|
  {
    var n := |works| - 1;
    if n < 0 then 0.0
    else Load(works[..n], at[..n], r) + if at[n] == r then works[n] else 0.0
  }

  ghost function SumLoads<R>(works: seq<real>, at: seq<R>, replicas: seq<R>): real
    requires |works| == |at|
  {
    var n := |replicas| - 1;
    if n < 0 then 0.0 else SumLoads(works, at, replicas[..n]) + Load(works, at, replicas[n])
  }

  ghost predicate Distinct<R>(rs: seq<R>) {
    forall i, j :: 0 <= i < j < |rs| ==> rs[i] != rs[j]
  }

  ghost predicate Within<R>(at: seq<R>, replicas: seq<R>) {
    forall i :: 0 <= i < |at| ==> at[i] in replicas
  }

  ghost predicate AllAtLeast(works: seq<real>, p: real) {
    forall i :: 0 <= i < |works| ==> p <= works[i]
  }

  ghost predicate Descending(works: seq<real>) {
    forall i, j :: 0 <= i <= j < |works| ==> works[j] <= works[i]
  }

  // No replica of assignment `at` carries more than t.
  ghost predicate Makespan<R(!new)>(works: seq<real>, at: seq<R>, t: real)
    requires |works| == |at|
  {
    forall r :: Load(works, at, r) <= t
  }

  // The first candidate of the largest score, as a scan with a strict comparison finds it.
  function ArgMax<R(==)>(candidates: seq<R>, score: map<R, real>): (best: R)
    requires |candidates| > 0
    requires forall r :: r in candidates ==> r in score
    ensures best in candidates
    ensures forall r :: r in candidates ==> score[r] <= score[best]
  {
    var n := |candidates| - 1;
    if n == 0 then candidates[0]
    else
      var front := ArgMax(candidates[..n], score);
      if score[candidates[n]] > score[front] then candidates[n] else front
  }

  // Ties go to the earliest candidate.
  lemma {:induction false} ArgMaxIsFirst<R>(candidates: seq<R>, score: map<R, real>, k: nat)
    requires |candidates| > 0
    requires forall r :: r in candidates ==> r in score
    requires k < |candidates| && score[candidates[k]] == score[ArgMax(candidates, score)]
    ensures ArgMax(candidates, score) in candidates[..k + 1]
  {
    var n := |candidates| - 1;
    if k < n {
      assert candidates[k] in candidates[..n];
      ArgMaxIsFirst(candidates[..n], score, k);
      assert candidates[..n][..k + 1] == candidates[..k + 1];
    } else {
      assert candidates[..k + 1] == candidates;
    }
  }

  // Place the works in the given order, each onto the replica with the most free budget
  // once the works placed before it are charged.
  function Greedy<R(==)>(replicas: seq<R>, free: map<R, real>, works: seq<real>): (at: seq<R>)
    requires |replicas| > 0
    requires forall r :: r in replicas ==> r in free
    ensures |at| == |works|
    ensures Within(at, replicas)
  {
    var n := |works| - 1;
    if n < 0 then []
    else
      var before := Greedy(replicas, free, works[..n]);
      before + [ArgMax(replicas, Remaining(replicas, free, works[..n], before))]
  }

  function Remaining<R(==)>(replicas: seq<R>, free: map<R, real>, works: seq<real>, at: seq<R>): map<R, real>
    requires forall r :: r in replicas ==> r in free
    requires |works| == |at|
  {
    map r | r in replicas :: free[r] - Load(works, at, r)
  }

  // The load of r when job j is about to be placed.
  ghost function LoadBefore<R>(works: seq<real>, at: seq<R>, j: nat, r: R): real
    requires |works| == |at| && j <= |works|
  {
    Load(works[..j], at[..j], r)
  }

  // Every job went to a replica that no other was emptier than at that moment.
  ghost predicate LeastLoadedEachTime<R>(replicas: seq<R>, works: seq<real>, at: seq<R>)
    requires |works| == |at|
  {
    forall j, q {:trigger LoadBefore(works, at, j, q)} :: 0 <= j < |works| && q in replicas ==>
      LoadBefore(works, at, j, at[j]) <= LoadBefore(works, at, j, q)
  }

  ghost predicate EqualFree<R>(replicas: seq<R>, free: map<R, real>) {
    forall r, q :: r in replicas && q in replicas && r in free && q in free ==> free[r] == free[q]
  }

  // ----- sums and loads

  lemma {:induction false} LoadUnused<R>(works: seq<real>, at: seq<R>, r: R)
    requires |works| == |at|
    requires r !in at
    ensures Load(works, at, r) == 0.0
  {
    var n := |works| - 1;
    if n >= 0 {
      LoadUnused(works[..n], at[..n], r);
    }
  }

  // Nothing is lost and nothing is counted twice: the loads add up to the work.
  lemma {:induction false} LoadsAddUp<R>(works: seq<real>, at: seq<R>, replicas: seq<R>)
    requires |works| == |at|
    requires Distinct(replicas) && Within(at, replicas)
    ensures SumLoads(works, at, replicas) == Sum(works)
  {
    var n := |works| - 1;
    if n < 0 {
      SumLoadsEmpty(works, at, replicas);
    } else {
      LoadsAddUp(works[..n], at[..n], replicas);
      SumLoadsSnoc(works, at, replicas);
    }
  }

  lemma {:induction false} SumLoadsEmpty<R>(works: seq<real>, at: seq<R>, replicas: seq<R>)
    requires |works| == |at| == 0
    ensures SumLoads(works, at, replicas) == 0.0
  {
    var m := |replicas| - 1;
    if m >= 0 {
      SumLoadsEmpty(works, at, replicas[..m]);
    }
  }

  lemma {:induction false} SumLoadsSnoc<R>(works: seq<real>, at: seq<R>, replicas: seq<R>)
    requires |works| == |at| > 0
    requires Distinct(replicas)
    ensures var n := |works| - 1;
            SumLoads(works, at, replicas)
            == SumLoads(works[..n], at[..n], replicas) + if at[n] in replicas then works[n] else 0.0
  {
    var m := |replicas| - 1;
    if m >= 0 {
      SumLoadsSnoc(works, at, replicas[..m]);
      assert replicas == replicas[..m] + [replicas[m]];
    }
  }

  // A replica no fuller than any other carries at most the average.
  lemma {:induction false} LeastIsBelowAverage<R>(works: seq<real>, at: seq<R>, replicas: seq<R>, x: real)
    requires |works| == |at|
    requires forall r :: r in replicas ==> x <= Load(works, at, r)
    ensures |replicas| as real * x <= SumLoads(works, at, replicas)
  {
    var m := |replicas| - 1;
    if m >= 0 {
      LeastIsBelowAverage(works, at, replicas[..m], x);
      assert |replicas| as real * x == m as real * x + x;
    }
  }

  lemma {:induction false} SumLoadsBound<R(!new)>(works: seq<real>, at: seq<R>, replicas: seq<R>, t: real)
    requires |works| == |at|
    requires Makespan(works, at, t)
    ensures SumLoads(works, at, replicas) <= |replicas| as real * t
  {
    var m := |replicas| - 1;
    if m >= 0 {
      SumLoadsBound(works, at, replicas[..m], t);
      assert |replicas| as real * t == m as real * t + t;
    }
  }

  lemma {:induction false} LoadPrefix<R>(works: seq<real>, at: seq<R>, k: nat, r: R)
    requires |works| == |at|
    requires k <= |works|
    requires AllAtLeast(works, 0.0)
    ensures 0.0 <= Load(works[..k], at[..k], r) <= Load(works, at, r)
  {
    var n := |works| - 1;
    if k == |works| {
      assert works[..k] == works && at[..k] == at;
      if n >= 0 {
        LoadPrefix(works[..n], at[..n], n, r);
        assert works[..n][..n] == works[..n] && at[..n][..n] == at[..n];
      }
    } else {
      LoadPrefix(works[..n], at[..n], k, r);
      assert works[..n][..k] == works[..k] && at[..n][..k] == at[..k];
    }
  }

  // A loaded replica reached its load when some last job landed on it.
  lemma {:induction false} LastJob<R>(works: seq<real>, at: seq<R>, r: R) returns (j: nat)
    requires |works| == |at|
    requires AllAtLeast(works, 0.0)
    requires Load(works, at, r) > 0.0
    ensures j < |works| && at[j] == r
    ensures Load(works, at, r) == Load(works[..j + 1], at[..j + 1], r)
    ensures Load(works[..j + 1], at[..j + 1], r) == Load(works[..j], at[..j], r) + works[j]
  {
    var n := |works| - 1;
    if at[n] == r {
      j := n;
      assert works[..n + 1] == works && at[..n + 1] == at;
    } else {
      j := LastJob(works[..n], at[..n], r);
      assert works[..n][..j + 1] == works[..j + 1] && at[..n][..j + 1] == at[..j + 1];
      assert works[..n][..j] == works[..j] && at[..n][..j] == at[..j];
    }
  }

  lemma {:induction false} GreedyPrefix<R>(replicas: seq<R>, free: map<R, real>, works: seq<real>, k: nat)
    requires |replicas| > 0
    requires forall r :: r in replicas ==> r in free
    requires k <= |works|
    ensures Greedy(replicas, free, works)[..k] == Greedy(replicas, free, works[..k])
  {
    hide ArgMax, Remaining;
    var n := |works| - 1;
    if k == |works| {
      assert works[..k] == works;
    } else {
      GreedyPrefix(replicas, free, works[..n], k);
      assert works[..n][..k] == works[..k];
      assert Greedy(replicas, free, works)[..n] == Greedy(replicas, free, works[..n]);
      assert Greedy(replicas, free, works)[..k] == Greedy(replicas, free, works)[..n][..k];
    }
  }

  // From equal free budgets, greedy placement is least-loaded placement.
  lemma GreedyIsLeastLoaded<R>(replicas: seq<R>, free: map<R, real>, works: seq<real>)
    requires |replicas| > 0
    requires forall r :: r in replicas ==> r in free
    requires EqualFree(replicas, free)
    ensures LeastLoadedEachTime(replicas, works, Greedy(replicas, free, works))
  {
    var at := Greedy(replicas, free, works);
    forall j, q | 0 <= j < |works| && q in replicas
      ensures LoadBefore(works, at, j, at[j]) <= LoadBefore(works, at, j, q)
    {
      GreedyStep(replicas, free, works, j);
      var score := Remaining(replicas, free, works[..j], at[..j]);
      assert score[q] <= score[at[j]];
    }
  }

  lemma GreedyStep<R>(replicas: seq<R>, free: map<R, real>, works: seq<real>, j: nat)
    requires |replicas| > 0
    requires forall r :: r in replicas ==> r in free
    requires j < |works|
    ensures var at := Greedy(replicas, free, works);
            at[j] == ArgMax(replicas, Remaining(replicas, free, works[..j], at[..j]))
  {
    var at := Greedy(replicas, free, works);
    GreedyPrefix(replicas, free, works, j);
    GreedyPrefix(replicas, free, works, j + 1);
    assert works[..j + 1][..j] == works[..j];
    assert at[j] == at[..j + 1][j];
  }

  // ----- the list-scheduling bound

  lemma PlacementArithmetic(m: real, x: real, w: real, before: real, l: real, total: real)
    requires m * x <= before && l == x + w && total == before + w
    ensures m * l <= total + (m - 1.0) * w
  {
  }

  // l is at most 2 - 1/m times t.
  ghost predicate WithinListBound(m: real, l: real, t: real) {
    m * l <= (2.0 * m - 1.0) * t
  }

  // l is at most 4/3 - 1/(3m) times t.
  ghost predicate WithinLptBound(m: real, l: real, t: real) {
    3.0 * m * l <= (4.0 * m - 1.0) * t
  }

  lemma ListArithmetic(m: real, l: real, total: real, p: real, t: real)
    requires 1.0 <= m && p <= t
    requires m * l <= total + (m - 1.0) * p && total <= m * t
    ensures WithinListBound(m, l, t)
  {
    assert (m - 1.0) * p <= (m - 1.0) * t;
  }

  lemma LptArithmetic(m: real, l: real, total: real, p: real, t: real)
    requires 1.0 <= m && 3.0 * p <= t
    requires m * l <= total + (m - 1.0) * p && total <= m * t
    ensures WithinLptBound(m, l, t)
  {
    assert (m - 1.0) * (3.0 * p) <= (m - 1.0) * t;
  }

  // An optimal load is within both bounds.
  lemma OptimalIsWithinBound(m: real, l: real, t: real)
    requires 1.0 <= m && l <= t && 0.0 <= t
    ensures WithinListBound(m, l, t)
    ensures WithinLptBound(m, l, t)
  {
    assert m * l <= m * t;
    assert 0.0 <= (m - 1.0) * t;
    assert (4.0 * m - 1.0) * t == 3.0 * (m * t) + (m - 1.0) * t;
    assert (2.0 * m - 1.0) * t == m * t + (m - 1.0) * t;
    assert 3.0 * m * l == 3.0 * (m * l);
  }

  // Placing job j: m times the new load is at most all the work so far plus m - 1 times the job.
  lemma PlacementBound<R>(replicas: seq<R>, works: seq<real>, at: seq<R>, j: nat)
    requires |replicas| > 0 && Distinct(replicas)
    requires |works| == |at| && Within(at, replicas) && LeastLoadedEachTime(replicas, works, at)
    requires j < |works|
    ensures |replicas| as real * Load(works[..j + 1], at[..j + 1], at[j])
            <= Sum(works[..j + 1]) + (|replicas| as real - 1.0) * works[j]
  {
    var (l, total) := (Load(works[..j + 1], at[..j + 1], at[j]), Sum(works[..j + 1]));
    var (x, before) := (Load(works[..j], at[..j], at[j]), Sum(works[..j]));
    assert works[..j + 1][..j] == works[..j] && at[..j + 1][..j] == at[..j];
    assert l == x + works[j] && total == before + works[j];
    LeastLoadBelowAverage(replicas, works, at, j);
    PlacementArithmetic(|replicas| as real, x, works[j], before, l, total);
  }

  lemma LeastLoadBelowAverage<R>(replicas: seq<R>, works: seq<real>, at: seq<R>, j: nat)
    requires |replicas| > 0 && Distinct(replicas)
    requires |works| == |at| && Within(at, replicas) && LeastLoadedEachTime(replicas, works, at)
    requires j < |works|
    ensures |replicas| as real * Load(works[..j], at[..j], at[j]) <= Sum(works[..j])
  {
    forall q | q in replicas ensures LoadBefore(works, at, j, at[j]) <= LoadBefore(works, at, j, q) {
    }
    LeastIsBelowAverage(works[..j], at[..j], replicas, Load(works[..j], at[..j], at[j]));
    LoadsAddUp(works[..j], at[..j], replicas);
  }

  lemma TotalBelowAnyMakespan<R(!new)>(replicas: seq<R>, works: seq<real>, other: seq<R>, t: real, k: nat)
    requires Distinct(replicas)
    requires |works| == |other| && Within(other, replicas) && Makespan(works, other, t)
    requires AllAtLeast(works, 0.0)
    requires k <= |works|
    ensures Makespan(works[..k], other[..k], t)
    ensures Sum(works[..k]) <= |replicas| as real * t
  {
    forall r ensures Load(works[..k], other[..k], r) <= t {
      LoadPrefix(works, other, k, r);
    }
    SumLoadsBound(works[..k], other[..k], replicas, t);
    LoadsAddUp(works[..k], other[..k], replicas);
  }

  lemma {:induction false} JobFits<R>(works: seq<real>, at: seq<R>, j: nat)
    requires |works| == |at|
    requires AllAtLeast(works, 0.0)
    requires j < |works|
    ensures works[j] <= Load(works, at, at[j])
  {
    LoadPrefix(works, at, j + 1, at[j]);
    LoadPrefix(works, at, j, at[j]);
    assert works[..j + 1][..j] == works[..j] && at[..j + 1][..j] == at[..j];
  }

  // Placing job j against the total of any other assignment that meets t.
  lemma JobBound<R(!new)>(replicas: seq<R>, works: seq<real>, at: seq<R>, other: seq<R>, t: real, j: nat)
    requires |replicas| > 0 && Distinct(replicas)
    requires |works| == |at| && Within(at, replicas) && LeastLoadedEachTime(replicas, works, at)
    requires AllAtLeast(works, 0.0)
    requires |other| == |works| && Within(other, replicas) && Makespan(works, other, t)
    requires j < |works|
    ensures WithinListBound(|replicas| as real, Load(works[..j + 1], at[..j + 1], at[j]), t)
    ensures 3.0 * works[j] <= t ==> WithinLptBound(|replicas| as real, Load(works[..j + 1], at[..j + 1], at[j]), t)
  {
    var (l, total) := (Load(works[..j + 1], at[..j + 1], at[j]), Sum(works[..j + 1]));
    JobFits(works, other, j);
    PlacementBound(replicas, works, at, j);
    TotalBelowAnyMakespan(replicas, works, other, t, j + 1);
    ListArithmetic(|replicas| as real, l, total, works[j], t);
    if 3.0 * works[j] <= t {
      LptArithmetic(|replicas| as real, l, total, works[j], t);
    }
  }

  lemma MakespanIsNonNegative<R(!new)>(works: seq<real>, at: seq<R>, t: real, r: R)
    requires |works| == |at| && AllAtLeast(works, 0.0) && Makespan(works, at, t)
    ensures 0.0 <= t
  {
    LoadPrefix(works, at, 0, r);
  }

  // Any order of placement is within (2 - 1/m) of any assignment of the same works.
  lemma ListSchedulingBound<R(!new)>(replicas: seq<R>, works: seq<real>, at: seq<R>, other: seq<R>, t: real, r: R)
    requires |replicas| > 0 && Distinct(replicas)
    requires |works| == |at| && Within(at, replicas) && LeastLoadedEachTime(replicas, works, at)
    requires AllAtLeast(works, 0.0)
    requires |other| == |works| && Within(other, replicas) && Makespan(works, other, t)
    ensures WithinListBound(|replicas| as real, Load(works, at, r), t)
  {
    if Load(works, at, r) > 0.0 {
      var j := LastJob(works, at, r);
      JobBound(replicas, works, at, other, t, j);
    } else {
      MakespanIsNonNegative(works, other, t, r);
      OptimalIsWithinBound(|replicas| as real, Load(works, at, r), t);
    }
  }

  // ----- two jobs per replica: longest-first is optimal

  // A job counts double when nothing of size p fits beside it under t.
  function Weight(w: real, p: real, t: real): real {
    if w > t - p then 2.0 else 1.0
  }

  function Weights(works: seq<real>, p: real, t: real): (ws: seq<real>)
    ensures |ws| == |works|
  {
    seq(|works|, i requires 0 <= i < |works| => Weight(works[i], p, t))
  }

  // Under makespan t no replica holds more than weight two when every job exceeds a third of t.
  lemma {:induction false} WeightAtMostTwo<R>(works: seq<real>, at: seq<R>, r: R, p: real, t: real)
    requires |works| == |at|
    requires AllAtLeast(works, p) && 0.0 <= t < 3.0 * p
    ensures var w := Load(Weights(works, p, t), at, r);
            var l := Load(works, at, r);
            || (w == 0.0 && l == 0.0)
            || (w == 1.0 && l >= p)
            || (w == 2.0 && (l >= 2.0 * p || l > t - p))
            || (w >= 3.0 && l > t)
  {
    var n := |works| - 1;
    if n >= 0 {
      WeightAtMostTwo(works[..n], at[..n], r, p, t);
      assert Weights(works, p, t)[..n] == Weights(works[..n], p, t);
    }
  }

  // A replica with no room left for p holds weight at least two.
  lemma {:induction false} WeightAtLeastTwo<R>(works: seq<real>, at: seq<R>, r: R, p: real, t: real)
    requires |works| == |at|
    ensures var w := Load(Weights(works, p, t), at, r);
            var l := Load(works, at, r);
            || (w == 0.0 && l == 0.0)
            || (w == 1.0 && l <= t - p)
            || w >= 2.0
  {
    var n := |works| - 1;
    if n >= 0 {
      WeightAtLeastTwo(works[..n], at[..n], r, p, t);
      assert Weights(works, p, t)[..n] == Weights(works[..n], p, t);
    }
  }

  // If some assignment meets t and the smallest job j exceeds a third of t, then longest-first
  // still has room for job j: otherwise the weights of the jobs would not fit the other assignment.
  lemma LastJobHasRoom<R(!new)>(replicas: seq<R>, works: seq<real>, at: seq<R>, other: seq<R>, t: real, j: nat)
    requires |replicas| > 0 && Distinct(replicas)
    requires |works| == |at| && Within(at, replicas) && LeastLoadedEachTime(replicas, works, at)
    requires j < |works| && AllAtLeast(works[..j + 1], works[j])
    requires |other| == |works| && Within(other, replicas) && Makespan(works[..j + 1], other[..j + 1], t)
    requires 0.0 <= t < 3.0 * works[j]
    ensures Load(works[..j], at[..j], at[j]) + works[j] <= t
  {
    var p := works[j];
    var (jobs, placed) := (works[..j + 1], other[..j + 1]);
    assert jobs[j] == p;
    JobFits(jobs, placed, j);
    assert p <= t;
    if Load(works[..j], at[..j], at[j]) > t - p {
      var (ws, all) := (Weights(works[..j], p, t), Weights(jobs, p, t));
      assert all[..j] == ws && all[j] >= 1.0;
      assert Sum(all) >= Sum(ws) + 1.0;
      forall q ensures Load(all, placed, q) <= 2.0 {
        WeightAtMostTwo(jobs, placed, q, p, t);
      }
      SumLoadsBound(all, placed, replicas, 2.0);
      LoadsAddUp(all, placed, replicas);
      LoadsAddUp(ws, at[..j], replicas);
      forall q | q in replicas ensures 2.0 <= Load(ws, at[..j], q) {
        assert LoadBefore(works, at, j, at[j]) <= LoadBefore(works, at, j, q);
        WeightAtLeastTwo(works[..j], at[..j], q, p, t);
      }
      LeastIsBelowAverage(ws, at[..j], replicas, 2.0);
      assert false;
    }
  }

  // Longest-first from equal free budgets is within 4/3 - 1/(3m) of any assignment.
  lemma LptBound<R(!new)>(replicas: seq<R>, works: seq<real>, at: seq<R>, other: seq<R>, t: real, r: R)
    requires |replicas| > 0 && Distinct(replicas)
    requires |works| == |at| && Within(at, replicas) && LeastLoadedEachTime(replicas, works, at)
    requires AllAtLeast(works, 0.0) && Descending(works)
    requires |other| == |works| && Within(other, replicas) && Makespan(works, other, t)
    ensures WithinLptBound(|replicas| as real, Load(works, at, r), t)
  {
    MakespanIsNonNegative(works, other, t, r);
    if Load(works, at, r) > 0.0 {
      var j := LastJob(works, at, r);
      JobBound(replicas, works, at, other, t, j);
      if t < 3.0 * works[j] {
        TotalBelowAnyMakespan(replicas, works, other, t, j + 1);
        LastJobHasRoom(replicas, works, at, other, t, j);
        OptimalIsWithinBound(|replicas| as real, Load(works, at, r), t);
      }
    } else {
      OptimalIsWithinBound(|replicas| as real, Load(works, at, r), t);
    }
  }

  // The bound is met with equality: sizes 3, 3, 2, 2, 2 on two replicas give 7 where 6 is possible.
  lemma LptBoundIsTight()
    ensures var (works, lpt, best) := ([3.0, 3.0, 2.0, 2.0, 2.0], [0, 1, 0, 1, 0], [0, 0, 1, 1, 1]);
            && LeastLoadedEachTime([0, 1], works, lpt) && Descending(works)
            && Load(works, lpt, 0) == 7.0 && Makespan(works, best, 6.0)
            && 3.0 * 2.0 * 7.0 == (4.0 * 2.0 - 1.0) * 6.0
  {
    var (works, lpt, best) := ([3.0, 3.0, 2.0, 2.0, 2.0], [0, 1, 0, 1, 0], [0, 0, 1, 1, 1]);
    forall r: int ensures Load(works, best, r) <= 6.0 {
      Unroll(works, best, r);
    }
    Unroll(works, lpt, 0);
    Unroll(works, lpt, 1);
  }

  // The loads after each of five jobs.
  lemma Unroll(works: seq<real>, at: seq<int>, r: int)
    requires |works| == |at| == 5
    ensures LoadBefore(works, at, 0, r) == 0.0
    ensures LoadBefore(works, at, 1, r) == LoadBefore(works, at, 0, r) + if at[0] == r then works[0] else 0.0
    ensures LoadBefore(works, at, 2, r) == LoadBefore(works, at, 1, r) + if at[1] == r then works[1] else 0.0
    ensures LoadBefore(works, at, 3, r) == LoadBefore(works, at, 2, r) + if at[2] == r then works[2] else 0.0
    ensures LoadBefore(works, at, 4, r) == LoadBefore(works, at, 3, r) + if at[3] == r then works[3] else 0.0
    ensures Load(works, at, r) == LoadBefore(works, at, 4, r) + if at[4] == r then works[4] else 0.0
  {
    OneMore(works, at, 0, r);
    OneMore(works, at, 1, r);
    OneMore(works, at, 2, r);
    OneMore(works, at, 3, r);
    OneMore(works, at, 4, r);
    assert works[..5] == works && at[..5] == at;
  }

  lemma OneMore<R>(works: seq<real>, at: seq<R>, j: nat, r: R)
    requires |works| == |at| && j < |works|
    ensures LoadBefore(works, at, j + 1, r) == LoadBefore(works, at, j, r) + if at[j] == r then works[j] else 0.0
  {
    assert works[..j + 1][..j] == works[..j] && at[..j + 1][..j] == at[..j];
  }
}
