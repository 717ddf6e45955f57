// Generalized advantage estimation: the backward recursion and its closed forms.

module Gae {
  import opened Text

  function Power(x: real, n: nat): real {
    if n == 0 then 1.0 else x * Power(x, n - 1)
  }

  // The value after step i, zero past the end of the estimates.
  function ValueAt(values: seq<real>, i: nat): real {
    if i < |values| then values[i] else 0.0
  }

  // The temporal difference error of step t.
  function Delta(rewards: seq<real>, values: seq<real>, gamma: real, t: nat): real
    requires t < |rewards| <= |values|
  {
    rewards[t] + gamma * ValueAt(values, t + 1) - values[t]
  }

  // The first n errors from step t on, discounted by x.
  function Discounted(rewards: seq<real>, values: seq<real>, gamma: real, x: real, t: nat, n: nat): real
    requires t + n <= |rewards| <= |values|
  {
    if n == 0 then 0.0
    else Discounted(rewards, values, gamma, x, t, n - 1) + Power(x, n - 1) * Delta(rewards, values, gamma, t + n - 1)
  }

  // The advantage of step t: every later error, discounted by gamma * lam for each step away.
  function Advantage(rewards: seq<real>, values: seq<real>, gamma: real, lam: real, t: nat): real
    requires t <= |rewards| <= |values|
  {
    Discounted(rewards, values, gamma, gamma * lam, t, |rewards| - t)
  }

  lemma OneMoreError(rewards: seq<real>, values: seq<real>, gamma: real, x: real, t: nat, n: nat)
    requires 0 < n && t + n <= |rewards| <= |values|
    ensures Discounted(rewards, values, gamma, x, t, n)
            == Discounted(rewards, values, gamma, x, t, n - 1) + Power(x, n - 1) * Delta(rewards, values, gamma, t + n - 1)
    ensures Discounted(rewards, values, gamma, x, t, 0) == 0.0 && Power(x, 0) == 1.0
    ensures n > 1 ==> Power(x, n - 1) == x * Power(x, n - 2)
  {
    hide Delta;
  }

  // A sum of discounted errors, taken apart at its first term.
  lemma {:induction false} DiscountedFromFront(rewards: seq<real>, values: seq<real>, gamma: real, x: real, t: nat, n: nat)
    requires 0 < n && t + n <= |rewards| <= |values|
    ensures Discounted(rewards, values, gamma, x, t, n)
            == Delta(rewards, values, gamma, t) + x * Discounted(rewards, values, gamma, x, t + 1, n - 1)
  {
    hide Delta, Discounted, Power;
    OneMoreError(rewards, values, gamma, x, t, n);
    if n == 1 {
      assert Discounted(rewards, values, gamma, x, t + 1, 0) == 0.0 by {
        NoErrors(rewards, values, gamma, x, t + 1);
      }
    } else {
      DiscountedFromFront(rewards, values, gamma, x, t, n - 1);
      OneMoreError(rewards, values, gamma, x, t + 1, n - 1);
      Distribute(x, Discounted(rewards, values, gamma, x, t + 1, n - 2), Power(x, n - 2),
                 Delta(rewards, values, gamma, t + n - 1));
    }
  }

  lemma NoErrors(rewards: seq<real>, values: seq<real>, gamma: real, x: real, t: nat)
    requires t <= |rewards| <= |values|
    ensures Discounted(rewards, values, gamma, x, t, 0) == 0.0
  {
  }

  lemma Distribute(x: real, rest: real, p: real, d: real)
    ensures x * (rest + p * d) == x * rest + x * p * d
  {
  }

  // The recursion that advantages are for: past the last reward there is none, and each step adds
  // its own error to the next advantage, damped once by gamma and once by lam.
  lemma AdvantagesRecur(rewards: seq<real>, values: seq<real>, gamma: real, lam: real, t: nat)
    requires t <= |rewards| <= |values|
    ensures Advantage(rewards, values, gamma, lam, t)
            == if t == |rewards| then 0.0
               else rewards[t] + gamma * (if t + 1 < |values| then values[t + 1] else 0.0) - values[t]
                    + gamma * lam * Advantage(rewards, values, gamma, lam, t + 1)
  {
    if t == |rewards| {
      NothingDiscounted(rewards, values, gamma, gamma * lam);
    } else {
      DiscountedFromFront(rewards, values, gamma, gamma * lam, t, |rewards| - t);
      DeltaIs(rewards, values, gamma, t);
    }
  }

  // Fewer values than rewards is an index error.
  method ComputeGae(rewards: seq<real>, values: seq<real>, gamma: real, lam: real) returns (advantages: Option<seq<real>>)
    ensures advantages.None? <==> |rewards| > |values|
    ensures advantages.Some? ==>
      && |advantages.value| == |rewards|
      && forall t :: 0 <= t < |rewards| ==> advantages.value[t] == Advantage(rewards, values, gamma, lam, t)
  {
    if |rewards| > |values| {
      return None;
    }
    hide Delta, Discounted;
    var out: seq<real> := [];
    var gae := 0.0;
    var t := |rewards|;
    NothingDiscounted(rewards, values, gamma, gamma * lam);
    while t > 0
      invariant 0 <= t <= |rewards|
      invariant gae == Advantage(rewards, values, gamma, lam, t)
      invariant |out| == |rewards| - t
      invariant forall k :: t <= k < |rewards| ==> out[k - t] == Advantage(rewards, values, gamma, lam, k)
    {
      t := t - 1;
      var nextValue := if t + 1 < |values| then values[t + 1] else 0.0;
      var delta := rewards[t] + gamma * nextValue - values[t];
      DeltaIs(rewards, values, gamma, t);
      DiscountedFromFront(rewards, values, gamma, gamma * lam, t, |rewards| - t);
      gae := delta + gamma * lam * gae;
      out := [gae] + out;
    }
    advantages := Some(out);
  }

  lemma DeltaIs(rewards: seq<real>, values: seq<real>, gamma: real, t: nat)
    requires t < |rewards| <= |values|
    ensures Delta(rewards, values, gamma, t)
            == rewards[t] + gamma * (if t + 1 < |values| then values[t + 1] else 0.0) - values[t]
  {
  }

  lemma NothingDiscounted(rewards: seq<real>, values: seq<real>, gamma: real, x: real)
    requires |rewards| <= |values|
    ensures Discounted(rewards, values, gamma, x, |rewards|, 0) == 0.0
  {
  }

  // The discounted return of n steps from t.
  function Return(rewards: seq<real>, gamma: real, t: nat, n: nat): real
    requires t + n <= |rewards|
  {
    if n == 0 then 0.0 else Return(rewards, gamma, t, n - 1) + Power(gamma, n - 1) * rewards[t + n - 1]
  }

  lemma TelescopeStep(p: real, gamma: real, reward: real, here: real, after: real)
    ensures p * here + p * (reward + gamma * after - here) == p * reward + gamma * p * after
  {
  }

  // Discounting the errors by gamma alone telescopes: the values in between cancel.
  lemma {:induction false} ErrorsTelescope(rewards: seq<real>, values: seq<real>, gamma: real, t: nat, n: nat)
    requires t + n <= |rewards| <= |values| && t < |values|
    ensures Discounted(rewards, values, gamma, gamma, t, n)
            == Return(rewards, gamma, t, n) + Power(gamma, n) * ValueAt(values, t + n) - values[t]
  {
    if n == 0 {
      assert Power(gamma, 0) == 1.0;
    } else {
      ErrorsTelescope(rewards, values, gamma, t, n - 1);
      var k := t + n - 1;
      DeltaIs(rewards, values, gamma, k);
      assert Power(gamma, n) == gamma * Power(gamma, n - 1);
      hide Delta, Power;
      TelescopeStep(Power(gamma, n - 1), gamma, rewards[k], values[k], ValueAt(values, k + 1));
    }
  }

  // With lam = 1 an advantage is the discounted return, plus the discounted value past the last
  // reward where the critic estimated one, minus the value of the step.
  lemma UndampedAdvantage(rewards: seq<real>, values: seq<real>, gamma: real, t: nat)
    requires t < |rewards| <= |values|
    ensures Advantage(rewards, values, gamma, 1.0, t)
            == Return(rewards, gamma, t, |rewards| - t)
               + Power(gamma, |rewards| - t) * ValueAt(values, |rewards|) - values[t]
    ensures |rewards| == |values| ==>
      Advantage(rewards, values, gamma, 1.0, t) == Return(rewards, gamma, t, |rewards| - t) - values[t]
  {
    assert gamma * 1.0 == gamma;
    ErrorsTelescope(rewards, values, gamma, t, |rewards| - t);
    assert |rewards| == |values| ==> Power(gamma, |rewards| - t) * 0.0 == 0.0;
  }
}
