// Health debouncing of one engine: what the ready flag, the failure counter and the unhealthy
// callback mean in terms of the whole history of check results.

module Health {

  // One of the last three results is a success.
  predicate RecentSuccess(results: seq<bool>) {
    exists k :: |results| - 3 <= k < |results| && 0 <= k && results[k]
  }

  // How many failures the history ends in.
  function TrailingFailures(results: seq<bool>): (n: nat)
    ensures n <= |results|
    ensures forall k :: |results| - n <= k < |results| ==> !results[k]
    ensures n < |results| ==> results[|results| - n - 1]
  {
    if |results| == 0 || results[|results| - 1] then 0 else 1 + TrailingFailures(results[..|results| - 1])
  }

  // Check k reports the engine unhealthy: the third failure in a row right after a success.
  predicate Alarms(results: seq<bool>, k: nat)
    requires k < |results|
  {
    k >= 3 && results[k - 3] && !results[k - 2] && !results[k - 1] && !results[k]
  }

  // The state kept for an engine, and how one check result changes it.
  datatype Health = Health(ready: bool, failures: nat)

  const NEW_ENGINE := Health(false, 0)

  function Checked(h: Health, ok: bool): Health {
    if ok then Health(true, 0) else Health(h.ready && h.failures + 1 < 3, h.failures + 1)
  }

  // The unhealthy callback fires on the failure that takes the ready flag away.
  predicate Fires(h: Health, ok: bool) {
    !ok && h.failures + 1 >= 3 && h.ready
  }

  function HealthAfter(results: seq<bool>): Health {
    var n := |results| - 1;
    if n < 0 then NEW_ENGINE else Checked(HealthAfter(results[..n]), results[n])
  }

  lemma RecentByTrailing(results: seq<bool>)
    ensures RecentSuccess(results) <==> TrailingFailures(results) < 3 && TrailingFailures(results) < |results|
  {
    var n := TrailingFailures(results);
    if n < 3 && n < |results| {
      assert results[|results| - n - 1];
    }
  }

  // Ready means a success among the last three checks; the counter counts the failures since.
  lemma {:induction false} HealthIsDebounced(results: seq<bool>)
    ensures HealthAfter(results).ready <==> RecentSuccess(results)
    ensures HealthAfter(results).failures == TrailingFailures(results)
  {
    RecentByTrailing(results);
    var n := |results| - 1;
    if n >= 0 {
      HealthIsDebounced(results[..n]);
      RecentByTrailing(results[..n]);
    }
  }

  // The callback fires at a check exactly when it is the third failure in a row after a success,
  // which is exactly when the check turns a ready engine unready.
  lemma AlarmsOncePerOutage(results: seq<bool>, k: nat)
    requires k < |results|
    ensures Fires(HealthAfter(results[..k]), results[k]) <==> Alarms(results, k)
    ensures Alarms(results, k) <==> HealthAfter(results[..k]).ready && !HealthAfter(results[..k + 1]).ready
  {
    var before := results[..k];
    HealthIsDebounced(before);
    RecentByTrailing(before);
    assert results[..k + 1][..k] == before;
    var n := TrailingFailures(before);
    if n >= 2 && n < k {
      assert before[k - n - 1];
    }
  }

  // Callbacks of one engine are separated by a recovery.
  lemma RecoversBetweenAlarms(results: seq<bool>, i: nat, j: nat)
    requires i < j < |results| && Alarms(results, i) && Alarms(results, j)
    ensures exists k :: i < k < j && results[k] && HealthAfter(results[..k + 1]).ready
  {
    var k := j - 3;
    assert results[k] && i < k;
    assert results[..k + 1][..k] == results[..k];
  }
}
