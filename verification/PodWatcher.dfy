// Pod discovery: pod events become the registered map, and its changes become the membership
// callbacks of the engine pool.

module PodWatcher {
  import opened Text
  import opened WeightUpdate
  import opened EnginePool
  import opened Endpoints

  datatype Condition = Condition(kind: string, status: string)
  datatype Pod = Pod(uid: EngineId, conditions: seq<Condition>, ip: string)

  // An added or updated pod, or a deleted one.
  datatype Event = Seen(pod: Pod) | Deleted(uid: EngineId)

  function About(e: Event): EngineId {
    match e
    case Seen(pod) => pod.uid
    case Deleted(uid) => uid
  }

  // The first Ready condition is met, if there is one.
  ghost predicate PodReady(pod: Pod) {
    exists i :: 0 <= i < |pod.conditions| && pod.conditions[i] == Condition("Ready", "True")
                && forall j :: 0 <= j < i ==> pod.conditions[j].kind != "Ready"
  }

  method IsPodReady(pod: Pod) returns (ready: bool)
    ensures ready <==> PodReady(pod)
  {
    for i := 0 to |pod.conditions|
      invariant forall j :: 0 <= j < i ==> pod.conditions[j].kind != "Ready"
    {
      if pod.conditions[i].kind == "Ready" {
        ready := pod.conditions[i].status == "True";
        assert ready ==> pod.conditions[i] == Condition("Ready", "True");
        return;
      }
    }
    ready := false;
  }

  function Url(ip: string, port: nat): string {
    "http://" + ip + ":" + Numeral(port)
  }

  // Where an event leaves its pod: serving at an address, or not serving.
  ghost function ServedAt(port: nat, e: Event): Option<string> {
    if e.Seen? && PodReady(e.pod) && e.pod.ip != "" then Some(Url(e.pod.ip, port)) else None
  }

  lemma UrlAddressSplits(ip: string, port: nat)
    requires ip != "" && ip[0] != '['
    ensures SplitAddress(Url(ip, port)) == Some(Address(ip, Numeral(port)))
  {
    hide SplitAddress;
    var p := Numeral(port);
    UrlSplits("http", ip, p);
    assert "http" + "://" == "http://";
    assert "http://" + (ip + ":" + p) == "http://" + ip + ":" + p;
  }

  // A pod serves at its IP, behind the scheme, and the pool's port: the address splits into them.
  lemma ServedAddressSplits(port: nat, e: Event)
    requires ServedAt(port, e).Some?
    ensures e.Seen? && PodReady(e.pod) && e.pod.ip != ""
    ensures ServedAt(port, e).value == "http://" + e.pod.ip + ":" + Numeral(port)
    ensures e.pod.ip[0] != '[' ==> SplitAddress(ServedAt(port, e).value) == Some(Address(e.pod.ip, Numeral(port)))
  {
    hide SplitAddress, PodReady;
    if e.pod.ip[0] != '[' {
      UrlAddressSplits(e.pod.ip, port);
    }
  }

  // An event leaves its pod serving exactly when it shows the pod ready, with an IP.
  lemma ServesExactlyWhen(port: nat, e: Event)
    ensures ServedAt(port, e).Some? <==>
            e.Seen? && e.pod.ip != ""
            && exists i :: 0 <= i < |e.pod.conditions| && e.pod.conditions[i] == Condition("Ready", "True")
                           && forall j :: 0 <= j < i ==> e.pod.conditions[j].kind != "Ready"
  {
  }

  // The registered map after one more event.
  ghost function Register(port: nat, registered: map<EngineId, string>, e: Event): map<EngineId, string> {
    match ServedAt(port, e)
    case Some(address) => registered[About(e) := address]
    case None => registered - {About(e)}
  }

  // The callbacks that the event makes: a changed address is a departure and a new arrival.
  ghost function CallsFor(port: nat, registered: map<EngineId, string>, e: Event): seq<Callback> {
    var id := About(e);
    match ServedAt(port, e)
    case Some(address) =>
      if id !in registered then [OnReady(id, address)]
      else if registered[id] == address then []
      else [OnGone(id), OnReady(id, address)]
    case None => if id in registered then [OnGone(id)] else []
  }

  ghost function Registered(port: nat, events: seq<Event>): map<EngineId, string> {
    var n := |events| - 1;
    if n < 0 then map[] else Register(port, Registered(port, events[..n]), events[n])
  }

  ghost function CallsOf(port: nat, events: seq<Event>): seq<Callback> {
    var n := |events| - 1;
    if n < 0 then [] else CallsOf(port, events[..n]) + CallsFor(port, Registered(port, events[..n]), events[n])
  }

  // ----- what the watcher and the pool agree on

  // Event k is the latest about its pod.
  ghost predicate Latest(events: seq<Event>, k: nat, id: EngineId) {
    k < |events| && About(events[k]) == id && forall j :: k < j < |events| ==> About(events[j]) != id
  }

  // Event k is the latest about its pod and leaves it serving.
  ghost predicate Serves(port: nat, events: seq<Event>, k: nat, id: EngineId) {
    Latest(events, k, id) && ServedAt(port, events[k]).Some?
  }

  // The registered pods are those whose latest event was ready with an IP, at that address.
  lemma {:induction false} RegisteredAreReady(port: nat, events: seq<Event>, id: EngineId)
    ensures id in Registered(port, events) <==> exists k :: Serves(port, events, k, id)
    ensures forall k: nat :: Serves(port, events, k, id) ==>
              id in Registered(port, events) && Registered(port, events)[id] == ServedAt(port, events[k]).value
  {
    hide ServedAt;
    var n := |events| - 1;
    if n >= 0 {
      RegisteredAreReady(port, events[..n], id);
      if About(events[n]) == id {
        assert Latest(events, n, id);
        assert forall k: nat :: Latest(events, k, id) ==> k == n;
        assert Serves(port, events, n, id) <==> ServedAt(port, events[n]).Some?;
      } else {
        forall k: nat ensures Serves(port, events, k, id) <==> Serves(port, events[..n], k, id) {
        }
      }
    }
  }

  lemma {:induction false} MembersAppend(calls: seq<Callback>, more: seq<Callback>)
    requires |more| <= 2
    ensures |more| == 0 ==> Members(calls + more) == Members(calls)
    ensures |more| == 1 ==> Members(calls + more) == Told(Members(calls), more[0])
    ensures |more| == 2 ==> Members(calls + more) == Told(Told(Members(calls), more[0]), more[1])
  {
    if |more| == 0 {
      assert calls + more == calls;
    } else if |more| == 1 {
      assert more == [more[0]];
      MembersSnoc(calls, more[0]);
    } else {
      assert calls + more == calls + [more[0]] + [more[1]];
      MembersSnoc(calls, more[0]);
      MembersSnoc(calls + [more[0]], more[1]);
    }
  }

  // A member that hears every callback knows exactly the registered map.
  lemma {:induction false} CallbacksTellAll(port: nat, events: seq<Event>)
    ensures Members(CallsOf(port, events)) == Registered(port, events)
  {
    hide Members, ServedAt;
    var n := |events| - 1;
    if n < 0 {
      NoMembers();
    } else {
      CallbacksTellAll(port, events[..n]);
      MembersAppend(CallsOf(port, events[..n]), CallsFor(port, Registered(port, events[..n]), events[n]));
    }
  }

  lemma NoMembers()
    ensures Members([]) == map[]
  {
  }

  // Arrivals are announced only for absent pods and departures only for present ones.
  ghost predicate InTurn(calls: seq<Callback>, k: nat)
    requires k < |calls|
  {
    calls[k].OnReady? <==> calls[k].id !in Members(calls[..k])
  }

  lemma {:induction false} CallbacksTakeTurns(port: nat, events: seq<Event>, k: nat)
    requires k < |CallsOf(port, events)|
    ensures InTurn(CallsOf(port, events), k)
  {
    hide Members, ServedAt;
    var n := |events| - 1;
    var (before, calls) := (CallsOf(port, events[..n]), CallsOf(port, events));
    if k < |before| {
      CallbacksTakeTurns(port, events[..n], k);
      assert calls[..k] == before[..k] && calls[k] == before[k];
    } else {
      CallbacksTellAll(port, events[..n]);
      var more := CallsFor(port, Registered(port, events[..n]), events[n]);
      assert calls[..|before|] == before && calls[k] == more[k - |before|];
      if k > |before| {
        assert calls[..k] == before + [more[0]];
        MembersSnoc(before, more[0]);
      }
    }
  }

  // So for one pod the callbacks alternate: between two of a kind there is one of the other.
  lemma CallbacksAlternate(port: nat, events: seq<Event>, i: nat, j: nat)
    requires i < j < |CallsOf(port, events)|
    requires var calls := CallsOf(port, events); calls[i].id == calls[j].id && (calls[i].OnReady? <==> calls[j].OnReady?)
    ensures var calls := CallsOf(port, events);
            exists k :: i < k < j && calls[k].id == calls[i].id && (calls[k].OnReady? <==> !calls[i].OnReady?)
  {
    var calls := CallsOf(port, events);
    CallbacksTakeTurns(port, events, i);
    CallbacksTakeTurns(port, events, j);
    assert calls[..i + 1] == calls[..i] + [calls[i]];
    MembersSnoc(calls[..i], calls[i]);
    var k := MembershipChanges(calls, i + 1, j, calls[i].id);
    CallbacksTakeTurns(port, events, k);
  }

  // Membership of a pod changes only at a callback about it.
  lemma {:induction false} MembershipChanges(calls: seq<Callback>, i: nat, j: nat, id: EngineId) returns (k: nat)
    requires i <= j <= |calls|
    requires (id in Members(calls[..i])) != (id in Members(calls[..j]))
    ensures i <= k < j && calls[k].id == id && (id in Members(calls[..k]) <==> id in Members(calls[..i]))
  {
    hide Members;
    assert i < j;
    assert calls[..j] == calls[..j - 1] + [calls[j - 1]];
    MembersSnoc(calls[..j - 1], calls[j - 1]);
    if (id in Members(calls[..i])) == (id in Members(calls[..j - 1])) {
      k := j - 1;
    } else {
      k := MembershipChanges(calls, i, j - 1, id);
    }
  }

  // ----- the watcher

  class PodWatcher {
    const port: nat
    const pool: EnginePool
    var registered: map<EngineId, string>
    // Every pod event so far.
    ghost var events: seq<Event>

    // The pool has heard exactly the callbacks of the events, so it has the registered engines.
    ghost predicate Valid()
      reads this, pool, pool.engines.Values
    {
      && pool.Valid()
      && registered == Registered(port, events) == pool.Addresses()
      && pool.calls == CallsOf(port, events)
    }

    constructor (port: nat, pool: EnginePool)
      requires pool.Valid() && pool.calls == []
      ensures Valid() && this.port == port && this.pool == pool && events == []
    {
      this.port, this.pool := port, pool;
      registered, events := map[], [];
    }

    // An added or updated pod.
    method Sync(pod: Pod)
      requires Valid()
      modifies this, pool
      ensures Valid() && events == old(events) + [Seen(pod)]
      ensures registered == old(registered) ==> pool.engines == old(pool.engines) && pool.transferInited == old(pool.transferInited)
      ensures registered != old(registered) ==> !pool.transferInited
    {
      hide Registered, CallsOf, EnginePool.Valid, Members, PodReady;
      EventsSnoc(port, events, Seen(pod));
      var podReady := IsPodReady(pod);
      events := events + [Seen(pod)];
      if podReady && pod.ip != "" {
        Serve(pod.uid, Url(pod.ip, port));
      } else {
        Withdraw(pod.uid);
      }
    }

    // Registers a serving pod; at a changed address the old engine leaves first.
    method Serve(id: EngineId, address: string)
      requires pool.Valid() && registered == pool.Addresses()
      modifies this`registered, pool
      ensures pool.Valid() && registered == pool.Addresses() == old(registered)[id := address]
      ensures pool.calls == old(pool.calls) + if id !in old(registered) then [OnReady(id, address)]
                                              else if old(registered)[id] == address then []
                                              else [OnGone(id), OnReady(id, address)]
      ensures registered == old(registered) ==> pool.engines == old(pool.engines) && pool.transferInited == old(pool.transferInited)
      ensures registered != old(registered) ==> !pool.transferInited
      ensures fresh(pool.engines.Values - old(pool.engines.Values))
    {
      hide EnginePool.Valid;
      if id in registered && registered[id] == address {
        SameCalls(pool.calls);
        return;
      }
      if id in registered {
        Leave(id);
      }
      registered := registered[id := address];
      Join(id, address);
    }

    method Withdraw(id: EngineId)
      requires pool.Valid() && registered == pool.Addresses()
      modifies this`registered, pool
      ensures pool.Valid() && registered == pool.Addresses() == old(registered) - {id}
      ensures pool.calls == old(pool.calls) + if id in old(registered) then [OnGone(id)] else []
      ensures id !in old(registered) ==> pool.engines == old(pool.engines) && pool.transferInited == old(pool.transferInited)
      ensures id in old(registered) ==> !pool.transferInited
      ensures fresh(pool.engines.Values - old(pool.engines.Values))
    {
      hide EnginePool.Valid;
      if id !in registered {
        SameCalls(pool.calls);
        return;
      }
      registered := registered - {id};
      Leave(id);
    }

    // A deleted pod.
    method MarkGone(id: EngineId)
      requires Valid()
      modifies this, pool
      ensures Valid() && events == old(events) + [Deleted(id)]
      ensures id !in old(registered) ==> pool.engines == old(pool.engines) && pool.transferInited == old(pool.transferInited)
      ensures id in old(registered) ==> !pool.transferInited
    {
      hide Registered, CallsOf, EnginePool.Valid, Members;
      EventsSnoc(port, events, Deleted(id));
      events := events + [Deleted(id)];
      Withdraw(id);
    }

    method Join(id: EngineId, address: string)
      requires pool.Valid()
      modifies pool
      ensures pool.Valid() && pool.calls == old(pool.calls) + [OnReady(id, address)] && !pool.transferInited
      ensures pool.Addresses() == old(pool.Addresses())[id := address]
      ensures fresh(pool.engines.Values - old(pool.engines.Values))
    {
      pool.AddEngine(id, address);
      MembersSnoc(old(pool.calls), OnReady(id, address));
    }

    method Leave(id: EngineId)
      requires pool.Valid()
      modifies pool
      ensures pool.Valid() && pool.calls == old(pool.calls) + [OnGone(id)] && !pool.transferInited
      ensures pool.Addresses() == old(pool.Addresses()) - {id}
      ensures pool.engines.Values <= old(pool.engines.Values)
    {
      pool.RemoveEngine(id);
      MembersSnoc(old(pool.calls), OnGone(id));
    }
  }

  lemma EventsSnoc(port: nat, events: seq<Event>, e: Event)
    ensures Registered(port, events + [e]) == Register(port, Registered(port, events), e)
    ensures CallsOf(port, events + [e]) == CallsOf(port, events) + CallsFor(port, Registered(port, events), e)
  {
    assert (events + [e])[..|events|] == events;
  }

  lemma SameCalls(calls: seq<Callback>)
    ensures calls + [] == calls
  {
  }
}
