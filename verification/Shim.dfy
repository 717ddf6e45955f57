// The registration shim: workers register and deregister, and the endpoints file follows them.

module Shim {
  import opened Text
  import opened Endpoints

  datatype Worker = Worker(key: string, url: string, kind: string)

  function Urls(workers: seq<Worker>): (urls: seq<string>)
    ensures |urls| == |workers| && forall i :: 0 <= i < |urls| ==> urls[i] == workers[i].url
  {
    seq(|workers|, i requires 0 <= i < |workers| => workers[i].url)
  }

  ghost predicate HasKey(workers: seq<Worker>, key: string) {
    exists i :: 0 <= i < |workers| && workers[i].key == key
  }

  ghost predicate HasUrl(workers: seq<Worker>, url: string) {
    exists i :: 0 <= i < |workers| && workers[i].url == url
  }

  ghost predicate Pairs(workers: seq<Worker>, key: string, url: string) {
    exists i :: 0 <= i < |workers| && workers[i].key == key && workers[i].url == url
  }

  // Assignment in an ordered dictionary: a known key keeps its place.
  function Put(workers: seq<Worker>, w: Worker): seq<Worker> {
    if |workers| == 0 then [w]
    else if workers[0].key == w.key then [w] + workers[1..]
    else [workers[0]] + Put(workers[1..], w)
  }

  // Removal from an ordered dictionary.
  function Pop(workers: seq<Worker>, key: string): seq<Worker> {
    if |workers| == 0 then []
    else if workers[0].key == key then workers[1..]
    else [workers[0]] + Pop(workers[1..], key)
  }

  // Keys and URLs are unique, and in URL-keyed mode they are the same.
  ghost predicate Registry(workers: seq<Worker>, urlKeyed: bool) {
    && (forall i, j :: 0 <= i < j < |workers| ==> workers[i].key != workers[j].key && workers[i].url != workers[j].url)
    && (urlKeyed ==> forall i :: 0 <= i < |workers| ==> workers[i].key == workers[i].url)
  }

  lemma {:induction false} PutFresh(workers: seq<Worker>, w: Worker)
    requires !HasKey(workers, w.key)
    ensures Put(workers, w) == workers + [w]
  {
    if |workers| > 0 {
      assert workers[0].key != w.key;
      forall i | 0 <= i < |workers[1..]| ensures workers[1..][i].key != w.key {
        assert workers[1..][i] == workers[i + 1];
      }
      PutFresh(workers[1..], w);
    }
  }

  lemma {:induction false} PutReplaces(workers: seq<Worker>, w: Worker, i: nat)
    requires i < |workers| && workers[i].key == w.key && forall j :: 0 <= j < i ==> workers[j].key != w.key
    ensures Put(workers, w) == workers[i := w]
  {
    if i > 0 {
      PutReplaces(workers[1..], w, i - 1);
      assert workers[i := w] == [workers[0]] + workers[1..][i - 1 := w];
    }
  }

  lemma PutKeepsRegistry(workers: seq<Worker>, urlKeyed: bool, w: Worker)
    requires Registry(workers, urlKeyed) && !HasUrl(workers, w.url) && (urlKeyed ==> w.key == w.url)
    ensures Registry(Put(workers, w), urlKeyed)
  {
    assert forall i :: 0 <= i < |workers| ==> workers[i].url != w.url;
    if HasKey(workers, w.key) {
      var i :| 0 <= i < |workers| && workers[i].key == w.key;
      PutReplaces(workers, w, i);
    } else {
      assert forall i :: 0 <= i < |workers| ==> workers[i].key != w.key;
      PutFresh(workers, w);
    }
  }

  lemma {:induction false} PopAbsent(workers: seq<Worker>, key: string)
    requires !HasKey(workers, key)
    ensures Pop(workers, key) == workers
  {
    if |workers| > 0 {
      assert workers[0].key != key;
      forall i | 0 <= i < |workers[1..]| ensures workers[1..][i].key != key {
        assert workers[1..][i] == workers[i + 1];
      }
      PopAbsent(workers[1..], key);
    }
  }

  lemma {:induction false} PopRemoves(workers: seq<Worker>, key: string, i: nat)
    requires i < |workers| && workers[i].key == key && forall j :: 0 <= j < i ==> workers[j].key != key
    ensures Pop(workers, key) == workers[..i] + workers[i + 1..]
  {
    if i > 0 {
      PopRemoves(workers[1..], key, i - 1);
    }
  }

  lemma PopKeepsRegistry(workers: seq<Worker>, urlKeyed: bool, key: string)
    requires Registry(workers, urlKeyed)
    ensures Registry(Pop(workers, key), urlKeyed) && !HasKey(Pop(workers, key), key)
  {
    if HasKey(workers, key) {
      var i :| 0 <= i < |workers| && workers[i].key == key;
      assert forall j :: 0 <= j < |workers| && workers[j].key == key ==> j == i;
      PopRemoves(workers, key, i);
      WithoutKeepsRegistry(workers, urlKeyed, i);
    } else {
      PopAbsent(workers, key);
    }
  }

  lemma WithoutKeepsRegistry(workers: seq<Worker>, urlKeyed: bool, i: nat)
    requires Registry(workers, urlKeyed) && i < |workers|
    ensures var rest := workers[..i] + workers[i + 1..];
            Registry(rest, urlKeyed) && !HasKey(rest, workers[i].key)
  {
    var rest := workers[..i] + workers[i + 1..];
    forall j | 0 <= j < |rest| ensures rest[j] == workers[if j < i then j else j + 1] {
    }
  }

  // Removing what was just added under a new key leaves the registry as it was.
  lemma PopUndoesPut(workers: seq<Worker>, w: Worker)
    requires !HasKey(workers, w.key)
    ensures Pop(Put(workers, w), w.key) == workers
  {
    PutFresh(workers, w);
    var all := workers + [w];
    assert forall j :: 0 <= j < |workers| ==> all[j].key != w.key;
    PopRemoves(all, w.key, |workers|);
    assert all[..|workers|] + all[|workers| + 1..] == workers;
  }

  // ----- references

  // A path keeps only one slash of "://"; it is put back so that the reference matches the key.
  function Normalize(ref: string): string {
    if StartsWith(ref, "http:/") && !StartsWith(ref, "http://") then "http://" + ref[6..]
    else if StartsWith(ref, "https:/") && !StartsWith(ref, "https://") then "https://" + ref[7..]
    else ref
  }

  // The single-slash form of a URL is restored exactly when nothing but the host follows the
  // scheme; a full URL is left alone.
  lemma NormalizeRestores(rest: string)
    ensures Normalize("http:/" + rest) == "http://" + rest <==> !StartsWith(rest, "/")
    ensures Normalize("https:/" + rest) == "https://" + rest <==> !StartsWith(rest, "/")
    ensures Normalize("http://" + rest) == "http://" + rest && Normalize("https://" + rest) == "https://" + rest
  {
    OneSlash("http:/", rest);
    OneSlash("https:/", rest);
    var (a, b) := ("http:/" + rest, "https:/" + rest);
    assert a[..6] == "http:/" && a[6..] == rest && b[..7] == "https:/" && b[7..] == rest;
    assert b[..6] == "https:" && b[4] == 's';
    assert |"http://" + rest| == |a| + 1 && |"https://" + rest| == |b| + 1;
    var (c, d) := ("http://" + rest, "https://" + rest);
    assert c[..7] == "http://" && c[..6] == "http:/" && d[..8] == "https://" && d[4] == 's';
    assert c[4] == ':';
  }

  lemma OneSlash(prefix: string, rest: string)
    ensures StartsWith(prefix + rest, prefix + "/") <==> StartsWith(rest, "/")
  {
    var s := prefix + rest;
    if |rest| > 0 {
      assert s[..|prefix| + 1] == prefix + rest[..1];
      if rest[..1] != "/" {
        assert (prefix + rest[..1])[|prefix|] == rest[0] && (prefix + "/")[|prefix|] == '/';
        assert rest[..1] == [rest[0]];
      }
    }
  }

  // Either scheme that Normalize knows.
  lemma SingleSlashIsRestored(scheme: string, rest: string)
    requires (scheme == "http:" || scheme == "https:") && !StartsWith(rest, "/")
    ensures Normalize(scheme + "/" + rest) == scheme + "//" + rest
  {
    NormalizeRestores(rest);
    assert "http:" + "/" + rest == "http:/" + rest && "http:" + "//" + rest == "http://" + rest;
    assert "https:" + "/" + rest == "https:/" + rest && "https:" + "//" + rest == "https://" + rest;
  }

  // ----- calls

  datatype Call = Add(url: string, kind: string, uuid: string) | Remove(ref: string)

  // The registry after one more call: a known URL is left alone.
  ghost function Apply(urlKeyed: bool, workers: seq<Worker>, c: Call): seq<Worker> {
    match c
    case Add(url, kind, uuid) =>
      if HasUrl(workers, url) then workers else Put(workers, Worker(if urlKeyed then url else uuid, url, kind))
    case Remove(ref) => Pop(workers, Normalize(ref))
  }

  ghost function ApplyAll(urlKeyed: bool, workers: seq<Worker>, calls: seq<Call>): seq<Worker> {
    var n := |calls| - 1;
    if n < 0 then workers else Apply(urlKeyed, ApplyAll(urlKeyed, workers, calls[..n]), calls[n])
  }

  // The registered URLs after any calls.
  ghost function UrlsAfter(urlKeyed: bool, calls: seq<Call>): seq<string> {
    Urls(ApplyAll(urlKeyed, [], calls))
  }

  // The URLs that the file lists: those of the last successful write.
  ghost function Listed(urlKeyed: bool, calls: seq<Call>): seq<string> {
    if |calls| == 0 || WellFormed(UrlsAfter(urlKeyed, calls)) then UrlsAfter(urlKeyed, calls)
    else Listed(urlKeyed, calls[..|calls| - 1])
  }

  lemma {:induction false} ApplyKeepsRegistry(urlKeyed: bool, workers: seq<Worker>, calls: seq<Call>)
    requires Registry(workers, urlKeyed)
    ensures Registry(ApplyAll(urlKeyed, workers, calls), urlKeyed)
  {
    hide Registry, Put, Pop, Normalize;
    var n := |calls| - 1;
    if n >= 0 {
      ApplyKeepsRegistry(urlKeyed, workers, calls[..n]);
      var before := ApplyAll(urlKeyed, workers, calls[..n]);
      match calls[n] {
        case Add(url, kind, uuid) =>
          if !HasUrl(before, url) {
            PutKeepsRegistry(before, urlKeyed, Worker(if urlKeyed then url else uuid, url, kind));
          }
        case Remove(ref) => PopKeepsRegistry(before, urlKeyed, Normalize(ref));
      }
    }
  }

  // The file lists the registry as it stood after call k, when every URL was well formed for the
  // last time.
  ghost predicate LastGood(urlKeyed: bool, calls: seq<Call>, k: nat) {
    && k <= |calls|
    && Listed(urlKeyed, calls) == UrlsAfter(urlKeyed, calls[..k]) && WellFormed(UrlsAfter(urlKeyed, calls[..k]))
    && forall j :: k < j <= |calls| ==> !WellFormed(UrlsAfter(urlKeyed, calls[..j]))
  }

  lemma {:induction false} FileIsLastGood(urlKeyed: bool, calls: seq<Call>) returns (k: nat)
    ensures LastGood(urlKeyed, calls, k)
  {
    hide UrlsAfter, WellFormed;
    var n := |calls|;
    assert calls[..n] == calls;
    NothingIsWellFormed(urlKeyed);
    if WellFormed(UrlsAfter(urlKeyed, calls)) {
      k := n;
    } else {
      k := FileIsLastGood(urlKeyed, calls[..n - 1]);
      assert forall j :: 0 <= j <= n - 1 ==> calls[..n - 1][..j] == calls[..j];
    }
  }

  lemma NothingIsWellFormed(urlKeyed: bool)
    ensures WellFormed(UrlsAfter(urlKeyed, []))
  {
  }

  // So it agrees with the registry exactly while every registered URL is well formed.
  lemma FileAgreesExactlyWhen(urlKeyed: bool, calls: seq<Call>)
    ensures Listed(urlKeyed, calls) == UrlsAfter(urlKeyed, calls) <==> WellFormed(UrlsAfter(urlKeyed, calls))
  {
    hide UrlsAfter, WellFormed;
    var k := FileIsLastGood(urlKeyed, calls);
    assert calls[..|calls|] == calls;
  }

  // Otherwise it can list a worker that is gone: a malformed URL that came before a departure
  // keeps the departure out of the file.
  lemma DepartedWorkerStaysListed(good: string, bad: string, uuid: string)
    requires SplitAddress(good).Some? && SplitAddress(bad).None? && Normalize(good) == good
    ensures var calls := [Add(good, "regular", uuid), Add(bad, "regular", uuid), Remove(good)];
            UrlsAfter(true, calls) == [bad] && Listed(true, calls) == [good]
  {
    var (c1, c2, c3) := (Add(good, "regular", uuid), Add(bad, "regular", uuid), Remove(good));
    var (w1, w2) := (Worker(good, good, "regular"), Worker(bad, bad, "regular"));
    hide SplitAddress, Normalize;
    var calls := [c1, c2, c3];
    assert calls[..2] == [c1, c2] && [c1, c2][..1] == [c1] && [c1][..0] == [];
    assert ApplyAll(true, [], [c1]) == [w1];
    assert w1.url != w2.url && !HasUrl([w1], bad);
    assert ApplyAll(true, [], [c1, c2]) == Put([w1], w2) == [w1] + Put([], w2) == [w1, w2] by {
      assert [w1][1..] == [];
    }
    assert ApplyAll(true, [], calls) == Pop([w1, w2], good) == [w2] by {
      assert [w1, w2][1..] == [w2];
    }
    assert Urls([w2]) == [bad] && Urls([w1, w2]) == [good, bad] && Urls([w1]) == [good];
    assert !WellFormed([bad]) && !WellFormed([good, bad]) && WellFormed([good]) by {
      assert [bad][0] == bad && [good, bad][1] == bad;
    }
    hide ApplyAll, WellFormed;
    assert Listed(true, [c1]) == [good];
    assert Listed(true, [c1, c2]) == [good];
    assert Listed(true, calls) == [good];
  }

  // ----- deregistration undoes registration

  lemma {:induction false} PopsCommute(workers: seq<Worker>, a: string, b: string)
    ensures Pop(Pop(workers, a), b) == Pop(Pop(workers, b), a)
  {
    if |workers| > 0 {
      var (first, rest) := (workers[0], workers[1..]);
      PopsCommute(rest, a, b);
      assert first.key != a ==> Pop(workers, a)[0] == first && Pop(workers, a)[1..] == Pop(rest, a);
      assert first.key != b ==> Pop(workers, b)[0] == first && Pop(workers, b)[1..] == Pop(rest, b);
    }
  }

  lemma {:induction false} PopOfOther(workers: seq<Worker>, w: Worker, key: string)
    requires w.key != key
    ensures Pop(workers + [w], key) == Pop(workers, key) + [w]
  {
    if |workers| == 0 {
      assert [w][1..] == [];
    } else {
      assert (workers + [w])[1..] == workers[1..] + [w];
      PopOfOther(workers[1..], w, key);
    }
  }

  // A call that names neither the worker's URL nor its reference.
  predicate Elsewhere(c: Call, url: string) {
    match c
    case Add(other, _, _) => other != url
    case Remove(ref) => Normalize(ref) != url
  }

  lemma UrlInFront(first: Worker, rest: seq<Worker>, url: string)
    ensures HasUrl([first] + rest, url) <==> first.url == url || HasUrl(rest, url)
  {
    var all := [first] + rest;
    if HasUrl(rest, url) {
      var i :| 0 <= i < |rest| && rest[i].url == url;
      assert all[i + 1].url == url;
    }
    assert all[0] == first;
    assert forall i :: 1 <= i < |all| ==> all[i] == rest[i - 1];
  }

  lemma {:induction false} PopKeepsOthers(workers: seq<Worker>, url: string, other: string)
    requires other != url && forall i :: 0 <= i < |workers| ==> workers[i].key == workers[i].url
    ensures HasUrl(Pop(workers, url), other) <==> HasUrl(workers, other)
  {
    hide HasUrl;
    if |workers| > 0 {
      var (first, rest) := (workers[0], workers[1..]);
      assert workers == [first] + rest;
      PopKeepsOthers(rest, url, other);
      UrlInFront(first, rest, other);
      UrlInFront(first, Pop(rest, url), other);
    }
  }

  lemma CallsElsewhereCommute(workers: seq<Worker>, url: string, c: Call)
    requires Registry(workers, true) && Elsewhere(c, url)
    ensures Pop(Apply(true, workers, c), url) == Apply(true, Pop(workers, url), c)
  {
    match c {
      case Add(other, kind, uuid) =>
        PopKeepsOthers(workers, url, other);
        if !HasUrl(workers, other) {
          var w := Worker(other, other, kind);
          PopKeepsRegistry(workers, true, url);
          hide Pop, Put;
          NewKeyIsNew(workers, other);
          NewKeyIsNew(Pop(workers, url), other);
          PutFresh(workers, w);
          PutFresh(Pop(workers, url), w);
          PopOfOther(workers, w, url);
        }
      case Remove(ref) => PopsCommute(workers, url, Normalize(ref));
    }
  }

  lemma NewKeyIsNew(workers: seq<Worker>, url: string)
    requires Registry(workers, true) && !HasUrl(workers, url)
    ensures !HasKey(workers, url)
  {
    assert forall i :: 0 <= i < |workers| ==> workers[i].key == workers[i].url;
  }

  // In URL-keyed mode, deregistering by the single-slash form undoes exactly the registration:
  // whatever was called about other workers in between, the registry is what it would have been
  // without the worker.
  lemma SingleSlashUndoes(workers: seq<Worker>, scheme: string, rest: string, kind: string, calls: seq<Call>)
    requires Registry(workers, true) && (scheme == "http:" || scheme == "https:") && !StartsWith(rest, "/")
    requires !HasUrl(workers, scheme + "//" + rest)
    requires forall i :: 0 <= i < |calls| ==> Elsewhere(calls[i], scheme + "//" + rest)
    ensures var url := scheme + "//" + rest;
            var after := ApplyAll(true, Apply(true, workers, Add(url, kind, url)), calls);
            Apply(true, after, Remove(scheme + "/" + rest)) == ApplyAll(true, workers, calls)
  {
    var url := scheme + "//" + rest;
    SingleSlashIsRestored(scheme, rest);
    hide Normalize, Elsewhere;
    var w := Worker(url, url, kind);
    NewKeyIsNew(workers, url);
    PopUndoesPut(workers, w);
    PutKeepsRegistry(workers, true, w);
    PopAfterCalls(Put(workers, w), url, calls);
  }

  lemma {:induction false} PopAfterCalls(workers: seq<Worker>, url: string, calls: seq<Call>)
    requires Registry(workers, true)
    requires forall i :: 0 <= i < |calls| ==> Elsewhere(calls[i], url)
    ensures Pop(ApplyAll(true, workers, calls), url) == ApplyAll(true, Pop(workers, url), calls)
  {
    hide Pop, Apply, Elsewhere, Registry;
    var n := |calls| - 1;
    if n >= 0 {
      PopAfterCalls(workers, url, calls[..n]);
      ApplyKeepsRegistry(true, workers, calls[..n]);
      CallsElsewhereCommute(ApplyAll(true, workers, calls[..n]), url, calls[n]);
    }
  }

  // ----- the shim

  class RegistrationShim {
    const engineType: string
    const urlKeyed: bool
    var workers: seq<Worker>
    var file: seq<Endpoint>
    // Every registration and deregistration so far.
    ghost var calls: seq<Call>

    // The registry is what the calls made it, and the file lists the URLs of the last good write.
    ghost predicate Valid()
      reads this
    {
      && Registry(workers, urlKeyed)
      && workers == ApplyAll(urlKeyed, [], calls)
      && Lists(file, Listed(urlKeyed, calls), engineType)
    }

    // Startup writes the empty file.
    constructor (engineType: string, urlKeyed: bool)
      ensures Valid() && this.engineType == engineType && this.urlKeyed == urlKeyed && calls == []
    {
      this.engineType, this.urlKeyed := engineType, urlKeyed;
      workers, file, calls := [], [], [];
    }

    // Rewrites the file, or fails and leaves it when some registered URL is malformed.
    method WriteEndpoints() returns (ok: bool)
      modifies this`file
      ensures ok <==> WellFormed(Urls(workers))
      ensures if ok then Lists(file, Urls(workers), engineType) else file == old(file)
    {
      var entries := RolloutEndpoints(Urls(workers), engineType);
      ok := entries.Some?;
      if ok {
        file := entries.value;
      }
    }

    // Registers a worker under its URL or the given key, unless its URL is known. The answer is
    // the key of the worker; a malformed URL anywhere makes the call fail after registering.
    method Register(url: string, kind: string, uuid: string) returns (key: Option<string>)
      requires Valid()
      modifies this
      ensures Valid() && calls == old(calls) + [Add(url, kind, uuid)]
      ensures workers == Apply(urlKeyed, old(workers), Add(url, kind, uuid))
      ensures HasUrl(old(workers), url) ==> key.Some? && Pairs(workers, key.value, url) && file == old(file)
      ensures !HasUrl(old(workers), url) ==>
        key == if WellFormed(Urls(workers)) then Some(if urlKeyed then url else uuid) else None
      ensures !WellFormed(Urls(workers)) ==> file == old(file)
    {
      hide Lists, WellFormed, Put, Registry;
      CallsSnoc(urlKeyed, calls, Add(url, kind, uuid));
      calls := calls + [Add(url, kind, uuid)];
      for i := 0 to |workers|
        invariant forall j :: 0 <= j < i ==> workers[j].url != url
        invariant workers == old(workers) && file == old(file) && calls == old(calls) + [Add(url, kind, uuid)]
      {
        if workers[i].url == url {
          assert Pairs(workers, workers[i].key, url);
          assert HasUrl(workers, url);
          return Some(workers[i].key);
        }
      }
      assert !HasUrl(workers, url);
      var w := Worker(if urlKeyed then url else uuid, url, kind);
      PutKeepsRegistry(workers, urlKeyed, w);
      workers := Put(workers, w);
      var ok := WriteEndpoints();
      key := if ok then Some(w.key) else None;
    }

    // Removes the worker that a reference names. None stands for the error that a malformed URL
    // among the remaining workers causes after the removal.
    method Deregister(ref: string) returns (found: Option<bool>)
      requires Valid()
      modifies this
      ensures Valid() && calls == old(calls) + [Remove(ref)] && workers == Pop(old(workers), Normalize(ref))
      ensures !HasKey(old(workers), Normalize(ref)) ==> found == Some(false) && file == old(file)
      ensures HasKey(old(workers), Normalize(ref)) ==> found == if WellFormed(Urls(workers)) then Some(true) else None
      ensures !WellFormed(Urls(workers)) ==> file == old(file)
    {
      hide Lists, WellFormed, Pop, Registry, Normalize;
      var key := Normalize(ref);
      PopKeepsRegistry(workers, urlKeyed, key);
      CallsSnoc(urlKeyed, calls, Remove(ref));
      calls := calls + [Remove(ref)];
      for i := 0 to |workers|
        invariant forall j :: 0 <= j < i ==> workers[j].key != key
        invariant workers == old(workers) && file == old(file) && calls == old(calls) + [Remove(ref)]
      {
        if workers[i].key == key {
          assert HasKey(workers, key);
          workers := Pop(workers, key);
          var ok := WriteEndpoints();
          return if ok then Some(true) else None;
        }
      }
      assert !HasKey(workers, key);
      PopAbsent(workers, key);
      found := Some(false);
    }
  }

  // ----- the registry, from the calls alone

  // The call registers exactly this worker.
  predicate Adds(urlKeyed: bool, c: Call, w: Worker) {
    c.Add? && c.url == w.url && c.kind == w.kind && w.key == if urlKeyed then c.url else c.uuid
  }

  lemma {:induction false} PutHolds(workers: seq<Worker>, w: Worker, x: Worker)
    requires x in Put(workers, w)
    ensures x == w || x in workers
  {
    if |workers| > 0 && workers[0].key != w.key && x != workers[0] {
      assert x in Put(workers[1..], w);
      PutHolds(workers[1..], w, x);
    }
  }

  lemma {:induction false} PopHolds(workers: seq<Worker>, key: string, x: Worker)
    requires x in Pop(workers, key)
    ensures x in workers
  {
    if |workers| > 0 && workers[0].key != key && x != workers[0] {
      assert x in Pop(workers[1..], key);
      PopHolds(workers[1..], key, x);
    }
  }

  // Every registered worker has the URL and the kind it was registered with, under that URL or under
  // the key it was given.
  lemma {:induction false} WorkersWereAdded(urlKeyed: bool, calls: seq<Call>, w: Worker) returns (i: nat)
    requires w in ApplyAll(urlKeyed, [], calls)
    ensures i < |calls| && Adds(urlKeyed, calls[i], w)
  {
    hide Put, Pop, Normalize, Adds, HasUrl;
    var n := |calls| - 1;
    var before := ApplyAll(urlKeyed, [], calls[..n]);
    if w in before {
      i := WorkersWereAdded(urlKeyed, calls[..n], w);
    } else {
      i := n;
      match calls[n] {
        case Add(url, kind, uuid) => AddsItself(urlKeyed, before, url, kind, uuid, w);
        case Remove(ref) => PopHolds(before, Normalize(ref), w);
      }
    }
  }

  lemma AddsItself(urlKeyed: bool, before: seq<Worker>, url: string, kind: string, uuid: string, w: Worker)
    requires w in Apply(urlKeyed, before, Add(url, kind, uuid)) && w !in before
    ensures Adds(urlKeyed, Add(url, kind, uuid), w)
  {
    hide Put;
    PutHolds(before, Worker(if urlKeyed then url else uuid, url, kind), w);
  }

  // Call i registers the URL, and no later one names it.
  ghost predicate StandsSince(calls: seq<Call>, i: nat, url: string) {
    && i < |calls| && calls[i].Add? && calls[i].url == url
    && forall j :: i < j < |calls| && calls[j].Remove? ==> Normalize(calls[j].ref) != url
  }

  lemma PutFreshHasUrl(workers: seq<Worker>, w: Worker, url: string)
    requires !HasKey(workers, w.key)
    ensures HasUrl(Put(workers, w), url) <==> HasUrl(workers, url) || url == w.url
  {
    PutFresh(workers, w);
    var all := workers + [w];
    if HasUrl(workers, url) {
      var i :| 0 <= i < |workers| && workers[i].url == url;
      assert all[i].url == url;
    }
    assert all[|workers|] == w;
    assert forall i :: 0 <= i < |workers| ==> all[i] == workers[i];
  }

  // One more call, in URL-keyed mode.
  lemma ApplyHasUrl(workers: seq<Worker>, c: Call, url: string)
    requires Registry(workers, true)
    ensures HasUrl(Apply(true, workers, c), url)
            <==> if c.Add? then HasUrl(workers, url) || c.url == url else HasUrl(workers, url) && Normalize(c.ref) != url
  {
    hide Normalize;
    match c {
      case Add(other, kind, uuid) =>
        if !HasUrl(workers, other) {
          NewKeyIsNew(workers, other);
          PutFreshHasUrl(workers, Worker(other, other, kind), url);
        }
      case Remove(ref) =>
        var key := Normalize(ref);
        PopKeepsRegistry(workers, true, key);
        if key == url {
          UrlIsKey(Pop(workers, key), url);
        } else {
          PopKeepsOthers(workers, key, url);
        }
    }
  }

  lemma UrlIsKey(workers: seq<Worker>, url: string)
    requires Registry(workers, true) && !HasKey(workers, url)
    ensures !HasUrl(workers, url)
  {
    assert forall i :: 0 <= i < |workers| ==> workers[i].key == workers[i].url;
  }

  // In URL-keyed mode a URL is registered exactly when some call registered it and no deregistration
  // has named it since, by the URL itself or by its single-slash form.
  lemma {:induction false} RegisteredExactlyWhen(calls: seq<Call>, url: string)
    ensures HasUrl(ApplyAll(true, [], calls), url) <==> exists i :: StandsSince(calls, i, url)
  {
    hide Apply, HasUrl, Registry, Normalize;
    var n := |calls| - 1;
    if n < 0 {
      NobodyYet(url);
    } else {
      var before := ApplyAll(true, [], calls[..n]);
      NobodyYet(url);
      ApplyKeepsRegistry(true, [], calls[..n]);
      RegisteredExactlyWhen(calls[..n], url);
      ApplyHasUrl(before, calls[n], url);
      forall i: nat | i < n
        ensures StandsSince(calls, i, url)
                <==> StandsSince(calls[..n], i, url) && !(calls[n].Remove? && Normalize(calls[n].ref) == url)
      {
      }
      assert StandsSince(calls, n, url) <==> calls[n].Add? && calls[n].url == url;
    }
  }

  lemma NobodyYet(url: string)
    ensures !HasUrl([], url) && Registry([], true)
  {
  }

  // A URL is listed with these parts.
  ghost predicate ListsParts(file: seq<Endpoint>, host: string, port: string) {
    exists i :: 0 <= i < |file| && file[i].rankIndex == i && file[i].address == host && file[i].port == port
  }

  lemma UrlAfterAdd(urlKeyed: bool, calls: seq<Call>, url: string, kind: string, uuid: string) returns (i: nat)
    ensures var urls := UrlsAfter(urlKeyed, calls + [Add(url, kind, uuid)]); i < |urls| && urls[i] == url
  {
    hide Put;
    var before := ApplyAll(urlKeyed, [], calls);
    CallsSnoc(urlKeyed, calls, Add(url, kind, uuid));
    if HasUrl(before, url) {
      i :| 0 <= i < |before| && before[i].url == url;
    } else {
      i := UrlAfterPut(before, Worker(if urlKeyed then url else uuid, url, kind));
    }
  }

  lemma {:induction false} UrlAfterPut(workers: seq<Worker>, w: Worker) returns (i: nat)
    ensures i < |Put(workers, w)| && Put(workers, w)[i].url == w.url
  {
    if |workers| > 0 && workers[0].key != w.key {
      var k := UrlAfterPut(workers[1..], w);
      i := k + 1;
    } else {
      i := 0;
    }
  }

  // Registering scheme://host:port, or scheme://[host]:port, with every URL well formed leaves an
  // entry of exactly that host and port in the file.
  lemma RegisteredUrlIsListed(urlKeyed: bool, calls: seq<Call>, file: seq<Endpoint>, engineType: string,
                              scheme: string, host: string, port: string, bracketed: bool, kind: string, uuid: string)
    requires ':' !in scheme
    requires if bracketed then ']' !in host else ':' !in port && |host| > 0 && host[0] != '['
    requires var url := scheme + "://" + if bracketed then "[" + host + "]:" + port else host + ":" + port;
             var all := calls + [Add(url, kind, uuid)];
             WellFormed(UrlsAfter(urlKeyed, all)) && Lists(file, Listed(urlKeyed, all), engineType)
    ensures ListsParts(file, host, port)
  {
    var url := scheme + "://" + if bracketed then "[" + host + "]:" + port else host + ":" + port;
    var all := calls + [Add(url, kind, uuid)];
    var i := UrlAfterAdd(urlKeyed, calls, url, kind, uuid);
    hide UrlsAfter, WellFormed, Lists;
    FileAgreesExactlyWhen(urlKeyed, all);
    UrlEntryReads(file, UrlsAfter(urlKeyed, all), engineType, i, scheme, host, port);
    EntryReads(file, UrlsAfter(urlKeyed, all), engineType, i);
  }

  // The registry and the file's URLs after one more call. A call that leaves the registry alone
  // leaves the list alone too.
  lemma CallsSnoc(urlKeyed: bool, calls: seq<Call>, c: Call)
    ensures var (before, all) := (ApplyAll(urlKeyed, [], calls), calls + [c]);
            && ApplyAll(urlKeyed, [], all) == Apply(urlKeyed, before, c)
            && Listed(urlKeyed, all) == (if WellFormed(UrlsAfter(urlKeyed, all)) then UrlsAfter(urlKeyed, all) else Listed(urlKeyed, calls))
            && (ApplyAll(urlKeyed, [], all) == before ==> Listed(urlKeyed, all) == Listed(urlKeyed, calls))
  {
    hide Apply, WellFormed;
    assert (calls + [c])[..|calls|] == calls;
    FileAgreesExactlyWhen(urlKeyed, calls);
  }
}
