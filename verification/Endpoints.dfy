// The endpoints file: addresses split into host and port, one ranked entry for each.

module Endpoints {
  import opened Text

  predicate StartsWith(s: string, prefix: string) {
    |prefix| <= |s| && s[..|prefix|] == prefix
  }

  // What follows the first "://", or the whole string.
  function AfterScheme(s: string): string {
    if HasScheme(s) then DropScheme(s) else s
  }

  predicate HasScheme(s: string) {
    |s| > 0 && (StartsWith(s, "://") || HasScheme(s[1..]))
  }

  function DropScheme(s: string): string
    requires HasScheme(s)
  {
    if StartsWith(s, "://") then s[3..] else DropScheme(s[1..])
  }

  function FirstIndex(s: string, c: char): (i: nat)
    requires c in s
    ensures i < |s| && s[i] == c && c !in s[..i]
  {
    if s[0] == c then 0
    else
      var i := FirstIndex(s[1..], c);
      assert s[..i + 1] == [s[0]] + s[1..][..i];
      1 + i
  }

  datatype Address = Address(host: string, port: string)

  // host:port, [ipv6]:port or scheme://host:port; anything else is an error.
  function SplitAddress(serverAddress: string): Option<Address> {
    var s := AfterScheme(serverAddress);
    if StartsWith(s, "[") then
      if ']' !in s then None
      else
        var end := FirstIndex(s, ']');
        var rest := s[end + 1..];
        if StartsWith(rest, ":") then Some(Address(s[1..end], rest[1..])) else None
    else if ':' !in s then None
    else
      var (host, port) := SplitLast(s, ':');
      Some(Address(host, port))
  }

  lemma {:induction false} SplitLastParts(s: string, c: char)
    requires c in s
    ensures var (head, tail) := SplitLast(s, c); s == head + [c] + tail && c !in tail
  {
    var n := |s| - 1;
    if s[n] == c {
      assert s == s[..n] + [c] + "";
    } else {
      assert s == s[..n] + [s[n]];
      SplitLastParts(s[..n], c);
    }
  }

  // What stands after the closing bracket of a bracketed address.
  function AfterBracket(s: string): string
    requires ']' in s
  {
    s[FirstIndex(s, ']') + 1..]
  }

  lemma BracketParts(s: string)
    requires StartsWith(s, "[") && ']' in s && StartsWith(AfterBracket(s), ":")
    ensures var (end, rest) := (FirstIndex(s, ']'), AfterBracket(s));
            0 < end && s == "[" + s[1..end] + "]:" + rest[1..] && ']' !in s[1..end]
  {
    var (end, rest) := (FirstIndex(s, ']'), AfterBracket(s));
    assert s[0] == '[' && s[..1][0] == '[';
    assert rest == ":" + rest[1..];
    assert s[..end][1..] == s[1..end];
  }

  // An address that splits is exactly its parts put back together: the port is what follows the
  // last colon, and a bracketed host is what stands between the brackets.
  lemma SplitIsExact(serverAddress: string)
    ensures var s := AfterScheme(serverAddress);
            match SplitAddress(serverAddress)
            case None => if StartsWith(s, "[") then ']' in s ==> !StartsWith(AfterBracket(s), ":") else ':' !in s
            case Some(Address(host, port)) =>
              if StartsWith(s, "[") then s == "[" + host + "]:" + port && ']' !in host
              else s == host + ":" + port && ':' !in port
  {
    hide AfterScheme;
    var s := AfterScheme(serverAddress);
    if StartsWith(s, "[") {
      if ']' in s && StartsWith(AfterBracket(s), ":") {
        BracketParts(s);
      }
    } else if ':' in s {
      hide SplitLast;
      SplitLastParts(s, ':');
    }
  }

  lemma {:induction false} SchemeDrops(scheme: string, rest: string)
    requires ':' !in scheme
    ensures AfterScheme(scheme + "://" + rest) == rest
  {
    var s := scheme + "://" + rest;
    if |scheme| == 0 {
      assert s[..3] == "://" && s[3..] == rest;
    } else {
      assert s[0] == scheme[0] && s[1..] == scheme[1..] + "://" + rest;
      assert s[..3][0] != ':';
      SchemeDrops(scheme[1..], rest);
    }
  }

  lemma FirstIndexIs(s: string, c: char, i: nat)
    requires i < |s| && s[i] == c && c !in s[..i]
    ensures FirstIndex(s, c) == i
  {
    hide FirstIndex;
  }

  // A URL with a plain host ...
  lemma UrlSplits(scheme: string, host: string, port: string)
    requires ':' !in scheme && ':' !in port && |host| > 0 && host[0] != '['
    ensures SplitAddress(scheme + "://" + (host + ":" + port)) == Some(Address(host, port))
  {
    var s := host + ":" + port;
    SchemeDrops(scheme, s);
    hide AfterScheme, SplitLast;
    assert s[0] == host[0] && s[..1] == [host[0]];
    assert s[|host|] == ':';
    SplitLastJoined(host, ':', port);
  }

  lemma Bracketed(host: string, port: string)
    requires ']' !in host
    ensures var s := "[" + host + "]:" + port;
            && StartsWith(s, "[") && ']' in s && FirstIndex(s, ']') == |host| + 1
            && s[1..|host| + 1] == host && s[|host| + 2..] == ":" + port
  {
    hide FirstIndex;
    var s := "[" + host + "]:" + port;
    assert s[..1] == "[" && s[|host| + 1] == ']' && s[..|host| + 1] == "[" + host;
    FirstIndexIs(s, ']', |host| + 1);
  }

  // ... and one with an IPv6 host in brackets (section 3.2.2 of RFC 3986).
  lemma BracketedUrlSplits(scheme: string, host: string, port: string)
    requires ':' !in scheme && ']' !in host
    ensures SplitAddress(scheme + "://" + ("[" + host + "]:" + port)) == Some(Address(host, port))
  {
    hide AfterScheme, FirstIndex;
    SchemeDrops(scheme, "[" + host + "]:" + port);
    Bracketed(host, port);
    assert (":" + port)[..1] == ":" && (":" + port)[1..] == port;
  }

  // ----- the file

  datatype Endpoint = Endpoint(name: string, address: string, port: string, rankIndex: nat, engineType: string)

  function EndpointOf(engineType: string, i: nat, a: Address): Endpoint {
    Endpoint(engineType + "-replica-" + Numeral(i), a.host, a.port, i, engineType)
  }

  predicate WellFormed(addresses: seq<string>) {
    forall i :: 0 <= i < |addresses| ==> SplitAddress(addresses[i]).Some?
  }

  // The file lists these addresses in order, each once and split, ranked by its place.
  ghost predicate Lists(file: seq<Endpoint>, addresses: seq<string>, engineType: string) {
    && |file| == |addresses| && WellFormed(addresses)
    && forall i :: 0 <= i < |file| ==> file[i] == EndpointOf(engineType, i, SplitAddress(addresses[i]).value)
  }

  // The new contents of the file; a malformed address is an error and leaves the file alone.
  method RolloutEndpoints(addresses: seq<string>, engineType: string) returns (entries: Option<seq<Endpoint>>)
    ensures entries.Some? <==> WellFormed(addresses)
    ensures entries.Some? ==> Lists(entries.value, addresses, engineType)
  {
    hide SplitAddress, EndpointOf;
    var out: seq<Endpoint> := [];
    for i := 0 to |addresses|
      invariant Lists(out, addresses[..i], engineType)
    {
      var a := SplitAddress(addresses[i]);
      if a.None? {
        return None;
      }
      assert addresses[..i + 1] == addresses[..i] + [addresses[i]];
      out := out + [EndpointOf(engineType, i, a.value)];
    }
    assert addresses[..|addresses|] == addresses;
    entries := Some(out);
  }

  // Reading an entry: it is ranked by its place, named after the engine and the place, and its
  // address and port are those of the address behind its scheme, in that order.
  lemma EntryReads(file: seq<Endpoint>, addresses: seq<string>, engineType: string, i: nat)
    requires Lists(file, addresses, engineType) && i < |file|
    ensures |file| == |addresses|
    ensures file[i].rankIndex == i && file[i].engineType == engineType
    ensures file[i].name == engineType + "-replica-" + Numeral(i)
    ensures var s := AfterScheme(addresses[i]);
            if StartsWith(s, "[") then s == "[" + file[i].address + "]:" + file[i].port && ']' !in file[i].address
            else s == file[i].address + ":" + file[i].port && ':' !in file[i].port
  {
    hide AfterScheme, SplitAddress;
    SplitIsExact(addresses[i]);
  }

  // The entry of a URL with a plain host, and of one with a bracketed host.
  lemma UrlEntryReads(file: seq<Endpoint>, addresses: seq<string>, engineType: string, i: nat, scheme: string, host: string, port: string)
    requires Lists(file, addresses, engineType) && i < |addresses| && ':' !in scheme
    ensures |file| == |addresses|
    ensures addresses[i] == scheme + "://" + (host + ":" + port) && ':' !in port && |host| > 0 && host[0] != '['
            ==> file[i].address == host && file[i].port == port
    ensures addresses[i] == scheme + "://" + ("[" + host + "]:" + port) && ']' !in host
            ==> file[i].address == host && file[i].port == port
  {
    hide SplitAddress;
    if ':' !in port && |host| > 0 && host[0] != '[' {
      UrlSplits(scheme, host, port);
    }
    if ']' !in host {
      BracketedUrlSplits(scheme, host, port);
    }
  }
}
