// Naming a replica's P2P control socket, and how the client reads the name back.

module Addressing {
  import opened Text

  const LOOPBACK_NET := "127.0.7."

  // One loopback IP per replica; the block has room for 254 of them.
  function ListenerHost(index: int): (host: Option<string>)
    ensures host.None? <==> index < 0 || index > 253
  {
    if index < 0 || index > 253 then None else Some(LOOPBACK_NET + Numeral(index + 1))
  }

  function SocketName(host: string, port: int): string {
    host + ":" + IntText(port)
  }

  // The client's reading of a kv_source: everything before the last colon, and the port after it.
  function ReadSocketName(source: string): (string, Option<int>) {
    var (host, port) := SplitLast(source, ':');
    (host, ParseInt(port))
  }

  lemma SocketNameRoundTrip(host: string, port: int)
    ensures ReadSocketName(SocketName(host, port)) == (host, Some(port))
  {
    IntRoundTrip(port);
    SplitLastJoined(host, ':', IntText(port));
    assert host + ":" + IntText(port) == host + [':'] + IntText(port);
  }

  // Two replicas never share a listener host.
  lemma ListenerHostInjective(i: int, j: int)
    requires ListenerHost(i).Some? && ListenerHost(i) == ListenerHost(j)
    ensures i == j
  {
    var (a, b) := (LOOPBACK_NET + Numeral(i + 1), LOOPBACK_NET + Numeral(j + 1));
    assert a[8..] == Numeral(i + 1) && b[8..] == Numeral(j + 1);
    NumeralInjective(i + 1, j + 1);
  }

  // The first and the last address of the loopback block, and a socket in it.
  lemma BlockEnds()
    ensures ListenerHost(0) == Some("127.0.7.1") && ListenerHost(253) == Some("127.0.7.254")
    ensures SocketName("127.0.7.254", 7777) == "127.0.7.254:7777"
  {
    assert Numeral(1) == "1" && Numeral(25) == "25" && Numeral(254) == "254";
    assert "127.0.7." + "1" == "127.0.7.1" && "127.0.7." + "254" == "127.0.7.254";
    assert Numeral(77) == "77" && Numeral(777) == "777" && Numeral(7777) == "7777";
  }
}
