// The string operations the models need: decimal numerals and splitting at the last separator.

module Text {

  datatype Option<+T> = None | Some(value: T)

  function Digit(d: nat): char
    requires d < 10
  {
    '0' + d as char
  }

  // str(n) of a non-negative integer.
  function Numeral(n: nat): (s: string)
    ensures |s| > 0
    ensures forall i :: 0 <= i < |s| ==> '0' <= s[i] <= '9'
  {
    if n < 10 then [Digit(n)] else Numeral(n / 10) + [Digit(n % 10)]
  }

  function ParseNumeral(s: string): Option<nat> {
    if |s| == 0 || !('0' <= s[|s| - 1] <= '9') then None
    else
      var d := (s[|s| - 1] - '0') as nat;
      if |s| == 1 then Some(d)
      else
        match ParseNumeral(s[..|s| - 1])
        case None => None
        case Some(n) => Some(10 * n + d)
  }

  lemma {:induction false} NumeralRoundTrip(n: nat)
    ensures ParseNumeral(Numeral(n)) == Some(n)
  {
    if n >= 10 {
      NumeralRoundTrip(n / 10);
      assert Numeral(n)[..|Numeral(n)| - 1] == Numeral(n / 10);
    }
  }

  function IntText(n: int): string {
    if n < 0 then "-" + Numeral(-n) else Numeral(n)
  }

  function ParseInt(s: string): Option<int> {
    if |s| > 0 && s[0] == '-' then
      var magnitude := ParseNumeral(s[1..]);
      if magnitude.None? then None
      else
        var n: int := magnitude.value;
        Some(-n)
    else ParseNumeral(s)
  }

  lemma IntRoundTrip(n: int)
    ensures ParseInt(IntText(n)) == Some(n)
    ensures ':' !in IntText(n)
  {
    NumeralRoundTrip(if n < 0 then -n else n);
    if n < 0 {
      assert IntText(n)[1..] == Numeral(-n);
    }
  }

  lemma NumeralInjective(a: nat, b: nat)
    requires Numeral(a) == Numeral(b)
    ensures a == b
  {
    NumeralRoundTrip(a);
    NumeralRoundTrip(b);
  }

  // What stands before and after the last c; ("", s) when c does not occur.
  function SplitLast(s: string, c: char): (string, string) {
    if |s| == 0 then ("", "")
    else
      var n := |s| - 1;
      if s[n] == c then (s[..n], "")
      else
        var (head, tail) := SplitLast(s[..n], c);
        (head, tail + [s[n]])
  }

  lemma {:induction false} SplitLastJoined(head: string, c: char, tail: string)
    requires c !in tail
    ensures SplitLast(head + [c] + tail, c) == (head, tail)
  {
    var s := head + [c] + tail;
    if |tail| == 0 {
      assert s == head + [c];
    } else {
      var n := |tail| - 1;
      SplitLastJoined(head, c, tail[..n]);
      assert s[..|s| - 1] == head + [c] + tail[..n];
      assert tail == tail[..n] + [tail[n]];
    }
  }
}
