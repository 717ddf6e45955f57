// The hand-written subset of the protobuf wire format: the encoders of the ext-proc requests and
// the decoder that reads headers out of a response. See the Protocol Buffers Encoding document,
// sections "Base 128 Varints" and "Message Structure".

module Protobuf {
  import opened Powers
  import opened Text

  type Byte = x: int | 0 <= x < 256
  type Bytes = seq<Byte>

  // ----- varints

  // Seven bits a byte, least significant first; the top bit says that more follow.
  function Varint(n: nat): (bytes: Bytes)
    ensures |bytes| > 0
  {
    if n > 127 then [n % 128 + 128] + Varint(n / 128) else [n]
  }

  // What was read from the front, and how many bytes it took.
  datatype Read = Read(value: nat, size: nat)

  // Nothing is read when the bytes run out before a final one.
  function ReadVarint(data: Bytes): (r: Option<Read>)
    ensures r.Some? ==> 0 < r.value.size <= |data|
  {
    if |data| == 0 then None
    else if data[0] < 128 then Some(Read(data[0], 1))
    else Preceded(data[0] % 128, ReadVarint(data[1..]))
  }

  // A reading behind one more byte with the lowest seven bits.
  function Preceded(low: nat, rest: Option<Read>): Option<Read> {
    match rest
    case None => None
    case Some(Read(v, n)) => Some(Read(low + 128 * v, n + 1))
  }

  // A reading from `start` on, told by the position it ends at.
  function EndingAt(start: nat, r: Option<Read>): Option<Read> {
    match r
    case None => None
    case Some(Read(v, n)) => Some(Read(v, start + n))
  }

  lemma {:induction false} VarintRoundTrip(n: nat, rest: Bytes)
    ensures ReadVarint(Varint(n) + rest) == Some(Read(n, |Varint(n)|))
  {
    if n > 127 {
      VarintRoundTrip(n / 128, rest);
      assert (Varint(n) + rest)[1..] == Varint(n / 128) + rest;
    }
  }

  // Bytes that hold a complete varint keep their reading whatever follows them.
  lemma {:induction false} ReadVarintExtends(data: Bytes, rest: Bytes)
    requires ReadVarint(data).Some?
    ensures ReadVarint(data + rest) == ReadVarint(data)
  {
    if data[0] >= 128 {
      ReadVarintExtends(data[1..], rest);
      assert (data + rest)[1..] == data[1..] + rest;
    }
  }

  lemma Regroup(n: nat, p: nat, q: nat, r: nat, t: nat)
    requires r < p && t < 128 && n == 128 * (q * p + r) + t
    ensures n == q * (128 * p) + (128 * r + t) && 128 * r + t < 128 * p
  {
  }

  lemma DivideTwice(n: nat, p: nat)
    requires p > 0
    ensures n / 128 / p == n / (128 * p)
  {
    var m := n / 128;
    Regroup(n, p, m / p, m % p, n % 128);
    ModUnique(n, 128 * p, m / p, 128 * (m % p) + n % 128);
  }

  // Byte i holds bits 7i to 7i + 6, and its top bit says whether another byte follows; the last byte
  // is the one that holds the top bits.
  lemma {:induction false} VarintBytes(n: nat, i: nat)
    requires i < |Varint(n)|
    ensures Varint(n)[i] == n / Pow2(7 * i) % 128 + if i + 1 < |Varint(n)| then 128 else 0
    ensures i + 1 == |Varint(n)| <==> n < Pow2(7 * i + 7)
  {
    Pow2By7(7 * i);
    if i == 0 {
      assert Pow2(0) == 1 && Pow2(7) == 128;
      assert n <= 127 <==> |Varint(n)| == 1;
    } else {
      VarintBytes(n / 128, i - 1);
      var p := Pow2(7 * (i - 1));
      Pow2By7(7 * (i - 1));
      assert 7 * i == 7 * (i - 1) + 7;
      DivideTwice(n, p);
      BelowMultiple(n, Pow2(7 * i));
    }
  }

  lemma BelowMultiple(n: nat, p: nat)
    ensures n / 128 < p <==> n < 128 * p
  {
  }

  method EncodeVarint(value: nat) returns (buf: Bytes)
    ensures buf == Varint(value)
  {
    var n := value;
    buf := [];
    while n > 127
      invariant Varint(value) == buf + Varint(n)
    {
      buf := buf + [n % 128 + 128];
      n := n / 128;
    }
    buf := buf + [n];
  }

  lemma Pow2By7(k: nat)
    ensures Pow2(k + 7) == 128 * Pow2(k)
  {
    Pow2By4(k + 3);
    assert Pow2(k + 3) == 2 * Pow2(k + 2) == 4 * Pow2(k + 1);
  }

  // A reading continued from `result`, whose bits below `shift` are set, after `done` bytes.
  function Continued(result: nat, shift: nat, done: nat, rest: Option<Read>): Option<Read> {
    match rest
    case None => None
    case Some(Read(v, n)) => Some(Read(result + Pow2(shift) * v, done + n))
  }

  lemma ContinuedStep(result: nat, shift: nat, done: nat, low: nat, rest: Option<Read>)
    requires low < 128
    ensures Continued(result, shift, done, Preceded(low, rest)) == Continued(result + low * Pow2(shift), shift + 7, done + 1, rest)
  {
    Pow2By7(shift);
    if rest.Some? {
      var (v, p) := (rest.value.value, Pow2(shift));
      assert p * (low + 128 * v) == low * p + 128 * p * v;
    }
  }

  lemma ContinuedEnds(result: nat, shift: nat, done: nat, b: nat)
    ensures Continued(0, 0, 0, Some(Read(b, 1))) == Some(Read(b, 1))
    ensures Continued(result, shift, done, Some(Read(b, 1))) == Some(Read(result + b * Pow2(shift), done + 1))
    ensures Continued(result, shift, done, None) == None
  {
  }

  lemma ContinuedFromStart(r: Option<Read>)
    ensures Continued(0, 0, 0, r) == r
  {
  }

  // The bits of each byte land above those already set, so or-ing them in is adding them.
  method DecodeVarint(data: Bytes, start: nat) returns (r: Option<Read>)
    requires start <= |data|
    ensures r == EndingAt(start, ReadVarint(data[start..]))
  {
    hide Continued, Pow2;
    var result: nat, shift: nat, pos: nat := 0, 0, start;
    ContinuedFromStart(ReadVarint(data[start..]));
    while true
      invariant start <= pos <= |data|
      invariant ReadVarint(data[start..]) == Continued(result, shift, pos - start, ReadVarint(data[pos..]))
      decreases |data| - pos
    {
      if pos >= |data| {
        ContinuedEnds(result, shift, pos - start, 0);
        return None;
      }
      var b := data[pos];
      assert data[pos..][1..] == data[pos + 1..];
      ContinuedEnds(result, shift, pos - start, b);
      ContinuedStep(result, shift, pos - start, b % 128, ReadVarint(data[pos + 1..]));
      pos := pos + 1;
      result := result + b % 128 * Pow2(shift);
      if b < 128 {
        return Some(Read(result, pos));
      }
      shift := shift + 7;
    }
  }

  // ----- fields

  function Lv(field: nat, data: Bytes): Bytes {
    Varint(8 * field + 2) + Varint(|data|) + data
  }

  function BoolField(field: nat, value: bool): Bytes {
    Varint(8 * field) + [if value then 1 else 0]
  }

  // Bytes on the wire: 150 and 300 as varints, and "testing" under field 2, as the Encoding document
  // gives them, and a false flag under field 3.
  lemma DocumentedBytes()
    ensures Varint(150) == [0x96, 0x01] && Varint(300) == [0xAC, 0x02]
    ensures Lv(2, [0x74, 0x65, 0x73, 0x74, 0x69, 0x6e, 0x67]) == [0x12, 0x07, 0x74, 0x65, 0x73, 0x74, 0x69, 0x6e, 0x67]
    ensures BoolField(3, false) == [0x18, 0x00]
  {
  }

  // One record of a message: the wire types that the decoder knows.
  datatype Record =
    | Number(field: nat, value: nat)
    | Fixed64(field: nat, bytes: Bytes)
    | Payload(field: nat, data: Bytes)
    | Fixed32(field: nat, bytes: Bytes)

  predicate Sized(r: Record) {
    (r.Fixed64? ==> |r.bytes| == 8) && (r.Fixed32? ==> |r.bytes| == 4)
  }

  predicate AllSized(rs: seq<Record>) {
    forall i :: 0 <= i < |rs| ==> Sized(rs[i])
  }

  function EncodeRecord(r: Record): Bytes {
    match r
    case Number(f, v) => Varint(8 * f) + Varint(v)
    case Fixed64(f, bytes) => Varint(8 * f + 1) + bytes
    case Payload(f, data) => Lv(f, data)
    case Fixed32(f, bytes) => Varint(8 * f + 5) + bytes
  }

  function Encode(rs: seq<Record>): Bytes {
    if |rs| == 0 then [] else EncodeRecord(rs[0]) + Encode(rs[1..])
  }

  // A length-delimited field as decoded.
  datatype Field = Field(number: nat, data: Bytes)

  function FieldsOf(rs: seq<Record>): seq<Field> {
    if |rs| == 0 then []
    else (if rs[0].Payload? then [Field(rs[0].field, rs[0].data)] else []) + FieldsOf(rs[1..])
  }

  function Take(data: Bytes, n: nat): Bytes {
    if n <= |data| then data[..n] else data
  }

  function Drop(data: Bytes, n: nat): (rest: Bytes)
    ensures |rest| <= |data|
  {
    if n <= |data| then data[n..] else []
  }

  // One record at the front: how many bytes it spans, and its field when it is length-delimited.
  datatype One = Skipped(size: nat) | Got(field: Field, size: nat) | Unknown

  // Numbers and fixed-width fields are skipped, a length past the end takes what there is, and a
  // varint cut short is an error.
  function ReadRecord(data: Bytes): (r: Option<One>)
    ensures r.Some? && !r.value.Unknown? ==> r.value.size > 0
    ensures r.Some? ==> |data| > 0
  {
    match ReadVarint(data)
    case None => None
    case Some(Read(tag, n)) =>
      var rest := data[n..];
      if tag % 8 == 0 then
        match ReadVarint(rest)
        case None => None
        case Some(Read(_, k)) => Some(Skipped(n + k))
      else if tag % 8 == 2 then
        match ReadVarint(rest)
        case None => None
        case Some(Read(length, k)) => Some(Got(Field(tag / 8, Take(rest[k..], length)), n + k + length))
      else if tag % 8 == 5 then Some(Skipped(n + 4))
      else if tag % 8 == 1 then Some(Skipped(n + 8))
      else Some(Unknown)
  }

  // The length-delimited fields in order, up to the first unknown wire type.
  function DecodeFields(data: Bytes): Option<seq<Field>>
    decreases |data|
  {
    if |data| == 0 then Some([])
    else
      match ReadRecord(data)
      case None => None
      case Some(Unknown) => Some([])
      case Some(Skipped(n)) => DecodeFields(Drop(data, n))
      case Some(Got(x, n)) => After([x], DecodeFields(Drop(data, n)))
  }

  function After(first: seq<Field>, rest: Option<seq<Field>>): Option<seq<Field>> {
    match rest
    case None => None
    case Some(fields) => Some(first + fields)
  }

  // ----- decoding is a homomorphism

  // The bytes are whole records: decoding ends exactly at the end, neither short nor past it.
  predicate Whole(data: Bytes)
    decreases |data|
  {
    |data| == 0 || (FitsRecord(data) && Whole(Drop(data, ReadRecord(data).value.size)))
  }

  predicate FitsRecord(data: Bytes) {
    var r := ReadRecord(data);
    r.Some? && !r.value.Unknown? && r.value.size <= |data|
  }

  lemma ReadRecordExtends(a: Bytes, b: Bytes)
    requires FitsRecord(a)
    ensures ReadRecord(a + b) == ReadRecord(a)
  {
    hide ReadVarint;
    ReadVarintExtends(a, b);
    var (tag, n) := (ReadVarint(a).value.value, ReadVarint(a).value.size);
    assert (a + b)[n..] == a[n..] + b;
    if tag % 8 == 0 || tag % 8 == 2 {
      ReadVarintExtends(a[n..], b);
      var k := ReadVarint(a[n..]).value.size;
      assert (a[n..] + b)[k..] == a[n..][k..] + b;
      if tag % 8 == 2 {
        assert Take(a[n..][k..] + b, ReadVarint(a[n..]).value.value) == Take(a[n..][k..], ReadVarint(a[n..]).value.value);
      }
    }
  }

  lemma DropAppends(a: Bytes, n: nat, b: Bytes)
    requires n <= |a|
    ensures Drop(a + b, n) == Drop(a, n) + b
  {
  }

  lemma AfterAfter(x: seq<Field>, y: seq<Field>, rest: Option<seq<Field>>)
    ensures After(x, After(y, rest)) == After(x + y, rest)
  {
    if rest.Some? {
      assert x + (y + rest.value) == x + y + rest.value;
    }
  }

  // Whole records decode, and decoding what follows them appends its fields to theirs.
  lemma {:induction false} DecodingAppends(a: Bytes, b: Bytes)
    requires Whole(a)
    ensures DecodeFields(a).Some?
    ensures DecodeFields(a + b) == After(DecodeFields(a).value, DecodeFields(b))
    decreases |a|
  {
    hide ReadRecord, After;
    if |a| == 0 {
      assert a + b == b;
      AfterNothing(DecodeFields(b));
    } else {
      ReadRecordExtends(a, b);
      var one := ReadRecord(a).value;
      DropAppends(a, one.size, b);
      DecodingAppends(Drop(a, one.size), b);
      if one.Got? {
        AfterIs([one.field], DecodeFields(Drop(a, one.size)).value);
        AfterAfter([one.field], DecodeFields(Drop(a, one.size)).value, DecodeFields(b));
      }
    }
  }

  lemma AfterIs(x: seq<Field>, y: seq<Field>)
    ensures After(x, Some(y)) == Some(x + y)
  {
  }

  lemma AfterNothing(rest: Option<seq<Field>>)
    ensures After([], rest) == rest
  {
    if rest.Some? {
      assert [] + rest.value == rest.value;
    }
  }

  lemma TakeAll(d: Bytes)
    ensures Take(d, |d|) == d && Drop(d, |d|) == []
  {
  }

  // Bytes behind a varint.
  lemma Behind(n: nat, rest: Bytes)
    ensures ReadVarint(Varint(n) + rest) == Some(Read(n, |Varint(n)|)) && (Varint(n) + rest)[|Varint(n)|..] == rest
  {
    VarintRoundTrip(n, rest);
  }

  lemma NumberReads(f: nat, v: nat)
    ensures var data := EncodeRecord(Number(f, v)); ReadRecord(data) == Some(Skipped(|data|))
  {
    hide ReadVarint, Varint;
    Behind(8 * f, Varint(v));
    Behind(v, []);
    assert Varint(v) + [] == Varint(v);
  }

  lemma PayloadReads(f: nat, d: Bytes)
    ensures var data := Lv(f, d); ReadRecord(data) == Some(Got(Field(f, d), |data|))
  {
    hide ReadVarint, Varint;
    assert Lv(f, d) == Varint(8 * f + 2) + (Varint(|d|) + d);
    Behind(8 * f + 2, Varint(|d|) + d);
    Behind(|d|, d);
    TakeAll(d);
  }

  lemma FixedReads(f: nat, wire: nat, bytes: Bytes)
    requires (wire == 5 && |bytes| == 4) || (wire == 1 && |bytes| == 8)
    ensures var data := Varint(8 * f + wire) + bytes; ReadRecord(data) == Some(Skipped(|data|))
  {
    hide ReadVarint, Varint;
    Behind(8 * f + wire, bytes);
  }

  lemma RecordDecodes(r: Record)
    requires Sized(r)
    ensures Whole(EncodeRecord(r)) && DecodeFields(EncodeRecord(r)) == Some(FieldsOf([r]))
  {
    hide ReadRecord, Varint;
    assert [r][1..] == [];
    match r {
      case Number(f, v) => NumberReads(f, v);
      case Payload(f, d) => PayloadReads(f, d);
      case Fixed32(f, bytes) => FixedReads(f, 5, bytes);
      case Fixed64(f, bytes) => FixedReads(f, 1, bytes);
    }
    var data := EncodeRecord(r);
    assert |data| > 0;
    TakeAll(data);
    assert Whole([]) && DecodeFields([]) == Some([]);
    if r.Payload? {
      var x := Field(r.field, r.data);
      assert FieldsOf([r]) == [x] + [] == [x];
    } else {
      assert FieldsOf([r]) == [] + [] == [];
    }
  }

  // Decoding undoes encoding, for every list of records and whatever bytes follow it.
  lemma {:induction false} EncodedDecodes(rs: seq<Record>, rest: Bytes)
    requires AllSized(rs)
    ensures DecodeFields(Encode(rs) + rest) == After(FieldsOf(rs), DecodeFields(rest))
  {
    if |rs| == 0 {
      assert Encode(rs) + rest == rest;
      AfterNothing(DecodeFields(rest));
    } else {
      hide DecodeFields, Whole, EncodeRecord, After;
      RecordDecodes(rs[0]);
      EncodedDecodes(rs[1..], rest);
      DecodingAppends(EncodeRecord(rs[0]), Encode(rs[1..]) + rest);
      assert Encode(rs) + rest == EncodeRecord(rs[0]) + (Encode(rs[1..]) + rest);
      assert [rs[0]][1..] == [];
      AfterAfter(FieldsOf([rs[0]]), FieldsOf(rs[1..]), DecodeFields(rest));
      FieldsOfFirst(rs);
    }
  }

  lemma FieldsOfFirst(rs: seq<Record>)
    requires |rs| > 0
    ensures FieldsOf(rs) == FieldsOf([rs[0]]) + FieldsOf(rs[1..])
  {
    assert [rs[0]][1..] == [];
  }

  // ----- the decoder

  function Get(fields: map<nat, seq<Bytes>>, f: nat): seq<Bytes> {
    if f in fields then fields[f] else []
  }

  // The payloads of one field number, in order.
  function Payloads(fields: seq<Field>, f: nat): seq<Bytes> {
    var n := |fields| - 1;
    if n < 0 then []
    else if fields[n].number == f then Payloads(fields[..n], f) + [fields[n].data]
    else Payloads(fields[..n], f)
  }

  // The dictionary of the decoder holds exactly these fields.
  ghost predicate Groups(dict: map<nat, seq<Bytes>>, fields: seq<Field>) {
    && (forall f :: f in dict <==> exists i :: 0 <= i < |fields| && fields[i].number == f)
    && (forall f :: Get(dict, f) == Payloads(fields, f))
  }

  lemma GroupsSnoc(dict: map<nat, seq<Bytes>>, fields: seq<Field>, x: Field)
    requires Groups(dict, fields)
    ensures Groups(dict[x.number := Get(dict, x.number) + [x.data]], fields + [x])
  {
    var (d, all) := (dict[x.number := Get(dict, x.number) + [x.data]], fields + [x]);
    assert all[..|fields|] == fields && all[|fields|] == x;
    forall f ensures f in d <==> exists i :: 0 <= i < |all| && all[i].number == f {
      if f in dict && f != x.number {
        var i :| 0 <= i < |fields| && fields[i].number == f;
        assert all[i].number == f;
      }
    }
    forall f ensures Get(d, f) == Payloads(all, f) {
      assert Get(dict, f) == Payloads(fields, f);
    }
  }

  method DecodeRecord(data: Bytes, start: nat) returns (r: Option<One>)
    requires start <= |data|
    ensures r == ReadRecord(data[start..])
  {
    hide ReadVarint;
    var tagRead := DecodeVarint(data, start);
    if tagRead.None? {
      return None;
    }
    var (tag, pos) := (tagRead.value.value, tagRead.value.size);
    assert data[start..][pos - start..] == data[pos..];
    if tag % 8 == 0 {
      var skipped := DecodeVarint(data, pos);
      r := if skipped.None? then None else Some(Skipped(skipped.value.size - start));
    } else if tag % 8 == 2 {
      var lengthRead := DecodeVarint(data, pos);
      if lengthRead.None? {
        return None;
      }
      var (length, at) := (lengthRead.value.value, lengthRead.value.size);
      assert data[pos..][at - pos..] == data[at..];
      r := Some(Got(Field(tag / 8, Take(data[at..], length)), at - start + length));
    } else if tag % 8 == 5 {
      r := Some(Skipped(pos - start + 4));
    } else if tag % 8 == 1 {
      r := Some(Skipped(pos - start + 8));
    } else {
      r := Some(Unknown);
    }
  }

  // The position grows with every record read, so decoding ends on every input.
  method DecodeDict(data: Bytes) returns (dict: Option<map<nat, seq<Bytes>>>)
    ensures dict.Some? <==> DecodeFields(data).Some?
    ensures dict.Some? ==> Groups(dict.value, DecodeFields(data).value)
  {
    hide Groups, ReadRecord, Payloads, After;
    var fields: map<nat, seq<Bytes>> := map[];
    ghost var seen: seq<Field> := [];
    var pos := 0;
    AfterNothing(DecodeFields(data));
    NothingGrouped();
    while pos < |data|
      invariant Groups(fields, seen)
      invariant DecodeFields(data) == After(seen, DecodeFields(Drop(data, pos)))
      decreases |data| - pos
    {
      var one := DecodeRecord(data, pos);
      if one.None? {
        AfterNone(seen);
        return None;
      }
      if one.value.Unknown? {
        AfterIs(seen, []);
        assert seen + [] == seen;
        return Some(fields);
      }
      DropDrop(data, pos, one.value.size);
      if one.value.Got? {
        var x := one.value.field;
        GroupsSnoc(fields, seen, x);
        AfterAfter(seen, [x], DecodeFields(Drop(data, pos + one.value.size)));
        fields := fields[x.number := Get(fields, x.number) + [x.data]];
        seen := seen + [x];
      }
      pos := pos + one.value.size;
    }
    AfterIs(seen, []);
    assert seen + [] == seen;
    dict := Some(fields);
  }

  lemma NothingGrouped()
    ensures Groups(map[], [])
  {
  }

  lemma AfterNone(x: seq<Field>)
    ensures After(x, None) == None
  {
  }

  lemma DropDrop(data: Bytes, pos: nat, n: nat)
    requires pos <= |data|
    ensures Drop(data[pos..], n) == Drop(data, pos + n)
  {
  }

  // ----- messages that do not end with a whole record

  lemma {:induction false} UnfinishedVarint(tail: Bytes)
    requires forall i :: 0 <= i < |tail| ==> tail[i] >= 128
    ensures ReadVarint(tail) == None
  {
    if |tail| > 0 {
      UnfinishedVarint(tail[1..]);
    }
  }

  // Whole records, and then: a wire type that is none of the four ends the message there, whatever
  // follows; a payload cut short is what there is of it; so is a fixed-width field, which is skipped;
  // and a varint that runs out of bytes is an error.
  lemma EndsOfMessages(rs: seq<Record>, f: nat, wire: nat, length: nat, tail: Bytes)
    requires AllSized(rs)
    ensures wire in {3, 4, 6, 7} ==> DecodeFields(Encode(rs) + (Varint(8 * f + wire) + tail)) == Some(FieldsOf(rs))
    ensures |tail| <= length ==>
      DecodeFields(Encode(rs) + (Varint(8 * f + 2) + (Varint(length) + tail))) == Some(FieldsOf(rs) + [Field(f, tail)])
    ensures (wire == 5 && |tail| <= 4) || (wire == 1 && |tail| <= 8) ==>
      DecodeFields(Encode(rs) + (Varint(8 * f + wire) + tail)) == Some(FieldsOf(rs))
    ensures |tail| > 0 && (forall i :: 0 <= i < |tail| ==> tail[i] >= 128) ==> DecodeFields(Encode(rs) + tail) == None
  {
    hide Varint, ReadVarint, Encode, FieldsOf, ReadRecord;
    var (typed, sized) := (Varint(8 * f + wire) + tail, Varint(8 * f + 2) + (Varint(length) + tail));
    EncodedDecodes(rs, typed);
    EncodedDecodes(rs, sized);
    EncodedDecodes(rs, tail);
    LastRecord(f, wire, length, tail);
    assert FieldsOf(rs) + [] == FieldsOf(rs);
    assert DecodeFields([]) == Some([]);
    assert [Field(f, tail)] + [] == [Field(f, tail)];
  }

  // How the record at the end is read.
  lemma LastRecord(f: nat, wire: nat, length: nat, tail: Bytes)
    ensures wire in {3, 4, 6, 7} ==> ReadRecord(Varint(8 * f + wire) + tail) == Some(Unknown)
    ensures |tail| <= length ==>
      var data := Varint(8 * f + 2) + (Varint(length) + tail);
      && ReadRecord(data).Some? && ReadRecord(data).value.Got? && ReadRecord(data).value.field == Field(f, tail)
      && Drop(data, ReadRecord(data).value.size) == []
    ensures (wire == 5 && |tail| <= 4) || (wire == 1 && |tail| <= 8) ==>
      var data := Varint(8 * f + wire) + tail;
      && ReadRecord(data).Some? && ReadRecord(data).value.Skipped? && Drop(data, ReadRecord(data).value.size) == []
    ensures (forall i :: 0 <= i < |tail| ==> tail[i] >= 128) ==> ReadRecord(tail) == None
  {
    hide Varint, ReadVarint;
    Behind(8 * f + wire, tail);
    Behind(8 * f + 2, Varint(length) + tail);
    Behind(length, tail);
    if forall i :: 0 <= i < |tail| ==> tail[i] >= 128 {
      UnfinishedVarint(tail);
    }
  }
}
