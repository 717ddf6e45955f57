// Headers in ext-proc messages: read from a response along a path of nested fields, and written
// into a request.

module Headers {
  import opened Text
  import opened Protobuf

  datatype Header = Header(key: Bytes, value: Bytes)

  // The fields of an ext-proc response that lead to its header values.
  const RESPONSE_PATH: seq<nat> := [1, 1, 2, 1, 1]
  // The fields of an ext-proc request that lead to the headers it reports.
  const REQUEST_PATH: seq<nat> := [2, 1, 1]

  // ----- the encoders

  function HeaderValue(h: Header): Bytes {
    Lv(1, h.key) + Lv(3, h.value)
  }

  function HeaderMap(headers: seq<Header>): Bytes {
    var n := |headers| - 1;
    if n < 0 then [] else HeaderMap(headers[..n]) + Lv(1, HeaderValue(headers[n]))
  }

  method EncodeHeaderMap(headers: seq<Header>) returns (out: Bytes)
    ensures out == HeaderMap(headers)
  {
    out := [];
    for i := 0 to |headers|
      invariant out == HeaderMap(headers[..i])
    {
      assert headers[..i + 1][..i] == headers[..i];
      var hv := Lv(1, headers[i].key) + Lv(3, headers[i].value);
      out := out + Lv(1, hv);
    }
    assert headers[..|headers|] == headers;
  }

  function RequestHeaders(headers: seq<Header>): Bytes {
    Lv(2, Lv(1, HeaderMap(headers)) + BoolField(3, false))
  }

  // A header "a: b" on the wire: key under field 1, value under field 3, the entry under field 1;
  // in a request within fields 2 and 1, beside the flag under field 3.
  lemma HeaderBytes()
    ensures HeaderMap([Header([0x61], [0x62])]) == [0x0a, 0x06, 0x0a, 0x01, 0x61, 0x1a, 0x01, 0x62]
    ensures RequestHeaders([Header([0x61], [0x62])])
            == [0x12, 0x0c, 0x0a, 0x08, 0x0a, 0x06, 0x0a, 0x01, 0x61, 0x1a, 0x01, 0x62, 0x18, 0x00]
  {
    var h := Header([0x61], [0x62]);
    assert HeaderValue(h) == [0x0a, 0x01, 0x61, 0x1a, 0x01, 0x62];
    assert [h][..0] == [];
    assert HeaderMap([h]) == [0x0a, 0x06, 0x0a, 0x01, 0x61, 0x1a, 0x01, 0x62];
    assert Lv(1, HeaderMap([h])) == [0x0a, 0x08, 0x0a, 0x06, 0x0a, 0x01, 0x61, 0x1a, 0x01, 0x62];
    assert BoolField(3, false) == [0x18, 0x00];
  }

  // ----- the extraction

  function First(payloads: seq<Bytes>): Bytes {
    if |payloads| == 0 then [] else payloads[0]
  }

  // One more header: an empty key is ignored, a repeated one is overwritten.
  function AddHeader(m: map<Bytes, Bytes>, h: Header): map<Bytes, Bytes> {
    if |h.key| == 0 then m else m[h.key := h.value]
  }

  function HeaderIn(fields: seq<Field>): Header {
    Header(First(Payloads(fields, 1)), First(Payloads(fields, 3)))
  }

  // Every message reached along `path` adds its header to m; any malformed one is an error.
  function Collect(data: Bytes, path: seq<nat>, m: map<Bytes, Bytes>): Option<map<Bytes, Bytes>>
    decreases |path|, 0
  {
    match DecodeFields(data)
    case None => None
    case Some(fields) =>
      if |path| == 0 then Some(AddHeader(m, HeaderIn(fields)))
      else CollectAll(Payloads(fields, path[0]), path[1..], m)
  }

  function CollectAll(messages: seq<Bytes>, path: seq<nat>, m: map<Bytes, Bytes>): Option<map<Bytes, Bytes>>
    decreases |path|, 1, |messages|
  {
    var n := |messages| - 1;
    if n < 0 then Some(m)
    else
      match CollectAll(messages[..n], path, m)
      case None => None
      case Some(m1) => Collect(messages[n], path, m1)
  }

  // The nested loops over the fields of a message, one loop for each field of the path.
  method CollectHeaders(data: Bytes, path: seq<nat>, m: map<Bytes, Bytes>) returns (result: Option<map<Bytes, Bytes>>)
    ensures result == Collect(data, path, m)
    decreases |path|
  {
    var fields := DecodeDict(data);
    if fields.None? {
      return None;
    }
    if |path| == 0 {
      return Some(AddHeader(m, Header(First(Get(fields.value, 1)), First(Get(fields.value, 3)))));
    }
    var messages := Get(fields.value, path[0]);
    result := Some(m);
    for i := 0 to |messages|
      invariant result.Some? && result == CollectAll(messages[..i], path[1..], m)
    {
      assert messages[..i + 1][..i] == messages[..i];
      result := CollectHeaders(messages[i], path[1..], result.value);
      if result.None? {
        CollectAllFails(messages, path[1..], m, i + 1);
        return;
      }
    }
    assert messages[..|messages|] == messages;
  }

  lemma {:induction false} CollectAllFails(messages: seq<Bytes>, path: seq<nat>, m: map<Bytes, Bytes>, i: nat)
    requires i <= |messages| && CollectAll(messages[..i], path, m).None?
    ensures CollectAll(messages, path, m).None?
    decreases |messages|
  {
    if i == |messages| {
      assert messages[..i] == messages;
    } else {
      assert messages[..|messages| - 1][..i] == messages[..i];
      CollectAllFails(messages[..|messages| - 1], path, m, i);
    }
  }

  method ExtractHeaders(response: Bytes) returns (result: Option<map<Bytes, Bytes>>)
    ensures result == Collect(response, RESPONSE_PATH, map[])
  {
    result := CollectHeaders(response, RESPONSE_PATH, map[]);
  }

  // ----- messages as trees

  // A message nested to the depth of a path: among other records, the submessages of one field
  // at each level; the innermost messages are plain records.
  datatype Tree = Leaf(records: seq<Record>) | Node(parts: seq<Part>)
  datatype Part = Noise(record: Record) | Sub(tree: Tree)

  // Nothing in the noise of a level could be mistaken for a submessage of its field.
  ghost predicate Shaped(t: Tree, path: seq<nat>)
    decreases t
  {
    match t
    case Leaf(records) => |path| == 0 && AllSized(records)
    case Node(parts) =>
      && |path| > 0
      && forall i :: 0 <= i < |parts| ==> ShapedPart(parts[i], path)
  }

  ghost predicate ShapedPart(part: Part, path: seq<nat>)
    requires |path| > 0
    decreases part
  {
    match part
    case Noise(r) => Sized(r) && !(r.Payload? && r.field == path[0])
    case Sub(t) => Shaped(t, path[1..])
  }

  function EncodeTree(t: Tree, path: seq<nat>): Bytes
    decreases t, 1
  {
    match t
    case Leaf(records) => Encode(records)
    case Node(parts) => if |path| == 0 then [] else Encode(RecordsOf(parts, path))
  }

  // The records of a level: submessages are length-delimited under the level's field.
  function RecordsOf(parts: seq<Part>, path: seq<nat>): (rs: seq<Record>)
    requires |path| > 0
    ensures |rs| == |parts|
    decreases parts, 0
  {
    if |parts| == 0 then []
    else [RecordOf(parts[0], path)] + RecordsOf(parts[1..], path)
  }

  function RecordOf(part: Part, path: seq<nat>): Record
    requires |path| > 0
    decreases part, 0
  {
    match part
    case Noise(r) => r
    case Sub(t) => Payload(path[0], EncodeTree(t, path[1..]))
  }

  // The header of each innermost message, in order.
  function HeadersOf(t: Tree): seq<Header>
    decreases t, 1
  {
    match t
    case Leaf(records) => [HeaderIn(FieldsOf(records))]
    case Node(parts) => HeadersOfParts(parts)
  }

  function HeadersOfParts(parts: seq<Part>): seq<Header>
    decreases parts, 0
  {
    if |parts| == 0 then []
    else HeadersOfPart(parts[0]) + HeadersOfParts(parts[1..])
  }

  function HeadersOfPart(part: Part): seq<Header>
    decreases part, 0
  {
    match part
    case Noise(_) => []
    case Sub(t) => HeadersOf(t)
  }

  function AddAll(m: map<Bytes, Bytes>, headers: seq<Header>): map<Bytes, Bytes>
    decreases |headers|
  {
    if |headers| == 0 then m else AddAll(AddHeader(m, headers[0]), headers[1..])
  }

  lemma {:induction false} AddAllAppends(m: map<Bytes, Bytes>, xs: seq<Header>, ys: seq<Header>)
    ensures AddAll(m, xs + ys) == AddAll(AddAll(m, xs), ys)
    decreases |xs|
  {
    if |xs| == 0 {
      assert xs + ys == ys;
    } else {
      assert (xs + ys)[0] == xs[0] && (xs + ys)[1..] == xs[1..] + ys;
      AddAllAppends(AddHeader(m, xs[0]), xs[1..], ys);
    }
  }

  // ----- what decoding a level finds

  lemma {:induction false} PayloadsAppend(xs: seq<Field>, ys: seq<Field>, f: nat)
    ensures Payloads(xs + ys, f) == Payloads(xs, f) + Payloads(ys, f)
  {
    var n := |ys| - 1;
    if n < 0 {
      assert xs + ys == xs;
    } else {
      assert (xs + ys)[..|xs| + n] == xs + ys[..n] && (xs + ys)[|xs| + n] == ys[n];
      PayloadsAppend(xs, ys[..n], f);
    }
  }

  lemma RecordPayloads(r: Record, f: nat)
    ensures Payloads(FieldsOf([r]), f) == if r.Payload? && r.field == f then [r.data] else []
  {
    assert [r][1..] == [];
    if r.Payload? {
      assert FieldsOf([r]) == [Field(r.field, r.data)] + [];
      assert [Field(r.field, r.data)][..0] == [];
    }
  }

  lemma EncodedDecodesWhole(rs: seq<Record>)
    requires AllSized(rs)
    ensures DecodeFields(Encode(rs)) == Some(FieldsOf(rs))
  {
    EncodedDecodes(rs, []);
    assert Encode(rs) + [] == Encode(rs);
    AfterIs(FieldsOf(rs), []);
    assert FieldsOf(rs) + [] == FieldsOf(rs);
  }

  lemma {:induction false} CollectAllAppends(xs: seq<Bytes>, ys: seq<Bytes>, path: seq<nat>, m: map<Bytes, Bytes>)
    requires CollectAll(xs, path, m).Some?
    ensures CollectAll(xs + ys, path, m) == CollectAll(ys, path, CollectAll(xs, path, m).value)
    decreases |ys|
  {
    hide Collect;
    var n := |ys| - 1;
    if n < 0 {
      assert xs + ys == xs;
    } else {
      assert (xs + ys)[..|xs| + n] == xs + ys[..n] && (xs + ys)[|xs| + n] == ys[n];
      CollectAllAppends(xs, ys[..n], path, m);
    }
  }

  lemma {:induction false} PartsSized(parts: seq<Part>, path: seq<nat>)
    requires |path| > 0 && forall i :: 0 <= i < |parts| ==> ShapedPart(parts[i], path)
    ensures AllSized(RecordsOf(parts, path))
  {
    if |parts| > 0 {
      assert ShapedPart(parts[0], path);
      forall i | 0 <= i < |parts[1..]| ensures ShapedPart(parts[1..][i], path) {
        assert parts[1..][i] == parts[i + 1];
      }
      PartsSized(parts[1..], path);
    }
  }

  // Extracting from an encoded message tree gives its headers, last write winning, whatever
  // other records surround the submessages at any level.
  lemma {:induction false} TreeExtracts(t: Tree, path: seq<nat>, m: map<Bytes, Bytes>)
    requires Shaped(t, path)
    ensures Collect(EncodeTree(t, path), path, m) == Some(AddAll(m, HeadersOf(t)))
    decreases t, 1
  {
    hide DecodeFields, Encode, FieldsOf;
    match t {
      case Leaf(records) =>
        EncodedDecodesWhole(records);
        assert HeadersOf(t)[1..] == [];
      case Node(parts) =>
        PartsSized(parts, path);
        EncodedDecodesWhole(RecordsOf(parts, path));
        PartsExtract(parts, path, m);
    }
  }

  lemma {:induction false} PartsExtract(parts: seq<Part>, path: seq<nat>, m: map<Bytes, Bytes>)
    requires |path| > 0 && forall i :: 0 <= i < |parts| ==> ShapedPart(parts[i], path)
    ensures CollectAll(Payloads(FieldsOf(RecordsOf(parts, path)), path[0]), path[1..], m) == Some(AddAll(m, HeadersOfParts(parts)))
    decreases parts, 0
  {
    hide Collect, EncodeTree, HeadersOf;
    if |parts| > 0 {
      assert ShapedPart(parts[0], path);
      var rest := parts[1..];
      forall i | 0 <= i < |rest| ensures ShapedPart(rest[i], path) {
        assert rest[i] == parts[i + 1];
      }
      var (rs, r) := (RecordsOf(parts, path), RecordOf(parts[0], path));
      assert rs[0] == r && rs[1..] == RecordsOf(rest, path);
      FieldsOfFirst(rs);
      PayloadsAppend(FieldsOf([r]), FieldsOf(rs[1..]), path[0]);
      RecordPayloads(r, path[0]);
      var own := Payloads(FieldsOf([r]), path[0]);
      PartExtracts(parts[0], path, m);
      var m1 := AddAll(m, HeadersOfPart(parts[0]));
      PartsExtract(rest, path, m1);
      CollectAllAppends(own, Payloads(FieldsOf(rs[1..]), path[0]), path[1..], m);
      AddAllAppends(m, HeadersOfPart(parts[0]), HeadersOfParts(rest));
    }
  }

  lemma {:induction false} PartExtracts(part: Part, path: seq<nat>, m: map<Bytes, Bytes>)
    requires |path| > 0 && ShapedPart(part, path)
    ensures CollectAll(Payloads(FieldsOf([RecordOf(part, path)]), path[0]), path[1..], m) == Some(AddAll(m, HeadersOfPart(part)))
    decreases part, 0
  {
    hide Collect, EncodeTree, HeadersOf;
    RecordPayloads(RecordOf(part, path), path[0]);
    match part {
      case Noise(_) =>
      case Sub(t) =>
        TreeExtracts(t, path[1..], m);
        assert [EncodeTree(t, path[1..])][..0] == [];
    }
  }

  // ----- the messages of the client

  // The keys of the result are the non-empty keys of the list ...
  lemma {:induction false} KeysOfHeaders(headers: seq<Header>, k: Bytes)
    ensures k in AddAll(map[], headers) <==> |k| > 0 && exists i :: 0 <= i < |headers| && headers[i].key == k
  {
    var n := |headers| - 1;
    if n >= 0 {
      KeysOfHeaders(headers[..n], k);
      LastHeader(headers);
      if k in AddAll(map[], headers[..n]) {
        var i :| 0 <= i < n && headers[..n][i].key == k;
        assert headers[i].key == k;
      }
    }
  }

  // ... and the last header of a key is the one that stays.
  lemma {:induction false} LastWriteWins(headers: seq<Header>, i: nat)
    requires i < |headers| && |headers[i].key| > 0
    requires forall j :: i < j < |headers| ==> headers[j].key != headers[i].key
    ensures headers[i].key in AddAll(map[], headers) && AddAll(map[], headers)[headers[i].key] == headers[i].value
  {
    var n := |headers| - 1;
    LastHeader(headers);
    if i < n {
      assert headers[n].key != headers[i].key;
      LastWriteWins(headers[..n], i);
    }
  }

  lemma LastHeader(headers: seq<Header>)
    requires |headers| > 0
    ensures var n := |headers| - 1; AddAll(map[], headers) == AddHeader(AddAll(map[], headers[..n]), headers[n])
  {
    var n := |headers| - 1;
    assert headers == headers[..n] + [headers[n]];
    AddAllAppends(map[], headers[..n], [headers[n]]);
    AddOne(AddAll(map[], headers[..n]), headers[n]);
  }

  lemma AddOne(m: map<Bytes, Bytes>, h: Header)
    ensures AddAll(m, [h]) == AddHeader(m, h)
  {
    assert [h][1..] == [];
  }

  // Extraction from a response: any message of the right nesting, other records included.
  lemma ResponseExtracts(t: Tree)
    requires Shaped(t, RESPONSE_PATH)
    ensures Collect(EncodeTree(t, RESPONSE_PATH), RESPONSE_PATH, map[]) == Some(AddAll(map[], HeadersOf(t)))
  {
    TreeExtracts(t, RESPONSE_PATH, map[]);
  }

  function ValueTree(h: Header): Tree {
    Leaf([Payload(1, h.key), Payload(3, h.value)])
  }

  // The submessages of a header map, and of a list of header options that each hold one.
  function ValueParts(headers: seq<Header>): (parts: seq<Part>)
    ensures |parts| == |headers|
    ensures forall i :: 0 <= i < |parts| ==> parts[i] == Sub(ValueTree(headers[i]))
  {
    seq(|headers|, i requires 0 <= i < |headers| => Sub(ValueTree(headers[i])))
  }

  function OptionParts(headers: seq<Header>): (parts: seq<Part>)
    ensures |parts| == |headers|
    ensures forall i :: 0 <= i < |parts| ==> parts[i] == Sub(Node(ValueParts([headers[i]])))
  {
    seq(|headers|, i requires 0 <= i < |headers| => Sub(Node(ValueParts([headers[i]]))))
  }

  lemma TwoRecords(a: Record, b: Record)
    ensures Encode([a]) == EncodeRecord(a) && Encode([a, b]) == EncodeRecord(a) + EncodeRecord(b)
  {
    assert [a][1..] == [] && [a, b][1..] == [b] && [b][1..] == [];
    assert EncodeRecord(b) + [] == EncodeRecord(b) && EncodeRecord(a) + [] == EncodeRecord(a);
  }

  lemma ValueEncodes(h: Header)
    ensures Shaped(ValueTree(h), []) && EncodeTree(ValueTree(h), []) == HeaderValue(h) && HeadersOf(ValueTree(h)) == [h]
  {
    var (a, b) := (Payload(1, h.key), Payload(3, h.value));
    TwoRecords(a, b);
    assert [a, b][1..] == [b];
    FieldsOfFirst([a, b]);
    PayloadsAppend(FieldsOf([a]), FieldsOf([b]), 1);
    PayloadsAppend(FieldsOf([a]), FieldsOf([b]), 3);
    RecordPayloads(a, 1);
    RecordPayloads(a, 3);
    RecordPayloads(b, 1);
    RecordPayloads(b, 3);
  }

  lemma {:induction false} EncodeAppends(xs: seq<Record>, ys: seq<Record>)
    ensures Encode(xs + ys) == Encode(xs) + Encode(ys)
  {
    if |xs| == 0 {
      assert xs + ys == ys;
    } else {
      assert (xs + ys)[1..] == xs[1..] + ys;
      EncodeAppends(xs[1..], ys);
    }
  }

  lemma {:induction false} RecordsAppend(xs: seq<Part>, ys: seq<Part>, path: seq<nat>)
    requires |path| > 0
    ensures RecordsOf(xs + ys, path) == RecordsOf(xs, path) + RecordsOf(ys, path)
  {
    if |xs| == 0 {
      assert xs + ys == ys;
    } else {
      assert (xs + ys)[1..] == xs[1..] + ys;
      RecordsAppend(xs[1..], ys, path);
    }
  }

  lemma {:induction false} PartsAppend(xs: seq<Part>, ys: seq<Part>)
    ensures HeadersOfParts(xs + ys) == HeadersOfParts(xs) + HeadersOfParts(ys)
  {
    if |xs| == 0 {
      assert xs + ys == ys;
    } else {
      assert (xs + ys)[1..] == xs[1..] + ys;
      PartsAppend(xs[1..], ys);
    }
  }

  lemma OnePart(part: Part, path: seq<nat>)
    requires |path| > 0
    ensures RecordsOf([part], path) == [RecordOf(part, path)] && HeadersOfParts([part]) == HeadersOfPart(part)
    ensures Encode(RecordsOf([part], path)) == EncodeRecord(RecordOf(part, path))
  {
    assert [part][1..] == [];
    TwoRecords(RecordOf(part, path), RecordOf(part, path));
  }

  // A header map is the encoding of its tree.
  lemma {:induction false} MapEncodes(headers: seq<Header>)
    ensures EncodeTree(Node(ValueParts(headers)), [1]) == HeaderMap(headers)
    ensures HeadersOfParts(ValueParts(headers)) == headers && Shaped(Node(ValueParts(headers)), [1])
    decreases |headers|
  {
    var (n, path) := (|headers| - 1, [1 as nat]);
    assert path[1..] == [];
    forall i | 0 <= i < |headers| ensures ShapedPart(ValueParts(headers)[i], path) {
      ValueEncodes(headers[i]);
    }
    if n >= 0 {
      var last := Sub(ValueTree(headers[n]));
      assert ValueParts(headers) == ValueParts(headers[..n]) + [last];
      MapEncodes(headers[..n]);
      hide EncodeTree, HeadersOf, Encode, HeaderValue;
      MapGrows(ValueParts(headers[..n]), last, path);
      ValueEncodes(headers[n]);
    }
  }

  lemma MapGrows(parts: seq<Part>, last: Part, path: seq<nat>)
    requires |path| > 0
    ensures EncodeTree(Node(parts + [last]), path) == EncodeTree(Node(parts), path) + EncodeRecord(RecordOf(last, path))
    ensures HeadersOfParts(parts + [last]) == HeadersOfParts(parts) + HeadersOfPart(last)
  {
    hide EncodeRecord;
    RecordsAppend(parts, [last], path);
    OnePart(last, path);
    EncodeAppends(RecordsOf(parts, path), RecordsOf([last], path));
    PartsAppend(parts, [last]);
  }

  // A list of header options, each holding one header map entry.
  function Options(headers: seq<Header>): Bytes {
    var n := |headers| - 1;
    if n < 0 then [] else Options(headers[..n]) + Lv(1, HeaderMap([headers[n]]))
  }

  lemma {:induction false} OptionsEncode(headers: seq<Header>)
    ensures EncodeTree(Node(OptionParts(headers)), [1, 1]) == Options(headers)
    ensures HeadersOfParts(OptionParts(headers)) == headers && Shaped(Node(OptionParts(headers)), [1, 1])
    decreases |headers|
  {
    var (n, path) := (|headers| - 1, [1 as nat, 1]);
    assert path[1..] == [1];
    forall i | 0 <= i < |headers| ensures ShapedPart(OptionParts(headers)[i], path) {
      MapEncodes([headers[i]]);
    }
    if n >= 0 {
      var last := Sub(Node(ValueParts([headers[n]])));
      assert OptionParts(headers) == OptionParts(headers[..n]) + [last];
      OptionsEncode(headers[..n]);
      hide EncodeTree, HeadersOf, Encode, HeaderMap;
      MapGrows(OptionParts(headers[..n]), last, path);
      MapEncodes([headers[n]]);
      NodeHeaders(ValueParts([headers[n]]));
    }
  }

  lemma NodeHeaders(parts: seq<Part>)
    ensures HeadersOf(Node(parts)) == HeadersOfParts(parts)
  {
  }

  // One submessage wrapped under the next field of the path, with records after it.
  lemma Wrapped(t: Tree, field: nat, path: seq<nat>, after: seq<Record>)
    requires Shaped(t, path) && AllSized(after)
    requires forall i :: 0 <= i < |after| ==> !(after[i].Payload? && after[i].field == field)
    ensures var outer := Node([Sub(t)] + Noises(after));
            && Shaped(outer, [field] + path) && HeadersOf(outer) == HeadersOf(t)
            && EncodeTree(outer, [field] + path) == Lv(field, EncodeTree(t, path)) + Encode(after)
  {
    hide EncodeTree, HeadersOf, Shaped;
    var (parts, all) := ([Sub(t)] + Noises(after), [field] + path);
    assert all[0] == field && all[1..] == path;
    forall i | 0 <= i < |parts| ensures ShapedPart(parts[i], all) {
    }
    NodeShaped(parts, all);
    NodeHeaders(parts);
    NodeEncodes(parts, all);
    PartsAppend([Sub(t)], Noises(after));
    OnePart(Sub(t), all);
    RecordsAppend([Sub(t)], Noises(after), all);
    EncodeAppends(RecordsOf([Sub(t)], all), RecordsOf(Noises(after), all));
    NoiseEncodes(after, all);
  }

  lemma NodeShaped(parts: seq<Part>, path: seq<nat>)
    requires |path| > 0 && forall i :: 0 <= i < |parts| ==> ShapedPart(parts[i], path)
    ensures Shaped(Node(parts), path)
  {
  }

  lemma NodeEncodes(parts: seq<Part>, path: seq<nat>)
    requires |path| > 0
    ensures EncodeTree(Node(parts), path) == Encode(RecordsOf(parts, path))
  {
  }

  function Noises(rs: seq<Record>): (parts: seq<Part>)
    ensures |parts| == |rs| && forall i :: 0 <= i < |rs| ==> parts[i] == Noise(rs[i])
  {
    seq(|rs|, i requires 0 <= i < |rs| => Noise(rs[i]))
  }

  lemma {:induction false} NoiseEncodes(rs: seq<Record>, path: seq<nat>)
    requires |path| > 0
    ensures RecordsOf(Noises(rs), path) == rs && HeadersOfParts(Noises(rs)) == []
  {
    if |rs| > 0 {
      assert Noises(rs)[1..] == Noises(rs[1..]);
      NoiseEncodes(rs[1..], path);
    }
  }

  function WrapResponse(headers: seq<Header>): Bytes {
    Lv(1, Lv(1, Lv(2, Options(headers))))
  }

  // A response that carries a list of headers gives back exactly the last value of each non-empty key.
  lemma WrappedHeadersExtract(headers: seq<Header>)
    ensures Collect(WrapResponse(headers), RESPONSE_PATH, map[]) == Some(AddAll(map[], headers))
  {
    hide EncodeTree, HeadersOf, Collect, Shaped, Lv, AddAll;
    var t0 := Node(OptionParts(headers));
    OptionsEncode(headers);
    NodeHeaders(OptionParts(headers));
    Wrapped(t0, 2, [1, 1], []);
    var t1 := Node([Sub(t0)] + Noises([]));
    Wrapped(t1, 1, [2] + [1, 1], []);
    var t2 := Node([Sub(t1)] + Noises([]));
    Wrapped(t2, 1, [1] + ([2] + [1, 1]), []);
    var t3 := Node([Sub(t2)] + Noises([]));
    assert [1] + ([1] + ([2] + [1, 1])) == RESPONSE_PATH;
    NothingAfter(Lv(2, EncodeTree(t0, [1, 1])));
    NothingAfter(Lv(1, EncodeTree(t1, [2] + [1, 1])));
    NothingAfter(Lv(1, EncodeTree(t2, [1] + ([2] + [1, 1]))));
    ResponseExtracts(t3);
  }

  lemma NothingAfter(bytes: Bytes)
    ensures bytes + Encode([]) == bytes
  {
  }

  // The headers of a request can be read back from its encoding, past the end-of-stream flag.
  lemma RequestReadsBack(headers: seq<Header>)
    ensures Collect(RequestHeaders(headers), REQUEST_PATH, map[]) == Some(AddAll(map[], headers))
  {
    hide EncodeTree, HeadersOf, Collect, Shaped, Lv, AddAll, HeaderMap;
    var t0 := Node(ValueParts(headers));
    MapEncodes(headers);
    NodeHeaders(ValueParts(headers));
    FlagIsRecord(3, false);
    Wrapped(t0, 1, [1], [Number(3, 0)]);
    var t1 := Node([Sub(t0)] + Noises([Number(3, 0)]));
    Wrapped(t1, 2, [1] + [1], []);
    var t2 := Node([Sub(t1)] + Noises([]));
    assert [2] + ([1] + [1]) == REQUEST_PATH;
    NothingAfter(Lv(2, EncodeTree(t1, [1] + [1])));
    TreeExtracts(t2, REQUEST_PATH, map[]);
  }

  lemma FlagIsRecord(field: nat, value: bool)
    ensures Encode([Number(field, if value then 1 else 0)]) == BoolField(field, value)
  {
    var r := Number(field, if value then 1 else 0);
    TwoRecords(r, r);
  }
}
