// Composing an EPP config: deep merge of maps, of lists of objects carrying an identity, and of
// leaves, folded over the layers of a variant.

module EppConfig {

  // Mapping keys; the two that can identify a list item are told apart from all others.
  datatype Key = Name | PluginRef | Other(text: string)

  // A parsed document. A leaf is a scalar: its YAML type and its printed form.
  datatype Doc =
    | Leaf(tag: string, text: string)
    | Dict(entries: map<Key, Doc>)
    | Items(items: seq<Doc>)

  // The printed form of an identifying value; a composite value is kept as it is.
  datatype Shown = Text(text: string) | Composite(doc: Doc)
  datatype Identity = Identity(key: Key, shown: Shown)

  function Show(d: Doc): Shown {
    if d.Leaf? then Text(d.text) else Composite(d)
  }

  predicate HasIdentity(item: Doc) {
    item.Dict? && (Name in item.entries || PluginRef in item.entries)
  }

  function IdentityOf(item: Doc): Identity
    requires HasIdentity(item)
  {
    var k := if Name in item.entries then Name else PluginRef;
    Identity(k, Show(item.entries[k]))
  }

  // The name identifies an item, whatever else it has; the plugin reference does without a name.
  lemma NameComesFirst(item: Doc)
    ensures item.Dict? && Name in item.entries ==> HasIdentity(item) && IdentityOf(item) == Identity(Name, Show(item.entries[Name]))
    ensures item.Dict? && Name !in item.entries && PluginRef in item.entries ==>
      HasIdentity(item) && IdentityOf(item) == Identity(PluginRef, Show(item.entries[PluginRef]))
    ensures HasIdentity(item) ==> item.Dict? && (Name in item.entries || PluginRef in item.entries)
  {
  }

  // Scalar names are the same identity exactly when they print the same, whatever their types.
  lemma SameNameExactlyWhen(x: Doc, y: Doc)
    requires x.Dict? && y.Dict? && Name in x.entries && Name in y.entries
    requires x.entries[Name].Leaf? && y.entries[Name].Leaf?
    ensures HasIdentity(x) && HasIdentity(y)
    ensures IdentityOf(x) == IdentityOf(y) <==> x.entries[Name].text == y.entries[Name].text
  {
  }

  predicate AllIdentified(items: seq<Doc>) {
    forall i :: 0 <= i < |items| ==> HasIdentity(items[i])
  }

  // A list merged by identity; any other list is replaced.
  predicate Keyed(items: seq<Doc>) {
    |items| > 0 && AllIdentified(items)
  }

  function Ids(items: seq<Doc>): (ids: seq<Identity>)
    requires AllIdentified(items)
    ensures |ids| == |items|
    ensures forall i :: 0 <= i < |ids| ==> ids[i] == IdentityOf(items[i])
  {
    seq(|items|, i requires 0 <= i < |items| => IdentityOf(items[i]))
  }

  // The last slot of an identity, as the index built from the base list records it.
  function LastOf(ids: seq<Identity>, id: Identity): (n: nat)
    requires id in ids
    ensures n < |ids| && ids[n] == id
    ensures forall i :: n < i < |ids| ==> ids[i] != id
  {
    if ids[|ids| - 1] == id then |ids| - 1 else LastOf(ids[..|ids| - 1], id)
  }

  // ----- the merge

  // The items built so far, and the identity under which each slot is indexed.
  datatype Slots = Slots(items: seq<Doc>, ids: seq<Identity>)

  function Merge(base: Doc, over: Doc): Doc
    decreases over, 0
  {
    match (base, over)
    case (Dict(b), Dict(o)) =>
      Dict(map k | k in b.Keys + o.Keys :: if k !in o then b[k] else if k in b then Merge(b[k], o[k]) else o[k])
    case (Items(b), Items(o)) =>
      if Keyed(b) && Keyed(o) then Items(MergeItems(b, o).items) else over
    case _ => over
  }

  // Each item of `o` in turn goes into the slot of its identity or to the end.
  function MergeItems(b: seq<Doc>, o: seq<Doc>): (s: Slots)
    requires AllIdentified(b) && AllIdentified(o)
    ensures |s.items| == |s.ids|
    decreases o, 0
  {
    var n := |o| - 1;
    if n < 0 then Slots(b, Ids(b)) else Put(MergeItems(b, o[..n]), o[n])
  }

  function Put(s: Slots, item: Doc): (s': Slots)
    requires |s.items| == |s.ids| && HasIdentity(item)
    ensures |s'.items| == |s'.ids|
    decreases item, 1
  {
    var id := IdentityOf(item);
    if id in s.ids then
      var i := LastOf(s.ids, id);
      Slots(s.items[i := Merge(s.items[i], item)], s.ids)
    else Slots(s.items + [item], s.ids + [id])
  }

  ghost predicate Indexes(index: map<Identity, nat>, ids: seq<Identity>) {
    && (forall id :: id in index <==> id in ids)
    && (forall id :: id in ids ==> index[id] == LastOf(ids, id))
  }

  lemma IndexAppended(index: map<Identity, nat>, ids: seq<Identity>, id: Identity)
    requires Indexes(index, ids)
    ensures Indexes(index[id := |ids|], ids + [id])
  {
    assert (ids + [id])[..|ids|] == ids;
  }

  method IndexOf(items: seq<Doc>) returns (index: map<Identity, nat>)
    requires AllIdentified(items)
    ensures Indexes(index, Ids(items))
  {
    index := map[];
    for n := 0 to |items|
      invariant Indexes(index, Ids(items)[..n])
    {
      IndexAppended(index, Ids(items)[..n], IdentityOf(items[n]));
      assert Ids(items)[..n + 1] == Ids(items)[..n] + [IdentityOf(items[n])];
      index := index[IdentityOf(items[n]) := n];
    }
    assert Ids(items)[..|items|] == Ids(items);
  }

  method MergeDocs(base: Doc, over: Doc) returns (doc: Doc)
    ensures doc == Merge(base, over)
    decreases over, 1
  {
    if base.Dict? && over.Dict? {
      var out := MergeEntries(base.entries, over.entries);
      return Dict(out);
    }
    if base.Items? && over.Items? && Keyed(base.items) && Keyed(over.items) {
      var out := MergeLists(base.items, over.items);
      return Items(out);
    }
    doc := over;
  }

  method MergeEntries(b: map<Key, Doc>, o: map<Key, Doc>) returns (out: map<Key, Doc>)
    ensures Dict(out) == Merge(Dict(b), Dict(o))
    decreases Dict(o), 0
  {
    out := b;
    var todo := o.Keys;
    while todo != {}
      invariant todo <= o.Keys
      invariant out.Keys == b.Keys + (o.Keys - todo)
      invariant forall k :: k in out ==>
        out[k] == if k !in o || k in todo then b[k] else if k in b then Merge(b[k], o[k]) else o[k]
      decreases todo
    {
      var k :| k in todo;
      if k in out {
        var merged := MergeDocs(out[k], o[k]);
        out := out[k := merged];
      } else {
        out := out[k := o[k]];
      }
      todo := todo - {k};
    }
  }

  method MergeLists(b: seq<Doc>, o: seq<Doc>) returns (out: seq<Doc>)
    requires AllIdentified(b) && AllIdentified(o)
    ensures out == MergeItems(b, o).items
    decreases Items(o), 0
  {
    out := b;
    var index: map<Identity, nat> := IndexOf(b);
    ghost var ids := Ids(b);
    for n := 0 to |o|
      invariant Slots(out, ids) == MergeItems(b, o[..n])
      invariant Indexes(index, ids)
    {
      assert o[..n + 1][..n] == o[..n];
      var key := IdentityOf(o[n]);
      if key in index {
        var merged := MergeDocs(out[index[key]], o[n]);
        out := out[index[key] := merged];
      } else {
        IndexAppended(index, ids, key);
        index := index[key := |out|];
        out := out + [o[n]];
        ids := ids + [key];
      }
    }
    assert o[..|o|] == o;
  }

  // ----- documents as trees of paths

  datatype Step = At(key: Key) | Item(id: Identity)
  datatype Kind = Branch | Listing | Atom

  function KindOf(d: Doc): Kind {
    match d
    case Leaf(_, _) => Atom
    case Dict(_) => Branch
    case Items(items) => if Keyed(items) then Listing else Atom
  }

  // The entries of a keyed list, by identity.
  function ByIdentity(items: seq<Doc>): map<Identity, Doc>
    requires AllIdentified(items)
  {
    map id | id in Ids(items) :: items[LastOf(Ids(items), id)]
  }

  function Children(d: Doc): (c: map<Step, Doc>)
    ensures forall s :: s in c ==> c[s] < d
    ensures forall s :: s in c ==> (if d.Dict? then s.At? else s.Item?)
    ensures d.Dict? ==> forall k :: (At(k) in c <==> k in d.entries) && (k in d.entries ==> c[At(k)] == d.entries[k])
    ensures d.Items? && Keyed(d.items) ==>
      forall id :: (Item(id) in c <==> id in Ids(d.items)) && (id in Ids(d.items) ==> c[Item(id)] == ByIdentity(d.items)[id])
    ensures KindOf(d).Atom? ==> c == map[]
  {
    match d
    case Leaf(_, _) => map[]
    case Dict(entries) => map k | k in entries :: At(k) := entries[k]
    case Items(items) => if Keyed(items) then map id | id in Ids(items) :: Item(id) := ByIdentity(items)[id] else map[]
  }

  // What a document says at a path: nothing, a map, a keyed list, or a value taken whole.
  datatype Said = Nothing | Map | List | Value(doc: Doc)

  function Look(d: Doc, path: seq<Step>): Said
    decreases |path|
  {
    if |path| == 0 then
      match KindOf(d)
      case Branch => Map
      case Listing => List
      case Atom => Value(d)
    else if path[0] in Children(d) then Look(Children(d)[path[0]], path[1..])
    else Nothing
  }

  function Override(under: Said, over: Said): Said {
    if over.Nothing? then under else over
  }

  ghost predicate Distinct(ids: seq<Identity>) {
    forall i, j :: 0 <= i < j < |ids| ==> ids[i] != ids[j]
  }

  // Merging two items of this identity keeps it: it is a scalar, or a value that merges onto itself.
  ghost predicate Steady(id: Identity) {
    id.shown.Text? || Merge(id.shown.doc, id.shown.doc) == id.shown.doc
  }

  ghost predicate AllSteady(ids: seq<Identity>) {
    forall i :: 0 <= i < |ids| ==> Steady(ids[i])
  }

  // Every keyed list has distinct and steady identities.
  ghost predicate WellFormed(d: Doc) {
    && (d.Items? && Keyed(d.items) ==> Distinct(Ids(d.items)) && AllSteady(Ids(d.items)))
    && forall s :: s in Children(d) ==> WellFormed(Children(d)[s])
  }

  // `over` never puts something of another kind where `base` has children.
  ghost predicate Overlays(base: Doc, over: Doc)
    decreases base
  {
    Children(base) == map[] || (SameKind(base, over) &&
      forall s :: s in Children(base) && s in Children(over) ==> Overlays(Children(base)[s], Children(over)[s]))
  }

  predicate SameKind(a: Doc, b: Doc) {
    KindOf(a) == KindOf(b)
  }

  function MergeMaps<K>(b: map<K, Doc>, o: map<K, Doc>): map<K, Doc> {
    map k | k in b.Keys + o.Keys :: if k !in o then b[k] else if k in b then Merge(b[k], o[k]) else o[k]
  }

  // ----- merging two keyed lists

  // The elements of xs that `seen` does not have, first occurrences only.
  function Fresh(xs: seq<Identity>, seen: seq<Identity>): seq<Identity> {
    var n := |xs| - 1;
    if n < 0 then []
    else if xs[n] in seen || xs[n] in xs[..n] then Fresh(xs[..n], seen)
    else Fresh(xs[..n], seen) + [xs[n]]
  }

  lemma {:induction false} FreshHas(xs: seq<Identity>, seen: seq<Identity>, x: Identity)
    ensures x in Fresh(xs, seen) <==> x in xs && x !in seen
  {
    var n := |xs| - 1;
    if n >= 0 {
      FreshHas(xs[..n], seen, x);
      assert xs == xs[..n] + [xs[n]];
    }
  }

  lemma {:induction false} FreshIsDistinct(xs: seq<Identity>, seen: seq<Identity>)
    ensures Distinct(Fresh(xs, seen))
  {
    var n := |xs| - 1;
    if n >= 0 {
      FreshIsDistinct(xs[..n], seen);
      FreshHas(xs[..n], seen, xs[n]);
    }
  }

  lemma FreshSnoc(xs: seq<Identity>, x: Identity, seen: seq<Identity>)
    ensures Fresh(xs + [x], seen) == if x in seen || x in xs then Fresh(xs, seen) else Fresh(xs, seen) + [x]
  {
    assert (xs + [x])[..|xs|] == xs && (xs + [x])[|xs|] == x;
  }

  lemma MergeKeepsIdentity(x: Doc, y: Doc)
    requires HasIdentity(x) && HasIdentity(y)
    requires IdentityOf(x) == IdentityOf(y)
    ensures HasIdentity(Merge(x, y))
    ensures Steady(IdentityOf(x)) ==> IdentityOf(Merge(x, y)) == IdentityOf(x)
  {
  }

  lemma PutKeepsIds(s: Slots, item: Doc)
    requires AllIdentified(s.items) && Ids(s.items) == s.ids && HasIdentity(item) && Steady(IdentityOf(item))
    ensures var (s', id) := (Put(s, item), IdentityOf(item));
            AllIdentified(s'.items) && Ids(s'.items) == s'.ids && s'.ids == if id in s.ids then s.ids else s.ids + [id]
  {
    hide Merge, IdentityOf, HasIdentity, Steady;
    var id := IdentityOf(item);
    if id in s.ids {
      MergeKeepsIdentity(s.items[LastOf(s.ids, id)], item);
      assert Ids(Put(s, item).items) == s.ids;
    } else {
      assert Ids(Put(s, item).items) == s.ids + [id];
    }
  }

  // Slots never lose their identity; base order comes first and new identities follow in order.
  lemma {:induction false} SlotsKeepIds(b: seq<Doc>, o: seq<Doc>)
    requires AllIdentified(b) && AllIdentified(o) && AllSteady(Ids(o))
    ensures var s := MergeItems(b, o);
            && AllIdentified(s.items) && Ids(s.items) == s.ids
            && s.ids == Ids(b) + Fresh(Ids(o), Ids(b))
  {
    hide Put, IdentityOf, HasIdentity, Fresh, Steady;
    var n := |o| - 1;
    if n < 0 {
      NothingToAdd(Ids(b));
    } else {
      FrontIsSteady(o);
      SlotsKeepIds(b, o[..n]);
      PutKeepsIds(MergeItems(b, o[..n]), o[n]);
      FreshSnoc(Ids(o[..n]), IdentityOf(o[n]), Ids(b));
      FreshHas(Ids(o[..n]), Ids(b), IdentityOf(o[n]));
    }
  }

  lemma NothingToAdd(ids: seq<Identity>)
    ensures ids + Fresh([], ids) == ids
  {
  }

  lemma FrontIsSteady(o: seq<Doc>)
    requires AllIdentified(o) && |o| > 0 && AllSteady(Ids(o))
    ensures var n := |o| - 1; AllIdentified(o[..n]) && AllSteady(Ids(o[..n])) && Ids(o) == Ids(o[..n]) + [IdentityOf(o[n])]
    ensures Steady(IdentityOf(o[|o| - 1]))
  {
    hide IdentityOf, Steady;
    assert Steady(Ids(o)[|o| - 1]);
    assert Ids(o)[..|o| - 1] == Ids(o[..|o| - 1]);
  }

  lemma SteadyAppend(xs: seq<Identity>, ys: seq<Identity>)
    requires AllSteady(xs) && AllSteady(ys)
    ensures AllSteady(xs + Fresh(ys, xs))
  {
    hide Steady;
    forall i | 0 <= i < |xs + Fresh(ys, xs)| ensures Steady((xs + Fresh(ys, xs))[i]) {
      if i >= |xs| {
        assert Fresh(ys, xs)[i - |xs|] in Fresh(ys, xs);
        FreshHas(ys, xs, Fresh(ys, xs)[i - |xs|]);
      }
    }
  }

  lemma ByIdentitySnoc(items: seq<Doc>, item: Doc)
    requires AllIdentified(items) && HasIdentity(item)
    ensures ByIdentity(items + [item]) == ByIdentity(items)[IdentityOf(item) := item]
  {
    var all := items + [item];
    assert Ids(all)[..|items|] == Ids(items);
    assert Ids(all) == Ids(items) + [IdentityOf(item)];
  }

  lemma ByIdentityUpdated(items: seq<Doc>, i: nat, item: Doc)
    requires AllIdentified(items) && HasIdentity(item) && i < |items| && IdentityOf(item) == IdentityOf(items[i])
    requires i == LastOf(Ids(items), IdentityOf(item))
    ensures AllIdentified(items[i := item])
    ensures ByIdentity(items[i := item]) == ByIdentity(items)[IdentityOf(item) := item]
  {
    assert Ids(items[i := item]) == Ids(items);
  }

  lemma {:induction false} SlotsMergeEntries(b: seq<Doc>, o: seq<Doc>)
    requires AllIdentified(b) && AllIdentified(o) && AllSteady(Ids(o)) && Distinct(Ids(o))
    ensures var s := MergeItems(b, o);
            AllIdentified(s.items) && ByIdentity(s.items) == MergeMaps(ByIdentity(b), ByIdentity(o))
  {
    hide Merge, ByIdentity, Steady;
    SlotsKeepIds(b, o);
    var n := |o| - 1;
    if n < 0 {
      NoEntries(o);
      assert MergeMaps(ByIdentity(b), ByIdentity(o)) == ByIdentity(b);
    } else {
      var s := MergeItems(b, o[..n]);
      var id := IdentityOf(o[n]);
      FrontIsSteady(o);
      SlotsMergeEntries(b, o[..n]);
      SlotsKeepIds(b, o[..n]);
      NotYet(o);
      assert o == o[..n] + [o[n]];
      ByIdentitySnoc(o[..n], o[n]);
      EntriesAre(s.items, id);
      EntriesAre(b, id);
      if id in s.ids {
        MergeKeepsIdentity(s.items[LastOf(s.ids, id)], o[n]);
        ByIdentityUpdated(s.items, LastOf(s.ids, id), Merge(s.items[LastOf(s.ids, id)], o[n]));
      } else {
        ByIdentitySnoc(s.items, o[n]);
      }
      MergeMapsSnoc(ByIdentity(b), ByIdentity(o[..n]), id, o[n]);
    }
  }

  // Slots that no item of `o` finds keep what the base had there.
  lemma {:induction false} SlotsKeepOthers(b: seq<Doc>, o: seq<Doc>, i: nat)
    requires AllIdentified(b) && AllIdentified(o) && AllSteady(Ids(o))
    requires i < |b| && (Ids(b)[i] in Ids(o) ==> i != LastOf(Ids(b), Ids(b)[i]))
    ensures var s := MergeItems(b, o); i < |s.items| && s.items[i] == b[i]
  {
    hide Merge, IdentityOf, HasIdentity, Steady, Fresh, LastOf;
    var n := |o| - 1;
    if n >= 0 {
      FrontIsSteady(o);
      SlotsKeepOthers(b, o[..n], i);
      SlotsKeepIds(b, o[..n]);
      var (s, id) := (MergeItems(b, o[..n]), IdentityOf(o[n]));
      if id == Ids(b)[i] {
        assert Ids(o)[n] == id;
        NotLast(Ids(b), Fresh(Ids(o[..n]), Ids(b)), i);
      }
    }
  }

  lemma NotLast(ids: seq<Identity>, more: seq<Identity>, i: nat)
    requires i < |ids| && LastOf(ids, ids[i]) != i
    ensures ids[i] in ids + more && LastOf(ids + more, ids[i]) != i
  {
    var last := LastOf(ids, ids[i]);
    assert i < last && (ids + more)[last] == ids[i];
  }

  lemma NoEntries(items: seq<Doc>)
    requires items == []
    ensures ByIdentity(items) == map[]
  {
  }

  lemma NotYet(o: seq<Doc>)
    requires AllIdentified(o) && |o| > 0 && Distinct(Ids(o))
    ensures IdentityOf(o[|o| - 1]) !in ByIdentity(o[..|o| - 1])
  {
    assert Ids(o)[..|o| - 1] == Ids(o[..|o| - 1]);
    assert forall i :: 0 <= i < |o| - 1 ==> Ids(o)[i] != Ids(o)[|o| - 1];
  }

  lemma EntriesAre(items: seq<Doc>, id: Identity)
    requires AllIdentified(items)
    ensures id in ByIdentity(items) <==> id in Ids(items)
    ensures id in Ids(items) ==> ByIdentity(items)[id] == items[LastOf(Ids(items), id)]
  {
  }

  lemma MergeMapsSnoc(b: map<Identity, Doc>, o: map<Identity, Doc>, id: Identity, item: Doc)
    requires id !in o
    ensures MergeMaps(b, o[id := item]) == MergeMaps(b, o)[id := if id in b then Merge(b[id], item) else item]
    ensures id in MergeMaps(b, o) <==> id in b
    ensures id in b ==> MergeMaps(b, o)[id] == b[id]
  {
    hide Merge;
  }

  // ----- the children of a merge

  lemma ListsMerge(b: seq<Doc>, o: seq<Doc>)
    requires Keyed(b) && Keyed(o) && AllSteady(Ids(o)) && Distinct(Ids(o))
    ensures var m := Merge(Items(b), Items(o));
            && m.Items? && Keyed(m.items)
            && Ids(m.items) == Ids(b) + Fresh(Ids(o), Ids(b))
            && ByIdentity(m.items) == MergeMaps(ByIdentity(b), ByIdentity(o))
            && (Distinct(Ids(b)) ==> Distinct(Ids(m.items)))
            && (AllSteady(Ids(b)) ==> AllSteady(Ids(m.items)))
  {
    SlotsKeepIds(b, o);
    SlotsMergeEntries(b, o);
    hide MergeItems, ByIdentity, MergeMaps, IdentityOf, Fresh, Steady;
    var m := Merge(Items(b), Items(o));
    assert |Ids(m.items)| > 0;
    FreshIsDistinct(Ids(o), Ids(b));
    forall y | y in Fresh(Ids(o), Ids(b)) ensures y !in Ids(b) {
      FreshHas(Ids(o), Ids(b), y);
    }
    if Distinct(Ids(b)) {
      DistinctAppend(Ids(b), Fresh(Ids(o), Ids(b)));
    }
    if AllSteady(Ids(b)) {
      SteadyAppend(Ids(b), Ids(o));
    }
  }

  lemma DistinctAppend(xs: seq<Identity>, ys: seq<Identity>)
    requires Distinct(xs) && Distinct(ys) && forall y :: y in ys ==> y !in xs
    ensures Distinct(xs + ys)
  {
    forall i, j | 0 <= i < j < |xs + ys| ensures (xs + ys)[i] != (xs + ys)[j] {
      if i < |xs| <= j {
        assert (xs + ys)[j] == ys[j - |xs|] && ys[j - |xs|] in ys;
      }
    }
  }

  // Where the kinds agree, or there is nothing below, children merge as maps do.
  lemma ChildrenMerge(b: Doc, o: Doc)
    requires WellFormed(o)
    requires Children(b) == map[] || SameKind(b, o)
    ensures SameKind(Merge(b, o), o)
    ensures Children(Merge(b, o)) == MergeMaps(Children(b), Children(o))
  {
    hide Children, Merge, WellFormed, Keyed;
    if Children(b) == map[] {
      NothingBelow(b, o);
      assert MergeMaps(Children(b), Children(o)) == Children(o);
    } else if b.Dict? {
      BranchesMerge(b, o);
    } else {
      ListingsMerge(b, o);
    }
  }

  // Something without children leaves no trace under a merge.
  lemma NothingBelow(b: Doc, o: Doc)
    requires Children(b) == map[]
    ensures Merge(b, o) == o
  {
    if b.Dict? && o.Dict? {
      assert forall k :: At(k) !in Children(b);
      assert Merge(b, o).entries == o.entries;
    } else if KindOf(b).Listing? {
      KeyedHasChild(b);
    }
  }

  lemma KeyedHasChild(d: Doc)
    requires KindOf(d).Listing?
    ensures Children(d) != map[]
  {
    assert Ids(d.items)[0] in Ids(d.items);
    assert Item(Ids(d.items)[0]) in Children(d);
  }

  lemma BranchesMerge(b: Doc, o: Doc)
    requires b.Dict? && o.Dict?
    ensures Children(Merge(b, o)) == MergeMaps(Children(b), Children(o))
  {
    hide Children, Merge;
    var (m, c) := (Merge(b, o), MergeMaps(Children(b), Children(o)));
    forall s
      ensures s in Children(m) <==> s in c
      ensures s in Children(m) ==> Children(m)[s] == c[s]
    {
      BranchStep(b, o, s);
    }
  }

  lemma BranchStep(b: Doc, o: Doc, s: Step)
    requires b.Dict? && o.Dict?
    ensures var (m, c) := (Merge(b, o), MergeMaps(Children(b), Children(o)));
            (s in Children(m) <==> s in c) && (s in Children(m) ==> Children(m)[s] == c[s])
  {
    hide Children;
    assert s.At? ==> s == At(s.key);
  }

  lemma ListingsMerge(b: Doc, o: Doc)
    requires WellFormed(o) && KindOf(b).Listing? && KindOf(o).Listing?
    ensures SameKind(Merge(b, o), o)
    ensures Children(Merge(b, o)) == MergeMaps(Children(b), Children(o))
  {
    hide Merge, ByIdentity, Ids, Children, WellFormed, IdentityOf, HasIdentity, MergeMaps;
    ListIsSound(o);
    ListsMerge(b.items, o.items);
    var (m, c) := (Merge(b, o), MergeMaps(Children(b), Children(o)));
    hide Distinct, AllSteady, Fresh;
    forall s
      ensures s in Children(m) <==> s in c
      ensures s in Children(m) ==> Children(m)[s] == c[s]
    {
      ListingStep(b, o, m, s);
    }
  }

  lemma ListIsSound(d: Doc)
    requires WellFormed(d) && KindOf(d).Listing?
    ensures Distinct(Ids(d.items)) && AllSteady(Ids(d.items))
  {
  }

  lemma ListingStep(b: Doc, o: Doc, m: Doc, s: Step)
    requires KindOf(b).Listing? && KindOf(o).Listing? && KindOf(m).Listing?
    requires ByIdentity(m.items) == MergeMaps(ByIdentity(b.items), ByIdentity(o.items))
    ensures var c := MergeMaps(Children(b), Children(o));
            (s in Children(m) <==> s in c) && (s in Children(m) ==> Children(m)[s] == c[s])
  {
    hide Merge, ByIdentity, Ids, Children;
    if s.Item? {
      assert s == Item(s.id);
      EntriesAre(b.items, s.id);
      EntriesAre(o.items, s.id);
      EntriesAre(m.items, s.id);
    }
  }

  // Kinds that disagree over children: the later document replaces the earlier one.
  lemma Replaced(b: Doc, o: Doc)
    requires !SameKind(b, o)
    ensures Merge(b, o) == o
  {
  }

  // ----- the merge is path-wise override

  lemma LookStep(d: Doc, s: Step, rest: seq<Step>)
    ensures Look(d, [s] + rest) == if s in Children(d) then Look(Children(d)[s], rest) else Nothing
  {
    assert ([s] + rest)[0] == s && ([s] + rest)[1..] == rest;
  }

  lemma {:induction false} MergeOverrides(b: Doc, o: Doc, path: seq<Step>)
    requires WellFormed(o) && Overlays(b, o)
    ensures Look(Merge(b, o), path) == Override(Look(b, path), Look(o, path))
    decreases |path|
  {
    hide Children, Merge, WellFormed, KindOf;
    ChildrenMerge(b, o);
    if |path| > 0 {
      var s := path[0];
      if s in Children(b) && s in Children(o) {
        MergeOverridesBelow(b, o, s);
        MergeOverrides(Children(b)[s], Children(o)[s], path[1..]);
      }
    } else {
      AtomsReplace(b, o);
    }
  }

  lemma MergeOverridesBelow(b: Doc, o: Doc, s: Step)
    requires WellFormed(o) && Overlays(b, o)
    requires s in Children(b) && s in Children(o)
    ensures WellFormed(Children(o)[s]) && Overlays(Children(b)[s], Children(o)[s])
  {
  }

  lemma AtomsReplace(b: Doc, o: Doc)
    ensures KindOf(o).Atom? ==> Merge(b, o) == o
  {
  }

  // Where `over` does put another kind in place of children, some path loses what base said.
  lemma {:induction false} ReplacementForgets(b: Doc, o: Doc) returns (path: seq<Step>)
    requires WellFormed(o) && !Overlays(b, o)
    ensures Look(Merge(b, o), path) != Override(Look(b, path), Look(o, path))
    decreases b
  {
    if !SameKind(b, o) {
      Replaced(b, o);
      var s :| s in Children(b);
      LookStep(b, s, []);
      LookStep(o, s, []);
      path := [s];
    } else {
      ChildrenMerge(b, o);
      var s :| s in Children(b) && s in Children(o) && !Overlays(Children(b)[s], Children(o)[s]);
      var rest := ReplacementForgets(Children(b)[s], Children(o)[s]);
      path := [s] + rest;
      hide Children, Merge;
      LookStep(b, s, rest);
      LookStep(o, s, rest);
      LookStep(Merge(b, o), s, rest);
    }
  }

  ghost predicate OverridesEverywhere(b: Doc, o: Doc) {
    forall path :: Look(Merge(b, o), path) == Override(Look(b, path), Look(o, path))
  }

  // A merge says at every path what the later document says there, and where that is nothing
  // what the earlier one says, exactly when no children are replaced by another kind.
  lemma MergeIsOverride(b: Doc, o: Doc)
    requires WellFormed(o)
    ensures OverridesEverywhere(b, o) <==> Overlays(b, o)
  {
    hide Look, Merge, WellFormed, Overlays;
    if Overlays(b, o) {
      forall path ensures Look(Merge(b, o), path) == Override(Look(b, path), Look(o, path)) {
        MergeOverrides(b, o, path);
      }
    } else {
      var path := ReplacementForgets(b, o);
      assert Look(Merge(b, o), path) != Override(Look(b, path), Look(o, path));
    }
  }
}
