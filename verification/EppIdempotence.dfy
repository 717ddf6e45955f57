// When applying a config layer again changes nothing, whatever it was applied to: an exact
// condition on the layer, also where its lists repeat identities.

module EppIdempotence {
  import opened Text
  import opened EppConfig
  import opened EppLayers

  // ----- runs of merges

  function Onto(under: Option<Doc>, over: Doc): Doc {
    if under.None? then over else Merge(under.value, over)
  }

  // Documents merged one after the other, onto nothing or onto a document.
  function Run(under: Option<Doc>, ys: seq<Doc>): Option<Doc> {
    var n := |ys| - 1;
    if n < 0 then under else Some(Onto(Run(under, ys[..n]), ys[n]))
  }

  lemma {:induction false} RunAppend(v: Option<Doc>, xs: seq<Doc>, ys: seq<Doc>)
    ensures Run(v, xs + ys) == Run(Run(v, xs), ys)
  {
    hide Onto;
    var n := |ys| - 1;
    if n < 0 {
      assert xs + ys == xs;
    } else {
      assert (xs + ys)[..|xs| + n] == xs + ys[..n] && (xs + ys)[|xs| + n] == ys[n];
      RunAppend(v, xs, ys[..n]);
    }
  }

  // ----- what a step of the path sees of each document

  function Child(v: Option<Doc>, s: Step): Option<Doc> {
    if v.Some? && s in Children(v.value) then Some(Children(v.value)[s]) else None
  }

  // The items of one identity, in order.
  function Occurrences(items: seq<Doc>, id: Identity): seq<Doc>
    requires AllIdentified(items)
  {
    var n := |items| - 1;
    if n < 0 then []
    else if IdentityOf(items[n]) == id then Occurrences(items[..n], id) + [items[n]]
    else Occurrences(items[..n], id)
  }

  function Strand(d: Doc, s: Step): seq<Doc> {
    match KindOf(d)
    case Branch => if s in Children(d) then [Children(d)[s]] else []
    case Listing => if s.Item? then Occurrences(d.items, s.id) else []
    case Atom => []
  }

  function Strands(ys: seq<Doc>, s: Step): seq<Doc> {
    var n := |ys| - 1;
    if n < 0 then [] else Strands(ys[..n], s) + Strand(ys[n], s)
  }

  // Every identity in the document is given by a scalar.
  ghost predicate ScalarIds(d: Doc) {
    match d
    case Leaf(_, _) => true
    case Dict(entries) => forall k :: k in entries ==> ScalarIds(entries[k])
    case Items(items) =>
      Keyed(items) ==> forall i :: 0 <= i < |items| ==> IdentityOf(items[i]).shown.Text? && ScalarIds(items[i])
  }

  ghost predicate AllScalar(ys: seq<Doc>) {
    forall i :: 0 <= i < |ys| ==> ScalarIds(ys[i])
  }

  lemma ScalarListIsSteady(d: Doc)
    requires ScalarIds(d) && KindOf(d).Listing?
    ensures AllSteady(Ids(d.items))
  {
    hide Merge;
  }

  // ----- heights

  ghost function Top<K(!new)>(m: map<K, nat>): (top: nat)
    ensures forall k :: k in m ==> m[k] <= top
  {
    if |m| == 0 then 0
    else
      var k :| k in m;
      var rest := Top(m - {k});
      assert forall j :: j in m ==> j == k || j in m - {k};
      if m[k] > rest then m[k] else rest
  }

  ghost function Height(d: Doc): nat {
    match d
    case Leaf(_, _) => 0
    case Dict(entries) => 1 + Top(map k | k in entries :: Height(entries[k]))
    case Items(items) => 1 + Top(map i | 0 <= i < |items| :: i := Height(items[i]))
  }

  ghost function MaxHeight(ys: seq<Doc>): (h: nat)
    ensures forall i :: 0 <= i < |ys| ==> Height(ys[i]) <= h
  {
    var n := |ys| - 1;
    if n < 0 then 0
    else
      var h := MaxHeight(ys[..n]);
      assert forall i :: 0 <= i < n ==> ys[i] == ys[..n][i];
      if Height(ys[n]) > h then Height(ys[n]) else h
  }

  lemma {:induction false} MaxHeightBelow(ys: seq<Doc>, h: nat)
    requires |ys| > 0 && forall i :: 0 <= i < |ys| ==> Height(ys[i]) < h
    ensures MaxHeight(ys) < h
  {
    hide Height;
    if |ys| > 1 {
      MaxHeightBelow(ys[..|ys| - 1], h);
    } else {
      assert ys[..0] == [];
    }
  }

  lemma ItemIsLower(items: seq<Doc>, i: nat)
    requires i < |items|
    ensures Height(items[i]) < Height(Items(items))
  {
    var m: map<int, nat> := map i | 0 <= i < |items| :: i := Height(items[i]);
    assert i in m && m[i] == Height(items[i]);
  }

  lemma EntryIsLower(entries: map<Key, Doc>, k: Key)
    requires k in entries
    ensures Height(entries[k]) < Height(Dict(entries))
  {
    var m := map j | j in entries :: Height(entries[j]);
    assert k in m && m[k] == Height(entries[k]);
  }

  // What one may know of the documents of a strand.
  ghost predicate From(d: Doc, s: Step, x: Doc) {
    && Height(x) < Height(d) && (ScalarIds(d) ==> ScalarIds(x))
    && (KindOf(d).Listing? ==> s.Item? && HasIdentity(x) && IdentityOf(x) == s.id && (ScalarIds(d) ==> s.id.shown.Text?))
    && (KindOf(d).Branch? ==> s.At? && s.key in d.entries && x == d.entries[s.key])
  }

  lemma {:induction false} OccurrencesAre(items: seq<Doc>, n: nat, id: Identity, j: nat)
    requires Keyed(items) && n <= |items|
    requires j < |Occurrences(items[..n], id)|
    ensures From(Items(items), Item(id), Occurrences(items[..n], id)[j])
  {
    if n > 0 {
      assert items[..n][..n - 1] == items[..n - 1];
      if j < |Occurrences(items[..n - 1], id)| {
        OccurrencesAre(items, n - 1, id, j);
      } else {
        ItemIsLower(items, n - 1);
      }
    }
  }

  lemma StrandIs(d: Doc, s: Step, j: nat)
    requires j < |Strand(d, s)|
    ensures From(d, s, Strand(d, s)[j])
  {
    if d.Dict? {
      assert s == At(s.key);
      EntryIsLower(d.entries, s.key);
    } else {
      assert d.items[..|d.items|] == d.items;
      OccurrencesAre(d.items, |d.items|, s.id, j);
    }
  }

  lemma {:induction false} StrandsAre(ys: seq<Doc>, s: Step, j: nat) returns (i: nat)
    requires j < |Strands(ys, s)|
    ensures i < |ys| && From(ys[i], s, Strands(ys, s)[j])
  {
    hide Strand, From;
    var n := |ys| - 1;
    if j < |Strands(ys[..n], s)| {
      i := StrandsAre(ys[..n], s, j);
    } else {
      i := n;
      StrandIs(ys[n], s, j - |Strands(ys[..n], s)|);
    }
  }

  lemma StrandsAreLower(ys: seq<Doc>, s: Step)
    requires Strands(ys, s) != []
    ensures MaxHeight(Strands(ys, s)) < MaxHeight(ys)
    ensures AllScalar(ys) ==> AllScalar(Strands(ys, s))
  {
    hide Height, Strands, ScalarIds;
    forall j | 0 <= j < |Strands(ys, s)|
      ensures Height(Strands(ys, s)[j]) < MaxHeight(ys)
      ensures AllScalar(ys) ==> ScalarIds(Strands(ys, s)[j])
    {
      var i := StrandsAre(ys, s, j);
    }
    MaxHeightBelow(Strands(ys, s), MaxHeight(ys));
  }

  // ----- the children of a run

  function ItemOf(items: seq<Doc>, id: Identity): Option<Doc>
    requires AllIdentified(items)
  {
    if id in Ids(items) then Some(items[LastOf(Ids(items), id)]) else None
  }

  lemma PutChanges(s: Slots, item: Doc, id: Identity)
    requires AllIdentified(s.items) && Ids(s.items) == s.ids && HasIdentity(item) && Steady(IdentityOf(item))
    ensures AllIdentified(Put(s, item).items)
    ensures ItemOf(Put(s, item).items, id)
            == if IdentityOf(item) == id then Some(Onto(ItemOf(s.items, id), item)) else ItemOf(s.items, id)
  {
    hide Merge, IdentityOf, HasIdentity, Steady;
    PutKeepsIds(s, item);
    var own := IdentityOf(item);
    if own !in s.ids {
      assert (s.ids + [own])[..|s.ids|] == s.ids;
      LastOfSnoc(s.ids, own, id);
    }
  }

  lemma LastOfSnoc(ids: seq<Identity>, x: Identity, id: Identity)
    ensures id in ids + [x] <==> id in ids || id == x
    ensures id in ids + [x] ==> LastOf(ids + [x], id) == if id == x then |ids| else LastOf(ids, id)
  {
    assert (ids + [x])[..|ids|] == ids;
  }

  lemma {:induction false} SlotRuns(b: seq<Doc>, o: seq<Doc>, id: Identity)
    requires AllIdentified(b) && AllIdentified(o) && AllSteady(Ids(o))
    ensures AllIdentified(MergeItems(b, o).items)
    ensures ItemOf(MergeItems(b, o).items, id) == Run(ItemOf(b, id), Occurrences(o, id))
  {
    hide Merge, IdentityOf, HasIdentity, Steady, Put, ItemOf, Onto;
    SlotsKeepIds(b, o);
    var n := |o| - 1;
    if n >= 0 {
      FrontIsSteady(o);
      SlotRuns(b, o[..n], id);
      SlotsKeepIds(b, o[..n]);
      PutChanges(MergeItems(b, o[..n]), o[n], id);
      RunSnoc(ItemOf(b, id), Occurrences(o[..n], id), o[n]);
    }
  }

  lemma RunSnoc(v: Option<Doc>, ys: seq<Doc>, y: Doc)
    ensures Run(v, ys + [y]) == Some(Onto(Run(v, ys), y))
  {
    assert (ys + [y])[..|ys|] == ys;
  }

  // The kind of a merge is that of the later document.
  lemma KindOfMerge(z: Doc, o: Doc)
    requires ScalarIds(o)
    ensures SameKind(Merge(z, o), o)
  {
    if KindOf(z).Listing? && KindOf(o).Listing? {
      ScalarListIsSteady(o);
      SlotsKeepIds(z.items, o.items);
      MergeOfLists(z.items, o.items);
      hide MergeItems;
      assert |MergeItems(z.items, o.items).ids| > 0;
    }
  }

  lemma ChildOfMerge(z: Doc, o: Doc, s: Step)
    requires SameKind(z, o) && !KindOf(o).Atom? && ScalarIds(o)
    ensures Child(Some(Merge(z, o)), s) == Run(Child(Some(z), s), Strand(o, s))
  {
    KindOfMerge(z, o);
    if o.Dict? {
      hide Merge, Children;
      BranchStep(z, o, s);
      if s in Children(o) {
        RunSnoc(Child(Some(z), s), [], Children(o)[s]);
        assert [] + [Children(o)[s]] == [Children(o)[s]];
      }
    } else {
      ScalarListIsSteady(o);
      MergeOfLists(z.items, o.items);
      hide Merge, MergeItems, Children, Run;
      if s.Item? {
        assert s == Item(s.id);
        SlotRuns(z.items, o.items, s.id);
        ItemIsChild(z, s.id);
        ItemIsChild(Merge(z, o), s.id);
      } else {
        NoRun(Child(Some(z), s));
      }
    }
  }

  lemma NoRun(v: Option<Doc>)
    ensures Run(v, []) == v
  {
  }

  lemma ItemIsChild(d: Doc, id: Identity)
    requires KindOf(d).Listing?
    ensures Child(Some(d), Item(id)) == ItemOf(d.items, id)
  {
    hide Children;
    EntriesAre(d.items, id);
  }

  ghost predicate Alike(z: Doc, ys: seq<Doc>) {
    forall i :: 0 <= i < |ys| ==> SameKind(z, ys[i])
  }

  lemma {:induction false} ChildOfRun(z: Doc, ys: seq<Doc>, s: Step)
    requires Alike(z, ys) && !KindOf(z).Atom? && AllScalar(ys)
    ensures Run(Some(z), ys).Some? && SameKind(Run(Some(z), ys).value, z)
    ensures Child(Run(Some(z), ys), s) == Run(Child(Some(z), s), Strands(ys, s))
  {
    hide Merge, Child, Strand, ScalarIds, KindOf;
    var n := |ys| - 1;
    if n >= 0 {
      ChildOfRun(z, ys[..n], s);
      var m := Run(Some(z), ys[..n]).value;
      assert SameKind(m, ys[n]);
      KindOfMerge(m, ys[n]);
      ChildOfMerge(m, ys[n], s);
      RunAppend(Child(Some(z), s), Strands(ys[..n], s), Strand(ys[n], s));
    }
  }

  ghost predicate Absorbs(z: Doc, ys: seq<Doc>) {
    Run(Some(z), ys) == Some(z)
  }

  ghost predicate HasIds(z: Doc, y: Doc) {
    KindOf(z).Listing? && KindOf(y).Listing? && forall id :: id in Ids(y.items) ==> id in Ids(z.items)
  }

  // Lists that bring no new identity keep the frame they are merged into.
  lemma {:induction false} RunKeepsFrame(z: Doc, ys: seq<Doc>)
    requires AllScalar(ys) && KindOf(z).Listing? && forall i :: 0 <= i < |ys| ==> HasIds(z, ys[i])
    ensures Run(Some(z), ys).Some?
    ensures var m := Run(Some(z), ys).value;
            && KindOf(m).Listing? && Ids(m.items) == Ids(z.items) && |m.items| == |z.items|
            && forall i :: 0 <= i < |m.items| && Shadowed(m.items, i) ==> m.items[i] == z.items[i]
  {
    hide Merge, ScalarIds, Shadowed, IdentityOf, HasIdentity, Steady;
    var n := |ys| - 1;
    if n >= 0 {
      RunKeepsFrame(z, ys[..n]);
      var m := Run(Some(z), ys[..n]).value;
      assert HasIds(z, ys[n]);
      ScalarListIsSteady(ys[n]);
      ListTwice(m, ys[n]);
      var m' := Merge(m, ys[n]);
      forall i | 0 <= i < |m'.items| && Shadowed(m'.items, i) ensures m'.items[i] == z.items[i] {
        SameShadows(m'.items, m.items, i);
      }
    }
  }

  // A document absorbs a run when each of its children does.
  lemma AbsorbsByChildren(z: Doc, ys: seq<Doc>)
    requires Alike(z, ys) && !KindOf(z).Atom? && AllScalar(ys)
    requires forall s :: Run(Child(Some(z), s), Strands(ys, s)) == Child(Some(z), s)
    ensures Absorbs(z, ys)
  {
    hide Merge, ScalarIds, Shadowed, Children, Run;
    ChildOfRun(z, ys, At(Name));
    var m := Run(Some(z), ys).value;
    forall s
      ensures s in Children(m) <==> s in Children(z)
      ensures s in Children(m) ==> Children(m)[s] == Children(z)[s]
    {
      ChildOfRun(z, ys, s);
      assert Child(Some(m), s) == Child(Some(z), s);
    }
    assert Children(m) == Children(z);
    if z.Dict? {
      SameChildrenSameDicts(m, z);
    } else {
      forall i | 0 <= i < |ys| ensures HasIds(z, ys[i]) {
        AbsorbedIdsAreThere(z, ys, i);
      }
      RunKeepsFrame(z, ys);
      SameChildrenSameLists(m, z);
    }
  }

  lemma AbsorbedIdsAreThere(z: Doc, ys: seq<Doc>, i: nat)
    requires Alike(z, ys) && KindOf(z).Listing? && i < |ys|
    requires forall s :: Run(Child(Some(z), s), Strands(ys, s)) == Child(Some(z), s)
    ensures HasIds(z, ys[i])
  {
    assert SameKind(z, ys[i]);
    hide Merge, Children, Run, Strands;
    forall id | id in Ids(ys[i].items) ensures id in Ids(z.items) {
      OccursInStrands(ys, i, id);
      ItemIsChild(z, id);
      RunsToSome(Child(Some(z), Item(id)), Strands(ys, Item(id)));
    }
  }

  lemma RunsToSome(v: Option<Doc>, ys: seq<Doc>)
    requires ys != []
    ensures Run(v, ys).Some?
  {
  }

  lemma {:induction false} OccursInStrands(ys: seq<Doc>, i: nat, id: Identity)
    requires i < |ys| && KindOf(ys[i]).Listing? && id in Ids(ys[i].items)
    ensures Strands(ys, Item(id)) != []
  {
    var n := |ys| - 1;
    if i == n {
      Occurs(ys[i].items, id);
    } else {
      OccursInStrands(ys[..n], i, id);
    }
  }

  lemma {:induction false} Occurs(items: seq<Doc>, id: Identity)
    requires AllIdentified(items) && id in Ids(items)
    ensures Occurrences(items, id) != []
  {
    var n := |items| - 1;
    if IdentityOf(items[n]) != id {
      assert Ids(items) == Ids(items[..n]) + [IdentityOf(items[n])];
      Occurs(items[..n], id);
    }
  }

  // ----- the condition

  // The documents of the run are not all of one kind, so that what comes before them is lost.
  ghost predicate Broken(ys: seq<Doc>) {
    exists i :: 0 <= i < |ys| && !SameKind(ys[i], ys[|ys| - 1])
  }

  // Merging the run again changes nothing: it ends in a value taken whole, or changes kind on the
  // way, or else the same holds of what it says at each step, and lists of it also stay as they
  // are when the run stands on its own.
  ghost predicate Absorbed(ys: seq<Doc>)
    decreases MaxHeight(ys)
  {
    || ys == [] || KindOf(ys[|ys| - 1]).Atom? || Broken(ys)
    || (&& (KindOf(ys[|ys| - 1]).Listing? ==> Run(Run(None, ys), ys) == Run(None, ys))
        && forall s :: Strands(ys, s) != [] ==> (StrandsAreLower(ys, s); Absorbed(Strands(ys, s))))
  }

  ghost predicate AppliedTwice(v: Option<Doc>, ys: seq<Doc>) {
    Run(Run(v, ys), ys) == Run(v, ys)
  }

  lemma AtomsReplaceRuns(v: Option<Doc>, ys: seq<Doc>)
    requires |ys| > 0 && KindOf(ys[|ys| - 1]).Atom?
    ensures Run(v, ys) == Some(ys[|ys| - 1])
  {
    hide Merge;
    var before := Run(v, ys[..|ys| - 1]);
    if before.Some? {
      AtomsReplace(before.value, ys[|ys| - 1]);
    }
  }

  lemma RunHasLastKind(v: Option<Doc>, ys: seq<Doc>)
    requires |ys| > 0 && AllScalar(ys)
    ensures Run(v, ys).Some? && SameKind(Run(v, ys).value, ys[|ys| - 1])
  {
    hide Merge;
    var before := Run(v, ys[..|ys| - 1]);
    if before.Some? {
      KindOfMerge(before.value, ys[|ys| - 1]);
    }
  }

  // A run that changes kind forgets what it started from.
  lemma {:induction false} BrokenRunsForget(v: Option<Doc>, w: Option<Doc>, ys: seq<Doc>)
    requires AllScalar(ys) && Broken(ys)
    ensures Run(v, ys) == Run(w, ys)
  {
    hide Merge, ScalarIds, KindOf;
    var n := |ys| - 1;
    var i :| 0 <= i < |ys| && !SameKind(ys[i], ys[n]);
    var front := ys[..n];
    if SameKind(front[n - 1], ys[n]) {
      assert !SameKind(front[i], front[n - 1]);
      BrokenRunsForget(v, w, front);
    } else {
      RunHasLastKind(v, front);
      RunHasLastKind(w, front);
      Replaced(Run(v, front).value, ys[n]);
      Replaced(Run(w, front).value, ys[n]);
    }
  }

  // Onto another kind a run is the run on its own; onto the empty map too, when it is of maps.
  lemma {:induction false} RunsAlone(z: Doc, ys: seq<Doc>)
    requires |ys| > 0 && (!SameKind(z, ys[0]) || z == Dict(map[]))
    ensures Run(Some(z), ys) == Run(None, ys)
  {
    hide Merge;
    if |ys| == 1 {
      assert ys[..0] == [];
      if SameKind(z, ys[0]) {
        EmptyMapIsUnit(ys[0]);
      } else {
        Replaced(z, ys[0]);
      }
    } else {
      RunsAlone(z, ys[..|ys| - 1]);
    }
  }

  lemma {:induction false} AbsorbedRunsTwice(v: Option<Doc>, ys: seq<Doc>)
    requires AllScalar(ys) && Absorbed(ys)
    ensures AppliedTwice(v, ys)
    decreases MaxHeight(ys), if v.Some? && ys != [] && SameKind(v.value, ys[0]) then 0 else 1
  {
    hide Merge, ScalarIds, MaxHeight, Height, Strands, Children;
    if ys == [] {
      NoRun(v);
    } else if KindOf(ys[|ys| - 1]).Atom? {
      AtomsReplaceRuns(v, ys);
      AtomsReplaceRuns(Run(v, ys), ys);
    } else if Broken(ys) {
      BrokenRunsForget(v, Run(v, ys), ys);
    } else {
      NotBroken(ys);
      if v.Some? && SameKind(v.value, ys[0]) {
        forall s ensures AppliedTwice(Child(v, s), Strands(ys, s)) {
          if Strands(ys, s) == [] {
            NoRun(Child(v, s));
          } else {
            StrandsAreLower(ys, s);
            AbsorbedRunsTwice(Child(v, s), Strands(ys, s));
          }
        }
        ChildrenRunTwice(v.value, ys);
      } else {
        if v.Some? {
          RunsAlone(v.value, ys);
        }
        if ys[0].Dict? {
          RunsAlone(Dict(map[]), ys);
          AbsorbedRunsTwice(Some(Dict(map[])), ys);
        }
      }
    }
  }

  lemma NotBroken(ys: seq<Doc>)
    requires ys != [] && !Broken(ys)
    ensures Alike(ys[0], ys)
  {
    hide KindOf;
    assert SameKind(ys[0], ys[|ys| - 1]);
    forall i | 0 <= i < |ys| ensures SameKind(ys[0], ys[i]) {
      assert SameKind(ys[i], ys[|ys| - 1]);
    }
  }

  lemma ChildrenRunTwice(z: Doc, ys: seq<Doc>)
    requires AllScalar(ys) && Alike(z, ys) && !KindOf(z).Atom?
    requires forall s :: AppliedTwice(Child(Some(z), s), Strands(ys, s))
    ensures AppliedTwice(Some(z), ys)
  {
    hide Merge, ScalarIds, Strands, Children, Run, KindOf;
    ChildOfRun(z, ys, At(Name));
    var m := Run(Some(z), ys).value;
    forall s ensures Run(Child(Some(m), s), Strands(ys, s)) == Child(Some(m), s) {
      ChildOfRun(z, ys, s);
      assert AppliedTwice(Child(Some(z), s), Strands(ys, s));
    }
    AbsorbsByChildren(m, ys);
  }

  // ----- and only then

  lemma ChildBreaks(z: Doc, ys: seq<Doc>, s: Step)
    requires AllScalar(ys) && Alike(z, ys) && !KindOf(z).Atom?
    requires !AppliedTwice(Child(Some(z), s), Strands(ys, s))
    ensures !AppliedTwice(Some(z), ys)
  {
    hide Merge, ScalarIds, Strands, Children, Run, KindOf;
    ChildOfRun(z, ys, s);
    var m := Run(Some(z), ys).value;
    ChildOfRun(m, ys, s);
  }

  // A map that has nothing, or one document, at one key.
  function Single(k: Key, v: Option<Doc>): Doc {
    Dict(if v.Some? then map[k := v.value] else map[])
  }

  // An item of the given identity that has nothing, or one document, at another key.
  function SingleItem(id: Identity, k: Key, v: Option<Doc>): Doc
    requires id.shown.Text?
  {
    Dict((if v.Some? then map[k := v.value] else map[])[id.key := Leaf("", id.shown.text)])
  }

  // A run that is not absorbed has something to be applied to that shows it.
  lemma {:induction false} NotAbsorbed(ys: seq<Doc>) returns (v: Option<Doc>)
    requires AllScalar(ys) && !Absorbed(ys)
    ensures !AppliedTwice(v, ys)
    decreases MaxHeight(ys)
  {
    hide Merge, ScalarIds, MaxHeight, Height, Strands, Children, Run, HasIdentity, IdentityOf;
    NotBroken(ys);
    if KindOf(ys[0]).Listing? && !AppliedTwice(None, ys) {
      return None;
    }
    var s :| Strands(ys, s) != [] && !Absorbed(Strands(ys, s));
    var below := Strands(ys, s);
    StrandsAreLower(ys, s);
    StepFits(ys, s);
    if ys[0].Dict? {
      var w := NotAbsorbed(below);
      SingleIs(s.key, w);
      v := Some(Single(s.key, w));
      ChildBreaks(v.value, ys, s);
    } else {
      var k := ItemsBreak(below, s.id);
      StrandsAreLower(below, At(k));
      var w := NotAbsorbed(Strands(below, At(k)));
      SingleItemIs(s.id, k, w);
      var item := SingleItem(s.id, k, w);
      ItemsAreDicts(below);
      ChildBreaks(item, below, At(k));
      v := Some(Items([item]));
      ChildBreaks(v.value, ys, s);
    }
  }

  lemma StepFits(ys: seq<Doc>, s: Step)
    requires ys != [] && Alike(ys[0], ys) && Strands(ys, s) != []
    ensures ys[0].Dict? ==> s.At?
    ensures KindOf(ys[0]).Listing? ==>
      s.Item? && forall j :: 0 <= j < |Strands(ys, s)| ==> HasIdentity(Strands(ys, s)[j]) && IdentityOf(Strands(ys, s)[j]) == s.id
    ensures KindOf(ys[0]).Listing? && AllScalar(ys) ==> s.id.shown.Text?
  {
    hide Strands, Height, Children, HasIdentity, IdentityOf, ScalarIds;
    var first := StrandsAre(ys, s, 0);
    assert SameKind(ys[0], ys[first]);
    forall j | 0 <= j < |Strands(ys, s)|
      ensures KindOf(ys[0]).Listing? ==> s.Item? && HasIdentity(Strands(ys, s)[j]) && IdentityOf(Strands(ys, s)[j]) == s.id
    {
      var i := StrandsAre(ys, s, j);
      assert SameKind(ys[0], ys[i]);
    }
  }

  lemma SingleIs(k: Key, v: Option<Doc>)
    ensures Child(Some(Single(k, v)), At(k)) == v
  {
  }

  lemma SingleItemIs(id: Identity, k: Key, v: Option<Doc>)
    requires id.shown.Text? && (id.key == Name || id.key == PluginRef) && k != id.key && k != Name
    ensures var item := SingleItem(id, k, v);
            && HasIdentity(item) && IdentityOf(item) == id && Child(Some(item), At(k)) == v
            && KindOf(Items([item])).Listing? && Child(Some(Items([item])), Item(id)) == Some(item)
  {
    var item := SingleItem(id, k, v);
    assert Ids([item])[0] == id;
  }

  lemma ItemsAreDicts(items: seq<Doc>)
    requires AllIdentified(items)
    ensures forall i :: 0 <= i < |items| ==> items[i].Dict?
  {
  }

  // Items of one scalar identity agree on it, so it is another key that keeps them from being absorbed.
  lemma ItemsBreak(items: seq<Doc>, id: Identity) returns (k: Key)
    requires AllScalar(items) && !Absorbed(items) && id.shown.Text?
    requires forall j :: 0 <= j < |items| ==> HasIdentity(items[j]) && IdentityOf(items[j]) == id
    ensures Strands(items, At(k)) != [] && !Absorbed(Strands(items, At(k)))
    ensures k != id.key && k != Name && (id.key == Name || id.key == PluginRef)
  {
    hide Merge, ScalarIds, MaxHeight, Height, Strands, Children, Run;
    ItemsAreDicts(items);
    assert HasIdentity(items[0]) && IdentityOf(items[0]) == id;
    var s :| Strands(items, s) != [] && !Absorbed(Strands(items, s));
    var st := Strands(items, s);
    var i := StrandsAre(items, s, |st| - 1);
    assert HasIdentity(items[i]) && IdentityOf(items[i]) == id;
    k := s.key;
    assert st[|st| - 1] == items[i].entries[k];
  }

  // ----- the result

  // Applying the layer again changes nothing, whatever it was applied to.
  ghost predicate Idempotent(b: Doc) {
    forall a :: Merge(Merge(a, b), b) == Merge(a, b)
  }

  // That holds exactly when the layer, as a run of one document, is absorbed.
  lemma IdempotentExactlyWhen(b: Doc)
    requires ScalarIds(b)
    ensures Idempotent(b) <==> Absorbed([b])
  {
    hide Merge, ScalarIds, Absorbed;
    if Absorbed([b]) {
      forall a ensures Merge(Merge(a, b), b) == Merge(a, b) {
        AbsorbedRunsTwice(Some(a), [b]);
        OneDocument(Some(a), b);
      }
    } else {
      var v := NotAbsorbed([b]);
      OneDocument(v, b);
      var a := if v.Some? then v.value else Leaf("", "");
      LeafIsReplaced(b);
      assert Merge(Merge(a, b), b) != Merge(a, b);
    }
  }

  lemma OneDocument(v: Option<Doc>, b: Doc)
    ensures Run(v, [b]) == Some(Onto(v, b))
    ensures AppliedTwice(v, [b]) <==> Merge(Onto(v, b), b) == Onto(v, b)
  {
    hide Merge;
    var m := Onto(v, b);
    assert [b][..0] == [];
    assert Run(Some(m), [b][..0]) == Some(m);
    assert Run(Some(m), [b]) == Some(Merge(m, b));
  }

  lemma LeafIsReplaced(b: Doc)
    ensures Merge(Leaf("", ""), b) == b
  {
  }

  // Distinct identities are enough.
  lemma DistinctLayersAreAbsorbed(b: Doc)
    requires ScalarIds(b) && WellFormed(b)
    ensures Absorbed([b])
  {
    hide Merge, ScalarIds, Absorbed, WellFormed;
    forall a ensures Merge(Merge(a, b), b) == Merge(a, b) {
      MergeIdempotent(a, b);
    }
    IdempotentExactlyWhen(b);
  }

  // ----- merging onto itself unchanged is not enough

  ghost predicate Called(xs: seq<Doc>, id: Identity) {
    id.shown.Text? && forall i :: 0 <= i < |xs| ==> HasIdentity(xs[i]) && IdentityOf(xs[i]) == id
  }

  // Two lists over one identity merge in the last slot.
  lemma {:induction false} LastSlotMerges(front: seq<Doc>, y: Doc, o: seq<Doc>, id: Identity)
    requires Called(front, id) && Called([y], id) && Called(o, id)
    ensures Run(Some(y), o).Some?
    ensures AllIdentified(front + [y]) && AllIdentified(o)
    ensures MergeItems(front + [y], o) == Slots(front + [Run(Some(y), o).value], Ids(front + [y]))
  {
    hide Merge, IdentityOf, HasIdentity;
    assert HasIdentity([y][0]) && IdentityOf([y][0]) == id;
    var n := |o| - 1;
    if n >= 0 {
      LastSlotMerges(front, y, o[..n], id);
      assert Ids(front + [y])[|front|] == id;
      assert IdentityOf(o[n]) == id;
    }
  }

  lemma LastSlotListsMerge(front: seq<Doc>, y: Doc, o: seq<Doc>, id: Identity)
    requires Called(front, id) && Called([y], id) && Called(o, id) && |o| > 0
    ensures Run(Some(y), o).Some?
    ensures Merge(Items(front + [y]), Items(o)) == Items(front + [Run(Some(y), o).value])
  {
    LastSlotMerges(front, y, o, id);
    hide Merge, Called, Run, MergeItems, IdentityOf, HasIdentity;
    MergeOfLists(front + [y], o);
  }

  // An item with a name and one setting.
  function Setting(name: string, k: string, v: Doc): Doc {
    Dict(map[Name := Leaf("str", name), Other(k) := v])
  }

  lemma SettingsMerge(name: string, k: string, v: Doc, w: Doc)
    ensures Merge(Setting(name, k, v), Setting(name, k, w)) == Setting(name, k, Merge(v, w))
  {
    assert Merge(Leaf("str", name), Leaf("str", name)) == Leaf("str", name);
    var m := Merge(Setting(name, k, v), Setting(name, k, w));
    assert m.entries == Setting(name, k, Merge(v, w)).entries;
  }

  lemma SettingIs(name: string, k: string, v: Doc)
    ensures var d := Setting(name, k, v);
            && HasIdentity(d) && IdentityOf(d) == Identity(Name, Text(name)) && Called([d], Identity(Name, Text(name)))
            && d.entries[Other(k)] == v
    ensures ScalarIds(v) ==> ScalarIds(Setting(name, k, v))
  {
    assert ScalarIds(Leaf("str", name));
  }

  lemma RunOfThree(v: Doc, x: Doc, y: Doc, z: Doc)
    ensures Run(Some(v), [x]) == Some(Merge(v, x))
    ensures Run(Some(v), [x, y]) == Some(Merge(Merge(v, x), y))
    ensures Run(Some(v), [x, y, z]) == Some(Merge(Merge(Merge(v, x), y), z))
  {
    hide Merge;
    OneDocument(Some(v), x);
    assert [x, y][..1] == [x] && [x, y, z][..2] == [x, y];
  }

  // The innermost lists: x once, and x twice.
  lemma Pairs(x: Doc, id: Identity)
    requires Called([x], id) && Merge(x, x) == x
    ensures var (one, two) := (Items([x]), Items([x, x]));
            && Merge(one, one) == one && Merge(one, two) == one && Merge(two, one) == two && Merge(two, two) == two
  {
    assert [x][0] == x;
    hide Merge;
    assert Called([x, x], id) && Called([], id);
    hide Called;
    RunOfThree(x, x, x, x);
    LastSlotListsMerge([], x, [x], id);
    LastSlotListsMerge([], x, [x, x], id);
    LastSlotListsMerge([x], x, [x], id);
    LastSlotListsMerge([x], x, [x, x], id);
    assert [] + [x] == [x] && [x] + [x] == [x, x];
  }

  // The lists around them, over one identity.
  lemma InnerLists(p: Doc, q: Doc, r: Doc, id: Identity)
    requires Called([p], id) && Called([q], id) && Called([r], id)
    requires Merge(p, q) == q && Merge(q, p) == p && Merge(r, p) == p
    requires Merge(r, q) == r && Merge(q, r) == q && Merge(q, q) == q
    ensures var (l, m, n) := (Items([p, q, r]), Items([q]), Items([p, q, q]));
            && Merge(l, l) == n && Merge(n, m) == n && Merge(l, m) == l && Merge(m, l) == m && Merge(m, m) == m
  {
    assert Called([p, q], id) && Called([p, q, r], id) && Called([], id) by {
      assert [p][0] == p && [q][0] == q && [r][0] == r;
    }
    hide Merge, Called;
    SlotsOfThree(p, q, r, id);
    RunOfThree(q, p, q, r);
    RunOfThree(q, q, q, q);
    hide Run;
    LastSlotListsMerge([], q, [p, q, r], id);
    LastSlotListsMerge([], q, [q], id);
    assert [] + [q] == [q];
  }

  lemma SlotsOfThree(p: Doc, q: Doc, r: Doc, id: Identity)
    requires Called([p, q], id) && Called([r], id) && Called([q], id) && Called([p, q, r], id)
    requires Merge(p, q) == q && Merge(r, p) == p && Merge(r, q) == r && Merge(q, r) == q && Merge(q, q) == q
    ensures var (l, m, n) := (Items([p, q, r]), Items([q]), Items([p, q, q]));
            Merge(l, l) == n && Merge(n, m) == n && Merge(l, m) == l
  {
    hide Merge, Called;
    RunOfThree(r, p, q, r);
    RunOfThree(q, q, q, q);
    RunOfThree(r, q, q, q);
    hide Run;
    LastSlotListsMerge([p, q], r, [p, q, r], id);
    LastSlotListsMerge([p, q], q, [q], id);
    LastSlotListsMerge([p, q], r, [q], id);
    assert [p, q] + [r] == [p, q, r] && [p, q] + [q] == [p, q, q];
  }

  // Two items of an identity that the list has once, after another item, or not at all.
  lemma SecondSlot(z: Doc, y: Doc, x1: Doc, x2: Doc)
    requires HasIdentity(z) && HasIdentity(y) && HasIdentity(x1) && HasIdentity(x2)
    requires IdentityOf(y) == IdentityOf(x1) == IdentityOf(x2) != IdentityOf(z)
    ensures Merge(Items([z, y]), Items([x1, x2])) == Items([z, Merge(Merge(y, x1), x2)])
    ensures Merge(Items([z]), Items([x1, x2])) == Items([z, Merge(x1, x2)])
  {
    hide Merge, IdentityOf, HasIdentity;
    MergeOfLists([z, y], [x1, x2]);
    MergeOfLists([z], [x1, x2]);
    var o := [x1, x2];
    assert o[..1] == [x1] && [x1][..0] == [];
    var (i, j) := (IdentityOf(z), IdentityOf(y));
    assert Ids([z, y]) == [i, j] && Ids([z]) == [i];
    assert LastOf([i, j], j) == 1;
    assert MergeItems([z, y], [x1]) == Put(Slots([z, y], [i, j]), x1) == Slots([z, Merge(y, x1)], [i, j]);
    assert MergeItems([z], [x1]) == Put(Slots([z], [i]), x1) == Slots([z, x1], [i, j]);
  }

  // Two items of one identity, the first of which goes over into another when merged onto itself.
  lemma TheLayer(x1: Doc, x2: Doc, x3: Doc, z: Doc, id: Identity)
    requires Called([x1], id) && Called([x2], id) && HasIdentity(z) && IdentityOf(z) != id
    requires Merge(x2, x1) == x2 && Merge(x2, x2) == x2 && Merge(x1, x2) == x1
    requires Merge(x1, x1) == x3 && Merge(x3, x2) == x3 && x3 != x1
    ensures var (b, a) := (Items([x1, x2]), Items([z]));
            Merge(b, b) == b && Merge(Merge(a, b), b) != Merge(a, b)
  {
    assert Called([x1, x2], id) && IdentityOf(x1) == IdentityOf(x2) == id by {
      assert [x1][0] == x1 && [x2][0] == x2;
    }
    assert HasIdentity([x1][0]) && HasIdentity([x2][0]);
    hide Merge, Called, IdentityOf, HasIdentity;
    RunOfThree(x2, x1, x2, x2);
    hide Run;
    LastSlotListsMerge([x1], x2, [x1, x2], id);
    assert [x1] + [x2] == [x1, x2];
    SecondSlot(z, x1, x1, x2);
    assert [z, x3][1] != [z, x1][1];
  }

  lemma CalledListIsScalar(items: seq<Doc>, id: Identity)
    requires Called(items, id) && forall i :: 0 <= i < |items| ==> ScalarIds(items[i])
    ensures ScalarIds(Items(items))
  {
  }

  lemma LeavesAndLists(leaf: Doc, list: Doc)
    requires leaf.Leaf? && list.Items?
    ensures Merge(leaf, leaf) == leaf && Merge(leaf, list) == list && Merge(list, leaf) == leaf && ScalarIds(leaf)
  {
  }

  // A setting that is a leaf, one item, or two.
  lemma Innermost() returns (zero: Doc, one: Doc, two: Doc)
    ensures one != two && ScalarIds(zero) && ScalarIds(one) && ScalarIds(two)
    ensures Merge(zero, two) == two && Merge(two, zero) == zero && Merge(one, zero) == zero
    ensures Merge(one, two) == one && Merge(two, one) == two && Merge(two, two) == two
  {
    zero := Leaf("int", "0");
    var x := Setting("e", "k", zero);
    one, two := Items([x]), Items([x, x]);
    assert |one.items| != |two.items|;
    LeavesAndLists(zero, one);
    LeavesAndLists(zero, two);
    SettingsMerge("e", "k", zero, zero);
    SettingIs("e", "k", zero);
    var id := Identity(Name, Text("e"));
    assert Called([x, x], id);
    hide Merge, ScalarIds, Called;
    Pairs(x, id);
    CalledListIsScalar([x], id);
    CalledListIsScalar([x, x], id);
  }

  lemma Middle() returns (l: Doc, m: Doc, n: Doc)
    ensures l != n && ScalarIds(l) && ScalarIds(m)
    ensures Merge(l, l) == n && Merge(n, m) == n && Merge(l, m) == l && Merge(m, l) == m && Merge(m, m) == m
  {
    hide Merge, ScalarIds;
    var zero, one, two := Innermost();
    var (p, q, r) := (Setting("p", "g", zero), Setting("p", "g", two), Setting("p", "g", one));
    l, m, n := Items([p, q, r]), Items([q]), Items([p, q, q]);
    SettingIs("p", "g", zero);
    SettingIs("p", "g", one);
    SettingIs("p", "g", two);
    SettingsMerge("p", "g", zero, two);
    SettingsMerge("p", "g", two, zero);
    SettingsMerge("p", "g", one, zero);
    SettingsMerge("p", "g", one, two);
    SettingsMerge("p", "g", two, one);
    SettingsMerge("p", "g", two, two);
    var id := Identity(Name, Text("p"));
    assert Called([p, q, r], id);
    assert l.items[2] != n.items[2];
    hide Called, Setting;
    InnerLists(p, q, r, id);
    CalledListIsScalar([p, q, r], id);
    CalledListIsScalar([q], id);
  }

  // A layer that merges onto itself unchanged and is still not idempotent: it repeats an identity
  // in a list inside a list that repeats one.
  lemma SelfMergeIsNotEnough()
    ensures exists b :: ScalarIds(b) && Merge(b, b) == b && !Idempotent(b)
  {
    hide Merge, ScalarIds;
    var l, m, n := Middle();
    var (x1, x2, x3) := (Setting("i", "f", l), Setting("i", "f", m), Setting("i", "f", n));
    var z := Setting("z", "f", m);
    SettingIs("i", "f", l);
    SettingIs("i", "f", m);
    SettingIs("i", "f", n);
    SettingIs("z", "f", m);
    SettingsMerge("i", "f", m, l);
    SettingsMerge("i", "f", m, m);
    SettingsMerge("i", "f", l, m);
    SettingsMerge("i", "f", l, l);
    SettingsMerge("i", "f", n, m);
    var id := Identity(Name, Text("i"));
    assert Called([x1, x2], id);
    hide Called, Setting;
    TheLayer(x1, x2, x3, z, id);
    CalledListIsScalar([x1, x2], id);
    var (b, a) := (Items([x1, x2]), Items([z]));
    assert Merge(Merge(a, b), b) != Merge(a, b);
  }
}
