// The algebra of the config merge, and the fold over the layers of a variant.

module EppLayers {
  import opened EppConfig

  // ----- merging keeps documents well formed

  lemma {:induction false} MergeIsWellFormed(b: Doc, o: Doc)
    requires WellFormed(b) && WellFormed(o)
    ensures WellFormed(Merge(b, o))
    decreases o
  {
    hide Children, Merge, Keyed;
    if Children(b) == map[] || SameKind(b, o) {
      ChildrenMerge(b, o);
      var m := Merge(b, o);
      forall s | s in Children(m) ensures WellFormed(Children(m)[s]) {
        if s in Children(b) && s in Children(o) {
          MergeIsWellFormed(Children(b)[s], Children(o)[s]);
        }
      }
      MergedListIsSound(b, o);
    } else {
      Replaced(b, o);
    }
  }

  lemma MergedListIsSound(b: Doc, o: Doc)
    requires WellFormed(b) && WellFormed(o)
    ensures var m := Merge(b, o); m.Items? && Keyed(m.items) ==> Distinct(Ids(m.items)) && AllSteady(Ids(m.items))
  {
    if KindOf(b).Listing? && KindOf(o).Listing? {
      hide WellFormed, Merge, IdentityOf, Children;
      ListIsSound(b);
      ListIsSound(o);
      ListsMerge(b.items, o.items);
    }
  }

  // ----- documents with the same children

  // Item i is not the one its identity finds.
  ghost predicate Shadowed(items: seq<Doc>, i: nat)
    requires AllIdentified(items) && i < |items|
  {
    LastOf(Ids(items), Ids(items)[i]) != i
  }

  // A keyed list is its identities in order, the item of each, and the items that a repeated
  // identity leaves behind.
  lemma SameEntriesSameItems(x: seq<Doc>, y: seq<Doc>)
    requires AllIdentified(x) && AllIdentified(y)
    requires Ids(x) == Ids(y) && ByIdentity(x) == ByIdentity(y)
    requires forall i :: 0 <= i < |x| && Shadowed(x, i) ==> x[i] == y[i]
    ensures x == y
  {
    assert |x| == |Ids(x)| == |Ids(y)| == |y|;
    forall i | 0 <= i < |x| ensures x[i] == y[i] {
      var id := Ids(x)[i];
      if !Shadowed(x, i) {
        assert id in Ids(x);
        assert ByIdentity(x)[id] == x[i] && ByIdentity(y)[id] == y[i];
      }
    }
  }

  lemma SameChildrenSameDicts(x: Doc, y: Doc)
    requires x.Dict? && y.Dict? && Children(x) == Children(y)
    ensures x == y
  {
    hide Children;
    forall k
      ensures k in x.entries <==> k in y.entries
      ensures k in x.entries ==> x.entries[k] == y.entries[k]
    {
      assert At(k) in Children(x) <==> At(k) in Children(y);
    }
    assert x.entries == y.entries;
  }

  lemma SameChildrenSameLists(x: Doc, y: Doc)
    requires KindOf(x).Listing? && KindOf(y).Listing?
    requires Children(x) == Children(y) && Ids(x.items) == Ids(y.items)
    requires |x.items| == |y.items|
    requires forall i :: 0 <= i < |x.items| && Shadowed(x.items, i) ==> x.items[i] == y.items[i]
    ensures x == y
  {
    hide Children, ByIdentity, Shadowed, Ids, IdentityOf, HasIdentity;

    forall id
      ensures id in ByIdentity(x.items) <==> id in ByIdentity(y.items)
      ensures id in ByIdentity(x.items) ==> ByIdentity(x.items)[id] == ByIdentity(y.items)[id]
    {
      EntriesAre(x.items, id);
      EntriesAre(y.items, id);
      assert Item(id) in Children(x) <==> Item(id) in Children(y);
    }
    assert ByIdentity(x.items) == ByIdentity(y.items);
    SameEntriesSameItems(x.items, y.items);
  }

  // ----- identities in order

  lemma {:induction false} FreshAppend(xs: seq<Identity>, ys: seq<Identity>, seen: seq<Identity>)
    ensures Fresh(xs + ys, seen) == Fresh(xs, seen) + Fresh(ys, seen + xs)
  {
    var n := |ys| - 1;
    if n < 0 {
      assert xs + ys == xs;
    } else {
      var x := ys[n];
      FreshAppend(xs, ys[..n], seen);
      assert (xs + ys)[..|xs| + n] == xs + ys[..n] && (xs + ys)[|xs| + n] == x;
    }
  }

  lemma {:induction false} FreshOfFresh(xs: seq<Identity>, seen: seq<Identity>, more: seq<Identity>)
    ensures Fresh(Fresh(xs, seen), more) == Fresh(xs, more + seen)
  {
    var n := |xs| - 1;
    if n >= 0 {
      FreshOfFresh(xs[..n], seen, more);
      FreshHas(xs[..n], seen, xs[n]);
      FreshSnoc(Fresh(xs[..n], seen), xs[n], more);
    }
  }

  lemma {:induction false} FreshIgnoresOrder(xs: seq<Identity>, s: seq<Identity>, t: seq<Identity>)
    requires forall id :: id in s <==> id in t
    ensures Fresh(xs, s) == Fresh(xs, t)
  {
    if |xs| > 0 {
      FreshIgnoresOrder(xs[..|xs| - 1], s, t);
    }
  }

  // Appending what is new associates.
  lemma OrderAssociates(a: seq<Identity>, b: seq<Identity>, c: seq<Identity>)
    ensures var (ab, bc) := (a + Fresh(b, a), b + Fresh(c, b));
            ab + Fresh(c, ab) == a + Fresh(bc, a)
  {
    hide Fresh;
    var (ab, bc) := (a + Fresh(b, a), b + Fresh(c, b));
    FreshAppend(b, Fresh(c, b), a);
    FreshOfFresh(c, b, a + b);
    forall id ensures id in a + b + b <==> id in ab {
      FreshHas(b, a, id);
    }
    FreshIgnoresOrder(c, a + b + b, ab);
    assert ab + Fresh(c, ab) == a + (Fresh(b, a) + Fresh(c, ab));
  }

  lemma {:induction false} NothingFresh(xs: seq<Identity>, seen: seq<Identity>)
    requires forall x :: x in xs ==> x in seen
    ensures Fresh(xs, seen) == []
  {
    var n := |xs| - 1;
    if n >= 0 {
      NothingFresh(xs[..n], seen);
      assert xs[n] in xs;
    }
  }

  // ----- associativity

  lemma MergeMapsAssociate(a: map<Step, Doc>, b: map<Step, Doc>, c: map<Step, Doc>)
    requires forall s :: s in a && s in b && s in c ==> Merge(Merge(a[s], b[s]), c[s]) == Merge(a[s], Merge(b[s], c[s]))
    ensures MergeMaps(MergeMaps(a, b), c) == MergeMaps(a, MergeMaps(b, c))
  {
    hide Merge;
  }

  lemma ThreeAlike(a: Doc, b: Doc, c: Doc)
    requires WellFormed(b) && WellFormed(c) && SameKind(a, b) && SameKind(b, c)
    ensures var (l, r) := (Merge(Merge(a, b), c), Merge(a, Merge(b, c)));
            && SameKind(l, c) && SameKind(r, c)
            && Children(l) == MergeMaps(MergeMaps(Children(a), Children(b)), Children(c))
            && Children(r) == MergeMaps(Children(a), MergeMaps(Children(b), Children(c)))
  {
    hide Merge, Children, WellFormed, KindOf, MergeMaps;
    ChildrenMerge(a, b);
    ChildrenMerge(b, c);
    MergeIsWellFormed(b, c);
    ChildrenMerge(Merge(a, b), c);
    ChildrenMerge(a, Merge(b, c));
  }

  // Merging lists leaves the shadowed items of the base alone, and shadows no others.
  lemma ShadowsStay(b: seq<Doc>, o: seq<Doc>, i: nat)
    requires Keyed(b) && Keyed(o) && AllSteady(Ids(o)) && Distinct(Ids(o))
    ensures var m := Merge(Items(b), Items(o));
            && m.Items? && Keyed(m.items)
            && (i < |m.items| && Shadowed(m.items, i) ==> i < |b| && Shadowed(b, i) && m.items[i] == b[i])
  {
    ListsMerge(b, o);
    var m := Merge(Items(b), Items(o));
    if i < |m.items| && Shadowed(m.items, i) {
      hide Merge, ByIdentity, MergeMaps, IdentityOf, HasIdentity, Steady;
      ShadowInFront(Ids(b), Fresh(Ids(o), Ids(b)), Ids(o), i);
      SlotsKeepOthers(b, o, i);
      assert m == Items(MergeItems(b, o).items) by {
        MergeOfLists(b, o);
      }
    }
  }

  lemma MergeOfLists(b: seq<Doc>, o: seq<Doc>)
    requires Keyed(b) && Keyed(o)
    ensures Merge(Items(b), Items(o)) == Items(MergeItems(b, o).items)
  {
    hide MergeItems;
  }

  lemma ShadowInFront(xs: seq<Identity>, more: seq<Identity>, ys: seq<Identity>, i: nat)
    requires more == Fresh(ys, xs) && i < |xs + more| && LastOf(xs + more, (xs + more)[i]) != i
    ensures i < |xs| && LastOf(xs, xs[i]) != i
  {
    var all := xs + more;
    var last := LastOf(all, all[i]);
    assert i < last;
    if |xs| <= last {
      assert all[last] == more[last - |xs|] && more[last - |xs|] in more;
      assert |xs| <= i ==> all[i] == more[i - |xs|];
      assert i < |xs| ==> all[i] in xs;
      FreshIsDistinct(ys, xs);
      FreshHas(ys, xs, all[last]);
      assert false;
    }
    assert xs[last] == xs[i];
  }

  lemma ThreeLists(a: Doc, b: Doc, c: Doc)
    requires WellFormed(b) && WellFormed(c)
    requires KindOf(a).Listing? && KindOf(b).Listing? && KindOf(c).Listing?
    ensures var (l, r) := (Merge(Merge(a, b), c), Merge(a, Merge(b, c)));
            && KindOf(l).Listing? && KindOf(r).Listing? && Ids(l.items) == Ids(r.items) && |l.items| == |r.items|
            && forall i :: 0 <= i < |l.items| && Shadowed(l.items, i) ==> l.items[i] == r.items[i]
  {
    hide Merge, WellFormed, IdentityOf, HasIdentity, MergeMaps, ByIdentity, Children, Steady, Shadowed;
    ListIsSound(b);
    ListIsSound(c);
    var (ab, bc) := (Merge(a, b), Merge(b, c));
    ListsMerge(a.items, b.items);
    ListsMerge(b.items, c.items);
    ListsMerge(ab.items, c.items);
    ListsMerge(a.items, bc.items);
    var (l, r) := (Merge(ab, c), Merge(a, bc));
    OrderAssociates(Ids(a.items), Ids(b.items), Ids(c.items));
    assert |l.items| == |Ids(l.items)| == |Ids(r.items)|;
    forall i | 0 <= i < |l.items| && Shadowed(l.items, i) ensures l.items[i] == r.items[i] {
      ShadowsStay(ab.items, c.items, i);
      ShadowsStay(a.items, b.items, i);
      SameShadows(l.items, r.items, i);
      ShadowsStay(a.items, bc.items, i);
    }
  }

  lemma SameShadows(x: seq<Doc>, y: seq<Doc>, i: nat)
    requires AllIdentified(x) && AllIdentified(y) && Ids(x) == Ids(y) && i < |x| && Shadowed(x, i)
    ensures i < |y| && Shadowed(y, i)
  {
    assert |y| == |Ids(y)|;
  }

  // `b` puts another kind in place of children of `a`, and `c` brings the first kind back without
  // saying all that `a` said.
  ghost predicate PutsBack(a: Doc, b: Doc, c: Doc)
    decreases a
  {
    && Children(a) != map[]
    && if SameKind(a, b) then
         && SameKind(b, c)
         && exists s :: s in Children(a) && s in Children(b) && s in Children(c)
                        && PutsBack(Children(a)[s], Children(b)[s], Children(c)[s])
       else SameKind(a, c) && Merge(a, c) != c
  }

  // Merging associates exactly when nothing is put back.
  lemma {:induction false} AssociatesExactlyWhen(a: Doc, b: Doc, c: Doc)
    requires WellFormed(b) && WellFormed(c)
    ensures Merge(Merge(a, b), c) == Merge(a, Merge(b, c)) <==> !PutsBack(a, b, c)
    decreases a
  {
    hide Children, Merge, Keyed;
    if Children(a) == map[] {
      NothingBelow(a, b);
      NothingBelow(a, Merge(b, c));
    } else if !SameKind(a, b) {
      Replaced(a, b);
      if SameKind(a, c) {
        Replaced(b, c);
      } else {
        MergeHasKind(b, c);
        Replaced(a, Merge(b, c));
      }
    } else if !SameKind(b, c) {
      Replaced(b, c);
      MergeHasKind(a, b);
      Replaced(Merge(a, b), c);
      Replaced(a, c);
    } else {
      AlikeExactlyWhen(a, b, c);
    }
  }

  // A merge has the kind of the later document.
  lemma MergeHasKind(b: Doc, o: Doc)
    requires WellFormed(o)
    ensures SameKind(Merge(b, o), o)
  {
    hide Merge, WellFormed, KindOf;
    if SameKind(b, o) {
      ChildrenMerge(b, o);
    } else {
      Replaced(b, o);
    }
  }

  lemma {:induction false} AlikeExactlyWhen(a: Doc, b: Doc, c: Doc)
    requires WellFormed(b) && WellFormed(c) && SameKind(a, b) && SameKind(b, c) && Children(a) != map[]
    ensures Merge(Merge(a, b), c) == Merge(a, Merge(b, c)) <==> !PutsBack(a, b, c)
    decreases a, 0
  {
    hide Children, Merge, WellFormed, KindOf;
    var (x, y, z) := (Children(a), Children(b), Children(c));
    ThreeAlike(a, b, c);
    forall s | s in x && s in y && s in z
      ensures Merge(Merge(x[s], y[s]), z[s]) == Merge(x[s], Merge(y[s], z[s])) <==> !PutsBack(x[s], y[s], z[s])
    {
      ChildrenAreWellFormed(b, s);
      ChildrenAreWellFormed(c, s);
      AssociatesExactlyWhen(x[s], y[s], z[s]);
    }
    if PutsBack(a, b, c) {
      var s :| s in x && s in y && s in z && PutsBack(x[s], y[s], z[s]);
      MergeMapsAt(x, y, z, s);
    } else {
      MergeMapsAssociate(x, y, z);
      SameSides(a, b, c);
    }
  }

  lemma ChildrenAreWellFormed(d: Doc, s: Step)
    requires WellFormed(d) && s in Children(d)
    ensures WellFormed(Children(d)[s])
  {
  }

  lemma MergeMapsAt(a: map<Step, Doc>, b: map<Step, Doc>, c: map<Step, Doc>, s: Step)
    requires s in a && s in b && s in c
    ensures s in MergeMaps(MergeMaps(a, b), c) && MergeMaps(MergeMaps(a, b), c)[s] == Merge(Merge(a[s], b[s]), c[s])
    ensures s in MergeMaps(a, MergeMaps(b, c)) && MergeMaps(a, MergeMaps(b, c))[s] == Merge(a[s], Merge(b[s], c[s]))
  {
    hide Merge;
  }

  lemma SameSides(a: Doc, b: Doc, c: Doc)
    requires WellFormed(b) && WellFormed(c) && SameKind(a, b) && SameKind(b, c) && Children(a) != map[]
    requires var (l, r) := (Merge(Merge(a, b), c), Merge(a, Merge(b, c)));
             SameKind(l, c) && SameKind(r, c) && Children(l) == Children(r)
    ensures Merge(Merge(a, b), c) == Merge(a, Merge(b, c))
  {
    hide Merge, WellFormed, Shadowed;
    if a.Dict? {
      SameChildrenSameDicts(Merge(Merge(a, b), c), Merge(a, Merge(b, c)));
    } else {
      ThreeLists(a, b, c);
      SameChildrenSameLists(Merge(Merge(a, b), c), Merge(a, Merge(b, c)));
    }
  }

  // A layer that replaces no children of the base by another kind puts nothing back.
  lemma {:induction false} OverlaysPutNothingBack(a: Doc, b: Doc, c: Doc)
    requires Overlays(a, b)
    ensures !PutsBack(a, b, c)
    decreases a
  {
    hide Children, Merge, KindOf;
    if Children(a) != map[] {
      forall s | s in Children(a) && s in Children(b) && s in Children(c)
        ensures !PutsBack(Children(a)[s], Children(b)[s], Children(c)[s])
      {
        OverlaysPutNothingBack(Children(a)[s], Children(b)[s], Children(c)[s]);
      }
    }
  }

  // So whatever comes after it may be composed with it first.
  lemma MergeAssociates(a: Doc, b: Doc, c: Doc)
    requires WellFormed(b) && WellFormed(c) && Overlays(a, b)
    ensures Merge(Merge(a, b), c) == Merge(a, Merge(b, c))
  {
    AssociatesExactlyWhen(a, b, c);
    OverlaysPutNothingBack(a, b, c);
  }

  // ----- idempotence and the unit

  // A well-formed layer merged onto itself is itself.
  lemma {:induction false} MergeSelf(d: Doc)
    requires WellFormed(d)
    ensures Merge(d, d) == d
    decreases d
  {
    hide Children, Merge, Keyed, Steady, Shadowed, MergeMaps;
    if Children(d) == map[] {
      NothingBelow(d, d);
    } else {
      forall s | s in Children(d) ensures Merge(Children(d)[s], Children(d)[s]) == Children(d)[s] {
        MergeSelf(Children(d)[s]);
      }
      ChildrenMerge(d, d);
      MapMergesSelf(Children(d));
      if d.Dict? {
        SameChildrenSameDicts(Merge(d, d), d);
      } else {
        ListIsSound(d);
        ListTwice(d, d);
        SameChildrenSameLists(Merge(d, d), d);
      }
    }
  }

  lemma MapMergesSelf(c: map<Step, Doc>)
    requires forall s :: s in c ==> Merge(c[s], c[s]) == c[s]
    ensures MergeMaps(c, c) == c
  {
    hide Merge;
  }

  // Every keyed list has distinct identities.
  ghost predicate DistinctThroughout(d: Doc) {
    && (d.Items? && Keyed(d.items) ==> Distinct(Ids(d.items)))
    && forall s :: s in Children(d) ==> DistinctThroughout(Children(d)[s])
  }

  // Well formed means no more than that: identities that are themselves maps or lists of such
  // documents are steady.
  lemma {:induction false} WellFormedIsDistinct(d: Doc)
    ensures WellFormed(d) <==> DistinctThroughout(d)
    decreases d
  {
    hide Merge;
    forall s | s in Children(d) ensures WellFormed(Children(d)[s]) <==> DistinctThroughout(Children(d)[s]) {
      WellFormedIsDistinct(Children(d)[s]);
    }
    if KindOf(d).Listing? && DistinctThroughout(d) {
      forall i | 0 <= i < |d.items| ensures Steady(Ids(d.items)[i]) {
        IdentityIsSteady(d, i);
      }
    }
  }

  lemma IdentityIsSteady(d: Doc, i: nat)
    requires KindOf(d).Listing? && i < |d.items| && Distinct(Ids(d.items))
    requires forall s :: s in Children(d) ==> WellFormed(Children(d)[s])
    ensures Steady(Ids(d.items)[i])
  {
    hide Merge;
    var (item, id) := (d.items[i], Ids(d.items)[i]);
    assert id in Ids(d.items) && LastOf(Ids(d.items), id) == i;
    assert Item(id) in Children(d) && Children(d)[Item(id)] == item;
    if id.shown.Composite? {
      assert At(id.key) in Children(item) && Children(item)[At(id.key)] == id.shown.doc;
      MergeSelf(id.shown.doc);
    }
  }

  // A list that brings no new identity keeps the frame it is merged into.
  lemma ListTwice(d: Doc, o: Doc)
    requires KindOf(d).Listing? && KindOf(o).Listing? && AllSteady(Ids(o.items))
    requires forall id :: id in Ids(o.items) ==> id in Ids(d.items)
    ensures var m := Merge(d, o);
            && KindOf(m).Listing? && Ids(m.items) == Ids(d.items) && |m.items| == |d.items|
            && forall i :: 0 <= i < |m.items| && Shadowed(m.items, i) ==> m.items[i] == d.items[i]
  {
    MergeOfLists(d.items, o.items);
    hide Merge, Children, IdentityOf, HasIdentity, MergeItems, Steady, Shadowed;
    SlotsKeepIds(d.items, o.items);
    NothingFresh(Ids(o.items), Ids(d.items));
    var m := Merge(d, o);
    assert |m.items| == |Ids(m.items)| == |Ids(d.items)|;
    forall i | 0 <= i < |m.items| && Shadowed(m.items, i) ensures m.items[i] == d.items[i] {
      SameShadows(m.items, d.items, i);
      ShadowedIsNotLast(d.items, i);
      SlotsKeepOthers(d.items, o.items, i);
    }
  }

  lemma ShadowedIsNotLast(items: seq<Doc>, i: nat)
    requires AllIdentified(items) && i < |items| && Shadowed(items, i)
    ensures LastOf(Ids(items), Ids(items)[i]) != i
  {
  }

  // Applying a well-formed layer again changes nothing, whatever it was applied to.
  lemma {:induction false} MergeIdempotent(a: Doc, b: Doc)
    requires WellFormed(b)
    ensures Merge(Merge(a, b), b) == Merge(a, b)
    decreases b
  {
    hide Children, Merge, Keyed;
    if Children(a) == map[] {
      NothingBelow(a, b);
      MergeSelf(b);
    } else if !SameKind(a, b) {
      Replaced(a, b);
      MergeSelf(b);
    } else {
      var m := Merge(a, b);
      forall s | s in Children(a) && s in Children(b)
        ensures Merge(Merge(Children(a)[s], Children(b)[s]), Children(b)[s]) == Merge(Children(a)[s], Children(b)[s])
      {
        MergeIdempotent(Children(a)[s], Children(b)[s]);
      }
      forall s | s in Children(b) ensures Merge(Children(b)[s], Children(b)[s]) == Children(b)[s] {
        MergeSelf(Children(b)[s]);
      }
      TwiceAlike(a, b);
    }
  }

  lemma TwiceAlike(a: Doc, b: Doc)
    requires WellFormed(b) && SameKind(a, b) && Children(a) != map[]
    requires forall s :: s in Children(a) && s in Children(b) ==>
      Merge(Merge(Children(a)[s], Children(b)[s]), Children(b)[s]) == Merge(Children(a)[s], Children(b)[s])
    requires forall s :: s in Children(b) ==> Merge(Children(b)[s], Children(b)[s]) == Children(b)[s]
    ensures Merge(Merge(a, b), b) == Merge(a, b)
  {
    var m := Merge(a, b);
    TwiceSameChildren(a, b);
    hide Children, Merge, WellFormed, Shadowed, Steady;
    if a.Dict? {
      SameChildrenSameDicts(Merge(m, b), m);
    } else {
      MergedHasIds(a, b);
      ListIsSound(b);
      ListTwice(m, b);
      SameChildrenSameLists(Merge(m, b), m);
    }
  }

  lemma TwiceSameChildren(a: Doc, b: Doc)
    requires WellFormed(b) && SameKind(a, b)
    requires forall s :: s in Children(a) && s in Children(b) ==>
      Merge(Merge(Children(a)[s], Children(b)[s]), Children(b)[s]) == Merge(Children(a)[s], Children(b)[s])
    requires forall s :: s in Children(b) ==> Merge(Children(b)[s], Children(b)[s]) == Children(b)[s]
    ensures var m := Merge(a, b); SameKind(m, b) && SameKind(Merge(m, b), b) && Children(Merge(m, b)) == Children(m)
  {
    hide Children, Merge, WellFormed, KindOf, MergeMaps;
    ChildrenMerge(a, b);
    ChildrenMerge(Merge(a, b), b);
    MergeMapsTwice(Children(a), Children(b));
  }

  lemma MergeMapsTwice(a: map<Step, Doc>, b: map<Step, Doc>)
    requires forall s :: s in a && s in b ==> Merge(Merge(a[s], b[s]), b[s]) == Merge(a[s], b[s])
    requires forall s :: s in b ==> Merge(b[s], b[s]) == b[s]
    ensures MergeMaps(MergeMaps(a, b), b) == MergeMaps(a, b)
  {
    hide Merge;
  }

  lemma MergedHasIds(a: Doc, b: Doc)
    requires WellFormed(b) && KindOf(a).Listing? && KindOf(b).Listing?
    ensures KindOf(Merge(a, b)).Listing?
    ensures forall id :: id in Ids(b.items) ==> id in Ids(Merge(a, b).items)
  {
    hide Merge, WellFormed, IdentityOf, HasIdentity, MergeMaps, ByIdentity, Children, Fresh, Steady;
    ListIsSound(b);
    ListsMerge(a.items, b.items);
    forall id | id in Ids(b.items) ensures id in Ids(a.items) + Fresh(Ids(b.items), Ids(a.items)) {
      FreshHas(Ids(b.items), Ids(a.items), id);
    }
  }

  // The empty map is a left unit for every document and a right unit for exactly the maps.
  lemma EmptyMapIsUnit(d: Doc)
    ensures Merge(Dict(map[]), d) == d
    ensures Merge(d, Dict(map[])) == d <==> d.Dict?
  {
    if d.Dict? {
      assert Merge(Dict(map[]), d).entries == d.entries;
      assert Merge(d, Dict(map[])).entries == d.entries;
    }
  }

  // ----- the fold over the layers of a variant

  function Fold(layers: seq<Doc>): Doc {
    if |layers| == 0 then Dict(map[]) else Merge(Fold(layers[..|layers| - 1]), layers[|layers| - 1])
  }

  method RenderLayers(layers: seq<Doc>) returns (doc: Doc)
    ensures doc == Fold(layers)
  {
    doc := Dict(map[]);
    for i := 0 to |layers|
      invariant doc == Fold(layers[..i])
    {
      assert layers[..i + 1][..i] == layers[..i];
      doc := MergeDocs(doc, layers[i]);
    }
    assert layers[..|layers|] == layers;
  }

  // Layers that never replace children of an earlier one by another kind.
  ghost predicate Layered(layers: seq<Doc>) {
    && (forall i :: 0 <= i < |layers| ==> WellFormed(layers[i]))
    && (forall i, j :: 0 <= i < j < |layers| ==> Overlays(layers[i], layers[j]))
  }

  // Overlaying is kept by merging, above ...
  lemma {:induction false} OverlaysMerged(a: Doc, b: Doc, c: Doc)
    requires WellFormed(b) && Overlays(a, c) && Overlays(b, c) && Overlays(a, b)
    ensures Overlays(Merge(a, b), c)
    decreases c
  {
    hide Children, Merge, WellFormed, KindOf;
    ChildrenMerge(a, b);
    var m := Merge(a, b);
    forall s | s in Children(m) && s in Children(c) && Children(m) != map[]
      ensures Overlays(Children(m)[s], Children(c)[s])
    {
      if s in Children(a) && s in Children(b) {
        MergeOverridesBelow(a, b, s);
        OverlaysMerged(Children(a)[s], Children(b)[s], Children(c)[s]);
      }
    }
    if Children(m) != map[] {
      assert Children(a) != map[] || Children(b) != map[];
    }
  }

  // ... and below.
  lemma {:induction false} MergedOverlays(a: Doc, b: Doc, c: Doc)
    requires WellFormed(c) && Overlays(a, b) && Overlays(a, c) && Overlays(b, c)
    ensures Overlays(a, Merge(b, c))
    decreases a
  {
    hide Children, Merge, WellFormed, KindOf;
    if Children(a) != map[] {
      ChildrenMerge(b, c);
      var m := Merge(b, c);
      forall s | s in Children(a) && s in Children(m) ensures Overlays(Children(a)[s], Children(m)[s]) {
        if s in Children(b) && s in Children(c) {
          MergeOverridesBelow(b, c, s);
          MergedOverlays(Children(a)[s], Children(b)[s], Children(c)[s]);
        }
      }
    }
  }

  lemma {:induction false} FoldOverlays(layers: seq<Doc>, c: Doc)
    requires Layered(layers) && forall i :: 0 <= i < |layers| ==> Overlays(layers[i], c)
    ensures WellFormed(Fold(layers)) && Overlays(Fold(layers), c)
  {
    hide Merge, WellFormed, Overlays;
    var n := |layers| - 1;
    if n < 0 {
      EmptyMapOverlays(c);
    } else {
      FoldOverlays(layers[..n], c);
      FoldOverlays(layers[..n], layers[n]);
      MergeIsWellFormed(Fold(layers[..n]), layers[n]);
      OverlaysMerged(Fold(layers[..n]), layers[n], c);
    }
  }

  lemma EmptyMapOverlays(c: Doc)
    ensures WellFormed(Dict(map[])) && Overlays(Dict(map[]), c)
  {
    assert Children(Dict(map[])) == map[] by {
      assert forall k :: At(k) !in Children(Dict(map[]));
    }
  }

  // What the last layer that says anything at the path says.
  function LastSaid(layers: seq<Doc>, path: seq<Step>): Said {
    if |layers| == 0 then Nothing
    else Override(LastSaid(layers[..|layers| - 1], path), Look(layers[|layers| - 1], path))
  }

  // A rendered variant says at every path what its last layer to mention that path says.
  lemma {:induction false} LastLayerWins(layers: seq<Doc>, path: seq<Step>)
    requires Layered(layers) && (|layers| > 0 || |path| > 0)
    ensures Look(Fold(layers), path) == LastSaid(layers, path)
  {
    hide Merge, WellFormed, Overlays;
    var n := |layers| - 1;
    if n < 0 {
      EmptySaysNothing(path);
    } else {
      FoldOverlays(layers[..n], layers[n]);
      MergeOverrides(Fold(layers[..n]), layers[n], path);
      if n > 0 || |path| > 0 {
        LastLayerWins(layers[..n], path);
      }
    }
  }

  lemma EmptySaysNothing(path: seq<Step>)
    requires |path| > 0
    ensures Look(Dict(map[]), path) == Nothing
  {
    assert path[0] !in Children(Dict(map[]));
  }

  lemma {:induction false} FoldIsWellFormed(layers: seq<Doc>)
    requires forall i :: 0 <= i < |layers| ==> WellFormed(layers[i])
    ensures WellFormed(Fold(layers))
  {
    hide Merge, WellFormed;
    var n := |layers| - 1;
    if n < 0 {
      EmptyMapOverlays(Dict(map[]));
    } else {
      FoldIsWellFormed(layers[..n]);
      MergeIsWellFormed(Fold(layers[..n]), layers[n]);
    }
  }

  // No layer of ys puts back what the ones before it in ys take away from xs.
  ghost predicate NeverPutsBack(xs: seq<Doc>, ys: seq<Doc>) {
    forall n :: 0 < n < |ys| ==> !PutsBack(Fold(xs), Fold(ys[..n]), ys[n])
  }

  // Then the run ys may be composed on its own before the fold.
  lemma {:induction false} LayersPrecompose(xs: seq<Doc>, ys: seq<Doc>)
    requires |ys| > 0 && (forall i :: 0 <= i < |ys| ==> WellFormed(ys[i])) && NeverPutsBack(xs, ys)
    ensures Fold(xs + ys) == Merge(Fold(xs), Fold(ys))
    decreases |ys|
  {
    hide Merge, WellFormed, PutsBack;
    var n := |ys| - 1;
    if n == 0 {
      assert xs + ys == xs + [] + [ys[0]];
      FoldSnoc(xs, ys[0]);
      EmptyMapIsUnit(ys[0]);
    } else {
      var front := ys[..n];
      assert forall m :: 0 < m < n ==> front[..m] == ys[..m];
      LayersPrecompose(xs, front);
      OneMorePrecomposes(xs, front, ys[n]);
      assert front + [ys[n]] == ys;
    }
  }

  lemma FoldSnoc(layers: seq<Doc>, d: Doc)
    ensures Fold(layers + [d]) == Merge(Fold(layers), d)
  {
    hide Merge;
    assert (layers + [d])[..|layers|] == layers;
  }

  // And exactly then: a run that precomposes still does with one more layer if and only if that
  // layer puts nothing back.
  lemma OneMorePrecomposes(xs: seq<Doc>, ys: seq<Doc>, y: Doc)
    requires (forall i :: 0 <= i < |ys| ==> WellFormed(ys[i])) && WellFormed(y)
    requires Fold(xs + ys) == Merge(Fold(xs), Fold(ys))
    ensures Fold(xs + (ys + [y])) == Merge(Fold(xs), Fold(ys + [y])) <==> !PutsBack(Fold(xs), Fold(ys), y)
  {
    hide Merge, WellFormed, PutsBack, Fold;
    assert xs + (ys + [y]) == xs + ys + [y];
    FoldSnoc(xs + ys, y);
    FoldSnoc(ys, y);
    FoldIsWellFormed(ys);
    AssociatesExactlyWhen(Fold(xs), Fold(ys), y);
  }

  // In particular layers that only ever overlay each other may be grouped in any way.
  lemma LayeredPrecomposes(xs: seq<Doc>, ys: seq<Doc>)
    requires Layered(xs + ys) && |ys| > 0
    ensures Fold(xs + ys) == Merge(Fold(xs), Fold(ys))
  {
    hide Merge, WellFormed, Overlays, PutsBack, Fold;
    assert forall i :: 0 <= i < |ys| ==> ys[i] == (xs + ys)[|xs| + i];
    forall n | 0 < n < |ys| ensures !PutsBack(Fold(xs), Fold(ys[..n]), ys[n]) {
      var (front, rest) := (xs + ys[..n], ys[..n]);
      assert forall i :: 0 <= i < |front| ==> front[i] == (xs + ys)[i];
      FoldOverlaysFold(xs, rest);
      OverlaysPutNothingBack(Fold(xs), Fold(rest), ys[n]);
    }
    LayersPrecompose(xs, ys);
  }

  lemma SplitLayers(xs: seq<Doc>, ys: seq<Doc>, y: Doc)
    requires Layered(xs + (ys + [y]))
    ensures Layered(xs + ys) && Layered(ys) && WellFormed(y)
    ensures forall i :: 0 <= i < |ys| ==> Overlays(ys[i], y)
  {
    hide WellFormed, Overlays;
    var all := xs + (ys + [y]);
    assert forall i :: 0 <= i < |xs + ys| ==> (xs + ys)[i] == all[i];
    assert forall i :: 0 <= i < |ys| ==> ys[i] == all[|xs| + i];
    assert y == all[|xs| + |ys|];
  }

  lemma {:induction false} FoldOverlaysFold(xs: seq<Doc>, ys: seq<Doc>)
    requires Layered(xs + ys) && |ys| > 0
    ensures WellFormed(Fold(xs)) && Overlays(Fold(xs), Fold(ys))
    decreases |ys|
  {
    hide Merge, WellFormed, Overlays;
    var n := |ys| - 1;
    assert ys == ys[..n] + [ys[n]];
    SplitLayers(xs, ys[..n], ys[n]);
    assert forall i :: 0 <= i < |xs| ==> xs[i] == (xs + ys)[i];
    assert ys[n] == (xs + ys)[|xs| + n];
    FoldOverlays(xs, ys[n]);
    if n == 0 {
      EmptyMapIsUnit(ys[0]);
      assert Fold(ys[..0]) == Dict(map[]);
    } else {
      FoldOverlaysFold(xs, ys[..n]);
      FoldOverlays(ys[..n], ys[n]);
      MergedOverlays(Fold(xs), Fold(ys[..n]), ys[n]);
    }
  }

  // ----- where the algebra stops

  lemma EmptyListBreaksAssociativity()
    ensures var a := Items([Dict(map[Name := Leaf("str", "x")])]);
            var c := Items([Dict(map[Name := Leaf("str", "y")])]);
            && WellFormed(a) && WellFormed(Items([])) && WellFormed(c) && PutsBack(a, Items([]), c)
            && Merge(Merge(a, Items([])), c) != Merge(a, Merge(Items([]), c))
  {
    var (x, y) := (Dict(map[Name := Leaf("str", "x")]), Dict(map[Name := Leaf("str", "y")]));
    var (a, c) := (Items([x]), Items([y]));
    SingletonIsWellFormed(x);
    SingletonIsWellFormed(y);
    KeyedHasChild(a);
    TwoItems(x, y);
    hide WellFormed;
    AssociatesExactlyWhen(a, Items([]), c);
  }

  lemma TwoItems(x: Doc, y: Doc)
    requires HasIdentity(x) && HasIdentity(y) && IdentityOf(x) != IdentityOf(y)
    ensures Merge(Items([x]), Items([y])) != Items([y])
  {
    assert [y][..0] == [];
    assert MergeItems([x], [y]).items == [x, y];
  }

  lemma SingletonIsWellFormed(d: Doc)
    requires d.Dict? && Name in d.entries && d.entries[Name].Leaf? && d.entries.Keys == {Name}
    ensures WellFormed(Items([d])) && WellFormed(Items([]))
  {
    assert WellFormed(d.entries[Name]);
    assert WellFormed(d);
    var l := Items([d]);
    forall s | s in Children(l) ensures WellFormed(Children(l)[s]) {
      assert Children(l)[s] == d;
    }
  }

  lemma ScalarOverMapBreaksAssociativity()
    ensures var (a, b, c) := (Dict(map[Other("x") := Leaf("int", "1")]), Leaf("int", "0"), Dict(map[Other("y") := Leaf("int", "2")]));
            PutsBack(a, b, c) && Merge(Merge(a, b), c) != Merge(a, Merge(b, c))
  {
    var (a, b, c) := (Dict(map[Other("x") := Leaf("int", "1")]), Leaf("int", "0"), Dict(map[Other("y") := Leaf("int", "2")]));
    FlatMap(Other("x"), Leaf("int", "1"));
    FlatMap(Other("y"), Leaf("int", "2"));
    assert WellFormed(b);
    assert Other("x") in Merge(a, c).entries && Other("x") !in c.entries;
    hide Children, WellFormed, Merge;
    AssociatesExactlyWhen(a, b, c);
  }

  lemma FlatMap(k: Key, leaf: Doc)
    requires leaf.Leaf?
    ensures WellFormed(Dict(map[k := leaf])) && Children(Dict(map[k := leaf])) != map[]
  {
    assert WellFormed(leaf);
    assert At(k) in Children(Dict(map[k := leaf]));
  }

  // Two items of one identity: a second application of the layer moves settings between them.
  lemma SharedIdentityBreaksIdempotence()
    ensures var n := Leaf("str", "n");
            var b := Items([Dict(map[Name := n, Other("x") := n]), Dict(map[Name := n])]);
            Merge(Merge(Leaf("null", ""), b), b) != Merge(Leaf("null", ""), b)
  {
    var n := Leaf("str", "n");
    var (x, y) := (Dict(map[Name := n, Other("x") := n]), Dict(map[Name := n]));
    var o := [x, y];
    assert o[..1] == [x] && [x][..0] == [];
    assert Keyed(o) && IdentityOf(x) == IdentityOf(y);
    assert Ids(o)[1] == IdentityOf(x);
    assert LastOf(Ids(o), IdentityOf(x)) == 1;
    var (s0, s1) := (Slots(o, Ids(o)), Put(Slots(o, Ids(o)), x));
    assert MergeItems(o, []) == s0 && MergeItems(o, [x]) == s1;
    assert s1.items == [x, Merge(y, x)] && s1.ids == Ids(o);
    assert Put(s1, y).items == [x, Merge(Merge(y, x), y)] && MergeItems(o, o) == Put(s1, y);
    assert Other("x") in Merge(y, x).entries && Other("x") in Merge(Merge(y, x), y).entries;
  }
}
