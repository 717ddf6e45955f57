// What a merge says at every path when lists repeat identities: at each step of the path, the
// document that stands there takes in, one after the other, whatever the later document has there.

module EppRepeats {
  import opened Text
  import opened EppConfig
  import opened EppIdempotence

  function Below(v: Option<Doc>, path: seq<Step>): Option<Doc>
    decreases |path|
  {
    if |path| == 0 then v else Below(Child(v, path[0]), path[1..])
  }

  // Later documents of another kind, and those taken whole, replace what came before: the document
  // that stands at the end and those that merge into it.
  function Standing(v: Option<Doc>, ys: seq<Doc>): (r: (Doc, seq<Doc>))
    requires v.Some? || ys != []
  {
    var n := |ys| - 1;
    if n < 0 then (v.value, [])
    else if v.None? && n == 0 then (ys[0], [])
    else
      var (z, rest) := Standing(v, ys[..n]);
      if SameKind(z, ys[n]) && !KindOf(z).Atom? then (z, rest + [ys[n]]) else (ys[n], [])
  }

  // The value at a path: read off the documents at each step, without merging any but the last.
  function ValueAt(v: Option<Doc>, ys: seq<Doc>, path: seq<Step>): Option<Doc>
    decreases |path|
  {
    if |path| == 0 then Run(v, ys)
    else if v.None? && ys == [] then None
    else
      var (z, rest) := Standing(v, ys);
      ValueAt(Child(Some(z), path[0]), Strands(rest, path[0]), path[1..])
  }

  lemma {:induction false} StandingRuns(v: Option<Doc>, ys: seq<Doc>)
    requires (v.Some? || ys != []) && AllScalar(ys)
    ensures var (z, rest) := Standing(v, ys);
            && Run(v, ys) == Run(Some(z), rest)
            && Alike(z, rest) && AllScalar(rest) && (KindOf(z).Atom? ==> rest == [])
  {
    hide Merge, KindOf, ScalarIds;
    var n := |ys| - 1;
    if n >= 0 && !(v.None? && n == 0) {
      StandingRuns(v, ys[..n]);
      var (z, rest) := Standing(v, ys[..n]);
      RunSnoc(Some(z), rest, ys[n]);
      RunHasKind(z, rest);
      if !(SameKind(z, ys[n]) && !KindOf(z).Atom?) {
        Replaces(Run(Some(z), rest).value, ys[n]);
      }
    }
  }

  // A run of one kind has that kind.
  lemma RunHasKind(z: Doc, ys: seq<Doc>)
    requires Alike(z, ys) && AllScalar(ys) && (KindOf(z).Atom? ==> ys == [])
    ensures Run(Some(z), ys).Some? && SameKind(Run(Some(z), ys).value, z)
  {
    hide Merge, KindOf, ScalarIds;
    if ys != [] {
      ChildOfRun(z, ys, At(Name));
    }
  }

  lemma Replaces(z: Doc, y: Doc)
    requires !SameKind(z, y) || KindOf(z).Atom?
    ensures Merge(z, y) == y
  {
  }

  lemma NothingBelow(path: seq<Step>)
    ensures Below(None, path) == None
    decreases |path|
  {
  }

  // Whatever the lists repeat, a run of merges says at every path what the documents say there.
  lemma {:induction false} RunsAlongPaths(v: Option<Doc>, ys: seq<Doc>, path: seq<Step>)
    requires AllScalar(ys)
    ensures Below(Run(v, ys), path) == ValueAt(v, ys, path)
    decreases |path|
  {
    hide Merge, KindOf, ScalarIds, Child, Strands, Standing;
    if |path| > 0 {
      if v.None? && ys == [] {
        NothingBelow(path);
      } else {
        StandingRuns(v, ys);
        var (z, rest) := Standing(v, ys);
        StepAlong(z, rest, path[0]);
        if Strands(rest, path[0]) != [] {
          StrandsAreLower(rest, path[0]);
        }
        RunsAlongPaths(Child(Some(z), path[0]), Strands(rest, path[0]), path[1..]);
      }
    }
  }

  lemma StepAlong(z: Doc, rest: seq<Doc>, s: Step)
    requires Alike(z, rest) && AllScalar(rest) && (KindOf(z).Atom? ==> rest == [])
    ensures Child(Run(Some(z), rest), s) == Run(Child(Some(z), s), Strands(rest, s))
  {
    hide Merge, KindOf, ScalarIds, Child, Strand;
    if rest != [] {
      ChildOfRun(z, rest, s);
    }
  }

  // In particular for one merge, of any document with any layer of scalar identities.
  lemma MergeAlongPaths(b: Doc, o: Doc, path: seq<Step>)
    requires ScalarIds(o)
    ensures Below(Some(Merge(b, o)), path) == ValueAt(Some(b), [o], path)
  {
    hide Merge, ScalarIds, ValueAt, Below;
    OneDocument(Some(b), o);
    RunsAlongPaths(Some(b), [o], path);
  }
}
