/**
  The schema-aware three-way merge of the last intent (before), the live object and
  the new intent (desired): which deletions, writes and conflicts it decides on.
 */
module IntentMerge {
  import opened Options
  import opened FieldTrie
  import opened Trees

  /** The paths structured-merge-diff records for a document: leaves, empty containers and list items. */
  function FieldSet(t: Tree): set<Path> {
    set p: Path | p in Nodes(t) && p != [] &&
      (p[|p| - 1].Item? || See(t, p) != Some(ContainerAt) || forall q :: q in Nodes(t) && p <= q ==> q == p)
  }

  function TypeAt(s: Schema, p: Path): Option<Schema>
    decreases |p|
  {
    if p == [] then Some(s) else if Step(s, p[0]).Some? then TypeAt(Step(s, p[0]).value, p[1..]) else None
  }

  /** intentAtomicContainerAt: None when the schema cannot be traversed along the path. */
  method AtomicContainerAt(s: Schema, path: Path) returns (r: Option<bool>)
    ensures r == if TypeAt(s, path).Some? then Some(TypeAt(s, path).value.AtomicType?) else None
  {
    var ref := s;
    for i := 0 to |path|
      invariant TypeAt(s, path) == TypeAt(ref, path[i..])
    {
      assert path[i..][1..] == path[i + 1..];
      var next := Step(ref, path[i]);
      if next.None? { return None; }
      ref := next.value;
    }
    assert path[|path|..] == [];
    return Some(ref.AtomicType?);
  }

  datatype Inputs = Inputs(before: Tree, live: Tree, desired: Tree, schema: Schema, protected: set<Path>) {

    ghost predicate Valid() {
      schema.MapType? && Conforms(before, schema) && Conforms(live, schema) && Conforms(desired, schema) && [] !in protected
    }

    function Change(): Comparison { Compare(before, desired) }

    /** Everything the outside world added, modified or removed since the last intent. */
    function External(): set<Path> { Compare(before, live).All() }

    predicate Touched(p: Path) { Overlaps(External(), p) || Overlaps(protected, p) }

    predicate Lives(p: Path) { Contains(FieldSet(live), p) }

    /** Removed keyed list items that someone else touched. */
    function BlockedItems(): set<Path> {
      set p: Path | p in Change().removed && p != [] && p[|p| - 1].Item? && Touched(p) && Lives(p)
    }

    predicate Kept(p: Path) { Overlaps(BlockedItems(), p) || Touched(p) }

    function Deletions(): set<Path> { set p | p in Change().removed && Lives(p) && !Kept(p) }

    function RetainedDeletions(): set<Path> { set p | p in Change().removed && Lives(p) && Kept(p) }

    function Writes(): set<Path> { Change().added + Change().modified }

    /** An atomic value changed by both sides to something different. */
    predicate Conflict(p: Path) {
      && Lives(p) && Overlaps(External(), p) && Overlaps(Compare(live, desired).All(), p)
      && TypeAt(schema, p) == Some(AtomicType)
    }

    function BlockedWrites(): set<Path> { set p | p in Writes() && Conflict(p) }

    /** The leaves to write, without everything at or below a blocked write. */
    function Patch(): set<Path> { set p | p in Leaves(Writes()) && !Covers(BlockedWrites(), p) }

    function Merged(): Tree { Merge(Remove(live, Deletions()), Extract(desired, Patch())) }

    function Retained(): set<Path> { RetainedDeletions() + BlockedWrites() }
  }

  // ---- What the merged document shows ---------------------------------------

  lemma FieldSetContains(t: Tree, p: Path)
    requires p != []
    ensures Contains(FieldSet(t), p) <==> Present(t, p)
  {
    if Contains(FieldSet(t), p) {
      var q :| q in FieldSet(t) && p <= q;
      NodesArePresent(t, q);
      PrefixIsPresent(t, p, q);
    }
    if Present(t, p) {
      NodesArePresent(t, p);
      var q := Deepest(Nodes(t), p);
      assert q in FieldSet(t);
    }
  }

  /** Among the members that extend p there is one that no other member extends. */
  lemma {:induction false} Deepest(paths: set<Path>, p: Path) returns (q: Path)
    requires p in paths
    ensures q in Leaves(paths) && p <= q
    decreases paths
  {
    if r :| r in paths && p <= r && r != p {
      q := Deepest(paths - {p}, r);
      assert r[..|p|] == p && r[..|r|] == r;
      forall s | s in paths && q <= s ensures s == q {
        if s != p { assert s in paths - {p}; }
      }
    } else {
      q := p;
    }
  }

  lemma RootIsNeverListed(m: Inputs)
    requires m.Valid()
    ensures [] !in m.Change().All() && [] !in m.External() && [] !in m.Patch() && [] !in m.Deletions()
  {
    CompareAt(m.before, m.desired, []);
    CompareAt(m.before, m.live, []);
  }

  /** Above a node of the new intent a written path is an added container, so that node is written as well. */
  lemma WrittenContainerIsNoLeaf(m: Inputs, q: Path, p: Path)
    requires m.Valid() && q in m.Writes() && q <= p && q != p && Present(m.desired, p)
    ensures q !in Leaves(m.Writes())
  {
    PrefixIsContainer(m.desired, q, p);
    CompareAt(m.before, m.desired, q);
    CompareAt(m.before, m.desired, p);
    ConformingIsCompatible(m.before, m.desired, m.schema);
    if Present(m.before, p) { PrefixIsPresent(m.before, q, p); }
  }

  /** Where the patch reaches a node of the new intent, a written leaf stands at or below that node. */
  lemma PatchReaches(m: Inputs, p: Path)
    requires m.Valid() && Overlaps(m.Patch(), p) && Present(m.desired, p)
    ensures exists q :: q in m.Patch() && p <= q
  {
    var q :| q in m.Patch() && (q <= p || p <= q);
    if !(p <= q) {
      WrittenContainerIsNoLeaf(m, q, p);
    }
  }

  /** The merged document, path by path. */
  lemma MergedAt(m: Inputs, p: Path)
    requires m.Valid()
    ensures See(m.Merged(), p) ==
      if Present(m.desired, p) && (p == [] || Overlaps(m.Patch(), p)) then See(m.desired, p)
      else if Covers(m.Deletions(), p) then None
      else See(m.live, p)
  {
    RootIsNeverListed(m);
    var left, right := Remove(m.live, m.Deletions()), Extract(m.desired, m.Patch());
    ConformingIsCompatible(m.live, m.desired, m.schema);
    forall q | Present(left, q) && Present(right, q) ensures SameKind(See(left, q).value, See(right, q).value) {
      SeeRemove(m.live, m.Deletions(), q);
      SeeExtract(m.desired, m.Patch(), q);
    }
    SeeMerge(left, right, p);
    SeeRemove(m.live, m.Deletions(), p);
    SeeExtract(m.desired, m.Patch(), p);
  }

  /** The merged document conforms to the schema of its inputs. */
  lemma MergedConforms(m: Inputs)
    requires m.Valid()
    ensures Conforms(m.Merged(), m.schema)
  {
    RemoveConforms(m.live, m.Deletions(), m.schema);
    ExtractConforms(m.desired, m.Patch(), m.schema);
    MergeConforms(Remove(m.live, m.Deletions()), Extract(m.desired, m.Patch()), m.schema);
  }

  lemma DeletionsAreUntouched(m: Inputs, q: Path)
    requires m.Valid() && q in m.Deletions()
    ensures Present(m.before, q) && !Present(m.desired, q) && !m.Touched(q) && !Overlaps(m.BlockedItems(), q)
  {
    CompareAt(m.before, m.desired, q);
  }

  // ---- External edits survive -----------------------------------------------

  /**
    A live leaf that was added or changed since the last intent keeps its live value, unless the new intent
    itself adds or modifies that very leaf and the leaf is not an atomic value both sides changed.
   */
  lemma ExternalEditsSurvive(m: Inputs, p: Path)
    requires m.Valid() && Present(m.live, p) && See(m.live, p).value.LeafAt?
    requires p in Compare(m.before, m.live).added || p in Compare(m.before, m.live).modified
    ensures See(m.Merged(), p) == if p in m.Writes() && p !in m.BlockedWrites() then See(m.desired, p) else See(m.live, p)
  {
    if p in m.Writes() && p !in m.BlockedWrites() {
      LeafIsNotExtended(m, p);
      WrittenLeafIsPatched(m, p);
    } else {
      ExternalIsNotDeleted(m, p);
      LiveLeafStays(m, p);
    }
  }

  lemma ExternalIsNotDeleted(m: Inputs, p: Path)
    requires m.Valid() && p in m.External()
    ensures !Covers(m.Deletions(), p)
  {
    forall q | q in m.Deletions() ensures !(q <= p) { DeletionsAreUntouched(m, q); }
  }

  /** A live leaf that is neither deleted nor written keeps its value. */
  lemma LiveLeafStays(m: Inputs, p: Path)
    requires m.Valid() && p != [] && Present(m.live, p) && See(m.live, p).value.LeafAt?
    requires !Covers(m.Deletions(), p) && (p !in m.Writes() || p in m.BlockedWrites())
    ensures See(m.Merged(), p) == See(m.live, p)
  {
    MergedAt(m, p);
    if Present(m.desired, p) && Overlaps(m.Patch(), p) {
      PatchReaches(m, p);
      var q :| q in m.Patch() && p <= q;
      NotPatchedAtLeaf(m, p, q);
    }
  }

  lemma LeafIsNotExtended(m: Inputs, p: Path)
    requires m.Valid() && Present(m.live, p) && See(m.live, p).value.LeafAt? && p in m.Writes()
    ensures forall q :: q in m.Writes() && p <= q ==> q == p
  {
    CompareAt(m.before, m.desired, p);
    ConformingIsCompatible(m.live, m.desired, m.schema);
    forall q | q in m.Writes() && p <= q ensures q == p {
      CompareAt(m.before, m.desired, q);
      if q != p { PrefixIsContainer(m.desired, p, q); }
    }
  }

  /** The patch does not reach below a live leaf, nor to a blocked one. */
  lemma NotPatchedAtLeaf(m: Inputs, p: Path, q: Path)
    requires m.Valid() && See(m.live, p).Some? && See(m.live, p).value.LeafAt?
    requires q in m.Patch() && p <= q
    ensures p in m.Writes() && p !in m.BlockedWrites()
  {
    RootIsNeverListed(m);
    CompareAt(m.before, m.desired, q);
    if p != q {
      PrefixIsContainer(m.desired, p, q);
      ConformingIsCompatible(m.live, m.desired, m.schema);
    }
  }

  lemma {:induction false} TypeOfPresent(t: Tree, s: Schema, p: Path)
    requires Conforms(t, s) && Present(t, p)
    ensures TypeAt(s, p).Some?
    ensures TypeAt(s, p).value.AtomicType? <==> See(t, p).value.LeafAt? && See(t, p).value.value.Atomic?
    decreases |p|
  {
    if p != [] { TypeOfPresent(t.kids[p[0]], Step(s, p[0]).value, p[1..]); }
  }

  /** A blocked write is an atomic leaf of the new intent: it covers nothing but itself. */
  lemma BlockedCoversItself(m: Inputs, q: Path, p: Path)
    requires m.Valid() && q in m.BlockedWrites() && q <= p && Present(m.desired, p)
    ensures q == p
  {
    CompareAt(m.before, m.desired, q);
    TypeOfPresent(m.desired, m.schema, q);
    if q != p { PrefixIsContainer(m.desired, q, p); }
  }

  lemma WrittenLeafIsPatched(m: Inputs, p: Path)
    requires m.Valid() && p in m.Writes() && p !in m.BlockedWrites()
    requires forall q :: q in m.Writes() && p <= q ==> q == p
    ensures p in m.Patch() && See(m.Merged(), p) == See(m.desired, p)
  {
    CompareAt(m.before, m.desired, p);
    if Covers(m.BlockedWrites(), p) {
      var q :| q in m.BlockedWrites() && q != [] && q <= p;
      BlockedCoversItself(m, q, p);
    }
    assert p in m.Patch() && p <= p;
    MergedAt(m, p);
  }

  /** A keyed list item removed by the intent but touched by someone else is kept whole. */
  lemma TouchedItemIsKeptWhole(m: Inputs, p: Path, r: Path)
    requires m.Valid() && p in m.Change().removed && p != [] && p[|p| - 1].Item?
    requires m.Touched(p) && Present(m.live, p)
    ensures See(m.Merged(), p + r) == See(m.live, p + r)
    ensures p in m.Retained()
  {
    FieldSetContains(m.live, p);
    CompareAt(m.before, m.desired, p);
    MergedAt(m, p + r);
    assert p <= p + r;
    assert p in m.BlockedItems();
    if Present(m.desired, p + r) { PrefixIsPresent(m.desired, p, p + r); }
    forall q | q in m.Deletions() ensures !(q <= p + r) {
      DeletionsAreUntouched(m, q);
      if q <= p + r { PrefixesNest(q, p, p + r); }
    }
  }

  lemma PrefixesNest(q: Path, p: Path, whole: Path)
    requires q <= whole && p <= whole
    ensures q <= p || p <= q
  {
  }

  /** Protected paths are never removed. */
  lemma ProtectedIsNeverRemoved(m: Inputs, p: Path)
    requires m.Valid() && p in m.protected && Present(m.live, p)
    ensures Present(m.Merged(), p)
  {
    MergedAt(m, p);
    forall q | q in m.Deletions() ensures !(q <= p) { DeletionsAreUntouched(m, q); }
  }

  /** An atomic value changed by both sides, to different values, keeps the live value and is reported. */
  lemma AtomicConflictKeepsLive(m: Inputs, p: Path)
    requires m.Valid() && p in m.Writes() && TypeAt(m.schema, p) == Some(AtomicType)
    requires Present(m.live, p) && p in m.External() && See(m.live, p) != See(m.desired, p)
    ensures See(m.Merged(), p) == See(m.live, p) && p in m.Retained()
  {
    RootIsNeverListed(m);
    FieldSetContains(m.live, p);
    CompareAt(m.before, m.desired, p);
    CompareAt(m.live, m.desired, p);
    assert p in Compare(m.live, m.desired).All() && p <= p;
    assert p in m.BlockedWrites();
    TypeOfPresent(m.live, m.schema, p);
    ExternalIsNotDeleted(m, p);
    LiveLeafStays(m, p);
  }

  // ---- Converged or reported ------------------------------------------------

  /** Every path that changed between the two intents now shows the new intent, or is reported as retained. */
  lemma ConvergedOrRetained(m: Inputs, p: Path)
    requires m.Valid() && p in m.Change().All()
    ensures See(m.Merged(), p) == See(m.desired, p) || p in m.Retained()
  {
    RootIsNeverListed(m);
    CompareAt(m.before, m.desired, p);
    if p in m.Change().removed {
      MergedAt(m, p);
      FieldSetContains(m.live, p);
      if p in m.Deletions() { assert p <= p; }
    } else if p !in m.BlockedWrites() {
      WrittenConverges(m, p);
    }
  }

  lemma WrittenConverges(m: Inputs, p: Path)
    requires m.Valid() && p in m.Writes() && p !in m.BlockedWrites()
    ensures See(m.Merged(), p) == See(m.desired, p)
  {
    RootIsNeverListed(m);
    CompareAt(m.before, m.desired, p);
    var q := Deepest(m.Writes(), p);
    CompareAt(m.before, m.desired, q);
    MergedAt(m, p);
    if q in m.Patch() {
      assert Overlaps(m.Patch(), p);
    } else {
      var r :| r in m.BlockedWrites() && r != [] && r <= q;
      BlockedCoversItself(m, r, q);
      AddedAboveBlocked(m, p, q);
    }
  }

  /** A written container above a blocked atomic write exists in live, and is not deleted. */
  lemma AddedAboveBlocked(m: Inputs, p: Path, q: Path)
    requires m.Valid() && p in m.Writes() && q in m.BlockedWrites() && p <= q && p != q && p != []
    ensures See(m.live, p) == See(m.desired, p) && !Covers(m.Deletions(), p)
  {
    RootIsNeverListed(m);
    CompareAt(m.before, m.desired, p);
    CompareAt(m.before, m.desired, q);
    FieldSetContains(m.live, q);
    PrefixIsContainer(m.live, p, q);
    PrefixIsContainer(m.desired, p, q);
    forall r | r in m.Deletions() ensures !(r <= p) {
      DeletionsAreUntouched(m, r);
      if r <= p { PrefixIsPresent(m.desired, r, p); }
    }
  }

  /** A leaf of the last intent that was removed from live is not recreated unless the new intent writes it. */
  lemma ExternallyRemovedStaysRemoved(m: Inputs, p: Path)
    requires m.Valid() && p in Compare(m.before, m.live).removed && p !in m.Writes()
    requires See(m.before, p).Some? && See(m.before, p).value.LeafAt?
    ensures !Present(m.Merged(), p)
  {
    RootIsNeverListed(m);
    CompareAt(m.before, m.live, p);
    MergedAt(m, p);
    if Present(m.desired, p) && Overlaps(m.Patch(), p) {
      PatchReaches(m, p);
      var q :| q in m.Patch() && p <= q;
      CompareAt(m.before, m.desired, q);
      ConformingIsCompatible(m.before, m.desired, m.schema);
      if p != q { PrefixIsContainer(m.desired, p, q); }
    }
  }

  lemma NothingExternal(m: Inputs)
    requires m.live == m.before && m.protected == {}
    ensures m.External() == {} && m.Retained() == {}
  {
    forall p ensures p !in m.External() { CompareAt(m.before, m.live, p); }
    forall p ensures !m.Touched(p) {}
    assert m.BlockedItems() == {};
    assert m.RetainedDeletions() == {} && m.BlockedWrites() == {};
  }

  /** Without external changes the merge gives exactly the new intent and retains nothing. */
  lemma UntouchedLiveConverges(m: Inputs)
    requires m.Valid() && m.live == m.before && m.protected == {}
    ensures m.Merged() == m.desired && m.Retained() == {}
  {
    NothingExternal(m);
    forall p ensures See(m.Merged(), p) == See(m.desired, p) {
      if p in m.Change().All() {
        ConvergedOrRetained(m, p);
      } else {
        UnchangedPathStays(m, p);
      }
    }
    SameSightsSameTree(m.Merged(), m.desired);
  }

  /** A path both intents show alike shows what live shows, unless the patch writes below it. */
  lemma UnchangedPathStays(m: Inputs, p: Path)
    requires m.Valid() && m.live == m.before && p !in m.Change().All()
    ensures See(m.Merged(), p) == See(m.desired, p)
  {
    CompareAt(m.before, m.desired, p);
    MergedAt(m, p);
    forall q | q in m.Deletions() && Present(m.desired, p) ensures !(q <= p) {
      DeletionsAreUntouched(m, q);
      if q <= p { PrefixIsPresent(m.desired, q, p); }
    }
  }
}
