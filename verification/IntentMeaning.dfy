/**
  What the intent merge means, path by path: the merged document and the retained paths, from what the last intent, the
  live object and the new intent show, without the sets through which the merge computes them.
 */
module IntentMeaning {
  import opened Options
  import opened FieldTrie
  import opened Trees
  import opened IntentMerge

  /** One path is the other, or lies above or below it. */
  predicate Related(p: Path, q: Path) { p <= q || q <= p }

  /** Someone else changed something at, above or below the path, or it is protected there. */
  ghost predicate Disturbed(m: Inputs, p: Path) {
    exists q :: Related(p, q) && (See(m.before, q) != See(m.live, q) || q in m.protected)
  }

  /** The new intent no longer has the path. */
  ghost predicate Dropped(m: Inputs, p: Path) { Present(m.before, p) && !Present(m.desired, p) }

  /** The path lies in a keyed item that the new intent drops, that is still there, and that is disturbed. */
  ghost predicate InDisturbedItem(m: Inputs, p: Path) {
    exists q :: q != [] && q <= p && q[|q| - 1].Item? && Dropped(m, q) && Present(m.live, q) && Disturbed(m, q)
  }

  /** The new intent adds or changes what stands at the path. */
  ghost predicate Written(m: Inputs, p: Path) { Present(m.desired, p) && See(m.before, p) != See(m.desired, p) }

  /** An atomic value that both sides changed, to different values. */
  ghost predicate Clash(m: Inputs, p: Path) {
    && Written(m, p) && See(m.desired, p).value.LeafAt? && See(m.desired, p).value.value.Atomic?
    && Present(m.live, p) && See(m.before, p) != See(m.live, p) && See(m.live, p) != See(m.desired, p)
  }

  // ---- The sets of the merge, in these terms -------------------------------------------

  lemma TouchedMeans(m: Inputs, p: Path)
    ensures m.Touched(p) <==> Disturbed(m, p)
  {
    if m.Touched(p) {
      if Overlaps(m.External(), p) {
        var q :| q in m.External() && (q <= p || p <= q);
        CompareAt(m.before, m.live, q);
        assert Related(p, q);
      } else {
        var q :| q in m.protected && (q <= p || p <= q);
        assert Related(p, q);
      }
    }
    if q :| Related(p, q) && (See(m.before, q) != See(m.live, q) || q in m.protected) { CompareAt(m.before, m.live, q); }
  }

  /** A disturbance below a path, or of a path related to one below it, disturbs it as well. */
  lemma DisturbedAbove(m: Inputs, p: Path, q: Path)
    requires q <= p && Disturbed(m, p)
    ensures Disturbed(m, q)
  {
    var x :| Related(p, x) && (See(m.before, x) != See(m.live, x) || x in m.protected);
    if x <= p { PrefixesNest(x, q, p); }
    assert Related(q, x);
  }

  lemma BlockedItemMeans(m: Inputs, q: Path)
    ensures q in m.BlockedItems() <==>
      q != [] && q[|q| - 1].Item? && Dropped(m, q) && Present(m.live, q) && Disturbed(m, q)
  {
    hide Compare, Contains, Overlaps;
    TouchedMeans(m, q);
    CompareAt(m.before, m.desired, q);
    if q != [] { FieldSetContains(m.live, q); }
  }

  lemma KeptMeans(m: Inputs, p: Path)
    ensures m.Kept(p) <==> Disturbed(m, p) || InDisturbedItem(m, p)
  {
    hide Inputs.Touched, Inputs.BlockedItems, Inputs.External, Disturbed;
    TouchedMeans(m, p);
    if Overlaps(m.BlockedItems(), p) {
      var q :| q in m.BlockedItems() && (q <= p || p <= q);
      BlockedItemMeans(m, q);
      if !(q <= p) { DisturbedAbove(m, q, p); }
    }
    if InDisturbedItem(m, p) {
      var q :| q != [] && q <= p && q[|q| - 1].Item? && Dropped(m, q) && Present(m.live, q) && Disturbed(m, q);
      BlockedItemMeans(m, q);
    }
  }

  lemma ClashMeans(m: Inputs, p: Path)
    requires m.Valid()
    ensures p in m.BlockedWrites() <==> Clash(m, p)
  {
    RootIsNeverListed(m);
    CompareAt(m.before, m.desired, p);
    CompareAt(m.before, m.live, p);
    CompareAt(m.live, m.desired, p);
    if p != [] { FieldSetContains(m.live, p); }
    if Clash(m, p) {
      TypeOfPresent(m.desired, m.schema, p);
      assert p in m.External() && p in Compare(m.live, m.desired).All() && p <= p;
    }
    if p in m.BlockedWrites() {
      TypeOfPresent(m.desired, m.schema, p);
      TypeOfPresent(m.live, m.schema, p);
      AtomicDiffers(m.before, m.live, m.schema, p, Compare(m.before, m.live).All());
      AtomicDiffers(m.live, m.desired, m.schema, p, Compare(m.live, m.desired).All());
    }
  }

  /** Documents that differ at, above or below an atomic leaf of the second differ at the leaf. */
  lemma AtomicDiffers(a: Tree, b: Tree, s: Schema, p: Path, paths: set<Path>)
    requires Conforms(a, s) && Conforms(b, s) && Present(b, p) && See(b, p).value.LeafAt?
    requires paths == Compare(a, b).All() && Overlaps(paths, p)
    ensures See(a, p) != See(b, p)
  {
    var q :| q in paths && (q <= p || p <= q);
    CompareAt(a, b, q);
    if See(a, p) == See(b, p) && q != p {
      if q <= p { PrefixIsContainer(a, q, p); PrefixIsContainer(b, q, p); }
      else if Present(a, q) { PrefixIsContainer(a, p, q); }
      else { PrefixIsContainer(b, p, q); }
    }
  }

  // ---- The retained paths ----------------------------------------------------------------

  /**
    A path is retained if and only if the new intent drops it, live still has it, and it is disturbed or lies in a disturbed
    item; or if it is an atomic value both sides changed.
   */
  lemma RetainedMeans(m: Inputs, p: Path)
    requires m.Valid()
    ensures p in m.Retained() <==>
      (Dropped(m, p) && Present(m.live, p) && (Disturbed(m, p) || InDisturbedItem(m, p))) || Clash(m, p)
  {
    hide Inputs.Kept, Compare, Contains, Disturbed, InDisturbedItem, Clash, Inputs.BlockedWrites;
    KeptMeans(m, p);
    ClashMeans(m, p);
    CompareAt(m.before, m.desired, p);
    if p != [] { FieldSetContains(m.live, p); }
  }

  // ---- The merged document ---------------------------------------------------------------

  lemma DeletedMeans(m: Inputs, p: Path)
    requires m.Valid()
    ensures p in m.Deletions() <==> Dropped(m, p) && Present(m.live, p) && !Disturbed(m, p) && !InDisturbedItem(m, p)
  {
    hide Inputs.Kept, Compare, Contains, Disturbed, InDisturbedItem;
    KeptMeans(m, p);
    CompareAt(m.before, m.desired, p);
    if p != [] { FieldSetContains(m.live, p); }
  }

  /** Live paths of the last intent are deleted one by one; nothing below a deleted path stays, and nothing else goes. */
  lemma CoveredMeans(m: Inputs, p: Path)
    requires m.Valid() && Present(m.live, p)
    ensures Covers(m.Deletions(), p) <==> Dropped(m, p) && !Disturbed(m, p) && !InDisturbedItem(m, p)
  {
    hide Inputs.Deletions, Disturbed, InDisturbedItem;
    if Covers(m.Deletions(), p) {
      var q :| q in m.Deletions() && q != [] && q <= p;
      DeletedMeans(m, q);
      if Disturbed(m, p) { DisturbedAbove(m, p, q); }
      UndisturbedIsSame(m, p, q);
      if Present(m.desired, p) { PrefixIsPresent(m.desired, q, p); }
      NotInItemBelow(m, p, q);
    }
    if Dropped(m, p) && !Disturbed(m, p) && !InDisturbedItem(m, p) {
      DeletedMeans(m, p);
      assert p <= p;
    }
  }

  lemma UndisturbedIsSame(m: Inputs, p: Path, q: Path)
    requires q <= p && !Disturbed(m, q)
    ensures See(m.before, p) == See(m.live, p)
  {
    assert Related(q, p);
  }

  lemma NotInItemBelow(m: Inputs, p: Path, q: Path)
    requires q <= p && !Disturbed(m, q) && !InDisturbedItem(m, q)
    ensures !InDisturbedItem(m, p)
  {
    hide Disturbed;
    if r :| r != [] && r <= p && r[|r| - 1].Item? && Dropped(m, r) && Present(m.live, r) && Disturbed(m, r) {
      PrefixesNest(q, r, p);
      if q <= r { DisturbedAbove(m, r, q); }
    }
  }

  /** The merged document shows the new intent at everything it writes, unless atomic values clash. */
  lemma WrittenShows(m: Inputs, p: Path)
    requires m.Valid() && Written(m, p)
    ensures See(m.Merged(), p) == if Clash(m, p) then See(m.live, p) else See(m.desired, p)
  {
    hide Clash, Inputs.BlockedWrites, Compare;
    ClashMeans(m, p);
    CompareAt(m.before, m.desired, p);
    if Clash(m, p) { ClashShows(m, p); } else { WrittenConverges(m, p); }
  }

  lemma ClashShows(m: Inputs, p: Path)
    requires m.Valid() && Clash(m, p)
    ensures See(m.Merged(), p) == See(m.live, p)
  {
    TypeOfPresent(m.desired, m.schema, p);
    CompareAt(m.before, m.desired, p);
    CompareAt(m.before, m.live, p);
    AtomicConflictKeepsLive(m, p);
  }

  /** Something is written at or below the path. */
  ghost predicate WrittenBelow(m: Inputs, p: Path) { exists q :: p <= q && Written(m, q) }

  /** Where both intents agree, live decides, but for containers that live lacks and something is written into. */
  lemma UnwrittenShows(m: Inputs, p: Path)
    requires m.Valid() && Present(m.desired, p) && !Written(m, p)
    ensures See(m.Merged(), p) == if See(m.live, p).None? && WrittenBelow(m, p) then Some(ContainerAt) else See(m.live, p)
  {
    RootIsNeverListed(m);
    MergedAt(m, p);
    ConformingIsCompatible(m.live, m.desired, m.schema);
    forall q | q in m.Deletions() ensures !(q <= p) {
      DeletionsAreUntouched(m, q);
      if q <= p { PrefixIsPresent(m.desired, q, p); }
    }
    if Overlaps(m.Patch(), p) {
      PatchReaches(m, p);
      var q :| q in m.Patch() && p <= q;
      CompareAt(m.before, m.desired, q);
      assert Written(m, q) && q != p;
      PrefixIsContainer(m.desired, p, q);
    }
    if See(m.live, p).None? && WrittenBelow(m, p) { PatchBelow(m, p); }
  }

  /** Below a path that live lacks, nothing clashes, so what is written there is patched in. */
  lemma PatchBelow(m: Inputs, p: Path)
    requires m.Valid() && WrittenBelow(m, p) && !Present(m.live, p) && Present(m.desired, p) && !Written(m, p)
    ensures p == [] || Overlaps(m.Patch(), p)
    ensures See(m.desired, p) == Some(ContainerAt)
  {
    var w :| p <= w && Written(m, w);
    CompareAt(m.before, m.desired, w);
    PrefixIsContainer(m.desired, p, w);
    var q := Deepest(m.Writes(), w);
    CompareAt(m.before, m.desired, q);
    if Covers(m.BlockedWrites(), q) {
      var r :| r in m.BlockedWrites() && r != [] && r <= q;
      BlockedCoversItself(m, r, q);
      ClashMeans(m, q);
      assert p <= q;
      PrefixIsPresent(m.live, p, q);
    }
    assert q in m.Patch() && p <= q;
  }

  /** The paths that the new intent does not have. */
  lemma AbsentShows(m: Inputs, p: Path)
    requires m.Valid() && !Present(m.desired, p)
    ensures See(m.Merged(), p) ==
      if Dropped(m, p) && !Disturbed(m, p) && !InDisturbedItem(m, p) then None else See(m.live, p)
  {
    hide Inputs.Deletions, Disturbed, InDisturbedItem;
    MergedAt(m, p);
    if Present(m.live, p) { CoveredMeans(m, p); }
  }

  /**
    The merged document, path by path. A path of the new intent shows the new intent where it writes, but for clashes, and
    live where it does not; any other path shows live, unless the intent dropped it and nobody else has a hand in it.
   */
  lemma MergedMeans(m: Inputs, p: Path)
    requires m.Valid()
    ensures See(m.Merged(), p) ==
      if Written(m, p) then (if Clash(m, p) then See(m.live, p) else See(m.desired, p))
      else if Present(m.desired, p) then
        (if See(m.live, p).None? && WrittenBelow(m, p) then Some(ContainerAt) else See(m.live, p))
      else if Dropped(m, p) && !Disturbed(m, p) && !InDisturbedItem(m, p) then None
      else See(m.live, p)
  {
    hide Written, Clash, WrittenBelow, Disturbed, InDisturbedItem, Inputs.Merged;
    if Written(m, p) {
      WrittenShows(m, p);
    } else if Present(m.desired, p) {
      UnwrittenShows(m, p);
    } else {
      AbsentShows(m, p);
    }
  }

  /** A scalar that the new intent writes shows the new intent, whatever live holds. */
  lemma WrittenScalarWins(m: Inputs, p: Path)
    requires m.Valid() && Written(m, p) && See(m.desired, p).value.LeafAt? && See(m.desired, p).value.value.Scalar?
    ensures See(m.Merged(), p) == See(m.desired, p)
  {
    WrittenShows(m, p);
  }
}
