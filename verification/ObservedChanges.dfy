/** applyObservedSpecChanges: the delta between two actual specs, overlaid on the desired spec. */
module ObservedChanges {
  import opened Options
  import opened FieldTrie
  import opened Trees
  import opened IntentMerge

  function Changed(before: Tree, after: Tree): set<Path> {
    Compare(before, after).added + Compare(before, after).modified
  }

  function Observe(before: Tree, after: Tree, desired: Tree): Tree {
    Merge(Remove(desired, Compare(before, after).removed), Extract(after, Leaves(Changed(before, after))))
  }

  ghost predicate Valid(before: Tree, after: Tree, desired: Tree, schema: Schema) {
    schema.MapType? && Conforms(before, schema) && Conforms(after, schema) && Conforms(desired, schema)
  }

  /** The leaves extracted for the overlay reach exactly the nodes at or above a changed path. */
  lemma OverlayReaches(before: Tree, after: Tree, desired: Tree, schema: Schema, p: Path)
    requires Valid(before, after, desired, schema) && Present(after, p)
    ensures Overlaps(Leaves(Changed(before, after)), p) <==> Contains(Changed(before, after), p)
  {
    var m := Inputs(before, desired, after, schema, {});
    assert m.Writes() == Changed(before, after);
    if q :| q in Leaves(m.Writes()) && (q <= p || p <= q) {
      if !(p <= q) { WrittenContainerIsNoLeaf(m, q, p); }
    }
    if q :| q in m.Writes() && p <= q {
      var r := Deepest(m.Writes(), q);
      assert r[..|p|] == p;
    }
  }

  /**
    The result, path by path: what changed, and the containers above it, show the later actual spec; what is at
    or below a removed path is absent; everything else shows the desired spec.
   */
  lemma ObservedAt(before: Tree, after: Tree, desired: Tree, schema: Schema, p: Path)
    requires Valid(before, after, desired, schema)
    ensures See(Observe(before, after, desired), p) ==
      if Present(after, p) && Contains(Changed(before, after), p) then See(after, p)
      else if Covers(Compare(before, after).removed, p) then None
      else See(desired, p)
  {
    var paths := Leaves(Changed(before, after));
    var left, right := Remove(desired, Compare(before, after).removed), Extract(after, paths);
    CompareAt(before, after, []);
    ConformingIsCompatible(desired, after, schema);
    forall q | Present(left, q) && Present(right, q) ensures SameKind(See(left, q).value, See(right, q).value) {
      SeeRemove(desired, Compare(before, after).removed, q);
      SeeExtract(after, paths, q);
    }
    SeeMerge(left, right, p);
    SeeRemove(desired, Compare(before, after).removed, p);
    SeeExtract(after, paths, p);
    if Present(after, p) { OverlayReaches(before, after, desired, schema, p); }
  }

  /** No observed change leaves the desired spec as it is. */
  lemma NothingObserved(actual: Tree, desired: Tree, schema: Schema)
    requires Valid(actual, actual, desired, schema)
    ensures Observe(actual, actual, desired) == desired
  {
    forall p ensures p !in Compare(actual, actual).All() { CompareAt(actual, actual, p); }
    forall p ensures See(Observe(actual, actual, desired), p) == See(desired, p) { ObservedAt(actual, actual, desired, schema, p); }
    SameSightsSameTree(Observe(actual, actual, desired), desired);
  }

  /** A desired spec equal to the earlier actual spec becomes the later one. */
  lemma DesiredWasActual(before: Tree, after: Tree, schema: Schema)
    requires Valid(before, after, before, schema)
    ensures Observe(before, after, before) == after
  {
    forall p ensures See(Observe(before, after, before), p) == See(after, p) {
      ObservedAt(before, after, before, schema, p);
      CompareAt(before, after, p);
      assert p <= p;
      forall q | q in Compare(before, after).removed && q <= p ensures !Present(after, p) {
        CompareAt(before, after, q);
        if Present(after, p) { PrefixIsPresent(after, q, p); }
      }
    }
    SameSightsSameTree(Observe(before, after, before), after);
  }

  /** A changed path shows the later actual value, a removed one is gone, whatever the desired spec says. */
  lemma ChangeIsAdopted(before: Tree, after: Tree, desired: Tree, schema: Schema, p: Path)
    requires Valid(before, after, desired, schema) && p in Compare(before, after).All()
    ensures See(Observe(before, after, desired), p) == See(after, p)
  {
    ObservedAt(before, after, desired, schema, p);
    CompareAt(before, after, p);
    CompareAt(before, after, []);
    assert p <= p;
  }

  /** A leaf both actual specs show alike, or neither shows, keeps the desired value unless an ancestor was removed. */
  lemma UnchangedKeepsDesired(before: Tree, after: Tree, desired: Tree, schema: Schema, p: Path)
    requires Valid(before, after, desired, schema) && p !in Compare(before, after).All()
    requires Present(desired, p) && See(desired, p).value.LeafAt?
    ensures See(Observe(before, after, desired), p) ==
      if exists q :: q in Compare(before, after).removed && q <= p then None else See(desired, p)
  {
    ObservedAt(before, after, desired, schema, p);
    CompareAt(before, after, []);
    if Present(after, p) && Contains(Changed(before, after), p) {
      ConformingIsCompatible(desired, after, schema);
      var q :| q in Changed(before, after) && p <= q;
      CompareAt(before, after, q);
      if p != q { PrefixIsContainer(after, p, q); }
    }
  }

  /** The adopted spec conforms to the schema. */
  lemma ObservedConforms(before: Tree, after: Tree, desired: Tree, schema: Schema)
    requires Valid(before, after, desired, schema)
    ensures Conforms(Observe(before, after, desired), schema)
  {
    var removed, changed := Compare(before, after).removed, Leaves(Changed(before, after));
    RemoveConforms(desired, removed, schema);
    ExtractConforms(after, changed, schema);
    MergeConforms(Remove(desired, removed), Extract(after, changed), schema);
  }

  /** Adopting the same delta again changes nothing. */
  lemma ObserveTwice(before: Tree, after: Tree, desired: Tree, schema: Schema)
    requires Valid(before, after, desired, schema)
    ensures Observe(before, after, Observe(before, after, desired)) == Observe(before, after, desired)
  {
    var once := Observe(before, after, desired);
    ObservedConforms(before, after, desired, schema);
    forall p ensures See(Observe(before, after, once), p) == See(once, p) {
      ObservedAt(before, after, desired, schema, p);
      ObservedAt(before, after, once, schema, p);
    }
    SameSightsSameTree(Observe(before, after, once), once);
  }
}
