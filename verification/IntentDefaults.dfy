/** API defaults carried into an intent: CarryResourceIntentDefaults and CaptureResourceIntentDefaults. */
module IntentDefaults {
  import opened Options
  import opened FieldTrie
  import opened Trees
  import opened IntentMerge

  predicate DeclaredItems(raw: Tree, p: Path) {
    forall i :: 0 <= i < |p| && p[i].Item? ==> Contains(FieldSet(raw), p[..i + 1])
  }

  predicate ThroughItem(p: Path) { exists i :: 0 <= i < |p| && p[i].Item? }

  /** Which candidate paths may be added to the effective intent. */
  predicate Included(raw: Tree, effective: Tree, p: Path) {
    && |p| >= 2
    && !Contains(FieldSet(effective), p)
    && Contains(FieldSet(effective), p[..|p| - 1])
    && IsContainer(effective, p[..|p| - 1])
    && ThroughItem(p)
    && DeclaredItems(raw, p)
  }

  predicate IsContainer(t: Tree, p: Path) {
    See(t, p) == Some(ContainerAt) || (See(t, p).Some? && See(t, p).value.LeafAt? && See(t, p).value.value.Atomic?)
  }

  /** intentConcreteParent, the walk to a map or list. */
  method ConcreteParent(t: Tree, path: Path) returns (r: bool)
    ensures r <==> IsContainer(t, path)
  {
    var current := t;
    for i := 0 to |path|
      invariant See(t, path) == See(current, path[i..])
    {
      assert path[i..][1..] == path[i + 1..];
      if current.Leaf? || path[i] !in current.kids { return false; }
      current := current.kids[path[i]];
    }
    assert path[|path|..] == [];
    return current.Node? || current.value.Atomic?;
  }

  /** The walk over the elements of one candidate. */
  method AuthorizedByItems(raw: Tree, p: Path) returns (r: bool)
    ensures r <==> ThroughItem(p) && DeclaredItems(raw, p)
  {
    hide FieldSet, Contains;
    var hasItem := false;
    for i := 0 to |p|
      invariant hasItem <==> exists k :: 0 <= k < i && p[k].Item?
      invariant forall k :: 0 <= k < i && p[k].Item? ==> Contains(FieldSet(raw), p[..k + 1])
    {
      if p[i].Item? {
        hasItem := true;
        if !Contains(FieldSet(raw), p[..i + 1]) { return false; }
      }
    }
    return hasItem;
  }

  function Include(raw: Tree, effective: Tree, candidates: set<Path>): set<Path> {
    set p | p in candidates && Included(raw, effective, p)
  }

  function Supplement(source: Tree, raw: Tree, effective: Tree, candidates: set<Path>): Tree {
    var chosen := Include(raw, effective, candidates);
    if chosen == {} then effective else Merge(effective, Extract(source, chosen))
  }

  /** supplementIntentDefaults */
  method SupplementIntentDefaults(source: Tree, raw: Tree, effective: Tree, candidates: set<Path>) returns (completed: Tree)
    ensures completed == Supplement(source, raw, effective, candidates)
  {
    hide IsContainer, Contains, FieldSet;
    var chosen: set<Path> := {};
    var todo := candidates;
    while todo != {}
      invariant todo <= candidates
      invariant forall p: Path :: p in chosen <==> p in Include(raw, effective, candidates) && p !in todo
      decreases todo
    {
      var p: Path :| p in todo;
      todo := todo - {p};
      if |p| >= 2 && !Contains(FieldSet(effective), p) && Contains(FieldSet(effective), p[..|p| - 1]) {
        var concrete := ConcreteParent(effective, p[..|p| - 1]);
        var authorized := AuthorizedByItems(raw, p);
        if concrete && authorized { chosen := chosen + {p}; }
      }
    }
    assert chosen == Include(raw, effective, candidates);
    if chosen == {} { return effective; }
    return Merge(effective, Extract(source, chosen));
  }

  /** The fields an API server added to a document. */
  function AddedLeaves(submitted: Tree, accepted: Tree): set<Path> { Leaves(Compare(submitted, accepted).added) }

  function Carry(rawBefore: Tree, effectiveBefore: Tree, desired: Tree): Tree {
    Supplement(effectiveBefore, desired, desired, AddedLeaves(rawBefore, effectiveBefore))
  }

  function Capture(raw: Tree, effective: Tree, submitted: Tree, accepted: Tree): Tree {
    Supplement(accepted, raw, effective, AddedLeaves(submitted, accepted))
  }

  /** A candidate is present in its source, and nothing present there extends it. */
  lemma CandidateIsDeepest(submitted: Tree, accepted: Tree, c: Path, p: Path)
    requires c in AddedLeaves(submitted, accepted)
    ensures Present(accepted, c) && !Present(submitted, c) && (c <= p && Present(accepted, p) ==> p == c)
  {
    CompareAt(submitted, accepted, c);
    CompareAt(submitted, accepted, p);
    if c <= p && Present(submitted, p) { PrefixIsPresent(submitted, c, p); }
  }

  lemma IncludedIsNew(raw: Tree, effective: Tree, candidates: set<Path>, c: Path, p: Path)
    requires c in Include(raw, effective, candidates)
    ensures c <= p ==> !Present(effective, p)
    ensures p <= c && p != c ==> Present(effective, p)
  {
    var n := |c| - 1;
    FieldSetContains(effective, c);
    FieldSetContains(effective, c[..n]);
    if c <= p && Present(effective, p) { PrefixIsPresent(effective, c, p); }
    if p <= c && p != c { assert p <= c[..n]; PrefixIsPresent(effective, p, c[..n]); }
  }

  lemma SupplementIsCompatible(submitted: Tree, accepted: Tree, raw: Tree, effective: Tree, schema: Schema)
    requires schema.MapType? && Conforms(accepted, schema) && Conforms(effective, schema)
    ensures Compatible(effective, Extract(accepted, Include(raw, effective, AddedLeaves(submitted, accepted))))
  {
    var chosen := Include(raw, effective, AddedLeaves(submitted, accepted));
    ConformingIsCompatible(effective, accepted, schema);
    forall q | Present(effective, q) && Present(Extract(accepted, chosen), q)
      ensures SameKind(See(effective, q).value, See(Extract(accepted, chosen), q).value)
    {
      SeeExtract(accepted, chosen, q);
    }
  }

  /**
    The completed intent shows exactly the effective intent plus the included candidates: no value of the intent is
    overridden, and nothing else is copied from the source.
   */
  lemma CapturedAt(submitted: Tree, accepted: Tree, raw: Tree, effective: Tree, schema: Schema, p: Path)
    requires schema.MapType? && Conforms(accepted, schema) && Conforms(effective, schema)
    ensures See(Capture(raw, effective, submitted, accepted), p) ==
      if Present(effective, p) then See(effective, p)
      else if p in Include(raw, effective, AddedLeaves(submitted, accepted)) then See(accepted, p)
      else None
  {
    var chosen := Include(raw, effective, AddedLeaves(submitted, accepted));
    if chosen != {} {
      SupplementIsCompatible(submitted, accepted, raw, effective, schema);
      SeeMerge(effective, Extract(accepted, chosen), p);
      SeeExtract(accepted, chosen, p);
      ExtractedIsCandidate(submitted, accepted, raw, effective, schema, p);
    }
  }

  lemma ExtractedIsCandidate(submitted: Tree, accepted: Tree, raw: Tree, effective: Tree, schema: Schema, p: Path)
    requires schema.MapType? && Conforms(accepted, schema) && Conforms(effective, schema)
    ensures var chosen := Include(raw, effective, AddedLeaves(submitted, accepted));
      Present(accepted, p) && Overlaps(chosen, p) ==>
        if Present(effective, p) then See(effective, p) == See(accepted, p) else p in chosen
  {
    hide Included, AddedLeaves, Conforms;
    var chosen := Include(raw, effective, AddedLeaves(submitted, accepted));
    if Present(accepted, p) && Overlaps(chosen, p) {
      var c :| c in chosen && (c <= p || p <= c);
      IncludedIsNew(raw, effective, AddedLeaves(submitted, accepted), c, p);
      CandidateIsDeepest(submitted, accepted, c, p);
      if Present(effective, p) {
        PrefixIsContainer(accepted, p, c);
        ConformingIsCompatible(effective, accepted, schema);
      }
    }
  }

  /**
    A default that belongs to the intent: the API added it to what was submitted, with nothing below it; the intent lacks it
    but has its parent, a container or an atomic value; and it lies in keyed items, all of which the raw intent declares.
   */
  ghost predicate IsDefault(submitted: Tree, accepted: Tree, raw: Tree, effective: Tree, p: Path) {
    && |p| >= 2 && Present(accepted, p) && !Present(submitted, p) && !Present(effective, p)
    && (forall q :: p <= q && Present(accepted, q) ==> q == p)
    && (match See(effective, p[..|p| - 1])
        case Some(ContainerAt) => true
        case Some(LeafAt(Atomic(_))) => true
        case _ => false)
    && (exists i :: 0 <= i < |p| && p[i].Item?)
    && (forall i :: 0 <= i < |p| && p[i].Item? ==> Present(raw, p[..i + 1]))
  }

  lemma CandidateMeans(submitted: Tree, accepted: Tree, p: Path)
    ensures p in AddedLeaves(submitted, accepted) <==>
      Present(accepted, p) && !Present(submitted, p) && forall q :: p <= q && Present(accepted, q) ==> q == p
  {
    CompareAt(submitted, accepted, p);
    if p in AddedLeaves(submitted, accepted) {
      forall q | p <= q && Present(accepted, q) ensures q == p { CandidateIsDeepest(submitted, accepted, p, q); }
    }
    forall q | q in Compare(submitted, accepted).added ensures Present(accepted, q) { CompareAt(submitted, accepted, q); }
  }

  lemma DeclaredMeans(raw: Tree, p: Path)
    ensures DeclaredItems(raw, p) <==> forall i :: 0 <= i < |p| && p[i].Item? ==> Present(raw, p[..i + 1])
  {
    hide Contains, FieldSet, See;
    forall i | 0 <= i < |p| && p[i].Item? ensures Contains(FieldSet(raw), p[..i + 1]) <==> Present(raw, p[..i + 1]) {
      FieldSetContains(raw, p[..i + 1]);
    }
  }

  lemma IncludedIs(raw: Tree, effective: Tree, p: Path)
    ensures Included(raw, effective, p) <==>
      && |p| >= 2 && !Present(effective, p)
      && (match See(effective, p[..|p| - 1])
          case Some(ContainerAt) => true
          case Some(LeafAt(Atomic(_))) => true
          case _ => false)
      && (exists i :: 0 <= i < |p| && p[i].Item?)
      && (forall i :: 0 <= i < |p| && p[i].Item? ==> Present(raw, p[..i + 1]))
  {
    hide Contains, FieldSet, DeclaredItems;
    DeclaredMeans(raw, p);
    if |p| >= 2 {
      FieldSetContains(effective, p);
      FieldSetContains(effective, p[..|p| - 1]);
    }
  }

  lemma IncludedMeans(submitted: Tree, accepted: Tree, raw: Tree, effective: Tree, p: Path)
    ensures p in Include(raw, effective, AddedLeaves(submitted, accepted)) <==> IsDefault(submitted, accepted, raw, effective, p)
  {
    hide AddedLeaves, Included, See, Include;
    CandidateMeans(submitted, accepted, p);
    IncludedIs(raw, effective, p);
    InInclude(raw, effective, AddedLeaves(submitted, accepted), p);
  }

  /** The completed intent is the effective one, plus exactly the defaults that belong to it, with the accepted values. */
  lemma CaptureMeans(submitted: Tree, accepted: Tree, raw: Tree, effective: Tree, schema: Schema, p: Path)
    requires schema.MapType? && Conforms(accepted, schema) && Conforms(effective, schema)
    ensures See(Capture(raw, effective, submitted, accepted), p) ==
      if IsDefault(submitted, accepted, raw, effective, p) then See(accepted, p) else See(effective, p)
  {
    hide Include, IsDefault, Capture;
    CapturedAt(submitted, accepted, raw, effective, schema, p);
    IncludedMeans(submitted, accepted, raw, effective, p);
    if IsDefault(submitted, accepted, raw, effective, p) { DefaultIsNew(submitted, accepted, raw, effective, p); }
  }

  lemma DefaultIsNew(submitted: Tree, accepted: Tree, raw: Tree, effective: Tree, p: Path)
    requires IsDefault(submitted, accepted, raw, effective, p)
    ensures !Present(effective, p)
  {
  }

  /** What is carried into the next intent: exactly the defaults captured before that belong to it, with their values. */
  lemma CarryMeans(rawBefore: Tree, effectiveBefore: Tree, desired: Tree, schema: Schema, p: Path)
    requires schema.MapType? && Conforms(effectiveBefore, schema) && Conforms(desired, schema)
    ensures See(Carry(rawBefore, effectiveBefore, desired), p) ==
      if IsDefault(rawBefore, effectiveBefore, desired, desired, p) then See(effectiveBefore, p) else See(desired, p)
  {
    CaptureMeans(rawBefore, effectiveBefore, desired, desired, schema, p);
  }

  /** Every added path was added by the API, below a container of the intent, inside items the raw intent declares. */
  lemma AddedDefaultsAreAuthorized(submitted: Tree, accepted: Tree, raw: Tree, effective: Tree, schema: Schema, p: Path)
    requires schema.MapType? && Conforms(accepted, schema) && Conforms(effective, schema)
    requires Present(Capture(raw, effective, submitted, accepted), p) && !Present(effective, p)
    ensures p in AddedLeaves(submitted, accepted) && |p| >= 2 && IsContainer(effective, p[..|p| - 1]) && ThroughItem(p)
    ensures forall i :: 0 <= i < |p| && p[i].Item? ==> Present(raw, p[..i + 1])
  {
    CapturedAt(submitted, accepted, raw, effective, schema, p);
    forall i | 0 <= i < |p| && p[i].Item? ensures Present(raw, p[..i + 1]) { FieldSetContains(raw, p[..i + 1]); }
  }

  /** Defaults are never carried into a keyed item, or below a parent, that the new intent removed. */
  lemma CarryRespectsRemoval(rawBefore: Tree, effectiveBefore: Tree, desired: Tree, schema: Schema, p: Path, i: nat)
    requires schema.MapType? && Conforms(effectiveBefore, schema) && Conforms(desired, schema)
    requires 1 <= i < |p| && !Present(desired, p[..i])
    ensures !Present(Carry(rawBefore, effectiveBefore, desired), p)
  {
    CapturedAt(rawBefore, effectiveBefore, desired, desired, schema, p);
    assert p[..i] <= p;
    if Present(desired, p) { PrefixIsPresent(desired, p[..i], p); }
    if p in Include(desired, desired, AddedLeaves(rawBefore, effectiveBefore)) {
      IncludedIsNew(desired, desired, AddedLeaves(rawBefore, effectiveBefore), p, p[..i]);
    }
  }

  lemma IncludedOnce(submitted: Tree, accepted: Tree, raw: Tree, effective: Tree, schema: Schema, c: Path)
    requires schema.MapType? && Conforms(accepted, schema) && Conforms(effective, schema)
    requires c in AddedLeaves(submitted, accepted)
    ensures !Included(raw, Capture(raw, effective, submitted, accepted), c)
  {
    hide Capture, Include, FieldSet, Contains, See, AddedLeaves, DeclaredItems, ThroughItem;
    var once := Capture(raw, effective, submitted, accepted);
    if Included(raw, once, c) {
      var parent := c[..|c| - 1];
      assert Present(once, parent) && !Present(once, c) by { FieldSetContains(once, c); }
      CapturedAt(submitted, accepted, raw, effective, schema, c);
      CapturedAt(submitted, accepted, raw, effective, schema, parent);
      CandidateIsDeepest(submitted, accepted, c, c);
      ParentIsOld(submitted, accepted, raw, effective, c);
      assert See(once, parent) == See(effective, parent);
      FieldSetContains(effective, c);
      FieldSetContains(effective, parent);
      assert Included(raw, effective, c);
      InInclude(raw, effective, AddedLeaves(submitted, accepted), c);
    }
  }

  lemma InInclude(raw: Tree, effective: Tree, candidates: set<Path>, c: Path)
    ensures c in Include(raw, effective, candidates) <==> c in candidates && Included(raw, effective, c)
  {
  }

  /** No candidate is the parent of another. */
  lemma ParentIsOld(submitted: Tree, accepted: Tree, raw: Tree, effective: Tree, c: Path)
    requires c in AddedLeaves(submitted, accepted) && c != []
    ensures c[..|c| - 1] !in Include(raw, effective, AddedLeaves(submitted, accepted))
  {
    hide Included, AddedLeaves;
    var parent := c[..|c| - 1];
    CandidateIsDeepest(submitted, accepted, c, c);
    if parent in AddedLeaves(submitted, accepted) { CandidateIsDeepest(submitted, accepted, parent, c); }
  }

  /** Supplementing a completed intent again adds nothing. */
  lemma CaptureTwice(submitted: Tree, accepted: Tree, raw: Tree, effective: Tree, schema: Schema)
    requires schema.MapType? && Conforms(accepted, schema) && Conforms(effective, schema)
    ensures var once := Capture(raw, effective, submitted, accepted); Capture(raw, once, submitted, accepted) == once
  {
    hide Included, AddedLeaves;
    var once := Capture(raw, effective, submitted, accepted);
    forall c | c in AddedLeaves(submitted, accepted) ensures !Included(raw, once, c) {
      IncludedOnce(submitted, accepted, raw, effective, schema, c);
    }
    assert Include(raw, once, AddedLeaves(submitted, accepted)) == {};
  }
}
