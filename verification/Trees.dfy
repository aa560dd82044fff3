/**
  Schema-typed documents and the four operations of structured-merge-diff that the
  intent merge composes: Compare, RemoveItems, ExtractItems and Merge.

  A document is a tree of granular containers; scalars and containers declared
  atomic are leaves. A keyed list item is reached through its key element, which
  stands for the key fields as well. Nulls are not modelled.
 */
module Trees {
  import opened Options
  import opened FieldTrie

  datatype Value = Scalar(text: string) | Atomic(text: string)
  datatype Tree = Leaf(value: Value) | Node(kids: map<Elem, Tree>)

  // ---- Schemas --------------------------------------------------------------

  datatype Schema =
    | ScalarType
    | AtomicType
    | MapType(fields: map<string, Schema>, rest: Option<Schema>)
    | ListType(item: Schema)

  /** The type behind one path element, if the schema can be traversed there. */
  function Step(s: Schema, e: Elem): Option<Schema> {
    if s.MapType? && e.Field? then (if e.name in s.fields then Some(s.fields[e.name]) else s.rest)
    else if s.ListType? && !e.Field? then Some(s.item)
    else None
  }

  ghost predicate Conforms(t: Tree, s: Schema) {
    match t
    case Leaf(Scalar(_)) => s.ScalarType?
    case Leaf(Atomic(_)) => s.AtomicType?
    case Node(kids) =>
      (s.MapType? || s.ListType?) && forall e :: e in kids ==> Step(s, e).Some? && Conforms(kids[e], Step(s, e).value)
  }

  // ---- Looking at a path ----------------------------------------------------

  /** What a document shows at a path: a leaf and its value, or a container. */
  datatype Sight = LeafAt(value: Value) | ContainerAt

  function See(t: Tree, p: Path): Option<Sight>
    decreases |p|
  {
    if p == [] then Some(if t.Leaf? then LeafAt(t.value) else ContainerAt)
    else if t.Node? && p[0] in t.kids then See(t.kids[p[0]], p[1..])
    else None
  }

  ghost predicate Present(t: Tree, p: Path) { See(t, p).Some? }

  function Nodes(t: Tree): set<Path> {
    {[]} + if t.Leaf? then {} else set e, q | e in t.kids && q in Nodes(t.kids[e]) :: [e] + q
  }

  lemma {:induction false} NodesArePresent(t: Tree, p: Path)
    ensures p in Nodes(t) <==> Present(t, p)
    decreases |p|
  {
    if p != [] {
      assert p == [p[0]] + p[1..];
      if t.Node? && p[0] in t.kids { NodesArePresent(t.kids[p[0]], p[1..]); }
    }
  }

  lemma {:induction false} PrefixIsContainer(t: Tree, q: Path, p: Path)
    requires q <= p && q != p && Present(t, p)
    ensures See(t, q) == Some(ContainerAt)
    decreases |p|
  {
    if q != [] { PrefixIsContainer(t.kids[p[0]], q[1..], p[1..]); }
  }

  lemma PrefixIsPresent(t: Tree, q: Path, p: Path)
    requires q <= p && Present(t, p)
    ensures Present(t, q)
  {
    if q != p { PrefixIsContainer(t, q, p); }
  }

  /** A tree is what it shows. */
  lemma {:induction false} SameSightsSameTree(a: Tree, b: Tree)
    requires forall p :: See(a, p) == See(b, p)
    ensures a == b
    decreases a
  {
    assert See(a, []) == See(b, []);
    if a.Node? {
      forall e ensures e in a.kids <==> e in b.kids {
        assert See(a, [e]) == See(b, [e]);
        assert [e][1..] == [];
      }
      forall e | e in a.kids ensures a.kids[e] == b.kids[e] {
        forall p ensures See(a.kids[e], p) == See(b.kids[e], p) {
          assert See(a, [e] + p) == See(b, [e] + p);
          assert ([e] + p)[1..] == p;
        }
        SameSightsSameTree(a.kids[e], b.kids[e]);
      }
      assert a.kids == b.kids;
    }
  }

  // ---- Compatible documents -------------------------------------------------

  ghost predicate SameKind(a: Sight, b: Sight) {
    (a.ContainerAt? && b.ContainerAt?) || (a.LeafAt? && b.LeafAt? && a.value.Atomic? == b.value.Atomic?)
  }

  /** Two documents agree on what kind of thing stands at every path both have. */
  ghost predicate Compatible(a: Tree, b: Tree) {
    forall p :: Present(a, p) && Present(b, p) ==> SameKind(See(a, p).value, See(b, p).value)
  }

  lemma {:induction false} ConformingAt(a: Tree, b: Tree, s: Schema, p: Path)
    requires Conforms(a, s) && Conforms(b, s) && Present(a, p) && Present(b, p)
    ensures SameKind(See(a, p).value, See(b, p).value)
    decreases |p|
  {
    if p != [] { ConformingAt(a.kids[p[0]], b.kids[p[0]], Step(s, p[0]).value, p[1..]); }
  }

  /** Documents of one schema are compatible. */
  lemma ConformingIsCompatible(a: Tree, b: Tree, s: Schema)
    requires Conforms(a, s) && Conforms(b, s)
    ensures Compatible(a, b)
  {
    forall p | Present(a, p) && Present(b, p) ensures SameKind(See(a, p).value, See(b, p).value) { ConformingAt(a, b, s, p); }
  }

  lemma CompatibleKids(a: Tree, b: Tree, e: Elem)
    requires Compatible(a, b) && a.Node? && b.Node? && e in a.kids && e in b.kids
    ensures Compatible(a.kids[e], b.kids[e])
  {
    forall p | Present(a.kids[e], p) && Present(b.kids[e], p)
      ensures SameKind(See(a.kids[e], p).value, See(b.kids[e], p).value)
    {
      assert ([e] + p)[1..] == p;
      assert Present(a, [e] + p) && Present(b, [e] + p);
    }
  }

  // ---- Compare --------------------------------------------------------------

  datatype Comparison = Comparison(added: set<Path>, modified: set<Path>, removed: set<Path>) {
    function All(): set<Path> { added + modified + removed }
  }

  /** Compare lists containers as well as their descendants; nothing is listed twice. */
  function Compare(a: Tree, b: Tree): Comparison {
    Comparison(
      set p | p in Nodes(b) && p !in Nodes(a),
      set p | p in Nodes(a) && p in Nodes(b) && See(a, p) != See(b, p),
      set p | p in Nodes(a) && p !in Nodes(b))
  }

  lemma CompareAt(a: Tree, b: Tree, p: Path)
    ensures p in Compare(a, b).added <==> (Present(b, p) && !Present(a, p))
    ensures p in Compare(a, b).removed <==> (Present(a, p) && !Present(b, p))
    ensures p in Compare(a, b).modified <==> (Present(a, p) && Present(b, p) && See(a, p) != See(b, p))
  {
    NodesArePresent(a, p);
    NodesArePresent(b, p);
  }

  /** The members of a path set that no other member extends. */
  function Leaves(paths: set<Path>): set<Path> {
    set p | p in paths && forall q :: q in paths && p <= q ==> q == p
  }

  /** The paths below one element. */
  function Below(paths: set<Path>, e: Elem): set<Path> {
    set p | p in paths && p != [] && p[0] == e :: p[1..]
  }

  lemma InBelow(paths: set<Path>, e: Elem, p: Path)
    ensures p in Below(paths, e) <==> [e] + p in paths
  {
    assert ([e] + p)[1..] == p;
    if p in Below(paths, e) {
      var q :| q in paths && q != [] && q[0] == e && q[1..] == p;
      assert q == [e] + p;
    }
  }

  // ---- RemoveItems ----------------------------------------------------------

  function Remove(t: Tree, paths: set<Path>): Tree {
    match t
    case Leaf(_) => t
    case Node(kids) => Node(map e | e in kids && [e] !in paths :: Remove(kids[e], Below(paths, e)))
  }

  /** Some member of the set other than the root is the path or a prefix of it. */
  predicate Covers(paths: set<Path>, p: Path) {
    exists q :: q in paths && q != [] && q <= p
  }

  lemma CoversBelow(paths: set<Path>, p: Path)
    requires p != []
    ensures Covers(paths, p) <==> ([p[0]] in paths || Covers(Below(paths, p[0]), p[1..]))
  {
    var e := p[0];
    if Covers(paths, p) {
      var q :| q in paths && q != [] && q <= p;
      if |q| == 1 { assert q == [e]; } else { InBelow(paths, e, q[1..]); assert q == [e] + q[1..] && q[1..] <= p[1..]; }
    }
    if [e] in paths { assert [e] <= p; }
    if Covers(Below(paths, e), p[1..]) {
      var r :| r in Below(paths, e) && r != [] && r <= p[1..];
      InBelow(paths, e, r);
      assert [e] + r <= p by { assert p == [e] + p[1..]; }
    }
  }

  lemma {:induction false} SeeRemove(t: Tree, paths: set<Path>, p: Path)
    ensures See(Remove(t, paths), p) == if Covers(paths, p) then None else See(t, p)
    decreases |p|
  {
    if p != [] {
      CoversBelow(paths, p);
      if t.Node? && p[0] in t.kids && [p[0]] !in paths { SeeRemove(t.kids[p[0]], Below(paths, p[0]), p[1..]); }
    }
  }

  // ---- ExtractItems ---------------------------------------------------------

  function Extract(t: Tree, paths: set<Path>): Tree {
    match t
    case Leaf(_) => t
    case Node(kids) =>
      Node(map e | e in kids && ([e] in paths || Below(paths, e) != {}) ::
             if [e] in paths then kids[e] else Extract(kids[e], Below(paths, e)))
  }

  lemma OverlapsBelow(paths: set<Path>, p: Path)
    requires p != [] && [] !in paths && [p[0]] !in paths
    ensures [] !in Below(paths, p[0])
    ensures Overlaps(paths, p) <==> Overlaps(Below(paths, p[0]), p[1..])
  {
    var e := p[0];
    InBelow(paths, e, []);
    assert [e] + [] == [e];
    if Overlaps(paths, p) {
      var q :| q in paths && (q <= p || p <= q);
      assert q[0] == e && q == [e] + q[1..];
      InBelow(paths, e, q[1..]);
      assert q[1..] <= p[1..] || p[1..] <= q[1..];
    }
    if Overlaps(Below(paths, e), p[1..]) {
      var r :| r in Below(paths, e) && (r <= p[1..] || p[1..] <= r);
      InBelow(paths, e, r);
      assert p == [e] + p[1..];
      assert [e] + r <= p || p <= [e] + r;
    }
  }

  lemma {:induction false} SeeExtract(t: Tree, paths: set<Path>, p: Path)
    requires [] !in paths
    ensures See(Extract(t, paths), p) == if p == [] || Overlaps(paths, p) then See(t, p) else None
    decreases |p|
  {
    if p != [] && t.Node? && p[0] in t.kids {
      var e := p[0];
      if [e] in paths {
        assert [e] <= p;
      } else {
        OverlapsBelow(paths, p);
        if Below(paths, e) != {} {
          SeeExtract(t.kids[e], Below(paths, e), p[1..]);
          if p[1..] == [] { var r :| r in Below(paths, e); assert p[1..] <= r; }
        }
      }
    }
  }

  // ---- Merge ----------------------------------------------------------------

  /** Overlay right on left: containers are merged, everything else is replaced. */
  function Merge(left: Tree, right: Tree): Tree {
    match (left, right)
    case (Node(l), Node(r)) =>
      Node(map e | e in l.Keys + r.Keys :: if e !in r then l[e] else if e !in l then r[e] else Merge(l[e], r[e]))
    case _ => right
  }

  lemma {:induction false} SeeMerge(left: Tree, right: Tree, p: Path)
    requires Compatible(left, right)
    ensures See(Merge(left, right), p) == if Present(right, p) then See(right, p) else See(left, p)
    decreases |p|
  {
    assert SameKind(See(left, []).value, See(right, []).value) by { assert Present(left, []) && Present(right, []); }
    if p != [] && left.Node? && p[0] in left.kids && p[0] in right.kids {
      CompatibleKids(left, right, p[0]);
      SeeMerge(left.kids[p[0]], right.kids[p[0]], p[1..]);
    }
  }

  // ---- The operations keep to the schema -------------------------------------

  lemma {:induction false} RemoveConforms(t: Tree, paths: set<Path>, s: Schema)
    requires Conforms(t, s)
    ensures Conforms(Remove(t, paths), s)
    decreases t
  {
    if t.Node? {
      forall e | e in t.kids ensures Conforms(Remove(t.kids[e], Below(paths, e)), Step(s, e).value) {
        RemoveConforms(t.kids[e], Below(paths, e), Step(s, e).value);
      }
    }
  }

  lemma {:induction false} ExtractConforms(t: Tree, paths: set<Path>, s: Schema)
    requires Conforms(t, s)
    ensures Conforms(Extract(t, paths), s)
    decreases t
  {
    if t.Node? {
      forall e | e in t.kids ensures Conforms(Extract(t.kids[e], Below(paths, e)), Step(s, e).value) {
        ExtractConforms(t.kids[e], Below(paths, e), Step(s, e).value);
      }
    }
  }

  lemma {:induction false} MergeConforms(left: Tree, right: Tree, s: Schema)
    requires Conforms(left, s) && Conforms(right, s)
    ensures Conforms(Merge(left, right), s)
    decreases left
  {
    if left.Node? && right.Node? {
      forall e | e in left.kids && e in right.kids ensures Conforms(Merge(left.kids[e], right.kids[e]), Step(s, e).value) {
        MergeConforms(left.kids[e], right.kids[e], Step(s, e).value);
      }
    }
  }
}
