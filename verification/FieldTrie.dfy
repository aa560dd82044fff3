/** Field paths, and the trie in which structured-merge-diff keeps a set of them. */
module FieldTrie {
  import opened Options

  /** One path element: a map field, a keyed list item, a set member or a list position. */
  datatype Elem = Field(name: string) | Item(key: seq<(string, string)>) | Member(value: string) | Index(i: nat)

  type Path = seq<Elem>

  /** Some member of the set is a prefix of the path, or extends it. */
  predicate Overlaps(paths: set<Path>, p: Path) {
    exists q :: q in paths && (q <= p || p <= q)
  }

  /** The path, or an extension of it, is a member of the set. */
  predicate Contains(paths: set<Path>, p: Path) {
    exists q :: q in paths && p <= q
  }

  datatype Trie = Trie(members: set<Elem>, children: map<Elem, Trie>)

  /** The set of paths a trie stands for; child nodes may be empty, and the empty path is never a member. */
  function Paths(t: Trie): set<Path> {
    (set e | e in t.members :: [e]) + (set e, q | e in t.children && q in Paths(t.children[e]) :: [e] + q)
  }

  predicate Empty(t: Trie) {
    t.members == {} && forall e :: e in t.children ==> Empty(t.children[e])
  }

  lemma {:induction false} EmptyMeansNoPath(t: Trie)
    ensures Empty(t) <==> Paths(t) == {}
    decreases t
  {
    forall e | e in t.children ensures Empty(t.children[e]) <==> Paths(t.children[e]) == {} { EmptyMeansNoPath(t.children[e]); }
    if Empty(t) {
      assert forall p :: p !in Paths(t);
    } else if t.members != {} {
      var e :| e in t.members;
      assert [e] in Paths(t);
    } else {
      var e :| e in t.children && !Empty(t.children[e]);
      var q :| q in Paths(t.children[e]);
      assert [e] + q in Paths(t);
    }
  }

  lemma InPaths(t: Trie, q: Path)
    ensures q in Paths(t) <==>
      q != [] && ((|q| == 1 && q[0] in t.members) || (q[0] in t.children && q[1..] in Paths(t.children[q[0]])))
  {
    if q != [] {
      assert q == [q[0]] + q[1..];
      if |q| == 1 { assert q == [q[0]]; }
    }
  }

  /** One step down the trie, for each question. */
  lemma DescendOverlaps(t: Trie, p: Path)
    requires p != []
    ensures Overlaps(Paths(t), p) <==> (p[0] in t.members || (p[0] in t.children && Overlaps(Paths(t.children[p[0]]), p[1..])))
  {
    var e := p[0];
    if Overlaps(Paths(t), p) {
      var q :| q in Paths(t) && (q <= p || p <= q);
      InPaths(t, q);
      assert q[0] == e;
      if e !in t.members { assert q[1..] in Paths(t.children[e]) && (q[1..] <= p[1..] || p[1..] <= q[1..]); }
    }
    if e in t.members { InPaths(t, [e]); assert [e] <= p; }
    if e in t.children { DescendInto(t, p); }
  }

  lemma DescendContains(t: Trie, p: Path)
    requires p != []
    ensures Contains(Paths(t), p) <==>
      ((|p| == 1 && p[0] in t.members) || (p[0] in t.children && Contains(Paths(t.children[p[0]]), p[1..])))
  {
    var e := p[0];
    if Contains(Paths(t), p) {
      var q :| q in Paths(t) && p <= q;
      InPaths(t, q);
      assert q[0] == e && p[1..] <= q[1..];
    }
    if |p| == 1 && e in t.members { InPaths(t, [e]); assert p <= [e]; }
    if e in t.children { DescendInto(t, p); }
  }

  lemma DescendInto(t: Trie, p: Path)
    requires p != [] && p[0] in t.children
    ensures Overlaps(Paths(t.children[p[0]]), p[1..]) ==> Overlaps(Paths(t), p)
    ensures Contains(Paths(t.children[p[0]]), p[1..]) ==> Contains(Paths(t), p)
  {
    var e := p[0];
    assert p == [e] + p[1..];
    forall r | r in Paths(t.children[e]) ensures [e] + r in Paths(t) {}
    if Overlaps(Paths(t.children[e]), p[1..]) {
      var r :| r in Paths(t.children[e]) && (r <= p[1..] || p[1..] <= r);
      assert [e] + r <= p || p <= [e] + r;
    }
    if Contains(Paths(t.children[e]), p[1..]) {
      var r :| r in Paths(t.children[e]) && p[1..] <= r;
      assert p <= [e] + r;
    }
  }

  /** At the end of the path every member below it answers both questions. */
  lemma EndOfPath(t: Trie)
    ensures Overlaps(Paths(t), []) <==> !Empty(t)
    ensures Contains(Paths(t), []) <==> !Empty(t)
  {
    EmptyMeansNoPath(t);
    if Paths(t) != {} {
      var q :| q in Paths(t);
      assert [] <= q;
    }
  }

  /** intentPathsOverlap: the walk answers exactly whether a member is a prefix of the path or extends it. */
  method PathsOverlap(paths: Option<Trie>, path: Path) returns (r: bool)
    ensures r <==> paths.Some? && Overlaps(Paths(paths.value), path)
  {
    if paths.None? { return false; }
    var node := paths.value;
    for i := 0 to |path|
      invariant Overlaps(Paths(paths.value), path) <==> Overlaps(Paths(node), path[i..])
    {
      DescendOverlaps(node, path[i..]);
      assert path[i..][1..] == path[i + 1..];
      if path[i] in node.members { return true; }
      if path[i] !in node.children { return false; }
      node := node.children[path[i]];
    }
    EndOfPath(node);
    assert path[|path|..] == [];
    return !Empty(node);
  }

  /** intentContainsPath: the walk answers exactly whether the path or an extension of it is a member. */
  method ContainsPath(paths: Option<Trie>, path: Path) returns (r: bool)
    ensures r <==> paths.Some? && Contains(Paths(paths.value), path)
  {
    if paths.None? { return false; }
    var node := paths.value;
    for i := 0 to |path|
      invariant Contains(Paths(paths.value), path) <==> Contains(Paths(node), path[i..])
    {
      DescendContains(node, path[i..]);
      assert path[i..][1..] == path[i + 1..];
      if i == |path| - 1 && path[i] in node.members { return true; }
      if path[i] !in node.children { return false; }
      node := node.children[path[i]];
    }
    EndOfPath(node);
    assert path[|path|..] == [];
    return !Empty(node);
  }
}
