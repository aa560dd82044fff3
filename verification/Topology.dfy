/** intentMergeTopologyHash: the types reachable from the root of a possibly cyclic merge topology. */
module Topology {
  import opened Options

  /** A type: a map of fields with an element type for the rest, a list, both or neither; `own` is everything else. */
  datatype Atom = Atom(fields: seq<Field>, rest: Option<Ref>, item: Option<Ref>, own: string)
  datatype Field = Field(name: string, ref: Ref)
  datatype Ref = Named(name: string) | Inlined(atom: Atom)

  type Types = map<string, Atom>

  // ---- Reachable names --------------------------------------------------------

  /** The names an atom mentions, through inlined atoms. */
  function Names(a: Atom): set<string>
    decreases a, 0
  {
    FieldNames(a.fields)
      + (if a.rest.Some? then RefNames(a.rest.value) else {}) + (if a.item.Some? then RefNames(a.item.value) else {})
  }

  function FieldNames(fields: seq<Field>): set<string>
    decreases fields
  {
    set f, n | f in fields && n in RefNames(f.ref) :: n
  }

  function RefNames(r: Ref): set<string>
    decreases r, 1
  {
    if r.Named? then {r.name} else Names(r.atom)
  }

  /** A reference mentions a name by itself, or through the atom it inlines. */
  predicate Mentions(r: Option<Ref>, name: string) {
    match r
    case Some(Named(n)) => n == name
    case Some(Inlined(b)) => name in Names(b)
    case None => false
  }

  /** An atom mentions exactly what its fields, its element type for the rest, and its item type mention. */
  lemma NamesMean(a: Atom, name: string)
    ensures name in Names(a) <==> Mentions(a.rest, name) || Mentions(a.item, name) || exists f :: f in a.fields && Mentions(Some(f.ref), name)
  {
    forall r: Ref ensures Mentions(Some(r), name) <==> name in RefNames(r) { RefMentions(r, name); }
  }

  lemma RefMentions(r: Ref, name: string)
    ensures Mentions(Some(r), name) <==> name in RefNames(r)
  {
  }

  /** A chain of names, each mentioned by the definition of the one before. */
  ghost predicate Chain(types: Types, p: seq<string>) {
    p != [] && forall i :: 0 <= i < |p| - 1 ==> p[i] in types && p[i + 1] in Names(types[p[i]])
  }

  ghost predicate Reaches(types: Types, root: string, name: string) {
    exists p :: Chain(types, p) && p[0] == root && p[|p| - 1] == name
  }

  lemma ReachesItself(types: Types, root: string)
    ensures Reaches(types, root, root)
  {
    assert Chain(types, [root]);
  }

  lemma ReachesThrough(types: Types, root: string, mid: string, name: string)
    requires root in types && mid in Names(types[root]) && Reaches(types, mid, name)
    ensures Reaches(types, root, name)
  {
    hide Names;
    var p :| Chain(types, p) && p[0] == mid && p[|p| - 1] == name;
    var q := [root] + p;
    forall i | 0 <= i < |q| - 1 ensures q[i] in types && q[i + 1] in Names(types[q[i]]) {
      if i > 0 { assert q[i] == p[i - 1] && q[i + 1] == p[i]; }
    }
    assert Chain(types, q);
  }

  /** A set of names that contains the root and everything its members mention contains all reachable names. */
  lemma {:induction false} ClosedContains(types: Types, names: set<string>, p: seq<string>)
    requires Chain(types, p) && p[0] in names
    requires forall n :: n in names && n in types ==> Names(types[n]) <= names
    ensures p[|p| - 1] in names
    decreases |p|
  {
    if |p| > 1 {
      assert Chain(types, p[1..]) by { assert forall i :: 0 <= i < |p| - 1 ==> p[1..][i] == p[i + 1]; }
      ClosedContains(types, names, p[1..]);
    }
  }

  /** The definitions of the reachable names. */
  ghost function Closure(types: Types, root: string): Types {
    map n | n in types && Reaches(types, root, n) :: types[n]
  }

  ghost predicate Complete(types: Types, root: string) {
    forall n :: Reaches(types, root, n) ==> n in types
  }

  // ---- The visitors -------------------------------------------------------------

  ghost predicate Within(closure: Types, types: Types) {
    forall n :: n in closure ==> n in types && closure[n] == types[n]
  }

  ghost predicate ReachesFrom(types: Types, from: set<string>, name: string) {
    exists r :: r in from && Reaches(types, r, name)
  }

  /** What one visit adds: members of the topology that are reachable from the start, and mention only visited names. */
  ghost predicate Grown(before: Types, after: Types, types: Types, from: set<string>, missing: Option<string>) {
    && Within(after, types)
    && before.Keys <= after.Keys
    && (forall n :: n in after && n !in before ==> ReachesFrom(types, from, n))
    && (missing.None? ==> from <= after.Keys && forall n :: n in after && n !in before ==> Names(types[n]) <= after.Keys)
    && (missing.Some? ==> missing.value !in types && ReachesFrom(types, from, missing.value))
  }

  lemma MoreReaches(types: Types, from: set<string>, more: set<string>)
    requires from <= more
    ensures forall n :: ReachesFrom(types, from, n) ==> ReachesFrom(types, more, n)
  {
    hide Reaches;
  }

  lemma GrownTwice(a: Types, b: Types, c: Types, types: Types, from: set<string>, more: set<string>, missing: Option<string>)
    requires Grown(a, b, types, from, None) && Grown(b, c, types, more, missing)
    ensures Grown(a, c, types, from + more, missing)
  {
    MoreReaches(types, from, from + more);
    MoreReaches(types, more, from + more);
    hide ReachesFrom, Names;
  }

  lemma GrownFromMore(a: Types, b: Types, types: Types, from: set<string>, more: set<string>, missing: string)
    requires Grown(a, b, types, from, Some(missing)) && from <= more
    ensures Grown(a, b, types, more, Some(missing))
  {
    MoreReaches(types, from, more);
    hide ReachesFrom, Names;
  }

  class Visitor {
    const types: Types
    var closure: Types

    constructor (types: Types)
      ensures this.types == types && closure == map[]
    {
      this.types, closure := types, map[];
    }

    /** Returns the missing type that stops the walk, if there is one. */
    method VisitRef(ref: Ref) returns (missing: Option<string>)
      requires Within(closure, types)
      modifies this`closure
      ensures Grown(old(closure), closure, types, RefNames(ref), missing)
      decreases types.Keys - closure.Keys, ref, 1
    {
      match ref
      case Named(name) => missing := VisitNamed(name);
      case Inlined(atom) => missing := VisitAtom(atom);
    }

    method VisitAtom(atom: Atom) returns (missing: Option<string>)
      requires Within(closure, types)
      modifies this`closure
      ensures Grown(old(closure), closure, types, Names(atom), missing)
      decreases types.Keys - closure.Keys, atom, 0
    {
      hide Grown, Within, ReachesFrom;
      ghost var before := closure;
      missing := VisitFields(atom.fields);
      ghost var seen := FieldNames(atom.fields);
      if missing.None? && atom.rest.Some? {
        ghost var now := closure;
        missing := VisitRef(atom.rest.value);
        GrownTwice(before, now, closure, types, seen, RefNames(atom.rest.value), missing);
        seen := seen + RefNames(atom.rest.value);
      }
      if missing.None? && atom.item.Some? {
        ghost var now := closure;
        missing := VisitRef(atom.item.value);
        GrownTwice(before, now, closure, types, seen, RefNames(atom.item.value), missing);
        seen := seen + RefNames(atom.item.value);
      }
      if missing.Some? {
        GrownFromMore(before, closure, types, seen, Names(atom), missing.value);
      } else {
        assert seen == Names(atom);
      }
    }

    method VisitFields(fields: seq<Field>) returns (missing: Option<string>)
      requires Within(closure, types)
      modifies this`closure
      ensures Grown(old(closure), closure, types, FieldNames(fields), missing)
      ensures Within(closure, types) && old(closure.Keys) <= closure.Keys
      decreases types.Keys - closure.Keys, fields
    {
      hide ReachesFrom, RefNames;
      ghost var before := closure;
      for i := 0 to |fields|
        invariant Grown(before, closure, types, FieldNames(fields[..i]), None)
      {
        ghost var now := closure;
        assert fields[..i + 1] == fields[..i] + [fields[i]];
        missing := VisitRef(fields[i].ref);
        GrownTwice(before, now, closure, types, FieldNames(fields[..i]), RefNames(fields[i].ref), missing);
        assert FieldNames(fields[..i + 1]) == FieldNames(fields[..i]) + RefNames(fields[i].ref);
        if missing.Some? {
          GrownFromMore(before, closure, types, FieldNames(fields[..i + 1]), FieldNames(fields), missing.value);
          return;
        }
      }
      assert fields[..|fields|] == fields;
      return None;
    }

    method VisitNamed(name: string) returns (missing: Option<string>)
      requires Within(closure, types)
      modifies this`closure
      ensures Grown(old(closure), closure, types, {name}, missing)
      decreases types.Keys - closure.Keys, Named(name), 0
    {
      ReachesItself(types, name);
      if name in closure { return None; }
      if name !in types { return Some(name); }
      assert name in types.Keys - closure.Keys;
      closure := closure[name := types[name]];
      ghost var before := closure;
      missing := VisitAtom(types[name]);
      forall n | ReachesFrom(types, Names(types[name]), n) ensures ReachesFrom(types, {name}, n) {
        var r :| r in Names(types[name]) && Reaches(types, r, n);
        ReachesThrough(types, name, r, n);
      }
    }
  }

  lemma GrownIsClosure(closure: Types, types: Types, root: string)
    requires Grown(map[], closure, types, {root}, None)
    ensures Complete(types, root) && closure == Closure(types, root)
  {
    hide Names;
    forall n | Reaches(types, root, n) ensures n in closure {
      var p :| Chain(types, p) && p[0] == root && p[|p| - 1] == n;
      ClosedContains(types, closure.Keys, p);
    }
  }

  datatype Outcome = Found(types: Types) | Missing(name: string)

  /** The walk ends on every topology. It fails exactly when a reachable name is undefined, and otherwise gives the closure. */
  method ReachableTypes(types: Types, root: string) returns (r: Outcome)
    ensures r.Found? <==> Complete(types, root)
    ensures r.Found? ==> r.types == Closure(types, root)
    ensures r.Missing? ==> r.name !in types && Reaches(types, root, r.name)
  {
    var visitor := new Visitor(types);
    var missing := visitor.VisitNamed(root);
    if missing.Some? { return Missing(missing.value); }
    GrownIsClosure(visitor.closure, types, root);
    return Found(visitor.closure);
  }

  // ---- When two topologies give the same closure --------------------------------

  ghost predicate AgreeOnReachable(t: Types, u: Types, root: string) {
    forall n :: Reaches(t, root, n) ==> (n in t <==> n in u) && (n in t && n in u ==> t[n] == u[n])
  }

  lemma {:induction false} SameChains(t: Types, u: Types, root: string, p: seq<string>)
    requires AgreeOnReachable(t, u, root) && Chain(t, p) && p[0] == root
    ensures Chain(u, p)
  {
    forall i | 0 <= i < |p| - 1 ensures p[i] in u && p[i + 1] in Names(u[p[i]]) {
      assert Chain(t, p[..i + 1]) && p[..i + 1][i] == p[i];
      assert Reaches(t, root, p[i]);
    }
  }

  lemma {:induction false} SameChainsBack(t: Types, u: Types, root: string, p: seq<string>)
    requires AgreeOnReachable(t, u, root) && Chain(u, p) && p[0] == root
    ensures Chain(t, p)
    decreases |p|
  {
    if |p| > 1 {
      var init := p[..|p| - 1];
      SameChainsBack(t, u, root, init);
      assert Reaches(t, root, init[|init| - 1]);
      assert forall i :: 0 <= i < |p| - 1 ==> init[i] == p[i];
    }
  }

  /** Two topologies have the same closure, and so the same hash, exactly when they agree on the reachable types. */
  lemma SameClosureIffAgree(t: Types, u: Types, root: string)
    requires Complete(t, root) && Complete(u, root)
    ensures Closure(t, root) == Closure(u, root) <==> AgreeOnReachable(t, u, root)
  {
    if AgreeOnReachable(t, u, root) {
      forall n ensures Reaches(t, root, n) <==> Reaches(u, root, n) {
        if Reaches(t, root, n) {
          var p :| Chain(t, p) && p[0] == root && p[|p| - 1] == n;
          SameChains(t, u, root, p);
        }
        if Reaches(u, root, n) {
          var p :| Chain(u, p) && p[0] == root && p[|p| - 1] == n;
          SameChainsBack(t, u, root, p);
        }
      }
      assert Closure(t, root) == Closure(u, root);
    }
    if Closure(t, root) == Closure(u, root) {
      forall n | Reaches(t, root, n) ensures n in t && n in u && t[n] == u[n] {
        assert n in Closure(t, root);
        assert n in Closure(u, root);
        assert Closure(t, root)[n] == Closure(u, root)[n];
      }
    }
  }
}
