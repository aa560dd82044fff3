/** The filtered override patch is a three-way merge of the base render, the adopted spec and the current render. */
module OverrideMerge {
  import opened Options
  import opened MergePatch

  predicate ThreeObjects(b: map<string, Json>, a: map<string, Json>, c: map<string, Json>, k: string) {
    IsObject(Get(b, k)) && IsObject(Get(a, k)) && IsObject(Get(c, k))
  }

  /** filterReconcileOverridePatch: keeps a patch entry where base and current agree, and descends into three objects. */
  function Filter(base: Json, current: Json, patch: Json): (r: Json)
    requires base.Object? && current.Object? && patch.Object?
    ensures r.Object?
    decreases patch
  {
    var b, c, p := base.fields, current.fields, patch.fields;
    Object(map k | k in p && (if ThreeObjects(b, p, c, k) then Filter(b[k], c[k], p[k]) != EMPTY else Get(b, k) == Get(c, k)) ::
             if ThreeObjects(b, p, c, k) then Filter(b[k], c[k], p[k]) else p[k])
  }

  /** The reference: descend where all three are objects; otherwise an unchanged base yields to the adopted value. */
  function Merge3(base: Json, adopted: Json, current: Json): (r: Json)
    requires base.Object? && adopted.Object? && current.Object?
    ensures r.Object?
    decreases adopted
  {
    var b, a, c := base.fields, adopted.fields, current.fields;
    Object(map k | k in a.Keys + c.Keys && (ThreeObjects(b, a, c, k) || Pick(Get(b, k), Get(a, k), Get(c, k)).Some?) ::
             if ThreeObjects(b, a, c, k) then Merge3(b[k], a[k], c[k]) else Pick(Get(b, k), Get(a, k), Get(c, k)).value)
  }

  function Pick(base: Option<Json>, adopted: Option<Json>, current: Option<Json>): Option<Json> {
    if base == current then adopted else current
  }

  lemma Merge3At(base: Json, adopted: Json, current: Json, k: string)
    requires base.Object? && adopted.Object? && current.Object?
    ensures var b, a, c := base.fields, adopted.fields, current.fields;
      Get(Merge3(base, adopted, current).fields, k) ==
        if ThreeObjects(b, a, c, k) then Some(Merge3(b[k], a[k], c[k])) else Pick(Get(b, k), Get(a, k), Get(c, k))
  {
  }

  // ---- Laws of the three-way merge ------------------------------------------

  /** An unchanged render keeps everything that was adopted. */
  lemma {:induction false} CurrentIsBase(base: Json, adopted: Json)
    requires base.Object? && adopted.Object?
    ensures Merge3(base, adopted, base) == adopted
    decreases adopted
  {
    forall k ensures Get(Merge3(base, adopted, base).fields, k) == Get(adopted.fields, k) {
      if ThreeObjects(base.fields, adopted.fields, base.fields, k) { CurrentIsBase(base.fields[k], adopted.fields[k]); }
    }
    SameFields(Merge3(base, adopted, base).fields, adopted.fields);
  }

  /** Nothing adopted leaves the current render alone. */
  lemma {:induction false} AdoptedIsBase(base: Json, current: Json)
    requires base.Object? && current.Object?
    ensures Merge3(base, base, current) == current
    decreases base
  {
    forall k ensures Get(Merge3(base, base, current).fields, k) == Get(current.fields, k) {
      if ThreeObjects(base.fields, base.fields, current.fields, k) { AdoptedIsBase(base.fields[k], current.fields[k]); }
    }
    SameFields(Merge3(base, base, current).fields, current.fields);
  }

  /** Neither side, at any depth, changed what the other changed differently. */
  predicate ConflictFree(base: Json, adopted: Json, current: Json)
    requires base.Object? && adopted.Object? && current.Object?
    decreases adopted
  {
    var b, a, c := base.fields, adopted.fields, current.fields;
    forall k :: k in b.Keys + a.Keys + c.Keys ==>
      if ThreeObjects(b, a, c, k) then ConflictFree(b[k], a[k], c[k])
      else Get(b, k) == Get(a, k) || Get(b, k) == Get(c, k) || Get(a, k) == Get(c, k)
  }

  /** The two sides may be swapped exactly when their changes do not conflict. */
  lemma {:induction false} SwapIffConflictFree(base: Json, adopted: Json, current: Json)
    requires base.Object? && adopted.Object? && current.Object?
    ensures Merge3(base, adopted, current) == Merge3(base, current, adopted) <==> ConflictFree(base, adopted, current)
    decreases adopted
  {
    var b, a, c := base.fields, adopted.fields, current.fields;
    var r, s := Merge3(base, adopted, current), Merge3(base, current, adopted);
    forall k | k in b.Keys + a.Keys + c.Keys
      ensures Get(r.fields, k) == Get(s.fields, k) <==>
        if ThreeObjects(b, a, c, k) then ConflictFree(b[k], a[k], c[k])
        else Get(b, k) == Get(a, k) || Get(b, k) == Get(c, k) || Get(a, k) == Get(c, k)
    {
      Merge3At(base, adopted, current, k);
      Merge3At(base, current, adopted, k);
      if ThreeObjects(b, a, c, k) { SwapIffConflictFree(b[k], a[k], c[k]); }
    }
    if ConflictFree(base, adopted, current) {
      forall k ensures Get(r.fields, k) == Get(s.fields, k) {
        if k !in b.Keys + a.Keys + c.Keys { Merge3At(base, adopted, current, k); Merge3At(base, current, adopted, k); }
      }
      SameFields(r.fields, s.fields);
    }
  }

  /** What an object holds at a path of field names. */
  function At(j: Json, path: seq<string>): Option<Json>
    decreases |path|
  {
    if path == [] then Some(j)
    else if j.Object? && path[0] in j.fields then At(j.fields[path[0]], path[1..])
    else None
  }

  /** At every proper prefix of the path, all three documents hold objects. */
  predicate ObjectsAbove(base: Json, adopted: Json, current: Json, path: seq<string>) {
    forall i :: 0 <= i < |path| ==> IsObject(At(base, path[..i])) && IsObject(At(adopted, path[..i])) && IsObject(At(current, path[..i]))
  }

  lemma AtName(j: Json, k: string)
    ensures At(j, [k]) == if j.Object? then Get(j.fields, k) else None
  {
    assert [k][1..] == [];
  }

  lemma ObjectsBelow(base: Json, adopted: Json, current: Json, path: seq<string>)
    requires base.Object? && adopted.Object? && current.Object?
    requires |path| > 1 && ObjectsAbove(base, adopted, current, path)
    ensures ThreeObjects(base.fields, adopted.fields, current.fields, path[0])
    ensures ObjectsAbove(base.fields[path[0]], adopted.fields[path[0]], current.fields[path[0]], path[1..])
  {
    var k := path[0];
    assert path[..1] == [k];
    AtName(base, k);
    AtName(adopted, k);
    AtName(current, k);
    assert IsObject(At(base, path[..1])) && IsObject(At(adopted, path[..1])) && IsObject(At(current, path[..1]));
    forall i | 0 <= i < |path| - 1
      ensures IsObject(At(base.fields[k], path[1..][..i])) && IsObject(At(adopted.fields[k], path[1..][..i]))
           && IsObject(At(current.fields[k], path[1..][..i]))
    {
      assert path[..i + 1][1..] == path[1..][..i];
      assert IsObject(At(base, path[..i + 1])) && IsObject(At(adopted, path[..i + 1])) && IsObject(At(current, path[..i + 1]));
    }
  }

  /** A later edit wins at every depth where the render moved away from the base and not all three are objects. */
  lemma {:induction false} LaterEditWins(base: Json, adopted: Json, current: Json, path: seq<string>)
    requires base.Object? && adopted.Object? && current.Object? && path != []
    requires ObjectsAbove(base, adopted, current, path)
    requires !(IsObject(At(base, path)) && IsObject(At(adopted, path)) && IsObject(At(current, path)))
    ensures At(Merge3(base, adopted, current), path) ==
      if At(base, path) != At(current, path) then At(current, path) else At(adopted, path)
    decreases |path|
  {
    var k := path[0];
    Merge3At(base, adopted, current, k);
    if |path| == 1 {
      assert path[1..] == [];
    } else {
      ObjectsBelow(base, adopted, current, path);
      LaterEditWins(base.fields[k], adopted.fields[k], current.fields[k], path[1..]);
    }
  }

  /** Every value that is not an object stands at the same path in the adopted spec or in the current render. */
  lemma {:induction false} LeavesAreInherited(base: Json, adopted: Json, current: Json, path: seq<string>)
    requires base.Object? && adopted.Object? && current.Object?
    requires At(Merge3(base, adopted, current), path).Some? && !At(Merge3(base, adopted, current), path).value.Object?
    ensures At(Merge3(base, adopted, current), path) in {At(adopted, path), At(current, path)}
    decreases |path|
  {
    if path != [] {
      var k := path[0];
      Merge3At(base, adopted, current, k);
      if ThreeObjects(base.fields, adopted.fields, current.fields, k) {
        LeavesAreInherited(base.fields[k], adopted.fields[k], current.fields[k], path[1..]);
      }
    }
  }

  // ---- The filtered patch implements it -------------------------------------

  /** Applying the filtered patch to the current render is the three-way merge. */
  lemma {:induction false} FilteredPatchIsMerge3(base: Json, adopted: Json, current: Json)
    requires base.Object? && adopted.Object? && current.Object? && NullFree(adopted)
    ensures Apply(Some(current), Filter(base, current, Diff(base, adopted))) == Merge3(base, adopted, current)
    decreases adopted
  {
    var result := Apply(Some(current), Filter(base, current, Diff(base, adopted)));
    var b, a, c := base.fields, adopted.fields, current.fields;
    forall k ensures Get(result.fields, k) == Get(Merge3(base, adopted, current).fields, k) {
      Merge3At(base, adopted, current, k);
      if ThreeObjects(b, a, c, k) {
        FilteredPatchIsMerge3(b[k], a[k], c[k]);
        FilteredObject(base, adopted, current, k);
      } else {
        FilteredValue(base, adopted, current, k);
      }
    }
    SameFields(result.fields, Merge3(base, adopted, current).fields);
  }

  lemma FilteredObject(base: Json, adopted: Json, current: Json, k: string)
    requires base.Object? && adopted.Object? && current.Object?
    requires ThreeObjects(base.fields, adopted.fields, current.fields, k)
    ensures var b, a, c := base.fields[k], adopted.fields[k], current.fields[k];
      Get(Apply(Some(current), Filter(base, current, Diff(base, adopted))).fields, k)
        == Some(Apply(Some(c), Filter(b, c, Diff(b, a))))
  {
    var b, a, c := base.fields[k], adopted.fields[k], current.fields[k];
    var d := Diff(base, adopted);
    ApplyEmpty(c);
    if Diff(b, a) == EMPTY {
      assert k !in d.fields;
      assert Filter(b, c, EMPTY) == EMPTY;
    } else {
      assert k in d.fields && d.fields[k] == Diff(b, a);
    }
  }

  lemma FilteredValue(base: Json, adopted: Json, current: Json, k: string)
    requires base.Object? && adopted.Object? && current.Object? && NullFree(adopted)
    requires !ThreeObjects(base.fields, adopted.fields, current.fields, k)
    ensures Get(Apply(Some(current), Filter(base, current, Diff(base, adopted))).fields, k)
         == Pick(Get(base.fields, k), Get(adopted.fields, k), Get(current.fields, k))
  {
    var b, a, c := base.fields, adopted.fields, current.fields;
    var d := Diff(base, adopted);
    var f := Filter(base, current, d);
    if k in b && k in a && b[k].Object? && a[k].Object? {
      EmptyDiff(b[k], a[k]);
    } else if k in a && Get(b, k) != Get(a, k) {
      assert k in d.fields && d.fields[k] == a[k];
      if Get(b, k) == Get(c, k) { ReplacesAt(Get(c, k), a[k]); }
    }
  }
}
