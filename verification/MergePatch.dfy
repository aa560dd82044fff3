/** JSON values, JSON Merge Patch (RFC 7396, section 2) and the patch between two objects. */
module MergePatch {
  import opened Options

  datatype Json = Null | Scalar(text: string) | Array(items: seq<Json>) | Object(fields: map<string, Json>)

  const EMPTY := Object(map[])

  function Get(fields: map<string, Json>, k: string): Option<Json> {
    if k in fields then Some(fields[k]) else None
  }

  predicate IsObject(v: Option<Json>) { v.Some? && v.value.Object? }

  /** No null anywhere outside arrays, which a merge patch replaces whole. */
  predicate NullFree(j: Json) {
    match j
    case Null => false
    case Object(fields) => forall k :: k in fields ==> NullFree(fields[k])
    case _ => true
  }

  lemma SameFields(a: map<string, Json>, b: map<string, Json>)
    requires forall k :: Get(a, k) == Get(b, k)
    ensures a == b
  {
    forall k ensures k in a <==> k in b { assert Get(a, k) == Get(b, k); }
    forall k | k in a ensures a[k] == b[k] { assert Get(a, k) == Get(b, k); }
  }

  /** MergePatch(target, patch) of RFC 7396. */
  function Apply(target: Option<Json>, patch: Json): Json
    decreases patch
  {
    if patch.Object? then
      var t := if IsObject(target) then target.value.fields else map[];
      Object(map k | k in t.Keys + patch.fields.Keys && !(k in patch.fields && patch.fields[k].Null?) ::
               if k in patch.fields then Apply(Get(t, k), patch.fields[k]) else t[k])
    else patch
  }

  /** CreateMergePatch: the entries of b that differ from a, and null for the entries b lacks. */
  function Diff(a: Json, b: Json): (d: Json)
    requires a.Object? && b.Object?
    ensures d.Object?
    decreases b
  {
    var x, y := a.fields, b.fields;
    Object(map k | k in x.Keys + y.Keys &&
                   (if k in x && k in y && x[k].Object? && y[k].Object? then Diff(x[k], y[k]) != EMPTY else Get(x, k) != Get(y, k)) ::
             if k !in y then Null
             else if k in x && x[k].Object? && y[k].Object? then Diff(x[k], y[k])
             else y[k])
  }

  lemma ApplyEmpty(target: Json)
    requires target.Object?
    ensures Apply(Some(target), EMPTY) == target
  {
    SameFields(Apply(Some(target), EMPTY).fields, target.fields);
  }

  /** A null-free value replaces anything that is not an object. */
  lemma {:induction false} ApplyReplaces(target: Option<Json>, value: Json)
    requires NullFree(value) && !IsObject(target)
    ensures Apply(target, value) == value
    decreases value
  {
    if value.Object? {
      forall k | k in value.fields ensures Apply(None, value.fields[k]) == value.fields[k] { ApplyReplaces(None, value.fields[k]); }
      SameFields(Apply(target, value).fields, value.fields);
    }
  }

  lemma {:induction false} EmptyDiff(a: Json, b: Json)
    requires a.Object? && b.Object?
    ensures Diff(a, b) == EMPTY <==> a == b
    decreases b
  {
    var x, y := a.fields, b.fields;
    forall k | k in x && k in y && x[k].Object? && y[k].Object? ensures Diff(x[k], y[k]) == EMPTY <==> x[k] == y[k] {
      EmptyDiff(x[k], y[k]);
    }
    if Diff(a, b) == EMPTY {
      forall k ensures Get(x, k) == Get(y, k) {
        assert k !in Diff(a, b).fields;
      }
      SameFields(x, y);
    }
  }

  /** Applying the patch between two objects to the first gives the second. */
  lemma {:induction false} DiffRoundTrip(a: Json, b: Json)
    requires a.Object? && b.Object? && NullFree(b)
    ensures Apply(Some(a), Diff(a, b)) == b
    decreases b
  {
    var x, y := a.fields, b.fields;
    var d := Diff(a, b);
    var r := Apply(Some(a), d);
    forall k ensures Get(r.fields, k) == Get(y, k) {
      if k in x && k in y && x[k].Object? && y[k].Object? {
        DiffRoundTrip(x[k], y[k]);
        EmptyDiff(x[k], y[k]);
      } else if k in y && Get(x, k) != Get(y, k) {
        assert k in d.fields && d.fields[k] == y[k];
        ReplacesAt(Get(x, k), y[k]);
      }
    }
    SameFields(r.fields, y);
  }

  /** A null-free value lands as it is on anything, unless two objects meet. */
  lemma ReplacesAt(target: Option<Json>, value: Json)
    requires NullFree(value) && !(IsObject(target) && value.Object?)
    ensures Apply(target, value) == value
  {
    if value.Object? { ApplyReplaces(target, value); }
  }
}
