/** MergeMap and MergeArray: the deep merge of a new document into an old one, matching list elements by their key. */
module KeyedMerge {
  import opened Options
  import opened MergePatch

  const ARRAY_STRUCT_KEYS := ["name", "serviceAccountName"]

  /** Two list elements have a key field in common, whatever its values. */
  predicate SharesKey(o: Json, v: Json) {
    o.Object? && v.Object? && exists k :: k in ARRAY_STRUCT_KEYS && k in o.fields && k in v.fields
  }

  /** Two list elements agree on a key field. */
  predicate SameKey(o: Json, v: Json) {
    o.Object? && v.Object? && exists k :: k in ARRAY_STRUCT_KEYS && k in o.fields && k in v.fields && o.fields[k] == v.fields[k]
  }

  function MergeValue(o: Option<Json>, v: Json): Json
    decreases v, 1
  {
    if o.Some? && o.value.Object? && v.Object? then MergeObject(o.value, v)
    else if o.Some? && o.value.Array? && v.Array? then Array(MergeFirst(o.value.items, v.items, |v.items|))
    else v
  }

  function MergeObject(prior: Json, later: Json): (r: Json)
    requires prior.Object? && later.Object?
    ensures r.Object? && r.fields.Keys == prior.fields.Keys + later.fields.Keys
    decreases later, 0
  {
    Object(map k | k in prior.fields.Keys + later.fields.Keys ::
             if k in later.fields then MergeValue(Get(prior.fields, k), later.fields[k]) else prior.fields[k])
  }

  /** The list after the first n new elements. */
  function MergeFirst(prior: seq<Json>, later: seq<Json>, n: nat): seq<Json>
    requires n <= |later|
    decreases later, 0, n
  {
    if n == 0 then prior else Place(MergeFirst(prior, later, n - 1), later, n - 1)
  }

  function MergeIfSame(o: Json, v: Json): Json
    decreases v, 1
  {
    if SameKey(o, v) then MergeObject(o, v) else o
  }

  /** One new element: merged into every element of the same key, appended, merged by position, or replacing the list. */
  function Place(prior: seq<Json>, later: seq<Json>, i: nat): seq<Json>
    requires i < |later|
    decreases later, 0, i
  {
    var v := later[i];
    if !v.Object? then later
    else if exists o :: o in prior && SameKey(o, v) then
      seq(|prior|, j requires 0 <= j < |prior| => MergeIfSame(prior[j], v))
    else if (exists o :: o in prior && SharesKey(o, v)) || i >= |prior| then prior + [v]
    else prior[i := MergeValue(Some(prior[i]), v)]
  }

  // ---- The loops ----------------------------------------------------------------

  method MergeMap(prior: Json, later: Json) returns (r: Json)
    requires prior.Object? && later.Object?
    ensures r == MergeObject(prior, later)
    decreases later, 0
  {
    var fields := prior.fields;
    var todo := later.fields.Keys;
    while todo != {}
      invariant todo <= later.fields.Keys && fields.Keys == prior.fields.Keys + (later.fields.Keys - todo)
      invariant forall k :: k in fields ==>
        fields[k] == if k in later.fields && k !in todo then MergeValue(Get(prior.fields, k), later.fields[k]) else prior.fields[k]
      decreases todo
    {
      var k :| k in todo;
      todo := todo - {k};
      var v := later.fields[k];
      if v.Object? && k in fields && fields[k].Object? {
        var merged := MergeMap(fields[k], v);
        fields := fields[k := merged];
      } else if v.Array? && k in fields && fields[k].Array? {
        var merged := MergeArray(fields[k].items, v.items);
        fields := fields[k := Array(merged)];
      } else {
        fields := fields[k := v];
      }
    }
    return Object(fields);
  }

  method MergeArray(prior: seq<Json>, later: seq<Json>) returns (r: seq<Json>)
    ensures r == MergeFirst(prior, later, |later|)
    decreases later, 1
  {
    r := prior;
    for i := 0 to |later|
      invariant r == MergeFirst(prior, later, i)
    {
      if later[i].Object? { r := PlaceObject(r, later, i); } else { r := later; }
    }
  }

  /** The scan of the old list for one new element. */
  method PlaceObject(prior: seq<Json>, later: seq<Json>, newIdx: nat) returns (r: seq<Json>)
    requires newIdx < |later| && later[newIdx].Object?
    ensures r == Place(prior, later, newIdx)
    decreases later, 0
  {
    hide SharesKey, SameKey;
    var v := later[newIdx];
    var found, keyFound := false, false;
    r := prior;
    for oldIdx := 0 to |prior|
      invariant |r| == |prior| && r[oldIdx..] == prior[oldIdx..]
      invariant forall j :: 0 <= j < oldIdx ==> r[j] == MergeIfSame(prior[j], v)
      invariant found <==> exists j :: 0 <= j < oldIdx && SameKey(prior[j], v)
      invariant keyFound <==> exists j :: 0 <= j < oldIdx && SharesKey(prior[j], v)
    {
      assert r[oldIdx] == r[oldIdx..][0] == prior[oldIdx];
      KeysOf(prior[oldIdx], v);
      if SharesKey(r[oldIdx], v) {
        keyFound := true;
        if SameKey(r[oldIdx], v) {
          var merged := MergeMap(r[oldIdx], v);
          r := r[oldIdx := merged];
          found := true;
        }
      }
    }
    if found {
      return;
    }
    assert r == prior;
    if keyFound {
      r := r + [v];
    } else if |r| >= newIdx + 1 {
      if r[newIdx].Object? {
        var merged := MergeMap(r[newIdx], v);
        r := r[newIdx := merged];
      } else {
        r := r[newIdx := v];
      }
    } else {
      r := r + [v];
    }
  }

  lemma KeysOf(o: Json, v: Json)
    ensures SameKey(o, v) ==> SharesKey(o, v)
    ensures SharesKey(o, v) ==> o.Object? && v.Object?
  {
  }
}
