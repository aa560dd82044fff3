/** Laws of the deep merge on lists whose elements carry a name: when names stay unique, and what a merge keeps. */
module KeyedLaws {
  import opened Options
  import opened MergePatch
  import opened KeyedMerge

  // ---- Lists of named records ------------------------------------------------------

  predicate IsLeaf(j: Json) { j.Null? || j.Scalar? }

  /** An object with a name, and possibly an account, that are plain values. */
  predicate Named(j: Json) {
    && j.Object? && "name" in j.fields && j.fields["name"].Scalar?
    && ("serviceAccountName" in j.fields ==> IsLeaf(j.fields["serviceAccountName"]))
  }

  function NameOf(j: Json): string
    requires Named(j)
  {
    j.fields["name"].text
  }

  function AccountOf(j: Json): Option<Json>
    requires Named(j)
  {
    Get(j.fields, "serviceAccountName")
  }

  predicate AllNamed(items: seq<Json>) { forall i :: 0 <= i < |items| ==> Named(items[i]) }

  /** A list of objects with unique names. */
  predicate Records(items: seq<Json>) {
    AllNamed(items) && forall i, j :: 0 <= i < j < |items| ==> NameOf(items[i]) != NameOf(items[j])
  }

  predicate NoObjects(items: seq<Json>) { forall x :: x in items ==> !x.Object? }

  /** Two elements of the list agree with v on a key field. */
  predicate Ambiguous(items: seq<Json>, v: Json) {
    exists j, k :: 0 <= j < k < |items| && SameKey(items[j], v) && SameKey(items[k], v)
  }

  lemma AgreeWhen(o: Json, v: Json)
    requires Named(o) && Named(v)
    ensures SharesKey(o, v)
    ensures SameKey(o, v) <==> NameOf(o) == NameOf(v) || (AccountOf(o).Some? && AccountOf(o) == AccountOf(v))
  {
    assert ARRAY_STRUCT_KEYS[0] in ARRAY_STRUCT_KEYS && ARRAY_STRUCT_KEYS[1] in ARRAY_STRUCT_KEYS;
    assert o.fields["name"] == Scalar(NameOf(o)) && v.fields["name"] == Scalar(NameOf(v));
  }

  /** A merged element has the name of the new one, and its account where it has one. */
  lemma MergedElement(o: Json, v: Json)
    requires Named(o) && Named(v)
    ensures var r := MergeObject(o, v);
      Named(r) && NameOf(r) == NameOf(v) && AccountOf(r) == if AccountOf(v).Some? then AccountOf(v) else AccountOf(o)
  {
  }

  // ---- Elements without a common key field -----------------------------------------------

  /** Both are objects that have a name, or both an account, whatever the values. */
  predicate CommonKey(o: Json, v: Json) {
    o.Object? && v.Object?
    && (("name" in o.fields && "name" in v.fields) || ("serviceAccountName" in o.fields && "serviceAccountName" in v.fields))
  }

  /**
    A new element that has no key field in common with any old one goes by its position: it is merged into the object at its
    index field by field, replaces anything else there, and is appended past the end. Anything but an object replaces the list.
   */
  lemma UnkeyedByPosition(prior: seq<Json>, later: seq<Json>, i: nat)
    requires i < |later| && forall o :: o in prior ==> !CommonKey(o, later[i])
    ensures var r, v := Place(prior, later, i), later[i];
      if !v.Object? then r == later
      else if i >= |prior| then r == prior + [v]
      else
        && |r| == |prior| && (forall j :: 0 <= j < |prior| && j != i ==> r[j] == prior[j])
        && (!prior[i].Object? ==> r[i] == v)
        && (prior[i].Object? ==>
              && r[i].Object? && (forall f :: f in r[i].fields <==> f in prior[i].fields || f in v.fields)
              && (forall f :: f in prior[i].fields && f !in v.fields ==> r[i].fields[f] == prior[i].fields[f])
              && (forall f :: f in v.fields && f !in prior[i].fields ==> r[i].fields[f] == v.fields[f])
              && (forall f :: f in v.fields && f in prior[i].fields ==>
                    r[i].fields[f] == MergeValue(Some(prior[i].fields[f]), v.fields[f])))
  {
    var v := later[i];
    forall o | o in prior ensures !SharesKey(o, v) && !SameKey(o, v) { CommonKeyIs(o, v); }
    if v.Object? && i < |prior| {
      if prior[i].Object? { MergeObjectIsValue(prior[i], v); } else { assert MergeValue(Some(prior[i]), v) == v; }
      forall f | f in v.fields ensures MergeValue(None, v.fields[f]) == v.fields[f] { MergeNothing(v.fields[f]); }
    }
  }

  lemma CommonKeyIs(o: Json, v: Json)
    ensures SharesKey(o, v) <==> CommonKey(o, v)
    ensures SameKey(o, v) ==> CommonKey(o, v)
  {
    assert ARRAY_STRUCT_KEYS[0] == "name" && ARRAY_STRUCT_KEYS[1] == "serviceAccountName";
    assert forall k :: k in ARRAY_STRUCT_KEYS <==> k == "name" || k == "serviceAccountName";
  }

  // ---- When names stay unique ----------------------------------------------------------

  /** The list after one new element, position by position. */
  lemma PlaceAt(prior: seq<Json>, later: seq<Json>, i: nat)
    requires AllNamed(prior) && i < |later| && Named(later[i])
    ensures var r, v := Place(prior, later, i), later[i];
      && AllNamed(r) && |prior| <= |r|
      && (forall j :: 0 <= j < |prior| ==> r[j] == if SameKey(prior[j], v) then MergeObject(prior[j], v) else prior[j])
      && if exists j :: 0 <= j < |prior| && SameKey(prior[j], v) then |r| == |prior| else r == prior + [v]
  {
    hide SameKey, SharesKey, MergeValue, MergeObject;
    var r, v := Place(prior, later, i), later[i];
    forall j | 0 <= j < |prior|
      ensures SharesKey(prior[j], v) && prior[j] in prior && Named(MergeObject(prior[j], v))
    {
      AgreeWhen(prior[j], v);
      MergedElement(prior[j], v);
    }
  }

  /** One new element leaves unique names unique if and only if no two elements agree with it on a key field. */
  lemma UniqueIffUnambiguous(prior: seq<Json>, later: seq<Json>, i: nat)
    requires Records(prior) && i < |later| && Named(later[i])
    ensures Records(Place(prior, later, i)) <==> !Ambiguous(prior, later[i])
  {
    hide SameKey, MergeObject, Place;
    var r, v := Place(prior, later, i), later[i];
    PlaceAt(prior, later, i);
    forall j | 0 <= j < |prior| ensures NameOf(r[j]) == if SameKey(prior[j], v) then NameOf(v) else NameOf(prior[j]) {
      MergedElement(prior[j], v);
    }
    forall j | 0 <= j < |prior| && NameOf(prior[j]) == NameOf(v) ensures SameKey(prior[j], v) { AgreeWhen(prior[j], v); }
    if Ambiguous(prior, v) {
      var j, k :| 0 <= j < k < |prior| && SameKey(prior[j], v) && SameKey(prior[k], v);
      assert NameOf(r[j]) == NameOf(r[k]);
    }
  }

  /** Two elements with the same name and the same account. */
  ghost predicate Twins(items: seq<Json>) {
    AllNamed(items) &&
    exists j, k :: 0 <= j < k < |items| && NameOf(items[j]) == NameOf(items[k]) && AccountOf(items[j]) == AccountOf(items[k])
  }

  lemma TwinsStay(prior: seq<Json>, later: seq<Json>, i: nat)
    requires Twins(prior) && i < |later| && Named(later[i])
    ensures Twins(Place(prior, later, i))
  {
    hide SameKey, MergeObject, Place;
    var r, v := Place(prior, later, i), later[i];
    var j, k :| 0 <= j < k < |prior| && NameOf(prior[j]) == NameOf(prior[k]) && AccountOf(prior[j]) == AccountOf(prior[k]);
    PlaceAt(prior, later, i);
    AgreeWhen(prior[j], v);
    AgreeWhen(prior[k], v);
    MergedElement(prior[j], v);
    MergedElement(prior[k], v);
    assert NameOf(r[j]) == NameOf(r[k]) && AccountOf(r[j]) == AccountOf(r[k]);
  }

  /** An ambiguous element leaves twins: both get its name and its account. */
  lemma AmbiguousMakesTwins(prior: seq<Json>, later: seq<Json>, i: nat)
    requires Records(prior) && i < |later| && Named(later[i]) && Ambiguous(prior, later[i])
    ensures Twins(Place(prior, later, i))
  {
    hide SameKey, MergeObject, Place;
    var r, v := Place(prior, later, i), later[i];
    var j, k :| 0 <= j < k < |prior| && SameKey(prior[j], v) && SameKey(prior[k], v);
    PlaceAt(prior, later, i);
    AgreeWhen(prior[j], v);
    AgreeWhen(prior[k], v);
    MergedElement(prior[j], v);
    MergedElement(prior[k], v);
    assert NameOf(r[j]) == NameOf(r[k]) && AccountOf(r[j]) == AccountOf(r[k]);
  }

  /** No new element, when its turn comes, agrees with two elements of the list as it is by then. */
  predicate Unambiguous(prior: seq<Json>, later: seq<Json>, n: nat)
    requires n <= |later|
  {
    forall i :: 0 <= i < n ==> !Ambiguous(MergeFirst(prior, later, i), later[i])
  }

  /** The merged list has unique names if and only if every new element was unambiguous in its turn; otherwise it has twins. */
  lemma {:induction false} NamesStayUniqueIff(prior: seq<Json>, later: seq<Json>, n: nat)
    requires Records(prior) && AllNamed(later) && n <= |later|
    ensures Records(MergeFirst(prior, later, n)) <==> Unambiguous(prior, later, n)
    ensures Records(MergeFirst(prior, later, n)) || Twins(MergeFirst(prior, later, n))
    decreases n
  {
    hide Place, Ambiguous;
    if n > 0 {
      NamesStayUniqueIff(prior, later, n - 1);
      var r := MergeFirst(prior, later, n - 1);
      if Records(r) {
        UniqueIffUnambiguous(r, later, n - 1);
        if Ambiguous(r, later[n - 1]) { AmbiguousMakesTwins(r, later, n - 1); }
      } else {
        TwinsStay(r, later, n - 1);
      }
    }
  }

  /** One new element is merged into the one element that agrees with it, or appended. */
  ghost predicate TouchesOne(before: seq<Json>, after: seq<Json>, v: Json) {
    || ((forall k :: 0 <= k < |before| ==> !SameKey(before[k], v)) && after == before + [v])
    || exists k :: 0 <= k < |before| && SameKey(before[k], v) && after == before[k := MergeObject(before[k], v)]
  }

  /** An unambiguous merge, whatever accounts its elements carry: each new element touches one place, and names stay unique. */
  lemma MergedUnambiguous(prior: seq<Json>, later: seq<Json>, n: nat)
    requires Records(prior) && AllNamed(later) && n <= |later| && Unambiguous(prior, later, n)
    ensures Records(MergeFirst(prior, later, n))
    ensures forall i :: 0 <= i < n ==> TouchesOne(MergeFirst(prior, later, i), MergeFirst(prior, later, i + 1), later[i])
  {
    hide Place, SameKey, MergeObject, MergeFirst, TouchesOne;
    NamesStayUniqueIff(prior, later, n);
    forall i | 0 <= i < n ensures TouchesOne(MergeFirst(prior, later, i), MergeFirst(prior, later, i + 1), later[i]) {
      NamesStayUniqueIff(prior, later, i);
      MergeOne(prior, later, i);
      PlaceTouchesOne(MergeFirst(prior, later, i), later, i);
    }
  }

  lemma MergeOne(prior: seq<Json>, later: seq<Json>, i: nat)
    requires i < |later|
    ensures MergeFirst(prior, later, i + 1) == Place(MergeFirst(prior, later, i), later, i)
  {
  }

  lemma PlaceTouchesOne(prior: seq<Json>, later: seq<Json>, i: nat)
    requires AllNamed(prior) && i < |later| && Named(later[i]) && !Ambiguous(prior, later[i])
    ensures TouchesOne(prior, Place(prior, later, i), later[i])
  {
    hide Place, SameKey, MergeObject;
    PlaceAt(prior, later, i);
    if k :| 0 <= k < |prior| && SameKey(prior[k], later[i]) {
      assert forall j :: 0 <= j < |prior| && SameKey(prior[j], later[i]) ==> j == k;
      assert Place(prior, later, i) == prior[k := MergeObject(prior[k], later[i])];
    }
  }

  // ---- Keyed documents -------------------------------------------------------------------

  /** Every list is a list of records, or holds no objects. */
  predicate Keyed(j: Json) {
    match j
    case Object(fields) => forall k :: k in fields ==> Keyed(fields[k])
    case Array(items) => (Records(items) || NoObjects(items)) && forall i :: 0 <= i < |items| ==> Keyed(items[i])
    case _ => true
  }

  /** Lists that meet in a merge are of the same kind, and lists of records meet without ambiguity, at every depth. */
  predicate Fits(o: Json, v: Json)
    decreases v
  {
    match (o, v)
    case (Object(f), Object(g)) => forall k :: k in f && k in g ==> Fits(f[k], g[k])
    case (Array(x), Array(y)) =>
      || (NoObjects(x) && NoObjects(y))
      || (Records(x) && Records(y) && Unambiguous(x, y, |y|)
          && forall i, k :: 0 <= i < |y| && 0 <= k < |MergeFirst(x, y, i)| && SameKey(MergeFirst(x, y, i)[k], y[i]) ==>
               Fits(MergeFirst(x, y, i)[k], y[i]))
    case _ => true
  }

  lemma {:induction false} ScalarListIsReplaced(prior: seq<Json>, later: seq<Json>, n: nat)
    requires NoObjects(later) && n <= |later|
    ensures MergeFirst(prior, later, n) == if n == 0 then prior else later
    decreases n
  {
    if n > 0 { assert later[n - 1] in later; ScalarListIsReplaced(prior, later, n - 1); }
  }

  /** The merge of keyed documents that fit is keyed: names stay unique at every depth. */
  lemma {:induction false} MergeKeyed(o: Option<Json>, v: Json)
    requires Keyed(v) && (o.Some? ==> Keyed(o.value) && Fits(o.value, v))
    ensures Keyed(MergeValue(o, v))
    decreases v
  {
    if o.Some? && o.value.Object? && v.Object? {
      forall k | k in v.fields ensures Keyed(MergeValue(Get(o.value.fields, k), v.fields[k])) {
        MergeKeyed(Get(o.value.fields, k), v.fields[k]);
      }
    } else if o.Some? && o.value.Array? && v.Array? {
      var x, y := o.value.items, v.items;
      if NoObjects(x) && NoObjects(y) {
        ScalarListIsReplaced(x, y, |y|);
      } else {
        forall i, k | 0 <= i < |y| && 0 <= k < |MergeFirst(x, y, i)| && SameKey(MergeFirst(x, y, i)[k], y[i]) && Keyed(MergeFirst(x, y, i)[k])
          ensures Keyed(MergeObject(MergeFirst(x, y, i)[k], y[i]))
        {
          MergeKeyed(Some(MergeFirst(x, y, i)[k]), y[i]);
          MergeObjectIsValue(MergeFirst(x, y, i)[k], y[i]);
        }
        KeyedSteps(x, y, |y|);
      }
    }
  }

  lemma {:induction false} KeyedSteps(x: seq<Json>, y: seq<Json>, n: nat)
    requires Records(x) && Records(y) && n <= |y| && Unambiguous(x, y, |y|)
    requires (forall j :: 0 <= j < |x| ==> Keyed(x[j])) && forall j :: 0 <= j < |y| ==> Keyed(y[j])
    requires forall i, k ::
      0 <= i < |y| && 0 <= k < |MergeFirst(x, y, i)| && SameKey(MergeFirst(x, y, i)[k], y[i]) && Keyed(MergeFirst(x, y, i)[k]) ==>
        Keyed(MergeObject(MergeFirst(x, y, i)[k], y[i]))
    ensures Records(MergeFirst(x, y, n)) && forall j :: 0 <= j < |MergeFirst(x, y, n)| ==> Keyed(MergeFirst(x, y, n)[j])
    decreases n
  {
    hide Place, SameKey, MergeObject, Keyed, Ambiguous;
    NamesStayUniqueIff(x, y, n);
    if n > 0 {
      KeyedSteps(x, y, n - 1);
      PlaceAt(MergeFirst(x, y, n - 1), y, n - 1);
    }
  }

  lemma MergeObjectIsValue(o: Json, v: Json)
    requires o.Object? && v.Object?
    ensures MergeValue(Some(o), v) == MergeObject(o, v)
  {
  }

  lemma MergeNothing(v: Json)
    ensures MergeValue(None, v) == v
  {
  }

  // ---- Lists in which accounts follow names ------------------------------------------------

  function Names(items: seq<Json>): seq<string>
    requires Records(items)
  {
    seq(|items|, i requires 0 <= i < |items| => NameOf(items[i]))
  }

  function Find(items: seq<Json>, name: string): Option<Json> {
    if items == [] then None
    else
      var x := items[|items| - 1];
      if Named(x) && NameOf(x) == name then Some(x) else Find(items[..|items| - 1], name)
  }

  lemma {:induction false} FindAt(items: seq<Json>, i: nat)
    requires Records(items) && i < |items|
    ensures Find(items, NameOf(items[i])) == Some(items[i])
    decreases |items|
  {
    if i < |items| - 1 { FindAt(items[..|items| - 1], i); }
  }

  lemma {:induction false} FindNone(items: seq<Json>, name: string)
    requires Records(items)
    ensures Find(items, name).None? <==> name !in Names(items)
    ensures Find(items, name).Some? ==> exists i :: 0 <= i < |items| && NameOf(items[i]) == name && Find(items, name) == Some(items[i])
    decreases |items|
  {
    if items != [] {
      var n := |items| - 1;
      FindNone(items[..n], name);
      assert Names(items) == Names(items[..n]) + [NameOf(items[n])];
    }
  }

  /** The names of the first n new elements that the old list lacks, in their order. */
  function FreshNames(prior: seq<Json>, later: seq<Json>, n: nat): seq<string>
    requires Records(prior) && Records(later) && n <= |later|
  {
    if n == 0 then []
    else FreshNames(prior, later, n - 1) + if NameOf(later[n - 1]) in Names(prior) then [] else [NameOf(later[n - 1])]
  }

  /** An element of the list, as it is when its turn comes, agrees with a new one only by having its name. */
  predicate ByName(prior: seq<Json>, later: seq<Json>, n: nat)
    requires n <= |later|
  {
    forall i, k :: 0 <= i < n && 0 <= k < |MergeFirst(prior, later, i)| && SameKey(MergeFirst(prior, later, i)[k], later[i]) ==>
      Named(MergeFirst(prior, later, i)[k]) && Named(later[i]) && NameOf(MergeFirst(prior, later, i)[k]) == NameOf(later[i])
  }

  predicate AgreesByName(items: seq<Json>, v: Json)
    requires AllNamed(items) && Named(v)
  {
    forall k :: 0 <= k < |items| && SameKey(items[k], v) ==> NameOf(items[k]) == NameOf(v)
  }

  /** New elements without accounts always agree by name, whatever accounts the old ones carry. */
  lemma PlainIsByName(prior: seq<Json>, later: seq<Json>)
    requires Records(prior) && AllNamed(later) && forall i :: 0 <= i < |later| ==> AccountOf(later[i]).None?
    ensures ByName(prior, later, |later|)
  {
    hide MergeFirst, SameKey;
    forall i, k | 0 <= i < |later| && 0 <= k < |MergeFirst(prior, later, i)| && SameKey(MergeFirst(prior, later, i)[k], later[i])
      ensures Named(MergeFirst(prior, later, i)[k]) && NameOf(MergeFirst(prior, later, i)[k]) == NameOf(later[i])
    {
      NamesStayUniqueIff(prior, later, i);
      AgreeWhen(MergeFirst(prior, later, i)[k], later[i]);
    }
  }

  lemma PlaceFound(prior: seq<Json>, later: seq<Json>, i: nat, k: nat)
    requires Records(prior) && i < |later| && Named(later[i]) && AgreesByName(prior, later[i])
    requires k < |prior| && NameOf(prior[k]) == NameOf(later[i])
    ensures Place(prior, later, i) == prior[k := MergeObject(prior[k], later[i])]
  {
    hide SameKey, MergeObject, Place;
    PlaceAt(prior, later, i);
    AgreeWhen(prior[k], later[i]);
  }

  lemma PlaceNew(prior: seq<Json>, later: seq<Json>, i: nat)
    requires Records(prior) && i < |later| && Named(later[i]) && AgreesByName(prior, later[i]) && NameOf(later[i]) !in Names(prior)
    ensures Place(prior, later, i) == prior + [later[i]]
  {
    hide SameKey, MergeObject, Place;
    PlaceAt(prior, later, i);
    forall k | 0 <= k < |prior| ensures NameOf(prior[k]) != NameOf(later[i]) { assert Names(prior)[k] == NameOf(prior[k]); }
  }

  /** One record placed into a list of records. */
  lemma PlaceRecord(prior: seq<Json>, later: seq<Json>, i: nat)
    requires Records(prior) && i < |later| && Named(later[i]) && AgreesByName(prior, later[i])
    ensures var v, r := later[i], Place(prior, later, i);
      && Records(r)
      && Names(r) == Names(prior) + (if NameOf(v) in Names(prior) then [] else [NameOf(v)])
      && forall name :: Find(r, name) == if name == NameOf(v) then Some(MergeValue(Find(prior, name), v)) else Find(prior, name)
  {
    hide MergeValue, MergeObject, Place;
    var v := later[i];
    FindNone(prior, NameOf(v));
    if NameOf(v) in Names(prior) {
      var k :| 0 <= k < |prior| && NameOf(prior[k]) == NameOf(v);
      FindAt(prior, k);
      MergedElement(prior[k], v);
      PlaceFound(prior, later, i, k);
      ReplaceRecord(prior, k, MergeObject(prior[k], v));
      MergeObjectIsValue(prior[k], v);
    } else {
      PlaceNew(prior, later, i);
      AppendRecord(prior, v);
      MergeNothing(v);
    }
  }

  lemma ReplaceRecord(items: seq<Json>, k: nat, x: Json)
    requires Records(items) && k < |items| && Named(x) && NameOf(x) == NameOf(items[k])
    ensures Records(items[k := x]) && Names(items[k := x]) == Names(items)
    ensures forall name :: Find(items[k := x], name) == if name == NameOf(x) then Some(x) else Find(items, name)
  {
    var r := items[k := x];
    assert Names(r) == Names(items);
    forall name ensures Find(r, name) == if name == NameOf(x) then Some(x) else Find(items, name) {
      FindNone(r, name);
      FindNone(items, name);
      if name == NameOf(x) { FindAt(r, k); }
      if i :| 0 <= i < |items| && NameOf(items[i]) == name && i != k { FindAt(r, i); FindAt(items, i); }
    }
  }

  lemma AppendRecord(items: seq<Json>, x: Json)
    requires Records(items) && Named(x) && NameOf(x) !in Names(items)
    ensures Records(items + [x]) && Names(items + [x]) == Names(items) + [NameOf(x)]
    ensures forall name :: Find(items + [x], name) == if name == NameOf(x) then Some(x) else Find(items, name)
  {
    forall i | 0 <= i < |items| ensures NameOf(items[i]) != NameOf(x) { assert Names(items)[i] == NameOf(items[i]); }
    assert (items + [x])[..|items|] == items;
  }

  lemma FindInNone(name: string)
    ensures Find([], name).None?
  {
  }

  lemma FindTake(items: seq<Json>, n: nat)
    requires Records(items) && 0 < n <= |items|
    ensures Find(items[..n - 1], NameOf(items[n - 1])).None?
    ensures forall name :: Find(items[..n], name) == if name == NameOf(items[n - 1]) then Some(items[n - 1]) else Find(items[..n - 1], name)
  {
    assert items[..n][..n - 1] == items[..n - 1];
    FindNone(items[..n - 1], NameOf(items[n - 1]));
  }

  /**
    The merged list: the old names in their order, then the new ones in theirs; an element of both lists is merged,
    every other element is kept as it is.
   */
  lemma {:induction false} MergedRecords(prior: seq<Json>, later: seq<Json>, n: nat)
    requires Records(prior) && Records(later) && n <= |later| && ByName(prior, later, n)
    ensures var r := MergeFirst(prior, later, n);
      && Records(r)
      && Names(r) == Names(prior) + FreshNames(prior, later, n)
      && forall name :: Find(r, name) ==
           var v := Find(later[..n], name); if v.Some? then Some(MergeValue(Find(prior, name), v.value)) else Find(prior, name)
    decreases n
  {
    hide MergeValue, MergeObject, Place, Find, Named;
    if n > 0 {
      MergedRecords(prior, later, n - 1);
      var r, v := MergeFirst(prior, later, n - 1), later[n - 1];
      assert Named(v);
      PlaceRecord(r, later, n - 1);
      FindTake(later, n);
      FindNone(r, NameOf(v));
      FindNone(prior, NameOf(v));
    } else {
      assert later[..n] == [];
      forall name { FindInNone(name); }
    }
  }

  // ---- Laws under which accounts follow names ----------------------------------------------

  /** The first new element that meets an old one by its account alone. */
  lemma {:induction false} FirstRenaming(prior: seq<Json>, later: seq<Json>, n: nat) returns (i: nat, k: nat)
    requires n <= |later| && !ByName(prior, later, n) && AllNamed(later)
    requires forall j :: 0 <= j < n ==> AllNamed(MergeFirst(prior, later, j))
    ensures i < n && ByName(prior, later, i)
    ensures var r := MergeFirst(prior, later, i);
      AllNamed(r) && k < |r| && SameKey(r[k], later[i]) && NameOf(r[k]) != NameOf(later[i])
    decreases n
  {
    hide MergeFirst, SameKey, Named;
    if ByName(prior, later, n - 1) {
      i := n - 1;
      k :| 0 <= k < |MergeFirst(prior, later, i)| && SameKey(MergeFirst(prior, later, i)[k], later[i])
           && NameOf(MergeFirst(prior, later, i)[k]) != NameOf(later[i]);
    } else {
      i, k := FirstRenaming(prior, later, n - 1);
    }
  }

  /** A name that was given to one element by renaming it stands nowhere else, whatever is merged after that. */
  lemma {:induction false} NowhereElse(prior: seq<Json>, later: seq<Json>, i: nat, k: nat, n: nat)
    requires Records(prior) && Records(later) && i < n <= |later| && Unambiguous(prior, later, n)
    requires var r := MergeFirst(prior, later, i);
      k < |r| && SameKey(r[k], later[i]) && Named(r[k]) && NameOf(r[k]) != NameOf(later[i])
    ensures var r := MergeFirst(prior, later, n);
      AllNamed(r) && forall j :: 0 <= j < |r| && j != k ==> NameOf(r[j]) != NameOf(later[i])
    decreases n
  {
    hide MergeFirst, SameKey, MergeObject, Place;
    NamesStayUniqueIff(prior, later, n - 1);
    var before, v := MergeFirst(prior, later, n - 1), later[n - 1];
    MergeOne(prior, later, n - 1);
    PlaceAt(before, later, n - 1);
    if n - 1 == i {
      forall j | 0 <= j < |before| && j != k ensures !SameKey(before[j], v) && NameOf(before[j]) != NameOf(v) {
        AgreeWhen(before[j], v);
        assert !Ambiguous(before, v);
      }
    } else {
      NowhereElse(prior, later, i, k, n - 1);
      forall j | 0 <= j < |before| ensures var x := MergeObject(before[j], v); Named(x) && NameOf(x) == NameOf(v) {
        MergedElement(before[j], v);
      }
    }
  }

  lemma FreshExtend(prior: seq<Json>, later: seq<Json>, i: nat, n: nat)
    requires Records(prior) && Records(later) && i <= n <= |later|
    ensures FreshNames(prior, later, i) <= FreshNames(prior, later, n)
  {
  }

  /** The merged names are the old ones in their order, then the new ones in theirs, if and only if elements meet by name alone. */
  lemma NamesInOrderIffByName(prior: seq<Json>, later: seq<Json>)
    requires Records(prior) && Records(later)
    ensures ByName(prior, later, |later|) <==> (
      && var r := MergeFirst(prior, later, |later|);
      && Records(r) && Names(r) == Names(prior) + FreshNames(prior, later, |later|))
  {
    hide MergeFirst, SameKey, Named, Ambiguous;
    var n := |later|;
    var r := MergeFirst(prior, later, n);
    if ByName(prior, later, n) {
      MergedRecords(prior, later, n);
    } else if Records(r) {
      NamesStayUniqueIff(prior, later, n);
      forall j | 0 <= j < n ensures Records(MergeFirst(prior, later, j)) { NamesStayUniqueIff(prior, later, j); }
      var i, k := FirstRenaming(prior, later, n);
      NowhereElse(prior, later, i, k, n);
      MergedRecords(prior, later, i);
      RenamedIsFresh(prior, later, i, k);
      FreshExtend(prior, later, i + 1, n);
      var at := |MergeFirst(prior, later, i)|;
      assert at == |Names(prior)| + |FreshNames(prior, later, i)|;
      assert at < |r| ==> Names(r)[at] == NameOf(r[at]) != NameOf(later[i]);
      assert (Names(prior) + FreshNames(prior, later, n))[at] == NameOf(later[i]);
    }
  }

  lemma RenamedIsFresh(prior: seq<Json>, later: seq<Json>, i: nat, k: nat)
    requires Records(prior) && Records(later) && i < |later| && Unambiguous(prior, later, i + 1)
    requires var r := MergeFirst(prior, later, i);
      && Records(r) && Names(r) == Names(prior) + FreshNames(prior, later, i)
      && k < |r| && SameKey(r[k], later[i]) && NameOf(r[k]) != NameOf(later[i])
    ensures FreshNames(prior, later, i + 1) == FreshNames(prior, later, i) + [NameOf(later[i])]
  {
    hide MergeFirst, SameKey, Named;
    var r := MergeFirst(prior, later, i);
    if NameOf(later[i]) in Names(prior) {
      var j :| 0 <= j < |prior| && Names(prior)[j] == NameOf(later[i]);
      assert Names(r)[j] == NameOf(r[j]);
      AgreeWhen(r[j], later[i]);
    }
  }

  /** Like Fits, but elements meet only by name. */
  predicate FitsByName(o: Json, v: Json)
    decreases v
  {
    match (o, v)
    case (Object(f), Object(g)) => forall k :: k in f && k in g ==> FitsByName(f[k], g[k])
    case (Array(x), Array(y)) =>
      || (NoObjects(x) && NoObjects(y))
      || (Records(x) && Records(y) && ByName(x, y, |y|)
          && forall i, k :: 0 <= i < |y| && 0 <= k < |MergeFirst(x, y, i)| && SameKey(MergeFirst(x, y, i)[k], y[i]) ==>
               FitsByName(MergeFirst(x, y, i)[k], y[i]))
    case _ => true
  }

  /** Meeting by name is never ambiguous. */
  lemma {:induction false} FitsByNameFits(o: Json, v: Json)
    requires FitsByName(o, v)
    ensures Fits(o, v)
    decreases v
  {
    if o.Object? && v.Object? {
      forall k | k in o.fields && k in v.fields ensures Fits(o.fields[k], v.fields[k]) { FitsByNameFits(o.fields[k], v.fields[k]); }
    } else if o.Array? && v.Array? {
      var x, y := o.items, v.items;
      if !(NoObjects(x) && NoObjects(y)) {
        MergedRecords(x, y, |y|);
        NamesStayUniqueIff(x, y, |y|);
        forall i, k | 0 <= i < |y| && 0 <= k < |MergeFirst(x, y, i)| && SameKey(MergeFirst(x, y, i)[k], y[i])
          ensures Fits(MergeFirst(x, y, i)[k], y[i])
        {
          FitsByNameFits(MergeFirst(x, y, i)[k], y[i]);
        }
      }
    }
  }

  /** What meets in a merge: nothing, or a keyed value that fits by name. */
  predicate Meets(o: Option<Json>, v: Json) {
    Keyed(v) && (o.Some? ==> Keyed(o.value) && FitsByName(o.value, v))
  }

  lemma AllLater(prior: seq<Json>, later: seq<Json>, name: string)
    requires Records(prior) && Records(later) && ByName(prior, later, |later|)
    ensures var r := MergeFirst(prior, later, |later|);
      && Records(r)
      && Names(r) == Names(prior) + FreshNames(prior, later, |later|)
      && Find(r, name) == var v := Find(later, name); if v.Some? then Some(MergeValue(Find(prior, name), v.value)) else Find(prior, name)
  {
    hide MergeValue, MergeFirst;
    MergedRecords(prior, later, |later|);
    assert later[..|later|] == later;
  }

  lemma {:induction false} FreshIsNew(prior: seq<Json>, later: seq<Json>, n: nat)
    requires Records(prior) && Records(later) && n <= |later|
    ensures forall i :: 0 <= i < n ==> NameOf(later[i]) in Names(prior) + FreshNames(prior, later, n)
    decreases n
  {
    if n > 0 { FreshIsNew(prior, later, n - 1); }
  }

  /** When its turn comes, a new element meets the old element of its name, as it was at the start. */
  lemma StillPrior(prior: seq<Json>, later: seq<Json>, i: nat)
    requires Records(prior) && Records(later) && ByName(prior, later, |later|) && i < |later|
    ensures var r := MergeFirst(prior, later, i);
      Records(r) && Find(r, NameOf(later[i])) == Find(prior, NameOf(later[i]))
  {
    hide MergeFirst, MergeValue;
    MergedRecords(prior, later, i);
    FindTake(later, i + 1);
  }

  /** The old element an element of the new list meets. */
  lemma ElementMeets(prior: seq<Json>, later: seq<Json>, i: nat)
    requires Meets(Some(Array(prior)), Array(later)) && Records(prior) && Records(later) && !NoObjects(later) && i < |later|
    ensures Meets(Find(prior, NameOf(later[i])), later[i])
  {
    hide MergeFirst;
    StillPrior(prior, later, i);
    var name, r := NameOf(later[i]), MergeFirst(prior, later, i);
    FindNone(prior, name);
    FindNone(r, name);
    if Find(r, name).Some? {
      var k :| 0 <= k < |r| && NameOf(r[k]) == name && Find(r, name) == Some(r[k]);
      AgreeWhen(r[k], later[i]);
    }
  }

  /** The account of an element once n new elements are merged. */
  lemma AccountAfter(prior: seq<Json>, later: seq<Json>, n: nat, j: nat)
    requires Records(prior) && Records(later) && ByName(prior, later, |later|) && j < n <= |later|
    ensures var x := Find(MergeFirst(prior, later, n), NameOf(later[j])); var p := Find(prior, NameOf(later[j]));
      && x.Some? && Named(x.value) && NameOf(x.value) == NameOf(later[j])
      && (AccountOf(later[j]).Some? ==> AccountOf(x.value) == AccountOf(later[j]))
      && (AccountOf(later[j]).None? ==> AccountOf(x.value) == if p.Some? && Named(p.value) then AccountOf(p.value) else None)
  {
    hide MergeFirst, MergeValue, MergeObject;
    MergedRecords(prior, later, n);
    var name := NameOf(later[j]);
    FindAt(later[..n], j);
    FindNone(prior, name);
    if Find(prior, name).Some? {
      MergedElement(Find(prior, name).value, later[j]);
      MergeObjectIsValue(Find(prior, name).value, later[j]);
    } else {
      MergeNothing(later[j]);
    }
  }

  lemma AccountUntouched(prior: seq<Json>, later: seq<Json>, n: nat, name: string)
    requires Records(prior) && Records(later) && ByName(prior, later, |later|) && n <= |later| && Find(later[..n], name).None?
    ensures Find(MergeFirst(prior, later, n), name) == Find(prior, name)
  {
    hide MergeFirst, MergeValue;
    MergedRecords(prior, later, n);
  }

  lemma FoundIn(items: seq<Json>, name: string, v: Json)
    requires Records(items) && Find(items, name).Some? && Named(v)
    ensures exists k :: 0 <= k < |items| && items[k] == Find(items, name).value && NameOf(items[k]) == name
  {
    FindNone(items, name);
  }

  /** At step i, no element of another name has the account of the new one. */
  lemma NoForeignAccount(prior: seq<Json>, later: seq<Json>, i: nat, name: string)
    requires Records(prior) && Records(later) && ByName(prior, later, |later|) && i < |later| && name != NameOf(later[i])
    requires Find(MergeFirst(prior, later, i), name).Some?
    ensures var x := Find(MergeFirst(prior, later, i), name).value;
      Named(x) && (AccountOf(later[i]).Some? ==> AccountOf(x) != AccountOf(later[i]))
  {
    hide MergeFirst;
    MergedRecords(prior, later, i);
    var r := MergeFirst(prior, later, i);
    FoundIn(r, name, later[i]);
    var k :| 0 <= k < |r| && r[k] == Find(r, name).value && NameOf(r[k]) == name;
    AgreeWhen(r[k], later[i]);
  }

  /** The same holds of the final list, whatever was merged in between. */
  lemma NoForeignAccountFinally(prior: seq<Json>, later: seq<Json>, i: nat, name: string)
    requires Records(prior) && Records(later) && ByName(prior, later, |later|) && i < |later| && name != NameOf(later[i])
    requires Find(MergeFirst(prior, later, |later|), name).Some?
    ensures var x := Find(MergeFirst(prior, later, |later|), name).value;
      Named(x) && (AccountOf(later[i]).Some? ==> AccountOf(x) != AccountOf(later[i]))
  {
    hide MergeFirst;
    assert later[..|later|] == later;
    FindNone(later, name);
    FindNone(prior, name);
    if Find(later, name).None? {
      AccountUntouched(prior, later, |later|, name);
      NotBefore(later, i, name);
      AccountUntouched(prior, later, i, name);
      NoForeignAccount(prior, later, i, name);
    } else {
      var j :| 0 <= j < |later| && NameOf(later[j]) == name;
      AccountAfter(prior, later, |later|, j);
      if AccountOf(later[j]).None? {
        if j < i { AccountAfter(prior, later, i, j); NoForeignAccount(prior, later, i, name); }
        else { AccountOfPrior(prior, later, i, j); }
      } else if j < i {
        AccountAfter(prior, later, i, j);
        NoForeignAccount(prior, later, i, name);
      } else {
        AccountAfter(prior, later, j, i);
        NoForeignAccount(prior, later, j, NameOf(later[i]));
      }
    }
  }

  lemma NotBefore(items: seq<Json>, n: nat, name: string)
    requires Records(items) && n <= |items| && Find(items, name).None?
    ensures Find(items[..n], name).None?
  {
    FindNone(items, name);
    FindNone(items[..n], name);
    forall k | 0 <= k < n ensures Names(items[..n])[k] == Names(items)[k] && Names(items)[k] in Names(items) {}
  }

  lemma AccountOfPrior(prior: seq<Json>, later: seq<Json>, i: nat, j: nat)
    requires Records(prior) && Records(later) && ByName(prior, later, |later|) && i < j < |later|
    ensures var p := Find(prior, NameOf(later[j]));
      p.Some? ==> Named(p.value) && (AccountOf(later[i]).Some? ==> AccountOf(p.value) != AccountOf(later[i]))
  {
    hide MergeFirst;
    var name := NameOf(later[j]);
    FindNone(prior, name);
    if Find(prior, name).Some? {
      FindTake(later, j + 1);
      assert later[..j][..i] == later[..i];
      NotBefore(later[..j], i, name);
      AccountUntouched(prior, later, i, name);
      NoForeignAccount(prior, later, i, name);
    }
  }

  /** In the merged list, each new element again agrees only with the element of its name. */
  lemma AgreesAgain(prior: seq<Json>, later: seq<Json>, i: nat)
    requires Records(prior) && Records(later) && ByName(prior, later, |later|) && i < |later|
    ensures var r := MergeFirst(prior, later, |later|); Records(r) && AgreesByName(r, later[i])
  {
    hide MergeFirst;
    AllLater(prior, later, "");
    var r := MergeFirst(prior, later, |later|);
    forall k | 0 <= k < |r| && SameKey(r[k], later[i]) ensures NameOf(r[k]) == NameOf(later[i]) {
      FindAt(r, k);
      AgreeWhen(r[k], later[i]);
      if NameOf(r[k]) != NameOf(later[i]) { NoForeignAccountFinally(prior, later, i, NameOf(r[k])); }
    }
  }

  lemma {:induction false} SecondPass(prior: seq<Json>, later: seq<Json>, n: nat)
    requires Records(prior) && Records(later) && ByName(prior, later, |later|) && n <= |later|
    requires forall i :: 0 <= i < |later| ==>
      var p := Find(prior, NameOf(later[i])); MergeValue(Some(MergeValue(p, later[i])), later[i]) == MergeValue(p, later[i])
    ensures var r := MergeFirst(prior, later, |later|); MergeFirst(r, later, n) == r
    decreases n
  {
    hide MergeValue, MergeObject, Place;
    if n > 0 {
      SecondPass(prior, later, n - 1);
      var r, v := MergeFirst(prior, later, |later|), later[n - 1];
      AgreesAgain(prior, later, n - 1);
      AllLater(prior, later, NameOf(v));
      FindAt(later, n - 1);
      FoundIn(r, NameOf(v), v);
      var k :| 0 <= k < |r| && r[k] == Find(r, NameOf(v)).value && NameOf(r[k]) == NameOf(v);
      PlaceFound(r, later, n - 1, k);
      MergeObjectIsValue(r[k], v);
    }
  }

  /** A list that meets itself by name meets the empty list by name, and is what it merges to. */
  lemma {:induction false} IntoEmpty(later: seq<Json>, n: nat)
    requires Records(later) && ByName(later, later, |later|) && n <= |later|
    ensures MergeFirst([], later, n) == later[..n] && ByName([], later, n)
    decreases n
  {
    hide MergeFirst, SameKey, Named, ByName;
    if n > 0 {
      IntoEmpty(later, n - 1);
      forall j | 0 <= j < n - 1 ensures !SameKey(later[j], later[n - 1]) {
        SelfAccount(later, n - 1, j);
        AgreeWhen(later[j], later[n - 1]);
      }
      IntoEmptyStep(later, n - 1);
    } else {
      MergeNone(later);
    }
  }

  lemma MergeNone(later: seq<Json>)
    ensures MergeFirst([], later, 0) == later[..0] && ByName([], later, 0)
  {
  }

  lemma IntoEmptyStep(later: seq<Json>, i: nat)
    requires AllNamed(later) && i < |later| && MergeFirst([], later, i) == later[..i] && ByName([], later, i)
    requires forall j :: 0 <= j < i ==> !SameKey(later[j], later[i])
    ensures MergeFirst([], later, i + 1) == later[..i + 1] && ByName([], later, i + 1)
  {
    hide Place, SameKey, Named;
    assert forall k :: 0 <= k < i ==> later[..i][k] == later[k];
    PlaceAt(later[..i], later, i);
    MergeOne([], later, i);
  }

  lemma SelfAccount(later: seq<Json>, i: nat, j: nat)
    requires Records(later) && ByName(later, later, |later|) && j < i < |later|
    ensures AccountOf(later[i]).Some? ==> AccountOf(later[j]) != AccountOf(later[i])
  {
    hide MergeFirst;
    FindAt(later, j);
    AccountAfter(later, later, i, j);
    NoForeignAccount(later, later, i, NameOf(later[j]));
  }

  /** Merging the same document again changes nothing. */
  lemma {:induction false} MergeTwice(o: Option<Json>, v: Json)
    requires Meets(o, v) && FitsByName(v, v)
    ensures MergeValue(Some(MergeValue(o, v)), v) == MergeValue(o, v)
    decreases v
  {
    var x := if o.Some? then o.value else Null;
    if v.Object? {
      forall k | k in v.fields
        ensures MergeValue(Some(MergeValue(o, v).fields[k]), v.fields[k]) == MergeValue(o, v).fields[k]
      {
        if x.Object? { MergeTwice(Get(x.fields, k), v.fields[k]); } else { MergeTwice(None, v.fields[k]); MergeNothing(v.fields[k]); }
      }
      ObjectTwice(MergeValue(o, v), v);
    } else if v.Array? {
      if NoObjects(v.items) {
        ScalarListTwice(o, v);
      } else {
        ListTwice(o, v);
      }
    }
  }

  lemma ListTwice(o: Option<Json>, v: Json)
    requires Meets(o, v) && FitsByName(v, v) && v.Array? && !NoObjects(v.items)
    ensures MergeValue(Some(MergeValue(o, v)), v) == MergeValue(o, v)
    decreases v, 0
  {
    var y := v.items;
    IntoEmpty(y, |y|);
    assert y[..|y|] == y;
    var prior := if o.Some? && o.value.Array? then o.value.items else [];
    forall i | 0 <= i < |y|
      ensures var p := Find(prior, NameOf(y[i])); MergeValue(Some(MergeValue(p, y[i])), y[i]) == MergeValue(p, y[i])
    {
      if prior != [] { ElementMeets(prior, y, i); }
      ElementMeets(y, y, i);
      FindAt(y, i);
      MergeTwice(Find(prior, NameOf(y[i])), y[i]);
    }
    SecondPass(prior, y, |y|);
  }

  lemma ObjectTwice(r: Json, v: Json)
    requires r.Object? && v.Object?
    requires forall k :: k in v.fields ==> k in r.fields && MergeValue(Some(r.fields[k]), v.fields[k]) == r.fields[k]
    ensures MergeValue(Some(r), v) == r
  {
    SameFields(MergeObject(r, v).fields, r.fields);
  }

  lemma ScalarListTwice(o: Option<Json>, v: Json)
    requires v.Array? && NoObjects(v.items)
    ensures MergeValue(Some(MergeValue(o, v)), v) == MergeValue(o, v)
  {
    forall prior { ScalarListIsReplaced(prior, v.items, |v.items|); }
  }

  /** What a document holds behind field names and element names. */
  datatype Step = Key(name: string) | Element(name: string)

  function At(j: Json, p: seq<Step>): Option<Json>
    decreases |p|
  {
    if p == [] then Some(j)
    else if j.Object? && p[0].Key? && p[0].name in j.fields then At(j.fields[p[0].name], p[1..])
    else if j.Array? && p[0].Element? && Find(j.items, p[0].name).Some? then At(Find(j.items, p[0].name).value, p[1..])
    else None
  }

  function AtOption(o: Option<Json>, p: seq<Step>): Option<Json> { if o.Some? then At(o.value, p) else None }

  /** A new value wins wherever the new document has one, and every other value is the old one at the same place. */
  lemma {:induction false} LaterWins(o: Option<Json>, v: Json, p: seq<Step>)
    requires Meets(o, v)
    ensures At(v, p).Some? && IsLeaf(At(v, p).value) ==> At(MergeValue(o, v), p) == At(v, p)
    ensures At(MergeValue(o, v), p).Some? && IsLeaf(At(MergeValue(o, v), p).value) ==>
      At(MergeValue(o, v), p) == if At(v, p).Some? then At(v, p) else AtOption(o, p)
    decreases |p|
  {
    if p != [] && o.Some? {
      if o.value.Object? && v.Object? {
        if p[0].Key? && p[0].name in v.fields { LaterWins(Get(o.value.fields, p[0].name), v.fields[p[0].name], p[1..]); }
      } else if o.value.Array? && v.Array? {
        LaterWinsInList(o.value, v, p);
        if p[0].Element? && !NoObjects(v.items) && Find(v.items, p[0].name).Some? {
          FindNone(v.items, p[0].name);
          var i :| 0 <= i < |v.items| && NameOf(v.items[i]) == p[0].name && Find(v.items, p[0].name) == Some(v.items[i]);
          ElementMeets(o.value.items, v.items, i);
          LaterWins(Find(o.value.items, p[0].name), v.items[i], p[1..]);
        }
      }
    }
  }

  lemma LaterWinsInList(o: Json, v: Json, p: seq<Step>)
    requires Meets(Some(o), v) && o.Array? && v.Array? && p != []
    ensures p[0].Key? ==> At(MergeValue(Some(o), v), p).None?
    ensures p[0].Element? && !NoObjects(v.items) ==>
      var x, w := Find(o.items, p[0].name), Find(v.items, p[0].name);
      At(MergeValue(Some(o), v), p) == if w.Some? then At(MergeValue(x, w.value), p[1..]) else At(o, p)
    ensures p[0].Element? && NoObjects(v.items) ==>
      At(v, p).None? && (At(MergeValue(Some(o), v), p).Some? ==> At(MergeValue(Some(o), v), p) == At(o, p))
  {
    if NoObjects(v.items) {
      ScalarListIsReplaced(o.items, v.items, |v.items|);
      NotInScalars(v.items, p[0].name);
    } else {
      AllLater(o.items, v.items, p[0].name);
    }
  }

  lemma {:induction false} NotInScalars(items: seq<Json>, name: string)
    requires NoObjects(items)
    ensures Find(items, name).None?
    decreases |items|
  {
    if items != [] { assert items[|items| - 1] in items; NotInScalars(items[..|items| - 1], name); }
  }

  // ---- A second key ---------------------------------------------------------------------

  function Account(name: string, account: string): Json {
    Object(map["name" := Scalar(name), "serviceAccountName" := Scalar(account)])
  }

  lemma AccountMerges(name: string, account: string, newName: string, newAccount: string)
    requires name == newName || account == newAccount
    ensures SameKey(Account(name, account), Account(newName, newAccount))
    ensures MergeIfSame(Account(name, account), Account(newName, newAccount)) == Account(newName, newAccount)
  {
    var o, v := Account(name, account), Account(newName, newAccount);
    assert ARRAY_STRUCT_KEYS[0] in ARRAY_STRUCT_KEYS && ARRAY_STRUCT_KEYS[1] in ARRAY_STRUCT_KEYS;
    assert o.fields.Keys == {"name", "serviceAccountName"} == v.fields.Keys;
    forall k | k in v.fields ensures MergeObject(o, v).fields[k] == v.fields[k] {}
    assert MergeObject(o, v).fields == v.fields;
  }

  /** Elements are also matched by serviceAccountName, so a list of unique names can come out with one name twice. */
  lemma SecondKeyBreaksNames()
    ensures MergeFirst([Account("a", "x"), Account("b", "y")], [Account("b", "x")], 1) == [Account("b", "x"), Account("b", "x")]
  {
    hide SameKey, MergeIfSame, SharesKey, MergeValue;
    var prior, later := [Account("a", "x"), Account("b", "y")], [Account("b", "x")];
    AccountMerges("a", "x", "b", "x");
    AccountMerges("b", "y", "b", "x");
    assert prior[0] in prior;
    assert MergeFirst(prior, later, 0) == prior;
    assert Place(prior, later, 0) == [later[0], later[0]];
  }

  function Plain(name: string): Json { Object(map["name" := Scalar(name)]) }

  lemma PlainKeepsAccount(name: string, account: string)
    ensures SameKey(Account(name, account), Plain(name)) && MergeIfSame(Account(name, account), Plain(name)) == Account(name, account)
  {
    var o, v := Account(name, account), Plain(name);
    assert ARRAY_STRUCT_KEYS[0] in ARRAY_STRUCT_KEYS;
    assert MergeObject(o, v).fields == o.fields;
  }

  lemma PlainIsForeign(name: string, other: string, account: string)
    requires name != other
    ensures !SameKey(Account(other, account), Plain(name)) && SharesKey(Account(other, account), Plain(name))
    ensures !SameKey(Plain(name), Account(other, account)) && MergeIfSame(Plain(name), Account(other, account)) == Plain(name)
  {
    assert Named(Account(other, account)) && Named(Plain(name));
    AgreeWhen(Account(other, account), Plain(name));
    AgreeWhen(Plain(name), Account(other, account));
  }

  /**
    Unique names are not enough for the other laws. Here nothing is ambiguous, but the account renames an element: the new
    element "a" is not in the result, and merging the same list again appends it.
   */
  lemma RenamedIsNotIdempotent()
    ensures var prior, later, merged := [Account("a", "x")], [Plain("a"), Account("b", "x")], [Account("b", "x")];
      && Records(prior) && Records(later) && Unambiguous(prior, later, 2)
      && MergeFirst(prior, later, 2) == merged && Find(later, "a").Some? && Find(merged, "a").None?
      && MergeFirst(merged, later, 2) == [Account("b", "x"), Plain("a")]
  {
    var prior, later, merged := [Account("a", "x")], [Plain("a"), Account("b", "x")], [Account("b", "x")];
    hide MergeFirst, Unambiguous, Find, Named, Account, Plain;
    RenamingPass(prior, later);
    AppendingPass(merged, later);
    NamesOfExamples("a", "x");
    NamesOfExamples("b", "x");
    FindAt(later, 0);
    FindNone(merged, "a");
    assert Names(merged) == ["b"];
  }

  lemma NamesOfExamples(name: string, account: string)
    ensures Named(Account(name, account)) && NameOf(Account(name, account)) == name
    ensures Named(Plain(name)) && NameOf(Plain(name)) == name
  {
  }

  lemma RenamingPass(prior: seq<Json>, later: seq<Json>)
    requires prior == [Account("a", "x")] && later == [Plain("a"), Account("b", "x")]
    ensures Unambiguous(prior, later, 2) && MergeFirst(prior, later, 2) == [Account("b", "x")]
  {
    hide SameKey, MergeIfSame, SharesKey, MergeValue, MergeObject;
    PlainKeepsAccount("a", "x");
    AccountMerges("a", "x", "b", "x");
    assert prior[0] in prior;
    assert MergeFirst(prior, later, 0) == prior;
    assert Place(prior, later, 0) == prior;
    assert MergeFirst(prior, later, 1) == prior;
    assert Place(prior, later, 1) == [Account("b", "x")];
  }

  lemma AppendingPass(merged: seq<Json>, later: seq<Json>)
    requires merged == [Account("b", "x")] && later == [Plain("a"), Account("b", "x")]
    ensures MergeFirst(merged, later, 2) == [Account("b", "x"), Plain("a")]
  {
    hide SameKey, MergeIfSame, SharesKey, MergeValue, MergeObject;
    PlainIsForeign("a", "b", "x");
    AccountMerges("b", "x", "b", "x");
    assert MergeFirst(merged, later, 0) == merged;
    assert merged[0] in merged;
    var r := merged + [Plain("a")];
    assert Place(merged, later, 0) == r;
    assert MergeFirst(merged, later, 1) == r;
    assert r[0] in r;
    assert Place(r, later, 1) == r;
  }
}
