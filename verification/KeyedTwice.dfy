/**
  Repeating the merge of one list of named records whose new elements hold plain values: when the second merge changes
  nothing, and when every new value is found in the result. The accounts decide, as they rename elements.
 */
module KeyedTwice {
  import opened Options
  import opened MergePatch
  import opened KeyedMerge
  import opened KeyedLaws

  predicate Flat(v: Json) { v.Object? && forall f :: f in v.fields ==> IsLeaf(v.fields[f]) }

  /** Named records with plain values. */
  predicate FlatRecords(items: seq<Json>) { Records(items) && forall i :: 0 <= i < |items| ==> Flat(items[i]) }

  lemma Overlay(o: Json, v: Json)
    requires o.Object? && Flat(v)
    ensures MergeObject(o, v) == Object(o.fields + v.fields)
  {
    assert MergeObject(o, v).fields == o.fields + v.fields;
  }

  // ---- Where new elements go -------------------------------------------------------------

  /** The i-th new element is merged into, or appended at, place k. */
  predicate Hits(prior: seq<Json>, later: seq<Json>, i: nat, k: nat)
    requires i < |later|
  {
    var r := MergeFirst(prior, later, i);
    if k < |r| then SameKey(r[k], later[i]) else k == |r| && forall j :: 0 <= j < |r| ==> !SameKey(r[j], later[i])
  }

  lemma HitExists(prior: seq<Json>, later: seq<Json>, i: nat) returns (k: nat)
    requires i < |later|
    ensures Hits(prior, later, i, k)
  {
    hide MergeFirst, SameKey;
    var r := MergeFirst(prior, later, i);
    if j :| 0 <= j < |r| && SameKey(r[j], later[i]) { k := j; } else { k := |r|; }
  }

  lemma {:induction false} StaysNamed(prior: seq<Json>, later: seq<Json>, i: nat)
    requires AllNamed(prior) && AllNamed(later) && i <= |later|
    ensures AllNamed(MergeFirst(prior, later, i)) && |prior| <= |MergeFirst(prior, later, i)|
    decreases i
  {
    hide Place;
    if i > 0 {
      StaysNamed(prior, later, i - 1);
      PlaceAt(MergeFirst(prior, later, i - 1), later, i - 1);
    }
  }

  lemma {:induction false} Grows(prior: seq<Json>, later: seq<Json>, i: nat, n: nat)
    requires AllNamed(prior) && AllNamed(later) && i <= n <= |later|
    ensures |MergeFirst(prior, later, i)| <= |MergeFirst(prior, later, n)|
    decreases n
  {
    hide Place;
    if i < n {
      Grows(prior, later, i, n - 1);
      StaysNamed(prior, later, n - 1);
      PlaceAt(MergeFirst(prior, later, n - 1), later, n - 1);
    }
  }

  /** The place of a new element keeps its account for good, has the name of it or of a later one, and shares neither. */
  ghost predicate Settles(r: seq<Json>, later: seq<Json>, i: nat, k: nat, n: nat)
    requires i < n <= |later| && AllNamed(later)
  {
    var v := later[i];
    && AllNamed(r) && k < |r|
    && (exists j :: i <= j < n && NameOf(r[k]) == NameOf(later[j]))
    && (forall j :: 0 <= j < |r| && j != k ==> NameOf(r[j]) != NameOf(v))
    && (AccountOf(v).Some? ==> AccountOf(r[k]) == AccountOf(v))
    && (AccountOf(v).Some? ==> forall j :: 0 <= j < |r| && j != k ==> AccountOf(r[j]) != AccountOf(v))
    && (NameOf(r[k]) == NameOf(v) && Flat(v) ==> forall f :: f in v.fields ==> f in r[k].fields && r[k].fields[f] == v.fields[f])
  }

  lemma {:induction false} Settled(prior: seq<Json>, later: seq<Json>, i: nat, k: nat, n: nat)
    requires Records(prior) && Records(later) && i < n <= |later| && Unambiguous(prior, later, n) && Hits(prior, later, i, k)
    ensures Settles(MergeFirst(prior, later, n), later, i, k, n)
    decreases n
  {
    hide MergeFirst, Place, SameKey, MergeObject, Settles, Ambiguous, Hits;
    StaysNamed(prior, later, n - 1);
    MergeOne(prior, later, n - 1);
    assert !Ambiguous(MergeFirst(prior, later, n - 1), later[n - 1]);
    if n - 1 == i {
      HitMeans(prior, later, i, k);
      SettlesAtOnce(MergeFirst(prior, later, i), later, i, k);
    } else {
      Settled(prior, later, i, k, n - 1);
      SettlesOn(MergeFirst(prior, later, n - 1), later, i, k, n);
    }
  }

  lemma HitMeans(prior: seq<Json>, later: seq<Json>, i: nat, k: nat)
    requires i < |later| && Hits(prior, later, i, k)
    ensures var r := MergeFirst(prior, later, i);
      if k < |r| then SameKey(r[k], later[i]) else k == |r| && forall j :: 0 <= j < |r| ==> !SameKey(r[j], later[i])
  {
  }

  lemma SettlesAtOnce(r: seq<Json>, later: seq<Json>, i: nat, k: nat)
    requires AllNamed(r) && AllNamed(later) && i < |later| && !Ambiguous(r, later[i])
    requires if k < |r| then SameKey(r[k], later[i]) else k == |r| && forall j :: 0 <= j < |r| ==> !SameKey(r[j], later[i])
    ensures Settles(Place(r, later, i), later, i, k, i + 1)
  {
    hide SameKey, MergeObject, Place;
    var v := later[i];
    PlaceAt(r, later, i);
    forall j | 0 <= j < |r| && j != k ensures !SameKey(r[j], v) { assert k < |r| && SameKey(r[j], v) ==> Ambiguous(r, v); }
    forall j | 0 <= j < |r| && j != k
      ensures NameOf(r[j]) != NameOf(v) && (AccountOf(v).Some? ==> AccountOf(r[j]) != AccountOf(v))
    {
      AgreeWhen(r[j], v);
    }
    if k < |r| {
      MergedElement(r[k], v);
      if Flat(v) { Overlay(r[k], v); }
    }
  }

  lemma SettlesOn(r: seq<Json>, later: seq<Json>, i: nat, k: nat, n: nat)
    requires Records(later) && i < n - 1 < |later| && Settles(r, later, i, k, n - 1) && !Ambiguous(r, later[n - 1])
    ensures Settles(Place(r, later, n - 1), later, i, k, n)
  {
    hide SameKey, MergeObject, Place, Flat;
    var v, w := later[i], later[n - 1];
    PlaceAt(r, later, n - 1);
    AgreeWhen(r[k], w);
    forall j | 0 <= j < |r| && j != k && SameKey(r[j], w) ensures AccountOf(v).Some? ==> AccountOf(w) != AccountOf(v) {
      OnlyOne(r, w, j, k);
    }
    forall j | 0 <= j < |r|
      ensures var x := MergeObject(r[j], w);
        Named(x) && NameOf(x) == NameOf(w) && AccountOf(x) == if AccountOf(w).Some? then AccountOf(w) else AccountOf(r[j])
    {
      MergedElement(r[j], w);
    }
    assert exists j :: i <= j < n - 1 && NameOf(r[k]) == NameOf(later[j]);
    assert NameOf(r[k]) != NameOf(w);
  }

  lemma OnlyOne(items: seq<Json>, v: Json, j: nat, k: nat)
    requires j < |items| && k < |items| && j != k && SameKey(items[j], v) && !Ambiguous(items, v)
    ensures !SameKey(items[k], v)
  {
    hide SameKey;
  }

  // ---- What new elements write -------------------------------------------------------------

  /** What the first i new elements wrote to place k, the last value of each field. */
  function Written(prior: seq<Json>, later: seq<Json>, i: nat, k: nat): map<string, Json>
    requires i <= |later| && AllNamed(later)
    decreases i
  {
    if i == 0 then map[]
    else
      var w := Written(prior, later, i - 1, k);
      if Hits(prior, later, i - 1, k) then w + later[i - 1].fields else w
  }

  function FieldsAt(items: seq<Json>, k: nat): map<string, Json> {
    if k < |items| && items[k].Object? then items[k].fields else map[]
  }

  /** The merged list, place by place: the old fields under everything that was written over them. */
  lemma {:induction false} FirstPass(prior: seq<Json>, later: seq<Json>, i: nat, k: nat)
    requires Records(prior) && FlatRecords(later) && i <= |later|
    ensures AllNamed(MergeFirst(prior, later, i))
    ensures FieldsAt(MergeFirst(prior, later, i), k) == FieldsAt(prior, k) + Written(prior, later, i, k)
    ensures |prior| <= |MergeFirst(prior, later, i)| <= k ==> Written(prior, later, i, k) == map[]
    decreases i
  {
    hide MergeFirst, Place, SameKey, MergeObject, Hits;
    StaysNamed(prior, later, i);
    if i > 0 {
      FirstPass(prior, later, i - 1, k);
      MergeOne(prior, later, i - 1);
      var before := MergeFirst(prior, later, i - 1);
      PlaceAt(before, later, i - 1);
      HitIff(prior, later, i - 1, k);
      if k < |before| { Overlay(before[k], later[i - 1]); }
    } else {
      MergeZero(prior, later);
    }
  }

  lemma MergeZero(prior: seq<Json>, later: seq<Json>)
    ensures MergeFirst(prior, later, 0) == prior
  {
  }

  lemma HitIff(prior: seq<Json>, later: seq<Json>, i: nat, k: nat)
    requires i < |later|
    ensures var r := MergeFirst(prior, later, i);
      Hits(prior, later, i, k) <==> if k < |r| then SameKey(r[k], later[i]) else k == |r| && forall j :: 0 <= j < |r| ==> !SameKey(r[j], later[i])
  {
  }

  /** What was written to a place has the name of its last element; without an account, that element had none. */
  lemma {:induction false} LastWriter(prior: seq<Json>, later: seq<Json>, i: nat, k: nat) returns (h: nat)
    requires AllNamed(later) && i <= |later| && Written(prior, later, i, k) != map[]
    ensures h < i && Hits(prior, later, h, k)
    ensures var w := Written(prior, later, i, k);
      && "name" in w && w["name"] == Scalar(NameOf(later[h]))
      && ("serviceAccountName" !in w ==> AccountOf(later[h]).None?)
    decreases i
  {
    hide Hits;
    if Hits(prior, later, i - 1, k) { h := i - 1; } else { h := LastWriter(prior, later, i - 1, k); }
  }

  // ---- The second merge ----------------------------------------------------------------------

  /** Every new element without an account is found by its name in the result. */
  predicate NamesHeld(r: seq<Json>, later: seq<Json>)
    requires Records(r) && AllNamed(later)
  {
    forall i :: 0 <= i < |later| && AccountOf(later[i]).None? ==> NameOf(later[i]) in Names(r)
  }

  /** The element of the second merge at place k, before the i-th new element. */
  function Again(prior: seq<Json>, later: seq<Json>, i: nat, k: nat): Json
    requires i <= |later| && AllNamed(later)
  {
    Object(FieldsAt(MergeFirst(prior, later, |later|), k) + Written(prior, later, i, k))
  }

  ghost predicate Setting(prior: seq<Json>, later: seq<Json>) {
    && Records(prior) && FlatRecords(later) && Unambiguous(prior, later, |later|)
    && Records(MergeFirst(prior, later, |later|)) && NamesHeld(MergeFirst(prior, later, |later|), later)
  }

  lemma AgainNamed(prior: seq<Json>, later: seq<Json>, i: nat, k: nat)
    requires Setting(prior, later) && i <= |later| && k < |MergeFirst(prior, later, |later|)|
    ensures var x, w, r := Again(prior, later, i, k), Written(prior, later, i, k), MergeFirst(prior, later, |later|);
      && Named(x) && Named(r[k])
      && (w == map[] ==> x == r[k])
      && ("name" in w <==> w != map[])
      && (w != map[] ==> Scalar(NameOf(x)) == w["name"])
      && AccountOf(x) == if "serviceAccountName" in w then Some(w["serviceAccountName"]) else AccountOf(r[k])
  {
    hide Hits, MergeFirst, Unambiguous, NamesHeld;
    var r := MergeFirst(prior, later, |later|);
    assert Named(r[k]);
    WrittenLeaves(prior, later, i, k);
    if Written(prior, later, i, k) != map[] {
      var h := LastWriter(prior, later, i, k);
    } else {
      assert r[k].fields + map[] == r[k].fields;
    }
  }

  lemma {:induction false} WrittenLeaves(prior: seq<Json>, later: seq<Json>, i: nat, k: nat)
    requires FlatRecords(later) && i <= |later|
    ensures forall f :: f in Written(prior, later, i, k) ==> IsLeaf(Written(prior, later, i, k)[f])
    decreases i
  {
    hide Hits;
    if i > 0 { WrittenLeaves(prior, later, i - 1, k); }
  }

  /** The second merge takes each new element to the place of the first one. */
  lemma HitsAgain(prior: seq<Json>, later: seq<Json>, i: nat, k: nat)
    requires Setting(prior, later) && i < |later| && Hits(prior, later, i, k)
    ensures k < |MergeFirst(prior, later, |later|)| && SameKey(Again(prior, later, i, k), later[i])
  {
    hide MergeFirst, SameKey, Hits, Written, Unambiguous, Again;
    var r, v, w := MergeFirst(prior, later, |later|), later[i], Written(prior, later, i, k);
    Settled(prior, later, i, k, |later|);
    AgainNamed(prior, later, i, k);
    var x := Again(prior, later, i, k);
    AgreeWhen(x, v);
    if w == map[] {
      NameIsHeld(r, later, i, k);
    } else {
      HitNow(prior, later, i, k);
    }
  }

  /** A place that was written to before is hit by its account. */
  lemma HitNow(prior: seq<Json>, later: seq<Json>, i: nat, k: nat)
    requires Records(prior) && FlatRecords(later) && i < |later| && Hits(prior, later, i, k)
    requires Written(prior, later, i, k) != map[]
    ensures var w := Written(prior, later, i, k);
      AccountOf(later[i]).Some? && ("serviceAccountName" in w ==> w["serviceAccountName"] == AccountOf(later[i]).value)
  {
    hide MergeFirst, SameKey, Hits, Unambiguous;
    FirstPass(prior, later, i, k);
    HitIff(prior, later, i, k);
    var h := LastWriter(prior, later, i, k);
    var r := MergeFirst(prior, later, i);
    assert k < |r|;
    AgreeWhen(r[k], later[i]);
  }

  lemma NameIsHeld(r: seq<Json>, later: seq<Json>, i: nat, k: nat)
    requires Records(r) && AllNamed(later) && NamesHeld(r, later) && i < |later| && Settles(r, later, i, k, |later|)
    ensures AccountOf(later[i]).None? ==> NameOf(r[k]) == NameOf(later[i])
  {
    if AccountOf(later[i]).None? {
      var j :| 0 <= j < |r| && Names(r)[j] == NameOf(later[i]);
    }
  }

  /** And to no other. */
  lemma MissesAgain(prior: seq<Json>, later: seq<Json>, i: nat, k: nat)
    requires Setting(prior, later) && i < |later| && !Hits(prior, later, i, k) && k < |MergeFirst(prior, later, |later|)|
    ensures !SameKey(Again(prior, later, i, k), later[i])
  {
    hide MergeFirst, SameKey, Hits, Written, Unambiguous, Again;
    var r, v, w := MergeFirst(prior, later, |later|), later[i], Written(prior, later, i, k);
    var at := HitExists(prior, later, i);
    Settled(prior, later, i, at, |later|);
    AgainNamed(prior, later, i, k);
    var x := Again(prior, later, i, k);
    AgreeWhen(x, v);
    if w != map[] {
      var h := LastWriter(prior, later, i, k);
      assert NameOf(x) == NameOf(later[h]) != NameOf(v);
      if "serviceAccountName" in w { MissNow(prior, later, i, k); }
    }
  }

  lemma MissNow(prior: seq<Json>, later: seq<Json>, i: nat, k: nat)
    requires Records(prior) && FlatRecords(later) && i < |later| && !Hits(prior, later, i, k)
    requires "serviceAccountName" in Written(prior, later, i, k)
    ensures AccountOf(later[i]) != Some(Written(prior, later, i, k)["serviceAccountName"])
  {
    hide MergeFirst, SameKey, Hits, Unambiguous;
    FirstPass(prior, later, i, k);
    HitIff(prior, later, i, k);
    var r := MergeFirst(prior, later, i);
    assert k < |r|;
    AgreeWhen(r[k], later[i]);
  }

  lemma {:induction false} SecondPassAt(prior: seq<Json>, later: seq<Json>, i: nat)
    requires Setting(prior, later) && i <= |later|
    ensures var r := MergeFirst(prior, later, |later|); var s := MergeFirst(r, later, i);
      |s| == |r| && forall k :: 0 <= k < |r| ==> s[k] == Again(prior, later, i, k)
    decreases i
  {
    hide MergeFirst, SameKey, Hits, Place, MergeObject, Setting, Again;
    var r := MergeFirst(prior, later, |later|);
    assert AllNamed(r) && FlatRecords(later) by { SettingMeans(prior, later); }
    if i > 0 {
      SecondPassAt(prior, later, i - 1);
      var s := MergeFirst(r, later, i - 1);
      StaysNamed(r, later, i - 1);
      MergeOne(r, later, i - 1);
      PlaceAt(s, later, i - 1);
      var at := HitExists(prior, later, i - 1);
      HitsAgain(prior, later, i - 1, at);
      forall k | 0 <= k < |r| ensures Place(s, later, i - 1)[k] == Again(prior, later, i, k) {
        if Hits(prior, later, i - 1, k) { HitsAgain(prior, later, i - 1, k); } else { MissesAgain(prior, later, i - 1, k); }
        AgainStep(prior, later, i - 1, k);
      }
    } else {
      MergeZero(r, later);
      forall k | 0 <= k < |r| ensures r[k] == Again(prior, later, 0, k) { AgainNamed(prior, later, 0, k); }
    }
  }

  lemma SettingMeans(prior: seq<Json>, later: seq<Json>)
    requires Setting(prior, later)
    ensures FlatRecords(later) && Records(MergeFirst(prior, later, |later|))
  {
  }

  lemma AgainStep(prior: seq<Json>, later: seq<Json>, i: nat, k: nat)
    requires FlatRecords(later) && i < |later|
    ensures Again(prior, later, i + 1, k) ==
      if Hits(prior, later, i, k) then MergeObject(Again(prior, later, i, k), later[i]) else Again(prior, later, i, k)
  {
    hide MergeFirst, Hits;
    Overlay(Again(prior, later, i, k), later[i]);
    var base, w := FieldsAt(MergeFirst(prior, later, |later|), k), Written(prior, later, i, k);
    assert base + (w + later[i].fields) == base + w + later[i].fields;
  }

  /** Where names are held, the second merge changes nothing. */
  lemma HeldIsIdempotent(prior: seq<Json>, later: seq<Json>)
    requires Setting(prior, later)
    ensures var r := MergeFirst(prior, later, |later|); MergeFirst(r, later, |later|) == r
  {
    hide MergeFirst, Written, NamesHeld, Unambiguous;
    var n, r := |later|, MergeFirst(prior, later, |later|);
    SecondPassAt(prior, later, n);
    forall k | 0 <= k < |r| ensures Again(prior, later, n, k) == r[k] {
      FirstPass(prior, later, n, k);
      var base, w := FieldsAt(prior, k), Written(prior, later, n, k);
      assert base + w + w == base + w;
    }
  }

  // ---- Without a held name -----------------------------------------------------------------------

  lemma {:induction false} NamesComeFrom(r: seq<Json>, later: seq<Json>, i: nat, k: nat)
    requires AllNamed(r) && AllNamed(later) && i <= |later| && k < |MergeFirst(r, later, i)|
    ensures AllNamed(MergeFirst(r, later, i))
    ensures var x := NameOf(MergeFirst(r, later, i)[k]);
      (exists j :: 0 <= j < |r| && x == NameOf(r[j])) || exists j :: 0 <= j < i && x == NameOf(later[j])
    decreases i
  {
    hide MergeFirst, Place, SameKey, MergeObject, Named;
    StaysNamed(r, later, i);
    if i > 0 {
      MergeOne(r, later, i - 1);
      StaysNamed(r, later, i - 1);
      var before := MergeFirst(r, later, i - 1);
      PlaceAt(before, later, i - 1);
      if k < |before| {
        NamesComeFrom(r, later, i - 1, k);
        MergedNames(before[k], later[i - 1]);
      }
    } else {
      MergeZero(r, later);
    }
  }

  lemma MergedNames(o: Json, v: Json)
    requires Named(o) && Named(v)
    ensures o.Object? && v.Object? && Named(MergeObject(o, v)) && NameOf(MergeObject(o, v)) == NameOf(v)
  {
    MergedElement(o, v);
  }

  /** A new element without an account whose name is not there is appended. */
  lemma UnheldGrows(r: seq<Json>, later: seq<Json>, i: nat)
    requires Records(r) && Records(later) && i < |later| && AccountOf(later[i]).None? && NameOf(later[i]) !in Names(r)
    ensures |MergeFirst(r, later, |later|)| > |r|
  {
    hide MergeFirst, Place, SameKey, MergeObject, Named;
    var s := MergeFirst(r, later, i);
    StaysNamed(r, later, i);
    MergeOne(r, later, i);
    PlaceAt(s, later, i);
    forall k | 0 <= k < |s| ensures !SameKey(s[k], later[i]) {
      NamesComeFrom(r, later, i, k);
      AgreeWhen(s[k], later[i]);
      forall j | 0 <= j < |r| ensures NameOf(r[j]) != NameOf(later[i]) { assert Names(r)[j] == NameOf(r[j]); }
    }
    Grows(r, later, i + 1, |later|);
  }

  // ---- Results -----------------------------------------------------------------------------------

  /**
    Merging the same list again changes nothing if and only if every new element without an account is found by its name in
    the merged list, that is, no other new element of its account has renamed it.
   */
  lemma MergeTwiceIff(prior: seq<Json>, later: seq<Json>)
    requires Records(prior) && FlatRecords(later) && Unambiguous(prior, later, |later|)
    ensures var r := MergeFirst(prior, later, |later|);
      && Records(r)
      && (MergeFirst(r, later, |later|) == r <==> NamesHeld(r, later))
  {
    hide MergeFirst, Unambiguous, Named;
    NamesStayUniqueIff(prior, later, |later|);
    var r := MergeFirst(prior, later, |later|);
    if NamesHeld(r, later) {
      HeldIsIdempotent(prior, later);
    } else {
      var i :| 0 <= i < |later| && AccountOf(later[i]).None? && NameOf(later[i]) !in Names(r);
      UnheldGrows(r, later, i);
    }
  }

  /** Every plain value of the new list stands in the merged list, at the same place. */
  ghost predicate NewValuesWin(r: seq<Json>, later: seq<Json>) {
    forall p :: At(Array(later), p).Some? && IsLeaf(At(Array(later), p).value) ==> At(Array(r), p) == At(Array(later), p)
  }

  /** New values win if and only if every new name is in the merged list, that is, no new element is renamed by another. */
  lemma NewValuesWinIff(prior: seq<Json>, later: seq<Json>)
    requires Records(prior) && FlatRecords(later) && Unambiguous(prior, later, |later|)
    ensures var r := MergeFirst(prior, later, |later|);
      && Records(r)
      && (NewValuesWin(r, later) <==> forall i :: 0 <= i < |later| ==> NameOf(later[i]) in Names(r))
  {
    hide MergeFirst, Unambiguous, Named, At, Find;
    NamesStayUniqueIff(prior, later, |later|);
    var r := MergeFirst(prior, later, |later|);
    if NewValuesWin(r, later) {
      forall i | 0 <= i < |later| ensures NameOf(later[i]) in Names(r) { NameValue(r, later, i); }
    } else {
      var p :| At(Array(later), p).Some? && IsLeaf(At(Array(later), p).value) && At(Array(r), p) != At(Array(later), p);
      var i := ValueOf(later, p);
      if NameOf(later[i]) in Names(r) { ValueIsThere(prior, later, i, p); }
    }
  }

  lemma NameValue(r: seq<Json>, later: seq<Json>, i: nat)
    requires Records(r) && Records(later) && i < |later| && NewValuesWin(r, later)
    ensures NameOf(later[i]) in Names(r)
  {
    var p := [Element(NameOf(later[i])), Key("name")];
    FindAt(later, i);
    FindNone(r, NameOf(later[i]));
    assert p[1..] == [Key("name")];
    assert At(later[i], p[1..]) == Some(later[i].fields["name"]);
    assert At(Array(later), p) == Some(later[i].fields["name"]);
  }

  /** A plain value of a list of flat records is a field of one element. */
  lemma ValueOf(later: seq<Json>, p: seq<Step>) returns (i: nat)
    requires FlatRecords(later) && At(Array(later), p).Some? && IsLeaf(At(Array(later), p).value)
    ensures i < |later| && |p| == 2 && p[0] == Element(NameOf(later[i])) && p[1].Key? && p[1].name in later[i].fields
    ensures At(Array(later), p) == Some(later[i].fields[p[1].name])
  {
    assert p != [] && p[0].Element?;
    FindNone(later, p[0].name);
    i :| 0 <= i < |later| && NameOf(later[i]) == p[0].name && Find(later, p[0].name) == Some(later[i]);
    assert At(Array(later), p) == At(later[i], p[1..]);
    assert p[1..] != [] && p[1..][0] == p[1] && p[1..][1..] == p[2..];
    assert At(later[i], p[1..]) == At(later[i].fields[p[1].name], p[2..]);
  }

  lemma ValueIsThere(prior: seq<Json>, later: seq<Json>, i: nat, p: seq<Step>)
    requires Records(prior) && FlatRecords(later) && Unambiguous(prior, later, |later|) && i < |later|
    requires Records(MergeFirst(prior, later, |later|)) && NameOf(later[i]) in Names(MergeFirst(prior, later, |later|))
    requires |p| == 2 && p[0] == Element(NameOf(later[i])) && p[1].Key? && p[1].name in later[i].fields
    ensures At(Array(MergeFirst(prior, later, |later|)), p) == Some(later[i].fields[p[1].name])
  {
    hide MergeFirst, Unambiguous, Hits, Find;
    var r := MergeFirst(prior, later, |later|);
    var k := HitExists(prior, later, i);
    Settled(prior, later, i, k, |later|);
    var j :| 0 <= j < |r| && Names(r)[j] == NameOf(later[i]);
    assert j == k;
    FindAt(r, k);
    assert p[1..] == [p[1]] && p[1..][1..] == [];
    assert At(r[k], p[1..]) == Some(r[k].fields[p[1].name]);
  }
}
