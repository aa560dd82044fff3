/** The inventory of rendered configuration resources: keys, normalization and the removal of disabled resources. */
module Inventory {
  import opened Options
  import opened SortedStrings

  const DELETE := "delete"

  datatype Resource = Resource(configuration: string, configurationUid: string, group: string, version: string, kind: string,
                               namespace: string, name: string, namespaced: bool, ownerUid: string, resourceUid: string,
                               disablePolicy: string)

  // ---- Keys -----------------------------------------------------------------------

  predicate CompleteIdentity(r: Resource) { r.version != "" && r.kind != "" && r.name != "" }

  /** renderedConfigurationResourceKey */
  function Key(r: Resource): string {
    if !CompleteIdentity(r) then ""
    else r.group + "/" + (r.version + "/" + (r.kind + "/" + (r.namespace + "/" + r.name)))
  }

  predicate SlashFree(s: string) { '/' !in s }

  predicate PlainIdentity(r: Resource) {
    SlashFree(r.group) && SlashFree(r.version) && SlashFree(r.kind) && SlashFree(r.namespace) && SlashFree(r.name)
  }

  lemma {:induction false} SplitAtSlash(a: string, x: string, b: string, y: string)
    requires SlashFree(a) && SlashFree(b) && a + "/" + x == b + "/" + y
    ensures a == b && x == y
    decreases |a|
  {
    var s, t := a + "/" + x, b + "/" + y;
    assert s[0] == t[0];
    assert (a != [] ==> s[0] == a[0] && a[0] in a) && (b != [] ==> t[0] == b[0] && b[0] in b);
    if a == [] || b == [] {
      assert s[1..] == x && t[1..] == y;
    } else {
      assert s[0] == a[0] && t[0] == b[0];
      assert s[1..] == a[1..] + "/" + x && t[1..] == b[1..] + "/" + y;
      SplitAtSlash(a[1..], x, b[1..], y);
      assert a == [a[0]] + a[1..] && b == [b[0]] + b[1..];
    }
  }

  /** Equal keys of plain identities mean equal identities. */
  lemma KeyIsInjective(r: Resource, s: Resource)
    requires CompleteIdentity(r) && CompleteIdentity(s) && PlainIdentity(r) && PlainIdentity(s) && Key(r) == Key(s)
    ensures r.group == s.group && r.version == s.version && r.kind == s.kind && r.namespace == s.namespace && r.name == s.name
  {
    var r4, s4 := r.namespace + "/" + r.name, s.namespace + "/" + s.name;
    var r3, s3 := r.kind + "/" + r4, s.kind + "/" + s4;
    var r2, s2 := r.version + "/" + r3, s.version + "/" + s3;
    SplitAtSlash(r.group, r2, s.group, s2);
    SplitAtSlash(r.version, r3, s.version, s3);
    SplitAtSlash(r.kind, r4, s.kind, s4);
    SplitAtSlash(r.namespace, r.name, s.namespace, s.name);
  }

  lemma KeyOfComplete(r: Resource)
    ensures Key(r) != "" <==> CompleteIdentity(r)
  {
  }

  // ---- Normalization ----------------------------------------------------------------

  datatype Normalized = Ok(resources: seq<Resource>) | Incomplete(configuration: string) | Shared(first: string, second: string)

  function Keys(resources: seq<Resource>): seq<string> {
    seq(|resources|, i requires 0 <= i < |resources| => Key(resources[i]))
  }

  ghost predicate Distinct<T>(s: seq<T>) { forall i, j :: 0 <= i < j < |s| ==> s[i] != s[j] }

  lemma {:induction false} DistinctMultiset<T>(s: seq<T>, x: T)
    requires Distinct(s)
    ensures multiset(s)[x] == if x in s then 1 else 0
    decreases |s|
  {
    if s != [] {
      var n := |s| - 1;
      assert s == s[..n] + [s[n]];
      DistinctMultiset(s[..n], x);
    }
  }

  lemma {:induction false} CountsDistinct<T>(s: seq<T>)
    requires forall x :: multiset(s)[x] <= 1
    ensures Distinct(s)
    decreases |s|
  {
    if s != [] {
      var n := |s| - 1;
      assert s == s[..n] + [s[n]];
      forall x ensures multiset(s[..n])[x] <= 1 { assert multiset(s)[x] <= 1; }
      CountsDistinct(s[..n]);
      assert multiset(s)[s[n]] == multiset(s[..n])[s[n]] + 1;
      assert s[n] !in multiset(s[..n]);
    }
  }

  lemma Permutation<T>(s: seq<T>, t: seq<T>)
    requires Distinct(s) && Distinct(t) && forall x :: x in s <==> x in t
    ensures multiset(s) == multiset(t)
  {
    forall x ensures multiset(s)[x] == multiset(t)[x] { DistinctMultiset(s, x); DistinctMultiset(t, x); }
  }

  /** The keys of a map in some order. */
  method KeysOf<V>(m: map<string, V>) returns (keys: seq<string>)
    ensures Distinct(keys) && forall k :: k in keys <==> k in m
  {
    keys := [];
    var todo := m.Keys;
    while todo != {}
      invariant todo <= m.Keys && Distinct(keys)
      invariant forall k :: k in keys <==> k in m && k !in todo
      decreases todo
    {
      var k :| k in todo;
      keys := keys + [k];
      todo := todo - {k};
    }
  }

  lemma SortedKeys(keys: seq<string>)
    requires Distinct(keys)
    ensures StrictlySorted(Sort(keys)) && forall k :: k in Sort(keys) <==> k in keys
  {
    var s := Sort(keys);
    forall k ensures k in s <==> k in keys { SameElements(keys, k); }
    forall k ensures multiset(s)[k] <= 1 { DistinctMultiset(keys, k); }
    CountsDistinct(s);
  }

  /** The first n resources are complete, with different keys, and indexed by them. */
  ghost predicate Indexed(resources: seq<Resource>, n: nat, byKey: map<string, Resource>)
    requires n <= |resources|
  {
    && (forall i :: 0 <= i < n ==> CompleteIdentity(resources[i]) && Key(resources[i]) in byKey && byKey[Key(resources[i])] == resources[i])
    && (forall k :: k in byKey ==> k == Key(byKey[k]) && exists i :: 0 <= i < n && byKey[k] == resources[i])
    && (forall i, j :: 0 <= i < j < n ==> Key(resources[i]) != Key(resources[j]))
  }

  /** Why a list is refused: an incomplete identity, or two resources with one key. */
  ghost predicate Refused(resources: seq<Resource>, r: Normalized) {
    match r
    case Ok(_) => false
    case Incomplete(c) => exists x :: x in resources && !CompleteIdentity(x) && x.configuration == c
    case Shared(first, second) =>
      exists i, j :: 0 <= i < j < |resources| && Key(resources[i]) == Key(resources[j])
        && resources[i].configuration == first && resources[j].configuration == second
  }

  lemma IndexOne(resources: seq<Resource>, n: nat, byKey: map<string, Resource>)
    requires n < |resources| && Indexed(resources, n, byKey)
    requires CompleteIdentity(resources[n]) && Key(resources[n]) !in byKey
    ensures Indexed(resources, n + 1, byKey[Key(resources[n]) := resources[n]])
  {
    hide Key, CompleteIdentity;
  }

  method Index(resources: seq<Resource>) returns (refusal: Option<Normalized>, byKey: map<string, Resource>)
    ensures refusal.None? ==> Indexed(resources, |resources|, byKey)
    ensures refusal.Some? ==> Refused(resources, refusal.value)
  {
    hide Key, CompleteIdentity;
    byKey := map[];
    for n := 0 to |resources|
      invariant Indexed(resources, n, byKey)
    {
      var key := Key(resources[n]);
      KeyOfComplete(resources[n]);
      if key == "" { return Some(Incomplete(resources[n].configuration)), byKey; }
      if key in byKey { return Some(Shared(byKey[key].configuration, resources[n].configuration)), byKey; }
      IndexOne(resources, n, byKey);
      byKey := byKey[key := resources[n]];
    }
    return None, byKey;
  }

  /**
    normalizeRenderedConfigurationResources: a permutation sorted by key without repeated keys, or an error exactly when
    some identity is incomplete or some key occurs twice.
   */
  method Normalize(resources: seq<Resource>) returns (r: Normalized)
    ensures r.Ok? <==> (forall x :: x in resources ==> x.version != "" && x.kind != "" && x.name != "") && Distinct(Keys(resources))
    ensures r.Ok? ==> StrictlySorted(Keys(r.resources)) && multiset(r.resources) == multiset(resources)
    ensures !r.Ok? ==> Refused(resources, r)
  {
    hide Key, Indexed;
    var refusal, byKey := Index(resources);
    if refusal.Some? {
      RefusedIsFaulty(resources, refusal.value);
      return refusal.value;
    }
    IndexedIsDistinct(resources, byKey);
    var keys := KeysOf(byKey);
    SortedKeys(keys);
    keys := Sort(keys);
    var result: seq<Resource> := [];
    for n := 0 to |keys|
      invariant |result| == n && forall i :: 0 <= i < n ==> keys[i] in byKey && result[i] == byKey[keys[i]]
    {
      assert keys[n] in keys;
      result := result + [byKey[keys[n]]];
    }
    SortedIsPermutation(resources, keys, result, byKey);
    return Ok(result);
  }

  lemma RefusedIsFaulty(resources: seq<Resource>, r: Normalized)
    requires Refused(resources, r)
    ensures !((forall x :: x in resources ==> CompleteIdentity(x)) && Distinct(Keys(resources)))
  {
    hide Key, CompleteIdentity;
    if r.Shared? {
      var i, j :| 0 <= i < j < |resources| && Key(resources[i]) == Key(resources[j]);
      assert Keys(resources)[i] == Keys(resources)[j];
    }
  }

  lemma IndexedIsDistinct(resources: seq<Resource>, byKey: map<string, Resource>)
    requires Indexed(resources, |resources|, byKey)
    ensures (forall x :: x in resources ==> CompleteIdentity(x)) && Distinct(Keys(resources))
  {
    hide Key, CompleteIdentity;
  }

  lemma SortedIsPermutation(resources: seq<Resource>, keys: seq<string>, result: seq<Resource>, byKey: map<string, Resource>)
    requires |result| == |keys| && StrictlySorted(keys) && forall k :: k in keys <==> k in byKey
    requires forall i :: 0 <= i < |keys| ==> keys[i] in byKey && result[i] == byKey[keys[i]]
    requires Indexed(resources, |resources|, byKey)
    ensures StrictlySorted(Keys(result)) && multiset(result) == multiset(resources)
  {
    hide Key;
    assert Keys(result) == keys;
    forall x ensures x in result <==> x in resources {
      if x in resources {
        assert Key(x) in keys;
        var i :| 0 <= i < |keys| && keys[i] == Key(x);
        assert result[i] == x;
      }
    }
    Permutation(result, resources);
  }

  // ---- Removing what is no longer rendered -----------------------------------------

  /** An object is the same at every served version of its kind. */
  datatype Id = Id(group: string, kind: string, namespace: string, name: string)

  function IdOf(r: Resource): Id { Id(r.group, r.kind, r.namespace, r.name) }

  datatype Controller = Controller(apiVersion: string, kind: string, name: string, uid: string)
  datatype Live = Live(uid: string, app: string, configuration: string, ownerUid: string, configurationUid: string,
                       controller: Option<Controller>)
  datatype Owner = Owner(apiVersion: string, kind: string, namespace: string, name: string, uid: string)

  /** sameControllerOwner: UIDs decide when both are known. */
  predicate SameControllerOwner(owner: Owner, controller: Option<Controller>) {
    controller.Some? &&
    var ref := controller.value;
    if owner.uid != "" && ref.uid != "" then owner.uid == ref.uid
    else if owner.apiVersion != "" && owner.kind != "" then
      ref.apiVersion == owner.apiVersion && ref.kind == owner.kind && ref.name == owner.name
    else ref.name == owner.name
  }

  /** hasConfigurationLifecycleMarkers */
  predicate HasMarkers(owner: Owner, obj: Live, configuration: string, configurationUid: string) {
    && configuration != "" && owner.uid != ""
    && obj.app == owner.name && obj.configuration == configuration && obj.ownerUid == owner.uid
    && (configurationUid != "" ==> obj.configurationUid == configurationUid)
  }

  /** shouldDeleteDisabledRenderedResource */
  predicate ShouldDelete(owner: Owner, obj: Live, r: Resource) {
    && r.disablePolicy == DELETE
    && r.ownerUid != "" && owner.uid == r.ownerUid
    && r.resourceUid != "" && obj.uid == r.resourceUid
    && HasMarkers(owner, obj, r.configuration, r.configurationUid)
    && if r.namespaced && r.namespace == owner.namespace then SameControllerOwner(owner, obj.controller)
       else obj.controller.None? || SameControllerOwner(owner, obj.controller)
  }

  predicate IsCrd(r: Resource) { r.group == "apiextensions.k8s.io" && r.kind == "CustomResourceDefinition" }

  /** The inventory entry that stands for a key: the first, unless a later one opts into deletion and it does not. */
  function Pick(previous: seq<Resource>, n: nat, key: string): (r: Option<Resource>)
    requires n <= |previous|
    ensures r.Some? ==> r.value in previous && Key(r.value) == key
  {
    if n == 0 then None
    else
      var earlier, r := Pick(previous, n - 1, key), previous[n - 1];
      if Key(r) == key && (earlier.None? || (earlier.value.disablePolicy != DELETE && r.disablePolicy == DELETE)) then Some(r) else earlier
  }

  /** Entry i stands for its key: the first that opts into deletion, or, if none does, the first at all. */
  predicate StandsFor(previous: seq<Resource>, n: nat, i: nat, key: string)
    requires i < n <= |previous|
  {
    && Key(previous[i]) == key
    && (forall j :: 0 <= j < i && Key(previous[j]) == key ==> previous[i].disablePolicy == "delete" != previous[j].disablePolicy)
    && (previous[i].disablePolicy != "delete" ==>
          forall j :: 0 <= j < n && Key(previous[j]) == key ==> previous[j].disablePolicy != "delete")
  }

  lemma {:induction false} PickStandsFor(previous: seq<Resource>, n: nat, key: string)
    requires n <= |previous|
    ensures Pick(previous, n, key).None? <==> forall j :: 0 <= j < n ==> Key(previous[j]) != key
    ensures Pick(previous, n, key).Some? ==>
      exists i :: 0 <= i < n && StandsFor(previous, n, i, key) && Pick(previous, n, key) == Some(previous[i])
    decreases n
  {
    hide Key;
    if n > 0 {
      PickStandsFor(previous, n - 1, key);
      if Pick(previous, n - 1, key).Some? {
        var i :| 0 <= i < n - 1 && StandsFor(previous, n - 1, i, key) && Pick(previous, n - 1, key) == Some(previous[i]);
        if Pick(previous, n, key) == Some(previous[i]) {
          assert StandsFor(previous, n, i, key);
        } else {
          assert StandsFor(previous, n, n - 1, key);
        }
      } else if Key(previous[n - 1]) == key {
        assert StandsFor(previous, n, n - 1, key);
      }
    }
  }

  function RenderedKeys(current: seq<Resource>): set<string> { set r | r in current && Key(r) != "" :: Key(r) }

  predicate Stale(previous: seq<Resource>, current: seq<Resource>, key: string) {
    key != "" && key !in RenderedKeys(current) && Pick(previous, |previous|, key).Some?
  }

  type Kinds = set<(string, string)>

  /** The checks of one entry against the object that was read: an installed kind, no CRD, and an object to delete. */
  predicate Checked(notInstalled: Kinds, owner: Owner, objects: map<Id, Live>, r: Resource) {
    IdOf(r) in objects && !IsCrd(r) && (r.group, r.kind) !in notInstalled && ShouldDelete(owner, objects[IdOf(r)], r)
  }

  /** Key k asks for the removal of this live object. */
  ghost predicate Removes(notInstalled: Kinds, owner: Owner, previous: seq<Resource>, current: seq<Resource>, k: string, id: Id, obj: Live) {
    && Stale(previous, current, k)
    && var r := Pick(previous, |previous|, k).value;
    && IdOf(r) == id && !IsCrd(r) && (r.group, r.kind) !in notInstalled
    && ShouldDelete(owner, obj, r)
  }

  ghost predicate Doomed(notInstalled: Kinds, owner: Owner, previous: seq<Resource>, current: seq<Resource>, id: Id, obj: Live) {
    exists k :: Removes(notInstalled, owner, previous, current, k, id, obj)
  }

  // ---- The others -------------------------------------------------------------------

  /** Somebody else writes, recreates or deletes one object. */
  datatype Edit = Edit(id: Id, obj: Option<Live>)

  /** What the others do before an entry is read, and between that read and the deletion. */
  datatype Turn = Turn(before: seq<Edit>, between: seq<Edit>)

  function Edits(objects: map<Id, Live>, edits: seq<Edit>): map<Id, Live>
    decreases |edits|
  {
    if edits == [] then objects
    else
      var earlier, e := Edits(objects, edits[..|edits| - 1]), edits[|edits| - 1];
      if e.obj.Some? then earlier[e.id := e.obj.value] else earlier - {e.id}
  }

  function At(objects: map<Id, Live>, id: Id): Option<Live> { if id in objects then Some(objects[id]) else None }

  /** The last thing the others did to an object, if anything. */
  function LastEdit(edits: seq<Edit>, id: Id): Option<Option<Live>>
    decreases |edits|
  {
    if edits == [] then None
    else if edits[|edits| - 1].id == id then Some(edits[|edits| - 1].obj)
    else LastEdit(edits[..|edits| - 1], id)
  }

  lemma {:induction false} EditsAt(objects: map<Id, Live>, edits: seq<Edit>, id: Id)
    ensures At(Edits(objects, edits), id) == if LastEdit(edits, id).Some? then LastEdit(edits, id).value else At(objects, id)
    decreases |edits|
  {
    if edits != [] { EditsAt(objects, edits[..|edits| - 1], id); }
  }

  /** One entry: the others act, the object is read and checked, the others act again, and the name is deleted. */
  function Step(notInstalled: Kinds, owner: Owner, objects: map<Id, Live>, r: Resource, turn: Turn): map<Id, Live> {
    var read := Edits(objects, turn.before);
    if Checked(notInstalled, owner, read, r) then Edits(read, turn.between) - {IdOf(r)} else read
  }

  /** The first n stale keys, one after the other. */
  function Swept(notInstalled: Kinds, owner: Owner, previous: seq<Resource>, keys: seq<string>, schedule: nat -> Turn,
                 n: nat, objects: map<Id, Live>): map<Id, Live>
    requires n <= |keys| && forall k :: k in keys ==> Pick(previous, |previous|, k).Some?
  {
    if n == 0 then objects
    else
      Step(notInstalled, owner, Swept(notInstalled, owner, previous, keys, schedule, n - 1, objects),
           Pick(previous, |previous|, keys[n - 1]).value, schedule(n - 1))
  }

  lemma SweptStart(notInstalled: Kinds, owner: Owner, previous: seq<Resource>, keys: seq<string>, schedule: nat -> Turn, objects: map<Id, Live>)
    requires forall k :: k in keys ==> Pick(previous, |previous|, k).Some?
    ensures Swept(notInstalled, owner, previous, keys, schedule, 0, objects) == objects
  {
  }

  lemma SweptNext(notInstalled: Kinds, owner: Owner, previous: seq<Resource>, keys: seq<string>, schedule: nat -> Turn,
                  n: nat, objects: map<Id, Live>, r: Resource)
    requires n < |keys| && (forall k :: k in keys ==> Pick(previous, |previous|, k).Some?)
    requires Pick(previous, |previous|, keys[n]) == Some(r)
    ensures Swept(notInstalled, owner, previous, keys, schedule, n + 1, objects) ==
      Step(notInstalled, owner, Swept(notInstalled, owner, previous, keys, schedule, n, objects), r, schedule(n))
  {
  }

  ghost predicate StaleKeys(previous: seq<Resource>, current: seq<Resource>, keys: seq<string>) {
    StrictlySorted(keys) && forall k :: k in keys <==> Stale(previous, current, k)
  }

  /** The API server: its objects, the kinds it does not know, and the calls that fail. */
  class Server {
    var objects: map<Id, Live>
    const notInstalled: Kinds
    const getFails: set<string>
    const deleteFails: set<string>

    constructor (objects: map<Id, Live>, notInstalled: Kinds, getFails: set<string>, deleteFails: set<string>)
      ensures this.objects == objects && this.notInstalled == notInstalled
      ensures this.getFails == getFails && this.deleteFails == deleteFails
    {
      this.objects, this.notInstalled, this.getFails, this.deleteFails := objects, notInstalled, getFails, deleteFails;
    }

    method Others(edits: seq<Edit>)
      modifies this`objects
      ensures objects == Edits(old(objects), edits)
    {
      for i := 0 to |edits|
        invariant objects == Edits(old(objects), edits[..i])
      {
        assert edits[..i + 1][..i] == edits[..i];
        objects := if edits[i].obj.Some? then objects[edits[i].id := edits[i].obj.value] else objects - {edits[i].id};
      }
      assert edits[..|edits|] == edits;
    }

    /** deleteDisabledRenderedConfigurationResource: the deletion is by name, whatever stands there by then. */
    method DeleteOne(owner: Owner, r: Resource, between: seq<Edit>) returns (ok: bool)
      modifies this`objects
      ensures var checked := Checked(notInstalled, owner, old(objects), r);
        if ok then objects == if checked then Edits(old(objects), between) - {IdOf(r)} else old(objects)
        else (Key(r) in getFails && objects == old(objects)) || (Key(r) in deleteFails && checked && objects == Edits(old(objects), between))
      ensures var exempt := r.disablePolicy != DELETE || IsCrd(r);
        ok == (exempt || (Key(r) !in getFails && (Checked(notInstalled, owner, old(objects), r) ==> Key(r) !in deleteFails)))
    {
      if r.disablePolicy != DELETE || IsCrd(r) { return true; }
      if Key(r) in getFails { return false; }
      if (r.group, r.kind) in notInstalled || IdOf(r) !in objects { return true; }
      if !ShouldDelete(owner, objects[IdOf(r)], r) { return true; }
      Others(between);
      if Key(r) in deleteFails { return false; }
      objects := objects - {IdOf(r)};
      return true;
    }

    /** One entry, with the others at work: a step of the specification, unless a call fails. */
    method RemoveKey(owner: Owner, r: Resource, turn: Turn) returns (ok: bool)
      modifies this`objects
      ensures ok ==> objects == Step(notInstalled, owner, old(objects), r, turn)
      ensures !ok ==> (
        && var read := Edits(old(objects), turn.before);
        || (Key(r) in getFails && objects == read)
        || (Key(r) in deleteFails && objects == Edits(read, turn.between)))
      ensures getFails == {} && deleteFails == {} ==> ok
    {
      hide Checked, Key, IsCrd, Edits;
      Others(turn.before);
      ok := DeleteOne(owner, r, turn.between);
    }

    /**
      DeleteDisabledRenderedConfigurationResources: the stale keys in their order, each as one step of the specification;
      the first call that fails ends the removal there.
     */
    method DeleteDisabled(owner: Owner, previous: seq<Resource>, current: seq<Resource>, schedule: nat -> Turn)
      returns (ok: bool, ghost keys: seq<string>, ghost done: nat)
      modifies this`objects
      ensures StaleKeys(previous, current, keys) && done <= |keys|
      ensures ok ==> done == |keys| && objects == Swept(notInstalled, owner, previous, keys, schedule, done, old(objects))
      ensures !ok ==> (
        && done < |keys|
        && var read := Edits(Swept(notInstalled, owner, previous, keys, schedule, done, old(objects)), schedule(done).before);
        || (keys[done] in getFails && objects == read)
        || (keys[done] in deleteFails && objects == Edits(read, schedule(done).between)))
      ensures getFails == {} && deleteFails == {} ==> ok
    {
      hide Step, Key, IsCrd, Edits, Stale, Pick, Swept;
      var stale := CollectStale(previous, current);
      var sorted := KeysOf(stale);
      SortedKeys(sorted);
      sorted := Sort(sorted);
      keys, done := sorted, 0;
      SweptStart(notInstalled, owner, previous, keys, schedule, objects);
      for n := 0 to |sorted|
        invariant done == n && objects == Swept(notInstalled, owner, previous, keys, schedule, n, old(objects))
      {
        assert sorted[n] in sorted;
        var r := stale[sorted[n]];
        SweptNext(notInstalled, owner, previous, keys, schedule, n, old(objects), r);
        ok := RemoveKey(owner, r, schedule(n));
        if !ok { return; }
        done := n + 1;
      }
      return true, keys, done;
    }

    static method CollectStale(previous: seq<Resource>, current: seq<Resource>) returns (stale: map<string, Resource>)
      ensures forall k :: k in stale <==> Stale(previous, current, k)
      ensures forall k :: k in stale ==> Some(stale[k]) == Pick(previous, |previous|, k)
    {
      hide Key;
      var currentKeys: set<string> := {};
      for n := 0 to |current|
        invariant currentKeys == RenderedKeys(current[..n])
      {
        assert current[..n + 1] == current[..n] + [current[n]];
        if Key(current[n]) != "" { currentKeys := currentKeys + {Key(current[n])}; }
      }
      assert current[..|current|] == current;
      stale := map[];
      for n := 0 to |previous|
        invariant forall k :: k in stale <==> k != "" && k !in currentKeys && Pick(previous, n, k).Some?
        invariant forall k :: k in stale ==> Some(stale[k]) == Pick(previous, n, k)
      {
        var key := Key(previous[n]);
        if key != "" && key !in currentKeys
           && (key !in stale || (stale[key].disablePolicy != DELETE && previous[n].disablePolicy == DELETE)) {
          stale := stale[key := previous[n]];
        }
      }
    }
  }

  /** The controller of a resource is the owner: by UID where it has one, else by version, kind and name, as far as known. */
  predicate Controls(owner: Owner, c: Controller) {
    if c.uid != "" then c.uid == owner.uid
    else c.name == owner.name && (owner.apiVersion != "" && owner.kind != "" ==> c.apiVersion == owner.apiVersion && c.kind == owner.kind)
  }

  /**
    Exactly which resources may be deleted: those of the entry's and the owner's UIDs, names and configuration. In the
    owner's namespace the owner has to be their controller; elsewhere, and for cluster-scoped ones, there may be none.
   */
  lemma DeletionIsPermittedIff(owner: Owner, obj: Live, r: Resource)
    ensures ShouldDelete(owner, obj, r) <==> (
      && r.disablePolicy == "delete"
      && r.ownerUid != "" && owner.uid == r.ownerUid && obj.ownerUid == r.ownerUid
      && r.resourceUid != "" && obj.uid == r.resourceUid
      && obj.app == owner.name
      && r.configuration != "" && obj.configuration == r.configuration
      && (r.configurationUid == "" || obj.configurationUid == r.configurationUid)
      && match obj.controller
         case Some(c) => Controls(owner, c)
         case None => !r.namespaced || r.namespace != owner.namespace)
  {
  }

  // ---- What removal may touch --------------------------------------------------------

  predicate LeftAlone(turn: Turn, id: Id) { LastEdit(turn.before, id).None? && LastEdit(turn.between, id).None? }

  /** Whatever the others do elsewhere, an object they leave alone is removed exactly when it is doomed, and otherwise kept. */
  lemma RemovedIffDoomed(notInstalled: Kinds, owner: Owner, previous: seq<Resource>, current: seq<Resource>, keys: seq<string>,
                         schedule: nat -> Turn, objects: map<Id, Live>, id: Id)
    requires StaleKeys(previous, current, keys) && forall n :: LeftAlone(schedule(n), id)
    ensures At(Swept(notInstalled, owner, previous, keys, schedule, |keys|, objects), id) ==
      if id in objects && Doomed(notInstalled, owner, previous, current, id, objects[id]) then None else At(objects, id)
  {
    hide Removes, Stale, LeftAlone;
    RemovedByKeys(notInstalled, owner, previous, current, keys, schedule, |keys|, objects, id);
    if id in objects {
      forall k | Removes(notInstalled, owner, previous, current, k, id, objects[id]) ensures k in keys {
        RemovesStale(notInstalled, owner, previous, current, k, id, objects[id]);
      }
    }
  }

  lemma RemovesStale(notInstalled: Kinds, owner: Owner, previous: seq<Resource>, current: seq<Resource>, k: string, id: Id, obj: Live)
    requires Removes(notInstalled, owner, previous, current, k, id, obj)
    ensures Stale(previous, current, k)
  {
  }

  lemma {:induction false} RemovedByKeys(notInstalled: Kinds, owner: Owner, previous: seq<Resource>, current: seq<Resource>,
                                         keys: seq<string>, schedule: nat -> Turn, n: nat, objects: map<Id, Live>, id: Id)
    requires StaleKeys(previous, current, keys) && n <= |keys| && forall i :: LeftAlone(schedule(i), id)
    ensures At(Swept(notInstalled, owner, previous, keys, schedule, n, objects), id) ==
      if id in objects && exists i :: 0 <= i < n && Removes(notInstalled, owner, previous, current, keys[i], id, objects[id])
      then None else At(objects, id)
    decreases n
  {
    hide Step, Removes, LeftAlone, Pick, StrictlySorted;
    if n > 0 {
      RemovedByKeys(notInstalled, owner, previous, current, keys, schedule, n - 1, objects, id);
      assert keys[n - 1] in keys;
      StepAt(notInstalled, owner, previous, current, keys[n - 1],
             Swept(notInstalled, owner, previous, keys, schedule, n - 1, objects), schedule(n - 1), id);
    }
  }

  lemma StepAt(notInstalled: Kinds, owner: Owner, previous: seq<Resource>, current: seq<Resource>, k: string,
               objects: map<Id, Live>, turn: Turn, id: Id)
    requires Stale(previous, current, k) && LeftAlone(turn, id)
    ensures At(Step(notInstalled, owner, objects, Pick(previous, |previous|, k).value, turn), id) ==
      if id in objects && Removes(notInstalled, owner, previous, current, k, id, objects[id]) then None else At(objects, id)
  {
    hide ShouldDelete, Pick, IsCrd, Edits;
    EditsAt(objects, turn.before, id);
    EditsAt(Edits(objects, turn.before), turn.between, id);
  }

  /** After the check, the others put an object of another UID under the name. */
  predicate Replaced(turn: Turn, r: Resource) {
    var last := LastEdit(turn.between, IdOf(r));
    last.Some? && last.value.Some? && last.value.value.uid != r.resourceUid
  }

  /**
    What the deletion hits. The check was passed by an object of the owner's inventory, with the owner's UID and markers;
    what is deleted is that very object, or nothing, if and only if the others did not replace it in between. It is
    exactly what was checked if and only if they left it as it was.
   */
  lemma RemovalHitsCheckedIffNotReplaced(notInstalled: Kinds, owner: Owner, objects: map<Id, Live>, r: Resource, turn: Turn)
    requires Checked(notInstalled, owner, Edits(objects, turn.before), r)
    ensures var read := Edits(objects, turn.before);
      var checked, hit := read[IdOf(r)], At(Edits(read, turn.between), IdOf(r));
      && checked.uid == r.resourceUid != "" && checked.ownerUid == owner.uid == r.ownerUid != ""
      && checked.app == owner.name && checked.configuration == r.configuration
      && ((hit.Some? ==> hit.value.uid == checked.uid) <==> !Replaced(turn, r))
      && (hit == Some(checked) <==> LastEdit(turn.between, IdOf(r)) in {None, Some(Some(checked))})
      && At(Step(notInstalled, owner, objects, r, turn), IdOf(r)) == None
  {
    hide Key;
    EditsAt(Edits(objects, turn.before), turn.between, IdOf(r));
  }

  /** Everything but the name of the entry is as the others left it, and without a passed check that is as well. */
  lemma RemovalTouchesOneName(notInstalled: Kinds, owner: Owner, objects: map<Id, Live>, r: Resource, turn: Turn, id: Id)
    ensures var read, after := Edits(objects, turn.before), Step(notInstalled, owner, objects, r, turn);
      if !Checked(notInstalled, owner, read, r) then after == read
      else id != IdOf(r) ==> At(after, id) == At(Edits(objects, turn.before + turn.between), id)
  {
    hide ShouldDelete;
    EditsConcat(objects, turn.before, turn.between);
  }

  lemma {:induction false} EditsConcat(objects: map<Id, Live>, x: seq<Edit>, y: seq<Edit>)
    ensures Edits(objects, x + y) == Edits(Edits(objects, x), y)
    decreases |y|
  {
    if y == [] {
      assert x + y == x;
    } else {
      assert (x + y)[..|x + y| - 1] == x + y[..|y| - 1];
      EditsConcat(objects, x, y[..|y| - 1]);
    }
  }

  /** Any object that appears under the name between the check and the deletion is deleted, whoever it belongs to. */
  lemma ForeignObjectIsRemoved(notInstalled: Kinds, owner: Owner, objects: map<Id, Live>, r: Resource, foreign: Live)
    requires Checked(notInstalled, owner, objects, r) && !ShouldDelete(owner, foreign, r)
    ensures var turn := Turn([], [Edit(IdOf(r), None), Edit(IdOf(r), Some(foreign))]);
      && At(Edits(objects, turn.between), IdOf(r)) == Some(foreign)
      && At(Step(notInstalled, owner, objects, r, turn), IdOf(r)) == None
  {
    hide ShouldDelete, IsCrd;
    EditsAt(objects, [Edit(IdOf(r), None), Edit(IdOf(r), Some(foreign))], IdOf(r));
  }

  /**
    An object that is rendered now is doomed if and only if the inventory lists it, with authority to delete it, at another
    version of its kind that is not rendered.
   */
  lemma RenderedIsDoomedIff(notInstalled: Kinds, owner: Owner, previous: seq<Resource>, current: seq<Resource>, obj: Live, rendered: Resource)
    requires rendered in current && CompleteIdentity(rendered)
    ensures Doomed(notInstalled, owner, previous, current, IdOf(rendered), obj) <==>
      exists r :: (
        && r in previous && IdOf(r) == IdOf(rendered) && r.version != "" && r.version != rendered.version
        && Key(r) !in RenderedKeys(current) && Pick(previous, |previous|, Key(r)) == Some(r)
        && !IsCrd(r) && (r.group, r.kind) !in notInstalled && ShouldDelete(owner, obj, r))
  {
    assert Key(rendered) in RenderedKeys(current);
    if k :| Removes(notInstalled, owner, previous, current, k, IdOf(rendered), obj) {
      var r := Pick(previous, |previous|, k).value;
      assert r in previous && Key(r) == k;
    }
    if r :| r in previous && IdOf(r) == IdOf(rendered) && r.version != "" && r.version != rendered.version
            && Key(r) !in RenderedKeys(current) && Pick(previous, |previous|, Key(r)) == Some(r)
            && !IsCrd(r) && (r.group, r.kind) !in notInstalled && ShouldDelete(owner, obj, r) {
      assert Removes(notInstalled, owner, previous, current, Key(r), IdOf(rendered), obj);
    }
  }

  /** So after a template moves to a new version, the entry of the old version removes the object just rendered. */
  lemma VersionChangeRemovesRendered(notInstalled: Kinds, owner: Owner, r: Resource, obj: Live, version: string)
    requires CompleteIdentity(r) && PlainIdentity(r) && version != "" && version != r.version && SlashFree(version)
    requires !IsCrd(r) && (r.group, r.kind) !in notInstalled && ShouldDelete(owner, obj, r)
    ensures Doomed(notInstalled, owner, [r], [r.(version := version)], IdOf(r.(version := version)), obj)
  {
    var moved := r.(version := version);
    if Key(moved) == Key(r) { KeyIsInjective(moved, r); }
    assert Pick([r], 0, Key(r)).None?;
    assert Pick([r], 1, Key(r)) == Some(r);
    KeyOfComplete(r);
    assert Key(r) !in RenderedKeys([moved]);
    RenderedIsDoomedIff(notInstalled, owner, [r], [moved], obj, moved);
  }
}
