/**
  What an adoption does to the next render: it is the observed-delta overlay of the spec at the pause, the live spec and the
  previous render, in that order; and with the overlay of `ObservedChanges`, every live edit stands in it.
 */
module AdoptionMeaning {
  import opened Options
  import opened MergePatch
  import opened OverrideMerge
  import opened ReconcileAdoption
  import FieldTrie
  import Trees
  import ObservedChanges

  function Document(raw: Option<Json>): Json { if raw.Some? then raw.value else EMPTY }

  // ---- When an adoption succeeds -----------------------------------------------------------

  /** What the merge of the delta starts from: a readable snapshot, valid renders of its target, and the live resource. */
  ghost predicate Readable(render: Render, mid: Middleware, snapshot: Snapshot, data: Result<SnapshotData>, live: Option<Live>) {
    && data.Ok? && IsObject(data.value.actualSpec)
    && render(mid.rest).Ok? && render(mid.rest).value.target == snapshot.target && Document(render(mid.rest).value.spec).Object?
    && var current := RenderPrimary(render, mid.(overrides := data.value.previous));
    && current.Ok? && Document(current.value.spec).Object?
    && live.Some? && live.value.uid == snapshot.uid && !live.value.deleting && Document(live.value.spec).Object?
  }

  /** Without a live change there is nothing more to fail; with one, the overlay has to give an object. */
  lemma AdoptSucceedsIff(render: Render, overlay: Overlay, mid: Middleware, snapshot: Snapshot,
                         data: Result<SnapshotData>, live: Option<Live>)
    ensures Adopt(render, overlay, mid, snapshot, data, live).Ok? <==> (
      && Readable(render, mid, snapshot, data, live)
      && var current := RenderPrimary(render, mid.(overrides := data.value.previous)).value.spec;
      && var before, after := data.value.actualSpec.value, Document(live.value.spec);
         before != after ==> overlay(before, after, current).Ok? && Document(overlay(before, after, current).value).Object?)
  {
    if data.Ok? { RenderKeepsTarget(render, mid.(overrides := data.value.previous)); }
  }

  lemma RenderKeepsTarget(render: Render, mid: Middleware)
    ensures RenderPrimary(render, mid).Ok? ==>
      render(mid.rest).Ok? && RenderPrimary(render, mid).value.target == render(mid.rest).value.target
  {
  }

  /** How an adoption fails that has readable documents: without the resource, with another one, or with one on its way out. */
  lemma AdoptNeedsResource(render: Render, overlay: Overlay, mid: Middleware, snapshot: Snapshot,
                           data: Result<SnapshotData>, live: Option<Live>, known: Live)
    requires Readable(render, mid, snapshot, data, Some(known))
    ensures live.None? ==> Adopt(render, overlay, mid, snapshot, data, live) == Err(ResourceMissing)
    ensures live.Some? && (live.value.uid != snapshot.uid || live.value.deleting) ==>
      Adopt(render, overlay, mid, snapshot, data, live) == Err(ResourceChanged)
    ensures forall other: Snapshot :: other.target != snapshot.target ==>
      Adopt(render, overlay, mid, other, data, live) == Err(ResourceChanged)
  {
    RenderKeepsTarget(render, mid.(overrides := data.value.previous));
  }

  // ---- The next render -------------------------------------------------------------------

  /** After a live change, the next render of an unchanged Middleware is the overlay of snapshot, live spec and previous render. */
  lemma NextRenderIsOverlay(render: Render, overlay: Overlay, mid: Middleware, snapshot: Snapshot,
                            data: Result<SnapshotData>, live: Option<Live>)
    requires Adopt(render, overlay, mid, snapshot, data, live).Ok? && Named(snapshot.target)
    requires Document(live.value.spec) != data.value.actualSpec.value
    requires var current := RenderPrimary(render, mid.(overrides := data.value.previous)).value.spec;
      NullFree(Document(overlay(data.value.actualSpec.value, Document(live.value.spec), current).value))
    ensures var adoption := Adopt(render, overlay, mid, snapshot, data, live).value;
      var current := RenderPrimary(render, mid.(overrides := data.value.previous)).value.spec;
      var next := RenderPrimary(render, mid.(overrides := adoption.overrides));
      && next.Ok? && adoption.liveSpec == Document(live.value.spec)
      && Document(next.value.spec) == Document(overlay(data.value.actualSpec.value, Document(live.value.spec), current).value)
  {
    AdoptSucceedsIff(render, overlay, mid, snapshot, data, live);
    AdoptionRoundTrip(render, overlay, mid, snapshot, data, live, None);
  }

  /** Without a live change it is the previous render. */
  lemma NextRenderIsPrevious(render: Render, overlay: Overlay, mid: Middleware, snapshot: Snapshot,
                             data: Result<SnapshotData>, live: Option<Live>)
    requires Adopt(render, overlay, mid, snapshot, data, live).Ok? && Named(snapshot.target)
    requires Document(live.value.spec) == data.value.actualSpec.value
    requires NullFree(Document(RenderPrimary(render, mid.(overrides := data.value.previous)).value.spec))
    ensures var adoption := Adopt(render, overlay, mid, snapshot, data, live).value;
      var previous := RenderPrimary(render, mid.(overrides := data.value.previous));
      var next := RenderPrimary(render, mid.(overrides := adoption.overrides));
      next.Ok? && adoption.liveSpec == Document(live.value.spec) && Document(next.value.spec) == Document(previous.value.spec)
  {
    AdoptSucceedsIff(render, overlay, mid, snapshot, data, live);
    AdoptionRoundTrip(render, overlay, mid, snapshot, data, live, None);
  }

  // ---- Overrides of another target ----------------------------------------------------------

  /** Overrides with a patch are refused for a target if and only if they name another one, or none. */
  lemma RefusedIffOtherTarget(overrides: Overrides, target: Target, spec: Option<Json>)
    requires overrides.specPatch.Some?
    ensures Overridden(Some(overrides), target, spec) == Err(TargetChanged) <==> overrides.target != target || !Named(target)
  {
  }

  /** Without a patch a spec is left alone; with one for its target, it fails exactly on documents that are no objects. */
  lemma OverriddenOutcome(overrides: Option<Overrides>, target: Target, spec: Option<Json>)
    ensures overrides.None? || overrides.value.specPatch.None? ==> Overridden(overrides, target, spec) == Ok(spec)
    ensures overrides.Some? && overrides.value.specPatch.Some? && overrides.value.target == target && Named(target) ==> (
      var r := Overridden(overrides, target, spec);
      && (r == Err(InvalidSpec) <==> !Document(spec).Object?)
      && (r == Err(InvalidOverrides) <==>
            Document(spec).Object? && !(Document(overrides.value.baseSpec).Object? && overrides.value.specPatch.value.Object?))
      && (r.Ok? <==> Document(spec).Object? && Document(overrides.value.baseSpec).Object? && overrides.value.specPatch.value.Object?))
  {
  }

  // ---- The overlay of observed changes ---------------------------------------------------------

  /** Documents of objects and scalars. */
  predicate Plain(j: Json) {
    match j
    case Scalar(_) => true
    case Object(fields) => forall k :: k in fields ==> Plain(fields[k])
    case _ => false
  }

  /** Schemas of such documents. */
  predicate PlainSchema(s: Trees.Schema) {
    match s
    case ScalarType => true
    case MapType(fields, rest) =>
      (forall f :: f in fields ==> PlainSchema(fields[f])) && (rest.Some? ==> PlainSchema(rest.value))
    case _ => false
  }

  function Elems(fields: map<string, Json>): (r: set<FieldTrie.Elem>)
    ensures forall e :: e in r <==> e.Field? && e.name in fields
  {
    set k | k in fields :: FieldTrie.Field(k)
  }

  function FieldNames(kids: map<FieldTrie.Elem, Trees.Tree>): (r: set<string>)
    ensures forall k :: k in r <==> FieldTrie.Field(k) in kids
  {
    set e | e in kids && e.Field? :: e.name
  }

  function ToTree(j: Json): Trees.Tree {
    match j
    case Scalar(text) => Trees.Leaf(Trees.Value.Scalar(text))
    case Object(fields) => Trees.Node(map e | e in Elems(fields) :: ToTree(fields[e.name]))
    case _ => Trees.Leaf(Trees.Value.Scalar(""))
  }

  function ToJson(t: Trees.Tree): Json {
    match t
    case Leaf(value) => Scalar(value.text)
    case Node(kids) => Object(map k | k in FieldNames(kids) :: ToJson(kids[FieldTrie.Field(k)]))
  }

  function Fields(path: seq<string>): FieldTrie.Path { seq(|path|, i requires 0 <= i < |path| => FieldTrie.Field(path[i])) }

  function Sight(j: Option<Json>): Option<Trees.Sight> {
    match j
    case Some(Object(_)) => Some(Trees.ContainerAt)
    case Some(Scalar(text)) => Some(Trees.LeafAt(Trees.Value.Scalar(text)))
    case _ => None
  }

  lemma {:induction false} SeeToTree(j: Json, path: seq<string>)
    requires Plain(j)
    ensures Trees.See(ToTree(j), Fields(path)) == Sight(At(j, path))
    ensures At(j, path).Some? ==> Plain(At(j, path).value)
    decreases |path|
  {
    if path != [] {
      assert Fields(path)[1..] == Fields(path[1..]) && Fields(path)[0] == FieldTrie.Field(path[0]);
      if j.Object? && path[0] in j.fields {
        SeeToTree(j.fields[path[0]], path[1..]);
      }
    }
  }

  lemma {:induction false} SeeOfJson(t: Trees.Tree, s: Trees.Schema, path: seq<string>)
    requires Trees.Conforms(t, s) && PlainSchema(s)
    ensures Sight(At(ToJson(t), path)) == Trees.See(t, Fields(path))
    decreases |path|
  {
    if path != [] {
      assert Fields(path)[1..] == Fields(path[1..]) && Fields(path)[0] == FieldTrie.Field(path[0]);
      if t.Node? && FieldTrie.Field(path[0]) in t.kids {
        SeeOfJson(t.kids[FieldTrie.Field(path[0])], Trees.Step(s, FieldTrie.Field(path[0])).value, path[1..]);
      }
    }
  }

  lemma {:induction false} ToJsonIsPlain(t: Trees.Tree)
    ensures Plain(ToJson(t)) && NullFree(ToJson(t)) && (t.Node? ==> ToJson(t).Object?)
    decreases t
  {
    if t.Node? {
      forall k | FieldTrie.Field(k) in t.kids
        ensures Plain(ToJson(t.kids[FieldTrie.Field(k)])) && NullFree(ToJson(t.kids[FieldTrie.Field(k)]))
      {
        ToJsonIsPlain(t.kids[FieldTrie.Field(k)]);
      }
    }
  }

  /** applyObservedSpecChanges on documents of one schema; anything else is an error. */
  ghost function Observed(schema: Trees.Schema): Overlay {
    (before, after, desired) =>
      if Plain(before) && Plain(after) && Plain(Document(desired))
         && ObservedChanges.Valid(ToTree(before), ToTree(after), ToTree(Document(desired)), schema)
      then Ok(Some(ToJson(ObservedChanges.Observe(ToTree(before), ToTree(after), ToTree(Document(desired))))))
      else Err(OverlayFailed)
  }

  /** The overlay shows the later value wherever the two actual specs differ. */
  lemma OverlayShowsChange(schema: Trees.Schema, before: Json, after: Json, desired: Option<Json>, path: seq<string>)
    requires PlainSchema(schema) && Observed(schema)(before, after, desired).Ok?
    requires At(before, path) != At(after, path) && !IsObject(At(after, path))
    ensures At(Document(Observed(schema)(before, after, desired).value), path) == At(after, path)
  {
    var b, a, d := ToTree(before), ToTree(after), ToTree(Document(desired));
    var r := ObservedChanges.Observe(b, a, d);
    SeeToTree(before, path);
    SeeToTree(after, path);
    Trees.CompareAt(b, a, Fields(path));
    ObservedChanges.ChangeIsAdopted(b, a, d, schema, Fields(path));
    ObservedChanges.ObservedConforms(b, a, d, schema);
    SeeOfJson(r, schema, path);
    ToJsonIsPlain(r);
    PlainAt(ToJson(r), path);
  }

  lemma {:induction false} PlainAt(j: Json, path: seq<string>)
    requires Plain(j)
    ensures At(j, path).Some? ==> Plain(At(j, path).value)
    decreases |path|
  {
    SeeToTree(j, path);
  }

  /** A live edit made during the pause stands in the next render: a changed value as it is live, a removed one is gone. */
  lemma LiveEditStands(render: Render, schema: Trees.Schema, mid: Middleware, snapshot: Snapshot,
                       data: Result<SnapshotData>, live: Option<Live>, path: seq<string>)
    requires PlainSchema(schema) && Adopt(render, Observed(schema), mid, snapshot, data, live).Ok? && Named(snapshot.target)
    requires At(data.value.actualSpec.value, path) != At(Document(live.value.spec), path)
    requires !IsObject(At(Document(live.value.spec), path))
    ensures var adoption := Adopt(render, Observed(schema), mid, snapshot, data, live).value;
      var next := RenderPrimary(render, mid.(overrides := adoption.overrides));
      next.Ok? && At(Document(next.value.spec), path) == At(Document(live.value.spec), path)
  {
    hide Adopt, RenderPrimary;
    AdoptSucceedsIff(render, Observed(schema), mid, snapshot, data, live);
    var before, after := data.value.actualSpec.value, Document(live.value.spec);
    var current := RenderPrimary(render, mid.(overrides := data.value.previous)).value.spec;
    ToJsonIsPlain(ObservedChanges.Observe(ToTree(before), ToTree(after), ToTree(Document(current))));
    NextRenderIsOverlay(render, Observed(schema), mid, snapshot, data, live);
    OverlayShowsChange(schema, before, after, current, path);
  }
}
