/**
  Adopting the changes seen during a pause as reconcile overrides, and applying the overrides to a render.
  Rendering and the schema-aware overlay are parameters; the live spec hash is injective, so the spec stands for it.
 */
module ReconcileAdoption {
  import opened Options
  import opened MergePatch
  import opened OverrideMerge

  datatype Target = Target(group: string, version: string, kind: string, namespace: string, name: string)
  datatype Overrides = Overrides(specPatch: Option<Json>, baseSpec: Option<Json>, target: Target)
  datatype Resource = Resource(target: Target, spec: Option<Json>)

  datatype Error =
    TargetChanged | InvalidSpec | InvalidOverrides | RenderFailed | OverlayFailed | SnapshotInvalid | ResourceMissing | ResourceChanged
  datatype Result<+T> = Ok(value: T) | Err(error: Error)

  /** decodeSpec: an absent document is the empty object, anything but an object is an error. */
  function Decode(raw: Option<Json>, error: Error): (r: Result<Json>)
    ensures r.Ok? ==> r.value.Object?
  {
    if raw.None? then Ok(EMPTY) else if raw.value.Object? then Ok(raw.value) else Err(error)
  }

  /** validateReconcileOverrideTarget */
  predicate TargetValid(o: Overrides, target: Target) {
    o.target.group != "" && o.target.version != "" && o.target.kind != "" && o.target == target
  }

  /** The patch that is left for the current spec, once target and documents are valid. */
  function EffectivePatch(o: Overrides, target: Target, spec: Option<Json>): (r: Result<Json>)
    ensures r.Ok? ==> r.value.Object? && (spec.None? || spec.value.Object?)
  {
    if !TargetValid(o, target) then Err(TargetChanged) else
    var current := Decode(spec, InvalidSpec);
    var base := Decode(o.baseSpec, InvalidOverrides);
    var patch := Decode(o.specPatch, InvalidOverrides);
    if current.Err? then current else if base.Err? then base else if patch.Err? then patch else
    Ok(Filter(base.value, current.value, patch.value))
  }

  /** The spec after the overrides; an empty patch does not even create a missing spec. */
  function Overridden(overrides: Option<Overrides>, target: Target, spec: Option<Json>): Result<Option<Json>> {
    if overrides.None? || overrides.value.specPatch.None? then Ok(spec) else
    var patch := EffectivePatch(overrides.value, target, spec);
    if patch.Err? then Err(patch.error) else
    if patch.value == EMPTY then Ok(spec) else
    Ok(Some(Apply(Some(if spec.Some? then spec.value else EMPTY), patch.value)))
  }

  class PrimaryResource {
    const target: Target
    var spec: Option<Json>

    constructor (target: Target, spec: Option<Json>)
      ensures this.target == target && this.spec == spec
    {
      this.target, this.spec := target, spec;
    }

    /** ApplyReconcileOverrides: writes the spec, or leaves it alone and reports an error. */
    method ApplyReconcileOverrides(overrides: Option<Overrides>) returns (error: Option<Error>)
      modifies this`spec
      ensures var r := Overridden(overrides, target, old(spec));
        if r.Ok? then error.None? && spec == r.value else error == Some(r.error) && spec == old(spec)
    {
      if overrides.None? || overrides.value.specPatch.None? { return None; }
      if !TargetValid(overrides.value, target) { return Some(TargetChanged); }
      var current := Decode(spec, InvalidSpec);
      if current.Err? { return Some(current.error); }
      var base := Decode(overrides.value.baseSpec, InvalidOverrides);
      if base.Err? { return Some(base.error); }
      var patch := Decode(overrides.value.specPatch, InvalidOverrides);
      if patch.Err? { return Some(patch.error); }
      var effective := Filter(base.value, current.value, patch.value);
      if effective != EMPTY { spec := Some(Apply(Some(current.value), effective)); }
      return None;
    }
  }

  // ---- Adoption -------------------------------------------------------------

  /** A Middleware: its overrides, and everything else that rendering reads. */
  datatype Middleware = Middleware(overrides: Option<Overrides>, rest: int)
  datatype Snapshot = Snapshot(target: Target, uid: string)
  datatype SnapshotData = SnapshotData(actualSpec: Option<Json>, previous: Option<Overrides>)
  datatype Live = Live(uid: string, deleting: bool, spec: Option<Json>)
  datatype Adoption = Adoption(overrides: Option<Overrides>, liveSpec: Json)

  type Render = int -> Result<Resource>
  type Overlay = (Json, Json, Option<Json>) -> Result<Option<Json>>

  function RenderPrimary(render: Render, mid: Middleware): Result<Resource> {
    var plain := render(mid.rest);
    if plain.Err? then plain else
    var spec := Overridden(mid.overrides, plain.value.target, plain.value.spec);
    if spec.Err? then Err(spec.error) else Ok(plain.value.(spec := spec.value))
  }

  /** The desired spec with the changes observed since the pause began, and the live spec they were read from. */
  function AdoptedSpec(render: Render, overlay: Overlay, mid: Middleware, snapshot: Snapshot,
                       data: Result<SnapshotData>, live: Option<Live>): (r: Result<(Json, Json)>)
    ensures r.Ok? ==> r.value.0.Object? && r.value.1.Object?
  {
    if data.Err? || data.value.actualSpec.None? || !data.value.actualSpec.value.Object? then Err(SnapshotInvalid) else
    var current := RenderPrimary(render, mid.(overrides := data.value.previous));
    if current.Err? then Err(current.error) else
    if current.value.target != snapshot.target then Err(ResourceChanged) else
    if live.None? then Err(ResourceMissing) else
    if live.value.uid != snapshot.uid || live.value.deleting then Err(ResourceChanged) else
    var desired := Decode(current.value.spec, InvalidSpec);
    var actual := Decode(live.value.spec, InvalidSpec);
    if desired.Err? || actual.Err? then Err(InvalidSpec) else
    if data.value.actualSpec.value == actual.value then Ok((desired.value, actual.value)) else
    var merged := overlay(data.value.actualSpec.value, actual.value, current.value.spec);
    if merged.Err? then Err(merged.error) else
    var spec := Decode(merged.value, InvalidSpec);
    if spec.Err? then Err(spec.error) else Ok((spec.value, actual.value))
  }

  /** AdoptPausedPrimaryCustomResource */
  function Adopt(render: Render, overlay: Overlay, mid: Middleware, snapshot: Snapshot,
                 data: Result<SnapshotData>, live: Option<Live>): Result<Adoption>
  {
    var merged := AdoptedSpec(render, overlay, mid, snapshot, data, live);
    if merged.Err? then Err(merged.error) else
    var plain := render(mid.rest);
    if plain.Err? then Err(plain.error) else
    if plain.value.target != snapshot.target then Err(ResourceChanged) else
    var base := Decode(plain.value.spec, InvalidSpec);
    if base.Err? then Err(base.error) else
    var patch := Diff(base.value, merged.value.0);
    Ok(Adoption(if patch == EMPTY then None else Some(Overrides(Some(patch), Some(base.value), plain.value.target)), merged.value.1))
  }

  function SpecOf(r: Resource): Json {
    if r.spec.Some? then r.spec.value else EMPTY
  }

  /** The overrides apply at all: the target has a group, a version and a kind. */
  predicate Named(t: Target) { t.group != "" && t.version != "" && t.kind != "" }

  /**
    Applying adopted overrides to any later render of the same target merges the adopted spec with what the render
    changed since; a target without a group, version or kind is refused.
   */
  lemma AdoptedOverridesMerge(render: Render, overlay: Overlay, mid: Middleware, snapshot: Snapshot,
                              data: Result<SnapshotData>, live: Option<Live>, later: Resource)
    requires Adopt(render, overlay, mid, snapshot, data, live).Ok?
    requires NullFree(AdoptedSpec(render, overlay, mid, snapshot, data, live).value.0)
    requires later.target == snapshot.target && SpecOf(later).Object?
    ensures var adoption := Adopt(render, overlay, mid, snapshot, data, live).value;
      var base := SpecOf(render(mid.rest).value);
      var adopted := AdoptedSpec(render, overlay, mid, snapshot, data, live).value.0;
      var r := Overridden(adoption.overrides, later.target, later.spec);
      if adoption.overrides.None? || Named(snapshot.target)
      then r.Ok? && SpecOf(later.(spec := r.value)) == Merge3(base, adopted, SpecOf(later))
      else r == Err(TargetChanged)
  {
    var adoption := Adopt(render, overlay, mid, snapshot, data, live).value;
    var base := SpecOf(render(mid.rest).value);
    var adopted := AdoptedSpec(render, overlay, mid, snapshot, data, live).value.0;
    EmptyDiff(base, adopted);
    if adoption.overrides.None? {
      AdoptedIsBase(base, SpecOf(later));
    } else {
      FilteredPatchIsMerge3(base, adopted, SpecOf(later));
      ApplyEmpty(SpecOf(later));
    }
  }

  /**
    With an unchanged render the next render is exactly the merged spec, if and only if nothing was adopted or the target
    is named. Adopting the same live spec again gives the same overrides, whatever overrides the Middleware holds by then.
   */
  lemma AdoptionRoundTrip(render: Render, overlay: Overlay, mid: Middleware, snapshot: Snapshot,
                          data: Result<SnapshotData>, live: Option<Live>, meanwhile: Option<Overrides>)
    requires Adopt(render, overlay, mid, snapshot, data, live).Ok?
    requires NullFree(AdoptedSpec(render, overlay, mid, snapshot, data, live).value.0)
    ensures var adoption := Adopt(render, overlay, mid, snapshot, data, live).value;
      var adopted := AdoptedSpec(render, overlay, mid, snapshot, data, live).value.0;
      var next := RenderPrimary(render, mid.(overrides := adoption.overrides));
      (next.Ok? && SpecOf(next.value) == adopted) <==> (adoption.overrides.None? || Named(snapshot.target))
    ensures Adopt(render, overlay, mid.(overrides := meanwhile), snapshot, data, live)
         == Adopt(render, overlay, mid, snapshot, data, live)
  {
    var plain := render(mid.rest).value;
    var adopted := AdoptedSpec(render, overlay, mid, snapshot, data, live).value.0;
    AdoptedOverridesMerge(render, overlay, mid, snapshot, data, live, plain);
    CurrentIsBase(SpecOf(plain), adopted);
    assert mid.(overrides := meanwhile).(overrides := None) == mid.(overrides := None);
  }

  /** A pause during which the live spec did not change adopts nothing new: the render keeps its previous spec. */
  lemma QuietPause(render: Render, overlay: Overlay, mid: Middleware, snapshot: Snapshot,
                   data: Result<SnapshotData>, live: Option<Live>)
    requires Adopt(render, overlay, mid, snapshot, data, live).Ok?
    requires live.value.spec == data.value.actualSpec && Named(snapshot.target)
    requires NullFree(AdoptedSpec(render, overlay, mid, snapshot, data, live).value.0)
    ensures var adoption := Adopt(render, overlay, mid, snapshot, data, live).value;
      var before := RenderPrimary(render, mid.(overrides := data.value.previous));
      var after := RenderPrimary(render, mid.(overrides := adoption.overrides));
      before.Ok? && after.Ok? && SpecOf(after.value) == SpecOf(before.value)
  {
    AdoptionRoundTrip(render, overlay, mid, snapshot, data, live, None);
  }
}
