/**
  Pausing, adopting and resuming one Middleware as a transition system.

  `versions` lists every version of the Middleware and `lives` every version of its primary resource; a version
  number is a resourceVersion. Every write of the controller to the Middleware is guarded by the version it was
  applied to; it lands at once, or it is lost and may land later. What it writes need not come from that version: a
  status update puts back the conditions of the reconcile's copy, and the write of a package upgrade puts back the
  overrides and annotations of an older version. Reconciles of the key are serial and start from a cached version that
  never goes back. Users and the outside world act at any time, but do not write the overrides.

  The live spec hash and the snapshot hash are injective, so the spec and the snapshot stand for them. Overrides are
  represented by what they were computed from: the snapshot of the session and the live spec. The generation moves
  exactly when these differ; in the API server it moves when the bytes do, so runs in which two different adoptions
  give the same bytes, or one adoption different bytes after a change of the baseline, are not among the runs here.
 */
module PauseMachine {
  import opened Options

  type Uid = nat
  type Spec = int
  const EMPTY_SPEC: Spec := 0

  datatype Policy = NoPolicy | MergePolicy | ApplyPolicy | Unsupported
  datatype Adoption = Unknown | Succeeded | Failed
  datatype Snapshot = Snapshot(base: nat, uid: Uid, spec: Spec)
  datatype Session = Session(snapshot: Snapshot, adopted: Option<Spec>)
  datatype Overrides = Initial | AdoptedFrom(snapshot: Snapshot, spec: Spec)

  datatype Mid = Mid(generation: nat, suspend: bool, policy: Policy, overrides: Overrides, session: Option<Session>,
                     paused: bool, adoption: Adoption)

  datatype Primary = Primary(uid: Uid, spec: Option<Spec>, deleting: bool)

  /** The controller's writes to the Middleware. An upgrade writes the spec and annotations of version `from`. */
  datatype Edit = Publish | Mark | Fail | Complete | Record | Status | Consume | Clear | Upgrade(from: nat, respec: bool)

  /** A write that may still land: computed from version `base` by a reconcile that started from version `copy`. */
  datatype MidWrite = MidWrite(edit: Edit, base: nat, copy: nat, next: Mid)

  datatype WriteTarget = Child | Update(base: nat) | Create
  datatype LiveWrite = LiveWrite(copy: nat, owner: nat, target: WriteTarget, spec: Spec)

  /** Where the one reconcile of this key is; `mid` is the cached version it works on. */
  datatype Phase =
    | Idle
    | Handling(mid: nat)
    | Capturing(mid: nat, snapshot: Snapshot)
    | Merging(mid: nat)
    | Adopting(mid: nat, spec: Spec)
    | Completed(mid: nat, spec: Spec)
    | Working(mid: nat)
    | Owned(mid: nat, owner: nat)
    | Finalizing(mid: nat)
    | Finalized(mid: nat)

  datatype State = State(versions: seq<Mid>, lives: seq<Option<Primary>>, nextUid: Uid, cache: nat, phase: Phase,
                         pending: set<MidWrite>, flights: set<LiveWrite>, log: seq<LiveWrite>)

  const INIT: State :=
    State([Mid(1, false, NoPolicy, Initial, None, false, Unknown)], [None], 0, 0, Idle, {}, {}, [])

  datatype Action =
    | UserEdit(changeSpec: bool, suspend: bool, policy: Policy)
    | LiveEdit(spec: Option<Spec>)
    | LiveTerminate
    | LiveDelete
    | LiveCreate(spec: Option<Spec>)
    | Begin(version: nat)
    | Proceed
    | Recheck
    | CaptureRead
    | AdoptRead
    | FreshOwner
    | SendChild
    | SendPrimary(result: Spec)
    | Write(edit: Edit, lost: bool)
    | DeliverMid(w: MidWrite)
    | DeliverLive(live: LiveWrite)
    | Stop

  /** The states that have at least one version of either object, and whose copies are versions. */
  ghost predicate WellFormed(s: State) {
    && s.versions != [] && s.lives != [] && s.cache < |s.versions|
    && (!s.phase.Idle? ==> s.phase.mid == s.cache)
    && (s.phase.Owned? ==> s.phase.owner < |s.versions|)
  }

  function Newest(s: State): nat
    requires s.versions != []
  {
    |s.versions| - 1
  }

  function Last(s: State): Mid
    requires s.versions != []
  {
    s.versions[Newest(s)]
  }

  function Live(s: State): Option<Primary>
    requires s.lives != []
  {
    s.lives[|s.lives| - 1]
  }

  /** The version the reconcile works on. */
  function Copy(s: State): Mid
    requires WellFormed(s) && !s.phase.Idle?
  {
    s.versions[s.phase.mid]
  }

  /** ReconcileResumePolicyFor */
  predicate Approved(p: Policy) { p.MergePolicy? || p.ApplyPolicy? }

  /** IsMiddlewareReconcileWriteSuspended */
  predicate WriteSuspended(m: Mid) { m.suspend || (!Approved(m.policy) && m.paused) }

  function SnapshotOf(m: Mid): Option<Snapshot> {
    if m.session.Some? then Some(m.session.value.snapshot) else None
  }

  /** primarySpec reads an absent spec as the empty one. */
  function SpecOf(p: Primary): Spec { if p.spec.Some? then p.spec.value else EMPTY_SPEC }

  /** verifyObservedSpecForWrite */
  predicate Verified(owner: Mid, live: Option<Primary>) {
    owner.session.Some? && owner.policy.MergePolicy? ==>
      && live.Some?
      && live.value.uid == owner.session.value.snapshot.uid
      && owner.session.value.adopted.Some?
      && live.value.spec == owner.session.value.adopted
      && !live.value.deleting
  }

  /** PausedPrimaryCustomResourceSpecMatchesAdoption */
  predicate StillAdopted(m: Mid, live: Option<Primary>) {
    && m.session.Some? && m.session.value.adopted.Some? && live.Some?
    && live.value.uid == m.session.value.snapshot.uid
    && SpecOf(live.value) == m.session.value.adopted.value
  }

  function WithOverrides(m: Mid, o: Overrides): Mid {
    m.(overrides := o, generation := if o == m.overrides then m.generation else m.generation + 1)
  }

  /** UpdateMiddleware: spec and annotations of another version over the newest one, whose status stays. */
  function PutBack(m: Mid, c: Mid, respec: bool): Mid {
    m.(suspend := c.suspend, policy := c.policy, overrides := c.overrides,
       generation := m.generation + if respec || c.overrides != m.overrides then 1 else 0)
  }

  /** CompleteMiddlewareReconcileResume's checks against the copy the reconcile started from. */
  predicate MayComplete(m: Mid, c: Mid) {
    && m.generation == c.generation
    && (c.session.Some? ==> SnapshotOf(m) == SnapshotOf(c))
    && m.policy == c.policy
  }

  function RecordAdoption(m: Mid, snapshot: Option<Snapshot>, spec: Spec): Mid {
    if m.session.Some? && SnapshotOf(m) == snapshot
    then m.(session := Some(m.session.value.(adopted := Some(spec))), adoption := Succeeded)
    else m.(adoption := Succeeded)
  }

  /** What a write of the reconcile makes of the Middleware, or None where its checks fail. */
  function Edited(s: State, e: Edit): Option<Mid>
    requires WellFormed(s)
  {
    if s.phase.Idle? then None else
    var m, c := Last(s), Copy(s);
    match e
    case Publish =>
      if s.phase.Capturing? && s.phase.mid == Newest(s) && m.session.None? && m.suspend && m.policy.NoPolicy?
      then Some(m.(session := Some(Session(s.phase.snapshot, None)), paused := true, adoption := Unknown)) else None
    case Mark =>
      if s.phase.Handling? && c.suspend && c.policy.NoPolicy? && c.session.Some?
      then Some(m.(paused := true, adoption := Unknown)) else None
    case Fail =>
      if ((s.phase.Handling? && !c.policy.MergePolicy?) || s.phase.Merging?) && (c.suspend || c.paused) && !c.policy.ApplyPolicy?
      then Some(m.(paused := true, adoption := Failed)) else None
    case Complete =>
      if s.phase.Handling? && c.suspend && c.policy.ApplyPolicy? && MayComplete(m, c)
      then Some(WithOverrides(m, c.overrides).(suspend := false))
      else if s.phase.Adopting? && c.session.Some? && MayComplete(m, c)
      then Some(WithOverrides(m, AdoptedFrom(c.session.value.snapshot, s.phase.spec)).(suspend := false))
      else None
    case Record =>
      if s.phase.Completed? then Some(RecordAdoption(m, SnapshotOf(c), s.phase.spec)) else None
    case Status =>
      if s.phase.Working? || s.phase.Owned? || s.phase.Finalizing? then Some(m.(paused := c.paused, adoption := c.adoption))
      else if s.phase.Finalized? then Some(m.(paused := false, adoption := Unknown))
      else None
    case Consume =>
      if s.phase.Working? && c.paused && Approved(c.policy) && m.policy == c.policy
         && (c.session.Some? ==> SnapshotOf(m) == SnapshotOf(c))
      then Some(m.(policy := NoPolicy)) else None
    case Clear =>
      if s.phase.Finalizing? && SnapshotOf(m) == SnapshotOf(c)
      then Some(m.(session := None, paused := false, adoption := Unknown)) else None
    case Upgrade(from, respec) =>  // the copy of the reconcile, or what the cache shows later when the package is refused
      if s.phase.Working? && s.phase.mid <= from < |s.versions| then Some(PutBack(m, s.versions[from], respec)) else None
  }

  function After(p: Phase, e: Edit): Phase {
    if e.Status? || e.Upgrade? then p
    else if e.Complete? && p.Adopting? then Completed(p.mid, p.spec)
    else if e.Consume? && p.Working? then Finalizing(p.mid)
    else if e.Clear? && p.Finalizing? then Finalized(p.mid)
    else Idle
  }

  function Append(s: State, m: Mid): State { s.(versions := s.versions + [m]) }

  function AppendLive(s: State, p: Option<Primary>): State { s.(lives := s.lives + [p]) }

  function LandLive(s: State, w: LiveWrite): State
    requires s.lives != []
  {
    var t := s.(flights := s.flights - {w}, log := s.log + [w]);
    if w.target.Child? then t
    else if w.target.Update? then
      if w.target.base == |s.lives| - 1 && Live(s).Some?
      then AppendLive(t, Some(Live(s).value.(spec := Some(w.spec)))) else s.(flights := s.flights - {w})
    else if Live(s).Some? then AppendLive(t, Some(Live(s).value.(spec := Some(w.spec))))
    else AppendLive(t, Some(Primary(s.nextUid, Some(w.spec), false))).(nextUid := s.nextUid + 1)
  }

  /** handleMiddlewareReconcilePause, up to its reads of the primary resource. */
  function Handle(s: State, a: Action): State
    requires WellFormed(s)
  {
    if !s.phase.Handling? then s else
    var c, live := Copy(s), Live(s);
    match a
    case Proceed => if !c.suspend && (!c.paused || c.policy.ApplyPolicy?) then s.(phase := Working(s.phase.mid)) else s
    case Recheck =>
      if !c.policy.MergePolicy? || !(c.suspend || c.paused) then s
      else if c.suspend || !c.adoption.Succeeded? || !StillAdopted(c, live) then s.(phase := Merging(s.phase.mid))
      else s.(phase := Working(s.phase.mid))
    case CaptureRead =>
      if c.suspend && c.policy.NoPolicy? && c.session.None? && live.Some?
      then s.(phase := Capturing(s.phase.mid, Snapshot(s.phase.mid, live.value.uid, SpecOf(live.value)))) else s
    case _ => s
  }

  /** AdoptPausedPrimaryCustomResource, freshWriteOwner and the writes built on them. */
  function Work(s: State, a: Action): State
    requires WellFormed(s)
  {
    match a
    case AdoptRead =>
      if s.phase.Merging? && Copy(s).session.Some? && Live(s).Some? && !Live(s).value.deleting
         && Live(s).value.uid == Copy(s).session.value.snapshot.uid
      then s.(phase := Adopting(s.phase.mid, SpecOf(Live(s).value))) else s
    case FreshOwner =>
      if s.phase.Working? && !WriteSuspended(Last(s)) && Last(s).generation == Copy(s).generation
      then s.(phase := Owned(s.phase.mid, Newest(s))) else s
    case SendChild =>
      if s.phase.Owned?
      then s.(phase := Working(s.phase.mid), flights := s.flights + {LiveWrite(s.phase.mid, s.phase.owner, Child, 0)}) else s
    case SendPrimary(result) =>
      if !s.phase.Owned? then s
      else if !Verified(s.versions[s.phase.owner], Live(s)) || (Live(s).Some? && Live(s).value.deleting)
      then s.(phase := Working(s.phase.mid))
      else
        var target := if Live(s).Some? then Update(|s.lives| - 1) else Create;
        s.(phase := Working(s.phase.mid), flights := s.flights + {LiveWrite(s.phase.mid, s.phase.owner, target, result)})
    case _ => s
  }

  function WriteStep(s: State, e: Edit, lost: bool): State
    requires WellFormed(s)
  {
    var m := Edited(s, e);
    if m.None? then s
    else if lost then s.(pending := s.pending + {MidWrite(e, Newest(s), s.phase.mid, m.value)})
    else Append(s, m.value).(phase := After(s.phase, e))
  }

  function Next(s: State, a: Action): State
    requires WellFormed(s)
  {
    match a
    case UserEdit(changeSpec, suspend, policy) =>
      Append(s, Last(s).(suspend := suspend, policy := policy,
                         generation := Last(s).generation + if changeSpec then 1 else 0))
    case LiveEdit(spec) => if Live(s).Some? then AppendLive(s, Some(Live(s).value.(spec := spec))) else s
    case LiveTerminate => if Live(s).Some? then AppendLive(s, Some(Live(s).value.(deleting := true))) else s
    case LiveDelete => AppendLive(s, None)
    case LiveCreate(spec) =>
      if Live(s).None? then AppendLive(s, Some(Primary(s.nextUid, spec, false))).(nextUid := s.nextUid + 1) else s
    case Begin(i) =>
      if s.phase.Idle? && s.cache <= i < |s.versions| then s.(phase := Handling(i), cache := i) else s
    case Proceed => Handle(s, a)
    case Recheck => Handle(s, a)
    case CaptureRead => Handle(s, a)
    case AdoptRead => Work(s, a)
    case FreshOwner => Work(s, a)
    case SendChild => Work(s, a)
    case SendPrimary(_) => Work(s, a)
    case Write(e, lost) => WriteStep(s, e, lost)
    case DeliverMid(w) =>
      if w !in s.pending then s
      else
        var t := s.(pending := s.pending - {w});
        if w.base == Newest(s) then Append(t, w.next) else t
    case DeliverLive(w) => if w in s.flights then LandLive(s, w) else s
    case Stop => s.(phase := Idle)
  }

  lemma NextIsWellFormed(s: State, a: Action)
    requires WellFormed(s)
    ensures WellFormed(Next(s, a))
  {
  }

  function Run(s: State, actions: seq<Action>): (t: State)
    requires WellFormed(s)
    ensures WellFormed(t)
    decreases |actions|
  {
    if actions == [] then s
    else
      NextIsWellFormed(s, actions[0]);
      Run(Next(s, actions[0]), actions[1..])
  }
}
