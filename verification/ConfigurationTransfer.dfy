/**
  Publication and adoption of one configuration resource by competing owners, as a transition system.

  `lives` lists every version of the resource. Updates and adoptions are guarded by the version they were computed from; a
  writer that found no resource sends a forced Apply, or a Create for an immutable kind, without a guard. Owners come, go
  and change between any two reads of an adopter. UIDs are never reused, and outsiders write no UID that was never issued.
 */
module ConfigurationTransfer {
  import opened Options
  import opened ConfigurationOwnership

  /** An adopter at work: `listed` counts the lists of claimants it has checked, Middlewares and operators in turn. */
  datatype Attempt = Attempt(owner: Owner, base: nat, configuration: string, oldUid: string, listed: nat)

  /** A patch guarded by its base, a forced Apply, or a plain Create; the last two were sent on finding nothing at the base. */
  datatype Mode = Guarded | Applied | Created

  datatype Write = Write(owner: Owner, base: nat, configuration: string, after: Live, mode: Mode)

  datatype State = State(owners: map<string, Owner>, issued: set<string>, lives: seq<Option<Live>>,
                         attempts: map<nat, Attempt>, flights: set<Write>)

  const INIT: State := State(map[], {}, [None], map[], {})

  datatype Action =
    | CreateOwner(owner: Owner)
    | ChangeOwner(owner: Owner)
    | DeleteOwner(uid: string)
    | Outside(live: Option<Live>)
    | Read(agent: nat, uid: string, desired: Live, configuration: string)
    | List(agent: nat, baselines: Baselines)
    | Commit(agent: nat, after: Live)
    | Update(uid: string, configuration: string, after: Live)
    | Publish(uid: string, configuration: string, desired: Live, immutable: bool)
    | Deliver(write: Write)
    | Stop(agent: nat)

  function Current(s: State): Option<Live> { if s.lives == [] then None else s.lives[|s.lives| - 1] }

  predicate Known(s: State, uid: string) { uid == "" || uid in s.issued }

  predicate Gone(s: State, uid: string) { uid == "" || (uid in s.issued && uid !in s.owners) }

  /** No owner of the kind blocks the attempt; before the second round the owner itself is read again. */
  predicate ListPasses(s: State, a: Attempt, live: Live, baselines: Baselines) {
    && (a.listed == 2 ==> a.owner.uid in s.owners && !s.owners[a.owner.uid].deleting)
    && forall u :: u in s.owners && s.owners[u].kind == (if a.listed % 2 == 0 then Middleware else MiddlewareOperator) ==>
         !Blocks(s.owners[u], a.owner, live, a.configuration, a.oldUid, baselines)
  }

  function Append(s: State, live: Option<Live>): State { s.(lives := s.lives + [live]) }

  /** What the API server admits: one reference per UID, and one controller. */
  predicate Admitted(live: Live) { UniqueUids(live.refs) && OneController(live.refs) }

  predicate KnownLive(s: State, live: Live) {
    Known(s, live.ownerUid) && forall r :: r in live.refs && r.controller ==> Known(s, r.uid)
  }

  /** The rendered resource of an owner: its markers, and no controller but the owner. The marker may be missing. */
  predicate RenderedBy(owner: Owner, configuration: string, desired: Live) {
    && desired.uid != "" && desired.app == owner.name && desired.configuration == configuration
    && desired.ownerUid in {"", owner.uid} && Admitted(desired)
    && forall r :: r in desired.refs && r.controller ==> r.uid == owner.uid
  }

  /** A forced Apply by the shared field manager over a resource that is there: what it set before and no longer sets is dropped. */
  function Overlaid(live: Live, desired: Live): Live {
    live.(app := desired.app, configuration := desired.configuration, content := desired.content,
          ownerUid := MarkerAfter(live, desired),
          refs := PutAll(Without(live.refs, live.appliedRefs), desired.refs),
          appliedRefs := Uids(desired.refs), appliedMarker := desired.ownerUid != "")
  }

  function MarkerAfter(live: Live, desired: Live): string {
    if desired.ownerUid != "" then desired.ownerUid else if live.appliedMarker then "" else live.ownerUid
  }

  /** The resource after a write that was not guarded, or None where the server refuses it. */
  function Unguarded(live: Option<Live>, w: Write): Option<Live> {
    if live.None? then Some(w.after)
    else if w.mode.Applied? && Admitted(Overlaid(live.value, w.after)) then Some(Overlaid(live.value, w.after))
    else None
  }

  /** configurationNeedsAdoption and adoptConfigurationResource, call by call. */
  function Adopt(s: State, action: Action): State {
    match action
    case Read(agent, uid, desired, configuration) =>
      if uid !in s.owners || Current(s).None? || configuration == "" then s else
      var d := Decide(s.owners[uid], Current(s).value, desired, configuration);
      if d.Claim? then s.(attempts := s.attempts[agent := Attempt(s.owners[uid], |s.lives| - 1, configuration, d.oldUid, 0)]) else s
    case List(agent, baselines) =>
      if agent !in s.attempts then s else
      var a := s.attempts[agent];
      if a.listed < 4 && a.base < |s.lives| && s.lives[a.base].Some? && ListPasses(s, a, s.lives[a.base].value, baselines)
      then s.(attempts := s.attempts[agent := a.(listed := a.listed + 1)])
      else s.(attempts := s.attempts - {agent})
    case Commit(agent, after) =>
      if agent !in s.attempts then s else
      var a := s.attempts[agent];
      if a.listed == 4 && Admitted(after) && Identity(a.owner, after, a.configuration)
      then s.(attempts := s.attempts - {agent}, flights := s.flights + {Write(a.owner, a.base, a.configuration, after, Guarded)})
      else s
    case _ => s
  }

  function Land(s: State, w: Write): State {
    var t := s.(flights := s.flights - {w});
    if w.mode.Guarded? then (if w.base == |s.lives| - 1 then Append(t, Some(w.after)) else t)
    else
      var live := Unguarded(Current(s), w);
      if live.Some? then Append(t, live) else t
  }

  function Next(s: State, action: Action): State {
    match action
    case CreateOwner(o) =>
      if o.uid == "" || o.uid in s.issued then s else s.(owners := s.owners[o.uid := o], issued := s.issued + {o.uid})
    case ChangeOwner(o) =>
      if o.uid in s.owners && s.owners[o.uid].kind == o.kind then s.(owners := s.owners[o.uid := o]) else s
    case DeleteOwner(uid) => s.(owners := s.owners - {uid})
    case Outside(live) => if live.None? || (Admitted(live.value) && KnownLive(s, live.value)) then Append(s, live) else s
    case Read(_, _, _, _) => Adopt(s, action)
    case List(_, _) => Adopt(s, action)
    case Commit(_, _) => Adopt(s, action)
    case Update(uid, configuration, after) =>
      if uid in s.owners && Current(s).Some? && configuration != "" && Admitted(after)
         && Identity(s.owners[uid], Current(s).value, configuration) && Identity(s.owners[uid], after, configuration)
      then s.(flights := s.flights + {Write(s.owners[uid], |s.lives| - 1, configuration, after, Guarded)}) else s
    case Publish(uid, configuration, desired, immutable) =>
      if uid in s.owners && s.lives != [] && Current(s).None? && RenderedBy(s.owners[uid], configuration, desired)
      then s.(flights := s.flights + {Write(s.owners[uid], |s.lives| - 1, configuration, desired, if immutable then Created else Applied)})
      else s
    case Deliver(w) => if w in s.flights then Land(s, w) else s
    case Stop(agent) => s.(attempts := s.attempts - {agent})
  }

  function Run(s: State, actions: seq<Action>): State
    decreases |actions|
  {
    if actions == [] then s else Run(Next(s, actions[0]), actions[1..])
  }

  // ---- The invariant -----------------------------------------------------------------

  ghost predicate Owners(s: State) {
    forall u :: u in s.owners ==> u == s.owners[u].uid && u in s.issued && u != ""
  }

  ghost predicate Lives(s: State) {
    s.lives != [] && forall n :: 0 <= n < |s.lives| && s.lives[n].Some? ==> Admitted(s.lives[n].value) && KnownLive(s, s.lives[n].value)
  }

  /** Once a kind has been listed without a claimant, no owner of that kind has the old UID, and none ever will. */
  ghost predicate AttemptOk(s: State, a: Attempt) {
    && a.base < |s.lives| && s.lives[a.base].Some?
    && a.configuration != "" && OwnerUid(s.lives[a.base].value) == a.oldUid && a.oldUid != a.owner.uid && a.owner.uid in s.issued
    && (a.listed >= 1 && a.oldUid in s.owners ==> !s.owners[a.oldUid].kind.Middleware?)
    && (a.listed >= 2 && a.oldUid in s.owners ==> !s.owners[a.oldUid].kind.MiddlewareOperator?)
  }

  ghost predicate WriteOk(s: State, w: Write) {
    && w.base < |s.lives| && w.owner.uid in s.issued && Admitted(w.after)
    && if w.mode.Guarded? then
         && s.lives[w.base].Some? && w.configuration != "" && Identity(w.owner, w.after, w.configuration)
         && (OwnerUid(s.lives[w.base].value) == w.owner.uid || Gone(s, OwnerUid(s.lives[w.base].value)))
       else s.lives[w.base].None? && RenderedBy(w.owner, w.configuration, w.after)
  }

  ghost predicate Inv(s: State) {
    && Owners(s) && Lives(s)
    && (forall a :: a in s.attempts ==> AttemptOk(s, s.attempts[a]))
    && (forall w :: w in s.flights ==> WriteOk(s, w))
  }

  /** t knows every owner s knows, brings no UID back, keeps kinds, and continues the versions of s. */
  ghost predicate Later(s: State, t: State) {
    && s.issued <= t.issued && s.lives <= t.lives && "" !in t.owners
    && (forall u :: u in t.owners && u in s.issued ==> u in s.owners && t.owners[u].kind == s.owners[u].kind)
  }

  lemma OwnerIsKnown(s: State, live: Live)
    requires KnownLive(s, live)
    ensures Known(s, OwnerUid(live))
  {
    ControllerIsMember(live.refs);
  }

  lemma LaterKeeps(s: State, t: State)
    requires Inv(s) && Later(s, t)
    ensures forall a :: AttemptOk(s, a) ==> AttemptOk(t, a)
    ensures forall w :: WriteOk(s, w) ==> WriteOk(t, w)
    ensures forall x :: KnownLive(s, x) ==> KnownLive(t, x)
  {
    hide Identity, OwnerUid;
    forall a | AttemptOk(s, a) ensures AttemptOk(t, a) { OwnerIsKnown(s, s.lives[a.base].value); }
    forall w | WriteOk(s, w) ensures WriteOk(t, w) {
      if w.mode.Guarded? { OwnerIsKnown(s, s.lives[w.base].value); }
    }
  }

  lemma ReadOk(s: State, agent: nat, uid: string, desired: Live, configuration: string)
    requires Inv(s)
    ensures Inv(Adopt(s, Read(agent, uid, desired, configuration)))
  {
    hide Decide, Identity, OwnerUid;
    if uid in s.owners && Current(s).Some? && configuration != "" {
      var d := Decide(s.owners[uid], Current(s).value, desired, configuration);
      if d.Claim? {
        ClaimIsOwnerUid(s.owners[uid], Current(s).value, desired, configuration);
        ClaimIsForeign(s.owners[uid], Current(s).value, desired, configuration);
      }
    }
    LaterKeeps(s, Adopt(s, Read(agent, uid, desired, configuration)));
  }

  /** An owner never adopts from itself. */
  lemma ClaimIsForeign(owner: Owner, live: Live, desired: Live, configuration: string)
    requires configuration != "" && Decide(owner, live, desired, configuration).Claim?
    ensures Decide(owner, live, desired, configuration).oldUid != owner.uid
  {
  }

  lemma ListOk(s: State, agent: nat, baselines: Baselines)
    requires Inv(s)
    ensures Inv(Adopt(s, List(agent, baselines)))
  {
    hide Identity, OwnerUid;
    var t := Adopt(s, List(agent, baselines));
    if agent in s.attempts {
      var a := s.attempts[agent];
      assert AttemptOk(s, a);
      if agent in t.attempts { ListProves(s, a, baselines); }
    }
    LaterKeeps(s, t);
  }

  lemma ListProves(s: State, a: Attempt, baselines: Baselines)
    requires Inv(s) && AttemptOk(s, a) && a.listed < 4 && ListPasses(s, a, s.lives[a.base].value, baselines)
    ensures AttemptOk(s, a.(listed := a.listed + 1))
  {
    hide OwnerUid, Listed;
    if a.oldUid in s.owners {
      assert s.owners[a.oldUid].uid == a.oldUid != "";
      assert Blocks(s.owners[a.oldUid], a.owner, s.lives[a.base].value, a.configuration, a.oldUid, baselines);
    }
  }

  lemma CommitOk(s: State, agent: nat, after: Live)
    requires Inv(s)
    ensures Inv(Adopt(s, Commit(agent, after)))
  {
    hide Identity, OwnerUid;
    var t := Adopt(s, Commit(agent, after));
    if agent in s.attempts {
      var a := s.attempts[agent];
      assert AttemptOk(s, a);
      OwnerIsKnown(s, s.lives[a.base].value);
    }
    LaterKeeps(s, t);
  }

  lemma UpdateOk(s: State, uid: string, configuration: string, after: Live)
    requires Inv(s)
    ensures Inv(Next(s, Update(uid, configuration, after)))
  {
    hide Identity, OwnerUid;
    if uid in s.owners && Current(s).Some? && Identity(s.owners[uid], Current(s).value, configuration) {
      IdentityIsOwner(s.owners[uid], Current(s).value, configuration);
    }
    LaterKeeps(s, Next(s, Update(uid, configuration, after)));
  }

  lemma PublishOk(s: State, uid: string, configuration: string, desired: Live, immutable: bool)
    requires Inv(s)
    ensures Inv(Next(s, Publish(uid, configuration, desired, immutable)))
  {
    hide Identity, OwnerUid, AttemptOk, KnownLive;
    LaterKeeps(s, Next(s, Publish(uid, configuration, desired, immutable)));
  }

  lemma IdentityIsKnown(s: State, owner: Owner, live: Live, configuration: string)
    requires Admitted(live) && Identity(owner, live, configuration) && owner.uid in s.issued && configuration != ""
    ensures KnownLive(s, live)
  {
    forall r | r in live.refs && r.controller ensures Known(s, r.uid) { TheController(live.refs, r); }
  }

  /** References and marker after an Apply over an existing resource. */
  lemma OverlaidMembers(live: Live, desired: Live)
    requires Admitted(live) && Admitted(desired)
    ensures var refs := Overlaid(live, desired).refs;
      UniqueUids(refs) && forall x :: x in refs <==>
        x in desired.refs || (x in live.refs && x.uid !in live.appliedRefs && x.uid !in Uids(desired.refs))
  {
    WithoutMembers(live.refs, live.appliedRefs);
    PutAllMembers(Without(live.refs, live.appliedRefs), desired.refs);
  }

  lemma LandedIsKnown(s: State, w: Write)
    requires Inv(s) && WriteOk(s, w) && !w.mode.Guarded? && Unguarded(Current(s), w).Some?
    ensures var live := Unguarded(Current(s), w).value; Admitted(live) && KnownLive(s, live)
  {
    hide Identity, OwnerUid, AttemptOk, Overlaid;
    if Current(s).Some? {
      OverlaidMembers(Current(s).value, w.after);
      assert Overlaid(Current(s).value, w.after).ownerUid == MarkerAfter(Current(s).value, w.after) by { MarkerIs(Current(s).value, w.after); }
    }
  }

  lemma MarkerIs(live: Live, desired: Live)
    ensures Overlaid(live, desired).ownerUid == MarkerAfter(live, desired)
  {
  }

  lemma DeliverOk(s: State, w: Write)
    requires Inv(s)
    ensures Inv(Next(s, Deliver(w)))
  {
    hide Identity, OwnerUid, Admitted, KnownLive, Unguarded, RenderedBy;
    if w in s.flights {
      assert WriteOk(s, w);
      if w.mode.Guarded? {
        IdentityIsKnown(s, w.owner, w.after, w.configuration);
      } else if Unguarded(Current(s), w).Some? {
        LandedIsKnown(s, w);
      }
      var t := Land(s, w);
      assert forall n :: 0 <= n < |s.lives| ==> t.lives[n] == s.lives[n];
      LaterKeeps(s, t);
    }
  }

  lemma NextPreserves(s: State, action: Action)
    requires Inv(s)
    ensures Inv(Next(s, action))
  {
    hide Identity, OwnerUid, Adopt, Land, Admitted, KnownLive, AttemptOk, WriteOk, RenderedBy;
    match action
    case Read(agent, uid, desired, configuration) => ReadOk(s, agent, uid, desired, configuration);
    case List(agent, baselines) => ListOk(s, agent, baselines);
    case Commit(agent, after) => CommitOk(s, agent, after);
    case Update(uid, configuration, after) => UpdateOk(s, uid, configuration, after);
    case Publish(uid, configuration, desired, immutable) => PublishOk(s, uid, configuration, desired, immutable);
    case Deliver(w) => DeliverOk(s, w);
    case _ => LaterKeeps(s, Next(s, action));
  }

  lemma {:induction false} RunPreserves(s: State, actions: seq<Action>)
    requires Inv(s)
    ensures Inv(Run(s, actions))
    decreases |actions|
  {
    hide Inv, Next;
    if actions != [] {
      NextPreserves(s, actions[0]);
      RunPreserves(Next(s, actions[0]), actions[1..]);
    }
  }

  // ---- Exclusive ownership -----------------------------------------------------------

  /**
    In every run, a guarded write that changes whose resource it is lands only when the owner it was taken from no longer
    exists, and the resource then passes the identity check of the writer.
   */
  lemma OwnershipMovesFromTheDead(actions: seq<Action>, w: Write)
    requires w.mode.Guarded?
    ensures var s := Run(INIT, actions); var t := Next(s, Deliver(w));
      t.lives != s.lives ==>
        && Current(s).Some? && t.lives == s.lives + [Some(w.after)]
        && Identity(w.owner, w.after, w.configuration) && OwnerUid(w.after) == w.owner.uid
        && (OwnerUid(Current(s).value) != OwnerUid(w.after) ==> OwnerUid(Current(s).value) !in s.owners)
  {
    hide Identity, OwnerUid, Admitted, KnownLive;
    RunPreserves(INIT, actions);
    var s := Run(INIT, actions);
    if w in s.flights {
      assert WriteOk(s, w);
      IdentityIsOwner(w.owner, w.after, w.configuration);
      EmptyIsUnused(s);
    }
  }

  lemma EmptyIsUnused(s: State)
    requires Inv(s)
    ensures "" !in s.owners
  {
  }

  /** A landing write that leaves the resource with another owner, or none, while its owner is alive. */
  predicate TakesFromLiving(s: State, w: Write) {
    var t := Next(s, Deliver(w));
    && t.lives != s.lives && Current(s).Some? && Current(t).Some?
    && OwnerUid(Current(s).value) in s.owners && OwnerUid(Current(t).value) != OwnerUid(Current(s).value)
  }

  /** The controller of a resource outlives an Apply: no Apply of the operator set it, and the new one does not mention it. */
  predicate ControllerStays(live: Live, desired: Live) {
    ControllerOf(live.refs).Some?
    && ControllerOf(live.refs).value.uid !in live.appliedRefs && ControllerOf(live.refs).value.uid !in Uids(desired.refs)
  }

  /**
    A forced Apply over this resource takes it away: its controller does not stay, and the controller the Apply brings, or
    without one the marker it leaves, does not name the present owner.
   */
  predicate Displaces(live: Live, desired: Live) {
    && !ControllerStays(live, desired)
    && OwnerUid(live) != if ControllerOf(desired.refs).Some? then ControllerOf(desired.refs).value.uid else MarkerAfter(live, desired)
  }

  lemma OverlaidOwner(live: Live, desired: Live)
    requires Admitted(live) && Admitted(desired)
    ensures Admitted(Overlaid(live, desired)) <==> !(ControllerStays(live, desired) && ControllerOf(desired.refs).Some?)
    ensures Admitted(Overlaid(live, desired)) ==>
      OwnerUid(Overlaid(live, desired)) ==
        if ControllerStays(live, desired) then OwnerUid(live)
        else if ControllerOf(desired.refs).Some? then ControllerOf(desired.refs).value.uid
        else MarkerAfter(live, desired)
  {
    var after := Overlaid(live, desired);
    OverlaidMembers(live, desired);
    ControllerIsMember(live.refs);
    ControllerIsMember(desired.refs);
    ControllerIsMember(after.refs);
    if ControllerOf(live.refs).Some? { SameUid(live.refs, ControllerOf(live.refs).value); }
    forall x | x in live.refs && x.controller ensures ControllerOf(live.refs) == Some(x) { TheController(live.refs, x); }
    forall x | x in desired.refs && x.controller ensures ControllerOf(desired.refs) == Some(x) { TheController(desired.refs, x); }
    if OneController(after.refs) {
      forall x | x in after.refs && x.controller ensures ControllerOf(after.refs) == Some(x) { TheController(after.refs, x); }
    }
  }

  lemma SameUid(refs: seq<Ref>, c: Ref)
    requires UniqueUids(refs) && c in refs
    ensures forall x :: x in refs && x.uid == c.uid ==> x == c
  {
    var i :| 0 <= i < |refs| && refs[i] == c;
    forall x | x in refs && x.uid == c.uid ensures x == c { var j :| 0 <= j < |refs| && refs[j] == x; }
  }

  /**
    In every run, a landing write takes a resource from a living owner if and only if it is a forced Apply that displaces a
    resource of a living owner; the resource then appeared after the read that found nothing.
   */
  lemma TakenFromLivingIffDisplaced(actions: seq<Action>, w: Write)
    requires w in Run(INIT, actions).flights
    ensures var s := Run(INIT, actions);
      TakesFromLiving(s, w) <==> (
        && w.mode.Applied? && Current(s).Some?
        && OwnerUid(Current(s).value) in s.owners && Displaces(Current(s).value, w.after))
    ensures var s := Run(INIT, actions);
      TakesFromLiving(s, w) ==> w.base < |s.lives| - 1 && s.lives[w.base].None?
  {
    hide Identity, OwnerUid, Displaces, Overlaid, RenderedBy;
    RunPreserves(INIT, actions);
    var s := Run(INIT, actions);
    assert WriteOk(s, w);
    if w.mode.Guarded? {
      OwnershipMovesFromTheDead(actions, w);
    } else if w.mode.Applied? && Current(s).Some? {
      AppliedTakes(s, w);
    }
  }

  lemma AppliedTakes(s: State, w: Write)
    requires Inv(s) && w in s.flights && w.mode.Applied? && Current(s).Some?
    ensures TakesFromLiving(s, w) <==> OwnerUid(Current(s).value) in s.owners && Displaces(Current(s).value, w.after)
    ensures w.base < |s.lives| - 1 && s.lives[w.base].None?
  {
    hide Identity, AttemptOk, Overlaid, OwnerUid, Admitted, KnownLive, ControllerStays;
    assert WriteOk(s, w);
    AdmittedLives(s);
    OverlaidOwner(Current(s).value, w.after);
  }

  lemma AdmittedLives(s: State)
    requires Inv(s)
    ensures Current(s).Some? ==> Admitted(Current(s).value)
    ensures forall w :: w in s.flights ==> Admitted(w.after)
  {
    hide Identity, AttemptOk, OwnerUid, Admitted, KnownLive;
  }

  // ---- A run in which a living owner loses its resource --------------------------------

  function Instance(namespace: string, uid: string): Owner {
    Owner(Middleware, namespace, "mid", uid, false, [], [], "")
  }

  function Rendering(uid: string): Live {
    Live("r", false, "ConfigMap", "shared", "cm", "mid", "conf", uid, [], 0, {}, true)
  }

  /** Both instances find nothing; the first one's Apply lands, then that of the second. */
  const RACE: seq<Action> := [
    CreateOwner(Instance("x", "a")), CreateOwner(Instance("y", "b")),
    Publish("b", "conf", Rendering("b"), false), Publish("a", "conf", Rendering("a"), false),
    Deliver(Write(Instance("x", "a"), 0, "conf", Rendering("a"), Applied))]

  /** Two instances of one name in different namespaces that render the same resource of a third: the marker moves from living a to b. */
  lemma LivingOwnerLosesResource()
    ensures var s, w := Run(INIT, RACE), Write(Instance("y", "b"), 0, "conf", Rendering("b"), Applied);
      && w in s.flights && TakesFromLiving(s, w)
      && OwnerUid(Current(s).value) == "a" && OwnerUid(Current(Next(s, Deliver(w))).value) == "b" && "a" in s.owners
  {
    var a, b := Instance("x", "a"), Instance("y", "b");
    var wa, wb := Write(a, 0, "conf", Rendering("a"), Applied), Write(b, 0, "conf", Rendering("b"), Applied);
    var s2 := State(map["a" := a, "b" := b], {"a", "b"}, [None], map[], {});
    assert Next(Next(INIT, RACE[0]), RACE[1]) == s2;
    RunFive(INIT, RACE);
    BothPublish(s2, wa, wb);
  }

  lemma RunFive(s: State, actions: seq<Action>)
    requires |actions| == 5
    ensures Run(s, actions) == Next(Next(Next(Next(Next(s, actions[0]), actions[1]), actions[2]), actions[3]), actions[4])
  {
    hide Next;
    assert actions[1..][1..] == actions[2..] && actions[2..][1..] == actions[3..] && actions[3..][1..] == actions[4..] && actions[4..][1..] == [];
    var s1 := Next(s, actions[0]);
    var s2 := Next(s1, actions[1]);
    var s3 := Next(s2, actions[2]);
    var s4 := Next(s3, actions[3]);
    assert Run(Next(s4, actions[4]), []) == Next(s4, actions[4]);
    assert Run(s4, actions[4..]) == Run(Next(s4, actions[4]), actions[4..][1..]);
    assert Run(s3, actions[3..]) == Run(Next(s3, actions[3]), actions[4..]);
    assert Run(s2, actions[2..]) == Run(s3, actions[3..]);
    assert Run(s1, actions[1..]) == Run(s2, actions[2..]);
  }

  lemma BothPublish(s: State, wa: Write, wb: Write)
    requires s.owners == map["a" := Instance("x", "a"), "b" := Instance("y", "b")] && s.lives == [None] && s.flights == {}
    requires wa == Write(Instance("x", "a"), 0, "conf", Rendering("a"), Applied)
    requires wb == Write(Instance("y", "b"), 0, "conf", Rendering("b"), Applied)
    ensures var t := Next(Next(Next(s, Publish("b", "conf", Rendering("b"), false)), Publish("a", "conf", Rendering("a"), false)), Deliver(wa));
      && wb in t.flights && t.owners == s.owners && Current(t) == Some(Rendering("a"))
      && Current(Next(t, Deliver(wb))).Some? && OwnerUid(Current(Next(t, Deliver(wb))).value) == "b"
      && |Next(t, Deliver(wb)).lives| == |t.lives| + 1
  {
    var t := Next(Next(Next(s, Publish("b", "conf", Rendering("b"), false)), Publish("a", "conf", Rendering("a"), false)), Deliver(wa));
    assert t.lives == [None, Some(Rendering("a"))] && wb in t.flights;
    assert Overlaid(Rendering("a"), Rendering("b")).refs == [];
  }
}
