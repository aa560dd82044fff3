/** An adoption was uncontested: whoever is adopted from, the lists that preceded it showed no other claim. */
module ConfigurationClaims {
  import opened Options
  import opened ConfigurationOwnership
  import opened ConfigurationTransfer

  /**
    No other owner of the kind is the present owner of the resource, has it in its inventory, or, under the name of the
    adopter, names its configuration directly or through a baseline; every such baseline could be read.
   */
  ghost predicate Uncontested(s: State, kind: Kind, owner: Owner, live: Live, configuration: string, baselines: Baselines) {
    forall u :: u in s.owners && s.owners[u].kind == kind && u != owner.uid ==>
      var c := s.owners[u];
      && (OwnerUid(live) != "" ==> u != OwnerUid(live))
      && (forall e :: e in c.inventory ==> e != Entry(live.target, live.namespace, live.name))
      && (c.name == owner.name ==>
            && configuration !in c.configurations
            && (c.baseline != "" ==> c.baseline in baselines && configuration !in baselines[c.baseline]))
  }

  lemma PassedIsUncontested(s: State, a: Attempt, baselines: Baselines)
    requires Inv(s) && AttemptOk(s, a) && ListPasses(s, a, s.lives[a.base].value, baselines)
    ensures Uncontested(s, if a.listed % 2 == 0 then Middleware else MiddlewareOperator, a.owner, s.lives[a.base].value, a.configuration, baselines)
  {
    hide OwnerUid, Identity, Lives, WriteOk;
    var live := s.lives[a.base].value;
    forall u | u in s.owners && s.owners[u].kind == (if a.listed % 2 == 0 then Middleware else MiddlewareOperator) && u != a.owner.uid
      ensures var c := s.owners[u];
        c.uid == u && !Blocks(c, a.owner, live, a.configuration, a.oldUid, baselines)
        && forall e :: e in c.inventory ==> e != Entry(live.target, live.namespace, live.name)
    {
      var c := s.owners[u];
      forall e | e in c.inventory ensures e != Entry(live.target, live.namespace, live.name) {
        assert e == Entry(live.target, live.namespace, live.name) ==> Listed(c, live);
      }
    }
  }

  /** Action i lists the claimants of one kind, and finds the resource uncontested. */
  ghost predicate ListedAt(actions: seq<Action>, i: nat, kind: Kind, owner: Owner, live: Live, configuration: string) {
    && i < |actions| && actions[i].List?
    && Uncontested(Run(INIT, actions[..i]), kind, owner, live, configuration, actions[i].baselines)
  }

  /** Lists of Middlewares and operators in turn, one after the other. */
  ghost predicate ListedInTurn(actions: seq<Action>, at: seq<nat>, owner: Owner, live: Live, configuration: string) {
    && (forall j, k :: 0 <= j < k < |at| ==> at[j] < at[k])
    && forall k :: 0 <= k < |at| ==>
         ListedAt(actions, at[k], if k % 2 == 0 then Middleware else MiddlewareOperator, owner, live, configuration)
  }

  ghost predicate AttemptListed(actions: seq<Action>, s: State, a: Attempt) {
    a.base < |s.lives| && s.lives[a.base].Some? && a.listed <= 4 &&
    exists at: seq<nat> :: |at| == a.listed && ListedInTurn(actions, at, a.owner, s.lives[a.base].value, a.configuration)
  }

  ghost predicate WriteListed(actions: seq<Action>, s: State, w: Write) {
    w.mode.Guarded? && w.base < |s.lives| && s.lives[w.base].Some? && OwnerUid(s.lives[w.base].value) != w.owner.uid ==>
      exists at: seq<nat> :: |at| == 4 && ListedInTurn(actions, at, w.owner, s.lives[w.base].value, w.configuration)
  }

  ghost predicate AllListed(actions: seq<Action>, s: State) {
    && (forall agent :: agent in s.attempts ==> AttemptListed(actions, s, s.attempts[agent]))
    && (forall w :: w in s.flights ==> WriteListed(actions, s, w))
  }

  lemma {:induction false} RunLast(s: State, actions: seq<Action>)
    requires actions != []
    ensures Run(s, actions) == Next(Run(s, actions[..|actions| - 1]), actions[|actions| - 1])
    decreases |actions|
  {
    hide Next;
    if |actions| == 1 {
      assert actions[..0] == [] && actions[1..] == [];
      assert Run(Next(s, actions[0]), actions[1..]) == Next(s, actions[0]);
    } else {
      RunLast(Next(s, actions[0]), actions[1..]);
      assert actions[1..][..|actions| - 2] == actions[..|actions| - 1][1..];
    }
  }

  lemma ListedStays(actions: seq<Action>, a: Action, at: seq<nat>, owner: Owner, live: Live, configuration: string)
    requires ListedInTurn(actions, at, owner, live, configuration)
    ensures ListedInTurn(actions + [a], at, owner, live, configuration)
  {
    hide Uncontested, Run;
    forall k | 0 <= k < |at|
      ensures ListedAt(actions + [a], at[k], if k % 2 == 0 then Middleware else MiddlewareOperator, owner, live, configuration)
    {
      assert ListedAt(actions, at[k], if k % 2 == 0 then Middleware else MiddlewareOperator, owner, live, configuration);
      assert (actions + [a])[..at[k]] == actions[..at[k]];
    }
  }

  /** Attempts and writes that were there before keep their lists. */
  lemma AllStays(actions: seq<Action>, s: State, action: Action, t: State)
    requires Inv(s) && AllListed(actions, s) && s.lives <= t.lives
    ensures forall a :: AttemptListed(actions, s, a) ==> AttemptListed(actions + [action], t, a)
    ensures forall w :: w in s.flights ==> WriteListed(actions + [action], t, w)
  {
    hide ListedInTurn, Inv, OwnerUid;
    forall a | AttemptListed(actions, s, a) ensures AttemptListed(actions + [action], t, a) {
      var at: seq<nat> :| |at| == a.listed && ListedInTurn(actions, at, a.owner, s.lives[a.base].value, a.configuration);
      ListedStays(actions, action, at, a.owner, s.lives[a.base].value, a.configuration);
    }
    forall w | w in s.flights ensures WriteListed(actions + [action], t, w) {
      BaseIsOld(s, w);
      if w.mode.Guarded? && OwnerUid(s.lives[w.base].value) != w.owner.uid {
        var at: seq<nat> :| |at| == 4 && ListedInTurn(actions, at, w.owner, s.lives[w.base].value, w.configuration);
        ListedStays(actions, action, at, w.owner, s.lives[w.base].value, w.configuration);
      }
    }
  }

  lemma BaseIsOld(s: State, w: Write)
    requires Inv(s) && w in s.flights
    ensures w.base < |s.lives| && (w.mode.Guarded? ==> s.lives[w.base].Some?)
  {
    hide Identity, OwnerUid, Lives, AttemptOk;
    assert WriteOk(s, w);
  }

  lemma ListGrows(actions: seq<Action>, s: State, agent: nat, baselines: Baselines)
    requires s == Run(INIT, actions) && Inv(s) && AllListed(actions, s)
    ensures AllListed(actions + [List(agent, baselines)], Next(s, List(agent, baselines)))
  {
    hide Inv, Run, Uncontested, ListPasses, AttemptOk, WriteListed;
    var action := List(agent, baselines);
    var t := Next(s, action);
    AllStays(actions, s, action, t);
    if agent in s.attempts && agent in t.attempts {
      var a := s.attempts[agent];
      assert AttemptListed(actions, s, a);
      var live := s.lives[a.base].value;
      assert AttemptOk(s, a) by { AttemptIsOk(s, agent); }
      PassedIsUncontested(s, a, baselines);
      var at: seq<nat> :| |at| == a.listed && ListedInTurn(actions, at, a.owner, live, a.configuration);
      ListedStays(actions, action, at, a.owner, live, a.configuration);
      assert (actions + [action])[..|actions|] == actions;
      assert ListedAt(actions + [action], |actions|, if a.listed % 2 == 0 then Middleware else MiddlewareOperator, a.owner, live, a.configuration);
      IndexBelow(actions, at, a.owner, live, a.configuration);
      assert ListedInTurn(actions + [action], at + [|actions|], a.owner, live, a.configuration);
    }
  }

  lemma AttemptIsOk(s: State, agent: nat)
    requires Inv(s) && agent in s.attempts
    ensures AttemptOk(s, s.attempts[agent])
  {
    hide AttemptOk, WriteOk, Lives, Owners;
  }

  lemma IndexBelow(actions: seq<Action>, at: seq<nat>, owner: Owner, live: Live, configuration: string)
    requires ListedInTurn(actions, at, owner, live, configuration)
    ensures forall k :: 0 <= k < |at| ==> at[k] < |actions|
  {
    hide Uncontested, Run;
    forall k | 0 <= k < |at| ensures at[k] < |actions| {
      assert ListedAt(actions, at[k], if k % 2 == 0 then Middleware else MiddlewareOperator, owner, live, configuration);
    }
  }

  lemma ReadStarts(actions: seq<Action>, s: State, action: Action)
    requires Inv(s) && AllListed(actions, s) && action.Read?
    ensures AllListed(actions + [action], Next(s, action))
  {
    hide Inv, WriteListed, Decide;
    var t := Next(s, action);
    AllStays(actions, s, action, t);
    if action.agent in t.attempts && t != s {
      var a := t.attempts[action.agent];
      assert a.listed == 0 ==> ListedInTurn(actions + [action], [], a.owner, t.lives[a.base].value, a.configuration);
    }
  }

  lemma CommitKeeps(actions: seq<Action>, s: State, action: Action)
    requires Inv(s) && AllListed(actions, s) && action.Commit?
    ensures AllListed(actions + [action], Next(s, action))
  {
    hide Inv, ListedInTurn, Identity, Admitted, OwnerUid;
    AllStays(actions, s, action, Next(s, action));
    if action.agent in s.attempts { assert AttemptListed(actions, s, s.attempts[action.agent]); }
  }

  lemma UpdateKeeps(actions: seq<Action>, s: State, action: Action)
    requires Inv(s) && AllListed(actions, s) && action.Update?
    ensures AllListed(actions + [action], Next(s, action))
  {
    hide Inv, ListedInTurn, Identity, Admitted, AttemptListed, OwnerUid;
    AllStays(actions, s, action, Next(s, action));
    if action.uid in s.owners && Current(s).Some? && Identity(s.owners[action.uid], Current(s).value, action.configuration) {
      IdentityIsOwner(s.owners[action.uid], Current(s).value, action.configuration);
    }
    OwnersAreKeyed(s);
  }

  lemma OwnersAreKeyed(s: State)
    requires Inv(s)
    ensures forall u :: u in s.owners ==> s.owners[u].uid == u
  {
    hide AttemptOk, WriteOk, Lives;
  }

  lemma NextListed(actions: seq<Action>, s: State, action: Action)
    requires s == Run(INIT, actions) && Inv(s) && AllListed(actions, s)
    ensures AllListed(actions + [action], Next(s, action))
  {
    hide Inv, Run, ListedInTurn, Identity, Admitted, AttemptListed, WriteListed, Adopt, Unguarded, RenderedBy, KnownLive;
    match action
    case Read(_, _, _, _) => ReadStarts(actions, s, action);
    case List(agent, baselines) => ListGrows(actions, s, agent, baselines);
    case Commit(_, _) => CommitKeeps(actions, s, action);
    case Update(_, _, _) => UpdateKeeps(actions, s, action);
    case Publish(_, _, _, _) =>
      AllStays(actions, s, action, Next(s, action));
      forall w | w in Next(s, action).flights && w !in s.flights ensures WriteListed(actions + [action], Next(s, action), w) {
        UnguardedIsListed(actions + [action], Next(s, action), w);
      }
    case Deliver(w) => AllStays(actions, s, action, Next(s, action));
    case _ => AllStays(actions, s, action, Next(s, action));
  }

  lemma UnguardedIsListed(actions: seq<Action>, s: State, w: Write)
    requires !w.mode.Guarded?
    ensures WriteListed(actions, s, w)
  {
  }

  lemma {:induction false} RunListed(actions: seq<Action>)
    ensures Inv(Run(INIT, actions)) && AllListed(actions, Run(INIT, actions))
    decreases |actions|
  {
    hide Inv, Run, Next, AttemptListed, WriteListed;
    RunPreserves(INIT, actions) by { InitIsOk(); }
    if actions == [] {
      NothingListed();
    } else {
      var before, last := actions[..|actions| - 1], actions[|actions| - 1];
      RunListed(before);
      RunLast(INIT, actions);
      NextListed(before, Run(INIT, before), last);
      assert before + [last] == actions;
    }
  }

  lemma InitIsOk()
    ensures Inv(INIT)
  {
  }

  lemma NothingListed()
    ensures AllListed([], Run(INIT, []))
  {
  }

  /**
    In every run, a guarded write that lands and changes whose resource it is was preceded by two rounds of lists, of
    Middlewares and of operators each, and each of them found the resource that the write replaces uncontested.
   */
  lemma AdoptionWasUncontested(actions: seq<Action>, w: Write)
    requires w.mode.Guarded?
    ensures var s := Run(INIT, actions);
      Next(s, Deliver(w)).lives != s.lives ==>
        && Current(s).Some?
        && (OwnerUid(w.after) != OwnerUid(Current(s).value) ==>
              exists at: seq<nat> :: |at| == 4 && ListedInTurn(actions, at, w.owner, Current(s).value, w.configuration))
  {
    hide Inv, Identity, ListedInTurn, OwnerUid;
    var s := Run(INIT, actions);
    RunListed(actions);
    OwnershipMovesFromTheDead(actions, w);
    if w in s.flights { assert WriteListed(actions, s, w); }
  }

  // ---- An uncontested resource is adopted ---------------------------------------------------

  lemma UncontestedPasses(s: State, a: Attempt, live: Live, baselines: Baselines)
    requires Owners(s) && a.oldUid == OwnerUid(live) && a.owner.uid in s.owners && !s.owners[a.owner.uid].deleting
    requires Uncontested(s, if a.listed % 2 == 0 then Middleware else MiddlewareOperator, a.owner, live, a.configuration, baselines)
    ensures ListPasses(s, a, live, baselines)
  {
    hide OwnerUid;
    forall u | u in s.owners && s.owners[u].kind == (if a.listed % 2 == 0 then Middleware else MiddlewareOperator)
      ensures !Blocks(s.owners[u], a.owner, live, a.configuration, a.oldUid, baselines)
    {
      var c := s.owners[u];
      assert c.uid == u;
      ListedIs(c, live);
    }
  }

  lemma ListedIs(c: Owner, live: Live)
    ensures Listed(c, live) <==> Entry(live.target, live.namespace, live.name) in c.inventory
  {
    forall e | e in c.inventory && e.target == live.target && e.namespace == live.namespace && e.name == live.name
      ensures e == Entry(live.target, live.namespace, live.name) {}
  }

  /**
    A resource with the name and the configuration of the adopter that belongs to somebody else: by its marker, or by a
    controller that looks like the adopter but for the UID, and that the marker, if any, agrees with.
   */
  ghost predicate Adoptable(owner: Owner, live: Live, desired: Live, configuration: string) {
    && live.uid != "" && !live.deleting && live.target == desired.target && live.namespace == desired.namespace && live.name == desired.name
    && live.app == owner.name && live.configuration == configuration
    && match ControllerOf(live.refs)
       case None => live.ownerUid != owner.uid
       case Some(ref) =>
         && ref.group == Some(GROUP) && ref.kind == Some(owner.kind) && ref.name == owner.name && live.namespace == owner.namespace
         && ref.uid != "" && ref.uid != owner.uid && (live.ownerUid == "" || live.ownerUid == ref.uid)
  }

  /** An adoption is attempted exactly by a living owner of an adoptable resource, and from its present owner. */
  lemma ClaimIffAdoptable(owner: Owner, live: Live, desired: Live, configuration: string)
    requires configuration != ""
    ensures Decide(owner, live, desired, configuration).Claim? <==>
      owner.uid != "" && !owner.deleting && Adoptable(owner, live, desired, configuration)
    ensures Decide(owner, live, desired, configuration).Claim? ==>
      Decide(owner, live, desired, configuration).oldUid == OwnerUid(live) != owner.uid
  {
  }

  function Adoption(agent: nat, uid: string, desired: Live, configuration: string, baselines: Baselines, after: Live): seq<Action> {
    [Read(agent, uid, desired, configuration), List(agent, baselines), List(agent, baselines), List(agent, baselines),
     List(agent, baselines), Commit(agent, after)]
  }

  /** If no other owner claims it, a living owner adopts such a resource: its guarded write is sent, and lands if nobody interferes. */
  lemma UncontestedIsAdopted(s: State, agent: nat, uid: string, desired: Live, configuration: string, baselines: Baselines, after: Live)
    requires Inv(s) && agent !in s.attempts && uid in s.owners && !s.owners[uid].deleting
    requires Current(s).Some? && configuration != "" && Adoptable(s.owners[uid], Current(s).value, desired, configuration)
    requires Uncontested(s, Middleware, s.owners[uid], Current(s).value, configuration, baselines)
    requires Uncontested(s, MiddlewareOperator, s.owners[uid], Current(s).value, configuration, baselines)
    requires Admitted(after) && Identity(s.owners[uid], after, configuration)
    ensures var t := Run(s, Adoption(agent, uid, desired, configuration, baselines, after));
      var w := Write(s.owners[uid], |s.lives| - 1, configuration, after, Guarded);
      && t == s.(flights := s.flights + {w})
      && Next(t, Deliver(w)).lives == s.lives + [Some(after)]
  {
    hide Next, Inv, Uncontested, Identity, Admitted, Adoptable;
    var owner, base := s.owners[uid], |s.lives| - 1;
    var actions := Adoption(agent, uid, desired, configuration, baselines, after);
    OwnersAreKeyed(s);
    Claims(s, agent, uid, desired, configuration);
    var a := Attempt(owner, base, configuration, OwnerUid(Current(s).value), 0);
    var s1, s5 := At(s, agent, a), At(s, agent, a.(listed := 4));
    forall n: nat | n < 4 ensures Next(At(s, agent, a.(listed := n)), List(agent, baselines)) == At(s, agent, a.(listed := n + 1)) {
      Lists(s, agent, a.(listed := n), baselines);
    }
    var t := Next(s5, Commit(agent, after));
    Commits(s, agent, a.(listed := 4), after);
    assert Next(At(s, agent, a.(listed := 0)), List(agent, baselines)) == At(s, agent, a.(listed := 1));
    assert Next(At(s, agent, a.(listed := 1)), List(agent, baselines)) == At(s, agent, a.(listed := 2));
    assert Next(At(s, agent, a.(listed := 2)), List(agent, baselines)) == At(s, agent, a.(listed := 3));
    assert Next(At(s, agent, a.(listed := 3)), List(agent, baselines)) == s5;
    RunOfSix(s, actions);
    GuardedLands(t, Write(owner, base, configuration, after, Guarded));
  }

  function At(s: State, agent: nat, a: Attempt): State { s.(attempts := s.attempts[agent := a]) }

  lemma Claims(s: State, agent: nat, uid: string, desired: Live, configuration: string)
    requires Inv(s) && uid in s.owners && !s.owners[uid].deleting && s.owners[uid].uid == uid
    requires Current(s).Some? && configuration != "" && Adoptable(s.owners[uid], Current(s).value, desired, configuration)
    ensures Next(s, Read(agent, uid, desired, configuration)) ==
      At(s, agent, Attempt(s.owners[uid], |s.lives| - 1, configuration, OwnerUid(Current(s).value), 0))
  {
    hide Decide, Adoptable;
    ClaimIffAdoptable(s.owners[uid], Current(s).value, desired, configuration);
    assert uid != "";
  }

  lemma Lists(s: State, agent: nat, a: Attempt, baselines: Baselines)
    requires Inv(s) && a.listed < 4 && a.base < |s.lives| && s.lives[a.base].Some?
    requires a.oldUid == OwnerUid(s.lives[a.base].value) && a.owner.uid in s.owners && !s.owners[a.owner.uid].deleting
    requires Uncontested(s, Middleware, a.owner, s.lives[a.base].value, a.configuration, baselines)
    requires Uncontested(s, MiddlewareOperator, a.owner, s.lives[a.base].value, a.configuration, baselines)
    ensures Next(At(s, agent, a), List(agent, baselines)) == At(s, agent, a.(listed := a.listed + 1))
  {
    hide ListPasses, Uncontested, OwnerUid, Lives, AttemptOk, WriteOk;
    var t := At(s, agent, a);
    assert Owners(t);
    SameOwners(s, t, Middleware, a, s.lives[a.base].value, baselines);
    SameOwners(s, t, MiddlewareOperator, a, s.lives[a.base].value, baselines);
    UncontestedPasses(t, a, s.lives[a.base].value, baselines);
    assert t.attempts[agent := a.(listed := a.listed + 1)] == s.attempts[agent := a.(listed := a.listed + 1)];
  }

  lemma SameOwners(s: State, t: State, kind: Kind, a: Attempt, live: Live, baselines: Baselines)
    requires s.owners == t.owners && Uncontested(s, kind, a.owner, live, a.configuration, baselines)
    ensures Uncontested(t, kind, a.owner, live, a.configuration, baselines)
  {
  }

  lemma Commits(s: State, agent: nat, a: Attempt, after: Live)
    requires agent !in s.attempts && a.listed == 4 && Admitted(after) && Identity(a.owner, after, a.configuration)
    ensures Next(At(s, agent, a), Commit(agent, after)) ==
      s.(flights := s.flights + {Write(a.owner, a.base, a.configuration, after, Guarded)})
  {
    hide Identity, Admitted;
    assert s.attempts[agent := a] - {agent} == s.attempts;
  }

  lemma GuardedLands(s: State, w: Write)
    requires w in s.flights && w.mode.Guarded? && w.base == |s.lives| - 1
    ensures Next(s, Deliver(w)).lives == s.lives + [Some(w.after)]
  {
  }

  lemma RunOfSix(s: State, actions: seq<Action>)
    requires |actions| == 6
    ensures Run(s, actions) ==
      Next(Next(Next(Next(Next(Next(s, actions[0]), actions[1]), actions[2]), actions[3]), actions[4]), actions[5])
  {
    hide Next;
    assert actions[1..][0] == actions[1] && actions[1..][1] == actions[2] && actions[1..][2] == actions[3]
        && actions[1..][3] == actions[4] && actions[1..][4] == actions[5];
    RunFive(Next(s, actions[0]), actions[1..]);
  }

  // ---- What a writer may take for its own, and what an unguarded write leaves ------------------

  /**
    A resource passes the identity check of an owner if and only if it carries the configuration and is not being deleted, and
    belongs to that owner: by name and marker without a controller, else by a controller that is the owner in its namespace.
   */
  lemma OwnIff(owner: Owner, live: Live, configuration: string)
    requires configuration != ""
    ensures Identity(owner, live, configuration) <==> (
      && owner.uid != "" && live.uid != "" && !live.deleting && live.configuration == configuration
      && match ControllerOf(live.refs)
         case None => live.app == owner.name && live.ownerUid == owner.uid
         case Some(ref) =>
           && !owner.deleting && ref.group == Some(GROUP) && ref.kind == Some(owner.kind) && ref.name == owner.name
           && ref.uid == owner.uid && live.namespace == owner.namespace && live.ownerUid in {"", owner.uid})
  {
  }

  /** What a forced Apply leaves of a resource that was there. */
  ghost predicate AppliedOver(live: Live, desired: Live, after: Live) {
    && after.app == desired.app && after.configuration == desired.configuration && after.content == desired.content
    && after.uid == live.uid && after.deleting == live.deleting
    && after.target == live.target && after.namespace == live.namespace && after.name == live.name
    && (desired.ownerUid != "" ==> after.ownerUid == desired.ownerUid)
    && (desired.ownerUid == "" ==> after.ownerUid == if live.appliedMarker then "" else live.ownerUid)
    && (forall x :: x in after.refs <==>
          x in desired.refs
          || (x in live.refs && x.uid !in live.appliedRefs && forall y :: y in desired.refs ==> y.uid != x.uid))
  }

  /**
    In every run, a write that found nothing leaves its own rendering where there is still nothing. Over a resource that has
    appeared, a Create leaves it alone, and a forced Apply is refused or changes what it renders.
   */
  lemma UnguardedLands(actions: seq<Action>, w: Write)
    requires w in Run(INIT, actions).flights && !w.mode.Guarded?
    ensures var s := Run(INIT, actions); var t := Next(s, Deliver(w));
      && (Current(s).None? ==> t.lives == s.lives + [Some(w.after)])
      && (Current(s).Some? && w.mode.Created? ==> t.lives == s.lives)
      && (Current(s).Some? && w.mode.Applied? && t.lives != s.lives ==>
            && Current(t).Some? && t.lives == s.lives + [Current(t)] && AppliedOver(Current(s).value, w.after, Current(t).value))
  {
    hide Inv, Overlaid, AppliedOver, Admitted;
    RunListed(actions);
    var s := Run(INIT, actions);
    if Current(s).Some? && w.mode.Applied? {
      AdmittedLives(s);
      OverlayLeaves(Current(s).value, w.after);
    }
  }

  lemma OverlayLeaves(live: Live, desired: Live)
    requires Admitted(live) && Admitted(desired)
    ensures AppliedOver(live, desired, Overlaid(live, desired))
  {
    OverlaidMembers(live, desired);
  }
}
