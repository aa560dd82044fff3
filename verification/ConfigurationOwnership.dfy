/** Who owns a rendered configuration resource, and when another owner may adopt it. */
module ConfigurationOwnership {
  import opened Options

  const GROUP := "middleware.cn"

  datatype Kind = Middleware | MiddlewareOperator

  /** An owner reference; `group` is None when its API version cannot be parsed. */
  datatype Ref = Ref(group: Option<string>, kind: Option<Kind>, name: string, uid: string, controller: bool)

  datatype Entry = Entry(target: string, namespace: string, name: string)

  datatype Owner = Owner(kind: Kind, namespace: string, name: string, uid: string, deleting: bool, configurations: seq<string>,
                         inventory: seq<Entry>, baseline: string)

  /**
    A rendered resource; `target` is its group and kind. `appliedRefs` are the UIDs of the owner references, and
    `appliedMarker` says whether it is the owner marker, that the operator's field manager last set by an Apply: the next
    Apply of the same manager drops them unless it sets them again.
   */
  datatype Live = Live(uid: string, deleting: bool, target: string, namespace: string, name: string, app: string,
                       configuration: string, ownerUid: string, refs: seq<Ref>, content: int,
                       appliedRefs: set<string>, appliedMarker: bool)

  function ControllerOf(refs: seq<Ref>): Option<Ref> {
    if refs == [] then None else if refs[0].controller then Some(refs[0]) else ControllerOf(refs[1..])
  }

  /** verifyManagedIdentity */
  predicate ManagedIdentity(owner: Owner, live: Live) {
    && owner.uid != "" && live.uid != "" && !owner.deleting && !live.deleting
    && var ref := ControllerOf(live.refs);
    && ref.Some?
    && ref.value.group == Some(GROUP) && ref.value.kind == Some(owner.kind)
    && ref.value.name == owner.name && ref.value.uid == owner.uid && live.namespace == owner.namespace
  }

  /** verifyIntentIdentity of a configuration resource */
  predicate Identity(owner: Owner, live: Live, configuration: string) {
    if configuration == "" then ManagedIdentity(owner, live) else
    && owner.uid != "" && live.uid != "" && !live.deleting
    && live.configuration == configuration
    && if ControllerOf(live.refs).Some?
       then ManagedIdentity(owner, live) && (live.ownerUid == "" || live.ownerUid == owner.uid)
       else live.app == owner.name && live.ownerUid == owner.uid
  }

  /** Whose lifecycle a resource belongs to: its controller, or the marker where there is none. */
  function OwnerUid(live: Live): string {
    if ControllerOf(live.refs).Some? then ControllerOf(live.refs).value.uid else live.ownerUid
  }

  lemma IdentityIsOwner(owner: Owner, live: Live, configuration: string)
    requires Identity(owner, live, configuration)
    ensures OwnerUid(live) == owner.uid != ""
  {
  }

  datatype Decision = Own | Blocked | Claim(oldUid: string)

  predicate SameObject(live: Live, desired: Live) {
    live.target == desired.target && live.namespace == desired.namespace && live.name == desired.name
  }

  /** configurationNeedsAdoption, up to the list of claimants */
  function Decide(owner: Owner, live: Live, desired: Live, configuration: string): Decision {
    var ref := ControllerOf(live.refs);
    if Identity(owner, live, configuration) then Own
    else if owner.uid == "" || owner.deleting || live.uid == "" || live.deleting || !SameObject(live, desired)
            || live.app != owner.name || live.configuration != configuration then Blocked
    else if ref.None? then Claim(live.ownerUid)
    else if ref.value.group != Some(GROUP) || ref.value.kind != Some(owner.kind) || ref.value.name != owner.name
            || live.namespace != owner.namespace || ref.value.uid == "" || (live.ownerUid != "" && live.ownerUid != ref.value.uid) then Blocked
    else Claim(ref.value.uid)
  }

  lemma ClaimIsOwnerUid(owner: Owner, live: Live, desired: Live, configuration: string)
    requires Decide(owner, live, desired, configuration).Claim?
    ensures Decide(owner, live, desired, configuration).oldUid == OwnerUid(live)
    ensures !Identity(owner, live, configuration) && live.configuration == configuration && live.app == owner.name
  {
  }

  // ---- Claimants ------------------------------------------------------------------

  type Baselines = map<string, seq<string>>

  predicate Listed(c: Owner, live: Live) {
    exists e :: e in c.inventory && e.target == live.target && e.namespace == live.namespace && e.name == live.name
  }

  /** A candidate other than the owner that is, lists or names the resource's source, or whose baseline cannot be read. */
  predicate Blocks(c: Owner, owner: Owner, live: Live, configuration: string, oldUid: string, baselines: Baselines) {
    c.uid != owner.uid &&
    (|| (c.uid == oldUid && oldUid != "")
     || Listed(c, live)
     || (c.name == owner.name && configuration in c.configurations)
     || (c.name == owner.name && c.baseline != "" && (c.baseline !in baselines || configuration in baselines[c.baseline])))
  }

  /** checkConfigurationClaimants: the first candidate that blocks, if any. */
  method FindClaimant(candidates: seq<Owner>, owner: Owner, live: Live, configuration: string, oldUid: string, baselines: Baselines)
    returns (r: Option<Owner>)
    ensures r.None? <==> forall c :: c in candidates ==> !Blocks(c, owner, live, configuration, oldUid, baselines)
    ensures r.Some? ==> r.value in candidates && Blocks(r.value, owner, live, configuration, oldUid, baselines)
  {
    for n := 0 to |candidates|
      invariant forall c :: c in candidates[..n] ==> !Blocks(c, owner, live, configuration, oldUid, baselines)
    {
      var c := candidates[n];
      assert candidates[..n + 1] == candidates[..n] + [c];
      var blocks := CheckOne(c, owner, live, configuration, oldUid, baselines);
      if blocks { return Some(c); }
    }
    assert candidates[..|candidates|] == candidates;
    return None;
  }

  method CheckOne(c: Owner, owner: Owner, live: Live, configuration: string, oldUid: string, baselines: Baselines) returns (r: bool)
    ensures r <==> Blocks(c, owner, live, configuration, oldUid, baselines)
  {
    if c.uid == owner.uid { return false; }
    var conflict := c.uid == oldUid && oldUid != "";
    for n := 0 to |c.inventory|
      invariant conflict <==> ((c.uid == oldUid && oldUid != "") || Listed(c.(inventory := c.inventory[..n]), live))
    {
      var e := c.inventory[n];
      assert c.inventory[..n + 1] == c.inventory[..n] + [e];
      if e.target == live.target && e.namespace == live.namespace && e.name == live.name { conflict := true; }
    }
    assert c.inventory[..|c.inventory|] == c.inventory;
    if !conflict && c.name == owner.name { conflict := configuration in c.configurations; }
    if !conflict && c.name == owner.name && c.baseline != "" {
      if c.baseline !in baselines { return true; }
      conflict := configuration in baselines[c.baseline];
    }
    return conflict;
  }

  // ---- Owner references --------------------------------------------------------------

  function Bystanders(refs: seq<Ref>): seq<Ref> {
    if refs == [] then [] else (if refs[0].controller then [] else [refs[0]]) + Bystanders(refs[1..])
  }

  /** Replaces the first reference of the same UID, or appends. */
  function Put(refs: seq<Ref>, ref: Ref): seq<Ref> {
    if refs == [] then [ref] else if refs[0].uid == ref.uid then [ref] + refs[1..] else [refs[0]] + Put(refs[1..], ref)
  }

  function PutAll(refs: seq<Ref>, more: seq<Ref>): seq<Ref>
    decreases |more|
  {
    if more == [] then refs else Put(PutAll(refs, more[..|more| - 1]), more[|more| - 1])
  }

  method PutReference(refs: seq<Ref>, ref: Ref) returns (r: seq<Ref>)
    ensures r == Put(refs, ref)
  {
    var i := 0;
    while i < |refs| && refs[i].uid != ref.uid
      invariant i <= |refs| && Put(refs, ref) == refs[..i] + Put(refs[i..], ref)
    {
      assert refs[i..][1..] == refs[i + 1..];
      assert refs[..i + 1] == refs[..i] + [refs[i]];
      i := i + 1;
    }
    if i < |refs| {
      assert refs[i..][1..] == refs[i + 1..];
      return refs[i := ref];
    }
    return refs + [ref];
  }

  /** The references of the adopted object: the live ones that are no controller, overlaid with the desired ones. */
  method RewriteReferences(live: seq<Ref>, desired: seq<Ref>) returns (refs: seq<Ref>)
    ensures refs == PutAll(Bystanders(live), desired)
  {
    refs := [];
    for n := 0 to |live|
      invariant refs + Bystanders(live[n..]) == Bystanders(live)
    {
      assert live[n..][1..] == live[n + 1..];
      if !live[n].controller { refs := refs + [live[n]]; }
    }
    assert live[|live|..] == [];
    for n := 0 to |desired|
      invariant refs == PutAll(Bystanders(live), desired[..n])
    {
      assert desired[..n + 1][..n] == desired[..n];
      refs := PutReference(refs, desired[n]);
    }
    assert desired[..|desired|] == desired;
  }

  /** References that keep their UIDs out of the way of another list. */
  function Without(refs: seq<Ref>, uids: set<string>): seq<Ref> {
    if refs == [] then [] else (if refs[0].uid in uids then [] else [refs[0]]) + Without(refs[1..], uids)
  }

  function Uids(refs: seq<Ref>): set<string> { set r | r in refs :: r.uid }

  lemma {:induction false} PutLaws(refs: seq<Ref>, ref: Ref, uids: set<string>)
    requires ref.uid in uids
    ensures Without(Put(refs, ref), uids) == Without(refs, uids)
    ensures ref in Put(refs, ref)
    ensures forall r :: r in Put(refs, ref) ==> r == ref || r in refs
    ensures forall r :: r in refs && r.uid != ref.uid ==> r in Put(refs, ref)
    decreases |refs|
  {
    if refs == [] {
      assert [ref][1..] == [];
    } else {
      PutLaws(refs[1..], ref, uids);
      assert Put(refs, ref)[1..] == if refs[0].uid == ref.uid then refs[1..] else Put(refs[1..], ref);
    }
  }

  /**
    Unrelated references stay, in their order; every desired reference is there when their UIDs differ; and no controller
    is left but a desired one.
   */
  lemma {:induction false} RewriteLaws(live: seq<Ref>, desired: seq<Ref>, uids: set<string>)
    requires Uids(desired) <= uids
    requires forall i, j :: 0 <= i < j < |desired| ==> desired[i].uid != desired[j].uid
    ensures var r := PutAll(Bystanders(live), desired);
      && Without(r, uids) == Without(Bystanders(live), uids)
      && (forall d :: d in desired ==> d in r)
      && (forall x :: x in r ==> x in desired || (x in live && !x.controller))
    decreases |desired|
  {
    BystandersAreLive(live);
    if desired != [] {
      var n := |desired| - 1;
      assert desired == desired[..n] + [desired[n]];
      RewriteLaws(live, desired[..n], uids);
      PutLaws(PutAll(Bystanders(live), desired[..n]), desired[n], uids);
      forall d | d in desired ensures d in PutAll(Bystanders(live), desired) {
        if d != desired[n] { var i :| 0 <= i < n && desired[i] == d; assert d in desired[..n]; }
      }
    }
  }

  lemma {:induction false} BystandersAreLive(live: seq<Ref>)
    ensures forall r :: r in Bystanders(live) <==> r in live && !r.controller
    decreases |live|
  {
    if live != [] { assert live == [live[0]] + live[1..]; BystandersAreLive(live[1..]); }
  }

  lemma {:induction false} ControllerIsMember(refs: seq<Ref>)
    ensures ControllerOf(refs).Some? ==> ControllerOf(refs).value in refs && ControllerOf(refs).value.controller
    ensures ControllerOf(refs).None? ==> forall r :: r in refs ==> !r.controller
    decreases |refs|
  {
    if refs != [] { assert refs == [refs[0]] + refs[1..]; ControllerIsMember(refs[1..]); }
  }

  predicate UniqueUids(refs: seq<Ref>) { forall i, j :: 0 <= i < j < |refs| ==> refs[i].uid != refs[j].uid }

  predicate OneController(refs: seq<Ref>) { forall x, y :: x in refs && y in refs && x.controller && y.controller ==> x == y }

  lemma TheController(refs: seq<Ref>, x: Ref)
    requires OneController(refs) && x in refs && x.controller
    ensures ControllerOf(refs) == Some(x)
  {
    ControllerIsMember(refs);
  }

  lemma {:induction false} PutMembers(refs: seq<Ref>, ref: Ref)
    requires UniqueUids(refs)
    ensures UniqueUids(Put(refs, ref))
    ensures forall x :: x in Put(refs, ref) <==> x == ref || (x in refs && x.uid != ref.uid)
    decreases |refs|
  {
    if refs != [] {
      assert refs == [refs[0]] + refs[1..];
      PutMembers(refs[1..], ref);
      forall x | x in refs[1..] ensures x.uid != refs[0].uid { var i :| 0 <= i < |refs| - 1 && refs[1..][i] == x; assert refs[i + 1] == x; }
      assert forall i :: 0 <= i < |refs| - 1 ==> refs[1..][i] in refs[1..];
      if refs[0].uid != ref.uid {
        assert forall x :: x in Put(refs[1..], ref) ==> x.uid != refs[0].uid;
        var r := Put(refs[1..], ref);
        assert forall i :: 0 <= i < |r| ==> r[i] in r;
      }
    }
  }

  lemma {:induction false} PutAllMembers(refs: seq<Ref>, more: seq<Ref>)
    requires UniqueUids(refs) && UniqueUids(more)
    ensures UniqueUids(PutAll(refs, more))
    ensures forall x :: x in PutAll(refs, more) <==> x in more || (x in refs && x.uid !in Uids(more))
    decreases |more|
  {
    hide Put, UniqueUids, Uids;
    if more != [] {
      var n := |more| - 1;
      UniqueTake(more, n);
      PutAllMembers(refs, more[..n]);
      PutMembers(PutAll(refs, more[..n]), more[n]);
    } else {
      UniqueTake(more, 0);
    }
  }

  /** The references before one of them, and their UIDs. */
  lemma UniqueTake(more: seq<Ref>, n: nat)
    requires UniqueUids(more) && n <= |more|
    ensures UniqueUids(more[..n]) && (more == [] ==> Uids(more) == {})
    ensures n < |more| ==> forall x :: x in more[..n] ==> x.uid != more[n].uid
    ensures n + 1 == |more| ==> (forall x :: x in more <==> x in more[..n] || x == more[n]) && Uids(more) == Uids(more[..n]) + {more[n].uid}
  {
    if n < |more| {
      forall x | x in more[..n] ensures x.uid != more[n].uid { var i :| 0 <= i < n && more[i] == x; }
      if n + 1 == |more| { assert more == more[..n] + [more[n]]; }
    }
  }

  lemma {:induction false} WithoutMembers(refs: seq<Ref>, uids: set<string>)
    requires UniqueUids(refs)
    ensures UniqueUids(Without(refs, uids))
    ensures forall x :: x in Without(refs, uids) <==> x in refs && x.uid !in uids
    decreases |refs|
  {
    if refs != [] {
      assert refs == [refs[0]] + refs[1..];
      WithoutMembers(refs[1..], uids);
      forall x | x in refs[1..] ensures x.uid != refs[0].uid { var i :| 0 <= i < |refs| - 1 && refs[1..][i] == x; assert refs[i + 1] == x; }
      var r := Without(refs[1..], uids);
      assert forall i :: 0 <= i < |r| ==> r[i] in r;
    }
  }

  /** With one desired controller of the adopter, or none, the rewritten references name the adopter or nobody. */
  lemma AdopterControls(live: seq<Ref>, desired: seq<Ref>)
    requires forall i, j :: 0 <= i < j < |desired| ==> desired[i].uid != desired[j].uid
    requires forall r :: r in desired && r.controller ==> Some(r) == ControllerOf(desired)
    ensures ControllerOf(PutAll(Bystanders(live), desired)) == ControllerOf(desired)
  {
    var r := PutAll(Bystanders(live), desired);
    RewriteLaws(live, desired, Uids(desired));
    ControllerIsMember(r);
    ControllerIsMember(desired);
  }
}
