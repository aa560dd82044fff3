/**
  The collector's sweep as a program over the API server: every call is one transition, and between any two calls
  the others do as they please.
 */
module IntentPrograms {
  import opened Options
  import opened IntentProtocol
  import opened IntentInvariant
  import opened IntentSteps

  /** The client that takes a transition; None for the environment. */
  function AgentOf(a: Action): Option<Agent> {
    match a
    case CreateObject(_, _) => None
    case DeleteObject(_) => None
    case ExternalEdit(_, _, _) => None
    case OwnerGarbageCollection(_) => None
    case Deliver(_, _, _) => None
    case _ => Some(a.agent)
  }

  /** What a step of somebody else leaves alone: the phase of this client, and every record ever issued. */
  ghost predicate LeavesAlone(s: State, t: State, me: Agent) {
    && (me in t.agents <==> me in s.agents)
    && (me in s.agents && me in t.agents ==> t.agents[me] == s.agents[me])
    && KeepsIssued(s, t)
  }

  ghost predicate KeepsIssued(s: State, t: State) {
    s.nextUid <= t.nextUid && forall n :: n in s.issued ==> n in t.issued && t.issued[n] == s.issued[n]
  }

  lemma NextLeavesAlone(s: State, a: Action, me: Agent)
    requires Counters(s) && AgentOf(a) != Some(me)
    ensures LeavesAlone(s, Next(s, a), me)
  {
    hide Counters, LeavesAlone, KeepsIssued, Next;
    if a.Prepare? || a.CapturePrepare? { IssuingKeepsIssued(s, a); } else { OthersKeepIssued(s, a); }
    OnlyOnePhaseChanges(s, a);
    SameElsewhere(s, Next(s, a), AgentOf(a), me);
  }

  lemma OnlyOnePhaseChanges(s: State, a: Action)
    ensures var t, who := Next(s, a), AgentOf(a);
      if who.Some? then t.agents - {who.value} == s.agents - {who.value} else t.agents == s.agents
  {
    hide DeliverStep, PrepareStep, DiscardUnusedStep, RespondStep, CleanupReadStep, CleanupSkipStep, RereadStep,
         DeleteRecordStep, EditReadStep, EditSendStep, CapturePrepareStep, CaptureCheckStep, CleanupPauseStep,
         CollectStep, CollectTargetStep, FenceStep, FenceRespondStep;
  }

  lemma OthersKeepIssued(s: State, a: Action)
    requires !a.Prepare? && !a.CapturePrepare?
    ensures KeepsIssued(s, Next(s, a))
  {
    hide DeliverStep, PrepareStep, DiscardUnusedStep, RespondStep, CleanupReadStep, CleanupSkipStep, RereadStep,
         DeleteRecordStep, EditReadStep, EditSendStep, CapturePrepareStep, CaptureCheckStep, CleanupPauseStep,
         CollectStep, CollectTargetStep, FenceStep, FenceRespondStep;
    assert Next(s, a).issued == s.issued && s.nextUid <= Next(s, a).nextUid;
  }

  lemma IssuingKeepsIssued(s: State, a: Action)
    requires Counters(s) && (a.Prepare? || a.CapturePrepare?)
    ensures KeepsIssued(s, Next(s, a))
  {
  }

  lemma SameElsewhere(s: State, t: State, who: Option<Agent>, me: Agent)
    requires who != Some(me) && KeepsIssued(s, t)
    requires if who.Some? then t.agents - {who.value} == s.agents - {who.value} else t.agents == s.agents
    ensures LeavesAlone(s, t, me)
  {
    if who.Some? {
      var x := who.value;
      assert me in t.agents <==> me in t.agents - {x};
      assert me in s.agents <==> me in s.agents - {x};
      if me in s.agents { assert (s.agents - {x})[me] == s.agents[me] && (t.agents - {x})[me] == t.agents[me]; }
    }
  }

  lemma NextKeepsIssued(s: State, a: Action)
    requires Counters(s)
    ensures KeepsIssued(s, Next(s, a))
  {
    hide Next, Counters;
    match AgentOf(a)
    case None => NextLeavesAlone(s, a, 0);
    case Some(b) => NextLeavesAlone(s, a, b + 1);
  }

  // ---- Steps of this client and of the others -------------------------------------

  /** From s the run came to t: the invariant holds, dead records are still dead, records issued are still known. */
  ghost predicate Along(s: State, t: State) {
    Preserves(s, t) && KeepsIssued(s, t)
  }

  lemma AlongTwice(s: State, t: State)
    requires Along(t, t) || Inv(t)
    ensures forall x :: Along(x, s) && Along(s, t) ==> Along(x, t)
  {
    hide Inv, Dead;
    forall x | Along(x, s) && Along(s, t) ensures Along(x, t) { PreservesTwice(x, s, t); }
  }

  lemma CallIsOk(s: State, a: Action)
    requires Inv(s) && !a.Deliver?
    ensures Inv(Next(s, a)) && KeepsIssued(s, Next(s, a)) && forall x :: Along(x, s) ==> Along(x, Next(s, a))
    ensures forall k :: Unreachable(s, k) ==> Unreachable(Next(s, a), k)
  {
    hide Objects, Requests, IntentInvariant.Deleted, Phases, Dead, Next, Counters;
    NextPreserves(s, a);
    NextKeepsIssued(s, a);
    AlongTwice(s, Next(s, a));
  }

  lemma OtherIsOk(s: State, a: Action, me: Agent)
    requires Inv(s) && AgentOf(a) != Some(me) && !(a.Deliver? && a.duplicate)
    ensures Inv(Next(s, a)) && LeavesAlone(s, Next(s, a), me) && forall x :: Along(x, s) ==> Along(x, Next(s, a))
    ensures forall k :: Unreachable(s, k) ==> Unreachable(Next(s, a), k)
  {
    hide Objects, Requests, IntentInvariant.Deleted, Phases, Dead, Next, Counters;
    NextPreserves(s, a);
    NextLeavesAlone(s, a, me);
    AlongTwice(s, Next(s, a));
  }

  lemma StayIsOk(s: State)
    requires Inv(s)
    ensures Along(s, s)
  {
    StayPreserves(s);
  }

  // ---- The collector's phases -------------------------------------------------------

  /** The record is out of reach for good: nothing refers to it, and nothing in flight or repeatable still can. */
  ghost predicate Unreachable(s: State, n: Name) { n in s.issued && Dead(s, n) }

  lemma CollectPhase(s: State, me: Agent, n: Name)
    requires Inv(s) && me !in s.agents
    ensures var t := Next(s, Collect(me, n));
      me in t.agents ==> t.agents[me] == Collecting(n) && n in t.issued
  {
    hide Dead;
  }

  lemma TargetPhase(s: State, me: Agent, n: Name)
    requires me in s.agents && s.agents[me] == Collecting(n) && n in s.issued
    ensures var t := Next(s, CollectTarget(me));
      me !in t.agents || t.agents[me] == Fencing(n) || t.agents[me] == Discarding(n, None)
  {
  }

  lemma FencePhase(s: State, me: Agent, n: Name)
    requires me in s.agents && s.agents[me] == Fencing(n) && n in s.issued
    ensures me in Next(s, Fence(me)).agents && Next(s, Fence(me)).agents[me].FenceSent? && Next(s, Fence(me)).agents[me].name == n
  {
  }

  lemma FenceAnswerPhase(s: State, me: Agent, n: Name)
    requires me in s.agents && s.agents[me].FenceSent? && s.agents[me].name == n && n in s.issued
    ensures var t := Next(s, FenceRespond(me));
      me !in t.agents || t.agents[me] == s.agents[me] || t.agents[me] == Discarding(n, None)
  {
  }

  lemma DeleteOnlyOne(s: State, me: Agent, n: Name)
    requires me in s.agents && s.agents[me] == Discarding(n, None)
    ensures Next(s, DeleteRecord(me)).records == s.records - {n}
  {
  }

  /** The record is deleted in a phase that only dead records reach. */
  lemma DeletePhase(s: State, me: Agent, n: Name)
    requires Inv(s) && me in s.agents && s.agents[me] == Discarding(n, None)
    ensures var t := Next(s, DeleteRecord(me)); me !in t.agents && n !in t.records && Unreachable(t, n)
  {
    hide Dead;
    PhaseOf(s, me);
    NextPreserves(s, DeleteRecord(me));
  }

  // ---- The initializing writer's phases -------------------------------------------

  lemma PreparePhase(s: State, me: Agent, ownerKey: Key, ownerUid: Uid, content: Content)
    requires Inv(s) && me in s.agents && s.agents[me].Read? && s.agents[me].initializing && ownerUid < s.nextUid
    ensures var t, p := Next(s, Prepare(me, ownerKey, ownerUid, content)), s.agents[me];
      && me in t.agents && t.agents[me] == Prepared(None, s.nextName, true, s.nextId)
      && s.nextName in t.issued && t.issued[s.nextName] == Record(Intent(true), ownerKey, ownerUid, p.key, p.uid, p.rv, content)
      && s.nextName !in s.issued
      && t.objects == s.objects && s.nextId in t.requests && s.nextId !in t.fates
      && t.requests[s.nextId] == Request(p.key, Some(Guard(p.uid, p.rv)), Point(s.nextName), None, None, false)
  {
    hide Dead, PhaseOk, RequestOk, ObjectOk;
  }

  lemma CommitPhase(s: State, me: Agent, n: Name, id: Id)
    requires me in s.agents && s.agents[me] == Prepared(None, n, true, id)
    ensures var t := Next(s, Commit(me));
      me in t.agents && (t.agents[me] == Committing(None, n, true, id) || t.agents[me] == Prepared(None, n, true, id))
  {
  }

  lemma RespondPhase(s: State, me: Agent, n: Name, id: Id)
    requires me in s.agents && s.agents[me] == Committing(None, n, true, id) && n in s.issued
    ensures var t := Next(s, Respond(me));
      if me !in t.agents then id in s.fates && s.fates[id].Applied?
      else t.agents[me] == Committing(None, n, true, id) || t.agents[me] == Rejected(s.issued[n].key, s.issued[n].uid, n, true)
  {
  }

  lemma CleanupPhase(s: State, me: Agent, key: Key, uid: Uid, n: Name, read: bool)
    requires Inv(s) && me in s.agents && s.agents[me] == Rejected(key, uid, n, true)
    ensures Unreachable(s, n)
    ensures var t := Next(s, if read then CleanupRead(me) else CleanupSkip(me));
      me in t.agents && (t.agents[me] == Retrying(key, uid, n) || t.agents[me] == Discarding(n, Some((key, uid))))
  {
    hide Dead;
    PhaseOf(s, me);
  }

  lemma DiscardPhase(s: State, me: Agent, n: Name, retry: Option<(Key, Uid)>)
    requires me in s.agents && s.agents[me] == Discarding(n, retry)
    ensures var t := Next(s, DeleteRecord(me));
      if retry.Some? then me in t.agents && t.agents[me] == Retrying(retry.value.0, retry.value.1, n) else me !in t.agents
  {
  }

  lemma RereadPhase(s: State, me: Agent, key: Key, uid: Uid, n: Name)
    requires me in s.agents && s.agents[me] == Retrying(key, uid, n)
    ensures var t := Next(s, Reread(me));
      me !in t.agents || t.agents[me] == Discarding(n, None)
      || (t.agents[me].Read? && t.agents[me].key == key && t.agents[me].uid == uid && t.agents[me].initializing
          && t.agents[me].pointer.None? && Matches(t, key, uid, t.agents[me].rv) && t.objects[key].pointer.None?)
  {
  }

  lemma QuietCleanup(s: State, me: Agent, key: Key, uid: Uid, n: Name, read: bool)
    requires me in s.agents && s.agents[me] == Rejected(key, uid, n, true)
    ensures var t := Next(s, if read then CleanupRead(me) else CleanupSkip(me));
      t.objects == s.objects && t.records == s.records && me in t.agents
      && (t.agents[me].Discarding? <==> read && !PointsTo(s, key, n))
  {
  }

  lemma QuietReread(s: State, me: Agent, key: Key, uid: Uid, n: Name)
    requires me in s.agents && s.agents[me] == Retrying(key, uid, n)
    ensures var t := Next(s, Reread(me));
      && t.objects == s.objects && t.records == s.records
      && (me !in t.agents <==> key !in s.objects || s.objects[key].uid != uid)
      && (me in t.agents ==> (t.agents[me].Discarding? <==> s.objects[key].pointer.Some?))
  {
  }

  lemma QuietDiscard(s: State, me: Agent, n: Name, retry: Option<(Key, Uid)>)
    requires me in s.agents && s.agents[me] == Discarding(n, retry)
    ensures Next(s, DeleteRecord(me)).objects == s.objects && Next(s, DeleteRecord(me)).records == s.records - {n}
  {
  }

  const CALLS := 5

  // ---- What the calls do when nobody interferes -------------------------------------

  /** The record has a living owner, its target does not point to it, and its publication can be ruled out. */
  predicate Collectable(s: State, n: Name) {
    n in s.records && OwnerAlive(s, s.records[n]) &&
    var r := s.records[n];
    if r.key !in s.objects || s.objects[r.key].uid != r.uid then r.kind.Intent? && !PointsTo(s, r.key, n)
    else !PointsTo(s, r.key, n) && (s.objects[r.key].rv == r.baseRv ==> s.objects[r.key].fence != Some(n))
  }

  /** Nobody else acts, but the fence is delivered between its request and its answer. */
  predicate Quiet(others: seq<seq<Action>>, fenceId: Id) {
    |others| == CALLS && others[0] == [] && others[1] == [] && others[2] == [] && others[3] == [Deliver(fenceId, false, false)] && others[4] == []
  }

  lemma RecordIsIssued(s: State, n: Name)
    requires Inv(s) && n in s.records
    ensures n in s.issued && s.issued[n] == s.records[n] && s.issued[n].baseRv < s.nextRv && s.nextId !in s.requests
  {
    hide Dead, PhaseOk, RequestOk, ObjectOk;
  }

  lemma Rephase(s: State, me: Agent, a: Phase, b: Phase)
    ensures ToPhase(ToPhase(s, me, a), me, b) == ToPhase(s, me, b)
    ensures me !in s.agents ==> ToIdle(ToPhase(s, me, a), me) == s
  {
    assert s.agents[me := a][me := b] == s.agents[me := b];
    if me !in s.agents { assert s.agents[me := a] - {me} == s.agents; }
  }

  lemma QuietCollect(s: State, me: Agent, n: Name)
    requires Inv(s) && me !in s.agents
    ensures Next(s, Collect(me, n)) == if n in s.records && OwnerAlive(s, s.records[n]) then ToPhase(s, me, Collecting(n)) else s
  {
    hide Inv;
  }

  /** The object is the one of the record, at the version the record may be published against, and does not point to it. */
  predicate NeedsFence(s: State, n: Name) {
    n in s.records &&
    var r := s.records[n];
    r.key in s.objects && s.objects[r.key].uid == r.uid && s.objects[r.key].rv == r.baseRv && !PointsTo(s, r.key, n)
  }

  lemma QuietTarget(s: State, me: Agent, n: Name)
    requires me !in s.agents && n in s.records && OwnerAlive(s, s.records[n]) && n in s.issued && s.issued[n] == s.records[n]
    ensures Next(ToPhase(s, me, Collecting(n)), CollectTarget(me)) ==
      if NeedsFence(s, n) then ToPhase(s, me, Fencing(n))
      else if Collectable(s, n) then ToPhase(s, me, Discarding(n, None))
      else s
  {
    Rephase(s, me, Collecting(n), Fencing(n));
    Rephase(s, me, Collecting(n), Discarding(n, None));
    assert CollectTargetStep(ToPhase(s, me, Collecting(n)), me) ==
      if NeedsFence(s, n) then ToPhase(s, me, Fencing(n)) else if Collectable(s, n) then ToPhase(s, me, Discarding(n, None)) else s;
  }

  /** The fence that is delivered to the version it was read from moves that version, unless it was there before. */
  lemma QuietFence(s: State, me: Agent, n: Name)
    requires me in s.agents && s.agents[me] == Fencing(n) && NeedsFence(s, n)
    requires n in s.issued && s.issued[n] == s.records[n] && s.issued[n].baseRv < s.nextRv && s.nextId !in s.requests
    ensures var t := Next(Next(Next(s, Fence(me)), Deliver(s.nextId, false, false)), FenceRespond(me));
      && t.records == s.records
      && if s.objects[s.records[n].key].fence == Some(n) then me !in t.agents else me in t.agents && t.agents[me] == Discarding(n, None)
  {
    hide DeliverStep, FenceRespondStep;
    var r := s.records[n];
    var w := Request(r.key, Some(Guard(r.uid, r.baseRv)), Keep, Some(n), None, true);
    var s1 := ToPhase(AddRequest(s, w), me, FenceSent(n, s.nextId));
    assert FenceStep(s, me) == s1;
    QuietDelivery(s1, me, n);
  }

  lemma QuietDelivery(s: State, me: Agent, n: Name)
    requires me in s.agents && s.agents[me].FenceSent? && s.agents[me].name == n && n in s.issued
    requires var r := s.issued[n]; Matches(s, r.key, r.uid, r.baseRv) && r.baseRv < s.nextRv
    requires var r, id := s.issued[n], s.agents[me].id;
      id in s.requests && s.requests[id] == Request(r.key, Some(Guard(r.uid, r.baseRv)), Keep, Some(n), None, true)
    ensures var t := Next(Next(s, Deliver(s.agents[me].id, false, false)), FenceRespond(me));
      && t.records == s.records
      && if s.objects[s.issued[n].key].fence == Some(n) then me !in t.agents else me in t.agents && t.agents[me] == Discarding(n, None)
  {
    var t := DeliverStep(s, s.agents[me].id, false, false);
    assert t.fates[s.agents[me].id].Applied?;
  }

  /** A publication that is delivered at once succeeds exactly when the object is still the version that was read. */
  lemma QuietPublication(s: State, me: Agent, n: Name, id: Id)
    requires me in s.agents && s.agents[me] == Prepared(None, n, true, id) && n in s.issued && id in s.requests && id !in s.fates
    requires var r := s.issued[n]; s.requests[id] == Request(r.key, Some(Guard(r.uid, r.baseRv)), Point(n), None, None, false)
    ensures var u := Next(Next(s, Commit(me)), Deliver(id, false, false)); me in u.agents && u.agents[me].Committing?
    ensures var r, t := s.issued[n], Next(Next(Next(s, Commit(me)), Deliver(id, false, false)), Respond(me));
      if Matches(s, r.key, r.uid, r.baseRv)
      then me !in t.agents && PointsTo(t, r.key, n) && t.objects[r.key].content == s.objects[r.key].content
      else me in t.agents && t.agents[me].Rejected? && t.objects == s.objects
  {
    var s1 := ToPhase(Send(s, id), me, Committing(None, n, true, id));
    assert Next(s, Commit(me)) == s1;
    var s2 := DeliverStep(s1, id, false, false);
    assert s2.agents == s1.agents && s2.issued == s1.issued;
  }

  // ---- The programs --------------------------------------------------------------------

  datatype Verdict = Collected | Retained | Failed
  datatype Tally = Tally(scanned: nat, deleted: nat, kept: nat, failed: nat)

  /** How an initialization ends; Unanswered is a lost answer, whose record must stay. */
  datatype Initialization = Published(name: Name) | AnotherWon | Replaced | Unanswered | Refusal | Exhausted

  datatype Answer = Accepted | Declined | NoAnswer

  /** An undisturbed cleanup deletes the record exactly if the object could be read and does not point to it. */
  ghost predicate CleanedUp(before: State, after: State, me: Agent, n: Name, read: bool) {
    && me in before.agents && before.agents[me].Rejected?
    && after.objects == before.objects
    && after.records == if read && !PointsTo(before, before.agents[me].key, n) then before.records - {n} else before.records
  }

  /** What an undisturbed second look at the object decides. */
  ghost predicate Judged(before: State, me: Agent, r: Option<Initialization>) {
    && me in before.agents && before.agents[me].Retrying?
    && var p, objects := before.agents[me], before.objects;
    && var same := p.key in objects && objects[p.key].uid == p.uid;
    && (r == Some(Replaced) <==> !same)
    && (r == Some(AnotherWon) <==> same && objects[p.key].pointer.Some?)
  }

  const ATTEMPTS := 5

  function Total(pages: seq<Option<seq<Name>>>): nat {
    if pages == [] then 0
    else Total(pages[..|pages| - 1]) + if pages[|pages| - 1].Some? then |pages[|pages| - 1].value| else 0
  }

  class Cluster {
    var s: State

    constructor ()
      ensures s == INIT
    {
      s := INIT;
    }

    /** One call of this client. */
    method Call(a: Action)
      requires Inv(s) && !a.Deliver?
      modifies this
      ensures s == Next(old(s), a) && Inv(s) && KeepsIssued(old(s), s)
      ensures forall x :: Along(x, old(s)) ==> Along(x, s)
      ensures forall k :: Unreachable(old(s), k) ==> Unreachable(s, k)
    {
      hide Inv, Next, Along;
      CallIsOk(s, a);
      s := Next(s, a);
    }

    /** Whatever the others do before this client's next call; every request is delivered at most once. */
    method Others(me: Agent, actions: seq<Action>)
      requires Inv(s)
      modifies this
      ensures Inv(s) && LeavesAlone(old(s), s, me)
      ensures actions == [] ==> s == old(s)
      ensures |actions| == 1 && AgentOf(actions[0]).None? && !(actions[0].Deliver? && actions[0].duplicate) ==> s == Next(old(s), actions[0])
      ensures forall x :: Along(x, old(s)) ==> Along(x, s)
      ensures forall k :: Unreachable(old(s), k) ==> Unreachable(s, k)
    {
      hide Inv, Next, Along;
      for i := 0 to |actions|
        invariant Inv(s) && LeavesAlone(old(s), s, me)
        invariant i == 0 ==> s == old(s)
        invariant i == 1 && AgentOf(actions[0]).None? && !(actions[0].Deliver? && actions[0].duplicate) ==> s == Next(old(s), actions[0])
        invariant forall x :: Along(x, old(s)) ==> Along(x, s)
        invariant forall k :: Unreachable(old(s), k) ==> Unreachable(s, k)
      {
        if AgentOf(actions[i]) != Some(me) && !(actions[i].Deliver? && actions[i].duplicate) {
          OtherIsOk(s, actions[i], me);
          s := Next(s, actions[i]);
        }
      }
    }

    /**
      collect, from the owner check on: others[i] runs before call i + 1. A record that was deleted is unreachable, under
      every interleaving. When nobody interferes, exactly the collectable records are deleted, and no other Secret is.
     */
    method Collect(me: Agent, n: Name, others: seq<seq<Action>>) returns (v: Verdict)
      requires Inv(s) && me !in s.agents && |others| == CALLS
      modifies this
      ensures Inv(s) && me !in s.agents
      ensures forall x :: Along(x, old(s)) ==> Along(x, s)
      ensures forall k :: Unreachable(old(s), k) ==> Unreachable(s, k)
      ensures v.Collected? ==> Unreachable(s, n) && n !in s.records
      ensures Quiet(others, old(s).nextId) ==>
        if Collectable(old(s), n) then v.Collected? && s.records == old(s).records - {n} else !v.Collected? && s.records == old(s).records
    {
      hide Inv, Next, Along, Unreachable;
      ghost var first := s;
      ghost var quiet := Quiet(others, s.nextId);
      Others(me, others[0]);
      CollectPhase(s, me, n);
      QuietCollect(s, me, n);
      Call(Action.Collect(me, n));
      if me !in s.agents { return Retained; }
      Others(me, others[1]);
      TargetPhase(s, me, n);
      if quiet { RecordIsIssued(first, n); QuietTarget(first, me, n); }
      Call(CollectTarget(me));
      if me !in s.agents { return Retained; }
      if s.agents[me].Fencing? {
        var confirmed := FenceRecord(me, n, others[2], others[3]);
        if !confirmed { return Failed; }
      }
      Others(me, others[4]);
      DeletePhase(s, me, n);
      DeleteOnlyOne(s, me, n);
      Call(DeleteRecord(me));
      return Collected;
    }

    /** fencePublication */
    method FenceRecord(me: Agent, n: Name, before: seq<Action>, meanwhile: seq<Action>) returns (confirmed: bool)
      requires Inv(s) && me in s.agents && s.agents[me] == Fencing(n) && n in s.issued
      modifies this
      ensures Inv(s) && if confirmed then me in s.agents && s.agents[me] == Discarding(n, None) else me !in s.agents
      ensures before == [] && meanwhile == [Deliver(old(s).nextId, false, false)] && NeedsFence(old(s), n) ==>
        s.records == old(s).records && (confirmed <==> old(s).objects[old(s).records[n].key].fence != Some(n))
      ensures forall x :: Along(x, old(s)) ==> Along(x, s)
      ensures forall k :: Unreachable(old(s), k) ==> Unreachable(s, k)
    {
      hide Inv, Next, Along;
      if NeedsFence(s, n) { RecordIsIssued(s, n); QuietFence(s, me, n); }
      Others(me, before);
      FencePhase(s, me, n);
      Call(Fence(me));
      Others(me, meanwhile);
      FenceAnswerPhase(s, me, n);
      Call(FenceRespond(me));
      if me !in s.agents { return false; }
      if s.agents[me].FenceSent? {
        CrashPhase(s, me);
        Call(Crash(me));
        return false;
      }
      return true;
    }

    /**
      Sweep: the pages the list calls returned, one record after the other. A failing list ends the sweep early; otherwise
      every record of every page is scanned. The counters add up, and everything counted as deleted stays unreachable.
     */
    method Sweep(me: Agent, pages: seq<Option<seq<Name>>>, schedule: nat -> seq<seq<Action>>)
      returns (result: Tally, complete: bool, ghost gone: seq<Name>)
      requires Inv(s) && me !in s.agents && forall i :: |schedule(i)| == CALLS
      modifies this
      ensures Inv(s) && me !in s.agents && forall x :: Along(x, old(s)) ==> Along(x, s)
      ensures result.scanned == result.deleted + result.kept + result.failed
      ensures complete <==> None !in pages
      ensures complete ==> result.scanned == Total(pages)
      ensures |gone| == result.deleted && forall n :: n in gone ==> Unreachable(s, n)
    {
      hide Inv, Next, Along, Unreachable;
      result, gone := Tally(0, 0, 0, 0), [];
      StayIsOk(s);
      for page := 0 to |pages|
        invariant Inv(s) && me !in s.agents && forall x :: Along(x, old(s)) ==> Along(x, s)
        invariant Along(s, s)
        invariant None !in pages[..page] && result.scanned == Total(pages[..page])
        invariant result.scanned == result.deleted + result.kept + result.failed
        invariant |gone| == result.deleted && forall n :: n in gone ==> Unreachable(s, n)
      {
        assert pages[..page + 1][..page] == pages[..page];
        if pages[page].None? { return result, false, gone; }
        var names := pages[page].value;
        ghost var before := result.scanned;
        for i := 0 to |names|
          invariant Inv(s) && me !in s.agents && forall x :: Along(x, old(s)) ==> Along(x, s)
          invariant Along(s, s) && result.scanned == before + i
          invariant result.scanned == result.deleted + result.kept + result.failed
          invariant |gone| == result.deleted && forall n :: n in gone ==> Unreachable(s, n)
        {
          var verdict := Collect(me, names[i], schedule(result.scanned));
          StayIsOk(s);
          match verdict
          case Collected =>
            result := result.(scanned := result.scanned + 1, deleted := result.deleted + 1);
            gone := gone + [names[i]];
          case Retained => result := result.(scanned := result.scanned + 1, kept := result.kept + 1);
          case Failed => result := result.(scanned := result.scanned + 1, failed := result.failed + 1);
        }
      }
      assert pages[..|pages|] == pages;
      return result, true, gone;
    }

    /** prepareResourceIntent and commitIntentPatch: a record nobody has used yet, and the answer to its one patch. */
    method PublishOnce(me: Agent, ownerKey: Key, ownerUid: Uid, content: Content, before: seq<Action>, meanwhile: seq<Action>)
      returns (n: Name, answer: Answer)
      requires Inv(s) && me in s.agents && s.agents[me].Read? && s.agents[me].initializing && ownerUid < s.nextUid
      modifies this
      ensures Inv(s) && n !in old(s).issued && n in s.issued && old(s).nextUid <= s.nextUid
      ensures var p := old(s).agents[me];
        && s.issued[n] == Record(Intent(true), ownerKey, ownerUid, p.key, p.uid, p.rv, content)
        && if answer.Declined? then me in s.agents && s.agents[me] == Rejected(p.key, p.uid, n, true) else me !in s.agents
      ensures var p := old(s).agents[me];
        before == [] && meanwhile == [Deliver(old(s).nextId, false, false)] ==>
          if Matches(old(s), p.key, p.uid, p.rv)
          then answer.Accepted? && PointsTo(s, p.key, n) && s.objects[p.key].content == old(s).objects[p.key].content
          else answer.Declined? && s.objects == old(s).objects
      ensures forall x :: Along(x, old(s)) ==> Along(x, s)
      ensures forall k :: Unreachable(old(s), k) ==> Unreachable(s, k)
    {
      hide Inv, Next, Along, Unreachable;
      n := s.nextName;
      ghost var id := s.nextId;
      PreparePhase(s, me, ownerKey, ownerUid, content);
      Call(Prepare(me, ownerKey, ownerUid, content));
      Others(me, before);
      CommitPhase(s, me, n, id);
      ghost var quiet := before == [] && meanwhile == [Deliver(id, false, false)];
      if quiet { QuietPublication(s, me, n, id); }
      Call(Commit(me));
      Others(me, meanwhile);
      if s.agents[me].Committing? { RespondPhase(s, me, n, id); Call(Respond(me)); }
      if me !in s.agents { return n, Accepted; }
      if s.agents[me].Rejected? { return n, Declined; }
      CrashPhase(s, me);
      Call(Crash(me));
      return n, NoAnswer;
    }

    /** cleanupUncommittedIntent */
    method CleanUp(me: Agent, n: Name, read: bool, before: seq<Action>, meanwhile: seq<Action>)
      requires Inv(s) && me in s.agents && s.agents[me].Rejected? && s.agents[me].name == n && s.agents[me].initializing
      modifies this
      ensures Inv(s) && Unreachable(s, n) && old(s).nextUid <= s.nextUid
      ensures me in s.agents && s.agents[me] == Retrying(old(s).agents[me].key, old(s).agents[me].uid, n)
      ensures before == [] && meanwhile == [] ==> CleanedUp(old(s), s, me, n, read)
      ensures forall x :: Along(x, old(s)) ==> Along(x, s)
      ensures forall k :: Unreachable(old(s), k) ==> Unreachable(s, k)
    {
      hide Inv, Next, Along, Unreachable, PointsTo;
      var key, uid := s.agents[me].key, s.agents[me].uid;
      Others(me, before);
      CleanupPhase(s, me, key, uid, n, read);
      QuietCleanup(s, me, key, uid, n, read);
      Call(if read then CleanupRead(me) else CleanupSkip(me));
      if s.agents[me].Discarding? {
        Others(me, meanwhile);
        DiscardPhase(s, me, n, Some((key, uid)));
        QuietDiscard(s, me, n, Some((key, uid)));
        Call(DeleteRecord(me));
      }
    }

    /** After a conflict the object is read again: gone or replaced, published by someone else, or worth another attempt. */
    method StopOrRetry(me: Agent, n: Name, conflict: bool, before: seq<Action>, meanwhile: seq<Action>) returns (r: Option<Initialization>)
      requires Inv(s) && me in s.agents && s.agents[me].Retrying? && s.agents[me].name == n
      modifies this
      ensures Inv(s) && old(s).nextUid <= s.nextUid && (r.Some? ==> me !in s.agents && r.value in {Refusal, Replaced, AnotherWon})
      ensures r.None? ==> conflict && me in s.agents && s.agents[me].Read? && s.agents[me].initializing
                          && s.agents[me].key == old(s).agents[me].key && s.agents[me].uid == old(s).agents[me].uid
      ensures r.None? ==>
        var p := s.agents[me]; p.pointer.None? && Matches(s, p.key, p.uid, p.rv) && s.objects[p.key].pointer.None?
      ensures r == Some(Refusal) <==> !conflict
      ensures conflict && before == [] ==> Judged(old(s), me, r)
      ensures conflict && before == [] && meanwhile == [] && r == Some(AnotherWon) ==>
        s.objects == old(s).objects && s.records == old(s).records - {n}
      ensures forall x :: Along(x, old(s)) ==> Along(x, s)
      ensures forall k :: Unreachable(old(s), k) ==> Unreachable(s, k)
    {
      hide Inv, Next, Along, Unreachable;
      var key, uid := s.agents[me].key, s.agents[me].uid;
      if !conflict {
        CrashPhase(s, me);
        Call(Crash(me));
        return Some(Refusal);
      }
      Others(me, before);
      RereadPhase(s, me, key, uid, n);
      QuietReread(s, me, key, uid, n);
      Call(Reread(me));
      if me !in s.agents { return Some(Replaced); }
      if s.agents[me].Discarding? {
        Others(me, meanwhile);
        DiscardPhase(s, me, n, None);
        QuietDiscard(s, me, n, None);
        Call(DeleteRecord(me));
        return Some(AnotherWon);
      }
      return None;
    }

    /**
      initializeResourceIntent: a new record for every attempt, its pointer published against the version of that attempt
      only. `read` says whether a refusal was definite and the object could be read, `conflict` whether it was a conflict.
      Every record it gave up is unreachable; success means the record of the last attempt was applied, with this baseline
      and for the object that was created.
     */
    method InitializeIntent(me: Agent, ownerKey: Key, ownerUid: Uid, content: Content, others: (nat, nat) -> seq<Action>,
                            read: nat -> bool, conflict: nat -> bool)
      returns (r: Initialization, ghost abandoned: seq<Name>)
      requires Inv(s) && me in s.agents && s.agents[me].Read? && s.agents[me].initializing && ownerUid < s.nextUid
      modifies this
      ensures Inv(s) && me !in s.agents && forall x :: Along(x, old(s)) ==> Along(x, s)
      ensures |abandoned| <= 5 && (r.Exhausted? ==> |abandoned| == 5) && forall n :: n in abandoned ==> Unreachable(s, n)
      ensures r.Published? ==> (
        && r.name in s.issued && r.name !in abandoned
        && s.issued[r.name].content == content && s.issued[r.name].key == old(s).agents[me].key
        && s.issued[r.name].uid == old(s).agents[me].uid && s.issued[r.name].ownerUid == ownerUid)
      ensures var p := old(s).agents[me];
        others(0, 0) == [] && others(0, 1) == [Deliver(old(s).nextId, false, false)] && Matches(old(s), p.key, p.uid, p.rv) ==>
          r.Published? && PointsTo(s, p.key, r.name) && abandoned == []
    {
      hide Inv, Next, Along, Dead, CleanedUp, Judged;
      ghost var key, uid := s.agents[me].key, s.agents[me].uid;
      ghost var undisturbed := others(0, 0) == [] && others(0, 1) == [Deliver(s.nextId, false, false)] && Matches(s, key, uid, s.agents[me].rv);
      abandoned := [];
      for attempt := 0 to ATTEMPTS
        invariant Inv(s) && me in s.agents && s.agents[me].Read? && s.agents[me].initializing && ownerUid < s.nextUid
        invariant s.agents[me].key == key && s.agents[me].uid == uid
        invariant attempt == 0 ==> s == old(s)
        invariant undisturbed ==> attempt == 0
        invariant forall x :: Along(x, old(s)) ==> Along(x, s)
        invariant |abandoned| == attempt && forall n :: n in abandoned ==> Unreachable(s, n)
      {
        var n, answer := PublishOnce(me, ownerKey, ownerUid, content, others(attempt, 0), others(attempt, 1));
        if answer.Accepted? { return Published(n), abandoned; }
        if answer.NoAnswer? { return Unanswered, abandoned; }
        CleanUp(me, n, read(attempt), others(attempt, 2), others(attempt, 3));
        abandoned := abandoned + [n];
        var stop := StopOrRetry(me, n, conflict(attempt), others(attempt, 4), others(attempt, 5));
        if stop.Some? { return stop.value, abandoned; }
      }
      CrashPhase(s, me);
      Call(Crash(me));
      return Exhausted, abandoned;
    }
  }

  lemma CrashPhase(s: State, me: Agent)
    ensures me !in Next(s, Crash(me)).agents
  {
  }
}
