/** Safety of the publication protocol over all runs in which every request is delivered at most once. */
module IntentSafety {
  import opened Options
  import opened IntentProtocol
  import opened IntentInvariant
  import opened IntentSteps

  ghost predicate Reachable(s: State) {
    exists actions :: AtMostOnce(actions) && s == Run(INIT, actions)
  }

  lemma ReachableInv(s: State)
    requires Reachable(s)
    ensures Inv(s)
  {
    var actions :| AtMostOnce(actions) && s == Run(INIT, actions);
    RunPreserves(INIT, actions);
  }

  /** A live object never points to a missing record while the owner of that record exists. */
  lemma NoDanglingPointer(s: State, key: Key, n: Name)
    requires Reachable(s) && PointsTo(s, key, n)
    ensures n in s.issued && s.issued[n].key == key && s.issued[n].uid == s.objects[key].uid
    ensures OwnerAlive(s, s.issued[n]) ==> n in s.records && s.records[n] == s.issued[n]
  {
    ReachableInv(s);
    assert ObjectOk(s, key);
    assert !Unreferenced(s, n);
  }

  /** status.reconcilePause names an existing Secret, without condition: the owner is the object that points to it. */
  lemma PauseReferenceExists(s: State, key: Key, n: Name)
    requires Reachable(s) && PointsTo(s, key, n) && n in s.issued && s.issued[n].kind.Pause?
    ensures n in s.records
  {
    NoDanglingPointer(s, key, n);
    ReachableInv(s);
  }

  /** A request in flight that names a deleted record fails its UID and version tests. */
  lemma DeletedCannotBePublished(s: State, id: Id, n: Name)
    requires Reachable(s) && id in s.requests && s.requests[id].edit == Point(n)
    requires n in s.issued && n !in s.records && OwnerAlive(s, s.issued[n])
    ensures s.requests[id].guard.Some?
    ensures !Matches(s, s.requests[id].key, s.requests[id].guard.value.uid, s.requests[id].guard.value.rv)
  {
    ReachableInv(s);
    assert RequestOk(s, s.requests[id]);
    assert Dead(s, n);
    assert NamesRequest(s.requests[id], n);
  }

  /**
    A record becomes referenced only in one transition: its target is at exactly the bound UID and version,
    and the Secret still exists. A reconcile writes the content of the record in the same request; the patch that initializes
    a new object sets the pointer alone, and leaves the content of that version as it is.
   */
  lemma PublicationIsAtomic(s: State, action: Action, key: Key, n: Name)
    requires Reachable(s) && !(action.Deliver? && action.duplicate)
    requires !PointsTo(s, key, n) && PointsTo(Next(s, action), key, n)
    ensures n in s.issued && s.issued[n].key == key && Matches(s, key, s.issued[n].uid, s.issued[n].baseRv)
    ensures OwnerAlive(s, s.issued[n]) ==> n in s.records
    ensures var before, after := s.objects[key], Next(s, action).objects[key];
      s.issued[n].kind.Intent? ==> after == before.(
        pointer := Some(n), rv := after.rv, fence := after.fence,
        content := if s.issued[n].kind.initial then before.content else s.issued[n].content)
  {
    ReachableInv(s);
    OnlyDeliveriesPoint(s, action, key, n);
    var w := s.requests[action.id];
    assert RequestOk(s, w);
    assert NamesRequest(w, n);
  }

  lemma OnlyDeliveriesPoint(s: State, action: Action, key: Key, n: Name)
    requires !PointsTo(s, key, n) && PointsTo(Next(s, action), key, n)
    ensures action.Deliver? && action.id in s.requests
    ensures s.requests[action.id].key == key && s.requests[action.id].edit == Point(n)
    ensures s.requests[action.id].guard.Some? ==>
      Matches(s, key, s.requests[action.id].guard.value.uid, s.requests[action.id].guard.value.rv)
  {
    hide Next, PointsTo;
    if action.Deliver? {
      DeliveryPoints(s, action, key, n);
    } else if action.CreateObject? || action.DeleteObject? || action.ExternalEdit? {
      EnvironmentDoesNotPoint(s, action, key, n);
    } else {
      ClientsDoNotWriteObjects(s, action);
      SameObjectsSamePointers(s, Next(s, action), key, n);
    }
  }

  lemma SameObjectsSamePointers(s: State, t: State, key: Key, n: Name)
    requires t.objects == s.objects
    ensures PointsTo(s, key, n) == PointsTo(t, key, n)
  {
  }

  lemma DeliveryPoints(s: State, action: Action, key: Key, n: Name)
    requires action.Deliver? && !PointsTo(s, key, n) && PointsTo(Next(s, action), key, n)
    ensures action.id in s.requests
    ensures s.requests[action.id].key == key && s.requests[action.id].edit == Point(n)
    ensures s.requests[action.id].guard.Some? ==>
      Matches(s, key, s.requests[action.id].guard.value.uid, s.requests[action.id].guard.value.rv)
  {
    hide PrepareStep, DiscardUnusedStep, RespondStep, CleanupReadStep, CleanupSkipStep, RereadStep, DeleteRecordStep,
         EditReadStep, EditSendStep, CapturePrepareStep, CaptureCheckStep, CleanupPauseStep,
         CollectStep, CollectTargetStep, FenceStep, FenceRespondStep;
  }

  lemma EnvironmentDoesNotPoint(s: State, action: Action, key: Key, n: Name)
    requires action.CreateObject? || action.DeleteObject? || action.ExternalEdit?
    ensures PointsTo(Next(s, action), key, n) ==> PointsTo(s, key, n)
  {
  }

  /** Clients change objects only by sending requests. */
  lemma ClientsDoNotWriteObjects(s: State, action: Action)
    requires !(action.Deliver? || action.CreateObject? || action.DeleteObject? || action.ExternalEdit?)
    ensures Next(s, action).objects == s.objects
  {
    hide PrepareStep, DiscardUnusedStep, RespondStep, CleanupReadStep, CleanupSkipStep, RereadStep, DeleteRecordStep,
         EditReadStep, EditSendStep, CapturePrepareStep, CaptureCheckStep, CleanupPauseStep,
         CollectStep, CollectTargetStep, FenceStep, FenceRespondStep;
  }

  // ---- Deletion is final ----------------------------------------------------

  /** Once a record is deleted under a living owner, nothing ever points to it again, whatever happens next. */
  lemma DeletionIsFinal(s: State, more: seq<Action>, n: Name, key: Key)
    requires Reachable(s) && AtMostOnce(more)
    requires n in s.issued && n !in s.records && OwnerAlive(s, s.issued[n])
    ensures !PointsTo(Run(s, more), key, n)
  {
    ReachableInv(s);
    RunPreserves(s, more);
  }

  // ---- The delivery assumption is needed ------------------------------------

  /** One retransmitted patch: applied, then refused; the writer believes the refusal. */
  const RETRANSMITTED_PATCH: seq<Action> := [
    CreateObject("mid", 0), CreateObject("cr", 1),
    WriterRead(0, "cr", true), Prepare(0, "mid", 0, 2), Commit(0),
    Deliver(0, false, true), Deliver(0, false, false),
    Respond(0), CleanupRead(0), Reread(0), DeleteRecord(0)]

  lemma {:induction false} RunConcat(s: State, xs: seq<Action>, ys: seq<Action>)
    ensures Run(s, xs + ys) == Run(Run(s, xs), ys)
    decreases |xs|
  {
    if xs == [] {
      assert xs + ys == ys;
    } else {
      assert (xs + ys)[1..] == xs[1..] + ys;
      RunConcat(Next(s, xs[0]), xs[1..], ys);
    }
  }

  lemma RunFrom(s: State, actions: seq<Action>, i: nat)
    requires i < |actions|
    ensures Run(s, actions[i..]) == Run(Next(s, actions[i]), actions[i + 1..])
  {
    assert actions[i..][1..] == actions[i + 1..];
  }

  /** After the first five transitions the patch that publishes record 0 is in flight. */
  ghost predicate PatchInFlight(s: State) {
    && "mid" in s.objects && s.objects["mid"].uid == 0
    && "cr" in s.objects && s.objects["cr"] == Object(1, 1, None, None, 1)
    && s.nextRv == 2
    && 0 in s.issued && s.issued[0] == Record(Intent(true), "mid", 0, "cr", 1, 1, 2)
    && 0 in s.requests && s.requests[0] == Request("cr", Some(Guard(1, 1)), Point(0), None, None, true)
    && 0 in s.agents && s.agents[0] == Committing(None, 0, true, 0)
  }

  ghost predicate PatchPrepared(s: State) {
    && "mid" in s.objects && s.objects["mid"].uid == 0
    && "cr" in s.objects && s.objects["cr"] == Object(1, 1, None, None, 1)
    && s.nextRv == 2
    && 0 in s.issued && s.issued[0] == Record(Intent(true), "mid", 0, "cr", 1, 1, 2)
    && 0 in s.requests && s.requests[0] == Request("cr", Some(Guard(1, 1)), Point(0), None, None, false)
    && 0 in s.agents && s.agents[0] == Prepared(None, 0, true, 0)
  }

  lemma RecordIsPrepared()
    ensures PatchPrepared(Next(Next(Next(Next(INIT, CreateObject("mid", 0)), CreateObject("cr", 1)),
                                    WriterRead(0, "cr", true)), Prepare(0, "mid", 0, 2)))
  {
    var s2 := NewObject(NewObject(INIT, "mid", 0), "cr", 1);
    assert s2.objects == map["mid" := Object(0, 0, None, None, 0), "cr" := Object(1, 1, None, None, 1)];
    var s3 := ToPhase(s2, 0, Read("cr", 1, 1, None, true));
    assert PatchPrepared(PrepareStep(s3, 0, "mid", 0, 2));
  }

  lemma PatchIsSent(s: State)
    requires PatchPrepared(s)
    ensures PatchInFlight(Next(s, Commit(0)))
  {
  }

  lemma PatchSent()
    ensures PatchInFlight(Run(INIT, RETRANSMITTED_PATCH[..5]))
  {
    hide Next, PatchInFlight, PatchPrepared;
    var trace := RETRANSMITTED_PATCH[..5];
    assert trace[0..] == trace && trace[5..] == [];
    var s1 := Next(INIT, trace[0]);
    var s2 := Next(s1, trace[1]);
    var s3 := Next(s2, trace[2]);
    var s4 := Next(s3, trace[3]);
    RunFrom(INIT, trace, 0);
    RunFrom(s1, trace, 1);
    RunFrom(s2, trace, 2);
    RunFrom(s3, trace, 3);
    RunFrom(s4, trace, 4);
    RecordIsPrepared();
    PatchIsSent(s4);
  }

  /** The writer waits for an answer, the record is published, and the last answer on the wire is a refusal. */
  ghost predicate PatchBothAppliedAndRefused(s: State) {
    && "mid" in s.objects && s.objects["mid"].uid == 0
    && PointsTo(s, "cr", 0) && s.objects["cr"].uid == 1
    && 0 in s.issued && s.issued[0] == Record(Intent(true), "mid", 0, "cr", 1, 1, 2)
    && 0 in s.fates && s.fates[0] == Refused
    && 0 in s.agents && s.agents[0] == Committing(None, 0, true, 0)
  }

  lemma AnswersDisagree(s: State)
    requires PatchInFlight(s)
    ensures PatchBothAppliedAndRefused(Next(Next(s, Deliver(0, false, true)), Deliver(0, false, false)))
  {
    var s1 := DeliverStep(s, 0, false, true);
    assert s1.objects["cr"] == Object(1, 2, Some(0), None, 1);
  }

  lemma RefusalIsBelieved(s: State)
    requires PatchBothAppliedAndRefused(s)
    ensures Next(Next(s, Respond(0)), CleanupRead(0)) == ToPhase(s, 0, Retrying("cr", 1, 0))
    ensures s.(agents := s.agents[0 := Retrying("cr", 1, 0)][0 := Committing(None, 0, true, 0)]) == s
  {
    var s1 := ToPhase(s, 0, Rejected("cr", 1, 0, true));
    assert RespondStep(s, 0) == s1;
    assert s1.agents[0 := Retrying("cr", 1, 0)] == s.agents[0 := Retrying("cr", 1, 0)];
    assert s.agents[0 := Retrying("cr", 1, 0)][0 := Committing(None, 0, true, 0)] == s.agents;
  }

  lemma PublishedIsDiscarded(s: State)
    requires PatchBothAppliedAndRefused(s.(agents := s.agents[0 := Committing(None, 0, true, 0)]))
    requires 0 in s.agents && s.agents[0] == Retrying("cr", 1, 0)
    ensures var t := Next(Next(s, Reread(0)), DeleteRecord(0));
      PointsTo(t, "cr", 0) && 0 in t.issued && OwnerAlive(t, t.issued[0]) && 0 !in t.records
  {
    assert RereadStep(s, 0) == ToPhase(s, 0, Discarding(0, None));
  }

  lemma WriterDiscardsPublished(s: State)
    requires PatchBothAppliedAndRefused(s)
    ensures var t := Next(Next(Next(Next(s, Respond(0)), CleanupRead(0)), Reread(0)), DeleteRecord(0));
      PointsTo(t, "cr", 0) && 0 in t.issued && OwnerAlive(t, t.issued[0]) && 0 !in t.records
  {
    hide RespondStep, CleanupReadStep, PatchBothAppliedAndRefused;
    RefusalIsBelieved(s);
    PublishedIsDiscarded(Next(Next(s, Respond(0)), CleanupRead(0)));
  }

  lemma PatchRetransmitted(s: State)
    requires PatchInFlight(s)
    ensures var t := Run(s, RETRANSMITTED_PATCH[5..]);
      PointsTo(t, "cr", 0) && 0 in t.issued && OwnerAlive(t, t.issued[0]) && 0 !in t.records
  {
    hide Next, PatchInFlight, PatchBothAppliedAndRefused;
    var trace := RETRANSMITTED_PATCH;
    RunFrom(s, trace, 5);
    var s1 := Next(s, trace[5]);
    RunFrom(s1, trace, 6);
    var s2 := Next(s1, trace[6]);
    AnswersDisagree(s);
    WriterDiscardsPublished(s2);
    RunFrom(s2, trace, 7);
    RunFrom(Next(s2, trace[7]), trace, 8);
    RunFrom(Next(Next(s2, trace[7]), trace[8]), trace, 9);
    RunFrom(Next(Next(Next(s2, trace[7]), trace[8]), trace[9]), trace, 10);
    assert trace[11..] == [];
  }

  /** Without at-most-once delivery the protocol does leave a dangling pointer, here after the applied patch is delivered again. */
  lemma DuplicateDeliveryDangles()
    ensures !AtMostOnce(RETRANSMITTED_PATCH)
    ensures var s := Run(INIT, RETRANSMITTED_PATCH);
      PointsTo(s, "cr", 0) && 0 in s.issued && OwnerAlive(s, s.issued[0]) && 0 !in s.records
  {
    var trace := RETRANSMITTED_PATCH;
    assert trace[5].Deliver? && trace[5].duplicate;
    PatchSent();
    var s := Run(INIT, trace[..5]);
    PatchRetransmitted(s);
    RunConcat(INIT, trace[..5], trace[5..]);
    assert trace[..5] + trace[5..] == trace;
  }

  /** The first copy of a publication is refused, its writer discards the record, and the second copy lands. */
  function LateCopy(a: Agent, id: Id): seq<Action> {
    [Deliver(id, true, true), Respond(a), CleanupRead(a), DeleteRecord(a), Deliver(id, false, false)]
  }

  lemma RunFive(s: State, actions: seq<Action>)
    requires |actions| == 5
    ensures Run(s, actions) == Next(Next(Next(Next(Next(s, actions[0]), actions[1]), actions[2]), actions[3]), actions[4])
  {
    hide Next;
    assert actions[0..] == actions && actions[5..] == [];
    var s1 := Next(s, actions[0]);
    var s2 := Next(s1, actions[1]);
    var s3 := Next(s2, actions[2]);
    RunFrom(s, actions, 0);
    RunFrom(s1, actions, 1);
    RunFrom(s2, actions, 2);
    RunFrom(s3, actions, 3);
    RunFrom(Next(s3, actions[3]), actions, 4);
  }

  /**
    One repeated delivery is enough for any publication, initializing or not: whenever a writer waits for a request whose
    tests hold and whose owner lives, a refused first copy makes it discard the record that the second copy publishes.
   */
  lemma RefusedCopyDangles(s: State, a: Agent)
    requires Reachable(s) && a in s.agents && s.agents[a].Committing?
    requires var p := s.agents[a];
      && p.id in s.requests && s.requests[p.id].sent && s.requests[p.id].edit == Point(p.name)
      && p.name in s.issued && OwnerAlive(s, s.issued[p.name])
      && Matches(s, s.issued[p.name].key, s.issued[p.name].uid, s.issued[p.name].baseRv)
    ensures var p := s.agents[a]; var t := Run(s, LateCopy(a, p.id));
      PointsTo(t, s.issued[p.name].key, p.name) && t.issued == s.issued && OwnerAlive(t, t.issued[p.name]) && p.name !in t.records
  {
    hide Next, Inv;
    ReachableInv(s);
    CommittingAttempt(s, a);
    RunFive(s, LateCopy(a, s.agents[a].id));
    RefusalDiscards(s, a);
    SecondCopyLands(s, Next(Next(Next(Next(s, Deliver(s.agents[a].id, true, true)), Respond(a)), CleanupRead(a)), DeleteRecord(a)), a);
  }

  lemma CommittingAttempt(s: State, a: Agent)
    requires Inv(s) && a in s.agents && s.agents[a].Committing?
    ensures Attempt(s, s.agents[a].previous, s.agents[a].name, s.agents[a].id)
  {
    hide Counters, Objects, Requests, Deleted, Attempt;
    assert PhaseOk(s, s.agents[a]);
  }

  lemma RefusalDiscards(s: State, a: Agent)
    requires a in s.agents && s.agents[a].Committing?
    requires var p := s.agents[a];
      && Attempt(s, p.previous, p.name, p.id)
      && p.id in s.requests && s.requests[p.id].sent
    ensures var t := Next(Next(Next(Next(s, Deliver(s.agents[a].id, true, true)), Respond(a)), CleanupRead(a)), DeleteRecord(a));
      t.objects == s.objects && t.requests == s.requests && t.issued == s.issued && s.agents[a].name !in t.records
  {
    hide CleanupReadStep, DeleteRecordStep;
    var p := s.agents[a];
    var s1 := DeliverStep(s, p.id, true, true);
    assert s1 == s.(fates := s.fates[p.id := Refused]);
    var s2 := ToPhase(s1, a, Rejected(s.issued[p.name].key, s.issued[p.name].uid, p.name, p.initializing));
    assert RespondStep(s1, a) == s2;
    RejectedDiscards(s2, a);
  }

  lemma RejectedDiscards(s: State, a: Agent)
    requires a in s.agents && s.agents[a].Rejected? && !PointsTo(s, s.agents[a].key, s.agents[a].name)
    ensures var t := Next(Next(s, CleanupRead(a)), DeleteRecord(a));
      t.objects == s.objects && t.requests == s.requests && t.issued == s.issued && s.agents[a].name !in t.records
  {
    var p := s.agents[a];
    var t := CleanupReadStep(s, a);
    assert t == ToPhase(s, a, Discarding(p.name, if p.initializing then Some((p.key, p.uid)) else None));
  }

  lemma SecondCopyLands(s: State, t: State, a: Agent)
    requires a in s.agents && s.agents[a].Committing?
    requires var p := s.agents[a];
      && Attempt(s, p.previous, p.name, p.id)
      && p.id in s.requests && s.requests[p.id].sent && s.requests[p.id].edit == Point(p.name)
      && p.name in s.issued && OwnerAlive(s, s.issued[p.name])
      && Matches(s, s.issued[p.name].key, s.issued[p.name].uid, s.issued[p.name].baseRv)
    requires t.objects == s.objects && t.requests == s.requests && t.issued == s.issued && s.agents[a].name !in t.records
    ensures var u := Next(t, Deliver(s.agents[a].id, false, false));
      && PointsTo(u, s.issued[s.agents[a].name].key, s.agents[a].name) && u.issued == s.issued
      && OwnerAlive(u, u.issued[s.agents[a].name]) && s.agents[a].name !in u.records
  {
  }
}
