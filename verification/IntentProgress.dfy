/** What undisturbed clients achieve: publication of a new intent, an edit that keeps its intent, and a pause snapshot. */
module IntentProgress {
  import opened Options
  import opened IntentProtocol
  import opened IntentInvariant
  import opened IntentSteps
  import opened IntentSafety

  // ---- A reconcile ------------------------------------------------------------------------

  /** Read, prepare, commit; the patch is delivered, and the previous record discarded. */
  function Reconcile(a: Agent, key: Key, owner: Key, uid: Uid, id: Id, content: Content): seq<Action> {
    [WriterRead(a, key, false), Prepare(a, owner, uid, content), Commit(a), Deliver(id, false, false), Respond(a), DeleteRecord(a)]
  }

  lemma RunSix(s: State, actions: seq<Action>)
    requires |actions| == 6
    ensures Run(s, actions) ==
      Next(Next(Next(Next(Next(Next(s, actions[0]), actions[1]), actions[2]), actions[3]), actions[4]), actions[5])
  {
    hide Next;
    var s1 := Next(s, actions[0]);
    assert actions[1..][1..] == actions[2..] && actions[1..][0] == actions[1] && actions[1..][2..] == actions[3..];
    RunFive(s1, actions[1..]);
  }

  /** The published object: new content, pointing to a new record of it. */
  function Published(s: State, key: Key, content: Content): Object
    requires key in s.objects
  {
    s.objects[key].(rv := s.nextRv, pointer := Some(s.nextName), content := content)
  }

  function NewRecord(s: State, key: Key, owner: Key, uid: Uid, content: Content): Record
    requires key in s.objects
  {
    Record(Intent(false), owner, uid, key, s.objects[key].uid, s.objects[key].rv, content)
  }

  /**
    A reconcile of an object that points to a record publishes the new content together with a new record of it; the
    previous record is discarded, and nothing else changes.
   */
  lemma ReconcilePublishes(s: State, a: Agent, key: Key, owner: Key, uid: Uid, content: Content, previous: Name)
    requires Reachable(s) && a !in s.agents && uid < s.nextUid
    requires key in s.objects && s.objects[key].pointer == Some(previous)
    ensures var t := Run(s, Reconcile(a, key, owner, uid, s.nextId, content));
      && t.objects == s.objects[key := Published(s, key, content)]
      && t.records == s.records[s.nextName := NewRecord(s, key, owner, uid, content)] - {previous}
      && t.requests == s.requests && t.agents == s.agents
  {
    hide Next, Inv;
    ReachableInv(s);
    IdsAreNew(s, key, previous);
    RunSix(s, Reconcile(a, key, owner, uid, s.nextId, content));
    var s2 := Next(Next(s, WriterRead(a, key, false)), Prepare(a, owner, uid, content));
    ReconcilePrepares(s, a, key, owner, uid, content);
    ReconcileLands(s2, s, a, key, content, previous);
  }

  lemma IdsAreNew(s: State, key: Key, previous: Name)
    requires Inv(s) && key in s.objects && s.objects[key].pointer == Some(previous)
    ensures s.nextId !in s.requests && s.nextName !in s.issued && previous != s.nextName
    ensures s.objects[key].rv < s.nextRv
  {
    assert ObjectOk(s, key);
  }

  /** The state in which the patch of the new record is built. */
  function Ready(s: State, a: Agent, key: Key, owner: Key, uid: Uid, content: Content): State
    requires key in s.objects
  {
    var r, o := NewRecord(s, key, owner, uid, content), s.objects[key];
    s.(records := s.records[s.nextName := r], issued := s.issued[s.nextName := r], nextName := s.nextName + 1,
       requests := s.requests[s.nextId := Request(key, Some(Guard(o.uid, o.rv)), Point(s.nextName), None, Some(content), false)],
       nextId := s.nextId + 1, agents := s.agents[a := Prepared(o.pointer, s.nextName, false, s.nextId)])
  }

  lemma ReconcilePrepares(s: State, a: Agent, key: Key, owner: Key, uid: Uid, content: Content)
    requires key in s.objects && uid < s.nextUid
    ensures Next(Next(s, WriterRead(a, key, false)), Prepare(a, owner, uid, content)) == Ready(s, a, key, owner, uid, content)
  {
    var o := s.objects[key];
    var s1 := ToPhase(s, a, Read(key, o.uid, o.rv, o.pointer, false));
    assert Next(s, WriterRead(a, key, false)) == s1;
    assert s1.agents[a := Prepared(o.pointer, s.nextName, false, s.nextId)] == s.agents[a := Prepared(o.pointer, s.nextName, false, s.nextId)];
    assert PrepareStep(s1, a, owner, uid, content) == Ready(s, a, key, owner, uid, content);
  }

  /** From the built patch on. */
  lemma ReconcileLands(s2: State, s: State, a: Agent, key: Key, content: Content, previous: Name)
    requires key in s.objects && s.objects[key].pointer == Some(previous) && previous != s.nextName && a !in s.agents
    requires s.nextId !in s.requests
    requires exists owner, uid :: s2 == Ready(s, a, key, owner, uid, content)
    ensures var t := Next(Next(Next(Next(s2, Commit(a)), Deliver(s.nextId, false, false)), Respond(a)), DeleteRecord(a));
      && t.objects == s.objects[key := Published(s, key, content)] && t.records == s2.records - {previous}
      && t.requests == s.requests && t.agents == s.agents
  {
    hide Next;
    var s3 := Next(s2, Commit(a));
    CommitSends(s2, a, s.nextId);
    var s4 := Next(s3, Deliver(s.nextId, false, false));
    PatchLands(s3, s, key, content, previous);
    var s5 := Next(s4, Respond(a));
    AnswerDiscards(s4, a);
    DiscardDeletes(s5, a, previous);
    assert s.requests[s.nextId := s3.requests[s.nextId]] - {s.nextId} == s.requests;
  }

  lemma CommitSends(s: State, a: Agent, id: Id)
    requires a in s.agents && s.agents[a].Prepared? && s.agents[a].id == id && id in s.requests
    ensures var p := s.agents[a];
      Next(s, Commit(a)) == s.(requests := s.requests[id := s.requests[id].(sent := true)],
                               agents := s.agents[a := Committing(p.previous, p.name, p.initializing, id)])
  {
  }

  lemma PatchLands(s3: State, s: State, key: Key, content: Content, previous: Name)
    requires key in s.objects && s.objects[key].pointer == Some(previous) && previous != s.nextName
    requires s3.objects == s.objects && s3.nextRv == s.nextRv && s.nextId in s3.requests
    requires s3.requests[s.nextId] ==
      Request(key, Some(Guard(s.objects[key].uid, s.objects[key].rv)), Point(s.nextName), None, Some(content), true)
    ensures Next(s3, Deliver(s.nextId, false, false)) ==
      s3.(objects := s.objects[key := Published(s, key, content)], nextRv := s.nextRv + 1,
          requests := s3.requests - {s.nextId}, fates := s3.fates[s.nextId := Applied(s.nextRv)])
  {
  }

  lemma AnswerDiscards(s: State, a: Agent)
    requires a in s.agents && s.agents[a].Committing? && s.agents[a].previous.Some? && s.agents[a].id in s.fates
    requires s.fates[s.agents[a].id].Applied? && s.agents[a].name in s.issued
    ensures Next(s, Respond(a)) == s.(agents := s.agents[a := Discarding(s.agents[a].previous.value, None)])
  {
  }

  lemma DiscardDeletes(s: State, a: Agent, n: Name)
    requires a in s.agents && s.agents[a] == Discarding(n, None)
    ensures Next(s, DeleteRecord(a)) == s.(records := s.records - {n}, agents := s.agents - {a})
  {
  }

  // ---- An edit that carries its pointer ------------------------------------------------------

  /** An edit writes its content and keeps the pointer it has read. */
  lemma EditKeepsPointer(s: State, a: Agent, key: Key, guarded: bool, content: Content)
    requires key in s.objects && content != s.objects[key].content
    ensures var t := Next(Next(Next(s, EditRead(a, key, guarded)), EditSend(a, content, false)), Deliver(s.nextId, false, false));
      t.objects == s.objects[key := s.objects[key].(rv := s.nextRv, content := content)] && t.records == s.records
  {
    hide Next;
    EditReads(s, a, key, guarded);
    var s1 := Next(s, EditRead(a, key, guarded));
    EditSends(s1, a, s.nextId, content);
    EditLands(Next(s1, EditSend(a, content, false)), s, key, guarded, content);
  }

  lemma EditReads(s: State, a: Agent, key: Key, guarded: bool)
    requires key in s.objects
    ensures var t := Next(s, EditRead(a, key, guarded)); var o := s.objects[key];
      && t.objects == s.objects && t.records == s.records && t.nextRv == s.nextRv
      && a in t.agents && t.agents[a] == Editing(s.nextId) && s.nextId in t.requests
      && t.requests[s.nextId] ==
           Request(key, ApplyGuard(o, guarded), if o.pointer.Some? then Point(o.pointer.value) else Keep, None, None, false)
  {
    hide ApplyGuard;
    var t := EditReadStep(s, a, key, guarded);
    assert t.agents[a] == Editing(s.nextId);
  }

  lemma EditSends(s: State, a: Agent, id: Id, content: Content)
    requires a in s.agents && s.agents[a] == Editing(id) && id in s.requests
    ensures var t := Next(s, EditSend(a, content, false));
      && t.objects == s.objects && t.records == s.records && t.nextRv == s.nextRv && id in t.requests
      && t.requests[id] == s.requests[id].(content := Some(content), sent := true)
  {
    var t := EditSendStep(s, a, content, false);
    assert t.requests[id] == s.requests[id].(content := Some(content), sent := true);
  }

  lemma EditLands(s2: State, s: State, key: Key, guarded: bool, content: Content)
    requires key in s.objects && content != s.objects[key].content
    requires s2.objects == s.objects && s2.nextRv == s.nextRv && s2.records == s.records && s.nextId in s2.requests
    requires var o := s.objects[key];
      s2.requests[s.nextId] == Request(key, ApplyGuard(o, guarded), if o.pointer.Some? then Point(o.pointer.value) else Keep,
                                       None, Some(content), true)
    ensures var t := Next(s2, Deliver(s.nextId, false, false));
      t.objects == s.objects[key := s.objects[key].(rv := s.nextRv, content := content)] && t.records == s.records
  {
  }

  // ---- A pause snapshot --------------------------------------------------------------------

  /** A Middleware without a pause reference gets one, to a Secret that holds the snapshot. */
  lemma SnapshotIsPublished(s: State, a: Agent, key: Key, content: Content)
    requires key in s.objects && s.objects[key].pointer.None?
    ensures var actions := [CaptureRead(a, key), CapturePrepare(a, s.nextName, content), CaptureCheck(a), CaptureSend(a),
                            Deliver(s.nextId, false, false)];
      var t := Run(s, actions); var o := s.objects[key];
      && t.objects == s.objects[key := o.(rv := s.nextRv, pointer := Some(s.nextName))]
      && t.records == s.records[s.nextName := Record(Pause, key, o.uid, key, o.uid, o.rv, content)]
  {
    hide Next;
    var actions := [CaptureRead(a, key), CapturePrepare(a, s.nextName, content), CaptureCheck(a), CaptureSend(a),
                    Deliver(s.nextId, false, false)];
    RunFive(s, actions);
    SnapshotPrepares(s, a, key, content);
    var s2 := Next(Next(s, CaptureRead(a, key)), CapturePrepare(a, s.nextName, content));
    SnapshotSends(s2, s, a, key);
    SnapshotLands(Next(Next(s2, CaptureCheck(a)), CaptureSend(a)), s, key);
  }

  lemma SnapshotPrepares(s: State, a: Agent, key: Key, content: Content)
    requires key in s.objects
    ensures var t := Next(Next(s, CaptureRead(a, key)), CapturePrepare(a, s.nextName, content)); var o := s.objects[key];
      && t.objects == s.objects && t.nextRv == s.nextRv && a in t.agents && t.agents[a] == PausePrepared(s.nextName, s.nextId)
      && t.records == s.records[s.nextName := Record(Pause, key, o.uid, key, o.uid, o.rv, content)]
      && s.nextId in t.requests && t.requests[s.nextId] == Request(key, Some(Guard(o.uid, o.rv)), Point(s.nextName), None, None, false)
  {
    var o := s.objects[key];
    var s1 := ToPhase(s, a, PauseRead(key, o.uid, o.rv));
    assert Next(s, CaptureRead(a, key)) == s1;
    var t := CapturePrepareStep(s1, a, s.nextName, content);
    assert t.agents[a] == PausePrepared(s.nextName, s.nextId);
  }

  lemma SnapshotSends(s2: State, s: State, a: Agent, key: Key)
    requires key in s.objects && s.objects[key].pointer.None?
    requires s2.objects == s.objects && a in s2.agents && s2.agents[a] == PausePrepared(s.nextName, s.nextId)
    requires s.nextName in s2.records && s2.records[s.nextName].key == key && s2.records[s.nextName].uid == s.objects[key].uid
    requires s2.records[s.nextName].baseRv == s.objects[key].rv && s.nextId in s2.requests
    ensures var t := Next(Next(s2, CaptureCheck(a)), CaptureSend(a));
      && t.objects == s2.objects && t.records == s2.records && t.nextRv == s2.nextRv && s.nextId in t.requests
      && t.requests[s.nextId] == s2.requests[s.nextId].(sent := true)
  {
    var s3 := ToPhase(s2, a, PauseChecked(s.nextName, s.nextId));
    assert CaptureCheckStep(s2, a) == s3;
  }

  lemma SnapshotLands(s4: State, s: State, key: Key)
    requires key in s.objects && s.objects[key].pointer.None?
    requires s4.objects == s.objects && s4.nextRv == s.nextRv && s.nextId in s4.requests
    requires var o := s.objects[key];
      s4.requests[s.nextId] == Request(key, Some(Guard(o.uid, o.rv)), Point(s.nextName), None, None, true)
    ensures var t := Next(s4, Deliver(s.nextId, false, false));
      t.objects == s.objects[key := s.objects[key].(rv := s.nextRv, pointer := Some(s.nextName))] && t.records == s4.records
  {
  }

  /** Once the reference is gone and the Middleware has moved on, cleanup deletes the Secret. */
  lemma DetachedSnapshotIsDeleted(s: State, a: Agent, n: Name)
    requires n in s.records && s.records[n].kind.Pause? && !PointsTo(s, s.records[n].key, n)
    requires var r := s.records[n]; r.key in s.objects && s.objects[r.key].uid == r.uid && s.objects[r.key].rv != r.baseRv
    ensures Next(Next(s, CleanupPause(a, n)), DeleteRecord(a)).records == s.records - {n}
  {
    var s1 := ToPhase(s, a, Discarding(n, None));
    assert CleanupPauseStep(s, a, n) == s1;
  }

  /** An edit that has been sent, and a change by somebody else before it arrives. */
  function StaleEdit(a: Agent, key: Key, guarded: bool, content: Content, other: Content, id: Id): seq<Action> {
    [EditRead(a, key, guarded), EditSend(a, content, false), ExternalEdit(key, other, false), Deliver(id, false, false)]
  }

  lemma RunFour(s: State, actions: seq<Action>)
    requires |actions| == 4
    ensures Run(s, actions) == Next(Next(Next(Next(s, actions[0]), actions[1]), actions[2]), actions[3])
  {
    hide Next;
    assert actions[0..] == actions && actions[4..] == [];
    RunFrom(s, actions, 0);
    RunFrom(Next(s, actions[0]), actions, 1);
    RunFrom(Next(Next(s, actions[0]), actions[1]), actions, 2);
    RunFrom(Next(Next(Next(s, actions[0]), actions[1]), actions[2]), actions, 3);
  }

  /**
    A stale edit lands over the change of somebody else if and only if it was not asked to be guarded, and the object it read
    had neither a pointer nor a fence.
   */
  lemma StaleEditLandsIff(s: State, a: Agent, key: Key, guarded: bool, content: Content, other: Content)
    requires Reachable(s) && key in s.objects && content != other
    ensures var t := Run(s, StaleEdit(a, key, guarded, content, other, s.nextId)); var o := s.objects[key];
      && key in t.objects
      && t.objects[key].content == (if guarded || o.pointer.Some? || o.fence.Some? then other else content)
  {
    hide Next, Inv;
    ReachableInv(s);
    VersionIsOld(s, key);
    RunFour(s, StaleEdit(a, key, guarded, content, other, s.nextId));
    EditReads(s, a, key, guarded);
    var s1 := Next(s, EditRead(a, key, guarded));
    EditSends(s1, a, s.nextId, content);
    var s2 := Next(s1, EditSend(a, content, false));
    ExternalChanges(s2, key, other);
    StaleDelivery(Next(s2, ExternalEdit(key, other, false)), s, key, guarded, content, other);
  }

  lemma VersionIsOld(s: State, key: Key)
    requires Inv(s) && key in s.objects
    ensures s.objects[key].rv < s.nextRv
  {
  }

  lemma ExternalChanges(s: State, key: Key, other: Content)
    requires key in s.objects
    ensures Next(s, ExternalEdit(key, other, false)) ==
      s.(objects := s.objects[key := s.objects[key].(rv := s.nextRv, content := other)], nextRv := s.nextRv + 1)
  {
  }

  lemma StaleDelivery(s3: State, s: State, key: Key, guarded: bool, content: Content, other: Content)
    requires key in s.objects && content != other && s.objects[key].rv < s.nextRv
    requires s3.objects == s.objects[key := s.objects[key].(rv := s.nextRv, content := other)] && s.nextId in s3.requests
    requires var o := s.objects[key];
      s3.requests[s.nextId] == Request(key, ApplyGuard(o, guarded), if o.pointer.Some? then Point(o.pointer.value) else Keep,
                                       None, Some(content), true)
    ensures var t := Next(s3, Deliver(s.nextId, false, false)); var o := s.objects[key];
      && key in t.objects
      && t.objects[key].content == (if guarded || o.pointer.Some? || o.fence.Some? then other else content)
  {
  }

  /** A Middleware that has a pause reference keeps it: no second snapshot is published. */
  lemma PausedKeepsSnapshot(s: State, a: Agent, key: Key, content: Content)
    requires key in s.objects && s.objects[key].pointer.Some?
    ensures var actions := [CaptureRead(a, key), CapturePrepare(a, s.nextName, content), CaptureCheck(a), CaptureSend(a),
                            Deliver(s.nextId, false, false)];
      Run(s, actions).objects == s.objects
  {
    hide Next;
    var actions := [CaptureRead(a, key), CapturePrepare(a, s.nextName, content), CaptureCheck(a), CaptureSend(a),
                    Deliver(s.nextId, false, false)];
    RunFive(s, actions);
    SnapshotPrepares(s, a, key, content);
    CheckStops(Next(Next(s, CaptureRead(a, key)), CapturePrepare(a, s.nextName, content)), a, s.nextName, s.nextId, key);
  }

  lemma CheckStops(s: State, a: Agent, n: Name, id: Id, key: Key)
    requires a in s.agents && s.agents[a] == PausePrepared(n, id) && n in s.records && s.records[n].key == key
    requires key in s.objects && s.objects[key].pointer.Some? && id in s.requests && !s.requests[id].sent
    ensures Next(Next(Next(s, CaptureCheck(a)), CaptureSend(a)), Deliver(id, false, false)).objects == s.objects
  {
    hide Next;
    CheckIdles(s, a, n, id, key);
    IdleSendsNothing(ToIdle(s, a), a);
    UnsentIsNotDelivered(ToIdle(s, a), id);
  }

  lemma CheckIdles(s: State, a: Agent, n: Name, id: Id, key: Key)
    requires a in s.agents && s.agents[a] == PausePrepared(n, id) && n in s.records && s.records[n].key == key
    requires key in s.objects && s.objects[key].pointer.Some?
    ensures Next(s, CaptureCheck(a)) == ToIdle(s, a)
  {
  }

  lemma IdleSendsNothing(s: State, a: Agent)
    requires a !in s.agents
    ensures Next(s, CaptureSend(a)) == s
  {
  }

  lemma UnsentIsNotDelivered(s: State, id: Id)
    requires id in s.requests && !s.requests[id].sent
    ensures Next(s, Deliver(id, false, false)) == s
  {
  }
}
