/**
  The guarded publication protocol of intent records and pause snapshots.

  An API server holds versioned objects and immutable record Secrets. Clients
  hold a copy they read earlier (a phase) and the request they are building or
  have sent (a request). A request may be delayed for ever, its response may be
  lost, and any client may stop at any point. One transition is one API call or
  one client decision. A create that lands on an object somebody else created
  first is an ExternalEdit here; a deletion of a record that is still on its way
  when its client stops is not modelled.

  `pointer` is the intent annotation of a managed resource, and
  status.reconcilePause.snapshotSecret of a Middleware.
 */
module IntentProtocol {
  import opened Options

  type Key = string      // GVK, namespace and name
  type Uid = nat
  type Rv = nat
  type Name = nat        // Secret name
  type Id = nat          // identity of one request
  type Agent = nat
  type Content = int     // everything in an object but the fields below

  /** An initial record is published by a patch of the pointer alone, for an object that was just created. */
  datatype Kind = Intent(initial: bool) | Pause

  /** An immutable record: who owns it, and the one object version it may be published against. */
  datatype Record = Record(kind: Kind, ownerKey: Key, ownerUid: Uid, key: Key, uid: Uid, baseRv: Rv, content: Content)

  datatype Object = Object(uid: Uid, rv: Rv, pointer: Option<Name>, fence: Option<Name>, content: Content)

  datatype Guard = Guard(uid: Uid, rv: Rv)
  datatype PointerEdit = Keep | Clear | Point(name: Name)
  datatype Request = Request(key: Key, guard: Option<Guard>, edit: PointerEdit, fence: Option<Name>,
                             content: Option<Content>, sent: bool)

  datatype Fate = Applied(rv: Rv) | Refused

  /** Where one client is in its program. An agent without a phase is idle. */
  datatype Phase =
    | Read(key: Key, uid: Uid, rv: Rv, pointer: Option<Name>, initializing: bool)
    | Prepared(previous: Option<Name>, name: Name, initializing: bool, id: Id)
    | Committing(previous: Option<Name>, name: Name, initializing: bool, id: Id)
    | Rejected(key: Key, uid: Uid, name: Name, initializing: bool)
    | Retrying(key: Key, uid: Uid, name: Name)
    | Discarding(name: Name, retry: Option<(Key, Uid)>)
    | Editing(id: Id)
    | PauseRead(key: Key, uid: Uid, rv: Rv)
    | PausePrepared(name: Name, id: Id)
    | PauseChecked(name: Name, id: Id)
    | Collecting(name: Name)
    | Fencing(name: Name)
    | FenceSent(name: Name, id: Id)

  datatype State = State(
    objects: map<Key, Object>,
    records: map<Name, Record>,     // Secrets that exist now
    issued: map<Name, Record>,      // Secrets that ever existed (history)
    requests: map<Id, Request>,     // built or in flight, not yet delivered
    fates: map<Id, Fate>,           // outcome of delivered requests
    agents: map<Agent, Phase>,
    nextUid: Uid, nextRv: Rv, nextName: Name, nextId: Id)

  const INIT: State := State(map[], map[], map[], map[], map[], map[], 0, 0, 0, 0)

  datatype Action =
    // The environment: other users of the cluster, and Kubernetes itself.
    | CreateObject(key: Key, content: Content)
    | DeleteObject(key: Key)
    | ExternalEdit(key: Key, content: Content, clear: bool)
    | OwnerGarbageCollection(name: Name)
    | Deliver(id: Id, refuse: bool, duplicate: bool)
    | Crash(agent: Agent)
    // ManagedResourceWriter
    | WriterRead(agent: Agent, key: Key, initializing: bool)
    | Prepare(agent: Agent, ownerKey: Key, ownerUid: Uid, content: Content)
    | DiscardUnused(agent: Agent)
    | Commit(agent: Agent)
    | Respond(agent: Agent)
    | CleanupRead(agent: Agent)
    | CleanupSkip(agent: Agent)
    | Reread(agent: Agent)
    | DeleteRecord(agent: Agent)
    // Action edits, and status writers that carry the reference they read
    | EditRead(agent: Agent, key: Key, alwaysGuarded: bool)
    | EditSend(agent: Agent, content: Content, clear: bool)
    // Pause snapshots
    | CaptureRead(agent: Agent, key: Key)
    | CapturePrepare(agent: Agent, name: Name, content: Content)
    | CaptureCheck(agent: Agent)
    | CaptureSend(agent: Agent)
    | CleanupPause(agent: Agent, name: Name)
    // ResourceIntentCollector
    | Collect(agent: Agent, name: Name)
    | CollectTarget(agent: Agent)
    | Fence(agent: Agent)
    | FenceRespond(agent: Agent)

  predicate OwnerAlive(s: State, r: Record) {
    r.ownerKey in s.objects && s.objects[r.ownerKey].uid == r.ownerUid
  }

  /** The UID and resourceVersion tests of a guarded patch. */
  predicate Matches(s: State, key: Key, uid: Uid, rv: Rv) {
    key in s.objects && s.objects[key].uid == uid && s.objects[key].rv == rv
  }

  predicate PointsTo(s: State, key: Key, name: Name) {
    key in s.objects && s.objects[key].pointer == Some(name)
  }

  function ToPhase(s: State, a: Agent, p: Phase): State {
    s.(agents := s.agents[a := p])
  }

  function ToIdle(s: State, a: Agent): State {
    s.(agents := s.agents - {a})
  }

  /** prepareCustomResourceApply: a copy that carries a pointer or a fence keeps the guard of its read. */
  function ApplyGuard(o: Object, alwaysGuarded: bool): Option<Guard> {
    if alwaysGuarded || o.pointer.Some? || o.fence.Some? then Some(Guard(o.uid, o.rv)) else None
  }

  function EditedPointer(edit: PointerEdit, current: Option<Name>): Option<Name> {
    match edit
    case Keep => current
    case Clear => None
    case Point(n) => Some(n)
  }

  /** The stored object after an accepted write; a write that changes nothing keeps the version. */
  function Written(s: State, w: Request, o: Object): Object {
    var o' := o.(pointer := EditedPointer(w.edit, o.pointer),
                 fence := if w.fence.Some? then w.fence else o.fence,
                 content := if w.content.Some? then w.content.value else o.content);
    if o' == o then o else o'.(rv := s.nextRv)
  }

  function StoreObject(s: State, key: Key, o: Object): State {
    s.(objects := s.objects[key := o], nextRv := s.nextRv + 1)
  }

  function NewObject(s: State, key: Key, content: Content): State {
    s.(objects := s.objects[key := Object(s.nextUid, s.nextRv, None, None, content)],
       nextUid := s.nextUid + 1, nextRv := s.nextRv + 1)
  }

  /** What the server answers to a request: a failed test, an unguarded create, a refusal or an update. */
  function Served(s: State, w: Request, refuse: bool): (State, Fate) {
    if refuse || (w.guard.Some? && !Matches(s, w.key, w.guard.value.uid, w.guard.value.rv)) then
      (s, Refused)
    else if w.key !in s.objects then
      (NewObject(s, w.key, if w.content.Some? then w.content.value else 0), Applied(s.nextRv))
    else
      var o := Written(s, w, s.objects[w.key]);
      (StoreObject(s, w.key, o), Applied(o.rv))
  }

  /** The request is served and, unless the network repeats it, gone; its answer is not recorded yet. */
  function Delivered(s: State, id: Id, refuse: bool, duplicate: bool): State
    requires id in s.requests
  {
    Served(s, s.requests[id], refuse).0.(requests := if duplicate then s.requests else s.requests - {id})
  }

  function DeliverStep(s: State, id: Id, refuse: bool, duplicate: bool): (t: State)
    ensures t.agents == s.agents && t.issued == s.issued && s.nextUid <= t.nextUid
  {
    if id !in s.requests || !s.requests[id].sent then s
    else Delivered(s, id, refuse, duplicate).(fates := s.fates[id := Served(s, s.requests[id], refuse).1])
  }

  function AddRequest(s: State, w: Request): State {
    s.(requests := s.requests[s.nextId := w], nextId := s.nextId + 1)
  }

  function Send(s: State, id: Id): State
    requires id in s.requests
  {
    s.(requests := s.requests[id := s.requests[id].(sent := true)])
  }

  /** prepareResourceIntent: a uniquely named record bound to the UID and version that were read. */
  function PrepareStep(s: State, a: Agent, ownerKey: Key, ownerUid: Uid, content: Content): (t: State)
    ensures t.objects == s.objects && t.agents - {a} == s.agents - {a} && t.nextUid == s.nextUid
  {
    if a !in s.agents || !s.agents[a].Read? || ownerUid >= s.nextUid then s else  // the owner has been read
    var p := s.agents[a];
    var n, id := s.nextName, s.nextId;
    var r := Record(Intent(p.initializing), ownerKey, ownerUid, p.key, p.uid, p.rv, content);
    var w := Request(p.key, Some(Guard(p.uid, p.rv)), Point(n), None, if p.initializing then None else Some(content), false);
    ToPhase(AddRequest(s.(records := s.records[n := r], issued := s.issued[n := r], nextName := n + 1), w), a,
            Prepared(if p.initializing then None else p.pointer, n, p.initializing, id))
  }

  /** adoptConfigurationResource's failed recheck: the patch is dropped before it was ever sent. */
  function DiscardUnusedStep(s: State, a: Agent): (t: State)
    ensures t.objects == s.objects && t.agents - {a} == s.agents - {a} && t.nextUid == s.nextUid && t.issued == s.issued
  {
    if a !in s.agents || !s.agents[a].Prepared? || s.agents[a].id !in s.requests || s.requests[s.agents[a].id].sent then s else
    ToPhase(s.(requests := s.requests - {s.agents[a].id}), a, Discarding(s.agents[a].name, None))
  }

  /** commitIntentPatch's answer: success discards the previous record, a definite error starts the cleanup. */
  function RespondStep(s: State, a: Agent): (t: State)
    ensures t.objects == s.objects && t.agents - {a} == s.agents - {a} && t.nextUid == s.nextUid && t.issued == s.issued
  {
    if a !in s.agents || !s.agents[a].Committing? then s else
    var p := s.agents[a];
    if p.id !in s.fates || p.name !in s.issued then s else
    match s.fates[p.id]
    case Applied(_) => if p.previous.Some? then ToPhase(s, a, Discarding(p.previous.value, None)) else ToIdle(s, a)
    case Refused => ToPhase(s, a, Rejected(s.issued[p.name].key, s.issued[p.name].uid, p.name, p.initializing))
  }

  /** cleanupUncommittedIntent after a definite rejection. */
  function CleanupReadStep(s: State, a: Agent): (t: State)
    ensures t.objects == s.objects && t.agents - {a} == s.agents - {a} && t.nextUid == s.nextUid && t.issued == s.issued
  {
    if a !in s.agents || !s.agents[a].Rejected? then s else
    var p := s.agents[a];
    if !PointsTo(s, p.key, p.name) then
      ToPhase(s, a, Discarding(p.name, if p.initializing then Some((p.key, p.uid)) else None))
    else if p.initializing then ToPhase(s, a, Retrying(p.key, p.uid, p.name))
    else ToIdle(s, a)
  }

  function CleanupSkipStep(s: State, a: Agent): (t: State)
    ensures t.objects == s.objects && t.agents - {a} == s.agents - {a} && t.nextUid == s.nextUid && t.issued == s.issued
  {
    if a !in s.agents || !s.agents[a].Rejected? then s else
    var p := s.agents[a];
    if p.initializing then ToPhase(s, a, Retrying(p.key, p.uid, p.name)) else ToIdle(s, a)
  }

  /** initializeResourceIntent's retry: a pointer of any name makes it discard its own record and stop. */
  function RereadStep(s: State, a: Agent): (t: State)
    ensures t.objects == s.objects && t.agents - {a} == s.agents - {a} && t.nextUid == s.nextUid && t.issued == s.issued
  {
    if a !in s.agents || !s.agents[a].Retrying? then s else
    var p := s.agents[a];
    if p.key !in s.objects || s.objects[p.key].uid != p.uid then ToIdle(s, a)
    else if s.objects[p.key].pointer.Some? then ToPhase(s, a, Discarding(p.name, None))
    else ToPhase(s, a, Read(p.key, p.uid, s.objects[p.key].rv, None, true))
  }

  function DeleteRecordStep(s: State, a: Agent): (t: State)
    ensures t.objects == s.objects && t.agents - {a} == s.agents - {a} && t.nextUid == s.nextUid && t.issued == s.issued
  {
    if a !in s.agents || !s.agents[a].Discarding? then s else
    var p := s.agents[a];
    var s' := s.(records := s.records - {p.name});
    if p.retry.Some? then ToPhase(s', a, Retrying(p.retry.value.0, p.retry.value.1, p.name)) else ToIdle(s', a)
  }

  function EditReadStep(s: State, a: Agent, key: Key, alwaysGuarded: bool): (t: State)
    ensures t.objects == s.objects && t.agents - {a} == s.agents - {a} && t.nextUid == s.nextUid && t.issued == s.issued
  {
    if key !in s.objects then s else
    var o := s.objects[key];
    var w := Request(key, ApplyGuard(o, alwaysGuarded), if o.pointer.Some? then Point(o.pointer.value) else Keep, None, None, false);
    ToPhase(AddRequest(s, w), a, Editing(s.nextId))
  }

  function EditSendStep(s: State, a: Agent, content: Content, clear: bool): (t: State)
    ensures t.objects == s.objects && t.agents - {a} == s.agents - {a} && t.nextUid == s.nextUid && t.issued == s.issued
  {
    if a !in s.agents || !s.agents[a].Editing? || s.agents[a].id !in s.requests then s else
    var id := s.agents[a].id;
    var w := s.requests[id];
    ToIdle(s.(requests := s.requests[id := w.(content := Some(content), sent := true,
                                              edit := if clear then Clear else w.edit)]), a)
  }

  /** PrepareReconcilePauseSnapshot: the name is a function of the record, so a retry may find or recreate it. */
  function CapturePrepareStep(s: State, a: Agent, n: Name, content: Content): (t: State)
    ensures t.objects == s.objects && t.agents - {a} == s.agents - {a} && t.nextUid == s.nextUid
  {
    if a !in s.agents || !s.agents[a].PauseRead? then s else
    var p := s.agents[a];
    var r := Record(Pause, p.key, p.uid, p.key, p.uid, p.rv, content);
    if !(n == s.nextName || (n in s.issued && s.issued[n] == r)) then s else
    var w := Request(p.key, Some(Guard(p.uid, p.rv)), Point(n), None, None, false);
    ToPhase(AddRequest(s.(records := s.records[n := r], issued := s.issued[n := r],
                          nextName := if n == s.nextName then n + 1 else s.nextName), w), a,
            PausePrepared(n, s.nextId))
  }

  /** PublishReconcilePauseSnapshot: load the record, re-read the Middleware, insist on the recorded version. */
  function CaptureCheckStep(s: State, a: Agent): (t: State)
    ensures t.objects == s.objects && t.agents - {a} == s.agents - {a} && t.nextUid == s.nextUid && t.issued == s.issued
  {
    if a !in s.agents || !s.agents[a].PausePrepared? then s else
    var p := s.agents[a];
    if p.name in s.records && Matches(s, s.records[p.name].key, s.records[p.name].uid, s.records[p.name].baseRv)
       && s.objects[s.records[p.name].key].pointer.None?
    then ToPhase(s, a, PauseChecked(p.name, p.id)) else ToIdle(s, a)
  }

  /** CleanupReconcilePauseSnapshot: only a detached record of a Middleware that moved on. */
  function CleanupPauseStep(s: State, a: Agent, n: Name): (t: State)
    ensures t.objects == s.objects && t.agents - {a} == s.agents - {a} && t.nextUid == s.nextUid && t.issued == s.issued
  {
    if n !in s.records || !s.records[n].kind.Pause? then s else
    var r := s.records[n];
    if r.key !in s.objects || s.objects[r.key].uid != r.uid || s.objects[r.key].rv == r.baseRv || PointsTo(s, r.key, n)
    then s else ToPhase(s, a, Discarding(n, None))
  }

  /** collect up to the read of the target: the record and its living owner. */
  function CollectStep(s: State, a: Agent, n: Name): (t: State)
    ensures t.objects == s.objects && t.agents - {a} == s.agents - {a} && t.nextUid == s.nextUid && t.issued == s.issued
  {
    if n in s.records && OwnerAlive(s, s.records[n]) then ToPhase(s, a, Collecting(n)) else s
  }

  /** collect and collectPauseSnapshot from the read of the target on. */
  function CollectTargetStep(s: State, a: Agent): (t: State)
    ensures t.objects == s.objects && t.agents - {a} == s.agents - {a} && t.nextUid == s.nextUid && t.issued == s.issued
  {
    if a !in s.agents || !s.agents[a].Collecting? || s.agents[a].name !in s.issued then s else
    var n := s.agents[a].name;
    var r := s.issued[n];
    if r.key !in s.objects || s.objects[r.key].uid != r.uid then
      if r.kind.Intent? && !PointsTo(s, r.key, n) then ToPhase(s, a, Discarding(n, None)) else ToIdle(s, a)
    else if PointsTo(s, r.key, n) then ToIdle(s, a)
    else if s.objects[r.key].rv == r.baseRv then ToPhase(s, a, Fencing(n))
    else ToPhase(s, a, Discarding(n, None))
  }

  /** fencePublication: a metadata-only patch guarded by the UID and version just read. */
  function FenceStep(s: State, a: Agent): (t: State)
    ensures t.objects == s.objects && t.agents - {a} == s.agents - {a} && t.nextUid == s.nextUid && t.issued == s.issued
  {
    if a !in s.agents || !s.agents[a].Fencing? || s.agents[a].name !in s.issued then s else
    var n := s.agents[a].name;
    var r := s.issued[n];
    ToPhase(AddRequest(s, Request(r.key, Some(Guard(r.uid, r.baseRv)), Keep, Some(n), None, true)), a, FenceSent(n, s.nextId))
  }

  /** The fence counts only when the answer shows a new version. */
  function FenceRespondStep(s: State, a: Agent): (t: State)
    ensures t.objects == s.objects && t.agents - {a} == s.agents - {a} && t.nextUid == s.nextUid && t.issued == s.issued
  {
    if a !in s.agents || !s.agents[a].FenceSent? then s else
    var p := s.agents[a];
    if p.id !in s.fates || p.name !in s.issued then s else
    match s.fates[p.id]
    case Applied(rv) => if rv == s.issued[p.name].baseRv then ToIdle(s, a) else ToPhase(s, a, Discarding(p.name, None))
    case Refused => ToIdle(s, a)
  }

  /** One transition. An action that is not enabled changes nothing. */
  function Next(s: State, action: Action): State {
    match action
    case CreateObject(key, content) => if key in s.objects then s else NewObject(s, key, content)
    case DeleteObject(key) => s.(objects := s.objects - {key})
    case ExternalEdit(key, content, clear) =>
      if key !in s.objects then s
      else StoreObject(s, key, s.objects[key].(rv := s.nextRv, content := content,
                                               pointer := if clear then None else s.objects[key].pointer))
    case OwnerGarbageCollection(n) =>
      if n in s.records && !OwnerAlive(s, s.records[n]) then s.(records := s.records - {n}) else s
    case Deliver(id, refuse, duplicate) => DeliverStep(s, id, refuse, duplicate)
    case Crash(a) => ToIdle(s, a)
    case WriterRead(a, key, initializing) =>
      if key !in s.objects then s
      else ToPhase(s, a, Read(key, s.objects[key].uid, s.objects[key].rv, s.objects[key].pointer, initializing))
    case Prepare(a, ownerKey, ownerUid, content) => PrepareStep(s, a, ownerKey, ownerUid, content)
    case DiscardUnused(a) => DiscardUnusedStep(s, a)
    case Commit(a) =>
      if a !in s.agents || !s.agents[a].Prepared? || s.agents[a].id !in s.requests then s
      else var p := s.agents[a]; ToPhase(Send(s, p.id), a, Committing(p.previous, p.name, p.initializing, p.id))
    case Respond(a) => RespondStep(s, a)
    case CleanupRead(a) => CleanupReadStep(s, a)
    case CleanupSkip(a) => CleanupSkipStep(s, a)
    case Reread(a) => RereadStep(s, a)
    case DeleteRecord(a) => DeleteRecordStep(s, a)
    case EditRead(a, key, alwaysGuarded) => EditReadStep(s, a, key, alwaysGuarded)
    case EditSend(a, content, clear) => EditSendStep(s, a, content, clear)
    case CaptureRead(a, key) =>
      if key !in s.objects then s else ToPhase(s, a, PauseRead(key, s.objects[key].uid, s.objects[key].rv))
    case CapturePrepare(a, n, content) => CapturePrepareStep(s, a, n, content)
    case CaptureCheck(a) => CaptureCheckStep(s, a)
    case CaptureSend(a) =>
      if a !in s.agents || !s.agents[a].PauseChecked? || s.agents[a].id !in s.requests then s
      else ToIdle(Send(s, s.agents[a].id), a)
    case CleanupPause(a, n) => CleanupPauseStep(s, a, n)
    case Collect(a, n) => CollectStep(s, a, n)
    case CollectTarget(a) => CollectTargetStep(s, a)
    case Fence(a) => FenceStep(s, a)
    case FenceRespond(a) => FenceRespondStep(s, a)
  }

  function Run(s: State, actions: seq<Action>): State
    decreases |actions|
  {
    if actions == [] then s else Run(Next(s, actions[0]), actions[1..])
  }

  /** Every request is delivered at most once: no delivery leaves a second copy behind. */
  predicate AtMostOnce(actions: seq<Action>) {
    forall i :: 0 <= i < |actions| && actions[i].Deliver? ==> !actions[i].duplicate
  }
}
