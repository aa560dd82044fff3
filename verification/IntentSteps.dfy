/** Every action keeps the invariant and leaves dead records dead. */
module IntentSteps {
  import opened Options
  import opened IntentProtocol
  import opened IntentInvariant

  // ---- Phases ---------------------------------------------------------------

  lemma PhasePreserves(s: State, a: Agent, p: Phase)
    requires Inv(s) && PhaseOk(s, p)
    ensures Preserves(s, ToPhase(s, a, p))
  {
    hide PhaseOk, Dead;
    FramePreserves(s, ToPhase(s, a, p));
  }

  lemma IdlePreserves(s: State, a: Agent)
    requires Inv(s)
    ensures Preserves(s, ToIdle(s, a))
  {
    hide PhaseOk, Dead;
    FramePreserves(s, ToIdle(s, a));
  }

  lemma StayPreserves(s: State)
    requires Inv(s)
    ensures Preserves(s, s)
  {
    hide Inv, Dead;
  }

  lemma PhaseOf(s: State, a: Agent)
    requires Inv(s) && a in s.agents
    ensures PhaseOk(s, s.agents[a])
  {
    hide PhaseOk, Dead;
  }

  lemma DeletionPreserves(s: State, n: Name)
    requires Inv(s) && n in s.issued && (OwnerAlive(s, s.issued[n]) ==> Dead(s, n))
    ensures Preserves(s, s.(records := s.records - {n}))
  {
    hide PhaseOk, Dead;
    FramePreserves(s, s.(records := s.records - {n}));
  }

  // ---- New requests and records ---------------------------------------------

  /** t is s with one more request, and possibly the record that request publishes. */
  ghost predicate Growth(s: State, t: State, w: Request) {
    && t == s.(records := t.records, issued := t.issued, nextName := t.nextName,
               requests := s.requests[s.nextId := w], nextId := s.nextId + 1)
    && s.nextName <= t.nextName
    && (forall n :: n in s.issued ==> n in t.issued && t.issued[n] == s.issued[n])
    && (forall n :: n in t.issued && n !in s.issued ==> n in t.records)
    && (forall n :: n in s.records ==> n in t.records)
    && (w.edit.Point? && w.edit.name in s.issued ==>
      || !Unreferenced(s, w.edit.name)
      || (s.issued[w.edit.name].kind.Pause? && w.key == s.issued[w.edit.name].key
          && w.guard == Some(Guard(s.issued[w.edit.name].uid, s.issued[w.edit.name].baseRv))))
  }

  lemma GrowthDead(s: State, t: State, w: Request, n: Name)
    requires Growth(s, t, w) && n in s.issued && Dead(s, n)
    ensures Dead(t, n)
  {
    forall id | id in t.requests && NamesRequest(t.requests[id], n) ensures !RequestMatches(t, t.requests[id]) {
      if id != s.nextId { assert !RequestMatches(s, s.requests[id]); }
    }
  }

  lemma GrowthAttempt(s: State, t: State, w: Request, previous: Option<Name>, n: Name, id: Id)
    requires Counters(s) && Growth(s, t, w) && Attempt(s, previous, n, id)
    ensures Attempt(t, previous, n, id)
  {
    if id !in s.requests && id in s.fates {
      if s.fates[id].Refused? { GrowthDead(s, t, w, n); }
      if s.fates[id].Applied? && previous.Some? { GrowthDead(s, t, w, previous.value); }
    }
  }

  lemma GrowthPhase(s: State, t: State, w: Request, p: Phase)
    requires Counters(s) && Growth(s, t, w) && PhaseOk(s, p)
    ensures PhaseOk(t, p)
  {
    match p
    case Prepared(previous, n, _, id) => GrowthAttempt(s, t, w, previous, n, id);
    case Committing(previous, n, _, id) => GrowthAttempt(s, t, w, previous, n, id);
    case Rejected(_, _, n, _) => GrowthDead(s, t, w, n);
    case Retrying(_, _, n) => GrowthDead(s, t, w, n);
    case Discarding(n, _) => GrowthDead(s, t, w, n);
    case FenceSent(n, id) => if Dead(s, n) { GrowthDead(s, t, w, n); }
    case _ =>
  }

  lemma GrowthData(s: State, t: State, w: Request)
    requires Objects(s) && Requests(s) && Growth(s, t, w) && RequestOk(t, w)
    ensures Objects(t) && Requests(t)
  {
    forall k | k in t.objects ensures ObjectOk(t, k) { assert ObjectOk(s, k); }
    forall id | id in t.requests ensures RequestOk(t, t.requests[id]) {
      if id != s.nextId { assert RequestOk(s, s.requests[id]); }
    }
  }

  lemma GrowthPreserves(s: State, t: State, w: Request)
    requires Inv(s) && Growth(s, t, w) && Counters(t) && RequestOk(t, w)
    ensures Preserves(s, t)
  {
    hide Dead, PhaseOk, Counters, Objects, Requests, RequestOk;
    GrowthData(s, t, w);
    forall n | n in s.issued && Dead(s, n) ensures Dead(t, n) { GrowthDead(s, t, w, n); }
    forall a | a in t.agents ensures PhaseOk(t, t.agents[a]) { GrowthPhase(s, t, w, s.agents[a]); }
  }

  // ---- Editing a built request ----------------------------------------------

  /** t is s with request id sent, its payload possibly replaced and its pointer possibly dropped. */
  ghost predicate Edited(s: State, t: State, id: Id) {
    && id in s.requests && id in t.requests
    && t == s.(requests := s.requests[id := t.requests[id]])
    && t.requests[id].key == s.requests[id].key
    && t.requests[id].guard == s.requests[id].guard
    && (t.requests[id].edit == Clear || t.requests[id].edit == s.requests[id].edit)
  }

  lemma EditedDead(s: State, t: State, id: Id, n: Name)
    requires Edited(s, t, id) && n in s.issued && Dead(s, n)
    ensures Dead(t, n)
  {
    forall j | j in t.requests && NamesRequest(t.requests[j], n) ensures !RequestMatches(t, t.requests[j]) {
      assert NamesRequest(s.requests[j], n) && !RequestMatches(s, s.requests[j]);
    }
  }

  lemma EditedAttempt(s: State, t: State, id: Id, previous: Option<Name>, n: Name, j: Id)
    requires Counters(s) && Edited(s, t, id) && Attempt(s, previous, n, j)
    ensures Attempt(t, previous, n, j)
  {
    if j in s.requests {
      forall i | i in t.requests && i != j ensures !NamesRequest(t.requests[i], n) {
        assert !NamesRequest(s.requests[i], n);
      }
    } else if j in s.fates {
      if s.fates[j].Refused? { EditedDead(s, t, id, n); }
      if s.fates[j].Applied? && previous.Some? { EditedDead(s, t, id, previous.value); }
    }
  }

  lemma EditedPhase(s: State, t: State, id: Id, p: Phase)
    requires Counters(s) && Edited(s, t, id) && PhaseOk(s, p)
    ensures PhaseOk(t, p)
  {
    match p
    case Prepared(previous, n, _, j) => EditedAttempt(s, t, id, previous, n, j);
    case Committing(previous, n, _, j) => EditedAttempt(s, t, id, previous, n, j);
    case Rejected(_, _, n, _) => EditedDead(s, t, id, n);
    case Retrying(_, _, n) => EditedDead(s, t, id, n);
    case Discarding(n, _) => EditedDead(s, t, id, n);
    case FenceSent(n, j) => if Dead(s, n) { EditedDead(s, t, id, n); }
    case _ =>
  }

  lemma EditedData(s: State, t: State, id: Id)
    requires Counters(s) && Objects(s) && Requests(s) && Edited(s, t, id) && RequestOk(s, t.requests[id])
    ensures Counters(t) && Objects(t) && Requests(t)
  {
    forall k | k in t.objects ensures ObjectOk(t, k) { assert ObjectOk(s, k); }
    forall j | j in t.requests ensures RequestOk(t, t.requests[j]) {
      if j != id { assert RequestOk(s, s.requests[j]); }
    }
  }

  lemma EditedPreserves(s: State, t: State, id: Id)
    requires Inv(s) && Edited(s, t, id) && RequestOk(s, t.requests[id])
    ensures Preserves(s, t)
  {
    hide Dead, PhaseOk, Counters, Objects, Requests, RequestOk;
    EditedData(s, t, id);
    forall n | n in s.issued && Dead(s, n) ensures Dead(t, n) { EditedDead(s, t, id, n); }
    forall a | a in t.agents ensures PhaseOk(t, t.agents[a]) { EditedPhase(s, t, id, s.agents[a]); }
  }

  // ---- A record whose target moved on ---------------------------------------

  /** The collector's evidence: the bound version is gone and the target does not point to the record. */
  lemma MovedOnIsDead(s: State, n: Name)
    requires Counters(s) && Objects(s) && Requests(s) && n in s.issued
    requires !TargetMatches(s, n) && !PointsTo(s, s.issued[n].key, n)
    ensures Dead(s, n)
  {
    forall k | k in s.objects ensures s.objects[k].pointer != Some(n) { assert ObjectOk(s, k); }
    forall id | id in s.requests && NamesRequest(s.requests[id], n) ensures !RequestMatches(s, s.requests[id]) {
      assert RequestOk(s, s.requests[id]);
    }
  }

  // ---- Delivering a request -------------------------------------------------

  ghost predicate Publishes(s: State, w: Request) {
    w.edit.Point? && RequestMatches(s, w) && s.objects[w.key].pointer != Some(w.edit.name)
  }

  lemma ServedIsChange(s: State, id: Id, refuse: bool)
    requires Counters(s) && id in s.requests && !Publishes(s, s.requests[id])
    requires s.requests[id].edit.Point? ==> s.requests[id].guard.Some?
    requires s.requests[id].key in s.objects ==> Written(s, s.requests[id], s.objects[s.requests[id].key]) != s.objects[s.requests[id].key]
    ensures ObjectChange(s, Delivered(s, id, refuse, false), s.requests[id].key, None)
  {
  }

  /** The request that publishes a record: nobody has taken that record for dead. */
  lemma ServePublication(s: State, id: Id, refuse: bool)
    requires Inv(s) && id in s.requests && Publishes(s, s.requests[id])
    ensures Preserves(s, Delivered(s, id, refuse, false))
  {
    var w := s.requests[id];
    assert RequestOk(s, w);
    assert NamesRequest(w, w.edit.name);
    ChangePreserves(s, Delivered(s, id, refuse, false), w.key, Some(w.edit.name));
  }

  lemma ServeNoop(s: State, id: Id, refuse: bool)
    requires Inv(s) && id in s.requests
    requires var w := s.requests[id]; w.key in s.objects && Written(s, w, s.objects[w.key]) == s.objects[w.key]
    ensures Preserves(s, Delivered(s, id, refuse, false))
  {
    hide Dead, PhaseOk;
    var u := s.(requests := s.requests - {id});
    var t := Delivered(s, id, refuse, false);
    ChangePreserves(s, u, s.requests[id].key, None);
    assert t.objects == u.objects;
    FramePreserves(u, t);
    PreservesTwice(s, u, t);
  }

  lemma ServePreserves(s: State, id: Id, refuse: bool)
    requires Inv(s) && id in s.requests
    ensures Preserves(s, Delivered(s, id, refuse, false))
  {
    hide Dead, PhaseOk, Preserves;
    var w := s.requests[id];
    assert RequestOk(s, w);
    if Publishes(s, w) {
      ServePublication(s, id, refuse);
    } else if w.key in s.objects && Written(s, w, s.objects[w.key]) == s.objects[w.key] {
      ServeNoop(s, id, refuse);
    } else {
      ServedIsChange(s, id, refuse);
      ChangePreserves(s, Delivered(s, id, refuse, false), w.key, None);
    }
  }

  // ---- Recording the answer -------------------------------------------------

  /** t is s after the answer to id, which is no longer in flight, is recorded. */
  ghost predicate Answered(s: State, t: State, id: Id) {
    && t == s.(fates := t.fates) && id !in s.requests && id in t.fates && id < s.nextId
    && (forall j :: j != id ==> (j in t.fates <==> j in s.fates))
    && (forall j :: j != id && j in t.fates ==> t.fates[j] == s.fates[j])
  }

  lemma AnswerDead(s: State, t: State, n: Name)
    requires t == s.(fates := t.fates) && n in s.issued && Dead(s, n)
    ensures Dead(t, n)
  {
    forall id | id in t.requests && NamesRequest(t.requests[id], n) ensures !RequestMatches(t, t.requests[id]) {
      assert !RequestMatches(s, s.requests[id]);
    }
  }

  lemma AnswerPhase(s: State, t: State, id: Id, p: Phase)
    requires Counters(s) && Answered(s, t, id) && PhaseOk(s, p) && Outcome(s, id, t.fates[id], p)
    ensures PhaseOk(t, p)
  {
    forall n | n in s.issued && Dead(s, n) ensures Dead(t, n) { AnswerDead(s, t, n); }
    if p.Prepared? || p.Committing? {
      if p.id in t.requests { assert Sole(s, p.name, p.id); assert Sole(t, p.name, p.id); }
    }
  }

  lemma AnswerPreserves(s: State, t: State, id: Id)
    requires Inv(s) && Answered(s, t, id)
    requires forall a :: a in s.agents ==> PhaseOk(t, s.agents[a])
    ensures Preserves(s, t)
  {
    hide Dead, PhaseOk;
    forall k | k in t.objects ensures ObjectOk(t, k) { assert ObjectOk(s, k); }
    forall j | j in t.requests ensures RequestOk(t, t.requests[j]) { assert RequestOk(s, s.requests[j]); }
    forall n | n in s.issued && Dead(s, n) ensures Dead(t, n) { AnswerDead(s, t, n); }
  }

  /** What an answer means for the client that waits for it. */
  ghost predicate Outcome(u: State, id: Id, fate: Fate, p: Phase) {
    && ((p.Prepared? || p.Committing?) && p.id == id ==>
      && p.name in u.issued && (fate.Refused? ==> Dead(u, p.name))
      && (fate.Applied? && p.previous.Some? ==> p.previous.value in u.issued && Dead(u, p.previous.value)))
    && (p.FenceSent? && p.id == id ==>
      p.name in u.issued && (fate.Applied? && fate.rv != u.issued[p.name].baseRv ==> Dead(u, p.name)))
  }

  /** The sole publisher of a name is refused: the name is dead. */
  lemma RefusedIsDead(s: State, id: Id, refuse: bool, previous: Option<Name>, n: Name)
    requires Inv(s) && id in s.requests && Attempt(s, previous, n, id)
    requires Served(s, s.requests[id], refuse).1.Refused?
    ensures Dead(Delivered(s, id, refuse, false), n)
  {
    hide PhaseOk, Requests, Deleted;
  }

  /** A commit that was applied replaced the previous pointer, and every other copy of it is stale. */
  lemma AppliedKillsPrevious(s: State, id: Id, refuse: bool, previous: Option<Name>, n: Name)
    requires Inv(s) && id in s.requests && Attempt(s, previous, n, id) && previous.Some?
    requires Served(s, s.requests[id], refuse).1.Applied?
    ensures Dead(Delivered(s, id, refuse, false), previous.value)
  {
    hide PhaseOk, Requests, Deleted, Dead, Phases;
    var t := Delivered(s, id, refuse, false);
    ServePreserves(s, id, refuse);
    var w := s.requests[id];
    assert Matches(s, w.key, w.guard.value.uid, w.guard.value.rv);
    assert t.objects[w.key].pointer != previous;
    MovedOnIsDead(t, previous.value);
  }

  /** A fence that moved the version rules out the one publication of its record. */
  lemma FencedIsDead(s: State, id: Id, refuse: bool, n: Name)
    requires Inv(s) && id in s.requests && PhaseOk(s, FenceSent(n, id))
    requires var f := Served(s, s.requests[id], refuse).1; f.Applied? && f.rv != s.issued[n].baseRv
    ensures Dead(Delivered(s, id, refuse, false), n)
  {
    hide Requests, Deleted, Dead, Phases;
    var t := Delivered(s, id, refuse, false);
    ServePreserves(s, id, refuse);
    var w := s.requests[id];
    assert Matches(s, w.key, w.guard.value.uid, w.guard.value.rv);
    assert ObjectOk(s, w.key);
    assert t.objects[w.key].pointer != Some(n);
    MovedOnIsDead(t, n);
  }

  lemma OutcomeIsKnown(s: State, id: Id, refuse: bool, p: Phase)
    requires Inv(s) && id in s.requests && PhaseOk(s, p)
    ensures Outcome(Delivered(s, id, refuse, false), id, Served(s, s.requests[id], refuse).1, p)
  {
    hide Inv, Dead;
    var fate := Served(s, s.requests[id], refuse).1;
    if (p.Prepared? || p.Committing?) && p.id == id {
      if fate.Refused? { RefusedIsDead(s, id, refuse, p.previous, p.name); }
      else if p.previous.Some? { AppliedKillsPrevious(s, id, refuse, p.previous, p.name); }
    }
    if p.FenceSent? && p.id == id && fate.Applied? && fate.rv != s.issued[p.name].baseRv {
      FencedIsDead(s, id, refuse, p.name);
    }
  }

  lemma DeliveredIsAnswered(s: State, id: Id, refuse: bool)
    requires Counters(s) && id in s.requests
    ensures Answered(Delivered(s, id, refuse, false),
                     Delivered(s, id, refuse, false).(fates := s.fates[id := Served(s, s.requests[id], refuse).1]), id)
    ensures Delivered(s, id, refuse, false).agents == s.agents
  {
  }

  lemma DeliverPreserves(s: State, id: Id, refuse: bool)
    requires Inv(s)
    ensures Preserves(s, DeliverStep(s, id, refuse, false))
  {
    hide PhaseOk, Dead, Served, Outcome, Answered, Delivered, Objects, Requests, Deleted, Counters;
    if id in s.requests && s.requests[id].sent {
      var u := Delivered(s, id, refuse, false);
      var t := u.(fates := s.fates[id := Served(s, s.requests[id], refuse).1]);
      ServePreserves(s, id, refuse);
      DeliveredIsAnswered(s, id, refuse);
      forall a | a in u.agents ensures PhaseOk(t, u.agents[a]) {
        OutcomeIsKnown(s, id, refuse, s.agents[a]);
        AnswerPhase(u, t, id, u.agents[a]);
      }
      AnswerPreserves(u, t, id);
      PreservesTwice(s, u, t);
    }
  }

  // ---- The clients ----------------------------------------------------------

  lemma NewNameIsSole(s: State, t: State, w: Request, n: Name)
    requires Objects(s) && Requests(s) && Growth(s, t, w) && n !in s.issued
    ensures Sole(t, n, s.nextId)
  {
    forall k | k in t.objects ensures t.objects[k].pointer != Some(n) { assert ObjectOk(s, k); }
    forall j | j in t.requests && j != s.nextId ensures !NamesRequest(t.requests[j], n) { assert RequestOk(s, s.requests[j]); }
  }

  /** t is s with record r under name n and the request w that publishes it. */
  ghost predicate RecordAdded(s: State, t: State, n: Name, r: Record, w: Request) {
    && (n == s.nextName || (n in s.issued && s.issued[n] == r && r.kind.Pause?))
    && w.key == r.key && w.guard == Some(Guard(r.uid, r.baseRv)) && w.edit == Point(n)
    && (r.kind.Intent? ==> w.content == if r.kind.initial then None else Some(r.content))
    && (r.kind.Pause? ==> r.ownerKey == r.key && r.ownerUid == r.uid)
    && r.uid < s.nextUid && r.ownerUid < s.nextUid && r.baseRv < s.nextRv
    && t == AddRequest(s.(records := s.records[n := r], issued := s.issued[n := r],
                          nextName := if n == s.nextName then n + 1 else s.nextName), w)
  }

  lemma RecordGrowth(s: State, t: State, n: Name, r: Record, w: Request)
    requires Counters(s) && RecordAdded(s, t, n, r, w)
    ensures Growth(s, t, w) && RequestOk(t, w)
  {
  }

  lemma RecordCounters(s: State, t: State, n: Name, r: Record, w: Request)
    requires Counters(s) && RecordAdded(s, t, n, r, w)
    ensures Counters(t)
  {
  }

  lemma RecordPreserves(s: State, t: State, n: Name, r: Record, w: Request)
    requires Inv(s) && RecordAdded(s, t, n, r, w)
    ensures Preserves(s, t) && Growth(s, t, w)
  {
    hide Counters, Objects, Requests, Deleted, Phases, Dead, RecordAdded, Growth, Preserves;
    RecordGrowth(s, t, n, r, w);
    RecordCounters(s, t, n, r, w);
    GrowthPreserves(s, t, w);
  }

  lemma NewAttempt(s: State, t: State, p: Phase, r: Record, w: Request, previous: Option<Name>)
    requires p.Read? && PhaseOk(s, p) && previous in {p.pointer, None}
    requires Counters(s) && r.kind.Intent? && r.key == p.key && r.uid == p.uid && r.baseRv == p.rv
    requires RecordAdded(s, t, s.nextName, r, w) && Sole(t, s.nextName, s.nextId)
    ensures Attempt(t, previous, s.nextName, s.nextId)
  {
    hide Dead, Sole;
  }

  lemma PreparePreserves(s: State, a: Agent, ownerKey: Key, ownerUid: Uid, content: Content)
    requires Inv(s)
    ensures Preserves(s, PrepareStep(s, a, ownerKey, ownerUid, content))
  {
    hide Dead, Sole, Attempt, Requests, Objects, Deleted, Phases, Growth, Preserves;
    StayPreserves(s);
    if a in s.agents && s.agents[a].Read? && ownerUid < s.nextUid {
      var p := s.agents[a];
      PhaseOf(s, a);
      var r := Record(Intent(p.initializing), ownerKey, ownerUid, p.key, p.uid, p.rv, content);
      var w := Request(p.key, Some(Guard(p.uid, p.rv)), Point(s.nextName), None,
                       if p.initializing then None else Some(content), false);
      var t := AddRequest(s.(records := s.records[s.nextName := r], issued := s.issued[s.nextName := r],
                             nextName := s.nextName + 1), w);
      RecordPreserves(s, t, s.nextName, r, w);
      NewNameIsSole(s, t, w, s.nextName);
      var previous := if p.initializing then None else p.pointer;
      NewAttempt(s, t, p, r, w, previous);
      PreparedFrom(s, t, a, Prepared(previous, s.nextName, p.initializing, s.nextId));
    }
  }

  /** A preserving step followed by a change of phase. */
  lemma PreparedFrom(s: State, t: State, a: Agent, p: Phase)
    requires Preserves(s, t) && PhaseOk(t, p)
    ensures Preserves(s, ToPhase(t, a, p))
  {
    hide Inv, Dead, PhaseOk;
    PhasePreserves(t, a, p);
    PreservesTwice(s, t, ToPhase(t, a, p));
  }

  lemma CapturePreparePreserves(s: State, a: Agent, n: Name, content: Content)
    requires Inv(s)
    ensures Preserves(s, CapturePrepareStep(s, a, n, content))
  {
    hide Inv, Dead, Growth, Preserves;
    StayPreserves(s);
    if a in s.agents && s.agents[a].PauseRead? {
      var p := s.agents[a];
      var r := Record(Pause, p.key, p.uid, p.key, p.uid, p.rv, content);
      if n == s.nextName || (n in s.issued && s.issued[n] == r) {
        PhaseOf(s, a);
        var w := Request(p.key, Some(Guard(p.uid, p.rv)), Point(n), None, None, false);
        var t := AddRequest(s.(records := s.records[n := r], issued := s.issued[n := r],
                               nextName := if n == s.nextName then n + 1 else s.nextName), w);
        RecordPreserves(s, t, n, r, w);
        PreparedFrom(s, t, a, PausePrepared(n, s.nextId));
      }
    }
  }

  lemma NewEdit(s: State, key: Key, w: Request)
    requires Inv(s) && key in s.objects && w.key == key && !w.sent && w.content == None
    requires var o := s.objects[key];
      && (w.guard == None || w.guard == Some(Guard(o.uid, o.rv))) && (o.pointer.Some? ==> w.guard.Some?)
      && w.edit == if o.pointer.Some? then Point(o.pointer.value) else Keep
    ensures Preserves(s, AddRequest(s, w)) && PhaseOk(AddRequest(s, w), Editing(s.nextId))
  {
    hide Dead, Deleted, Phases, Preserves;
    assert ObjectOk(s, key);
    GrowthPreserves(s, AddRequest(s, w), w);
  }

  lemma EditReadPreserves(s: State, a: Agent, key: Key, alwaysGuarded: bool)
    requires Inv(s)
    ensures Preserves(s, EditReadStep(s, a, key, alwaysGuarded))
  {
    hide Inv, Dead, PhaseOk;
    StayPreserves(s);
    if key in s.objects {
      var o := s.objects[key];
      var w := Request(key, ApplyGuard(o, alwaysGuarded), if o.pointer.Some? then Point(o.pointer.value) else Keep, None, None, false);
      NewEdit(s, key, w);
      PhasePreserves(AddRequest(s, w), a, Editing(s.nextId));
      PreservesTwice(s, AddRequest(s, w), EditReadStep(s, a, key, alwaysGuarded));
    }
  }

  lemma SendEdit(s: State, a: Agent, content: Content, edit: PointerEdit)
    requires Inv(s) && a in s.agents && s.agents[a].Editing? && s.agents[a].id in s.requests
    requires edit == Clear || edit == s.requests[s.agents[a].id].edit
    ensures var id := s.agents[a].id;
      Preserves(s, s.(requests := s.requests[id := s.requests[id].(content := Some(content), sent := true, edit := edit)]))
  {
    hide Dead, Deleted, Counters, Objects, Preserves;
    var id := s.agents[a].id;
    assert PhaseOk(s, s.agents[a]);
    assert RequestOk(s, s.requests[id]);
    EditedPreserves(s, s.(requests := s.requests[id := s.requests[id].(content := Some(content), sent := true, edit := edit)]), id);
  }

  lemma EditSendPreserves(s: State, a: Agent, content: Content, clear: bool)
    requires Inv(s)
    ensures Preserves(s, EditSendStep(s, a, content, clear))
  {
    hide Inv, Dead;
    StayPreserves(s);
    if a in s.agents && s.agents[a].Editing? && s.agents[a].id in s.requests {
      var id := s.agents[a].id;
      var w := s.requests[id];
      var edit := if clear then Clear else w.edit;
      var t := s.(requests := s.requests[id := w.(content := Some(content), sent := true, edit := edit)]);
      SendEdit(s, a, content, edit);
      IdlePreserves(t, a);
      PreservesTwice(s, t, EditSendStep(s, a, content, clear));
    }
  }

  lemma SendPreserves(s: State, id: Id)
    requires Inv(s) && id in s.requests
    ensures Preserves(s, Send(s, id))
  {
    hide Dead, Deleted, Phases, Preserves;
    assert RequestOk(s, s.requests[id]);
    EditedPreserves(s, Send(s, id), id);
  }

  lemma CommitPreserves(s: State, a: Agent)
    requires Inv(s)
    ensures Preserves(s, Next(s, Commit(a)))
  {
    hide Inv, Dead, Attempt;
    StayPreserves(s);
    if a in s.agents && s.agents[a].Prepared? && s.agents[a].id in s.requests {
      var p := s.agents[a];
      var t := Send(s, p.id);
      SendPreserves(s, p.id);
      PhaseOf(t, a);
      PhasePreserves(t, a, Committing(p.previous, p.name, p.initializing, p.id));
      PreservesTwice(s, t, Next(s, Commit(a)));
    }
  }

  lemma UnsentIsDead(s: State, a: Agent)
    requires Inv(s) && a in s.agents && s.agents[a].Prepared? && s.agents[a].id in s.requests
    ensures var t := s.(requests := s.requests - {s.agents[a].id});
      Preserves(s, t) && s.agents[a].name in t.issued && Dead(t, s.agents[a].name)
  {
    var p := s.agents[a];
    assert PhaseOk(s, p);
    var t := s.(requests := s.requests - {p.id});
    ChangePreserves(s, t, s.requests[p.id].key, None);
  }

  lemma DiscardUnusedPreserves(s: State, a: Agent)
    requires Inv(s)
    ensures Preserves(s, DiscardUnusedStep(s, a))
  {
    hide Inv, Dead;
    StayPreserves(s);
    if a in s.agents && s.agents[a].Prepared? && s.agents[a].id in s.requests && !s.requests[s.agents[a].id].sent {
      var t := s.(requests := s.requests - {s.agents[a].id});
      UnsentIsDead(s, a);
      PhasePreserves(t, a, Discarding(s.agents[a].name, None));
      PreservesTwice(s, t, DiscardUnusedStep(s, a));
    }
  }

  lemma RespondPreserves(s: State, a: Agent)
    requires Inv(s)
    ensures Preserves(s, RespondStep(s, a))
  {
    hide Dead, Objects, Requests, Deleted, Preserves;
    StayPreserves(s);
    if a in s.agents && s.agents[a].Committing? && s.agents[a].id in s.fates {
      var p := s.agents[a];
      PhaseOf(s, a);
      assert p.id !in s.requests;
      match s.fates[p.id]
      case Applied(_) => if p.previous.Some? { PhasePreserves(s, a, Discarding(p.previous.value, None)); } else { IdlePreserves(s, a); }
      case Refused => PhasePreserves(s, a, Rejected(s.issued[p.name].key, s.issued[p.name].uid, p.name, p.initializing));
    }
  }

  lemma CleanupPreserves(s: State, a: Agent)
    requires Inv(s)
    ensures Preserves(s, CleanupReadStep(s, a)) && Preserves(s, CleanupSkipStep(s, a))
  {
    hide Inv, Dead, Preserves;
    StayPreserves(s);
    if a in s.agents && s.agents[a].Rejected? {
      var p := s.agents[a];
      PhaseOf(s, a);
      PhasePreserves(s, a, Discarding(p.name, if p.initializing then Some((p.key, p.uid)) else None));
      PhasePreserves(s, a, Retrying(p.key, p.uid, p.name));
      IdlePreserves(s, a);
    }
  }

  lemma FreshReadIsOk(s: State, key: Key, initializing: bool)
    requires Inv(s) && key in s.objects
    ensures var o := s.objects[key];
      PhaseOk(s, Read(key, o.uid, o.rv, o.pointer, initializing)) && PhaseOk(s, Read(key, o.uid, o.rv, None, initializing))
      && PhaseOk(s, PauseRead(key, o.uid, o.rv))
  {
    hide Requests, Deleted, Phases;
    assert ObjectOk(s, key);
  }

  lemma RereadPreserves(s: State, a: Agent)
    requires Inv(s)
    ensures Preserves(s, RereadStep(s, a))
  {
    hide Inv, Dead, Preserves;
    StayPreserves(s);
    if a in s.agents && s.agents[a].Retrying? {
      var p := s.agents[a];
      PhaseOf(s, a);
      IdlePreserves(s, a);
      PhasePreserves(s, a, Discarding(p.name, None));
      if p.key in s.objects && s.objects[p.key].uid == p.uid {
        FreshReadIsOk(s, p.key, true);
        PhasePreserves(s, a, Read(p.key, p.uid, s.objects[p.key].rv, None, true));
      }
    }
  }

  lemma DeleteRecordPreserves(s: State, a: Agent)
    requires Inv(s)
    ensures Preserves(s, DeleteRecordStep(s, a))
  {
    hide Inv, Dead;
    StayPreserves(s);
    if a in s.agents && s.agents[a].Discarding? {
      var p := s.agents[a];
      PhaseOf(s, a);
      var t := s.(records := s.records - {p.name});
      DeletionPreserves(s, p.name);
      if p.retry.Some? { PhasePreserves(t, a, Retrying(p.retry.value.0, p.retry.value.1, p.name)); } else { IdlePreserves(t, a); }
      PreservesTwice(s, t, DeleteRecordStep(s, a));
    }
  }

  lemma WriterReadPreserves(s: State, a: Agent, key: Key, initializing: bool)
    requires Inv(s)
    ensures Preserves(s, Next(s, WriterRead(a, key, initializing)))
  {
    hide Inv, Dead, PhaseOk, Preserves;
    StayPreserves(s);
    if key in s.objects {
      FreshReadIsOk(s, key, initializing);
      PhasePreserves(s, a, Read(key, s.objects[key].uid, s.objects[key].rv, s.objects[key].pointer, initializing));
    }
  }

  lemma CaptureReadPreserves(s: State, a: Agent, key: Key)
    requires Inv(s)
    ensures Preserves(s, Next(s, CaptureRead(a, key)))
  {
    hide Inv, Dead, PhaseOk, Preserves;
    StayPreserves(s);
    if key in s.objects {
      FreshReadIsOk(s, key, false);
      PhasePreserves(s, a, PauseRead(key, s.objects[key].uid, s.objects[key].rv));
    }
  }

  lemma CaptureCheckPreserves(s: State, a: Agent)
    requires Inv(s)
    ensures Preserves(s, CaptureCheckStep(s, a))
  {
    hide Inv, Dead, Preserves;
    StayPreserves(s);
    IdlePreserves(s, a);
    if a in s.agents && s.agents[a].PausePrepared? { PhasePreserves(s, a, PauseChecked(s.agents[a].name, s.agents[a].id)); }
  }

  lemma CaptureSendPreserves(s: State, a: Agent)
    requires Inv(s)
    ensures Preserves(s, Next(s, CaptureSend(a)))
  {
    hide Inv, Dead;
    StayPreserves(s);
    if a in s.agents && s.agents[a].PauseChecked? && s.agents[a].id in s.requests {
      var t := Send(s, s.agents[a].id);
      SendPreserves(s, s.agents[a].id);
      IdlePreserves(t, a);
      PreservesTwice(s, t, ToIdle(t, a));
    }
  }

  lemma CleanupPausePreserves(s: State, a: Agent, n: Name)
    requires Inv(s)
    ensures Preserves(s, CleanupPauseStep(s, a, n))
  {
    hide Dead, Preserves;
    StayPreserves(s);
    if CleanupPauseStep(s, a, n) != s {
      MovedOnIsDead(s, n);
      PhasePreserves(s, a, Discarding(n, None));
    }
  }

  // ---- The collector --------------------------------------------------------

  lemma CollectPreserves(s: State, a: Agent, n: Name)
    requires Inv(s)
    ensures Preserves(s, CollectStep(s, a, n))
  {
    hide Inv, Dead, Preserves;
    StayPreserves(s);
    PhasePreserves(s, a, Collecting(n));
  }

  lemma CollectTargetPreserves(s: State, a: Agent)
    requires Inv(s)
    ensures Preserves(s, CollectTargetStep(s, a))
  {
    hide Dead, Deleted, Preserves;
    StayPreserves(s);
    if a in s.agents && s.agents[a].Collecting? && s.agents[a].name in s.issued {
      var n := s.agents[a].name;
      IdlePreserves(s, a);
      PhasePreserves(s, a, Fencing(n));
      if !PointsTo(s, s.issued[n].key, n) && !TargetMatches(s, n) {
        MovedOnIsDead(s, n);
        PhasePreserves(s, a, Discarding(n, None));
      }
    }
  }

  lemma NewFence(s: State, n: Name, w: Request)
    requires Inv(s) && n in s.issued
    requires w == Request(s.issued[n].key, Some(Guard(s.issued[n].uid, s.issued[n].baseRv)), Keep, Some(n), None, true)
    ensures Preserves(s, AddRequest(s, w)) && PhaseOk(AddRequest(s, w), FenceSent(n, s.nextId))
  {
    hide Dead, Deleted, Phases, Preserves, Objects, Requests;
    GrowthPreserves(s, AddRequest(s, w), w);
  }

  lemma FencePreserves(s: State, a: Agent)
    requires Inv(s)
    ensures Preserves(s, FenceStep(s, a))
  {
    hide Inv, Dead, PhaseOk;
    StayPreserves(s);
    if a in s.agents && s.agents[a].Fencing? && s.agents[a].name in s.issued {
      var n := s.agents[a].name;
      var w := Request(s.issued[n].key, Some(Guard(s.issued[n].uid, s.issued[n].baseRv)), Keep, Some(n), None, true);
      NewFence(s, n, w);
      PhasePreserves(AddRequest(s, w), a, FenceSent(n, s.nextId));
      PreservesTwice(s, AddRequest(s, w), FenceStep(s, a));
    }
  }

  lemma FenceRespondPreserves(s: State, a: Agent)
    requires Inv(s)
    ensures Preserves(s, FenceRespondStep(s, a))
  {
    hide Dead, Objects, Requests, Deleted, Preserves;
    StayPreserves(s);
    IdlePreserves(s, a);
    if a in s.agents && s.agents[a].FenceSent? && s.agents[a].id in s.fates {
      var p := s.agents[a];
      PhaseOf(s, a);
      if s.fates[p.id].Applied? && s.fates[p.id].rv != s.issued[p.name].baseRv { PhasePreserves(s, a, Discarding(p.name, None)); }
    }
  }

  // ---- The environment ------------------------------------------------------

  lemma EnvironmentPreserves(s: State, action: Action)
    requires Inv(s) && (action.CreateObject? || action.DeleteObject? || action.ExternalEdit?)
    ensures Preserves(s, Next(s, action))
  {
    hide Dead, PhaseOk, Requests, Objects, Deleted, Preserves;
    StayPreserves(s);
    if Next(s, action) != s { ChangePreserves(s, Next(s, action), action.key, None); }
  }

  lemma OwnerCollectionPreserves(s: State, n: Name)
    requires Inv(s)
    ensures Preserves(s, Next(s, OwnerGarbageCollection(n)))
  {
    hide Dead, PhaseOk, Requests, Objects, Deleted, Preserves;
    StayPreserves(s);
    if n in s.records && !OwnerAlive(s, s.records[n]) { DeletionPreserves(s, n); }
  }

  // ---- Any action -----------------------------------------------------------

  lemma WriterPreserves(s: State, action: Action)
    requires Inv(s)
    requires action.WriterRead? || action.Prepare? || action.DiscardUnused? || action.Commit? || action.Respond?
          || action.CleanupRead? || action.CleanupSkip? || action.Reread? || action.DeleteRecord?
    ensures Preserves(s, Next(s, action))
  {
    hide Inv, Dead, Preserves;
    match action
    case WriterRead(a, key, initializing) => WriterReadPreserves(s, a, key, initializing);
    case Prepare(a, ownerKey, ownerUid, content) => PreparePreserves(s, a, ownerKey, ownerUid, content);
    case DiscardUnused(a) => DiscardUnusedPreserves(s, a);
    case Commit(a) => CommitPreserves(s, a);
    case Respond(a) => RespondPreserves(s, a);
    case CleanupRead(a) => CleanupPreserves(s, a);
    case CleanupSkip(a) => CleanupPreserves(s, a);
    case Reread(a) => RereadPreserves(s, a);
    case DeleteRecord(a) => DeleteRecordPreserves(s, a);
  }

  lemma SessionPreserves(s: State, action: Action)
    requires Inv(s)
    requires action.EditRead? || action.EditSend? || action.CaptureRead? || action.CapturePrepare? || action.CaptureCheck?
          || action.CaptureSend? || action.CleanupPause?
    ensures Preserves(s, Next(s, action))
  {
    hide Inv, Dead, Preserves;
    match action
    case EditRead(a, key, alwaysGuarded) => EditReadPreserves(s, a, key, alwaysGuarded);
    case EditSend(a, content, clear) => EditSendPreserves(s, a, content, clear);
    case CaptureRead(a, key) => CaptureReadPreserves(s, a, key);
    case CapturePrepare(a, n, content) => CapturePreparePreserves(s, a, n, content);
    case CaptureCheck(a) => CaptureCheckPreserves(s, a);
    case CaptureSend(a) => CaptureSendPreserves(s, a);
    case CleanupPause(a, n) => CleanupPausePreserves(s, a, n);
  }

  lemma OtherPreserves(s: State, action: Action)
    requires Inv(s) && !(action.Deliver? && action.duplicate)
    requires action.Collect? || action.CollectTarget? || action.Fence? || action.FenceRespond?
          || action.OwnerGarbageCollection? || action.Deliver? || action.Crash?
    ensures Preserves(s, Next(s, action))
  {
    hide Inv, Dead, Preserves;
    match action
    case Collect(a, n) => CollectPreserves(s, a, n);
    case CollectTarget(a) => CollectTargetPreserves(s, a);
    case Fence(a) => FencePreserves(s, a);
    case FenceRespond(a) => FenceRespondPreserves(s, a);
    case OwnerGarbageCollection(n) => OwnerCollectionPreserves(s, n);
    case Deliver(id, refuse, _) => DeliverPreserves(s, id, refuse);
    case Crash(a) => IdlePreserves(s, a);
  }

  lemma NextPreserves(s: State, action: Action)
    requires Inv(s) && !(action.Deliver? && action.duplicate)
    ensures Preserves(s, Next(s, action))
  {
    hide Inv, Dead, Preserves, Next;
    if action.EditRead? || action.EditSend? || action.CaptureRead? || action.CapturePrepare? || action.CaptureCheck?
       || action.CaptureSend? || action.CleanupPause? {
      SessionPreserves(s, action);
    } else if action.Collect? || action.CollectTarget? || action.Fence? || action.FenceRespond?
       || action.OwnerGarbageCollection? || action.Deliver? || action.Crash? {
      OtherPreserves(s, action);
    } else if action.CreateObject? || action.DeleteObject? || action.ExternalEdit? {
      EnvironmentPreserves(s, action);
    } else {
      WriterPreserves(s, action);
    }
  }

  lemma {:induction false} RunPreserves(s: State, actions: seq<Action>)
    requires Inv(s) && AtMostOnce(actions)
    ensures Preserves(s, Run(s, actions))
    decreases |actions|
  {
    hide Inv, Dead, Next;
    StayPreserves(s);
    if actions != [] {
      NextPreserves(s, actions[0]);
      assert forall i :: 0 <= i < |actions[1..]| ==> actions[1..][i] == actions[i + 1];
      RunPreserves(Next(s, actions[0]), actions[1..]);
      PreservesTwice(s, Next(s, actions[0]), Run(s, actions));
    }
  }
}
