/** The inductive invariant of the publication protocol and its preservation by every action. */
module IntentInvariant {
  import opened Options
  import opened IntentProtocol

  ghost predicate NamesRequest(w: Request, n: Name) { w.edit == Point(n) }

  ghost predicate RequestMatches(s: State, w: Request) {
    w.guard.Some? && Matches(s, w.key, w.guard.value.uid, w.guard.value.rv)
  }

  ghost predicate TargetMatches(s: State, n: Name)
    requires n in s.issued
  {
    Matches(s, s.issued[n].key, s.issued[n].uid, s.issued[n].baseRv)
  }

  ghost predicate Unreferenced(s: State, n: Name) {
    forall k :: k in s.objects ==> s.objects[k].pointer != Some(n)
  }

  /** Nothing points to n, and nothing that is built, in flight or repeatable can still make anything point to n. */
  ghost predicate Dead(s: State, n: Name)
    requires n in s.issued
  {
    && Unreferenced(s, n)
    && (forall id :: id in s.requests && NamesRequest(s.requests[id], n) ==> !RequestMatches(s, s.requests[id]))
    && (s.issued[n].kind.Pause? ==> !TargetMatches(s, n))
  }

  /** n is unpublished, and only the request id can publish it. */
  ghost predicate Sole(s: State, n: Name, id: Id) {
    Unreferenced(s, n) && forall j :: j in s.requests && j != id ==> !NamesRequest(s.requests[j], n)
  }

  ghost predicate Counters(s: State) {
    && (forall k :: k in s.objects ==> s.objects[k].uid < s.nextUid && s.objects[k].rv < s.nextRv)
    && (forall n :: n in s.issued ==>
          n < s.nextName && s.issued[n].uid < s.nextUid && s.issued[n].ownerUid < s.nextUid && s.issued[n].baseRv < s.nextRv)
    && (forall n :: n in s.issued && s.issued[n].kind.Pause? ==>
          s.issued[n].ownerKey == s.issued[n].key && s.issued[n].ownerUid == s.issued[n].uid)
    && (forall n :: n in s.records ==> n in s.issued && s.records[n] == s.issued[n])
    && (forall id :: id in s.requests ==> id < s.nextId && id !in s.fates)
    && (forall id :: id in s.fates ==> id < s.nextId)
  }

  ghost predicate ObjectOk(s: State, k: Key)
    requires k in s.objects
  {
    var o := s.objects[k];
    o.pointer.Some? ==>
      && o.pointer.value in s.issued
      && s.issued[o.pointer.value].key == k
      && s.issued[o.pointer.value].uid == o.uid
      && s.issued[o.pointer.value].baseRv < o.rv
  }

  ghost predicate Objects(s: State) {
    forall k :: k in s.objects ==> ObjectOk(s, k)
  }

  /** A request that sets a pointer publishes the record against its one version, or carries what it read later. */
  ghost predicate RequestOk(s: State, w: Request) {
    && (w.guard.Some? ==> w.guard.value.uid < s.nextUid && w.guard.value.rv < s.nextRv)
    && (w.edit.Point? ==>
      && w.guard.Some?
      && w.edit.name in s.issued
      && var r := s.issued[w.edit.name];
      && r.key == w.key
      && r.uid == w.guard.value.uid
      && r.baseRv <= w.guard.value.rv
      && (r.baseRv == w.guard.value.rv && r.kind.Intent? ==> w.content == if r.kind.initial then None else Some(r.content))
      && (r.baseRv < w.guard.value.rv ==> RequestMatches(s, w) ==> s.objects[w.key].pointer == Some(w.edit.name)))
  }

  ghost predicate Requests(s: State) {
    forall id :: id in s.requests ==> RequestOk(s, s.requests[id])
  }

  ghost predicate Deleted(s: State) {
    forall n :: n in s.issued && n !in s.records && OwnerAlive(s, s.issued[n]) ==> Dead(s, n)
  }

  ghost predicate Earlier(s: State, previous: Option<Name>, key: Key, uid: Uid, rv: Rv) {
    previous.Some? ==>
      && previous.value in s.issued
      && s.issued[previous.value].key == key
      && s.issued[previous.value].uid == uid
      && s.issued[previous.value].baseRv < rv
  }

  ghost predicate Attempt(s: State, previous: Option<Name>, n: Name, id: Id) {
    && n in s.issued && s.issued[n].kind.Intent? && id < s.nextId
    && var r := s.issued[n];
    && Earlier(s, previous, r.key, r.uid, r.baseRv)
    && previous != Some(n)
    && (TargetMatches(s, n) && previous.Some? ==> s.objects[r.key].pointer == previous)
    && (id in s.requests ==>
      && Sole(s, n, id)
      && s.requests[id].key == r.key
      && s.requests[id].guard == Some(Guard(r.uid, r.baseRv))
      && (s.requests[id].edit == Point(n) || s.requests[id].edit == Clear))
    && (id !in s.requests && id in s.fates && s.fates[id].Refused? ==> Dead(s, n))
    && (id !in s.requests && id in s.fates && s.fates[id].Applied? && previous.Some? ==> Dead(s, previous.value))
  }

  ghost predicate PhaseOk(s: State, p: Phase) {
    match p
    case Read(key, uid, rv, pointer, _) =>
      && uid < s.nextUid && rv < s.nextRv
      && Earlier(s, pointer, key, uid, rv)
      && (Matches(s, key, uid, rv) ==> s.objects[key].pointer == pointer || pointer.None?)
    case Prepared(previous, n, _, id) => Attempt(s, previous, n, id)
    case Committing(previous, n, _, id) => Attempt(s, previous, n, id)
    case Rejected(_, _, n, _) => n in s.issued && Dead(s, n)
    case Retrying(_, _, n) => n in s.issued && Dead(s, n)
    case Discarding(n, _) => n in s.issued && Dead(s, n)
    case Editing(id) =>
      id < s.nextId && (id in s.requests && s.requests[id].edit.Point? ==>
        && s.requests[id].guard.Some? && s.requests[id].edit.name in s.issued
        && s.issued[s.requests[id].edit.name].baseRv < s.requests[id].guard.value.rv)
    case PauseRead(_, uid, rv) => uid < s.nextUid && rv < s.nextRv
    case PausePrepared(_, _) => true
    case PauseChecked(_, _) => true
    case Collecting(n) => true
    case Fencing(n) => true
    case FenceSent(n, id) =>
        && n in s.issued && id < s.nextId
        && (id in s.requests ==>
          && s.requests[id].key == s.issued[n].key
          && s.requests[id].guard == Some(Guard(s.issued[n].uid, s.issued[n].baseRv))
          && !s.requests[id].edit.Point?)
        && (id !in s.requests && id in s.fates && s.fates[id].Applied? && s.fates[id].rv != s.issued[n].baseRv ==> Dead(s, n))
  }

  ghost predicate Phases(s: State) {
    forall a :: a in s.agents ==> PhaseOk(s, s.agents[a])
  }

  ghost predicate Inv(s: State) {
    Counters(s) && Objects(s) && Requests(s) && Deleted(s) && Phases(s)
  }

  /** What every step must give: the invariant again, and no record that was dead comes back to life. */
  ghost predicate Preserves(s: State, t: State) {
    Inv(t) && forall n :: n in s.issued && Dead(s, n) ==> n in t.issued && Dead(t, n)
  }

  lemma PreservesTwice(s: State, t: State, u: State)
    requires Preserves(s, t) && Preserves(t, u)
    ensures Preserves(s, u)
  {
    hide Inv, Dead;
  }

  // ---- Changing one object and dropping requests ----------------------------

  /**
    t is s with at most the object at k changed and some requests gone. A changed object has a new version;
    its pointer is its old one, none, or `hot`.
   */
  ghost predicate ObjectChange(s: State, t: State, k: Key, hot: Option<Name>) {
    && t == s.(objects := t.objects, requests := t.requests, nextUid := t.nextUid, nextRv := t.nextRv)
    && s.nextUid <= t.nextUid && s.nextRv <= t.nextRv
    && (forall id :: id in t.requests ==> id in s.requests && t.requests[id] == s.requests[id])
    && (forall j :: j != k ==> (j in t.objects <==> j in s.objects))
    && (forall j :: j != k && j in t.objects ==> t.objects[j] == s.objects[j])
    && (k in t.objects && !(k in s.objects && t.objects[k] == s.objects[k]) ==>
      && s.nextRv == t.objects[k].rv < t.nextRv
      && t.objects[k].uid < t.nextUid
      && (t.objects[k].uid < s.nextUid ==> k in s.objects && t.objects[k].uid == s.objects[k].uid)
      && (t.objects[k].pointer.Some? && t.objects[k].pointer != hot ==>
        k in s.objects && t.objects[k].uid == s.objects[k].uid && t.objects[k].pointer == s.objects[k].pointer))
  }

  /** The name that becomes newly referenced: its record targets k, and nobody takes it for dead or unsent. */
  ghost predicate HotOk(s: State, t: State, k: Key, hot: Option<Name>) {
    hot.Some? ==>
      && hot.value in s.issued && !Dead(s, hot.value)
      && (forall id :: id in t.requests ==> !Sole(s, hot.value, id))
      && (k in t.objects && t.objects[k].pointer == hot ==>
        s.issued[hot.value].key == k && s.issued[hot.value].uid == t.objects[k].uid)
  }

  lemma ChangeMatches(s: State, t: State, k: Key, hot: Option<Name>, key: Key, uid: Uid, rv: Rv)
    requires ObjectChange(s, t, k, hot) && rv < s.nextRv && Matches(t, key, uid, rv)
    ensures Matches(s, key, uid, rv) && t.objects[key] == s.objects[key]
  {
  }

  lemma ChangeUnreferenced(s: State, t: State, k: Key, hot: Option<Name>, n: Name)
    requires ObjectChange(s, t, k, hot) && Unreferenced(s, n) && hot != Some(n)
    ensures Unreferenced(t, n)
  {
    forall j | j in t.objects ensures t.objects[j].pointer != Some(n) {
      if j == k && t.objects[k].pointer.Some? && t.objects[k].pointer != hot { assert s.objects[k].pointer != Some(n); }
    }
  }

  lemma ChangeDead(s: State, t: State, k: Key, hot: Option<Name>, n: Name)
    requires Counters(s) && Requests(s) && ObjectChange(s, t, k, hot) && n in s.issued && Dead(s, n) && hot != Some(n)
    ensures Dead(t, n)
  {
    ChangeUnreferenced(s, t, k, hot, n);
    forall id | id in t.requests && NamesRequest(t.requests[id], n) ensures !RequestMatches(t, t.requests[id]) {
      var w := t.requests[id];
      assert RequestOk(s, s.requests[id]);
      if RequestMatches(t, w) { ChangeMatches(s, t, k, hot, w.key, w.guard.value.uid, w.guard.value.rv); }
    }
    if s.issued[n].kind.Pause? && TargetMatches(t, n) {
      ChangeMatches(s, t, k, hot, s.issued[n].key, s.issued[n].uid, s.issued[n].baseRv);
    }
  }

  lemma ChangeAttempt(s: State, t: State, k: Key, hot: Option<Name>, previous: Option<Name>, n: Name, id: Id)
    requires Counters(s) && Requests(s) && ObjectChange(s, t, k, hot) && HotOk(s, t, k, hot)
    requires Attempt(s, previous, n, id)
    ensures Attempt(t, previous, n, id)
  {
    var r := s.issued[n];
    if TargetMatches(t, n) { ChangeMatches(s, t, k, hot, r.key, r.uid, r.baseRv); }
    if id in t.requests { ChangeUnreferenced(s, t, k, hot, n); }
    if id !in s.requests && id in s.fates {
      if s.fates[id].Refused? { ChangeDead(s, t, k, hot, n); }
      if s.fates[id].Applied? && previous.Some? { ChangeDead(s, t, k, hot, previous.value); }
    }
  }

  lemma ChangePhase(s: State, t: State, k: Key, hot: Option<Name>, p: Phase)
    requires Counters(s) && Requests(s) && ObjectChange(s, t, k, hot) && HotOk(s, t, k, hot) && PhaseOk(s, p)
    ensures PhaseOk(t, p)
  {
    match p
    case Read(key, uid, rv, pointer, _) =>
      if Matches(t, key, uid, rv) { ChangeMatches(s, t, k, hot, key, uid, rv); }
    case Prepared(previous, n, _, id) => ChangeAttempt(s, t, k, hot, previous, n, id);
    case Committing(previous, n, _, id) => ChangeAttempt(s, t, k, hot, previous, n, id);
    case Rejected(_, _, n, _) => ChangeDead(s, t, k, hot, n);
    case Retrying(_, _, n) => ChangeDead(s, t, k, hot, n);
    case Discarding(n, _) => ChangeDead(s, t, k, hot, n);
    case FenceSent(n, id) => if Dead(s, n) { ChangeDead(s, t, k, hot, n); }
    case _ =>
  }

  lemma ChangeRequests(s: State, t: State, k: Key, hot: Option<Name>)
    requires Counters(s) && Requests(s) && ObjectChange(s, t, k, hot)
    ensures Requests(t)
  {
    forall id | id in t.requests ensures RequestOk(t, t.requests[id]) {
      var w := t.requests[id];
      assert RequestOk(s, s.requests[id]);
      if RequestMatches(t, w) { ChangeMatches(s, t, k, hot, w.key, w.guard.value.uid, w.guard.value.rv); }
    }
  }

  lemma ChangeObjects(s: State, t: State, k: Key, hot: Option<Name>)
    requires Counters(s) && Objects(s) && ObjectChange(s, t, k, hot) && HotOk(s, t, k, hot)
    ensures Counters(t) && Objects(t)
    ensures forall n :: n in t.issued && OwnerAlive(t, t.issued[n]) ==> OwnerAlive(s, s.issued[n])
  {
    forall j | j in t.objects ensures ObjectOk(t, j) {
      if j in s.objects { assert ObjectOk(s, j); }
    }
  }

  lemma ChangePreserves(s: State, t: State, k: Key, hot: Option<Name>)
    requires Inv(s) && ObjectChange(s, t, k, hot) && HotOk(s, t, k, hot)
    ensures Preserves(s, t)
  {
    hide Dead, PhaseOk, Requests, Counters, Objects, OwnerAlive;
    ChangeRequests(s, t, k, hot);
    ChangeObjects(s, t, k, hot);
    forall n | n in s.issued && Dead(s, n) ensures Dead(t, n) {
      ChangeDead(s, t, k, hot, n);
    }
    forall a | a in t.agents ensures PhaseOk(t, t.agents[a]) {
      ChangePhase(s, t, k, hot, s.agents[a]);
    }
  }

  // ---- Changing neither objects, requests, fates nor the names issued --------

  ghost predicate SameWorld(s: State, t: State) {
    && t == s.(records := t.records, agents := t.agents, nextUid := t.nextUid, nextRv := t.nextRv)
    && s.nextUid <= t.nextUid && s.nextRv <= t.nextRv
  }

  lemma FrameDead(s: State, t: State, n: Name)
    requires SameWorld(s, t) && n in s.issued && Dead(s, n)
    ensures Dead(t, n)
  {
    forall id | id in t.requests && NamesRequest(t.requests[id], n) ensures !RequestMatches(t, t.requests[id]) {
      assert !RequestMatches(s, s.requests[id]);
    }
  }

  lemma FrameAttempt(s: State, t: State, previous: Option<Name>, n: Name, id: Id)
    requires SameWorld(s, t) && Attempt(s, previous, n, id)
    ensures Attempt(t, previous, n, id)
  {
    if id in s.requests {
      assert Sole(t, n, id);
    } else if id in s.fates {
      if s.fates[id].Refused? { FrameDead(s, t, n); }
      if s.fates[id].Applied? && previous.Some? { FrameDead(s, t, previous.value); }
    }
  }

  lemma FramePhase(s: State, t: State, p: Phase)
    requires SameWorld(s, t) && PhaseOk(s, p)
    ensures PhaseOk(t, p)
  {
    match p
    case Prepared(previous, n, _, id) => FrameAttempt(s, t, previous, n, id);
    case Committing(previous, n, _, id) => FrameAttempt(s, t, previous, n, id);
    case Rejected(_, _, n, _) => FrameDead(s, t, n);
    case Retrying(_, _, n) => FrameDead(s, t, n);
    case Discarding(n, _) => FrameDead(s, t, n);
    case FenceSent(n, id) => if Dead(s, n) { FrameDead(s, t, n); }
    case _ =>
  }

  /** Records may go only when they are dead or their owner is gone; phases may change only to good ones. */
  lemma FramePreserves(s: State, t: State)
    requires Inv(s) && SameWorld(s, t)
    requires t.records.Keys <= s.records.Keys && forall n :: n in t.records ==> t.records[n] == s.records[n]
    requires forall n :: n in s.records && n !in t.records && OwnerAlive(s, s.records[n]) ==> Dead(s, n)
    requires forall a :: a in t.agents ==> PhaseOk(s, t.agents[a])
    ensures Preserves(s, t)
  {
    hide Dead, PhaseOk;
    forall k | k in t.objects ensures ObjectOk(t, k) { assert ObjectOk(s, k); }
    forall id | id in t.requests ensures RequestOk(t, t.requests[id]) { assert RequestOk(s, s.requests[id]); }
    forall n | n in s.issued && Dead(s, n) ensures Dead(t, n) {
      FrameDead(s, t, n);
    }
    assert forall n :: n in t.issued && OwnerAlive(t, t.issued[n]) ==> OwnerAlive(s, s.issued[n]);
    forall a | a in t.agents ensures PhaseOk(t, t.agents[a]) { FramePhase(s, t, t.agents[a]); }
  }
}
