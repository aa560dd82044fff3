/** What every run of the pause machine keeps. */
module PauseSafety {
  import opened Options
  import opened PauseMachine

  // ---- The invariant --------------------------------------------------------

  /** One version: a session carries the marker. */
  ghost predicate MidOk(m: Mid) { m.session.Some? ==> m.paused }

  /** A later version of the same generation holds the same overrides. */
  ghost predicate Ordered(a: Mid, b: Mid) {
    a.generation <= b.generation && (a.generation == b.generation ==> a.overrides == b.overrides)
  }

  ghost predicate Versions(s: State) {
    && (forall n :: 0 <= n < |s.versions| ==> MidOk(s.versions[n]))
    && (forall i, j :: 0 <= i <= j < |s.versions| ==> Ordered(s.versions[i], s.versions[j]))
  }

  /** While a session is open, every version the cache may still show is suspended or marked. */
  ghost predicate CacheSees(s: State)
    requires WellFormed(s)
  {
    Last(s).session.Some? ==> forall n :: s.cache <= n < |s.versions| ==> s.versions[n].suspend || s.versions[n].paused
  }

  predicate InProgress(p: Phase) { p.Working? || p.Owned? || p.Finalizing? || p.Finalized? }

  ghost predicate PhaseOk(s: State)
    requires WellFormed(s)
  {
    && (InProgress(s.phase) ==> !Copy(s).suspend)
    && (s.phase.Finalized? ==> Last(s).session.None?)
    && (s.phase.Capturing? ==> Copy(s).suspend && s.phase.snapshot.base == s.phase.mid)
    && (s.phase.Owned? ==> OwnerOk(s, s.phase.mid, s.phase.owner))
    && (s.phase.Merging? ==> Copy(s).policy.MergePolicy?)
    && (s.phase.Adopting? ==> Copy(s).session.Some? && Copy(s).policy.MergePolicy?)
    && (s.phase.Completed? ==>
          Copy(s).session.Some? && Last(s).overrides == AdoptedFrom(Copy(s).session.value.snapshot, s.phase.spec))
  }

  /** The owner version a write relies on was open for writing, with the overrides the desired state was rendered from. */
  ghost predicate OwnerOk(s: State, copy: nat, owner: nat) {
    && copy < |s.versions| && owner < |s.versions|
    && !WriteSuspended(s.versions[owner])
    && s.versions[owner].generation == s.versions[copy].generation
    && s.versions[owner].overrides == s.versions[copy].overrides
  }

  ghost predicate WriteOk(s: State, w: LiveWrite) {
    && OwnerOk(s, w.copy, w.owner)
    && (w.target.Update? ==> w.target.base < |s.lives| && s.lives[w.target.base].Some? && !s.lives[w.target.base].value.deleting)
    && (!w.target.Child? ==> Verified(s.versions[w.owner], if w.target.Update? then s.lives[w.target.base] else None))
  }

  ghost predicate PendingOk(s: State, w: MidWrite)
    requires WellFormed(s)
  {
    && w.base < |s.versions| && w.copy < |s.versions|
    && MidOk(w.next)
    && Ordered(s.versions[w.base], w.next)
    && (SnapshotOf(w.next) != SnapshotOf(s.versions[w.base]) ==> w.edit.Publish? || w.edit.Clear?)
    && (w.edit.Clear? ==> w.next.session.None? && SnapshotOf(s.versions[w.copy]) == SnapshotOf(s.versions[w.base]))
    && (w.edit.Publish? ==> w.base <= s.cache && s.versions[w.base].suspend && s.versions[w.base].session.None?)
    && (s.phase.Completed? && w.base == Newest(s) ==> w.next.overrides == s.versions[w.base].overrides)
  }

  ghost predicate Inv(s: State) {
    && WellFormed(s)
    && Versions(s)
    && CacheSees(s)
    && PhaseOk(s)
    && (forall w :: w in s.pending ==> PendingOk(s, w))
    && (forall w :: w in s.flights ==> WriteOk(s, w))
    && (forall w :: w in s.log ==> WriteOk(s, w))
  }

  lemma InitInv()
    ensures Inv(INIT)
  {
  }

  // ---- Growing the two histories --------------------------------------------

  /** t continues the histories of s. */
  ghost predicate Extends(s: State, t: State) {
    s.versions <= t.versions && s.lives <= t.lives
  }

  lemma WriteStays(s: State, t: State, w: LiveWrite)
    requires Extends(s, t) && WriteOk(s, w)
    ensures WriteOk(t, w)
  {
  }

  /** What appending one version needs. */
  lemma AppendPreserves(s: State, m: Mid, phase: Phase, pending: set<MidWrite>)
    requires Inv(s) && MidOk(m) && Ordered(Last(s), m) && pending <= s.pending
    requires var t := Append(s, m).(phase := phase, pending := pending);
      WellFormed(t) && CacheSees(t) && PhaseOk(t)
    ensures Inv(Append(s, m).(phase := phase, pending := pending))
  {
    hide CacheSees, PhaseOk, MidOk, WriteOk;
    var t := Append(s, m).(phase := phase, pending := pending);
    OrderedAppend(s, m);
    forall w | w in t.pending ensures PendingOk(t, w) { assert PendingOk(s, w); }
    forall w | w in t.flights || w in t.log ensures WriteOk(t, w) { WriteStays(s, t, w); }
  }

  lemma OrderedAppend(s: State, m: Mid)
    requires Inv(s) && MidOk(m) && Ordered(Last(s), m)
    ensures Versions(Append(s, m))
  {
    hide CacheSees, PhaseOk, PendingOk, WriteOk, MidOk;
    var t := Append(s, m);
    forall i, j | 0 <= i <= j < |t.versions| ensures Ordered(t.versions[i], t.versions[j]) {
      if i < j == |s.versions| { assert Ordered(s.versions[i], Last(s)); }
    }
  }

  /** A change that touches neither the histories nor the set of pending writes. */
  lemma PhasePreserves(s: State, phase: Phase, cache: nat)
    requires Inv(s) && s.cache <= cache && !phase.Completed?
    requires WellFormed(s.(phase := phase, cache := cache)) && PhaseOk(s.(phase := phase, cache := cache))
    ensures Inv(s.(phase := phase, cache := cache))
  {
    hide PhaseOk, MidOk;
    var t := s.(phase := phase, cache := cache);
    forall w | w in t.pending ensures PendingOk(t, w) { assert PendingOk(s, w); }
    forall w | w in t.flights || w in t.log ensures WriteOk(t, w) { WriteStays(s, t, w); }
  }

  // ---- Users and the outside world ------------------------------------------

  lemma UserEditPreserves(s: State, changeSpec: bool, suspend: bool, policy: Policy)
    requires Inv(s)
    ensures Inv(Next(s, UserEdit(changeSpec, suspend, policy)))
  {
    var t := Next(s, UserEdit(changeSpec, suspend, policy));
    var m := Last(t);
    assert MidOk(Last(s));
    AppendPreserves(s, m, s.phase, s.pending);
  }

  lemma LivePreserves(s: State, t: State)
    requires Inv(s) && s.lives <= t.lives && t == s.(lives := t.lives, nextUid := t.nextUid)
    ensures Inv(t)
  {
    hide MidOk;
    forall w | w in t.pending ensures PendingOk(t, w) { assert PendingOk(s, w); }
    forall w | w in t.flights || w in t.log ensures WriteOk(t, w) { WriteStays(s, t, w); }
  }

  // ---- The controller's writes to the Middleware -----------------------------

  /** What one write may do to the version it is computed from. */
  ghost predicate EditOk(s: State, e: Edit, next: Mid)
    requires WellFormed(s)
  {
    && MidOk(next)
    && Ordered(Last(s), next)
    && (SnapshotOf(next) != SnapshotOf(Last(s)) ==> e.Publish? || e.Clear?)
    && (e.Clear? ==> next.session.None? && !s.phase.Idle? && SnapshotOf(Copy(s)) == SnapshotOf(Last(s)))
    && (e.Publish? ==> s.cache == Newest(s) && Last(s).suspend && Last(s).session.None?)
    && (s.phase.Completed? ==> next.overrides == Last(s).overrides)
  }

  lemma CopyIsOrdered(s: State)
    requires Inv(s) && !s.phase.Idle?
    ensures MidOk(Last(s)) && Ordered(Copy(s), Last(s))
  {
    hide MidOk, Ordered, CacheSees, PhaseOk, PendingOk, WriteOk;
  }

  lemma StatusIsOk(s: State)
    requires Inv(s) && Edited(s, Status).Some?
    ensures EditOk(s, Status, Edited(s, Status).value)
  {
    CopyIsOrdered(s);
    if Last(s).session.Some? && !s.phase.Finalized? { assert Copy(s) == s.versions[s.cache]; }
  }

  lemma CompleteIsOk(s: State, e: Edit)
    requires Inv(s) && (e.Complete? || e.Record?) && Edited(s, e).Some?
    ensures EditOk(s, e, Edited(s, e).value)
  {
    hide CacheSees, PendingOk, WriteOk, Versions;
    CopyIsOrdered(s);
  }

  lemma EditIsOk(s: State, e: Edit)
    requires Inv(s) && Edited(s, e).Some?
    ensures !s.phase.Idle? && EditOk(s, e, Edited(s, e).value)
  {
    if e.Status? {
      StatusIsOk(s);
    } else if e.Complete? || e.Record? {
      CompleteIsOk(s, e);
    } else {
      hide CacheSees, PendingOk, WriteOk, Versions;
      CopyIsOrdered(s);
    }
  }

  /** A version on top of an open session keeps the cache honest. */
  lemma CacheSeesAppend(s: State, m: Mid, phase: Phase, pending: set<MidWrite>)
    requires Inv(s) && MidOk(m) && WellFormed(Append(s, m).(phase := phase, pending := pending))
    requires m.session.Some? && Last(s).session.None? ==> s.cache == Newest(s) && Last(s).suspend
    ensures CacheSees(Append(s, m).(phase := phase, pending := pending))
  {
    hide PhaseOk, PendingOk, WriteOk, Versions;
  }

  lemma AfterIsOk(s: State, e: Edit)
    requires Inv(s) && Edited(s, e).Some?
    ensures var t := Append(s, Edited(s, e).value).(phase := After(s.phase, e), pending := s.pending);
      WellFormed(t) && PhaseOk(t)
  {
    hide CacheSees, PendingOk, WriteOk, Versions;
  }

  lemma WritePreserves(s: State, e: Edit, lost: bool)
    requires Inv(s)
    ensures Inv(WriteStep(s, e, lost))
  {
    hide Edited, After, CacheSees, PhaseOk, WriteOk, Versions, MidOk, Ordered;
    var m := Edited(s, e);
    if m.Some? {
      EditIsOk(s, e);
      if lost {
        var t := WriteStep(s, e, lost);
        assert t == s.(pending := s.pending + {MidWrite(e, Newest(s), s.phase.mid, m.value)});
        forall w | w in t.pending ensures PendingOk(t, w) {
          if w in s.pending { assert PendingOk(s, w); }
        }
        SamePhase(s, t);
      } else {
        AfterIsOk(s, e);
        CacheSeesAppend(s, m.value, After(s.phase, e), s.pending);
        AppendPreserves(s, m.value, After(s.phase, e), s.pending);
      }
    }
  }

  lemma SamePhase(s: State, t: State)
    requires Inv(s) && t == s.(pending := t.pending)
    ensures Versions(t) && CacheSees(t) && PhaseOk(t)
    ensures (forall w :: w in t.flights ==> WriteOk(t, w)) && forall w :: w in t.log ==> WriteOk(t, w)
  {
    hide PendingOk, MidOk, Ordered;
    forall w | w in t.flights || w in t.log ensures WriteOk(t, w) { WriteStays(s, t, w); }
  }

  /** A publication that lands late finds a reconcile at most on the suspended version it was built from, and none that writes. */
  lemma LatePhaseIsOk(s: State, w: MidWrite)
    requires Inv(s) && w in s.pending && w.base == Newest(s)
    ensures w.edit.Publish? ==> !InProgress(s.phase) && (s.phase.Idle? || s.phase.mid == w.base)
    ensures var t := Append(s, w.next).(phase := s.phase, pending := s.pending - {w}); WellFormed(t) && PhaseOk(t)
  {
    hide CacheSees, WriteOk, Versions, MidOk;
    assert PendingOk(s, w);
  }

  lemma DeliverMidPreserves(s: State, w: MidWrite)
    requires Inv(s)
    ensures Inv(Next(s, DeliverMid(w)))
  {
    hide CacheSees, PhaseOk, WriteOk, Versions, MidOk, Ordered;
    if w in s.pending {
      assert PendingOk(s, w);
      if w.base == Newest(s) {
        LatePhaseIsOk(s, w);
        CacheSeesAppend(s, w.next, s.phase, s.pending - {w});
        AppendPreserves(s, w.next, s.phase, s.pending - {w});
      } else {
        var t := s.(pending := s.pending - {w});
        forall x | x in t.pending ensures PendingOk(t, x) { assert PendingOk(s, x); }
        SamePhase(s, t);
      }
    }
  }

  // ---- Reads, and writes to the primary resource ------------------------------

  lemma HandlePreserves(s: State, a: Action)
    requires Inv(s)
    ensures Inv(Handle(s, a))
  {
    var t := Handle(s, a);
    assert PhaseOk(t) && t == s.(phase := t.phase, cache := s.cache) by { hide CacheSees, WriteOk, Versions, PendingOk; }
    if s.phase.Handling? { PhasePreserves(s, t.phase, s.cache); }
  }

  lemma FreshOwnerIsOk(s: State)
    requires Inv(s)
    ensures PhaseOk(Work(s, FreshOwner))
  {
    hide CacheSees, WriteOk, PendingOk, MidOk;
    if s.phase.Working? { assert Ordered(Copy(s), Last(s)); }
  }

  lemma FlightPreserves(s: State, w: LiveWrite)
    requires Inv(s) && s.phase.Owned? && w.copy == s.phase.mid && w.owner == s.phase.owner
    requires w.target.Child? || (w.target == (if Live(s).Some? then Update(|s.lives| - 1) else Create)
                                 && Verified(s.versions[w.owner], Live(s)) && (Live(s).Some? ==> !Live(s).value.deleting))
    ensures Inv(s.(phase := Working(s.phase.mid), flights := s.flights + {w}))
  {
    hide CacheSees, Versions, MidOk, Ordered;
    var t := s.(phase := Working(s.phase.mid), flights := s.flights + {w});
    WorkingIsOk(s, t);
    assert WriteOk(t, w) by { hide PendingOk; }
    forall x | x in s.flights || x in t.log ensures WriteOk(t, x) { WriteStays(s, t, x); }
    forall x | x in t.pending ensures PendingOk(t, x) { assert PendingOk(s, x); }
  }

  lemma WorkingIsOk(s: State, t: State)
    requires Inv(s) && s.phase.Owned? && t == s.(phase := Working(s.phase.mid), flights := t.flights)
    ensures WellFormed(t) && Versions(t) && CacheSees(t) && PhaseOk(t)
  {
    hide WriteOk, PendingOk, MidOk, Ordered;
  }

  lemma WorkPreserves(s: State, a: Action)
    requires Inv(s)
    ensures Inv(Work(s, a))
  {
    hide CacheSees, WriteOk, Versions, PendingOk, MidOk, Ordered;
    match a
    case AdoptRead =>
      if s.phase.Merging? {
        assert PhaseOk(Work(s, a)) by { hide CacheSees, WriteOk, PendingOk; }
        PhasePreserves(s, Work(s, a).phase, s.cache);
      }
    case FreshOwner =>
      FreshOwnerIsOk(s);
      if s.phase.Working? { PhasePreserves(s, Work(s, a).phase, s.cache); }
    case SendChild =>
      if s.phase.Owned? { FlightPreserves(s, LiveWrite(s.phase.mid, s.phase.owner, Child, 0)); }
    case SendPrimary(result) =>
      if s.phase.Owned? {
        if Verified(s.versions[s.phase.owner], Live(s)) && (Live(s).Some? ==> !Live(s).value.deleting) {
          FlightPreserves(s, LiveWrite(s.phase.mid, s.phase.owner, if Live(s).Some? then Update(|s.lives| - 1) else Create, result));
        } else {
          PhasePreserves(s, Working(s.phase.mid), s.cache);
        }
      }
    case _ =>
  }

  lemma DeliverLivePreserves(s: State, w: LiveWrite)
    requires Inv(s) && w in s.flights
    ensures Inv(LandLive(s, w))
  {
    hide CacheSees, Versions, PhaseOk, MidOk, Ordered;
    var t := LandLive(s, w);
    assert Extends(s, t) && t == s.(lives := t.lives, nextUid := t.nextUid, flights := t.flights, log := t.log);
    assert WellFormed(t) && Versions(t) && CacheSees(t) && PhaseOk(t) by { LandKeepsMiddleware(s, t); }
    forall x | x in t.pending ensures PendingOk(t, x) { assert PendingOk(s, x); }
    forall x | x in t.flights || x in t.log ensures WriteOk(t, x) { WriteStays(s, t, x); }
  }

  lemma LandKeepsMiddleware(s: State, t: State)
    requires Inv(s) && Extends(s, t) && t == s.(lives := t.lives, nextUid := t.nextUid, flights := t.flights, log := t.log)
    ensures WellFormed(t) && Versions(t) && CacheSees(t) && PhaseOk(t)
  {
    hide PendingOk, WriteOk, MidOk, Ordered;
  }

  lemma NextPreserves(s: State, a: Action)
    requires Inv(s)
    ensures Inv(Next(s, a))
  {
    hide Versions, CacheSees, PhaseOk, PendingOk, WriteOk, Handle, Work, WriteStep, LandLive;
    match a
    case UserEdit(changeSpec, suspend, policy) => UserEditPreserves(s, changeSpec, suspend, policy);
    case LiveEdit(_) => LivePreserves(s, Next(s, a));
    case LiveTerminate => LivePreserves(s, Next(s, a));
    case LiveDelete => LivePreserves(s, Next(s, a));
    case LiveCreate(_) => LivePreserves(s, Next(s, a));
    case Begin(i) => BeginPreserves(s, i);
    case Write(e, lost) => WritePreserves(s, e, lost);
    case DeliverMid(w) => DeliverMidPreserves(s, w);
    case DeliverLive(w) => if w in s.flights { DeliverLivePreserves(s, w); }
    case Stop => StopPreserves(s);
    case Proceed => HandlePreserves(s, a);
    case Recheck => HandlePreserves(s, a);
    case CaptureRead => HandlePreserves(s, a);
    case _ => WorkPreserves(s, a);
  }

  lemma BeginPreserves(s: State, i: nat)
    requires Inv(s)
    ensures Inv(Next(s, Begin(i)))
  {
    hide CacheSees, Versions, PendingOk, WriteOk;
    if s.phase.Idle? && s.cache <= i < |s.versions| { PhasePreserves(s, Handling(i), i); }
  }

  lemma StopPreserves(s: State)
    requires Inv(s)
    ensures Inv(Next(s, Stop))
  {
    hide CacheSees, Versions, PendingOk, WriteOk;
    PhasePreserves(s, Idle, s.cache);
  }

  lemma {:induction false} RunPreserves(s: State, actions: seq<Action>)
    requires Inv(s)
    ensures Inv(Run(s, actions))
    decreases |actions|
  {
    hide Versions, CacheSees, PhaseOk, PendingOk, WriteOk, Next;
    if actions != [] {
      NextPreserves(s, actions[0]);
      RunPreserves(Next(s, actions[0]), actions[1..]);
    }
  }
}
