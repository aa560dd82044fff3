/**
  Which adoption the overrides come from, over whole runs: the two writes of an adoption, and the upgrade that puts older
  overrides back, followed step by step.
 */
module PauseLedger {
  import opened Options
  import opened PauseMachine
  import opened PauseSafety
  import opened PauseResults

  /**
    The adoptions of the present session whose writes have landed: the live spec of the one whose overrides were written
    last, by its own completion or by an upgrade, and of the one that was recorded last, which wrote the hash.
   */
  datatype Ledger = Ledger(held: Option<Spec>, recorded: Option<Spec>)

  const NOTHING := Ledger(None, None)

  /** The write of the controller that lands with an action, at once or late, and what it makes of the Middleware. */
  function Landing(s: State, a: Action): Option<(Edit, Mid)>
    requires WellFormed(s)
  {
    if a.Write? && !a.lost && Edited(s, a.edit).Some? then Some((a.edit, Edited(s, a.edit).value))
    else if a.DeliverMid? && a.w in s.pending && a.w.base == Newest(s) then Some((a.w.edit, a.w.next))
    else None
  }

  /**
    A publication begins a new page; a completed merge and a record are entered when they land. An upgrade restores the
    entry of the version it was written from, and nothing else is entered.
   */
  function Entered(ls: seq<Ledger>, landing: Option<(Edit, Mid)>): Ledger
    requires ls != []
  {
    var l := ls[|ls| - 1];
    if landing.None? then l
    else
      var (e, m) := landing.value;
      if e.Publish? then NOTHING
      else if e.Complete? && m.policy.MergePolicy? && m.overrides.AdoptedFrom? then l.(held := Some(m.overrides.spec))
      else if e.Record? && m.session.Some? then l.(recorded := m.session.value.adopted)
      else if e.Upgrade? && e.from < |ls| then l.(held := ls[e.from].held)
      else l
  }

  /** The ledger at every version of the Middleware, along a run. */
  function Ledgers(s: State, actions: seq<Action>, ls: seq<Ledger>): seq<Ledger>
    requires WellFormed(s) && ls != []
    decreases |actions|
  {
    if actions == [] then ls
    else
      NextIsWellFormed(s, actions[0]);
      var t := Next(s, actions[0]);
      Ledgers(t, actions[1..], if |t.versions| > |s.versions| then ls + [Entered(ls, Landing(s, actions[0]))] else ls)
  }

  // ---- The invariant --------------------------------------------------------------

  /** The adoption of the present session that the overrides come from. */
  function Held(m: Mid): Option<Spec>
    requires m.session.Some?
  {
    if m.overrides.AdoptedFrom? && m.overrides.snapshot == m.session.value.snapshot then Some(m.overrides.spec) else None
  }

  /** Overrides and hash are those of the ledger. */
  ghost predicate LedgerOk(m: Mid, l: Ledger) {
    m.session.Some? ==> m.session.value.adopted == l.recorded && Held(m) == l.held
  }

  /** Sessions, and overrides from them, are younger than the version their snapshot was taken at. */
  ghost predicate Based(m: Mid, n: nat) {
    && (m.session.Some? ==> m.session.value.snapshot.base < n)
    && (m.overrides.AdoptedFrom? ==> m.overrides.snapshot.base < n)
  }

  /** What the cache may still show of an open session is that session, or the suspended version it began from. */
  ghost predicate CacheInSession(s: State)
    requires WellFormed(s)
  {
    Last(s).session.Some? ==> forall n :: s.cache <= n < |s.versions| ==>
      SnapshotOf(s.versions[n]) == SnapshotOf(Last(s)) || (n == s.cache && s.versions[n].suspend)
  }

  /** What each write keeps of session and overrides. */
  ghost predicate EditKeeps(versions: seq<Mid>, e: Edit, base: nat, next: Mid)
    requires base < |versions|
  {
    var m := versions[base];
    match e
    case Publish =>
      next.session.Some? && next.session.value.adopted.None? && next.session.value.snapshot.base == base && next.overrides == m.overrides
    case Complete =>
      && next.session == m.session && next.policy == m.policy
      && if m.policy.MergePolicy? then
           next.overrides.AdoptedFrom? && m.session.Some? && next.overrides.snapshot == m.session.value.snapshot
         else next.overrides == m.overrides
    case Record => SnapshotOf(next) == SnapshotOf(m) && next.overrides == m.overrides
    case Clear => next.session.None? && next.overrides == m.overrides
    case Upgrade(from, _) =>
      && from < |versions| && next.session == m.session && next.overrides == versions[from].overrides
      && (m.session.Some? ==> SnapshotOf(versions[from]) == SnapshotOf(m))
    case _ => next.session == m.session && next.overrides == m.overrides
  }

  ghost predicate Books(s: State, ls: seq<Ledger>) {
    && Inv(s) && |ls| == |s.versions| && CacheInSession(s)
    && (forall n :: 0 <= n < |ls| ==> LedgerOk(s.versions[n], ls[n]))
    && (forall n :: 0 <= n < |ls| ==> Based(s.versions[n], n))
    && (forall w :: w in s.pending ==> w.base < |s.versions| && EditKeeps(s.versions, w.edit, w.base, w.next))
  }

  lemma EditedKeeps(s: State, ls: seq<Ledger>, e: Edit)
    requires Books(s, ls) && Edited(s, e).Some?
    ensures EditKeeps(s.versions, e, Newest(s), Edited(s, e).value)
  {
    hide CacheSees, PendingOk, WriteOk, Versions, LedgerOk, Based;
    CopyIsOrdered(s);
  }

  /** Entering a landing write in the ledger of the version it changes gives the ledger of the next version. */
  lemma EnteredIsOk(s: State, ls: seq<Ledger>, e: Edit, next: Mid)
    requires Books(s, ls) && EditKeeps(s.versions, e, Newest(s), next)
    ensures LedgerOk(next, Entered(ls, Some((e, next)))) && Based(next, |ls|)
  {
    hide Inv, CacheInSession;
    assert LedgerOk(Last(s), ls[|ls| - 1]) && Based(Last(s), Newest(s));
    if e.Upgrade? { assert LedgerOk(s.versions[e.from], ls[e.from]) && Based(s.versions[e.from], e.from); }
  }

  lemma LandedBooks(s: State, ls: seq<Ledger>, t: State, l: Ledger)
    requires Books(s, ls) && Inv(t) && t.cache == s.cache && t.pending <= s.pending
    requires s.versions <= t.versions && |t.versions| == |s.versions| + 1 && LedgerOk(Last(t), l) && Based(Last(t), |ls|)
    requires Last(t).session.Some? ==>
      SnapshotOf(Last(t)) == SnapshotOf(Last(s)) || (s.cache == Newest(s) && Last(s).suspend)
    ensures Books(t, ls + [l])
  {
    hide Versions, CacheSees, PhaseOk, PendingOk, WriteOk, LedgerOk, Based;
    forall w | w in t.pending ensures EditKeeps(t.versions, w.edit, w.base, w.next) {
      assert EditKeeps(s.versions, w.edit, w.base, w.next);
    }
  }

  lemma QuietBooks(s: State, ls: seq<Ledger>, t: State)
    requires Books(s, ls) && Inv(t) && t.versions == s.versions && s.cache <= t.cache && t.pending <= s.pending
    ensures Books(t, ls)
  {
    hide Versions, CacheSees, PhaseOk, PendingOk, WriteOk, EditKeeps, LedgerOk, Based;
  }

  lemma LostBooks(s: State, ls: seq<Ledger>, e: Edit)
    requires Books(s, ls) && Edited(s, e).Some? && Inv(WriteStep(s, e, true))
    ensures Books(WriteStep(s, e, true), ls)
  {
    hide Inv, EditKeeps, LedgerOk, Based, Edited;
    InvIsWellFormed(s);
    EditedKeeps(s, ls, e);
  }

  lemma NextBooks(s: State, ls: seq<Ledger>, a: Action)
    requires Books(s, ls)
    ensures var t := Next(s, a);
      ls != [] && Books(t, if |t.versions| > |s.versions| then ls + [Entered(ls, Landing(s, a))] else ls)
  {
    hide Inv, Handle, Work, Edited, After, LandLive, EditKeeps, LedgerOk, Based, Entered, Books, CacheInSession;
    BooksInv(s, ls);
    InvIsWellFormed(s);
    NextPreserves(s, a);
    var t := Next(s, a);
    match a
    case UserEdit(_, _, _) =>
      UserBooks(s, ls, a);
      NothingEntered(ls);
    case Write(e, lost) =>
      if Edited(s, e).None? { } else if lost { LostBooks(s, ls, e); } else { WriteBooks(s, ls, e); }
    case DeliverMid(w) => DeliverBooks(s, ls, w);
    case _ => QuietStep(s, a); QuietBooks(s, ls, t);
  }

  lemma BooksInv(s: State, ls: seq<Ledger>)
    requires Books(s, ls)
    ensures Inv(s) && |ls| == |s.versions| && ls != []
  {
  }

  lemma NothingEntered(ls: seq<Ledger>)
    requires ls != []
    ensures Entered(ls, None) == ls[|ls| - 1]
  {
  }

  lemma QuietStep(s: State, a: Action)
    requires WellFormed(s) && !a.UserEdit? && !a.Write? && !a.DeliverMid?
    ensures var t := Next(s, a);
      t.versions == s.versions && t.pending == s.pending && s.cache <= t.cache
  {
  }

  lemma UserBooks(s: State, ls: seq<Ledger>, a: Action)
    requires Books(s, ls) && a.UserEdit? && Inv(Next(s, a))
    ensures Books(Next(s, a), ls + [ls[|ls| - 1]])
  {
    hide CacheSees, PhaseOk, PendingOk, WriteOk, Versions, EditKeeps;
    assert LedgerOk(Last(s), ls[|ls| - 1]) && Based(Last(s), Newest(s));
    LandedBooks(s, ls, Next(s, a), ls[|ls| - 1]);
  }

  lemma WriteBooks(s: State, ls: seq<Ledger>, e: Edit)
    requires Books(s, ls) && Edited(s, e).Some? && Inv(WriteStep(s, e, false))
    ensures Books(WriteStep(s, e, false), ls + [Entered(ls, Some((e, Edited(s, e).value)))])
  {
    hide CacheSees, PhaseOk, PendingOk, WriteOk, Versions, EditKeeps, LedgerOk, Based, Entered, Edited, After;
    var next := Edited(s, e).value;
    EditedKeeps(s, ls, e);
    EnteredIsOk(s, ls, e, next);
    EditIsOk(s, e);
    LandedBooks(s, ls, WriteStep(s, e, false), Entered(ls, Some((e, next))));
  }

  lemma DeliverBooks(s: State, ls: seq<Ledger>, w: MidWrite)
    requires Books(s, ls) && Inv(Next(s, DeliverMid(w)))
    ensures var t := Next(s, DeliverMid(w));
      Books(t, if |t.versions| > |s.versions| then ls + [Entered(ls, Some((w.edit, w.next)))] else ls)
  {
    hide CacheSees, PhaseOk, WriteOk, Versions, EditKeeps, LedgerOk, Based, Entered;
    if w in s.pending && w.base == Newest(s) {
      assert PendingOk(s, w);
      EnteredIsOk(s, ls, w.edit, w.next);
      LandedBooks(s, ls, Next(s, DeliverMid(w)), Entered(ls, Some((w.edit, w.next))));
    } else {
      QuietBooks(s, ls, Next(s, DeliverMid(w)));
    }
  }

  lemma {:induction false} RunBooks(s: State, actions: seq<Action>, ls: seq<Ledger>)
    requires Books(s, ls)
    ensures ls != [] && Books(Run(s, actions), Ledgers(s, actions, ls))
    decreases |actions|
  {
    hide Next, Inv, Books, Landing, Entered;
    BooksInv(s, ls);
    InvIsWellFormed(s);
    if actions != [] {
      NextBooks(s, ls, actions[0]);
      NextIsWellFormed(s, actions[0]);
      var t := Next(s, actions[0]);
      RunBooks(t, actions[1..], if |t.versions| > |s.versions| then ls + [Entered(ls, Landing(s, actions[0]))] else ls);
    }
  }

  // ---- Results --------------------------------------------------------------------------

  lemma InitBooks()
    ensures Books(INIT, [NOTHING])
  {
    InitInv();
  }

  /**
    In every version of a session with a recorded hash, the overrides are those adopted from the recorded live spec if and
    only if the last write that brought in overrides, the completion of an adoption or an upgrade that put them back, brought
    those of the adoption that was recorded last, or of one that read the same spec.
   */
  lemma OverridesMatchHash(actions: seq<Action>, n: nat)
    requires n < |Run(INIT, actions).versions|
    requires var m := Run(INIT, actions).versions[n]; m.session.Some? && m.session.value.adopted.Some?
    ensures var m, ls := Run(INIT, actions).versions[n], Ledgers(INIT, actions, [NOTHING]); var x := m.session.value;
      |ls| == |Run(INIT, actions).versions| && (m.overrides == AdoptedFrom(x.snapshot, x.adopted.value) <==> ls[n].held == ls[n].recorded)
  {
    hide Inv;
    InitBooks();
    RunBooks(INIT, actions, [NOTHING]);
    var s, ls := Run(INIT, actions), Ledgers(INIT, actions, [NOTHING]);
    assert LedgerOk(s.versions[n], ls[n]);
  }

  /**
    In every run, a merge-approved write that landed replaced exactly the recorded live spec; the desired state it carries was
    rendered with the overrides adopted from that very spec if and only if, at the owner version that approved it, the
    overrides written last were those of the adoption recorded last.
   */
  lemma LandedMergeIffRecorded(actions: seq<Action>, w: LiveWrite)
    requires w in Run(INIT, actions).log && !w.target.Child? && w.owner < |Run(INIT, actions).versions|
    requires var m := Run(INIT, actions).versions[w.owner]; m.session.Some? && m.policy.MergePolicy?
    ensures var s, ls := Run(INIT, actions), Ledgers(INIT, actions, [NOTHING]); var x := s.versions[w.owner].session.value;
      && w.target.Update? && w.target.base < |s.lives| && x.adopted.Some? && w.copy < |s.versions| && |ls| == |s.versions|
      && s.lives[w.target.base] == Some(Primary(x.snapshot.uid, x.adopted, false))
      && (s.versions[w.copy].overrides == AdoptedFrom(x.snapshot, x.adopted.value) <==> ls[w.owner].held == ls[w.owner].recorded)
  {
    hide CacheSees, PhaseOk, PendingOk, Versions;
    InitInv();
    RunPreserves(INIT, actions);
    assert WriteOk(Run(INIT, actions), w);
    OverridesMatchHash(actions, w.owner);
  }
}
