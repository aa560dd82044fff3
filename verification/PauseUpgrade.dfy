/**
  What the write of a package upgrade does to a pause. It puts the spec and the annotations of the reconcile's copy over
  the newest version, so it also undoes what others, or a later reconcile, have written to them since.
 */
module PauseUpgrade {
  import opened Options
  import opened PauseMachine
  import opened PauseSafety
  import opened PauseResults

  // ---- The gate ----------------------------------------------------------------------

  /** An upgrade removes a suspend annotation, whoever has set it and when; what may close the gate after it is the marker. */
  lemma GateAfterUpgrade(s: State, respec: bool)
    requires Reachable(s) && s.phase.Working?
    ensures var t := Next(s, Write(Upgrade(s.phase.mid, respec), false));
      && !Last(t).suspend && Last(t).policy == Copy(s).policy && Last(t).overrides == Copy(s).overrides
      && Last(t).session == Last(s).session && Last(t).paused == Last(s).paused
      && (WriteSuspended(Last(t)) <==> Last(s).paused && !Approved(Copy(s).policy))
  {
    ReachableInv(s);
  }

  /** The user suspends while an upgrade is on its way; the next reconcile sees no suspension, and writes. */
  function Overrun(s: State, result: Spec): seq<Action>
    requires WellFormed(s) && s.phase.Working?
  {
    [Write(Upgrade(s.phase.mid, true), false), Stop, Begin(|s.versions|), Proceed, FreshOwner, SendPrimary(result)]
  }

  /** From every state in which a suspension was set after the copy was read and is not marked yet, it is lost. */
  lemma SuspendIsErased(s: State, result: Spec)
    requires Reachable(s) && s.phase.Working?
    requires Last(s).suspend && !Last(s).paused && Live(s).Some? && !Live(s).value.deleting
    ensures var t := Run(s, Overrun(s, result));
      && t.versions == s.versions + [PutBack(Last(s), Copy(s), true)] && !WriteSuspended(Last(t))
      && t.flights == s.flights + {LiveWrite(|s.versions|, |s.versions|, Update(|s.lives| - 1), result)}
  {
    hide Next, Inv;
    ReachableInv(s);
    UnmarkedIsOpen(s);
    RunSix(s, Overrun(s, result));
    UpgradeRuns(s, true);
    var s1 := Append(s, PutBack(Last(s), Copy(s), true));
    Stops(s1);
    ProceedRuns(s1.(phase := Idle));
    WritesRun(s1.(cache := |s.versions|, phase := Working(|s.versions|)), result);
  }

  /** Such states are reachable: the user suspends once the reconcile has passed its pause check. */
  lemma ErasureIsReachable()
    ensures exists s :: Reachable(s) && s.phase.Working? && Last(s).suspend && !Last(s).paused
                        && Live(s) == Some(Primary(0, Some(2), false))
  {
    var trace := [LiveCreate(Some(1)), Begin(0), Proceed, UserEdit(false, true, NoPolicy), LiveEdit(Some(2)), LiveEdit(Some(2))];
    RunSix(INIT, trace);
    assert Reachable(Run(INIT, trace));
  }

  lemma UnmarkedIsOpen(s: State)
    requires Inv(s) && s.phase.Working? && !Last(s).paused
    ensures !Copy(s).suspend && Last(s).session.None?
  {
    hide CacheSees, PendingOk, WriteOk, Ordered;
    assert MidOk(Last(s));
  }

  lemma UpgradeRuns(s: State, respec: bool)
    requires WellFormed(s) && s.phase.Working?
    ensures Edited(s, Upgrade(s.phase.mid, respec)) == Some(PutBack(Last(s), Copy(s), respec))
    ensures Next(s, Write(Upgrade(s.phase.mid, respec), false)) == Append(s, PutBack(Last(s), Copy(s), respec))
  {
  }

  lemma ProceedRuns(s: State)
    requires WellFormed(s) && s.phase.Idle? && !Last(s).suspend && !Last(s).paused
    ensures var s1 := Next(s, Begin(Newest(s)));
      WellFormed(s1) && Next(s1, Proceed) == s.(cache := Newest(s), phase := Working(Newest(s)))
  {
  }

  // ---- An adoption that is undone ------------------------------------------------------

  /** Every completed adoption is recorded by the very next action. */
  predicate EachRecorded(actions: seq<Action>) {
    forall i :: 0 <= i < |actions| && actions[i].Write? && actions[i].edit.Complete? ==>
      i + 1 < |actions| && actions[i + 1] == Write(Record, false)
  }

  /** From an adopted state: the live spec moves to b, and that is adopted and recorded. */
  function Readopt(s: State, b: Spec): seq<Action>
    requires WellFormed(s)
  {
    [LiveEdit(Some(b)), Begin(Newest(s)), Recheck, AdoptRead, Write(Complete, false), Write(Record, false)]
  }

  /** The live spec moves back to a, and a reconcile of the version that still shows the adoption of a upgrades the package. */
  function UpgradeFrom(prior: nat, a: Spec): seq<Action> {
    [LiveEdit(Some(a)), Begin(prior), Recheck, Write(Upgrade(prior, true), false), Stop, Stop]
  }

  /** The live spec is b once more, and the next reconcile writes. */
  function WriteOver(s: State, b: Spec, result: Spec): seq<Action>
    requires WellFormed(s)
  {
    [LiveEdit(Some(b)), Begin(Newest(s)), Recheck, FreshOwner, SendPrimary(result),
     DeliverLive(LiveWrite(Newest(s), Newest(s), Update(|s.lives|), result))]
  }

  /** Everything of a merge that is ready to be written but the live spec and the source of the overrides. */
  ghost predicate Ready(s: State, recorded: Spec, held: Spec) {
    && WellFormed(s) && s.phase.Idle?
    && var m := Last(s);
    && m.session.Some? && m.session.value.adopted == Some(recorded) && m.adoption.Succeeded? && m.paused
    && !m.suspend && m.policy.MergePolicy?
    && m.overrides == AdoptedFrom(m.session.value.snapshot, held)
    && Live(s).Some? && Live(s).value.uid == m.session.value.snapshot.uid && !Live(s).value.deleting
  }

  lemma AdoptedIsReady(s: State, a: Spec)
    requires Adopted(s, a)
    ensures Ready(s, a, a)
  {
  }

  /** After the second adoption, the version of the first one is still the oldest the cache may show. */
  lemma Readopted(s: State, a: Spec, b: Spec)
    requires Ready(s, a, a) && a != b
    ensures var u := Run(s, Readopt(s, b));
      && Ready(u, b, b) && u.cache == Newest(s) < |u.versions| && u.versions[u.cache] == Last(s)
      && SnapshotOf(Last(u)) == SnapshotOf(Last(s)) && u.log == s.log
  {
    hide Handle, Work, Edited, Ready;
    ReadyMeans(s, a, a);
    RunSix(s, Readopt(s, b));
    var s2 := AppendLive(s, Some(Live(s).value.(spec := Some(b)))).(cache := Newest(s), phase := Handling(Newest(s)));
    assert Next(Next(s, LiveEdit(Some(b))), Begin(Newest(s))) == s2;
    RecheckRuns(s2);
    AdoptReadRuns(s2.(phase := Merging(Newest(s))));
    var s4 := s2.(phase := Adopting(Newest(s), b));
    CompletionRuns(s4);
    RecordRuns(s4, s, a, b);
  }

  lemma ReadyMeans(s: State, recorded: Spec, held: Spec)
    requires Ready(s, recorded, held)
    ensures WellFormed(s) && s.phase.Idle? && Last(s).session.Some? && Last(s).session.value.adopted == Some(recorded)
    ensures Last(s).adoption.Succeeded? && Last(s).paused && !Last(s).suspend && Last(s).policy.MergePolicy?
    ensures Last(s).overrides == AdoptedFrom(Last(s).session.value.snapshot, held)
    ensures Live(s).Some? && Live(s).value.uid == Last(s).session.value.snapshot.uid && !Live(s).value.deleting
  {
  }

  lemma RecordRuns(s: State, start: State, a: Spec, b: Spec)
    requires Ready(start, a, a) && WellFormed(s) && s.phase == Adopting(Newest(s), b)
    requires s.versions == start.versions && s.cache == Newest(s) && s.log == start.log
    requires s.lives == start.lives + [Some(Live(start).value.(spec := Some(b)))]
    requires Edited(s, Complete) == Some(WithOverrides(Last(s), AdoptedFrom(Last(s).session.value.snapshot, b)).(suspend := false))
    ensures var s5 := Next(s, Write(Complete, false));
      WellFormed(s5) && var u := Next(s5, Write(Record, false));
      && Ready(u, b, b) && u.cache == Newest(start) < |u.versions| && u.versions[u.cache] == Last(start)
      && SnapshotOf(Last(u)) == SnapshotOf(Last(start)) && u.log == s.log
  {
    var m := WithOverrides(Last(s), AdoptedFrom(Last(s).session.value.snapshot, b)).(suspend := false);
    var s5 := Append(s, m).(phase := Completed(Newest(s), b));
    assert Next(s, Write(Complete, false)) == s5;
    assert Edited(s5, Record) == Some(m.(session := Some(m.session.value.(adopted := Some(b))), adoption := Succeeded));
  }

  /** The upgrade puts the overrides of a back under the recorded hash of b. */
  lemma UpgradeReverts(s: State, prior: nat, a: Spec, b: Spec)
    requires Ready(s, b, b) && s.cache == prior < |s.versions| && SnapshotOf(s.versions[prior]) == SnapshotOf(Last(s))
    requires var c := s.versions[prior];
      && c.session.Some? && c.session.value.adopted == Some(a) && c.adoption.Succeeded? && c.paused && !c.suspend
      && c.policy.MergePolicy? && c.overrides == AdoptedFrom(c.session.value.snapshot, a)
    ensures var u := Run(s, UpgradeFrom(prior, a)); Ready(u, b, a) && u.log == s.log
  {
    hide Handle, Work, Edited, Ready;
    ReadyMeans(s, b, b);
    RunSix(s, UpgradeFrom(prior, a));
    var s2 := AppendLive(s, Some(Live(s).value.(spec := Some(a)))).(phase := Handling(prior));
    assert Next(Next(s, LiveEdit(Some(a))), Begin(prior)) == s2;
    RecheckRuns(s2);
    var s3 := s2.(phase := Working(prior));
    UpgradeRuns(s3, true);
    RevertedIsReady(s, s3, a, b);
  }

  lemma RevertedIsReady(start: State, s: State, a: Spec, b: Spec)
    requires Ready(start, b, b) && WellFormed(s) && s.phase.Working? && SnapshotOf(Copy(s)) == SnapshotOf(Last(s))
    requires s == start.(lives := s.lives, cache := s.cache, phase := s.phase)
    requires Live(s) == Some(Live(start).value.(spec := Some(a)))
    requires var c := Copy(s); c.session.Some? && !c.suspend && c.policy.MergePolicy? && c.overrides == AdoptedFrom(c.session.value.snapshot, a)
    requires Edited(s, Upgrade(s.phase.mid, true)) == Some(PutBack(Last(s), Copy(s), true))
    ensures var t := Next(Next(Next(s, Write(Upgrade(s.phase.mid, true), false)), Stop), Stop); Ready(t, b, a) && t.log == s.log
  {
    var t := Append(s, PutBack(Last(s), Copy(s), true)).(phase := Idle);
    assert Next(Next(s, Write(Upgrade(s.phase.mid, true), false)), Stop) == t;
  }

  /** A write lands on the recorded spec b, rendered with the overrides adopted from a. */
  ghost predicate LandsOver(t: State, w: LiveWrite, a: Spec, b: Spec) {
    && t.log != [] && w == t.log[|t.log| - 1] && w.target.Update? && w.target.base < |t.lives|
    && w.copy == w.owner < |t.versions|
    && var m := t.versions[w.owner];
    && m.session.Some? && m.policy.MergePolicy? && m.session.value.adopted == Some(b)
    && t.lives[w.target.base] == Some(Primary(m.session.value.snapshot.uid, Some(b), false))
    && m.overrides == AdoptedFrom(m.session.value.snapshot, a)
  }

  lemma ReadyWrites(s: State, a: Spec, b: Spec, result: Spec)
    requires Ready(s, b, a)
    ensures LandsOver(Run(s, WriteOver(s, b, result)), LiveWrite(Newest(s), Newest(s), Update(|s.lives|), result), a, b)
  {
    hide Next;
    RunSix(s, WriteOver(s, b, result));
    var s1 := AppendLive(s, Some(Live(s).value.(spec := Some(b))));
    LiveEdits(s, b);
    ResumeRuns(s1);
    WritesRun(s1.(cache := Newest(s), phase := Working(Newest(s))), result);
  }

  /**
    From every state with a recorded adoption of a: b is adopted and recorded, yet an upgrade from the version of a puts the
    overrides of a back, and they are written over b. No adoption was left unrecorded.
   */
  lemma UpgradeRevertsAdoption(s: State, a: Spec, b: Spec, result: Spec)
    requires Adopted(s, a) && a != b
    ensures exists actions, w ::
      EachRecorded(actions) && LandsOver(Run(s, actions), w, a, b) && w.spec == result
  {
    hide Adopted, Ready, Next, LandsOver;
    AdoptedIsReady(s, a);
    ReadyMeans(s, a, a);
    Readopted(s, a, b);
    var s1 := Run(s, Readopt(s, b));
    ReadyMeans(s1, b, b);
    UpgradeReverts(s1, s1.cache, a, b);
    var s2 := Run(s1, UpgradeFrom(s1.cache, a));
    ReadyMeans(s2, b, a);
    ReadyWrites(s2, a, b, result);
    var xs, ys, zs := Readopt(s, b), UpgradeFrom(s1.cache, a), WriteOver(s2, b, result);
    RunConcat(s, xs, ys);
    RunConcat(s, xs + ys, zs);
    EachRecordedConcat(xs, ys, zs);
    assert LandsOver(Run(s, xs + ys + zs), LiveWrite(Newest(s2), Newest(s2), Update(|s2.lives|), result), a, b);
  }

  lemma EachRecordedConcat(xs: seq<Action>, ys: seq<Action>, zs: seq<Action>)
    requires EachRecorded(xs) && EachRecorded(ys) && EachRecorded(zs)
    ensures EachRecorded(xs + ys + zs)
  {
    var actions := xs + ys + zs;
    forall i | 0 <= i < |actions| && actions[i].Write? && actions[i].edit.Complete?
      ensures i + 1 < |actions| && actions[i + 1] == Write(Record, false)
    {
      if i < |xs| { assert actions[i] == xs[i] && xs[i + 1] == actions[i + 1]; }
      else if i < |xs| + |ys| { assert actions[i] == ys[i - |xs|] && ys[i - |xs| + 1] == actions[i + 1]; }
      else { assert actions[i] == zs[i - |xs| - |ys|] && zs[i - |xs| - |ys| + 1] == actions[i + 1]; }
    }
  }
}
