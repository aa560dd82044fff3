/** Pause safety over all runs, and where the code falls short of it. */
module PauseResults {
  import opened Options
  import opened PauseMachine
  import opened PauseSafety

  ghost predicate Reachable(s: State) {
    exists actions :: s == Run(INIT, actions)
  }

  lemma ReachableInv(s: State)
    requires Reachable(s)
    ensures Inv(s)
  {
    var actions :| s == Run(INIT, actions);
    InitInv();
    RunPreserves(INIT, actions);
  }

  // ---- Writes to the primary resource ----------------------------------------

  /**
    A write approved by the merge policy lands only while the live object is the one of the snapshot and its spec is
    exactly the adopted one; after any other live edit the write is refused. The desired state it carries was rendered
    with the overrides of the same owner version.
   */
  lemma MergeCommitsOnAdoptedSpec(s: State, w: LiveWrite)
    requires Reachable(s) && w in s.flights && !w.target.Child?
    requires w.owner < |s.versions| && s.versions[w.owner].session.Some? && s.versions[w.owner].policy.MergePolicy?
    ensures var owner, live, t := s.versions[w.owner], Live(s), Next(s, DeliverLive(w));
      t.log != s.log || t.lives != s.lives ==>
        && live.Some? && live.value.uid == owner.session.value.snapshot.uid
        && owner.session.value.adopted.Some? && live.value.spec == owner.session.value.adopted
        && t.lives == s.lives + [Some(live.value.(spec := Some(w.spec)))]
        && w.copy < |s.versions| && s.versions[w.copy].overrides == owner.overrides
  {
    ReachableInv(s);
    assert WriteOk(s, w);
  }

  /** No write is based on an owner version that is suspended, or marked as paused without a merge or apply policy. */
  lemma CommitsAreApproved(s: State, w: LiveWrite)
    requires Reachable(s) && w in s.log
    ensures w.owner < |s.versions|
    ensures var owner := s.versions[w.owner];
      !owner.suspend && (owner.paused || owner.session.Some? ==> Approved(owner.policy))
  {
    ReachableInv(s);
    assert WriteOk(s, w) && MidOk(s.versions[w.owner]);
  }

  /** Deleting the suspend annotation directly, or crashing between the two finalization writes, leaves the gate closed. */
  lemma GateNeedsPolicy(s: State)
    requires Reachable(s) && Last(s).session.Some? && !Approved(Last(s).policy)
    ensures Last(s).paused && Next(s, FreshOwner) == s
  {
    ReachableInv(s);
    assert MidOk(Last(s));
  }

  // ---- Sessions ----------------------------------------------------------------

  /** A session ends in one way only: the finalization of a reconcile that started from a version of that session. */
  lemma SessionEndsByFinalization(s: State, a: Action)
    requires Reachable(s) && Last(s).session.Some? && SnapshotOf(Last(Next(s, a))) != SnapshotOf(Last(s))
    ensures Last(Next(s, a)).session.None?
    ensures if a.Write? then a.edit.Clear? && s.phase.Finalizing? && SnapshotOf(s.versions[s.phase.mid]) == SnapshotOf(Last(s))
            else a.DeliverMid? && a.w in s.pending && a.w.edit.Clear? && a.w.base == Newest(s)
                 && a.w.copy < |s.versions| && SnapshotOf(s.versions[a.w.copy]) == SnapshotOf(Last(s))
  {
    hide Edited, Handle, Work, LandLive;
    ReachableInv(s);
    match a
    case Write(e, lost) =>
      EditOutcome(s, e);
    case DeliverMid(w) =>
      if w in s.pending { assert PendingOk(s, w); }
    case _ => OthersKeepMiddleware(s, a);
  }

  lemma EditOutcome(s: State, e: Edit)
    requires Inv(s)
    ensures Edited(s, e).Some? ==> EditOk(s, e, Edited(s, e).value)
    ensures Edited(s, e).Some? && e.Clear? ==> s.phase.Finalizing? && SnapshotOf(Last(s)) == SnapshotOf(Copy(s))
  {
    if Edited(s, e).Some? { EditIsOk(s, e); }
  }

  lemma OthersKeepMiddleware(s: State, a: Action)
    requires WellFormed(s) && !a.Write? && !a.DeliverMid?
    ensures SnapshotOf(Last(Next(s, a))) == SnapshotOf(Last(s))
  {
  }

  /** An approved resume that nobody disturbs ends the session with two writes, the second of which clears the marker. */
  lemma FinalizationEndsSession(s: State)
    requires WellFormed(s) && s.phase == Working(Newest(s)) && Last(s).paused && Approved(Last(s).policy)
    ensures var s1 := Next(s, Write(Consume, false));
      WellFormed(s1) && WriteSuspended(Last(s1)) && SnapshotOf(Last(s1)) == SnapshotOf(Last(s))
      && var s2 := Next(s1, Write(Clear, false));
      Last(s2) == Last(s).(policy := NoPolicy, session := None, paused := false, adoption := Unknown)
  {
    var s1 := Append(s, Last(s).(policy := NoPolicy)).(phase := Finalizing(Newest(s)));
    assert WriteStep(s, Consume, false) == s1;
  }

  // ---- A torn adoption ------------------------------------------------------------

  /** An adoption of this live spec has been completed and recorded, the resume was approved, and the live spec is still the same. */
  ghost predicate AdoptedLive(s: State, spec: Option<Spec>) {
    && WellFormed(s) && s.phase.Idle?
    && var m, a := Last(s), SpecOf(Primary(0, spec, false));
    && m.session.Some? && m.session.value.adopted == Some(a) && m.adoption.Succeeded? && m.paused
    && !m.suspend && m.policy.MergePolicy?
    && m.overrides == AdoptedFrom(m.session.value.snapshot, a)
    && Live(s) == Some(Primary(m.session.value.snapshot.uid, spec, false))
  }

  ghost predicate Adopted(s: State, a: Spec) { AdoptedLive(s, Some(a)) }

  /** From an adopted state: the live spec moves to b, that is adopted, the controller stops before the status write. */
  function TearAdoption(s: State, b: Spec): seq<Action>
    requires WellFormed(s)
  {
    [LiveEdit(Some(b)), Begin(Newest(s)), Recheck, AdoptRead, Write(Complete, false), Stop]
  }

  /** Then the live spec moves back to a, and the next reconcile writes. */
  function WriteAfter(s: State, a: Spec, result: Spec): seq<Action>
    requires WellFormed(s)
  {
    [LiveEdit(Some(a)), Begin(Newest(s)), Recheck, FreshOwner, SendPrimary(result),
     DeliverLive(LiveWrite(Newest(s), Newest(s), Update(|s.lives|), result))]
  }

  /** Overrides adopted from b, under the recorded hash of a. */
  ghost predicate Torn(s: State, a: Spec, b: Spec) {
    && WellFormed(s) && s.phase.Idle?
    && var m := Last(s);
    && m.session.Some? && m.session.value.adopted == Some(a) && m.adoption.Succeeded? && m.paused
    && !m.suspend && m.policy.MergePolicy?
    && m.overrides == AdoptedFrom(m.session.value.snapshot, b)
    && Live(s).Some? && Live(s).value.uid == m.session.value.snapshot.uid && !Live(s).value.deleting
  }

  lemma RunSix(s: State, actions: seq<Action>)
    requires WellFormed(s) && |actions| == 6
    ensures var s1 := Next(s, actions[0]);
      WellFormed(s1) && var s2 := Next(s1, actions[1]);
      WellFormed(s2) && var s3 := Next(s2, actions[2]);
      WellFormed(s3) && var s4 := Next(s3, actions[3]);
      WellFormed(s4) && var s5 := Next(s4, actions[4]);
      WellFormed(s5) && Run(s, actions) == Next(s5, actions[5])
  {
    hide Next;
    NextIsWellFormed(s, actions[0]);
    var s1 := Next(s, actions[0]);
    NextIsWellFormed(s1, actions[1]);
    var s2 := Next(s1, actions[1]);
    NextIsWellFormed(s2, actions[2]);
    var s3 := Next(s2, actions[2]);
    NextIsWellFormed(s3, actions[3]);
    var s4 := Next(s3, actions[3]);
    NextIsWellFormed(s4, actions[4]);
    var s5 := Next(s4, actions[4]);
    NextIsWellFormed(s5, actions[5]);
    assert actions[1..][1..] == actions[2..] && actions[2..][1..] == actions[3..] && actions[3..][1..] == actions[4..];
    assert actions[4..][1..] == actions[5..] && actions[5..][1..] == [];
    assert Run(s5, actions[5..]) == Next(s5, actions[5]);
    assert Run(s4, actions[4..]) == Run(s5, actions[5..]);
    assert Run(s3, actions[3..]) == Run(s4, actions[4..]);
    assert Run(s2, actions[2..]) == Run(s3, actions[3..]);
    assert Run(s1, actions[1..]) == Run(s2, actions[2..]);
  }

  lemma RecheckRuns(s: State)
    requires WellFormed(s) && s.phase.Handling? && !Copy(s).suspend && Copy(s).paused && Copy(s).policy.MergePolicy?
    ensures Handle(s, Recheck)
         == s.(phase := if Copy(s).adoption.Succeeded? && StillAdopted(Copy(s), Live(s)) then Working(s.phase.mid) else Merging(s.phase.mid))
  {
  }

  lemma AdoptReadRuns(s: State)
    requires WellFormed(s) && s.phase.Merging? && Copy(s).session.Some?
    requires Live(s).Some? && Live(s).value.uid == Copy(s).session.value.snapshot.uid && !Live(s).value.deleting
    ensures Work(s, AdoptRead) == s.(phase := Adopting(s.phase.mid, SpecOf(Live(s).value)))
  {
  }

  /** A merge that is completed against the version it started from. */
  lemma CompletionRuns(s: State)
    requires WellFormed(s) && s.phase.Adopting? && s.phase.mid == Newest(s) && Last(s).session.Some?
    ensures Edited(s, Complete)
         == Some(WithOverrides(Last(s), AdoptedFrom(Last(s).session.value.snapshot, s.phase.spec)).(suspend := false))
  {
  }

  lemma Tear(s: State, a: Spec, b: Spec)
    requires Adopted(s, a) && a != b
    ensures var u := Run(s, TearAdoption(s, b));
      Torn(u, a, b) && u.log == s.log && u.lives == s.lives + [Some(Live(s).value.(spec := Some(b)))]
  {
    hide Handle, Work, Edited;
    RunSix(s, TearAdoption(s, b));
    var s2 := AppendLive(s, Some(Live(s).value.(spec := Some(b)))).(cache := Newest(s), phase := Handling(Newest(s)));
    assert Next(Next(s, LiveEdit(Some(b))), Begin(Newest(s))) == s2;
    RecheckRuns(s2);
    AdoptReadRuns(s2.(phase := Merging(Newest(s))));
    CompletionRuns(s2.(phase := Adopting(Newest(s), b)));
  }

  /** A reconcile on the newest version that passes both checks writes at once. */
  lemma WritesRun(s: State, result: Spec)
    requires WellFormed(s) && s.phase == Working(Newest(s)) && !WriteSuspended(Last(s))
    requires Live(s).Some? && !Live(s).value.deleting && Verified(Last(s), Live(s))
    ensures var w := LiveWrite(Newest(s), Newest(s), Update(|s.lives| - 1), result);
      var s1 := Next(s, FreshOwner);
      WellFormed(s1) && var s2 := Next(s1, SendPrimary(result));
      s2 == s.(flights := s.flights + {w}) && WellFormed(s2) && var t := Next(s2, DeliverLive(w));
      t.versions == s.versions && t.log == s.log + [w] && t.lives == s.lives + [Some(Live(s).value.(spec := Some(result)))]
  {
    hide Verified, WriteSuspended;
  }

  /** A merge resume that still finds the adopted spec goes on to the writes. */
  lemma ResumeRuns(s: State)
    requires WellFormed(s) && s.phase.Idle? && StillAdopted(Last(s), Live(s))
    requires !Last(s).suspend && Last(s).paused && Last(s).policy.MergePolicy? && Last(s).adoption.Succeeded?
    ensures var s1 := Next(s, Begin(Newest(s)));
      WellFormed(s1) && Next(s1, Recheck) == s.(cache := Newest(s), phase := Working(Newest(s)))
  {
    hide Handle, StillAdopted;
    RecheckRuns(s.(cache := Newest(s), phase := Handling(Newest(s))));
  }

  lemma TornWrite(s: State, a: Spec, b: Spec, result: Spec)
    requires Torn(s, a, b)
    ensures var t := Run(s, WriteAfter(s, a, result));
      && t.lives == s.lives + [Some(Live(s).value.(spec := Some(a))), Some(Live(s).value.(spec := Some(result)))]
      && t.versions == s.versions
      && t.log == s.log + [LiveWrite(Newest(s), Newest(s), Update(|s.lives|), result)]
  {
    hide Next;
    RunSix(s, WriteAfter(s, a, result));
    var s1 := AppendLive(s, Some(Live(s).value.(spec := Some(a))));
    LiveEdits(s, a);
    ResumeRuns(s1);
    WritesRun(s1.(cache := Newest(s), phase := Working(Newest(s))), result);
  }

  lemma LiveEdits(s: State, a: Spec)
    requires WellFormed(s) && Live(s).Some?
    ensures Next(s, LiveEdit(Some(a))) == AppendLive(s, Some(Live(s).value.(spec := Some(a))))
  {
  }

  lemma {:induction false} RunConcat(s: State, xs: seq<Action>, ys: seq<Action>)
    requires WellFormed(s)
    ensures Run(s, xs + ys) == Run(Run(s, xs), ys)
    decreases |xs|
  {
    if xs == [] {
      assert xs + ys == ys;
    } else {
      NextIsWellFormed(s, xs[0]);
      assert (xs + ys)[1..] == xs[1..] + ys;
      RunConcat(Next(s, xs[0]), xs[1..], ys);
    }
  }

  /**
    A crash between the two writes of a second adoption is not repaired: when the live spec returns to a, the stale hash
    of a matches, and desired state carrying the overrides adopted from b is written over it.
   */
  lemma UnrecordedAdoptionIsWritten(s: State, a: Spec, b: Spec, result: Spec)
    requires Adopted(s, a) && a != b
    ensures exists actions ::
      var t := Run(s, actions);
      && |t.log| == |s.log| + 1
      && var w := t.log[|s.log|];
      && w.target.Update? && 0 < w.target.base < |t.lives| && t.lives[w.target.base] == Live(s)
      && w.owner < |t.versions| && t.versions[w.owner].session.Some? && t.versions[w.owner].policy.MergePolicy?
      && t.versions[w.owner].overrides == AdoptedFrom(t.versions[w.owner].session.value.snapshot, b)
  {
    Tear(s, a, b);
    var u := Run(s, TearAdoption(s, b));
    TornWrite(u, a, b, result);
    RunConcat(s, TearAdoption(s, b), WriteAfter(u, a, result));
    var actions := TearAdoption(s, b) + WriteAfter(u, a, result);
    assert Run(s, actions).log[|s.log|] == LiveWrite(Newest(u), Newest(u), Update(|u.lives|), result);
  }

  // ---- Concrete runs ---------------------------------------------------------------

  const M0 := Mid(1, false, NoPolicy, Initial, None, false, Unknown)

  function CaptureTrace(spec: Option<Spec>): seq<Action> {
    [LiveCreate(Some(1)), UserEdit(false, true, NoPolicy), Begin(1), CaptureRead, Write(Publish, false), LiveEdit(spec)]
  }

  const ADOPT_TRACE: seq<Action> := [
    UserEdit(false, true, MergePolicy), Begin(3), Recheck, AdoptRead, Write(Complete, false), Write(Record, false)]

  /** The snapshot is published, and the live spec has moved on. */
  ghost predicate Captured(s: State, spec: Option<Spec>) {
    && WellFormed(s) && |s.versions| == 3 && s.phase.Idle? && s.cache == 1
    && Last(s) == M0.(suspend := true, session := Some(Session(Snapshot(1, 0, 1), None)), paused := true)
    && Live(s) == Some(Primary(0, spec, false))
  }

  lemma CaptureRuns(spec: Option<Spec>)
    ensures Captured(Run(INIT, CaptureTrace(spec)), spec)
  {
    hide Captured, Edited;
    var trace := CaptureTrace(spec);
    RunSix(INIT, trace);
    var s1 := INIT.(lives := [None, Some(Primary(0, Some(1), false))], nextUid := 1);
    assert Next(INIT, trace[0]) == s1;
    var s4 := s1.(versions := [M0, M0.(suspend := true)], cache := 1, phase := Capturing(1, Snapshot(1, 0, 1)));
    assert Next(Next(Next(s1, trace[1]), trace[2]), trace[3]) == s4;
    PublishRuns(s4, spec);
  }

  lemma PublishRuns(s: State, spec: Option<Spec>)
    requires WellFormed(s) && s.versions == [M0, M0.(suspend := true)] && s.cache == 1
    requires s.phase == Capturing(1, Snapshot(1, 0, 1)) && Live(s) == Some(Primary(0, Some(1), false))
    ensures WellFormed(Next(s, Write(Publish, false)))
    ensures Captured(Next(Next(s, Write(Publish, false)), LiveEdit(spec)), spec)
  {
  }

  lemma AdoptRuns(s: State, spec: Option<Spec>)
    requires Captured(s, spec)
    ensures AdoptedLive(Run(s, ADOPT_TRACE), spec)
  {
    hide Handle, AdoptedLive;
    RunSix(s, ADOPT_TRACE);
    var m := Last(s).(policy := MergePolicy);
    var s3 := Append(s, m).(cache := 3, phase := Merging(3));
    assert Next(Next(Next(s, ADOPT_TRACE[0]), ADOPT_TRACE[1]), ADOPT_TRACE[2]) == s3 by { MergeRuns(Append(s, m).(cache := 3, phase := Handling(3))); }
    AdoptWrites(s3, spec);
  }

  lemma MergeRuns(s: State)
    requires WellFormed(s) && s.phase.Handling? && Copy(s).suspend && Copy(s).policy.MergePolicy?
    ensures Handle(s, Recheck) == s.(phase := Merging(s.phase.mid))
  {
  }

  lemma AdoptWrites(s: State, spec: Option<Spec>)
    requires WellFormed(s) && |s.versions| == 4 && s.cache == 3 && s.phase == Merging(3)
    requires Last(s) == M0.(suspend := true, policy := MergePolicy, session := Some(Session(Snapshot(1, 0, 1), None)), paused := true)
    requires Live(s) == Some(Primary(0, spec, false))
    ensures var s4 := Next(s, AdoptRead);
      WellFormed(s4) && var s5 := Next(s4, Write(Complete, false));
      WellFormed(s5) && AdoptedLive(Next(s5, Write(Record, false)), spec)
  {
    hide Work;
    AdoptReadRuns(s);
    CompletionRuns(s.(phase := Adopting(3, SpecOf(Live(s).value))));
  }

  /** Adopted states are reachable, with any live spec and with none. */
  lemma AdoptionIsReachable(spec: Option<Spec>)
    ensures exists s :: Reachable(s) && AdoptedLive(s, spec)
  {
    hide Captured, AdoptedLive, Next;
    CaptureRuns(spec);
    var s := Run(INIT, CaptureTrace(spec));
    AdoptRuns(s, spec);
    RunConcat(INIT, CaptureTrace(spec), ADOPT_TRACE);
    assert Reachable(Run(INIT, CaptureTrace(spec) + ADOPT_TRACE));
  }

  // ---- A live resource without a spec, or on its way out -------------------------------

  /**
    A merge resume that still finds the adopted spec passes the check before the write exactly when there is a spec at all
    and the resource is not being deleted.
   */
  lemma RecheckedIsVerifiedIff(m: Mid, live: Option<Primary>)
    requires StillAdopted(m, live) && m.policy.MergePolicy?
    ensures Verified(m, live) <==> live.value.spec.Some? && !live.value.deleting
  {
  }

  /** No update lands on a resource that was being deleted. */
  lemma DeletingIsNeverUpdated(s: State, w: LiveWrite)
    requires Reachable(s) && w in s.log && w.target.Update?
    ensures w.target.base < |s.lives| && s.lives[w.target.base].Some? && !s.lives[w.target.base].value.deleting
  {
    ReachableInv(s);
    assert WriteOk(s, w);
  }

  /** No merge-approved write to the primary resource ever lands on a resource without a spec. */
  lemma MergeNeedsSpec(s: State, w: LiveWrite)
    requires Reachable(s) && w in s.log && !w.target.Child?
    requires w.owner < |s.versions| && s.versions[w.owner].session.Some? && s.versions[w.owner].policy.MergePolicy?
    ensures w.target.Update? && w.target.base < |s.lives| && s.lives[w.target.base].Some? && s.lives[w.target.base].value.spec.Some?
  {
    ReachableInv(s);
    assert WriteOk(s, w);
  }

  function Resume(s: State, result: Spec): seq<Action>
    requires WellFormed(s)
  {
    [Begin(Newest(s)), Recheck, FreshOwner, SendPrimary(result), Stop, Stop]
  }

  /** With an open gate, but a live resource that must not be written, no write is sent. */
  lemma RefusedRuns(s: State, result: Spec)
    requires WellFormed(s) && s.phase == Working(Newest(s)) && !WriteSuspended(Last(s))
    requires !Verified(Last(s), Live(s))
    ensures var s1 := Next(s, FreshOwner); WellFormed(s1) && Next(s1, SendPrimary(result)) == s
  {
  }

  /** An adoption of a resource without a spec: the resume passes every step up to the write, and sends none. */
  lemma AbsentSpecIsNeverWritten(s: State, result: Spec)
    requires AdoptedLive(s, None)
    ensures var t := Run(s, Resume(s, result));
      t.flights == s.flights && t.log == s.log && t.versions == s.versions && t.lives == s.lives && t.phase.Idle?
  {
    hide Next;
    RunSix(s, Resume(s, result));
    ResumeRuns(s);
    RefusedRuns(s.(cache := Newest(s), phase := Working(Newest(s))), result);
    Stops(s.(cache := Newest(s), phase := Working(Newest(s))));
    Stops(s.(cache := Newest(s)).(phase := Idle));
  }

  /** An adopted resource whose deletion begins: the resume passes the same steps, and sends no write either. */
  lemma DeletingIsNeverWritten(s: State, spec: Option<Spec>, result: Spec)
    requires AdoptedLive(s, spec)
    ensures var t := Run(s, [LiveTerminate] + Resume(s, result));
      t.flights == s.flights && t.log == s.log && t.versions == s.versions && t.phase.Idle?
      && t.lives == s.lives + [Some(Primary(Last(s).session.value.snapshot.uid, spec, true))]
  {
    hide Next;
    var u := AppendLive(s, Some(Primary(Last(s).session.value.snapshot.uid, spec, true)));
    Terminates(s);
    assert Resume(s, result) == Resume(u, result);
    RunOne(s, LiveTerminate);
    RunConcat(s, [LiveTerminate], Resume(s, result));
    RunSix(u, Resume(u, result));
    ResumeRuns(u);
    RefusedRuns(u.(cache := Newest(u), phase := Working(Newest(u))), result);
    Stops(u.(cache := Newest(u), phase := Working(Newest(u))));
    Stops(u.(cache := Newest(u)).(phase := Idle));
  }

  lemma Terminates(s: State)
    requires WellFormed(s) && Live(s).Some?
    ensures Next(s, LiveTerminate) == AppendLive(s, Some(Live(s).value.(deleting := true)))
  {
  }

  lemma Stops(s: State)
    requires WellFormed(s)
    ensures Next(s, Stop) == s.(phase := Idle)
  {
  }

  /** With a spec, the same resume sends its write. */
  lemma AdoptedSpecIsWritten(s: State, a: Spec, result: Spec)
    requires Adopted(s, a)
    ensures var t := Run(s, Resume(s, result));
      t.flights == s.flights + {LiveWrite(Newest(s), Newest(s), Update(|s.lives| - 1), result)} && t.versions == s.versions
  {
    hide Next;
    RunSix(s, Resume(s, result));
    ResumeRuns(s);
    var s2 := s.(cache := Newest(s), phase := Working(Newest(s)));
    WritesRun(s2, result);
    var s4 := s2.(flights := s.flights + {LiveWrite(Newest(s), Newest(s), Update(|s.lives| - 1), result)});
    Stops(s4);
    Stops(s4.(phase := Idle));
  }

  // ---- The marker without a session ----------------------------------------------

  /** A refused policy is recorded after the user withdrew it; the next reconcile starts from the version in between. */
  const STALE_STATUS_TRACE: seq<Action> := [
    UserEdit(false, true, Unsupported), Begin(1), UserEdit(false, false, NoPolicy), Write(Fail, false), Begin(2), Proceed]

  /** A marker recorded without a snapshot can be lost: a whole-status write from a cached version puts back older conditions. */
  lemma MarkerWithoutSessionIsLost()
    ensures var s := Run(INIT, STALE_STATUS_TRACE);
      Reachable(s) && Last(s).paused && Last(s).session.None? && !Last(Next(s, Write(Status, false))).paused
  {
    hide Edited, Handle;
    RunSix(INIT, STALE_STATUS_TRACE);
    var refused := M0.(suspend := true, policy := Unsupported);
    var s3 := INIT.(versions := [M0, refused, M0], cache := 1, phase := Handling(1));
    assert Next(Next(Next(INIT, STALE_STATUS_TRACE[0]), STALE_STATUS_TRACE[1]), STALE_STATUS_TRACE[2]) == s3;
    FailRuns(s3);
  }

  lemma FailRuns(s: State)
    requires WellFormed(s) && s.versions == [M0, M0.(suspend := true, policy := Unsupported), M0]
    requires s.cache == 1 && s.phase == Handling(1)
    ensures var s4 := Next(s, Write(Fail, false));
      WellFormed(s4) && var s5 := Next(s4, Begin(2));
      WellFormed(s5) && var s6 := Next(s5, Proceed);
      WellFormed(s6) && Last(s6).paused && Last(s6).session.None? && !Last(Next(s6, Write(Status, false))).paused
  {
    var marked := M0.(paused := true, adoption := Failed);
    assert Next(s, Write(Fail, false)) == s.(versions := s.versions + [marked], phase := Idle);
  }

  /** No write that ends a session, and none that was lost lands late. */
  predicate NoFinalization(actions: seq<Action>) {
    forall i :: 0 <= i < |actions| ==>
      !(actions[i].Write? && actions[i].edit.Clear?) && !(actions[i].DeliverMid? && actions[i].w.edit.Clear?)
  }

  /** The cache may still show a version that is neither suspended nor marked, or a lost write on the newest version drops the marker. */
  ghost predicate Exposed(s: State)
    requires WellFormed(s)
  {
    || (exists n :: s.cache <= n < |s.versions| && !s.versions[n].suspend && !s.versions[n].paused)
    || (exists w :: w in s.pending && w.base == Newest(s) && !w.edit.Clear? && !w.next.paused)
  }

  /** The marker is there to stay: nothing that may still be read or land drops it, and the reconcile at work has seen it. */
  ghost predicate Sealed(s: State) {
    && Inv(s) && Last(s).paused && !Exposed(s)
    && !s.phase.Finalized? && (InProgress(s.phase) ==> Copy(s).paused)
  }

  lemma SealedWrite(s: State, e: Edit)
    requires Sealed(s) && !e.Clear? && Edited(s, e).Some?
    ensures Edited(s, e).value.paused && !After(s.phase, e).Finalized?
    ensures InProgress(After(s.phase, e)) ==> InProgress(s.phase) && After(s.phase, e).mid == s.phase.mid
  {
    hide Inv, Exposed;
  }

  lemma SealedStaysVersion(s: State, m: Mid, phase: Phase, pending: set<MidWrite>)
    requires Sealed(s) && m.paused && pending <= s.pending && !phase.Finalized?
    requires var t := Append(s, m).(phase := phase, pending := pending);
      Inv(t) && (InProgress(phase) ==> InProgress(s.phase) && phase.mid == s.phase.mid)
    ensures Sealed(Append(s, m).(phase := phase, pending := pending))
  {
    hide Versions, CacheSees, PhaseOk, WriteOk;
    var t := Append(s, m).(phase := phase, pending := pending);
    forall w | w in t.pending ensures w.base != Newest(t) { assert PendingOk(s, w); }
  }

  lemma SealedHandle(s: State, a: Action)
    requires Sealed(s) && Inv(Handle(s, a))
    ensures Sealed(Handle(s, a))
  {
    hide Versions, CacheSees, WriteOk, PendingOk;
    if !s.phase.Idle? { assert Copy(s) == s.versions[s.cache]; }
  }

  lemma SealedWork(s: State, a: Action)
    requires Sealed(s) && Inv(Work(s, a))
    ensures Sealed(Work(s, a))
  {
    hide Inv;
  }

  lemma SealedStays(s: State, a: Action)
    requires Sealed(s) && NoFinalization([a])
    ensures Sealed(Next(s, a))
  {
    hide Inv, Handle, Work, Edited, After, LandLive;
    NextPreserves(s, a);
    assert WellFormed(s) && NoFinalization([a]) && [a][0] == a by { hide PhaseOk; InvIsWellFormed(s); }
    match a
    case UserEdit(_, _, _) => SealedStaysVersion(s, Last(Next(s, a)), s.phase, s.pending);
    case Write(e, lost) =>
      if Edited(s, e).Some? {
        SealedWrite(s, e);
        if !lost { SealedStaysVersion(s, Edited(s, e).value, After(s.phase, e), s.pending); }
      }
    case DeliverMid(w) =>
      if w in s.pending && w.base == Newest(s) { SealedStaysVersion(s, w.next, s.phase, s.pending - {w}); }
    case Proceed => SealedHandle(s, a);
    case Recheck => SealedHandle(s, a);
    case CaptureRead => SealedHandle(s, a);
    case AdoptRead => SealedWork(s, a);
    case FreshOwner => SealedWork(s, a);
    case SendChild => SealedWork(s, a);
    case SendPrimary(_) => SealedWork(s, a);
    case DeliverLive(w) => if w in s.flights { LandOnlyLive(s, w); }
    case _ =>
  }

  lemma InvIsWellFormed(s: State)
    requires Inv(s)
    ensures WellFormed(s)
  {
  }

  lemma LandOnlyLive(s: State, w: LiveWrite)
    requires WellFormed(s)
    ensures var t := LandLive(s, w);
      t == s.(lives := t.lives, nextUid := t.nextUid, flights := t.flights, log := t.log)
  {
  }

  lemma {:induction false} SealedRun(s: State, actions: seq<Action>)
    requires Sealed(s) && NoFinalization(actions)
    ensures Last(Run(s, actions)).paused
    decreases |actions|
  {
    hide Next, Inv, Exposed;
    InvIsWellFormed(s);
    if actions != [] {
      assert NoFinalization([actions[0]]) && NoFinalization(actions[1..]);
      SealedStays(s, actions[0]);
      SealedRun(Next(s, actions[0]), actions[1..]);
    }
  }

  lemma RunOne(s: State, a: Action)
    requires WellFormed(s)
    ensures Run(s, [a]) == Next(s, a)
  {
    NextIsWellFormed(s, a);
    assert [a][1..] == [];
    assert Run(Next(s, a), []) == Next(s, a);
  }

  lemma StaleStatusDrops(s: State, n: nat)
    requires WellFormed(s) && s.phase.Idle? && s.cache <= n < |s.versions| && !s.versions[n].suspend && !s.versions[n].paused
    ensures !Last(Run(s, [Begin(n), Proceed, Write(Status, false), Stop, Stop, Stop])).paused
  {
    hide Edited, Handle;
    var actions := [Begin(n), Proceed, Write(Status, false), Stop, Stop, Stop];
    RunSix(s, actions);
    var t := s.(cache := n, phase := Handling(n));
    assert Next(s, actions[0]) == t;
    StaleStatusRuns(t);
  }

  lemma StaleStatusRuns(s: State)
    requires WellFormed(s) && s.phase.Handling? && !Copy(s).suspend && !Copy(s).paused
    ensures Handle(s, Proceed) == s.(phase := Working(s.phase.mid))
    ensures Edited(s.(phase := Working(s.phase.mid)), Status) == Some(Last(s).(paused := false, adoption := Copy(s).adoption))
  {
  }

  lemma ExposedIsDropped(s: State)
    requires WellFormed(s) && s.phase.Idle? && Exposed(s)
    ensures exists actions :: NoFinalization(actions) && !Last(Run(s, actions)).paused
  {
    if n :| s.cache <= n < |s.versions| && !s.versions[n].suspend && !s.versions[n].paused {
      var actions := [Begin(n), Proceed, Write(Status, false), Stop, Stop, Stop];
      StaleStatusDrops(s, n);
      assert NoFinalization(actions) && !Last(Run(s, actions)).paused;
    } else {
      var w :| w in s.pending && w.base == Newest(s) && !w.edit.Clear? && !w.next.paused;
      RunOne(s, DeliverMid(w));
      assert NoFinalization([DeliverMid(w)]) && !Last(Run(s, [DeliverMid(w)])).paused;
    }
  }

  /**
    Between reconciles, some run without a finalization drops a marker if and only if the cache may still show a version
    that is neither suspended nor marked, or a lost write on the newest version drops it.
   */
  lemma MarkerIsLostIffExposed(s: State)
    requires Reachable(s) && s.phase.Idle? && Last(s).paused
    ensures (exists actions :: NoFinalization(actions) && !Last(Run(s, actions)).paused) <==> Exposed(s)
  {
    hide Exposed;
    ReachableInv(s);
    if Exposed(s) {
      ExposedIsDropped(s);
    } else {
      forall actions | NoFinalization(actions) ensures Last(Run(s, actions)).paused { SealedRun(s, actions); }
    }
  }

  /** The marker of a session is never exposed: from any state, no run without a finalization drops it. */
  lemma MarkerOfSessionStays(s: State, actions: seq<Action>)
    requires Reachable(s) && Last(s).session.Some? && NoFinalization(actions)
    ensures Last(s).paused && !Exposed(s) && Last(Run(s, actions)).paused
  {
    ReachableInv(s);
    assert MidOk(Last(s));
    forall w | w in s.pending && w.base == Newest(s) && !w.edit.Clear? ensures w.next.paused { assert PendingOk(s, w); }
    if !s.phase.Idle? { assert Copy(s) == s.versions[s.cache]; }
    SealedRun(s, actions);
  }
}
