/** What undisturbed reconciles make of a pause: capture, refusal, and the two ways to resume, version by version. */
module PauseProgress {
  import opened Options
  import opened PauseMachine
  import opened PauseSafety
  import opened PauseResults

  /** The i-th action leads from s to t. */
  lemma Follow(s: State, actions: seq<Action>, i: nat, t: State)
    requires WellFormed(s) && i < |actions| && Next(s, actions[i]) == t
    ensures WellFormed(t) && Run(s, actions[i..]) == Run(t, actions[i + 1..])
  {
    hide Next;
    NextIsWellFormed(s, actions[i]);
    assert actions[i..][1..] == actions[i + 1..];
  }

  lemma Finish(s: State, actions: seq<Action>)
    requires WellFormed(s)
    ensures Run(s, actions[|actions|..]) == s && actions[0..] == actions
  {
    assert actions[|actions|..] == [];
  }

  lemma Begins(s: State)
    requires WellFormed(s) && s.phase.Idle?
    ensures Next(s, Begin(Newest(s))) == s.(cache := Newest(s), phase := Handling(Newest(s)))
  {
  }

  /** A reconcile at work on the newest version. */
  function At(s: State, phase: Phase): State
    requires WellFormed(s)
  {
    s.(cache := Newest(s), phase := phase)
  }

  // ---- Pausing ---------------------------------------------------------------------------

  function Capture(s: State): seq<Action>
    requires WellFormed(s)
  {
    [Begin(Newest(s)), CaptureRead, Write(Publish, false)]
  }

  /** A suspension opens a session with a snapshot of the live spec, marks it, and closes the gate. */
  lemma PauseIsCaptured(s: State)
    requires WellFormed(s) && s.phase.Idle? && Live(s).Some?
    requires Last(s).suspend && Last(s).policy.NoPolicy? && Last(s).session.None?
    ensures var t := Run(s, Capture(s));
      var snapshot := Snapshot(Newest(s), Live(s).value.uid, SpecOf(Live(s).value));
      && t == s.(versions := t.versions, cache := Newest(s))
      && t.versions == s.versions + [Last(s).(session := Some(Session(snapshot, None)), paused := true, adoption := Unknown)]
      && WriteSuspended(Last(t))
  {
    hide Next;
    var actions := Capture(s);
    var snapshot := Snapshot(Newest(s), Live(s).value.uid, SpecOf(Live(s).value));
    var s2 := At(s, Capturing(Newest(s), snapshot));
    var m := Last(s).(session := Some(Session(snapshot, None)), paused := true, adoption := Unknown);
    Begins(s);
    Captures(At(s, Handling(Newest(s))), snapshot);
    Publishes(s2, m);
    Follow(s, actions, 0, At(s, Handling(Newest(s))));
    Follow(At(s, Handling(Newest(s))), actions, 1, s2);
    Follow(s2, actions, 2, Append(s2, m).(phase := Idle));
    Finish(Append(s2, m).(phase := Idle), actions);
  }

  lemma Captures(s: State, snapshot: Snapshot)
    requires WellFormed(s) && s.phase == Handling(Newest(s)) && Live(s).Some?
    requires Last(s).suspend && Last(s).policy.NoPolicy? && Last(s).session.None?
    requires snapshot == Snapshot(Newest(s), Live(s).value.uid, SpecOf(Live(s).value))
    ensures Next(s, CaptureRead) == s.(phase := Capturing(Newest(s), snapshot))
  {
  }

  lemma Publishes(s: State, m: Mid)
    requires WellFormed(s) && s.phase.Capturing? && s.phase.mid == Newest(s)
    requires Last(s).suspend && Last(s).policy.NoPolicy? && Last(s).session.None?
    requires m == Last(s).(session := Some(Session(s.phase.snapshot, None)), paused := true, adoption := Unknown)
    ensures Next(s, Write(Publish, false)) == Append(s, m).(phase := Idle)
  {
  }

  /** A session that is still suspended is only marked again, and forgets an earlier adoption or refusal. */
  lemma PauseIsMarked(s: State)
    requires WellFormed(s) && s.phase.Idle? && Last(s).suspend && Last(s).policy.NoPolicy? && Last(s).session.Some?
    ensures var t := Run(s, [Begin(Newest(s)), Write(Mark, false)]);
      t == s.(versions := s.versions + [Last(s).(paused := true, adoption := Unknown)], cache := Newest(s))
  {
    hide Next;
    var actions := [Begin(Newest(s)), Write(Mark, false)];
    Begins(s);
    Marks(At(s, Handling(Newest(s))));
    var t := Append(At(s, Idle), Last(s).(paused := true, adoption := Unknown));
    Follow(s, actions, 0, At(s, Handling(Newest(s))));
    Follow(At(s, Handling(Newest(s))), actions, 1, t);
    Finish(t, actions);
  }

  lemma Marks(s: State)
    requires WellFormed(s) && s.phase == Handling(Newest(s)) && Last(s).suspend && Last(s).policy.NoPolicy? && Last(s).session.Some?
    ensures Next(s, Write(Mark, false)) == Append(s, Last(s).(paused := true, adoption := Unknown)).(phase := Idle)
  {
  }

  /** A paused Middleware without a supported policy: nothing is written but the marker and the refusal. */
  lemma RefusalIsRecorded(s: State)
    requires WellFormed(s) && s.phase.Idle?
    requires if Last(s).suspend then Last(s).policy.Unsupported? else Last(s).paused && !Approved(Last(s).policy)
    ensures var t := Run(s, [Begin(Newest(s)), Write(Fail, false)]);
      && t == s.(versions := s.versions + [Last(s).(paused := true, adoption := Failed)], cache := Newest(s))
      && WriteSuspended(Last(t))
  {
    hide Next;
    var actions := [Begin(Newest(s)), Write(Fail, false)];
    Begins(s);
    Fails(At(s, Handling(Newest(s))));
    var t := Append(At(s, Idle), Last(s).(paused := true, adoption := Failed));
    Follow(s, actions, 0, At(s, Handling(Newest(s))));
    Follow(At(s, Handling(Newest(s))), actions, 1, t);
    Finish(t, actions);
  }

  lemma Fails(s: State)
    requires WellFormed(s) && s.phase == Handling(Newest(s)) && (Last(s).suspend || Last(s).paused) && !Approved(Last(s).policy)
    ensures Next(s, Write(Fail, false)) == Append(s, Last(s).(paused := true, adoption := Failed)).(phase := Idle)
  {
  }

  /** A merge whose resource is missing, replaced or being deleted adopts nothing, keeps the suspension, and is recorded as failed. */
  lemma MergeNeedsResource(s: State)
    requires WellFormed(s) && s.phase.Idle? && Last(s).suspend && Last(s).policy.MergePolicy? && Last(s).session.Some?
    requires Live(s).None? || Live(s).value.uid != Last(s).session.value.snapshot.uid || Live(s).value.deleting
    ensures var t := Run(s, [Begin(Newest(s)), Recheck, AdoptRead, Write(Fail, false)]);
      t == s.(versions := s.versions + [Last(s).(paused := true, adoption := Failed)], cache := Newest(s))
  {
    hide Next;
    var actions := [Begin(Newest(s)), Recheck, AdoptRead, Write(Fail, false)];
    var s1, s2 := At(s, Handling(Newest(s))), At(s, Merging(Newest(s)));
    var t := Append(At(s, Idle), Last(s).(paused := true, adoption := Failed));
    Begins(s);
    Rechecks(s1);
    MergeFails(s2);
    Follow(s, actions, 0, s1);
    Follow(s1, actions, 1, s2);
    Follow(s2, actions, 2, s2);
    Follow(s2, actions, 3, t);
    Finish(t, actions);
  }

  lemma Rechecks(s: State)
    requires WellFormed(s) && s.phase.Handling? && Copy(s).suspend && Copy(s).policy.MergePolicy?
    ensures Next(s, Recheck) == s.(phase := Merging(s.phase.mid))
  {
  }

  lemma MergeFails(s: State)
    requires WellFormed(s) && s.phase == Merging(Newest(s)) && Last(s).suspend && Last(s).policy.MergePolicy? && Last(s).session.Some?
    requires Live(s).None? || Live(s).value.uid != Last(s).session.value.snapshot.uid || Live(s).value.deleting
    ensures Next(s, AdoptRead) == s
    ensures Next(s, Write(Fail, false)) == Append(s, Last(s).(paused := true, adoption := Failed)).(phase := Idle)
  {
  }

  // ---- Resuming ---------------------------------------------------------------------------

  function WriteOf(s: State, result: Spec): LiveWrite
    requires WellFormed(s)
  {
    LiveWrite(Newest(s), Newest(s), Update(|s.lives| - 1), result)
  }

  /** A reconcile on the newest version that finds no primary resource creates it. */
  lemma CreatesRun(s: State, result: Spec)
    requires WellFormed(s) && s.phase == Working(Newest(s)) && !WriteSuspended(Last(s))
    requires Live(s).None? && Verified(Last(s), None)
    ensures var w := LiveWrite(Newest(s), Newest(s), Create, result);
      var s1 := Next(s, FreshOwner);
      WellFormed(s1) && var s2 := Next(s1, SendPrimary(result));
      s2 == s.(flights := s.flights + {w}) && WellFormed(s2) && var t := Next(s2, DeliverLive(w));
      t.versions == s.versions && t.log == s.log + [w] && t.lives == s.lives + [Some(Primary(s.nextUid, Some(result), false))]
  {
    hide Verified, WriteSuspended;
  }

  /** The end of a resume: desired state is sent, the policy is consumed, and the session is cleared. */
  function Finalize(result: Spec): seq<Action> {
    [FreshOwner, SendPrimary(result), Write(Consume, false), Write(Clear, false)]
  }

  lemma Finalizes(s: State, result: Spec)
    requires WellFormed(s) && s.phase == Working(Newest(s)) && !Last(s).suspend && Last(s).paused && Approved(Last(s).policy)
    requires Live(s).Some? && !Live(s).value.deleting && Verified(Last(s), Live(s))
    ensures var t := Run(s, Finalize(result)); var m := Last(s);
      && t.flights == s.flights + {WriteOf(s, result)} && t.lives == s.lives && t.log == s.log
      && t.versions == s.versions + [m.(policy := NoPolicy), m.(policy := NoPolicy, session := None, paused := false, adoption := Unknown)]
  {
    hide Next, Verified, Approved;
    var actions := Finalize(result);
    WritesRun(s, result);
    var s1, s2 := Next(s, FreshOwner), s.(flights := s.flights + {WriteOf(s, result)});
    FinalizationEndsSession(s2);
    var s3 := Next(s2, Write(Consume, false));
    var s4 := Next(s3, Write(Clear, false));
    Consumes(s2);
    Follow(s, actions, 0, s1);
    Follow(s1, actions, 1, s2);
    Follow(s2, actions, 2, s3);
    Follow(s3, actions, 3, s4);
    Finish(s4, actions);
  }

  lemma Consumes(s: State)
    requires WellFormed(s) && s.phase == Working(Newest(s)) && Last(s).paused && Approved(Last(s).policy)
    ensures var m := Last(s); var s3 := Append(s, m.(policy := NoPolicy)).(phase := Finalizing(Newest(s)));
      && Next(s, Write(Consume, false)) == s3
      && Next(s3, Write(Clear, false)) ==
           Append(s3, m.(policy := NoPolicy, session := None, paused := false, adoption := Unknown)).(phase := Finalized(Newest(s)))
  {
  }

  /** From a suspension with an approved apply: one reconcile lifts the suspension, the next one writes and finalizes. */
  function ApplyResume(s: State, result: Spec): seq<Action>
    requires WellFormed(s)
  {
    [Begin(Newest(s)), Write(Complete, false), Begin(Newest(s) + 1), Proceed] + Finalize(result)
  }

  /**
    An apply resume lifts the suspension and keeps policy, overrides and session; then desired state is sent, the policy is
    consumed, and the session ends. Nothing is adopted on the way.
   */
  lemma ApplyResumes(s: State, result: Spec)
    requires Reachable(s) && s.phase.Idle? && Last(s).session.Some? && Last(s).suspend && Last(s).policy.ApplyPolicy?
    requires Live(s).Some? && !Live(s).value.deleting
    ensures var t := Run(s, ApplyResume(s, result)); var m := Last(s).(suspend := false);
      && t.versions == s.versions
           + [m, m.(policy := NoPolicy), m.(policy := NoPolicy, session := None, paused := false, adoption := Unknown)]
      && t.flights == s.flights + {LiveWrite(|s.versions|, |s.versions|, Update(|s.lives| - 1), result)}
      && t.lives == s.lives && t.log == s.log && !WriteSuspended(Last(t))
  {
    hide Next, Inv;
    ReachableInv(s);
    SessionIsMarked(s);
    var actions := ApplyResume(s, result);
    var xs := [Begin(Newest(s)), Write(Complete, false), Begin(Newest(s) + 1), Proceed];
    var s1 := At(s, Handling(Newest(s)));
    var s2 := Append(At(s, Idle), Last(s).(suspend := false));
    var s3, s4 := At(s2, Handling(Newest(s2))), At(s2, Working(Newest(s2)));
    Begins(s);
    ApplyCompletes(s1);
    Begins(s2);
    AppliedProceeds(s3);
    Follow(s, xs, 0, s1);
    Follow(s1, xs, 1, s2);
    Follow(s2, xs, 2, s3);
    Follow(s3, xs, 3, s4);
    Finish(s4, xs);
    RunConcat(s, xs, Finalize(result));
    Finalizes(s4, result);
  }

  lemma SessionIsMarked(s: State)
    requires Inv(s) && Last(s).session.Some?
    ensures Last(s).paused
  {
    hide CacheSees, PhaseOk, PendingOk, WriteOk, Ordered;
    assert MidOk(Last(s));
  }

  lemma ApplyCompletes(s: State)
    requires WellFormed(s) && s.phase == Handling(Newest(s)) && Last(s).suspend && Last(s).policy.ApplyPolicy?
    ensures Next(s, Write(Complete, false)) == Append(s, Last(s).(suspend := false)).(phase := Idle)
  {
  }

  lemma AppliedProceeds(s: State)
    requires WellFormed(s) && s.phase == Handling(Newest(s)) && !Last(s).suspend && Last(s).policy.ApplyPolicy?
    ensures Next(s, Proceed) == s.(phase := Working(Newest(s)))
  {
  }

  /** From a suspension with an approved merge: one reconcile adopts and records, the next one writes and finalizes. */
  function MergeResume(s: State, result: Spec): seq<Action>
    requires WellFormed(s)
  {
    MergeAdopt(s) + ([Begin(Newest(s) + 2), Recheck] + Finalize(result))
  }

  function MergeAdopt(s: State): seq<Action>
    requires WellFormed(s)
  {
    [Begin(Newest(s)), Recheck, AdoptRead, Write(Complete, false), Write(Record, false)]
  }

  /** The two versions of an adoption: overrides from the live spec without the suspension, then its record. */
  function Completed(m: Mid, spec: Spec): Mid
    requires m.session.Some?
  {
    var o := AdoptedFrom(m.session.value.snapshot, spec);
    m.(suspend := false, overrides := o, generation := m.generation + if o == m.overrides then 0 else 1)
  }

  function Recorded(m: Mid, spec: Spec): Mid
    requires m.session.Some?
  {
    Completed(m, spec).(session := Some(Session(m.session.value.snapshot, Some(spec))), adoption := Succeeded)
  }

  /** One reconcile adopts the live spec over the snapshot, lifts the suspension and records the adoption. */
  lemma MergeAdopts(s: State, spec: Spec)
    requires WellFormed(s) && s.phase.Idle? && Last(s).session.Some? && Last(s).suspend && Last(s).policy.MergePolicy?
    requires Live(s) == Some(Primary(Last(s).session.value.snapshot.uid, Some(spec), false))
    ensures Run(s, MergeAdopt(s)) ==
      s.(versions := s.versions + [Completed(Last(s), spec), Recorded(Last(s), spec)], cache := Newest(s))
  {
    hide Next, Completed, Recorded;
    var xs, m, n := MergeAdopt(s), Last(s), Newest(s);
    var s1, s2, s3 := At(s, Handling(n)), At(s, Merging(n)), At(s, Adopting(n, spec));
    var s4 := Append(s3, Completed(m, spec)).(phase := Phase.Completed(n, spec));
    var s5 := Append(s4, Recorded(m, spec)).(phase := Idle);
    Begins(s);
    Rechecks(s1);
    MergeReads(s2, spec);
    MergeCompletes(s3);
    MergeRecords(s4, s3, spec);
    Follow(s, xs, 0, s1);
    Follow(s1, xs, 1, s2);
    Follow(s2, xs, 2, s3);
    Follow(s3, xs, 3, s4);
    Follow(s4, xs, 4, s5);
    Finish(s5, xs);
    assert s.versions + [Completed(m, spec)] + [Recorded(m, spec)] == s.versions + [Completed(m, spec), Recorded(m, spec)];
  }

  /** The next one passes both checks, writes and finalizes. */
  lemma MergeWrites(s: State, result: Spec)
    requires WellFormed(s) && s.phase.Idle? && Last(s).session.Some? && Last(s).session.value.adopted.Some?
    requires !Last(s).suspend && Last(s).paused && Last(s).policy.MergePolicy? && Last(s).adoption.Succeeded?
    requires Live(s) == Some(Primary(Last(s).session.value.snapshot.uid, Last(s).session.value.adopted, false))
    ensures var t := Run(s, [Begin(Newest(s)), Recheck] + Finalize(result)); var m := Last(s);
      && t.flights == s.flights + {WriteOf(s, result)} && t.lives == s.lives && t.log == s.log
      && t.versions == s.versions + [m.(policy := NoPolicy), m.(policy := NoPolicy, session := None, paused := false, adoption := Unknown)]
  {
    hide Next, Verified;
    var xs := [Begin(Newest(s)), Recheck];
    var s1, s2 := At(s, Handling(Newest(s))), At(s, Working(Newest(s)));
    Begins(s);
    ResumeRuns(s);
    Follow(s, xs, 0, s1);
    Follow(s1, xs, 1, s2);
    Finish(s2, xs);
    RunConcat(s, xs, Finalize(result));
    VerifiedNow(s2);
    Finalizes(s2, result);
  }

  /**
    A merge resume adopts exactly the live spec over the snapshot of its session, lifts the suspension, records the adoption,
    and then writes desired state, consumes the policy and ends the session.
   */
  lemma MergeResumes(s: State, spec: Spec, result: Spec)
    requires Reachable(s) && s.phase.Idle? && Last(s).session.Some? && Last(s).suspend && Last(s).policy.MergePolicy?
    requires Live(s) == Some(Primary(Last(s).session.value.snapshot.uid, Some(spec), false))
    ensures var t := Run(s, MergeResume(s, result)); var m := Recorded(Last(s), spec);
      && t.versions == s.versions + [Completed(Last(s), spec), m]
           + [m.(policy := NoPolicy), m.(policy := NoPolicy, session := None, paused := false, adoption := Unknown)]
      && t.flights == s.flights + {LiveWrite(|s.versions| + 1, |s.versions| + 1, Update(|s.lives| - 1), result)}
      && t.lives == s.lives && t.log == s.log && !WriteSuspended(Last(t))
  {
    hide Next, Inv, Run;
    ReachableInv(s);
    SessionIsMarked(s);
    MergeAdopts(s, spec);
    RunConcat(s, MergeAdopt(s), [Begin(Newest(s) + 2), Recheck] + Finalize(result));
    MergeWrites(Run(s, MergeAdopt(s)), result);
  }

  lemma VerifiedNow(s: State)
    requires WellFormed(s) && Last(s).session.Some? && Last(s).session.value.adopted.Some?
    requires Live(s) == Some(Primary(Last(s).session.value.snapshot.uid, Last(s).session.value.adopted, false))
    ensures Verified(Last(s), Live(s))
  {
  }

  lemma MergeReads(s: State, spec: Spec)
    requires WellFormed(s) && s.phase == Merging(Newest(s)) && Last(s).session.Some?
    requires Live(s) == Some(Primary(Last(s).session.value.snapshot.uid, Some(spec), false))
    ensures Next(s, AdoptRead) == s.(phase := Adopting(Newest(s), spec))
  {
  }

  lemma MergeCompletes(s: State)
    requires WellFormed(s) && s.phase.Adopting? && s.phase.mid == Newest(s) && Last(s).session.Some?
    ensures Next(s, Write(Complete, false)) ==
      Append(s, Completed(Last(s), s.phase.spec)).(phase := Phase.Completed(s.phase.mid, s.phase.spec))
  {
  }

  lemma MergeRecords(s: State, start: State, spec: Spec)
    requires WellFormed(start) && WellFormed(s) && Last(start).session.Some? && start.cache == Newest(start)
    requires s == Append(start, Completed(Last(start), spec)).(phase := Phase.Completed(Newest(start), spec))
    ensures Next(s, Write(Record, false)) == Append(s, Recorded(Last(start), spec)).(phase := Idle)
  {
  }

  // ---- Writes that find something else ------------------------------------------------------

  /** A policy or a session that changed while the reconcile was at work is not consumed. */
  lemma ChangedIsNotConsumed(s: State)
    requires WellFormed(s) && s.phase.Working?
    requires Last(s).policy != Copy(s).policy || (Copy(s).session.Some? && SnapshotOf(Last(s)) != SnapshotOf(Copy(s)))
    ensures Next(s, Write(Consume, false)) == s
  {
  }

  /** An approval is completed only for the version of the spec, the session and the policy it was given for. */
  lemma ChangedIsNotCompleted(s: State)
    requires WellFormed(s) && !s.phase.Idle?
    requires Last(s).generation != Copy(s).generation || Last(s).policy != Copy(s).policy
             || (Copy(s).session.Some? && SnapshotOf(Last(s)) != SnapshotOf(Copy(s)))
    ensures Next(s, Write(Complete, false)) == s
  {
  }

  /** A record that finds another session, or none, leaves its hash alone, but still reports the adoption as succeeded. */
  lemma RecordOfAnotherSession(s: State)
    requires WellFormed(s) && s.phase.Completed? && SnapshotOf(Last(s)) != SnapshotOf(Copy(s))
    ensures Next(s, Write(Record, false)) == Append(s, Last(s).(adoption := Succeeded)).(phase := Idle)
  {
  }

  /** The status update at the end of a finalized reconcile drops whatever marker was set in between. */
  lemma FinalizedStatusClears(s: State)
    requires WellFormed(s) && s.phase.Finalized?
    ensures Next(s, Write(Status, false)) == Append(s, Last(s).(paused := false, adoption := Unknown))
  {
  }

  /** A write that found no resource overwrites whatever resource has appeared since. */
  lemma CreateOverwrites(s: State, w: LiveWrite)
    requires WellFormed(s) && w in s.flights && w.target.Create? && Live(s).Some?
    ensures var t := Next(s, DeliverLive(w));
      t.lives == s.lives + [Some(Live(s).value.(spec := Some(w.spec)))] && t.log == s.log + [w]
  {
  }
}
