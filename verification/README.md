# OpenSaola: publication, merge and pause, verified

OpenSaola is a Kubernetes operator. Its controllers write managed resources that other people and other controllers
edit as well, so they keep a record of the last intent they wrote, merge three ways against the live object, and let a
user pause reconciliation, change the live resource by hand, and have the changes adopted. This project models that
core in Dafny and proves what it keeps under every interleaving and for every input.

`dafny verify dfyconfig.toml` checks the whole project.

## Layout

* **Intent records and their collector.** `IntentProtocol` is a transition system of an API server, versioned objects,
  immutable record Secrets, requests in flight and clients that may stop at any point. One transition is one API call,
  one client decision, or one act of the environment. It covers the managed-resource writer (prepare, commit, cleanup,
  initialization retries), Action edits that carry a pointer they read, pause snapshots with reusable deterministic
  names (the pointer is then `status.reconcilePause`), and the collector with its fence. `IntentInvariant` and
  `IntentSteps` hold the inductive invariant and its preservation by every action; `IntentSafety` the results;
  `IntentProgress` what undisturbed clients achieve; `IntentPrograms` the loops of the collector and of the initializing
  writer as programs, with the others acting between any two calls.
* **Schema-aware three-way merge.** `FieldTrie` (path sets and their walks), `Trees` (typed documents and the four
  operations the merge composes: compare, remove, extract, merge), `IntentMerge` (the decisions), `IntentMeaning` (what
  they come to, path by path), `IntentReport` and `RedactedPaths` (the loops, the redacted report, and what it still
  tells), `IntentDefaults` (API defaults), `ObservedChanges` (adopting an observed delta).
* **Pause, adopt, resume.** `MergePatch` (RFC 7396, section 2), `OverrideMerge` (the re-filtered override patch as a
  three-way merge), `ReconcileAdoption` and `AdoptionMeaning` (adoption and application of overrides, and what stands in
  the next render), `PauseMachine`, `PauseSafety`, `PauseResults` (the state machine of one Middleware with stale cached
  reads, lost and late writes, user edits and live edits), `PauseProgress` (what undisturbed reconciles make of a
  pause), `PauseUpgrade` (what the write of a package upgrade undoes), `PauseLedger` (which adoption overrides and hash
  come from, along a run), `PauseConditions` (the marker and the write gate).
* **Supporting algorithms.** `Topology` (reachable types of a merge topology), `KeyedMerge`, `KeyedLaws` and
  `KeyedTwice` (the deep merge of parameter documents, when names stay unique, and when a merge may be repeated),
  `Inventory` (normalization and pruning, with others at work between its reads and deletions),
  `ConfigurationOwnership`, `ConfigurationTransfer` and `ConfigurationClaims` (who owns a rendered resource, when that
  may change, and who may object), `StatusWriters` (concurrent status writers). `SortedStrings` and `Options` are
  shared.

## Assumptions

* UIDs, resourceVersions, generated Secret names and request identities are never reused. An accepted write that changes
  something gets a new resourceVersion; a failed UID or resourceVersion test applies nothing (RFC 6902, section 5).
* A request is delivered at most once, though arbitrarily late, and its answer may be lost.
  `IntentSafety.DuplicateDeliveryDangles` shows that the assumption is needed.
* People outside the operator may clear an intent pointer, but do not write another one, and do not edit record Secrets.
* Hashes of specs and of snapshots are injective. Reconciles of one Middleware are serial and its cache never goes back.
* Users edit the spec and the annotations of a Middleware, but do not write `spec.reconcileOverrides`.
* Documents of one merge conform to one schema, and no JSON value is null, except where a patch uses null to delete.

## What does not hold

Each of these is a property one would expect, an input or a run for which the code does not have it, and the condition
under which it does.

* At-most-once delivery is needed. `IntentSafety.DuplicateDeliveryDangles`: an applied initialization patch that is
  delivered again, and then refused, makes its writer discard the record that is published.
  `IntentSafety.RefusedCopyDangles`: a refused first copy and a late second one do the same to every publication,
  initializing or not. With at-most-once delivery there is no such run (`IntentSafety.NoDanglingPointer`).
* Overrides and recorded hash can belong to different adoptions, in two ways. `PauseResults.UnrecordedAdoptionIsWritten`:
  if the controller stops between the two writes of a second adoption, and the live spec returns to the first, desired
  state with the overrides of the second is written over it. `PauseUpgrade.UpgradeRevertsAdoption`: with every adoption
  recorded, a package upgrade from a cached version of the first adoption puts its overrides back, and they are written
  over the second one. The two agree if and only if the overrides that were written last, by a completion or by an upgrade,
  are those of the adoption recorded last, or of one that read the same spec: `PauseLedger.OverridesMatchHash` for every
  version of every run, `PauseLedger.LandedMergeIffRecorded` for every write that landed.
* A package upgrade erases a suspend annotation that was set after its copy was read, and the next reconcile writes
  (`PauseUpgrade.SuspendIsErased`). After an upgrade the gate is closed if and only if the newest version was marked as
  paused and the copy had no supported policy (`PauseUpgrade.GateAfterUpgrade`).
* A pause marker without a snapshot can be dropped by a whole-status update computed from an older cached version
  (`PauseResults.MarkerWithoutSessionIsLost`). A marker can be lost without a finalization if and only if the cache may
  still show a version that is neither suspended nor marked, or a lost write on the newest version drops it
  (`PauseResults.MarkerIsLostIffExposed`); with a snapshot that is never so (`PauseResults.MarkerOfSessionStays`).
* A live primary resource without a spec is adopted as the empty spec, but the check before the write reads it as null; and
  only that check refuses a resource that is being deleted. Such adoptions are reachable
  (`PauseResults.AdoptionIsReachable`) and their resume never writes (`PauseResults.AbsentSpecIsNeverWritten`,
  `PauseResults.DeletingIsNeverWritten`); the two checks agree if and only if there is a spec and no deletion
  (`PauseResults.RecheckedIsVerifiedIff`).
* Inventory deletion is by name, after an earlier read, without a precondition. `Inventory.ForeignObjectIsRemoved`: an
  object of anybody that appears under the name in between is deleted. The deleted object is the checked one if and only
  if it was not replaced in between (`Inventory.RemovalHitsCheckedIffNotReplaced`).
* The inventory key contains the API version, so after a template moves to a new version the entry of the old version
  removes the object that was just rendered (`Inventory.VersionChangeRemovesRendered`);
  `Inventory.RenderedIsDoomedIff` says exactly when an object that is rendered now is removed.
* A living owner can lose a configuration resource to another one: a writer that found nothing sends a forced Apply
  without a guard, and the resource may have appeared in the meantime (`ConfigurationTransfer.LivingOwnerLosesResource`).
  `ConfigurationTransfer.TakenFromLivingIffDisplaced` says, over all runs, exactly which writes take a resource from a
  living owner; guarded writes never do (`ConfigurationTransfer.OwnershipMovesFromTheDead`).
* List elements are also matched by `serviceAccountName`, which can turn a list with unique names into one that repeats a
  name (`KeyedLaws.SecondKeyBreaksNames`). Names stay unique if and only if no new element agrees with two old ones
  (`KeyedLaws.NamesStayUniqueIff`), and stay in their order if and only if elements meet by name alone
  (`KeyedLaws.NamesInOrderIffByName`). Unique names are not enough for idempotence (`KeyedLaws.RenamedIsNotIdempotent`): a
  list of plain records may be merged again if and only if every new element without an account is found by its name in
  the result (`KeyedTwice.MergeTwiceIff`), and its values win if and only if every new name is
  (`KeyedTwice.NewValuesWinIff`).
* An unguarded write of the primary resource overwrites a resource that appeared after its read
  (`PauseProgress.CreateOverwrites`); the merge policy never sends one (`PauseResults.MergeNeedsSpec`). A stale edit lands if
  and only if it was not guarded and read neither a pointer nor a fence (`IntentProgress.StaleEditLandsIff`).
* `ReconcileAdoption.AdoptionRoundTrip`: overrides adopted for a target without group, version or kind are refused when
  they are applied; for every other target the round trip holds.

## Model

| member | source | states |
|---|---|---|
| IntentSafety.NoDanglingPointer | internal/k8s/resource_intent_gc.go:120-205 | In every reachable state, under any interleaving of writers, edits, retries, crashes and the collector, the record a live object points to was issued for that object and still exists while its owner does |
| IntentSafety.PauseReferenceExists | internal/k8s/reconcile_pause_snapshot.go:163-209 | A pause reference in the status always names an existing Secret, although names are deterministic, reusable and cleaned up concurrently |
| IntentSafety.DeletedCannotBePublished | internal/k8s/resource_intent_gc.go:202-204 | A request in flight that names a deleted record fails its UID and resourceVersion tests |
| IntentSafety.PublicationIsAtomic | internal/k8s/resource_intent.go:227-322 | A record becomes referenced only at the one UID and version it is bound to, while the Secret exists; a reconcile writes the record's business content in the same request, an initialization sets the pointer alone and leaves the content of that version as it is |
| IntentSafety.DeletionIsFinal | internal/k8s/resource_intent.go:271-294 | Once a record is deleted under a living owner, no later run makes anything point to it again |
| IntentSafety.DuplicateDeliveryDangles | internal/k8s/resource_intent.go:312-344 | A concrete run in which one repeated delivery of an applied initialization patch leaves a dangling pointer |
| IntentSafety.RefusedCopyDangles | internal/k8s/resource_intent.go:271-322 | From every reachable state in which a writer waits for a publication whose tests hold, a refused first copy and a second one leave a dangling pointer, for reconciles as for initializations |
| IntentProgress.ReconcilePublishes | internal/k8s/resource_intent.go:368-515 | An undisturbed reconcile publishes the new content together with a new record of it, discards the previous record, and changes nothing else |
| IntentProgress.EditKeepsPointer | internal/k8s/customresource.go:199-217 | An undisturbed edit writes its content and keeps pointer, fence and records |
| IntentProgress.StaleEditLandsIff | internal/k8s/customresource.go:199-217 | A stale edit lands over somebody else's change if and only if it was not asked to be guarded and the object it read had neither a pointer nor a fence |
| IntentProgress.SnapshotIsPublished | internal/k8s/reconcile_pause_snapshot.go:51-183 | A Middleware without a pause reference gets one, to a Secret that holds its snapshot |
| IntentProgress.PausedKeepsSnapshot | internal/k8s/reconcile_pause_snapshot.go:166-183 | One that has a reference keeps it |
| IntentProgress.DetachedSnapshotIsDeleted | internal/k8s/reconcile_pause_snapshot.go:188-209 | A detached snapshot of a Middleware that moved on is deleted by the cleanup |
| IntentSteps.FencedIsDead | internal/k8s/resource_intent_gc.go:260-290 | A fence that came back with a new version makes every delayed publication of its record fail |
| IntentSteps.RefusedIsDead | internal/k8s/resource_intent.go:281-294 | A definite refusal of the only patch that names a record means that nothing can publish it any more |
| IntentSteps.AppliedKillsPrevious | internal/k8s/resource_intent.go:508-513 | A successful commit makes the previous record unreachable, so it may be discarded |
| IntentSteps.MovedOnIsDead | internal/k8s/resource_intent_gc.go:185-204 | A record whose target moved past its version without pointing to it is unreachable |
| IntentSteps.UnsentIsDead | internal/k8s/configuration_adoption.go:205-211 | A record whose patch was never sent may be discarded when the recheck fails |
| IntentSteps.EditReadPreserves | internal/k8s/customresource.go:199-213 | An Action edit that carries a pointer keeps the guard of the read it came from, and so cannot revive a deleted record |
| IntentSteps.CapturePreparePreserves | internal/k8s/reconcile_pause_snapshot.go:51-111 | Preparing a snapshot again under its deterministic name, even after it was collected, keeps the invariant |
| IntentSteps.CleanupPausePreserves | internal/k8s/reconcile_pause_snapshot.go:188-209 | Cleanup after finalization deletes only a detached snapshot whose Middleware moved on |
| IntentSteps.CollectTargetPreserves | internal/k8s/resource_intent_gc.go:207-249 | Reading the target sends the collector to deletion only for records out of reach, otherwise to the fence or away |
| IntentSteps.NextPreserves | internal/k8s/resource_intent.go:368-515 | Every transition keeps the invariant and revives no dead record |
| IntentSteps.RunPreserves | internal/k8s/resource_intent_gc.go:202-204 | Every run with at-most-once delivery keeps the invariant and revives no dead record |
| IntentPrograms.Cluster.Collect | internal/k8s/resource_intent_gc.go:120-249 | Whatever others do between its calls, a reported deletion means the Secret is gone and out of reach for good; when nobody interferes, exactly the collectable records are deleted and no other Secret is |
| IntentPrograms.Cluster.FenceRecord | internal/k8s/resource_intent_gc.go:260-290 | Only a confirmed fence lets the collector go on to delete; a fence that is delivered to the version it was read from is confirmed |
| IntentPrograms.Cluster.Sweep | internal/k8s/resource_intent_gc.go:78-118 | A sweep scans every record of every page unless a list call fails; its counters add up, and all it counted as deleted stays out of reach |
| IntentPrograms.Cluster.PublishOnce | internal/k8s/resource_intent.go:312-322 | Each attempt uses a record nobody has used, bound to the version that was read, and ends applied, refused or without answer; delivered at once it sets the pointer exactly when the object is still that version, and leaves the content alone |
| IntentPrograms.Cluster.CleanUp | internal/k8s/resource_intent.go:281-294 | After a refusal the record is unreachable whether or not it could be deleted; undisturbed, it is deleted exactly when the object could be read and does not point to it |
| IntentPrograms.Cluster.InitializeIntent | internal/k8s/resource_intent.go:296-348 | At most five attempts, and exactly five when they are exhausted; success means the record of the last attempt, for the created object; every abandoned record is out of reach; undisturbed, the first attempt publishes |
| IntentPrograms.Cluster.StopOrRetry | internal/k8s/resource_intent.go:326-345 | After a conflict another attempt is made only on the same object, at the version just read, while it carries no pointer; undisturbed, the outcomes are told apart exactly, and the own record is discarded when another writer won |
| FieldTrie.PathsOverlap | internal/k8s/intent_merge.go:403-418 | The walk answers exactly whether a member is a prefix of the path or extends it, for tries with empty child nodes and for no set at all |
| FieldTrie.ContainsPath | internal/k8s/intent_merge.go:420-435 | The walk answers exactly whether the path or an extension of it is a member |
| IntentMerge.AtomicContainerAt | internal/k8s/intent_merge.go:375-401 | The schema walk finds exactly whether the type at a path is an atomic container, and fails exactly where the schema cannot be traversed |
| IntentMeaning.MergedMeans | internal/k8s/intent_merge.go:277-350 | The merged document, path by path, from what the three inputs show: the new intent where it adds or changes something, but for clashes of atomic values; else live, unless the intent dropped the path and no external change, protected path or disturbed item is involved |
| IntentMeaning.RetainedMeans | internal/k8s/intent_merge.go:292-345 | A path is retained if and only if the intent dropped it, live has it, and it is disturbed by others or lies in a disturbed dropped item; or if it is an atomic value that both sides changed differently |
| IntentMeaning.WrittenScalarWins | internal/k8s/intent_merge.go:317-350 | A scalar the new intent adds or changes shows the new intent, whatever live holds |
| IntentMerge.MergedConforms | internal/k8s/intent_merge.go:346-350 | The merged document conforms to the schema of its inputs |
| IntentMerge.ExternalEditsSurvive | internal/k8s/intent_merge.go:290-350 | A live leaf added or changed since the last intent keeps its live value unless the new intent writes that very leaf and it is no atomic conflict |
| IntentMerge.TouchedItemIsKeptWhole | internal/k8s/intent_merge.go:295-316 | A keyed item the intent removes but someone else touched keeps everything in it, and is reported |
| IntentMerge.ProtectedIsNeverRemoved | internal/k8s/intent_merge.go:299-315 | Protected paths present in live are present in the result |
| IntentMerge.AtomicConflictKeepsLive | internal/k8s/intent_merge.go:317-345 | An atomic value both sides changed differently keeps the live value and is reported |
| IntentMerge.ExternallyRemovedStaysRemoved | internal/k8s/intent_merge.go:339-350 | A leaf removed from live and not written by the new intent is not recreated |
| IntentMerge.ConvergedOrRetained | internal/k8s/intent_merge.go:277-372 | Every path that changed between the intents shows the new intent or is in the retained set |
| IntentMerge.UntouchedLiveConverges | internal/k8s/intent_merge.go:277-372 | Without external changes the result is exactly the new intent and nothing is retained |
| IntentReport.SafePathHidesValues | internal/k8s/intent_merge.go:437-461 | The rendering of a path does not depend on key values or set members |
| RedactedPaths.SafePathTellsShape | internal/k8s/intent_merge.go:437-461 | For names without separators, two paths are rendered alike if and only if they have the same field names, key names and positions |
| IntentReport.ReportCovers | internal/k8s/intent_merge.go:351-361 | Every retained path is reported by itself or by an ancestor |
| IntentReport.ReportIsTopmost | internal/k8s/intent_merge.go:351-361 | Exactly the retained paths with no retained path above them are reported |
| IntentReport.ReportIsUnique | internal/k8s/intent_merge.go:362-371 | A set of retained paths has only one sorted duplicate-free report |
| IntentReport.ReportRetained | internal/k8s/intent_merge.go:351-371 | The loop, the sort and the compaction give exactly that report; it is empty exactly when nothing is retained |
| IntentReport.MergeTypedIntent | internal/k8s/intent_merge.go:277-373 | The loops over set members compute, in whatever order they visit, the document and the retained paths that `IntentMeaning` describes, and the report of the latter |
| IntentReport.WritesAreTraversable | internal/k8s/intent_merge.go:330-338 | On valid inputs the schema error branch is dead |
| SortedStrings.CompactSorted | internal/k8s/intent_merge.go:363-371 | The in-place compaction of the sorted slice leaves exactly the sequence without repeated neighbours |
| SortedStrings.DedupIsStrict | internal/k8s/intent_merge.go:362-371 | Compacting a sorted sequence gives a strictly sorted one with the same members |
| IntentDefaults.ConcreteParent | internal/k8s/intent_merge.go:191-254 | The walk answers exactly whether a map or list stands at the path |
| IntentDefaults.AuthorizedByItems | internal/k8s/intent_merge.go:151-166 | The loop over path elements accepts exactly the paths through an item all of whose items the raw intent declares |
| IntentDefaults.SupplementIntentDefaults | internal/k8s/intent_merge.go:137-187 | The loop over candidates computes the completion that `CaptureMeans` and `CarryMeans` describe |
| IntentDefaults.CaptureMeans | internal/k8s/intent_merge.go:113-187 | The completed intent is the effective one plus exactly the fields that the API added to the submitted object, with nothing below them, whose parent is a container or atomic value of the intent, and that lie in keyed items all of which the raw intent declares; they have the accepted values |
| IntentDefaults.CarryMeans | internal/k8s/intent_merge.go:97-111 | The next intent is completed by exactly those captured fields that belong to it in the same sense, with their captured values |
| IntentDefaults.AddedDefaultsAreAuthorized | internal/k8s/intent_merge.go:113-135 | Every added path was added by the API, below a container of the intent, inside items the raw intent declares |
| IntentDefaults.CarryRespectsRemoval | internal/k8s/intent_merge.go:97-111 | No default is carried below a parent or item the new intent removed |
| IntentDefaults.CaptureTwice | internal/k8s/intent_merge.go:122-135 | Completing a completed intent adds nothing |
| ObservedChanges.ObservedAt | internal/k8s/observed_spec_changes.go:97-104 | The adopted spec, path by path: changed paths and containers above them from the later actual spec, nothing at or below removed paths, the desired spec elsewhere |
| ObservedChanges.ObservedConforms | internal/k8s/observed_spec_changes.go:97-104 | The adopted spec conforms to the schema |
| ObservedChanges.NothingObserved | internal/k8s/observed_spec_changes.go:64-67 | No observed change leaves the desired spec alone |
| ObservedChanges.DesiredWasActual | internal/k8s/observed_spec_changes.go:97-104 | A desired spec equal to the earlier actual one becomes the later one |
| ObservedChanges.ChangeIsAdopted | internal/k8s/observed_spec_changes.go:64-67 | A changed or removed path shows the later actual value or its absence |
| ObservedChanges.UnchangedKeepsDesired | internal/k8s/observed_spec_changes.go:64-67 | A leaf that did not change keeps its desired value unless an ancestor was removed |
| ObservedChanges.ObserveTwice | internal/k8s/observed_spec_changes.go:97-104 | Adopting the same delta again changes nothing |
| MergePatch.DiffRoundTrip | internal/service/middleware/reconcile_adoption.go:155-166 | Applying the patch from a render to a null-free spec gives that spec |
| MergePatch.EmptyDiff | internal/service/middleware/reconcile_adoption.go:163-165 | The patch is empty exactly when the two specs are equal |
| OverrideMerge.FilteredPatchIsMerge3 | internal/service/middleware/reconcile_adoption.go:255-311 | Filtering the stored patch and applying it to the current render is a three-way merge of base, adopted and current |
| OverrideMerge.CurrentIsBase | internal/service/middleware/reconcile_adoption.go:255-258 | An unchanged render keeps everything adopted |
| OverrideMerge.AdoptedIsBase | internal/service/middleware/reconcile_adoption.go:255-258 | Nothing adopted leaves the render alone |
| OverrideMerge.LaterEditWins | internal/service/middleware/reconcile_adoption.go:296-311 | At every depth where not all three are objects, the current value wins exactly when it moved away from the base |
| OverrideMerge.LeavesAreInherited | internal/service/middleware/reconcile_adoption.go:279-311 | Every non-object value stands at the same path in the adopted or the current spec |
| OverrideMerge.SwapIffConflictFree | internal/service/middleware/reconcile_adoption.go:279-311 | Adopted and current may change places exactly when their changes do not conflict |
| ReconcileAdoption.PrimaryResource.ApplyReconcileOverrides | internal/service/middleware/reconcile_adoption.go:197-228 | Writes the overridden spec in place, or reports the right error and leaves the resource alone |
| AdoptionMeaning.RefusedIffOtherTarget | internal/service/middleware/reconcile_adoption.go:230-251 | Overrides with a patch are refused if and only if they name another target, or one without group, version or kind |
| AdoptionMeaning.OverriddenOutcome | internal/service/middleware/reconcile_adoption.go:197-277 | Without a patch the spec is left alone; with one for its target, it fails exactly on documents that are no objects, and says which |
| ReconcileAdoption.AdoptedOverridesMerge | internal/service/middleware/reconcile_adoption.go:126-228 | Adopted overrides applied to any later render of the same target merge the adopted spec, which `AdoptionMeaning` describes, with what the render changed; an unnamed target is refused |
| ReconcileAdoption.AdoptionRoundTrip | internal/service/middleware/reconcile_adoption.go:78-228 | The next render is exactly the adopted spec if and only if nothing was adopted or the target is named; adopting again gives the same overrides whatever overrides the Middleware holds by then |
| ReconcileAdoption.QuietPause | internal/service/middleware/reconcile_adoption.go:126-142 | A pause without live changes leaves the rendered spec as it was |
| AdoptionMeaning.NextRenderIsOverlay | internal/service/middleware/reconcile_adoption.go:83-191 | After a live change, the next render is the overlay of the spec at the pause, the live spec and the render with the previous overrides, in that order |
| AdoptionMeaning.NextRenderIsPrevious | internal/service/middleware/reconcile_adoption.go:126-129 | Without a live change, the next render is the render with the previous overrides |
| AdoptionMeaning.LiveEditStands | internal/service/middleware/reconcile_adoption.go:126-191 | With the overlay of `ObservedChanges`, every value that was changed or removed live during the pause is so in the next render |
| AdoptionMeaning.AdoptSucceedsIff | internal/service/middleware/reconcile_adoption.go:78-160 | An adoption succeeds if and only if snapshot, renders and live resource are readable and belong together, and the overlay of a change gives an object |
| AdoptionMeaning.AdoptNeedsResource | internal/service/middleware/reconcile_adoption.go:96-112 | How it fails on a missing, replaced or deleting resource, and on another target |
| PauseResults.MergeCommitsOnAdoptedSpec | internal/k8s/observed_spec_changes.go:38-62 | In every run, a merge-approved write lands only while the live object is that of the snapshot with exactly the adopted spec, carrying the overrides of the owner version it was approved by |
| PauseResults.CommitsAreApproved | internal/k8s/managed_resource.go:111-133 | In every run, no write that landed was based on an owner version that was suspended, or paused without a merge or apply policy |
| PauseResults.GateNeedsPolicy | api/v1/labels.go:116-134 | During a session without a supported policy no owner read lets a write begin, even with the suspend annotation gone |
| PauseResults.SessionEndsByFinalization | internal/controller/middleware_reconcile_adoption.go:166-203 | A session ends only by the status write of a finalization that started from a version of that session, whether the write lands at once or late |
| PauseResults.FinalizationEndsSession | internal/controller/middleware_reconcile_adoption.go:166-203 | Undisturbed, the two finalization writes end the session, and between them the gate is closed |
| PauseProgress.PauseIsCaptured | internal/controller/middleware_reconcile_adoption.go:90-121 | A suspension opens a session with a snapshot of the live spec, marks it, and closes the gate; every other field stays |
| PauseProgress.PauseIsMarked | internal/controller/middleware_reconcile_adoption.go:90-101 | A session that is still suspended is marked again and forgets an earlier adoption or refusal |
| PauseProgress.RefusalIsRecorded | internal/controller/middleware_reconcile_adoption.go:45-72 | Without a supported policy nothing is written but the marker and the refusal |
| PauseProgress.MergeNeedsResource | internal/controller/middleware_reconcile_adoption.go:123-133 | A merge whose resource is missing, replaced or being deleted keeps the suspension and is recorded as failed |
| PauseProgress.ApplyResumes | internal/controller/middleware_reconcile_adoption.go:49-59 | From every suspended session with an approved apply, two undisturbed reconciles lift the suspension, send desired state, consume the policy and end the session, with overrides and session kept until then |
| PauseProgress.MergeResumes | internal/controller/middleware_reconcile_adoption.go:123-153 | From every suspended session with an approved merge, they adopt exactly the live spec, lift the suspension, record the adoption, send desired state and end the session |
| PauseProgress.CreatesRun | internal/k8s/managed_resource.go:206-220 | A reconcile that finds no primary resource creates it |
| PauseProgress.CreateOverwrites | internal/k8s/managed_resource.go:206-220 | The write that found nothing overwrites whatever resource has appeared since |
| PauseProgress.ChangedIsNotConsumed | internal/k8s/middleware.go:199-221 | A policy or a session that changed while the reconcile was at work is not consumed |
| PauseProgress.ChangedIsNotCompleted | internal/k8s/middleware.go:166-197 | An approval is completed only for the generation, the session and the policy it was given for |
| PauseProgress.RecordOfAnotherSession | internal/controller/middleware_reconcile_adoption.go:136-142 | A record that finds another session leaves its hash alone but reports the adoption as succeeded |
| PauseProgress.FinalizedStatusClears | internal/controller/middleware_reconcile_adoption.go:196-202 | The status update at the end of a finalized reconcile drops whatever marker was set in between |
| PauseResults.WritesRun | internal/k8s/managed_resource.go:186-253 | A reconcile on the newest version that passes both checks writes the primary resource |
| PauseResults.MarkerOfSessionStays | internal/k8s/middleware.go:110-164 | From any state of a session, no run without a finalization drops its marker, not even by whole-status updates from stale copies or by lost writes that land late |
| PauseResults.MarkerWithoutSessionIsLost | internal/k8s/middleware.go:140-155 | A concrete run in which a marker without a snapshot is dropped by a stale whole-status update |
| PauseResults.MarkerIsLostIffExposed | internal/k8s/middleware.go:110-164 | Between reconciles, some run without a finalization drops a marker if and only if the cache may still show a version neither suspended nor marked, or a lost write on the newest version drops it |
| PauseLedger.OverridesMatchHash | internal/controller/middleware_reconcile_adoption.go:134-145 | In every version of every run whose session has a recorded hash, the overrides are those adopted from the recorded spec if and only if the overrides written last, by a completed adoption or by an upgrade that put them back, are those of the adoption recorded last, or of one of the same spec |
| PauseLedger.LandedMergeIffRecorded | internal/k8s/observed_spec_changes.go:38-62 | In every run, a merge-approved write that landed replaced exactly the recorded live spec, and carries the overrides adopted from that spec if and only if, at the version that approved it, the overrides written last were those of the adoption recorded last |
| PauseUpgrade.UpgradeRevertsAdoption | internal/service/middleware/middleware.go:233-263 | From every state with a recorded adoption of one spec, a run in which each completed adoption is recorded at once, and an upgrade from the older version makes overrides of the first spec land over the recorded second one |
| PauseUpgrade.GateAfterUpgrade | internal/k8s/middleware.go:63-74 | An upgrade leaves suspend, policy and overrides of its copy and the status of the newest version: no suspension survives it, and the gate is closed afterwards if and only if the newest version was marked and the copy had no supported policy |
| PauseUpgrade.SuspendIsErased | internal/service/middleware/middleware.go:233-263 | From every state in which a suspension was set after the copy was read and is not marked yet, an upgrade erases it and the next reconcile sends a write |
| PauseUpgrade.ErasureIsReachable | internal/controller/middleware_controller.go:203-285 | Such a state is reached by suspending after the pause check of a reconcile |
| PauseResults.UnrecordedAdoptionIsWritten | internal/controller/middleware_reconcile_adoption.go:74-87 | From every state with a recorded adoption of one spec, a crash inside a second adoption leads to a write of the second spec over the first |
| PauseResults.AdoptionIsReachable | internal/controller/middleware_reconcile_adoption.go:39-153 | Capturing, merging and recording do reach an adopted state, with any live spec and with none |
| PauseResults.RecheckedIsVerifiedIff | internal/k8s/observed_spec_changes.go:48-61 | A merge resume that still finds the adopted spec passes the check before the write exactly when the live resource has a spec and is not being deleted |
| PauseResults.MergeNeedsSpec | internal/k8s/observed_spec_changes.go:38-62 | In every run, no merge-approved write to the primary resource lands on a resource without a spec |
| PauseResults.AbsentSpecIsNeverWritten | internal/service/middleware/reconcile_adoption.go:398-422 | From every adoption of a resource without a spec, the resume passes the controller's check, goes on to the write, and sends none |
| PauseResults.DeletingIsNeverWritten | internal/service/middleware/reconcile_adoption.go:398-422 | When the deletion of an adopted resource begins, the resume still passes the controller's check, and sends no write |
| PauseResults.DeletingIsNeverUpdated | internal/k8s/managed_resource.go:135-158 | In every run, no update of the primary resource lands on a version that was being deleted |
| PauseResults.AdoptedSpecIsWritten | internal/k8s/managed_resource.go:186-253 | From every adoption of a resource with a spec, the same resume sends its write |
| PauseSafety.NextPreserves | internal/controller/middleware_reconcile_adoption.go:39-203 | Every step of users, live edits, reads from the cache, lost and late writes keeps the invariant of the pause machine |
| PauseSafety.LatePhaseIsOk | internal/k8s/reconcile_pause_snapshot.go:163-183 | A publication that lands late meets no reconcile that is past the pause check, and at most one on the version it was built from; whatever lands late keeps what the reconcile at work relies on |
| PauseSafety.EditIsOk | internal/k8s/middleware.go:166-221 | What each write of the controller may do to the Middleware: sessions begin only by publication, end only by finalization, and overrides change only with the generation |
| PauseConditions.Clear | internal/controller/reconcile_suspension.go:64-83 | The in-place filter keeps exactly the conditions of other kinds, in order, and says whether it removed any |
| PauseConditions.MarkerHoldsGate | api/v1/labels.go:93-134 | Marking closes the gate up to a supported policy; clearing opens it exactly when the suspension is lifted; the adoption condition has no part in it |
| Topology.ReachableTypes | internal/k8s/intent_schema.go:230-269 | The visitors end on every topology, fail exactly when a reachable name is undefined, and otherwise return exactly the reachable types |
| Topology.NamesMean | internal/k8s/intent_schema.go:240-266 | An atom mentions exactly the names of its fields, its element type for the rest and its item type, through inlined atoms |
| Topology.Visitor.VisitNamed | internal/k8s/intent_schema.go:256-266 | A visit adds only reachable types and leaves what it added closed |
| Topology.Visitor.VisitAtom | internal/k8s/intent_schema.go:240-255 | Likewise for everything an atom mentions, through inlined atoms |
| Topology.SameClosureIffAgree | internal/k8s/intent_schema.go:227-231 | Two topologies have the same closure exactly when they agree on the reachable types |
| KeyedMerge.MergeMap | pkg/tools/json.go:102-148 | The loop over the new fields computes the specified merge and ends |
| KeyedMerge.MergeArray | pkg/tools/json.go:164-213 | The loop over the new elements computes the specified list and ends |
| KeyedMerge.PlaceObject | pkg/tools/json.go:169-204 | The scan for one new element merges, appends or places it as specified |
| KeyedLaws.UnkeyedByPosition | pkg/tools/json.go:164-208 | An element without a key field in common is merged field by field into the object at its index, replaces anything else there, or is appended past the end; anything but an object replaces the list |
| KeyedLaws.UniqueIffUnambiguous | pkg/tools/json.go:169-204 | One new element leaves unique names unique if and only if no two elements of the list agree with it on a key field |
| KeyedLaws.NamesStayUniqueIff | pkg/tools/json.go:164-213 | The merged list has unique names if and only if every new element was unambiguous in its turn; otherwise it has two elements of one name and one account |
| KeyedLaws.MergedUnambiguous | pkg/tools/json.go:164-213 | In an unambiguous merge each new element changes the one place that agrees with it, or is appended, and names stay unique |
| KeyedLaws.NamesInOrderIffByName | pkg/tools/json.go:164-213 | The merged names are the old ones in their order, then the new ones in theirs, if and only if elements meet by name alone |
| KeyedLaws.PlainIsByName | pkg/tools/json.go:162-186 | New elements without an account always meet by name |
| KeyedLaws.MergedRecords | pkg/tools/json.go:164-213 | Old names in their order, then the new ones in theirs; elements of both lists are merged, all others kept, whatever accounts elements carry, as long as they meet by name |
| KeyedLaws.MergeKeyed | pkg/tools/json.go:102-213 | Names stay unique at every depth when lists meet without ambiguity |
| KeyedLaws.MergeTwice | pkg/tools/json.go:102-213 | At every depth, merging the same document again changes nothing when elements meet by name |
| KeyedLaws.LaterWins | pkg/tools/json.go:117-146 | When elements meet by name, a new value wins wherever there is one, and every other value is the old one at the same place |
| KeyedLaws.SecondKeyBreaksNames | pkg/tools/json.go:162-186 | A list with unique names that comes out with a repeated name |
| KeyedLaws.RenamedIsNotIdempotent | pkg/tools/json.go:162-186 | A merge without ambiguity whose account renames an element, so that a new element is missing from the result and merging again changes it |
| KeyedTwice.MergeTwiceIff | pkg/tools/json.go:164-213 | For lists of records whose new elements hold plain values and whose names stay unique, merging again changes nothing if and only if every new element without an account is found by its name in the result |
| KeyedTwice.NewValuesWinIff | pkg/tools/json.go:164-213 | For the same lists, every new value stands at its place in the result if and only if every new name is there |
| Inventory.KeyIsInjective | internal/service/middlewareconfiguration/inventory.go:216-221 | Equal keys of slash-free identities mean equal identities |
| Inventory.Normalize | internal/service/middlewareconfiguration/inventory.go:191-214 | A permutation strictly sorted by key, or an error exactly when an identity is incomplete or a key repeats |
| Inventory.Server.DeleteOne | internal/service/middlewareconfiguration/inventory.go:132-189 | One entry removes what stands under its name by the time of the deletion, only when the object read before passed all checks, and does so when no call fails |
| Inventory.Server.RemoveKey | internal/service/middlewareconfiguration/inventory.go:124-128 | One stale key, with others acting before the read and between read and deletion, is one step of the specification unless a call fails |
| Inventory.Server.DeleteDisabled | internal/service/middlewareconfiguration/inventory.go:87-130 | The stale keys are handled in sorted order, whatever others do meanwhile; the first call that fails ends the removal there, and without failures all are handled |
| Inventory.DeletionIsPermittedIff | internal/service/middlewareconfiguration/ownership.go:150-171 | Exactly which UIDs, names, configurations and controllers permit a deletion, in the owner's namespace and elsewhere |
| Inventory.PickStandsFor | internal/service/middlewareconfiguration/inventory.go:94-123 | A key is stood for by its first entry that opts into deletion, or by its first entry if none does |
| Inventory.RemovedIffDoomed | internal/service/middlewareconfiguration/inventory.go:87-189 | An object the others leave alone is removed exactly when it is doomed, and kept as it is otherwise |
| Inventory.RemovalHitsCheckedIffNotReplaced | internal/k8s/customresource.go:87-90 | The object deleted is the checked one, with the owner's UID and markers, or nothing, if and only if nobody put an object of another UID under the name after the check; it is exactly what was checked if and only if it was left as it was |
| Inventory.RemovalTouchesOneName | internal/service/middlewareconfiguration/inventory.go:132-189 | Every other name is as the others left it, and without a passed check this one is too |
| Inventory.ForeignObjectIsRemoved | internal/k8s/customresource.go:87-90 | Any object that fails the checks is deleted when it appears under the name between check and deletion |
| Inventory.RenderedIsDoomedIff | internal/service/middlewareconfiguration/inventory.go:94-113 | For all inventories, an object that is rendered now is doomed if and only if the inventory lists it, with authority to delete it, at another version that is not rendered |
| Inventory.VersionChangeRemovesRendered | internal/service/middlewareconfiguration/inventory.go:216-221 | After a template moves to a new version, the object just rendered is doomed |
| ConfigurationOwnership.FindClaimant | internal/k8s/configuration_adoption.go:66-134 | The claimant loops return a candidate exactly when one blocks the adoption |
| ConfigurationOwnership.CheckOne | internal/k8s/configuration_adoption.go:75-120 | One candidate blocks exactly when it has the old UID, lists the object, or names its source directly or through a baseline that cannot be read or lists it |
| ConfigurationOwnership.RewriteReferences | internal/k8s/configuration_adoption.go:166-187 | The loops over owner references compute the specified overlay |
| ConfigurationOwnership.RewriteLaws | internal/k8s/configuration_adoption.go:166-187 | Unrelated references stay in order, every desired one is there, and no other controller is left |
| ConfigurationOwnership.AdopterControls | internal/k8s/configuration_adoption.go:166-187 | The controller of the rewritten references is the desired one |
| ConfigurationTransfer.OwnershipMovesFromTheDead | internal/k8s/configuration_adoption.go:63-218 | In every run, a guarded write that changes whose resource it is lands only when the former owner no longer exists, and its result passes the identity check of the writer |
| ConfigurationTransfer.TakenFromLivingIffDisplaced | internal/k8s/managed_resource.go:206-220 | In every run, a landing write takes a resource from a living owner if and only if it is a forced Apply that displaces the owner of a resource which appeared after the read that found nothing |
| ConfigurationTransfer.OverlaidOwner | internal/k8s/managed_resource.go:213-217 | Whose resource it is after a forced Apply over one that is there, and when the server refuses the Apply for a second controller |
| ConfigurationClaims.AdoptionWasUncontested | internal/k8s/configuration_adoption.go:66-216 | In every run, a guarded write that changes whose resource it is was preceded by two rounds of lists of both kinds, each of which showed no other owner that is the old one, has the object in its inventory, or names its configuration |
| ConfigurationClaims.UncontestedIsAdopted | internal/k8s/configuration_adoption.go:34-216 | If no other owner claims it, a living owner's adoption of such a resource is sent, and lands when nobody interferes |
| ConfigurationClaims.ClaimIffAdoptable | internal/k8s/configuration_adoption.go:34-61 | Exactly which resources a living owner attempts to adopt, and that it does so from their present owner |
| ConfigurationClaims.OwnIff | internal/k8s/resource_intent.go:144-181 | Exactly which resources pass the identity check of an owner |
| ConfigurationClaims.UnguardedLands | internal/k8s/managed_resource.go:206-220 | In every run, what a write that found nothing leaves: its rendering where there is still nothing, nothing new where a Create meets a resource, and exactly the fields it renders where a forced Apply is accepted |
| ConfigurationTransfer.LivingOwnerLosesResource | internal/service/middlewareconfiguration/deploy.go:101-122 | A concrete run in which two living instances render one resource of another namespace and the marker moves from the first to the second |
| ConfigurationTransfer.NextPreserves | internal/k8s/configuration_adoption.go:34-218 | A kind that was listed without a claimant never has an owner with the old UID again |
| StatusWriters.GenerationsNeverDecrease | internal/k8s/middleware.go:133-149 | Over every history of status writes both generations are monotone |
| StatusWriters.InventoryIsFromItsGeneration | internal/k8s/middleware.go:146-149 | A controller copy of an older generation never replaces a newer inventory |
| StatusWriters.MiddlewareController.UpdateMiddlewareStatus | internal/k8s/middleware.go:110-164 | Whatever lands between its reads and writes, success means that some version carries the controller's own fields, the larger observed generation, the runtime fields of the version it was written over, and the controller's inventory unless that version's is newer; undisturbed, it succeeds even from a stale first read, and it fails only after five disturbed attempts |
| StatusWriters.Api.Others | internal/k8s/middleware.go:223-251 | Field patches and other controller updates keep the history lawful |

## Left out

- Kubernetes client, discovery, informers, REST mapping, leader election, events, logging, metrics: they appear as calls
  that succeed, conflict, are lost or land late.
- structured-merge-diff, JSON Patch, compression, hashing: modelled by a small tree algebra, guarded writes, an identity
  codec and injective hashes. Key fields of a list item are part of its path element, and containers emptied by a
  removal stay empty containers.
- JSON nulls in merged documents; numeric precision.
- Rendering (templates, CUE, PreActions): a function of the Middleware without its overrides.
- Schema validation errors, GVK and name mismatches, the dry-run admission comparison, record age, timeouts, back-off and
  the three collected error values of a sweep: single branches that end an attempt without a write.
- Preconditions on the UID and resourceVersion of a record Secret: names are unique there, so a deletion by name is exact.
- The sorting of schema fields and the converter cache in `internal/k8s/intent_schema.go`, and the canonical encoding
  before the hash.
- A deletion of a record Secret that is still on its way when its client stops; a deletion happens at once or not at all. An
  unguarded Create or forced Apply of the managed-resource writer that lands on an object which appeared in the meantime is
  an external edit of the intent protocol; whose resource it then is belongs to `ConfigurationTransfer`.
- The merge patch that removes a controller reference before a rendered resource becomes unowned
  (`stripLiveControllerOwnerReference`) counts as a write from outside; field ownership is modelled for the marker and the
  references alone.
- Finalizers of a Middleware: their updates are guarded by the version they write back, so in the pause machine they are
  user edits that change nothing. Two adoptions that give the same bytes of overrides keep the generation in the API server
  and move it in the pause machine.
- Kubernetes' own garbage collection after an owner is gone: pointers are only claimed valid while the owner exists.
- Deletion of the Middleware during a pause, and its UID: the pause machine follows one Middleware.
- IntentSteps.CollectTargetPreserves: target scope, API discovery errors and invalid record data, which keep the record, are not modelled.
- KeyedMerge.MergeMap: works on values, so the aliasing between the old and the new document, the recovered panic on
  key fields that are objects or lists, and lists that mix objects with scalars are not captured.
- KeyedLaws.MergeKeyed: assumes that lists that meet are of the same kind, lists of named records or lists without objects,
  and that `name` and `serviceAccountName` are plain values. Elements without a name are placed by the loops of
  `KeyedMerge`, but have no laws.
- KeyedLaws.MergeTwice: meeting by name is sufficient at every depth, not necessary; the exact condition is
  `KeyedTwice.MergeTwiceIff`, for one list of plain records.
- KeyedLaws.LaterWins: the same, with `KeyedTwice.NewValuesWinIff` for new values. An old element that is renamed carries
  its other values to the new name, so for old values no condition on names alone is exact.
- StatusWriters.MiddlewareController.UpdateMiddlewareStatus: conditions are one opaque field; what stale conditions can do to
  the pause marker is in `PauseResults`.
- AdoptionMeaning.LiveEditStands: for documents of objects and scalars under one schema; lists of the live spec are covered
  by `AdoptionMeaning.NextRenderIsOverlay` together with `ObservedChanges`.
- RedactedPaths.SafePathTellsShape: names that contain a dot, bracket, comma or equals sign can be rendered like others.
- ReconcileAdoption.AdoptionRoundTrip: the merged spec is null-free, as RFC 7396 patches cannot express nulls.
- Workload phases, diagnostics, package installation and rollback, CompareJson.
