# Verification of Boxcutter

Boxcutter rolls out revisions of Kubernetes objects in phases and hands objects over from one
revision to the next. This Dafny project models its rollout machinery and its managed cache and
proves what they keep over all runs.

`dafny verify dfyconfig.toml` checks everything.

## What is modelled

- `OwnerRefs` is the annotation strategy for owner references: the list operations as functions, the
  slice removal on an array, and the annotated object whose list the operations update.
- `Comparator` is the comparison of desired and live objects over sets of field paths.
- `ObjectEngine` is the reconcile and teardown of one object against an API server. The server is a
  map from keys to versioned records; create, migrate, apply, patch and delete are functions on it
  and methods of `Cluster`. `Verdicts` says how every call ends, in terms of what is on the
  cluster; `Reconciliation` and `DryRun` say what repeated and paused calls do.
- `Handover` is the concurrent protocol. Sibling revisions decide, with the functions of
  `ObjectEngine`, on any version that ever existed, and their writes may be delayed, reordered,
  repeated or lost. `HandoverSafety`, `Linearity`, `StalePatch` and `StaleDelete` hold the theorems.
- `Results`, `Rollout` and `Teardown` are the phase and revision loops, for any object engine;
  `Outcomes` runs them over the one modelled here.
- `Preflight` is static validation, `LayeredOptions` the three layers of options, `Probes` the
  conjunction of probes.
- `TrackingCache` is the control loop of the tracking cache; `CacheProtocol` puts callers, waiting
  goroutines and lock holders around it, with every receive and every stopped informer a step of
  its own. `CacheWaits` and `CacheWiring` say what its answers are worth. `AccessManager` is the
  manager of caches per owner, `AccessLocks` the lock around it, `Wiring` the cross product of event handlers and informers.
  `Prefixes` has the vocabulary for moments of a run.

Code that updates state is a class or a method with loops, proved equal to a function; theorems about
calls and runs are about those functions.

## What is assumed of the environment

- The server assigns fresh UIDs and resource versions, applies values verbatim and checks the resource
  version of migrate, apply and delete. Which unnamed owner references an apply keeps is arbitrary
  (`keep`). That it refuses objects with two controllers is not needed for linearity: the version
  lock already rules them out.
- Sibling owners have distinct UIDs and resolvable kinds, revisions are at least 1 and distinct, and
  the sibling classifier is true exactly for siblings (`ValidFamily`, `OptionsOf`).
- Others never make a sibling controller, leave the revision annotation of a taken object alone and
  at most take its controller away (`Handover.Permitted`).
- The revision annotation is a value that is missing, blank, a number or unreadable; number formatting
  is not modelled. Manifests carry no owner references and none of the engine's own paths (`Plain`).

## Where the code does not keep what one might expect

- The owner-removal patch of a teardown carries no resource version, so it can restore a controller that
  has been replaced. A delete still hits only objects its sender controls at that moment
  (`DeletesAreSafe`), but linearity and the safety of newer revisions from older ones depend on these
  patches. `AlwaysLinearExactly` gives the exact condition on a run, `PatchIsSafeExactly` that on a patch,
  `StalePatchBreaksTheTie` and `OlderTeardownCanDelete` runs that violate them, the second with three
  revisions at the default collision protection and nobody else around, and `LockedRunKeepsLinear`
  the effect of locking the patch.
- With owners stored in one annotation, taking an object over is never idempotent: the next call writes
  again (`ReconcileIsIdempotent`, an if-and-only-if on what the first call reads, and
  `TakingOverIsNeverIdempotent`).
- An object on which nobody manages a desired field is reported idle whatever its values are
  (`IdleSoundExactly`, `UnmanagedIsIdle`).
- A revision teardown tells "no active phase" by the empty name, so an unnamed phase can be reported
  as torn down (`ReportCompleteExactly`, `UnnamedPhaseHidesWaiting`).
- A done message names its owner only. It can drop the entry of a newer cache, which is then never
  cancelled (`HastyStartCanLose`); this cannot happen if caches are not started beside lingering
  ones (`PatientRunsLoseNothing`).
- The access manager blocks while it removes informers: until the others in line for the access lock of
  the cache leave, and for good on a cache that has ended (`BlocksExactly`, `LockWaitEndsExactly`,
  `StuckForEver`). It blocks for every owner while watchers are listed, and a single reader of one cache
  that does not leave can make that last (`DealtWithExactly`, `JamLasts`, `AnyMessageCanJam`).
- The report of a wait that was stopped answers the callers of the next wait for the kind, and makes the
  loop forget that wait. A nil then does not mean that the informer of the caller has synced
  (`StaleReportAnswersNewCall`, `MisledExactly`, `AbandonedExactly`).
- An informer whose event handlers could not be wired counts as known, and so does one that is lost
  because only the first of two removals succeeded; handlers are not wired again until the kind is
  stopped (`UnwiredExactly`).
- Options for a phase or an object replace earlier lists for it instead of adding to them
  (`LaterListReplaces`).

## Model

| member | source | states |
|---|---|---|
| `Linearity.RevisionsAreLinear` | machinery/objects.go:347-601 | In every run of concurrent, arbitrarily stale sibling revisions with harmless removal patches, an object once taken notes a revision, has at most one controller, none exactly if orphaned, and otherwise a sibling controls it if and only if its revision is the one noted |
| `Linearity.NotesNeverDecrease` | machinery/objects.go:441-460 | Over any such run the noted revision of a taken object never decreases during the life of its UID; the object stays taken, and stays orphaned if it was |
| `Linearity.OlderTeardownsNeverDelete` | machinery/objects.go:154-198 | In runs with harmless removal patches: once an object notes revision n, no teardown of a revision older than n deletes that UID, whatever version the teardown had read |
| `StaleDelete.GuardedObjectsAreSafe` | machinery/objects.go:154-198 | The same with a condition on the one object only: while no removal patch arriving at it names a stranger or a revision older than n as controller, no revision older than n deletes it |
| `StaleDelete.PatchIsSafeExactly` | machinery/objects.go:154-198 | The exact condition on a removal patch: with an older revision about, its arrival never lets an older revision delete the object if and only if its list names nobody or a sibling not older than n |
| `StaleDelete.StalePatchLetsSiblingDelete` | machinery/objects.go:161-198 | If the list of a pending removal patch names a sibling as controller, that sibling has deleted the object three steps later, whichever revision is noted by then |
| `StaleDelete.OlderTeardownCanDelete` | machinery/objects.go:154-198 | For any three revisions, engine and manifest, at the default collision protection: a run in which the third takes the object over and the second then deletes it, because the removal patch of the first arrived late |
| `Linearity.OrphansStayOrphaned` | machinery/objects.go:463-492 | In runs with harmless removal patches, an object that lost its controller after a sibling took it is never adopted again during its life |
| `Linearity.AlwaysLinearExactly` | machinery/objects.go:154-166 | The exact condition over runs: from a linear state a run is linear at every moment if and only if every removal patch that arrives in it is harmless |
| `Linearity.RunKeepsLinear` | machinery/objects.go:347-601 | The invariant behind linearity is kept over every run of all actors and the environment in which the removal patches that arrive are harmless |
| `Linearity.PatchKeepsLinearExactly` | machinery/objects.go:154-166 | The removal patch, the one write without a version, keeps linearity if and only if the owner list it installs names no controller or the present one |
| `Linearity.CurrentPatchIsHarmless` | machinery/objects.go:154-166 | A removal patch that arrives at the version it was computed from is harmless |
| `Linearity.AllowedGoesForward` | machinery/objects.go:463-492 | A write decided on a tied version never lowers the noted revision and never revives an orphan |
| `Linearity.LiveOrDead` | machinery/objects.go:560-601 | An object keeps its key for life: after any step it lives under the same key or is dead for good |
| `HandoverSafety.DeletesAreSafe` | machinery/objects.go:185-196 | In every run, with no condition on patches, a delete takes effect only while the owner that asked for it controls the object |
| `HandoverSafety.StepKeepsGrounded` | machinery/objects.go:347-601 | Every step keeps the facts all writes rest on: versions are recorded and never reused, lists have one controller, pending writes were decided on a version that existed |
| `HandoverSafety.DecisionIsAllowed` | machinery/objects.go:347-492 | Whatever version is read, the engine prepares an object controlled by its owner and noting its revision, and writes only where it controls the object, or where nobody does and no revision is noted, a stranger does, or an older sibling does |
| `HandoverSafety.AllowedMerge` | machinery/objects.go:494-540 | Applying an allowed write leaves the writer as sole controller, whichever unnamed owner references the server keeps |
| `StalePatch.LockedRunKeepsLinear` | machinery/objects.go:161-165 | If removal patches act on the version they read, linearity needs no further condition |
| `StalePatch.StalePatchBreaksTheTie` | machinery/objects.go:161-165 | Without that, a run of two siblings and a stranger ends with revision 2 noted on an object the stranger controls |
| `ObjectEngine.Reconcile` | machinery/objects.go:201-302 | The calls made on the API server, in order, produce exactly the world and outcome of Reconciled: prepare, look up, create with migration, fall back to an uncached read on a create collision, or update |
| `ObjectEngine.UpdateObject` | machinery/objects.go:347-492 | The branches over situation, collision protection, noted revision and comparison produce exactly the decided write or verdict |
| `ObjectEngine.AdoptObject` | machinery/objects.go:494-540 | Adoption copies the live owners, releases the controller, claims control and applies by force; a failure leaves the world alone |
| `ObjectEngine.ApplyDesired` | machinery/objects.go:560-601 | Migration and apply are two server calls chained by resource version; a version conflict stops before anything is applied |
| `ObjectEngine.MigrateFieldManagers` | machinery/objects.go:668-694 | Migration moves our client-side field entries to our apply entry under a new resource version, or does nothing when there are none or when paused |
| `ObjectEngine.Teardown` | machinery/objects.go:102-198 | The teardown branches, including zero revision, orphaning, missing objects, owner removal and preconditioned delete, produce exactly TornDown |
| `ObjectEngine.Cluster.Create` | machinery/objects.go:549-558 | A create fails exactly on an existing object; otherwise, and not in a dry run, one object appears with the desired content under a fresh UID and version, and nothing else changes |
| `ObjectEngine.Cluster.Delete` | machinery/objects.go:185-196 | A delete succeeds exactly at the given UID and resource version and then removes that object alone; on an error, missing object or conflict, the world is unchanged |
| `ObjectEngine.GoneMeansReleased` | machinery/objects.go:102-198 | A teardown of the current version that reports the object gone has left no object owned by its owner or, without an owner, noting its revision |
| `Verdicts.VerdictWithoutControl` | machinery/objects.go:360-421 | Over every call on an object we do not control: a collision is reported exactly if a stranger controls it and there is protection, or nobody does and prevention is on or a revision is noted, or a sibling does at our own revision; it is reported progressed exactly if a sibling notes a newer revision; otherwise it is taken over by force |
| `Verdicts.VerdictWithControl` | machinery/objects.go:423-492 | Over every call on an object we control: a conflict is recovered from by force, a difference without a conflict is applied without force, and otherwise the call is idle |
| `Verdicts.VerdictErrors` | machinery/objects.go:201-302 | Exactly when a call ends in an error before it writes: a zero revision, a create that collides with an object no reader finds, an unreadable annotation |
| `Verdicts.WriteSucceedsExactly` | machinery/objects.go:560-601 | A write, with or without migration before it, succeeds exactly at the version read, uncontested or forced, with acceptable owner references |
| `Verdicts.TeardownVerdict` | machinery/objects.go:102-198 | The world, verdict and error of every teardown: orphaning and missing objects count as gone and change nothing, what is ours is deleted at the version read, of the rest an owner takes itself off the list and a revision keeps its hands off |
| `Verdicts.TeardownDeletesExactly` | machinery/objects.go:154-198 | A teardown removes an object exactly if nothing orphans, it read the current version, and that is controlled by its owner or, without one, notes its revision; it does not yet report it gone |
| `ObjectEngine.WritesByBranch` | machinery/objects.go:441-492 | A write either keeps the desired object, as controller, or adopts it under the conditions of its branch |
| `Reconciliation.ReconcileIsIdempotent` | machinery/objects.go:288-293 | After an unpaused reconcile ends in Created, Updated or Recovered, the next one on that state is Idle and writes nothing if and only if, before the call, owners are stored natively, or there is no owner, or nothing is read, or we control what is read, or its owner list names nobody else |
| `Reconciliation.TakingOverIsNeverIdempotent` | machinery/objects.go:494-540 | With owners stored as one text, taking an object over from a sibling or a stranger is never followed by an idle reconcile |
| `Reconciliation.SettledIsIdle` | machinery/objects.go:423-433 | On a settled object the decision is Idle, or an update exactly when a text-encoded owner list names further owners |
| `Reconciliation.IdleIsSound` | machinery/objects.go:423-433 | If every present field has a manager, Idle is decided only when the object holds every desired field at its desired value, also when our own entry is missing |
| `Reconciliation.IdleSoundExactly` | machinery/objects.go:423-433 | For every manifest and every list of managers: Idle is decided only with all desired values present, on every live object with these managers, if and only if there is an apply entry of ours or somebody manages a desired field |
| `Reconciliation.UnmanagedIsIdle` | machinery/objects.go:423-433 | The failing input, for every manifest: an object we control that lacks the managed-by label, with no manager of a desired field, is reported Idle |
| `Reconciliation.AdoptionKeepsOtherOwners` | machinery/objects.go:494-540 | Adopting an object with another owner and text-encoded owners keeps that owner and so stores a list different from the one the next call desires |
| `DryRun.PausedPhaseWritesNothing` | machinery/phases.go:210-234 | A paused phase leaves the whole cluster unchanged, whatever its objects are, whether keys repeat and whether calls fail |
| `DryRun.PausedWritesNothing` | machinery/objects.go:549-573 | A paused reconcile never changes the world, whatever it is asked and whatever the cache says |
| `DryRun.PausedPhaseIsDryRun` | machinery/phases.go:210-234 | For objects with distinct keys a paused phase reports the same actions in the same order as the unpaused phase whose calls all succeed |
| `DryRun.PausedReportsTheAction` | machinery/objects.go:549-573 | For every cached read, a paused reconcile reports the action of the unpaused one when that succeeds |
| `DryRun.OnlyOwnKeyChanges` | machinery/objects.go:201-302 | A reconcile never touches another object |
| `Comparator.Compare` | machinery/comparator.go:253-331 | The two scans over managed fields compute exactly the claims and the comparison of Comparing |
| `Comparator.ConflictExactly` | machinery/comparator.go:284-306 | With an entry of ours there is a conflict exactly if some other manager holds a desired field outside our entry with no further such field below it |
| `Comparator.ClaimsAreExact` | machinery/comparator.go:253-316 | The conflicts list, entry by entry in order, exactly those fields per manager, and the others list exactly what else other managers hold; without an entry of ours the conflicts list the desired fields anybody holds |
| `Comparator.FirstEntryCounts` | machinery/comparator.go:358-369 | Our entry is the first one our manager applied to the object itself |
| `Comparator.ForeignOverlapsExact` | machinery/comparator.go:284-316 | A conflict is reported if and only if some other manager holds a desired field we do not |
| `Comparator.OverlapsExact` | machinery/comparator.go:255-277 | Without an entry of ours, a conflict is reported if and only if some manager holds a desired field |
| `Comparator.NoUpdateMeansHolds` | machinery/comparator.go:318-331 | Nothing modified and nothing removed if and only if every desired field outside the stripped ones is held at its desired value |
| `Comparator.QuietIsSound` | machinery/comparator.go:253-331 | No conflict and no update needed is a sound verdict when every present field is managed and some desired field is present |
| `Comparator.QuietExactly` | machinery/comparator.go:253-331 | For all live values a quiet comparison means that the desired values are there, if and only if there is an apply entry of ours, or somebody manages a desired field, or nothing unstripped is desired |
| `Comparator.CoveredIsQuiet` | machinery/comparator.go:284-331 | When our entry covers all desired fields there is no conflict, and an update is needed if and only if some field differs |
| `OwnerRefs.EditsKeepWellFormed` | ownerhandling/annotation.go:78-210 | Under any sequence of set-owner, set-controller, release, copy and remove, references stay pairwise distinct with at most one controller |
| `OwnerRefs.TakeOverEffect` | machinery/objects.go:494-530 | Copy, release and set-controller always succeed for a resolvable owner, keep all earlier owners and make the new one sole controller |
| `OwnerRefs.SetControllerEffect` | ownerhandling/annotation.go:107-153 | A successful set-controller keeps the list well formed and makes the owner its controller |
| `OwnerRefs.SetControllerFailsExactly` | ownerhandling/annotation.go:107-153 | Claiming control fails exactly for an owner without a kind or if another object controls already, and names that one |
| `OwnerRefs.SetOwnerEffect` | ownerhandling/annotation.go:78-105 | Adding an owner makes it a plain owner and leaves all other references alone |
| `OwnerRefs.OwnersMatchExactly` | ownerhandling/annotation.go:279-291 | References to two owners match exactly if these agree in group, kind, name and UID |
| `OwnerRefs.GroupRoundTrip` | ownerhandling/annotation.go:255-291 | The group written into an API version is read back from it |
| `OwnerRefs.ControllerQueriesAgree` | ownerhandling/annotation.go:167-181 | With at most one controller, IsController agrees with GetController |
| `OwnerRefs.RemoveOwnerEffect` | ownerhandling/annotation.go:183-201 | Removing an owner removes exactly its reference, and the owner is no owner afterwards |
| `OwnerRefs.AddThenRemove` | ownerhandling/annotation.go:78-105 | Adding an absent owner and removing it restores the list up to order |
| `OwnerRefs.IndexOf` | ownerhandling/annotation.go:245-253 | The first reference to the same object, or -1 if there is none |
| `OwnerRefs.FirstControllerCounts` | ownerhandling/annotation.go:41-53 | Of several controllers the first one in the list is found |
| `OwnerRefs.SwapRemoveTakesOne` | ownerhandling/common.go:34-38 | The swap removal takes out exactly one occurrence |
| `OwnerRefs.Remove` | ownerhandling/common.go:34-38 | In place, the slot is overwritten by the last element; without its last slot the array is the swap removal of the old one |
| `OwnerRefs.AnnotatedObject.SetOwnerReference` | ownerhandling/annotation.go:78-105 | Updates the stored list in place to SetOwner, or fails and leaves it |
| `OwnerRefs.AnnotatedObject.SetControllerReference` | ownerhandling/annotation.go:107-153 | Updates the stored list in place to SetController, or reports a rival controller and leaves it |
| `OwnerRefs.AnnotatedObject.ReleaseController` | ownerhandling/annotation.go:203-210 | Clears every controller flag in place |
| `OwnerRefs.AnnotatedObject.CopyOwnerReferences` | ownerhandling/annotation.go:55-58 | Replaces the stored list by that of the other object |
| `OwnerRefs.AnnotatedObject.RemoveOwnerReference` | ownerhandling/annotation.go:183-201 | Removes the owner by swap removal in place, or leaves the list when the owner is absent |
| `Outcomes.CompleteRolloutRests` | machinery/revision.go:123-136 | A rollout over the object engine that is reported complete, of objects with distinct keys, leaves every object of every phase settled, or compared without a difference, or under a sibling that notes a newer revision, and saw each of their progress probes answer True |
| `Outcomes.CompleteTeardownReleases` | machinery/revision.go:330-373 | A teardown of distinctly named phases that is reported complete leaves nothing owned by the owner, or noting the revision, under any key of the revision |
| `Results.PhaseIsComplete` | machinery/phases.go:323-335 | The loop answers whether preflight passed and every object is complete |
| `Results.PhaseHasProgressed` | machinery/phases.go:305-321 | The count equals the number of objects if and only if every object has progressed |
| `Results.PhaseInTransition` | machinery/phases.go:284-303 | In transition if and only if some object collided or progressed, not all progressed, and preflight passed |
| `Results.RevisionIsComplete` | machinery/revision.go:123-136 | Complete if and only if there is a result for every phase and all are complete |
| `Results.RevisionHasProgressed` | machinery/revision.go:109-119 | As many of the phases acted on have progressed as there are phases in all |
| `Results.HasProgressedExactly` | machinery/revision.go:109-119 | With at most one result per phase, progressed means that every phase was acted on and has progressed |
| `Results.RevisionInTransition` | machinery/revision.go:89-106 | In transition if and only if a phase is, or phases are missing without a validation error |
| `Rollout.RunPhase` | machinery/phases.go:210-234 | The object loop hands over objects in order up to the first error that stops it, and returns exactly the results of the calls made |
| `Rollout.ReconcileRevision` | machinery/revision.go:179-222 | The phase loop runs phases in order up to the first failing or incomplete one and returns exactly their results |
| `Rollout.RolloutIsGated` | machinery/revision.go:206-221 | An object of a phase is handed to the object engine only if every object of every earlier phase was handed over before, did not collide, took effect or needed none, and passed its progress probe if it has one, with and without error aggregation |
| `Rollout.CompleteIsExact` | machinery/revision.go:123-136 | A revision is complete if and only if every phase was run, none was invalid or failed, and every object of every phase was handed over, did not collide, took effect or needed none, and passed its progress probe if it has one |
| `Rollout.SucceededIsComplete` | machinery/results.go:370-404 | A result is complete exactly if it is no collision, is not a paused change, and the progress probe is absent or answered True |
| `Rollout.CallsEndExactly` | machinery/phases.go:214-234 | Every reply before the last is a result or an error that is aggregated and not a request to slow down, and objects are left over only after an error that is not |
| `Rollout.UnvalidatedPhaseStops` | machinery/phases.go:197-208 | A phase that fails validation hands nothing over, changes nothing and is the last one run; it fails exactly if validation itself broke |
| `Rollout.PhaseTransitionExactly` | machinery/phases.go:284-321 | A phase is in transition exactly if some object collided or progressed and not all progressed, and progressed exactly if all did |
| `Teardown.TeardownPhase` | machinery/phases.go:134-177 | The loop sorts objects into gone and waiting exactly by the replies of the object engine |
| `Teardown.CompleteMeansGone` | machinery/phases.go:117-120 | Without an error, a phase teardown is complete if and only if every object was reported gone |
| `Teardown.TeardownIsGated` | machinery/revision.go:339-374 | An object is torn down only if every object of every later phase was reported gone |
| `Teardown.TeardownRevision` | machinery/revision.go:319-374 | Phases are torn down in reverse order; the waiting, active and gone names are exactly those of the runs, gone reversed to declared order |
| `Teardown.TeardownReportIsExact` | machinery/revision.go:330-373 | For distinct non-empty names, waiting, active and gone together are the phase names in declared order, and the report is complete if and only if every phase teardown was |
| `Teardown.ReportCompleteExactly` | machinery/revision.go:260-262 | For any names, the exact condition under which a report counts as complete |
| `Teardown.UnnamedPhaseHidesWaiting` | machinery/revision.go:260-262 | For any engine: the teardown of a single phase with an empty name whose object still exists is reported complete |
| `Preflight.CheckForObjectDuplicates` | validation/phase.go:125-173 | The conflicts are exactly the objects that occur more than once, each with exactly the names of the phases that contain it |
| `Preflight.CompactObjectViolations` | validation/phase.go:176-191 | One violation per object, holding all errors found for it in order, for exactly the objects with violations |
| `Preflight.ValidateObjectMetadata` | validation/metadata.go:8-79 | One error per violated metadata rule, with its path and complaint |
| `Preflight.ValidatePhase` | validation/revision.go:39-72 | An error is returned if and only if the name is invalid, some object is unsound or some duplicate involves the phase, and it lists exactly those |
| `Preflight.StaticValidateMultiplePhases` | validation/revision.go:34-75 | Errors come for exactly the faulty phases in order, and there are none if and only if all names are valid, all metadata is sound and all object references are pairwise distinct |
| `Preflight.ReconcileChecked` | machinery/revision.go:193-219 | A revision that does not pass preflight hands nothing to the engine and is not complete, in transition or progressed; one that passes is rolled out |
| `LayeredOptions.ResolveSettings` | machinery/types/options.go:20-26 | Resolving revision, phase and object options layer by layer gives each setting its last writer in the flat list: general options of call, revision, phase list and phase, then the last list for the object; then the defaults |
| `LayeredOptions.DefaultsExactly` | machinery/types/options.go:139-147 | Defaults refuse exactly an owner without a strategy, fill in prevention exactly where no protection is set, and change nothing else |
| `LayeredOptions.LastWritersDetermine` | machinery/types/options.go:129-147 | Those last writers determine all settings |
| `LayeredOptions.PhaseEngineOptions` | machinery/phases.go:186-216 | The phase engine and the phase validator resolve identical options for every object, the own options of the phase included |
| `LayeredOptions.ValidatorOptions` | validation/phase.go:50-63 | The phase validator resolves general options and the last list for the object from what it is given |
| `LayeredOptions.ApplyPhaseOptions` | machinery/types/options.go:337-362 | Applying phase options keeps general ones in order, the last list per object, and the aggregation flag |
| `LayeredOptions.ApplyRevisionOptions` | machinery/types/options.go:391-411 | Applying revision options keeps general ones in order and the last list per phase |
| `LayeredOptions.ApplyObjectOptions` | machinery/types/options.go:204-299 | Applying object options leaves, slot by slot, what the last writer says |
| `LayeredOptions.LaterListReplaces` | machinery/types/options.go:404-411 | A list for a phase followed by another list for the same phase has no effect: lists replace one another and do not add up |
| `CacheProtocol.RemovalAnswersNobody` | managedcache/trackingcache.go:394-505 | In every run, no caller receives, or finds in its channel while it awaits, the nil sent because an informer was removed |
| `CacheProtocol.LoopMapsAgree` | managedcache/trackingcache.go:165-190 | In every reachable state the two maps have the same keys, these are known informers, each stored stop channel is open with its goroutine yet to report, and no stop channel was closed twice |
| `CacheProtocol.WaitersAreConserved` | managedcache/trackingcache.go:252-323 | In every run each request taken stands in exactly one queue, once, or was sent exactly one result, so no one-slot channel is sent a second one |
| `CacheProtocol.StepKeepsInv` | managedcache/trackingcache.go:165-190 | The invariant behind these is kept by every step of callers, waiters, lock holders and the loop |
| `CacheProtocol.RemovalInOneGo` | managedcache/trackingcache.go:463-497 | The stepwise removal of the protocol, left to itself, is the removal handler of the loop |
| `CacheProtocol.WatchErrorInOneGo` | managedcache/trackingcache.go:207-221 | The stepwise handling of a watch error in the protocol, left to itself, is the handler of the loop, and the loop ends if a kind cannot be removed |
| `CacheProtocol.NilOnlyAfterSync` | managedcache/trackingcache.go:252-331 | Over every run: a caller told nil was told so because the informer had synced or a goroutine reported a sync; failures to set up or wire and watch errors reach callers as errors |
| `CacheProtocol.StaleReportAnswersNewCall` | managedcache/trackingcache.go:167-173 | A concrete run in which a caller is told that its kind synced by the report of an earlier, stopped wait |
| `CacheWaits.MisledExactly` | managedcache/trackingcache.go:167-173 | Over every run: some caller was answered by a wait it had not joined if and only if the loop took a report while another wait was in flight for the kind |
| `CacheWaits.ReportAnswersOwnExactly` | managedcache/trackingcache.go:167-173 | In every reachable state: a report answers callers of its own wait, all of them or none, if and only if its wait is the one in flight for the kind |
| `CacheWaits.NilIsGenuine` | managedcache/trackingcache.go:307-330 | Over every run: a caller with a sync result got what some goroutine saw, and what the goroutine of the wait it joined saw unless it was misled, which takes a stale report |
| `CacheWaits.AbandonedExactly` | managedcache/trackingcache.go:167-173 | Over every run: at some moment a goroutine waits whose open stop channel the loop has forgotten, if and only if a stale report was taken |
| `CacheWaits.AbandonedForEver` | managedcache/trackingcache.go:440-451 | The stop channel of a forgotten wait stays open for the rest of the run |
| `CacheWiring.UnwiredExactly` | managedcache/trackingcache.go:282-292 | Over every run: a known kind is without event handlers if and only if a request for it was answered with a wiring error, or a removal lost its informer without stopping it, and the kind has not been stopped since |
| `CacheWiring.AnswersWiringErrorExactly` | managedcache/trackingcache.go:282-292 | A request is answered with a wiring error, and nothing else, exactly when it makes the kind known and wiring fails |
| `TrackingCache.CollectionIsExact` | managedcache/trackingcache.go:463-497 | After removing others the known informers are the kept ones and those whose removal failed, and the waiters of kept kinds are untouched |
| `TrackingCache.WiringIsNotRetried` | managedcache/trackingcache.go:283-299 | After a request failed to wire a new informer the next request for the kind is answered with nil, the kind stays known, and its handlers are as unwired as before |
| `TrackingCache.WatchErrorIsTold` | managedcache/trackingcache.go:207-222 | A watch error stops exactly the kinds before the first that cannot be removed; every channel queued for one of these is sent that error once, and no other channel anything |
| `TrackingCache.SendAllEffect` | managedcache/trackingcache.go:167-176 | Each queued channel is sent the result once, other channels nothing |
| `TrackingCache.TrackingCache.HandleSyncResponse` | managedcache/trackingcache.go:167-173 | Answers everybody queued for the kind and forgets the wait |
| `TrackingCache.TrackingCache.HandleSyncRequest` | managedcache/trackingcache.go:260-322 | Joins an existing queue, or obtains and wires the informer and answers at once or starts a wait |
| `TrackingCache.TrackingCache.StopInformer` | managedcache/trackingcache.go:428-454 | Answers the queue, closes the stop channel of a wait in flight and forgets the informer, or changes nothing when removal fails |
| `TrackingCache.TrackingCache.RemoveInformer` | managedcache/trackingcache.go:405-416 | Stops the informer when both removals succeed, loses its handlers when only the first does, and changes nothing otherwise |
| `TrackingCache.TrackingCache.RemoveOtherInformers` | managedcache/trackingcache.go:463-497 | Visits every known kind that is not kept, once, in some order, and reports exactly those that could not be removed |
| `TrackingCache.TrackingCache.HandleWatchError` | managedcache/trackingcache.go:215-221 | Stops the kinds of the error in order until one cannot be removed |
| `TrackingCache.TrackingCache.KindsInUse` | managedcache/trackingcache.go:557-561 | The keep set is the union of what all users watch |
| `TrackingCache.TrackingCache.Watch` | managedcache/trackingcache.go:515-524 | Once the wait for the new kinds has succeeded, registers the user and leaves exactly the informers somebody watches or that resist removal; after a failed wait nothing changes |
| `TrackingCache.TrackingCache.Free` | managedcache/trackingcache.go:539-553 | Drops the user and leaves exactly the informers somebody still watches or that resist removal |
| `AccessManager.EntriesAreOpen` | managedcache/objectboundaccess.go:222-282 | In every run each map entry is for a cache of its owner with an uncalled cancel and an unprocessed done message, and no cancel runs twice |
| `AccessManager.AnswerIsShared` | managedcache/objectboundaccess.go:284-361 | The accessor of the owner stays in the map and open, with a named user registered for its kinds, unless no user is named and a cache without users is reused; the request is answered with it exactly if the loop does not block, and with an error exactly if nothing could be created or a kind nobody needs is kept |
| `AccessManager.StopExactly` | managedcache/objectboundaccess.go:238-255 | A stop drops the user, closes the cache of the owner exactly if no user is left, and does nothing without an entry |
| `AccessManager.DoneExactly` | managedcache/objectboundaccess.go:222-236 | The done message of a cache drops whatever entry its owner has and ends the loop exactly if the cache crashed |
| `AccessManager.CrashedForEver` | managedcache/objectboundaccess.go:187-190 | A loop that ended so handles nothing any more |
| `AccessManager.CollectionKeepsWhatIsUsed` | managedcache/objectboundaccess.go:257-282 | While users remain, a collection keeps exactly the kinds some user needs and those that resist removal, and fails exactly if some kept kind is not needed; with the access lock taken it removes nothing yet |
| `AccessManager.DelayedCollectionKeepsWhatIsUsed` | managedcache/objectboundaccess.go:276-281 | When the loop gets the lock it had to wait for, the same kinds are kept |
| `AccessManager.PatientRunsLoseNothing` | managedcache/objectboundaccess.go:222-361 | If no cache is started while an earlier one of its owner lingers, at every moment owners have at most one cache and no open cache is lost |
| `AccessManager.HastyStartCanLose` | managedcache/objectboundaccess.go:228-229 | After any start beside a lingering cache, at most two steps lose the new cache, and it is never cancelled however the run goes on |
| `AccessManager.ReturningIsHasty` | managedcache/objectboundaccess.go:267-274 | Asking for access right after the last user left is such a start, in every state |
| `AccessManager.UnsharedForEver` | managedcache/objectboundaccess.go:257-282 | A cache without an entry never gets one again and is never cancelled |
| `AccessManager.BlocksExactly` | managedcache/objectboundaccess.go:276-281 | A handler blocks exactly when it collects for a cache that stays in use and others hold the access lock of that cache or stand in line for it, or it has ended without its done message taken |
| `AccessManager.LockWaitEndsExactly` | managedcache/trackingcache.go:456-461 | A loop in line for the access lock goes on exactly when everybody before it has left, serves again exactly if the cache still runs, and handles nothing until then |
| `AccessManager.StuckForEver` | managedcache/trackingcache.go:463-465 | A loop blocked on a cache that has ended never serves again |
| `AccessLocks.DealtWithExactly` | managedcache/objectboundaccess.go:222-289 | A message the loop received is dealt with at once exactly if nobody lists the accessors and its handler does not block |
| `AccessLocks.LineEndsExactly` | managedcache/objectboundaccess.go:441-446 | A message in line for the lock on the accessors is handled exactly when the last lister has left |
| `AccessLocks.JamLasts` | managedcache/objectboundaccess.go:441-457 | With a writer in line behind a reader of one cache and a lister behind the writer, the loop handles nothing for any owner in any run in which that reader does not leave |
| `AccessLocks.AnyMessageCanJam` | managedcache/objectboundaccess.go:441-457 | Such a jam can come about from every idle state with a cache, for every message |
| `AccessLocks.RunIsManagersRun` | managedcache/objectboundaccess.go:177-220 | Runs with listers are runs of the manager, so what holds of all its runs holds here |
| `AccessManager.ObjectBoundAccessManager.HandleAccessorRequest` | managedcache/objectboundaccess.go:284-361 | Updates map and caches in place and answers exactly as OnAccess and AccessResponse say |
| `AccessManager.ObjectBoundAccessManager.HandleAccessorStop` | managedcache/objectboundaccess.go:238-255 | Drops the user and collects |
| `AccessManager.ObjectBoundAccessManager.HandleCacheDone` | managedcache/objectboundaccess.go:222-236 | Drops whatever entry the owner has now |
| `AccessManager.ObjectBoundAccessManager.GcCache` | managedcache/objectboundaccess.go:257-282 | Closes the cache of an owner without users, or removes the informers no user needs |
| `Wiring.EveryHandlerHearsEveryInformer` | managedcache/cache_source.go:65-112 | Over any error-free call sequence with fresh informers every started handler is attached exactly once to every retained informer, and the retained ones are exactly those never found stopped |
| `Wiring.CacheSource.HandleNewEventHandlerStart` | managedcache/cache_source.go:65-83 | Attaches the new handler to the informers in order, up to the first failure |
| `Wiring.CacheSource.HandleNewInformer` | managedcache/cache_source.go:86-112 | Drops stopped informers, adds the new one, and attaches the handlers in order, up to the first failure |
| `Probes.ProbeAll` | probing/probe.go:42-81 | Unknown if any verdict is Unknown, else False if any is False, else True, with the messages of exactly that status in order |
| `Probes.FlatteningKeepsVerdict` | probing/probe.go:31-37 | And of Ands, to any depth, equals the And of all leaves in status and messages |

## Left out

- The effect of an orphan teardown: its patch is computed from two copies that are edited differently, so only its verdict is modelled.
- `ownerhandling/native.go`: its setters delegate to another library; the annotation strategy is modelled instead. In `ObjectEngine` both encodings of the stored list are covered.
- The object validator and its dry run against the API server: one verdict per phase (`Rollout.Machinery`).
- OpenAPI schema lookup, typed parsing and JSON decoding of field sets: fields are paths with values, and lists are compared as a whole.
- Formatting and parsing of revision numbers and of the owner annotation's text.
- Individual probes (CEL, conditions, fields), string reports, hashing, logging, enqueue handlers, metrics and the reference command.
- Refusals of the server that are not modelled count as writes that never arrive.
- Linearity without an owner: any revision annotation then counts as control, so it is not a property of the code.
- Mutual exclusion of complete and in transition: a phase can be both.
- Liveness: that a caller is answered in the end, and that an accessor requested without a user stays open.
- Context cancellation that ends the cache loops themselves; the invariants hold for every prefix of a run.
- In place update of Kubernetes objects with shared substructure: objects are values, as with deep copies.
- `slices.Sort` on the phase names inside a duplication error: the names are a set.
- Panics on owners or users without a UID.
- Linearity.RevisionsAreLinear: for runs in which removal patches are harmless, because the patch carries no version and the property fails otherwise; `Linearity.PatchKeepsLinearExactly` is the exact condition.
- Linearity.OlderTeardownsNeverDelete: for such runs too; `StaleDelete.PatchIsSafeExactly` is the exact condition.
- Linearity.OrphansStayOrphaned: for such runs too, since a late patch can name a controller again; `Linearity.AlwaysLinearExactly` is the exact condition.
- Linearity.RunKeepsLinear: for such runs too.
- TrackingCache.TrackingCache.Watch: the wait for the new kinds, which may itself make informers known, comes before this method; its requests and answers are steps of `CacheProtocol`.
