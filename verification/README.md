# Nominatim operator: verified protocols

The operator runs two controllers over one set of stored objects. The instance controller keeps
the database, the API and `status` of a `NominatimInstance`; the Operation controller runs
`NominatimOperation` Jobs (imports, updates, rebuilds) against it. They never talk to each other:
every agreement between them is a protocol over phases, references, annotations and names. This
project models those protocols and proves what they keep over whole runs.

## How the model is built

- `Store` gives the stored objects of one namespace as a value, and each pass and environment
  step as a function on it. A run is a sequence of events: Operations created under any name and
  type, delete requests, passes of either controller, Job counters moving, Jobs vanishing, pods
  draining or starting, CNPG applying or dropping the Database.
- `World` is the same as a class whose methods change the objects step by step, as the
  controllers do. Each method is proved to do exactly what the function of its name says, and
  `World.World.HandleAll` carries that over to runs, so every theorem about `Run` holds of the class.
- `Lifecycle` states once what a pass may do; `Exclusion`, `JobPods`, `References`, `RebuildReset`,
  `ApiQuiescence`, `BackupPause` and `Overtaking` prove invariants of every run from it,
  `Tameness` says from the events alone when a run is well behaved, and `ExclusionExact` for which
  instances mutual exclusion holds at all.
- `PassTable` and `InstanceTable` say what one pass of either controller does, case by case, with
  every condition written out on the stored fields.
- `Shortfalls` and `ResetShortfalls` build the runs in which a promise is not kept, from the single
  events in `Passes`.
- `BlueGreen` is the swap's phase machine and its passes; `SwapSafety` and `SwapHistory` are its
  properties. `Schedule`, `Profiles`, `Regions`, `RegionDrift`, `EnvOverlay`, `VolumeOverlay` and
  `PodOverlay` are the loops around these.

## Assumptions

- A pass is atomic and its API calls succeed: neither controller sets a concurrency, so Operation
  passes are serial.
- One namespace and one instance. Operations may name another instance; none of that name exists.
- Operation specs are not edited: the CRD does not forbid it, and turning an armed Update into a
  Freeze beside a Refresh would break exclusion.
- The Database is deleted by Operation passes only. Users, the teardown of an instance and the
  collection of a BlueGreen sibling, which also delete Database objects, are no events of `Store`.
- The instance spec is fixed during a run. An attached Cluster persists. API Deployment replicas
  are written only by the two controllers, and pods appear only while replicas are requested.
- UIDs are fresh. A Job's `succeeded` and `failed` only grow; the Job may disappear at any time, and
  it may outlive its Operation. A Job keeps the UID, type and instance it was created for.
- Whatever a pass reads from objects outside the model (Secrets, Cluster conditions, the green
  sibling inside an Operation pass) is arbitrary, and children are listed in arbitrary order. The
  regions an instance pass observes are those that `Regions.Replay` computes from that list.
- Names are ASCII, so Go's byte order and the order by characters agree. References are reduced to
  the name, as kind and namespace are the same in every entry.
- Stored times are `metav1.Time`: whole seconds. Cron fires on whole seconds, so `now` in `Schedule`
  is a whole number of seconds too.

## What does not hold, and exactly when it does

The code is modelled as it is. These promises fail for some runs; each has a run or a family of
inputs that shows it, and a lemma that says for all inputs when the promise is kept. The runs are
given for all names, and no instance pass of theirs would create an Operation that is not in them
(`Passes.NothingCreated`).

- Mutual exclusion fails when the region gate fails an Operation whose Job is armed and unfinished,
  for example because the only Succeeded Bootstrap is deleted before its regions are observed: the
  terminal pass reads the Job again and makes the Operation active beside its successor
  (`Shortfalls.GateFailureBreaksExclusion`). The invariant holds all along a run if and only if no
  pass takes that branch (`Exclusion.StepKeepsInvIff`, `Exclusion.InvThroughoutIffTame`). A run
  without such a pass is called tame. Every such failure can be continued to two holders that exclude
  each other, so from any state of the invariant exclusion itself holds in all runs if and only if
  all runs are tame (`ExclusionExact.ExclusiveIffTame`), and for an instance if and only if its spec
  names no regions (`ExclusionExact.ExclusiveIffNoRegions`). A run that deletes no Bootstrap and
  rebuilds to no empty list of regions is tame (`Tameness.SteadyIsTame`).
- Even in a tame run Job pods of two excluding Operations can overlap, for two reasons and no other
  (`JobPods.OverlapHasCause`): a Job with a failed pod and a retry still running already counts as
  Failed (`Shortfalls.RetryingJobOverlaps`), and a deleted Operation is let go while its pod runs
  (`Shortfalls.OrphanedJobOverlaps`). Pods run only for unfinished Jobs of stored Operations, all
  along a run, if and only if no event of these two kinds occurs (`JobPods.PodsOrderlyIff`), and then
  excluding pods never overlap (`JobPods.OrderlyPodsExclude`).
- An Operation created under a used name takes the old Job, and its old success, for its own
  (`Shortfalls.AdoptsOldSuccess`). Every Operation has its own Job or none, all along a run, if and
  only if none is created while a Job of that name is left (`JobPods.OwnJobsIffNeverAdopts`).
- A database reset arms no Job, so an Operation under a smaller name can take the write plane after
  the drop and the Rebuild fails. For any two names there is a tame run over just these two in which
  the begun Rebuild is overtaken if and only if the other name is smaller
  (`ResetShortfalls.OvertakenIff`).
- `done` is recorded, and the Job armed, without a look at the Database's deletion timestamp
  (`ResetShortfalls.DoneOnDyingDatabase`). The Database it is recorded on is being deleted if and
  only if another pass of the run has dropped it (`RebuildReset.DoneOnDyingIff`), so never in a run
  with a single Rebuild (`RebuildReset.DoneIsOnLiveDatabase`).
- Backups stay paused with no Operation left when the last covered Operation is deleted before a
  pass gave it a finalizer (`Shortfalls.PauseLeftBehind`), and in no other way for a policy without
  BlueGreen (`BackupPause.PausedOnlyForWork`).
- A BlueGreen Rebuild driven by the Operation's whole `Reconcile` never cuts over, because
  `waitForJobPrerequisites` writes the phase Importing on every pass
  (`SwapHistory.WholeReconcileNeverCutsOver`). The swap theorems are about repeated
  `reconcileBlueGreenAfterImport`, as in internal/controller/rebuild_bluegreen_test.go:310-412.
- A swap may start on a sibling that a failed swap is still deleting; readiness does not look at
  the deletion timestamp. The live Cluster survives every run if and only if the sibling was not
  being deleted (`SwapHistory.LiveClusterExistsIff`).
- The rollback deadline is cut to whole seconds, so blue is kept a full hour for certain if and only
  if cutover was confirmed on a whole second (`SwapSafety.FullWindowIff`).
- `mostRecentScheduleTime` returns the zero time when the schedule has no fire after cursor and clock;
  it is right if and only if there is one (`Schedule.CatchUpIsRightIff`). The cursor then jumps back to
  the zero time, and in no other case (`Schedule.CursorGoesBackIff`).
- A Succeeded Rebuild that stays listed seals the current import settings again on every pass
  (`Regions.ReplayKeepsSealIff`).
- Generated names sort as text. In a list by name the regions of a newer Rebuild count if and only if
  its generation sorts later as text (`RegionDrift.NewerRebuildCountsIff`), as it does with equally
  many digits but not for 9 and 10 (`RegionDrift.DigitsDecide`); otherwise the older regions stay and
  the drift asks for a name that is taken (`RegionDrift.NewerRebuildIsHidden`). The
  comment on retries promises a new name; a name is free if and only if the stable and the suffixed
  one are not both listed (`RegionDrift.NameIsFreeIff`).
- Teardown asks for the Cluster of the default name. After n completed swaps that is the live one if
  and only if n is even (`SwapHistory.TeardownReachesLiveIff`).
- Two base mounts of one volume at different paths collapse to the last one, twice
  (`VolumeOverlay.MountsKeepBaseIff`). The operator's own bases mount each volume once.

## Model

The last rows are the methods of the classes, each of which does exactly what its specification
function says, so that the `HandleAll` theorems carry that over to whole runs, and four facts that
read one definition back for the results above.

| member | source | states |
|---|---|---|
| Names.LessIsTotal | internal/controller/nominatimoperation_mutex.go:102-137 | Go's `<` on names is strict and total |
| Names.LeastName | internal/controller/nominatimoperation_mutex.go:125-128 | every non-empty finite set of names has a least one under that order |
| Names.DecimalInjective | internal/controller/nominatim_updates.go:151-153 | `%d` renders different numbers differently |
| Operations.TerminalJobStaysTerminal | internal/controller/nominatimoperation_resources.go:241-252 | monotone counters never take a terminal Job phase back to an active one; Succeeded stays Succeeded |
| WritePlane.EvaluateWritePlane | internal/controller/nominatimoperation_mutex.go:102-137 | Hold iff some active conflicting peer holds; RaceWait iff none holds and a conflicting active peer has a smaller name; the busy flag iff any active conflicting peer; the peers reported are the first of their kind |
| WritePlane.DecisionTable | internal/controller/nominatimoperation_mutex.go:76-137 | for any claimant and peers, Hold iff a conflicting peer at work runs or refers to a Job, RaceWait iff none does and one has a smaller name, with conflict written out on types and names |
| WritePlane.DecisionIgnoresOrder | internal/controller/nominatimoperation_mutex.go:102-137 | reordering or repeating the listed peers changes no decision |
| WritePlane.RaceHasWinner | internal/controller/nominatimoperation_mutex.go:102-137 | in every creation race the least name gets Ok |
| WritePlane.WinnersDoNotConflict | internal/controller/nominatimoperation_mutex.go:78-137 | no two racers told Ok exclude each other |
| WritePlane.WaitingIsWellFounded | internal/controller/nominatimoperation_mutex.go:123-135 | no chain of waiting racers closes on itself |
| World.OtherActiveMatches | internal/controller/nominatimoperation_effects.go:75-101 | finds another active child that the policy covers iff there is one |
| World.IsBootstrapComplete | internal/controller/nominatimoperation_resources.go:173-186 | regions are observed or some Bootstrap has Succeeded |
| World.AnyPendingReset | internal/controller/nominatim_database.go:335-356 | true iff an active Rebuild has a pending reset |
| Lifecycle.ReconcileOutcome | internal/controller/nominatimoperation_controller.go:60-176 | everything a pass may do to phase, Job reference, finalizer and other objects; arming needs an Ok claim and open gates |
| PassTable.ActivePassTable | internal/controller/nominatimoperation_controller.go:60-161 | the whole table of a pass over an active Operation: when it is failed, when its Job is created or found and which phase is read off it, and when it waits as it is |
| PassTable.TerminalPassTable | internal/controller/nominatimoperation_controller.go:163-176 | a terminal Operation gets the phase of its Job, if it ever had one that is left, and nothing else of it changes |
| PassTable.DeletingPassTable | internal/controller/nominatimoperation_controller.go:281-307 | a deleted Operation with finalizer goes, every Job stays |
| PassTable.ResetTable | internal/controller/nominatimoperation_controller.go:464-603 | a pass at the reset of an in-place Rebuild takes exactly its next step, and no other pass over an active Operation touches API, Database or records |
| Lifecycle.ClaimByName | internal/controller/nominatimoperation_mutex.go:102-137 | the claim's answer read off the store by name |
| Exclusion.MutualExclusion | internal/controller/nominatimoperation_mutex.go:76-203 | in every state of a tame run no two excluding Operations both hold the write plane, BlueGreen Rebuilds included |
| Exclusion.StepKeepsInvIff | internal/controller/nominatimoperation_controller.go:60-199 | every event keeps the invariant iff it is not a region gate failing an armed unfinished Operation |
| Exclusion.InvThroughoutIffTame | internal/controller/nominatimoperation_controller.go:178-199 | the invariant holds all along a run iff the run is tame |
| ExclusionExact.GateFailureCanEndBadly | internal/controller/nominatimoperation_controller.go:163-199 | from any state of the invariant a gate failure of an armed Operation can be continued, without instance passes, to two holders that exclude each other |
| ExclusionExact.ExclusiveIffTame | internal/controller/nominatimoperation_mutex.go:76-203 | from any state of the invariant the write plane is exclusive in all runs iff all runs are tame |
| ExclusionExact.RegionsBreakExclusion | internal/controller/nominatimoperation_controller.go:178-199 | every instance whose spec names regions, whatever its database and policies, has a run with two holders that exclude each other |
| ExclusionExact.ExclusiveIffNoRegions | internal/controller/nominatimoperation_mutex.go:76-203 | the write plane of an instance is exclusive in all runs iff its spec names no regions |
| Tameness.SteadyIsTame | internal/controller/nominatimoperation_resources.go:167-186 | from the events alone: a run that deletes no Bootstrap and names regions in every Rebuild is tame, and so is every run without regions in the spec |
| Tameness.StepKeepsSteady | internal/controller/nominatimoperation_controller.go:178-199 | in such a run no event closes the region gate on an armed Operation, and no Bootstrap is on its way out |
| Exclusion.EngagedIsSeen | internal/controller/nominatimoperation_mutex.go:91-121 | whoever holds, or would hold after a pass, makes its rivals Hold |
| Exclusion.TerminalIsAbsorbing | internal/controller/nominatimoperation_controller.go:163-176 | under the invariant a pass leaves a terminal phase terminal |
| JobPods.OverlapHasCause | internal/controller/nominatimoperation_controller.go:278-307 | in a tame run pods of two excluding Jobs overlap only if one is retrying after a reported result or has outlived its Operation |
| JobPods.OrphansIff | internal/controller/nominatimoperation_controller.go:281-307 | an owned Job loses its Operation exactly in the pass that removes the finalizer, finished or not |
| JobPods.StepKeepsPodsOrderlyIff | internal/controller/nominatimoperation_controller.go:281-307 | every event keeps running pods to unfinished Jobs of stored Operations iff it is not a pod after a result or without Operation, nor the release of an Operation whose pod runs |
| JobPods.PodsOrderlyIff | internal/controller/nominatimoperation_resources.go:241-252 | the same all along a run |
| JobPods.OrderlyPodsExclude | internal/controller/nominatimoperation_mutex.go:76-203 | in a tame run without such events pods of excluding Jobs never overlap |
| JobPods.OwnersHold | internal/controller/nominatimoperation_controller.go:337-364 | in every run a stored owner refers to its Job, which was built for its type and instance |
| JobPods.StepKeepsOwnJobsIff | internal/controller/nominatimoperation_controller.go:346-359 | every event leaves Operations with their own Job or none iff it creates none under the name of a Job that is left |
| JobPods.OwnJobsIffNeverAdopts | internal/controller/nominatimoperation_controller.go:346-359 | the same all along a run |
| JobPods.SuccessIsItsOwn | internal/controller/nominatimoperation_controller.go:643-678 | in a run without adoption a Succeeded phase was read off the Operation's own succeeded Job |
| References.ReferenceIntegrity | internal/controller/nominatimoperation_parent.go:58-93 | in every run the references are duplicate-free and name stored children with finalizer; with no children left there are none |
| References.RefsHold | internal/controller/nominatimoperation_mutex.go:184-190 | moreover every active Operation that has armed or begun a reset is referenced |
| PassTable.ReferenceFollowsPhase | internal/controller/nominatimoperation_parent.go:58-121 | after a pass a finished Operation is not referenced, and an active one is unless it only waits for its turn |
| PassTable.FinishedIsReleased | internal/controller/nominatimoperation_parent.go:95-121 | in every run a pass releases the reference of an Operation that is finished or gone |
| PassTable.ReferencesAreLive | internal/controller/nominatimoperation_parent.go:58-121 | in every run without BlueGreen each reference names an Operation at work |
| RebuildReset.DropsAtMostOnce | internal/controller/nominatimoperation_controller.go:505-567 | over any run an Operation drops at most one incarnation, and after `done` the stored Database is not the one dropped |
| RebuildReset.HandshakeStep | internal/controller/nominatimoperation_controller.go:464-603 | a dropping pass is the first, with the API at zero and no other holder; `done` only over an applied Database never dropped by it; `done` absorbs |
| RebuildReset.DyingIffDropped | internal/controller/nominatimoperation_controller.go:517-539 | in every run the Database is being deleted iff some pass of the run dropped its UID |
| RebuildReset.DoneOnDyingIff | internal/controller/nominatimoperation_controller.go:551-567 | `done` is recorded on an applied Database the Operation never dropped, and that is itself being deleted iff some pass of the run dropped it |
| RebuildReset.InstanceWaitsForReset | internal/controller/nominatim_database.go:322-356 | in every run an instance pass leaves the Database alone while a Rebuild has its reset pending |
| RebuildReset.DoneIsOnLiveDatabase | internal/controller/nominatimoperation_controller.go:551-567 | in every run with no other Rebuild nobody dropped it, so it is not being deleted |
| RebuildReset.PassResets | internal/controller/nominatimoperation_controller.go:461-568 | a pass takes exactly one of five steps on Database, Deployment and annotations |
| ApiQuiescence.ApiStaysQuiesced | internal/controller/nominatim_workloads.go:348-403 | in a tame run the API has no replicas and no pods while an InPlace Rebuild that began its reset is active |
| ApiQuiescence.InstanceKeepsQuiet | internal/controller/nominatim_workloads.go:378-403 | instance passes keep the API down because the Rebuild's reference suspends it |
| InstanceTable.ApiAfterPass | internal/controller/nominatim_workloads.go:348-403 | after an instance pass there is a Deployment unless wanted regions are not observed; no replicas iff a stored reference holds it down or none are asked for, the asked-for number otherwise |
| InstanceTable.ApiComesBack | internal/controller/nominatim_workloads.go:374-403 | in every run without BlueGreen, once no Operation is at work an instance pass brings the asked-for replicas up |
| InstanceTable.InstancePassTable | internal/controller/nominatim_controller.go:61-150 | attachment, replayed regions, exactly when a Database is created, and nothing else |
| InstanceTable.OtherInstancePasses | internal/controller/nominatim_delete.go:116-139 | a pass cut short does nothing; one during deletion marks or removes each child |
| BackupPause.PausedWhileWorking | internal/controller/nominatimoperation_effects.go:38-121 | in a tame run backups are paused and exactly the import settings are in force while a covered Operation is active and armed |
| BackupPause.PausedOnlyForWork | internal/controller/nominatimoperation_controller.go:278-307 | paused only while an active covered Operation exists, all along a run, iff the last one is never deleted before its first pass |
| BackupPause.StepKeepsAccountedIff | internal/controller/nominatimoperation_effects.go:48-101 | the same for every single event |
| BackupPause.CleanupRestores | internal/controller/nominatimoperation_effects.go:53-69 | a pass that leaves a covered Operation terminal or gone, with no other match, leaves backups running and exactly the runtime settings |
| BackupPause.PassSetsOneOfTwoModes | internal/controller/nominatimoperation_effects.go:38-159 | in every run a pass changes the Cluster only for a covered Operation, to paused with the import settings or, with nobody else covered at work, to running with the runtime settings |
| BackupPause.CoveredPassPauses | internal/controller/nominatimoperation_effects.go:38-46 | a covered Operation that passes claim and gate pauses backups even if it then waits |
| Overtaking.OnlySmallerNamesOvertake | internal/controller/nominatimoperation_mutex.go:123-135 | whoever newly holds beside an active Rebuild has a smaller name and the Rebuild held nothing |
| Overtaking.BegunRebuildIsNotOvertaken | internal/controller/nominatimoperation_mutex.go:102-137 | in a tame run whose other names all sort later, a Rebuild that has begun keeps the write plane to itself and is never told Hold |
| Shortfalls.GateFailureBreaksExclusion | internal/controller/nominatimoperation_controller.go:163-199 | for any three names, a run after which two excluding Operations both hold |
| Shortfalls.RetryingJobOverlaps | internal/controller/nominatimoperation_resources.go:241-252 | for any two names, a tame run in which excluding pods overlap because one Job is retrying, both Operations stored |
| Shortfalls.OrphanedJobOverlaps | internal/controller/nominatimoperation_controller.go:281-307 | for any two names, a tame run in which excluding pods overlap because one Operation was deleted, no Job retrying |
| Shortfalls.AdoptsOldSuccess | internal/controller/nominatimoperation_controller.go:346-359 | for any name, a run whose second Operation of that name is Succeeded by the Job of the first |
| ResetShortfalls.ResetLosesTheRace | internal/controller/nominatimoperation_controller.go:505-546 | for any smaller name, a tame run in which the begun Rebuild is failed while that name holds |
| ResetShortfalls.OvertakenIff | internal/controller/nominatimoperation_mutex.go:123-135 | for any two names a tame run over just these in which the begun Rebuild is overtaken exists iff the other name is smaller |
| ResetShortfalls.DoneOnDyingDatabase | internal/controller/nominatimoperation_controller.go:437-451 | for any smaller name, a tame run in which `done` is recorded, and the Job armed, on a Database that is being deleted |
| Shortfalls.PauseLeftBehind | internal/controller/nominatimoperation_controller.go:278-307 | for any two names, a run that leaves backups paused and no Operation |
| BlueGreen.AdvanceIsMonotone | internal/controller/rebuild_bluegreen.go:94-165 | for every input: moves iff not blocked, by one rank; terminal phases absorb; the deadline is set once; never both collections, blue only after the deadline |
| BlueGreen.AdvanceActs | internal/controller/rebuild_bluegreen.go:94-165 | exactly which actions each step asks for |
| SwapSafety.LiveClusterExists | internal/controller/rebuild_bluegreen_reconcile.go:38-86 | in every reachable state the live Cluster exists and is not being deleted, lends its Secret, and is active; live equals pending iff past cutover |
| SwapSafety.StepIsForward | internal/controller/rebuild_bluegreen_reconcile.go:189-290 | rank never falls, Succeeded and Failed absorb, the deadline never moves, the live Cluster is never deleted |
| SwapSafety.BlueIsKept | internal/controller/rebuild_bluegreen.go:136-158 | blue's deletion comes no earlier than the stored deadline, a window after confirmation up to truncation |
| SwapSafety.FullWindowIff | internal/controller/rebuild_bluegreen.go:141-151 | the stored deadline leaves a full window iff cutover was confirmed on a whole second |
| SwapSafety.PassMovesIff | internal/controller/rebuild_bluegreen_reconcile.go:189-229 | a pass of a succeeded import raises the rank iff the swap is not stalled |
| SwapSafety.SwapSucceeds | internal/controller/rebuild_bluegreen.go:94-165 | without a failure at most five passes find something to do, and exactly with the fifth the swap has succeeded; a stall means success, deadline ahead, or blue still being deleted |
| SwapSafety.MovesAreRanks | internal/controller/rebuild_bluegreen.go:94-165 | the number of effective passes determines the phase |
| SwapSafety.SwapCanSucceed | internal/controller/rebuild_bluegreen_reconcile.go:187-335 | every run without a failure can be continued to success |
| SwapSafety.SwapPassTable | internal/controller/rebuild_bluegreen_reconcile.go:189-290 | in any state one pass's next phase, attachment and deletions, by the phase before, the import, the attachment, the clock and the retired Cluster |
| SwapSafety.VerdictIsTheSwaps | internal/controller/rebuild_bluegreen_reconcile.go:292-335 | in any run the Operation is Succeeded iff the swap is done, with green live and blue gone, Failed iff it has failed, with blue live and green going, and Running otherwise |
| SwapSafety.FailedSwapDropsGreen | internal/controller/rebuild_bluegreen.go:106-113 | in every state of a failed swap green is gone or being deleted |
| SwapSafety.SwapNamesItsOperation | internal/controller/rebuild_bluegreen_reconcile.go:38-58 | status.rebuild names its Operation all along |
| SwapHistory.LiveNameAlternates | internal/controller/nominatim_database.go:52-62 | after n completed swaps live is the default name for even n and `-bg` for odd n, exists, and lends its Secret |
| SwapHistory.AnyNumberOfSwaps | internal/controller/rebuild_bluegreen_reconcile.go:38-86 | any number of swaps can be completed one after the other |
| SwapHistory.TeardownReachesLiveIff | internal/controller/nominatim_delete.go:141-165 | after n completed swaps teardown asks for the live Database, and for the live Cluster iff n is even |
| SwapHistory.LiveClusterExistsIff | internal/controller/rebuild_bluegreen_reconcile.go:141-185 | the live Cluster survives every run iff the sibling was not being deleted at the start |
| SwapHistory.DyingGreenGoesLive | internal/controller/rebuild_bluegreen_reconcile.go:75-86 | otherwise two passes make a vanishing Cluster live |
| SwapHistory.WholeReconcileNeverCutsOver | internal/controller/nominatimoperation_controller.go:217-233 | through the whole Reconcile the swap never passes cutover and the live attachment never changes |
| Schedule.MostRecentScheduleTime | internal/controller/nominatim_updates.go:136-149 | terminates for every `Next` and computes the function below |
| Schedule.CatchUpIsRightIff | internal/controller/nominatim_updates.go:136-149 | returns the greatest fire in (last, now] iff the schedule has a fire after both last and now, in whatever order they are |
| Schedule.PeriodicFollows | internal/controller/nominatim_updates.go:136-149 | every periodic schedule, the hourly one with its fire at the zero time included, meets the definition the results on schedules rest on |
| Schedule.NameIdentifiesFire | internal/controller/nominatim_updates.go:151-153 | different fires never share an Operation name |
| Schedule.OneOperationPerFire | internal/controller/nominatim_updates.go:89-123 | each fire yields at most one Operation over any run with any lost cursor writes |
| Schedule.CursorStep | internal/controller/nominatim_updates.go:37-124 | for any clock the cursor only advances, to at most the clock; an idle or busy pass changes nothing; otherwise no fire is left between cursor and clock |
| Schedule.CursorGoesBackIff | internal/controller/nominatim_updates.go:136-149 | a pass moves the cursor back, to the zero time, iff it acts and the schedule has no fire after cursor and clock |
| Schedule.CursorNeverGoesBack | internal/controller/nominatim_updates.go:37-134 | over any run under an unending schedule, with any clocks and lost writes, the cursor never goes back |
| Schedule.FireIsServed | internal/controller/nominatim_updates.go:52-124 | the greatest missed fire has its Operation stored after the pass: the one listed already, or a new Update over the observed regions |
| Schedule.OtherPassesDoNothing | internal/controller/nominatim_updates.go:40-87 | disabled, without regions, beside write-heavy work, or without a missed fire a pass changes nothing |
| Schedule.EveryFireIsServed | internal/controller/nominatim_updates.go:89-123 | over any run every fire the cursor ever stood at has its Operation |
| Profiles.ProfileKeysToRemove | internal/controller/nominatimoperation_effects.go:170-188 | exactly the managed keys the target lacks, each once, for any map order |
| Profiles.InForceMeans | internal/controller/nominatimoperation_effects.go:128-148 | a profile in force means that its settings are set and those of the other profile alone are not |
| Profiles.ApplyParameters | internal/controller/cnpg_effects.go:81-102 | removed keys go, target keys are set, all others stay |
| Profiles.ApplyPostgresProfile | internal/controller/nominatimoperation_effects.go:128-159 | for the import its settings are set and runtime-only ones are gone, the other way round for runtime, and all other keys stay |
| Profiles.LastSwitchWins | internal/controller/nominatimoperation_effects.go:128-188 | any history of switches equals its last one alone, so switching is idempotent |
| Profiles.InForceDetermines | internal/controller/nominatimoperation_effects.go:170-188 | the profile in force and the other keys determine the parameters, whatever order the maps were walked in |
| Regions.MergeRegions | internal/controller/nominatim_region_observe.go:95-111 | the loop with its `have` map computes the merge |
| Regions.MergeExtends | internal/controller/nominatim_region_observe.go:95-111 | the old list is a prefix, the members are exactly old and new, merging again changes nothing |
| Regions.MergeAppendsInOrder | internal/controller/nominatim_region_observe.go:95-111 | new regions come last, in the order they are named in |
| Regions.MergeStaysDistinct | internal/controller/nominatim_region_observe.go:95-111 | no region is listed twice |
| Regions.BootstrapFills | internal/controller/nominatim_region_observe.go:40-74 | an empty list is filled by the first Bootstrap that yields regions, its own before the spec's |
| Regions.SpecIsInEffect | internal/controller/nominatim_config.go:132-140 | without regions or seal the spec's settings are in effect |
| Regions.LastRebuildDecides | internal/controller/nominatim_region_observe.go:80-93 | from the last Succeeded Rebuild on, neither earlier Operations nor the old status matter |
| Regions.OnlyExtends | internal/controller/nominatim_region_observe.go:80-111 | without a Rebuild the regions are extended by exactly those of succeeded AddRegions and the seal stays |
| Regions.RegionsStay | internal/controller/nominatim_region_observe.go:28-125 | observed regions never vanish unless a Rebuild that names none succeeds |
| Regions.SettingsDoNotMatter | internal/controller/nominatim_region_observe.go:28-125 | the regions do not depend on import-time settings |
| Regions.ReplayIsIdempotent | internal/controller/nominatim_region_observe.go:28-125 | replaying the same list again changes nothing |
| Regions.ReplayKeepsSealIff | internal/controller/nominatim_region_observe.go:113-125 | a seal survives a replay iff no Succeeded Rebuild is listed or the spec agrees with it |
| Regions.SealIsFinal | internal/controller/nominatim_config.go:132-158 | without a Rebuild the seal and the effective settings are constant under any later spec edits |
| Regions.FirstSeal | internal/controller/nominatim_region_observe.go:40-74 | the first seal comes with the first Bootstrap regions and takes the spec of that moment |
| RegionDrift.ComputeDifference | internal/controller/nominatim_controller.go:249-262 | the elements of one list that the other lacks, in order |
| RegionDrift.ReconcileDrift | internal/controller/nominatim_region_drift.go:40-184 | when a creation is asked for, under which name and for which regions |
| RegionDrift.DriftWaits | internal/controller/nominatim_region_drift.go:78-89 | nothing while write-heavy work is active; otherwise one missing region, or the whole spec by Rebuild |
| RegionDrift.RequestsIff | internal/controller/nominatim_region_drift.go:40-184 | exactly when a creation is asked for, and its name, type and regions |
| RegionDrift.DriftMakesProgress | internal/controller/nominatim_region_drift.go:112-132 | without a Rebuild every round whose AddRegions succeeds strictly shrinks what is missing and loses nothing |
| RegionDrift.DriftClosedIff | internal/controller/nominatim_region_drift.go:136-184 | after a Rebuild the drift is closed iff the last listed Rebuild and later AddRegions cover the spec |
| RegionDrift.NewerRebuildCountsIff | internal/controller/nominatim_region_drift.go:159-166 | for any two generations, the newer Rebuild's regions are the observed ones of a list by name iff its generation sorts later as text |
| RegionDrift.NewerRebuildIsHidden | internal/controller/nominatim_region_drift.go:159-166 | otherwise the older regions stay and the next request is for a taken name |
| RegionDrift.DigitsDecide | internal/controller/nominatim_region_drift.go:163 | equally many digits sort by value, 9 and 10 do not |
| EnvOverlay.MergeEnvReservedWin | internal/controller/pod_overlay.go:186-221 | the three loops with their `seen` map compute the merge |
| EnvOverlay.WiringIsReserved | internal/controller/pod_overlay.go:30-51 | exactly the operator's wiring is reserved, by exact name |
| EnvOverlay.ReservedEnvIsTheBases | internal/controller/pod_overlay.go:203-210 | for any overlay the reserved entries are exactly the base's, in order |
| EnvOverlay.FreeEnvIsTheOverlays | internal/controller/pod_overlay.go:195-220 | under every other name the overlay's entries, or the base's if it has none |
| EnvOverlay.SealingTwice | internal/controller/pod_overlay.go:186-221 | a second merge keeps every name's entries, a third changes nothing, and when the second changes the order |
| VolumeOverlay.UnionVolumeMounts | internal/controller/pod_overlay.go:223-250 | the loops over `byName`, `byPath` and `order` compute the union |
| VolumeOverlay.MountsKeepBaseIff | internal/controller/pod_overlay.go:223-250 | the base is a prefix iff its same-named mounts agree |
| VolumeOverlay.MountsAreDistinctIff | internal/controller/pod_overlay.go:223-250 | names stay distinct iff the base's are, and then paths iff the base's are |
| VolumeOverlay.OnlyShadowedAreMissing | internal/controller/pod_overlay.go:232-244 | every overlay mount is in, or its name or path is |
| VolumeOverlay.MountsSealedTwice | internal/controller/pod_overlay.go:223-250 | over a consistent base a second union changes nothing |
| VolumeOverlay.UnionVolumeLists | internal/controller/pod_overlay.go:252-275 | the loops compute the union of volumes |
| VolumeOverlay.VolumesAreSafe | internal/controller/pod_overlay.go:252-275 | host paths come from the base alone, so the later purge drops nothing |
| VolumeOverlay.VolumesKeepBase | internal/controller/pod_overlay.go:252-275 | base volumes are never replaced and every other permitted volume gets in by name |
| PodOverlay.MergeWorkloadContainers | internal/controller/pod_overlay.go:127-157 | base order, merged by name, then the overlay's own; the fallback for a missing managed container never applies |
| PodOverlay.MergeOneContainer | internal/controller/pod_overlay.go:167-184 | env and mounts of the managed container do not come from the strategic merge |
| PodOverlay.SealManagedContainer | internal/controller/pod_overlay.go:285-309 | seals the first container of the managed name and no other |
| PodOverlay.MergePodSpecOverlay | internal/controller/pod_overlay.go:68-95 | the whole merge; without an overlay the base is returned as it is |
| PodOverlay.ManagedIsSealed | internal/controller/pod_overlay.go:285-309 | for any strategic merge the managed container keeps place, entrypoint and security context, and env and mounts depend on the inputs alone |
| PodOverlay.ManagedWiring | internal/controller/pod_overlay.go:186-309 | its reserved env is the operator's entry for entry, other names are the overlay's, and the operator's mounts come first |
| PodOverlay.OthersSurvive | internal/controller/pod_overlay.go:127-165 | every other container, init containers included, keeps its place merged with the overlay's of its name, the overlay's own follow, and pod fields are the strategic merge's |
| PodOverlay.StripKeepsTheRest | internal/controller/pod_overlay.go:362-377 | stripping takes only requests for privilege out |
| PodOverlay.HardenContainers | internal/controller/pod_overlay.go:325-330 | strips every container's security context in place |
| PodOverlay.PurgeVolumes | internal/controller/pod_overlay.go:332-349 | the second look at volumes |
| PodOverlay.NothingPrivileged | internal/controller/pod_overlay.go:313-377 | for any strategic merge no container or init container asks to be privileged, asks for escalation or adds capabilities; host paths, host namespaces and service account are the base's, and so is a base's pod security context |
| World.World.SyncRef | internal/controller/nominatimoperation_parent.go:58-93 | appends the reference if missing, or splices out its first occurrence, and nothing else |
| World.World.SetClusterEffects | internal/controller/nominatimoperation_effects.go:105-166 | sets the pause annotation and applies the profile on an attached Cluster, nothing otherwise |
| World.World.ApplyPreJobEffects | internal/controller/nominatimoperation_effects.go:38-46 | a covered Operation pauses backups and gets the import profile |
| World.World.ApplyTerminalEffects | internal/controller/nominatimoperation_effects.go:53-69 | resume and runtime profile, only without another active match |
| World.World.SyncSideEffects | internal/controller/nominatimoperation_parent.go:102-121 | the reference follows the phase, terminal effects follow a terminal phase |
| World.World.ClaimWritePlane | internal/controller/nominatimoperation_mutex.go:157-203 | Hold fails the Operation, RaceWait changes nothing, Ok adds its reference |
| World.World.EnforceRegionGates | internal/controller/nominatimoperation_controller.go:181-199 | fails exactly the gated types without regions or without Bootstrap |
| World.World.QuiesceApi | internal/controller/nominatimoperation_controller.go:575-603 | quiesced iff absent, or no replicas and no pods; otherwise replicas are zero afterwards |
| World.World.EnsureDatabase | internal/controller/nominatim_database.go:360-381 | creates the Database under a fresh UID only when there is none |
| World.World.ResetDatabase | internal/controller/nominatimoperation_controller.go:464-568 | one step of the drop and recreate handshake, in the source's order of branches |
| World.World.AwaitPrerequisites | internal/controller/nominatimoperation_controller.go:204-276 | what a pass waits for before the Job, and the reset before the readiness gate |
| World.World.SyncStatusFromJob | internal/controller/nominatimoperation_controller.go:643-678 | phase and Job reference are read off the Job, if there is one |
| World.World.Fail | internal/controller/nominatimoperation_controller.go:680-700 | Failed, then the parent side effects |
| World.World.ReconcileOperation | internal/controller/nominatimoperation_controller.go:60-80 | one whole Operation pass |
| World.World.ReconcileActive | internal/controller/nominatimoperation_controller.go:82-121 | refusals and the claim, in order |
| World.World.ReconcileClaimed | internal/controller/nominatimoperation_controller.go:123-161 | gate, effects, prerequisites, Job, status, side effects |
| World.World.ReconcileTerminal | internal/controller/nominatimoperation_controller.go:163-176 | reads the Job again, then the side effects |
| World.World.ReconcileDelete | internal/controller/nominatimoperation_controller.go:281-307 | reference, effects, then the object goes; nothing without the finalizer |
| World.World.IsApiSuspended | internal/controller/nominatim_workloads.go:348-372 | true iff a referenced Operation that exists suspends the API |
| World.World.ReconcileApi | internal/controller/nominatim_workloads.go:374-403 | Deployment removed before regions are observed, zero replicas while suspended, the spec's otherwise |
| World.World.ReconcileDatabase | internal/controller/nominatim_database.go:104-176 | the owned Database is not recreated while a reset is pending |
| World.World.DrainChildOperations | internal/controller/nominatim_delete.go:118-139 | children without finalizer go, the others are marked, strangers stay |
| World.World.ReconcileInstance | internal/controller/nominatim_controller.go:61-150 | one instance pass, regions replayed from the listed children |
| World.World.ObserveRegions | internal/controller/nominatim_region_observe.go:28-31 | the observed regions become those the replay computes |
| World.World.HandleAll | internal/controller/nominatimoperation_controller.go:702-710 | the objects after any sequence of events are those of `Run` |
| BlueGreen.Controller.ApplyCutover | internal/controller/rebuild_bluegreen_reconcile.go:77-86 | both attachments become the pending ones |
| BlueGreen.Controller.ApplyActions | internal/controller/rebuild_bluegreen_reconcile.go:259-290 | cutover, then blue, then green, and which name each deletes |
| BlueGreen.Controller.ReconcileAfterImport | internal/controller/rebuild_bluegreen_reconcile.go:189-335 | one pass: new status, deletions, attachment and Operation phase |
| BlueGreen.Controller.EnsurePendingCluster | internal/controller/rebuild_bluegreen_reconcile.go:99-126 | seeds when needed and creates the pending Cluster |
| BlueGreen.Controller.ReconcileClusterCreate | internal/controller/nominatim_database.go:158-176 | keeps a live name, defaults it otherwise; the Secret follows |
| BlueGreen.Controller.HandleAll | internal/controller/rebuild_bluegreen_reconcile.go:187-229 | status and Clusters after any sequence of swap events are those of `Run` |
| Schedule.Scheduler.ReconcileUpdates | internal/controller/nominatim_updates.go:37-124 | one pass with its guards and region argument on cursor and Operations, lost cursor writes included |
| Regions.Status.ObserveRegions | internal/controller/nominatim_region_observe.go:28-93 | the two replay loops compute the replay |
| Regions.Status.Seal | internal/controller/nominatim_config.go:148-158 | writes the current settings unless sealed and not forced |
| RegionDrift.NameIsFreeIff | internal/controller/nominatim_region_drift.go:100-110 | the requested name is taken iff both the stable and the suffixed name are listed |
| SwapSafety.StartIsSafeIff | internal/controller/rebuild_bluegreen_reconcile.go:141-185 | a fresh seed establishes the invariant iff the chosen sibling is not being deleted |
| SwapHistory.WholePassRewinds | internal/controller/nominatimoperation_controller.go:229-231 | a whole pass sets any swap back to before cutover |
| RebuildReset.InstanceDatabase | internal/controller/nominatim_database.go:322-356 | an instance pass creates a Database only when there is none and no reset is pending |

## Left out

- MutualExclusion: says nothing about `activeOperationRefs` being conflict-free, because a waiting claimant keeps its reference.
- ApiStaysQuiesced: pods that are terminating but no longer counted by the Deployment status are not seen, by the code or by the model.
- SwapSucceeds: progress is counted in passes that find something to do; SwapCanSucceed says that they can happen, that they do is not modelled.
- OneOperationPerFire: holds while the Operation of a fire stays listed; once it is removed and the cursor write was lost, the fire can be created again, as in the code.
- DriftMakesProgress: says nothing about a creation that the API server refuses; when that happens is NameIsFreeIff.
- PausedOnlyForWork: leaves out BlueGreen, whose swap marks the Operation Succeeded and leaves the resume to the next pass over it; so does CleanupRestores.
- AwaitPrerequisites: the green objects and the phase Importing that a BlueGreen pass writes are in `SwapHistory.WholePass`, not here.
- ReconcileClaimed: the staging PVC is left out, and what a BlueGreen swap makes of a finished import is an arbitrary input here.
- ReconcileDatabase: mode, Cluster name and Secret name are one flag; `BlueGreen.Controller.ReconcileClusterCreate` has the names.
- ReconcileInstance: the Operations it creates are events of their own, and owned CNPG resources are not deleted after the drain.
- ReconcileAfterImport: the parent side effects of the failing exit are in `Store.AfterJob`, not here.
- EnsurePendingCluster: the green Database, the PVCs and the readiness answer are left out.
- ReconcileUpdates: parsing the cron expression and the requeue delay are left out.
- SuccessIsItsOwn: leaves out BlueGreen Rebuilds, which the swap completes.
- SteadyIsTame: gives one direction, from the events alone; ExclusiveIffNoRegions is exact for an instance and InvThroughoutIffTame for a run.
- ReconcileApi: reduced to the Deployment's existence and replica count; Service, HTTPRoute, UI and probes are object building.
- NothingPrivileged: an unset escalation flag stays unset, which Kubernetes takes for allowed; ephemeral containers are not modelled.
- TeardownReachesLiveIff: what the garbage collector does with the live Cluster after the instance is gone is not modelled.
- ManagedIsSealed: is stated for bases that carry the managed container once, as the operator builds them; Kubernetes refuses pods with repeated container names.
- Client plumbing: owner references, RBAC, PVCs, JSON decoding, the strategic merge itself (an arbitrary function here), manager setup, conditions and messages.
- `buildOperationJob`, image resolution and env wiring: long but without branching that the protocols depend on; the deletion of a Job built before its DSN env existed is not modelled.
- Partial API failures inside a pass, stale caches and more than one worker: mutual exclusion rests on atomic passes. The window between a Database deletion and its annotation is inside one pass.
- The Database reclaim policy and Postgres roles, and the deletion of owned CNPG resources once the children are drained.
- Operations that an instance pass creates (Bootstrap, drift, schedule) appear in runs as creations of their own.
- Region timestamps, auxiliary data, sequence probes, worker images and the end-to-end tests.
- Liveness of the whole system: reset handshake and name race together.
- Green PVC and Database objects of a swap: only the Clusters and the attachment are modelled.
