# ARK cluster operator: verified model

The operator keeps a cluster of ARK game servers running on Kubernetes. Every map has two server volumes, server-a and
server-b; an update is installed on the one not in use, players are warned and drained, the volumes are swapped and the
server pod is replaced. The operator can crash between any two API calls, its status writes can conflict, and the
environment moves while it works. This project models that operator and proves what it is meant to guarantee.

## How the model is built

**The step system** (`World`, `Operator`). The stored world holds the cluster object with its resource version, the
server pods, the init Jobs, the revisions the pod hash reads, a monotone clock, and a log of what happened. A
reconcile pass in memory holds its next API call, the map it is at, its copy of the cluster and the mid-flight map. A
step makes one API call and the computation up to the next one. The answer is `Ok`, `Fail` (not carried out), `Lost`
(carried out, but the caller sees an error) or `Clash` (the name is taken); a status write besides conflicts exactly
when the copy's resource version is not the stored one, and a conflict is swallowed as `persistStatus` does. Between any
two steps the environment may move (spec edits, the mod controller's writes, Jobs, pods, time) or the operator may die.
Reads are fresh. The pod-template hash is any function of its inputs; only `Drift` and `PodHashes` take the digest as
injective.

**The code** (`Reconciler`, `Loops`). `ArkClusterReconciler` is the controller as written: methods that update fields.
A script of labels says what the environment does, what each call is answered and when the operator dies. `Reconcile`
is proved to use up the next labels of the script, as many as make one whole pass (`WholePass`), and to leave exactly
the world the step system reaches under them; in between, `At` ties fields and step system together before every call.
`Operation.Operate` runs any number of passes over any script and carries every safety theorem over to this code, each
under its own conditions on the start and the script and no others.

**Safety over all runs** (`Transitions`, `Coherence`, then `DrainSafety`, `RollbackSafety`, `GraceSafety`,
`RolloutSafety`, `Handover`, `LivePods`, `Exclusivity`, `Recovery`, `StatusAgreement`, `Frame`, `HealthyMaps`,
`JobSafety`, `Phases`, `Causes`). `Effects` writes each call out; `Choices` and `PodHashes` say, in terms of the stored
objects, what each call decides and which edits make a pod drift. `Runs` and `Visits` build runs from given labels, and
`Windows`, `Duplicates` and `StaleDrains` show by such runs that what the theorems ask has to be asked.

**Convergence** (`Turns`, `CalmPass`, `WholePass`, `Convergence`). The turn of a map in an undisturbed pass is proved
equal to one step on what concerns that map alone; a measure on that drops with every pass; so the cluster converges.

**Independent cores** (`Drift`, `Slugs`, `OrphanCollection`, `Rcon`, `GusIni`, `ModStatus`, `Ports`, with `Text` for
the string library and `Integers` for the machine's int32).

## What is false of the code, and what holds instead

- Exclusivity of a map's volumes (`Exclusivity.MapExclusivity`) holds as long as every volume change of that map was
  stored and its pod deleted right after (`Exclusivity.Undisturbed`). One mishap breaks it, with all else going well: a
  crash between a stored swap and the deletion (`Windows.OneCrashInTheWindow`), or between a stored rollback and the
  deletion (`Windows.OneCrashAfterRollback`), a deletion that fails unnoticed (`Windows.OneDeletionUnnoticed`), a swap
  write refused as stale (`Windows.OneSwapRefused`), or, for a map removed and added again, a left-over pod
  (`Windows.OneOrphanLeft`). Mishaps to other maps do no harm.
- A spec may list a map ID twice, and neither the API nor a webhook objects. Grace is honoured for a map in every run
  under a spec if and only if the spec lists it at most once (`Duplicates.HonouredIffListedOnce`); else one pass can
  start the drain and end it, with every call succeeding and whatever the grace period
  (`Duplicates.TwiceListedSkipsAPass`). A stored end-of-pass status has one entry per map if and only if the spec stored
  with it lists none twice (`StatusAgreement.StatusAgreesWithSpec`, `StatusAgreement.PrunedMatches`).
- A drain is not called off when its edit is taken back: `steady` leaves the deadline on record, and the next edit swaps
  at once, without a warning to players (`StaleDrains.EditTakenBack`). From the moment a map's pod is found with its
  wanted hash, later rolls start drains of their own if and only if no deadline was on record at that moment
  (`StaleDrains.FreshIffNoDeadline`).
- A revision that cannot be read counts as empty: one failed read has a healthy map drained
  (`HealthyMaps.OneReadFails`). While spec and revisions hold still and can be read, it is left alone
  (`HealthyMaps.HealthyIsLeftAlone`).
- An init Job can write under a running server: an edit of the image starts a second Job beside the first, and the
  server moves when the second is done (`JobSafety.OneImageEdit`). While the image stays it cannot
  (`JobSafety.NoJobUnderTheServer`).
- A pod can be created on a volume that is not on record, but only by a pass whose own volume change of that map was
  refused (`Recovery.SwapIsRecovered`).
- OneAtATime looks at the statuses stored before the pass: a pass that finds no map mid-update starts every map that
  drifted (`Convergence.IdlePassStartsEveryDrift`). What holds is `RolloutSafety.OneAtATimeHolds`.
- `MapSlug` is not injective (`Slugs.SlugsCollide`), and pruning goes by slug: the pruned status matches a spec
  that lists no map twice if and only if no entry of a map outside spec shares a slug with one inside
  (`StatusAgreement.PrunedMatches`).
- A removed map's volume claim can stay behind: `OrphanCollection.CleanupIsFullIff` says exactly when.
- A packet with a body of more than 4086 bytes is written but cannot be read back (`Rcon.FrameRoundTrip`).
- The port check errs once a range passes the largest int32 (`Ports.ConflictIsExactIff`).
- The design document has `persistStatus` retry on conflict; the code swallows the conflict, and so does the model.

## Model

| member | source | states |
|---|---|---|
| Operation.Operate | internal/controller/arkcluster_controller.go:53-149 | The code, run for any number of passes from any world under any script of environment moves, answers and crashes, uses up the script label by label in exactly that many whole passes and leaves the world where the step system goes; so deadlines stand, recorded volumes stand and pods follow them, rollbacks do not ping-pong, gates and grace hold, no pod precedes its Job, statuses fit their specs and each map's volumes are exclusive, each under its own theorem's conditions; and, under none, events come in order and final statuses tell what their pass saw |
| Reconciler.ArkClusterReconciler.Reconcile | internal/controller/arkcluster_controller.go:53-149 | One call is one whole pass: it takes the world exactly where the step system goes under the next labels of the script, the last of them, and only that, an answer or a death that leaves no pass running |
| Reconciler.ArkClusterReconciler.ReadCluster | internal/controller/arkcluster_controller.go:56-107 | Reads the cluster afresh and notes the mid-flight map, or ends at once |
| Reconciler.ArkClusterReconciler.RunMaps | internal/controller/arkcluster_controller.go:109-115 | The fan-out over the maps in spec order, or the end of the pass at the first error |
| Reconciler.ArkClusterReconciler.StoreStatus | internal/controller/arkcluster_controller.go:126-143 | Prune, summary and the last status write agree with the step system's last step |
| Reconciler.ArkClusterReconciler.ReconcileMap | internal/controller/arkcluster_controller.go:153-204 | Ends at the next map in agreement with the step system, or with the pass gone |
| Reconciler.ArkClusterReconciler.FindAndDispatch | internal/controller/arkcluster_controller.go:177-181 | The same from the listing of the map's pods on |
| Reconciler.ArkClusterReconciler.Dispatch | internal/controller/arkcluster_controller.go:183-203 | The same from the address refresh on: first start, steady, hold-back or roll |
| Reconciler.ArkClusterReconciler.FirstStart | internal/controller/arkcluster_controller.go:273-297 | The same for a map without a live pod |
| Reconciler.ArkClusterReconciler.Steady | internal/controller/arkcluster_controller.go:301-342 | The same for a pod with the wanted hash |
| Reconciler.ArkClusterReconciler.RollUpdate | internal/controller/arkcluster_controller.go:345-429 | The same for a drifted pod: install, drain, wait or swap |
| Reconciler.ArkClusterReconciler.StartDrain | internal/controller/arkcluster_controller.go:367-388 | The deadline is stored before players are told; an error other than a conflict ends the pass |
| Reconciler.ArkClusterReconciler.CommitSwap | internal/controller/arkcluster_controller.go:402-409 | The swap is stored before any pod is touched |
| Reconciler.ArkClusterReconciler.ReplacePod | internal/controller/arkcluster_controller.go:411-419 | Deletes the old pod, rehashes for the new volume and creates the new pod |
| Reconciler.ArkClusterReconciler.Rollback | internal/controller/arkcluster_controller.go:432-452 | Stores the last good volume as active, then deletes the bad pod |
| Reconciler.ArkClusterReconciler.PersistStatus | internal/controller/arkcluster_controller.go:476-481 | Acts on world and copy as the conditional write of the step system: conflicts are no error |
| Reconciler.ArkClusterReconciler.EnsurePodForMap | internal/controller/arkcluster_controller.go:500-515 | Creates the pod on the given volume unless its name is taken; a taken name is no error |
| Reconciler.ArkClusterReconciler.GcOrphanedPods | internal/controller/arkcluster_controller.go:211-219 | Deletes exactly the listed pods whose slug no map in spec has, one call each, ignoring errors |
| Reconciler.ArkClusterReconciler.EnsureInitJob | internal/reconcile/job.go:43-129 | Creates the Job if it is missing; a Job that exists or appears in between is no error |
| Reconciler.ArkClusterReconciler.InitJobStatus | internal/reconcile/job.go:132-150 | Missing, running, succeeded or failed, a read error counting as failed |
| Reconciler.ArkClusterReconciler.Await | internal/controller/arkcluster_controller.go:53-149 | Whatever the environment does before a call is answered, the machine follows; a death loses the pass and nothing else |
| DrainSafety.DeadlineSurvives | internal/controller/arkcluster_controller.go:367-409 | In every run that keeps the map in spec, a stored deadline d is still stored at the end, or one stored write cleared it, flipped the volume and came no earlier than d |
| DrainSafety.StepDrains | internal/controller/arkcluster_controller.go:367-409 | Each single step leaves a stored deadline as it is or is that write |
| RollbackSafety.NoPingPong | internal/controller/arkcluster_controller.go:306-331 | In every run each stored rollback of a map has a stored swap since the rollback before it, and at no point are there more rollbacks than swaps |
| RollbackSafety.AlternationCounts | internal/controller/arkcluster_controller.go:432-442 | Alternation of swaps and rollbacks bounds the counts |
| GraceSafety.GraceIsHonoured | internal/controller/arkcluster_controller.go:367-415 | From any moment at which a map has no drain on record, and while every spec lists it at most once: each deletion of its pod by a roll at time t follows a drain start stored since then by an earlier pass, whose grace, the one in the spec it was stored with or zero if that is negative, ended by t, and no swap in between; each announcement directly follows the write of a drain start |
| Duplicates.HonouredIffListedOnce | internal/controller/arkcluster_controller.go:109-115 | For every spec and map: no run of a fresh cluster with that spec cuts a grace period of the map short if and only if the spec lists it at most once |
| GraceSafety.AnnouncedOncePerDrain | internal/controller/arkcluster_controller.go:379-387 | Announcements never outnumber drain-start writes, stored and refused: without conflicts, at most one per stored drain start |
| Duplicates.TwiceListedSkipsAPass | internal/controller/arkcluster_controller.go:109-115 | For every spec that lists a map twice, whatever its grace period and policy: a run in which every call succeeds and spec stays ends with the map's pod deleted for a roll in the only pass there was |
| StaleDrains.FreshIffNoDeadline | internal/controller/arkcluster_controller.go:301-342 | From the moment the pass finds the map's pod with its wanted hash, each later deletion of it by a roll follows a drain start stored since, in every run, if and only if no deadline was on record at that moment; given that the pod is still up and some edit wants another |
| StaleDrains.StaleRoll | internal/controller/arkcluster_controller.go:367-415 | Wherever a deadline is on record, however old, some run without failures has the map's live pod deleted for a roll with no drain started |
| StaleDrains.EditTakenBack | internal/controller/arkcluster_controller.go:367-399 | Edit, start a drain, take the edit back, edit again: a run without mishap in which the pod is found as wanted with the old deadline on record, and the second edit swaps with no drain started |
| RolloutSafety.OneAtATimeHolds | internal/controller/arkcluster_controller.go:93-115 | In every run, stored writes of a gated pass that began with a map mid-update add no map to those mid-update, and such a pass rolls only the first of them |
| RolloutSafety.FirstInFlightIsInFlight | internal/controller/arkcluster_controller.go:101-107 | The gating map is mid-update in the stored status |
| Exclusivity.MapExclusivity | internal/controller/arkcluster_controller.go:153-204 | In every run in which each volume change of this map is stored and followed by its pod's deletion, whatever befalls other maps: at most one live pod of the map at every moment, outside the window it mounts the stored active volume, recorded volumes are the two servers or empty, no Job of it is pointed at a volume its pod mounts and no pod of it created off the record |
| Exclusivity.VolumeExclusivity | internal/controller/arkcluster_controller.go:153-204 | The same of all maps at once under distinct slugs, for every install and creation in the log |
| Exclusivity.StepKeepsExclusive | internal/controller/arkcluster_controller.go:273-452 | The invariant behind it is kept by every step, for each map by itself |
| Exclusivity.FoundPodIsOnly | internal/controller/arkcluster_controller.go:543-557 | The pod found for a map is the only live one, and none found means none is there |
| Windows.OneCrashInTheWindow | internal/controller/arkcluster_controller.go:402-414 | A run from a tidy start with all calls succeeding and one crash, right after a stored swap and so in the window, ends with an install on the volume a live pod mounts |
| Windows.OneCrashAfterRollback | internal/controller/arkcluster_controller.go:432-452 | The same with the crash right after a stored rollback |
| Windows.OneDeletionUnnoticed | internal/controller/arkcluster_controller.go:411-419 | A run whose only failure is the ignored one of the deletion after a stored swap ends with two live pods of the map |
| Windows.OneSwapRefused | internal/controller/arkcluster_controller.go:402-419 | A run whose only mishap is a resource version raised just before the swap is written ends with a pod created on a volume that is not on record |
| Windows.OneOrphanLeft | internal/controller/arkcluster_controller.go:208-219 | A map removed, its pod left when the listing fails, and added again: a Job is pointed at the volume the left-over pod mounts |
| Recovery.SwapIsRecovered | internal/controller/arkcluster_controller.go:402-419 | From any moment between passes, through crashes, failures, conflicts and whatever befalls other maps: while the map stays in spec and no further volume change of it is stored, the recorded volume stands, and every pod created for the map goes to it unless the same pass was refused a volume change of the map before; and always in a pass that saw the Job of the pod's side succeed |
| Recovery.NoPodWithoutItsJob | internal/controller/arkcluster_controller.go:273-297 | From any moment between passes a pod is only created in a pass that saw the Job of the pod's side and of the image in spec succeed |
| JobSafety.NoJobUnderTheServer | internal/reconcile/job.go:22-41 | In every run in which the image stays, Jobs come from the operator alone and never start over, and the map's volume changes are stored and followed by its pod's deletion: at no moment does an unfinished Job of the map target a volume that a live pod of it mounts |
| JobSafety.OneImageEdit | internal/reconcile/job.go:22-41 | A run in which every call succeeds and the image is edited once, while the Job for the old image runs, ends with that Job on the volume the live pod mounts |
| HealthyMaps.HealthyIsLeftAlone | internal/controller/arkcluster_controller.go:575-610 | A map with a slug of its own and no other volume to roll back to, whose live pods have the wanted hash, starts no drain, tells no player and loses no pod to a roll in any run in which spec and revisions hold still and this map's revisions are read without error, whatever else fails |
| HealthyMaps.OneReadFails | internal/controller/arkcluster_controller.go:575-643 | A run whose only failure is one read of the revisions starts the drain of a healthy map |
| StatusAgreement.StatusAgreesWithSpec | internal/controller/arkcluster_controller.go:110-143 | In every run over map IDs with distinct slugs, each stored end-of-pass status has exactly one entry per map in spec, ready at most total, and reads Running exactly when all maps, at least one, are ready; if and only if the spec stored with it lists no map twice |
| StatusAgreement.PrunedMatches | internal/controller/arkcluster_controller.go:126-133 | The pruned status matches spec if and only if spec lists no map twice and no entry of a map outside spec has a kept slug |
| StatusAgreement.AggregateRuns | internal/reconcile/status.go:53-88 | The roll-up is Running if and only if there are maps and all are Running |
| StatusAgreement.ReadyCount | internal/controller/arkcluster_controller.go:646-654 | Never more ready than there are, and as many exactly when all are Running |
| CalmPass.MapTurn | internal/controller/arkcluster_controller.go:153-204 | In an undisturbed pass, the calls of a map amount to the single step of its view and touch no other map |
| WholePass.PassTurns | internal/controller/arkcluster_controller.go:109-143 | An undisturbed pass ends, having taken one turn of every map, with orphans and stale entries gone |
| Turns.RankDrops | internal/controller/arkcluster_controller.go:273-429 | After a turn and a helping environment the rank of a map is no larger, and strictly smaller unless it was zero or the map was held back |
| Turns.ReadyIsStable | internal/controller/arkcluster_controller.go:329-335 | The status written for a ready pod is written the same by every later turn |
| Turns.AtRest | internal/controller/arkcluster_controller.go:329-335 | A map of rank zero is Running on a ready pod with the wanted hash, and its turn changes nothing |
| Convergence.RoundProgress | internal/controller/arkcluster_controller.go:93-149 | Under every rollout policy, a pass and a helping environment bring the cluster strictly closer as long as anything is left to do, and keep it there after |
| Convergence.Converges | internal/controller/arkcluster_controller.go:93-149 | Within as many rounds as the first distance nothing is left to do |
| Convergence.AtRestAtLast | internal/controller/arkcluster_controller.go:93-149 | Then every map runs on exactly one pod, ready and with the wanted hash, and a further pass changes no map status, pod or Job and writes the summary that counts all maps ready, Running if there are any |
| Convergence.SummaryStays | internal/controller/arkcluster_controller.go:134-143 | From the first round at rest on, the stored summary stays as it is |
| Convergence.SomeoneMoves | internal/controller/arkcluster_controller.go:196-203 | If anything is left to do, a map that is not held back has it to do: the hold-back cannot stall the cluster |
| Convergence.IdlePassStartsEveryDrift | internal/controller/arkcluster_controller.go:93-107 | A pass that finds no map mid-update leaves every drifted one mid-update, be the Job of its next volume missing, running or done |
| Convergence.OnePassIsARun | internal/controller/arkcluster_controller.go:53-149 | An undisturbed pass is a run of the step system in which every call succeeds |
| Convergence.RoundsExist | internal/controller/arkcluster_controller.go:53-149 | Rounds exist: from a cluster on course with unique pod names, a pass and a helping environment lead to another such cluster |
| Convergence.RestIsReached | internal/controller/arkcluster_controller.go:53-149 | Some rounds, no more than the distance there is to go, lead to a cluster with nothing left to do |
| Loops.StatusList.EnsureMapStatus | internal/reconcile/status.go:40-48 | The first entry of the map; if there is none, an entry with the ID and nothing else set is appended, and otherwise nothing changes |
| Loops.StatusList.SetMapCondition | internal/reconcile/status.go:12-36 | Sets the condition of a listed map, keeping the time of the last change when the status stays; no entry, no change |
| Loops.AggregatePhases | internal/reconcile/status.go:53-88 | Degraded if and only if some map is MapFailed; else Updating if and only if some map is InstallingActive, InstallingInactive, DrainingActive or Swapping; else Initializing if and only if some map is Pending or Provisioning; Running if and only if there are maps and all are Running |
| Loops.CountReadyMaps | internal/controller/arkcluster_controller.go:646-654 | The number of entries in phase Running |
| Loops.PruneInPlace | internal/controller/arkcluster_controller.go:126-133 | The kept entries, in order, at the front of the same array |
| Loops.FindInFlight | internal/controller/arkcluster_controller.go:101-107 | The ID of the first map listed that is DrainingActive, Swapping or InstallingInactive, or the empty text if none is |
| Loops.FindPod | internal/controller/arkcluster_controller.go:543-557 | Of the map's pods that are not going away, the first with the wanted hash if one has it, else the first; none if and only if there is none |
| Loops.ActivePodIsChoice | internal/controller/arkcluster_controller.go:543-557 | The step system's search takes the same pod |
| Loops.DecideJob | internal/reconcile/job.go:141-149 | The first decisive condition wins |
| Loops.JobVerdictMeans | internal/reconcile/job.go:141-149 | Succeeded if and only if complete comes true before failed does; running if and only if neither is true |
| Operator.Action | internal/controller/arkcluster_controller.go:53-452 | Each call is followed by one the code can make next, adds at most one event, of its own kind, and loses none |
| Operator.Run | internal/controller/arkcluster_controller.go:53-149 | Every run keeps the pass well-formed and its log a growing one |
| Choices.PassEndsIff | internal/controller/arkcluster_controller.go:53-149 | Which answer to which call ends the pass: an error of what a map needs, of a Job's or pod's creation, or of a status write that is no conflict; never one of deletions, orphan collection, revisions, addresses or messages |
| Choices.BeginsWith | internal/controller/arkcluster_controller.go:56-109 | A pass starts on a copy of the stored cluster; under Parallel no map holds the others back, else the first map mid-update does |
| Choices.ChoosesVolume | internal/controller/arkcluster_controller.go:170-173 | A map without a volume on record runs on server-a, any other on the one recorded |
| Choices.HashesForVolume | internal/controller/arkcluster_controller.go:175-175 | The wanted hash is the one for the volume in memory, before the pods are listed and again after a swap |
| Choices.WantedPodIsNotRolled | internal/controller/arkcluster_controller.go:177-194 | A map whose listed pods have a live one with the wanted hash among them is neither installed nor rolled by that pass, whatever happens meanwhile |
| Choices.Dispatches | internal/controller/arkcluster_controller.go:183-203 | The first Job is asked for if and only if no pod was found; a rollback is written if and only if the found pod has the wanted hash, crash-loops and another volume is known good; the roll's Job is asked for if and only if the pod has another hash and no other map holds this one back |
| Choices.DispatchShows | internal/controller/arkcluster_controller.go:301-342 | What the map's entry says after the choice: the address on hand, Running and the volume as last good for a ready, steady pod, and the PodReady condition |
| Choices.FirstJobDecides | internal/controller/arkcluster_controller.go:273-297 | The Job asked for is that of the map's own side and the spec's image or the usual one, the verdict is the true one, and what follows is decided by it: install if missing, create the pod if done |
| Choices.RollJobDecides | internal/controller/arkcluster_controller.go:345-400 | The same for the other side of a drifted pod: install if missing; once done, start a drain if none is on record, and when it is over save the game and swap, or swap at once if no address is known |
| Choices.JobFailureIsTold | internal/controller/arkcluster_controller.go:285-290 | A failed Job sets the InstallSucceeded condition to false with its reason, and nothing else but the phase |
| Choices.InstallsTheJob | internal/reconcile/job.go:43-129 | The Job for that side and image is there afterwards, a new one if it was not, unless the server refused; no other Job changes |
| Choices.CreatesThePod | internal/controller/arkcluster_controller.go:500-515 | The pod runs on the map's volume under the hash at hand; none is created when the name is taken |
| Choices.MidWritesStore | internal/controller/arkcluster_controller.go:369-442 | What a drain start, a swap and a rollback write into the map's entry |
| Choices.CollectsOrphans | internal/controller/arkcluster_controller.go:211-219 | The pods to be deleted are the labelled ones whose slug no map in spec has |
| Choices.FinalWriteStores | internal/controller/arkcluster_controller.go:126-143 | The stored final status keeps exactly the entries whose slug some map in spec has, counts the maps in spec and those that read Running, and rolls the phases up |
| Phases.PhaseChanges | internal/controller/arkcluster_controller.go:273-429 | After a call the map's phase is Running, MapFailed, InstallingActive, InstallingInactive, DrainingActive, Swapping or Provisioning by what that call found or did, or the one before |
| Phases.RunningMeansReady | internal/controller/arkcluster_controller.go:301-335 | In every run, a step that turns an entry in memory to Running had found a pod of that map that is not going away, has the wanted hash, is ready and does not crash |
| Phases.FinalStatusTells | internal/controller/arkcluster_controller.go:109-143 | In every run: when a pass saw the Job of a map listed once and stored its final status, that status has the map MapFailed if and only if the Job failed, and the cluster Degraded then; installing while the Job is missing or running; Provisioning once a first install is done; and with the update installed DrainingActive, or Swapping once the swap was written |
| Causes.EventsComeInOrder | internal/controller/arkcluster_controller.go:273-452 | In every run, whatever fails: Jobs are asked for when seen missing, pods created when their Job was seen done or the pod they replace asked to go, drains started when the other side was seen installed, games saved right before the swap if and only if the address is known, pods deleted right after their swap or rollback was written; and each of these commitments is carried out next unless the pass ends, players being told right after a stored drain start with a grace period |
| Transitions.ActionIsQuiet | internal/controller/arkcluster_controller.go:153-452 | Every call but the four status writes leaves the stored cluster alone and edits one map's entry in memory, moving no deadline and no volume |
| Coherence.StepKeepsSound | internal/controller/arkcluster_controller.go:476-481 | A current copy is a soft edit of the stored status, a stale one never becomes current, and a swap is only reached with a deadline that has passed |
| Statuses.Put | internal/reconcile/status.go:12-48 | Replaces the entry of one map, or appends it, and no other entry reads differently |
| Drift.ModKeyIsCanonical | internal/ark/modset.go:14-23 | Two mod lists share a key if and only if they are equal as multisets |
| Drift.ComputeModKey | internal/ark/modset.go:14-23 | The copy, sort and fill loop computes the key |
| Drift.HashDetectsSingleEdits | internal/ark/hash.go:32-38 | With an injective digest, inputs that agree but for one field hash alike if and only if they agree in it too |
| PodHashes.HashTells | internal/controller/arkcluster_controller.go:575-614 | With an injective digest, two computations that agree in all inputs but one give the same hash if and only if they agree in that one: image, the mods the map runs with as a multiset, game port, RCON port, secrets, INI files, the mod controller's mark, launch settings, volume; a revision that cannot be read counts as empty |
| PodHashes.HashIsDigestOf | internal/controller/arkcluster_controller.go:575-614 | The very text that is digested |
| PodHashes.EditsAreRolledOut | internal/controller/arkcluster_controller.go:175-203 | When one input has changed under a healthy map, the pod found for it has drifted if and only if that input differs, and the pass then goes on to roll it unless another map holds it back |
| Drift.SidesHashApart | internal/ark/hash.go:17-38 | The server-a and server-b hashes of a map always differ |
| Slugs.OfficialSlugs | internal/ark/slug.go:18-34 | The seven official maps have the slugs of the table, all different |
| Slugs.CommunitySlug | internal/ark/slug.go:35-43 | Any other ID that is a name, or two names around a run of foreign characters, before the suffix: lower case, a dash for each underscore and one for the run |
| Slugs.MapSlugIsDnsLabel | internal/ark/slug.go:18-43 | Whatever the ID, the slug has only DNS-1123 characters and no dash at either end |
| Slugs.SlugsCollide | internal/ark/slug.go:18-43 | Two different IDs with the same slug |
| OrphanCollection.Namespace.Collect | internal/controller/arkcluster_controller.go:208-270 | Exactly the doomed objects go whose kind was listed and whose deletion did not fail; volume claims only without PersistOnDelete |
| OrphanCollection.Namespace.BelongsTo | internal/controller/arkcluster_controller.go:241-247 | In whatever order the kept slugs are tried: true if and only if one of them owns the name |
| OrphanCollection.Namespace.CollectForSpec | internal/controller/arkcluster_controller.go:117-125 | Collects with exactly the slugs of the maps in spec kept |
| OrphanCollection.GoesMeans | internal/controller/arkcluster_controller.go:211-268 | Labelled objects go exactly when their label is set and not kept, claims exactly when they are not the shared one and no kept slug is in their name after the cluster's, ConfigMaps exactly when besides they end in -gus or -game |
| OrphanCollection.CollectionIsSound | internal/controller/arkcluster_controller.go:208-270 | Nothing of a map in spec is doomed, nor the shared volume claim |
| OrphanCollection.CollectionSparesSpec | internal/controller/arkcluster_controller.go:208-270 | Whatever is listed and fails: collecting for a spec leaves every object of each of its maps, and the shared claim |
| OrphanCollection.CollectionForgets | internal/controller/arkcluster_controller.go:208-270 | When all listings and deletions succeed and claims need not persist, nothing of a map outside spec is left, given that its slug is not kept and no kept slug is in its way |
| OrphanCollection.ConfigMapsGoIff | internal/controller/arkcluster_controller.go:253-268 | Both ConfigMaps of a removed map go if and only if no kept slug is a dash-bounded beginning of its slug |
| OrphanCollection.PvcStaysIffShadowed | internal/controller/arkcluster_controller.go:232-252 | A volume claim stays exactly when some kept slug and a dash begin its name after the cluster's |
| OrphanCollection.CleanupIsFullIff | internal/reconcile/pvc.go:20-34 | All claims of a removed map go if and only if no kept slug is a dash-bounded beginning of its slug, nor that slug followed by "-server" |
| OrphanCollection.LabelledGo | internal/controller/arkcluster_controller.go:211-228 | A listed pod or service of a removed map goes if and only if no map in spec has its slug |
| Rcon.WritePacket | internal/rcon/client.go:102-119 | Appends, byte by byte, the length of the body plus ten, the ID and the kind, each in four bytes with the least first, then the body and two zeros; or nothing on a broken stream |
| Rcon.ReadPacket | internal/rcon/client.go:121-144 | Returns what parsing the bytes at hand gives and consumes as much, error cases included |
| Rcon.FrameRoundTrip | internal/rcon/client.go:102-144 | A packet is read back if and only if its body has at most 4086 bytes |
| Rcon.FramesRoundTrip | internal/rcon/client.go:102-144 | Any list of such packets comes back as it was and all bytes are consumed |
| Rcon.ReencodeReproduces | internal/rcon/client.go:121-144 | Re-encoding a packet that was read gives the bytes it was read from, but for terminators that were not zero |
| Rcon.DecodeEncode | internal/rcon/client.go:102-130 | Every int32 survives the wire |
| Rcon.FrameIsPacket | internal/rcon/client.go:102-119 | The frame of a packet has these bytes at these positions |
| Rcon.Client.NextRequestID | internal/rcon/client.go:96-98 | One more than the last, and the least int32 after the largest |
| Rcon.Client.Authenticate | internal/rcon/client.go:53-70 | Sends a packet of kind 3 with ID 1 and the password; refused exactly when the answer carries the ID minus one |
| Rcon.Client.Exec | internal/rcon/client.go:78-94 | Sends a packet of kind 2 with the next ID and the command, and returns the body of the next packet, whatever its ID |
| GusIni.EnsureDefaults | internal/reconcile/configmap.go:75-122 | The scanning and appending code computes the merge |
| GusIni.ScanSection | internal/reconcile/configmap.go:93-107 | Where the section ends and which keys it sets |
| GusIni.MergeIsFixpoint | internal/reconcile/configmap.go:75-122 | For all texts and ports, merging a merged text again, with whatever port, changes nothing |
| GusIni.MergeEstablishes | internal/reconcile/configmap.go:75-122 | The first [ServerSettings] section of the output has both RCON keys |
| GusIni.MergeConserves | internal/reconcile/configmap.go:75-122 | The input's lines all come out in order, with only a header or the missing keys put in at one place |
| GusIni.FindMapIndex | internal/reconcile/configmap.go:53-60 | The first map with the ID, zero if there is none |
| GusIni.FindMap | internal/reconcile/configmap.go:124-131 | The first map with the ID, if there is one |
| GusIni.LinesMean | internal/reconcile/configmap.go:82-104 | Inside any white space: a header is exactly [ServerSettings], a section line a name in brackets, and a line sets a key when the key begins it |
| GusIni.CarriageReturnIsDropped | internal/reconcile/configmap.go:82-104 | With CRLF line ends, every line is read as without |
| Text.DecimalIsNumeral | internal/reconcile/configmap.go:77-115 | A number is written as the base-10 digits that stand for it, without leading zeros, after a minus sign if it is negative |
| Text.SplitJoin | internal/reconcile/configmap.go:79-121 | Splitting a join gives newline-free lines back |
| Text.JoinSplit | internal/reconcile/configmap.go:79-121 | Joining a split gives the text back |
| ModStatus.CollectModIDs | internal/controller/modupdate_controller.go:134-150 | Exactly the global and per-map mods, strictly ascending |
| ModStatus.MergeModStatus | internal/controller/modupdate_controller.go:152-188 | In any iteration order: one updated record per fetched mod, strictly ascending; changed if and only if a mod tracked before has another latest file |
| ModStatus.InstalledIsKept | internal/controller/modupdate_controller.go:159-185 | A mod tracked before keeps its installed file and version unless nothing was installed; then, as at first sight, the latest counts as installed; its last change is now exactly when its latest file is another than before |
| ModStatus.MergeIsOrderIndependent | internal/controller/modupdate_controller.go:152-188 | The result does not depend on the order in which the fetched mods are walked |
| ModStatus.AffectedMaps | internal/controller/modupdate_controller.go:193-223 | Computes the sorted IDs of the affected maps |
| ModStatus.AffectedIsExact | internal/reconcile/pod.go:47-50 | With distinct map IDs: strictly ascending, and exactly the maps that list the mod, or list none while the global list has it |
| ModStatus.EffectiveModsAreCollected | internal/controller/modupdate_controller.go:134-150 | Every mod a map runs with is tracked |
| ModStatus.HashedText | internal/controller/modupdate_controller.go:225-232 | The loop computes the text that is digested |
| ModStatus.TrackedTextTells | internal/controller/modupdate_controller.go:225-232 | The annotation's text is equal exactly for lists with the same mods and latest files in the same order |
| ModStatus.TextOfOne | internal/controller/modupdate_controller.go:225-232 | What the text looks like for one mod |
| Ports.ConflictIsExactIff | internal/ark/ports.go:7-26 | For every int32 number of maps, the check tells whether two maps share a port if and only if no range passes the largest int32 |
| Ports.AcceptedPortsAreDistinct | internal/ark/ports.go:7-26 | An accepted cluster has two ports per map, all different |

## Left out

- Kubernetes and controller-runtime: caches, watches, requeue intervals, owner references and create-or-update. Reads are fresh; the volume claims, ConfigMaps and service of a map are made in one call that succeeds or fails.
- Deletion of the cluster, finalizers, the admin password Secret and the load balancer.
- The statuses' display fields (pod name, session name, player address, messages of conditions, events) and the pending build ID.
- Mods in the status: marking tracked mods as installed after a swap. The mod controller acts in the step system as an environment that raises the resource version.
- shouldRollback's restart count, exit code and five-minute window: a pod is crash-looping or not, as the environment has it.
- Sub-second rounding of stored times and clocks that run backwards.
- Pod names keep only eight of the hash's sixteen digits; the model names pods by the whole hash.
- Ports in the pod hash are start plus index, without the int32 wrap-around that accepted starts only reach past two billion maps.
- SHA-256: a parameter; the Job's image digest and the drift theorems take it as injective. The "|"-joined preimage is not claimed to be jointly injective: revisions contain the separator.
- InitJobName is modelled by its parts (slug, side, image), not as text.
- GC of services, volume claims and ConfigMaps is modelled in OrphanCollection, apart from the step system, which has the pods.
- resolveINI: which user text the merge starts from, and the writing of the ConfigMaps.
- Sockets, deadlines and the text of RCON commands; a connection delivers bytes in order.
- The CurseForge client, its intervals and the mod controller's own writes.
- internal/statemachine: the controller assigns phases without it.
- BuildServerPod beyond volume, hash and effective mods; modsCSV, launch flags and probes.
- Reconciler: memory sharing between the cluster object and pointers into it is not modelled; the methods replace the value they edit.
