# Verified model of the DingoFS CSI driver

The driver mounts DingoFS volumes for application pods through shared *mount pods*. Each mount pod is
reference counted: its references are annotations in the API server, one per kubelet target path. Publishes,
unpublishes, the reconciler's `checkAnnotations` passes and the handler of terminating pods change them
concurrently, by reads that may be stale when the patch goes out, under a lock chosen by the pod's hash label.
This project models that protocol as a small-step transition system and proves what holds in every
interleaving, together with the code around it: the record of references in one pod, the hand-over of FUSE
descriptors, the bind-mount table and its recovery, the node service's target locks, dynamic provisioning, and
the printers, parsers and builders that the rest depends on.

`dafny verify dfyconfig.toml` checks everything; no file depends on anything outside this directory.

## Modules

| file | what it models |
|---|---|
| `Annotations.dfy`, `Protocol.dfy` | stored pods, locks, app pods, clock; every operation as a thread whose program counter sits between two API calls |
| `Locking.dfy` | the inductive invariant: who holds which mutex, what each thread knows, who may write what |
| `Deletion.dfy`, `Survival.dfy`, `AppReferences.dfy`, `DeleteDelay.dfy`, `Uniqueness.dfy` | the promises of the protocol, each with the exact condition under which it holds |
| `Stranding.dfy` | no reference of a vanished pod is left behind |
| `Undisturbed.dfy`, `Alone.dfy`, `DelayScenarios.dfy`, `AgedPass.dfy` | operations that run alone do their job, and exactly when they delete, stamp or recreate; reachable runs for every way in which a promise can fail |
| `PodRecord.dfy` | the annotation map of one pod refines a set of targets |
| `FdHandover.dfy` | the two-phase descriptor hand-over |
| `MountTable.dfy`, `NodeService.dfy` | mount stacks, BindTarget, recovery, resolveTargetItem; publish and unpublish under the target lock |
| `Provisioner.dfy` | Provision and Delete over persistent volumes, directories and secret finalizers |
| `ConfigOverride.dfy`, `PodVolumes.dfy`, `MountCommand.dfy`, `TargetPath.dfy`, `Escape.dfy` (on `Strings.dfy`, `Wrappers.dfy`) | rewriting a configuration, volumes of a mount pod, mount command, target paths, shell quoting |

## Assumptions

- `GetReferenceKey` is injective and its keys differ from the fixed annotation keys; a reference key is therefore a datatype value.
- UIDs of app pods and generated pod names are not reused. API calls are atomic and lists are current; what a thread read
  earlier may be arbitrarily old. An API error or a timeout ends an operation at any point (`GiveUp`).
- JSON patches follow RFC 6902: "remove" fails on a missing key (section 4.2), "replace" swaps the whole map (section 4.3),
  one failing operation fails the patch (section 5). A "replace" of a finalizer list that is absent may succeed or fail: the
  models take it to succeed, and a failure is an API error like any other (`GiveUp`, `Fault`, `patchOk`).
- One `umount` pops one entry of a mount stack; a bind mount pushes one with the device minor of its source.
- The local zone does not change during a run; `zone` is its offset from UTC in seconds, so a UTC clock is `zone == 0`.
- Descriptor 0 is taken, and the kernel gives out numbers that are free.
- Provision and the saving of its volume are one step; volume names are not reused.
- Text is a sequence of characters; invalid UTF-8 does not occur.

## Where a promise needs a condition

The condition and what fails without it are proved for each of these, for all inputs; where a state has to be reached
first, a run from the initial state reaches it.

- *References survive replacement* unless a pod is deleted from outside between the read and the patch of somebody who adds
  a reference to it (`Survival.Calm`). `OnlyWindowsGrow` shows that nothing else makes references of a terminating pod grow,
  `WindowLoses` that every such window can lose its reference, and `WindowOccurs` that one is reachable. `podReadyHandler`
  locks on the pod name, so its deletion counts as one from outside. A handler begins at any time in the model; in the driver
  it follows a `checkAnnotations` pass of the same round, which takes the hash lock, so for a handler to read the pod inside
  the window its round must have begun before, for a pod then in the error state (pkg/controller/pod_driver.go:104-121).
- *References of living app pods stay* if the publish names its app pod, because only then is the app pod labelled
  (`AppReferences.NamesApp`); `UnlabelledIsDropped` is the converse and `UnlabelledOccurs` reaches it.
- *The delete delay* needs passes that see current annotations and merges into unstamped pods (`DeleteDelay.Orderly`). It
  fails in three ways: a stale pass stamps a pod in use (`StalePassStamps`, `StaleStampOccurs`), a merge puts references on a
  stamped pod (`MergeKeepsStamp`, `MergedStampOccurs`), both of which go on to a deletion at the instant the last reference
  goes (`StampBreaksDelay`, `DelayBreaks`); and a stale pass goes by the old stamp in its snapshot, although the stored one
  lies ahead (`StalePassDeletesIff`, `OldSnapshotDeletes`, `OldSnapshotBreaksDelay`). The local time is formatted without its
  zone and parsed as UTC, so the bound shifts by the zone.
- *No reference is stranded* while no handler ends between its finalizer step and its create or merge, and each takes the
  finalizer off the incarnation it saw (`Stranding.Finishing`). The second holds with one handler per pod in flight
  (`OneHandlerOwns`), as the driver runs them. The first fails by an API error, a resource error of the pod or a mount path
  that cannot be parsed (`GiveUpCoversIff`, `GiveUpStrands`, `StrandingOccurs`): nobody handles a pod without finalizer again.
  The mount controller, in another process, reads a pod, lists the driver pods and patches by name; it is a handler that ends
  after its finalizer step, and a late one strips a replacement (`StripCoversIff`, `StripStrands`, `LateStripOccurs`).
- *One serving pod per setting* is broken exactly by recreating a pod next to a serving one (`RecreationClashes`, `ClashOccurs`).
- *Descriptors* leak exactly when an accepted reply carries more than one (`SurplusLeaks`): `getFd` leaves room for two
  (`LeakOccurs`).
- *Target locks* do not cover the reconciler's recovery, which mounts without them (`NodeService.Apart`, `ForeignMountShows`,
  `ForeignMountOccurs`).
- *Directories* need requests that do not fall between a deletion's scan and its effect (`LateRequestLosesDirectory`,
  `LateRequestOccurs`),
  one storage class per secret (`SharedSecretLosesAll`), pattern results that are no volume names (`NameClashOccurs`), and volumes that record
  the directory made for them: under one secret, with no class parameter `subPath` that differs from it (`BornBackedIff`).
  With such a parameter `DirectoryLostIff`, `RemovedOnlyUnshared`, `SkippedScanShares` and `OverriddenRemovalOccurs` say what
  is lost.
- *Finalizers* need the same of secrets (`UnfinalizeTakesFrom`), a successful patch, and the class parameter
  `secretFinalizer` written as `true` rather than resolved to it (`BornBackedIff`).
- *Recovery* ends if and only if the target is the base target, is still mounted, or the base target has few mounts
  (`LoopEndsIff`, `NeverReturns`).
- *Config override* is lost for a key that the file assigns twice, because only its first line is rewritten (`OverrideIff`, `RepeatedFlagOccurs`).
- *Sub path mounts* are matched by a prefix without a final slash, so volumes of one pod whose names extend another's are
  taken too (`PrefixTakes`).

## Model

| member | source | states |
|---|---|---|
| `Locking.Reachable` | pkg/util/util.go:191-197 | in every run each held mutex belongs to the thread that is inside its critical section, and what threads have read under it still holds |
| `Locking.OnlyOwnerWrites` | pkg/builder/mount.go:65-98 | in every state of the invariant and for every step, a pod is created or its annotations change only by the thread holding the mutex of its hash |
| `Deletion.DeletionIsSafe` | pkg/controller/pod_driver.go:144-226 | in every interleaving, with passes of any staleness, every step that makes a pod terminate without an external deletion finds it without a stored reference; and no update is lost: every patch, although computed from an earlier read, acts on the annotations stored when it lands |
| `Survival.ReferencesSurvive` | pkg/controller/pod_driver.go:306-446 | in every calm run no step adds a reference to a terminating pod, and whenever the handler creates or merges, the pod then holds every reference the old one had when it vanished and those it had gathered |
| `Survival.MergeKeepsReferences` | pkg/controller/pod_driver.go:430-441 | the merge leaves exactly the union: the references the replacement had gathered and those of the snapshot, which include all the old pod still had |
| `Survival.OnlyWindowsGrow` | pkg/builder/mount.go:255-278 | in every run at all, references of a terminating pod grow in a step if and only if a patch prepared before the deletion lands on it with a new one |
| `Survival.WindowLoses` | pkg/controller/pod_driver.go:306-446 | from every reachable state inside such a window, in any run at all, a run exists that loses the reference although the publish returned |
| `Stranding.NothingStranded` | pkg/controller/pod_driver.go:306-441 | in every calm run in which no handler ends between its finalizer step and its create or merge, and each takes the finalizer off the incarnation it saw (any other operation may end at any point): a pod that vanishes with references leaves a handler that saw them all, and every such handler goes on until they are on a living pod |
| `Stranding.OneHandlerOwns` | pkg/controller/reconciler.go:84-170 | with at most one handler of a pod in flight, every handler of every run takes the finalizer off the incarnation it saw |
| `Stranding.NothingStrandedByOne` | pkg/controller/pod_driver.go:306-441 | so in every calm run with one handler per pod, each of which finishes, no reference is stranded |
| `Stranding.GiveUpCoversIff` | pkg/controller/pod_driver.go:320-339 | in any state: ending an operation leaves a pod covered if and only if the pod has its finalizer, another handler carries it, or it is terminating without references |
| `Stranding.GiveUpStrands` | pkg/controller/pod_driver.go:322-339 | from every state: a handler that ends right after its finalizer step strands the references of its pod |
| `Stranding.StripCoversIff` | pkg/util/resource/pod.go:104-127 | a finalizer step leaves its pod covered if and only if the pod is the incarnation the handler saw, is carried by another handler, or is terminating without references |
| `Stranding.StripStrands` | pkg/controller/mount_controller.go:54-98 | from every state: whoever reads one incarnation, takes the finalizer off another by name and returns, strands its references at the next deletion |
| `Stranding.StrandingOccurs` | pkg/controller/pod_driver.go:320-339 | a concrete run with one handler that ends after its finalizer step strands the reference of an app pod that exists |
| `Stranding.LateStripOccurs` | pkg/controller/mount_controller.go:54-98 | a concrete run in which the mount controller reads the pod, the handler replaces it, and the late patch strips the replacement, with the same loss |
| `Undisturbed.WindowOccurs` | pkg/builder/mount.go:260-278 | a concrete run reaches such a window and loses the reference |
| `AppReferences.LivingKeepReferences` | pkg/controller/pod_driver.go:155-190 | in every run whose publishes name their app pods, a stored reference goes only by the unpublish of its target, or in a pass after its app pod was deleted, whatever ran between snapshot and lock |
| `AppReferences.UnlabelledIsDropped` | pkg/util/resource/pod.go:453-465 | converse: from every reachable state, a pass that runs alone drops the reference of an existing app pod that has no label |
| `Undisturbed.UnlabelledOccurs` | pkg/builder/mount.go:82-91 | a concrete run: a publish that does not name its app pod, then one pass, and the reference of the existing app pod is gone |
| `DeleteDelay.DelaysAreWaited` | pkg/controller/pod_driver.go:191-215 | in every orderly run a stamped pod has no references, and a step deletes a pod for lack of use only when its delay has passed since its last reference went, less one second and shifted by the zone |
| `DeleteDelay.DelayHonoured` | pkg/util/resource/pod.go:273-301 | if a pod was in use at one instant and is deleted for lack of use at a later one, more than its delay lies between, less one second and shifted by the zone |
| `DeleteDelay.StalePassStamps` | pkg/controller/pod_driver.go:172-215 | a deciding pass leaves a stamp on a pod in use if and only if its snapshot was wrong about that |
| `DeleteDelay.StalePassDeletesIff` | pkg/controller/pod_driver.go:191-215 | in any state a deciding pass deletes what is stored if and only if the stamp of its snapshot has passed and nothing refers to the stored pod; the stored stamp does not matter |
| `DeleteDelay.MergeKeepsStamp` | pkg/controller/pod_driver.go:430-441 | a merge leaves a stamp on a pod in use if and only if it found one |
| `DelayScenarios.StaleStampOccurs` | pkg/controller/pod_driver.go:172-215 | for every delay, a concrete run after which a stale pass has stamped a pod in use |
| `DelayScenarios.MergedStampOccurs` | pkg/controller/pod_driver.go:430-441 | for every delay, a concrete run after which a merge has put references on a stamped pod |
| `DelayScenarios.DeletesAtOnce` | pkg/builder/mount.go:472-498 | from every state: an undisturbed unpublish of the last reference of a pod with an expired stamp deletes the pod at that instant |
| `DelayScenarios.StampBreaksDelay` | pkg/util/resource/pod.go:273-301 | every run that leaves a stamp on a pod in use can go on to delete it before its delay, against the conclusion of DelayHonoured |
| `DelayScenarios.DelayBreaks` | pkg/controller/pod_driver.go:172-215 | both concrete runs do so |
| `AgedPass.OldSnapshotDeletes` | pkg/controller/pod_driver.go:191-215 | from every state: a pass with an old expired stamp in its snapshot deletes a pod that was used and became idle again, at that instant, while the stored stamp says wait |
| `AgedPass.OldSnapshotBreaksDelay` | pkg/controller/pod_driver.go:191-215 | for every delay a concrete run does so, against the conclusion of DelayHonoured |
| `Alone.UnpublishRunsAlone` | pkg/dingofs-driver/dingofs.go:476-511 | from every state, an unpublish that runs alone on a pod holding its reference drops that reference and nothing else and releases the lock; the pod terminates if and only if no reference is left and it has no delay, an unreadable delay and no stamp, or a stamp that has passed or cannot be read; it gains a stamp exactly if it was the last reference of a delayed pod without one |
| `Alone.PassRunsAlone` | pkg/controller/pod_driver.go:155-215 | from every state, a pass that runs alone leaves exactly the references of labelled living app pods, removes the stamp of a pod still in use, stamps an idle delayed pod, and makes the pod terminate if and only if no such reference is left and the same condition holds; every other pod is untouched and the lock released |
| `Alone.PassRepairs` | pkg/controller/pod_driver.go:172-174 | from every state with a stamp on a pod in use, a pass that runs alone takes off the stamp and nothing else, so that the delay holds again |
| `Alone.ConflictReturns` | pkg/controller/pod_driver.go:175-186 | a pass goes on to its patch if and only if the stored pod has as many references as the snapshot, otherwise it ends without a change or a lock |
| `Alone.HandlerRunsAlone` | pkg/controller/pod_driver.go:306-425 | a handler that runs alone over a terminating pod replaces it under the same name with the same annotations and labels and a new uid if it has references, removes it if it has none, and holds no lock |
| `Alone.MergeStores` | pkg/controller/pod_driver.go:430-441 | key by key: the merged map has all keys of the replacement and the references of the snapshot, the latter with the values of the snapshot |
| `Alone.OldPodIsWaitedFor` | pkg/builder/mount.go:175-182 | a publish and a handler that meet a terminating pod of the name wait without a change; a publish about to add its reference ends without one |
| `Uniqueness.OnePodPerSetting` | pkg/util/resource/pod.go:415-442 | in every run without a clashing recreation, at most one pod that is not terminating serves a volume id and setting hash |
| `Uniqueness.RecreationClashes` | pkg/controller/pod_driver.go:399-425 | recreation keeps that if and only if no other pod serves the labels |
| `Undisturbed.ClashOccurs` | pkg/controller/pod_driver.go:399-425 | a concrete run reaches two serving pods |
| `Undisturbed.PublishAloneCreates` | pkg/builder/mount.go:119-248 | an undisturbed publish where no pod serves creates one holding exactly its reference, and changes nothing else |
| `Undisturbed.PublishAloneAdds` | pkg/builder/mount.go:241-246 | an undisturbed publish where a pod serves adds exactly its reference and leaves every other pod alone |
| `Undisturbed.PublishAloneKeeps` | pkg/builder/mount.go:263-267 | an undisturbed publish of a target that the serving pod already holds changes no pod and releases the lock |
| `PodRecord.ReplayRefinesSet` | pkg/builder/mount.go:250-281 | any sequence of adds and drops on the map gives the set-level result; the number of references is the size of that set; no other annotation except delete-at changes |
| `PodRecord.PublishTwiceDropOnce` | pkg/builder/mount.go:263-267 | repeated publishes of a target count once and one unpublish undoes them |
| `PodRecord.CountTargets` | pkg/builder/mount.go:377-385 | counting reference keys counts targets |
| `PodRecord.MountPod.AddRefOfMount` | pkg/builder/mount.go:250-281 | fails without a change on a terminating pod, otherwise performs the set-level add |
| `PodRecord.MountPod.DelPodAnnotation` | pkg/util/resource/pod.go:168-187 | removes all keys, or fails without a change; fails exactly when a key is missing or listed twice |
| `PodRecord.MountPod.UmountTarget` | pkg/builder/mount.go:595-614 | performs the set-level drop and never fails on a missing reference |
| `PodRecord.MountPod.GetRef` | pkg/builder/mount.go:377-385 | returns the number of references |
| `PodRecord.MountPod.GetAllRefKeys` | pkg/util/resource/pod.go:208-216 | returns exactly the references with their values, so as many as GetRef counts |
| `PodRecord.MountPod.RemoveFinalizer` | pkg/util/resource/pod.go:104-127 | editing the slice while walking over it removes every occurrence and keeps the rest in order |
| `PodRecord.CollectDropKeys` | pkg/controller/pod_driver.go:155-174 | the loop collects each key once: a reference exactly if its app pod is missing, delete-at exactly if it is stored with a text and some reference is of a living app pod, and nothing else |
| `FdHandover.EveryDescriptorAccounted` | pkg/fuse/passfd.go:261-308 | in every interleaving each received descriptor is stored, in flight or leaked and never closed, or closed exactly once; no close hits a number the entry does not own |
| `FdHandover.AtMostOneHeld` | pkg/fuse/passfd.go:285-303 | with at most one descriptor per reply nothing leaks, and beyond what is in flight only the stored descriptor is open |
| `FdHandover.SurplusLeaks` | pkg/fuse/passfd.go:292-302 | the leak grows if and only if an accepted reply carries more than one descriptor; what leaked stays open |
| `FdHandover.LeakOccurs` | pkg/fuse/passfd.go:352-389 | a concrete run: one reply with two descriptors, of which the second stays open and unowned |
| `FdHandover.SettingBelongsToLast` | pkg/fuse/passfd.go:173-198 | the stored setting came with the descriptor stored last, and a stored descriptor is that one |
| `FdHandover.SendGivesAway` | pkg/fuse/passfd.go:267-282 | in every reachable state a successful send leaves no stored descriptor and the one that was stored closed exactly once, with all others and the setting as they were; a failed one changes nothing and ends the request |
| `FdHandover.ReplyDecides` | pkg/fuse/passfd.go:292-303 | a reply becomes descriptor and setting if and only if it is not "CLOSE", none is stored and it carries one; otherwise both stay |
| `FdHandover.RefusedIsClosed` | pkg/fuse/passfd.go:295-300 | every descriptor of a refused reply of every run was open and is then closed exactly once |
| `FdHandover.HandOver` | pkg/fuse/passfd.go:261-308 | from every reachable state: send, receive and store of one request, with any steps of others between except their stores, ends with the received descriptor and setting stored and the earlier descriptor closed once |
| `FdHandover.Entry.SendPhase` | pkg/fuse/passfd.go:267-282 | sends 0 and the stored descriptor; afterwards the entry is as the first phase of SendGivesAway, or unchanged if sending failed |
| `FdHandover.Entry.StorePhase` | pkg/fuse/passfd.go:292-303 | stores the first descriptor with its setting, or closes all of them |
| `MountTable.BoundOnDevice` | pkg/dingofs-driver/volume.go:78-113 | after BindTarget the top mount at the target has the mount path's minor, depth grows only from zero, the lower stack and all else are as before, and a new top has the given root |
| `MountTable.BindIdempotent` | pkg/dingofs-driver/volume.go:96-101 | a second BindTarget changes nothing |
| `MountTable.Table.BindTarget` | pkg/dingofs-driver/volume.go:78-113 | implements that table change, succeeds exactly when the mount path is mounted and no needed mount fails, and says what a failure leaves |
| `MountTable.Table.LastMinors` | pkg/dingofs-driver/volume.go:83-92 | the scan yields the minors of the top mounts of both paths, or none |
| `MountTable.Table.UmountTarget` | pkg/builder/mount.go:549-567 | the loop ends, pops only this target's stack, and succeeds exactly when no attempt fails, then with no mount left |
| `MountTable.Table.UmountTargetUntilRemain` | pkg/controller/pod_driver.go:668-697 | under the exact condition of LoopEndsIff the loop ends with the stack popped to at most four |
| `MountTable.LoopEndsIff` | pkg/controller/pod_driver.go:668-697 | the loop ends if and only if the target is the base target, is mounted, or the base target has fewer than five mounts; then the target is popped to four, otherwise no turn changes the table |
| `MountTable.NeverReturns` | pkg/controller/pod_driver.go:678-694 | a concrete table: the sub path target is gone, its base target has five mounts, and the loop never ends |
| `MountTable.PopToStack` | pkg/controller/pod_driver.go:668-697 | popping to n keeps exactly the lowest min(c, n) of c mounts and every other stack |
| `MountTable.Table.RecoverTarget` | pkg/controller/pod_driver.go:588-654 | in all five states of the target, whatever count was resolved before: what is left of its stack, which entry is bound on it, that nothing else changes, and when the call fails |
| `MountTable.RecoveredStack` | pkg/controller/pod_driver.go:588-654 | on values: a consistent corrupt target of an app pod that stays keeps its lowest min(c, 4) mounts, followed by one with the sub path as root and the minor of the source exactly if the sub path is empty or can be read and the mount works; a missing target of a deleted app pod loses the counted mounts; every other case and every other stack stay |
| `MountTable.PopTimesStack` | pkg/controller/pod_driver.go:657-665 | unmounting by count takes that many off the stack, all of them if the count is right, and nothing else |
| `MountTable.RecoveredCount` | pkg/controller/pod_driver.go:610-647 | a recovery that acts leaves exactly min(c, 4) mounts and the bound one if it was bound, any other leaves the stack alone |
| `MountTable.RecoveriesBounded` | pkg/controller/pod_driver.go:610-647 | over any number of recoveries of any targets, a recovered target has at most five mounts and no mounted target becomes unmounted |
| `MountTable.ResolveTargetItem` | pkg/controller/mountinfo.go:121-161 | one record per distinct matching mount point, each with its multiplicity, the first sub path, and inconsistent exactly when two entries differ; the counts sum to the matching entries; at most one record for an exact path |
| `MountTable.SubPathOf` | pkg/controller/mountinfo.go:139-140 | a root gives the path without its outer slashes, with or without the deletion mark |
| `MountTable.StatusSays` | pkg/controller/mountinfo.go:205-235 | the status of a target tells exactly whether it exists mounted, exists unmounted, is missing or is corrupt |
| `MountTable.CountsSum` | pkg/controller/mountinfo.go:121-161 | distinct records with the multiplicities of all matching mount points count every matching entry once |
| `NodeService.OneCallPerTarget` | pkg/dingofs-driver/node.go:79-100 | in every run the locked keys are exactly the targets in flight and no two calls in flight share one |
| `NodeService.LastCallDecides` | pkg/dingofs-driver/node.go:113-377 | whatever other calls interleave, a target whose last call was a successful unpublish has no mounts, and after a successful publish the published device is on top |
| `NodeService.UnpublishCompletes` | pkg/builder/mount.go:549-567 | from every state of the invariant and whatever other calls do between, an unpublish without faults ends after one own step per mount at its target and one more, with success, no mount and the target unlocked |
| `NodeService.PublishCompletes` | pkg/dingofs-driver/volume.go:78-113 | from every state of the invariant and whatever other calls do between, a publish whose mount path is mounted ends without faults in at most three own steps, with success and that minor on top of its target |
| `NodeService.CreateTurn` | pkg/dingofs-driver/dingofs.go:355-373 | a turn on a corrupt target takes one mount off it and tries again, a turn on any other goes on to the scan; nothing else changes |
| `NodeService.ScanFails` | pkg/dingofs-driver/volume.go:93-95 | a scan that fails or finds the mount path unmounted ends the call with a failure, the table unchanged and the target unlocked |
| `NodeService.BindActsAtOnce` | pkg/dingofs-driver/volume.go:78-113 | scan, unmount and mount as separate steps give the target what BindTarget on the scanned table gives at once |
| `NodeService.ForeignMountShows` | pkg/controller/pod_driver.go:610-647 | a mount from outside the lock after an unpublish stays on the target |
| `NodeService.ForeignMountOccurs` | pkg/controller/pod_driver.go:610-647 | a run from an empty table that does so, for any mount |
| `NodeService.TargetLocks.Lock` | pkg/dingofs-driver/node.go:79-93 | admits the call exactly when no call in flight has its target, and then the map is that of the state in which the call has begun |
| `NodeService.TargetLocks.Unlock` | pkg/dingofs-driver/node.go:95-100 | afterwards the keys are exactly the targets of the other calls in flight, so the next call on this target is admitted; the map is that of the state in which the call has ended |
| `Provisioner.VolumesStayBacked` | pkg/dingofs-driver/provisioner.go:98-263 | in every proper run of Provision and interleaved Delete steps, a volume neither terminating nor deleted itself keeps its directory, and its secret keeps the finalizer it asked for |
| `Provisioner.DirectoryLostIff` | pkg/dingofs-driver/provisioner.go:98-263 | with any `subPath` parameters: a live volume loses its directory in a step if and only if the step removes that of a volume whose class sets `subPath` without a pattern, and both record the same one |
| `Provisioner.RemovedOnlyUnshared` | pkg/dingofs-driver/provisioner.go:220-247 | a removal hits a sub path that another volume of the class records only if the class sets `subPath` and the volume has no pattern; it needs neither secrets nor finalizers to be in order |
| `Provisioner.BornBackedIff` | pkg/dingofs-driver/provisioner.go:119-207 | a new volume has its directory if and only if it records what Provision made, under one secret, or the recorded one existed; likewise its finalizer, if and only if the patch succeeded under one secret with the parameter written as true, or it was there |
| `Provisioner.FinalizersStay` | pkg/dingofs-driver/provisioner.go:198-261 | in every run with one class per secret and timely requests the finalizer that a live volume asked for stays, whatever sub paths there are |
| `Provisioner.UnfinalizedOnlyUnused` | pkg/dingofs-driver/provisioner.go:249-261 | when a finalizer is removed no other volume of any class that is not terminating refers to the secret |
| `Provisioner.LateRequestLosesDirectory` | pkg/dingofs-driver/provisioner.go:220-247 | in every run at all, a volume provisioned between scan and removal has its directory afterwards if and only if it had one and the removed one is not it |
| `Provisioner.LateRequestOccurs` | pkg/dingofs-driver/provisioner.go:220-247 | for any two requests that resolve to one directory, the run in which the second falls between scan and removal of the first and loses it |
| `Provisioner.UnfinalizeTakesFrom` | pkg/util/resource/pvc.go:202-208 | the last step takes the finalizer from exactly the volumes with that secret, of whatever class |
| `Provisioner.SharedSecretLosesAll` | pkg/util/resource/pvc.go:147-173 | two classes with one secret: deleting a volume of one leaves the other's without finalizer, and without its directory exactly when both record the same one |
| `Provisioner.SkippedScanShares` | pkg/util/resource/pvc.go:97-100 | for any two requests of a class that record one sub path: deleting the one without a pattern skips the scan and removes the directory the other records |
| `Provisioner.OverriddenRemovalOccurs` | pkg/dingofs-driver/provisioner.go:141-145 | a concrete pair, of which the second loses the directory that was made for it |
| `Provisioner.NameClashOccurs` | pkg/dingofs-driver/provisioner.go:117-120 | a concrete pair in which a pattern resolves to the name of another volume, with the same loss |
| `Provisioner.DeleteAloneIff` | pkg/dingofs-driver/provisioner.go:211-263 | from every state, an undisturbed deletion removes the directory if and only if the policy is Delete, the secret exists and there is no pattern or no other live volume of the class has the sub path; it then removes the finalizer if and only if it was asked for and is there and no such volume uses the secret; nothing else changes |
| `Provisioner.ProvisionIff` | pkg/dingofs-driver/provisioner.go:98-209 | a request fails without a change exactly for a selector, read-only access without a pattern, a used name, an unknown secret or a failed mount; otherwise one directory is made and the new volume has the class, policy, secret and every parameter of the request |
| `Provisioner.RetainedStays` | pkg/dingofs-driver/provisioner.go:215-219 | in every run only volumes with the policy Delete are ever being deleted |
| `Provisioner.CheckForSubPath` | pkg/util/resource/pvc.go:97-124 | the scan allows deletion exactly without a pattern, or with a class in which no other volume that is not terminating has the sub path |
| `Provisioner.CheckForSecretFinalizer` | pkg/util/resource/pvc.go:147-173 | the scan allows removal exactly with class and secret known and no other such volume of the class using it |
| `Provisioner.BuildContext` | pkg/dingofs-driver/provisioner.go:107-145 | every parameter is resolved, and the context is sub path and capacity overridden by the parameters |
| `ConfigOverride.TextOverrideIff` | pkg/util/fs_util.go:512-571 | from text to text: the new file means the old one overridden by the flags, with the mount id in the file's cache directories, if and only if no key with two lines was to change; comments keep their order and one empty line is added |
| `ConfigOverride.OverrideIff` | pkg/util/fs_util.go:512-571 | the same for lines, in any order of the keys that only flags have |
| `ConfigOverride.FlagsOverride` | pkg/util/fs_util.go:524-533 | the intended configuration has the keys of file and flags, and a flag wins over the file |
| `ConfigOverride.ParseIsLast` | pkg/util/fs_util.go:513-521 | each key of a file means the value of its last line that is no comment |
| `ConfigOverride.ParseHasLine` | pkg/util/fs_util.go:513-521 | and every key has such a line |
| `ConfigOverride.FlagsAreLast` | pkg/util/fs_util.go:524-533 | each key of the flags means the value of its last flag |
| `ConfigOverride.FlagsHaveFlag` | pkg/util/fs_util.go:524-533 | and every key has a flag |
| `ConfigOverride.RepeatedFlagLost` | pkg/util/fs_util.go:535-566 | a flag for a key with two lines is lost |
| `ConfigOverride.RepeatedFlagOccurs` | pkg/util/fs_util.go:535-566 | for any key with two lines, and a flag that differs from the second, the new file says what the second said |
| `ConfigOverride.RepeatedCacheLost` | pkg/util/fs_util.go:535-566 | with two lines for the cache directory and no flag the mount id is lost |
| `ConfigOverride.SuffixedEntries` | pkg/util/fs_util.go:543-559 | reading the written value back, every entry is the old one with the mount id below its directory, and the buffered paths are those directories |
| `ConfigOverride.CacheEntryParts` | pkg/util/fs_util.go:543-556 | "d:size" becomes d/id:size, an entry without a colon d/id, and the buffered path is d/id in both cases |
| `ConfigOverride.CacheFlags` | pkg/util/fs_util.go:524-533 | a flag enables the cache directories exactly if it sets the disk cache type to 1 or 2 |
| `ConfigOverride.RewriteText` | pkg/util/fs_util.go:512-571 | the loops compute that text for some order of the new keys, and the cache parameter |
| `ConfigOverride.Mounter.ApplyMountFlags` | pkg/util/fs_util.go:474-596 | the same on the mounter, with the buffered parameter and the directories it makes |
| `PodVolumes.PodIsWellFormed` | pkg/builder/pod.go:54-146 | for every setting the volume names of the pod differ pairwise and every mount names a volume |
| `PodVolumes.MountFindsItsSource` | pkg/builder/pod.go:214-386 | looking a mount up by name finds the source it was generated with |
| `PodVolumes.EverythingMounted` | pkg/builder/pod.go:54-146 | every field of the setting that names a path, claim, secret or inline volume is mounted where the setting says, from the source it names |
| `PodVolumes.NothingElseMounted` | pkg/builder/pod.go:54-146 | the mounts are exactly as many as these, and the CSI pod contributes exactly its disks |
| `PodVolumes.CustomVolumesIff` | pkg/builder/pod.go:134-143 | with custom volumes names differ if and only if these differ among themselves and from the builder's |
| `PodVolumes.PrintInjective` | pkg/builder/pod.go:214-327 | names of different families or counters differ |
| `PodVolumes.DecimalInjective` | pkg/builder/base.go:347-361 | different counters print differently |
| `PodVolumes.DecimalReadsBack` | pkg/builder/base.go:347-361 | a printed counter is its decimal numeral |
| `PodVolumes.GenDfsVolumes` | pkg/builder/base.go:285-363 | the loops yield the CSI pod's disks and one entry per secret and configuration, numbered from one |
| `PodVolumes.GenCacheDirVolumes` | pkg/builder/pod.go:214-302 | the loops yield one entry per cache, in four families |
| `PodVolumes.GenHostPathVolumes` | pkg/builder/pod.go:305-327 | the loop yields one entry per host path |
| `PodVolumes.GenPodVolumes` | pkg/builder/pod.go:333-386 | mount point, descriptor directory and, unless immutable, updatedb |
| `PodVolumes.MountPod.Complete` | pkg/builder/pod.go:104-143 | the finished pod has exactly these volumes and mounts, custom ones last |
| `MountCommand.CommandRoundTrip` | pkg/util/resource/pod.go:319-348 | for any file system name and configuration path, parsing the built command returns a mount path without spaces and quotes and its third component, if and only if it lies under the base and has one |
| `MountCommand.CommandFields` | pkg/builder/pod.go:80-84 | the fields of the command for names without spaces, in order: the script, the file system name, its options, fsname= with the name, conf= with the configuration path, and the mount path |
| `MountCommand.ExecIsNoArgument` | pkg/util/resource/pod.go:319-330 | a command that is only "exec" makes the parser index past its fields |
| `MountCommand.VolumeOfMountPath` | pkg/builder/pod.go:80-84 | for a path below /dfs that component is the directory there |
| `MountCommand.PodRoundTrip` | pkg/controller/pod_driver.go:400-412 | this still holds for a pod recreated any number of times |
| `TargetPath.OccursOnce` | pkg/controller/mountinfo.go:74-94 | the CSI marker occurs in a target path where it was put, otherwise only inside the root |
| `TargetPath.RoundTrip` | pkg/controller/mountinfo.go:244-270 | uid, volume name and pod directory are read back for every root without the marker |
| `TargetPath.ReadBackIff` | pkg/controller/mountinfo.go:244-270 | and for no root with it |
| `TargetPath.PrefixTakes` | pkg/controller/mountinfo.go:111-116 | the sub path prefix takes the mounts of exactly the volumes whose names begin with this one's |
| `Escape.RoundTrip` | pkg/util/security/escape.go:30-37 | a quoted result decodes, by section 3.1.2.4 of the GNU Bash manual, to the input with nothing after the closing quote; an unquoted one is the input |
| `Escape.UnquotedIffPlain` | pkg/util/security/escape.go:30-37 | the result is the input itself if and only if it holds none of the eight special characters, each written out |
| `Escape.TwoPassesEscapeOnce` | pkg/util/security/escape.go:34-35 | the two replacement passes escape every character exactly once |
| `Escape.Injective` | pkg/util/security/escape.go:30-37 | different inputs give different results |
| `Escape.NotIdempotent` | pkg/util/security/escape.go:30-37 | escaping twice equals escaping once exactly when nothing had to be quoted |
| `Escape.ContainsOne` | pkg/util/security/escape.go:39-50 | tells whether one of the characters occurs |

## Left out

- gRPC servers, driver start-up, flags, environment: plumbing.
- podErrorHandler and podPendingHandler: they recreate pods from snapshots taken before the lock, so the survival of references is not claimed for them.
- podReadyHandler: only its deletion, as an external one; its checks of the mount point are not modelled.
- CloseFd, StopFd and the socket itself: they do not take the entry's mutex; only the state changes of handleFDRequest and the entry made by parseFuse are modelled.
- Timing, back-off and retries of the reconcilers: a retry is a new operation, a timeout ends one.
- The local-volume branches of publish and unpublish, which use no mount pod.
- Errors that podDeletedHandler swallows after a failed merge: the operation simply ends.
- MountTable.Table.UmountTargetUntilRemain: a method has to end, so it requires the exact condition under which the loop does (LoopEndsIff); RecoverTarget requires it where it runs the loop.
- MountTable.RecoveriesBounded: about recoveries that return.
- MountTable.Table.UmountPath: a failing `umount` is not modelled, as in the recovery's premise that unmounts succeed.
- Escape.Decode: the escapes with numbers (octal, hexadecimal, Unicode, control) are not decoded; EscapeBashStr writes none.
- FdHandover.Reachable: one entry; the map of entries by hash only finds it.
- PodVolumes.Setting: volume sources keep what the names refer to; modes, types and sizes are dropped.
- Hashes, JSON, YAML, regular expressions, date formats and sizes: abstract values.
- Option patches of mount pods, job and secret builders, service and port handling, shell scripts: easy facts or dead code.
