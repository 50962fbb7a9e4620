# SeaweedFS CSI driver: a verified model of its node side

The SeaweedFS CSI driver runs one node plugin and one mount service per node. The mount service starts a
weed process for every staged volume; the node plugin stages volumes through it, binds them into pods,
watches them, and recovers them when their mount has died. The controller creates and deletes volumes and
accepts changes of their mount parameters, which the node lays over the volume context at the next staging.
This project models the concurrent and the failure-prone parts of that, and proves the promises their
comments make.

| file | what it models |
|---|---|
| `KeyMutex.dfy` | a map of locks, with and without deletion |
| `MountMachine.dfy`, `MountSafety.dfy`, `MountAbandoned.dfy` | the mount service as a step relation: any number of calls, weed processes, `wait()` goroutines and watchers; its invariant; what holds over whole runs; what a process that could not be stopped can still do |
| `MountRely.dfy`, `MountManager.dfy` | what one volume sees of everything else on the node, and `Mount`, `Unmount`, `List` as methods that run while everything else goes on |
| `MountUtil.dfy`, `Volume.dfy`, `NodeServer.dfy`, `HealthMonitor.dfy`, `NodeRun.dfy` | the node plugin over the kernel's mount table: clean-up of a staging path, a volume, the CSI calls, recovery, whole runs |
| `MountInfo.dfy`, `MountSelection.dfy`, `Restore.dfy`, `PluginRestart.dfy` | parsing mountinfo, choosing mounts, and rebuilding the plugin's state after a restart; runs with restarts |
| `SingleFlight.dfy` | the statfs probes and the collector of volume statistics: one system call at a time |
| `RecoveryBackoff.dfy` | how often a volume may be recovered |
| `VolumeAttributes.dfy`, `VacStore.dfy`, `Base64Url.dfy` | parameters of a VolumeAttributesClass: checks, persistence, merging |
| `BucketEmptying.dfy` | deleting a bucket volume child by child |
| `VolumeId.dfy` | volume IDs as URLs |
| `Strings.dfy`, `Wrappers.dfy` | searching and splitting strings; `Option` |

Every answer of a system call, of a filer or of the orchestrator is arbitrary, within what the state of the
model allows: an unmount that succeeds has removed the mount, a check that says "mounted" or "not mounted"
is right, and every one of them can fail. Where `Host.reliable` (and its counterparts at the filers) says
that no clean-up, probe, bind or request fails, the contracts also promise success. Where `Host.smooth` says
that weed processes mount in time, exit only when they are told to, and then in time, they promise it for
what depends on a weed process: with both (`Host.Ideal`) mounts, stagings, recoveries and unstages succeed,
as long as no live entry of the mount service is in the way and the parameters are not refused. `Host.hung`
has the paths at which a daemon is alive but does not answer statfs in time, `Host.cached` those at which the
kernel conceals from stat that a daemon is dead; which probes of a staging path are late otherwise
(`Lateness`), and what the store of parameters and the orchestrator answer (`Staging`), are arguments. The mount table gives each path nothing, the session of a weed process, or a bind of a session
with a read-only flag; a session is dead once its process has exited. `Host.remote` is the data of the
volumes: `RemoveAll` on a live writable mount destroys it. Calls about one volume do not overlap; kubelet
gives every volume its own paths, and names staging paths differently from publish paths (`Owner`). Between
any two steps of a call about one volume, processes of any volume exit, `wait()` goroutines unmount, watchers
drop entries, and calls about other volumes run.

Results that are false of the code and are stated with their exact condition:

- A process whose start failed and whose `stop()` timed out as well is recorded nowhere; its late exit can
  unmount a later mount of the volume. `LateExitHarmsIffAbandoned`: while nothing is recorded for the volume,
  a process can still do that if and only if it was abandoned and has not unmounted yet.
  `AbandonedExitTakesFreshMount` reaches such a state, and `HarmIsDone` says what the unmount leaves behind.
- A recovery leaves a volume that tracks its own staging path as a publish path without a session there:
  step 5 binds the path over itself (`Mended`, both cases). NodePublishVolume accepts such a target;
  `PublishOverStaging` goes from there to the recovery.
- A staging can succeed with nothing mounted. If the mount service has a live entry for the path, but the mount
  there is not adopted, because its daemon hangs, say, the plugin takes the mount away, and the service then
  answers "already mounted" without starting anything. `Host.Mount` says exactly when it answers so;
  `StageNewVolume` and `NodeStageVolume` say that a success of this kind leaves the path free.
- Deleting the lock of a volume, as failed stagings and NodeUnstageVolume do, lets two goroutines hold its
  lock if and only if somebody has the deleted lock in hand (`RemoveIsSafeIffUnreferenced`).
- A modification that the controller accepts can make the re-stage of a recovery fail, because a recovery
  starts from a context into which earlier modifications are merged. `RestageFromMergedContext` says
  exactly when; `AcceptedModificationCanBlockRecovery` is an instance.
- A volume ID does not carry every filer address. `DecodeEncodeIff` says exactly which ones it carries. An
  address of the form host:port.grpcPort is lost (`GrpcPortIsLost`); a list host:port,host:port comes back if
  and only if net/url looks for the port after the last colon (`ListOfFilersIff`); an address in brackets if
  and only if net/url takes the text in them for an address (`LiteralIff`).
- A mount point that contains white space other than space, tab and newline is not read back from
  mountinfo (`OneFieldIffClean`), and one line of 64 KiB loses the rest of the table (`TooLongIff`).

## Model

| member | source | states |
|---|---|---|
| KeyMutex.GrowOnlyMutualExclusion | pkg/mountmanager/keymutex.go:10-17 | in every run of any number of goroutines that deletes no lock, at most one holds the lock of a key |
| KeyMutex.RemovingAHeldLockAdmitsASecondHolder | pkg/mountmanager/manager.go:206-213 | in any state with a holder, deleting the lock leads to two holders in three steps |
| KeyMutex.RemoveIsSafeIffUnreferenced | pkg/driver/utils.go:184-192 | deleting a lock admits two holders of a key in no later run if and only if nobody has that lock in hand |
| KeyMutex.LockMap.Get | pkg/mountmanager/keymutex.go:14-17 | the in-place map does what the abstract step does, and hands out the lock of the key |
| KeyMutex.LockMap.RemoveMutex | pkg/driver/utils.go:190-192 | the deletion on the in-place map is the abstract one |
| MountMachine.StepKeepsInv | pkg/mountmanager/manager.go:51-159 | every step of every goroutine and process keeps the invariant that ties locks, entries, processes and calls together |
| MountSafety.OneCallPerVolume | pkg/mountmanager/manager.go:59-61 | in every reachable state at most one call is between Lock and Unlock for a volume |
| MountSafety.RecordedUntilDone | pkg/mountmanager/manager.go:59-159 | however a run goes on, a recorded process stays recorded until its `done` is closed |
| MountSafety.OneRecordedPerVolume | pkg/mountmanager/manager.go:95-97 | two recorded processes of one volume that are not done are the same process |
| MountSafety.EntriesOnlyLeave | pkg/mountmanager/manager.go:110-121 | an entry never changes into another; it leaves only when its process is done, and by a removal that is about this entry |
| MountSafety.InsertOverwritesNothing | pkg/mountmanager/manager.go:90-97 | an insert never finds an entry of its volume |
| MountSafety.DelayedUnmountIsInTime | pkg/mountmanager/manager.go:370-391 | if the delayed unmount of a process comes after a later start for its volume, the process had been abandoned |
| MountSafety.OldExitSparesFreshMount | pkg/mountmanager/manager.go:370-391 | the exit of a process that was not abandoned never takes away the session of a later process of its volume |
| MountAbandoned.LateExitHarmsIffAbandoned | pkg/mountmanager/manager.go:370-391 | while no call about the volume is under way, nothing is recorded for it and the target is free: a run leads to where the late unmount of a process takes away the mount of a later, recorded, running one, if and only if that process was abandoned and has not unmounted |
| MountAbandoned.AbandonedExitTakesFreshMount | pkg/mountmanager/manager.go:360-364 | for every request a failed start and a `stop()` that times out lead to a reachable state with such a process |
| MountSafety.NoStaleEntryAtRest | pkg/mountmanager/manager.go:99-105 | when nothing more can happen without a new call or exit, no entry is that of a finished process, even if nobody called Unmount |
| MountRely.ForeignStepRely | pkg/mountmanager/manager.go:51-159 | a step that is not of a call about a volume leaves its processes, its entry and its mounts alone, except for what the exit of its processes takes away |
| MountRely.SparedKeepsCarries | pkg/mountmanager/manager.go:370-391 | a fresh session, that of the only process of the volume started since a call began, stays at its path through any such steps, until its own process exits, or an abandoned one does that had not unmounted when the call began |
| MountRely.SessionIsThere | pkg/mountmanager/manager.go:370-391 | while the new process runs, its session is there, if every abandoned process of the volume that mounts at the target had unmounted when the call began |
| MountManager.Host.Mount | pkg/mountmanager/manager.go:51-108 | a success that starts a process starts one and no other, records it, and leaves its session at the target, unless it exited since, or an abandoned process did that had not unmounted when the call began; while the process of an entry lives, a valid request starts nothing and is answered "already mounted" if and only if the entry has the same target; without a live entry a process is started and runs, if nothing fails; nothing but the target path of the volume is touched |
| MountManager.Host.Unmount | pkg/mountmanager/manager.go:123-159 | after a success the volume has no entry and every process that was recorded for it has finished, its unmount included; it succeeds if there is no entry, or if processes exit in time; other paths of the volume are not touched |
| MountManager.Host.List | pkg/mountmanager/manager.go:167-194 | lists each volume at most once, only entries whose process had not exited, and every entry whose process is running throughout |
| MountManager.Host.EnsureTargetClean | pkg/mountmanager/manager.go:257-283 | a success leaves nothing mounted at the target; it succeeds if no system call fails |
| MountManager.Host.StopProcess | pkg/mountmanager/manager.go:393-414 | a success means that the cleanup of the process is complete; it succeeds if processes exit in time |
| MountUtil.CleanupStaleStagingPath | pkg/driver/mount_util.go:216-269 | for every sequence of answers no volume loses data, only this path is touched, a success leaves nothing mounted there, and without failing calls it succeeds |
| MountUtil.CleanupCorruptedStagingPath | pkg/driver/mount_util.go:190-205 | the same for the forced clean-up |
| MountUtil.IsStagingPathHealthy | pkg/driver/mount_util.go:86-157 | healthy is said only of a mount whose daemon answers in time, and always of such a mount if no system call fails |
| MountUtil.IsStagingPathLive | pkg/driver/mount_util.go:172-184 | live is said only of a mount whose daemon is alive, or where the kernel conceals that it is dead; and always of one whose daemon is alive, whether it answers in time or not, if no system call fails |
| MountUtil.CheckMount | pkg/driver/utils.go:139-158 | "mounted" changes nothing, "not mounted" leaves the path free, only a dead mount is taken away, and a working one is always found mounted if no system call fails |
| MountUtil.HandledKeepsUp | pkg/driver/health_monitor.go:502-533 | work on other paths of the volume does not disturb a fresh session |
| Volumes.Volume.Stage | pkg/driver/volume.go:50-77 | the staged path and the unmounter are set exactly on success; a started process is fresh and has the volume's context; one is started if nothing fails and the mount service has no live entry; "already mounted" leaves the path free |
| Volumes.Volume.Publish | pkg/driver/volume.go:79-93 | on a path where something is mounted nothing is done; otherwise the target becomes a bind of the source with the flag asked for |
| Volumes.Volume.Unpublish | pkg/driver/volume.go:127-137 | a success leaves nothing mounted at the target |
| Volumes.Volume.Unstage | pkg/driver/volume.go:152-190 | a success leaves nothing at the path, and no entry in the manager if the volume has an unmounter; without one it succeeds if no clean-up fails; with one the manager gives the mount up if nothing fails, and then it succeeds exactly if the path is free |
| Volumes.StageNewVolume | pkg/driver/nodeserver.go:593-647 | the context mounted with and kept is, key by key, that of the given one with the document laid over it: a mutable key has the value of the document if that has it, any other key is as given, and the capacity is the answer of the orchestrator or else the given one; it passes both checks and the quota is the capacity; if nothing fails, the parameters are not refused and there is no live entry, there is a volume whose process runs; failures touch no other path |
| Volumes.EffectiveContext | pkg/driver/nodeserver.go:594-617 | the steps yield `StageContext`, which RefusedIff and StagedIsLaid describe |
| Volumes.SetQuota | pkg/driver/volume.go:105-126 | the quota is the capacity, one byte standing for none, and that of no other volume changes |
| NodeServers.ReplayIff | pkg/driver/volume.go:139-150 | a path is tracked with a flag if and only if the last event about it, a successful call or a restart, published it with that flag or found it so |
| NodeServers.AdoptOrStage | pkg/driver/nodeserver.go:162-206 | a mount is adopted, with the context of the request, exactly if it works, when no system call fails, and then nothing is touched; otherwise the volume is staged anew as StageNewVolume says; no data is lost |
| NodeServers.NodeServer.NodeStageVolume | pkg/driver/nodeserver.go:129-206 | a known volume is left as it is and counts as staged; else the map gains, on success only, a volume that has been adopted or staged as AdoptOrStage says; it succeeds if nothing fails and there is a working mount, or no live entry and no refusal; tracked paths stay those of the history |
| NodeServers.NodeServer.NodePublishVolume | pkg/driver/nodeserver.go:208-288 | exactly a success is tracked; a free target becomes a bind of what is at the staging path, with the requested flag, also after the volume had to be taken up, with the context of the request or the one staged from it; it succeeds under the same conditions; no data is lost |
| NodeServers.NodeServer.NodeUnpublishVolume | pkg/driver/nodeserver.go:318-356 | exactly a success is forgotten, and then nothing is mounted at the target; for an unknown volume the path is only cleaned up, and that counts as a success |
| NodeServers.NodeServer.NodeUnstageVolume | pkg/driver/nodeserver.go:492-537 | exactly a success drops the volume and its throttle, and then nothing is mounted and the manager has no entry; an unknown volume is unstaged with success; for a known one the manager gives the mount up if nothing fails, and success then depends on whether the path is free |
| HealthMonitor.TearDownStalePublishBind | pkg/driver/health_monitor.go:299-312 | true only if nothing is mounted at the path any more; no other path is touched |
| HealthMonitor.DetachIfDead | pkg/driver/health_monitor.go:463-486 | what is still mounted is detached, or nothing is touched and the recovery called off; if no system call fails the first happens exactly if the daemon is dead |
| HealthMonitor.CleanStaging | pkg/driver/health_monitor.go:449-493 | afterwards the staging path is free and the manager knows it; no data is lost; it succeeds for a mount that does not work, if nothing fails |
| HealthMonitor.Restage | pkg/driver/health_monitor.go:445-501 | whether it succeeds or not, no path but the staging path is touched; a volume with an unmounter gets a process that never existed; the context is staged, as StageNewVolume says, from that of the volume it replaces; it succeeds if nothing fails, the mount does not work, the parameters are not refused, and the mount service can be told to give the mount up or has no live entry |
| HealthMonitor.Hesitate | pkg/driver/health_monitor.go:378-440 | a working mount is left alone as healthy, a volume without a context as hopeless, and a published one as live, exactly by what the two probes and their lateness say; a daemon that hangs makes the health probe late and not the liveness check |
| HealthMonitor.RepublishAll | pkg/driver/health_monitor.go:513-533 | every path is tracked again with its flag; each that did not fail is a bind with that flag of the session at the staging path, or of none once that has gone, and never of another, in spite of the short-circuit in Publish; if the staging path itself is among them, no session is left there |
| HealthMonitor.RecoverVolume | pkg/driver/health_monitor.go:360-566 | throttled exactly before the recorded time; otherwise missing exactly if unknown, healthy only if the mount works, spared only if something is published and the mount looks live, and always if something is published, the mount works, and of the two probes only the first is late; a success if nothing fails and the volume can be staged again. Each of success, partial success, failure and sparing counts one more attempt, whose wait begins then; only a healthy mount clears the throttle; other volumes keep theirs. For every outcome tracked paths and data are unchanged, and only the staging path and, after a re-stage, the publish paths are touched; the new volume has the context staged from that of the old one; a volume with an unmounter that is staged again has the session of the one process started since at the staging path, unless an exit took it away again, and no publish path that has not failed is a bind of an older session; success means exactly that none has failed |
| HealthMonitor.RetryPublishPaths | pkg/driver/health_monitor.go:318-358 | what it reports as mended is a bind of the session that was at the staging path when it began, with its own flag, or of none once that has gone; if no clean-up, probe or bind fails, every publish path ends as such a bind or worked before and is untouched |
| HealthMonitor.MendPublishPaths | pkg/driver/health_monitor.go:252-260 | a working staging mount clears the throttle of its volume and no other; only publish paths are touched; if nothing fails, each ends bound or worked before and is untouched |
| HealthMonitor.PerformVolumeHealthCheck | pkg/driver/health_monitor.go:237-261 | missing exactly if there is no such volume or no staged path. Whatever the system calls answer, a mount that does not work leads to a recovery: throttled exactly before the recorded time, else without effect exactly if there is no context, else an attempt that is counted, called off only if something is published and the mount looks live, and a success otherwise if nothing fails and the volume can be staged again. A working mount is found healthy, its throttle cleared and its publish paths put in order, if nothing fails and the probe is in time. What is replaced, mounted and bound is as RecoverVolume says |
| HealthMonitor.HasUnhealthyPublishPath | pkg/driver/health_monitor.go:281-291 | "no" only if every tracked path is a mount whose daemon answers in time; "yes" only if one is not, if no system call fails |
| HealthMonitor.PublishOverStaging | pkg/driver/health_monitor.go:513-533 | a volume published at its own staging path has no session there after a successful recovery |
| NodeRun.AnyRun | pkg/driver/health_monitor.go:198-261 | over any run of CSI calls and health checks of any volumes: the tracked publish paths are what the successful calls add up to, and no volume loses data; the context of every volume is what the stagings since it was taken up have made of the first one (`Restages`, to which ContextAfterRestages applies); the attempts at recovering a volume, with no healthy check and no unstage between them, are spaced by the doubling waits (`Spaced`, to which SpacedSpan applies) |
| MountInfo.UnescapeMountField | pkg/driver/container_remount_linux.go:293-309 | the loop computes the decoding in which unknown sequences stay as they are |
| MountInfo.UnescapeEscape | pkg/driver/container_remount_linux.go:282-311 | decoding inverts the kernel's octal escapes, for all bytes |
| MountInfo.UnescapeOctal | pkg/driver/container_remount_linux.go:293-309 | a backslash and three octal digits stand for their byte, for all bytes |
| MountInfo.OneFieldIffClean | pkg/driver/container_remount_linux.go:242-251 | a root or mount point is one field exactly if its only white space is space, tab and newline |
| MountInfo.SpaceIff | pkg/driver/container_remount_linux.go:242 | the bytes of a code point are taken for white space exactly if Unicode has it so, for all code points (section 3 of RFC 3629) |
| MountInfo.ParseMountInfo | pkg/driver/container_remount_linux.go:238-280 | the loops compute the entries of the lines the scanner delivers |
| MountInfo.ParsePrint | pkg/driver/container_remount_linux.go:238-280 | a table in the format of section 3.5 of proc.rst is parsed back: device, root, mount point, type and read-only flag of every entry |
| MountInfo.NoFsType | pkg/driver/container_remount_linux.go:259-268 | without a separator, or with nothing after it, there is no type |
| MountInfo.TooLongIff | pkg/driver/container_remount_linux.go:240-279 | the parser reports an error exactly if some line has 64 KiB or more |
| MountSelection.GetMountDevice | pkg/driver/container_remount_linux.go:315-333 | the device of the last entry for the path, or an error |
| MountSelection.DeviceOfLast | pkg/driver/container_remount_linux.go:315-333 | the device is that of the last entry for the path, and none if there is no entry |
| MountSelection.FilteredIff | pkg/driver/container_remount_linux.go:501-513 | exactly the paths of selected mounts come out, each with the flag of the last such mount |
| MountSelection.FilterPublishPaths | pkg/driver/container_remount_linux.go:501-513 | the loop computes that selection |
| MountSelection.KubeletBindIsFound | pkg/driver/container_remount_linux.go:358-360 | a bind of type "fuse" or "fuse." with any subtype, at a kubelet target other than the staging path, is found by its device, with its flag |
| MountSelection.OthersAreNotFound | pkg/driver/container_remount_linux.go:501-513 | a mount of another device, of a type that is not FUSE or is the control file system of FUSE, the staging path itself, or a path not called "mount" is not |
| MountSelection.ExtractPodUID | pkg/driver/container_remount_linux.go:137-148 | the loop finds the part after the first "pods" that has a successor |
| MountSelection.PodUIDIff | pkg/driver/container_remount_linux.go:137-148 | the pod is the part after the first one called "pods" that is not the last |
| MountSelection.KubeletTargetIsPublishPath | pkg/driver/container_remount_linux.go:519-526 | every publish target of kubelet is recognised, and its pod with it |
| MountSelection.PublishPathIff | pkg/driver/container_remount_linux.go:519-526 | exactly the paths called "mount" that lie under the directory of CSI volumes and name a pod are recognised |
| MountSelection.OtherNamesAreNotPublishPaths | pkg/driver/container_remount_linux.go:519-526 | a path whose last part is not "mount", such as a staging path, is neither recognised nor a kubelet target |
| Restore.DeviceFindsBinds | pkg/driver/restore.go:78-91 | looking up the device of the staging path and filtering by it finds exactly the binds of its session at kubelet targets, whatever FUSE subtype the kernel shows |
| Restore.StagedIsRebuildable | pkg/driver/mounter.go:81-89 | a freshly staged volume whose process runs is what a restart can rebuild, if and only if its tracked publish paths are the binds of its session at kubelet targets |
| Restore.PublishKeepsTrack | pkg/driver/volume.go:79-93 | a bind at a free kubelet target keeps the tracked paths those bound to the session |
| Restore.UnpublishKeepsTrack | pkg/driver/volume.go:127-137 | so does taking a target away |
| Restore.RestoreVolume | pkg/driver/restore.go:49-96 | a volume is adopted exactly if its entry is complete, its path is live and an unmounter can be had; then it is as listed |
| Restore.RestoreVolumes | pkg/driver/restore.go:22-46 | a restart is the identity on staged path, context, read-only flag and publish paths of every live volume, if the service and the mount table can be read |
| PluginRestart.Restart | pkg/driver/restore.go:22-46 | after a restart the tracked publish paths are what the history says, with the restart as an event in it; a volume that could be rebuilt is as before; the throttle is empty |
| PluginRestart.RunWithRestarts | pkg/driver/restore.go:22-46 | the same over any run of calls, checks and restarts, and no volume loses data |
| PluginRestart.StageServeRestart | pkg/driver/restore.go:22-96 | a volume that is staged, and published at free kubelet targets and unpublished any number of times, is back after a restart with what these calls add up to, if they succeeded, its process runs and no abandoned one took its session away |
| SingleFlight.RegisteredIsInFlight | pkg/driver/mount_util.go:48-82 | in every reachable state a registered probe is not closed, and nothing is registered once all probes have finished |
| SingleFlight.AnswersAreFresh | pkg/driver/mount_util.go:43-82 | whoever asks after a reset gets the result of a system call that was started after the reset, in any interleaving |
| SingleFlight.EntryLeaves | pkg/driver/mount_util.go:60-66 | an entry leaves exactly by a reset of its path or by the completion of its own probe |
| SingleFlight.HungCallsBound | pkg/driver/mount_util.go:30-42 | blocked system calls for a path number at most one plus its resets |
| SingleFlight.PlainDeleteTakesANewerEntry | pkg/driver/mount_util.go:60-66 | without the comparison an orphan's completion removes a newer probe's entry |
| SingleFlight.OneReadAtATime | pkg/driver/volume_stats.go:58-87 | without resets there is at most one read per volume and path |
| SingleFlight.PlainDeleteSuffices | pkg/driver/volume_stats.go:68-73 | without resets the plain delete of the collector behaves like a compare-and-delete in every run |
| RecoveryBackoff.CappedShiftIsEnough | pkg/driver/health_monitor.go:19-28 | for every number of attempts the capped 64-bit shift gives min(base * 2^(n-1), max), without overflow |
| RecoveryBackoff.Backoff.NoteRecoveryAttempt | pkg/driver/health_monitor.go:80-97 | one more attempt, and the wait of that many attempts from now |
| RecoveryBackoff.Backoff.RecoveryThrottled | pkg/driver/health_monitor.go:70-76 | throttled exactly before the recorded time |
| RecoveryBackoff.StepKeepsInv | pkg/driver/health_monitor.go:215-232 | at most one check of a volume is under way, and its attempts are spaced by their waits, after every step |
| RecoveryBackoff.AttemptsAreSpaced | pkg/driver/health_monitor.go:19-28 | in every run any n consecutive attempts without a reset between them span at least the sum of the waits, and from six on 31 + 30(n - 6) minutes |
| RecoveryBackoff.SpacedSpan | pkg/driver/health_monitor.go:19-28 | any n consecutive spaced attempts span at least the sum of the waits between them |
| RecoveryBackoff.TwoChecksBeatTheThrottle | pkg/driver/health_monitor.go:215-232 | from any state without an entry, two checks of a volume at their beginning are both admitted and attempt two recoveries at once |
| VolumeAttributes.ValidateMutableParameters | pkg/driver/controllerserver.go:484-507 | accepts exactly known keys with good values that are not exclusive, and reports the first kind of fault with all its instances |
| VolumeAttributes.ValidateConstrainedParameterValues | pkg/driver/controllerserver.go:513-523 | accepts exactly if every mutable key has a good value |
| VolumeAttributes.ValidateWritebackDlmCombo | pkg/driver/controllerserver.go:529-538 | refuses exactly if both switches are on |
| VolumeAttributes.ValueOkIff | pkg/driver/controllerserver.go:460-479 | which values are accepted for which key |
| VolumeAttributes.BooleanIff | pkg/driver/controllerserver.go:473-476 | a boolean is a digit, a word or its first letter, in small letters, in capitals, or with a capital in front |
| VolumeAttributes.MergePersistedVolumeAttributes | pkg/driver/vacstore.go:259-267 | only mutable keys are taken over from the document |
| VolumeAttributes.ParseFormatInt | pkg/driver/nodeserver.go:611-617 | a capacity written into a context is read back as the same 64-bit number |
| VolumeAttributes.ParseIntIff | pkg/driver/nodeserver.go:657-678 | exactly the decimal numerals of 64-bit numbers are read, each as its number |
| VolumeAttributes.RefusedIff | pkg/driver/nodeserver.go:594-617 | a staging is refused exactly for an undecodable document, a bad value, the two switches together, or a malformed or negative capacity |
| VolumeAttributes.StagedIsLaid | pkg/driver/nodeserver.go:594-617 | and otherwise every key has the value it is to have, and the capacity is the one the quota is set to |
| VolumeAttributes.StagedContextIsSound | pkg/driver/nodeserver.go:605-610 | no context handed to the mounter has write-back caching and the lock manager both on |
| VolumeAttributes.ContextAfterRestages | pkg/driver/nodeserver.go:594-624 | over any sequence of re-stages structural keys keep their original value and mutable keys hold that of the last staged document that has them |
| VolumeAttributes.CapacityAfterRestages | pkg/driver/nodeserver.go:611-617 | over any sequence of re-stages the capacity is the last that an orchestrator answered, else the original one |
| VolumeAttributes.ControllerModifyVolume | pkg/driver/controllerserver.go:544-597 | exactly when a request is accepted, refused, or fails because the PV cannot be read |
| VolumeAttributes.ControllerAndNodeAgree | pkg/driver/controllerserver.go:557-581 | the controller's check on the mutable subset decides the node's check on the merged context |
| VolumeAttributes.AcceptedIff | pkg/driver/controllerserver.go:557-581 | the controller accepts exactly the requests for mutable keys that the node would stage with |
| VolumeAttributes.AcceptedModificationStages | pkg/driver/controllerserver.go:557-581 | an accepted modification is refused at the next staging from the PV only for its capacity |
| VolumeAttributes.RestageFromMergedContext | pkg/driver/health_monitor.go:495-501 | starting from a merged context it is refused exactly if an earlier document left the other switch on |
| VolumeAttributes.AcceptedModificationCanBlockRecovery | pkg/driver/health_monitor.go:495-501 | two accepted modifications after which staging works and the re-stage of a recovery does not |
| Base64Url.DecodeEncode | pkg/driver/vacstore.go:42-48 | unpadded base64url (section 5 of RFC 4648) decodes to its input, for all bytes |
| VacStore.VacPathIsInjective | pkg/driver/vacstore.go:42-48 | keys of distinct volume IDs differ, and a key has no "/" below the root |
| VacStore.FilerVacStore.RoundTrip | pkg/driver/vacstore.go:177-215 | the first filer that answers decides; those before it have not answered, and those after it are not asked; a success has been carried out, a failure may have been, without an answering filer nothing happens |
| VacStore.FilerVacStore.Read | pkg/driver/vacstore.go:219-235 | returns the document of the volume; a missing one reads as no parameters, an undecodable one as corrupt |
| VacStore.FilerVacStore.Write | pkg/driver/vacstore.go:238-248 | stores the parameters; an empty set changes nothing |
| VacStore.FilerVacStore.Delete | pkg/driver/vacstore.go:251-254 | removes the document of this volume |
| VacStore.EffectOnStored | pkg/driver/vacstore.go:177-254 | a request about one volume changes what is stored for that volume and for no other |
| VacStore.StoreIsAMap | pkg/driver/vacstore.go:33-37 | if every call about a volume succeeded, the store holds what a map from volumes to parameters holds |
| VacStore.AnyCalls | pkg/driver/vacstore.go:33-37 | after any calls for any volumes, failed ones included, what is held for each volume is what its own calls allow |
| VacStore.ModifyVolume | pkg/driver/controllerserver.go:544-597 | writes exactly what was accepted, and nothing otherwise |
| VacStore.ModifyThenStage | pkg/driver/nodeserver.go:593-630 | what has been accepted and written is what the next staging reads, and that staging accepts it; a store that cannot be read counts as one without a document |
| BucketEmptying.EmptyChildren | pkg/driver/controllerserver.go:233-261 | terminates for a directory of any size; exactly a prefix of the listing is deleted, each child once; after a success nothing is left |
| BucketEmptying.DeletedOnce | pkg/driver/controllerserver.go:250-254 | the names of a listing are distinct, so none is deleted twice |
| BucketEmptying.Filer.ListChildren | pkg/driver/controllerserver.go:299-321 | a page is the next names after the last one, and says whether there are more |
| BucketEmptying.EmptyBucketChildren | pkg/driver/controllerserver.go:233-241 | a volume not directly below the bucket directory is left alone |
| BucketEmptying.DeleteVolume | pkg/driver/controllerserver.go:188-226 | no child of a bucket goes with the bucket, and if emptying fails the bucket stays; the parameters of this volume go after it, and no others; nothing is deleted if the bucket directory is unknown |
| BucketEmptying.DeleteDirectory | pkg/driver/controllerserver.go:203-210 | the directory goes only when its children have been deleted one by one, and not at all if the bucket directory is unknown |
| VolumeId.DecodeEncodeIff | pkg/driver/utils.go:230-251 | an absolute path comes back with its filer address exactly if a URL can carry the address: host characters only and digits for a port, or an address in brackets with or without a zone and a port |
| VolumeId.HostAndPortRoundTrip | pkg/driver/utils.go:230-251 | every host name and every host name with a port comes back with every absolute path |
| VolumeId.LiteralIff | pkg/driver/utils.go:230-251 | an address in brackets, with or without a zone and a port, comes back if and only if net/url takes the text in them for an address |
| VolumeId.PathRoundTrip | pkg/driver/utils.go:230-233 | without a filer address the path itself comes back |
| VolumeId.GrpcPortIsLost | pkg/driver/utils.go:245-251 | an address of the form host:port.grpcPort never comes back, whichever colon counts |
| VolumeId.ListOfFilersIff | pkg/driver/utils.go:230-251 | a list of two filers with ports comes back if and only if the port starts after the last colon |
| VolumeId.ParametersStayWithTheVolume | pkg/driver/vacstore.go:87-92 | the parameters of a volume are kept at the filer its ID names |

## Left out

- HealthMonitor.RecoverVolume: for a volume without an unmounter, rebuilt from a mount that was already there, the manager may answer "already mounted" although the staging path has been detached; a fresh session is then not promised.
- HealthMonitor.RecoverVolume: a publish path that kubelet would name like a staging path of the volume, but that is not the volume's own one, is not covered by what is said about binds; an abandoned process may mount there.
- MountManager.Host.Unmount: the removal of the cache directory, and the check that it can be removed, are not modelled.
- MountRely.ForeignStepRely: an abandoned process mounts nothing any more; stop() has sent it SIGKILL before it gives up on it (pkg/mountmanager/manager.go:404), and a mount by a helper process that outlives it is not modelled.
- MountRely.SparedKeepsCarries: rests on the same assumption about abandoned processes.
- MountManager.Host.Mount: rests on it as well: no abandoned process mounts at the target while a new one starts.
- MountUtil.ProbeStatfs: the answer is taken to describe the mount that is there. SingleFlight proves that it comes from a system call made since the last reset, but the plugin resets only where it detaches a mount itself: staging on a path whose mount the mount service has already removed (pkg/driver/volume.go:50-60) makes no reset.
- HealthMonitor.PerformVolumeHealthCheck: a check is one piece of work here; in the source its first probes and the clearing of the throttle (pkg/driver/health_monitor.go:237-261) take no lock, so calls about the volume can come between them and the locked part.
- MountUtil.IsStagingPathLive: at which paths daemons hang, or the kernel conceals that one is dead, is fixed for a host and does not change during a run.
- PluginRestart.StageServeRestart: that a publish at a path where something is mounted, and an unpublish that fails half-way, are followed by an exact restart is not promised; the mount table need not show then what is tracked.
- PluginRestart.RunWithRestarts: what is found for a volume are paths of that volume (`OwnPaths`). StageServeRestart also takes it that no path shows a process that never existed (`NoFuture`), and that only its staging path, kubelet targets of the volume, and paths not called "mount" show its session (`OwnBinds`).
- NodeRun.AnyRun: does not model two overlapping calls about one volume. The plugin's own lock map does not exclude them, because NodeUnstageVolume and failed stagings delete a lock that is held (pkg/driver/nodeserver.go:530).
- Restore.RestoreVolumes: the mounts do not change between the two reads of mountinfo, and a bind shows the read-only flag it was made with.
- RecoveryBackoff.Backoff.NoteRecoveryAttempt: the count of attempts is unbounded, where the source has 64 bits.
- VacStore.FilerVacStore.RoundTrip: the filers of a list share one store; JSON round-trips, and a 404 has no body.
- BucketEmptying.Filer.ListChildren: the filer's client library is not part of this model; that it asks for one entry more than the limit is taken from its contract.
- VolumeId.DecodeEncodeIff: which colon starts the port is a parameter, because it differs between versions of net/url and, in some, between schemes; the result holds for both rules.
- VolumeId.DecodeEncodeIff: which texts in brackets are addresses, and how a host reads that has an opening bracket anywhere but at its beginning, are parameters for the same reason.
- BucketEmptying.DeleteVolume: the refusal of an ID whose filer cannot be resolved is not modelled.
- The HTTP client between plugin and mount service gives up after 30 seconds, so that a call to the service may still be running when the plugin goes on; here a call ends before its caller does.
- Mounts below a mounted path, several mounts on one path, and mounts made by anybody at the paths of a volume.
- The remount inside containers (`setns`, `open_tree`, `move_mount`, the scan of /proc): foreign calls.
- Volume expansion, capacity and topology calls, the arguments of weed mount, cache directories and sockets: plumbing around the calls that are modelled.
- The WaitGroup at shutdown, panics in check goroutines, metrics and logging.
- The hashes that name directories and sockets, and the cleaning of bucket names.
- Authentication, TLS and the Kubernetes API: their results are arbitrary answers here.
