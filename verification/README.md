# A verified model of the HAMi DRA driver's claim engine

The kubelet plugin prepares and unprepares resource claims. One such operation is a transaction over three stores: a
checkpoint file shared by several plugin processes, the MIG hardware behind NVML, and a tree of HAMi cache
directories. It may fail or die between any two steps, while the API server, other plugin processes and a cleanup
thread go on. The project models that engine and proves what must hold whatever happens.

`dafny verify dfyconfig.toml` checks everything.

## How it is built

**The node as a state machine.** `Node` has one event for every step between which the code can fail or die: the
checkpoint writes, every creation, every deletion, every directory change, the start, the error return and the death of
an operation, the snapshot, the lookup and the unprepare of a cleanup thread, a plugin restart, a reboot, and the API
server's creations and deletions. A run is any sequence of enabled events. It may start from any checkpoint file.

- `NodeBasics` and `NodeLife` follow the checkpoint and the lock holder.
- `NodeMaking`, `NodeMig` and `NodeAccount` follow the MIG devices: what is safe, and what is accounted for.
- `NodeSweep`, `NodeRecovery` and `NodePlacing` say what deletions leave behind, what can be freed, and when a Prepare can complete.
- `NodeGaps` and `NodeStranded` show, by runs from a fresh node, what is lost without a hypothesis and what is lost with all of them.
- `NodeHooks` follows the HAMi directories, `NodeCleanup` the cleanup threads.

**The code in its own shape.** `DeviceStates.DeviceState` has the methods of device_state.go and cleanup.go with their
loops, branches and error returns, over the classes `CheckpointFile.CheckpointManager`, `Nvlib.DeviceLib` and
`HamiCore.HamiCoreManager`. Every method records what it does, and its contract says that the record is a run of the state
machine (`HistoryIsRun`). So what is proved of all runs holds of all executions. Between the steps other parties act
through `Elsewhere`.

**The lock of the checkpoint file.** `CheckpointStore` is a finer state machine of many processes taking the file lock,
reading, writing and dying, and of startups that read, let go of the lock, and act later. It justifies that `Node` takes
each checkpoint update as one event (`UpdatesSerialise`).

**The pure parts.** `MigNames`, `CounterNames`, `Partitions`, `DeviceConfigs`, `HamiLimits`, `PodLabel` and `Checkpoint`
cover names, counters, config precedence, memory limits, the Pod label and the checkpoint versions. Code that
changes things step by step is a method with a loop, proved against a specification.

`Node` uses one list of devices where the code has a list of groups, and one order of this driver's results where the code
has a map of config groups; `DeviceState.SelectConfigs` gets the order from config selection. A counter is keyed by what it
counts, not by its name: `CounterNames.CounterNameInjective` shows that this loses nothing.

## What the code relies on and does not enforce

These are the constructors of `Hypotheses.Hypothesis`. Each theorem over runs names the ones it needs; those that name
none need none.

| hypothesis | what it says |
|---|---|
| `Identity` | A claim is prepared under the name and namespace its UID was created with, and the name is not empty. |
| `Advertised` | The results of a claim name devices under names this driver could give, and do not change while the claim has an entry. |
| `NoMigSharing` | A result that names a MIG device is this driver's and has no admin access. Only the accounting needs it. (device_state.go:551 does not filter by driver, and the spared names of device_state.go:1234-1241 include those of admin claims.) |
| `FreshIds` | NVML does not give a new GPU instance an id that a checkpointed tuple names. Only the safety of recorded devices needs it. (The UUID comparison that would guard this is commented out, nvlib.go:1066-1079.) |
| `ReliableScan` | A device slot that cannot be read is empty. Only the accounting needs it. (FindMigDevBySpec skips it either way.) |
| `OwnContainers` | A container uses at most one HAMi claim and a claim serves one container (README.md:27-30); container names have no underscore and UIDs no dot. |
| `SameBoot` | No reboot during the run. |
| `Adopted(books)` | The entries of a file that the first startup finds and keeps, because it is of this boot or carries no boot id (device_state.go:202-212), are as these books say. Each theorem names the books it needs; the boot id and idempotence theorems need none. |

The accounting starts from a clean node: unless the file is kept, `CleanHardware` has no MIG device of this driver and
`CleanTree` no marked directory.

Also assumed, and built into the state machine: NVML refuses to turn MIG mode off on a GPU that holds GPU instances;
the profile string depends on GPU and profile id only; feature gates and the set of GPUs are fixed, and NVML gives a
handle for the GPUs found at startup and for no other; startup, teardown and checkpoint replacement do not overlap another
process's Prepare or Unprepare. `CheckpointStore.ClaimSurvivesStartupsIff` says exactly what the last one costs.

## Where the code does less than its comments say

- Rollback and cleanup look for complete MIG devices, so "partial GI/CI creation" (device_state.go:256-259) is not rolled back: a creation that dies between GPU instance and compute instance leaves an orphan that no event but a reboot removes and that blocks every overlapping partition: `NodeGaps.OrphanArises`, `OrphanStaysForever`, `OrphanBlocks`. `NodePlacing.PrepareCanCompleteIff` says exactly when a retry can complete.
- Rollback with HAMi-Core and dynamic MIG both off is logged as "noop" but goes on and deletes static MIG devices: `NodeGaps.NoopRollbackDeletes`, exactly when: `NodeSweep.SweepRemovesIff`.
- A completed claim whose Unprepare failed half-way stays completed, and a Prepare then answers with devices that are gone: `NodeGaps.StaleAnswerAfterFailedUnprepare`, exactly when: `NodeMig.StaleAnswerIff`.
- A claim that names a MIG device of a GPU that is not on the node has its entry written before the device is looked up (device_state.go:276-294), and from then on neither rollback nor unprepare gets past the name, because there is no handle for the GPU (nvlib.go:1242-1246). Within the boot the entry stays for good, and devices that its list names later are out of reach of its unprepare: `NodeStranded.AbsentGpuStrandsClaim`, `StrandedForever`, exactly when: `NodeRecovery.StartedClaimsCanBeFreed`, `NodeSweep.SweepRemovesIff`.
- A rollback that finds devices by specification does not see one whose compute instance it has already destroyed: `Nvlib.RollbackFindsIff`, `NodeRecovery.ForgottenLeavesIff`. Deletion by tuple does converge.
- An unreadable device slot makes a rollback succeed and forget the only entry that knows of a live device: `NodeGaps.UnreadableSlotLosesDevice`, exactly when: `NodeSweep.UnreadableLeavesIff`.
- A device that a completed admin claim also names is spared by the sweep of the claim it was made for, and lost: `NodeGaps.AdminAccessLosesDevice`, exactly when: `NodeSweep.SparedLeavesIff`.
- A directory removal that fails half-way may lose the ownership files, and then no retry finds the directory: `HamiCore.RetryConvergesIff`.
- Limit indices start over with every config group, so they repeat as soon as two groups have devices: `HamiLimits.TwoGroupsRepeatIndex`, exactly when: `HamiLimits.IndicesOnceIff`; and a device in two groups of a claim is handed out twice: `HamiLimits.EmittedWithinConsumedIff`.
- A result without a memory capacity gets the whole GPU's memory as its limit: `HamiLimits.OneMoreFitsIff`, `MissingCapacityOvercommits`.
- The name sanitiser misses its target exactly when nothing is left or the cut falls after a hyphen: `MigNames.ProfileLabelIsHostLabelIff`.
- A MIG name with an empty sanitised profile does not parse back, and names that differ in the profile only denote one device: `MigNames.RoundTrip`, `MigNames.DistinctNamesOneTuple`.
- Replacing the checkpoint at startup is check-then-act across two lock acquisitions: `CheckpointStore.ClaimSurvivesStartupsIff`, `StartupRaceLosesClaim`.

## Model

| member | source | states |
|---|---|---|
| NodeMig.DestroyedOnlyByOwnUnprepare | cmd/hami-kubelet-plugin/device_state.go:382-418 | After any run, the next event destroys a live MIG device recorded by a completed claim only if it is a deletion within that claim's own Unprepare, or a reboot; rollback, teardown and cleanup never do |
| NodeMig.CompletedDevicesLive | cmd/hami-kubelet-plugin/device_state.go:224-330 | In every reachable state a completed claim whose Unprepare has not begun has all MIG devices it recorded: complete, its own, under the recorded name |
| NodeMig.TargetIsFair | cmd/hami-kubelet-plugin/device_state.go:1233-1260 | What rollback, teardown or unprepare may delete is a completed claim's recorded device only in that claim's own Unprepare |
| NodeMig.RecordsKeptIffIdFree | cmd/hami-kubelet-plugin/nvlib.go:890-1017 | The exact condition: a creation keeps every record about its own GPU instance precisely when no record names the new id |
| NodeMig.AnnouncedNamesSuffice | cmd/hami-kubelet-plugin/deviceinfo.go:113-150 | What the proofs assume of the allocatable devices follows from how they are named and from being on a GPU of the node |
| NodeAccount.NoDeviceIsLost | cmd/hami-kubelet-plugin/device_state.go:263-322 | After every step and every crash, each complete MIG device this driver made belongs to a claim in the checkpoint, which has recorded it or lists its name with no completed claim using that name |
| NodeAccount.NameNotTaken | cmd/hami-kubelet-plugin/device_state.go:1194-1230 | A claim being completed never has the name of another claim's device |
| NodeAccount.CreatedNameIsFree | cmd/hami-kubelet-plugin/device_state.go:1194-1230 | The overlap check makes the name of a device about to be created no completed claim's |
| NodeAccount.JobAdvances | cmd/hami-kubelet-plugin/device_state.go:551-566 | Each deletion of a rollback or sweep puts its device behind: every device of the claim that is still there is in the rest of the list |
| NodeSweep.SweepLeavesIff | cmd/hami-kubelet-plugin/device_state.go:551-566 | In any course of a sweep that reaches its end, a GPU instance survives precisely if at every step about its placement the name was spared, it was incomplete, or its slot could not be read |
| NodeSweep.SparedLeavesIff | cmd/hami-kubelet-plugin/device_state.go:1234-1241 | Reading every slot, a sweep leaves a complete device it is about exactly if the name is a completed claim's |
| NodeSweep.UnreadableLeavesIff | cmd/hami-kubelet-plugin/nvlib.go:1241-1320 | A complete device whose name is not spared is left exactly if its slot could not be read whenever the sweep came to its name |
| NodeSweep.SweepRemovesIff | cmd/hami-kubelet-plugin/device_state.go:536-566 | In every mode but HAMi, unpreparing a partially prepared claim can remove a given GPU instance exactly if it is complete and denoted by a name among the results that is not spared and stands before the first name whose GPU is not on the node |
| NodeSweep.SweepCompletes | cmd/hami-kubelet-plugin/device_state.go:551-566 | From any hardware state and for any list of names, some run of deletions without a failure works the list off up to the first unspared name whose GPU is not on the node, and leaves exactly what the names before it do not hit |
| NodeSweep.SweepEndsIff | cmd/hami-kubelet-plugin/nvlib.go:1241-1246 | A sweep by name can come to its end exactly if the GPU of every name that parses and is not spared is on the node |
| NodeRecovery.ForgottenLeavesIff | cmd/hami-kubelet-plugin/device_state.go:420-486 | A forgotten claim leaves a GPU instance behind exactly if it had no compute instance whenever the sweep came to its name |
| NodeRecovery.StartedClaimsCanBeFreed | cmd/hami-kubelet-plugin/device_state.go:420-486 | From every reachable idle state a partially prepared claim can be unprepared exactly if the GPU of each of its names that parses and is not spared is on the node; and whenever it has been, no complete MIG device made for it exists |
| NodeRecovery.CompletedClaimsCanBeFreed | cmd/hami-kubelet-plugin/device_state.go:853-893 | The same for completed claims, also after a failed Unprepare: exactly if the GPU of each recorded device is on the node |
| NodePlacing.PrepareCanCompleteIff | cmd/hami-kubelet-plugin/device_state.go:224-330 | A Prepare, first or retried, of a claim for any number of devices can complete exactly if an earlier attempt can be rolled back, every device is allocatable and every partition, after the rollback, is free and asked for once |
| NodePlacing.CompletingTakesRoom | cmd/hami-kubelet-plugin/nvlib.go:890-1017 | No course of a Prepare completes from a state without that room |
| NodeGaps.ReusedIdDestroysLiveDevice | cmd/hami-kubelet-plugin/nvlib.go:1066-1079 | Without FreshIds safety fails: a run from a fresh node in which retrying an older claim's Unprepare destroys a newer claim's live device |
| NodeGaps.UnreadableSlotLosesDevice | cmd/hami-kubelet-plugin/nvlib.go:1241-1320 | Without ReliableScan accounting fails: a run from a fresh node in which the claim is forgotten while its device lives |
| NodeGaps.AdminAccessLosesDevice | cmd/hami-kubelet-plugin/device_state.go:1234-1241 | Without NoMigSharing accounting fails: a run from a fresh node in which a device is spared for an admin claim and lost |
| NodeGaps.OrphanArises | cmd/hami-kubelet-plugin/nvlib.go:890-1017 | Under every hypothesis, a creation that dies half-way leaves a GPU instance that nobody remembers |
| NodeGaps.OrphanStays | cmd/hami-kubelet-plugin/nvlib.go:414-452 | It survives every event other than a reboot |
| NodeGaps.OrphanBlocks | cmd/hami-kubelet-plugin/nvlib.go:890-1017 | Meanwhile no Prepare of a claim for an overlapping partition can complete |
| NodeMig.StaleAnswerIff | cmd/hami-kubelet-plugin/device_state.go:239-250 | After any run in which a Prepare has completed, and any further run within the boot that keeps the entry, a device handed out then, which every further Prepare hands out again, is gone exactly if the claim's own Unprepare has since taken it or its compute instance |
| NodeMig.RecordedAliveIff | cmd/hami-kubelet-plugin/device_state.go:853-893 | While a completed claim keeps its entry, a recorded device lives on exactly if no step of the claim's own Unprepare has taken it |
| NodeGaps.StaleAnswerAfterFailedUnprepare | cmd/hami-kubelet-plugin/device_state.go:239-250 | A run under every hypothesis after which Prepare answers with a device that no longer exists |
| NodeGaps.NoopRollbackDeletes | cmd/hami-kubelet-plugin/device_state.go:536-539 | With dynamic MIG off, a run from any first startup in which the "noop" rollback deletes a static MIG device that nobody made |
| NodeStranded.AbsentGpuStrandsClaim | cmd/hami-kubelet-plugin/device_state.go:276-294 | Under every hypothesis, a run from a fresh node after which a started entry names a MIG device of a GPU that is not on the node |
| NodeStranded.StrandedForever | cmd/hami-kubelet-plugin/nvlib.go:1241-1246 | Within the boot no retry, unprepare, cleanup or restart removes or completes such an entry |
| NodeCleanup.CleanupSparesTheLiving | cmd/hami-kubelet-plugin/cleanup.go:111-187 | For any interleaving, at every step of a self-initiated unprepare its claim no longer exists at the API server |
| NodeCleanup.LookupFindsTheDead | cmd/hami-kubelet-plugin/cleanup.go:150-187 | A claim looked up under its own name and found missing or replaced is gone for good |
| NodeCleanup.LivingFoundStaleIff | cmd/hami-kubelet-plugin/cleanup.go:150-187 | The exact condition: a living claim is taken for stale precisely if the recorded name is not empty and not the claim's |
| NodeCleanup.WrongNameUnpreparesTheLiving | cmd/hami-kubelet-plugin/cleanup.go:150-187 | Without Identity it fails, whatever else is assumed: a run from startup on in which an entry under a wrong name gets a living claim unprepared |
| NodeLife.EntryLifeCycle | cmd/hami-kubelet-plugin/device_state.go:276-322 | At every step of every run an entry moves from absent to started, started to started or completed; it is removed only by its own Unprepare's last write or by startup after a reboot; a completed entry never changes |
| NodeLife.PrepareIdempotent | cmd/hami-kubelet-plugin/device_state.go:239-250 | After a successful Prepare, until the entry is removed, the claim is never prepared or rolled back again and every further success answers the same devices |
| NodeLife.CompletedStays | cmd/hami-kubelet-plugin/device_state.go:420-486 | A completed entry survives every run that neither forgets it nor wipes the file; a failed Unprepare keeps it |
| NodeLife.DevicesExclusive | cmd/hami-kubelet-plugin/device_state.go:1177-1230 | With HAMi-Core off no two completed claims ever share a non-admin device of this driver |
| NodeLife.BootIdCurrent | cmd/hami-kubelet-plugin/device_state.go:191-222 | Whatever file there was, from startup on the stored boot id equals the current one in every reachable state |
| NodeLife.DowngradeKeepsCompleted | cmd/hami-kubelet-plugin/checkpointv.go:58-86 | At any point of any run, V2 to V1 to V2 keeps exactly the completed entries, unchanged |
| NodeBasics.EntriesChange | cmd/hami-kubelet-plugin/device_state.go:276-322 | The checkpoint's three writes and startup's replacement are all that changes an entry |
| NodeBasics.BasicKept | cmd/hami-kubelet-plugin/driver.go:339-405 | Every event keeps what the lock holder learnt from its one read of the checkpoint: state of its entry, no overlap, spared names, results still to do |
| NodeHooks.CompletedKeepsItsDirectory | cmd/hami-kubelet-plugin/hami_core.go:434-452 | HAMi mode: a completed claim keeps its directory, with its own marker and nobody else's files, until its own Unprepare begins |
| NodeHooks.NoDirectoryIsLost | cmd/hami-kubelet-plugin/hami_core.go:521-573 | Within one boot every directory with a claim's marker belongs to a claim in the checkpoint |
| NodeHooks.TouchedByOwnUnprepareOnly | cmd/hami-kubelet-plugin/device_state.go:420-452 | A completed claim counts as being unprepared only once its own Unprepare has found it in the checkpoint |
| NodeHooks.PlacingSpares | cmd/hami-kubelet-plugin/hami_core.go:434-452 | Placing one claim's directory leaves every other claim's as it was |
| NodeHooks.ReleaseSpares | cmd/hami-kubelet-plugin/hami_core.go:541-573 | A release for one claim leaves directories that hold only another claim's files |
| DeviceStates.HistoryIsRun | cmd/hami-kubelet-plugin/driver.go:339-405 | What the methods record is a run of the state machine |
| DeviceStates.DeviceState.Prepare | cmd/hami-kubelet-plugin/device_state.go:224-330 | A completed claim is answered from the record and nothing changes; success completes the entry with one device for each result of this driver, as asked for, after the overlap check; failure leaves at most a started entry; other entries stay |
| DeviceStates.DeviceState.PrepareChecked | cmd/hami-kubelet-plugin/device_state.go:276-330 | Write-ahead entry, configs and hooks, devices, final entry, with failure anywhere |
| DeviceStates.DeviceState.SelectConfigs | cmd/hami-kubelet-plugin/device_state.go:655-773 | Config selection, for every order of the groups: success lists this driver's results, each once, with the configs applied |
| DeviceStates.DeviceState.CreateDevices | cmd/hami-kubelet-plugin/device_state.go:775-850 | One device for each result in order, a live MIG device exactly where a dynamic one was asked for |
| DeviceStates.DeviceState.PlaceHooks | cmd/hami-kubelet-plugin/hami_core.go:423-452 | One placement a config group, each a recorded step; success leads on to the devices, any failure ends the operation; checkpoint and hardware stay |
| DeviceStates.DeviceState.ValidateNoOverlap | cmd/hami-kubelet-plugin/device_state.go:1194-1230 | Accepts exactly the claims that share no non-admin device with a completed claim |
| DeviceStates.DeviceState.Unprepare | cmd/hami-kubelet-plugin/device_state.go:420-486 | Success removes exactly this entry, every recorded MIG device and every owned directory; failure keeps all entries |
| DeviceStates.DeviceState.UnprepareLocked | cmd/hami-kubelet-plugin/device_state.go:420-486 | The same from the lock on; an unknown claim is a success that touches nothing |
| DeviceStates.DeviceState.FreeDevices | cmd/hami-kubelet-plugin/device_state.go:441-452 | Directories in HAMi mode, MIG devices otherwise; the entry is not touched |
| DeviceStates.DeviceState.RollBack | cmd/hami-kubelet-plugin/device_state.go:528-569 | Either the whole list of names has been worked off in order or the operation has ended; nothing but hardware changes, by recorded deletions |
| DeviceStates.DeviceState.DeleteByName | cmd/hami-kubelet-plugin/device_state.go:1233-1260 | One job of the list: passed over, found missing, or deleted, each a recorded step allowed by the state machine, or the operation has ended |
| DeviceStates.DeviceState.DeleteDevices | cmd/hami-kubelet-plugin/device_state.go:853-893 | On success every recorded device is gone or its GPU is not in MIG mode |
| DeviceStates.DeviceState.DestroyUnknownMigDevices | cmd/hami-kubelet-plugin/device_state.go:382-418 | Keeps every device enumerated under a name that a completed claim refers to, in every detail |
| DeviceStates.DeviceState.TearDownGpu | cmd/hami-kubelet-plugin/nvlib.go:417-452 | Keeps every device enumerated under an expected name, in every detail; what it deletes it records as deletions allowed by the state machine |
| DeviceStates.DeviceState.InitCheckpoint | cmd/hami-kubelet-plugin/device_state.go:191-222 | Keeps, adopts or replaces the file as the stored boot id says, or fails without effect |
| DeviceStates.DeviceState.GetCheckpoint | cmd/hami-kubelet-plugin/device_state.go:584-600 | Returns the file's entries or an error |
| DeviceStates.DeviceState.Cleanup | cmd/hami-kubelet-plugin/cleanup.go:111-131 | Removes only started entries that carry a name, and changes no other |
| DeviceStates.DeviceState.IsStale | cmd/hami-kubelet-plugin/cleanup.go:150-187 | Stale only if the entry has a name and that name is missing or another UID's at the API server |
| CheckpointFile.CheckpointManager.UpdateCheckpoint | cmd/hami-kubelet-plugin/device_state.go:608-635 | Read, verify, bring up to date, mutate, marshal, write: what is then on disk reads back as the mutation applied to what was there, or nothing has changed |
| CheckpointFile.CheckpointManager.GetCheckpoint | cmd/hami-kubelet-plugin/device_state.go:584-600 | What is read, of either version, is what the disk means |
| CheckpointFile.CheckpointManager.CreateCheckpoint | cmd/hami-kubelet-plugin/device_state.go:571-582 | What is written reads back as the same claims and boot id under valid checksums |
| CheckpointStore.UpdatesSerialise | cmd/hami-kubelet-plugin/device_state.go:608-635 | For any interleaving of processes, failures and deaths, the file is the result of its mutations in lock order |
| CheckpointStore.ClaimsSurvive | cmd/hami-kubelet-plugin/device_state.go:202-218 | A claim is lost only to its own deletion or to a replacement, never to boot-id injection |
| CheckpointStore.BootIdStays | cmd/hami-kubelet-plugin/device_state.go:202-218 | A current boot id stays current while every process writes the current one |
| CheckpointStore.StartupAlone | cmd/hami-kubelet-plugin/device_state.go:191-222 | Claims survive a restart exactly when the stored boot id is empty or current, or there are none |
| CheckpointStore.ClaimSurvivesStartupsIff | cmd/hami-kubelet-plugin/device_state.go:198-218 | For all runs with any number of startups: the last put of a claim is still there exactly if no startup whose read told it to replace the file has written its replacement since |
| CheckpointStore.StartupRaceLosesClaim | cmd/hami-kubelet-plugin/device_state.go:198-218 | A run in which a claim put between startup's read and its replacement is lost |
| CheckpointStore.OperationEffect | cmd/hami-kubelet-plugin/device_state.go:608-635 | One undisturbed locked operation applies exactly its mutation and gives the lock back |
| Nvlib.DeletionConverges | cmd/hami-kubelet-plugin/nvlib.go:1020-1118 | Whatever an interrupted deletion left, a later successful one ends where an uninterrupted one does |
| Nvlib.RollbackFindsIff | cmd/hami-kubelet-plugin/nvlib.go:1241-1320 | After a deletion interrupted anywhere, the search by specification finds the device again exactly if it is still complete |
| Nvlib.RollbackBySpecDoesNotConverge | cmd/hami-kubelet-plugin/nvlib.go:1241-1320 | A device whose compute instance is gone is no longer found by specification |
| Nvlib.MatchUnique | cmd/hami-kubelet-plugin/mig.go:25-46 | On one node a specification denotes at most one GPU instance |
| Nvlib.DeviceLib.DeleteMigDevice | cmd/hami-kubelet-plugin/nvlib.go:1020-1118 | Success means the GPU instance is gone or MIG is off; no other GPU instance is touched; failure leaves one of the intermediate states |
| Nvlib.DeviceLib.CreateMigDevice | cmd/hami-kubelet-plugin/nvlib.go:890-1017 | Creates exactly the specified GPU and compute instance where nothing overlaps, or leaves one of the intermediate states |
| Nvlib.DeviceLib.FindMigDevBySpec | cmd/hami-kubelet-plugin/nvlib.go:1241-1320 | What is found matches; nothing found means that the GPU is on the node and nothing matches, unless the matching slot was unreadable; without a handle for the GPU it fails |
| Nvlib.DeviceLib.MaybeDisableMigMode | cmd/hami-kubelet-plugin/nvlib.go:1120-1154 | MIG mode goes off only without GPU instances, and never while the enumeration shows a device |
| HamiCore.HamiCoreManager.Unprepare | cmd/hami-kubelet-plugin/hami_core.go:521-573 | Success leaves no directory of the claim, old or new, and all others as they were; failure touches owned directories only |
| HamiCore.HamiCoreManager.PlaceMarker | cmd/hami-kubelet-plugin/hami_core.go:439-452 | Success leaves a fresh directory with the marker alone; every other directory stays |
| HamiCore.ReleaseIdempotent | cmd/hami-kubelet-plugin/hami_core.go:521-573 | After a success nothing is owned, and a repeated call changes nothing |
| HamiCore.RetryConvergesIff | cmd/hami-kubelet-plugin/hami_core.go:566-569 | A retry ends where an uninterrupted release does exactly if no owned directory survived without its ownership files |
| HamiCore.DirNameInjective | cmd/hami-kubelet-plugin/hami_core.go:434-437 | Pod UID and container name can be read off the directory name |
| HamiCore.OwnershipNamesInjective | cmd/hami-kubelet-plugin/hami_core.go:549-551 | Markers and cache files of distinct claims have distinct names |
| HamiCore.MarkerIsCacheFileIff | cmd/hami-kubelet-plugin/hami_core.go:549-551 | Exactly when one claim's marker is another's cache file |
| HamiCore.DottedUidsCollide | cmd/hami-kubelet-plugin/hami_core.go:549-551 | With dots in UIDs one claim's marker can be another's cache file |
| HamiLimits.LimitEnvs | cmd/hami-kubelet-plugin/hami_core.go:458-487 | One config group, for every iteration order: positions and devices of the group correspond one to one and each position carries its device's limits |
| HamiLimits.ClaimEnvs | cmd/hami-kubelet-plugin/device_state.go:736-771 | A whole claim: every config group gets its own variables, from the merge of the whole claim, and its index starts at 0 |
| HamiLimits.IndicesOnceIff | cmd/hami-kubelet-plugin/hami_core.go:459-487 | Of what ClaimEnvs returns: the SM limits, and the memory limits, of a whole claim carry the indices 0, 1, 2, ... once each exactly if at most one group has devices |
| HamiLimits.TwoGroupsRepeatIndex | cmd/hami-kubelet-plugin/hami_core.go:459-487 | Of what ClaimEnvs returns for two groups of one device each: index 0 twice, index 1 never |
| HamiLimits.EmittedIs | cmd/hami-kubelet-plugin/hami_core.go:462-485 | What a claim's variables allow on a device is the merged limit, once for every group that holds the device |
| HamiLimits.NoMemoryOvercommit | cmd/hami-kubelet-plugin/hami_core.go:458-487 | Claims of which at most one group each holds the GPU, with a surviving capacity, get limits that fit it if those capacities do |
| HamiLimits.EmittedWithinConsumedIff | cmd/hami-kubelet-plugin/hami_core.go:458-487 | Whatever a claim's results consume on a GPU, what its groups emit stays within it exactly if at most one group holds the GPU |
| HamiLimits.TwoGroupsEmitTwice | cmd/hami-kubelet-plugin/hami_core.go:458-487 | 1 MiB and 8 MiB consumed in two groups: 9 MiB consumed, 16 MiB emitted |
| HamiLimits.ClaimLimit | cmd/hami-kubelet-plugin/hami_core.go:287-297 | The capacity that survives the merge is at most what the results consume together |
| HamiLimits.OneMoreFitsIff | cmd/hami-kubelet-plugin/hami_core.go:466-485 | Exactly when one claim more fits beside what the other users of the GPU get: with a surviving capacity, a bound on it from the room left and the number of groups; without one, only on an unused GPU in a single group |
| HamiLimits.MissingCapacityOvercommits | cmd/hami-kubelet-plugin/hami_core.go:466-468 | Without a memory capacity two claims overcommit the GPU |
| HamiLimits.GetConsumableCapacityMap | cmd/hami-kubelet-plugin/hami_core.go:287-297 | The map holds, for each device and capacity, what the last result of that device says |
| PodLabel.EnsurePodMonitorLabel | cmd/hami-kubelet-plugin/hami_core.go:384-421 | For every interleaving with other writers: at most one write, only on the expected unlabelled Pod of this node, changing only the label; success means the live Pod carried this node's name during the call |
| Partitions.SliceCountersExact | cmd/hami-kubelet-plugin/partitions.go:263-293 | The memory-slice counters admit partitions exactly when their placements are pairwise disjoint |
| Partitions.DisjointAsHardware | cmd/hami-kubelet-plugin/nvlib.go:890-1017 | Sharing a slice is exactly what NVML refuses |
| Partitions.FullGpuExcludes | cmd/hami-kubelet-plugin/partitions.go:85-101 | Beside an allocated full GPU no partition of size 1 or more and no second full GPU fits |
| Partitions.AnnouncedFitsAloneIff | cmd/hami-kubelet-plugin/partitions.go:173-192 | An announced partition fits the counters alone exactly when its placement lies within the slices counted; the full GPU always fits |
| Partitions.InspectMigProfiles | cmd/hami-kubelet-plugin/nvlib.go:1159-1234 | The walk returns every partition of every supported profile and maxima that dominate them all and are attained |
| Partitions.SetMax | cmd/hami-kubelet-plugin/nvlib.go:1325-1329 | One key is raised to the maximum, the others stay |
| Partitions.PartConsumesCounters | cmd/hami-kubelet-plugin/partitions.go:263-268 | A partition consumes its capacities and one unit of each of its slices |
| Partitions.PartSharedCounters | cmd/hami-kubelet-plugin/partitions.go:85-90 | The counter set holds the maxima and one unit of each slice |
| Partitions.CapacitiesToCounters | cmd/hami-kubelet-plugin/partitions.go:233-240 | One counter a capacity, for every iteration order |
| Partitions.AddCountersForMemSlices | cmd/hami-kubelet-plugin/partitions.go:288-293 | Adds one counter of value 1 for each slice of the placement |
| CounterNames.CounterNameInjective | cmd/hami-kubelet-plugin/mig.go:184-195 | Distinct capacities and slices have distinct counter names after the camel-case conversion |
| DeviceConfigs.Select | cmd/hami-kubelet-plugin/device_state.go:702-730 | The backward search finds what the precedence rule names: the last applicable config, an error exactly if that one is named and incompatible |
| DeviceConfigs.SelectionUnique | cmd/hami-kubelet-plugin/device_state.go:702-730 | The precedence rule has at most one outcome |
| DeviceConfigs.SomeConfigApplies | cmd/hami-kubelet-plugin/device_state.go:668-683 | With the defaults in front, GPU, HAMi and MIG devices always find a config |
| DeviceConfigs.GetOpaqueDeviceConfigs | cmd/hami-kubelet-plugin/device_state.go:1095-1148 | Class configs before claim configs, those of this driver only; an undecodable or foreign one is an error |
| DeviceConfigs.GroupByConfig | cmd/hami-kubelet-plugin/device_state.go:685-731 | Fails exactly if a result of this driver is blocked; otherwise each is in the one group of its config |
| DeviceConfigs.PickedIsOwn | cmd/hami-kubelet-plugin/device_state.go:685-731 | Results picked once each, this driver's all of them, are this driver's results in some order |
| DeviceConfigs.PreparationConservesResults | cmd/hami-kubelet-plugin/device_state.go:685-850 | The prepared devices are this driver's results, each once, with its request, pool and device |
| DeviceConfigs.PrepareDevices | cmd/hami-kubelet-plugin/device_state.go:648-851 | For every outcome and order, success conserves the results and no result was blocked |
| DeviceConfigs.CdiIdsResolve | cmd/hami-kubelet-plugin/cdi.go:206-294 | Every returned CDI id names an entry of the claim's spec file |
| DeviceConfigs.CreateClaimSpecFile | cmd/hami-kubelet-plugin/cdi.go:195-316 | The spec has one entry a device, named after claim and device, in order |
| MigNames.RoundTrip | cmd/hami-kubelet-plugin/mig.go:104-139 | Parsing the printed name returns the tuple exactly when the sanitised profile is not empty |
| MigNames.ParsesIff | cmd/hami-kubelet-plugin/mig.go:111-139 | A name parses to a tuple exactly when some split matches the pattern with those numbers; the greedy group is no ambiguity |
| MigNames.CanonicalNameInjective | cmd/hami-kubelet-plugin/mig.go:104-107 | Distinct tuples have distinct names |
| MigNames.OtherNamesDoNotParse | cmd/hami-kubelet-plugin/deviceinfo.go:113-150 | No full GPU, passthrough or HAMi GPU name parses as MIG |
| MigNames.DistinctNamesOneTuple | cmd/hami-kubelet-plugin/mig.go:111-139 | Different names can parse to one tuple, so names must be the driver's own |
| MigNames.ProfileLabelIsHostLabelIff | cmd/hami-kubelet-plugin/mig.go:166-182 | The sanitised profile is an RFC 1123 label exactly when something is left and the cut does not fall after a hyphen |
| Checkpoint.UpgradeThenDowngrade | cmd/hami-kubelet-plugin/checkpointv.go:58-86 | V1 to V2 to V1 is the identity |
| Checkpoint.DowngradeThenUpgradeIff | cmd/hami-kubelet-plugin/checkpointv.go:58-86 | V2 to V1 to V2 keeps exactly the completed entries unchanged precisely when these carry no name |
| Checkpoint.ToV1 | cmd/hami-kubelet-plugin/checkpointv.go:72-86 | The completed entries without their state |
| Checkpoint.ToV2 | cmd/hami-kubelet-plugin/checkpointv.go:58-70 | Every entry as a completed one |
| Checkpoint.Checkpoint.MarshalCheckpoint | cmd/hami-kubelet-plugin/checkpoint.go:37-47 | What is written passes both checksum checks for any deterministic encoder and holds both versions of the same claims; CheckpointFile states it of what is read back |
| Checkpoint.Checkpoint.VerifyChecksum | cmd/hami-kubelet-plugin/checkpoint.go:79-122 | Decides both checks and restores every field it blanks |
| Checkpoint.Checkpoint.SetChecksumV1 | cmd/hami-kubelet-plugin/checkpoint.go:49-63 | Sets a checksum that does not depend on version 2, and restores version 2 |
| Claims.NonAdminDevices | cmd/hami-kubelet-plugin/prepared.go:269-285 | The non-admin devices of this driver among the results |

## Left out

- NodeAccount.NoDeviceIsLost: speaks of complete devices; what is lost without a compute instance is in `NodeGaps`.
- NodeHooks.NoDirectoryIsLost: speaks of one boot; the code leaves directories of earlier boots where they are.
- NodePlacing.PrepareCanCompleteIff: dynamic MIG only; what else a Prepare needs (a readable checkpoint, applicable configs) is free to fail.
- CheckpointFile.CheckpointManager.UpdateCheckpoint: the file lock around it is in `CheckpointStore`; an error means that nothing was written, a death right after a write is in the state machine; encoding is any function whose values can be read back.
- DeviceStates.DeviceState.Elsewhere: covers API-server changes and other cleanup threads; a workload's cache file and a reboot in the middle of an operation are in the state machine only.
- Nvlib.DeviceLib: NVML itself, MIG UUIDs, CGo, PCI discovery and nvidia-smi; only GPU instances, compute instances and the mode flag, every call free to fail.
- Cleanup's one-slot queue, ticker and shutdown (cleanup.go:215-257): at most one pass waits; `Node` allows any number of concurrent passes.
- CDI spec serialisation, root transforms and the spec cache; only the device names.
- Passthrough and VFIO sibling handling, MPS daemons, time slicing, health monitoring: external processes, or an intent that the code does not settle.
- Failed deletion of a CDI spec file, which the code only logs.
- A nil allocation in the claim: the code dereferences it before its nil check.
- Finding the pod and container of a claim (hami_core.go:332-379): any outcome.
- Limit indices as nvidia-smi numbers them: the code disclaims it (hami_core.go:461).
- Publishing resource slices, CLI flags, logging, charts and scripts.
