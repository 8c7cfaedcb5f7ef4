# HCU DRA driver: the claim lifecycle, verified

The driver hands physical HCUs and carved vHCUs to Kubernetes resource claims. While it prepares, re-prepares, unprepares and
sweeps claims, refreshes its card list and restarts after crashes, it has to keep five stores in agreement:

- the in-memory ledger of prepared claims (`Types.Ledger`),
- the state file, replaced by writing a temporary file and renaming it (`Persistence`),
- the vHCUs that exist in DCGM (`Dcgm.Host`),
- the CDI spec files under the CDI root (`Cdi`),
- the dynamic marks under `/etc/vdev/dynamic` (`Marks`).

There is no transaction over them. Every DCGM call, file write, removal and API call may fail, two threads share the lock only
in part, and map iteration has no order. This project models that logic and proves what it still guarantees.

## How the model is laid out

**Imperative layer.** `storage.dfy` and `dcgm.dfy` are the environment: a directory and a DCGM host whose calls may fail at any
time. A failed create may leave a vHCU behind, a failed destroy may or may not have destroyed, a failed write may leave a torn
file. Ghost fields record what failed calls have left (`Directory.residue`, `Host.leaked`), count failed calls (`failures`), and
count those of them that may have left something behind (`lapses`: torn writes, refused removals, failed destroys, failed
creates that left a vHCU). So contracts say what holds whatever fails, and what holds exactly as long as destroys and removals
succeed, even if other calls fail. On top of it are the driver's own methods, loop by loop: `marks.dfy`, `cdi.dfy`,
`persistence.dfy`, `enumeration.dfy`, `device_state.dfy` (class `DeviceState`) and `driver.dfy` (class `Driver`), the latter over
the transaction relations of `claims.dfy` and, for the two kubelet callbacks, those of `batches.dfy`. Maps are visited in an
arbitrary order. `recovery.dfy` states what users see across calls.

**Step layer.** `lifecycle.dfy` is a transition system with a program counter for the kubelet thread and one for the main
thread, at the granularity of the driver's lock, plus API server changes and crashes. `lifecycle_inv.dfy` and
`lifecycle_disk.dfy` prove its invariants step by step, `lifecycle_runs.dfy` draws the consequences for all runs, and
`lifecycle_counterexamples.dfy` gives three runs on which the unguarded claims fail. Two files tie the layers together:
`simulation.dfy` builds, for every effect that a Prepare, an Unprepare, a cleanup, a refresh or a restart may have on ledger, host
and state file, a run of the step layer that has it, made of that operation's own steps; `node_runs.dfy` calls the driver's own
methods and shows that their contracts allow no other effect, so that every sequence of calls is a run
(`NodeRuns.ServeAll`).

**Capacity.** `capacity.dfy` has the advertised request policies, the scheduler's admission rule for consumable capacity
(`CapacityRequestPolicy` of `resource.k8s.io/v1`, KEP-5075) and the driver's carving arithmetic, with float64 rounding and
truncating division written out. `admission.dfy` relates it to the ledger: every record stands for an admitted allocation of
its own, which Prepare keeps, and which every removal keeps while it frees the allocations of the removed claims. From that
follows that the recorded vHCUs fit on their cards, that all marks of the ledger differ, and that no Prepare writes or removes a
mark that anybody has.

## What turned out to need a guard

- The ledger invariant does not hold on all runs. A refresh that overlaps a Prepare destroys the vHCU that Prepare has created
  and not recorded yet; the index is reused, and two claims end up on one vHCU (`LifecycleCounterexamples.HitSharesAVhcu`).
  Recorded vHCUs exist and are recorded once at every state of a run exactly when no Prepare that a refresh has hit comes to be
  recorded; a Prepare that is hit and fails does no harm (`LifecycleRuns.LedgerInvariant`).
- The orphan cleanup destroys before it saves. A crash in between brings a dead claim back from the state file; a new claim may
  get its index, and the next sweep destroys the live claim's vHCU
  (`LifecycleCounterexamples.CrashInSweepKillsALiveClaim`).
- A completed orphan cleanup does not always re-establish crash safety. A failed Prepare destroys its vHCUs without the lock
  before it takes its entry back; a sweep for another claim that saves in that gap writes the entry to the state file, and after
  a crash a live claim is recorded on a vHCU that is gone (`LifecycleCounterexamples.SweepSavesAFailedPrepare`). The state after
  that save is safe against crashes at any later point, until a sweep takes the next orphan, exactly unless a failed Prepare has
  its entry still in the ledger with vHCUs that are gone or still to be destroyed; a failed Prepare of whole cards does no harm,
  and a crash right after the save does harm exactly if some of those vHCUs are gone already
  (`LifecycleRuns.SweepSaveCloses`).
- While saves succeed, a run with crashes keeps the ledger invariant exactly when no hit Prepare is recorded and no crash finds
  an exposed claim without its vHCUs (`LifecycleRuns.CrashSafety`). As long as no sweep finds an orphan, Prepare, Unprepare,
  cleanup and refresh may crash anywhere (`LifecycleRuns.CrashAnywhereWithoutOrphans`).
- A request for less than one unit (zero, or a negative quantity) of cores or memory is admitted for nothing but carved as one
  unit. Requests that are for at least one unit of whatever they name fit if admitted (`Capacity.CarveUpConserves`); on every
  card, each request for less than one unit can be admitted beside another so that their vHCUs do not fit, exactly if it
  leaves a slice (`Capacity.BelowOneOvercommits`). A request is carved within what it consumes exactly when it asks for at least
  one of whatever it names (`Capacity.CarvedWithinConsumed`).
- A missing mark is rebuilt from the fields of its record. It is there after a successful sync exactly if some record of it
  spells it with its fields, unless a record of another mark spells it (`Marks.SyncDynamicMarkFiles`); a mark that its record
  does not spell, among records that spell theirs, stays missing (`Marks.UnspelledMarkStaysMissing`). Attaching, saving and loading keep marks spelled.
- After a restart the vHCU specs and marks are synchronized only if the restored ledger has entries (`Node.NewDeviceState`).
- An empty device list is stored as an entry but counts as not prepared (`Claims.Known`), so "all or nothing" is about
  the non-empty entries.

Part of the documentation calls the driver `hcu-dra.hygon.io`; the code registers `dra.hygon.com`, and the model follows the code.

## Model

| member | source | states |
|---|---|---|
| DriverPlugin.Driver.NodePrepareResource | internal/driver/driver_prepare.go:16-41 | Idempotent: a claim with recorded devices gets those devices again, ledger, host and state file unchanged, every vHCU's spec present and the marks mirrored. Otherwise all or nothing. Success: one record per own result, each on a published card and of the size its request calls for, with new distinct vHCUs, everything mirrored. Failure: all non-empty entries stay; no vHCU is new if no destroy fails and no failed create leaves one; a record that was made is taken back, and specs, marks and state file agree with the ledger again unless a call fails after that. It fails only if a call fails, the claim has no allocation, or a result names an unknown card or request. Whatever fails, recorded marks stay but for names that are this Prepare's to give, specs of recorded vHCUs stay unless rewritten for the same device or their write fails, the state file is as it was or holds the ledger as a whole, and existing vHCUs keep their sizes. The answer has, for each own result in order, its request, pool and card and one CDI device ID, which is in a file under the CDI root: for vHCUs always, for whole cards if the base spec lists the allocatable cards; and for recorded claims the same from the records. A record names the pod and container that the API server gives, or else the claim UID and "dra". After a record was made, the state file is stale only if the save itself has failed. |
| DriverPlugin.Driver.PrepareFresh | internal/driver/driver_prepare.go:27-40 | The same for a claim without recorded devices, telling a failure before the ledger entry, which leaves specs and state file untouched, from one after it. |
| DriverPlugin.Driver.Finish | internal/driver/driver_prepare.go:36-40 | The devices made so far are recorded, mirrored and returned, the state file replaced or as it was; or the record is taken back and nothing is left of them but what lapsed calls leave. |
| DriverPlugin.Driver.FinalizePreparedClaim | internal/driver/driver_prepare.go:207-233 | The claim is recorded and mirrored; or the record is taken back, exactly its vHCUs are destroyed, none is left if no destroy fails, other recorded marks stay, and files and state file agree again unless a call fails after the first syncs. Whatever fails, specs of vHCUs recorded before stay and the state file is as it was or holds the ledger. |
| DriverPlugin.Driver.PrepareExistingClaim | internal/driver/driver_prepare.go:43-77 | Answers exactly the claims with a non-empty entry, with the recorded devices in order, and touches nothing otherwise; success means specs of all recorded vHCUs exist and marks mirror the ledger; failure means a call failed; the state file is never written. Specs are written only if one is missing. |
| DriverPlugin.Driver.RepairArtifacts | internal/driver/driver_prepare.go:61-69 | The repair: specs untouched if none is missing, an exact mirror of the ledger otherwise; marks mirrored; no save is tried. |
| DriverPlugin.Driver.AnswerFor | internal/driver/driver_prepare.go:51-59 | One answer for each record, in order, with its request, pool, card and CDI device ID. |
| DriverPlugin.Driver.PrepareAllocatedDevices | internal/driver/driver_prepare.go:79-120 | For any number of results: all own results are made in order; or everything made so far is rolled back, no vHCU and no mark is new if no destroy, removal or torn write fails, and only marks that are this Prepare's to give have been touched. |
| DriverPlugin.Driver.AllocateNext | internal/driver/driver_prepare.go:91-116 | One more device on top of those made before, or all of them rolled back. |
| DriverPlugin.Driver.AbandonAt | internal/driver/driver_prepare.go:110-113 | The rollback at any result restores host and marks up to what failed calls have left. |
| DriverPlugin.Driver.PrepareOne | internal/driver/driver_prepare.go:91-113 | One result: whole card or vHCU as the request says; or nothing new but what failed destroys and torn writes leave, under a name that is this result's to give; a preparable result fails only if a call does. |
| DriverPlugin.Driver.PrepareWholeCardDevice | internal/driver/driver_prepare.go:122-151 | Success: the record names card, request, pool and the card's CDI device, and its mark, the one its fields spell, is there. Failure: at most that mark is touched, and only by a torn write. |
| DriverPlugin.Driver.PrepareVHCUDevice | internal/driver/driver_prepare.go:153-205 | Success: exactly one new vHCU of the requested size on that card, recorded under the name made from its index, with its mark. Failure: no vHCU is new unless a destroy failed or a failed create left one, and at most a mark of a new vHCU is touched. |
| DriverPlugin.Driver.CreateVHCU | internal/driver/driver_prepare.go:160-175 | A new vHCU of that size on that card whose address is known, or no new vHCU unless a destroy failed or a failed create left one. |
| DriverPlugin.Driver.Record | internal/driver/driver_prepare.go:207-222 | The ledger gets the entry; success means files mirror the ledger; a failed save is not an error and leaves the old state file, as do failed syncs. |
| DriverPlugin.Driver.TakeBack | internal/driver/driver_prepare.go:224-231 | The entry goes, exactly its vHCUs are destroyed and none is left if no destroy fails, recorded marks and specs of other claims stay whatever fails, and the state file is as it was or holds the ledger; without failures files and state file agree with the ledger. The state file is stale only if the save itself has failed, marks are mirrored unless a call on marks fails, and of the claim's marks only those are left that could not be removed or that another record calls for. |
| Claims.RollbackRestores | internal/driver/driver_prepare.go:110-113 | Making devices, a failing one and the rollback cancel out, up to what lapsed calls have left. |
| Claims.MadeAsAsked | internal/driver/driver.go:126-153 | A record is what its request asks for: the whole card exactly if it names neither cores nor memory, otherwise a vHCU with just the cores named or all of the card's, and just the memory named or all of the card's in whole MiB. |
| Claims.MadeResolves | internal/driver/driver_prepare.go:143-148 | The answer to a successful Prepare names the results in order, and its device IDs are offered by files under the CDI root. |
| Claims.VhcusResolve | internal/driver/driver_prepare.go:51-59 | An answer from recorded vHCUs resolves once the specs mirror the ledger. |
| Claims.AbandonedLeavesNoTrace | internal/driver/driver_prepare.go:86-117 | All or nothing: without lapsed calls, and with marks nobody had before, an abandoned Prepare leaves marks and host exactly as they were. |
| Claims.MadeAreOurs | internal/driver/vdev_dynamic.go:160-178 | Every mark written for a claim is spelled by a record for one of its results, of a whole card or of a vHCU that was not there before. |
| Claims.TriedAreOurs | internal/driver/driver_prepare.go:138-141 | So is a mark whose write failed. |
| Claims.HostIsBack | internal/driver/driver.go:94-104 | Creating vHCUs and destroying them leaves the host as it was, but for leaks, and without any if no destroy fails. |
| Claims.SaneAfterPrepare | internal/driver/driver_prepare.go:207-232 | Prepare, successful or not, keeps the ledger invariant: recorded vHCUs exist, once each, under their own names. |
| Claims.SitsAfterPrepare | internal/driver/driver_prepare.go:160-189 | Prepare keeps every recorded vHCU on the card its record names. |
| Claims.MarksAreBack | internal/driver/driver_prepare.go:224-231 | Marks that are recorded and not of this claim survive its record and its removal. |
| Claims.MarksSurviveRecord | internal/driver/driver_prepare.go:207-213 | They survive its record. |
| DriverPlugin.AttachDynamicMark | internal/driver/vdev_dynamic.go:160-178 | The mark is named after pod, container, card and vHCU (claim UID and "dra" if no pod is known) and can be rebuilt from the record; only that file is touched, and a failure leaves it as it was unless the write was torn. |
| DriverPlugin.Driver.RollbackCreatedVDevices | internal/driver/driver.go:94-104 | Removes only those marks and destroys only those vHCUs; none of the marks is left if no removal fails, none of the vHCUs if no destroy fails. |
| DriverPlugin.Driver.NodeUnprepareResource | internal/driver/driver.go:62-92 | The claim loses its entry and exactly its vHCUs, all of them if no destroy fails; whatever fails, recorded marks that are neither its own nor led by its UID stay, so do the specs of the others, the state file is as it was or holds the ledger, and the ledger invariant is kept; without file failures specs, marks and state file agree, and no mark leads with its UID. Specs and state file agree with the ledger unless a call under the CDI root fails, marks unless a call on marks fails, each whatever becomes of the others; the state file is stale only if the save itself has failed; of the claim's marks only those are left that could not be removed or that another record calls for. |
| DriverPlugin.Driver.Forget | internal/driver/driver.go:63-76 | The lock section: entry removed, other claims' recorded marks and specs stay whatever fails, the state file is as it was or holds the ledger, and without failures files and state file agree with the rest. The state file is stale only if the save itself has failed, whatever becomes of the syncs. |
| DriverPlugin.Driver.Release | internal/driver/driver.go:78-90 | Outside the lock: exactly the captured vHCUs are destroyed, only files led by the UID are removed, and a mirrored ledger without marks led by that UID stays mirrored. It comes after the entry is gone and its removal saved, unless the save has failed. |
| Claims.SparesAfterSweep | internal/driver/driver.go:65-80 | Lock section and UID sweep together spare the recorded marks of the other claims. |
| Claims.MirrorSurvivesSweep | internal/driver/vdev_dynamic.go:68-89 | The sweep for one claim UID removes no recorded mark that leads with another underscore-free UID. |
| DriverPlugin.Driver.PrepareResourceClaims | internal/driver/driver.go:31-39 | A batch, repeated claims included: only its claims' entries can change, recorded devices stay, every success reports what the ledger holds in the end, every new entry is what the results of its claim ask for, vHCUs only come and each new one is recorded unless a lapsed call has left it. Without failed calls only claims without allocation or with a result that names an unknown card or request are refused. Whatever fails, recorded marks stay but for names that are the batch's to give, recorded specs stay, and the state file is as it was or holds a ledger that differs in the batch's entries only. Each claim is prepared whatever becomes of the others, and a claim that comes again is answered again. |
| DriverPlugin.Driver.PrepareClaim | internal/driver/driver.go:35-37 | The same for one claim. |
| Batches.RoundsAreBatched | internal/driver/driver.go:35-37 | What claims prepared one after the other may do adds up to what the batch may do. |
| Batches.RefusalsCost | internal/driver/driver.go:35-37 | A failed call costs at most one claim of the batch its devices: claims that could be prepared are refused at most as often as calls fail. |
| DriverPlugin.Driver.UnprepareResourceClaims | internal/driver/driver.go:41-52 | A batch: exactly its claims lose their entries and vHCUs, none of these is left if no destroy fails, and none reports an error. Whatever fails, recorded marks that are neither theirs nor led by their UIDs stay, so do the specs of the others, and the state file is as it was or has lost entries of the batch only; without failures state file and specs agree with the ledger. The state file is stale only if the last save has failed, whatever becomes of the syncs. |
| Batches.WithdrawnMore | internal/driver/driver.go:48-50 | What Unpreparing some claims and then one more may do to host and files is what the batch of all may do. |
| Claims.ReleasedMore | internal/driver/driver.go:48-50 | Unpreparing one claim after others destroys together just what all of them had. |
| Node.DestroyAll | internal/driver/driver.go:82-90 | Destroys exactly the vHCUs of the list; none of them is left if no destroy fails. |
| Node.SaneAfterRemoval | internal/driver/device_state.go:121-136 | Removing claims and destroying what nobody else has keeps the ledger invariant. |
| Node.DeviceState.SyncThenSave | internal/driver/driver_prepare.go:210-218 | Success means specs and marks mirror the ledger, and a save has been tried: the state file holds the ledger, or the temporary file could not be written or holds it. It fails only before it has tried to save, so a failed save is no failure. Other files, recorded marks and recorded specs stay. |
| Node.DeviceState.SyncAndSave | internal/driver/driver.go:67-75 | Each of the three runs whatever becomes of the others: the state file holds the ledger, or the temporary file could not be written or holds it; specs and state file agree with the ledger unless a call under the CDI root fails, marks unless a call on marks fails. Other files, recorded marks and recorded specs stay in any case. |
| Node.DeviceState.Save | internal/driver/state_persistence.go:25-41 | The state file holds the ledger, or is as it was and the temporary file could not be written or holds it; the vHCU specs beside it still mirror the ledger. |
| Node.MirrorSurvivesSave | internal/driver/state_persistence.go:25-41 | Saving does not disturb the vHCU specs beside the state file. |
| Node.DeviceState.Orphans | internal/driver/device_state.go:107-118 | Exactly the recorded claims that are not listed, each once. |
| Node.DeviceState.SweepClaim | internal/driver/device_state.go:121-136 | One orphan loses its entry, exactly its vHCUs, all of them if no destroy fails, and only its marks. A mark of it that is left could not be removed. |
| Node.DeviceState.SweepClaims | internal/driver/device_state.go:121-136 | The orphans lose their entries, exactly their vHCUs, and only their marks. |
| Node.DeviceState.ReleaseOrphans | internal/driver/device_state.go:107-136 | The ledger becomes its restriction to the listed claims; only the orphans' vHCUs and marks go; the ledger invariant is kept. |
| Node.DeviceState.CleanupOrphanPreparedClaims | internal/driver/device_state.go:93-150 | Orphan cleanup is exact: the ledger becomes its restriction to the listed claims, exactly the orphans' vHCUs are destroyed, recorded marks and specs of the others stay whatever fails, the state file is as it was or holds the ledger, and files and state file agree unless a sync or the save fails; a failed List or no orphan changes nothing. Specs, marks and state file are each brought in line whatever becomes of the others, and of the orphans' marks only those are left that could not be removed or that another record calls for. |
| Node.DeviceState.CreateStandardCDISpecFile | internal/driver/cdi_spec.go:297-326 | The base spec lists every allocatable card once and nothing else, for any visiting order; only it and the legacy files are touched. |
| Node.WriteBaseSpec | internal/driver/cdi_spec.go:319-325 | The base spec holds that content and the legacy files are gone unless their removal failed; no other file is touched. |
| Node.DeviceState.PhysicalDevices | internal/driver/cdi_spec.go:302-310 | One entry per card, under the card's CDI name, for any visiting order. |
| Node.DeviceState.RefreshAllocatable | internal/driver/device_enum.go:121-138 | Leaks drain: no recorded vHCU goes, none comes, once the listing has succeeded an unrecorded vHCU stays only if its own destroy fails, and without DCGM failures just the recorded ones are left. Then, if vHCUs sit on the cards their records name, exactly the reported cards with an address are published. If moreover the cards have different addresses of one shape, exactly one device is published for each, with that card's index, address, UUID and size. It fails only if a DCGM call fails or the base spec cannot be written. |
| Node.Discover | internal/driver/device_enum.go:129-135 | Reconcile first, then enumerate: what is published reflects the host after the reconcile, which is drained even if the enumeration fails. Then exactly one device is published for each card. |
| Node.Restore | internal/driver/device_state.go:32-65 | A restart starts from the ledger the state file stands for and removes no vHCU of it. |
| Node.DeviceState.SyncRestored | internal/driver/device_state.go:74-79 | Specs and marks mirror the restored ledger without failures; base spec and state file, and recorded marks and specs, stay in any case. Each of the two runs whatever becomes of the other. |
| Node.DeviceState.WriteRestored | internal/driver/device_state.go:67-80 | The base spec lists the cards; marks and vHCU specs are left alone if the ledger is empty; the state file, recorded marks and recorded specs stay in any case. It fails only over the base spec. |
| Node.NewDeviceState | internal/driver/device_state.go:17-84 | Recovery: the saved ledger is back, the state file is not written, once the listing has succeeded an unrecorded vHCU stays only if its own destroy fails, without DCGM failures exactly the vHCUs of that ledger that existed are left, and the ledger invariant holds if it held of what was saved. Specs and marks are each restored whatever becomes of the other, and their failure is no failure of the start. |
| Types.TrackedApart | internal/driver/device_state.go:121-136 | With vHCUs recorded once, the claims that go and the claims that stay have none in common, so only the orphans' vHCUs are hit. |
| Enumeration.PreparedVDvIndSet | internal/driver/device_enum.go:15-26 | The vHCUs of all claims, whatever the visiting order. |
| Enumeration.PreparedParentDeviceNames | internal/driver/device_enum.go:31-42 | The cards named by any record, whatever the visiting order. |
| Enumeration.ReconcileStaleHostVDevices | internal/driver/device_enum.go:46-70 | Never removes a recorded vHCU and adds none; once the listing has succeeded, an unrecorded vHCU stays only if its own destroy fails, whatever else fails, and if the listing fails nothing changes; without failures just the recorded ones that were there are left. |
| Enumeration.BuildAllocatable | internal/driver/device_enum.go:72-118 | Publishes the cards of the report that are publishable, as `Published` defines them. |
| Enumeration.PublishedIff | internal/driver/device_enum.go:75-116 | A name is published exactly when some card with an address has it and has no vHCU or is named by the ledger; what is published is such a card. |
| Enumeration.NoCardStarves | internal/driver/device_enum.go:72-118 | Once only recorded vHCUs are left, each on the card its record names, exactly the reported cards with an address are published. |
| Enumeration.EveryCardIsPublished | internal/driver/device_enum.go:72-118 | Then exactly one device is published for each reported card, with its index, address, UUID and size, for cards with different addresses of one shape. |
| Allocatable.CanonicalNameInjective | internal/driver/allocatable_device.go:82-86 | Different PCI addresses of one shape give different device names. |
| Allocatable.NameOfAddress | internal/driver/allocatable_device.go:82-86 | Domain, bus, device and function of an address are all in the name, in order, joined by dashes. |
| Allocatable.CdiNameOfCard | internal/driver/allocatable_device.go:93-99 | A card with a UUID is known to CDI by it, wherever it sits, and one without by its device name. |
| Allocatable.CdiNamesDiffer | internal/driver/allocatable_device.go:93-99 | Different cards have different CDI names. |
| Allocatable.BlanksDoNotMatter | internal/driver/allocatable_device.go:88-91 | Blanks around a UUID do not change the CDI name. |
| Allocatable.SanitizedIsSafe | internal/driver/allocatable_device.go:88-91 | A sanitized name has no colon, slash or blank; a dash stands for the first two, an underscore for the third, and all else stays. |
| Enumeration.WithheldCard | internal/driver/device_enum.go:77-84 | A card with vHCUs is withheld exactly when no record names it. |
| Enumeration.PublishedNamesCard | internal/driver/device_enum.go:110-115 | What is published under a name is the card of that name, when no two cards share an index. |
| Enumeration.NamedCardIsPublished | internal/driver/device_enum.go:28-42 | A reported card that the ledger names is published whatever vHCUs it has. |
| Cdi.ActivePreparedVDevices | internal/driver/cdi_spec.go:340-355 | Every CDI name of a recorded vHCU stands for some record of that name. |
| Cdi.ActiveIsUnique | internal/driver/cdi_spec.go:340-355 | With vHCUs recorded once, every map iteration order yields the same map. |
| Cdi.ActiveIsBijective | internal/driver/cdi_spec.go:340-355 | That map is a bijection between the names of the tracked vHCUs and their records. |
| Cdi.OneRecordPerVhcu | internal/driver/device_types.go:40-62 | Two records of one vHCU are the same record. |
| Cdi.VDeviceCDISpecFilesNeedRepair | internal/driver/cdi_spec.go:357-364 | True exactly when the spec file of some recorded vHCU is missing. |
| Cdi.RemoveLegacyCDIJSONFiles | internal/driver/cdi_spec.go:376-386 | Removes only the two legacy files; what is left of them could not be removed. |
| Cdi.WriteVDeviceSpecs | internal/driver/cdi_spec.go:398-413 | Every active vHCU gets a spec with one device of its name; no other file is touched; also when it stops halfway a spec that was there is as it was, holds its device, or is the one whose write failed. |
| Cdi.RemoveIfStale | internal/driver/cdi_spec.go:421-443 | One file of the directory: removed if it is a stale spec or prefixed legacy JSON, untouched otherwise. |
| Cdi.RemoveStaleSpecs | internal/driver/cdi_spec.go:415-443 | No stale spec is left, and specs of active vHCUs and foreign files are untouched. |
| Cdi.RemoveStale | internal/driver/cdi_spec.go:415-446 | The same with the legacy files. |
| Cdi.SyncVDeviceCDISpecFiles | internal/driver/cdi_spec.go:390-447 | From any prior contents, success makes the vHCU specs an exact mirror of the ledger and legacy JSON gone unless its removal failed; every other file is as it was whether or not it succeeds, and so is the spec of a recorded vHCU unless it is rewritten for the same device or its write fails. It fails only if the directory cannot be made or read or a spec cannot be written or removed; legacy files that cannot be removed do not count. |
| Marks.CreateDynamicMarkFile | internal/driver/vdev_dynamic.go:37-48 | The named mark exists afterwards; no other file is touched, also when it fails. |
| Marks.RemovePreparedDynamicMarks | internal/driver/vdev_dynamic.go:151-157 | Removes only the marks of the list; what is left of them could not be removed. |
| Marks.RemoveDynamicMarksByClaimUID | internal/driver/vdev_dynamic.go:68-89 | Removes only files led by the claim's UID, all of them without failures; an empty UID removes nothing. |
| Marks.EnsureMark | internal/driver/vdev_dynamic.go:106-125 | Nothing goes; only the name the record spells may be new, or rewritten if it is not the record's mark; success means the mark was there or the name the record spells is there. |
| Marks.CreateMissingMarks | internal/driver/vdev_dynamic.go:105-126 | All recorded marks that their records spell exist, nothing goes, only names some record spells are new, and only contested marks are rewritten, also when it stops halfway. |
| Marks.RemoveStaleMarks | internal/driver/vdev_dynamic.go:128-147 | Every file left is recorded; recorded files and directories are untouched. |
| Marks.SyncDynamicMarkFiles | internal/driver/vdev_dynamic.go:100-149 | From any prior contents, success leaves no file but recorded marks; a recorded mark that was there never goes, also when it fails; an uncontested one that was missing is there afterwards exactly if some record of it spells it. |
| Marks.UnspelledMarkStaysMissing | internal/driver/vdev_dynamic.go:113-122 | For any ledger with a record that does not spell its mark, the others spelling theirs: the mark is recorded, spelt by none and contested by none, so by the contract of the sync no successful sync restores it. |
| Marks.MarksOkIsSpelt | internal/driver/vdev_dynamic.go:160-178 | If every record spells its mark, no mark is contested and all are restored. |
| Marks.KeepsAfterRemoval | internal/driver/driver.go:65-70 | Removing some marks and then syncing keeps all other recorded marks. |
| Names.MarkNameTail | internal/driver/vdev_dynamic.go:26-28 | A mark determines card and vHCU index whatever pod and container are called. |
| Names.MarkNameInjective | internal/driver/vdev_dynamic.go:26-28 | A mark determines pod, container, card and vHCU, for underscore-free pod UIDs, arbitrary container names and all integers, -1 included. |
| Names.MarkNameParts | internal/driver/vdev_dynamic.go:26-28 | A mark starts with pod and container and ends with card and vHCU index, in that order. |
| Names.WholeCardMark | internal/driver/vdev_dynamic.go:91-96 | A whole card's mark ends in -1. |
| Names.PrefixSelectsUid | internal/driver/vdev_dynamic.go:72-82 | The prefix of the UID sweep matches exactly the marks that lead with that UID. |
| Names.VDeviceNameInjective | internal/driver/allocatable_device.go:102-104 | Different vHCUs have different CDI names. |
| Names.SpecNameRoundTrip | internal/driver/cdi_spec.go:434 | Trimming prefix and suffix of a spec file name and putting them back gives the name again. |
| Names.SpecNameIsSpec | internal/driver/cdi_spec.go:336-338 | The file of a vHCU is recognized as a spec, and its vHCU is read off it. |
| Names.HygonLayoutIsOk | internal/driver/cdi_spec.go:15-31 | The driver's names keep base spec, vHCU specs, legacy files, state file and temporary file apart. |
| Persistence.SavePreparedState | internal/driver/state_persistence.go:25-41 | The state file holds the whole new ledger, or what it held before; only it and the temporary file are touched. |
| Persistence.LoadPreparedState | internal/driver/state_persistence.go:45-66 | Absent, empty, corrupt or null state means an empty ledger, a valid file its ledger; only an unreadable file is an error. |
| Recovery.VhcuResolves | internal/driver/cdi_spec.go:328-338 | After a sync, a recorded vHCU's CDI device ID is offered by its own spec file and by no other of the driver's. |
| Recovery.BaseResolvesIff | internal/driver/cdi_spec.go:293-313 | The base spec offers a card's device ID exactly when a published card has that CDI name. |
| Recovery.WholeCardResolves | internal/driver/cdi_spec.go:293-313 | After a refresh, a recorded whole card resolves as long as its card is reported under its name with its UUID. |
| Recovery.AnswerResolves | internal/driver/driver_prepare.go:43-59 | Once specs and base spec are up to date, every device ID in the answer for a recorded claim resolves, as long as its whole cards are still reported. |
| Recovery.QualifiedNameInjective | internal/driver/cdi_spec.go:293-295 | A CDI device ID comes apart into kind and name in one way. |
| Recovery.FilesAreBack | internal/driver/driver_prepare.go:224-231 | A Prepare that took its record back, files mirrored before and after, has left the same vHCU specs, each for the same device, and the same marks that their records spell. |
| Recovery.SameRecords | internal/driver/driver_prepare.go:47-49 | Empty entries call for no spec and no mark. |
| Admission.BackedAfterPrepare | internal/driver/driver_prepare.go:86-117 | A successful Prepare keeps every record standing for an allocation of its own: the new ones for the claim's, the others as before. |
| Admission.BackedAfterRemoval | internal/driver/device_state.go:121-136 | So does taking any claims out of the ledger, which frees their allocations: each allocation left holds a record, and they are admitted together if all were, so the capacity can be given away again. |
| Admission.DropUnheld | internal/driver/driver.go:62-92 | Allocations that hold no record can be dropped from the list at any time. |
| Admission.LedgerFitsCards | internal/driver/driver_prepare.go:160-169 | The vHCUs that the ledger records on a card fit there together: cores, memory and split count. |
| Admission.MadeIsCarved | internal/driver/driver.go:134-153 | What the ledger's vHCUs on a card were made with is at most what the allocations there are carved into. |
| Admission.LedgerIsAsAsked | internal/driver/driver.go:126-153 | Every record of the ledger is what the request of its allocation asks for, the whole card or just the cores and memory named. |
| Recovery.PrepareRecorded | internal/driver/driver_prepare.go:43-77 | A Prepare of a recorded claim leaves the host alone and fails only if a call fails. |
| Recovery.PrepareAfterCrash | internal/driver/device_state.go:32-44 | Idempotence across a crash: after a restart, a Prepare of a saved claim returns the same devices, all recorded vHCUs are still there, and it succeeds if no call fails. Then the device IDs of its vHCUs resolve. |
| Capacity.RequestCapacityFor | internal/driver/driver.go:109-154 | The first request of that name decides, exactly; not found if there is none or it asks for no exact device. |
| Capacity.CarvingIsAsked | internal/driver/driver.go:126-153 | For a valid request for at least one unit of whatever it names: whole card exactly if it names neither; otherwise the cores it consumes, and as many whole MiB as are in the memory named or the card's. |
| Capacity.SharesAreRoundedUp | internal/driver/allocatable_device.go:144-178 | What the advertised policies make a request consume: cores as named, memory rounded up to MiB, at least one slice, the defaults otherwise. |
| Capacity.NearestIsNearest | internal/driver/driver.go:138-144 | The float64 conversion goes to a multiple of the spacing than which none is nearer. |
| Capacity.RoundedIsNearest | internal/driver/driver.go:138-144 | Of two multiples that are as near it takes the even one. |
| Capacity.UlpIsSpacing | internal/driver/driver.go:138-144 | The spacing leaves 53 significant bits. |
| Capacity.FloatIsExact | internal/driver/driver.go:138-144 | Going through float64 is exact up to 2^53. |
| Capacity.CarvedWithinConsumed | internal/driver/driver.go:134-153 | A valid request is carved within what it consumes exactly when it asks for at least one of whatever it names. |
| Capacity.CarvedWithinUsed | internal/driver/allocatable_device.go:144-178 | Summed over a card, what is carved lies within what is consumed. |
| Capacity.CarveUpConserves | internal/driver/allocatable_device.go:106-189 | Carve-up conservation: whatever is admitted on a card, its vHCUs fit into cores, memory and split count. |
| Capacity.BelowOneOvercommits | internal/driver/driver.go:134-153 | The converse: on every card, a valid request for less than one unit of something it names can be admitted beside another request so that their vHCUs do not fit, exactly if it leaves a slice. |
| Capacity.GreedyOvercommits | internal/driver/driver.go:136-144 | That other request takes all cores, or all memory, and nothing else. |
| Capacity.WholeCardIsExclusive | internal/driver/driver.go:126-132 | Beside a whole-card allocation no admitted allocation has a positive share. |
| Admission.LedgerMarksAreDistinct | internal/driver/vdev_dynamic.go:91-96 | All marks of the ledger are different, for records of admitted allocations, distinct vHCUs and one index per card, whoever the pods are. |
| Admission.OursIsNobodys | internal/driver/vdev_dynamic.go:160-178 | A name that a Prepare may give is no recorded mark: not a vHCU's, whose index is taken, nor a whole card's, which the scheduler would not have admitted beside this claim. |
| Admission.RecordedMarksStay | internal/driver/driver_prepare.go:86-117 | So whatever fails in a Prepare, every recorded mark that was there is there, untouched. |
| Admission.TwoWholeCards | internal/driver/driver.go:126-132 | No whole card is recorded on a card that another claim has been allocated as a whole. |
| LifecycleInvariant.StepKeepsInvUnlessBotched | internal/driver/device_enum.go:54-61 | Every step but a crash keeps the ledger invariant, whatever fails and whatever a refresh destroys, exactly unless it records a Prepare with a missing or doubled vHCU. |
| LifecycleInvariant.SpoiltByHits | internal/driver/device_enum.go:54-58 | A Prepare comes to have a missing or doubled vHCU exactly by a refresh that hits it, and stays so until it gives up. |
| LifecycleInvariant.KubeletStepKeepsInv | internal/driver/driver_prepare.go:79-233 | Every step of Prepare and Unprepare but the recording one keeps the ledger invariant. |
| LifecycleInvariant.TickerStepKeepsInv | internal/driver/device_state.go:93-150 | Every step of cleanup and refresh keeps it. |
| LifecycleDisk.StepKeepsWritten | internal/driver/state_persistence.go:32-40 | Between write and rename the temporary file holds the ledger as it is, crashes and hits included. |
| LifecycleDisk.RestartIsSound | internal/driver/device_state.go:32-50 | After a restart recorded vHCUs exist and are recorded once exactly when the vHCUs saved for exposed claims are all there. |
| LifecycleRuns.LedgerInvariant | internal/driver/driver_prepare.go:79-233 | On every interleaving with any failures: recorded vHCUs exist and are recorded once at every state exactly when no Prepare that a refresh has hit comes to be recorded; and then every other vHCU is in flight, about to be destroyed, or left by a failed call. |
| LifecycleRuns.SpoiltIffHit | internal/driver/device_enum.go:54-58 | The running Prepare has a missing or doubled vHCU exactly when a refresh has hit it. |
| LifecycleRuns.NoOverlapNoHit | cmd/hcu-dra-driver/main.go:114-131 | It suffices that no refresh overlaps a Prepare with unrecorded vHCUs. |
| LifecycleRuns.CrashSafety | internal/driver/driver_prepare.go:207-232 | While saves succeed, on a run with any number of crashes recorded vHCUs exist and are recorded once at every state exactly when no hit Prepare is recorded and no crash finds an exposed claim without its vHCUs; and then the state file agrees with the ledger. |
| LifecycleRuns.GuardedStepExactly | internal/driver/device_state.go:121-147 | The same for one step. |
| LifecycleRuns.CrashAnywhereWithoutOrphans | internal/driver/driver.go:62-92 | As long as no sweep finds an orphan, a run may crash between any two effects: the saved vHCUs are on the host. |
| LifecycleRuns.SweepSaveCloses | internal/driver/device_state.go:138-147 | After a completed orphan cleanup the state file equals memory, and until the next orphan is taken no crash, wherever it comes, does harm (while saves succeed and no hit Prepare is recorded), exactly unless a failed Prepare has its entry still in the ledger with vHCUs that are gone or still to be destroyed; an immediate crash does harm exactly if some are gone. |
| LifecycleRuns.FailingCrashes | internal/driver/driver_prepare.go:219-227 | From such a state a run without failed saves and hits leads to a restart with a recorded vHCU missing. |
| LifecycleRuns.RecoveryIsExact | internal/driver/device_state.go:32-50 | From any crash that finds the exposed claims' vHCUs, restart and a failure-free reconcile, in any order, leave exactly the vHCUs of the saved ledger. |
| LifecycleRuns.LateDestroysAreHarmless | internal/driver/driver.go:76-90 | On any run on which no hit Prepare is recorded, the unlocked destroys of Unprepare and of the rollbacks, and those of the sweep and of refreshes, never name a vHCU recorded for another claim. |
| LifecycleRuns.LiveClaimsAreNotSwept | internal/driver/device_state.go:93-118 | A claim the API server keeps listing loses its entry only to the kubelet thread. |
| LifecycleRuns.SweepIsExact | internal/driver/device_state.go:112-136 | A sweep cuts the ledger down to the listed claims, whatever the other thread does meanwhile. |
| LifecycleRuns.StateFileIsAtomic | internal/driver/state_persistence.go:25-41 | On every run a restart would read the ledger first held or one the process once had in memory, never a torn or temporary file. |
| LifecycleRuns.SaveHeals | internal/driver/state_persistence.go:32-40 | After any failed saves, the next successful one makes the state file equal to memory. |
| LifecycleCounterexamples.HitSharesAVhcu | internal/driver/device_enum.go:54-58 | A run on which a refresh hits a vHCU in flight and two claims end up on one vHCU. |
| LifecycleCounterexamples.CrashInSweepKillsALiveClaim | internal/driver/device_state.go:130-145 | A run with one crash inside a sweep after which a live claim loses its vHCU, no save failing and no refresh hitting. |
| LifecycleCounterexamples.SweepSavesAFailedPrepare | internal/driver/driver_prepare.go:219-227 | A run with a completed sweep that saves while a failed Prepare still has its entry: after a crash a live claim is recorded on a vHCU that is gone. |
| Simulation.ReachesSound | internal/driver/driver_prepare.go:79-233 | What runs without hits lead to is as sound as where they started. |
| Simulation.RestIsSound | internal/driver/device_types.go:36-37 | Between two calls the invariant of the step layer is that of the node: vHCUs recorded once, and all there. |
| Simulation.PrepareIsARun | internal/driver/driver_prepare.go:79-222 | Whatever a successful Prepare's contract allows is the effect of a run. |
| Simulation.RejectIsARun | internal/driver/driver_prepare.go:91-117 | So is whatever a Prepare that fails before its entry may leave: creates, a failure and the rollback. |
| Simulation.TakeBackIsARun | internal/driver/driver_prepare.go:207-231 | So is whatever a Prepare that takes its entry back may leave: creates, record, failed syncs, destroys, erasure and save. |
| Simulation.FreshIsARun | internal/driver/driver_prepare.go:16-41 | So is whatever a Prepare of a claim without recorded devices may do to ledger, host and state file. |
| Simulation.CreateMayFail | internal/driver/driver_prepare.go:160-165 | From any point of a Prepare at which a vHCU may be created, whatever the main thread is doing, a run goes on with a failed creation, which may leave a vHCU, to the rollback. |
| Simulation.AttachMayFail | internal/driver/driver_prepare.go:171-194 | The same for a failed query or mark: the vHCU is destroyed first, in any way a destroy may end. |
| Simulation.RollbackMayEnd | internal/driver/driver.go:94-104 | From any rollback, whatever the main thread is doing, a run ends it in any way its destroys allow. |
| Simulation.RejectMayEnd | internal/driver/driver_prepare.go:97-107 | The same from any point of a Prepare, for a result with an unknown card or request. |
| Simulation.ReleaseMayEnd | internal/driver/driver.go:82-90 | The same for the unlocked destroys of an Unprepare. |
| Simulation.SaveMayEnd | internal/driver/state_persistence.go:32-40 | From any save of the kubelet thread runs lead to all its ends: file replaced, write torn, rename failed. |
| Simulation.SweepSaveMayEnd | internal/driver/device_state.go:145-147 | The same for the save of a sweep, whatever the kubelet thread is doing. |
| Simulation.UnprepareIsARun | internal/driver/driver.go:62-92 | So is whatever Unprepare's contract allows, wherever outside the lock the main thread is. |
| Simulation.CleanupIsARun | internal/driver/device_state.go:93-150 | So is whatever the orphan cleanup's contract allows, for any order of the orphans, wherever outside the lock the kubelet thread is. |
| Simulation.RefreshIsARun | internal/driver/device_enum.go:121-138 | So is whatever a refresh may do to the host, leaks included, for any order of the stale vHCUs, the listing failing or not, wherever outside the lock the kubelet thread is, as long as no vHCU in flight is hit. |
| Simulation.RestartIsARun | internal/driver/device_state.go:32-50 | So is whatever NewDeviceState may do to the host after a crash, leaks included, from the restart on. |
| Simulation.RecoveryHappens | internal/driver/device_state.go:32-50 | From any crash that finds the exposed claims' vHCUs there is a failure-free restart, and it leaves exactly the vHCUs of the saved ledger. |
| NodeRuns.Prepare | internal/driver/driver_prepare.go:16-41 | nodePrepareResource, from any state of the node that the step layer shows, ends in one that the step layer reaches without crash and hit: same ledger, vHCUs, leaks and restorable ledger. |
| NodeRuns.Unprepare | internal/driver/driver.go:62-92 | So does nodeUnprepareResource. |
| NodeRuns.Tick | cmd/hcu-dra-driver/main.go:121-125 | So does a round of the main thread: orphan cleanup and then refresh. |
| NodeRuns.CrashAndRestart | internal/driver/device_state.go:17-84 | So does NewDeviceState after a crash at any point, from the restart on, whether or not it succeeds. |
| NodeRuns.ServeAll | cmd/hcu-dra-driver/main.go:77-131 | So does any sequence of calls, whatever they fail at; at its end recorded vHCUs exist and are recorded once, and every vHCU is recorded or was left by a failed call or a crash. |

## Left out

- DCGM itself: creation, destruction and listing of vHCUs are abstract and may fail; initialization, shutdown and the option checks before it, NUMA topology,
  product names and the PCI address reported for a vHCU are not modelled, and neither are the `/etc/vdev/vdev*.conf` files.
- The contents of container edits: an opaque value, so sysfs and DRI discovery, hooks, mounts and symlinks are not part of this model.
- The Kubernetes API: what the pod lookup answers for each device is part of the claim (`Claims.ResourceClaim`), a pod with a UID
  and a container or an error; the List of the orphan cleanup is a parameter that is complete when it succeeds.
- JSON and YAML codecs: a state document and a spec are values, and anything else is opaque bytes that no codec accepts.
- File system details: `filepath.Join` and `filepath.Base` are the identity on the names used, which hold no slash; `os.Stat`
  answers truthfully; permissions are ignored; rename replaces the target in one step; directories do not vanish.
- Publishing of ResourceSlices, kubelet registration, gRPC, signals, logging, environment parsing, and the texts of errors.
- The unlocked reads of the allocatable map: a Prepare sees one map throughout; that refresh may swap it is not modelled, as
  Prepare copies card index and names into its records.
- Integer widths: 64-bit wrap-around near 2^63 is not modelled, and card sizes are whole numbers rather than rounded floats.
- Unicode white space in card UUIDs: trimming covers the ASCII blanks.
- vHCU changes made outside the driver, and the scheduler beyond the admission rule.
- Marks and CDI files in the step layer: they mirror the ledger by the contracts of the imperative layer; the step layer has
  ledger, state file, host and API server.
- Marks.SyncDynamicMarkFiles: whether a missing mark that no record of it spells, but a record of another mark does, is there after
  a sync is left open, because in the code it depends on whether that other mark is missing when its record is visited.
- Recovery.FilesAreBack: the contents of the files are not compared, because container edits are opaque here and a mark holds the
  time at which it was written.
- Capacity.CarveUpConserves: requests for less than one unit are excluded, because the claim is false for them
  (`Capacity.BelowOneOvercommits`).
- NodeRuns.ServeAll: the calls of the two threads come one after the other; their interleavings are runs of the step layer, where
  each operation takes its own steps.
