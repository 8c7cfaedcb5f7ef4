/** The kubelet plugin callbacks: Prepare and Unprepare of resource claims. */
module DriverPlugin {
  import opened Types
  import opened Names
  import opened StateFile
  import opened Storage
  import opened Persistence
  import opened Dcgm
  import opened Marks
  import opened Cdi
  import opened Allocatable
  import opened Node
  import opened Claims
  import opened Batches
  import Capacity

  /** attachDynamicMark; `consumer` is what resolveClaimConsumer returns, and `name` the mark that was tried. */
  method AttachDynamicMark(marks: Directory, uid: UID, p: PreparedDevice, dvInd: int,
                           consumer: Option<Consumer>)
      returns (ok: bool, p': PreparedDevice, ghost name: string)
    modifies marks
    ensures p'.dynamicMarkFile == if ok then name else ""
    ensures p' == p.(podUID := p'.podUID, containerName := p'.containerName, dvInd := dvInd,
      dynamicMarkFile := p'.dynamicMarkFile)
    ensures Attached(p', uid, consumer)
    ensures name != "" && (p.claimUID == uid && (consumer.Some? ==> consumer.value.podUID != "") ==>
      MarkOk(p'.(dynamicMarkFile := name)))
    ensures marks.OnlyTouches({name}) && (ok ==> name in marks.entries && name !in marks.residue)
    ensures !ok ==> name in marks.residue || marks.entries == old(marks.entries)
    ensures marks.Counted() && (!ok && marks.lapses == old(marks.lapses) ==> marks.entries == old(marks.entries))
    ensures ok <==> marks.failures == old(marks.failures)
  {
    var podUID, containerName := uid, FALLBACK_CONTAINER;
    if consumer.Some? {
      podUID, containerName := consumer.value.podUID, consumer.value.containerName;
    }
    var mark;
    ok, mark := CreateDynamicMarkFile(marks, podUID, containerName, dvInd, MarkIndex(p.wholeCard, p.vdvInd));
    p' := p.(podUID := podUID, containerName := containerName, dvInd := dvInd,
      dynamicMarkFile := if ok then mark else "");
    name := mark;
    assert '_' in mark;
  }

  class Driver {
    const state: DeviceState

    constructor (state: DeviceState)
      ensures this.state == state
    {
      this.state := state;
    }

    /** What Prepare touches before it records anything. */
    ghost function Snap(): Snapshot
      reads state.marks, state.host
    {
      Snapshot(state.marks.entries, state.marks.residue, state.marks.lapses, state.host.vdevs, state.host.leaked,
        state.host.lapses)
    }

    /** The stores of the node, and how many calls have failed. */
    ghost function Now(): View
      reads state, state.cdi, state.marks, state.host
    {
      View(state.prepared, state.cdi.entries, state.cdi.residue, state.marks.entries, state.host.vdevs,
        state.host.leaked, state.host.sizes, state.host.lapses, state.Failures())
    }

    /** rollbackCreatedVDevices: a mark or vHCU that is still there afterwards could not be removed. */
    method RollbackCreatedVDevices(created: seq<PreparedDevice>)
      requires state.host.Valid()
      modifies state.marks, state.host`vdevs, state.host`leaked, state.host`failures, state.host`lapses
      ensures state.host.Valid() && RolledBack(old(Snap()), Snap(), created)
      ensures state.marks.Counted() && state.host.Counted()
    {
      RemovePreparedDynamicMarks(state.marks, created);
      DestroyAll(state.host, created);
    }

    /** prepareWholeCardDevice for the device made nth; `tried` is the mark it may have left. */
    method PrepareWholeCardDevice(claim: ResourceClaim, result: AllocationResult, alloc: AllocatableDevice, nth: nat)
        returns (r: Option<PreparedDevice>, ghost tried: set<string>)
      requires state.host.Valid()
      modifies state.marks
      ensures r.Some? ==>
        && r.value.wholeCard && MadeOn(r.value, claim.uid, result, alloc, state.layout)
        && Attached(r.value, claim.uid, ResolveClaimConsumer(claim, nth))
        && Built(old(Snap()), Snap(), [r.value]) && r.value.dynamicMarkFile !in state.marks.residue
      ensures r.None? ==> Failed(old(Snap()), Snap(), tried)
      ensures Capacity.CarvingFor(claim.requests, result.request, alloc.capacity) == Capacity.WholeCard ==>
        forall n | n in tried :: exists p :: WouldMark(p, n, claim, result, alloc, state.layout, old(state.host.vdevs))
      ensures state.marks.Counted() && (r.None? ==> state.marks.failures > old(state.marks.failures))
    {
      var name := PhysicalCDIDeviceName(alloc);
      var p := PreparedDevice(claim.uid, result.device, result.request, result.pool, true, 0, "", name,
        QualifiedName(state.layout.CardKind(), name), "", "", "", 0);
      var consumer := ResolveClaimConsumer(claim, nth);
      ghost var mark;
      var ok, p';
      ok, p', mark := AttachDynamicMark(state.marks, claim.uid, p, alloc.dvInd, consumer);
      tried := {mark};
      if !ok {
        assert MadeOn(p'.(dynamicMarkFile := mark), claim.uid, result, alloc, state.layout);
        assert Capacity.CarvingFor(claim.requests, result.request, alloc.capacity) == Capacity.WholeCard ==>
          WouldMark(p'.(dynamicMarkFile := mark), mark, claim, result, alloc, state.layout, old(state.host.vdevs));
        return None, tried;
      }
      assert MarksOf([p']) == {mark};
      return Some(p'), {};
    }

    /**
     The first half of prepareVHCUDevice: a vHCU whose PCI address is known, or nothing but what lapsed calls leave.
     */
    method CreateVHCU(alloc: AllocatableDevice, cores: int, memMiB: int) returns (r: Option<(int, string)>)
      requires state.host.Valid()
      modifies state.host`vdevs, state.host`sizes, state.host`leaked, state.host`failures, state.host`lapses
      ensures state.host.Valid() && SizesStay(old(state.host.vdevs), old(state.host.sizes), state.host.sizes)
      ensures r.Some? ==>
        && Created(old(Snap()), Snap(), r.value.0, alloc.dvInd)
        && r.value.0 in state.host.sizes && state.host.sizes[r.value.0] == Size(cores, memMiB)
      ensures r.None? ==> HostBack(old(Snap()), Snap())
      ensures state.host.Counted() && (r.Some? <==> state.host.failures == old(state.host.failures))
    {
      var created := state.host.CreateVDevice(alloc.dvInd, cores, memMiB);
      if created.None? {
        return None;
      }
      var info := state.host.VDeviceSingleInfo(created.value);
      if info.None? {
        var _ := state.host.DestroySingleVDevice(created.value);
        return None;
      }
      return Some((created.value, info.value));
    }

    /** prepareVHCUDevice for the device made nth; `tried` is the mark it may have left. */
    method PrepareVHCUDevice(claim: ResourceClaim, result: AllocationResult, alloc: AllocatableDevice, nth: nat,
                             cores: int, memMiB: int)
        returns (r: Option<PreparedDevice>, ghost tried: set<string>)
      requires state.host.Valid()
      modifies state.marks, state.host`vdevs, state.host`sizes, state.host`leaked, state.host`failures,
        state.host`lapses
      ensures state.host.Valid() && SizesStay(old(state.host.vdevs), old(state.host.sizes), state.host.sizes)
      ensures r.Some? ==>
        && !r.value.wholeCard && MadeOn(r.value, claim.uid, result, alloc, state.layout)
        && Attached(r.value, claim.uid, ResolveClaimConsumer(claim, nth))
        && Built(old(Snap()), Snap(), [r.value]) && r.value.dynamicMarkFile !in state.marks.residue
        && r.value.vdvInd in state.host.sizes && state.host.sizes[r.value.vdvInd] == Size(cores, memMiB)
      ensures r.None? ==> Failed(old(Snap()), Snap(), tried)
      ensures forall n | n in tried :: exists p ::
        WouldMark(p, n, claim, result, alloc, state.layout, old(state.host.vdevs))
      ensures state.marks.Counted() && state.host.Counted() && (r.None? ==> state.Failures() > old(state.Failures()))
    {
      var vhcu := CreateVHCU(alloc, cores, memMiB);
      if vhcu.None? {
        return None, {};
      }
      var (vdvInd, pci) := vhcu.value;
      var name := VDeviceName(vdvInd);
      var p := PreparedDevice(claim.uid, result.device, result.request, result.pool, false, vdvInd, pci, name,
        QualifiedName(state.layout.VDeviceKind(), name), "", "", "", 0);
      ghost var s1 := Snap();
      var consumer := ResolveClaimConsumer(claim, nth);
      ghost var mark;
      var ok, p';
      ok, p', mark := AttachDynamicMark(state.marks, claim.uid, p, alloc.dvInd, consumer);
      ghost var s2 := Snap();
      if !ok {
        assert WouldMark(p'.(dynamicMarkFile := mark), mark, claim, result, alloc, state.layout, old(state.host.vdevs));
        var _ := state.host.DestroySingleVDevice(vdvInd);
        DroppedOne(old(Snap()), s1, s2, Snap(), vdvInd, alloc.dvInd, mark);
        return None, {mark};
      }
      BuiltOne(old(Snap()), s1, s2, p');
      return Some(p'), {};
    }

    /** One round of prepareAllocatedDevices, without its rollback. */
    method PrepareOne(claim: ResourceClaim, result: AllocationResult, nth: nat)
        returns (r: Option<PreparedDevice>, ghost tried: set<string>)
      requires state.host.Valid()
      modifies state.marks, state.host`vdevs, state.host`sizes, state.host`leaked, state.host`failures,
        state.host`lapses
      ensures state.host.Valid() && SizesStay(old(state.host.vdevs), old(state.host.sizes), state.host.sizes)
      ensures r.Some? ==>
        && MadeFor(r.value, claim, result, state.allocatable, state.layout, state.host.sizes)
        && Attached(r.value, claim.uid, ResolveClaimConsumer(claim, nth))
        && Built(old(Snap()), Snap(), [r.value]) && r.value.dynamicMarkFile !in state.marks.residue
      ensures r.None? ==> Failed(old(Snap()), Snap(), tried)
      ensures forall n | n in tried :: OursFor(n, claim, result, state.allocatable, state.layout, old(state.host.vdevs))
      ensures state.marks.Counted() && state.host.Counted()
      ensures r.None? && Preparable(claim, result, state.allocatable) ==> state.Failures() > old(state.Failures())
    {
      if result.device !in state.allocatable {
        return None, {};
      }
      var alloc := state.allocatable[result.device];
      var carving := Capacity.RequestCapacityFor(claim.requests, result.request, alloc.capacity);
      match carving
      case NotFound => return None, {};
      case WholeCard =>
        r, tried := PrepareWholeCardDevice(claim, result, alloc, nth);
      case Carve(cores, memMiB) =>
        r, tried := PrepareVHCUDevice(claim, result, alloc, nth, cores, memMiB);
    }

    /**
     prepareAllocatedDevices. Either every result of ours has its record, its mark and, if carved, its vHCU; or the host
     is as it was but for vHCUs that lapsed calls have left, and so are the marks but for names that are this Prepare's
     to give.
     */
    method PrepareAllocatedDevices(claim: ResourceClaim, results: seq<AllocationResult>)
        returns (r: Option<seq<PreparedDevice>>, devices: seq<Device>, ghost touched: set<string>)
      requires state.host.Valid()
      modifies state.marks, state.host`vdevs, state.host`sizes, state.host`leaked, state.host`failures,
        state.host`lapses
      ensures state.host.Valid() && SizesStay(old(state.host.vdevs), old(state.host.sizes), state.host.sizes)
      ensures r.Some? ==>
        && Matches(r.value, claim, Own(results, state.layout.vendor), state.allocatable, state.layout, state.host.sizes)
        && Tells(devices, r.value) && touched == MarksOf(r.value) && Built(old(Snap()), Snap(), r.value)
      ensures r.None? ==> devices == [] && Abandoned(old(Snap()), Snap(), touched)
      ensures AllOurs(touched, claim, Own(results, state.layout.vendor), state.allocatable, state.layout,
        old(state.host.vdevs))
      ensures state.marks.Counted() && state.host.Counted()
      ensures r.None? && AllPreparable(claim, results, state.layout.vendor, state.allocatable) ==>
        state.Failures() > old(state.Failures())
    {
      var created: seq<PreparedDevice> := [];
      devices := [];
      ghost var own: seq<AllocationResult> := [];
      for k := 0 to |results|
        invariant state.host.Valid() && own == Own(results[..k], state.layout.vendor)
        invariant Allocated(old(Snap()), old(state.host.sizes), Snap(), state.host.sizes, claim, own, created, devices,
          state.allocatable, state.layout)
        invariant state.marks.Counted() && state.host.Counted()
      {
        OwnSnoc(results, k, state.layout.vendor);
        if results[k].driver != state.layout.vendor {
          continue;
        }
        var one;
        one, touched := AllocateNext(claim, results, k, own, created, devices, old(Snap()), old(state.host.sizes));
        if one.None? {
          return None, [], touched;
        }
        own := own + [results[k]];
        created, devices := created + [one.value], devices + [DeviceOf(one.value)];
      }
      assert results[..|results|] == results;
      MadeAreOurs(created, claim, own, state.allocatable, state.layout, state.host.sizes, old(state.host.vdevs),
        state.host.vdevs);
      return Some(created), devices, MarksOf(created);
    }

    /** One round of prepareAllocatedDevices, for result k: one more device, or the rollback of those made before. */
    method AllocateNext(claim: ResourceClaim, results: seq<AllocationResult>, k: nat, ghost own: seq<AllocationResult>,
                        created: seq<PreparedDevice>, ghost devices: seq<Device>, ghost s0: Snapshot,
                        ghost sizes0: map<int, Size>)
        returns (one: Option<PreparedDevice>, ghost touched: set<string>)
      requires state.host.Valid() && k < |results| && results[k].driver == state.layout.vendor
      requires own == Own(results[..k], state.layout.vendor)
      requires Allocated(s0, sizes0, Snap(), state.host.sizes, claim, own, created, devices, state.allocatable,
                 state.layout)
      modifies state.marks, state.host`vdevs, state.host`sizes, state.host`leaked, state.host`failures,
        state.host`lapses
      ensures state.host.Valid() && state.marks.Counted() && state.host.Counted()
      ensures one.Some? ==>
        Allocated(s0, sizes0, Snap(), state.host.sizes, claim, own + [results[k]], created + [one.value],
          devices + [DeviceOf(one.value)], state.allocatable, state.layout)
      ensures one.None? ==>
        && Abandoned(s0, Snap(), touched) && SizesStay(s0.vdevs, sizes0, state.host.sizes)
        && AllOurs(touched, claim, Own(results, state.layout.vendor), state.allocatable, state.layout, s0.vdevs)
      ensures one.None? && Preparable(claim, results[k], state.allocatable) ==> state.Failures() > old(state.Failures())
    {
      ghost var s1, sizes := Snap(), state.host.sizes;
      ghost var tried;
      one, tried := PrepareOne(claim, results[k], |created|);
      if one.Some? {
        AllocatedMore(s0, sizes0, s1, sizes, Snap(), state.host.sizes, claim, own, created, devices, state.allocatable,
          state.layout, one.value, DeviceOf(one.value), results[k]);
        touched := {};
      } else {
        SizesStayMore(s0, s1, created, sizes0, sizes, state.host.sizes);
        touched := AbandonAt(claim, results, k, own, created, tried, s0, s1, sizes);
      }
    }

    /** The rollback of prepareAllocatedDevices, when result k has failed. */
    method AbandonAt(ghost claim: ResourceClaim, ghost results: seq<AllocationResult>, ghost k: nat,
                     ghost own: seq<AllocationResult>, created: seq<PreparedDevice>, ghost tried: set<string>,
                     ghost s0: Snapshot, ghost s1: Snapshot, ghost sizes: map<int, Size>)
        returns (ghost touched: set<string>)
      requires state.host.Valid() && k < |results| && results[k].driver == state.layout.vendor
      requires own == Own(results[..k], state.layout.vendor) &&
        Matches(created, claim, own, state.allocatable, state.layout, sizes)
      requires Built(s0, s1, created) && Failed(s1, Snap(), tried)
      requires forall n | n in tried :: OursFor(n, claim, results[k], state.allocatable, state.layout, s1.vdevs)
      modifies state.marks, state.host`vdevs, state.host`leaked, state.host`failures, state.host`lapses
      ensures state.host.Valid() && Abandoned(s0, Snap(), touched)
      ensures AllOurs(touched, claim, Own(results, state.layout.vendor), state.allocatable, state.layout, s0.vdevs)
      ensures state.marks.Counted() && state.host.Counted()
    {
      ghost var failed := Snap();
      RollbackCreatedVDevices(created);
      RollbackRestores(s0, s1, failed, Snap(), created, tried);
      touched := MarksOf(created) + tried;
      MadeAreOurs(created, claim, own, state.allocatable, state.layout, sizes, s0.vdevs, s1.vdevs);
      forall n | n in touched ensures Ours(n, claim, Own(results, state.layout.vendor), state.allocatable,
        state.layout, s0.vdevs) {
        TriedAreOurs(claim, results, k, state.allocatable, state.layout, s0.vdevs, s1.vdevs, n);
      }
    }

    /** The spec file of some recorded vHCU is missing. */
    ghost predicate SpecsMissing(entries: map<string, Entry>)
      reads state
    {
      exists c :: c in ActiveNames(state.prepared) && state.layout.SpecName(c) !in entries
    }

    /** The answer for recorded devices. */
    method AnswerFor(list: seq<PreparedDevice>) returns (devices: seq<Device>)
      ensures Tells(devices, list)
    {
      devices := [];
      for k := 0 to |list|
        invariant Tells(devices, list[..k])
      {
        assert list[..k + 1] == list[..k] + [list[k]];
        TellsSnoc(devices, list[..k], DeviceOf(list[k]), list[k]);
        devices := devices + [DeviceOf(list[k])];
      }
      assert list[..|list|] == list;
    }

    /** The lock section of prepareExistingClaim: specs are only written if one is missing. */
    method RepairArtifacts() returns (ok: bool)
      requires state.Valid()
      modifies state.cdi, state.marks
      ensures ok ==>
        && (forall c | c in ActiveNames(state.prepared) :: state.layout.SpecName(c) in state.cdi.entries)
        && MarksMirror(state.marks.entries, state.prepared)
      ensures !SpecsMissing(old(state.cdi.entries)) ==> unchanged(state.cdi)
      ensures ok && SpecsMissing(old(state.cdi.entries)) ==>
        CdiMirrors(state.layout, state.cdi.entries, state.prepared)
      ensures state.Frames(ActiveNames(state.prepared)) && state.Unsaved() && state.SaveUntried()
      ensures KeepsMarks(state.prepared, {}, old(state.marks.entries), state.marks.entries)
      ensures state.Failures() >= old(state.Failures()) && (!ok ==> state.Failures() > old(state.Failures()))
    {
      ok := true;
      var broken := VDeviceCDISpecFilesNeedRepair(state.layout, state.cdi, state.prepared);
      if broken {
        ok := SyncVDeviceCDISpecFiles(state.layout, state.cdi, state.prepared);
        SyncFrames(state.layout, ActiveNames(state.prepared), old(state.cdi.entries), old(state.cdi.residue),
          state.cdi.entries, state.cdi.residue);
      }
      if ok {
        ok := SyncDynamicMarkFiles(state.marks, state.prepared);
      }
    }

    /** prepareExistingClaim: a claim with recorded devices is only repaired, never prepared again. */
    method PrepareExistingClaim(uid: UID) returns (r: Option<PrepareResult>)
      requires state.Valid()
      modifies state.cdi, state.marks
      ensures r.None? <==> uid !in state.prepared || state.prepared[uid] == []
      ensures r.None? ==> unchanged(state.cdi) && unchanged(state.marks)
      ensures !SpecsMissing(old(state.cdi.entries)) ==> unchanged(state.cdi)
      ensures r.Some? && r.value.Devices? && SpecsMissing(old(state.cdi.entries)) ==>
        CdiMirrors(state.layout, state.cdi.entries, state.prepared)
      ensures r.Some? && r.value.Devices? ==>
        && Tells(r.value.devices, state.prepared[uid])
        && (forall c | c in ActiveNames(state.prepared) :: state.layout.SpecName(c) in state.cdi.entries)
        && MarksMirror(state.marks.entries, state.prepared)
      ensures state.Frames(ActiveNames(state.prepared)) && state.Unsaved() && state.SaveUntried()
      ensures KeepsMarks(state.prepared, {}, old(state.marks.entries), state.marks.entries)
      ensures state.Failures() >= old(state.Failures()) && (r.Some? && r.value.Failure? ==>
        state.Failures() > old(state.Failures()))
    {
      if uid !in state.prepared || state.prepared[uid] == [] {
        return None;
      }
      var devices := AnswerFor(state.prepared[uid]);
      var ok := RepairArtifacts();
      return Some(if ok then Devices(devices) else Failure("repair prepared artifacts on idempotent prepare"));
    }

    /** The first lock section of finalizePreparedClaim. A failed save is only logged; `saved` tells. */
    method Record(uid: UID, created: seq<PreparedDevice>) returns (ok: bool, ghost saved: bool)
      requires state.Valid()
      modifies state`prepared, state.cdi, state.marks
      ensures state.prepared == old(state.prepared)[uid := created]
      ensures ok ==> state.Mirrored() && (saved ==> state.Saved())
      ensures state.Frames(ActiveNames(state.prepared)) && (saved || state.Unsaved()) && (saved ==> ok)
      ensures (if ok then state.SaveTried() else state.SaveUntried()) && state.marks.Counted()
      ensures KeepsMarks(state.prepared, {}, old(state.marks.entries), state.marks.entries)
      ensures state.Failures() >= old(state.Failures()) && (state.Failures() == old(state.Failures()) ==> ok && saved)
    {
      state.prepared := state.prepared[uid := created];
      ok, saved := state.SyncThenSave();
    }

    /** The rest of finalizePreparedClaim, after the syncs have failed. `clean` when its own syncs and save have not. */
    method TakeBack(uid: UID, created: seq<PreparedDevice>) returns (ghost clean: bool)
      requires state.Valid()
      modifies state`prepared, state.cdi, state.marks, state.host`vdevs, state.host`leaked, state.host`failures,
        state.host`lapses
      ensures state.Valid()
      ensures state.prepared == old(state.prepared) - {uid}
      ensures state.host.OnlyDestroys(Indices(created)) && state.host.Counted()
      ensures state.host.lapses == old(state.host.lapses) ==> forall i | i in Indices(created) :: i !in state.host.vdevs
      ensures (clean ==> state.Mirrored() && state.Saved()) && state.SyncedEach()
      ensures Cleared(MarksOf(created), state.marks.entries, state.marks.residue, state.prepared)
      ensures state.Frames(ActiveNames(state.prepared)) && state.SavedOrNot()
      ensures KeepsMarks(state.prepared, MarksOf(created), old(state.marks.entries), state.marks.entries)
      ensures state.Failures() >= old(state.Failures()) && (state.Failures() == old(state.Failures()) ==> clean)
      ensures state.marks.Counted()
    {
      ghost var before := state.marks.entries;
      RemovePreparedDynamicMarks(state.marks, created);
      RollbackCreatedVDevices(created);
      state.prepared := state.prepared - {uid};
      ghost var removed := state.marks.entries;
      clean := state.SyncAndSave();
      KeepsAfterRemoval(state.prepared, MarksOf(created), before, removed, state.marks.entries);
    }

    /**
     Once a record is taken back, files and state file agree with the ledger again unless a call on them has failed
     since; the state file is stale only if the save itself has failed, and of the touched marks only those are left
     that could not be removed or that the ledger calls for.
     */
    twostate predicate CleansUp(outcome: Outcome, touched: set<string>)
      reads state, state.cdi, state.marks, state.host
    {
      outcome.TakenBack? ==>
        && old(state.Failures()) < outcome.at <= state.Failures()
        && (state.Failures() == outcome.at ==> outcome.clean) && (outcome.clean ==> state.Mirrored() && state.Saved())
        && old(state.marks.failures) <= outcome.marksAt <= state.marks.failures && state.SaveTried()
        && (state.marks.failures == outcome.marksAt ==> MarksMirror(state.marks.entries, state.prepared))
        && Cleared(touched, state.marks.entries, state.marks.residue, state.prepared)
    }

    /** finalizePreparedClaim: the claim is recorded and the files mirror the ledger, or the record is taken back. */
    method FinalizePreparedClaim(uid: UID, created: seq<PreparedDevice>) returns (ok: bool, ghost outcome: Outcome)
      requires state.Valid() && !Known(state.prepared, uid) && forall p | p in created :: MarkOk(p)
      modifies state`prepared, state.cdi, state.marks, state.host`vdevs, state.host`leaked, state.host`failures,
        state.host`lapses
      ensures state.Valid() && state.Failures() >= old(state.Failures()) && state.host.Counted()
      ensures ok ==>
        && state.prepared == old(state.prepared)[uid := created] && state.Mirrored()
        && state.host.vdevs == old(state.host.vdevs) && state.host.leaked == old(state.host.leaked)
        && outcome.Kept? && (if outcome.saved then state.Saved() else state.Unsaved() && state.SaveTried())
        && (state.Failures() == old(state.Failures()) ==> outcome.saved)
      ensures !ok ==>
        && state.prepared == old(state.prepared) - {uid} && state.host.OnlyDestroys(Indices(created))
        && (state.host.lapses == old(state.host.lapses) ==> forall i | i in Indices(created) :: i !in state.host.vdevs)
        && outcome.TakenBack? && CleansUp(outcome, MarksOf(created))
      ensures KeepsMarks(old(state.prepared), MarksOf(created), old(state.marks.entries), state.marks.entries)
      ensures state.Frames(ActiveNames(old(state.prepared))) && state.SavedOrNot()
    {
      ghost var before, e1 := state.prepared, state.marks.entries;
      ghost var saved;
      ok, saved := Record(uid, created);
      ghost var e2 := state.marks.entries;
      ghost var e, r := state.cdi.entries, state.cdi.residue;
      MarksSurviveRecord(before, uid, created, e1, e2);
      NamesStay(before, uid, created);
      outcome := Kept(saved);
      if !ok {
        ghost var at, marksAt := state.Failures(), state.marks.failures;
        ghost var clean := TakeBack(uid, created);
        outcome := TakenBack(at, marksAt, clean);
        assert before[uid := created] - {uid} == before - {uid};
        FramesAreBack(state.layout, before, uid, created, old(state.cdi.entries), old(state.cdi.residue), e, r,
          state.cdi.entries, state.cdi.residue);
        MarksAreBack(before, uid, created, e1, e2, state.marks.entries);
      }
    }

    /** The end of nodePrepareResource: the devices made since `s0` are recorded and returned, or taken back. */
    method Finish(claim: ResourceClaim, ghost own: seq<AllocationResult>, created: seq<PreparedDevice>,
                  devices: seq<Device>, ghost s0: Snapshot)
        returns (r: PrepareResult, ghost outcome: Outcome)
      requires state.Valid() && !Known(state.prepared, claim.uid) && s0.leaked <= s0.vdevs.Keys
      requires Built(s0, Snap(), created) && Tells(devices, created)
      requires Matches(created, claim, own, state.allocatable, state.layout, state.host.sizes)
      modifies state`prepared, state.cdi, state.marks, state.host`vdevs, state.host`leaked, state.host`failures,
        state.host`lapses
      ensures state.Valid() && state.Failures() >= old(state.Failures()) && state.host.Counted()
      ensures r.Devices? ==>
        && Made(old(state.prepared), s0, state.prepared, Snap(), claim, own, state.allocatable, state.layout,
          state.host.sizes, r.devices)
        && state.Mirrored() && outcome.Kept?
        && (if outcome.saved then state.Saved() else state.Unsaved() && state.SaveTried())
        && (state.Failures() == old(state.Failures()) ==> outcome.saved)
      ensures r.Failure? ==> CleansUp(outcome, MarksOf(created)) && outcome.TakenBack?
      ensures r.Failure? ==>
        GaveUp(old(state.prepared), s0, state.prepared, Snap(), claim.uid, MarksOf(created), outcome)
      ensures KeepsMarks(old(state.prepared), MarksOf(created), s0.entries, state.marks.entries)
      ensures state.Frames(ActiveNames(old(state.prepared))) && state.SavedOrNot()
      ensures Sane(state.layout, old(state.prepared), s0.vdevs, s0.leaked) ==> state.Consistent()
    {
      ghost var s1 := Snap();
      var ok;
      ok, outcome := FinalizePreparedClaim(claim.uid, created);
      KeepsSinceBuilt(old(state.prepared), s0, s1, created, state.marks.entries);
      if ok {
        r := Devices(devices);
      } else {
        HostIsBack(s0, s1, Snap(), created);
        EmptyEntryGoes(old(state.prepared), claim.uid);
        r := Failure("sync prepared artifacts");
      }
      SaneAfterPrepare(state.layout, old(state.prepared), state.prepared, claim, s0, Snap(), own, state.allocatable,
        state.host.sizes, r, MarksOf(created), outcome);
    }

    /** nodePrepareResource for a claim without recorded devices. */
    method PrepareFresh(claim: ResourceClaim, results: seq<AllocationResult>)
        returns (r: PrepareResult, ghost touched: set<string>, ghost outcome: Outcome)
      requires state.Valid() && !Known(state.prepared, claim.uid)
      modifies state`prepared, state.cdi, state.marks
      modifies state.host`vdevs, state.host`sizes, state.host`leaked, state.host`failures, state.host`lapses
      ensures state.Valid() && SizesStay(old(state.host.vdevs), old(state.host.sizes), state.host.sizes)
      ensures r.Devices? ==>
        && Made(old(state.prepared), old(Snap()), state.prepared, Snap(), claim, Own(results, state.layout.vendor),
          state.allocatable, state.layout, state.host.sizes, r.devices)
        && state.Mirrored() && outcome.Kept?
        && (if outcome.saved then state.Saved() else state.Unsaved() && state.SaveTried())
        && (state.Failures() == old(state.Failures()) ==> outcome.saved)
      ensures state.Failures() >= old(state.Failures()) && state.host.Counted()
      ensures r.Failure? && state.Failures() == old(state.Failures()) ==>
        !AllPreparable(claim, results, state.layout.vendor, state.allocatable)
      ensures r.Failure? ==> CleansUp(outcome, touched)
      ensures r.Failure? ==>
        GaveUp(old(state.prepared), old(Snap()), state.prepared, Snap(), claim.uid, touched, outcome)
      ensures outcome.Rejected? ==> state.cdi.entries == old(state.cdi.entries)
      ensures KeepsMarks(old(state.prepared), touched, old(state.marks.entries), state.marks.entries)
      ensures AllOurs(touched, claim, Own(results, state.layout.vendor), state.allocatable, state.layout,
        old(state.host.vdevs))
      ensures state.Frames(ActiveNames(old(state.prepared))) && state.SavedOrNot()
      ensures old(state.Consistent()) ==> state.Consistent()
    {
      ghost var s0, own := Snap(), Own(results, state.layout.vendor);
      var created, devices;
      created, devices, touched := PrepareAllocatedDevices(claim, results);
      if created.Some? {
        r, outcome := Finish(claim, own, created.value, devices, s0);
      } else {
        r, outcome := Failure("prepare allocated devices"), Rejected;
        SaneAfterPrepare(state.layout, state.prepared, state.prepared, claim, s0, Snap(), own, state.allocatable,
          state.host.sizes, r, touched, outcome);
      }
    }

    /**
     nodePrepareResource. Prepare is idempotent: a claim with recorded devices gets the same devices again and changes
     neither ledger nor host nor state file. It is all or nothing: otherwise either all its results are recorded,
     mirrored and returned, or the ledger keeps all its non-empty entries, the host is as it was but for vHCUs that
     lapsed calls have left, and marks are as they were but for `touched`, which are this Prepare's to give; after a
     record was made, specs, marks and state file agree with the ledger again unless calls fail once more. In any case
     vHCUs keep their sizes, specs of vHCUs recorded before stay, and the state file is as it was or holds the ledger.
     */
    method NodePrepareResource(claim: ResourceClaim)
        returns (r: PrepareResult, ghost touched: set<string>, ghost outcome: Outcome)
      requires state.Valid()
      modifies state`prepared, state.cdi, state.marks
      modifies state.host`vdevs, state.host`sizes, state.host`leaked, state.host`failures, state.host`lapses
      ensures state.Valid() && SizesStay(old(state.host.vdevs), old(state.host.sizes), state.host.sizes)
      ensures Known(old(state.prepared), claim.uid) ==>
        && state.prepared == old(state.prepared) && state.Unsaved()
        && state.host.vdevs == old(state.host.vdevs) && state.host.leaked == old(state.host.leaked)
        && (r.Failure? && claim.allocation.Some? ==> state.Failures() > old(state.Failures()))
        && (r.Devices? ==>
            && Tells(r.devices, state.prepared[claim.uid]) && MarksMirror(state.marks.entries, state.prepared)
            && forall c | c in ActiveNames(state.prepared) :: state.layout.SpecName(c) in state.cdi.entries)
      ensures r.Devices? ==>
        claim.allocation.Some? && claim.uid in state.prepared && Tells(r.devices, state.prepared[claim.uid])
      ensures r.Devices? && !Known(old(state.prepared), claim.uid) ==>
        && Made(old(state.prepared), old(Snap()), state.prepared, Snap(), claim,
          Own(claim.allocation.value, state.layout.vendor), state.allocatable, state.layout, state.host.sizes,
          r.devices)
        && state.Mirrored() && outcome.Kept?
        && (if outcome.saved then state.Saved() else state.Unsaved() && state.SaveTried())
        && (state.Failures() == old(state.Failures()) ==> outcome.saved)
      ensures r.Devices? && !Known(old(state.prepared), claim.uid) ==>
        var list := state.prepared[claim.uid];
        && Answers(r.devices, Own(claim.allocation.value, state.layout.vendor))
        && Resolve(r.devices, list, false, state.cdi.entries)
        && (BaseLists(state.layout, FileAt(state.cdi.entries, state.layout.base), state.allocatable) ==>
            Resolve(r.devices, list, true, state.cdi.entries))
      ensures r.Devices? && Known(old(state.prepared), claim.uid) ==>
        && (CdiMirrors(state.layout, old(state.cdi.entries), state.prepared) ==>
            CdiMirrors(state.layout, state.cdi.entries, state.prepared))
        && (CdiMirrors(state.layout, state.cdi.entries, state.prepared) && NamesOk(state.layout, state.prepared) ==>
            Resolve(r.devices, state.prepared[claim.uid], false, state.cdi.entries))
      ensures state.Failures() >= old(state.Failures()) && state.host.Counted()
      ensures r.Failure? && state.Failures() == old(state.Failures()) ==>
        claim.allocation.None? || !AllPreparable(claim, claim.allocation.value, state.layout.vendor, state.allocatable)
      ensures r.Failure? ==> CleansUp(outcome, touched)
      ensures r.Failure? && !outcome.Repaired? ==>
        GaveUp(old(state.prepared), old(Snap()), state.prepared, Snap(), claim.uid, touched, outcome)
      ensures outcome.Rejected? ==> state.cdi.entries == old(state.cdi.entries)
      ensures outcome.Repaired? <==> claim.allocation.Some? && Known(old(state.prepared), claim.uid)
      ensures KeepsMarks(old(state.prepared), touched, old(state.marks.entries), state.marks.entries)
      ensures claim.allocation.None? || Known(old(state.prepared), claim.uid) ==> touched == {}
      ensures claim.allocation.Some? ==>
        AllOurs(touched, claim, Own(claim.allocation.value, state.layout.vendor), state.allocatable, state.layout,
        old(state.host.vdevs))
      ensures state.Frames(ActiveNames(old(state.prepared))) && state.SavedOrNot()
      ensures old(state.Consistent()) ==> state.Consistent()
    {
      if claim.allocation.None? {
        return Failure("claim has no allocation yet"), {}, Rejected;
      }
      var existing := PrepareExistingClaim(claim.uid);
      if existing.Some? {
        if existing.value.Devices? {
          KnownResolves(state.layout, state.cdi.entries, state.prepared, claim.uid, existing.value.devices);
        }
        return existing.value, {}, Repaired;
      }
      r, touched, outcome := PrepareFresh(claim, claim.allocation.value);
      if r.Devices? {
        MadeResolves(state.layout, state.cdi.entries, state.prepared, claim,
          Own(claim.allocation.value, state.layout.vendor), state.allocatable, state.host.sizes, r.devices);
      }
    }

    /** The lock section of nodeUnprepareResource. `clean` tells that syncs and save passed. */
    method Forget(uid: UID, list: seq<PreparedDevice>) returns (ghost clean: bool)
      requires state.Valid()
      modifies state`prepared, state.cdi, state.marks
      ensures state.prepared == old(state.prepared) - {uid}
      ensures (clean ==> state.Mirrored() && state.Saved()) && state.SyncedEach()
      ensures Cleared(MarksOf(list), state.marks.entries, state.marks.residue, state.prepared)
      ensures state.cdi.Counted() && state.marks.Counted()
      ensures state.Failures() >= old(state.Failures()) && (state.Failures() == old(state.Failures()) ==> clean)
      ensures KeepsMarks(state.prepared, MarksOf(list), old(state.marks.entries), state.marks.entries)
      ensures state.Frames(ActiveNames(state.prepared)) && state.SavedOrNot()
    {
      ghost var before := state.marks.entries;
      RemovePreparedDynamicMarks(state.marks, list);
      state.prepared := state.prepared - {uid};
      ghost var removed := state.marks.entries;
      clean := state.SyncAndSave();
      KeepsAfterRemoval(state.prepared, MarksOf(list), before, removed, state.marks.entries);
    }

    /**
     The rest of nodeUnprepareResource, once the entry is gone and that has been saved, unless the save has failed.
     */
    method Release(uid: UID, list: seq<PreparedDevice>)
      requires state.Valid() && uid !in state.prepared && state.SaveTried()
      modifies state.marks, state.host`vdevs, state.host`leaked, state.host`failures, state.host`lapses
      ensures state.Valid() && state.host.OnlyDestroys(Indices(list)) && state.host.Counted() && state.marks.Counted()
      ensures forall n | n in state.marks.entries ::
        n in old(state.marks.entries) && state.marks.entries[n] == old(state.marks.entries)[n]
      ensures forall n | n in old(state.marks.entries) && !LedBy(n, uid) :: n in state.marks.entries
      ensures forall n | n in state.marks.entries && n in old(state.marks.residue) :: n in state.marks.residue
      ensures unchanged(state.cdi)
      ensures MarksMirror(old(state.marks.entries), state.prepared) && NoMarkLeadsWith(state.prepared, uid) ==>
        MarksMirror(state.marks.entries, state.prepared)
      ensures state.host.lapses == old(state.host.lapses) ==> forall i | i in Indices(list) :: i !in state.host.vdevs
      ensures state.marks.failures == old(state.marks.failures) ==> NoneLeadsWith(state.marks.entries, uid)
    {
      ghost var before := state.marks.entries;
      ghost var seen := RemoveDynamicMarksByClaimUID(state.marks, uid);
      if MarksMirror(before, state.prepared) && NoMarkLeadsWith(state.prepared, uid) {
        MirrorSurvivesSweep(state.prepared, uid, before, state.marks.entries);
      }
      DestroyAll(state.host, list);
    }

    /**
     nodeUnprepareResource. It always succeeds: the claim loses its entry, its vHCUs, its marks and the marks that lead
     with its UID, and whatever fails nobody else loses anything. `clean` tells that syncs and save passed.
     */
    method NodeUnprepareResource(uid: UID) returns (ghost clean: bool)
      requires state.Valid()
      modifies state`prepared, state.cdi, state.marks, state.host`vdevs, state.host`leaked, state.host`failures,
        state.host`lapses
      ensures state.Valid() && state.host.Counted() && state.Failures() >= old(state.Failures())
      ensures state.cdi.Counted() && state.marks.Counted()
      ensures state.prepared == old(state.prepared) - {uid}
      ensures state.host.OnlyDestroys(if uid in old(state.prepared) then Indices(old(state.prepared)[uid]) else {})
      ensures clean ==> state.Saved() && CdiMirrors(state.layout, state.cdi.entries, state.prepared)
      ensures state.SaveTried() && (state.cdi.failures == old(state.cdi.failures) ==>
        state.Saved() && CdiMirrors(state.layout, state.cdi.entries, state.prepared))
      ensures state.marks.failures == old(state.marks.failures) && NoMarkLeadsWith(state.prepared, uid) ==>
        MarksMirror(state.marks.entries, state.prepared)
      ensures uid in old(state.prepared) ==>
        Cleared(MarksOf(old(state.prepared)[uid]), state.marks.entries, state.marks.residue, state.prepared)
      ensures state.cdi.failures == old(state.cdi.failures) && state.marks.failures == old(state.marks.failures) ==>
        clean && NoneLeadsWith(state.marks.entries, uid)
      ensures uid in old(state.prepared) && state.host.lapses == old(state.host.lapses) ==>
        forall i | i in Indices(old(state.prepared)[uid]) :: i !in state.host.vdevs
      ensures SparesMarks(state.prepared, if uid in old(state.prepared) then MarksOf(old(state.prepared)[uid]) else {},
        uid, old(state.marks.entries), state.marks.entries)
      ensures state.Frames(ActiveNames(state.prepared)) && state.SavedOrNot()
      ensures old(state.Consistent()) ==> state.Consistent()
    {
      var list := if uid in state.prepared then state.prepared[uid] else [];
      clean := Forget(uid, list);
      ghost var kept := state.marks.entries;
      Release(uid, list);
      SparesAfterSweep(state.prepared, MarksOf(list), uid, old(state.marks.entries), kept, state.marks.entries);
      if old(state.Consistent()) {
        TrackedRemove(old(state.prepared), uid);
        SaneAfterRemoval(state.layout, old(state.prepared), {uid}, old(state.host.vdevs), old(state.host.leaked),
          state.host.vdevs, state.host.leaked, Indices(list));
      }
    }

    /** One round of PrepareResourceClaims. */
    method PrepareClaim(claim: ResourceClaim) returns (r: PrepareResult)
      requires state.Valid()
      modifies state`prepared, state.cdi, state.marks, state.host`vdevs, state.host`sizes, state.host`leaked,
        state.host`failures, state.host`lapses
      ensures state.Valid()
      ensures Batched(old(Now()), Now(), [claim], map[claim.uid := r], state.allocatable, state.layout)
      ensures old(state.Consistent()) ==> state.Consistent()
    {
      ghost var s, snap := Now(), Snap();
      ghost var touched, outcome;
      r, touched, outcome := NodePrepareResource(claim);
      OneIsBatched(s, snap, Now(), Snap(), claim, r, touched, outcome, state.allocatable, state.layout);
    }

    /**
     PrepareResourceClaims: one claim after the other, each whatever becomes of the others; `trail` has the states in
     between. Only claims of the batch can change, recorded devices stay as they are, every success reports what the
     ledger holds in the end, and every new entry is what its claim asks for. Without failed calls only unpreparable
     claims are refused, and new vHCUs are all recorded. Recorded marks and specs stay, and the state file is as it was
     or holds a ledger that differs in entries of the batch only.
     */
    method PrepareResourceClaims(claims: seq<ResourceClaim>)
        returns (results: map<UID, PrepareResult>, ghost trail: seq<View>, ghost answers: seq<PrepareResult>)
      requires state.Valid()
      modifies state`prepared, state.cdi, state.marks, state.host`vdevs, state.host`sizes, state.host`leaked,
        state.host`failures, state.host`lapses
      ensures state.Valid() && results.Keys == Uids(claims)
      ensures Rounds(trail, claims, answers, state.allocatable, state.layout)
      ensures trail[0] == old(Now()) && trail[|claims|] == Now() && results == Collected(claims, answers)
      ensures Batched(old(Now()), Now(), claims, results, state.allocatable, state.layout)
      ensures old(state.Consistent()) ==> state.Consistent()
    {
      results, trail, answers := map[], [Now()], [];
      for k := 0 to |claims|
        invariant state.Valid()
        invariant Rounds(trail, claims[..k], answers, state.allocatable, state.layout)
        invariant trail[0] == old(Now()) && trail[k] == Now() && results == Collected(claims[..k], answers)
        invariant old(state.Consistent()) ==> state.Consistent()
      {
        var r := PrepareClaim(claims[k]);
        RoundsSnoc(trail, claims, answers, k, Now(), r, state.allocatable, state.layout);
        trail, answers := trail + [Now()], answers + [r];
        results := results[claims[k].uid := r];
      }
      assert claims[..|claims|] == claims && answers[..|claims|] == answers;
      RoundsAreBatched(trail, claims, answers, |claims|, state.allocatable, state.layout);
    }

    /** State file and vHCU specs agree with the ledger. */
    ghost predicate Settled()
      reads state, state.cdi
    {
      state.Saved() && CdiMirrors(state.layout, state.cdi.entries, state.prepared)
    }

    /** One round of UnprepareResourceClaims. */
    method UnprepareOne(uid: UID)
      requires state.Valid()
      modifies state`prepared, state.cdi, state.marks, state.host`vdevs, state.host`leaked, state.host`failures,
        state.host`lapses
      ensures state.Valid() && Withdrawn(old(Now()), Now(), {uid}, state.layout)
      ensures state.SaveTried() && (state.cdi.failures == old(state.cdi.failures) ==> Settled())
      ensures state.cdi.failures >= old(state.cdi.failures)
      ensures old(state.Consistent()) ==> state.Consistent()
    {
      ghost var clean := NodeUnprepareResource(uid);
      OneWithdraws(old(Now()), Now(), uid, state.layout);
    }

    /**
     UnprepareResourceClaims: the claims of the batch lose their entries and exactly their vHCUs, all of them if no
     destroy fails; marks and specs of the others stay, the state file is as it was or holds the ledger without some of
     the batch; it is stale only if the last save has failed, and agrees with the specs if no call on them fails. None
     of the claims reports an error.
     */
    method UnprepareResourceClaims(uids: seq<UID>) returns (results: map<UID, Option<string>>)
      requires state.Valid()
      modifies state`prepared, state.cdi, state.marks, state.host`vdevs, state.host`leaked, state.host`failures,
        state.host`lapses
      ensures state.Valid() && Withdrawn(old(Now()), Now(), results.Keys, state.layout)
      ensures results.Keys == Named(uids) && forall u | u in results :: results[u] == None
      ensures uids != [] ==> state.SaveTried()
      ensures uids != [] && state.cdi.failures == old(state.cdi.failures) ==> Settled()
      ensures old(state.Consistent()) ==> state.Consistent()
    {
      results := map[];
      NothingWithdrawn(Now(), state.layout);
      for k := 0 to |uids|
        invariant state.Valid() && results.Keys == Named(uids[..k])
        invariant Withdrawn(old(Now()), Now(), Named(uids[..k]), state.layout)
        invariant forall u | u in results :: results[u] == None
        invariant k > 0 ==> state.SaveTried()
        invariant state.cdi.failures >= old(state.cdi.failures)
        invariant k > 0 && state.cdi.failures == old(state.cdi.failures) ==> Settled()
        invariant old(state.Consistent()) ==> state.Consistent()
      {
        ghost var s := Now();
        UnprepareOne(uids[k]);
        WithdrawnNext(old(Now()), s, Now(), uids, k, state.layout);
        results := results[uids[k] := None];
      }
      assert uids[..|uids|] == uids;
    }
  }
}
