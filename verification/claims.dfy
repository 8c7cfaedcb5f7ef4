/**
 The transaction that Prepare and Unprepare run over ledger, host and marks, as relations between before and after.
 */
module Claims {
  import opened Types
  import opened Text
  import opened Names
  import opened StateFile
  import opened Storage
  import opened Persistence
  import opened Dcgm
  import opened Marks
  import opened Cdi
  import opened Allocatable
  import opened Enumeration
  import opened Node
  import Capacity

  /** One device of an allocation. */
  datatype AllocationResult = AllocationResult(driver: string, request: string, pool: string, device: string)

  /** A pod and one of its containers. */
  datatype Consumer = Consumer(podUID: string, containerName: string)

  /**
   A claim, with what the API server would answer when asked for the pod and container that use the device made k-th;
   it may answer each time differently, and None stands for an error.
   */
  datatype ResourceClaim = ResourceClaim(uid: UID, allocation: Option<seq<AllocationResult>>,
    requests: seq<Capacity.ClaimRequest>, consumers: seq<Option<Consumer>>)

  /** resolveClaimConsumer, for the device made k-th. A pod has a UID. */
  function ResolveClaimConsumer(claim: ResourceClaim, k: nat): (r: Option<Consumer>)
    ensures r.Some? <==> k < |claim.consumers| && claim.consumers[k].Some? && claim.consumers[k].value.podUID != ""
    ensures r.Some? ==> r == claim.consumers[k]
  {
    if k < |claim.consumers| && claim.consumers[k].Some? && claim.consumers[k].value.podUID != ""
    then claim.consumers[k] else None
  }

  /** The record names the pod and container that use the device, or else the claim and a fixed container. */
  predicate Attached(p: PreparedDevice, uid: UID, consumer: Option<Consumer>) {
    match consumer
    case Some(c) => p.podUID == c.podUID && p.containerName == c.containerName
    case None => p.podUID == uid && p.containerName == "dra"
  }

  /** What kubelet is told about a device. */
  datatype Device = Device(requests: seq<string>, poolName: string, deviceName: string, cdiDeviceIDs: seq<string>)

  /**
   How far a call of nodePrepareResource came: to the repair of a recorded claim, not to the ledger, or to the ledger,
   `saved` when that reached the state file; after a failed sync the record is taken back, `at` so many failed calls,
   `marksAt` of them on marks, and `clean` when the second round of syncs and the save passed.
   */
  datatype Outcome = Repaired | Rejected | Kept(saved: bool) | TakenBack(at: nat, marksAt: nat, clean: bool)

  datatype PrepareResult = Devices(devices: seq<Device>) | Failure(error: string)

  function DeviceOf(p: PreparedDevice): Device {
    Device([p.requestName], p.poolName, p.parentDevice, [p.cdiDeviceID])
  }

  /** The answer names request, pool, card and CDI device of the record. */
  predicate TellsOf(d: Device, p: PreparedDevice) {
    d.requests == [p.requestName] && d.poolName == p.poolName && d.deviceName == p.parentDevice &&
      d.cdiDeviceIDs == [p.cdiDeviceID]
  }

  /** The answer tells of the records, in order. */
  predicate Tells(devices: seq<Device>, list: seq<PreparedDevice>) {
    |devices| == |list| && forall k | 0 <= k < |list| :: TellsOf(devices[k], list[k])
  }

  /** The answer has one device for each result, in order, with one CDI device ID each. */
  predicate Answers(devices: seq<Device>, own: seq<AllocationResult>) {
    && |devices| == |own|
    && forall k | 0 <= k < |own| ::
      devices[k].requests == [own[k].request] && devices[k].poolName == own[k].pool &&
        devices[k].deviceName == own[k].device && |devices[k].cdiDeviceIDs| == 1
  }

  /** The CDI device IDs in the answer are offered: those of vHCUs, and those of whole cards if asked for. */
  ghost predicate Resolve(devices: seq<Device>, list: seq<PreparedDevice>, cards: bool, entries: map<string, Entry>) {
    && |devices| == |list|
    && forall k | 0 <= k < |list| && (cards || !list[k].wholeCard) ::
      forall id | id in devices[k].cdiDeviceIDs :: Offered(id, entries)
  }

  /** An answer that tells of recorded vHCUs resolves once the specs mirror the ledger. */
  lemma VhcusResolve(layout: Layout, entries: map<string, Entry>, prepared: Ledger, uid: UID, devices: seq<Device>)
    requires uid in prepared && Tells(devices, prepared[uid]) && CdiMirrors(layout, entries, prepared)
    requires forall p | p in prepared[uid] :: NameOk(layout, p)
    ensures Resolve(devices, prepared[uid], false, entries)
  {
    var list := prepared[uid];
    forall k, id | 0 <= k < |list| && !list[k].wholeCard && id in devices[k].cdiDeviceIDs ensures Offered(id, entries) {
      assert TellsOf(devices[k], list[k]) && list[k] in list;
      VhcuIsOffered(layout, entries, prepared, list[k]);
    }
  }

  lemma KnownResolves(layout: Layout, entries: map<string, Entry>, prepared: Ledger, uid: UID, devices: seq<Device>)
    requires uid in prepared && Tells(devices, prepared[uid])
    ensures CdiMirrors(layout, entries, prepared) && NamesOk(layout, prepared) ==>
      Resolve(devices, prepared[uid], false, entries)
  {
    if CdiMirrors(layout, entries, prepared) && NamesOk(layout, prepared) {
      VhcusResolve(layout, entries, prepared, uid, devices);
    }
  }

  /** A card that the base spec lists is offered. */
  lemma CardIsOffered(layout: Layout, entries: map<string, Entry>, allocatable: map<string, AllocatableDevice>,
                      name: string)
    requires BaseLists(layout, FileAt(entries, layout.base), allocatable) && name in allocatable
    ensures Offered(QualifiedName(layout.CardKind(), PhysicalCDIDeviceName(allocatable[name])), entries)
  {
    var devices := entries[layout.base].content.spec.devices;
    assert HasDevice(devices, PhysicalCDIDeviceName(allocatable[name]));
    assert QualifiedName(layout.CardKind(), PhysicalCDIDeviceName(allocatable[name])) in
      DeviceIds(entries[layout.base]);
  }

  /** The answer to a Prepare that has made the records resolves, with whole cards if the base spec is up to date. */
  lemma MadeResolves(layout: Layout, entries: map<string, Entry>, prepared: Ledger, claim: ResourceClaim,
                     own: seq<AllocationResult>, allocatable: map<string, AllocatableDevice>, sizes: map<int, Size>,
                     devices: seq<Device>)
    requires claim.uid in prepared && Tells(devices, prepared[claim.uid]) && CdiMirrors(layout, entries, prepared)
    requires Matches(prepared[claim.uid], claim, own, allocatable, layout, sizes)
    ensures Answers(devices, own) && Resolve(devices, prepared[claim.uid], false, entries)
    ensures BaseLists(layout, FileAt(entries, layout.base), allocatable) ==>
      Resolve(devices, prepared[claim.uid], true, entries)
  {
    var list := prepared[claim.uid];
    forall k | 0 <= k < |list| ensures MadeOn(list[k], claim.uid, own[k], allocatable[own[k].device], layout) {
      assert MadeFor(list[k], claim, own[k], allocatable, layout, sizes);
    }
    assert forall k | 0 <= k < |list| :: TellsOf(devices[k], list[k]);
    VhcusResolve(layout, entries, prepared, claim.uid, devices);
    if BaseLists(layout, FileAt(entries, layout.base), allocatable) {
      forall k | 0 <= k < |list| && list[k].wholeCard ensures Offered(devices[k].cdiDeviceIDs[0], entries) {
        CardIsOffered(layout, entries, allocatable, own[k].device);
      }
    }
  }

  /** The allocation results that are this driver's business, in order. */
  function Own(results: seq<AllocationResult>, vendor: string): seq<AllocationResult> {
    if results == [] then []
    else
      var init, last := Own(results[..|results| - 1], vendor), results[|results| - 1];
      if last.driver == vendor then init + [last] else init
  }

  /** A result whose card is published and whose request the claim spells out. */
  ghost predicate Preparable(claim: ResourceClaim, result: AllocationResult,
                             allocatable: map<string, AllocatableDevice>) {
    result.device in allocatable && exists k :: Capacity.Decides(claim.requests, result.request, k)
  }

  ghost predicate AllPreparable(claim: ResourceClaim, results: seq<AllocationResult>, vendor: string,
                                allocatable: map<string, AllocatableDevice>) {
    forall result | result in results && result.driver == vendor :: Preparable(claim, result, allocatable)
  }

  /** The claim's request asks for the whole card, or for a vHCU of the size it got. */
  ghost predicate SizedFor(p: PreparedDevice, carving: Capacity.Carving, sizes: map<int, Size>) {
    if p.wholeCard then carving == Capacity.WholeCard
    else p.vdvInd in sizes && carving == Capacity.Carve(sizes[p.vdvInd].cores, sizes[p.vdvInd].memMiB)
  }

  /** A record made for one allocation result on a card. */
  ghost predicate MadeOn(p: PreparedDevice, uid: UID, result: AllocationResult, alloc: AllocatableDevice,
                         layout: Layout) {
    && p.claimUID == uid && p.parentDevice == result.device && p.requestName == result.request &&
      p.poolName == result.pool
    && p.dvInd == alloc.dvInd && p.dynamicMarkFile != "" && MarkOk(p) && NameOk(layout, p)
    && (p.wholeCard || p.vdvInd >= 0)
    && (p.wholeCard ==>
        p.cdiName == PhysicalCDIDeviceName(alloc) && p.cdiDeviceID == QualifiedName(layout.CardKind(), p.cdiName))
  }

  /** A record made for one allocation result, on a published card and as the claim's request wants it. */
  ghost predicate MadeFor(p: PreparedDevice, claim: ResourceClaim, result: AllocationResult,
                          allocatable: map<string, AllocatableDevice>, layout: Layout, sizes: map<int, Size>) {
    && result.device in allocatable && MadeOn(p, claim.uid, result, allocatable[result.device], layout)
    && SizedFor(p, Capacity.CarvingFor(claim.requests, result.request, allocatable[result.device].capacity), sizes)
  }

  /**
   The record is what its request asks for: the whole card if that names neither cores nor memory, and otherwise a vHCU
   with just the cores named and the memory named, in whole MiB, or the card's where none is named.
   */
  lemma MadeAsAsked(p: PreparedDevice, claim: ResourceClaim, result: AllocationResult,
                    allocatable: map<string, AllocatableDevice>, layout: Layout, sizes: map<int, Size>, k: nat,
                    split: int)
    requires MadeFor(p, claim, result, allocatable, layout, sizes)
    requires Capacity.Decides(claim.requests, result.request, k)
    requires var r, card := claim.requests[k].exactly.value, allocatable[result.device].capacity;
             Capacity.Carvable(card) && Capacity.ValidRequest(card, split, r) && Capacity.Positive(r)
    ensures var r, card := claim.requests[k].exactly.value, allocatable[result.device].capacity;
            && (p.wholeCard <==> r.cores.None? && r.memory.None?)
            && (!p.wholeCard ==>
                p.vdvInd in sizes &&
                Capacity.AsAsked(card, r, sizes[p.vdvInd].cores, sizes[p.vdvInd].memMiB))
  {
    var card := allocatable[result.device].capacity;
    Capacity.DecidingRequest(claim.requests, result.request, card, k);
    Capacity.CarvingIsAsked(card, split, claim.requests[k].exactly.value);
  }

  /** The vHCUs of `created` are new, on the cards their records name, and the others are as they were. */
  ghost predicate Grew(before: map<int, int>, after: map<int, int>, created: seq<PreparedDevice>) {
    && NoRepeat(created) && (forall i | i in Indices(created) :: i !in before)
    && (forall i | i in after :: i in before || i in Indices(created))
    && (forall i | i in before :: i in after && after[i] == before[i])
    && (forall k | 0 <= k < |created| && !created[k].wholeCard ::
      created[k].vdvInd in after && after[created[k].vdvInd] == created[k].dvInd)
  }

  /** vHCUs that were there keep their sizes. */
  ghost predicate SizesStay(v: map<int, int>, sizes: map<int, Size>, sizes': map<int, Size>) {
    forall i | i in v && i in sizes :: i in sizes' && sizes'[i] == sizes[i]
  }

  /**
   A name that Prepare may give a mark for this result: a whole card's, or that of a vHCU that was not there before.
   */
  ghost predicate OursFor(n: string, claim: ResourceClaim, result: AllocationResult,
                          allocatable: map<string, AllocatableDevice>, layout: Layout, v: map<int, int>) {
    && result.device in allocatable
    && exists p :: WouldMark(p, n, claim, result, allocatable[result.device], layout, v)
  }

  ghost predicate WouldMark(p: PreparedDevice, n: string, claim: ResourceClaim, result: AllocationResult,
                            alloc: AllocatableDevice, layout: Layout, v: map<int, int>) {
    && MadeOn(p, claim.uid, result, alloc, layout) && p.dynamicMarkFile == n && (p.wholeCard || p.vdvInd !in v)
    && (p.wholeCard ==> Capacity.CarvingFor(claim.requests, result.request, alloc.capacity) == Capacity.WholeCard)
  }

  /** A name that Prepare may give a mark for this claim. */
  ghost predicate Ours(n: string, claim: ResourceClaim, own: seq<AllocationResult>,
                       allocatable: map<string, AllocatableDevice>, layout: Layout, v: map<int, int>) {
    exists k :: 0 <= k < |own| && OursFor(n, claim, own[k], allocatable, layout, v)
  }

  /** Names that are all this Prepare's to give. */
  ghost predicate AllOurs(names: set<string>, claim: ResourceClaim, own: seq<AllocationResult>,
                          allocatable: map<string, AllocatableDevice>, layout: Layout, v: map<int, int>) {
    forall n | n in names :: Ours(n, claim, own, allocatable, layout, v)
  }

  /** What Prepare touches before it records anything, and how many calls have lapsed. */
  datatype Snapshot = Snapshot(
    entries: map<string, Entry>, residue: set<string>, markLapses: nat, vdevs: map<int, int>, leaked: set<int>,
      hostLapses: nat)

  ghost predicate SameMarks(s: Snapshot, s': Snapshot, names: set<string>) {
    Touched(s.entries, s.residue, s'.entries, s'.residue, names)
  }

  /** Marks and vHCUs of `created` have been added, and nothing else has changed. */
  ghost predicate Built(s: Snapshot, s': Snapshot, created: seq<PreparedDevice>) {
    && Grew(s.vdevs, s'.vdevs, created) && s'.leaked == s.leaked && s.leaked <= s.vdevs.Keys
    && SameMarks(s, s', MarksOf(created)) && MarksOf(created) <= s'.entries.Keys
    && s'.markLapses == s.markLapses && s'.hostLapses == s.hostLapses
  }

  /** The host is as it was, but for vHCUs that lapsed calls have left. */
  ghost predicate HostBack(s: Snapshot, s': Snapshot) {
    && Leaked(s.vdevs, s.leaked, s'.vdevs, s'.leaked) && s'.hostLapses >= s.hostLapses
    && (s'.hostLapses == s.hostLapses ==> forall i | i in s'.vdevs :: i in s.vdevs)
  }

  /**
   The host is as it was, but for vHCUs that lapsed calls have left. So are the marks outside `touched`; of those, each
   that is still there is as it was or could not be written or removed. Without lapsed calls no vHCU and no mark is new.
   */
  ghost predicate Abandoned(s: Snapshot, s': Snapshot, touched: set<string>) {
    && HostBack(s, s') && SameMarks(s, s', touched) && s'.markLapses >= s.markLapses
    && (forall n | n in touched && n in s'.entries ::
      n in s'.residue || (n in s.entries && s'.entries[n] == s.entries[n]))
    && (s'.markLapses == s.markLapses ==> forall n | n in s'.entries :: n in s.entries && s'.entries[n] == s.entries[n])
  }

  /** One device could not be made: what it has written is untouched unless a call has lapsed. */
  ghost predicate Failed(s: Snapshot, s': Snapshot, tried: set<string>) {
    Abandoned(s, s', tried) && (s'.markLapses == s.markLapses ==> s'.entries == s.entries)
  }

  /** The record is made for that result, as the one made nth. */
  ghost predicate MadeNth(p: PreparedDevice, claim: ResourceClaim, result: AllocationResult, nth: nat,
                          allocatable: map<string, AllocatableDevice>, layout: Layout, sizes: map<int, Size>) {
    MadeFor(p, claim, result, allocatable, layout, sizes) && Attached(p, claim.uid, ResolveClaimConsumer(claim, nth))
  }

  /** The records correspond one to one, in order, to the results. */
  ghost predicate Matches(created: seq<PreparedDevice>, claim: ResourceClaim, own: seq<AllocationResult>,
                          allocatable: map<string, AllocatableDevice>, layout: Layout, sizes: map<int, Size>) {
    && |created| == |own|
    && forall k | 0 <= k < |own| :: MadeNth(created[k], claim, own[k], k, allocatable, layout, sizes)
  }

  /** The claim has recorded devices; an empty list counts as not prepared. */
  predicate Known(prepared: Ledger, uid: UID) {
    uid in prepared && prepared[uid] != []
  }

  /** Prepare has recorded all the claim's results, and returns the devices recorded. */
  ghost predicate Made(before: Ledger, s: Snapshot, after: Ledger, s': Snapshot, claim: ResourceClaim,
                       own: seq<AllocationResult>, allocatable: map<string, AllocatableDevice>, layout: Layout,
                       sizes: map<int, Size>, devices: seq<Device>) {
    && claim.uid in after && after == before[claim.uid := after[claim.uid]] && Tells(devices, after[claim.uid])
    && Matches(after[claim.uid], claim, own, allocatable, layout, sizes)
    && Grew(s.vdevs, s'.vdevs, after[claim.uid]) && s'.leaked == s.leaked
  }

  /**
   Prepare has failed for a claim without recorded devices, before it recorded anything or taking its record back. All
   recorded devices are those that were recorded.
   */
  ghost predicate GaveUp(before: Ledger, s: Snapshot, after: Ledger, s': Snapshot, uid: UID, touched: set<string>,
                         outcome: Outcome) {
    && HostBack(s, s') && (outcome.TakenBack? || outcome.Rejected?)
    && after == (if outcome.TakenBack? then before - {uid} else before) && SameClaims(before, after)
    && (outcome.Rejected? ==> Abandoned(s, s', touched))
  }

  /** Only entries of those claims have changed, and recorded devices stay. */
  ghost predicate Extends(before: Ledger, after: Ledger, uids: set<UID>) {
    && (forall u | u !in uids :: (u in after <==> u in before) && (u in after ==> after[u] == before[u]))
    && RecordsStay(before, after)
  }

  ghost predicate RecordsStay(before: Ledger, after: Ledger) {
    forall u | Known(before, u) :: u in after && after[u] == before[u]
  }

  /** Recorded devices that stay keep their vHCUs, marks and specs in the ledger. */
  lemma StillRecorded(before: Ledger, after: Ledger)
    requires RecordsStay(before, after)
    ensures Tracked(before) <= Tracked(after) && ActiveMarks(before) <= ActiveMarks(after)
    ensures ActiveNames(before) <= ActiveNames(after)
    ensures forall n | Spelt(before, n) :: Spelt(after, n)
  {
    forall u, p | u in before && p in before[u] ensures u in after && p in after[u] {
      assert Known(before, u);
    }
  }

  /** What a batch has done to the ledger, and what it reports. */
  ghost predicate Reports(before: Ledger, after: Ledger, results: map<UID, PrepareResult>) {
    && Extends(before, after, results.Keys)
    && (forall u | u in results && results[u].Devices? :: u in after && Tells(results[u].devices, after[u]))
  }

  /** The entries that are not empty. */
  function NonEmpty(prepared: Ledger): Ledger {
    map u | u in prepared && prepared[u] != [] :: prepared[u]
  }

  ghost predicate SameClaims(before: Ledger, after: Ledger) { NonEmpty(before) == NonEmpty(after) }

  lemma EmptyEntryGoes(before: Ledger, uid: UID)
    requires !Known(before, uid)
    ensures SameClaims(before, before - {uid})
  {
  }

  /**
   The claims have lost their entries and their vHCUs, and nothing else has changed but for what failed destroys leave.
   */
  ghost predicate Released(before: Ledger, v: map<int, int>, l: set<int>, after: Ledger, v': map<int, int>,
                           l': set<int>, uids: set<UID>) {
    after == before - uids && Destroyed(v, l, v', l', TrackedBy(before, uids))
  }

  lemma ReleasedOnce(before: Ledger, uid: UID)
    ensures TrackedBy(before, {uid}) == if uid in before then Indices(before[uid]) else {}
  {
  }

  lemma ReleasedMore(l0: Ledger, v0: map<int, int>, k0: set<int>, l1: Ledger, v1: map<int, int>, k1: set<int>,
                     l2: Ledger, v2: map<int, int>, k2: set<int>, uids: set<UID>, uid: UID)
    requires Released(l0, v0, k0, l1, v1, k1, uids) && Released(l1, v1, k1, l2, v2, k2, {uid})
    ensures Released(l0, v0, k0, l2, v2, k2, uids + {uid})
  {
  }

  /** No mark file leads with the claim's UID. */
  ghost predicate NoneLeadsWith(entries: map<string, Entry>, uid: UID) {
    uid != "" ==> forall n | n in entries && entries[n].File? :: !HasPrefix(n, uid + "_")
  }

  lemma OwnSnoc(results: seq<AllocationResult>, k: nat, vendor: string)
    requires k < |results|
    ensures Own(results[..k + 1], vendor) == Own(results[..k], vendor) +
      (if results[k].driver == vendor then [results[k]] else [])
  {
    assert results[..k + 1][..k] == results[..k];
  }

  /** A record made before is still of the size it was made with. */
  lemma MadeForLater(p: PreparedDevice, claim: ResourceClaim, result: AllocationResult,
                     allocatable: map<string, AllocatableDevice>, layout: Layout, v: map<int, int>,
                     sizes: map<int, Size>, sizes': map<int, Size>)
    requires MadeFor(p, claim, result, allocatable, layout, sizes) && SizesStay(v, sizes, sizes')
    requires p.wholeCard || p.vdvInd in v
    ensures MadeFor(p, claim, result, allocatable, layout, sizes')
  {
  }

  lemma MatchesSnoc(created: seq<PreparedDevice>, claim: ResourceClaim, own: seq<AllocationResult>,
                    allocatable: map<string, AllocatableDevice>, layout: Layout, sizes: map<int, Size>,
                    sizes': map<int, Size>, v: map<int, int>, p: PreparedDevice, result: AllocationResult)
    requires Matches(created, claim, own, allocatable, layout, sizes) &&
      MadeFor(p, claim, result, allocatable, layout, sizes')
    requires Attached(p, claim.uid, ResolveClaimConsumer(claim, |created|))
    requires Indices(created) <= v.Keys && SizesStay(v, sizes, sizes')
    ensures Matches(created + [p], claim, own + [result], allocatable, layout, sizes')
  {
    MatchesLater(created, claim, own, allocatable, layout, sizes, sizes', v);
    var all, both := created + [p], own + [result];
    assert MadeNth(p, claim, result, |created|, allocatable, layout, sizes');
    forall k | 0 <= k < |both| ensures MadeNth(all[k], claim, both[k], k, allocatable, layout, sizes') {
      if k < |own| {
        assert all[k] == created[k] && both[k] == own[k];
      }
    }
  }

  lemma MatchesLater(created: seq<PreparedDevice>, claim: ResourceClaim, own: seq<AllocationResult>,
                     allocatable: map<string, AllocatableDevice>, layout: Layout, sizes: map<int, Size>,
                     sizes': map<int, Size>, v: map<int, int>)
    requires Matches(created, claim, own, allocatable, layout, sizes)
    requires Indices(created) <= v.Keys && SizesStay(v, sizes, sizes')
    ensures Matches(created, claim, own, allocatable, layout, sizes')
  {
    forall k | 0 <= k < |own| ensures MadeNth(created[k], claim, own[k], k, allocatable, layout, sizes') {
      assert MadeNth(created[k], claim, own[k], k, allocatable, layout, sizes);
      assert created[k].wholeCard || created[k].vdvInd in Indices(created);
      MadeForLater(created[k], claim, own[k], allocatable, layout, v, sizes, sizes');
    }
  }

  lemma TellsSnoc(devices: seq<Device>, list: seq<PreparedDevice>, d: Device, p: PreparedDevice)
    requires Tells(devices, list) && TellsOf(d, p)
    ensures Tells(devices + [d], list + [p])
  {
  }

  lemma GrewCovers(v: map<int, int>, v': map<int, int>, created: seq<PreparedDevice>)
    requires Grew(v, v', created)
    ensures Indices(created) <= v'.Keys
  {
  }

  /** What prepareAllocatedDevices has made, and the answers it has put together. */
  ghost predicate Allocated(s0: Snapshot, sizes0: map<int, Size>, s: Snapshot, sizes: map<int, Size>,
                            claim: ResourceClaim, own: seq<AllocationResult>, created: seq<PreparedDevice>,
                            devices: seq<Device>, allocatable: map<string, AllocatableDevice>, layout: Layout) {
    && Built(s0, s, created) && SizesStay(s0.vdevs, sizes0, sizes)
    && Matches(created, claim, own, allocatable, layout, sizes) && Tells(devices, created)
  }

  /** One more device made after others. */
  lemma AllocatedMore(s0: Snapshot, sizes0: map<int, Size>, s1: Snapshot, sizes1: map<int, Size>, s2: Snapshot,
                      sizes2: map<int, Size>, claim: ResourceClaim, own: seq<AllocationResult>,
                      created: seq<PreparedDevice>, devices: seq<Device>,
                      allocatable: map<string, AllocatableDevice>, layout: Layout, p: PreparedDevice, d: Device,
                      result: AllocationResult)
    requires Allocated(s0, sizes0, s1, sizes1, claim, own, created, devices, allocatable, layout)
    requires Built(s1, s2, [p]) && SizesStay(s1.vdevs, sizes1, sizes2)
    requires MadeFor(p, claim, result, allocatable, layout, sizes2) && TellsOf(d, p)
    requires Attached(p, claim.uid, ResolveClaimConsumer(claim, |created|))
    ensures Allocated(s0, sizes0, s2, sizes2, claim, own + [result], created + [p], devices + [d], allocatable, layout)
  {
    BuiltSnoc(s0, s1, s2, created, p);
    GrewCovers(s0.vdevs, s1.vdevs, created);
    MatchesSnoc(created, claim, own, allocatable, layout, sizes1, sizes2, s1.vdevs, p, result);
    SizesStayMore(s0, s1, created, sizes0, sizes1, sizes2);
    TellsSnoc(devices, created, d, p);
  }

  lemma GrewSnoc(v0: map<int, int>, v1: map<int, int>, v2: map<int, int>, created: seq<PreparedDevice>,
                 p: PreparedDevice)
    requires Grew(v0, v1, created) && Grew(v1, v2, [p])
    ensures Grew(v0, v2, created + [p])
  {
  }

  lemma TouchedMore(e0: map<string, Entry>, r0: set<string>, e1: map<string, Entry>, r1: set<string>,
                    e2: map<string, Entry>, r2: set<string>, a: set<string>, b: set<string>)
    requires Touched(e0, r0, e1, r1, a) && Touched(e1, r1, e2, r2, b)
    ensures Touched(e0, r0, e2, r2, a + b)
  {
  }

  lemma MarksOfSnoc(list: seq<PreparedDevice>, p: PreparedDevice)
    requires p.dynamicMarkFile != ""
    ensures MarksOf(list + [p]) == MarksOf(list) + {p.dynamicMarkFile}
  {
  }

  lemma BuiltSnoc(s0: Snapshot, s1: Snapshot, s2: Snapshot, created: seq<PreparedDevice>, p: PreparedDevice)
    requires Built(s0, s1, created) && Built(s1, s2, [p]) && p.dynamicMarkFile != ""
    ensures Built(s0, s2, created + [p])
  {
    GrewSnoc(s0.vdevs, s1.vdevs, s2.vdevs, created, p);
    MarksOfSnoc(created, p);
    MarksOfSnoc([], p);
    assert [] + [p] == [p];
    TouchedMore(s0.entries, s0.residue, s1.entries, s1.residue, s2.entries, s2.residue, MarksOf(created),
      {p.dynamicMarkFile});
    assert forall n | n in MarksOf(created) && n != p.dynamicMarkFile :: n in s2.entries;
  }

  /** What has been made has marks that Prepare may give. */
  lemma MadeAreOurs(created: seq<PreparedDevice>, claim: ResourceClaim, own: seq<AllocationResult>,
                    allocatable: map<string, AllocatableDevice>, layout: Layout, sizes: map<int, Size>,
                    v: map<int, int>, v': map<int, int>)
    requires Matches(created, claim, own, allocatable, layout, sizes) && Grew(v, v', created)
    ensures AllOurs(MarksOf(created), claim, own, allocatable, layout, v)
  {
    forall n | n in MarksOf(created) ensures Ours(n, claim, own, allocatable, layout, v) {
      var p :| p in created && p.dynamicMarkFile != "" && p.dynamicMarkFile == n;
      var k :| 0 <= k < |created| && created[k] == p;
      assert MadeFor(created[k], claim, own[k], allocatable, layout, sizes);
      assert p.wholeCard || p.vdvInd in Indices(created);
      assert WouldMark(p, n, claim, own[k], allocatable[own[k].device], layout, v);
      assert OursFor(n, claim, own[k], allocatable, layout, v);
    }
  }

  /**
   Building and destroying what was built leave the host as it was, but for leaks; and for nothing if no destroy
   lapses.
   */
  lemma HostIsBack(s0: Snapshot, s1: Snapshot, s2: Snapshot, created: seq<PreparedDevice>)
    requires Built(s0, s1, created) && Destroyed(s1.vdevs, s1.leaked, s2.vdevs, s2.leaked, Indices(created))
    requires s2.hostLapses >= s1.hostLapses
    requires s2.hostLapses == s1.hostLapses ==> forall i | i in Indices(created) :: i !in s2.vdevs
    ensures HostBack(s0, s2)
  {
  }

  /** What a rollback of `created` has done. */
  ghost predicate RolledBack(s: Snapshot, s': Snapshot, created: seq<PreparedDevice>) {
    && Destroyed(s.vdevs, s.leaked, s'.vdevs, s'.leaked, Indices(created)) && SameMarks(s, s', MarksOf(created))
    && s'.markLapses >= s.markLapses && s'.hostLapses >= s.hostLapses
    && (forall n | n in s'.entries :: n in s.entries && s'.entries[n] == s.entries[n])
    && (forall n | n in MarksOf(created) && n in s'.entries :: n in s'.residue)
    && (s'.markLapses == s.markLapses ==> forall n | n in MarksOf(created) :: n !in s'.entries)
    && (s'.hostLapses == s.hostLapses ==> forall i | i in Indices(created) :: i !in s'.vdevs)
  }

  /** Building, a failed device, and a rollback come to nothing. */
  lemma RollbackRestores(s0: Snapshot, s1: Snapshot, s2: Snapshot, s3: Snapshot, created: seq<PreparedDevice>,
                         tried: set<string>)
    requires Built(s0, s1, created) && Failed(s1, s2, tried) && RolledBack(s2, s3, created)
    ensures Abandoned(s0, s3, MarksOf(created) + tried)
  {
  }

  /**
   All or nothing: without lapsed calls, and with marks that nobody had before, an abandoned Prepare leaves no trace.
   */
  lemma AbandonedLeavesNoTrace(s: Snapshot, s': Snapshot, touched: set<string>)
    requires Abandoned(s, s', touched) && s'.markLapses == s.markLapses && s'.hostLapses == s.hostLapses
    requires touched !! s.entries.Keys
    ensures s'.entries == s.entries && (forall i :: i in s'.vdevs <==> i in s.vdevs) && forall i | i in s.vdevs ::
      s'.vdevs[i] == s.vdevs[i]
  {
  }

  /** Marks that are recorded and not of this claim survive its record. */
  lemma MarksSurviveRecord(prepared: Ledger, uid: UID, created: seq<PreparedDevice>, e1: map<string, Entry>,
                           e2: map<string, Entry>)
    requires (forall p | p in created :: MarkOk(p)) && !Known(prepared, uid)
    requires KeepsMarks(prepared[uid := created], {}, e1, e2)
    ensures KeepsMarks(prepared, {}, e1, e2)
  {
    var recorded := prepared[uid := created];
    forall n | n in ActiveMarks(prepared) ensures n in ActiveMarks(recorded) {
      var u, p :| u in prepared && p in prepared[u] && p.dynamicMarkFile != "" && p.dynamicMarkFile == n;
      assert u != uid && p in recorded[u];
    }
    forall n | Contested(recorded, n) ensures Contested(prepared, n) {
      ContestedBefore(prepared, uid, created, n);
    }
  }

  /** Marks that are recorded and not of this claim survive its record and its removal. */
  lemma MarksAreBack(prepared: Ledger, uid: UID, created: seq<PreparedDevice>, e1: map<string, Entry>,
                     e2: map<string, Entry>, e3: map<string, Entry>)
    requires (forall p | p in created :: MarkOk(p)) && !Known(prepared, uid)
    requires KeepsMarks(prepared[uid := created], {}, e1, e2)
    requires KeepsMarks(prepared - {uid}, MarksOf(created), e2, e3)
    ensures KeepsMarks(prepared, MarksOf(created), e1, e3)
  {
    MarksSurviveRecord(prepared, uid, created, e1, e2);
    forall n | n in ActiveMarks(prepared) ensures n in ActiveMarks(prepared - {uid}) {
      var u, p :| u in prepared && p in prepared[u] && p.dynamicMarkFile != "" && p.dynamicMarkFile == n;
      assert u != uid && p in (prepared - {uid})[u];
    }
    forall n | Contested(prepared - {uid}, n) ensures Contested(prepared, n) {
      ContestedBefore(prepared, uid, [], n);
    }
  }

  /** The vHCUs recorded before are recorded after a Prepare, and after it has taken its record back. */
  lemma NamesStay(prepared: Ledger, uid: UID, created: seq<PreparedDevice>)
    requires !Known(prepared, uid)
    ensures ActiveNames(prepared) <= ActiveNames(prepared[uid := created])
    ensures ActiveNames(prepared) <= ActiveNames(prepared - {uid})
  {
    forall u, p | u in prepared && p in prepared[u] && !p.wholeCard
      ensures p.cdiName in ActiveNames(prepared[uid := created]) && p.cdiName in ActiveNames(prepared - {uid})
    {
      assert p in prepared[uid := created][u] && p in (prepared - {uid})[u];
    }
  }

  /** The files under the CDI root after a record and its removal. */
  lemma FramesAreBack(layout: Layout, prepared: Ledger, uid: UID, created: seq<PreparedDevice>, e0: map<string, Entry>,
                      r0: set<string>, e1: map<string, Entry>, r1: set<string>, e2: map<string, Entry>,
                      r2: set<string>)
    requires !Known(prepared, uid)
    requires CdiFrame(layout, ActiveNames(prepared[uid := created]), e0, r0, e1, r1)
    requires CdiFrame(layout, ActiveNames(prepared - {uid}), e1, r1, e2, r2)
    ensures CdiFrame(layout, ActiveNames(prepared), e0, r0, e2, r2)
  {
    var recorded: Ledger := prepared[uid := created];
    NamesStay(prepared, uid, created);
    FrameLess(layout, ActiveNames(recorded), ActiveNames(prepared), e0, r0, e1, r1);
    FrameLess(layout, ActiveNames(prepared - {uid}), ActiveNames(prepared), e1, r1, e2, r2);
    FrameMore(layout, ActiveNames(prepared), e0, r0, e1, r1, e2, r2);
  }

  lemma KeepsSinceBuilt(prepared: Ledger, s0: Snapshot, s1: Snapshot, created: seq<PreparedDevice>,
                        e: map<string, Entry>)
    requires Built(s0, s1, created) && KeepsMarks(prepared, MarksOf(created), s1.entries, e)
    ensures KeepsMarks(prepared, MarksOf(created), s0.entries, e)
  {
  }

  lemma ContestedBefore(prepared: Ledger, uid: UID, created: seq<PreparedDevice>, n: string)
    requires forall p | p in created :: MarkOk(p)
    requires Contested(prepared[uid := created], n) || Contested(prepared - {uid}, n)
    ensures Contested(prepared, n)
  {
    var ledger: Ledger := if Contested(prepared[uid := created], n) then prepared[uid := created] else prepared - {uid};
    var u, p :| u in ledger && p in ledger[u] && p.dynamicMarkFile !in {"", n} && RebuiltMark(p) == n;
    assert u in prepared && p in prepared[u];
  }

  lemma SaneAfterPrepare(layout: Layout, before: Ledger, after: Ledger, claim: ResourceClaim, s: Snapshot,
                         s': Snapshot, own: seq<AllocationResult>, allocatable: map<string, AllocatableDevice>,
                         sizes: map<int, Size>, r: PrepareResult, touched: set<string>, outcome: Outcome)
    requires s.leaked <= s.vdevs.Keys
    requires
      if r.Devices? then Made(before, s, after, s', claim, own, allocatable, layout, sizes, r.devices)
      else GaveUp(before, s, after, s', claim.uid, touched, outcome)
    ensures Sane(layout, before, s.vdevs, s.leaked) ==> Sane(layout, after, s'.vdevs, s'.leaked)
  {
    if Sane(layout, before, s.vdevs, s.leaked) {
      TrackedRemove(before, claim.uid);
      DistinctRemove(before, claim.uid);
      if r.Devices? {
        SaneWithRecord(layout, before, claim, after[claim.uid], s, s', own, allocatable, sizes);
      }
    }
  }

  lemma SaneWithRecord(layout: Layout, before: Ledger, claim: ResourceClaim, list: seq<PreparedDevice>, s: Snapshot,
                       s': Snapshot, own: seq<AllocationResult>, allocatable: map<string, AllocatableDevice>,
                       sizes: map<int, Size>)
    requires Sane(layout, before, s.vdevs, s.leaked) && s.leaked <= s.vdevs.Keys
    requires Matches(list, claim, own, allocatable, layout, sizes) && Grew(s.vdevs, s'.vdevs, list)
    requires s'.leaked == s.leaked
    ensures Sane(layout, before[claim.uid := list], s'.vdevs, s'.leaked)
  {
    var after := before[claim.uid := list];
    assert Distinct(after) by {
      TrackedRemove(before, claim.uid);
      DistinctUpdate(before, claim.uid, list);
    }
    assert forall i | i in Tracked(after) :: i in s'.vdevs && i !in s'.leaked by {
      TrackedUpdate(before, claim.uid, list);
      TrackedRemove(before, claim.uid);
      forall i | i in Indices(list) ensures i in s'.vdevs && i !in s'.leaked {
        var p :| p in list && !p.wholeCard && p.vdvInd == i;
      }
    }
    assert forall p | p in list :: MarkOk(p) && NameOk(layout, p);
  }

  /** Prepare puts its vHCUs on the cards their records name. */
  lemma SitsAfterPrepare(before: Ledger, claim: ResourceClaim, list: seq<PreparedDevice>, own: seq<AllocationResult>,
                         cards: seq<CardInfo>, allocatable: map<string, AllocatableDevice>, layout: Layout,
                         sizes: map<int, Size>, v: map<int, int>, v': map<int, int>)
    requires SitsOnParent(before, cards, v) && Tracked(before) <= v.Keys
    requires forall name | name in allocatable :: NamesCard(name, cards, allocatable[name].dvInd)
    requires Matches(list, claim, own, allocatable, layout, sizes) && Grew(v, v', list)
    ensures SitsOnParent(before[claim.uid := list], cards, v')
  {
  }

  /** The sweep for a claim UID spares marks that lead with another one. */
  lemma MirrorSurvivesSweep(prepared: Ledger, uid: UID, e: map<string, Entry>, e': map<string, Entry>)
    requires MarksMirror(e, prepared) && NoMarkLeadsWith(prepared, uid)
    requires forall n | n in e' :: n in e && e'[n] == e[n]
    requires forall n | n in e && !LedBy(n, uid) :: n in e'
    ensures MarksMirror(e', prepared)
  {
    forall n | n in ActiveMarks(prepared) ensures !HasPrefix(n, uid + "_") {
      var u, p :| u in prepared && p in prepared[u] && p.dynamicMarkFile != "" && p.dynamicMarkFile == n;
      PrefixSelectsUid(uid, LeadOf(p), ContainerOf(p), p.dvInd, MarkIndex(p.wholeCard, p.vdvInd));
    }
  }

  /** Every recorded mark is spelled by its fields and leads with a pod or claim UID other than this one. */
  ghost predicate NoMarkLeadsWith(prepared: Ledger, uid: UID) {
    '_' !in uid && forall u | u in prepared :: forall p | p in prepared[u] && p.dynamicMarkFile != "" ::
      MarkOk(p) && '_' !in LeadOf(p) && LeadOf(p) != uid
  }

  function LeadOf(p: PreparedDevice): string { if p.podUID == "" then p.claimUID else p.podUID }

  function ContainerOf(p: PreparedDevice): string { if p.podUID == "" then FALLBACK_CONTAINER else p.containerName }

  /** One vHCU is new. */
  ghost predicate Created(s: Snapshot, s': Snapshot, i: int, dvInd: int) {
    && i >= 0 && i !in s.vdevs && s.leaked <= s.vdevs.Keys
    && s' == s.(vdevs := s.vdevs[i := dvInd])
  }

  /** A new vHCU and its mark. */
  lemma BuiltOne(s: Snapshot, s1: Snapshot, s2: Snapshot, p: PreparedDevice)
    requires !p.wholeCard && Created(s, s1, p.vdvInd, p.dvInd)
    requires s2 == s1.(entries := s2.entries, residue := s2.residue)
    requires p.dynamicMarkFile != "" && SameMarks(s1, s2, {p.dynamicMarkFile}) && p.dynamicMarkFile in s2.entries
    ensures Built(s, s2, [p])
  {
    assert p in [p] && MarksOf([p]) == {p.dynamicMarkFile};
  }

  /** A new vHCU, a mark that could not be written, and the destroy of the vHCU. */
  lemma DroppedOne(s: Snapshot, s1: Snapshot, s2: Snapshot, s3: Snapshot, i: int, dvInd: int, mark: string)
    requires Created(s, s1, i, dvInd) && SameMarks(s1, s2, {mark}) && s2.markLapses >= s1.markLapses
    requires s2 == s1.(entries := s2.entries, residue := s2.residue, markLapses := s2.markLapses)
    requires mark in s2.residue || s2.entries == s1.entries
    requires s2.markLapses == s1.markLapses ==> s2.entries == s1.entries
    requires s3 == s2.(vdevs := s3.vdevs, leaked := s3.leaked, hostLapses := s3.hostLapses) &&
      s3.hostLapses >= s2.hostLapses
    requires Destroyed(s2.vdevs, s2.leaked, s3.vdevs, s3.leaked, {i}) &&
      (s3.hostLapses == s2.hostLapses ==> i !in s3.vdevs)
    ensures Failed(s, s3, {mark})
  {
  }

  lemma SizesStayMore(s0: Snapshot, s1: Snapshot, created: seq<PreparedDevice>, sizes0: map<int, Size>,
                      sizes1: map<int, Size>, sizes2: map<int, Size>)
    requires Built(s0, s1, created) && SizesStay(s0.vdevs, sizes0, sizes1) && SizesStay(s1.vdevs, sizes1, sizes2)
    ensures SizesStay(s0.vdevs, sizes0, sizes2)
  {
  }

  lemma {:induction false} OwnPrefix(results: seq<AllocationResult>, k: nat, vendor: string)
    requires k <= |results|
    ensures Own(results[..k], vendor) <= Own(results, vendor)
    ensures k < |results| && results[k].driver == vendor ==> results[k] in Own(results, vendor)
  {
    var n := |results| - 1;
    if k <= n {
      OwnPrefix(results[..n], k, vendor);
      assert results[..n][..k] == results[..k];
    } else {
      assert results[..k] == results;
    }
  }

  /** The names tried for one more result, and those given before, are this Prepare's to give. */
  lemma TriedAreOurs(claim: ResourceClaim, results: seq<AllocationResult>, k: nat,
                     allocatable: map<string, AllocatableDevice>, layout: Layout, v: map<int, int>, v1: map<int, int>,
                     n: string)
    requires k < |results| && results[k].driver == layout.vendor && forall i | i in v :: i in v1
    requires || OursFor(n, claim, results[k], allocatable, layout, v1)
             || Ours(n, claim, Own(results[..k], layout.vendor), allocatable, layout, v)
    ensures Ours(n, claim, Own(results, layout.vendor), allocatable, layout, v)
  {
    var own := Own(results, layout.vendor);
    OwnPrefix(results, k, layout.vendor);
    if OursFor(n, claim, results[k], allocatable, layout, v1) {
      var j :| 0 <= j < |own| && own[j] == results[k];
      var p :| WouldMark(p, n, claim, results[k], allocatable[results[k].device], layout, v1);
      assert WouldMark(p, n, claim, own[j], allocatable[own[j].device], layout, v);
      assert OursFor(n, claim, own[j], allocatable, layout, v);
    } else {
      var init := Own(results[..k], layout.vendor);
      var j :| 0 <= j < |init| && OursFor(n, claim, init[j], allocatable, layout, v);
      assert own[j] == init[j];
    }
  }

  /** Recorded marks that are neither of the list nor led by the UID stay, untouched unless contested. */
  ghost predicate SparesMarks(prepared: Ledger, marks: set<string>, uid: UID, before: map<string, Entry>,
                              after: map<string, Entry>) {
    forall n | n in ActiveMarks(prepared) && n in before && n !in marks && !LedBy(n, uid) ::
      n in after && (after[n] == before[n] || Contested(prepared, n))
  }

  lemma SparesAfterSweep(prepared: Ledger, marks: set<string>, uid: UID, e0: map<string, Entry>,
                         e1: map<string, Entry>, e2: map<string, Entry>)
    requires KeepsMarks(prepared, marks, e0, e1)
    requires forall n | n in e2 :: n in e1 && e2[n] == e1[n]
    requires forall n | n in e1 && !LedBy(n, uid) :: n in e2
    ensures SparesMarks(prepared, marks, uid, e0, e2)
  {
  }
}
