/**
 What users of the node see across several calls: device IDs resolve, failures leave no trace, restarts lose nothing.
 */
module Recovery {
  import opened Types
  import opened Names
  import opened StateFile
  import opened Storage
  import opened Persistence
  import opened Dcgm
  import opened Marks
  import opened Cdi
  import opened Allocatable
  import opened Enumeration
  import opened Node
  import opened Claims
  import opened DriverPlugin

  /** A device ID comes apart in one way only. */
  lemma QualifiedNameInjective(kind: string, name: string, kind': string, name': string)
    requires '=' !in kind && '=' !in kind' && QualifiedName(kind, name) == QualifiedName(kind', name')
    ensures kind == kind' && name == name'
  {
    var s := QualifiedName(kind, name);
    assert s[|kind|] == '=' && s[|kind'|] == '=';
    assert s[..|kind|] == kind && s[..|kind'|] == kind';
    assert s[|kind| + 1..] == name && s[|kind'| + 1..] == name';
  }

  lemma KindsDiffer(layout: Layout, card: string, vhcu: string)
    requires '=' !in layout.vendor
    ensures QualifiedName(layout.CardKind(), card) != QualifiedName(layout.VDeviceKind(), vhcu)
  {
    assert layout.CardKind()[|layout.vendor| + 1..] == "hcu" && layout.VDeviceKind()[|layout.vendor| + 1..] == "vhcu";
    if QualifiedName(layout.CardKind(), card) == QualifiedName(layout.VDeviceKind(), vhcu) {
      QualifiedNameInjective(layout.CardKind(), card, layout.VDeviceKind(), vhcu);
    }
  }

  /** A spec file that holds one device offers the ID of that device only. */
  lemma OffersOne(e: Entry, kind: string, c: string, cdiName: string)
    requires '=' !in kind && HoldsDevice(e, kind, c)
    ensures QualifiedName(kind, cdiName) in DeviceIds(e) <==> c == cdiName
  {
    var d := e.content.spec.devices[0];
    assert forall x :: x in e.content.spec.devices <==> x == d;
    if QualifiedName(kind, cdiName) == QualifiedName(kind, c) {
      QualifiedNameInjective(kind, cdiName, kind, c);
    }
  }

  /** Once the specs mirror the ledger, a recorded vHCU's device ID is offered by its own spec file and by no other. */
  lemma VhcuResolves(layout: Layout, entries: map<string, Entry>, prepared: Ledger, p: PreparedDevice, n: string)
    requires layout.Ok() && '=' !in layout.vendor && CdiMirrors(layout, entries, prepared) && NamesOk(layout, prepared)
    requires Recorded(prepared, p) && n in entries && (layout.IsSpec(n) || n == layout.base)
    requires FileAt(entries, layout.base).Some? && FileAt(entries, layout.base).value.Spec? ==>
      FileAt(entries, layout.base).value.spec.kind == layout.CardKind()
    ensures layout.SpecName(p.cdiName) in entries
    ensures p.cdiDeviceID in DeviceIds(entries[n]) <==> n == layout.SpecName(p.cdiName)
  {
    var u :| u in prepared && p in prepared[u];
    assert NameOk(layout, p) && p.cdiName in ActiveNames(prepared);
    OwnFile(layout, p.cdiName);
    if n == layout.base {
      forall d ensures QualifiedName(layout.CardKind(), d) != p.cdiDeviceID {
        KindsDiffer(layout, d, p.cdiName);
      }
    } else {
      OwnFile(layout, layout.CdiNameOf(n));
      OffersOne(entries[n], layout.VDeviceKind(), layout.CdiNameOf(n), p.cdiName);
    }
  }

  lemma OwnFile(layout: Layout, c: string)
    requires layout.Ok()
    ensures layout.IsSpec(layout.SpecName(c)) && layout.CdiNameOf(layout.SpecName(c)) == c &&
      layout.SpecName(c) != layout.base
  {
  }

  /** The base spec offers a card's device ID exactly when a published card has that CDI name. */
  lemma BaseResolvesIff(layout: Layout, entries: map<string, Entry>, allocatable: map<string, AllocatableDevice>,
                        cdiName: string)
    requires BaseLists(layout, FileAt(entries, layout.base), allocatable)
    ensures QualifiedName(layout.CardKind(), cdiName) in DeviceIds(entries[layout.base]) <==>
      exists name :: name in allocatable && PhysicalCDIDeviceName(allocatable[name]) == cdiName
  {
    var kind, devices := layout.CardKind(), entries[layout.base].content.spec.devices;
    if d :| d in devices && QualifiedName(kind, d.name) == QualifiedName(kind, cdiName) {
      assert QualifiedName(kind, d.name)[|kind| + 1..] == d.name &&
        QualifiedName(kind, cdiName)[|kind| + 1..] == cdiName;
    }
    if name :| name in allocatable && PhysicalCDIDeviceName(allocatable[name]) == cdiName {
      assert HasDevice(devices, PhysicalCDIDeviceName(allocatable[name]));
    }
  }

  /** After a refresh, a recorded whole card resolves as long as its card is reported under its name with its UUID. */
  lemma WholeCardResolves(layout: Layout, entries: map<string, Entry>, prepared: Ledger, cards: seq<CardInfo>,
                          vdevs: map<int, int>, p: PreparedDevice)
    requires BaseLists(layout, FileAt(entries, layout.base), Published(Report(cards, vdevs), ParentNames(prepared)))
    requires p.wholeCard && p.parentDevice != "" && p.cdiDeviceID == QualifiedName(layout.CardKind(), p.cdiName)
    requires exists u :: u in prepared && p in prepared[u]
    requires IsCardName(cards, p.parentDevice)
    requires forall k | 0 <= k < |cards| && cards[k].pciBusNumber != "" &&
      CanonicalName(cards[k].pciBusNumber) == p.parentDevice ::
      PhysicalCDIDeviceName(NewAllocatableDevice(cards[k]).value) == p.cdiName
    ensures p.cdiDeviceID in DeviceIds(entries[layout.base])
  {
    NamedCardIsPublished(prepared, cards, vdevs, p.parentDevice);
    BaseResolvesIff(layout, entries, Published(Report(cards, vdevs), ParentNames(prepared)), p.cdiName);
  }

  /** A reported card has the name that the record gives, and still the CDI name it was recorded with. */
  ghost predicate StillReported(layout: Layout, cards: seq<CardInfo>, p: PreparedDevice) {
    && p.parentDevice != "" && p.cdiDeviceID == QualifiedName(layout.CardKind(), p.cdiName)
    && IsCardName(cards, p.parentDevice)
    && forall k | 0 <= k < |cards| && cards[k].pciBusNumber != "" &&
      CanonicalName(cards[k].pciBusNumber) == p.parentDevice ::
      PhysicalCDIDeviceName(NewAllocatableDevice(cards[k]).value) == p.cdiName
  }

  /**
   Once specs and base spec are up to date, every device ID in the answer for a recorded claim resolves, as long as its
   whole cards are still reported.
   */
  lemma AnswerResolves(layout: Layout, entries: map<string, Entry>, prepared: Ledger, cards: seq<CardInfo>,
                       vdevs: map<int, int>, uid: UID, devices: seq<Device>)
    requires uid in prepared && Tells(devices, prepared[uid]) && NamesOk(layout, prepared)
    requires CdiMirrors(layout, entries, prepared)
    requires BaseLists(layout, FileAt(entries, layout.base), Published(Report(cards, vdevs), ParentNames(prepared)))
    requires forall p | p in prepared[uid] && p.wholeCard :: StillReported(layout, cards, p)
    ensures Resolve(devices, prepared[uid], true, entries)
  {
    var list := prepared[uid];
    VhcusResolve(layout, entries, prepared, uid, devices);
    forall k | 0 <= k < |list| && list[k].wholeCard ensures Offered(list[k].cdiDeviceID, entries) {
      assert list[k] in list && StillReported(layout, cards, list[k]);
      WholeCardResolves(layout, entries, prepared, cards, vdevs, list[k]);
      assert layout.base in entries;
    }
    assert forall k | 0 <= k < |list| :: TellsOf(devices[k], list[k]);
  }

  /**
   All or nothing: a Prepare that took its record back, having mirrored the ledger before and after, has left the same
   vHCU specs, each for the same device, and the same marks that can be rebuilt.
   */
  lemma FilesAreBack(layout: Layout, before: Ledger, after: Ledger, cdi: map<string, Entry>, cdi': map<string, Entry>,
                     marks: map<string, Entry>, marks': map<string, Entry>, n: string)
    requires layout.Ok() && SameClaims(before, after)
    requires CdiMirrors(layout, cdi, before) && CdiMirrors(layout, cdi', after)
    requires MarksMirror(marks, before) && MarksMirror(marks', after)
    ensures layout.IsSpec(n) ==> (n in cdi <==> n in cdi')
    ensures layout.IsSpec(n) && n in cdi ==>
      && HoldsDevice(cdi[n], layout.VDeviceKind(), layout.CdiNameOf(n))
      && HoldsDevice(cdi'[n], layout.VDeviceKind(), layout.CdiNameOf(n))
    ensures Spelt(before, n) && n in marks && marks[n].File? ==> n in marks'
    ensures Spelt(after, n) && n in marks' && marks'[n].File? ==> n in marks
  {
    SameRecords(before, after);
  }

  lemma SameRecords(before: Ledger, after: Ledger)
    requires SameClaims(before, after)
    ensures ActiveNames(before) == ActiveNames(after) && ActiveMarks(before) == ActiveMarks(after)
    ensures forall n :: Spelt(before, n) <==> Spelt(after, n)
  {
    forall u ensures Known(before, u) <==> u in NonEmpty(before) {
    }
    forall u ensures Known(after, u) <==> u in NonEmpty(after) {
    }
    assert RecordsStay(before, after) && RecordsStay(after, before) by {
      assert forall u | u in NonEmpty(before) :: NonEmpty(before)[u] == NonEmpty(after)[u];
    }
    StillRecorded(before, after);
    StillRecorded(after, before);
  }

  /** A Prepare of a claim with recorded devices. */
  method PrepareRecorded(state: DeviceState, claim: ResourceClaim) returns (r: PrepareResult)
    requires state.Valid() && Known(state.prepared, claim.uid) && claim.allocation.Some?
    modifies state`prepared, state.cdi, state.marks, state.host`vdevs, state.host`sizes, state.host`leaked,
      state.host`failures, state.host`lapses
    ensures state.host.vdevs == old(state.host.vdevs)
    ensures state.Failures() >= old(state.Failures()) && (r.Failure? ==> state.Failures() > old(state.Failures()))
    ensures state.prepared == old(state.prepared)
    ensures r.Devices? ==> Tells(r.devices, state.prepared[claim.uid])
    ensures r.Devices? && NamesOk(state.layout, state.prepared) ==>
      CdiMirrors(state.layout, old(state.cdi.entries), state.prepared) ==>
      Resolve(r.devices, state.prepared[claim.uid], false, state.cdi.entries)
  {
    var driver := new Driver(state);
    ghost var touched, outcome;
    r, touched, outcome := driver.NodePrepareResource(claim);
  }

  /**
   A crash, a restart and a Prepare of a claim whose devices had been saved: the devices are the same as before, the
   vHCUs of all claims are still there, and when no call fails it succeeds and the device IDs of its vHCUs resolve.
   */
  method PrepareAfterCrash(state: DeviceState, claim: ResourceClaim) returns (again: Option<PrepareResult>)
    requires state.Valid() && state.Consistent() && state.Saved() && Known(state.prepared, claim.uid) &&
      claim.allocation.Some?
    modifies state.cdi, state.marks, state.host`vdevs, state.host`sizes, state.host`leaked, state.host`failures,
      state.host`lapses
    ensures again.Some? && again.value.Devices? ==> Tells(again.value.devices, state.prepared[claim.uid])
    ensures again.Some? ==> forall i | i in Tracked(state.prepared) ::
      i in state.host.vdevs && state.host.vdevs[i] == old(state.host.vdevs)[i]
    ensures state.Failures() == old(state.Failures()) ==>
      && again.Some? && again.value.Devices?
      && Resolve(again.value.devices, state.prepared[claim.uid], false, state.cdi.entries)
  {
    var restarted, _ := NewDeviceState(state.layout, state.cdi, state.marks, state.host);
    if restarted == null {
      return None;
    }
    assert restarted.prepared == state.prepared;
    var r := PrepareRecorded(restarted, claim);
    again := Some(r);
  }
}
