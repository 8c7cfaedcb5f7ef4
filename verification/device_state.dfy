/** The driver's node-local state, and the operations that need nothing else. */
module Node {
  import opened Types
  import opened Names
  import opened StateFile
  import opened Storage
  import opened Persistence
  import opened Dcgm
  import opened Marks
  import opened Cdi
  import opened Allocatable
  import opened Enumeration

  /** The ledger invariant between two calls: recorded vHCUs exist, once each, under the names made for them. */
  ghost predicate Sane(layout: Layout, prepared: Ledger, vdevs: map<int, int>, leaked: set<int>) {
    && Distinct(prepared) && (forall i | i in Tracked(prepared) :: i in vdevs && i !in leaked)
    && MarksOk(prepared) && NamesOk(layout, prepared)
  }

  /** The destroys of Unprepare, of the rollbacks and of the orphan cleanup: whole cards have nothing to destroy. */
  method DestroyAll(host: Host, list: seq<PreparedDevice>)
    requires host.Valid()
    modifies host`vdevs, host`leaked, host`failures, host`lapses
    ensures host.Valid() && host.OnlyDestroys(Indices(list))
    ensures host.Counted()
    ensures host.lapses == old(host.lapses) ==> forall i | i in Indices(list) :: i !in host.vdevs
  {
    for k := 0 to |list|
      invariant host.Valid() && host.OnlyDestroys(Indices(list[..k]))
      invariant host.Counted()
      invariant host.lapses == old(host.lapses) ==> forall i | i in Indices(list[..k]) :: i !in host.vdevs
    {
      assert list[..k + 1] == list[..k] + [list[k]];
      IndicesSnoc(list[..k], list[k]);
      if !list[k].wholeCard {
        var _ := host.DestroySingleVDevice(list[k].vdvInd);
      }
    }
    assert list[..|list|] == list;
  }

  /** Taking claims out of the ledger and destroying what nobody else has keeps the ledger invariant. */
  lemma SaneAfterRemoval(layout: Layout, before: Ledger, uids: set<UID>, v: map<int, int>, l: set<int>,
                         v': map<int, int>, l': set<int>, gone: set<int>)
    requires Sane(layout, before, v, l)
    requires Destroyed(v, l, v', l', gone) && gone !! Tracked(before - uids)
    ensures Sane(layout, before - uids, v', l')
  {
  }

  /** The base spec lists the physical cards, once each. */
  ghost predicate BaseLists(layout: Layout, base: Option<Content>, allocatable: map<string, AllocatableDevice>) {
    base.Some? && base.value.Spec? && base.value.spec.kind == layout.CardKind() &&
      ListsCards(base.value.spec.devices, allocatable)
  }

  ghost predicate ListsCards(devices: seq<CdiDevice>, allocatable: map<string, AllocatableDevice>) {
    && |devices| == |allocatable|
    && (forall name | name in allocatable :: HasDevice(devices, PhysicalCDIDeviceName(allocatable[name])))
    && (forall d | d in devices :: exists name ::
      name in allocatable && d.name == PhysicalCDIDeviceName(allocatable[name]))
  }

  ghost predicate HasDevice(devices: seq<CdiDevice>, name: string) {
    exists d :: d in devices && d.name == name
  }

  lemma HasDeviceSnoc(devices: seq<CdiDevice>, one: CdiDevice)
    ensures HasDevice(devices + [one], one.name)
    ensures forall name | HasDevice(devices, name) :: HasDevice(devices + [one], name)
  {
  }

  lemma BaseIsNotLegacy(layout: Layout)
    requires layout.Ok()
    ensures layout.base != layout.legacyBase && layout.base != layout.legacyAggregate
    ensures layout.state !in {layout.base, layout.legacyBase, layout.legacyAggregate}
  {
  }

  lemma BaseWriteKeepsSpecs(layout: Layout, names: set<string>, e: map<string, Entry>, r: set<string>,
                            e': map<string, Entry>, r': set<string>)
    requires layout.Ok() && Touched(e, r, e', r', {layout.base, layout.legacyBase, layout.legacyAggregate})
    ensures KeepsSpecs(layout, names, e, r, e', r')
  {
    assert forall c :: layout.IsSpec(layout.SpecName(c));
  }

  /** The writes of createStandardCDISpecFile. */
  method WriteBaseSpec(layout: Layout, dir: Directory, spec: CdiSpec) returns (ok: bool)
    requires layout.Ok()
    modifies dir
    ensures dir.OnlyTouches({layout.base, layout.legacyBase, layout.legacyAggregate})
    ensures ok ==> FileAt(dir.entries, layout.base) == Some(Spec(spec))
    ensures ok ==> forall n | n in {layout.legacyBase, layout.legacyAggregate} && n in dir.entries :: n in dir.residue
    ensures dir.Counted() && (dir.failures == old(dir.failures) ==> ok)
    ensures if ok then dir.OnlyLapsed() else layout.base in dir.residue
  {
    ok := dir.Write(layout.base, Spec(spec));
    if ok {
      BaseIsNotLegacy(layout);
      RemoveLegacyCDIJSONFiles(layout, dir);
    }
  }

  /** The base spec and the state file are as they were. */
  ghost predicate OwnFilesKept(layout: Layout, e: map<string, Entry>, e': map<string, Entry>) {
    FileAt(e', layout.base) == FileAt(e, layout.base) && FileAt(e', layout.state) == FileAt(e, layout.state)
  }

  lemma OthersInclude(layout: Layout, e: map<string, Entry>, r: set<string>, e': map<string, Entry>, r': set<string>)
    requires layout.Ok() && OthersSame(layout, e, r, e', r')
    ensures OwnFilesKept(layout, e, e')
  {
  }

  /** What is under these names is as it was, and no write to it has been tried. */
  ghost predicate SameAt(names: set<string>, e: map<string, Entry>, r: set<string>, e': map<string, Entry>,
                         r': set<string>) {
    forall n | n in names :: (n in e' <==> n in e) && (n in e' ==> e'[n] == e[n]) && (n in r' <==> n in r)
  }

  /**
   What syncs and saves leave alone under the CDI root: files that are not the driver's to sync or save, and the specs
   of the vHCUs of those CDI names, unless they are rewritten for the same device or their write fails.
   */
  ghost predicate CdiFrame(layout: Layout, names: set<string>, e: map<string, Entry>, r: set<string>,
                           e': map<string, Entry>, r': set<string>) {
    ForeignSame(layout, e, e') && KeepsSpecs(layout, names, e, r, e', r')
  }

  ghost predicate ForeignSame(layout: Layout, e: map<string, Entry>, e': map<string, Entry>) {
    forall n | !layout.IsSpec(n) && !layout.IsLegacy(n) && n != layout.state && n != layout.tmp ::
      (n in e' <==> n in e) && (n in e' ==> e'[n] == e[n])
  }

  lemma SyncFrames(layout: Layout, names: set<string>, e: map<string, Entry>, r: set<string>, e': map<string, Entry>,
                   r': set<string>)
    requires layout.Ok() && OthersSame(layout, e, r, e', r') && KeepsSpecs(layout, names, e, r, e', r')
    ensures CdiFrame(layout, names, e, r, e', r') && OwnFilesKept(layout, e, e')
    ensures SameAt({layout.state, layout.tmp}, e, r, e', r')
  {
    OthersInclude(layout, e, r, e', r');
  }

  lemma SaveFrames(layout: Layout, names: set<string>, e: map<string, Entry>, r: set<string>, e': map<string, Entry>,
                   r': set<string>)
    requires layout.Ok() && Touched(e, r, e', r', {layout.state, layout.tmp})
    ensures CdiFrame(layout, names, e, r, e', r')
  {
    assert forall c :: layout.IsSpec(layout.SpecName(c));
  }

  lemma FrameMore(layout: Layout, names: set<string>, e0: map<string, Entry>, r0: set<string>, e1: map<string, Entry>,
                  r1: set<string>, e2: map<string, Entry>, r2: set<string>)
    requires CdiFrame(layout, names, e0, r0, e1, r1) && CdiFrame(layout, names, e1, r1, e2, r2)
    ensures CdiFrame(layout, names, e0, r0, e2, r2)
  {
    KeepsSpecsMore(layout, names, e0, r0, e1, r1, e2, r2);
  }

  lemma FrameLess(layout: Layout, names: set<string>, fewer: set<string>, e: map<string, Entry>, r: set<string>,
                  e': map<string, Entry>, r': set<string>)
    requires CdiFrame(layout, names, e, r, e', r') && fewer <= names
    ensures CdiFrame(layout, fewer, e, r, e', r')
  {
  }

  class DeviceState {
    var allocatable: map<string, AllocatableDevice>
    var prepared: Ledger
    const layout: Layout
    const cdi: Directory     // the CDI root, which also holds the state file
    const marks: Directory   // /etc/vdev/dynamic
    const host: Host

    constructor (layout: Layout, cdi: Directory, marks: Directory, host: Host, prepared: Ledger,
                 allocatable: map<string, AllocatableDevice>)
      ensures this.layout == layout && this.cdi == cdi && this.marks == marks && this.host == host
      ensures this.prepared == prepared && this.allocatable == allocatable
    {
      this.layout, this.cdi, this.marks, this.host := layout, cdi, marks, host;
      this.prepared, this.allocatable := prepared, allocatable;
    }

    ghost predicate Valid()
      reads this, host
    {
      layout.Ok() && cdi != marks && host.Valid()
    }

    ghost predicate Consistent()
      reads this, host
    {
      Sane(layout, prepared, host.vdevs, host.leaked)
    }

    /** The files on the node mirror the ledger. */
    ghost predicate Mirrored()
      reads this, cdi, marks
    {
      CdiMirrors(layout, cdi.entries, prepared) && MarksMirror(marks.entries, prepared)
    }

    /** A restart would find this ledger. */
    ghost predicate Saved()
      reads this, cdi
    {
      FileAt(cdi.entries, layout.state) == Some(PreparedJson(Some(prepared)))
    }

    /** Other files are as they were, and so are the specs of those vHCUs unless rewritten or in residue. */
    twostate predicate Frames(names: set<string>)
      reads this, cdi
    {
      CdiFrame(layout, names, old(cdi.entries), old(cdi.residue), cdi.entries, cdi.residue)
    }

    /** The state file is as it was. */
    twostate predicate Unsaved()
      reads this, cdi
    {
      FileAt(cdi.entries, layout.state) == FileAt(old(cdi.entries), layout.state)
    }

    /** The state file is as it was, or holds the ledger as it is now: it is replaced as a whole. */
    twostate predicate SavedOrNot()
      reads this, cdi
    {
      Unsaved() || Saved()
    }

    /**
     The state file holds the ledger as it is, unless the save itself has failed: then the temporary file could not be
     written, or it holds the ledger.
     */
    ghost predicate SaveTried()
      reads this, cdi
    {
      Saved() || layout.tmp in cdi.residue || FileAt(cdi.entries, layout.tmp) == Some(PreparedJson(Some(prepared)))
    }

    /** No save has been tried. */
    twostate predicate SaveUntried()
      reads this, cdi
    {
      SameAt({layout.state, layout.tmp}, old(cdi.entries), old(cdi.residue), cdi.entries, cdi.residue)
    }

    /** How many calls into DCGM and the file system have failed. */
    ghost function Failures(): nat
      reads cdi, marks, host
    {
      cdi.failures + marks.failures + host.failures
    }

    /** savePreparedState: the vHCU specs stay as they are. */
    method Save() returns (ok: bool)
      requires Valid()
      modifies cdi
      ensures if ok then Saved() else Unsaved() && SaveTried()
      ensures Frames(ActiveNames(prepared))
      ensures CdiMirrors(layout, old(cdi.entries), prepared) ==> CdiMirrors(layout, cdi.entries, prepared)
      ensures cdi.Counted() && (ok <==> cdi.failures == old(cdi.failures))
    {
      ok := SavePreparedState(layout, cdi, prepared);
      SaveFrames(layout, ActiveNames(prepared), old(cdi.entries), old(cdi.residue), cdi.entries, cdi.residue);
      if CdiMirrors(layout, old(cdi.entries), prepared) {
        MirrorSurvivesSave(layout, old(cdi.entries), cdi.entries, prepared);
      }
    }

    /**
     The syncs of a Prepare, each only if the one before passed, and the save. A failed save is only logged; `saved`
     tells. It fails only before it has tried to save.
     */
    method SyncThenSave() returns (ok: bool, ghost saved: bool)
      requires Valid()
      modifies cdi, marks
      ensures ok ==> Mirrored() && (saved ==> Saved())
      ensures Failures() >= old(Failures()) && (Failures() == old(Failures()) ==> ok && saved)
      ensures cdi.Counted() && marks.Counted()
      ensures Frames(ActiveNames(prepared)) && (saved || Unsaved())
      ensures (saved ==> ok) && if ok then SaveTried() else SaveUntried()
      ensures KeepsMarks(prepared, {}, old(marks.entries), marks.entries)
    {
      saved := false;
      ok := SyncVDeviceCDISpecFiles(layout, cdi, prepared);
      SyncFrames(layout, ActiveNames(prepared), old(cdi.entries), old(cdi.residue), cdi.entries, cdi.residue);
      if !ok {
        return;
      }
      ok := SyncDynamicMarkFiles(marks, prepared);
      if !ok {
        return;
      }
      ghost var e, r := cdi.entries, cdi.residue;
      var done := Save();
      saved := done;
      FrameMore(layout, ActiveNames(prepared), old(cdi.entries), old(cdi.residue), e, r, cdi.entries, cdi.residue);
    }

    /** Whatever fails elsewhere: specs, marks and state file each agree with the ledger unless a call on them fails. */
    twostate predicate SyncedEach()
      reads this, cdi, marks
    {
      && SaveTried()
      && (cdi.failures == old(cdi.failures) ==> CdiMirrors(layout, cdi.entries, prepared) && Saved())
      && (marks.failures == old(marks.failures) ==> MarksMirror(marks.entries, prepared))
    }

    /**
     The syncs after a change of the ledger whose errors are only logged, and the save: each runs whatever becomes of
     the others. `clean` when none of them failed.
     */
    method SyncAndSave() returns (ghost clean: bool)
      requires Valid()
      modifies cdi, marks
      ensures clean ==> Mirrored() && Saved()
      ensures cdi.Counted() && marks.Counted()
      ensures cdi.failures == old(cdi.failures) && marks.failures == old(marks.failures) ==> clean
      ensures SyncedEach()
      ensures Frames(ActiveNames(prepared)) && SavedOrNot()
      ensures KeepsMarks(prepared, {}, old(marks.entries), marks.entries)
      ensures Lingers(old(marks.entries), old(marks.residue), marks.entries, marks.residue, prepared)
    {
      var cdiOk := SyncVDeviceCDISpecFiles(layout, cdi, prepared);
      ghost var e, r := cdi.entries, cdi.residue;
      SyncFrames(layout, ActiveNames(prepared), old(cdi.entries), old(cdi.residue), e, r);
      var marksOk := SyncDynamicMarkFiles(marks, prepared);
      var saved := Save();
      clean := cdiOk && marksOk && saved;
      FrameMore(layout, ActiveNames(prepared), old(cdi.entries), old(cdi.residue), e, r, cdi.entries, cdi.residue);
    }

    /** The claims of the ledger that the API server no longer lists, in an arbitrary order. */
    method Orphans(listed: seq<UID>) returns (orphans: seq<UID>)
      ensures Lists(orphans, prepared.Keys - set u | u in listed)
    {
      var existing: set<UID> := {};
      for k := 0 to |listed|
        invariant existing == set u | u in listed[..k]
      {
        existing := existing + {listed[k]};
      }
      assert listed[..|listed|] == listed;
      orphans := [];
      var rest := prepared.Keys;
      while rest != {}
        decreases |rest|
        invariant rest <= prepared.Keys && Lists(orphans, prepared.Keys - rest - existing)
      {
        var uid :| uid in rest;
        ghost var seen := prepared.Keys - rest - existing;
        rest := rest - {uid};
        if uid !in existing {
          ListsSnoc(orphans, seen, uid);
          orphans := orphans + [uid];
        }
        assert prepared.Keys - rest - existing == if uid in existing then seen else seen + {uid};
      }
    }

    /** One round of the second loop of CleanupOrphanPreparedClaims: one orphan. */
    method SweepClaim(uid: UID)
      requires Valid() && uid in prepared
      modifies this`prepared, marks, host`vdevs, host`leaked, host`failures, host`lapses
      ensures Valid() && prepared == old(prepared) - {uid}
      ensures host.OnlyDestroys(Indices(old(prepared)[uid])) && marks.OnlyRemoves(MarksOf(old(prepared)[uid]))
      ensures forall n | n in MarksOf(old(prepared)[uid]) && n in marks.entries :: n in marks.residue
      ensures host.Counted() && marks.Counted()
      ensures host.lapses == old(host.lapses) ==> forall i | i in Indices(old(prepared)[uid]) :: i !in host.vdevs
    {
      var list := prepared[uid];
      RemovePreparedDynamicMarks(marks, list);
      prepared := prepared - {uid};
      DestroyAll(host, list);
    }

    /** That loop. */
    method SweepClaims(orphans: seq<UID>)
      requires Valid() && Lists(orphans, set u | u in orphans) && forall u | u in orphans :: u in prepared
      modifies this`prepared, marks, host`vdevs, host`leaked, host`failures, host`lapses
      ensures Valid() && prepared == old(prepared) - set u | u in orphans
      ensures host.OnlyDestroys(TrackedBy(old(prepared), set u | u in orphans))
      ensures marks.OnlyRemoves(MarksBy(old(prepared), set u | u in orphans))
      ensures forall n | n in MarksBy(old(prepared), set u | u in orphans) && n in marks.entries :: n in marks.residue
      ensures host.Counted() && marks.Counted()
      ensures host.lapses == old(host.lapses) ==> TrackedBy(old(prepared), set u | u in orphans) !! host.vdevs.Keys
    {
      ghost var done: set<UID> := {};
      for k := 0 to |orphans|
        invariant Valid() && done == (set u | u in orphans[..k]) && prepared == old(prepared) - done
        invariant host.OnlyDestroys(TrackedBy(old(prepared), done))
        invariant marks.OnlyRemoves(MarksBy(old(prepared), done))
        invariant forall n | n in MarksBy(old(prepared), done) && n in marks.entries :: n in marks.residue
        invariant host.Counted() && marks.Counted()
        invariant host.lapses == old(host.lapses) ==> TrackedBy(old(prepared), done) !! host.vdevs.Keys
      {
        ghost var v, l := host.vdevs, host.leaked;
        SweepClaim(orphans[k]);
        SweptMore(old(prepared), done, orphans[k], old(host.vdevs), old(host.leaked), v, l, host.vdevs, host.leaked);
        done := done + {orphans[k]};
      }
      assert orphans[..|orphans|] == orphans;
    }

    /** Orphaned claims lose their entries, marks and vHCUs. */
    method ReleaseOrphans(listed: seq<UID>) returns (any: bool)
      requires Valid()
      modifies this`prepared, marks, host`vdevs, host`leaked, host`failures, host`lapses
      ensures Valid()
      ensures var gone := old(prepared).Keys - (set u | u in listed);
              && prepared == old(prepared) - gone && host.OnlyDestroys(TrackedBy(old(prepared), gone))
              && (any <==> gone != {}) && marks.OnlyRemoves(MarksBy(old(prepared), gone))
              && (forall n | n in MarksBy(old(prepared), gone) && n in marks.entries :: n in marks.residue)
              && (gone == {} ==> marks.entries == old(marks.entries))
              && (host.lapses == old(host.lapses) ==> TrackedBy(old(prepared), gone) !! host.vdevs.Keys)
      ensures host.Counted() && marks.Counted()
      ensures old(Consistent()) ==> Consistent()
    {
      var orphans := Orphans(listed);
      ghost var gone := prepared.Keys - set u | u in listed;
      assert gone == set u | u in orphans;
      if |orphans| == 0 {
        assert gone == {};
        return false;
      }
      assert orphans[0] in gone;
      SweepClaims(orphans);
      if old(Consistent()) {
        TrackedApart(old(prepared), gone);
        SaneAfterRemoval(layout, old(prepared), gone, old(host.vdevs), old(host.leaked), host.vdevs, host.leaked,
          TrackedBy(old(prepared), gone));
      }
      return true;
    }

    /**
     CleanupOrphanPreparedClaims; `listed` is what the List call returns, if it succeeds. The ledger becomes its
     restriction to the listed claims, and exactly the vHCUs of the others are destroyed. `clean` tells that syncs and
     save passed.
     */
    method CleanupOrphanPreparedClaims(listed: Option<seq<UID>>) returns (ghost gone: set<UID>, ghost clean: bool)
      requires Valid()
      modifies this`prepared, cdi, marks, host`vdevs, host`leaked, host`failures, host`lapses
      ensures Valid()
      ensures gone == if listed.Some? then old(prepared).Keys - (set u | u in listed.value) else {}
      ensures prepared == old(prepared) - gone && host.OnlyDestroys(TrackedBy(old(prepared), gone))
      ensures gone == {} ==> cdi.entries == old(cdi.entries) && marks.entries == old(marks.entries)
      ensures gone != {} && clean ==> Mirrored() && Saved()
      ensures gone != {} ==> SyncedEach()
      ensures gone != {} ==> Cleared(MarksBy(old(prepared), gone), marks.entries, marks.residue, prepared)
      ensures cdi.Counted() && marks.Counted() && host.Counted()
      ensures cdi.failures == old(cdi.failures) && marks.failures == old(marks.failures) ==> clean
      ensures host.lapses == old(host.lapses) ==> TrackedBy(old(prepared), gone) !! host.vdevs.Keys
      ensures KeepsMarks(prepared, MarksBy(old(prepared), gone), old(marks.entries), marks.entries)
      ensures Frames(ActiveNames(prepared)) && SavedOrNot() && (gone == {} ==> Unsaved())
      ensures old(Consistent()) ==> Consistent()
    {
      gone, clean := {}, true;
      if |prepared| == 0 || listed.None? {
        NoneGone(prepared);
        assert |prepared| == 0 ==> prepared.Keys == {};
        return;
      }
      gone := prepared.Keys - (set u | u in listed.value);
      var any := ReleaseOrphans(listed.value);
      if any {
        ghost var removed := marks.entries;
        assert cdi.failures == old(cdi.failures);
        clean := SyncAndSave();
        KeepsAfterRemoval(prepared, MarksBy(old(prepared), gone), old(marks.entries), removed, marks.entries);
      }
    }

    /** createStandardCDISpecFile: the cards are visited in an arbitrary order. */
    method CreateStandardCDISpecFile() returns (ok: bool)
      requires Valid()
      modifies cdi
      ensures cdi.OnlyTouches({layout.base, layout.legacyBase, layout.legacyAggregate})
      ensures ok ==> BaseLists(layout, FileAt(cdi.entries, layout.base), allocatable)
      ensures ok ==> forall n | n in {layout.legacyBase, layout.legacyAggregate} && n in cdi.entries :: n in cdi.residue
      ensures cdi.Counted() && (cdi.failures == old(cdi.failures) ==> ok)
      ensures if ok then cdi.OnlyLapsed() else !cdi.OnlyLapsed() || layout.base in cdi.residue
    {
      ok := cdi.MkdirAll();
      if !ok {
        return;
      }
      var devices := PhysicalDevices();
      ok := WriteBaseSpec(layout, cdi, CdiSpec(layout.CardKind(), devices));
    }

    /** The entries of the base spec. */
    method PhysicalDevices() returns (devices: seq<CdiDevice>)
      ensures ListsCards(devices, allocatable)
    {
      devices := [];
      var rest := allocatable.Keys;
      while rest != {}
        decreases |rest|
        invariant rest <= allocatable.Keys && |devices| + |rest| == |allocatable.Keys|
        invariant forall name | name in allocatable && name !in rest ::
          HasDevice(devices, PhysicalCDIDeviceName(allocatable[name]))
        invariant forall d | d in devices :: exists name ::
          name in allocatable && d.name == PhysicalCDIDeviceName(allocatable[name])
      {
        var name :| name in rest;
        var edits := *;
        var one := CdiDevice(PhysicalCDIDeviceName(allocatable[name]), edits);
        HasDeviceSnoc(devices, one);
        devices := devices + [one];
        rest := rest - {name};
      }
    }

    /** The cards that buildAllocatable would publish now. */
    ghost function Discovered(): map<string, AllocatableDevice>
      reads this, host
    {
      Published(Report(host.cards, host.vdevs), ParentNames(prepared))
    }

    /**
     RefreshAllocatable. Leaked vHCUs drain: no recorded vHCU goes, none comes, once the listing has succeeded an
     unrecorded one stays only if its destroy fails, and when no DCGM call fails just the recorded ones are left. Then
     no card starves. The ledger and the files that mirror it stay as they are.
     */
    method RefreshAllocatable() returns (ok: bool)
      requires Valid()
      modifies this`allocatable, cdi, host`vdevs, host`leaked, host`failures, host`lapses
      ensures Valid() && Failures() >= old(Failures()) && (Failures() == old(Failures()) ==> ok)
      ensures ok ==> BaseLists(layout, FileAt(cdi.entries, layout.base), allocatable)
      ensures var missed := (host.failures - old(host.failures)) - (host.lapses - old(host.lapses));
              || Drained(prepared, old(host.vdevs), old(host.leaked), host.vdevs, host.leaked, missed)
              || (!ok && Drained(prepared, old(host.vdevs), old(host.leaked), host.vdevs, host.leaked, missed - 1))
      ensures host.failures == old(host.failures) ==> host.vdevs.Keys == old(host.vdevs.Keys) * Tracked(prepared)
      ensures host.failures == old(host.failures) && SitsOnParent(prepared, host.cards, host.vdevs) ==>
        forall name :: name in allocatable <==> IsCardName(host.cards, name)
      ensures host.failures == old(host.failures) && SitsOnParent(prepared, host.cards, host.vdevs) ==>
        DistinctAddresses(host.cards) ==> OnePerCard(allocatable, host.cards)
      ensures ok || host.failures == old(host.failures) ==> allocatable == Discovered()
      ensures allocatable == old(allocatable) || allocatable == Discovered()
      ensures cdi.OnlyTouches({layout.base, layout.legacyBase, layout.legacyAggregate})
      ensures !ok ==> host.failures > old(host.failures) || !cdi.OnlyLapsed() || layout.base in cdi.residue
      ensures Unsaved() && (old(Consistent()) ==> Consistent())
    {
      BaseIsNotLegacy(layout);
      var discovered := Discover(host, prepared);
      if discovered.None? {
        return false;
      }
      allocatable := discovered.value;
      ok := CreateStandardCDISpecFile();
    }

    /** The syncs of NewDeviceState. */
    method SyncRestored() returns (ghost clean: bool)
      requires Valid()
      modifies cdi, marks
      ensures clean ==> Mirrored()
      ensures cdi.failures == old(cdi.failures) ==> CdiMirrors(layout, cdi.entries, prepared)
      ensures marks.failures == old(marks.failures) ==> MarksMirror(marks.entries, prepared)
      ensures OwnFilesKept(layout, old(cdi.entries), cdi.entries) && Frames(ActiveNames(prepared))
      ensures KeepsMarks(prepared, {}, old(marks.entries), marks.entries)
      ensures cdi.failures >= old(cdi.failures) && marks.failures >= old(marks.failures)
      ensures cdi.failures == old(cdi.failures) && marks.failures == old(marks.failures) ==> clean
    {
      var cdiOk := SyncVDeviceCDISpecFiles(layout, cdi, prepared);
      SyncFrames(layout, ActiveNames(prepared), old(cdi.entries), old(cdi.residue), cdi.entries, cdi.residue);
      var marksOk := SyncDynamicMarkFiles(marks, prepared);
      clean := cdiOk && marksOk;
    }

    /** The files NewDeviceState writes: the base spec, and what the restored ledger calls for if it has entries. */
    method WriteRestored() returns (ok: bool, ghost clean: bool)
      requires Valid()
      modifies cdi, marks
      ensures ok ==> BaseLists(layout, FileAt(cdi.entries, layout.base), allocatable)
      ensures Unsaved() && KeepsMarks(prepared, {}, old(marks.entries), marks.entries)
      ensures KeepsSpecs(layout, ActiveNames(prepared), old(cdi.entries), old(cdi.residue), cdi.entries, cdi.residue)
      ensures prepared == map[] ==>
        marks.entries == old(marks.entries) && cdi.OnlyTouches({layout.base, layout.legacyBase, layout.legacyAggregate})
      ensures ok && clean && prepared != map[] ==> Mirrored()
      ensures ok && prepared != map[] && cdi.failures == old(cdi.failures) ==> CdiMirrors(layout, cdi.entries, prepared)
      ensures ok && prepared != map[] && marks.failures == old(marks.failures) ==> MarksMirror(marks.entries, prepared)
      ensures !ok ==>
        marks.entries == old(marks.entries) && cdi.OnlyTouches({layout.base, layout.legacyBase, layout.legacyAggregate})
      ensures !ok ==> !cdi.OnlyLapsed() || layout.base in cdi.residue
      ensures cdi.failures >= old(cdi.failures) && marks.failures >= old(marks.failures)
      ensures cdi.failures == old(cdi.failures) && marks.failures == old(marks.failures) ==> ok && clean
    {
      clean := true;
      ok := CreateStandardCDISpecFile();
      BaseIsNotLegacy(layout);
      ghost var e, r := cdi.entries, cdi.residue;
      BaseWriteKeepsSpecs(layout, ActiveNames(prepared), old(cdi.entries), old(cdi.residue), e, r);
      if ok && |prepared| > 0 {
        clean := SyncRestored();
        KeepsSpecsMore(layout, ActiveNames(prepared), old(cdi.entries), old(cdi.residue), e, r, cdi.entries,
          cdi.residue);
      }
    }
  }

  /** The enumeration of NewDeviceState and refreshAllocatable; None when DeviceInfos fails. */
  method Discover(host: Host, prepared: Ledger) returns (r: Option<map<string, AllocatableDevice>>)
    requires host.Valid()
    modifies host`vdevs, host`leaked, host`failures, host`lapses
    ensures host.Valid() && host.Counted() && (r.None? ==> host.failures > old(host.failures))
    ensures Drained(prepared, old(host.vdevs), old(host.leaked), host.vdevs, host.leaked,
      (host.failures - old(host.failures)) - (host.lapses - old(host.lapses)) - (if r.None? then 1 else 0))
    ensures host.failures == old(host.failures) ==> host.vdevs.Keys == old(host.vdevs.Keys) * Tracked(prepared)
    ensures r.Some? ==> r.value == Published(Report(host.cards, host.vdevs), ParentNames(prepared))
    ensures host.failures == old(host.failures) && SitsOnParent(prepared, host.cards, host.vdevs) ==>
      forall name :: name in r.value <==> IsCardName(host.cards, name)
    ensures host.failures == old(host.failures) && SitsOnParent(prepared, host.cards, host.vdevs) ==>
      DistinctAddresses(host.cards) ==> OnePerCard(r.value, host.cards)
  {
    ReconcileStaleHostVDevices(host, prepared);
    var infos := host.DeviceInfos();
    if infos.None? {
      return None;
    }
    var allocatable := BuildAllocatable(infos.value, prepared);
    if host.failures == old(host.failures) && SitsOnParent(prepared, host.cards, host.vdevs) {
      forall name ensures name in allocatable <==> IsCardName(host.cards, name) {
        NoCardStarves(prepared, host.cards, host.vdevs, name);
      }
      if DistinctAddresses(host.cards) {
        EveryCardIsPublished(prepared, host.cards, host.vdevs);
      }
    }
    return Some(allocatable);
  }

  /** NewDeviceState up to the files it writes. */
  method Restore(layout: Layout, cdi: Directory, marks: Directory, host: Host) returns (state: DeviceState?)
    requires layout.Ok() && cdi != marks && host.Valid()
    modifies cdi`failures, marks`failures, host`vdevs, host`leaked, host`failures, host`lapses
    ensures host.Valid() && cdi.failures >= old(cdi.failures) && marks.failures >= old(marks.failures) &&
      host.failures >= old(host.failures)
    ensures state == null ==>
      cdi.failures > old(cdi.failures) || marks.failures > old(marks.failures) || host.failures > old(host.failures)
    ensures state == null ==> exists missed ::
      Drained(Decoded(FileAt(cdi.entries, layout.state)), old(host.vdevs), old(host.leaked), host.vdevs, host.leaked,
        missed)
    ensures state != null ==>
      && fresh(state) && state.layout == layout && state.cdi == cdi && state.marks == marks && state.host == host &&
        state.Valid()
      && state.prepared == Decoded(FileAt(cdi.entries, layout.state)) && state.allocatable == state.Discovered()
      && Drained(state.prepared, old(host.vdevs), old(host.leaked), host.vdevs, host.leaked,
        (host.failures - old(host.failures)) - (host.lapses - old(host.lapses)))
      && (host.failures == old(host.failures) ==> host.vdevs.Keys == old(host.vdevs.Keys) * Tracked(state.prepared))
      && (host.failures == old(host.failures) && SitsOnParent(state.prepared, host.cards, host.vdevs) ==>
          DistinctAddresses(host.cards) ==> OnePerCard(state.allocatable, host.cards))
  {
    var loaded := LoadPreparedState(layout, cdi);
    if loaded.None? {
      assert Drained(Decoded(FileAt(cdi.entries, layout.state)), host.vdevs, host.leaked, host.vdevs, host.leaked, 1);
      return null;
    }
    var discovered := Discover(host, loaded.value);
    if discovered.None? {
      return null;
    }
    var made := marks.MkdirAll();
    if !made {
      return null;
    }
    state := new DeviceState(layout, cdi, marks, host, loaded.value, discovered.value);
  }

  /**
   NewDeviceState; null when it fails. It starts from the ledger that the state file stands for, and never writes that
   file. The vHCU specs and the marks are synchronized only if that ledger has entries, and `clean` tells that this
   passed.
   */
  method NewDeviceState(layout: Layout, cdi: Directory, marks: Directory, host: Host)
      returns (state: DeviceState?, ghost clean: bool)
    requires layout.Ok() && cdi != marks && host.Valid()
    modifies cdi, marks, host`vdevs, host`leaked, host`failures, host`lapses
    ensures host.Valid() && cdi.failures >= old(cdi.failures) && marks.failures >= old(marks.failures) &&
      host.failures >= old(host.failures)
    ensures state == null ==>
      cdi.failures > old(cdi.failures) || marks.failures > old(marks.failures) || host.failures > old(host.failures)
    ensures FileAt(cdi.entries, layout.state) == FileAt(old(cdi.entries), layout.state)
    ensures state == null ==> exists missed ::
      Drained(Decoded(FileAt(cdi.entries, layout.state)), old(host.vdevs), old(host.leaked), host.vdevs, host.leaked,
        missed)
    ensures state != null ==>
      && fresh(state) && state.layout == layout && state.cdi == cdi && state.marks == marks && state.host == host &&
        state.Valid()
      && state.prepared == Decoded(FileAt(old(cdi.entries), layout.state))
      && state.allocatable == state.Discovered() &&
        BaseLists(layout, FileAt(cdi.entries, layout.base), state.allocatable)
      && Drained(state.prepared, old(host.vdevs), old(host.leaked), host.vdevs, host.leaked,
        (host.failures - old(host.failures)) - (host.lapses - old(host.lapses)))
      && (host.failures == old(host.failures) ==> host.vdevs.Keys == old(host.vdevs.Keys) * Tracked(state.prepared))
      && (host.failures == old(host.failures) && SitsOnParent(state.prepared, host.cards, host.vdevs) ==>
          DistinctAddresses(host.cards) ==> OnePerCard(state.allocatable, host.cards))
    ensures state != null && Sane(layout, state.prepared, old(host.vdevs), old(host.leaked)) ==> state.Consistent()
    ensures state != null ==>
      && KeepsMarks(state.prepared, {}, old(marks.entries), marks.entries)
      && KeepsSpecs(layout, ActiveNames(state.prepared), old(cdi.entries), old(cdi.residue), cdi.entries, cdi.residue)
    ensures state != null && state.prepared == map[] ==>
      marks.entries == old(marks.entries) && cdi.OnlyTouches({layout.base, layout.legacyBase, layout.legacyAggregate})
    ensures state != null && state.prepared != map[] && clean ==> state.Mirrored()
    ensures state != null && state.prepared != map[] && cdi.failures == old(cdi.failures) ==>
      CdiMirrors(layout, cdi.entries, state.prepared)
    ensures state != null && state.prepared != map[] && marks.failures == old(marks.failures) ==>
      MarksMirror(marks.entries, state.prepared)
    ensures state == null ==>
      marks.entries == old(marks.entries) && cdi.OnlyTouches({layout.base, layout.legacyBase, layout.legacyAggregate})
    ensures old(cdi.failures + marks.failures + host.failures) == cdi.failures + marks.failures + host.failures ==>
      clean
  {
    clean := false;
    state := Restore(layout, cdi, marks, host);
    if state != null {
      var ok;
      ok, clean := state.WriteRestored();
      if !ok {
        return null, false;
      }
    }
  }

  lemma NoneGone(prepared: Ledger)
    ensures prepared - {} == prepared && TrackedBy(prepared, {}) == {} && MarksBy(prepared, {}) == {}
  {
  }

  /** One destroy after another. */
  lemma DestroyedMore(v: map<int, int>, l: set<int>, v1: map<int, int>, l1: set<int>, v2: map<int, int>, l2: set<int>,
                      a: set<int>, b: set<int>)
    requires Destroyed(v, l, v1, l1, a) && Destroyed(v1, l1, v2, l2, b)
    ensures Destroyed(v, l, v2, l2, a + b)
  {
  }

  /** One orphan after others. */
  lemma SweptMore(prepared: Ledger, done: set<UID>, uid: UID, v: map<int, int>, l: set<int>, v1: map<int, int>,
                  l1: set<int>, v2: map<int, int>, l2: set<int>)
    requires uid in prepared && Destroyed(v, l, v1, l1, TrackedBy(prepared, done))
    requires Destroyed(v1, l1, v2, l2, Indices(prepared[uid]))
    ensures Destroyed(v, l, v2, l2, TrackedBy(prepared, done + {uid}))
    ensures TrackedBy(prepared, done + {uid}) == TrackedBy(prepared, done) + Indices(prepared[uid])
    ensures MarksBy(prepared, done + {uid}) == MarksBy(prepared, done) + MarksOf(prepared[uid])
  {
    DestroyedMore(v, l, v1, l1, v2, l2, TrackedBy(prepared, done), Indices(prepared[uid]));
    TrackedBySnoc(prepared, done, uid);
    MarksBySnoc(prepared, done, uid);
  }

  /** Saving does not disturb the vHCU specs. */
  lemma MirrorSurvivesSave(layout: Layout, before: map<string, Entry>, after: map<string, Entry>, prepared: Ledger)
    requires layout.Ok() && CdiMirrors(layout, before, prepared)
    requires forall n | n != layout.state && n != layout.tmp :: n in after <==> n in before
    requires forall n | n != layout.state && n != layout.tmp && n in after :: after[n] == before[n]
    ensures CdiMirrors(layout, after, prepared)
  {
  }
}
