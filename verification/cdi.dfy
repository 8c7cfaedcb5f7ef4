/** The CDI spec files: one for the physical cards, one for each recorded vHCU. */
module Cdi {
  import opened Types
  import opened Text
  import opened Names
  import opened StateFile
  import opened Storage

  /** `p` is a recorded vHCU. */
  ghost predicate Recorded(prepared: Ledger, p: PreparedDevice) {
    !p.wholeCard && exists u :: u in prepared && p in prepared[u]
  }

  /** The CDI names of all recorded vHCUs. */
  function ActiveNames(prepared: Ledger): set<string> {
    set u, p | u in prepared && p in prepared[u] && !p.wholeCard :: p.cdiName
  }

  /** Every vHCU is recorded under the name and the device ID made from its index. */
  predicate NameOk(layout: Layout, p: PreparedDevice) {
    !p.wholeCard ==>
      p.cdiName == VDeviceName(p.vdvInd) && p.cdiDeviceID == QualifiedName(layout.VDeviceKind(), p.cdiName)
  }

  predicate NamesOk(layout: Layout, prepared: Ledger) {
    forall u | u in prepared :: forall p | p in prepared[u] :: NameOk(layout, p)
  }

  /** Each active name stands for some recorded vHCU of that name. */
  ghost predicate IsActive(prepared: Ledger, active: map<string, PreparedDevice>) {
    && active.Keys == ActiveNames(prepared)
    && forall c | c in active :: Recorded(prepared, active[c]) && active[c].cdiName == c
  }

  /** activePreparedVDevices: the claims are visited in an arbitrary order, and a later entry of the same name wins. */
  method ActivePreparedVDevices(prepared: Ledger) returns (active: map<string, PreparedDevice>)
    ensures IsActive(prepared, active)
  {
    active := map[];
    var rest := prepared.Keys;
    while rest != {}
      decreases |rest|
      invariant rest <= prepared.Keys
      invariant active.Keys == set u, p | u in prepared && u !in rest && p in prepared[u] && !p.wholeCard :: p.cdiName
      invariant forall c | c in active :: Recorded(prepared, active[c]) && active[c].cdiName == c
    {
      var u :| u in rest;
      ghost var before := active.Keys;
      for k := 0 to |prepared[u]|
        invariant active.Keys == before + set p | p in prepared[u][..k] && !p.wholeCard :: p.cdiName
        invariant forall c | c in active :: Recorded(prepared, active[c]) && active[c].cdiName == c
      {
        var p := prepared[u][k];
        assert prepared[u][..k + 1] == prepared[u][..k] + [p];
        if !p.wholeCard {
          active := active[p.cdiName := p];
        }
      }
      assert prepared[u][..|prepared[u]|] == prepared[u];
      rest := rest - {u};
    }
  }

  /** Two records of one vHCU are the same record of the same claim. */
  lemma OneRecordPerVhcu(prepared: Ledger, p: PreparedDevice, q: PreparedDevice)
    requires Distinct(prepared) && Recorded(prepared, p) && Recorded(prepared, q) && p.vdvInd == q.vdvInd
    ensures p == q
  {
    var u :| u in prepared && p in prepared[u];
    var v :| v in prepared && q in prepared[v];
    assert p.vdvInd in Indices(prepared[u]) && q.vdvInd in Indices(prepared[v]);
    assert u == v;
    var a :| 0 <= a < |prepared[u]| && prepared[u][a] == p;
    var b :| 0 <= b < |prepared[u]| && prepared[u][b] == q;
    assert NoRepeat(prepared[u]);
  }

  /** With vHCUs recorded once, every visiting order yields the same map. */
  lemma ActiveIsUnique(layout: Layout, prepared: Ledger, m: map<string, PreparedDevice>,
                       m': map<string, PreparedDevice>)
    requires Distinct(prepared) && NamesOk(layout, prepared)
    requires IsActive(prepared, m) && IsActive(prepared, m')
    ensures m == m'
  {
    forall c | c in m ensures m[c] == m'[c] {
      var p, q := m[c], m'[c];
      assert NameOk(layout, p) && NameOk(layout, q);
      VDeviceNameInjective(p.vdvInd, q.vdvInd);
      OneRecordPerVhcu(prepared, p, q);
    }
  }

  /** That map is a bijection between the names of the tracked vHCUs and their records. */
  lemma ActiveIsBijective(layout: Layout, prepared: Ledger, m: map<string, PreparedDevice>)
    requires Distinct(prepared) && NamesOk(layout, prepared) && IsActive(prepared, m)
    ensures m.Keys == set i | i in Tracked(prepared) :: VDeviceName(i)
    ensures forall c | c in m :: m[c].vdvInd in Tracked(prepared) && c == VDeviceName(m[c].vdvInd)
    ensures forall p | Recorded(prepared, p) :: p.cdiName in m && m[p.cdiName] == p
  {
    forall c | c in m ensures c == VDeviceName(m[c].vdvInd) && m[c].vdvInd in Tracked(prepared) {
      assert NameOk(layout, m[c]);
    }
    forall p | Recorded(prepared, p) ensures p.cdiName in m && m[p.cdiName] == p {
      assert p.cdiName in ActiveNames(prepared) && NameOk(layout, p) && NameOk(layout, m[p.cdiName]);
      VDeviceNameInjective(p.vdvInd, m[p.cdiName].vdvInd);
      OneRecordPerVhcu(prepared, p, m[p.cdiName]);
    }
    forall i | i in Tracked(prepared) ensures VDeviceName(i) in m {
      var u, p :| u in prepared && p in prepared[u] && !p.wholeCard && p.vdvInd == i;
      assert Recorded(prepared, p) && NameOk(layout, p);
    }
  }

  /** vdeviceCDISpecFilesNeedRepair */
  method VDeviceCDISpecFilesNeedRepair(layout: Layout, dir: Directory, prepared: Ledger) returns (r: bool)
    ensures r <==> exists c :: c in ActiveNames(prepared) && layout.SpecName(c) !in dir.entries
  {
    var active := ActivePreparedVDevices(prepared);
    var rest := active.Keys;
    while rest != {}
      decreases |rest|
      invariant rest <= active.Keys && forall c | c in active && c !in rest :: layout.SpecName(c) in dir.entries
    {
      var c :| c in rest;
      if layout.SpecName(c) !in dir.entries {
        return true;
      }
      rest := rest - {c};
    }
    return false;
  }

  /** A spec file that holds the one device of that name, whatever its container edits. */
  ghost predicate HoldsDevice(e: Entry, kind: string, cdiName: string) {
    && e.File? && e.content.Spec? && e.content.spec.kind == kind
    && |e.content.spec.devices| == 1 && e.content.spec.devices[0].name == cdiName
  }

  /** The device IDs a file under the CDI root offers to container runtimes. */
  function DeviceIds(e: Entry): set<string> {
    if e.File? && e.content.Spec? then set d | d in e.content.spec.devices ::
      QualifiedName(e.content.spec.kind, d.name) else {}
  }

  /** Some file offers the device ID. */
  ghost predicate Offered(id: string, entries: map<string, Entry>) {
    exists n :: n in entries && id in DeviceIds(entries[n])
  }

  /** Once the specs mirror the ledger, the device ID of every vHCU with a name of its own is offered. */
  lemma VhcuIsOffered(layout: Layout, entries: map<string, Entry>, prepared: Ledger, p: PreparedDevice)
    requires CdiMirrors(layout, entries, prepared) && Recorded(prepared, p) && NameOk(layout, p)
    ensures Offered(p.cdiDeviceID, entries)
  {
    var n := layout.SpecName(p.cdiName);
    assert p.cdiName in ActiveNames(prepared);
    assert entries[n].content.spec.devices[0] in entries[n].content.spec.devices;
    assert p.cdiDeviceID in DeviceIds(entries[n]);
  }

  /** A spec that was there is there, and is as it was, holds its device, or could not be written. */
  ghost predicate SpecKept(e: map<string, Entry>, r: set<string>, e': map<string, Entry>, r': set<string>, n: string,
                           kind: string, cdiName: string) {
    n in e ==>
      n in e' && ((e'[n] == e[n] && (n in r ==> n in r')) || HoldsDevice(e'[n], kind, cdiName) || n in r')
  }

  /** The same for the specs of all vHCUs of those CDI names. */
  ghost predicate KeepsSpecs(layout: Layout, names: set<string>, e: map<string, Entry>, r: set<string>,
                             e': map<string, Entry>, r': set<string>) {
    forall c | c in names :: SpecKept(e, r, e', r', layout.SpecName(c), layout.VDeviceKind(), c)
  }

  lemma KeepsSpecsMore(layout: Layout, names: set<string>, e0: map<string, Entry>, r0: set<string>,
                       e1: map<string, Entry>, r1: set<string>, e2: map<string, Entry>, r2: set<string>)
    requires KeepsSpecs(layout, names, e0, r0, e1, r1) && KeepsSpecs(layout, names, e1, r1, e2, r2)
    ensures KeepsSpecs(layout, names, e0, r0, e2, r2)
  {
  }

  /** removeLegacyCDIJSONFiles: errors are ignored. */
  method RemoveLegacyCDIJSONFiles(layout: Layout, dir: Directory)
    modifies dir
    ensures dir.OnlyRemoves({layout.legacyBase, layout.legacyAggregate})
    ensures forall n | n in {layout.legacyBase, layout.legacyAggregate} && n in dir.entries :: n in dir.residue
    ensures dir.Counted() && dir.OnlyLapsed()
  {
    var _ := dir.Remove(layout.legacyBase);
    var _ := dir.Remove(layout.legacyAggregate);
  }

  /** The vHCU spec files under the CDI root mirror the ledger. */
  ghost predicate CdiMirrors(layout: Layout, entries: map<string, Entry>, prepared: Ledger) {
    && (forall n | n in entries && layout.IsSpec(n) :: layout.CdiNameOf(n) in ActiveNames(prepared))
    && (forall c | c in ActiveNames(prepared) ::
      layout.SpecName(c) in entries && HoldsDevice(entries[layout.SpecName(c)], layout.VDeviceKind(), c))
  }

  /** The spec of every vHCU of those CDI names is there. */
  ghost predicate Written(names: set<string>, kind: string, path: string -> string, entries: map<string, Entry>) {
    forall c | c in names :: path(c) in entries && HoldsDevice(entries[path(c)], kind, c)
  }

  /** No spec of those CDI names has gone bad unnoticed. */
  ghost predicate Kept(names: set<string>, kind: string, path: string -> string, e: map<string, Entry>, r: set<string>,
                       e': map<string, Entry>, r': set<string>) {
    forall c | c in names :: SpecKept(e, r, e', r', path(c), kind, c)
  }

  /** The first loop of syncVDeviceCDISpecFiles; `path` names the file of a vHCU, and `nameOf` reads the name back. */
  method WriteVDeviceSpecs(dir: Directory, kind: string, path: string -> string, active: map<string, PreparedDevice>,
                           ghost nameOf: string -> string, ghost specs: set<string>)
      returns (ok: bool)
    requires forall c | c in active :: active[c].cdiName == c && path(c) in specs && nameOf(path(c)) == c
    modifies dir
    ensures dir.OnlyTouches(specs)
    ensures ok ==> Written(active.Keys, kind, path, dir.entries)
    ensures Kept(active.Keys, kind, path, old(dir.entries), old(dir.residue), dir.entries, dir.residue)
    ensures dir.Counted() && (ok <==> dir.failures == old(dir.failures))
    ensures !ok ==> exists c :: c in active && path(c) in dir.residue
  {
    var rest := active.Keys;
    while rest != {}
      decreases |rest|
      invariant rest <= active.Keys && dir.OnlyTouches(specs)
      invariant Written(active.Keys - rest, kind, path, dir.entries)
      invariant Kept(active.Keys, kind, path, old(dir.entries), old(dir.residue), dir.entries, dir.residue)
      invariant dir.Counted() && dir.failures == old(dir.failures)
    {
      var c :| c in rest;
      var edits := *;
      ghost var e, r := dir.entries, dir.residue;
      ok := dir.Write(path(c), Spec(CdiSpec(kind, [CdiDevice(active[c].cdiName, edits)])));
      WriteKeeps(active.Keys, kind, path, nameOf, c, old(dir.entries), old(dir.residue), e, r, dir.entries,
        dir.residue);
      if !ok {
        return;
      }
      rest := rest - {c};
    }
    return true;
  }

  /** One write among the specs. */
  lemma WriteKeeps(names: set<string>, kind: string, path: string -> string, nameOf: string -> string, c: string,
                   e0: map<string, Entry>, r0: set<string>, e1: map<string, Entry>, r1: set<string>,
                   e2: map<string, Entry>, r2: set<string>)
    requires forall d | d in names :: nameOf(path(d)) == d
    requires c in names && Kept(names, kind, path, e0, r0, e1, r1) && Touched(e1, r1, e2, r2, {path(c)})
    requires path(c) in e1 ==> path(c) in e2
    requires path(c) in r2 || (path(c) in e2 && HoldsDevice(e2[path(c)], kind, c))
    ensures Kept(names, kind, path, e0, r0, e2, r2)
  {
    forall d | d in names ensures SpecKept(e0, r0, e2, r2, path(d), kind, d) {
      assert SpecKept(e0, r0, e1, r1, path(d), kind, d);
      assert d != c ==> path(d) != path(c);
    }
  }

  /** Files that belong neither to the vHCU sync nor to older versions of the driver are as they were. */
  ghost predicate OthersSame(layout: Layout, e: map<string, Entry>, r: set<string>, e': map<string, Entry>,
                             r': set<string>) {
    forall n | !layout.IsSpec(n) && !layout.IsLegacy(n) ::
      (n in e' <==> n in e) && (n in e' ==> e'[n] == e[n]) && (n in r' <==> n in r)
  }

  /** The write or the removal of some vHCU spec has failed. */
  ghost predicate SpecFailed(layout: Layout, r: set<string>) {
    exists n :: layout.IsSpec(n) && n in r
  }

  /** What the second loop wants of a file: a stale spec is gone, a legacy JSON file is gone or could not be removed. */
  predicate Settled(layout: Layout, name: string, present: bool, refused: bool, active: set<string>) {
    present ==>
      && (layout.IsSpec(name) ==> layout.CdiNameOf(name) in active)
      && (HasPrefix(name, layout.prefix) && HasSuffix(name, layout.json) ==> refused)
  }

  /** A file the second loop leaves alone. */
  predicate Spared(layout: Layout, name: string, active: set<string>) {
    !layout.IsLegacy(name) && (layout.IsSpec(name) ==> layout.CdiNameOf(name) in active)
  }

  /** One round of the second loop. */
  method RemoveIfStale(layout: Layout, dir: Directory, name: string, active: set<string>) returns (ok: bool)
    modifies dir
    ensures dir.OnlyRemoves({name})
    ensures Spared(layout, name, active) ==> dir.entries == old(dir.entries) && dir.residue == old(dir.residue)
    ensures ok ==> Settled(layout, name, name in dir.entries, name in dir.residue, active)
    ensures dir.Counted() && dir.OnlyLapsed() && (dir.failures == old(dir.failures) ==> ok)
    ensures !ok ==> layout.IsSpec(name) && name in dir.residue
  {
    ok := true;
    if HasPrefix(name, layout.prefix) {
      if HasSuffix(name, layout.json) {
        var _ := dir.Remove(name);
      } else if HasSuffix(name, layout.spec) && layout.CdiNameOf(name) !in active {
        var r := dir.Remove(name);
        ok := !r.Refused?;
      }
    }
  }

  /** Spared files are as they were, and no file is new. */
  twostate predicate Sweeps(layout: Layout, dir: Directory, active: set<string>)
    reads dir
  {
    && (forall n | n in dir.entries :: n in old(dir.entries) && dir.entries[n] == old(dir.entries)[n])
    && (forall n | n in old(dir.entries) && Spared(layout, n, active) :: n in dir.entries)
    && (forall n | Spared(layout, n, active) :: n in dir.residue <==> n in old(dir.residue))
  }

  /** The second loop of syncVDeviceCDISpecFiles, and the legacy files. */
  method RemoveStaleSpecs(layout: Layout, dir: Directory, active: set<string>) returns (ok: bool)
    modifies dir
    ensures Sweeps(layout, dir, active)
    ensures ok ==> forall n | n in dir.entries :: Settled(layout, n, true, n in dir.residue, active)
    ensures dir.Counted() && (dir.failures == old(dir.failures) ==> ok)
    ensures if ok then dir.OnlyLapsed() else !dir.OnlyLapsed() || SpecFailed(layout, dir.residue)
  {
    var names;
    ok, names := dir.ReadDir();
    if !ok {
      return;
    }
    for k := 0 to |names|
      invariant Sweeps(layout, dir, active)
      invariant forall j | 0 <= j < k ::
        Settled(layout, names[j], names[j] in dir.entries, names[j] in dir.residue, active)
      invariant dir.Counted() && dir.OnlyLapsed() && (dir.failures == old(dir.failures) ==> ok)
    {
      ok := RemoveIfStale(layout, dir, names[k], active);
      if !ok {
        return;
      }
    }
    return true;
  }

  /** Specs of active vHCUs are as they were. */
  twostate predicate ActiveUntouched(layout: Layout, dir: Directory, active: set<string>)
    reads dir
  {
    forall n | n in old(dir.entries) && layout.IsSpec(n) && layout.CdiNameOf(n) in active ::
      n in dir.entries && dir.entries[n] == old(dir.entries)[n] && (n in old(dir.residue) ==> n in dir.residue)
  }

  /** Everything syncVDeviceCDISpecFiles removes. */
  method RemoveStale(layout: Layout, dir: Directory, active: set<string>) returns (ok: bool)
    requires !layout.IsSpec(layout.legacyBase) && !layout.IsSpec(layout.legacyAggregate)
    modifies dir
    ensures OthersSame(layout, old(dir.entries), old(dir.residue), dir.entries, dir.residue)
    ensures ActiveUntouched(layout, dir, active)
    ensures ok ==> forall n | n in dir.entries && layout.IsSpec(n) :: layout.CdiNameOf(n) in active
    ensures ok ==> forall n | n in dir.entries && layout.IsLegacy(n) :: n in dir.residue
    ensures dir.Counted() && (dir.failures == old(dir.failures) ==> ok)
    ensures if ok then dir.OnlyLapsed() else !dir.OnlyLapsed() || SpecFailed(layout, dir.residue)
  {
    ok := RemoveStaleSpecs(layout, dir, active);
    if ok {
      RemoveLegacyCDIJSONFiles(layout, dir);
    }
  }

  /**
   syncVDeviceCDISpecFiles. Once it succeeds, the vHCU specs under the CDI root are exactly those of the recorded vHCUs,
   whatever was there before, and legacy JSON files are gone unless their removal failed. Every other file, the base
   spec and the state file among them, stays as it was whether or not it succeeds; and so does the spec of a recorded
   vHCU, unless it is rewritten for the same device or its write fails. It fails only if the directory cannot be made or
   read, or a spec cannot be written or removed; legacy files that cannot be removed do not count.
   */
  method SyncVDeviceCDISpecFiles(layout: Layout, dir: Directory, prepared: Ledger) returns (ok: bool)
    requires layout.Ok()
    modifies dir
    ensures ok ==> CdiMirrors(layout, dir.entries, prepared)
    ensures ok ==> forall n | n in dir.entries && layout.IsLegacy(n) :: n in dir.residue
    ensures OthersSame(layout, old(dir.entries), old(dir.residue), dir.entries, dir.residue)
    ensures KeepsSpecs(layout, ActiveNames(prepared), old(dir.entries), old(dir.residue), dir.entries, dir.residue)
    ensures dir.Counted() && (dir.failures == old(dir.failures) ==> ok)
    ensures if ok then dir.OnlyLapsed() else !dir.OnlyLapsed() || SpecFailed(layout, dir.residue)
  {
    ok := dir.MkdirAll();
    if !ok {
      return;
    }
    var active := ActivePreparedVDevices(prepared);
    var path := (c: string) => layout.SpecName(c);
    PathsAreOwned(layout, path);
    ghost var specs := set c | c in active :: path(c);
    ok := WriteVDeviceSpecs(dir, layout.VDeviceKind(), path, active, n => layout.CdiNameOf(n), specs);
    if !ok {
      return;
    }
    ghost var e, r := dir.entries, dir.residue;
    ok := RemoveStale(layout, dir, active.Keys);
    KeepsSpecsMore(layout, active.Keys, old(dir.entries), old(dir.residue), e, r, dir.entries, dir.residue);
  }

  lemma PathsAreOwned(layout: Layout, path: string -> string)
    requires layout.Ok() && forall c :: path(c) == layout.SpecName(c)
    ensures forall c :: layout.IsSpec(path(c)) && layout.CdiNameOf(path(c)) == c
  {
  }
}
