/** The dynamic marks under /etc/vdev/dynamic, one per prepared device. */
module Marks {
  import opened Types
  import opened Text
  import opened Names
  import opened StateFile
  import opened Storage

  /** The marks the ledger calls for. */
  function ActiveMarks(prepared: Ledger): set<string> {
    set u, p | u in prepared && p in prepared[u] && p.dynamicMarkFile != "" :: p.dynamicMarkFile
  }

  /** The name syncDynamicMarkFiles rebuilds for a device whose mark is missing. */
  function RebuiltMark(p: PreparedDevice): string {
    if p.podUID == "" then MarkName(p.claimUID, FALLBACK_CONTAINER, p.dvInd, MarkIndex(p.wholeCard, p.vdvInd))
    else MarkName(p.podUID, p.containerName, p.dvInd, MarkIndex(p.wholeCard, p.vdvInd))
  }

  predicate MarkOk(p: PreparedDevice) {
    p.dynamicMarkFile != "" ==> p.dynamicMarkFile == RebuiltMark(p)
  }

  /** Every recorded mark is the one its own fields spell. */
  predicate MarksOk(prepared: Ledger) {
    forall u | u in prepared :: forall p | p in prepared[u] :: MarkOk(p)
  }

  function MarksOf(list: seq<PreparedDevice>): set<string> {
    set p | p in list && p.dynamicMarkFile != "" :: p.dynamicMarkFile
  }

  /** The marks of some of the ledger's claims. */
  function MarksBy(prepared: Ledger, uids: set<UID>): set<string> {
    set u, p | u in prepared && u in uids && p in prepared[u] && p.dynamicMarkFile != "" :: p.dynamicMarkFile
  }

  lemma MarksBySnoc(prepared: Ledger, uids: set<UID>, u: UID)
    requires u in prepared
    ensures MarksBy(prepared, uids + {u}) == MarksBy(prepared, uids) + MarksOf(prepared[u])
  {
  }

  /** The name leads with that claim UID. */
  predicate LedBy(n: string, uid: UID) { uid != "" && HasPrefix(n, uid + "_") }

  /** Some record that has a mark spells that name with its fields. */
  ghost predicate Rebuilt(prepared: Ledger, n: string) {
    exists u, p :: u in prepared && p in prepared[u] && p.dynamicMarkFile != "" && RebuiltMark(p) == n
  }

  /** Some record of that mark spells it with its fields. */
  ghost predicate Spelt(prepared: Ledger, n: string) {
    exists u, p :: u in prepared && p in prepared[u] && p.dynamicMarkFile == n && n != "" && RebuiltMark(p) == n
  }

  /** Some record of another mark spells that name with its fields. */
  ghost predicate Contested(prepared: Ledger, n: string) {
    exists u, p :: u in prepared && p in prepared[u] && p.dynamicMarkFile !in {"", n} && RebuiltMark(p) == n
  }

  /** createDynamicMarkFile: the file's content is a time stamp. */
  method CreateDynamicMarkFile(dir: Directory, podUID: string, containerName: string, dvInd: int, vdevIdx: int)
      returns (ok: bool, name: string)
    modifies dir
    ensures name == MarkName(podUID, containerName, dvInd, vdevIdx)
    ensures dir.OnlyTouches({name})
    ensures dir.KeepsDirs()
    ensures ok ==> name in dir.entries && dir.entries[name].File? && name !in dir.residue
    ensures forall n | n in old(dir.entries) :: n in dir.entries
    ensures !ok ==> name in dir.residue || dir.entries == old(dir.entries)
    ensures ok <==> dir.failures == old(dir.failures)
    ensures dir.Counted() && (!ok && dir.lapses == old(dir.lapses) ==> dir.entries == old(dir.entries))
  {
    name := MarkName(podUID, containerName, dvInd, vdevIdx);
    ok := dir.MkdirAll();
    if ok {
      var now := *;
      ok := dir.Write(name, Bytes(now));
    }
  }

  /** removePreparedDynamicMarks */
  method RemovePreparedDynamicMarks(dir: Directory, list: seq<PreparedDevice>)
    modifies dir
    ensures dir.OnlyRemoves(MarksOf(list))
    ensures forall n | n in MarksOf(list) && n in dir.entries :: n in dir.residue
    ensures dir.Counted() && (dir.lapses == old(dir.lapses) ==> MarksOf(list) !! dir.entries.Keys)
  {
    for k := 0 to |list|
      invariant dir.OnlyRemoves(MarksOf(list[..k]))
      invariant forall n | n in MarksOf(list[..k]) && n in dir.entries :: n in dir.residue
      invariant dir.Counted() && (dir.lapses == old(dir.lapses) ==> MarksOf(list[..k]) !! dir.entries.Keys)
    {
      var p := list[k];
      assert list[..k + 1] == list[..k] + [p];
      assert MarksOf(list[..k + 1]) == MarksOf(list[..k]) +
        (if p.dynamicMarkFile == "" then {} else {p.dynamicMarkFile});
      if p.dynamicMarkFile != "" {
        var _ := dir.Remove(p.dynamicMarkFile);
      }
    }
    assert list[..|list|] == list;
  }

  /**
   removeDynamicMarksByClaimUID: the marks that lead with the claim's UID, which may have been created without a ledger
   entry. `seen` tells whether the directory could be read.
   */
  method RemoveDynamicMarksByClaimUID(dir: Directory, claimUID: UID) returns (ghost seen: bool)
    modifies dir
    ensures dir.OnlyRemoves(set n | n in old(dir.entries) && old(dir.entries)[n].File? && LedBy(n, claimUID))
    ensures forall n | n in dir.entries && n in old(dir.residue) :: n in dir.residue
    ensures seen ==> forall n | n in dir.entries && dir.entries[n].File? && LedBy(n, claimUID) :: n in dir.residue
    ensures dir.Counted() && (dir.failures == old(dir.failures) && claimUID != "" ==> seen)
    ensures seen && dir.lapses == old(dir.lapses) ==> forall n | n in dir.entries && dir.entries[n].File? ::
      !LedBy(n, claimUID)
  {
    seen := false;
    if claimUID == "" {
      return;
    }
    var ok, names := dir.ReadDir();
    if !ok {
      return;
    }
    seen := true;
    ghost var doomed := set n | n in dir.entries && dir.entries[n].File? && LedBy(n, claimUID);
    for k := 0 to |names|
      invariant dir.OnlyRemoves(doomed) && dir.Counted()
      invariant forall n | n in dir.entries && n in old(dir.residue) :: n in dir.residue
      invariant forall j | k <= j < |names| :: names[j] in dir.entries
      invariant forall j | 0 <= j < k && names[j] in dir.entries && dir.entries[names[j]].File? &&
        LedBy(names[j], claimUID) ::
        names[j] in dir.residue && dir.lapses > old(dir.lapses)
    {
      if dir.entries[names[k]].File? && HasPrefix(names[k], claimUID + "_") {
        var _ := dir.Remove(names[k]);
      }
    }
  }

  /** Nothing has gone; only the rebuilt name may be new, or have changed if it is the mark of another record. */
  ghost predicate Ensured(e: map<string, Entry>, e': map<string, Entry>, mark: string, rebuilt: string) {
    && (forall n | n in e :: n in e' && (e'[n] == e[n] || (n == rebuilt && mark !in {"", n})))
    && (forall n | n in e' && n !in e :: n == rebuilt && mark != "")
  }

  /** Files of other names than rebuilt ones are not new, and are still in residue if they were. */
  ghost predicate Lingers(e: map<string, Entry>, r: set<string>, e': map<string, Entry>, r': set<string>,
                          prepared: Ledger) {
    forall n | n in e' && !Rebuilt(prepared, n) :: n in e && (n in r ==> n in r')
  }

  /** The files of those names that are there could not be removed, or have been rebuilt. */
  ghost predicate Cleared(names: set<string>, e: map<string, Entry>, r: set<string>, prepared: Ledger) {
    forall n | n in names && n in e :: n in r || Rebuilt(prepared, n)
  }

  /** One round of the first loop of syncDynamicMarkFiles. */
  method EnsureMark(dir: Directory, p: PreparedDevice) returns (ok: bool)
    modifies dir
    ensures dir.KeepsDirs() && Ensured(old(dir.entries), dir.entries, p.dynamicMarkFile, RebuiltMark(p))
    ensures forall n | n != RebuiltMark(p) || p.dynamicMarkFile == "" :: n in dir.residue <==> n in old(dir.residue)
    ensures ok && p.dynamicMarkFile != "" ==> p.dynamicMarkFile in old(dir.entries) || RebuiltMark(p) in dir.entries
    ensures ok && p.dynamicMarkFile != "" && MarkOk(p) ==> p.dynamicMarkFile in dir.entries
    ensures dir.Counted() && (ok <==> dir.failures == old(dir.failures))
  {
    ok := true;
    if p.dynamicMarkFile != "" && p.dynamicMarkFile !in dir.entries {
      var podUID, containerName := p.podUID, p.containerName;
      if podUID == "" {
        podUID, containerName := p.claimUID, FALLBACK_CONTAINER;
      }
      var name;
      ok, name := CreateDynamicMarkFile(dir, podUID, containerName, p.dvInd, MarkIndex(p.wholeCard, p.vdvInd));
    }
  }

  /** Nothing has gone, only rebuilt names are new, and only contested ones have changed. */
  ghost predicate Progress(e: map<string, Entry>, e': map<string, Entry>, prepared: Ledger) {
    && (forall n | n in e :: n in e' && (e'[n] == e[n] || Contested(prepared, n)))
    && (forall n | n in e' && n !in e :: Rebuilt(prepared, n))
  }

  lemma ProgressOne(e: map<string, Entry>, e1: map<string, Entry>, e2: map<string, Entry>, prepared: Ledger, u: UID,
                    p: PreparedDevice)
    requires Progress(e, e1, prepared) && Ensured(e1, e2, p.dynamicMarkFile, RebuiltMark(p))
    requires u in prepared && p in prepared[u]
    ensures Progress(e, e2, prepared)
  {
  }

  /** The well-spelt marks of the list are there. */
  ghost predicate SpeltIn(list: seq<PreparedDevice>, entries: map<string, Entry>) {
    forall p | p in list && p.dynamicMarkFile != "" && MarkOk(p) :: p.dynamicMarkFile in entries
  }

  /** The first loop of syncDynamicMarkFiles: recreate what is missing. */
  method CreateMissingMarks(dir: Directory, prepared: Ledger) returns (ok: bool)
    modifies dir
    ensures dir.KeepsDirs() && Progress(old(dir.entries), dir.entries, prepared)
    ensures forall n | !Rebuilt(prepared, n) :: n in dir.residue <==> n in old(dir.residue)
    ensures ok ==> forall u | u in prepared :: SpeltIn(prepared[u], dir.entries)
    ensures dir.Counted() && (ok <==> dir.failures == old(dir.failures))
  {
    ok := true;
    var rest := prepared.Keys;
    while rest != {}
      decreases |rest|
      invariant rest <= prepared.Keys && dir.KeepsDirs() && Progress(old(dir.entries), dir.entries, prepared)
      invariant forall n | !Rebuilt(prepared, n) :: n in dir.residue <==> n in old(dir.residue)
      invariant forall u | u in prepared && u !in rest :: SpeltIn(prepared[u], dir.entries)
      invariant dir.Counted() && dir.failures == old(dir.failures)
    {
      var u :| u in rest;
      for k := 0 to |prepared[u]|
        invariant dir.KeepsDirs() && Progress(old(dir.entries), dir.entries, prepared)
        invariant forall n | !Rebuilt(prepared, n) :: n in dir.residue <==> n in old(dir.residue)
        invariant SpeltIn(prepared[u][..k], dir.entries)
        invariant forall v | v in prepared && v !in rest :: SpeltIn(prepared[v], dir.entries)
        invariant dir.Counted() && dir.failures == old(dir.failures)
      {
        var p := prepared[u][k];
        assert prepared[u][..k + 1] == prepared[u][..k] + [p];
        ghost var before := dir.entries;
        ok := EnsureMark(dir, p);
        ProgressOne(old(dir.entries), before, dir.entries, prepared, u, p);
        if !ok {
          return;
        }
      }
      assert prepared[u][..|prepared[u]|] == prepared[u];
      rest := rest - {u};
    }
  }

  /** The second loop of syncDynamicMarkFiles: remove what is not recorded; directories are left alone. */
  method RemoveStaleMarks(dir: Directory, active: set<string>) returns (ok: bool)
    modifies dir
    ensures dir.OnlyRemoves(old(dir.entries.Keys) - active) && dir.KeepsDirs()
    ensures forall n | n in dir.entries && n in old(dir.residue) :: n in dir.residue
    ensures ok ==> forall n | n in dir.entries && dir.entries[n].File? :: n in active
    ensures dir.Counted() && (ok <==> dir.failures == old(dir.failures))
  {
    var names;
    ok, names := dir.ReadDir();
    if !ok {
      return;
    }
    for k := 0 to |names|
      invariant dir.OnlyRemoves(old(dir.entries.Keys) - active) && dir.KeepsDirs()
      invariant forall n | n in dir.entries && n in old(dir.residue) :: n in dir.residue
      invariant forall j | k <= j < |names| :: names[j] in dir.entries
      invariant forall j | 0 <= j < k && names[j] in dir.entries && dir.entries[names[j]].File? :: names[j] in active
      invariant dir.Counted() && dir.failures == old(dir.failures)
    {
      if dir.entries[names[k]].File? && names[k] !in active {
        var r := dir.Remove(names[k]);
        if r.Refused? {
          return false;
        }
      }
    }
  }

  /**
   syncDynamicMarkFiles. Once it succeeds, the files are the ledger's marks, whatever was there before. A recorded mark
   that was there never goes; one that was missing is there afterwards exactly if some record of it spells it with its
   fields, unless a record of another mark happens to spell it. Directories stay, whether or not it succeeds.
   */
  method SyncDynamicMarkFiles(dir: Directory, prepared: Ledger) returns (ok: bool)
    modifies dir
    ensures ok ==> MarksMirror(dir.entries, prepared)
    ensures ok ==> forall n | n in ActiveMarks(prepared) && n !in old(dir.entries) && !Contested(prepared, n) ::
      n in dir.entries <==> Spelt(prepared, n)
    ensures KeepsMarks(prepared, {}, old(dir.entries), dir.entries)
    ensures Lingers(old(dir.entries), old(dir.residue), dir.entries, dir.residue, prepared)
    ensures dir.KeepsDirs()
    ensures dir.Counted() && (ok <==> dir.failures == old(dir.failures))
  {
    ok := dir.MkdirAll();
    if ok {
      ok := CreateMissingMarks(dir, prepared);
      label Created:
      if ok {
        ghost var created := dir.entries;
        ok := RemoveStaleMarks(dir, ActiveMarks(prepared));
        if ok {
          SpeltAreThere(prepared, created, dir.entries);
        }
      }
    }
  }

  lemma SpeltAreThere(prepared: Ledger, e: map<string, Entry>, e': map<string, Entry>)
    requires forall u | u in prepared :: SpeltIn(prepared[u], e)
    requires forall n | n in ActiveMarks(prepared) && n in e :: n in e'
    ensures forall n | n in ActiveMarks(prepared) && Spelt(prepared, n) :: n in e'
  {
  }

  /** The files in the directory are the ledger's marks; each is there that some record of it spells with its fields. */
  ghost predicate MarksMirror(entries: map<string, Entry>, prepared: Ledger) {
    && (forall n | n in entries && entries[n].File? :: n in ActiveMarks(prepared))
    && (forall n | n in ActiveMarks(prepared) && Spelt(prepared, n) :: n in entries)
  }

  /** Recorded marks outside `except` that were there are there; they are untouched unless contested. */
  ghost predicate KeepsMarks(prepared: Ledger, except: set<string>, before: map<string, Entry>,
                             after: map<string, Entry>) {
    forall n | n in ActiveMarks(prepared) && n in before && n !in except ::
      n in after && (after[n] == before[n] || Contested(prepared, n))
  }

  /** Marks removed first, and then a sync. */
  lemma KeepsAfterRemoval(prepared: Ledger, removed: set<string>, e0: map<string, Entry>, e1: map<string, Entry>,
                          e2: map<string, Entry>)
    requires forall n | n in e0 && n !in removed :: n in e1 && e1[n] == e0[n]
    requires KeepsMarks(prepared, {}, e1, e2)
    ensures KeepsMarks(prepared, removed, e0, e2)
  {
  }

  /** When every record spells its own mark, every mark is spelt and none is contested. */
  lemma MarksOkIsSpelt(prepared: Ledger)
    requires MarksOk(prepared)
    ensures forall n | n in ActiveMarks(prepared) :: Spelt(prepared, n) && !Contested(prepared, n)
  {
    forall n | n in ActiveMarks(prepared) ensures Spelt(prepared, n) {
      var u, p :| u in prepared && p in prepared[u] && p.dynamicMarkFile != "" && p.dynamicMarkFile == n;
      assert MarkOk(p);
    }
  }

  /**
   A record that does not spell its mark, among records that spell theirs: by its contract, no successful sync restores
   that mark.
   */
  lemma UnspelledMarkStaysMissing(prepared: Ledger, uid: UID, p: PreparedDevice)
    requires uid in prepared && p in prepared[uid] && p.dynamicMarkFile != "" && !MarkOk(p)
    requires forall u | u in prepared :: forall q | q in prepared[u] && q != p ::
      MarkOk(q) && q.dynamicMarkFile != p.dynamicMarkFile
    ensures p.dynamicMarkFile in ActiveMarks(prepared)
    ensures !Spelt(prepared, p.dynamicMarkFile) && !Contested(prepared, p.dynamicMarkFile)
  {
    var n := p.dynamicMarkFile;
    if u, q :| u in prepared && q in prepared[u] && q.dynamicMarkFile !in {"", n} && RebuiltMark(q) == n {
      assert MarkOk(q);
    }
  }
}
