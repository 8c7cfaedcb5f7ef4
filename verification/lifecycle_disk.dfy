/** What every step keeps about the state file, and about vHCUs nobody tracks. */
module LifecycleDisk {
  import opened Types
  import opened Names
  import opened StateFile
  import opened Lifecycle
  import opened LifecycleInvariant

  /** The vHCUs of the claims that are there to stay. */
  function Owned(s: World): set<int> {
    if s.k.Undoing? then Tracked(s.ledger - {s.k.uid}) else Tracked(s.ledger)
  }

  /** Every vHCU on the host is recorded, in flight, about to be destroyed, or was left by a failed call or a crash. */
  ghost predicate Accounted(s: World) {
    forall i | i in s.host :: i in Owned(s) || i in InFlight(s.k) || i in Doomed(s.k) || i in SweepTodo(s.t) ||
      i in s.leaked
  }

  /** Between the write and the rename, the temporary file holds the ledger as it is. */
  ghost predicate WrittenOk(s: World) {
    (s.k.Saving? && s.k.written) || (s.t.SweepSaving? && s.t.written) ==>
      TMP_NAME in s.files && s.files[TMP_NAME] == PreparedJson(Some(s.ledger))
  }

  /** The claims whose ledger entry has changed since the last save. */
  function Dirty(s: World): set<UID> {
    (if s.k.Recorded? || s.k.Undoing? || s.k.Saving? then {s.k.uid} else {}) +
    (if s.t.Sweeping? || s.t.SweepSaving? then s.t.gone else {})
  }

  /** The running Prepare has recorded its claim and may still fail, or is failing. */
  predicate Unsettled(k: Kubelet) { k.Recorded? || k.Undoing? }

  /** What the state file says of the claim being prepared: nothing, or what no further destroy can hurt. */
  ghost predicate PastHarm(s: World, saved: seq<PreparedDevice>)
    requires Unsettled(s.k)
  {
    saved == [] || (s.k.Undoing? && s.k.uid in s.ledger && saved == s.ledger[s.k.uid] && Indices(s.k.todo) == {})
  }

  /** The vHCUs that the state file names are there, but for exposed claims. */
  ghost predicate SavedAreThere(disk: Ledger, exposed: set<UID>, host: map<int, int>) {
    forall u | u in disk && u !in exposed :: Indices(disk[u]) <= host.Keys
  }

  /** State file and ledger agree, but for claims changed since the last save. */
  ghost predicate SavedAgree(disk: Ledger, ledger: Ledger, dirty: set<UID>) {
    forall u | u !in dirty :: (u in disk <==> u in ledger) && (u in disk ==> disk[u] == ledger[u])
  }

  /** What the state file says, while saves succeed. */
  ghost predicate DiskOk(s: World) {
    var disk := Restored(s.files);
    && Distinct(disk) && SavedAreThere(disk, s.exposed, s.host) && SavedAgree(disk, s.ledger, Dirty(s))
    && (s.t.Sweeping? || s.t.SweepSaving? ==> s.t.gone <= s.exposed)
    && (Unsettled(s.k) && s.k.uid in disk && s.k.uid !in s.exposed ==> PastHarm(s, disk[s.k.uid]))
  }

  predicate SavePasses(step: Step) {
    match step
    case K(KWrite(ok, _)) => ok
    case K(KRename(ok)) => ok
    case T(TWrite(ok, _)) => ok
    case T(TRename(ok)) => ok
    case _ => true
  }

  lemma KubeletStepKeepsWritten(s: World, step: KubeletStep)
    requires LocksOk(s) && WrittenOk(s) && EnabledK(s, step)
    ensures LocksOk(ApplyK(s, step)) && WrittenOk(ApplyK(s, step))
  {
  }

  lemma TickerStepKeepsWritten(s: World, step: TickerStep)
    requires LocksOk(s) && WrittenOk(s) && EnabledT(s, step)
    ensures LocksOk(ApplyT(s, step)) && WrittenOk(ApplyT(s, step))
  {
  }

  /** Holds of every step, crashes and hits included. */
  lemma StepKeepsWritten(s: World, step: Step)
    requires LocksOk(s) && WrittenOk(s) && Enabled(s, step)
    ensures LocksOk(Apply(s, step)) && WrittenOk(Apply(s, step))
  {
    match step
    case K(op) => KubeletStepKeepsWritten(s, op);
    case T(op) => TickerStepKeepsWritten(s, op);
    case _ =>
  }

  lemma DestroyKeepsAccounted(s: World, step: KubeletStep)
    requires KubeletOk(s) && Accounted(s) && EnabledK(s, step) && step.KDestroy?
    ensures Accounted(ApplyK(s, step))
  {
    var s', p := ApplyK(s, step), Owed(s.k)[0];
    DestroyFrame(s, p, step.stays);
    if !s.k.Dropping? {
      IndicesTail(s.k.todo);
    }
    assert Owned(s') == Owned(s) && InFlight(s.k) == {};
    assert Doomed(s.k) <= Doomed(s'.k) + Indices([p]);
  }

  lemma RecordKeepsAccounted(s: World)
    requires Distinct(s.ledger) && Accounted(s) && EnabledK(s, KRecord)
    requires s.k.uid in s.ledger ==> s.ledger[s.k.uid] == []
    ensures Accounted(ApplyK(s, KRecord))
  {
    TrackedRemove(s.ledger, s.k.uid);
    TrackedUpdate(s.ledger, s.k.uid, s.k.created);
  }

  lemma UnprepareKeepsAccounted(s: World, uid: UID)
    requires Distinct(s.ledger) && Accounted(s) && EnabledK(s, KUnprepare(uid))
    ensures Accounted(ApplyK(s, KUnprepare(uid)))
  {
    TrackedRemove(s.ledger, uid);
    assert Owned(s) <= Owned(ApplyK(s, KUnprepare(uid))) + Doomed(ApplyK(s, KUnprepare(uid)).k);
  }

  lemma UndoKeepsAccounted(s: World, step: KubeletStep)
    requires Distinct(s.ledger) && Accounted(s) && EnabledK(s, step) && (step.KSyncsFail? || step.KErase?)
    requires s.k.Recorded? ==> s.k.uid in s.ledger && s.ledger[s.k.uid] == s.k.created
    ensures Accounted(ApplyK(s, step))
  {
    TrackedRemove(s.ledger, s.k.uid);
  }

  lemma KubeletStepKeepsAccounted(s: World, step: KubeletStep)
    requires Inv(s) && Accounted(s) && EnabledK(s, step)
    ensures Accounted(ApplyK(s, step))
  {
    match step
    case KWholeCard(d) => IndicesSnoc(s.k.created, d);
    case KAttach => IndicesSnoc(s.k.created, s.k.vhcu);
    case KDestroy(_) => DestroyKeepsAccounted(s, step);
    case KRecord => RecordKeepsAccounted(s);
    case KSyncsFail => UndoKeepsAccounted(s, step);
    case KErase => UndoKeepsAccounted(s, step);
    case KUnprepare(uid) => UnprepareKeepsAccounted(s, uid);
    case _ =>
  }

  lemma TickerStepKeepsAccounted(s: World, step: TickerStep)
    requires Inv(s) && Accounted(s) && EnabledT(s, step)
    ensures Accounted(ApplyT(s, step))
  {
    match step
    case TTake(uid) =>
      TrackedRemove(s.ledger, uid);
      if s.k.Undoing? {
        assert s.ledger - {uid} - {s.k.uid} == s.ledger - {s.k.uid} - {uid};
        DistinctRemove(s.ledger, s.k.uid);
        TrackedRemove(s.ledger - {s.k.uid}, uid);
      }
    case TDestroy(stays) =>
      DestroyFrame(s, s.t.todo[0], stays);
      IndicesTail(s.t.todo);
    case _ =>
  }

  /** A destroy of a vHCU that no saved claim has, unless it is exposed. */
  lemma DestroyKeepsDisk(s: World, s': World, x: set<int>)
    requires DiskOk(s) && s' == s.(host := s'.host, leaked := s'.leaked, k := s'.k, t := s'.t)
    requires s.host.Keys - x <= s'.host.Keys
    requires forall u | u in Restored(s.files) && u !in s.exposed :: Indices(Restored(s.files)[u]) !! x
    requires Dirty(s') == Dirty(s) && (s'.t.Sweeping? || s'.t.SweepSaving? ==> s'.t.gone <= s.exposed)
    requires s'.k == s.k || !Unsettled(s'.k) || (s.k.Undoing? && s'.k == Advance(s.k))
    ensures DiskOk(s')
  {
    if s.k.Undoing? && s.k.todo != [] {
      IndicesTail(s.k.todo);
    }
  }

  /** What the kubelet thread is about to destroy is saved for no claim, unless it is exposed. */
  lemma KubeletSparesSaved(s: World, u: UID)
    requires Inv(s) && DiskOk(s) && Owed(s.k) != [] && u in Restored(s.files) && u !in s.exposed
    ensures Indices(Restored(s.files)[u]) !! Indices([Owed(s.k)[0]])
  {
    assert Indices([Owed(s.k)[0]]) <= Doomed(s.k);
    if u !in Dirty(s) {
      TrackedContains(s.ledger, u);
      if s.k.Undoing? {
        TrackedContains(s.ledger - {s.k.uid}, u);
      }
    }
  }

  lemma KubeletDestroyKeepsDisk(s: World, step: KubeletStep)
    requires Inv(s) && DiskOk(s) && EnabledK(s, step) && step.KDestroy?
    ensures DiskOk(ApplyK(s, step))
  {
    var p := Owed(s.k)[0];
    DestroyFrame(s, p, step.stays);
    forall u | u in Restored(s.files) && u !in s.exposed ensures Indices(Restored(s.files)[u]) !! Indices([p]) {
      KubeletSparesSaved(s, u);
    }
    DestroyKeepsDisk(s, ApplyK(s, step), Indices([p]));
  }

  /** What the ledger does not track is saved for no claim, unless it is exposed. */
  lemma UntrackedIsNotSaved(s: World, u: UID, x: set<int>)
    requires Inv(s) && DiskOk(s) && (TickerHolds(s) || s.k.Down?)
    requires u in Restored(s.files) && u !in s.exposed && x !! Tracked(s.ledger)
    ensures Indices(Restored(s.files)[u]) !! x
  {
    if u in s.ledger {
      TrackedContains(s.ledger, u);
    }
  }

  lemma TickerDestroyKeepsDisk(s: World, step: TickerStep)
    requires Inv(s) && DiskOk(s) && EnabledT(s, step)
    requires step.TDestroy? || step.TReconcile?
    ensures DiskOk(ApplyT(s, step))
  {
    var x := if step.TDestroy? then Indices([s.t.todo[0]]) else {step.i};
    if step.TDestroy? {
      DestroyFrame(s, s.t.todo[0], step.stays);
      assert x <= SweepTodo(s.t);
    }
    forall u | u in Restored(s.files) && u !in s.exposed ensures Indices(Restored(s.files)[u]) !! x {
      UntrackedIsNotSaved(s, u, x);
    }
    DestroyKeepsDisk(s, ApplyT(s, step), x);
  }

  lemma KubeletStepKeepsDisk(s: World, step: KubeletStep)
    requires Inv(s) && WrittenOk(s) && DiskOk(s) && EnabledK(s, step) && SavePasses(K(step))
    requires !step.KDestroy? && !step.KRename?
    ensures DiskOk(ApplyK(s, step))
  {
    if step.KRecord? || step.KErase? || step.KUnprepare? {
      LedgerStepKeepsDisk(s, step);
    }
  }

  lemma LedgerStepKeepsDisk(s: World, step: KubeletStep)
    requires LocksOk(s) && DiskOk(s) && EnabledK(s, step)
    requires s.k.Creating? && s.k.uid in s.ledger ==> s.ledger[s.k.uid] == []
    requires step.KRecord? || step.KErase? || step.KUnprepare?
    ensures DiskOk(ApplyK(s, step))
  {
  }

  lemma KubeletSaveKeepsDisk(s: World, step: KubeletStep)
    requires Inv(s) && WrittenOk(s) && DiskOk(s) && EnabledK(s, step) && SavePasses(K(step))
    requires step.KRename?
    ensures DiskOk(ApplyK(s, step))
  {
  }

  lemma TickerStepKeepsDisk(s: World, step: TickerStep)
    requires Inv(s) && WrittenOk(s) && DiskOk(s) && EnabledT(s, step) && SavePasses(T(step))
    requires !step.TDestroy? && !step.TReconcile? && !step.TRename?
    ensures DiskOk(ApplyT(s, step))
  {
  }

  lemma TickerSaveKeepsDisk(s: World, step: TickerStep)
    requires Inv(s) && WrittenOk(s) && DiskOk(s) && EnabledT(s, step) && SavePasses(T(step))
    requires step.TRename?
    ensures DiskOk(ApplyT(s, step))
  {
    forall u | u in s.ledger && !(s.k.Undoing? && u == s.k.uid) ensures Indices(s.ledger[u]) <= s.host.Keys {
      TrackedContains(s.ledger, u);
      if s.k.Undoing? {
        TrackedRemove(s.ledger, s.k.uid);
        TrackedContains(s.ledger - {s.k.uid}, u);
      }
    }
  }

  /** Every vHCU that the state file names for an exposed claim is still there. */
  ghost predicate CrashSafe(s: World) {
    var disk := Restored(s.files);
    forall u | u in s.exposed && u in disk :: Indices(disk[u]) <= s.host.Keys
  }

  /** A restart is back in the invariant exactly when the crash found every exposed claim's saved vHCUs still there. */
  lemma RestartIsSound(s: World)
    requires DiskOk(s)
    ensures LedgerOk(Restart(s)) <==> CrashSafe(s)
    ensures CrashSafe(s) ==> Inv(Restart(s)) && Accounted(Restart(s)) && WrittenOk(Restart(s)) && DiskOk(Restart(s))
  {
  }
}
