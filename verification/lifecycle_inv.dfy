/** What every step of the claim lifecycle keeps. */
module LifecycleInvariant {
  import opened Types
  import opened Lifecycle

  /** vHCUs created by the running Prepare and not recorded yet. */
  function InFlight(k: Kubelet): set<int> {
    match k
    case Creating(_, created) => Indices(created)
    case Attaching(_, created, vhcu) => Indices(created) + {vhcu.vdvInd}
    case _ => {}
  }

  /** vHCUs the kubelet thread is going to destroy. */
  function Doomed(k: Kubelet): set<int> {
    match k
    case Dropping(_, created, vhcu) => Indices(created) + {vhcu.vdvInd}
    case RollingBack(_, todo) => Indices(todo)
    case Undoing(_, _, todo) => Indices(todo)
    case Saving(_, Unprepare(captured), _) => Indices(captured)
    case Releasing(_, todo) => Indices(todo)
    case _ => {}
  }

  /** vHCUs of orphaned claims the sweep is going to destroy. */
  function SweepTodo(t: Ticker): set<int> {
    if t.Sweeping? then Indices(t.todo) else {}
  }

  /** vHCUs of a ledger entry that a failed Prepare is taking back. */
  function Undone(k: Kubelet): set<int> {
    if k.Undoing? then Indices(k.created) else {}
  }

  ghost predicate LocksOk(s: World) {
    && !(KubeletHolds(s) && TickerHolds(s))
    && (s.k.Down? <==> s.t.BootListing? || s.t.BootReconciling?)
  }

  ghost predicate LedgerOk(s: World) {
    && Distinct(s.ledger)
    && Tracked(s.ledger) <= s.host.Keys + Undone(s.k)
  }

  ghost predicate KubeletOk(s: World) {
    && InFlight(s.k) !! Tracked(s.ledger)
    && (match s.k
        case Creating(uid, created) => uid in s.ledger ==> s.ledger[uid] == []
        case Attaching(uid, created, vhcu) => (uid in s.ledger ==> s.ledger[uid] == []) && !vhcu.wholeCard
        case Dropping(_, _, vhcu) => !vhcu.wholeCard && Doomed(s.k) !! Tracked(s.ledger)
        case RollingBack(_, _) => Doomed(s.k) !! Tracked(s.ledger)
        case Recorded(uid, created) => uid in s.ledger && s.ledger[uid] == created
        case Undoing(uid, created, todo) =>
          && (uid in s.ledger ==> s.ledger[uid] == created)
          && Indices(todo) <= Indices(created)
          && Indices(created) !! Tracked(s.ledger - {uid})
        case Saving(uid, job, _) =>
          && Doomed(s.k) !! Tracked(s.ledger)
          && (job.Erase? || job.Unprepare? ==> uid !in s.ledger)
        case Releasing(_, _) => Doomed(s.k) !! Tracked(s.ledger)
        case _ => true)
  }

  ghost predicate TickerOk(s: World) {
    match s.t
    case Sweeping(orphans, gone, todo) =>
      && orphans <= s.ledger.Keys && gone !! s.ledger.Keys && NoRepeat(todo)
      && Indices(todo) !! Tracked(s.ledger)
      && Indices(todo) !! InFlight(s.k)
      && (!s.k.Undoing? ==> Indices(todo) <= s.host.Keys && Indices(todo) !! Doomed(s.k))
    case SweepSaving(gone, _) => gone !! s.ledger.Keys
    case Reconciling(pending) => pending !! Tracked(s.ledger)
    case BootReconciling(pending) => pending !! Tracked(s.ledger)
    case _ => true
  }

  ghost predicate Inv(s: World) {
    LocksOk(s) && LedgerOk(s) && KubeletOk(s) && TickerOk(s)
  }

  /** A refresh destroys a vHCU that the running Prepare has created but not recorded. */
  predicate Hits(s: World, step: Step) {
    step.T? && step.ticker.TReconcile? && !step.ticker.stays && step.ticker.i in InFlight(s.k)
  }

  /** The running Prepare has a vHCU in flight that is not on the host any more, or has come twice. */
  ghost predicate Spoilt(s: World) {
    match s.k
    case Creating(_, created) => !(NoRepeat(created) && InFlight(s.k) <= s.host.Keys)
    case Attaching(_, created, vhcu) =>
      !(NoRepeat(created) && vhcu.vdvInd !in Indices(created) && InFlight(s.k) <= s.host.Keys)
    case _ => false
  }

  /** A spoilt Prepare records its claim. */
  ghost predicate Botches(s: World, step: Step) {
    step == K(KRecord) && Spoilt(s)
  }

  predicate Preparing(k: Kubelet) { k.Creating? || k.Attaching? }

  lemma CreateSteps(s: World, step: KubeletStep)
    requires Inv(s) && EnabledK(s, step) && (step.KCreate? || step.KCreateFails?)
    ensures Inv(ApplyK(s, step))
  {
  }

  lemma AttachSteps(s: World, step: KubeletStep)
    requires Inv(s) && EnabledK(s, step) && (step.KWholeCard? || step.KAttach? || step.KAttachFails? || step.KReject?)
    ensures Inv(ApplyK(s, step))
  {
    match step
    case KWholeCard(d) => IndicesSnoc(s.k.created, d);
    case KAttach => IndicesSnoc(s.k.created, s.k.vhcu);
    case _ =>
  }

  /** What one destroy may change. */
  lemma DestroyFrame(s: World, p: PreparedDevice, stays: bool)
    ensures var s' := DestroyDevice(s, p, stays);
            && s' == s.(host := s'.host, leaked := s'.leaked)
            && s.host.Keys - Indices([p]) <= s'.host.Keys <= s.host.Keys
            && s'.host.Keys <= s.host.Keys - Indices([p]) + s'.leaked
            && s.leaked - Indices([p]) <= s'.leaked
  {
  }

  /** A destroy of a vHCU that is doomed anyway. */
  lemma DoomedDestroy(s: World, p: PreparedDevice, stays: bool, k': Kubelet)
    requires Inv(s) && Indices([p]) <= Doomed(s.k) && Doomed(k') <= Doomed(s.k)
    requires ((s.k.Dropping? || s.k.RollingBack?) && k'.RollingBack?) || (s.k.Releasing? && k'.Releasing?)
    ensures Inv(DestroyDevice(s, p, stays).(k := k'))
  {
    DestroyFrame(s, p, stays);
  }

  lemma DoomedDestroyStep(s: World, step: KubeletStep)
    requires Inv(s) && EnabledK(s, step) && step.KDestroy?
    requires s.k.Dropping? || s.k.RollingBack? || s.k.Releasing?
    ensures Inv(ApplyK(s, step))
  {
    var p := Owed(s.k)[0];
    if !s.k.Dropping? {
      IndicesTail(s.k.todo);
    }
    assert Indices([p]) <= Doomed(s.k);
    DoomedDestroy(s, p, step.stays, Advance(s.k));
  }

  lemma UndoDestroyStep(s: World, step: KubeletStep)
    requires Inv(s) && EnabledK(s, step) && step.KDestroy? && s.k.Undoing?
    ensures Inv(ApplyK(s, step))
  {
    DestroyFrame(s, s.k.todo[0], step.stays);
    IndicesTail(s.k.todo);
  }

  lemma RecordStep(s: World)
    requires Inv(s) && EnabledK(s, KRecord)
    ensures Spoilt(s) ==> !LedgerOk(ApplyK(s, KRecord))
    ensures !Spoilt(s) ==> Inv(ApplyK(s, KRecord))
  {
    var uid, created := s.k.uid, s.k.created;
    TrackedRemove(s.ledger, uid);
    TrackedUpdate(s.ledger, uid, created);
    if !Spoilt(s) {
      DistinctUpdate(s.ledger, uid, created);
    } else {
      assert ApplyK(s, KRecord).ledger[uid] == created;
    }
  }

  lemma SyncsFailStep(s: World)
    requires Inv(s) && EnabledK(s, KSyncsFail)
    ensures Inv(ApplyK(s, KSyncsFail))
  {
    TrackedRemove(s.ledger, s.k.uid);
  }

  lemma RemoveSteps(s: World, step: KubeletStep)
    requires Inv(s) && EnabledK(s, step)
    requires step.KErase? || step.KUnprepare?
    ensures Inv(ApplyK(s, step))
  {
    var uid := if step.KErase? then s.k.uid else step.uid;
    TrackedRemove(s.ledger, uid);
    DistinctRemove(s.ledger, uid);
  }

  lemma OtherKubeletSteps(s: World, step: KubeletStep)
    requires Inv(s) && EnabledK(s, step)
    requires step.KPrepare? || step.KRolledBack? || step.KReleased?
    ensures Inv(ApplyK(s, step))
  {
  }

  lemma WriteStep(s: World, step: KubeletStep)
    requires Inv(s) && EnabledK(s, step) && (step.KSyncsPass? || step.KWrite?)
    ensures Inv(ApplyK(s, step))
  {
  }

  lemma RenameStep(s: World, step: KubeletStep)
    requires Inv(s) && EnabledK(s, step) && step.KRename?
    ensures Inv(ApplyK(s, step))
  {
  }

  lemma TakeStep(s: World, step: TickerStep)
    requires Inv(s) && EnabledT(s, step)
    requires step.TTake?
    ensures Inv(ApplyT(s, step))
  {
    var uid := step.uid;
    TrackedRemove(s.ledger, uid);
    DistinctRemove(s.ledger, uid);
    if s.k.Undoing? {
      assert s.ledger - {uid} - {s.k.uid} == s.ledger - {s.k.uid} - {uid};
      TrackedRemove(s.ledger, s.k.uid);
      DistinctRemove(s.ledger, s.k.uid);
      TrackedRemove(s.ledger - {s.k.uid}, uid);
    }
  }

  lemma SweepSteps(s: World, step: TickerStep)
    requires Inv(s) && EnabledT(s, step)
    requires step.TClean? || step.TListFails? || step.TList? || step.TSweepEnds?
    ensures Inv(ApplyT(s, step))
  {
  }

  lemma SweepWriteStep(s: World, step: TickerStep)
    requires Inv(s) && EnabledT(s, step) && step.TWrite?
    ensures Inv(ApplyT(s, step))
  {
  }

  lemma SweepRenameStep(s: World, step: TickerStep)
    requires Inv(s) && EnabledT(s, step) && step.TRename?
    ensures Inv(ApplyT(s, step))
  {
  }

  lemma RefreshSteps(s: World, step: TickerStep)
    requires Inv(s) && EnabledT(s, step)
    requires step.TRefresh? || step.TEnumerateFails? || step.TEnumerate? || step.TReconciled?
    ensures Inv(ApplyT(s, step))
  {
  }

  lemma SweepDestroyStep(s: World, step: TickerStep)
    requires Inv(s) && EnabledT(s, step) && step.TDestroy?
    ensures Inv(ApplyT(s, step))
  {
    DestroyFrame(s, s.t.todo[0], step.stays);
    IndicesTail(s.t.todo);
  }

  lemma ReconcileStep(s: World, step: TickerStep)
    requires Inv(s) && EnabledT(s, step) && step.TReconcile?
    ensures Inv(ApplyT(s, step))
  {
  }

  /**
   Every step but a crash keeps the invariant, whatever fails and whatever a refresh destroys, unless a spoilt Prepare
   records its claim; then a recorded vHCU is missing or recorded twice.
   */
  lemma StepKeepsInvUnlessBotched(s: World, step: Step)
    requires Inv(s) && Enabled(s, step) && !step.Crash?
    ensures Inv(Apply(s, step)) <==> !Botches(s, step)
    ensures LedgerOk(Apply(s, step)) <==> !Botches(s, step)
  {
    match step
    case K(KRecord) => RecordStep(s);
    case K(op) => KubeletStepKeepsInv(s, op);
    case T(op) => TickerStepKeepsInv(s, op);
    case _ =>
  }

  lemma KubeletStepKeepsInv(s: World, step: KubeletStep)
    requires Inv(s) && EnabledK(s, step) && !step.KRecord?
    ensures Inv(ApplyK(s, step))
  {
    match step
    case KDestroy(_) =>
      if s.k.Undoing? {
        UndoDestroyStep(s, step);
      } else {
        DoomedDestroyStep(s, step);
      }
    case KSyncsFail => SyncsFailStep(s);
    case KErase => RemoveSteps(s, step);
    case KUnprepare(_) => RemoveSteps(s, step);
    case KSyncsPass => WriteStep(s, step);
    case KWrite(_, _) => WriteStep(s, step);
    case KRename(_) => RenameStep(s, step);
    case KPrepare(_) => OtherKubeletSteps(s, step);
    case KRolledBack => OtherKubeletSteps(s, step);
    case KReleased => OtherKubeletSteps(s, step);
    case KCreate(_, _) => CreateSteps(s, step);
    case KCreateFails(_, _, _) => CreateSteps(s, step);
    case _ => AttachSteps(s, step);
  }

  lemma TickerStepKeepsInv(s: World, step: TickerStep)
    requires Inv(s) && EnabledT(s, step)
    ensures Inv(ApplyT(s, step))
  {
    match step
    case TTake(_) => TakeStep(s, step);
    case TDestroy(_) => SweepDestroyStep(s, step);
    case TReconcile(_, _) => ReconcileStep(s, step);
    case TClean => SweepSteps(s, step);
    case TListFails => SweepSteps(s, step);
    case TList => SweepSteps(s, step);
    case TSweepEnds => SweepSteps(s, step);
    case TWrite(_, _) => SweepWriteStep(s, step);
    case TRename(_) => SweepRenameStep(s, step);
    case _ => RefreshSteps(s, step);
  }

  /** A Prepare becomes spoilt by a refresh that hits it, and stays so until it gives up. */
  lemma SpoiltByHits(s: World, step: Step)
    requires Inv(s) && Enabled(s, step)
    ensures Spoilt(Apply(s, step)) <==> Preparing(Apply(s, step).k) && (Hits(s, step) || Spoilt(s))
  {
    match step
    case K(op) => KubeletSpoils(s, op);
    case T(op) => TickerSpoils(s, op);
    case _ =>
  }

  lemma KubeletSpoils(s: World, step: KubeletStep)
    requires Inv(s) && EnabledK(s, step)
    ensures Spoilt(ApplyK(s, step)) <==> Preparing(ApplyK(s, step).k) && Spoilt(s)
  {
    match step
    case KWholeCard(d) => IndicesSnoc(s.k.created, d);
    case KAttach => IndicesSnoc(s.k.created, s.k.vhcu);
    case _ =>
  }

  lemma TickerSpoils(s: World, step: TickerStep)
    requires Inv(s) && EnabledT(s, step)
    ensures Spoilt(ApplyT(s, step)) <==> Preparing(ApplyT(s, step).k) && (Hits(s, T(step)) || Spoilt(s))
  {
    if step.TDestroy? {
      DestroyFrame(s, s.t.todo[0], step.stays);
      IndicesTail(s.t.todo);
    }
  }
}
