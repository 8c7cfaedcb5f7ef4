/** What holds along every run of the claim lifecycle. */
module LifecycleRuns {
  import opened Types
  import opened StateFile
  import opened Lifecycle
  import opened LifecycleInvariant
  import opened LifecycleDisk

  /** Step k leads from state k to the next one. */
  ghost predicate StepAt(states: seq<World>, steps: seq<Step>, k: int)
    requires |states| == |steps| + 1 && 0 <= k < |steps|
  {
    Enabled(states[k], steps[k]) && states[k + 1] == Apply(states[k], steps[k])
  }

  ghost predicate IsRun(states: seq<World>, steps: seq<Step>) {
    |states| == |steps| + 1 && forall k | 0 <= k < |steps| :: StepAt(states, steps, k)
  }

  lemma RunSnoc(states: seq<World>, steps: seq<Step>, step: Step)
    requires IsRun(states, steps) && Enabled(states[|steps|], step)
    ensures IsRun(states + [Apply(states[|steps|], step)], steps + [step])
  {
    var states', steps' := states + [Apply(states[|steps|], step)], steps + [step];
    forall k | 0 <= k < |steps'| ensures StepAt(states', steps', k) {
      if k < |steps| {
        assert StepAt(states, steps, k);
      }
    }
  }

  /** Everything the ledger invariant says of one state. */
  ghost predicate Sound(s: World) { Inv(s) && Accounted(s) && WrittenOk(s) }

  lemma StepKeepsSound(s: World, step: Step)
    requires Sound(s) && Enabled(s, step) && !step.Crash? && !Botches(s, step)
    ensures Sound(Apply(s, step))
  {
    StepKeepsInvUnlessBotched(s, step);
    StepKeepsWritten(s, step);
    match step
    case K(op) => KubeletStepKeepsAccounted(s, op);
    case T(op) => TickerStepKeepsAccounted(s, op);
    case _ =>
  }

  lemma StepKeepsDisk(s: World, step: Step)
    requires Sound(s) && DiskOk(s) && Enabled(s, step) && SavePasses(step) && !step.Crash?
    ensures DiskOk(Apply(s, step))
  {
    match step
    case K(op) =>
      if op.KDestroy? {
        KubeletDestroyKeepsDisk(s, op);
      } else if op.KRename? {
        KubeletSaveKeepsDisk(s, op);
      } else {
        KubeletStepKeepsDisk(s, op);
      }
    case T(op) =>
      if op.TDestroy? || op.TReconcile? {
        TickerDestroyKeepsDisk(s, op);
      } else if op.TRename? {
        TickerSaveKeepsDisk(s, op);
      } else {
        TickerStepKeepsDisk(s, op);
      }
    case _ =>
  }

  /** The Prepare that runs in state n has been hit by a refresh in step j. */
  ghost predicate HitSince(states: seq<World>, steps: seq<Step>, j: int, n: int)
    requires |states| == |steps| + 1 && 0 <= n < |states|
  {
    0 <= j < n && Hits(states[j], steps[j]) && forall m | j < m <= n :: Preparing(states[m].k)
  }

  /** A refresh has hit the Prepare that runs in state n. */
  ghost predicate PrepareHit(states: seq<World>, steps: seq<Step>, n: int)
    requires |states| == |steps| + 1 && 0 <= n < |states|
  {
    exists j :: HitSince(states, steps, j, n)
  }

  /** Step n records a Prepare that a refresh has hit. */
  ghost predicate RecordsHit(states: seq<World>, steps: seq<Step>, n: int)
    requires |states| == |steps| + 1 && 0 <= n < |steps|
  {
    steps[n] == K(KRecord) && PrepareHit(states, steps, n)
  }

  lemma PrepareHitNext(states: seq<World>, steps: seq<Step>, n: nat)
    requires |states| == |steps| + 1 && n < |steps|
    ensures PrepareHit(states, steps, n + 1) <==>
      Preparing(states[n + 1].k) && (Hits(states[n], steps[n]) || PrepareHit(states, steps, n))
  {
    var next := n + 1;
    if Preparing(states[next].k) {
      if Hits(states[n], steps[n]) {
        assert HitSince(states, steps, n, next);
      }
      if j :| HitSince(states, steps, j, n) {
        assert HitSince(states, steps, j, next);
      }
    }
    if j :| HitSince(states, steps, j, next) {
      assert j == n || HitSince(states, steps, j, n);
    }
  }

  ghost predicate InvBefore(states: seq<World>, n: nat)
    requires n <= |states|
  {
    forall k | 0 <= k < n :: Inv(states[k])
  }

  lemma SpoiltNext(states: seq<World>, steps: seq<Step>, n: nat)
    requires IsRun(states, steps) && n < |steps| && Inv(states[n])
    ensures Spoilt(states[n + 1]) <==> Preparing(states[n + 1].k) && (Hits(states[n], steps[n]) || Spoilt(states[n]))
  {
    assert StepAt(states, steps, n);
    SpoiltByHits(states[n], steps[n]);
  }

  /** The state tells whether the running Prepare has been hit. */
  lemma {:induction false} SpoiltIffHit(states: seq<World>, steps: seq<Step>, n: nat)
    requires IsRun(states, steps) && n <= |steps| && !Spoilt(states[0]) && InvBefore(states, n)
    ensures Spoilt(states[n]) <==> PrepareHit(states, steps, n)
  {
    if n > 0 {
      SpoiltIffHit(states, steps, n - 1);
      SpoiltNext(states, steps, n - 1);
      PrepareHitNext(states, steps, n - 1);
    }
  }

  ghost predicate LedgerUpTo(states: seq<World>, n: nat)
    requires n < |states|
  {
    forall k | 0 <= k <= n :: LedgerOk(states[k])
  }

  ghost predicate NoHitRecorded(states: seq<World>, steps: seq<Step>, n: nat)
    requires |states| == |steps| + 1 && n <= |steps|
  {
    forall k | 0 <= k < n :: !RecordsHit(states, steps, k)
  }

  ghost predicate SoundUpTo(states: seq<World>, n: nat)
    requires n < |states|
  {
    forall k | 0 <= k <= n :: Sound(states[k])
  }

  /**
   Ledger invariant: on every interleaving, with any failures and whatever refreshes destroy, recorded vHCUs exist and
   are recorded once at every state exactly when no Prepare that a refresh has hit comes to be recorded; and then every
   other vHCU is in flight, about to be destroyed, or was left by a failed call.
   */
  lemma {:induction false} LedgerInvariant(states: seq<World>, steps: seq<Step>, n: nat)
    requires IsRun(states, steps) && Sound(states[0]) && !Spoilt(states[0]) && n <= |steps|
    requires forall k | 0 <= k < n :: !steps[k].Crash?
    ensures LedgerUpTo(states, n) <==> NoHitRecorded(states, steps, n)
    ensures NoHitRecorded(states, steps, n) ==> SoundUpTo(states, n)
  {
    if n == 0 {
      assert SoundUpTo(states, 0);
    } else {
      LedgerInvariant(states, steps, n - 1);
      LedgerUpToNext(states, n - 1);
      NoHitRecordedNext(states, steps, n - 1);
      if NoHitRecorded(states, steps, n - 1) {
        UnhitStep(states, steps, n - 1);
        SoundUpToNext(states, n - 1);
      }
    }
  }

  lemma UnhitStep(states: seq<World>, steps: seq<Step>, n: nat)
    requires IsRun(states, steps) && n < |steps| && SoundUpTo(states, n) && !Spoilt(states[0]) && !steps[n].Crash?
    ensures LedgerOk(states[n + 1]) <==> !RecordsHit(states, steps, n)
    ensures LedgerOk(states[n + 1]) ==> Sound(states[n + 1])
  {
    var s, step := states[n], steps[n];
    assert StepAt(states, steps, n);
    SpoiltIffHit(states, steps, n);
    StepKeepsInvUnlessBotched(s, step);
    if !Botches(s, step) {
      StepKeepsSound(s, step);
    }
  }

  lemma SoundUpToNext(states: seq<World>, n: nat)
    requires n + 1 < |states|
    ensures SoundUpTo(states, n + 1) <==> SoundUpTo(states, n) && Sound(states[n + 1])
  {
  }

  lemma LedgerUpToNext(states: seq<World>, n: nat)
    requires n + 1 < |states|
    ensures LedgerUpTo(states, n + 1) <==> LedgerUpTo(states, n) && LedgerOk(states[n + 1])
  {
  }

  lemma NoHitRecordedNext(states: seq<World>, steps: seq<Step>, n: nat)
    requires |states| == |steps| + 1 && n < |steps|
    ensures NoHitRecorded(states, steps, n + 1) <==> NoHitRecorded(states, steps, n) && !RecordsHit(states, steps, n)
  {
  }

  /** Locks are held by one thread at a time, and Prepare does not start before the plugin does: always. */
  lemma {:induction false} LocksAlways(states: seq<World>, steps: seq<Step>, n: nat)
    requires IsRun(states, steps) && n <= |steps| && LocksOk(states[0]) && WrittenOk(states[0])
    ensures LocksOk(states[n]) && WrittenOk(states[n])
  {
    if n > 0 {
      LocksAlways(states, steps, n - 1);
      assert StepAt(states, steps, n - 1);
      StepKeepsWritten(states[n - 1], steps[n - 1]);
    }
  }

  /** A refresh can hit a vHCU in flight only while it overlaps a Prepare that has created one. */
  lemma NoOverlapNoHit(states: seq<World>, steps: seq<Step>)
    requires IsRun(states, steps) && Sound(states[0]) && !Spoilt(states[0])
    requires forall k | 0 <= k < |steps| :: !steps[k].Crash?
    requires forall k | 0 <= k < |states| :: states[k].t.Reconciling? ==> InFlight(states[k].k) == {}
    ensures SoundUpTo(states, |steps|)
  {
    forall k | 0 <= k < |steps| ensures !RecordsHit(states, steps, k) {
      if j :| HitSince(states, steps, j, k) {
        assert StepAt(states, steps, j);
        LocksAlways(states, steps, j);
      }
    }
    LedgerInvariant(states, steps, |steps|);
  }

  /**
   The two things a run must not do: record a Prepare that a refresh has hit, and crash when an exposed claim has lost
   a vHCU.
   */
  ghost predicate Guarded(states: seq<World>, steps: seq<Step>, k: int)
    requires |states| == |steps| + 1 && 0 <= k < |steps|
  {
    !RecordsHit(states, steps, k) && (steps[k].Crash? ==> CrashSafe(states[k]))
  }

  ghost predicate GuardedUpTo(states: seq<World>, steps: seq<Step>, n: nat)
    requires |states| == |steps| + 1 && n <= |steps|
  {
    forall k | 0 <= k < n :: Guarded(states, steps, k)
  }

  lemma GuardedUpToNext(states: seq<World>, steps: seq<Step>, n: nat)
    requires |states| == |steps| + 1 && n < |steps|
    ensures GuardedUpTo(states, steps, n + 1) <==> GuardedUpTo(states, steps, n) && Guarded(states, steps, n)
  {
  }

  /**
   Crash safety: while saves succeed, on a run that crashes and restarts any number of times recorded vHCUs exist and
   are recorded once at every state exactly when every step is guarded; and then the state file agrees with the ledger.
   */
  lemma {:induction false} CrashSafety(states: seq<World>, steps: seq<Step>, n: nat)
    requires IsRun(states, steps) && Sound(states[0]) && DiskOk(states[0]) && !Spoilt(states[0]) && n <= |steps|
    requires forall k | 0 <= k < n :: SavePasses(steps[k])
    ensures LedgerUpTo(states, n) <==> GuardedUpTo(states, steps, n)
    ensures GuardedUpTo(states, steps, n) ==> SoundUpTo(states, n) && DiskOk(states[n])
  {
    if n > 0 {
      CrashSafety(states, steps, n - 1);
      LedgerUpToNext(states, n - 1);
      GuardedUpToNext(states, steps, n - 1);
      if GuardedUpTo(states, steps, n - 1) {
        GuardedStep(states, steps, n - 1);
        SoundUpToNext(states, n - 1);
      }
    }
  }

  lemma GuardedStep(states: seq<World>, steps: seq<Step>, n: nat)
    requires IsRun(states, steps) && n < |steps| && SoundUpTo(states, n) && DiskOk(states[n]) && !Spoilt(states[0])
    requires SavePasses(steps[n])
    ensures LedgerOk(states[n + 1]) <==> Guarded(states, steps, n)
    ensures LedgerOk(states[n + 1]) ==> Sound(states[n + 1]) && DiskOk(states[n + 1])
  {
    assert StepAt(states, steps, n);
    SpoiltIffHit(states, steps, n);
    GuardedStepExactly(states[n], steps[n]);
  }

  lemma GuardedStepExactly(s: World, step: Step)
    requires Sound(s) && DiskOk(s) && Enabled(s, step) && SavePasses(step)
    ensures LedgerOk(Apply(s, step)) <==> !Botches(s, step) && (step.Crash? ==> CrashSafe(s))
    ensures LedgerOk(Apply(s, step)) ==> Sound(Apply(s, step)) && DiskOk(Apply(s, step))
  {
    if step.Crash? {
      RestartIsSound(s);
    } else {
      StepKeepsInvUnlessBotched(s, step);
      if !Botches(s, step) {
        StepKeepsSound(s, step);
        StepKeepsDisk(s, step);
      }
    }
  }

  /** No claim is exposed, and no sweep has taken one. */
  predicate Unexposed(s: World) {
    s.exposed == {} && !s.t.SweepSaving? && (s.t.Sweeping? ==> s.t.gone == {} && s.t.todo == [])
  }

  lemma StepStaysUnexposed(s: World, step: Step)
    requires Unexposed(s) && Enabled(s, step) && !(step.T? && step.ticker.TTake?)
    ensures Unexposed(Apply(s, step))
  {
  }

  /** Up to step n, saves pass and no sweep takes an orphan. */
  ghost predicate TakesNone(steps: seq<Step>, n: nat)
    requires n <= |steps|
  {
    forall k | 0 <= k < n :: SavePasses(steps[k]) && !(steps[k].T? && steps[k].ticker.TTake?)
  }

  lemma UnexposedStep(states: seq<World>, steps: seq<Step>, n: nat)
    requires IsRun(states, steps) && n < |steps| && SoundUpTo(states, n) && DiskOk(states[n]) && !Spoilt(states[0])
    requires Unexposed(states[n]) && !RecordsHit(states, steps, n) && TakesNone(steps, n + 1)
    ensures Sound(states[n + 1]) && DiskOk(states[n + 1]) && Unexposed(states[n + 1])
  {
    GuardedStep(states, steps, n);
    assert StepAt(states, steps, n);
    StepStaysUnexposed(states[n], steps[n]);
  }

  /**
   As long as no sweep finds an orphan nothing is ever exposed: Prepare, Unprepare and refresh may crash between any two
   of their effects.
   */
  lemma {:induction false} CrashAnywhereWithoutOrphans(states: seq<World>, steps: seq<Step>, n: nat)
    requires IsRun(states, steps) && Sound(states[0]) && DiskOk(states[0]) && !Spoilt(states[0]) && Unexposed(states[0])
    requires n <= |steps| && NoHitRecorded(states, steps, n) && TakesNone(steps, n)
    ensures SoundUpTo(states, n) && DiskOk(states[n]) && Unexposed(states[n])
  {
    if n > 0 {
      CrashAnywhereWithoutOrphans(states, steps, n - 1);
      NoHitRecordedNext(states, steps, n - 1);
      UnexposedStep(states, steps, n - 1);
      SoundUpToNext(states, n - 1);
    }
  }

  /** A run from `s` on which saves pass, no sweep takes an orphan, and no hit Prepare is recorded; it may crash. */
  ghost predicate Continues(s: World, states: seq<World>, steps: seq<Step>) {
    IsRun(states, steps) && states[0] == s && NoHitRecorded(states, steps, |steps|) && TakesNone(steps, |steps|)
  }

  /** Whatever happens after `s`, and wherever it crashes, recorded vHCUs exist and are recorded once. */
  ghost predicate StaysSafe(s: World) {
    forall states, steps | Continues(s, states, steps) :: LedgerUpTo(states, |steps|)
  }

  /**
   A sweep whose save succeeds makes the state file equal to memory, and whatever the sweep had exposed is safe again:
   until the next orphan is taken the process may crash anywhere, exactly unless a failed Prepare has its entry still in
   the ledger, with vHCUs that are gone or still to be destroyed. A crash at once does harm exactly if some are gone.
   */
  lemma SweepSaveCloses(s: World)
    requires Sound(s) && DiskOk(s) && !Spoilt(s) && EnabledT(s, TRename(true))
    ensures var s' := ApplyT(s, TRename(true));
            && Restored(s'.files) == s.ledger && (StaysSafe(s') <==> !Failing(s))
            && (LedgerOk(Restart(s')) <==> !(Failing(s) && !(Indices(s.k.created) <= s.host.Keys)))
  {
    var s' := ApplyT(s, TRename(true));
    StepKeepsSound(s, T(TRename(true)));
    StepKeepsDisk(s, T(TRename(true)));
    CrashNow(s');
    if Failing(s) {
      var states, steps := [s'], [];
      assert Continues(s', states, steps);
      FailingCrashes(s', states, steps);
    } else {
      forall states, steps | Continues(s', states, steps) ensures LedgerUpTo(states, |steps|) {
        CrashAnywhereWithoutOrphans(states, steps, |steps|);
      }
    }
  }

  /** When the state file agrees with memory, a restart is back in the invariant unless recorded vHCUs are gone. */
  lemma CrashNow(s: World)
    requires Inv(s) && Restored(s.files) == s.ledger
    ensures LedgerOk(Restart(s)) <==> !(s.k.Undoing? && s.k.uid in s.ledger && !(Indices(s.k.created) <= s.host.Keys))
  {
    if s.k.Undoing? {
      TrackedRemove(s.ledger, s.k.uid);
    }
  }

  lemma ContinuesSnoc(s: World, states: seq<World>, steps: seq<Step>, step: Step)
    requires Continues(s, states, steps) && Enabled(states[|steps|], step) && SavePasses(step)
    requires !(step.T? && step.ticker.TTake?) && step != K(KRecord)
    ensures Continues(s, states + [Apply(states[|steps|], step)], steps + [step])
  {
    RunSnoc(states, steps, step);
    var states', steps' := states + [Apply(states[|steps|], step)], steps + [step];
    forall k | 0 <= k < |steps'| && steps'[k] == K(KRecord) ensures !PrepareHit(states', steps', k) {
      assert !RecordsHit(states, steps, k);
      if j :| HitSince(states', steps', j, k) {
        assert forall m | j < m <= k :: states'[m] == states[m];
        assert HitSince(states, steps, j, k);
      }
    }
  }

  /** The failed Prepare goes on until it has destroyed a vHCU, and then the process crashes. */
  lemma {:induction false} FailingCrashes(s: World, states: seq<World>, steps: seq<Step>)
    requires Continues(s, states, steps) && Failing(states[|steps|])
    requires var t := states[|steps|]; Inv(t) && Restored(t.files) == t.ledger
    ensures !StaysSafe(s)
    decreases |states[|steps|].k.todo|
  {
    var t := states[|steps|];
    var step := if Indices(t.k.created) <= t.host.Keys then K(KDestroy(false)) else Crash;
    ContinuesSnoc(s, states, steps, step);
    var states', steps' := states + [Apply(t, step)], steps + [step];
    if step.Crash? {
      CrashNow(t);
      assert !LedgerOk(states'[|steps'|]);
      assert !LedgerUpTo(states', |steps'|);
    } else {
      UndoDestroyStep(t, step.kubelet);
      DestroyingFails(t);
      FailingCrashes(s, states', steps');
    }
  }

  lemma DestroyingFails(t: World)
    requires Inv(t) && Failing(t) && Indices(t.k.created) <= t.host.Keys
    ensures Owed(t.k) != [] && Failing(ApplyK(t, KDestroy(false)))
  {
    IndicesTail(t.k.todo);
  }

  /** The steps of a NewDeviceState whose DCGM calls all succeed; the API server may change meanwhile. */
  predicate CleanBoot(step: Step) {
    match step
    case T(TEnumerate) => true
    case T(TReconcile(_, stays)) => !stays
    case T(TReconciled) => true
    case ApiAdd(_) => true
    case ApiRemove(_) => true
    case _ => false
  }

  /** What the start-up reconcile has achieved. */
  ghost predicate Recovering(crashed: World, s: World) {
    && s.ledger == Restored(crashed.files) && s.files == crashed.files
    && Tracked(s.ledger) <= s.host.Keys
    && (forall i | i in s.host :: i in crashed.host && s.host[i] == crashed.host[i])
    && (s.t.BootReconciling? ==> s.t.pending !! Tracked(s.ledger) && s.host.Keys <= s.t.pending + Tracked(s.ledger))
  }

  lemma BootStepRecovers(crashed: World, s: World, step: Step)
    requires Recovering(crashed, s) && (s.t.BootListing? || s.t.BootReconciling?) && s.k.Down?
    requires Enabled(s, step) && CleanBoot(step)
    ensures var s' := Apply(s, step);
            && Recovering(crashed, s') && (s'.t.BootListing? || s'.t.BootReconciling? || s'.t.Resting?)
            && (s'.t.Resting? ==> s'.k.Idle? && s'.host.Keys == Tracked(s'.ledger))
  {
  }

  /** Restart and a failure-free reconcile, in any order, leave exactly the vHCUs of the restored ledger on the host. */
  lemma {:induction false} RecoveryIsExact(states: seq<World>, steps: seq<Step>, n: nat)
    requires IsRun(states, steps) && DiskOk(states[0]) && CrashSafe(states[0])
    requires 1 <= n <= |steps| && steps[0] == Crash
    requires forall k | 1 <= k < n :: CleanBoot(steps[k]) && states[k].k.Down?
    ensures Recovering(states[0], states[n])
    ensures states[n].t.BootListing? || states[n].t.BootReconciling? || states[n].t.Resting?
    ensures states[n].t.Resting? ==> states[n].k.Idle? && states[n].host.Keys == Tracked(Restored(states[0].files))
  {
    assert StepAt(states, steps, n - 1);
    if n == 1 {
      RestartIsSound(states[0]);
    } else {
      RecoveryIsExact(states, steps, n - 1);
      BootStepRecovers(states[0], states[n - 1], steps[n - 1]);
    }
  }

  /** What the step destroys is not recorded for `u`, unless it is the claim's own, and by a sweep not in flight. */
  predicate Harmless(s: World, step: Step, u: UID)
    requires Enabled(s, step)
  {
    match step
    case K(KDestroy(_)) =>
      var p := Owed(s.k)[0];
      !p.wholeCard && u in s.ledger && u != s.k.uid ==> p.vdvInd !in Indices(s.ledger[u])
    case T(TDestroy(_)) =>
      var p := s.t.todo[0];
      !p.wholeCard ==> p.vdvInd !in InFlight(s.k) && (u in s.ledger ==> p.vdvInd !in Indices(s.ledger[u]))
    case T(TReconcile(i, _)) => u in s.ledger ==> i !in Indices(s.ledger[u])
    case _ => true
  }

  /**
   Late destroys are harmless: on any run on which no hit Prepare is recorded, a vHCU that Unprepare, a rollback or the
   sweep is about to destroy is recorded for no other claim, and what the sweep destroys is in flight for no Prepare,
   however the threads interleave and indices are reused.
   */
  lemma LateDestroysAreHarmless(states: seq<World>, steps: seq<Step>, k: nat, u: UID)
    requires IsRun(states, steps) && Sound(states[0]) && !Spoilt(states[0]) && k < |steps|
    requires NoHitRecorded(states, steps, k) && forall j | 0 <= j < k :: !steps[j].Crash?
    ensures StepAt(states, steps, k) && Harmless(states[k], steps[k], u)
  {
    LedgerInvariant(states, steps, k);
    assert Sound(states[k]) && StepAt(states, steps, k);
    DestroysAreHarmless(states[k], steps[k], u);
  }

  lemma DestroysAreHarmless(s: World, step: Step, u: UID)
    requires Inv(s) && Enabled(s, step)
    ensures Harmless(s, step, u)
  {
    if u in s.ledger {
      TrackedContains(s.ledger, u);
      if s.k.Undoing? && u != s.k.uid {
        TrackedContains(s.ledger - {s.k.uid}, u);
      }
    }
    match step
    case K(KDestroy(_)) => assert Owed(s.k)[0] in Owed(s.k);
    case T(TDestroy(_)) => assert s.t.todo[0] in s.t.todo;
    case _ =>
  }

  lemma TickerStepSparesListed(s: World, step: TickerStep, uid: UID)
    requires EnabledT(s, step) && (s.t.Sweeping? ==> uid !in s.t.orphans)
    ensures var s' := ApplyT(s, step);
            && s'.api == s.api && SameEntry(s, s', uid) && (uid in s.api && s'.t.Sweeping? ==> uid !in s'.t.orphans)
  {
  }

  lemma KubeletStepSparesSweep(s: World, step: KubeletStep)
    requires EnabledK(s, step)
    ensures ApplyK(s, step).api == s.api && ApplyK(s, step).t == s.t
  {
  }

  lemma StepSparesListed(s: World, step: Step, uid: UID)
    requires Enabled(s, step) && !step.Crash?
    requires s.t.Sweeping? ==> uid !in s.t.orphans
    ensures var s' := Apply(s, step);
            && (uid in s'.api && s'.api == s.api && s'.t.Sweeping? ==> uid !in s'.t.orphans)
            && (s'.api != s.api ==> s'.t == s.t)
            && (!step.K? ==> SameEntry(s, s', uid))
  {
    match step
    case K(op) => KubeletStepSparesSweep(s, op);
    case T(op) => TickerStepSparesListed(s, op, uid);
    case _ =>
  }

  /** A claim the API server keeps listing loses its ledger entry only to the kubelet thread. */
  lemma {:induction false} LiveClaimsAreNotSwept(states: seq<World>, steps: seq<Step>, uid: UID, n: nat)
    requires IsRun(states, steps) && n <= |steps|
    requires forall k | 0 <= k < n :: !steps[k].Crash?
    requires forall k | 0 <= k <= n :: uid in states[k].api
    requires states[0].t.Sweeping? ==> uid !in states[0].t.orphans
    ensures forall k | 0 <= k < n && !steps[k].K? :: SameEntry(states[k], states[k + 1], uid)
    ensures states[n].t.Sweeping? ==> uid !in states[n].t.orphans
  {
    if n > 0 {
      LiveClaimsAreNotSwept(states, steps, uid, n - 1);
      assert StepAt(states, steps, n - 1);
      StepSparesListed(states[n - 1], steps[n - 1], uid);
    }
  }

  ghost predicate SameEntry(s: World, s': World, uid: UID) {
    (uid in s.ledger <==> uid in s'.ledger) && (uid in s.ledger ==> s'.ledger[uid] == s.ledger[uid])
  }

  /** The sweep that listed in `before` has taken what it has taken, or is through. */
  ghost predicate SweptTo(before: World, now: World) {
    var orphans := before.ledger.Keys - before.api;
    if now.t.Sweeping?
    then now.ledger == before.ledger - now.t.gone && now.t.gone !! now.t.orphans &&
      now.t.gone + now.t.orphans == orphans
    else now.ledger == map u | u in before.ledger && u in before.api :: before.ledger[u]
  }

  lemma SweepStepIsExact(before: World, s: World, step: Step)
    requires SweptTo(before, s) && s.t.Sweeping? && Enabled(s, step) && !step.Crash?
    ensures SweptTo(before, Apply(s, step))
  {
  }

  /** A sweep cuts the ledger down to the claims that were listed, whatever the other thread does meanwhile. */
  lemma {:induction false} SweepIsExact(states: seq<World>, steps: seq<Step>, n: nat)
    requires IsRun(states, steps) && 1 <= n <= |steps| && steps[0] == T(TList)
    requires forall k | 0 <= k < n :: !steps[k].Crash?
    requires forall k | 1 <= k < n :: states[k].t.Sweeping?
    ensures SweptTo(states[0], states[n])
  {
    assert StepAt(states, steps, n - 1);
    if n > 1 {
      SweepIsExact(states, steps, n - 1);
      SweepStepIsExact(states[0], states[n - 1], steps[n - 1]);
    }
  }

  lemma StepReplacesWhole(s: World, step: Step)
    requires WrittenOk(s) && Enabled(s, step)
    ensures Restored(Apply(s, step).files) == Restored(s.files) || Restored(Apply(s, step).files) == s.ledger
  {
    if !(step.K? && (step.kubelet.KWrite? || step.kubelet.KRename?)) && !(step.T? &&
      (step.ticker.TWrite? || step.ticker.TRename?)) {
      assert Apply(s, step).files == s.files;
    }
  }

  /**
   On every run, crashes and hits included, a restart would read the ledger the state file held at first or a ledger the
   process once had in memory: never a torn write, never the temporary file.
   */
  lemma {:induction false} StateFileIsAtomic(states: seq<World>, steps: seq<Step>, n: nat)
    requires IsRun(states, steps) && n <= |steps|
    requires LocksOk(states[0]) && WrittenOk(states[0])
    ensures LocksOk(states[n]) && WrittenOk(states[n])
    ensures var now := Restored(states[n].files);
            now == Restored(states[0].files) || exists k | 0 <= k < n :: now == states[k].ledger
  {
    if n > 0 {
      StateFileIsAtomic(states, steps, n - 1);
      assert StepAt(states, steps, n - 1);
      StepKeepsWritten(states[n - 1], steps[n - 1]);
      StepReplacesWhole(states[n - 1], steps[n - 1]);
    }
  }

  /** After any number of failed saves, the next successful one makes the state file equal to memory. */
  lemma SaveHeals(s: World, step: Step)
    requires WrittenOk(s) && Enabled(s, step)
    requires step == K(KRename(true)) || step == T(TRename(true))
    ensures Restored(Apply(s, step).files) == Apply(s, step).ledger == s.ledger
  {
  }
}
