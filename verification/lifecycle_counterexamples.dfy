/** Three runs on which the unguarded claims fail. */
module LifecycleCounterexamples {
  import opened Types
  import opened Names
  import opened StateFile
  import opened Lifecycle
  import opened LifecycleInvariant
  import opened LifecycleDisk
  import opened LifecycleRuns

  function Vhcu(uid: UID, i: int): PreparedDevice {
    PreparedDevice(uid, "hcu-0", "req", "pool", false, i, "", "", "", "", "", "", 0)
  }

  /** A node at rest: both threads idle, nothing prepared, nothing on the host. */
  const QUIET: World := World(map[], map[], map[], {}, Idle, Resting, {}, {})

  /** A run without a failed save, and without a hit unless `hits`. */
  ghost predicate RunTo(states: seq<World>, steps: seq<Step>, start: World, end: World, hits: bool) {
    && IsRun(states, steps) && states[0] == start && states[|steps|] == end
    && forall k | 0 <= k < |steps| :: SavePasses(steps[k]) && (hits || !Hits(states[k], steps[k]))
  }

  /** Appends one step to a run. */
  lemma Extend(states: seq<World>, steps: seq<Step>, start: World, end: World, hits: bool, step: Step)
      returns (states': seq<World>, steps': seq<Step>, end': World)
    requires RunTo(states, steps, start, end, hits) && Enabled(end, step) && SavePasses(step) &&
      (hits || !Hits(end, step))
    ensures end' == Apply(end, step) && RunTo(states', steps', start, end', hits)
    ensures steps' == steps + [step]
  {
    end' := Apply(end, step);
    RunSnoc(states, steps, step);
    states', steps' := states + [end'], steps + [step];
  }

  /** A Prepare that meets nobody, from the created vHCU to the saved ledger. */
  lemma Finish(states: seq<World>, steps: seq<Step>, start: World, end: World, hits: bool)
      returns (states': seq<World>, steps': seq<Step>, end': World)
    requires RunTo(states, steps, start, end, hits) && end.k.Attaching? && !TickerHolds(end)
    ensures RunTo(states', steps', start, end', hits)
    ensures end' == end.(ledger := end.ledger[end.k.uid := end.k.created + [end.k.vhcu]], k := Idle, exposed := {},
      files := end'.files)
  {
    states', steps', end' := Extend(states, steps, start, end, hits, K(KAttach));
    states', steps', end' := Extend(states', steps', start, end', hits, K(KRecord));
    states', steps', end' := Extend(states', steps', start, end', hits, K(KSyncsPass));
    states', steps', end' := Extend(states', steps', start, end', hits, K(KWrite(true, Bytes(""))));
    states', steps', end' := Extend(states', steps', start, end', hits, K(KRename(true)));
  }

  /** Claim "a" has created vHCU 0 when a refresh starts. */
  lemma RefreshMeetsPrepare() returns (states: seq<World>, steps: seq<Step>, end: World)
    ensures RunTo(states, steps, QUIET, end, true)
    ensures end == QUIET.(k := Attaching("a", [], Vhcu("a", 0)), host := map[0 := 0], t := Refreshing)
  {
    states, steps, end := Extend([QUIET], [], QUIET, QUIET, true, K(KPrepare("a")));
    states, steps, end := Extend(states, steps, QUIET, end, true, K(KCreate(Vhcu("a", 0), 0)));
    states, steps, end := Extend(states, steps, QUIET, end, true, T(TClean));
    states, steps, end := Extend(states, steps, QUIET, end, true, T(TRefresh));
  }

  /** The refresh destroys vHCU 0, which no ledger entry names. */
  lemma RefreshOverPrepare() returns (states: seq<World>, steps: seq<Step>, end: World)
    ensures RunTo(states, steps, QUIET, end, true)
    ensures end == QUIET.(k := Attaching("a", [], Vhcu("a", 0)))
  {
    states, steps, end := RefreshMeetsPrepare();
    assert end.host.Keys - Tracked(end.ledger) == {0} && end.host - {0} == map[] && {0} - {0} == {};
    states, steps, end := Extend(states, steps, QUIET, end, true, T(TEnumerate));
    states, steps, end := Extend(states, steps, QUIET, end, true, T(TReconcile(0, false)));
    states, steps, end := Extend(states, steps, QUIET, end, true, T(TReconciled));
  }

  /**
   A refresh overlapping a Prepare destroys its vHCU; the index is reused, and two claims end up recorded on one vHCU.
   */
  lemma HitSharesAVhcu() returns (states: seq<World>, steps: seq<Step>)
    ensures IsRun(states, steps) && Sound(states[0]) && DiskOk(states[0])
    ensures forall k | 0 <= k < |steps| :: SavePasses(steps[k])
    ensures var s := states[|steps|];
            "a" in s.ledger && "b" in s.ledger && s.ledger["a"] == [Vhcu("a", 0)] && s.ledger["b"] == [Vhcu("b", 0)]
  {
    var end;
    assert [] + [Vhcu("a", 0)] == [Vhcu("a", 0)] && [] + [Vhcu("b", 0)] == [Vhcu("b", 0)];
    states, steps, end := RefreshOverPrepare();
    states, steps, end := Finish(states, steps, QUIET, end, true);
    states, steps, end := Extend(states, steps, QUIET, end, true, K(KPrepare("b")));
    states, steps, end := Extend(states, steps, QUIET, end, true, K(KCreate(Vhcu("b", 0), 0)));
    states, steps, end := Finish(states, steps, QUIET, end, true);
  }

  const SAVED_A: map<string, Content> := map[STATE_NAME := PreparedJson(Some(map["a" := [Vhcu("a", 0)]]))]

  /** Claim "a" is prepared and saved, then deleted from the API server; claim "b" is there. */
  const ORPHANED: World :=
    World(map["a" := [Vhcu("a", 0)]], SAVED_A, map[0 := 0], {"b"}, Idle, Resting, {}, {})

  lemma OrphanedIsSound()
    ensures Sound(ORPHANED) && DiskOk(ORPHANED)
  {
    assert ORPHANED.ledger["a"] == [Vhcu("a", 0)];
    assert Indices(ORPHANED.ledger["a"]) == {0};
    TrackedContains(ORPHANED.ledger, "a");
  }

  /** A sweep of claim "a", up to the destroy of vHCU 0. */
  lemma SweepA(states: seq<World>, steps: seq<Step>, start: World, end: World)
      returns (states': seq<World>, steps': seq<Step>, end': World)
    requires RunTo(states, steps, start, end, false) && end.t.Resting? && !KubeletHolds(end)
    requires "a" in end.ledger && end.ledger["a"] == [Vhcu("a", 0)] && end.ledger.Keys - end.api == {"a"}
    ensures RunTo(states', steps', start, end', false)
    ensures end' == end.(ledger := end.ledger - {"a"}, host := end.host - {0}, t := Sweeping({}, {"a"}, []),
      leaked := end'.leaked, exposed := end'.exposed)
  {
    states', steps', end' := Extend(states, steps, start, end, false, T(TClean));
    states', steps', end' := Extend(states', steps', start, end', false, T(TList));
    states', steps', end' := Extend(states', steps', start, end', false, T(TTake("a")));
    assert {"a"} - {"a"} == {} && {} + {"a"} == {"a"} && [Vhcu("a", 0)][1..] == [];
    states', steps', end' := Extend(states', steps', start, end', false, T(TDestroy(false)));
  }

  /**
   A sweep of claim "a" destroys its vHCU, the process crashes before the save, and the restart finds claim "a" again.
   */
  lemma CrashInSweep() returns (states: seq<World>, steps: seq<Step>, end: World)
    ensures RunTo(states, steps, ORPHANED, end, false)
    ensures end == ORPHANED.(host := map[])
  {
    assert "a" in ORPHANED.ledger && ORPHANED.ledger.Keys - ORPHANED.api == {"a"};
    states, steps, end := SweepA([ORPHANED], [], ORPHANED, ORPHANED);
    assert end.host == map[];
    states, steps, end := Extend(states, steps, ORPHANED, end, false, Crash);
    assert end.host.Keys - Tracked(end.ledger) == {};
    states, steps, end := Extend(states, steps, ORPHANED, end, false, T(TEnumerate));
    states, steps, end := Extend(states, steps, ORPHANED, end, false, T(TReconciled));
  }

  /**
   A crash inside the sweep, after the destroy and before the save: the dead claim comes back from the state file, a new
   Prepare reuses its index, and the next sweep destroys the vHCU of the new, live claim. No save fails, no refresh
   hits.
   */
  lemma CrashInSweepKillsALiveClaim() returns (states: seq<World>, steps: seq<Step>)
    ensures IsRun(states, steps) && Sound(states[0]) && DiskOk(states[0])
    ensures forall k | 0 <= k < |steps| :: SavePasses(steps[k]) && !Hits(states[k], steps[k])
    ensures var s := states[|steps|];
            "b" in s.api && "b" in s.ledger && s.ledger["b"] == [Vhcu("b", 0)] && 0 !in s.host
  {
    var end;
    OrphanedIsSound();
    assert [] + [Vhcu("b", 0)] == [Vhcu("b", 0)];
    states, steps, end := CrashInSweep();
    states, steps, end := Extend(states, steps, ORPHANED, end, false, K(KPrepare("b")));
    states, steps, end := Extend(states, steps, ORPHANED, end, false, K(KCreate(Vhcu("b", 0), 0)));
    states, steps, end := Finish(states, steps, ORPHANED, end, false);
    assert end.ledger.Keys - end.api == {"a"};
    states, steps, end := SweepA(states, steps, ORPHANED, end);
  }

  /** Claim "b" has recorded vHCU 1. */
  lemma RecordB() returns (states: seq<World>, steps: seq<Step>, end: World)
    ensures RunTo(states, steps, ORPHANED, end, false)
    ensures end == ORPHANED.(ledger := ORPHANED.ledger["b" := [Vhcu("b", 1)]], host := map[0 := 0, 1 := 0],
      k := Recorded("b", [Vhcu("b", 1)]))
  {
    assert [] + [Vhcu("b", 1)] == [Vhcu("b", 1)];
    states, steps, end := Extend([ORPHANED], [], ORPHANED, ORPHANED, false, K(KPrepare("b")));
    states, steps, end := Extend(states, steps, ORPHANED, end, false, K(KCreate(Vhcu("b", 1), 0)));
    states, steps, end := Extend(states, steps, ORPHANED, end, false, K(KAttach));
    states, steps, end := Extend(states, steps, ORPHANED, end, false, K(KRecord));
  }

  /** Claim "b" has failed after recording vHCU 1, and has destroyed it, but its entry is still in the ledger. */
  lemma UndoB() returns (states: seq<World>, steps: seq<Step>, end: World)
    ensures RunTo(states, steps, ORPHANED, end, false)
    ensures end == ORPHANED.(ledger := ORPHANED.ledger["b" := [Vhcu("b", 1)]], k := Undoing("b", [Vhcu("b", 1)], []))
  {
    states, steps, end := RecordB();
    assert [Vhcu("b", 1)][1..] == [] && map[0 := 0, 1 := 0] - {1} == ORPHANED.host && {} - {1} == {};
    states, steps, end := Extend(states, steps, ORPHANED, end, false, K(KSyncsFail));
    states, steps, end := Extend(states, steps, ORPHANED, end, false, K(KDestroy(false)));
  }

  /** A complete sweep of claim "a". */
  lemma CompleteSweepA(states: seq<World>, steps: seq<Step>, start: World, end: World)
      returns (states': seq<World>, steps': seq<Step>, end': World)
    requires RunTo(states, steps, start, end, false) && end.t.Resting? && !KubeletHolds(end)
    requires "a" in end.ledger && end.ledger["a"] == [Vhcu("a", 0)] && end.ledger.Keys - end.api == {"a"}
    ensures RunTo(states', steps', start, end', false) && |steps'| > 0 && steps'[|steps'| - 1] == T(TRename(true))
    ensures end'.ledger == end.ledger - {"a"} == Restored(end'.files) && end'.host == end.host - {0} &&
      end'.api == end.api
  {
    states', steps', end' := SweepA(states, steps, start, end);
    states', steps', end' := Extend(states', steps', start, end', false, T(TSweepEnds));
    states', steps', end' := Extend(states', steps', start, end', false, T(TWrite(true, Bytes(""))));
    states', steps', end' := Extend(states', steps', start, end', false, T(TRename(true)));
  }

  /**
   A sweep for another claim saves the ledger while a failed Prepare has destroyed its vHCU but not yet taken back its
   entry. After a crash the restart finds the live claim recorded on a vHCU that is not there. No save fails, no refresh
   hits, and the sweep is complete.
   */
  lemma SweepSavesAFailedPrepare() returns (states: seq<World>, steps: seq<Step>)
    ensures IsRun(states, steps) && Sound(states[0]) && DiskOk(states[0])
    ensures forall k | 0 <= k < |steps| :: SavePasses(steps[k]) && !Hits(states[k], steps[k])
    ensures |steps| > 1 && steps[|steps| - 2] == T(TRename(true)) && steps[|steps| - 1] == Crash
    ensures var s := states[|steps|];
            "b" in s.api && "b" in s.ledger && s.ledger["b"] == [Vhcu("b", 1)] && 1 !in s.host
  {
    var end;
    OrphanedIsSound();
    states, steps, end := UndoB();
    assert end.ledger.Keys - end.api == {"a"};
    states, steps, end := CompleteSweepA(states, steps, ORPHANED, end);
    states, steps, end := Extend(states, steps, ORPHANED, end, false, Crash);
  }
}
