/**
 The driver's methods, started from any state of the node that the step layer shows, end in a state that it reaches: any
 sequence of calls is a run, and so is a crash with the restart after it; both keep what holds along every run.
 */
module NodeRuns {
  import opened Types
  import opened Names
  import opened StateFile
  import opened Storage
  import opened Persistence
  import opened Dcgm
  import opened Node
  import opened Enumeration
  import opened Claims
  import opened DriverPlugin
  import opened Lifecycle
  import opened LifecycleRuns
  import opened Simulation

  /** The world holds what is on the node: vHCUs, what is left over, and the ledger that a restart would find. */
  ghost predicate OnNode(s: World, layout: Layout, cdi: Directory, host: Host)
    reads cdi, host
  {
    && s.host == host.vdevs && s.leaked == host.leaked
    && Restored(s.files) == Decoded(FileAt(cdi.entries, layout.state))
  }

  /** The world shows the state between two calls. */
  ghost predicate Shows(s: World, state: DeviceState)
    reads state, state.cdi, state.host
  {
    AtRest(s) && s.ledger == state.prepared && OnNode(s, state.layout, state.cdi, state.host)
  }

  /** A refresh that has changed nothing may have missed the listing. */
  function Missed(s: World, v': map<int, int>, l': set<int>): int {
    if v' == s.host && l' == s.leaked then 1 else 0
  }

  /** nodePrepareResource is a run. */
  method Prepare(driver: Driver, claim: ResourceClaim, ghost s: World) returns (r: PrepareResult, ghost t: World)
    requires driver.state.Valid() && Shows(s, driver.state)
    modifies driver.state`prepared, driver.state.cdi, driver.state.marks, driver.state.host`vdevs,
      driver.state.host`sizes, driver.state.host`leaked, driver.state.host`failures, driver.state.host`lapses
    ensures driver.state.Valid() && Reaches(s, t) && Shows(t, driver.state) && t.api == s.api
    ensures old(driver.state.Consistent()) ==> driver.state.Consistent()
  {
    var state := driver.state;
    ghost var touched, outcome;
    r, touched, outcome := driver.NodePrepareResource(claim);
    if Known(s.ledger, claim.uid) {
      Stay(s);
      t := s;
    } else {
      ghost var list := if r.Devices? then Some(state.prepared[claim.uid]) else None;
      t := FreshIsARun(s, claim.uid, list, outcome.TakenBack?, state.prepared, state.host.vdevs, state.host.leaked,
        Decoded(FileAt(state.cdi.entries, state.layout.state)));
    }
  }

  /** nodeUnprepareResource is a run. */
  method Unprepare(driver: Driver, uid: UID, ghost s: World) returns (ghost t: World)
    requires driver.state.Valid() && Shows(s, driver.state)
    modifies driver.state`prepared, driver.state.cdi, driver.state.marks, driver.state.host`vdevs,
      driver.state.host`leaked, driver.state.host`failures, driver.state.host`lapses
    ensures driver.state.Valid() && Reaches(s, t) && Shows(t, driver.state) && t.api == s.api
    ensures old(driver.state.Consistent()) ==> driver.state.Consistent()
  {
    var state := driver.state;
    ghost var clean := driver.NodeUnprepareResource(uid);
    t := UnprepareIsARun(s, uid, state.host.vdevs, state.host.leaked, state.Saved());
  }

  /** A round of the main thread, orphan cleanup and refresh, is a run, when the API server holds what List returns. */
  method Tick(state: DeviceState, listed: Option<seq<UID>>, ghost s: World) returns (ok: bool, ghost t: World)
    requires state.Valid() && state.Consistent() && Shows(s, state)
    requires listed.Some? ==> s.api == set u | u in listed.value
    modifies state`prepared, state`allocatable, state.cdi, state.marks, state.host`vdevs, state.host`leaked,
      state.host`failures, state.host`lapses
    ensures state.Valid() && state.Consistent() && Reaches(s, t) && Shows(t, state) && t.api == s.api
  {
    t := Cleanup(state, listed, s);
    ok, t := Refresh(state, s, t);
  }

  /** CleanupOrphanPreparedClaims. */
  method Cleanup(state: DeviceState, listed: Option<seq<UID>>, ghost s: World) returns (ghost t: World)
    requires state.Valid() && state.Consistent() && Shows(s, state)
    requires listed.Some? ==> s.api == set u | u in listed.value
    modifies state`prepared, state.cdi, state.marks, state.host`vdevs, state.host`leaked, state.host`failures,
      state.host`lapses
    ensures state.Valid() && state.Consistent() && Reaches(s, t) && t.api == s.api && t.k.Idle? && t.t.Swept?
    ensures t.ledger == state.prepared && OnNode(t, state.layout, state.cdi, state.host)
  {
    ghost var gone, clean := state.CleanupOrphanPreparedClaims(listed);
    if listed.Some? {
      t := CleanupIsARun(s, state.host.vdevs, state.host.leaked, state.Saved());
    } else {
      t := FailedListIsARun(s);
      NoneGone(s.ledger);
      NothingDestroyed(s.host, s.leaked, state.host.vdevs, state.host.leaked);
    }
  }

  /** RefreshAllocatable, after a cleanup that has led to `t`. */
  method Refresh(state: DeviceState, ghost s: World, ghost t: World) returns (ok: bool, ghost t': World)
    requires state.Valid() && Reaches(s, t) && t.k.Idle? && t.t.Swept?
    requires t.ledger == state.prepared && OnNode(t, state.layout, state.cdi, state.host)
    modifies state`allocatable, state.cdi, state.host`vdevs, state.host`leaked, state.host`failures, state.host`lapses
    ensures state.Valid() && Reaches(s, t') && Shows(t', state) && t'.api == t.api
    ensures old(state.Consistent()) ==> state.Consistent()
  {
    ok := state.RefreshAllocatable();
    t' := IdleRefreshIsARun(t, state.host.vdevs, state.host.leaked,
      (state.host.failures - old(state.host.failures)) - (state.host.lapses - old(state.host.lapses)));
    Onwards(s, t, t');
  }

  /** A crash, whatever the process was doing, and NewDeviceState; the process has stopped if that fails. */
  method CrashAndRestart(layout: Layout, cdi: Directory, marks: Directory, host: Host, ghost s: World)
      returns (state: DeviceState?, ghost t: World)
    requires layout.Ok() && cdi != marks && host.Valid() && OnNode(s, layout, cdi, host)
    modifies cdi, marks, host`vdevs, host`leaked, host`failures, host`lapses
    ensures Reaches(Restart(s), t) && host.Valid() && OnNode(t, layout, cdi, host) && t.api == s.api
    ensures state != null ==> fresh(state) && state.Valid() && Shows(t, state) && state.host == host
  {
    host.leaked := LeftOver(s);
    ghost var clean;
    state, clean := NewDeviceState(layout, cdi, marks, host);
    if state == null {
      ghost var missed :| Drained(Restored(s.files), s.host, LeftOver(s), host.vdevs, host.leaked, missed);
      t := BootIsARun(s, host.vdevs, host.leaked, missed);
    } else {
      t := RestartIsARun(s, host.vdevs, host.leaked, Missed(Restart(s), host.vdevs, host.leaked));
    }
  }

  /** A call that the node has to serve; `listed` is what the API server holds, if the List call succeeds. */
  datatype Call = PrepareCall(claim: ResourceClaim) | UnprepareCall(uid: UID) | TickCall(listed: Option<seq<UID>>)

  /** One call, from a state shown by `s`. */
  method Serve(driver: Driver, call: Call, ghost s: World) returns (ghost t: World)
    requires driver.state.Valid() && driver.state.Consistent() && Shows(s, driver.state)
    modifies driver.state, driver.state.cdi, driver.state.marks, driver.state.host
    ensures driver.state.Valid() && driver.state.Consistent() && Reaches(s, t) && Shows(t, driver.state)
  {
    match call
    case PrepareCall(claim) =>
      var r;
      r, t := Prepare(driver, claim, s);
    case UnprepareCall(uid) =>
      t := Unprepare(driver, uid, s);
    case TickCall(listed) =>
      ghost var s' := s;
      Stay(s);
      if listed.Some? {
        s' := ApiChanges(s, s, set u | u in listed.value);
      }
      var ok;
      ok, t := Tick(driver.state, listed, s');
      Onwards(s, s', t);
  }

  /**
   Any sequence of calls, whatever they fail at, is a run of the step layer; so at its end every recorded vHCU exists
   and is recorded once, and every vHCU that exists is recorded or was left by a failed call or a crash.
   */
  method ServeAll(driver: Driver, calls: seq<Call>, ghost s: World) returns (ghost t: World)
    requires driver.state.Valid() && driver.state.Consistent() && Shows(s, driver.state) && Sound(s)
    modifies driver.state, driver.state.cdi, driver.state.marks, driver.state.host
    ensures driver.state.Valid() && Reaches(s, t) && Shows(t, driver.state) && Sound(t)
    ensures Distinct(driver.state.prepared)
    ensures forall i | i in driver.state.host.vdevs ::
      i in Tracked(driver.state.prepared) || i in driver.state.host.leaked
    ensures forall i | i in Tracked(driver.state.prepared) ::
      i in driver.state.host.vdevs && i !in driver.state.host.leaked
  {
    Stay(s);
    t := s;
    for k := 0 to |calls|
      invariant driver.state.Valid() && driver.state.Consistent() && Reaches(s, t) && Shows(t, driver.state)
    {
      ghost var before := t;
      t := Serve(driver, calls[k], before);
      Onwards(s, before, t);
    }
    ReachesSound(s, t);
    RestIsSound(t);
  }
}
