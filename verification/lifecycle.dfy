/**
 The claim lifecycle as a transition system: the kubelet thread (Prepare and Unprepare, serialized), the main thread
 (start-up, orphan sweep, refresh), the API server and crashes, interleaved at the granularity of the driver's lock.
 Every call into DCGM or the file system may fail.
 */
module Lifecycle {
  import opened Types
  import opened Names
  import opened StateFile

  /** Which lock section is about to end with savePreparedState. */
  datatype Job = Prepare | Erase | Unprepare(captured: seq<PreparedDevice>)

  /** Where the kubelet thread is. `Recorded` and `Saving` hold the lock. */
  datatype Kubelet =
    | Down                                                                    // plugin not started yet
    | Idle
    | Creating(uid: UID, created: seq<PreparedDevice>)                        // prepareAllocatedDevices
    | Attaching(uid: UID, created: seq<PreparedDevice>, vhcu: PreparedDevice) // CreateVDevices has returned
    | Dropping(uid: UID, created: seq<PreparedDevice>, vhcu: PreparedDevice)  // its follow-up failed
    | RollingBack(uid: UID, todo: seq<PreparedDevice>)                        // rollbackCreatedVDevices
    | Recorded(uid: UID, created: seq<PreparedDevice>)                        // ledger entry made, syncs running
    | Undoing(uid: UID, created: seq<PreparedDevice>, todo: seq<PreparedDevice>)  // syncs failed, lock released
    | Saving(uid: UID, job: Job, written: bool)
    | Releasing(uid: UID, todo: seq<PreparedDevice>)                          // Unprepare's destroys, lock released

  /** Where the main thread is. All but the `Boot` states, `Resting` and `Swept` hold the lock. */
  datatype Ticker =
    | BootListing
    | BootReconciling(pending: set<int>)
    | Resting
    | Listing                                                                 // orphan cleanup, before the List call
    | Sweeping(orphans: set<UID>, gone: set<UID>, todo: seq<PreparedDevice>)
    | SweepSaving(gone: set<UID>, written: bool)
    | Swept                                                                   // between cleanup and refresh
    | Refreshing
    | Reconciling(pending: set<int>)

  /**
   `host` maps each vHCU index to its card. Two components are bookkeeping only, read by no step: `leaked`, the vHCUs a
   failed DCGM call or a crash left behind, and `exposed`, the claims whose entry in the state file may name vHCUs that
   are already being destroyed.
   */
  datatype World = World(
    ledger: Ledger, files: map<string, Content>, host: map<int, int>, api: set<UID>,
    k: Kubelet, t: Ticker, leaked: set<int>, exposed: set<UID>)

  datatype KubeletStep =
    | KPrepare(uid: UID)                     // prepareExistingClaim
    | KWholeCard(device: PreparedDevice)
    | KCreate(device: PreparedDevice, card: int)
    | KCreateFails(left: bool, i: int, card: int)  // may still leave a vHCU behind
    | KAttach
    | KAttachFails
    | KReject
    | KDestroy(stays: bool)                  // one DestroySingleVDevice; `stays`: the vHCU is still there afterwards
    | KRolledBack
    | KRecord
    | KSyncsPass
    | KSyncsFail
    | KErase
    | KUnprepare(uid: UID)
    | KReleased
    | KWrite(ok: bool, junk: Content)
    | KRename(ok: bool)

  datatype TickerStep =
    | TClean
    | TListFails
    | TList
    | TTake(uid: UID)
    | TDestroy(stays: bool)
    | TSweepEnds
    | TWrite(ok: bool, junk: Content)
    | TRename(ok: bool)
    | TRefresh
    | TEnumerateFails
    | TEnumerate                             // VDeviceInfos, then the difference with the tracked set
    | TReconcile(i: int, stays: bool)
    | TReconciled

  datatype Step = K(kubelet: KubeletStep) | T(ticker: TickerStep) | ApiAdd(uid: UID) | ApiRemove(uid: UID) | Crash

  predicate KubeletHolds(s: World) { s.k.Recorded? || s.k.Saving? }

  predicate TickerHolds(s: World) {
    s.t.Listing? || s.t.Sweeping? || s.t.SweepSaving? || s.t.Refreshing? || s.t.Reconciling?
  }

  /** The devices whose destruction the kubelet thread still owes. */
  function Owed(k: Kubelet): seq<PreparedDevice> {
    match k
    case Dropping(_, created, vhcu) => [vhcu]
    case RollingBack(_, todo) => todo
    case Undoing(_, _, todo) => todo
    case Releasing(_, todo) => todo
    case _ => []
  }

  /** One DestroySingleVDevice. An error says nothing about whether the vHCU is gone. */
  function Destroy(s: World, i: int, stays: bool): World {
    if stays then s.(leaked := if i in s.host then s.leaked + {i} else s.leaked - {i})
    else s.(host := s.host - {i}, leaked := s.leaked - {i})
  }

  function DestroyDevice(s: World, p: PreparedDevice, stays: bool): World {
    if p.wholeCard then s else Destroy(s, p.vdvInd, stays)
  }

  /** The kubelet thread after the destroy it owed first. */
  function Advance(k: Kubelet): Kubelet {
    match k
    case Dropping(uid, created, _) => RollingBack(uid, created)
    case RollingBack(uid, todo) => RollingBack(uid, if todo == [] then [] else todo[1..])
    case Undoing(uid, created, todo) => Undoing(uid, created, if todo == [] then [] else todo[1..])
    case Releasing(uid, todo) => Releasing(uid, if todo == [] then [] else todo[1..])
    case _ => k
  }

  predicate EnabledK(s: World, step: KubeletStep) {
    match step
    case KPrepare(_) => s.k.Idle? && !TickerHolds(s)
    case KWholeCard(d) => s.k.Creating? && d.wholeCard
    case KCreate(d, _) => s.k.Creating? && !d.wholeCard && d.vdvInd !in s.host
    case KCreateFails(left, i, _) => s.k.Creating? && (left ==> i !in s.host)
    case KAttach => s.k.Attaching?
    case KAttachFails => s.k.Attaching?
    case KReject => s.k.Creating?
    case KDestroy(_) => Owed(s.k) != []
    case KRolledBack => s.k.RollingBack? && s.k.todo == []
    case KRecord => s.k.Creating? && !TickerHolds(s)
    case KSyncsPass => s.k.Recorded?
    case KSyncsFail => s.k.Recorded?
    case KErase => s.k.Undoing? && s.k.todo == [] && !TickerHolds(s)
    case KUnprepare(_) => s.k.Idle? && !TickerHolds(s)
    case KReleased => s.k.Releasing? && s.k.todo == []
    case KWrite(_, _) => s.k.Saving? && !s.k.written
    case KRename(_) => s.k.Saving? && s.k.written
  }

  predicate EnabledT(s: World, step: TickerStep) {
    match step
    case TClean => s.t.Resting? && !KubeletHolds(s)
    case TListFails => s.t.Listing?
    case TList => s.t.Listing?
    case TTake(uid) => s.t.Sweeping? && s.t.todo == [] && uid in s.t.orphans && uid in s.ledger
    case TDestroy(_) => s.t.Sweeping? && s.t.todo != []
    case TSweepEnds => s.t.Sweeping? && s.t.todo == [] && s.t.orphans == {}
    case TWrite(_, _) => s.t.SweepSaving? && !s.t.written
    case TRename(_) => s.t.SweepSaving? && s.t.written
    case TRefresh => s.t.Swept? && !KubeletHolds(s)
    case TEnumerateFails => s.t.Refreshing? || s.t.BootListing?
    case TEnumerate => s.t.Refreshing? || s.t.BootListing?
    case TReconcile(i, _) => (s.t.Reconciling? || s.t.BootReconciling?) && i in s.t.pending
    case TReconciled => (s.t.Reconciling? || s.t.BootReconciling?) && s.t.pending == {}
  }

  predicate Enabled(s: World, step: Step) {
    (step.K? ==> EnabledK(s, step.kubelet)) && (step.T? ==> EnabledT(s, step.ticker))
  }

  /** Where the kubelet thread goes when its lock section ends. */
  function AfterSave(uid: UID, job: Job): Kubelet {
    if job.Unprepare? then Releasing(uid, job.captured) else Idle
  }

  function ApplyK(s: World, step: KubeletStep): World
    requires EnabledK(s, step)
  {
    match step
    case KPrepare(uid) =>
      if uid in s.ledger && s.ledger[uid] != [] then s else s.(k := Creating(uid, []))
    case KWholeCard(d) => s.(k := Creating(s.k.uid, s.k.created + [d]))
    case KCreate(d, card) =>
      s.(host := s.host[d.vdvInd := card], k := Attaching(s.k.uid, s.k.created, d))
    case KCreateFails(left, i, card) =>
      var s' := s.(k := RollingBack(s.k.uid, s.k.created));
      if left then s'.(host := s.host[i := card], leaked := s.leaked + {i}) else s'
    case KAttach => s.(k := Creating(s.k.uid, s.k.created + [s.k.vhcu]))
    case KAttachFails => s.(k := Dropping(s.k.uid, s.k.created, s.k.vhcu))
    case KReject => s.(k := RollingBack(s.k.uid, s.k.created))
    case KDestroy(stays) => DestroyDevice(s, Owed(s.k)[0], stays).(k := Advance(s.k))
    case KRolledBack => s.(k := Idle)
    case KRecord => s.(ledger := s.ledger[s.k.uid := s.k.created], k := Recorded(s.k.uid, s.k.created))
    case KSyncsPass => s.(k := Saving(s.k.uid, Prepare, false))
    case KSyncsFail => s.(k := Undoing(s.k.uid, s.k.created, s.k.created))
    case KErase => s.(ledger := s.ledger - {s.k.uid}, k := Saving(s.k.uid, Erase, false))
    case KUnprepare(uid) =>
      var captured := if uid in s.ledger then s.ledger[uid] else [];
      s.(ledger := s.ledger - {uid}, k := Saving(uid, Unprepare(captured), false))
    case KReleased => s.(k := Idle)
    case KWrite(ok, junk) =>
      if ok then s.(files := s.files[TMP_NAME := PreparedJson(Some(s.ledger))], k := s.k.(written := true))
      else s.(files := s.files[TMP_NAME := junk], k := AfterSave(s.k.uid, s.k.job))
    case KRename(ok) =>
      var s' := s.(k := AfterSave(s.k.uid, s.k.job));
      if ok && TMP_NAME in s.files
      then s'.(files := s.files[STATE_NAME := s.files[TMP_NAME]] - {TMP_NAME}, exposed := {})
      else s'
  }

  /** A failed Prepare has its entry still in the ledger, with vHCUs that are gone or still to be destroyed. */
  predicate Failing(s: World) {
    s.k.Undoing? && s.k.uid in s.ledger && (Indices(s.k.todo) != {} || !(Indices(s.k.created) <= s.host.Keys))
  }

  function ApplyT(s: World, step: TickerStep): World
    requires EnabledT(s, step)
  {
    match step
    case TClean => s.(t := if s.ledger == map[] then Swept else Listing)
    case TListFails => s.(t := Swept)
    case TList => s.(t := Sweeping(s.ledger.Keys - s.api, {}, []))
    case TTake(uid) =>
      s.(ledger := s.ledger - {uid}, exposed := s.exposed + {uid},
         t := Sweeping(s.t.orphans - {uid}, s.t.gone + {uid}, s.ledger[uid]))
    case TDestroy(stays) =>
      DestroyDevice(s, s.t.todo[0], stays).(t := s.t.(todo := s.t.todo[1..]))
    case TSweepEnds => s.(t := if s.t.gone == {} then Swept else SweepSaving(s.t.gone, false))
    case TWrite(ok, junk) =>
      if ok then s.(files := s.files[TMP_NAME := PreparedJson(Some(s.ledger))], t := s.t.(written := true))
      else s.(files := s.files[TMP_NAME := junk], t := Swept)
    case TRename(ok) =>
      if ok && TMP_NAME in s.files
      then s.(files := s.files[STATE_NAME := s.files[TMP_NAME]] - {TMP_NAME}, t := Swept,
              exposed := if Failing(s) then {s.k.uid} else {})
      else s.(t := Swept)
    case TRefresh => s.(t := Refreshing)
    case TEnumerateFails => if s.t.Refreshing? then s.(t := Resting) else Start(s)
    case TEnumerate =>
      var stale := s.host.Keys - Tracked(s.ledger);
      s.(t := if s.t.Refreshing? then Reconciling(stale) else BootReconciling(stale))
    case TReconcile(i, stays) => Destroy(s, i, stays).(t := s.t.(pending := s.t.pending - {i}))
    case TReconciled => if s.t.Reconciling? then s.(t := Resting) else Start(s)
  }

  /** The process dies and NewDeviceState reads the state file again. */
  function Restart(s: World): World {
    var ledger := Restored(s.files);
    s.(ledger := ledger, k := Down, t := BootListing, leaked := s.host.Keys - Tracked(ledger), exposed := {})
  }

  function Apply(s: World, step: Step): World
    requires Enabled(s, step)
  {
    match step
    case K(kubelet) => ApplyK(s, kubelet)
    case T(ticker) => ApplyT(s, ticker)
    case ApiAdd(uid) => s.(api := s.api + {uid})
    case ApiRemove(uid) => s.(api := s.api - {uid})
    case Crash => Restart(s)
  }

  /** NewDeviceState has returned: the kubelet plugin starts, the main thread goes on to its first cleanup. */
  function Start(s: World): World { s.(k := Idle, t := Resting) }
}
