/**
 The node's operations are runs of the lifecycle: whatever a call may do to the ledger, the vHCUs and the state file,
 some run of steps does, so what holds along every run holds after every sequence of calls.
 */
module Simulation {
  import opened Types
  import opened Names
  import opened StateFile
  import opened Dcgm
  import opened Enumeration
  import opened Claims
  import opened Lifecycle
  import opened LifecycleInvariant
  import opened LifecycleDisk
  import opened LifecycleRuns

  /** A run without a crash and without a hit. */
  ghost predicate Leads(states: seq<World>, steps: seq<Step>, s: World, t: World) {
    && IsRun(states, steps) && states[0] == s && states[|steps|] == t
    && forall k | 0 <= k < |steps| :: !steps[k].Crash? && !Hits(states[k], steps[k])
  }

  ghost predicate Reaches(s: World, t: World) {
    exists states, steps :: Leads(states, steps, s, t)
  }

  lemma Stay(s: World)
    ensures Reaches(s, s)
  {
    assert Leads([s], [], s, s);
  }

  lemma Then(s: World, t: World, step: Step)
    requires Reaches(s, t) && Enabled(t, step) && !step.Crash? && !Hits(t, step)
    ensures Reaches(s, Apply(t, step))
  {
    var states, steps :| Leads(states, steps, s, t);
    RunSnoc(states, steps, step);
    assert Leads(states + [Apply(t, step)], steps + [step], s, Apply(t, step));
  }

  /** What one reaches without hits is as sound as where one started. */
  lemma ReachesSound(s: World, t: World)
    requires Reaches(s, t) && Sound(s) && !Spoilt(s)
    ensures Sound(t) && !Spoilt(t)
  {
    var states, steps :| Leads(states, steps, s, t);
    LedgerInvariant(states, steps, |steps|);
    SpoiltIffHit(states, steps, |steps|);
  }

  /** Both threads are between two calls. */
  predicate AtRest(s: World) { s.k.Idle? && s.t.Resting? }

  /**
   Between two calls the step layer asks of the ledger what the node's own invariant asks: vHCUs recorded once, and
   there.
   */
  lemma RestIsSound(s: World)
    requires AtRest(s)
    ensures Inv(s) <==> Distinct(s.ledger) && forall i | i in Tracked(s.ledger) :: i in s.host
    ensures Accounted(s) <==> forall i | i in s.host :: i in Tracked(s.ledger) || i in s.leaked
  {
  }

  /** The kubelet thread may start a call: it is between two calls, and the main thread does not hold the lock. */
  predicate KubeletFree(s: World) { s.k.Idle? && !TickerHolds(s) }

  /** The main thread may start a cleanup: it is between two rounds, and the kubelet thread does not hold the lock. */
  predicate TickerFree(s: World) { s.t.Resting? && !KubeletHolds(s) }

  /**
   A call of the kubelet thread has led from `s` to `t`: the main thread is where it was, and the state file has been
   replaced or still says the same.
   */
  ghost predicate Called(s: World, t: World, ledger: Ledger, host: map<int, int>, saved: bool) {
    && KubeletFree(t) && t.t == s.t && t.api == s.api && t.ledger == ledger && t.host == host
    && Restored(t.files) == if saved then ledger else Restored(s.files)
  }

  /** How a save ends: the state file is replaced, or the write fails and leaves anything, or the rename fails. */
  datatype SaveEnd = Replaced | Torn(junk: Content) | NotRenamed

  /** The files afterwards. */
  function Saved(files: map<string, Content>, ledger: Ledger, end: SaveEnd): map<string, Content> {
    match end
    case Replaced => files[STATE_NAME := PreparedJson(Some(ledger))] - {TMP_NAME}
    case Torn(junk) => files[TMP_NAME := junk]
    case NotRenamed => files[TMP_NAME := PreparedJson(Some(ledger))]
  }

  lemma SavedRestores(files: map<string, Content>, ledger: Ledger, end: SaveEnd)
    ensures Restored(Saved(files, ledger, end)) == if end.Replaced? then ledger else Restored(files)
  {
  }

  /** The save of the kubelet thread may end in any of these ways. */
  lemma SaveMayEnd(s: World, t: World, end: SaveEnd) returns (t': World)
    requires Reaches(s, t) && t.k.Saving? && !t.k.written
    ensures Reaches(s, t') && t' == t.(files := Saved(t.files, t.ledger, end), exposed := t'.exposed,
      k := AfterSave(t.k.uid, t.k.job))
  {
    var write := if end.Torn? then KWrite(false, end.junk) else KWrite(true, Bytes(""));
    Then(s, t, K(write));
    t' := Apply(t, K(write));
    if !end.Torn? {
      var rename := K(KRename(end.Replaced?));
      Then(s, t', rename);
      t' := Apply(t', rename);
      var all := t.files[TMP_NAME := PreparedJson(Some(t.ledger))];
      assert all[STATE_NAME := all[TMP_NAME]] - {TMP_NAME} == Saved(t.files, t.ledger, Replaced);
    }
  }

  /** The save at the end of the kubelet thread's lock section. */
  lemma Save(s: World, t: World, saved: bool) returns (t': World)
    requires Reaches(s, t) && t.k.Saving? && !t.k.written
    ensures Reaches(s, t') && t' == t.(files := t'.files, exposed := t'.exposed, k := AfterSave(t.k.uid, t.k.job))
    ensures Restored(t'.files) == if saved then t.ledger else Restored(t.files)
  {
    var end := if saved then Replaced else NotRenamed;
    t' := SaveMayEnd(s, t, end);
    SavedRestores(t.files, t.ledger, end);
  }

  lemma {:induction false} SameMap(v: map<int, int>, v': map<int, int>)
    requires forall i | i in v :: i in v' && v[i] == v'[i]
    requires forall i | i in v' :: i in v
    ensures v == v'
    decreases |v.Keys|
  {
    if v.Keys == {} {
      if |v'.Keys| != 0 {
        var i := SomeElement(v'.Keys);
      }
    } else {
      var i := SomeElement(v.Keys);
      SameMap(v - {i}, v' - {i});
      assert v == (v - {i})[i := v[i]] && v' == (v' - {i})[i := v[i]];
    }
  }

  lemma NothingDestroyed(v: map<int, int>, l: set<int>, v': map<int, int>, l': set<int>)
    requires Destroyed(v, l, v', l', {})
    ensures v == v' && l == l'
  {
    SameMap(v, v');
    assert forall i :: i in l <==> i in l';
  }

  lemma NothingGrew(v: map<int, int>, v': map<int, int>)
    requires Grew(v, v', [])
    ensures v == v'
  {
    SameMap(v, v');
  }

  /** One destroy on the way to v' and l'. */
  lemma OneDestroy(s: World, p: PreparedDevice, v': map<int, int>, l': set<int>, gone: set<int>, rest: set<int>)
    requires Destroyed(s.host, s.leaked, v', l', gone) && l' <= v'.Keys && s.leaked <= s.host.Keys
    requires Indices([p]) <= gone && gone - Indices([p]) <= rest <= gone
    ensures var s1 := DestroyDevice(s, p, !p.wholeCard && p.vdvInd in v');
            Destroyed(s1.host, s1.leaked, v', l', rest) && s1.leaked <= s1.host.Keys
  {
  }

  /** The kubelet thread once it owes no destroy. */
  function Settled(k: Kubelet): Kubelet {
    match k
    case RollingBack(uid, _) => RollingBack(uid, [])
    case Undoing(uid, created, _) => Undoing(uid, created, [])
    case Releasing(uid, _) => Releasing(uid, [])
    case _ => k
  }

  /** The destroys that the kubelet thread owes can end in any way that DestroyAll allows. */
  lemma {:induction false} DestroyOwed(s: World, t: World, v': map<int, int>, l': set<int>) returns (t': World)
    requires Reaches(s, t) && (t.k.Releasing? || t.k.RollingBack? || t.k.Undoing?)
    requires Destroyed(t.host, t.leaked, v', l', Indices(t.k.todo)) && l' <= v'.Keys && t.leaked <= t.host.Keys
    ensures Reaches(s, t') && t' == t.(host := v', leaked := l', k := Settled(t.k))
    decreases |t.k.todo|
  {
    if t.k.todo == [] {
      NothingDestroyed(t.host, t.leaked, v', l');
      return t;
    }
    var p := t.k.todo[0];
    var step := K(KDestroy(!p.wholeCard && p.vdvInd in v'));
    Then(s, t, step);
    IndicesTail(t.k.todo);
    OneDestroy(t, p, v', l', Indices(t.k.todo), Indices(t.k.todo[1..]));
    t' := DestroyOwed(s, Apply(t, step), v', l');
  }

  /** Whatever nodeUnprepareResource may do is a run. */
  lemma UnprepareIsARun(s: World, uid: UID, v': map<int, int>, l': set<int>, saved: bool) returns (t: World)
    requires KubeletFree(s) && s.leaked <= s.host.Keys && l' <= v'.Keys
    requires Destroyed(s.host, s.leaked, v', l', if uid in s.ledger then Indices(s.ledger[uid]) else {})
    ensures Reaches(s, t) && Called(s, t, s.ledger - {uid}, v', saved) && t.leaked == l'
  {
    Stay(s);
    Then(s, s, K(KUnprepare(uid)));
    t := Save(s, Apply(s, K(KUnprepare(uid))), saved);
    t := ReleaseMayEnd(s, t, v', l');
  }

  /** The unlocked destroys of Unprepare may end in any way they allow, whatever the main thread is doing. */
  lemma ReleaseMayEnd(s: World, t: World, v': map<int, int>, l': set<int>) returns (t': World)
    requires Reaches(s, t) && t.k.Releasing?
    requires Destroyed(t.host, t.leaked, v', l', Indices(t.k.todo)) && l' <= v'.Keys && t.leaked <= t.host.Keys
    ensures Reaches(s, t') && t' == t.(host := v', leaked := l', k := Idle)
  {
    t' := DestroyOwed(s, t, v', l');
    Then(s, t', K(KReleased));
    t' := Apply(t', K(KReleased));
  }

  /** Any list of new vHCUs can be created and attached. */
  lemma {:induction false} CreateAll(s: World, t: World, list: seq<PreparedDevice>, v': map<int, int>)
      returns (t': World)
    requires Reaches(s, t) && t.k.Creating? && Grew(t.host, v', list)
    ensures Reaches(s, t') && t' == t.(host := v', k := Creating(t.k.uid, t.k.created + list))
    decreases |list|
  {
    if list == [] {
      NothingGrew(t.host, v');
      assert t.k.created + [] == t.k.created;
      return t;
    }
    var p := list[0];
    IndicesTail(list);
    if p.wholeCard {
      Then(s, t, K(KWholeCard(p)));
      t' := Apply(t, K(KWholeCard(p)));
    } else {
      assert p.vdvInd in Indices(list);
      Then(s, t, K(KCreate(p, p.dvInd)));
      t' := Apply(t, K(KCreate(p, p.dvInd)));
      Then(s, t', K(KAttach));
      t' := Apply(t', K(KAttach));
    }
    assert t.k.created + list == t.k.created + [p] + list[1..];
    t' := CreateAll(s, t', list[1..], v');
  }

  /** Whatever a successful nodePrepareResource may do to a claim without recorded devices is a run. */
  lemma PrepareIsARun(s: World, uid: UID, list: seq<PreparedDevice>, v': map<int, int>, saved: bool) returns (t: World)
    requires KubeletFree(s) && !Known(s.ledger, uid) && Grew(s.host, v', list)
    ensures Reaches(s, t) && Called(s, t, s.ledger[uid := list], v', saved) && t.leaked == s.leaked
  {
    Stay(s);
    Then(s, s, K(KPrepare(uid)));
    t := CreateAll(s, Apply(s, K(KPrepare(uid))), list, v');
    assert [] + list == list;
    Then(s, t, K(KRecord));
    t := Apply(t, K(KRecord));
    Then(s, t, K(KSyncsPass));
    t := Save(s, Apply(t, K(KSyncsPass)), saved);
  }

  lemma GrewOne(v': map<int, int>, p: PreparedDevice)
    requires !p.wholeCard && p.vdvInd in v' && v'[p.vdvInd] == p.dvInd
    ensures Grew(v' - {p.vdvInd}, v', [p])
  {
    assert p in [p] && Indices([p]) == {p.vdvInd};
  }

  lemma GrewNone(v: map<int, int>, v': map<int, int>)
    requires (forall i | i in v :: i in v' && v'[i] == v[i]) && forall i | i in v' :: i in v
    ensures Grew(v, v', [])
  {
  }

  /** Records for the vHCUs that a failed Prepare leaves. */
  lemma {:induction false} RecordsFor(v: map<int, int>, v': map<int, int>) returns (list: seq<PreparedDevice>)
    requires forall i | i in v :: i in v' && v'[i] == v[i]
    ensures Grew(v, v', list)
    decreases |v'.Keys|
  {
    if i :| i in v' && i !in v {
      var p := PreparedDevice("", "", "", "", false, i, "", "", "", "", "", "", v'[i]);
      list := RecordsFor(v, v' - {i});
      GrewOne(v', p);
      GrewSnoc(v, v' - {i}, v', list, p);
      list := list + [p];
    } else {
      GrewNone(v, v');
      list := [];
    }
  }

  /** A failed Prepare that has created what it is going to leave. */
  lemma CreateLeft(s: World, uid: UID, v': map<int, int>, l': set<int>) returns (t: World, list: seq<PreparedDevice>)
    requires KubeletFree(s) && !Known(s.ledger, uid) && s.leaked <= s.host.Keys && l' <= v'.Keys &&
      Leaked(s.host, s.leaked, v', l')
    ensures Reaches(s, t) && t == s.(host := v', k := Creating(uid, list))
    ensures Destroyed(v', s.leaked, v', l', Indices(list)) && s.leaked <= v'.Keys
  {
    list := RecordsFor(s.host, v');
    Stay(s);
    Then(s, s, K(KPrepare(uid)));
    t := CreateAll(s, Apply(s, K(KPrepare(uid))), list, v');
    assert [] + list == list;
    assert s.leaked <= s.host.Keys <= v'.Keys;
  }

  /** The creation of a vHCU may fail, whatever the main thread is doing; it may still leave one. */
  lemma CreateMayFail(s: World, t: World, left: bool, i: int, card: int) returns (t': World)
    requires Reaches(s, t) && t.k.Creating? && (left ==> i !in t.host)
    ensures Reaches(s, t') && t' == t.(k := RollingBack(t.k.uid, t.k.created), host := t'.host, leaked := t'.leaked)
    ensures left ==> t'.host == t.host[i := card] && t'.leaked == t.leaked + {i}
    ensures !left ==> t'.host == t.host && t'.leaked == t.leaked
  {
    Then(s, t, K(KCreateFails(left, i, card)));
    t' := Apply(t, K(KCreateFails(left, i, card)));
  }

  /**
   What follows the creation, the query or the mark, may fail, whatever the main thread is doing: then the vHCU is
   destroyed first, which may fail too, and the rollback has the ones made before.
   */
  lemma AttachMayFail(s: World, t: World, v': map<int, int>, l': set<int>) returns (t': World)
    requires Reaches(s, t) && t.k.Attaching? && !t.k.vhcu.wholeCard
    requires Destroyed(t.host, t.leaked, v', l', {t.k.vhcu.vdvInd}) && l' <= v'.Keys && t.leaked <= t.host.Keys
    ensures Reaches(s, t') && t' == t.(host := v', leaked := l', k := RollingBack(t.k.uid, t.k.created))
  {
    var p := t.k.vhcu;
    Then(s, t, K(KAttachFails));
    t' := Apply(t, K(KAttachFails));
    Then(s, t', K(KDestroy(p.vdvInd in v')));
    assert Indices([p]) == {p.vdvInd} by {
      assert p in [p];
    }
    OneDestroy(t', p, v', l', {p.vdvInd}, {});
    t' := Apply(t', K(KDestroy(p.vdvInd in v')));
    NothingDestroyed(t'.host, t'.leaked, v', l');
  }

  /** A rollback may end in any way that its destroys allow, whatever the main thread is doing. */
  lemma RollbackMayEnd(s: World, t: World, v': map<int, int>, l': set<int>) returns (t': World)
    requires Reaches(s, t) && t.k.RollingBack?
    requires Destroyed(t.host, t.leaked, v', l', Indices(t.k.todo)) && l' <= v'.Keys && t.leaked <= t.host.Keys
    ensures Reaches(s, t') && t' == t.(host := v', leaked := l', k := Idle)
  {
    t' := DestroyOwed(s, t, v', l');
    Then(s, t', K(KRolledBack));
    t' := Apply(t', K(KRolledBack));
  }

  /** A Prepare may also fail without any call, at a card or a request that nobody knows. */
  lemma RejectMayEnd(s: World, t: World, v': map<int, int>, l': set<int>) returns (t': World)
    requires Reaches(s, t) && t.k.Creating?
    requires Destroyed(t.host, t.leaked, v', l', Indices(t.k.created)) && l' <= v'.Keys && t.leaked <= t.host.Keys
    ensures Reaches(s, t') && t' == t.(host := v', leaked := l', k := Idle)
  {
    Then(s, t, K(KReject));
    t' := RollbackMayEnd(s, Apply(t, K(KReject)), v', l');
  }

  /** Whatever a failed nodePrepareResource may leave on the host is a run: creates, a failure, and a rollback. */
  lemma RejectIsARun(s: World, uid: UID, v': map<int, int>, l': set<int>) returns (t: World)
    requires KubeletFree(s) && !Known(s.ledger, uid) && s.leaked <= s.host.Keys && l' <= v'.Keys &&
      Leaked(s.host, s.leaked, v', l')
    ensures Reaches(s, t) && Called(s, t, s.ledger, v', false) && t == s.(host := v', leaked := l')
  {
    var list;
    t, list := CreateLeft(s, uid, v', l');
    t := RejectMayEnd(s, t, v', l');
  }

  /** The same when the record was made and taken back: creates, the record, failed syncs, destroys, and the erasure. */
  lemma TakeBackIsARun(s: World, uid: UID, v': map<int, int>, l': set<int>, saved: bool) returns (t: World)
    requires KubeletFree(s) && !Known(s.ledger, uid) && s.leaked <= s.host.Keys && l' <= v'.Keys &&
      Leaked(s.host, s.leaked, v', l')
    ensures Reaches(s, t) && Called(s, t, s.ledger - {uid}, v', saved) && t.leaked == l'
  {
    var list;
    t, list := CreateLeft(s, uid, v', l');
    Then(s, t, K(KRecord));
    t := Apply(t, K(KRecord));
    Then(s, t, K(KSyncsFail));
    t := DestroyOwed(s, Apply(t, K(KSyncsFail)), v', l');
    assert t.ledger - {uid} == s.ledger - {uid};
    Then(s, t, K(KErase));
    t := Save(s, Apply(t, K(KErase)), saved);
  }

  /** The call has ended in `t`: with that ledger and those vHCUs, and a state file that holds `disk`. */
  ghost predicate Ended(s: World, t: World, ledger: Ledger, v': map<int, int>, l': set<int>, disk: Ledger) {
    && KubeletFree(t) && t.t == s.t && t.api == s.api && t.ledger == ledger && t.host == v' && t.leaked == l'
    && Restored(t.files) == disk
  }

  /** Whatever nodePrepareResource may do for a claim without recorded devices is a run; it may have made `list`. */
  lemma FreshIsARun(s: World, uid: UID, list: Option<seq<PreparedDevice>>, takenBack: bool, ledger: Ledger,
                    v': map<int, int>, l': set<int>, disk: Ledger) returns (t: World)
    requires KubeletFree(s) && !Known(s.ledger, uid) && s.leaked <= s.host.Keys && l' <= v'.Keys
    requires list.Some? ==> ledger == s.ledger[uid := list.value] && Grew(s.host, v', list.value) && l' == s.leaked
    requires list.None? ==>
      Leaked(s.host, s.leaked, v', l') && ledger == if takenBack then s.ledger - {uid} else s.ledger
    requires disk == Restored(s.files) || ((list.Some? || takenBack) && disk == ledger)
    ensures Reaches(s, t) && Ended(s, t, ledger, v', l', disk)
  {
    var saved := disk != Restored(s.files);
    if list.Some? {
      t := PrepareIsARun(s, uid, list.value, v', saved);
    } else if takenBack {
      t := TakeBackIsARun(s, uid, v', l', saved);
    } else {
      t := RejectIsARun(s, uid, v', l');
    }
  }

  /** The destroys for one orphan. */
  lemma {:induction false} SweepOne(s: World, t: World, v': map<int, int>, l': set<int>, gone: set<int>)
      returns (t': World)
    requires Reaches(s, t) && t.t.Sweeping? && Indices(t.t.todo) <= gone
    requires Destroyed(t.host, t.leaked, v', l', gone) && l' <= v'.Keys && t.leaked <= t.host.Keys
    ensures Reaches(s, t') && t' == t.(host := t'.host, leaked := t'.leaked, t := t.t.(todo := []))
    ensures Destroyed(t'.host, t'.leaked, v', l', gone - Indices(t.t.todo)) && t'.leaked <= t'.host.Keys
    decreases |t.t.todo|
  {
    if t.t.todo == [] {
      return t;
    }
    var p := t.t.todo[0];
    var step := T(TDestroy(!p.wholeCard && p.vdvInd in v'));
    Then(s, t, step);
    IndicesTail(t.t.todo);
    t' := Apply(t, step);
    var rest := gone - Indices([p]) + Indices(t.t.todo[1..]);
    OneDestroy(t, p, v', l', gone, rest);
    t' := SweepOne(s, t', v', l', rest);
    assert rest - Indices(t.t.todo[1..]) == gone - Indices(t.t.todo);
  }

  lemma TrackedByLess(ledger: Ledger, uids: set<UID>, u: UID)
    requires Distinct(ledger) && u in ledger && u in uids
    ensures Indices(ledger[u]) <= TrackedBy(ledger, uids)
    ensures TrackedBy(ledger - {u}, uids - {u}) == TrackedBy(ledger, uids) - Indices(ledger[u])
  {
    var rest: Ledger := ledger - {u};
    TrackedBySnoc(ledger, uids - {u}, u);
    assert uids - {u} + {u} == uids;
    assert TrackedBy(ledger, uids - {u}) == TrackedBy(rest, uids - {u});
    forall i | i in TrackedBy(rest, uids - {u}) ensures i !in Indices(ledger[u]) {
      var v, p :| v in rest && p in rest[v] && !p.wholeCard && p.vdvInd == i;
      assert i in Indices(ledger[v]);
    }
  }

  /** The destroys for all orphans, claim by claim in an arbitrary order. */
  lemma {:induction false} SweepAll(s: World, t: World, v': map<int, int>, l': set<int>) returns (t': World)
    requires Reaches(s, t) && t.t.Sweeping? && t.t.todo == [] && t.t.orphans <= t.ledger.Keys && Distinct(t.ledger)
    requires Destroyed(t.host, t.leaked, v', l', TrackedBy(t.ledger, t.t.orphans)) && l' <= v'.Keys &&
      t.leaked <= t.host.Keys
    ensures Reaches(s, t')
    ensures t' == t.(ledger := t.ledger - t.t.orphans, host := v', leaked := l', exposed := t'.exposed,
      t := Sweeping({}, t.t.gone + t.t.orphans, []))
    decreases |t.t.orphans|
  {
    if t.t.orphans == {} {
      assert TrackedBy(t.ledger, t.t.orphans) == {};
      NothingDestroyed(t.host, t.leaked, v', l');
      assert t.ledger - {} == t.ledger && t.t.gone + {} == t.t.gone;
      return t;
    }
    var u :| u in t.t.orphans;
    Then(s, t, T(TTake(u)));
    t' := Apply(t, T(TTake(u)));
    TrackedByLess(t.ledger, t.t.orphans, u);
    t' := SweepOne(s, t', v', l', TrackedBy(t.ledger, t.t.orphans));
    DistinctRemove(t.ledger, u);
    assert t.ledger - {u} - (t.t.orphans - {u}) == t.ledger - t.t.orphans;
    assert t.t.gone + {u} + (t.t.orphans - {u}) == t.t.gone + t.t.orphans;
    t' := SweepAll(s, t', v', l');
  }

  /** Whatever CleanupOrphanPreparedClaims may do, when the List call returns what the API server holds, is a run. */
  lemma CleanupIsARun(s: World, v': map<int, int>, l': set<int>, saved: bool) returns (t: World)
    requires TickerFree(s) && Distinct(s.ledger) && s.leaked <= s.host.Keys && l' <= v'.Keys
    requires Destroyed(s.host, s.leaked, v', l', TrackedBy(s.ledger, s.ledger.Keys - s.api))
    ensures Reaches(s, t) && t.k == s.k && t.t.Swept? && t.api == s.api
    ensures t.ledger == s.ledger - (s.ledger.Keys - s.api) && t.host == v' && t.leaked == l'
    ensures Restored(t.files) == if saved && s.ledger.Keys - s.api != {} then t.ledger else Restored(s.files)
  {
    var gone := s.ledger.Keys - s.api;
    Stay(s);
    Then(s, s, T(TClean));
    t := Apply(s, T(TClean));
    if t.t.Swept? {
      assert TrackedBy(s.ledger, gone) == {} && s.ledger - gone == s.ledger;
      NothingDestroyed(s.host, s.leaked, v', l');
      return;
    }
    Then(s, t, T(TList));
    t := SweepAll(s, Apply(t, T(TList)), v', l');
    assert {} + gone == gone;
    Then(s, t, T(TSweepEnds));
    t := Apply(t, T(TSweepEnds));
    if gone != {} {
      var end := if saved then Replaced else NotRenamed;
      SavedRestores(t.files, t.ledger, end);
      t := SweepSaveMayEnd(s, t, end);
    }
  }

  /** The save of a sweep may end in any way that a save may, whatever the kubelet thread is doing. */
  lemma SweepSaveMayEnd(s: World, t: World, end: SaveEnd) returns (t': World)
    requires Reaches(s, t) && t.t.SweepSaving? && !t.t.written
    ensures Reaches(s, t') && t' == t.(files := Saved(t.files, t.ledger, end), exposed := t'.exposed, t := Swept)
  {
    var write := if end.Torn? then TWrite(false, end.junk) else TWrite(true, Bytes(""));
    Then(s, t, T(write));
    t' := Apply(t, T(write));
    if !end.Torn? {
      var rename := T(TRename(end.Replaced?));
      Then(s, t', rename);
      t' := Apply(t', rename);
      var all := t.files[TMP_NAME := PreparedJson(Some(t.ledger))];
      assert all[STATE_NAME := all[TMP_NAME]] - {TMP_NAME} == Saved(t.files, t.ledger, Replaced);
    }
  }

  /** A reconcile may still end with these vHCUs. */
  ghost predicate Reconcilable(t: World, pending: set<int>, v': map<int, int>, l': set<int>) {
    && (forall i | i in v' :: i in t.host && v'[i] == t.host[i])
    && (forall i | i in t.host && i !in pending :: i in v')
    && (forall i | i in pending :: i in t.host && (i in l' <==> i in v'))
    && (forall i | i !in pending :: i in l' <==> i in t.leaked)
  }

  lemma NothingPending(t: World, v': map<int, int>, l': set<int>)
    requires Reconcilable(t, {}, v', l')
    ensures t.host == v' && t.leaked == l'
  {
    SameMap(t.host, v');
    assert forall i :: i in t.leaked <==> i in l';
  }

  /** The running Prepare, if any, keeps the vHCUs it has created. */
  ghost predicate SparesInFlight(t: World, v': map<int, int>) {
    forall i | i in InFlight(t.k) && i in t.host :: i in v'
  }

  /** The destroys of a reconcile, in an arbitrary order. */
  lemma {:induction false} ReconcileAll(s: World, t: World, v': map<int, int>, l': set<int>) returns (t': World)
    requires Reaches(s, t) && (t.t.Reconciling? || t.t.BootReconciling?) && Reconcilable(t, t.t.pending, v', l')
    requires SparesInFlight(t, v')
    ensures Reaches(s, t') && t' == t.(host := v', leaked := l', t := t.t.(pending := {}))
    decreases |t.t.pending|
  {
    if t.t.pending == {} {
      NothingPending(t, v', l');
      return t;
    }
    var i := SomeElement(t.t.pending);
    var step := T(TReconcile(i, i in v'));
    Then(s, t, step);
    OneReconcile(t, i, v', l');
    t' := ReconcileAll(s, Apply(t, step), v', l');
  }

  lemma OneReconcile(t: World, i: int, v': map<int, int>, l': set<int>)
    requires (t.t.Reconciling? || t.t.BootReconciling?) && i in t.t.pending && Reconcilable(t, t.t.pending, v', l')
    ensures Reconcilable(ApplyT(t, TReconcile(i, i in v')), t.t.pending - {i}, v', l')
  {
  }

  /** What a reconcile that has listed the vHCUs may do is what its destroys may do. */
  lemma DrainedIsReconcilable(t: World, v': map<int, int>, l': set<int>)
    requires Drained(t.ledger, t.host, t.leaked, v', l', 0) && l' <= v'.Keys && t.leaked <= t.host.Keys
    ensures Reconcilable(t, t.host.Keys - Tracked(t.ledger), v', l')
  {
  }

  /** Whatever RefreshAllocatable may do to the host is a run, as long as it hits no Prepare that is under way. */
  lemma RefreshIsARun(s: World, v': map<int, int>, l': set<int>, missed: int) returns (t: World)
    requires s.t.Swept? && !KubeletHolds(s) && Drained(s.ledger, s.host, s.leaked, v', l', missed)
    requires l' <= v'.Keys && s.leaked <= s.host.Keys && SparesInFlight(s, v')
    ensures Reaches(s, t) && t == s.(host := v', leaked := l', t := Resting)
  {
    Stay(s);
    Then(s, s, T(TRefresh));
    t := Apply(s, T(TRefresh));
    if missed == 1 {
      Then(s, t, T(TEnumerateFails));
      return Apply(t, T(TEnumerateFails));
    }
    Then(s, t, T(TEnumerate));
    DrainedIsReconcilable(t, v', l');
    t := ReconcileAll(s, Apply(t, T(TEnumerate)), v', l');
    Then(s, t, T(TReconciled));
    t := Apply(t, T(TReconciled));
  }

  /** The same between two calls, when it is only known how many listings may have failed. */
  lemma IdleRefreshIsARun(s: World, v': map<int, int>, l': set<int>, missed: int) returns (t: World)
    requires s.k.Idle? && s.t.Swept? && l' <= v'.Keys && s.leaked <= s.host.Keys
    requires || Drained(s.ledger, s.host, s.leaked, v', l', missed)
             || Drained(s.ledger, s.host, s.leaked, v', l', missed - 1)
    ensures Reaches(s, t) && t == s.(host := v', leaked := l', t := Resting)
  {
    var m := if Drained(s.ledger, s.host, s.leaked, v', l', missed) then missed else missed - 1;
    t := RefreshIsARun(s, v', l', m);
  }

  /** vHCUs that no restored entry names are left over after a crash. */
  function LeftOver(s: World): set<int> { s.host.Keys - Tracked(Restored(s.files)) }

  /** Whatever the reconcile of NewDeviceState may do after a crash is a run that starts with the restart. */
  lemma BootIsARun(s: World, v': map<int, int>, l': set<int>, missed: int) returns (t: World)
    requires Drained(Restored(s.files), s.host, LeftOver(s), v', l', missed) && l' <= v'.Keys
    ensures Enabled(s, Crash) && Apply(s, Crash) == Restart(s)
    ensures Reaches(Restart(s), t) && t == Restart(s).(host := v', leaked := l', t := t.t)
    ensures t.t == if missed == 1 then BootListing else BootReconciling({})
  {
    t := Restart(s);
    Stay(t);
    if missed == 0 {
      Then(t, t, T(TEnumerate));
      DrainedIsReconcilable(t, v', l');
      t := ReconcileAll(t, Apply(t, T(TEnumerate)), v', l');
    } else {
      assert t.host == v' && t.leaked == l';
    }
  }

  /** When NewDeviceState then returns, both threads start. */
  lemma RestartIsARun(s: World, v': map<int, int>, l': set<int>, missed: int) returns (t: World)
    requires Drained(Restored(s.files), s.host, LeftOver(s), v', l', missed) && l' <= v'.Keys
    ensures Reaches(Restart(s), t) && t == Restart(s).(host := v', leaked := l', k := Idle, t := Resting)
  {
    t := BootIsARun(s, v', l', missed);
    var step := T(if missed == 1 then TEnumerateFails else TReconciled);
    Then(Restart(s), t, step);
    t := Apply(t, step);
  }

  /** A crash and then the steps of a NewDeviceState whose DCGM calls all succeed. */
  ghost predicate Boots(states: seq<World>, steps: seq<Step>) {
    && IsRun(states, steps) && |steps| >= 1 && steps[0] == Crash
    && forall k | 1 <= k < |steps| :: CleanBoot(steps[k]) && states[k].k.Down?
  }

  lemma BootsSnoc(states: seq<World>, steps: seq<Step>, step: Step)
    requires Boots(states, steps) && states[|steps|].k.Down? && Enabled(states[|steps|], step) && CleanBoot(step)
    ensures Boots(states + [Apply(states[|steps|], step)], steps + [step])
  {
    RunSnoc(states, steps, step);
  }

  /** The reconcile of the start-up may run to its end. */
  lemma {:induction false} BootEnds(states: seq<World>, steps: seq<Step>)
      returns (states': seq<World>, steps': seq<Step>)
    requires Boots(states, steps) && states[|steps|].t.BootReconciling? && states[|steps|].k.Down?
    ensures Boots(states', steps') && states'[0] == states[0] && states'[|steps'|].t.Resting?
    decreases |states[|steps|].t.pending|
  {
    var t := states[|steps|];
    if t.t.pending == {} {
      BootsSnoc(states, steps, T(TReconciled));
      return states + [Apply(t, T(TReconciled))], steps + [T(TReconciled)];
    }
    var i := SomeElement(t.t.pending);
    BootsSnoc(states, steps, T(TReconcile(i, false)));
    states', steps' := BootEnds(states + [Apply(t, T(TReconcile(i, false)))], steps + [T(TReconcile(i, false))]);
  }

  /**
   After any crash that finds the exposed claims' saved vHCUs there is a failure-free restart, and it leaves exactly the
   vHCUs of the restored ledger.
   */
  lemma RecoveryHappens(s: World) returns (states: seq<World>, steps: seq<Step>)
    requires DiskOk(s) && CrashSafe(s)
    ensures Boots(states, steps) && states[0] == s && AtRest(states[|steps|])
    ensures states[|steps|].host.Keys == Tracked(Restored(s.files))
  {
    var r := Apply(s, Crash);
    RunSnoc([s], [], Crash);
    assert [s] + [r] == [s, r] && [] + [Crash] == [Crash];
    BootsSnoc([s, r], [Crash], T(TEnumerate));
    states, steps := BootEnds([s, r] + [Apply(r, T(TEnumerate))], [Crash] + [T(TEnumerate)]);
    RecoveryIsExact(states, steps, |steps|);
  }

  /** A List call may fail, if the ledger is not empty. */
  lemma FailedListIsARun(s: World) returns (t: World)
    requires TickerFree(s)
    ensures Reaches(s, t) && t == s.(t := Swept)
  {
    Stay(s);
    Then(s, s, T(TClean));
    t := Apply(s, T(TClean));
    if t.t.Listing? {
      Then(s, t, T(TListFails));
      t := Apply(t, T(TListFails));
    }
  }

  /** One run after another. */
  lemma Onwards(s: World, t: World, t': World)
    requires Reaches(s, t) && Reaches(t, t')
    ensures Reaches(s, t')
  {
    var states, steps :| Leads(states, steps, t, t');
    OnwardsTo(s, states, steps, |steps|);
  }

  lemma {:induction false} OnwardsTo(s: World, states: seq<World>, steps: seq<Step>, k: nat)
    requires |states| == |steps| + 1 && k <= |steps|
    requires Leads(states, steps, states[0], states[|steps|]) && Reaches(s, states[0])
    ensures Reaches(s, states[k])
  {
    if k > 0 {
      OnwardsTo(s, states, steps, k - 1);
      assert StepAt(states, steps, k - 1);
      Then(s, states[k - 1], steps[k - 1]);
    }
  }

  /** The API server may come to hold any claims. */
  lemma {:induction false} ApiChanges(s: World, t: World, api: set<UID>) returns (t': World)
    requires Reaches(s, t)
    ensures Reaches(s, t') && t' == t.(api := api)
    decreases t.api - api, api - t.api
  {
    if t.api - api != {} {
      var u :| u in t.api - api;
      Then(s, t, ApiRemove(u));
      t' := ApiChanges(s, Apply(t, ApiRemove(u)), api);
    } else if api - t.api != {} {
      var u :| u in api - t.api;
      Then(s, t, ApiAdd(u));
      assert t.api + {u} - api == t.api - api;
      t' := ApiChanges(s, Apply(t, ApiAdd(u)), api);
    } else {
      assert forall u :: u !in t.api - api && u !in api - t.api;
      assert t.api == api;
      t' := t;
    }
  }
}
